/** The whole-state operations: the snapshot written by export, the per-field
    merge done by import once the file has been read and parsed, and the reset
    done by clear-all. Reading the file, JSON text and the download are not
    part of this model; a parsed document is. */
module Storage {
  import opened Results
  import opened Ledger

  /** A top-level field of the imported document: an array (with the records
      it holds) or anything else, a missing field included. */
  datatype Field<T> = Array(items: seq<T>) | NotArray

  /** The `settings` field: a non-null object (arrays are objects too) or anything else. */
  datatype SettingsField = Object(settings: Settings) | NotObject

  /** The outcome of parsing the file: text that is not JSON, the JSON `null`
      (reading a property of it throws), or any other JSON value, seen through
      the six properties import reads. A number or a string reads as having
      none of them. */
  datatype Document =
    | Malformed
    | Null
    | Value(
        accounts: Field<Account>, categories: Field<Category>, budgets: Field<Budget>,
        txns: Field<Txn>, debts: Field<Debt>, settings: SettingsField)

  const InvalidFile := "Invalid file"

  /** The payload export writes: every collection under its own key. */
  function Export(s: State): (doc: Document)
    ensures doc.Value?
    ensures doc.accounts.Array? && doc.categories.Array? && doc.budgets.Array?
    ensures doc.txns.Array? && doc.debts.Array? && doc.settings.Object?
    ensures doc.accounts.items == s.accounts && doc.categories.items == s.categories
    ensures doc.budgets.items == s.budgets && doc.txns.items == s.txns
    ensures doc.debts.items == s.debts && doc.settings.settings == s.settings
  {
    Value(Array(s.accounts), Array(s.categories), Array(s.budgets),
          Array(s.txns), Array(s.debts), Object(s.settings))
  }

  function Pick<T>(f: Field<T>, current: seq<T>): (r: seq<T>)
    ensures f.Array? ==> r == f.items
    ensures f.NotArray? ==> r == current
  {
    match f
    case Array(items) => items
    case NotArray => current
  }

  /** The merge step of `importData`: each collection is replaced only by an
      array, settings only by an object, and everything else keeps its
      previous value. A file that does not parse, or parses to `null`, is
      rejected and changes nothing. */
  function Import(s: State, doc: Document): (r: Result<State>)
    ensures r.Err? <==> doc.Malformed? || doc.Null?
    ensures r.Err? ==> r.message == InvalidFile
    ensures r.Ok? ==> r.value.accounts == (if doc.accounts.Array? then doc.accounts.items else s.accounts)
    ensures r.Ok? ==> r.value.categories == (if doc.categories.Array? then doc.categories.items else s.categories)
    ensures r.Ok? ==> r.value.budgets == (if doc.budgets.Array? then doc.budgets.items else s.budgets)
    ensures r.Ok? ==> r.value.txns == (if doc.txns.Array? then doc.txns.items else s.txns)
    ensures r.Ok? ==> r.value.debts == (if doc.debts.Array? then doc.debts.items else s.debts)
    ensures r.Ok? ==> r.value.settings == (if doc.settings.Object? then doc.settings.settings else s.settings)
  {
    match doc
    case Malformed => Err(InvalidFile)
    case Null => Err(InvalidFile)
    case Value(accounts, categories, budgets, txns, debts, settings) =>
      Ok(State(
        Pick(accounts, s.accounts), Pick(categories, s.categories), Pick(budgets, s.budgets),
        Pick(txns, s.txns), Pick(debts, s.debts),
        if settings.Object? then settings.settings else s.settings))
  }

  /** Export then import reproduces the exported state, whatever the
      importing device held before. */
  lemma ImportOfExport(s: State, current: State)
    ensures Import(current, Export(s)) == Ok(s)
  {
  }

  /** A parsed document with none of the six fields in a usable shape is
      accepted and changes nothing. */
  lemma ImportOfNothingKeeps(s: State)
    ensures Import(s, Value(NotArray, NotArray, NotArray, NotArray, NotArray, NotObject)) == Ok(s)
  {
  }

  /** Importing the same file twice gives the same state as importing it once. */
  lemma ImportIdempotent(s: State, doc: Document)
    requires Import(s, doc).Ok?
    ensures Import(Import(s, doc).value, doc) == Import(s, doc)
  {
  }

  /** Each collection is merged on its own: which fields of the document are
      arrays decides which collections change, and the others are untouched.
      A corollary of `Import`'s contract, stated per collection. */
  lemma ImportFieldsIndependent(s: State, doc: Document)
    requires doc.Value?
    ensures doc.accounts.NotArray? ==> Agree(s, Import(s, doc).value, Accounts)
    ensures doc.categories.NotArray? ==> Agree(s, Import(s, doc).value, Categories)
    ensures doc.budgets.NotArray? ==> Agree(s, Import(s, doc).value, Budgets)
    ensures doc.txns.NotArray? ==> Agree(s, Import(s, doc).value, Txns)
    ensures doc.debts.NotArray? ==> Agree(s, Import(s, doc).value, Debts)
    ensures doc.settings.NotObject? ==> Agree(s, Import(s, doc).value, Prefs)
  {
  }

  /** `clearAllData`: once confirmed, every list is empty and cash handling
      is off; declining the confirmation changes nothing. */
  function ClearAll(s: State, confirmed: bool): (r: State)
    ensures confirmed ==> r.accounts == [] && r.categories == [] && r.budgets == []
    ensures confirmed ==> r.txns == [] && r.debts == [] && !r.settings.cashHandling
    ensures !confirmed ==> r == s
  {
    if confirmed then Initial else s
  }

  /** A cleared device restored from an export holds the exported state
      again; a corollary of `ImportOfExport` for the cleared state. */
  lemma RestoreAfterClear(s: State)
    ensures Import(ClearAll(s, true), Export(s)) == Ok(s)
  {
  }
}
