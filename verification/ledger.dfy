/** The tracker's in-memory state and its command handlers (the `save*` and
    `add*` functions behind the forms). Every handler reads its form fields,
    checks the required ones, and either rejects with the message of its alert
    (the state stays as it was) or appends to one collection. The random id
    and today's date are parameters; numbers arrive already parsed. */
module Ledger {
  import opened Results
  import opened Text

  /** The value `parseFloat` yields for a field: not-a-number, or a finite value. */
  datatype Number = NaN | Finite(value: real)

  /** JavaScript truthiness of a number: `!n` holds exactly for NaN and zero. */
  predicate Truthy(n: Number) {
    n.Finite? && n.value != 0.0
  }

  datatype Account = Account(id: string, name: string, kind: string, balance: real)

  datatype Category = Category(id: string, name: string, subs: seq<string>)

  datatype Budget = Budget(id: string, category: string, amount: real, rollover: bool)

  /** The installment counters, already passed through `parseInt(...) || 0`. */
  datatype Installments = Installments(total: int, current: int, remaining: int)

  /** The fields only a transaction saved from the transaction form carries;
      the two records of a transfer have none of them. */
  datatype Details = Details(
    brand: string, items: string, taxDeductible: bool, cash: bool,
    isRecurring: bool, installments: Installments)

  datatype Txn = Txn(
    id: string, kind: string, date: string, amount: real, account: string,
    category: string, subcategory: string, notes: string, details: Option<Details>)

  datatype Repayment = Repayment(id: string, amount: real, date: string, notes: string)

  /** A debt; `rate` is stored exactly as parsed, NaN included. */
  datatype Debt = Debt(
    id: string, name: string, amount: real, rate: Number, notes: string,
    repayments: seq<Repayment>)

  datatype Settings = Settings(cashHandling: bool)

  /** The six collections the app keeps and persists. */
  datatype State = State(
    accounts: seq<Account>, categories: seq<Category>, budgets: seq<Budget>,
    txns: seq<Txn>, debts: seq<Debt>, settings: Settings)

  /** The state of a fresh device, and the state after clearing all data. */
  const Initial := State([], [], [], [], [], Settings(false))

  datatype Collection = Accounts | Categories | Budgets | Txns | Debts | Prefs

  /** `s` and `t` hold the same value in collection `c`. */
  predicate Agree(s: State, t: State, c: Collection) {
    match c
    case Accounts => s.accounts == t.accounts
    case Categories => s.categories == t.categories
    case Budgets => s.budgets == t.budgets
    case Txns => s.txns == t.txns
    case Debts => s.debts == t.debts
    case Prefs => s.settings == t.settings
  }

  /** Nothing but collection `c` differs between `s` and `t`. */
  predicate OnlyChanges(s: State, t: State, c: Collection) {
    forall other: Collection :: other != c ==> Agree(s, t, other)
  }

  /** `ys` is `xs` with `n` records added at the end. */
  predicate Appends<T(==)>(xs: seq<T>, ys: seq<T>, n: nat) {
    |ys| == |xs| + n && ys[..|xs|] == xs
  }

  /** A text field read with `|| fallback`: the fallback replaces an empty value. */
  function OrElse(field: string, fallback: string): (r: string)
    ensures r != [] <== field != [] || fallback != []
    ensures field != [] ==> r == field
  {
    if field == [] then fallback else field
  }

  const AccountNameRequired := "Account name required"
  const CategoryNameRequired := "Category name required"
  const CategoryAndAmountRequired := "Select a category and amount"
  const AmountRequired := "Enter an amount"
  const AccountAndCategoryRequired := "Select account and category"
  const TransferFieldsRequired := "Select from, to, and amount"
  const DebtFieldsRequired := "Debt name and amount required"
  const RepaymentFieldsRequired := "Select a debt and enter amount"
  const DebtNotFound := "Debt not found"

  /** `saveAccount`: a trimmed, non-empty name is required; the new account
      starts, and stays, at balance zero. */
  function SaveAccount(s: State, nameField: string, typeField: string, id: string): (r: Result<State>)
    ensures r.Err? <==> Trim(nameField) == []
    ensures r.Err? ==> r.message == AccountNameRequired
    ensures r.Ok? ==> OnlyChanges(s, r.value, Accounts) && Appends(s.accounts, r.value.accounts, 1)
    ensures r.Ok? ==>
      var a := r.value.accounts[|s.accounts|];
      a.id == id && a.name == Trim(nameField) && a.kind == typeField && a.balance == 0.0
  {
    var name := Trim(nameField);
    if name == [] then Err(AccountNameRequired)
    else Ok(s.(accounts := s.accounts + [Account(id, name, typeField, 0.0)]))
  }

  /** `addCategory`: a trimmed, non-empty name is required; the subcategories
      come from the comma-separated field. */
  function AddCategory(s: State, nameField: string, subsField: string, id: string): (r: Result<State>)
    ensures r.Err? <==> Trim(nameField) == []
    ensures r.Err? ==> r.message == CategoryNameRequired
    ensures r.Ok? ==> OnlyChanges(s, r.value, Categories) && Appends(s.categories, r.value.categories, 1)
    ensures r.Ok? ==>
      var c := r.value.categories[|s.categories|];
      && c.id == id && c.name == Trim(nameField) && c.subs == Subcategories(subsField)
      && forall k :: 0 <= k < |c.subs| ==> c.subs[k] != [] && Trimmed(c.subs[k])
  {
    var name := Trim(nameField);
    if name == [] then Err(CategoryNameRequired)
    else Ok(s.(categories := s.categories + [Category(id, name, Subcategories(subsField))]))
  }

  /** `saveBudget`: a category and a non-zero amount are required. The budget
      is appended even when the category already has one. */
  function SaveBudget(s: State, category: string, amount: Number, rollover: bool, id: string): (r: Result<State>)
    ensures r.Err? <==> category == [] || !Truthy(amount)
    ensures r.Err? ==> r.message == CategoryAndAmountRequired
    ensures r.Ok? ==> OnlyChanges(s, r.value, Budgets) && Appends(s.budgets, r.value.budgets, 1)
    ensures r.Ok? ==>
      var b := r.value.budgets[|s.budgets|];
      b.id == id && b.category == category && b.amount == amount.value && b.amount != 0.0
      && b.rollover == rollover
  {
    if category == [] || !Truthy(amount) then Err(CategoryAndAmountRequired)
    else Ok(s.(budgets := s.budgets + [Budget(id, category, amount.value, rollover)]))
  }

  /** The transaction form as read by `saveTransaction`. */
  datatype TxnForm = TxnForm(
    kind: string, date: string, amount: Number, account: string, category: string,
    subcategory: string, notes: string, brand: string, items: string,
    taxDeductible: bool, cash: bool, isRecurring: bool, installments: Installments)

  const Expense := "expense"
  const Income := "income"
  const Transfer := "transfer"

  /** `saveTransaction`: the type defaults to expense and the date to today; a
      non-zero amount is required, and unless the type is transfer an account
      and a category are required too. */
  function SaveTransaction(s: State, f: TxnForm, today: string, id: string): (r: Result<State>)
    ensures r.Err? <==>
      || !Truthy(f.amount)
      || (OrElse(f.kind, Expense) != Transfer && (f.account == [] || f.category == []))
    ensures r.Err? ==> r.message == (if !Truthy(f.amount) then AmountRequired else AccountAndCategoryRequired)
    ensures r.Ok? ==> OnlyChanges(s, r.value, Txns) && Appends(s.txns, r.value.txns, 1)
    ensures r.Ok? ==>
      var t := r.value.txns[|s.txns|];
      && t.id == id
      && (f.kind != [] ==> t.kind == f.kind) && (f.kind == [] ==> t.kind == Expense)
      && (f.date != [] ==> t.date == f.date) && (f.date == [] ==> t.date == today)
      && t.amount == f.amount.value && t.amount != 0.0
      && (t.kind != Transfer ==> t.account != [] && t.category != [])
      && t.account == f.account && t.category == f.category && t.subcategory == f.subcategory
      && t.notes == f.notes
      && t.details == Some(Details(f.brand, f.items, f.taxDeductible, f.cash, f.isRecurring, f.installments))
  {
    var kind := OrElse(f.kind, Expense);
    var date := OrElse(f.date, today);
    if !Truthy(f.amount) then Err(AmountRequired)
    else if kind != Transfer && (f.account == [] || f.category == []) then Err(AccountAndCategoryRequired)
    else
      var details := Details(f.brand, f.items, f.taxDeductible, f.cash, f.isRecurring, f.installments);
      var t := Txn(id, kind, date, f.amount.value, f.account, f.category, f.subcategory, f.notes, Some(details));
      Ok(s.(txns := s.txns + [t]))
  }

  /** `saveTransfer`: a source, a destination and a non-zero amount are
      required (the two may name the same account). Two transfer-typed
      records are appended: `amount` on the source, `-amount` on the destination. */
  function SaveTransfer(
    s: State, from: string, to: string, amount: Number, dateField: string, notes: string,
    today: string, fromId: string, toId: string): (r: Result<State>)
    ensures r.Err? <==> from == [] || to == [] || !Truthy(amount)
    ensures r.Err? ==> r.message == TransferFieldsRequired
    ensures r.Ok? ==> OnlyChanges(s, r.value, Txns) && Appends(s.txns, r.value.txns, 2)
    ensures r.Ok? ==>
      var out, back := r.value.txns[|s.txns|], r.value.txns[|s.txns| + 1];
      && out.kind == Transfer && back.kind == Transfer
      && out.id == fromId && back.id == toId
      && out.account == from && back.account == to
      && out.amount == amount.value && out.amount + back.amount == 0.0
      && out.date == back.date == OrElse(dateField, today)
      && out.category == back.category == [] && out.subcategory == back.subcategory == []
      && out.notes == "Transfer to " + to + ". " + notes
      && back.notes == "Transfer from " + from + ". " + notes
      && out.details.None? && back.details.None?
  {
    if from == [] || to == [] || !Truthy(amount) then Err(TransferFieldsRequired)
    else
      var date := OrElse(dateField, today);
      var out := Txn(fromId, Transfer, date, amount.value, from, [], [], "Transfer to " + to + ". " + notes, None);
      var back := Txn(toId, Transfer, date, -amount.value, to, [], [], "Transfer from " + from + ". " + notes, None);
      Ok(s.(txns := s.txns + [out, back]))
  }

  /** `saveDebt`: a trimmed, non-empty name and a non-zero amount are required;
      a new debt has no repayments. */
  function SaveDebt(s: State, nameField: string, amount: Number, rate: Number, notes: string, id: string): (r: Result<State>)
    ensures r.Err? <==> Trim(nameField) == [] || !Truthy(amount)
    ensures r.Err? ==> r.message == DebtFieldsRequired
    ensures r.Ok? ==> OnlyChanges(s, r.value, Debts) && Appends(s.debts, r.value.debts, 1)
    ensures r.Ok? ==>
      var d := r.value.debts[|s.debts|];
      && d.id == id && d.name == Trim(nameField) && d.amount == amount.value && d.amount != 0.0
      && d.rate == rate && d.notes == notes && d.repayments == []
  {
    var name := Trim(nameField);
    if name == [] || !Truthy(amount) then Err(DebtFieldsRequired)
    else Ok(s.(debts := s.debts + [Debt(id, name, amount.value, rate, notes, [])]))
  }

  /** `debts.find(x => x.id === id)`, as a position: the first debt with that id. */
  function FindDebt(debts: seq<Debt>, id: string, from: nat := 0): (r: Option<nat>)
    requires from <= |debts|
    ensures r.Some? ==> from <= r.value < |debts| && debts[r.value].id == id
    ensures r.Some? ==> forall j :: from <= j < r.value ==> debts[j].id != id
    ensures r.None? <==> forall j :: from <= j < |debts| ==> debts[j].id != id
    decreases |debts| - from
  {
    if from == |debts| then None
    else if debts[from].id == id then Some(from)
    else FindDebt(debts, id, from + 1)
  }

  /** `saveRepayment`: a debt id and a non-zero amount are required, and the
      id must belong to a debt. The repayment is appended to the first debt
      with that id and to no other; every other field stays as it was. */
  function SaveRepayment(
    s: State, debtId: string, amount: Number, dateField: string, notes: string,
    today: string, id: string): (r: Result<State>)
    ensures r.Err? <==>
      || debtId == [] || !Truthy(amount)
      || forall j :: 0 <= j < |s.debts| ==> s.debts[j].id != debtId
    ensures r.Err? ==>
      r.message == (if debtId == [] || !Truthy(amount) then RepaymentFieldsRequired else DebtNotFound)
    ensures r.Ok? ==> OnlyChanges(s, r.value, Debts) && |r.value.debts| == |s.debts|
    ensures r.Ok? ==>
      var i := FindDebt(s.debts, debtId).value;
      var d, d' := s.debts[i], r.value.debts[i];
      && d.id == debtId
      && d' == d.(repayments := d'.repayments)
      && Appends(d.repayments, d'.repayments, 1)
      && d'.repayments[|d.repayments|] == Repayment(id, amount.value, OrElse(dateField, today), notes)
      && forall j :: 0 <= j < |s.debts| && j != i ==> r.value.debts[j] == s.debts[j]
  {
    if debtId == [] || !Truthy(amount) then Err(RepaymentFieldsRequired)
    else
      match FindDebt(s.debts, debtId)
      case None => Err(DebtNotFound)
      case Some(i) =>
        var d := s.debts[i];
        var rep := Repayment(id, amount.value, OrElse(dateField, today), notes);
        Ok(s.(debts := s.debts[i := d.(repayments := d.repayments + [rep])]))
  }

  /** `handleCashHandling`: the checkbox's state becomes the cash-handling
      setting (a missing checkbox reads as unchecked); nothing else changes. */
  function SetCashHandling(s: State, checked: bool): (r: State)
    ensures r.settings.cashHandling == checked
    ensures OnlyChanges(s, r, Prefs)
  {
    s.(settings := Settings(checked))
  }

  /** How many budgets are kept for `category`. */
  function BudgetsFor(budgets: seq<Budget>, category: string): nat {
    if budgets == [] then 0
    else BudgetsFor(budgets[..|budgets| - 1], category)
         + (if budgets[|budgets| - 1].category == category then 1 else 0)
  }

  /** Budgets are appended, not upserted: saving a budget for a category that
      already has one leaves one more entry for it, the old one untouched. */
  lemma SaveBudgetAppendsAgain(s: State, category: string, amount: Number, rollover: bool, id: string)
    requires SaveBudget(s, category, amount, rollover, id).Ok?
    ensures var t := SaveBudget(s, category, amount, rollover, id).value;
      && BudgetsFor(t.budgets, category) == BudgetsFor(s.budgets, category) + 1
      && forall k :: 0 <= k < |s.budgets| ==> t.budgets[k] == s.budgets[k]
  {
    var t := SaveBudget(s, category, amount, rollover, id).value;
    assert t.budgets[..|t.budgets| - 1] == s.budgets;
  }

  /** A transfer from an account to itself is accepted. */
  lemma TransferToSameAccountAccepted(
    s: State, account: string, amount: Number, dateField: string, notes: string,
    today: string, fromId: string, toId: string)
    requires account != [] && Truthy(amount)
    ensures SaveTransfer(s, account, account, amount, dateField, notes, today, fromId, toId).Ok?
  {
  }
}
