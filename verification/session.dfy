/** The state-changing handlers seen as one state machine: a command names
    the handler and carries its form fields, the fresh ids and today's date.
    A rejected command leaves the state as it was. */
module Session {
  import opened Results
  import opened Ledger
  import opened Storage

  datatype Command =
    | NewAccount(name: string, kind: string, id: string)
    | NewCategory(name: string, subs: string, id: string)
    | NewBudget(category: string, amount: Number, rollover: bool, id: string)
    | NewTransaction(form: TxnForm, today: string, id: string)
    | NewTransfer(from: string, to: string, amount: Number, date: string, notes: string,
                  today: string, fromId: string, toId: string)
    | NewDebt(name: string, amount: Number, rate: Number, notes: string, id: string)
    | NewRepayment(debtId: string, amount: Number, date: string, notes: string,
                   today: string, id: string)
    | ImportFile(doc: Document)
    | ClearAllData(confirmed: bool)
    | ToggleCash(checked: bool)

  /** The handler a command names, applied to `s`. */
  function Handle(s: State, c: Command): Result<State> {
    match c
    case NewAccount(name, kind, id) => SaveAccount(s, name, kind, id)
    case NewCategory(name, subs, id) => AddCategory(s, name, subs, id)
    case NewBudget(category, amount, rollover, id) => SaveBudget(s, category, amount, rollover, id)
    case NewTransaction(form, today, id) => SaveTransaction(s, form, today, id)
    case NewTransfer(from, to, amount, date, notes, today, fromId, toId) =>
      SaveTransfer(s, from, to, amount, date, notes, today, fromId, toId)
    case NewDebt(name, amount, rate, notes, id) => SaveDebt(s, name, amount, rate, notes, id)
    case NewRepayment(debtId, amount, date, notes, today, id) =>
      SaveRepayment(s, debtId, amount, date, notes, today, id)
    case ImportFile(doc) => Import(s, doc)
    case ClearAllData(confirmed) => Ok(ClearAll(s, confirmed))
    case ToggleCash(checked) => Ok(SetCashHandling(s, checked))
  }

  /** The state after a command: the handler's result, or `s` when it rejects. */
  function Apply(s: State, c: Command): State {
    match Handle(s, c)
    case Ok(t) => t
    case Err(_) => s
  }

  /** The state after a sequence of commands, first to last. */
  function Run(s: State, cmds: seq<Command>): State
    decreases |cmds|
  {
    if cmds == [] then s else Run(Apply(s, cmds[0]), cmds[1..])
  }

  /** The `save*`/`add*` commands: only an import or a confirmed clear can
      replace or drop records, and only the cash-handling toggle (besides
      those two) changes the settings. */
  predicate Appending(c: Command) {
    !c.ImportFile? && !c.ClearAllData? && !c.ToggleCash?
  }

  /** A rejected command leaves all six collections unchanged, and an
      accepted `save*`/`add*` command always changes the state: the state
      stays the same exactly when the handler rejects. */
  lemma RejectedExactlyWhenUnchanged(s: State, c: Command)
    requires Appending(c)
    ensures Handle(s, c).Err? <==> Apply(s, c) == s
  {
    if Handle(s, c).Ok? && c.NewRepayment? {
      var i := FindDebt(s.debts, c.debtId).value;
      assert |Apply(s, c).debts[i].repayments| != |s.debts[i].repayments|;
    }
  }

  /** Every account is at balance zero. */
  predicate BalancesZero(s: State) {
    forall k :: 0 <= k < |s.accounts| ==> s.accounts[k].balance == 0.0
  }

  /** No command other than an import ever sets a balance: accounts are
      created at zero and never touched again. */
  lemma {:induction false} BalancesStayZero(s: State, cmds: seq<Command>)
    requires BalancesZero(s)
    requires forall k :: 0 <= k < |cmds| ==> !cmds[k].ImportFile?
    ensures BalancesZero(Run(s, cmds))
    decreases |cmds|
  {
    if cmds != [] {
      var t := Apply(s, cmds[0]);
      assert BalancesZero(t) by {
        if cmds[0].NewAccount? && Handle(s, cmds[0]).Ok? {
          assert t.accounts == s.accounts + [t.accounts[|s.accounts|]];
        }
      }
      BalancesStayZero(t, cmds[1..]);
    }
  }

  /** Debt `d'` is debt `d` with possibly more repayments at the end. */
  predicate DebtGrows(d: Debt, d': Debt) {
    && d' == d.(repayments := d'.repayments)
    && |d.repayments| <= |d'.repayments|
    && d'.repayments[..|d.repayments|] == d.repayments
  }

  /** `t` holds every record of `s` where `s` held it, possibly followed by more. */
  predicate Extends(s: State, t: State) {
    && s.accounts <= t.accounts
    && s.categories <= t.categories
    && s.budgets <= t.budgets
    && s.txns <= t.txns
    && |s.debts| <= |t.debts|
    && (forall k :: 0 <= k < |s.debts| ==> DebtGrows(s.debts[k], t.debts[k]))
    && s.settings == t.settings
  }

  lemma ExtendsTransitive(s: State, t: State, u: State)
    requires Extends(s, t) && Extends(t, u)
    ensures Extends(s, u)
  {
    forall k | 0 <= k < |s.debts|
      ensures DebtGrows(s.debts[k], u.debts[k])
    {
      var a, b, c := s.debts[k].repayments, t.debts[k].repayments, u.debts[k].repayments;
      assert DebtGrows(t.debts[k], u.debts[k]);
      assert c[..|a|] == c[..|b|][..|a|];
    }
  }

  lemma AppendingStepExtends(s: State, c: Command)
    requires Appending(c)
    ensures Extends(s, Apply(s, c))
  {
  }

  /** Without an import, a clear or a cash-handling toggle, the state only grows: every record stays
      where it was, and debts only gain repayments. */
  lemma {:induction false} AppendingRunExtends(s: State, cmds: seq<Command>)
    requires forall k :: 0 <= k < |cmds| ==> Appending(cmds[k])
    ensures Extends(s, Run(s, cmds))
    decreases |cmds|
  {
    if cmds == [] {
      assert forall k :: 0 <= k < |s.debts| ==>
        s.debts[k].repayments[..|s.debts[k].repayments|] == s.debts[k].repayments;
    } else {
      var t := Apply(s, cmds[0]);
      AppendingStepExtends(s, cmds[0]);
      AppendingRunExtends(t, cmds[1..]);
      ExtendsTransitive(s, t, Run(t, cmds[1..]));
    }
  }
}
