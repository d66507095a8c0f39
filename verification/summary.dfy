/** The two derived figures the tracker shows: the balance summary under the
    transaction list (income minus expense, transfers ignored) and, for each
    debt, how much of it has been repaid. */
module Summary {
  import opened Results
  import opened Ledger

  /** What one transaction adds to the running summary. */
  function Contribution(t: Txn): real {
    if t.kind == Income then t.amount
    else if t.kind == Expense then -t.amount
    else 0.0
  }

  /** The summary total: a left fold of `Contribution` over the transactions
      from the first to the last, starting at zero. */
  function Total(txns: seq<Txn>): real {
    if txns == [] then 0.0
    else Total(txns[..|txns| - 1]) + Contribution(txns[|txns| - 1])
  }

  /** The amounts of the income-typed transactions, added up. */
  function IncomeSum(txns: seq<Txn>): real {
    if txns == [] then 0.0
    else (if txns[0].kind == Income then txns[0].amount else 0.0) + IncomeSum(txns[1..])
  }

  /** The amounts of the expense-typed transactions, added up. */
  function ExpenseSum(txns: seq<Txn>): real {
    if txns == [] then 0.0
    else (if txns[0].kind == Expense then txns[0].amount else 0.0) + ExpenseSum(txns[1..])
  }

  lemma {:induction false} SumsSnoc(txns: seq<Txn>, t: Txn)
    ensures IncomeSum(txns + [t]) == IncomeSum(txns) + (if t.kind == Income then t.amount else 0.0)
    ensures ExpenseSum(txns + [t]) == ExpenseSum(txns) + (if t.kind == Expense then t.amount else 0.0)
  {
    if txns == [] {
      assert [] + [t] == [t];
      assert [t][1..] == [];
    } else {
      assert (txns + [t])[1..] == txns[1..] + [t];
      SumsSnoc(txns[1..], t);
    }
  }

  /** The summary equals total income minus total expense; every other type,
      transfer included, contributes nothing. */
  lemma {:induction false} TotalIsIncomeMinusExpense(txns: seq<Txn>)
    ensures Total(txns) == IncomeSum(txns) - ExpenseSum(txns)
    decreases |txns|
  {
    if txns != [] {
      var init, last := txns[..|txns| - 1], txns[|txns| - 1];
      TotalIsIncomeMinusExpense(init);
      assert init + [last] == txns;
      SumsSnoc(init, last);
    }
  }

  /** Appending transactions adds their own total to the summary. */
  lemma {:induction false} TotalAppend(xs: seq<Txn>, ys: seq<Txn>)
    ensures Total(xs + ys) == Total(xs) + Total(ys)
    decreases |ys|
  {
    if ys == [] {
      assert xs + ys == xs;
    } else {
      var init := ys[..|ys| - 1];
      assert (xs + ys)[..|xs + ys| - 1] == xs + init;
      TotalAppend(xs, init);
    }
  }

  /** A successful transfer leaves the summary total unchanged. */
  lemma TransferKeepsTotal(
    s: State, from: string, to: string, amount: Number, dateField: string, notes: string,
    today: string, fromId: string, toId: string)
    requires SaveTransfer(s, from, to, amount, dateField, notes, today, fromId, toId).Ok?
    ensures Total(SaveTransfer(s, from, to, amount, dateField, notes, today, fromId, toId).value.txns)
         == Total(s.txns)
  {
    var t := SaveTransfer(s, from, to, amount, dateField, notes, today, fromId, toId).value;
    var legs := t.txns[|s.txns|..];
    assert t.txns == s.txns + legs;
    TotalAppend(s.txns, legs);
    assert |Transfer| != |Income| && |Transfer| != |Expense|;
    assert Contribution(legs[0]) == 0.0 && Contribution(legs[1]) == 0.0;
    assert legs[..1] == [legs[0]];
    assert legs[..1][..0] == [];
    assert Total(legs[..1]) == 0.0;
    assert |legs| == 2 && legs[..|legs| - 1] == legs[..1];
  }

  /** A saved transaction moves the summary by its amount if it is income,
      by minus its amount if it is expense, and not at all otherwise. */
  lemma SaveTransactionMovesTotal(s: State, f: TxnForm, today: string, id: string)
    requires SaveTransaction(s, f, today, id).Ok?
    ensures var t := SaveTransaction(s, f, today, id).value;
      && Total(t.txns) == Total(s.txns) + Contribution(t.txns[|s.txns|])
      && (OrElse(f.kind, Expense) == Expense ==> Total(t.txns) == Total(s.txns) - f.amount.value)
      && (f.kind == Income ==> Total(t.txns) == Total(s.txns) + f.amount.value)
      && (OrElse(f.kind, Expense) !in {Income, Expense} ==> Total(t.txns) == Total(s.txns))
  {
    var t := SaveTransaction(s, f, today, id).value;
    assert t.txns[..|t.txns| - 1] == s.txns;
  }

  /** The repaid figure of a debt: the sum of its repayments, first to last. */
  function Repaid(d: Debt): real {
    RepaidSum(d.repayments)
  }

  function RepaidSum(reps: seq<Repayment>): real {
    if reps == [] then 0.0
    else RepaidSum(reps[..|reps| - 1]) + reps[|reps| - 1].amount
  }

  /** A repayment raises the repaid figure of its debt by exactly its amount
      and leaves every other debt's figure as it was. */
  lemma RepaymentRaisesRepaid(
    s: State, debtId: string, amount: Number, dateField: string, notes: string,
    today: string, id: string)
    requires SaveRepayment(s, debtId, amount, dateField, notes, today, id).Ok?
    ensures var t := SaveRepayment(s, debtId, amount, dateField, notes, today, id).value;
      var i := FindDebt(s.debts, debtId).value;
      && |t.debts| == |s.debts|
      && Repaid(t.debts[i]) == Repaid(s.debts[i]) + amount.value
      && forall j :: 0 <= j < |s.debts| && j != i ==> Repaid(t.debts[j]) == Repaid(s.debts[j])
  {
    var t := SaveRepayment(s, debtId, amount, dateField, notes, today, id).value;
    var i := FindDebt(s.debts, debtId).value;
    var reps := t.debts[i].repayments;
    assert reps[..|reps| - 1] == s.debts[i].repayments;
  }
}
