/**
 * The dashboard totals: income, expense and balance, each recomputed from the
 * whole ledger by a filter on the kind followed by a left-to-right sum.
 */
module Summary {
  import opened LedgerTypes

  /** The entries of kind `k`, in ledger order (the filter step). */
  function OfKind(ts: seq<Transaction>, k: Kind): (r: seq<Transaction>)
    ensures |r| <= |ts|
    ensures forall i :: 0 <= i < |r| ==> r[i].kind == k
  {
    if ts == [] then []
    else OfKind(ts[..|ts| - 1], k) + (if ts[|ts| - 1].kind == k then [ts[|ts| - 1]] else [])
  }

  /** The filter keeps exactly the entries of kind `k`. */
  lemma {:induction false} OfKindMembers(ts: seq<Transaction>, k: Kind)
    ensures forall t :: t in OfKind(ts, k) <==> t in ts && t.kind == k
  {
    if ts != [] {
      var init := ts[..|ts| - 1];
      OfKindMembers(init, k);
      assert ts == init + [ts[|ts| - 1]];
    }
  }

  /** The sum of the amounts, added from the first entry to the last starting at 0 (the reduce step). */
  function Total(ts: seq<Transaction>): real
  {
    if ts == [] then 0.0 else Total(ts[..|ts| - 1]) + ts[|ts| - 1].amount
  }

  function IncomeOf(ts: seq<Transaction>): real
  {
    Total(OfKind(ts, Income))
  }

  function ExpenseOf(ts: seq<Transaction>): real
  {
    Total(OfKind(ts, Expense))
  }

  /** The three figures on the dashboard cards. */
  datatype Totals = Totals(income: real, expense: real, balance: real)

  /**
   * The totals of a ledger; the balance is what income leaves after expense,
   * and the two cards together account for every amount in the ledger.
   */
  function Summarize(ts: seq<Transaction>): (s: Totals)
    ensures s.income == IncomeOf(ts) && s.expense == ExpenseOf(ts)
    ensures s.balance == s.income - s.expense
    ensures s.income + s.expense == Total(ts)
  {
    IncomePlusExpense(ts);
    var income := IncomeOf(ts);
    var expense := ExpenseOf(ts);
    Totals(income, expense, income - expense)
  }

  /** An empty ledger shows zero on all three cards. */
  lemma EmptySummary()
    ensures Summarize([]) == Totals(0.0, 0.0, 0.0)
  {
  }

  /** Prepending an entry adds its amount in front of the sum. */
  lemma {:induction false} TotalPrepend(t: Transaction, ts: seq<Transaction>)
    ensures Total([t] + ts) == t.amount + Total(ts)
  {
    if ts != [] {
      var init := ts[..|ts| - 1];
      assert ([t] + ts)[..|ts|] == [t] + init;
      TotalPrepend(t, init);
    }
  }

  /** The sum of a concatenation is the sum of its parts. */
  lemma {:induction false} TotalConcat(a: seq<Transaction>, b: seq<Transaction>)
    ensures Total(a + b) == Total(a) + Total(b)
  {
    if b != [] {
      assert (a + b)[..|a + b| - 1] == a + b[..|b| - 1];
      TotalConcat(a, b[..|b| - 1]);
    } else {
      assert a + b == a;
    }
  }

  /** Filtering a prepended entry keeps it in front exactly when it has the kind. */
  lemma {:induction false} OfKindPrepend(t: Transaction, ts: seq<Transaction>, k: Kind)
    ensures OfKind([t] + ts, k) == (if t.kind == k then [t] else []) + OfKind(ts, k)
  {
    if ts != [] {
      var init := ts[..|ts| - 1];
      assert ([t] + ts)[..|ts|] == [t] + init;
      OfKindPrepend(t, init, k);
    }
  }

  /**
   * Adding an entry at the head of the ledger raises the card of its kind by
   * its amount, moves the balance by the signed amount and leaves the other card.
   */
  lemma SummarizeAfterAdd(t: Transaction, ts: seq<Transaction>)
    ensures var before, after := Summarize(ts), Summarize([t] + ts);
      if t.kind == Income then
        after == Totals(before.income + t.amount, before.expense, before.balance + t.amount)
      else
        after == Totals(before.income, before.expense + t.amount, before.balance - t.amount)
  {
    var other := if t.kind == Income then Expense else Income;
    OfKindPrepend(t, ts, t.kind);
    OfKindPrepend(t, ts, other);
    TotalPrepend(t, OfKind(ts, t.kind));
    assert Total(OfKind([t] + ts, t.kind)) == t.amount + Total(OfKind(ts, t.kind));
    assert OfKind([t] + ts, other) == [] + OfKind(ts, other) == OfKind(ts, other);
  }

  /** Every entry is either income or expense, so the two cards together account for every amount. */
  lemma {:induction false} IncomePlusExpense(ts: seq<Transaction>)
    ensures IncomeOf(ts) + ExpenseOf(ts) == Total(ts)
  {
    if ts != [] {
      var init, last := ts[..|ts| - 1], ts[|ts| - 1];
      IncomePlusExpense(init);
      TotalConcat(OfKind(init, Income), if last.kind == Income then [last] else []);
      TotalConcat(OfKind(init, Expense), if last.kind == Expense then [last] else []);
    }
  }

  /** With positive amounts a sum is never negative, and it is positive once there is an entry. */
  lemma {:induction false} TotalPositive(ts: seq<Transaction>)
    requires PositiveAmounts(ts)
    ensures Total(ts) >= 0.0
    ensures ts != [] ==> Total(ts) > 0.0
  {
    if ts != [] {
      TotalPositive(ts[..|ts| - 1]);
    }
  }

  /** The income and expense cards of a ledger with positive amounts never show a negative figure. */
  lemma CardsNonNegative(ts: seq<Transaction>)
    requires PositiveAmounts(ts)
    ensures Summarize(ts).income >= 0.0 && Summarize(ts).expense >= 0.0
  {
    forall k: Kind ensures PositiveAmounts(OfKind(ts, k)) {
      var r := OfKind(ts, k);
      OfKindMembers(ts, k);
      forall i | 0 <= i < |r| ensures r[i].amount > 0.0 {
        assert r[i] in r;
      }
    }
    TotalPositive(OfKind(ts, Income));
    TotalPositive(OfKind(ts, Expense));
  }
}
