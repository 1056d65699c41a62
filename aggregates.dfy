/** The derived figures: the summary totals and the spend of one category. */
module Aggregates {
  import opened Records
  import opened Money

  /** The types the summary totals; every other type falls through the if/else-if chain. */
  predicate Counted(kind: string)
  {
    kind == Income || kind == Expense || kind == Saving
  }

  /** Every record of type `kind` has a currency the summary can price. */
  predicate PricedAs(ts: seq<Transaction>, kind: string)
  {
    forall t | t in ts && t.kind == kind :: SummaryCurrency(t.currency) in Rates
  }

  /** Every record the summary totals has a currency it can price. */
  predicate Priced(ts: seq<Transaction>)
  {
    PricedAs(ts, Income) && PricedAs(ts, Expense) && PricedAs(ts, Saving)
  }

  /** One record's amount in dollars, as the summary computes it. */
  function Converted(t: Transaction): (r: real)
    requires SummaryCurrency(t.currency) in Rates
    ensures t.currency == None ==> r == t.amount
    ensures t.currency.Some? && t.currency.value != "" ==> r == t.amount * Rates[t.currency.value]
    ensures t.amount >= 0.0 ==> r >= 0.0
  {
    Convert(t.amount, SummaryCurrency(t.currency))
  }

  /** The summary's accumulator for one type after folding `ts` from the left. */
  function KindTotal(ts: seq<Transaction>, kind: string): (r: real)
    requires PricedAs(ts, kind)
    ensures (forall t | t in ts :: t.amount >= 0.0) ==> r >= 0.0
    ensures (forall t | t in ts :: t.kind != kind) ==> r == 0.0
    decreases |ts|
  {
    if ts == [] then 0.0
    else
      var t := ts[|ts| - 1];
      KindTotal(ts[..|ts| - 1], kind) + (if t.kind == kind then Converted(t) else 0.0)
  }

  /** `d.remaining || d.amount`: a remaining balance of 0 is falsy, so the original amount counts. */
  function Owed(d: Debt): (r: real)
    ensures d.remaining.Some? && d.remaining.value != 0.0 ==> r == d.remaining.value
    ensures d.remaining == None || d.remaining == Some(0.0) ==> r == d.amount
  {
    if d.remaining.Some? && d.remaining.value != 0.0 then d.remaining.value else d.amount
  }

  /** The `totalDebts` accumulator after folding `ds` from the left. */
  function DebtTotal(ds: seq<Debt>): (r: real)
    ensures (forall d | d in ds :: Owed(d) >= 0.0) ==> r >= 0.0
    decreases |ds|
  {
    if ds == [] then 0.0 else DebtTotal(ds[..|ds| - 1]) + Owed(ds[|ds| - 1])
  }

  datatype Summary = Summary(income: real, expenses: real, savings: real, totalDebts: real, balance: real)

  /** The five figures the summary shows. */
  function SummaryOf(ts: seq<Transaction>, ds: seq<Debt>): (s: Summary)
    requires Priced(ts)
    ensures ts == [] && ds == [] ==> s == Summary(0.0, 0.0, 0.0, 0.0, 0.0)
  {
    var income := KindTotal(ts, Income);
    var expenses := KindTotal(ts, Expense);
    var savings := KindTotal(ts, Saving);
    var debts := DebtTotal(ds);
    Summary(income, expenses, savings, debts, income - expenses - debts + savings)
  }

  /** Every expense of category `cat` names a currency the table has (otherwise the fold gives NaN). */
  predicate Spendable(ts: seq<Transaction>, cat: string)
  {
    forall t | t in ts && t.category == cat && t.kind == Expense :: Listed(t.currency)
  }

  /** Whether a record is one that the category-spend fold adds. */
  predicate SpentIn(t: Transaction, cat: string)
  {
    t.category == cat && t.kind == Expense
  }

  /** getSpentByCategory: the `reduce` over the ledger, adding each expense of exactly category `cat`. */
  function SpentByCategory(ts: seq<Transaction>, cat: string): (r: real)
    requires Spendable(ts, cat)
    ensures (forall t | t in ts :: t.amount >= 0.0) ==> r >= 0.0
    ensures (forall t | t in ts :: !SpentIn(t, cat)) ==> r == 0.0
    decreases |ts|
  {
    if ts == [] then 0.0
    else
      var t := ts[|ts| - 1];
      SpentByCategory(ts[..|ts| - 1], cat)
        + (if SpentIn(t, cat) then Convert(t.amount, t.currency.value) else 0.0)
  }

  /** The records of category `cat`, in ledger order. */
  function InCategory(ts: seq<Transaction>, cat: string): (r: seq<Transaction>)
    ensures forall t | t in r :: t in ts && t.category == cat
    ensures forall t | t in ts && t.category == cat :: t in r
    decreases |ts|
  {
    if ts == [] then []
    else
      var t := ts[|ts| - 1];
      InCategory(ts[..|ts| - 1], cat) + (if t.category == cat then [t] else [])
  }

  /** Selecting a category keeps every record of that category as many times as the ledger has it,
      and no other record. */
  lemma {:induction false} InCategoryCounts(ts: seq<Transaction>, cat: string)
    ensures forall t :: multiset(InCategory(ts, cat))[t] == if t.category == cat then multiset(ts)[t] else 0
    decreases |ts|
  {
    if ts != [] {
      var init, last := ts[..|ts| - 1], ts[|ts| - 1];
      assert ts == init + [last];
      InCategoryCounts(init, cat);
    }
  }

  /** Selecting a category keeps ledger order: the selection of a concatenation is the concatenation
      of the selections. */
  lemma {:induction false} InCategoryConcat(a: seq<Transaction>, b: seq<Transaction>, cat: string)
    ensures InCategory(a + b, cat) == InCategory(a, cat) + InCategory(b, cat)
    decreases |b|
  {
    if b == [] {
      assert a + b == a;
    } else {
      var init := b[..|b| - 1];
      assert (a + b)[..|a + b| - 1] == a + init;
      assert (a + b)[|a + b| - 1] == b[|b| - 1];
      InCategoryConcat(a, init, cat);
    }
  }

  // ---- Properties of the summary ----

  /** Folding a concatenation is adding the two folds. */
  lemma {:induction false} KindTotalConcat(a: seq<Transaction>, b: seq<Transaction>, kind: string)
    requires PricedAs(a + b, kind)
    ensures PricedAs(a, kind) && PricedAs(b, kind)
    ensures KindTotal(a + b, kind) == KindTotal(a, kind) + KindTotal(b, kind)
    decreases |b|
  {
    if b == [] {
      assert a + b == a;
    } else {
      var init := b[..|b| - 1];
      assert (a + b)[..|a + b| - 1] == a + init;
      assert (a + b)[|a + b| - 1] == b[|b| - 1];
      KindTotalConcat(a, init, kind);
    }
  }

  /** Appending one record adds its converted amount to the total of its own type only. */
  lemma KindTotalAppend(ts: seq<Transaction>, t: Transaction, kind: string)
    requires PricedAs(ts + [t], kind)
    ensures PricedAs(ts, kind)
    ensures t.kind == kind ==> SummaryCurrency(t.currency) in Rates
    ensures KindTotal(ts + [t], kind) == KindTotal(ts, kind) + (if t.kind == kind then Converted(t) else 0.0)
  {
    assert t in ts + [t];
    assert (ts + [t])[..|ts|] == ts;
  }

  /** Appending one record moves its converted amount into exactly the total of its type (none for
      another type) and shifts the balance by it: up for income and saving, down for an expense. */
  lemma SummaryAppend(ts: seq<Transaction>, ds: seq<Debt>, t: Transaction)
    requires Priced(ts + [t])
    ensures Priced(ts)
    ensures Counted(t.kind) ==> SummaryCurrency(t.currency) in Rates
    ensures var s0, s1 := SummaryOf(ts, ds), SummaryOf(ts + [t], ds);
      var c := if Counted(t.kind) then Converted(t) else 0.0;
      && s1.income == s0.income + (if t.kind == Income then c else 0.0)
      && s1.expenses == s0.expenses + (if t.kind == Expense then c else 0.0)
      && s1.savings == s0.savings + (if t.kind == Saving then c else 0.0)
      && s1.totalDebts == s0.totalDebts
      && s1.balance == s0.balance + (if t.kind == Expense then -c else c)
  {
    assert t in ts + [t];
    assert (ts + [t])[..|ts|] == ts;
  }

  /** The debt total after one more debt grows by what that debt still owes. */
  lemma DebtTotalAppend(ds: seq<Debt>, d: Debt)
    ensures DebtTotal(ds + [d]) == DebtTotal(ds) + Owed(d)
  {
    assert (ds + [d])[..|ds|] == ds;
  }

  // ---- Properties of the category spend ----

  /** Appending a record adds its converted amount to the category spend when it is an expense of
      exactly that category, and leaves the spend unchanged otherwise. */
  lemma SpentAppend(ts: seq<Transaction>, t: Transaction, cat: string)
    requires Spendable(ts + [t], cat)
    ensures Spendable(ts, cat)
    ensures SpentIn(t, cat) ==>
      (Listed(t.currency)
       && SpentByCategory(ts + [t], cat) == SpentByCategory(ts, cat) + t.amount * Rates[t.currency.value])
    ensures !SpentIn(t, cat) ==> SpentByCategory(ts + [t], cat) == SpentByCategory(ts, cat)
  {
    assert t in ts + [t];
    assert (ts + [t])[..|ts|] == ts;
  }

  /** The category spend never decreases as records with non-negative amounts are appended. */
  lemma {:induction false} SpentMonotone(ts: seq<Transaction>, more: seq<Transaction>, cat: string)
    requires Spendable(ts + more, cat)
    requires forall t | t in more :: t.amount >= 0.0
    ensures Spendable(ts, cat)
    ensures SpentByCategory(ts + more, cat) >= SpentByCategory(ts, cat)
    decreases |more|
  {
    if more == [] {
      assert ts + more == ts;
    } else {
      var init := more[..|more| - 1];
      var t := more[|more| - 1];
      assert ts + more == (ts + init) + [t];
      SpentAppend(ts + init, t, cat);
      SpentMonotone(ts, init, cat);
    }
  }

  /** Where every expense of the category names its currency, the category spend is the summary's
      expense total over that category's records alone. The two folds differ only in that the
      summary defaults an absent currency to dollars while the category spend does not. */
  lemma {:induction false} SpentIsCategoryExpenses(ts: seq<Transaction>, cat: string)
    requires Spendable(ts, cat)
    ensures PricedAs(InCategory(ts, cat), Expense)
    ensures SpentByCategory(ts, cat) == KindTotal(InCategory(ts, cat), Expense)
    decreases |ts|
  {
    var r := InCategory(ts, cat);
    forall t | t in r && t.kind == Expense ensures SummaryCurrency(t.currency) in Rates {
      ListedAgrees(t.currency);
    }
    if ts != [] {
      var init := ts[..|ts| - 1];
      var t := ts[|ts| - 1];
      assert ts == init + [t];
      SpentAppend(init, t, cat);
      SpentIsCategoryExpenses(init, cat);
      var ri := InCategory(init, cat);
      if t.category == cat {
        assert r == ri + [t];
        assert r[..|r| - 1] == ri;
        if t.kind == Expense {
          ListedAgrees(t.currency);
          KindTotalAppend(ri, t, Expense);
          assert Converted(t) == t.amount * Rates[t.currency.value];
        }
      } else {
        assert r == ri;
      }
    }
  }

  /** A record without a currency is totalled by the summary as dollars, but the category spend cannot price it. */
  lemma MissingCurrencyDiffers(cat: string)
    ensures var t := Transaction(Expense, 5.0, None, "2024-01-01", cat, None, "", None);
      KindTotal([t], Expense) == 5.0 && !Spendable([t], cat)
  {
    var t := Transaction(Expense, 5.0, None, "2024-01-01", cat, None, "", None);
    assert [t][..0] == [];
    assert t in [t];
  }

  /** The worked example: income 100, expense 30 and saving 10, all in dollars, and one debt with 20
      remaining give a balance of 60. */
  lemma SummaryExample(a: Transaction, b: Transaction, c: Transaction, d: Debt)
    requires a.kind == Income && a.amount == 100.0 && a.currency == Some("USD")
    requires b.kind == Expense && b.amount == 30.0 && b.currency == Some("USD")
    requires c.kind == Saving && c.amount == 10.0 && c.currency == Some("USD")
    requires d.remaining == Some(20.0)
    ensures Priced([a, b, c])
    ensures SummaryOf([a, b, c], [d]) == Summary(100.0, 30.0, 10.0, 20.0, 60.0)
  {
    var ts := [a, b, c];
    assert ts[..2] == [a, b] && [a, b][..1] == [a] && [a][..0] == [];
    assert Converted(a) == 100.0 && Converted(b) == 30.0 && Converted(c) == 10.0;
    assert KindTotal([a], Income) == 100.0 && KindTotal([a, b], Income) == 100.0;
    assert KindTotal([a], Expense) == 0.0 && KindTotal([a, b], Expense) == 30.0;
    assert KindTotal([a], Saving) == 0.0 && KindTotal([a, b], Saving) == 0.0;
    assert [d][..0] == [];
    assert DebtTotal([d]) == 20.0;
  }
}
