/** The budget-alert rule: one check per budget key, firing when the spend passes 80% of the limit. */
module BudgetAlerts {
  import opened Records
  import opened Money
  import opened Aggregates

  /** What the source passes to `alert()`: the category and the spent percentage of its limit. */
  datatype Alert = Alert(category: string, percentage: real)

  const Threshold: real := 0.8

  /** Every budget can be evaluated: its limit is not zero (the source divides by it unguarded) and
      its category's expenses can be priced. */
  predicate Evaluable(ts: seq<Transaction>, bs: seq<Budget>)
  {
    forall b | b in bs :: b.limit != 0.0 && Spendable(ts, b.category)
  }

  /** `spent / limit` for one budget. */
  function Ratio(ts: seq<Transaction>, b: Budget): real
    requires b.limit != 0.0 && Spendable(ts, b.category)
  {
    SpentByCategory(ts, b.category) / b.limit
  }

  /** The alert condition `spent / limit > 0.8`. */
  predicate Fires(ts: seq<Transaction>, b: Budget)
    requires b.limit != 0.0 && Spendable(ts, b.category)
  {
    Ratio(ts, b) > Threshold
  }

  /** The alert a budget raises; it reports more than 80 percent exactly when the budget fires. */
  function AlertOf(ts: seq<Transaction>, b: Budget): (a: Alert)
    requires b.limit != 0.0 && Spendable(ts, b.category)
    ensures a.category == b.category
    ensures a.percentage > 80.0 <==> Fires(ts, b)
  {
    Alert(b.category, Ratio(ts, b) * 100.0)
  }

  /** The alerts one evaluation raises, in the order of the budget keys. */
  function AlertsFor(ts: seq<Transaction>, bs: seq<Budget>): (r: seq<Alert>)
    requires Evaluable(ts, bs)
    ensures |r| <= |bs|
    decreases |bs|
  {
    if bs == [] then []
    else
      var b := bs[|bs| - 1];
      AlertsFor(ts, bs[..|bs| - 1]) + (if Fires(ts, b) then [AlertOf(ts, b)] else [])
  }

  /** An alert is raised exactly for the budgets that fire, carrying that budget's percentage. */
  lemma {:induction false} AlertsExactly(ts: seq<Transaction>, bs: seq<Budget>)
    requires Evaluable(ts, bs)
    ensures forall a :: a in AlertsFor(ts, bs) <==>
      exists i :: 0 <= i < |bs| && Fires(ts, bs[i]) && a == AlertOf(ts, bs[i])
    decreases |bs|
  {
    if bs != [] {
      var init, b := bs[..|bs| - 1], bs[|bs| - 1];
      AlertsExactly(ts, init);
      forall a ensures a in AlertsFor(ts, bs) <==>
        exists i :: 0 <= i < |bs| && Fires(ts, bs[i]) && a == AlertOf(ts, bs[i])
      {
        if a in AlertsFor(ts, bs) {
          if a in AlertsFor(ts, init) {
            var i :| 0 <= i < |init| && Fires(ts, init[i]) && a == AlertOf(ts, init[i]);
            assert bs[i] == init[i];
          } else {
            assert Fires(ts, bs[|bs| - 1]) && a == AlertOf(ts, bs[|bs| - 1]);
          }
        }
        if exists i :: 0 <= i < |bs| && Fires(ts, bs[i]) && a == AlertOf(ts, bs[i]) {
          var i :| 0 <= i < |bs| && Fires(ts, bs[i]) && a == AlertOf(ts, bs[i]);
          if i < |init| {
            assert init[i] == bs[i];
          }
        }
      }
    }
  }

  /** The budget keys, in order. */
  function Keys(bs: seq<Budget>): (r: seq<string>)
    ensures |r| == |bs|
    ensures forall i :: 0 <= i < |bs| ==> r[i] == bs[i].category
  {
    seq(|bs|, i requires 0 <= i < |bs| => bs[i].category)
  }

  predicate DistinctKeys(bs: seq<Budget>)
  {
    forall i, j :: 0 <= i < j < |bs| ==> bs[i].category != bs[j].category
  }

  predicate DistinctCategories(alerts: seq<Alert>)
  {
    forall i, j :: 0 <= i < j < |alerts| ==> alerts[i].category != alerts[j].category
  }

  /** Every alert names a budget key. */
  lemma AlertsNameKeys(ts: seq<Transaction>, bs: seq<Budget>)
    requires Evaluable(ts, bs)
    ensures forall a | a in AlertsFor(ts, bs) :: a.category in Keys(bs)
  {
    AlertsExactly(ts, bs);
    forall a | a in AlertsFor(ts, bs) ensures a.category in Keys(bs) {
      var i :| 0 <= i < |bs| && Fires(ts, bs[i]) && a == AlertOf(ts, bs[i]);
      assert Keys(bs)[i] == a.category;
    }
  }

  /** Since an object has each key once, no category is alerted twice in one evaluation. */
  lemma {:induction false} AlertsOncePerKey(ts: seq<Transaction>, bs: seq<Budget>)
    requires Evaluable(ts, bs)
    requires DistinctKeys(bs)
    ensures DistinctCategories(AlertsFor(ts, bs))
    decreases |bs|
  {
    if bs != [] {
      var init, b := bs[..|bs| - 1], bs[|bs| - 1];
      AlertsOncePerKey(ts, init);
      AlertsNameKeys(ts, init);
      var ri := AlertsFor(ts, init);
      forall a | a in ri ensures a.category != b.category {
        var k :| 0 <= k < |init| && Keys(init)[k] == a.category;
        assert bs[k] == init[k];
      }
      var r := AlertsFor(ts, bs);
      assert r == ri + (if Fires(ts, b) then [AlertOf(ts, b)] else []);
      forall i, j | 0 <= i < j < |r| ensures r[i].category != r[j].category {
        assert r[i] == ri[i] && r[i] in ri;
        if j < |ri| {
          assert r[j] == ri[j];
          assert ri[i].category != ri[j].category;
        } else {
          assert r[j] == AlertOf(ts, b);
          assert r[i].category != b.category;
        }
      }
    }
  }

  /** The worked example: a limit of 50 for Comida and 45 spent on it raise one alert at 90 percent. */
  lemma AlertExample(x: Transaction, y: Transaction)
    requires x.kind == Expense && x.category == "Comida" && x.amount == 20.0 && x.currency == Some("USD")
    requires y.kind == Expense && y.category == "Comida" && y.amount == 25.0 && y.currency == Some("USD")
    ensures Evaluable([x, y], [Budget("Comida", 50.0)])
    ensures AlertsFor([x, y], [Budget("Comida", 50.0)]) == [Alert("Comida", 90.0)]
  {
    assert [x, y][..1] == [x] && [x][..0] == [];
    assert SpentByCategory([x], "Comida") == 20.0;
    assert SpentByCategory([x, y], "Comida") == 45.0;
    assert [Budget("Comida", 50.0)][..0] == [];
  }
}
