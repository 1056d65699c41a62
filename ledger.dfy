/** The application state of the budget page and the operations on it: recording a transaction
    (with the automatic saving on income), computing the summary, checking the budgets and
    building the CSV export. */
module Presupuesto {
  import opened Records
  import opened Money
  import opened Aggregates
  import opened BudgetAlerts
  import opened CsvExport

  const InitialCategories: seq<string> := ["Comida", "Transporte", "Vivienda", "Entretenimiento", "Salud"]
  const AutoSaveCategory: string := "Ahorro Automático"
  const AutoSaveNotes: string := "Ahorro de ingreso"
  const DefaultAutoSavePercent: real := 10.0

  /** The values read from the transaction form. `autoSavePercent` is the parsed percentage, `None` when
      it does not parse. */
  datatype Form = Form(
    kind: string,
    amount: real,
    currency: string,
    date: string,
    category: string,
    customCategory: string,
    expenseType: string,
    notes: string,
    autoSave: bool,
    autoSavePercent: Option<real>)

  /** `category.value || customCategory.value`. */
  function ChosenCategory(f: Form): (c: string)
    ensures c == "" <==> f.category == "" && f.customCategory == ""
    ensures f.category != "" ==> c == f.category
    ensures f.category == "" ==> c == f.customCategory
  {
    if f.category != "" then f.category else f.customCategory
  }

  /** `date.value || today`. */
  function EntryDate(f: Form, today: string): (d: string)
    ensures d == "" <==> f.date == "" && today == ""
    ensures f.date != "" ==> d == f.date
    ensures f.date == "" ==> d == today
  {
    if f.date != "" then f.date else today
  }

  /** `parseFloat(...) || 10`: a missing or zero percentage falls back to 10. */
  function AutoSavePercent(p: Option<real>): (r: real)
    ensures r != 0.0
    ensures p.Some? && p.value != 0.0 ==> r == p.value
    ensures p == None || p == Some(0.0) ==> r == DefaultAutoSavePercent
  {
    if p.Some? && p.value != 0.0 then p.value else DefaultAutoSavePercent
  }

  /** Whether recording this form also records an automatic saving. */
  predicate SavesAutomatically(f: Form)
  {
    f.kind == Income && f.autoSave
  }

  /** Whether the records of this form reach the summary's total of type `kind`. */
  predicate AddsTo(f: Form, kind: string)
  {
    f.kind == kind || (kind == Saving && SavesAutomatically(f))
  }

  /** The records one call of addTransaction appends, in order. */
  function Entries(f: Form, today: string, receipt: Option<string>): (r: seq<Transaction>)
    ensures 1 <= |r| <= 2
    ensures |r| == 2 <==> SavesAutomatically(f)
    ensures r[0].kind == f.kind && r[0].amount == f.amount && r[0].currency == Some(f.currency)
    ensures r[0].category == ChosenCategory(f) && r[0].receipt == receipt
    ensures r[0].notes == f.notes && r[0].expenseType == Some(f.expenseType)
    ensures forall t | t in r :: t.currency == Some(f.currency) && t.date == EntryDate(f, today)
    ensures |r| == 2 ==>
      (r[1].kind == Saving && r[1].category == AutoSaveCategory
       && r[1].amount == f.amount * (AutoSavePercent(f.autoSavePercent) / 100.0)
       && r[1].notes == AutoSaveNotes && r[1].expenseType == None && r[1].receipt == None)
  {
    var date := EntryDate(f, today);
    var main := Transaction(f.kind, f.amount, Some(f.currency), date, ChosenCategory(f),
                            Some(f.expenseType), f.notes, receipt);
    if SavesAutomatically(f) then
      var saveAmount := f.amount * (AutoSavePercent(f.autoSavePercent) / 100.0);
      [main, Transaction(Saving, saveAmount, Some(f.currency), date, AutoSaveCategory, None, AutoSaveNotes, None)]
    else
      [main]
  }

  predicate Distinct(cs: seq<string>)
  {
    forall i, j :: 0 <= i < j < |cs| ==> cs[i] != cs[j]
  }

  /** The category list after `if (!categories.includes(c) && c) categories.push(c)`. */
  function WithCategory(cs: seq<string>, c: string): (r: seq<string>)
    ensures |cs| <= |r| <= |cs| + 1 && r[..|cs|] == cs
    ensures |r| == |cs| + 1 <==> c != "" && c !in cs
    ensures c != "" ==> c in r
    ensures forall x | x in r :: x in cs || x == c
    ensures Distinct(cs) ==> Distinct(r)
  {
    if c !in cs && c != "" then cs + [c] else cs
  }

  /** The records of one form carry the form's currency, so the summary prices them when it prices that code. */
  lemma {:induction false} EntriesPriced(ts: seq<Transaction>, f: Form, today: string, receipt: Option<string>, kind: string)
    requires PricedAs(ts, kind)
    requires AddsTo(f, kind) ==> SummaryCurrency(Some(f.currency)) in Rates
    ensures PricedAs(ts + Entries(f, today, receipt), kind)
  {
    var es := Entries(f, today, receipt);
    assert forall t | t in es :: t.currency == Some(f.currency);
  }

  /** The automatic saving is worth the given percentage of the income, in dollars as well. */
  lemma SavingConverted(f: Form, today: string, receipt: Option<string>)
    requires SummaryCurrency(Some(f.currency)) in Rates
    requires SavesAutomatically(f)
    ensures |Entries(f, today, receipt)| == 2
    ensures Converted(Entries(f, today, receipt)[1])
      == Convert(f.amount, SummaryCurrency(Some(f.currency))) * (AutoSavePercent(f.autoSavePercent) / 100.0)
  {
    var saving := Entries(f, today, receipt)[1];
    var rate := Rates[SummaryCurrency(Some(f.currency))];
    var q := AutoSavePercent(f.autoSavePercent) / 100.0;
    assert saving.amount == f.amount * q;
    assert Converted(saving) == f.amount * q * rate;
    Reassociate(f.amount, q, rate);
  }

  lemma Reassociate(a: real, q: real, rate: real)
    ensures a * q * rate == a * rate * q
  {
  }

  /** The records of one form change the total of type `kind` by the converted amount when the form
      has that type, and the saving total also by the automatic saving. */
  lemma {:induction false} EntriesKindTotal(ts: seq<Transaction>, f: Form, today: string, receipt: Option<string>, kind: string)
    requires PricedAs(ts, kind)
    requires AddsTo(f, kind) ==> SummaryCurrency(Some(f.currency)) in Rates
    ensures PricedAs(ts + Entries(f, today, receipt), kind)
    ensures KindTotal(ts + Entries(f, today, receipt), kind)
      == KindTotal(ts, kind)
         + (if f.kind == kind then Convert(f.amount, SummaryCurrency(Some(f.currency))) else 0.0)
         + (if kind == Saving && SavesAutomatically(f)
            then Convert(f.amount, SummaryCurrency(Some(f.currency))) * (AutoSavePercent(f.autoSavePercent) / 100.0)
            else 0.0)
  {
    EntriesPriced(ts, f, today, receipt, kind);
    var es := Entries(f, today, receipt);
    var entry := es[0];
    var once := ts + [entry];
    KindTotalAppend(ts, entry, kind);
    var first := KindTotal(once, kind);
    assert first == KindTotal(ts, kind) + (if f.kind == kind then Convert(f.amount, SummaryCurrency(Some(f.currency))) else 0.0);
    if SavesAutomatically(f) {
      var saving := es[1];
      assert ts + es == once + [saving];
      KindTotalAppend(once, saving, kind);
      if kind == Saving {
        SavingConverted(f, today, receipt);
      }
    } else {
      assert ts + es == once;
    }
  }

  /** The auto-save rule's effect on the summary: recording a form moves its converted amount into the
      total of its type, and income recorded with auto-save on adds its percentage to the savings as well. */
  lemma EntriesSummary(ts: seq<Transaction>, ds: seq<Debt>, f: Form, today: string, receipt: Option<string>)
    requires Priced(ts)
    requires Counted(f.kind) ==> SummaryCurrency(Some(f.currency)) in Rates
    ensures Priced(ts + Entries(f, today, receipt))
    ensures var s0, s1 := SummaryOf(ts, ds), SummaryOf(ts + Entries(f, today, receipt), ds);
      && s1.income == s0.income + (if f.kind == Income then Convert(f.amount, SummaryCurrency(Some(f.currency))) else 0.0)
      && s1.expenses == s0.expenses + (if f.kind == Expense then Convert(f.amount, SummaryCurrency(Some(f.currency))) else 0.0)
      && s1.savings == s0.savings + (if f.kind == Saving then Convert(f.amount, SummaryCurrency(Some(f.currency))) else 0.0)
         + (if SavesAutomatically(f)
            then Convert(f.amount, SummaryCurrency(Some(f.currency))) * (AutoSavePercent(f.autoSavePercent) / 100.0)
            else 0.0)
      && s1.totalDebts == s0.totalDebts
  {
    EntriesKindTotal(ts, f, today, receipt, Income);
    EntriesKindTotal(ts, f, today, receipt, Expense);
    EntriesKindTotal(ts, f, today, receipt, Saving);
  }

  /** Recording a form changes the spend of a category only when it is an expense of exactly that
      category, and then by its converted amount; the automatic saving never counts as spend. */
  lemma {:induction false} EntriesSpent(ts: seq<Transaction>, f: Form, today: string, receipt: Option<string>, cat: string)
    requires Spendable(ts, cat)
    requires f.kind == Expense && ChosenCategory(f) == cat ==> f.currency in Rates
    ensures Spendable(ts + Entries(f, today, receipt), cat)
    ensures SpentByCategory(ts + Entries(f, today, receipt), cat)
      == SpentByCategory(ts, cat) + (if f.kind == Expense && ChosenCategory(f) == cat then f.amount * Rates[f.currency] else 0.0)
  {
    var es := Entries(f, today, receipt);
    var once := ts + [es[0]];
    assert SpentIn(es[0], cat) <==> f.kind == Expense && ChosenCategory(f) == cat;
    assert SpentIn(es[0], cat) ==> Listed(es[0].currency);
    assert Spendable(once, cat) by {
      forall t | t in once && SpentIn(t, cat) ensures Listed(t.currency) {
        assert t in ts || t == es[0];
      }
    }
    SpentAppend(ts, es[0], cat);
    if |es| == 2 {
      var saving := es[1];
      assert !SpentIn(saving, cat);
      assert ts + es == once + [saving];
      assert forall t | t in once + [saving] && SpentIn(t, cat) :: t in once;
      SpentAppend(once, saving, cat);
    } else {
      assert ts + es == once;
    }
  }

  /** The global state of the page that the modelled operations read and write. Budgets and debts are
      only read here: the code that fills them is not part of this model. */
  class Ledger {
    var transactions: seq<Transaction>
    var categories: seq<string>
    var budgets: seq<Budget>
    var debts: seq<Debt>

    constructor ()
      ensures transactions == [] && categories == InitialCategories
      ensures budgets == [] && debts == []
    {
      transactions := [];
      categories := InitialCategories;
      budgets := [];
      debts := [];
    }

    /** addTransaction: append the record read from the form, register a new non-empty category, and
        for income with auto-save on append the automatic saving record. `receipt` is the encoded
        receipt file when one was attached; the asynchronous read that produces it and the save and
        redraw afterwards are not modelled. */
    method AddTransaction(f: Form, today: string, receipt: Option<string>)
      modifies this
      ensures transactions == old(transactions) + Entries(f, today, receipt)
      ensures categories == WithCategory(old(categories), ChosenCategory(f))
      ensures budgets == old(budgets) && debts == old(debts)
    {
      var date := EntryDate(f, today);
      var category := ChosenCategory(f);
      var entry := Transaction(f.kind, f.amount, Some(f.currency), date, category, Some(f.expenseType), f.notes, receipt);
      transactions := transactions + [entry];
      if category !in categories && category != "" {
        categories := categories + [category];
      }
      if f.kind == Income && f.autoSave {
        var percent := AutoSavePercent(f.autoSavePercent);
        var saveAmount := f.amount * (percent / 100.0);
        var saving := Transaction(Saving, saveAmount, Some(f.currency), date, AutoSaveCategory, None, AutoSaveNotes, None);
        transactions := transactions + [saving];
        assert Entries(f, today, receipt)[1] == saving;
        assert Entries(f, today, receipt) == [entry, saving];
      } else {
        assert Entries(f, today, receipt) == [entry];
      }
    }

    /** updateSummary: fold the transactions into the income, expense and saving totals and the debts
        into their total, then derive the balance. Writing the figures to the page is not modelled. */
    method UpdateSummary() returns (s: Summary)
      requires Priced(transactions)
      ensures s == SummaryOf(transactions, debts)
    {
      var income, expenses, savings := 0.0, 0.0, 0.0;
      for i := 0 to |transactions|
        invariant income == KindTotal(transactions[..i], Income)
        invariant expenses == KindTotal(transactions[..i], Expense)
        invariant savings == KindTotal(transactions[..i], Saving)
      {
        var t := transactions[i];
        assert transactions[..i + 1][..i] == transactions[..i];
        if t.kind == Income {
          income := income + Converted(t);
        } else if t.kind == Expense {
          expenses := expenses + Converted(t);
        } else if t.kind == Saving {
          savings := savings + Converted(t);
        }
      }
      assert transactions[..|transactions|] == transactions;
      var totalDebts := 0.0;
      for i := 0 to |debts|
        invariant totalDebts == DebtTotal(debts[..i])
      {
        assert debts[..i + 1][..i] == debts[..i];
        totalDebts := totalDebts + Owed(debts[i]);
      }
      assert debts[..|debts|] == debts;
      s := Summary(income, expenses, savings, totalDebts, income - expenses - totalDebts + savings);
    }

    /** checkBudgetsForAlerts: for each budget key, in order, compare the category's spend with its
        limit and collect the alert instead of showing it. */
    method CheckBudgetsForAlerts() returns (alerts: seq<Alert>)
      requires Evaluable(transactions, budgets)
      ensures alerts == AlertsFor(transactions, budgets)
    {
      alerts := [];
      for i := 0 to |budgets|
        invariant alerts == AlertsFor(transactions, budgets[..i])
      {
        var b := budgets[i];
        assert budgets[..i + 1][..i] == budgets[..i];
        var spent := SpentByCategory(transactions, b.category);
        if spent / b.limit > Threshold {
          alerts := alerts + [Alert(b.category, spent / b.limit * 100.0)];
        }
      }
      assert budgets[..|budgets|] == budgets;
    }

    /** exportToCSV: the text of the export file; turning it into a download is not modelled.
        `amountText` is the conversion of an amount to text. */
    method ExportToCsv(amountText: real -> string) returns (csv: string)
      ensures csv == CsvText(transactions, amountText)
    {
      csv := Header + "\n";
      for i := 0 to |transactions|
        invariant csv == CsvText(transactions[..i], amountText)
      {
        var t := transactions[i];
        assert transactions[..i + 1][..i] == transactions[..i];
        csv := csv + Join([t.kind, amountText(t.amount), Shown(t.currency), t.date, t.category, t.notes], ',') + "\n";
      }
      assert transactions[..|transactions|] == transactions;
    }
  }
}
