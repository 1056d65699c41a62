# Presupuesto ledger — a Dafny model

Presupuesto is a browser budget tracker. Its logic lives in `Presupuesto/app.js`. This project models
that file's transaction ledger and the figures derived from it:

- **Recording a transaction** (`addTransaction`). The record read from the form goes at the end of the
  ledger. A new, non-empty category joins the category list. An income recorded with auto-save on
  also records a "saving" of a percentage of the amount. That percentage falls back to 10 when it is
  missing or 0.
- **The summary** (`updateSummary`). Income, expenses and savings are the sums of the converted
  amounts of each type. Amounts are converted through the static rate table `{USD: 1, BTC: 60000}`,
  and an absent or empty currency counts as USD. The debt total adds `remaining || amount` for each
  debt. The balance is `income - expenses - totalDebts + savings`.
- **Category spend** (`getSpentByCategory`). This sums the converted amounts of the expenses whose
  category matches exactly. It looks the currency up as it is, with no USD default.
- **Budget alerts** (`checkBudgetsForAlerts`). For each budget key in order, an alert carrying
  `spent / limit * 100` is raised when `spent / limit > 0.8`.
- **CSV export** (`exportToCSV`). The text is the header `Tipo,Monto,Moneda,Fecha,Categoría,Notas`,
  then one comma-joined line per transaction, each ended by a line break, with no escaping.

Layout:

- `records.dfy` (`Records`): the record types.
- `money.dfy` (`Money`): the rate table and the two currency lookups.
- `aggregates.dfy` (`Aggregates`): the summary and the category spend, as left folds, with their lemmas.
- `alerts.dfy` (`BudgetAlerts`): the alert rule.
- `csv.dfy` (`CsvExport`): the export text, plus a split function used to state what reading it back gives.
- `ledger.dfy` (`Presupuesto`): the `Ledger` class.

The `Ledger` class holds the module-level arrays `transactions`, `categories`, `budgets` and `debts`
as `seq` fields. `AddTransaction` updates them. `UpdateSummary`, `CheckBudgetsForAlerts` and
`ExportToCsv` run the source's loops and are proved equal to the fold functions above.

Amounts are exact `real` numbers. Budgets are a sequence of `(category, limit)` entries, visited in
the order given; the source object's own key order is only approximated (see "## Left out").

Two behaviours of the code that a reader might expect to differ are kept as written:

- A debt whose `remaining` is 0 counts its original `amount`, not 0 (`d.remaining || d.amount`).
- The summary and the category spend treat an absent currency differently (see
  `Aggregates.MissingCurrencyDiffers`).

A budget limit of 0 is divided by, unguarded, and the code then raises an "Infinity%" alert for any
positive spend. The model does not keep this: it requires `limit != 0` (see "## Left out"). It does
not treat 0 as "no limit" either. A negative limit divides normally, so it is allowed.

## Model

| member | source | states |
|---|---|---|
| `Money.Convert` | Presupuesto/app.js:12 | converting through the rate table leaves dollars unchanged, keeps non-negative amounts non-negative, and maps zero, and only zero, to zero |
| `Money.SummaryCurrency` | Presupuesto/app.js:73 | the summary's currency default: an absent or empty currency gives USD, a present non-empty code is used as it is, and the result is never empty |
| `Money.ListedAgrees` | Presupuesto/app.js:73-75 | when the category-spend lookup finds a currency, the summary's USD-defaulted lookup picks the same code |
| `Aggregates.Converted` | Presupuesto/app.js:73 | one record's dollar amount: an absent currency counts as dollars, a present non-empty code is priced at its rate, and a non-negative amount stays non-negative |
| `Aggregates.KindTotal` | Presupuesto/app.js:72-77 | the running total of one type is non-negative for non-negative amounts, and 0 when no record has that type |
| `Aggregates.Owed` | Presupuesto/app.js:78 | a debt contributes its non-zero remaining balance; when `remaining` is absent or 0 it contributes its original amount |
| `Aggregates.DebtTotal` | Presupuesto/app.js:78 | the debt total is non-negative when every debt owes a non-negative amount |
| `Aggregates.SummaryOf` | Presupuesto/app.js:66-79 | an empty ledger with no debts gives income, expenses, savings, debts and balance all 0 |
| `Aggregates.SpentByCategory` | Presupuesto/app.js:174-176 | the category spend is non-negative for non-negative amounts, and 0 when no record is an expense of exactly that category |
| `Aggregates.InCategory` | Presupuesto/app.js:175 | a record is in the selection iff it is in the ledger and has that category (membership only; counts and order are stated by the two lemmas below) |
| `Aggregates.InCategoryCounts` | Presupuesto/app.js:175 | the selection holds each record of the category as many times as the ledger does, and no other record |
| `Aggregates.InCategoryConcat` | Presupuesto/app.js:175 | the selection keeps ledger order: selecting from two concatenated ledgers concatenates the two selections |
| `Aggregates.KindTotalConcat` | Presupuesto/app.js:72-77 | the total of one type over two concatenated ledgers is the sum of the two totals |
| `Aggregates.KindTotalAppend` | Presupuesto/app.js:72-77 | one more record adds its converted amount to the total of its own type and to no other |
| `Aggregates.SummaryAppend` | Presupuesto/app.js:72-79 | one more record puts its converted amount into exactly one of income, expenses or savings (none for any other type), leaves the debt total alone, and moves the balance up for income and saving and down for an expense |
| `Aggregates.DebtTotalAppend` | Presupuesto/app.js:78 | one more debt adds what it owes to the debt total |
| `Aggregates.SpentAppend` | Presupuesto/app.js:175 | one more record adds `amount * rate` to a category's spend when it is an expense of exactly that category (case-sensitive), and leaves the spend unchanged otherwise |
| `Aggregates.SpentMonotone` | Presupuesto/app.js:175 | appending records with non-negative amounts never lowers a category's spend |
| `Aggregates.SpentIsCategoryExpenses` | Presupuesto/app.js:73-75 | when every expense of the category names a listed currency, the category spend equals the summary's expense total over that category's records |
| `Aggregates.MissingCurrencyDiffers` | Presupuesto/app.js:73 | an expense with no currency counts as dollars in the summary but cannot be priced by the category spend |
| `Aggregates.SummaryExample` | Presupuesto/app.js:66-79 | income 100, expense 30, saving 10 and a debt with 20 remaining give totals 100, 30, 10, 20 and balance 60 |
| `BudgetAlerts.AlertOf` | Presupuesto/app.js:135-136 | an alert names its budget's category and reports more than 80 percent exactly when `spent / limit > 0.8` (`BudgetAlerts.Ratio`, `BudgetAlerts.Fires`); the percentage is the exact value, without the source's rounding to a whole number |
| `BudgetAlerts.AlertsFor` | Presupuesto/app.js:131-139 | one evaluation raises at most one alert per budget entry |
| `BudgetAlerts.AlertsExactly` | Presupuesto/app.js:131-139 | an alert is in the result iff some budget entry fires and the alert is that entry's category with the exact, unrounded percentage `spent / limit * 100` |
| `BudgetAlerts.AlertsNameKeys` | Presupuesto/app.js:132 | every alert names a budget key |
| `BudgetAlerts.AlertsOncePerKey` | Presupuesto/app.js:132 | with distinct keys, as an object has, no category is alerted twice in one evaluation |
| `BudgetAlerts.AlertExample` | Presupuesto/app.js:131-139 | a limit of 50 for Comida with 45 spent raises exactly one alert, at 90 percent |
| `CsvExport.Shown` | Presupuesto/app.js:145 | the template literal prints a present currency as it is and an absent one as "undefined" |
| `CsvExport.CsvText` | Presupuesto/app.js:143-146 | the export text starts with the header line and ends with a line break; `CsvExport.CsvIsJoin` and `CsvExport.CsvReadsBack` state its full shape |
| `CsvExport.Lines` | Presupuesto/app.js:144-145 | there is one data line per transaction, in ledger order, and line k is the comma-join (`CsvExport.Line`) of transaction k's six fields (`CsvExport.Fields`) |
| `CsvExport.CsvIsJoin` | Presupuesto/app.js:143-146 | the export text is the header and the data lines joined by line breaks, plus a final line break |
| `CsvExport.LineReadsBack` | Presupuesto/app.js:145 | a line whose fields hold no comma or line break splits at commas into type, amount, currency, date, category and notes |
| `CsvExport.LinesReadBack` | Presupuesto/app.js:144-145 | in such a ledger every data line splits back into its own record's six fields and holds no line break |
| `CsvExport.CsvSplitsIntoLines` | Presupuesto/app.js:143-146 | when no data line holds a line break, the text splits at line breaks into the header, the data lines in order and an empty rest |
| `CsvExport.CsvReadsBack` | Presupuesto/app.js:143-146 | for a ledger with no comma or line break in any field, the export reads back as the header followed by each record's six fields, in ledger order |
| `CsvExport.CommaInNotesAddsField` | Presupuesto/app.js:145 | since nothing is escaped, notes "pan, leche" turn that line into seven fields |
| `Presupuesto.ChosenCategory` | Presupuesto/app.js:93 | the chosen category is the selected one when non-empty and the custom one when the selection is empty, so it is empty only when both inputs are empty |
| `Presupuesto.EntryDate` | Presupuesto/app.js:92 | the date is the entered one when non-empty and today's date when the entry is empty |
| `Presupuesto.AutoSavePercent` | Presupuesto/app.js:118 | the percentage is never 0: a missing or zero entry becomes 10 (`DefaultAutoSavePercent`), any other entry is kept |
| `Presupuesto.Entries` | Presupuesto/app.js:115-121 | one call appends 1 or 2 records, 2 exactly for income with auto-save on (`SavesAutomatically`, app.js:117); the first carries the form's type, amount, currency, category, expense type, notes and receipt; the second is a saving of `amount * percent / 100` in category "Ahorro Automático" with notes "Ahorro de ingreso" and no expense type or receipt; both have the form's currency and date |
| `Presupuesto.WithCategory` | Presupuesto/app.js:116 | the category list only grows, by at most one, and existing entries stay in place; it grows exactly when the category is non-empty and new; no duplicate is introduced |
| `Presupuesto.EntriesPriced` | Presupuesto/app.js:115-120 | the appended records carry the form's currency, so a priced ledger stays priced |
| `Presupuesto.SavingConverted` | Presupuesto/app.js:118-120 | the automatic saving, converted, is the income's converted amount times the percentage over 100 |
| `Presupuesto.EntriesKindTotal` | Presupuesto/app.js:115-120 | a form changes the total of one type by its converted amount when it has that type, and the saving total also by the automatic saving; a currency is needed only when the form reaches that total |
| `Presupuesto.EntriesSummary` | Presupuesto/app.js:115-120 | recording a form moves its converted amount into the total of its type (none for any other type, whatever its currency); income with auto-save on also adds its percentage to savings; debts are unchanged |
| `Presupuesto.EntriesSpent` | Presupuesto/app.js:115-120 | recording a form changes a category's spend only if it is an expense of exactly that category, by `amount * rate`; the automatic saving never counts as spend |
| `Presupuesto.Ledger.constructor` | Presupuesto/app.js:5-10 | the state starts with no transactions, budgets or debts and the five initial categories |
| `Presupuesto.Ledger.AddTransaction` | Presupuesto/app.js:88-125 | the ledger becomes the old ledger followed by the form's records, the category list gains the chosen category when it is new and non-empty, and budgets and debts are unchanged |
| `Presupuesto.Ledger.UpdateSummary` | Presupuesto/app.js:66-79 | the two loops compute exactly the summary of the current transactions and debts |
| `Presupuesto.Ledger.CheckBudgetsForAlerts` | Presupuesto/app.js:131-139 | the loop over budget keys produces exactly the alerts of the rule, in key order |
| `Presupuesto.Ledger.ExportToCsv` | Presupuesto/app.js:142-146 | the loop builds exactly the export text: header, then one line per transaction |

## Left out

- Loading and saving (`loadData`, `saveData`): remote fetch, JSON and localStorage fallback are I/O over a foreign transport. The call to `saveData` and the redraw after recording a transaction are not modelled.
- Page reads and writes: the form fields and their `parseFloat` are parameters (`Form`, `today`). The `textContent` updates and `toFixed(2)` rounding of the summary are not modelled. The theme toggle, `applyTheme` and the service-worker registration are not modelled.
- The receipt: the asynchronous `FileReader` read and base64 encoding are not modelled. Its result is the `receipt` parameter, because the push logic inside the callback is the same as in the synchronous branch.
- `alert()` itself: alerts are returned as a sequence.
- Blob, object URL and download click of the export: only the text is modelled.
- JavaScript number semantics: floating-point rounding, NaN and Infinity. Amounts are exact reals.
- Functions that exist only as comments: recurring rollover, setBudget, addDebt, payDebt and the monthly report have no code to model. Budgets and debts are therefore only read here.
- `Presupuesto.Ledger.UpdateSummary`: requires every income, expense and saving record to have a currency in the rate table once defaulted to USD. An unknown code yields NaN in the source, and that is not modelled.
- `Aggregates.SpentByCategory`: requires every matching expense to name a currency in the rate table. An absent or unknown code yields NaN in the source, and that is not modelled.
- `Presupuesto.Ledger.CheckBudgetsForAlerts`: requires every budget limit to be non-zero and every budget category's expenses to be priceable. A zero limit yields Infinity or NaN in the source, and that is not modelled.
- `Presupuesto.Ledger.ExportToCsv`: the conversion of an amount to text is the parameter `amountText` and is not modelled. Other fields are taken as strings; only an absent currency is rendered as "undefined".
- `BudgetAlerts.AlertOf`: the alert message shows the percentage rounded to a whole number (`toFixed(0)`). The model reports the exact value; the rounding and the message text are not modelled.
- `BudgetAlerts.AlertsFor`: the source object puts integer-like keys first in numeric order. The model keeps the given key order.
- `Presupuesto.Ledger.AddTransaction`: a `NaN` amount from an unparseable input is not modelled.
