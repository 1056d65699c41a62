/** The static exchange-rate table and the two ways the source looks a currency up in it. */
module Money {
  import opened Records

  const BaseCurrency: string := "USD"

  /** Value of one unit of each currency in US dollars. */
  const Rates: map<string, real> := map["USD" := 1.0, "BTC" := 60000.0]

  /** `amount * exchangeRate[code]` for a code the table has. */
  function Convert(amount: real, code: string): (r: real)
    requires code in Rates
    ensures code == BaseCurrency ==> r == amount
    ensures amount >= 0.0 ==> r >= 0.0
    ensures amount == 0.0 <==> r == 0.0
  {
    amount * Rates[code]
  }

  /** The currency the summary uses: `t.currency || 'USD'`, so an absent or empty code means dollars. */
  function SummaryCurrency(c: Option<string>): (code: string)
    ensures c == None || c == Some("") ==> code == BaseCurrency
    ensures code != ""
    ensures c.Some? && code != c.value ==> code == BaseCurrency
    ensures c.Some? && c.value != "" ==> code == c.value
  {
    if c.Some? && c.value != "" then c.value else BaseCurrency
  }

  /** The category-spend fold looks the code up as it is: only a present code that the table has gives a number. */
  predicate Listed(c: Option<string>)
  {
    c.Some? && c.value in Rates
  }

  /** Where the category-spend lookup succeeds, the summary uses the same code. */
  lemma ListedAgrees(c: Option<string>)
    requires Listed(c)
    ensures SummaryCurrency(c) == c.value && SummaryCurrency(c) in Rates
  {
  }
}
