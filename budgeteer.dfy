/** The budgeting agent: burn-rate forecasting and extraction of the month-to-date spend from
    a cost-and-usage response. */
module Budgeteering {
  import opened Common

  /** A value in the decoded cost-and-usage response. */
  datatype Json =
    | JNull
    | JBool(b: bool)
    | JNumber(n: real)
    | JString(s: string)
    | JList(items: seq<Json>)
    | JDict(fields: map<string, Json>)

  /** The `IndexError`, `TypeError`, `KeyError` or `AttributeError` raised when a level of the
      response has the wrong shape; the source does not catch it. */
  datatype LookupError = MalformedResponse

  /** The `ValueError` raised for a non-positive day count. */
  datatype ForecastError = NonPositiveDays

  datatype BudgetForecast = BudgetForecast(
    currentSpend: real, burnRate: real, forecastMonthly: real, percentOfBudget: real)

  const DefaultSlackChannel: string := "#finops"

  /** `dict.get(key, default)`. */
  function Get(fields: map<string, Json>, key: string, default: Json): Json
  {
    if key in fields then fields[key] else default
  }

  /** `float(amount)` with its `TypeError`/`ValueError` fallback to 0.0. `parseFloat` is
      Python's `float` on strings, `None` for a string it rejects. */
  function AmountOrZero(amount: Json, parseFloat: string -> Option<real>): real
  {
    match amount
    case JNumber(n) => n
    case JBool(b) => if b then 1.0 else 0.0
    case JString(s) => if parseFloat(s).Some? then parseFloat(s).value else 0.0
    case _ => 0.0
  }

  /** The chained lookups `response["ResultsByTime"][0]["Total"]["UnblendedCost"]["Amount"]`
      with their defaults, then the parse. */
  function MonthToDateSpend(response: map<string, Json>, parseFloat: string -> Option<real>): (r: Result<real, LookupError>)
    requires parseFloat("0") == Some(0.0)
    // A missing level at any depth yields 0.
    ensures "ResultsByTime" !in response ==> r == Ok(0.0)
    // The results list must be a non-empty list of mappings, and each present level a mapping.
    ensures ("ResultsByTime" in response && !(response["ResultsByTime"].JList? && |response["ResultsByTime"].items| > 0))
              ==> r.Err?
    ensures r.Ok? ==> ("ResultsByTime" !in response || Shaped(response["ResultsByTime"]))
    ensures ("ResultsByTime" in response && Shaped(response["ResultsByTime"])) ==>
              r == Ok(AmountOrZero(Get(CostLevel(response["ResultsByTime"]), "Amount", JString("0")), parseFloat))
  {
    var results := Get(response, "ResultsByTime", JList([JDict(map[])]));
    if !results.JList? || |results.items| == 0 || !results.items[0].JDict? then Err(MalformedResponse)
    else
      var total := Get(results.items[0].fields, "Total", JDict(map[]));
      if !total.JDict? then Err(MalformedResponse)
      else
        var cost := Get(total.fields, "UnblendedCost", JDict(map[]));
        if !cost.JDict? then Err(MalformedResponse)
        else
          var amount := Get(cost.fields, "Amount", JString("0"));
          Ok(AmountOrZero(amount, parseFloat))
  }

  /** A results list whose first element, `Total` and `UnblendedCost` levels are mappings
      wherever they are present. */
  predicate Shaped(results: Json)
  {
    && results.JList? && |results.items| > 0 && results.items[0].JDict?
    && Get(results.items[0].fields, "Total", JDict(map[])).JDict?
    && Get(Get(results.items[0].fields, "Total", JDict(map[])).fields, "UnblendedCost", JDict(map[])).JDict?
  }

  /** The `UnblendedCost` mapping of a well-shaped results list. */
  function CostLevel(results: Json): map<string, Json>
    requires Shaped(results)
  {
    Get(Get(results.items[0].fields, "Total", JDict(map[])).fields, "UnblendedCost", JDict(map[])).fields
  }

  /** The fallback: a missing `Total`, `UnblendedCost` or `Amount`, an amount that is not a
      number, or a string amount that does not parse, all read as zero spend. */
  lemma MissingAmountReadsAsZero(response: map<string, Json>, parseFloat: string -> Option<real>)
    requires parseFloat("0") == Some(0.0)
    requires "ResultsByTime" in response && Shaped(response["ResultsByTime"])
    requires var c := CostLevel(response["ResultsByTime"]);
             "Amount" !in c || c["Amount"].JNull? || c["Amount"].JList? || c["Amount"].JDict?
             || (c["Amount"].JString? && parseFloat(c["Amount"].s).None?)
    ensures MonthToDateSpend(response, parseFloat) == Ok(0.0)
  {
  }

  /** The response shape the cost-and-usage API returns yields its amount. */
  lemma WellFormedResponseYieldsAmount(amount: string, value: real, parseFloat: string -> Option<real>)
    requires parseFloat("0") == Some(0.0) && parseFloat(amount) == Some(value)
    ensures MonthToDateSpend(
              map["ResultsByTime" := JList([JDict(map["Total" := JDict(map["UnblendedCost" :=
                JDict(map["Amount" := JString(amount)])])])])],
              parseFloat) == Ok(value)
  {
    var c := map["Amount" := JString(amount)];
    var t := map["UnblendedCost" := JDict(c)];
    var first := map["Total" := JDict(t)];
    var response := map["ResultsByTime" := JList([JDict(first)])];
    assert Shaped(response["ResultsByTime"]);
    assert CostLevel(response["ResultsByTime"]) == c;
  }

  datatype Budgeteer = Budgeteer(budgetLimit: real, slackChannel: string)
  {
    /** Burn rate, projected month-end spend and percentage of the budget limit. */
    function Forecast(currentSpend: real, daysElapsed: int, daysInMonth: int): (r: Result<BudgetForecast, ForecastError>)
      ensures r.Err? <==> daysElapsed <= 0 || daysInMonth <= 0
      ensures r.Ok? ==> r.value.currentSpend == currentSpend
      ensures r.Ok? ==> r.value.burnRate * daysElapsed as real == currentSpend
      ensures r.Ok? ==> r.value.forecastMonthly * daysElapsed as real == currentSpend * daysInMonth as real
      ensures r.Ok? && budgetLimit == 0.0 ==> r.value.percentOfBudget == 0.0
      ensures r.Ok? && budgetLimit != 0.0 ==> r.value.percentOfBudget * budgetLimit == r.value.forecastMonthly * 100.0
    {
      if daysElapsed <= 0 || daysInMonth <= 0 then Err(NonPositiveDays)
      else
        var burnRate := currentSpend / daysElapsed as real;
        var forecastMonthly := burnRate * daysInMonth as real;
        var percent := if budgetLimit != 0.0 then (forecastMonthly / budgetLimit) * 100.0 else 0.0;
        Ok(BudgetForecast(currentSpend, burnRate, forecastMonthly, percent))
    }
  }

  /** `Budgeteer(budget_limit)` with the default channel. */
  function NewBudgeteer(budgetLimit: real, slackChannel: Option<string>): (b: Budgeteer)
    ensures b.budgetLimit == budgetLimit
    ensures b.slackChannel == if slackChannel.None? then DefaultSlackChannel else slackChannel.value
  {
    Budgeteer(budgetLimit, if slackChannel.None? then DefaultSlackChannel else slackChannel.value)
  }

  /** On the last day of the month the projection is the spend so far. */
  lemma ProjectionAtMonthEnd(b: Budgeteer, currentSpend: real, days: int)
    requires days > 0
    ensures b.Forecast(currentSpend, days, days).Ok?
    ensures b.Forecast(currentSpend, days, days).value.forecastMonthly == currentSpend
  {
    var f := b.Forecast(currentSpend, days, days).value;
    assert f.forecastMonthly * days as real == currentSpend * days as real;
  }

  /** A spend projected to exactly the budget limit is 100 percent of the budget. */
  lemma FullBudgetIsHundredPercent(b: Budgeteer, currentSpend: real, daysElapsed: int, daysInMonth: int)
    requires b.budgetLimit != 0.0 && daysElapsed > 0 && daysInMonth > 0
    requires b.Forecast(currentSpend, daysElapsed, daysInMonth).value.forecastMonthly == b.budgetLimit
    ensures b.Forecast(currentSpend, daysElapsed, daysInMonth).value.percentOfBudget == 100.0
  {
    var f := b.Forecast(currentSpend, daysElapsed, daysInMonth).value;
    assert f.percentOfBudget * b.budgetLimit == b.budgetLimit * 100.0;
  }
}
