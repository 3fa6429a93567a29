/** The budget allocation record: `BudgetModel` with its normalising post-construction step,
    the derived `remaining` and `utilization` figures and the numbers in its dictionary form. */
module BudgetModels {
  import opened Common
  import opened Decimals

  datatype Period = Monthly | Quarterly | Yearly

  /** `to_dict`, with amounts kept as numbers rather than their `str` renderings. */
  datatype BudgetDict = BudgetDict(
    id: string, name: string, period: Period, startDate: Instant, endDate: Instant,
    allocation: real, spent: real, currency: string,
    remaining: real, utilization: real, categories: map<string, real>)

  /** The `decimal.InvalidOperation` raised while coercing one of the two amounts. */
  datatype ConversionError = InvalidAllocated | InvalidSpent

  const DefaultCurrency: string := "USD"

  class BudgetModel {
    var id: string
    var name: string
    var period: Period
    var startDate: Instant
    var endDate: Instant
    /** The `allocated` field (`allocated` is a reserved word in Dafny). */
    var allocation: real
    var spent: real
    var currency: string
    var categories: map<string, real>

    /** Stores fields that are already normalised. */
    constructor Init(id: string, name: string, period: Period, startDate: Instant, endDate: Instant,
                     allocation: real, spent: real, currency: string, categories: map<string, real>)
      ensures this.id == id && this.name == name && this.period == period
      ensures this.startDate == startDate && this.endDate == endDate
      ensures this.allocation == allocation && this.spent == spent
      ensures this.currency == currency && this.categories == categories
    {
      this.id := id;
      this.name := name;
      this.period := period;
      this.startDate := startDate;
      this.endDate := endDate;
      this.allocation := allocation;
      this.spent := spent;
      this.currency := currency;
      this.categories := categories;
    }

    /** Dataclass construction followed by `__post_init__`. An omitted `spent` is `Decimal("0")`
        and an omitted `currency` is "USD"; `categories` left at (or passed as) `None` becomes
        the empty map. Both amounts are coerced to Decimal, `allocation` first; a string that
        does not parse raises, which is the error result here. */
    static method Create(id: string, name: string, period: Period, startDate: Instant, endDate: Instant,
                         allocation: PyValue, spent: Option<PyValue>, currency: Option<string>,
                         categories: Option<map<string, real>>, parse: string -> Option<real>)
      returns (r: Result<BudgetModel, ConversionError>)
      ensures ToDecimal(allocation, parse).None? ==> r == Err(InvalidAllocated)
      ensures (ToDecimal(allocation, parse).Some? && spent.Some? && ToDecimal(spent.value, parse).None?)
                ==> r == Err(InvalidSpent)
      ensures r.Ok? <==> ToDecimal(allocation, parse).Some? && (spent.Some? ==> ToDecimal(spent.value, parse).Some?)
      ensures r.Ok? ==> fresh(r.value)
      ensures r.Ok? ==> r.value.id == id && r.value.name == name && r.value.period == period
      ensures r.Ok? ==> r.value.startDate == startDate && r.value.endDate == endDate
      ensures r.Ok? ==> r.value.allocation == ToDecimal(allocation, parse).value
      ensures r.Ok? ==> r.value.spent == (if spent.None? then 0.0 else ToDecimal(spent.value, parse).value)
      ensures r.Ok? ==> r.value.currency == (if currency.None? then DefaultCurrency else currency.value)
      ensures r.Ok? ==> r.value.categories == (if categories.None? then map[] else categories.value)
    {
      var a := ToDecimal(allocation, parse);
      if a.None? {
        return Err(InvalidAllocated);
      }
      var s := Some(0.0);
      if spent.Some? {
        s := ToDecimal(spent.value, parse);
        if s.None? {
          return Err(InvalidSpent);
        }
      }
      var cur := if currency.None? then DefaultCurrency else currency.value;
      var cats := if categories.None? then map[] else categories.value;
      var b := new BudgetModel.Init(id, name, period, startDate, endDate, a.value, s.value, cur, cats);
      return Ok(b);
    }

    /** What is left of the allocation; not clamped, so negative once spending overruns it. */
    function Remaining(): (r: real)
      reads this
      ensures r + spent == allocation
      ensures r < 0.0 <==> spent > allocation
    {
      allocation - spent
    }

    /** Spending as a percentage of the allocation, 0 for a zero allocation. */
    function Utilization(): (u: real)
      reads this
      ensures allocation == 0.0 ==> u == 0.0
      ensures allocation != 0.0 ==> u * allocation == spent * 100.0
    {
      if allocation == 0.0 then 0.0 else (spent / allocation) * 100.0
    }

    /** The dictionary form; its derived entries agree with the methods. */
    function ToDict(): (d: BudgetDict)
      reads this
      ensures d.id == id && d.name == name && d.period == period
      ensures d.startDate == startDate && d.endDate == endDate && d.currency == currency
      ensures d.allocation == allocation && d.spent == spent && d.categories == categories
      ensures d.remaining == Remaining() && d.utilization == Utilization()
    {
      BudgetDict(id, name, period, startDate, endDate, allocation, spent, currency,
                 Remaining(), Utilization(), categories)
    }
  }

  /** Within budget, utilization is a percentage between 0 and 100, reaching 100 exactly when
      the allocation is used up. */
  lemma UtilizationIsPercentage(b: BudgetModel)
    requires 0.0 <= b.spent <= b.allocation
    ensures 0.0 <= b.Utilization() <= 100.0
    ensures b.allocation != 0.0 ==> (b.Utilization() == 100.0 <==> b.spent == b.allocation)
  {
    if b.allocation != 0.0 {
      var u := b.Utilization();
      assert u * b.allocation == b.spent * 100.0;
      assert u * b.allocation <= b.allocation * 100.0;
    }
  }

  /** The percentage of a dictionary reads back the spending: `utilization / 100 * allocation`
      is `spent` whenever the allocation is non-zero. */
  lemma DictUtilizationRecoversSpent(b: BudgetModel)
    requires b.allocation != 0.0
    ensures b.ToDict().utilization / 100.0 * b.ToDict().allocation == b.ToDict().spent
    ensures b.ToDict().remaining + b.ToDict().spent == b.ToDict().allocation
  {
  }
}
