/** The forecasting agent: a moving-average forecast with a trend label, and the cash-flow
    projection with linear growth. */
module Forecasting {
  import opened Common
  import opened Sums

  /** A point of a series; its `value` string is taken as already read by `parseFloat`. */
  datatype TimeSeriesData = TimeSeriesData(timestamp: string, value: real)

  datatype Trend = Up | Down | Stable

  /** The forecast, with `predicted` as a number rather than its `toFixed(2)` rendering. */
  datatype ForecastResult = ForecastResult(
    period: string, predicted: real, confidence: real, trend: Trend, factors: seq<string>)

  /** The error thrown when the series is shorter than the window. */
  datatype ForecastError = InsufficientData(window: nat)

  const DefaultWindow: nat := 3
  const Confidence: real := 0.7
  /** A relative change beyond 5% either way is a trend. */
  const TrendThreshold: real := 0.05
  /** The cash-flow projection grows by 2% of the baseline per month. */
  const MonthlyGrowth: real := 0.02

  function PointValue(d: TimeSeriesData): real { d.value }

  function Identity(x: real): real { x }

  /** The decimal rendering of a count, as a template literal writes it. */
  function NatToString(n: nat): string
    decreases n
  {
    if n < 10 then ["0123456789"[n]] else NatToString(n / 10) + ["0123456789"[n % 10]]
  }

  /** `detectTrend`: the relative change between the last two points against ±5%. A previous
      value of zero divides to an infinity (or NaN for 0/0), as in IEEE arithmetic. */
  function DetectTrend(data: seq<TimeSeriesData>): (t: Trend)
    ensures |data| < 2 ==> t == Stable
    ensures |data| >= 2 && data[|data| - 2].value > 0.0 ==>
              && (t == Up <==> data[|data| - 1].value > data[|data| - 2].value * 1.05)
              && (t == Down <==> data[|data| - 1].value < data[|data| - 2].value * 0.95)
    ensures |data| >= 2 && data[|data| - 2].value < 0.0 ==>
              && (t == Up <==> data[|data| - 1].value < data[|data| - 2].value * 1.05)
              && (t == Down <==> data[|data| - 1].value > data[|data| - 2].value * 0.95)
    ensures |data| >= 2 && data[|data| - 2].value == 0.0 ==>
              && (t == Up <==> data[|data| - 1].value > 0.0)
              && (t == Down <==> data[|data| - 1].value < 0.0)
  {
    if |data| < 2 then Stable
    else
      var recent := data[|data| - 1].value;
      var previous := data[|data| - 2].value;
      if previous == 0.0 then
        (if recent > 0.0 then Up else if recent < 0.0 then Down else Stable)
      else
        var change := (recent - previous) / previous;
        RelativeChange(recent, previous);
        if change > TrendThreshold then Up
        else if change < -TrendThreshold then Down
        else Stable
  }

  /** Comparing a relative change with ±5% is comparing the new value with the old one
      scaled by 1.05 and 0.95, the direction flipping for a negative old value. */
  lemma RelativeChange(recent: real, previous: real)
    requires previous != 0.0
    ensures previous > 0.0 ==> ((recent - previous) / previous > TrendThreshold <==> recent > previous * 1.05)
    ensures previous > 0.0 ==> ((recent - previous) / previous < -TrendThreshold <==> recent < previous * 0.95)
    ensures previous < 0.0 ==> ((recent - previous) / previous > TrendThreshold <==> recent < previous * 1.05)
    ensures previous < 0.0 ==> ((recent - previous) / previous < -TrendThreshold <==> recent > previous * 0.95)
  {
    var c := (recent - previous) / previous;
    assert TrendThreshold == 0.05;
    assert c * previous == recent - previous;
    assert TrendThreshold * previous == previous * 1.05 - previous;
    assert (-TrendThreshold) * previous == previous * 0.95 - previous;
    ScaleComparison(c, TrendThreshold, previous);
    ScaleComparison(-TrendThreshold, c, previous);
    if previous > 0.0 {
      assert -TrendThreshold > c <==> (-TrendThreshold) * previous > c * previous;
      assert -TrendThreshold > c <==> previous * 0.95 - previous > recent - previous;
      assert c < -TrendThreshold <==> recent < previous * 0.95;
    } else {
      assert -TrendThreshold > c <==> (-TrendThreshold) * previous < c * previous;
      assert -TrendThreshold > c <==> previous * 0.95 - previous < recent - previous;
      assert c < -TrendThreshold <==> recent > previous * 0.95;
    }
  }

  /** Multiplying both sides by a positive number keeps a strict comparison, by a negative
      one reverses it. */
  lemma ScaleComparison(x: real, y: real, k: real)
    requires k != 0.0
    ensures k > 0.0 ==> (x > y <==> x * k > y * k)
    ensures k < 0.0 ==> (x > y <==> x * k < y * k)
  {
    assert x * k - y * k == (x - y) * k;
  }

  /** The window `simpleMovingAverage` uses: the one given, or 3 when it is omitted. */
  function WindowOrDefault(window: Option<nat>): nat
  {
    if window.None? then DefaultWindow else window.value
  }

  /** `simpleMovingAverage`: the mean of the last `window` points (3 unless given), labelled
      with the trend of the whole series. */
  function SimpleMovingAverage(data: seq<TimeSeriesData>, window: Option<nat>): (r: Result<ForecastResult, ForecastError>)
    requires window.Some? ==> window.value >= 1
    ensures r.Err? <==> |data| < WindowOrDefault(window)
    ensures r.Err? ==> r.error == InsufficientData(WindowOrDefault(window))
    ensures r.Ok? ==> r.value.predicted * WindowOrDefault(window) as real
                      == Sum(data[|data| - WindowOrDefault(window)..], PointValue)
    ensures r.Ok? ==> r.value.period == "next" && r.value.confidence == 0.7
    ensures r.Ok? ==> r.value.trend == DetectTrend(data)
    ensures r.Ok? ==> r.value.factors == ["moving_average", "window_" + NatToString(WindowOrDefault(window))]
  {
    var w := WindowOrDefault(window);
    if |data| < w then Err(InsufficientData(w))
    else
      var recent := data[|data| - w..];
      var average := Sum(recent, PointValue) / w as real;
      Ok(ForecastResult("next", average, Confidence, DetectTrend(data),
                        ["moving_average", "window_" + NatToString(w)]))
  }

  /** The prediction lies between the smallest and largest value of the window; a window of
      equal values predicts that value. */
  lemma MovingAverageWithinWindow(data: seq<TimeSeriesData>, window: nat, lo: real, hi: real)
    requires 1 <= window <= |data|
    requires forall i :: |data| - window <= i < |data| ==> lo <= data[i].value <= hi
    ensures lo <= SimpleMovingAverage(data, Some(window)).value.predicted <= hi
  {
    assert WindowOrDefault(Some(window)) == window;
    var recent := data[|data| - window..];
    assert forall i :: 0 <= i < |recent| ==> recent[i] == data[|data| - window + i];
    SumBounds(recent, PointValue, lo, hi);
    MeanBounds(Sum(recent, PointValue), window as real, lo, hi);
  }

  lemma MeanBounds(total: real, w: real, lo: real, hi: real)
    requires w > 0.0 && w * lo <= total <= w * hi
    ensures lo <= total / w <= hi
  {
    var m := total / w;
    assert m * w == total;
    assert (m - lo) * w >= 0.0;
    assert (hi - m) * w >= 0.0;
  }

  /** `forecastCashFlow`: `months` points growing linearly by 2% of the series mean per month,
      or `months` zeros for an empty series. */
  function ForecastCashFlow(series: seq<real>, months: nat): (r: seq<real>)
    ensures |r| == months
    ensures series == [] ==> forall i :: 0 <= i < months ==> r[i] == 0.0
    ensures series != [] && months > 0 ==> r[0] * |series| as real == Sum(series, Identity)
    ensures forall i :: 0 <= i < months - 1 ==> r[i + 1] == r[i] + r[0] * MonthlyGrowth
  {
    if series == [] then seq(months, _ => 0.0)
    else
      var average := Sum(series, Identity) / |series| as real;
      seq(months, i => average * (1.0 + i as real * MonthlyGrowth))
  }

  /** The projection moves in the direction of the sign of the mean: it never falls for a
      non-negative mean and never rises for a non-positive one. */
  lemma CashFlowFollowsSignOfMean(series: seq<real>, months: nat)
    requires months > 0
    ensures var r := ForecastCashFlow(series, months);
            forall i, j :: 0 <= i <= j < months ==>
              (r[0] >= 0.0 ==> r[i] <= r[j]) && (r[0] <= 0.0 ==> r[i] >= r[j])
  {
    var r := ForecastCashFlow(series, months);
    forall i, j | 0 <= i <= j < months
      ensures (r[0] >= 0.0 ==> r[i] <= r[j]) && (r[0] <= 0.0 ==> r[i] >= r[j])
    {
      LinearGrowth(series, months, i);
      LinearGrowth(series, months, j);
      assert r[j] - r[i] == r[0] * ((j - i) as real * MonthlyGrowth);
    }
  }

  /** Point `k` is the mean grown by `2% * k`. */
  lemma {:induction false} LinearGrowth(series: seq<real>, months: nat, k: nat)
    requires k < months
    ensures var r := ForecastCashFlow(series, months); r[k] == r[0] * (1.0 + k as real * MonthlyGrowth)
  {
    var r := ForecastCashFlow(series, months);
    if k > 0 {
      LinearGrowth(series, months, k - 1);
      assert r[k] == r[k - 1] + r[0] * MonthlyGrowth;
    }
  }

  /** The projection over the shipped example series starts at its mean, 1176.67 rounded. */
  lemma ExampleSeriesStartsAtMean()
    ensures var r := ForecastCashFlow([1200.0, 1350.0, 980.0], 6);
            |r| == 6 && r[0] * 3.0 == 3530.0
  {
    var s := [1200.0, 1350.0, 980.0];
    assert s[..2] == [1200.0, 1350.0] && s[..2][..1] == [1200.0] && s[..2][..1][..0] == [];
    assert Sum([1200.0], Identity) == 1200.0;
    assert Sum([1200.0, 1350.0], Identity) == 2550.0;
    assert Sum(s, Identity) == 3530.0;
  }
}
