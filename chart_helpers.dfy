/** Chart helpers: the colour and icon of an order status, the height class of
    a bar relative to the largest bar, and a percentage. */
module ChartHelpers {
  import opened Text
  import opened OrderHelpers
  import StatusHelpers

  const DefaultColor := "#6b7280"

  /** getStatusColor: a fixed colour per order status, grey for anything else. */
  function StatusColor(status: string): (r: string)
    ensures r == DefaultColor <==> Lower(status) !in OrderStatuses
    ensures Lower(status) == "pending" ==> r == "#f59e0b"
    ensures Lower(status) == "processing" ==> r == "#3b82f6"
    ensures Lower(status) == "shipped" ==> r == "#8b5cf6"
    ensures Lower(status) == "delivered" ==> r == "#10b981"
    ensures Lower(status) == "cancelled" ==> r == "#ef4444"
  {
    var s := Lower(status);
    if s == "pending" then "#f59e0b"
    else if s == "processing" then "#3b82f6"
    else if s == "shipped" then "#8b5cf6"
    else if s == "delivered" then "#10b981"
    else if s == "cancelled" then "#ef4444"
    else DefaultColor
  }

  /** Distinct order statuses get distinct colours. */
  lemma StatusColorsDistinct(a: string, b: string)
    requires Lower(a) in OrderStatuses && Lower(b) in OrderStatuses
    ensures StatusColor(a) == StatusColor(b) <==> Lower(a) == Lower(b)
  {
  }

  /** getStatusIcon: the same icon per status as the order icons of the status
      helpers, and the package icon for anything else. */
  function StatusIcon(status: string): (r: string)
    ensures r == StatusHelpers.Package <==> Lower(status) !in OrderStatuses
  {
    var s := Lower(status);
    if s == "pending" then StatusHelpers.Hourglass
    else if s == "processing" then StatusHelpers.Gear
    else if s == "shipped" then StatusHelpers.Truck
    else if s == "delivered" then StatusHelpers.CheckMark
    else if s == "cancelled" then StatusHelpers.CrossMark
    else StatusHelpers.Package
  }

  /** The chart's icon map and the status helpers' order icon map agree everywhere. */
  lemma StatusIconsAgree(status: string)
    ensures StatusIcon(status) == StatusHelpers.OrderStatusIcon(status)
  {
  }

  /** Colour and icon look only at the lower-cased status. */
  lemma ChartMapsIgnoreCase(s: string)
    ensures StatusColor(s) == StatusColor(Lower(s))
    ensures StatusIcon(s) == StatusIcon(Lower(s))
  {
    LowerIdempotent(s);
  }

  /** The ratio value / maxValue as JavaScript computes it, with the division by
      zero written out: a positive value over 0 is +Infinity, a negative one
      -Infinity, and 0 / 0 is NaN; every comparison with NaN is false. */
  datatype Ratio = Finite(x: real) | PosInfinity | NegInfinity | NaN

  function BarRatio(value: real, maxValue: real): (q: Ratio)
    ensures maxValue != 0.0 ==> q == Finite(value / maxValue)
  {
    if maxValue != 0.0 then Finite(value / maxValue)
    else if value > 0.0 then PosInfinity
    else if value < 0.0 then NegInfinity
    else NaN
  }

  /** The bar height, as the number in its class name: 100 only for a ratio of
      exactly 1, then the thresholds 0.8, 0.6 and 0.4; +Infinity passes the 0.8
      test, -Infinity and NaN pass none. */
  function LevelOf(q: Ratio): (n: int)
    ensures n in [20, 40, 60, 80, 100]
    ensures n == 100 <==> q == Finite(1.0)
    ensures q.Finite? && q.x > 1.0 ==> n == 80
    ensures q.Finite? && q.x < 0.4 ==> n == 20
  {
    match q
    case Finite(x) =>
      if x == 1.0 then 100
      else if x >= 0.8 then 80
      else if x >= 0.6 then 60
      else if x >= 0.4 then 40
      else 20
    case PosInfinity => 80
    case NegInfinity => 20
    case NaN => 20
  }

  /** Up to a ratio of 1, a larger ratio never gets a lower bar. */
  lemma LevelMonotone(x: real, y: real)
    requires x <= y <= 1.0
    ensures LevelOf(Finite(x)) <= LevelOf(Finite(y))
  {
  }

  /** Dividing by a positive maximum keeps the order of values and maps the
      maximum itself, and only it, to 1. */
  lemma RatioFacts(v: real, w: real, maxValue: real)
    requires maxValue > 0.0
    ensures v <= w ==> v / maxValue <= w / maxValue
    ensures v / maxValue == 1.0 <==> v == maxValue
    ensures v > maxValue ==> v / maxValue > 1.0
    ensures v <= maxValue ==> v / maxValue <= 1.0
  {
    var x, y := v / maxValue, w / maxValue;
    assert x * maxValue == v;
    assert y * maxValue == w;
    assert (y - x) * maxValue == w - v;
    assert (x - 1.0) * maxValue == v - maxValue;
  }

  /** getBarHeightClass: the class name carries the level as its number. */
  function BarHeightClass(value: real, maxValue: real): (r: string)
    ensures r == "bar-height-" + NatToString(LevelOf(BarRatio(value, maxValue)))
  {
    var n := LevelOf(BarRatio(value, maxValue));
    if n == 100 then "bar-height-100"
    else if n == 80 then "bar-height-80"
    else if n == 60 then "bar-height-60"
    else if n == 40 then "bar-height-40"
    else "bar-height-20"
  }

  /** The largest bar is full height, and a value above the maximum gets the
      80 class, not the full one. */
  lemma BarHeightAtAndAboveMax(value: real, maxValue: real)
    requires maxValue > 0.0
    ensures value == maxValue ==> BarHeightClass(value, maxValue) == "bar-height-100"
    ensures value > maxValue ==> BarHeightClass(value, maxValue) == "bar-height-80"
  {
    RatioFacts(value, value, maxValue);
  }

  /** Between 0 and the largest bar, a larger value never gets a lower bar. */
  lemma BarLevelMonotone(v: real, w: real, maxValue: real)
    requires maxValue > 0.0 && 0.0 <= v <= w <= maxValue
    ensures LevelOf(BarRatio(v, maxValue)) <= LevelOf(BarRatio(w, maxValue))
  {
    RatioFacts(v, w, maxValue);
    RatioFacts(w, w, maxValue);
    LevelMonotone(v / maxValue, w / maxValue);
  }

  /** calculatePercentage: 0 for a non-positive total, else value / total * 100. */
  function CalculatePercentage(value: real, total: real): (r: real)
    ensures total <= 0.0 ==> r == 0.0
    ensures total > 0.0 ==> r * total == value * 100.0
    ensures total > 0.0 && 0.0 <= value <= total ==> 0.0 <= r <= 100.0
  {
    if total > 0.0 then
      var r := value / total * 100.0;
      assert r * total == value * 100.0;
      r
    else 0.0
  }
}
