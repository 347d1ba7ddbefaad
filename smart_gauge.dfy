/**
 * The threshold gauge: a bar position over the absolute range
 * [limitMin, limitMax], clamped to [0, 100], and a Low / Optimal / High
 * status over the acceptable range [min, max], with a colour for each.
 */
module SmartGauge {
  import opened Wrappers

  /** The colour used when the low or high colour is missing. */
  const FallbackAlert: string := "#EF4444"

  /** Colour slots; a missing slot is `None`. */
  datatype Colors = Colors(low: Option<string>, optimal: Option<string>, high: Option<string>)

  /** The colours used when the caller passes none. */
  const DefaultColors: Colors := Colors(Some("#EF4444"), Some("#10B981"), Some("#EF4444"))

  datatype Status = Low | Optimal | High {
    function Label(): string
    {
      match this
      case Low => "Bajo"
      case Optimal => "Óptimo"
      case High => "Alto"
    }

    function TextColor(): string
    {
      match this
      case Low => "text-red-600"
      case Optimal => "text-green-600"
      case High => "text-orange-600"
    }
  }

  /** What the gauge shows: bar width in percent, value colour, status. */
  datatype GaugeView = GaugeView(width: real, color: Option<string>, status: Status)

  /** The unclamped position of `value` within [limitMin, limitMax], in percent. */
  function Percentage(value: real, limitMin: real, limitMax: real): real
    requires limitMin != limitMax
  {
    (value - limitMin) / (limitMax - limitMin) * 100.0
  }

  /** The bar width: the percentage clamped to [0, 100]. */
  function ClampedPercentage(value: real, limitMin: real, limitMax: real): (p: real)
    requires limitMin != limitMax
    ensures 0.0 <= p <= 100.0
    ensures 0.0 <= Percentage(value, limitMin, limitMax) <= 100.0 ==> p == Percentage(value, limitMin, limitMax)
    ensures Percentage(value, limitMin, limitMax) < 0.0 ==> p == 0.0
    ensures Percentage(value, limitMin, limitMax) > 100.0 ==> p == 100.0
  {
    Max(0.0, Min(100.0, Percentage(value, limitMin, limitMax)))
  }

  /** The status chain: Low is tested first, so it wins when min > max. */
  function GaugeStatus(value: real, min: real, max: real): (s: Status)
    ensures s == Low <==> value < min
    ensures s == High <==> !(value < min) && value > max
    ensures s == Optimal <==> min <= value <= max
  {
    if value < min then Low
    else if value > max then High
    else Optimal
  }

  /** The colour chain, written separately from the status chain as in the component. */
  function GaugeColor(value: real, min: real, max: real, colors: Colors): Option<string>
  {
    if value < min then Some(OrIfFalsy(colors.low, FallbackAlert))
    else if value > max then Some(OrIfFalsy(colors.high, FallbackAlert))
    else colors.optimal
  }

  /** The colour slot that belongs to a status. */
  function ColorFor(s: Status, colors: Colors): Option<string>
  {
    match s
    case Low => Some(OrIfFalsy(colors.low, FallbackAlert))
    case Optimal => colors.optimal
    case High => Some(OrIfFalsy(colors.high, FallbackAlert))
  }

  /** The whole gauge. */
  function Gauge(value: real, min: real, max: real, limitMin: real, limitMax: real,
                 colors: Colors := DefaultColors): (g: GaugeView)
    requires limitMin != limitMax
    ensures g.width == ClampedPercentage(value, limitMin, limitMax)
    ensures 0.0 <= g.width <= 100.0
    ensures g.status == GaugeStatus(value, min, max)
    ensures g.color == ColorFor(g.status, colors)
  {
    GaugeView(ClampedPercentage(value, limitMin, limitMax),
              GaugeColor(value, min, max, colors),
              GaugeStatus(value, min, max))
  }

  /** The value colour and the status always agree: the two chains pick the same slot. */
  lemma ColorAgreesWithStatus(value: real, min: real, max: real, colors: Colors)
    ensures GaugeColor(value, min, max, colors) == ColorFor(GaugeStatus(value, min, max), colors)
  {
  }

  /** A missing (or empty) low or high colour falls back to the alert red. */
  lemma MissingColorFallsBack(value: real, min: real, max: real, colors: Colors)
    ensures value < min && !Truthy(colors.low) ==> GaugeColor(value, min, max, colors) == Some(FallbackAlert)
    ensures !(value < min) && value > max && !Truthy(colors.high) ==>
              GaugeColor(value, min, max, colors) == Some(FallbackAlert)
  {
  }

  /** Inside the absolute range the bar is not clamped. */
  lemma InRangeIsUnclamped(value: real, limitMin: real, limitMax: real)
    requires limitMin < limitMax
    requires limitMin <= value <= limitMax
    ensures 0.0 <= Percentage(value, limitMin, limitMax) <= 100.0
    ensures ClampedPercentage(value, limitMin, limitMax) == Percentage(value, limitMin, limitMax)
  {
    var d := limitMax - limitMin;
    var q := (value - limitMin) / d;
    assert q * d == value - limitMin;
  }

  /** The bar width is nondecreasing in the value when the range is ordered. */
  lemma WidthMonotone(v1: real, v2: real, limitMin: real, limitMax: real)
    requires limitMin < limitMax
    requires v1 <= v2
    ensures Percentage(v1, limitMin, limitMax) <= Percentage(v2, limitMin, limitMax)
    ensures ClampedPercentage(v1, limitMin, limitMax) <= ClampedPercentage(v2, limitMin, limitMax)
  {
    var d := limitMax - limitMin;
    var q1, q2 := (v1 - limitMin) / d, (v2 - limitMin) / d;
    assert q1 * d == v1 - limitMin && q2 * d == v2 - limitMin;
  }

  /** The order Low < Optimal < High of the statuses. */
  function Rank(s: Status): nat
  {
    match s
    case Low => 0
    case Optimal => 1
    case High => 2
  }

  /** The status never falls as the value rises, whatever the thresholds. */
  lemma StatusMonotone(v1: real, v2: real, min: real, max: real)
    requires v1 <= v2
    ensures Rank(GaugeStatus(v1, min, max)) <= Rank(GaugeStatus(v2, min, max))
  {
  }

  /** The worked example: 25 within [20, 30] on a 0..50 scale. */
  lemma OptimalExample()
    ensures Gauge(25.0, 20.0, 30.0, 0.0, 50.0).width == 50.0
    ensures Gauge(25.0, 20.0, 30.0, 0.0, 50.0).status == Optimal
    ensures Gauge(25.0, 20.0, 30.0, 0.0, 50.0).status.Label() == "Óptimo"
  {
  }
}
