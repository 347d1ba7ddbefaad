/**
 * The KPI grid of the details view: four threshold gauges whose acceptable
 * ranges come from the device with fixed defaults, the soil-card highlight,
 * and the two rings (plant health, data quality) banded on a rounded score.
 */
module KpiGrid {
  import opened Wrappers
  import opened Types
  import SmartGauge

  /** JavaScript's Math.round: the nearest integer, halves rounded up. */
  function JsRound(x: real): (n: int)
    ensures n as real - 0.5 <= x < n as real + 0.5
  {
    (x + 0.5).Floor
  }

  lemma JsRoundMonotone(x: real, y: real)
    requires x <= y
    ensures JsRound(x) <= JsRound(y)
  {
  }

  // ---------------------------------------------------------------- rings

  datatype QualityStatus = Excellent | Good | Unstable | QualityCritical {
    function Label(): string
    {
      match this
      case Excellent => "Excelente"
      case Good => "Buena"
      case Unstable => "Inestable"
      case QualityCritical => "Crítica"
    }

    function Color(): string
    {
      match this
      case Excellent => "text-emerald-600"
      case Good => "text-blue-600"
      case Unstable => "text-amber-600"
      case QualityCritical => "text-red-500"
    }

    function Rank(): nat
    {
      match this
      case QualityCritical => 0
      case Unstable => 1
      case Good => 2
      case Excellent => 3
    }
  }

  datatype HealthStatus = Healthy | Fair | Regular | Weak | HealthCritical {
    function Label(): string
    {
      match this
      case Healthy => "Saludable"
      case Fair => "Buena"
      case Regular => "Regular"
      case Weak => "Débil"
      case HealthCritical => "Crítica"
    }

    function Color(): string
    {
      match this
      case Healthy => "text-emerald-600"
      case Fair => "text-blue-600"
      case Regular => "text-amber-600"
      case Weak => "text-orange-600"
      case HealthCritical => "text-red-500"
    }

    function Rank(): nat
    {
      match this
      case HealthCritical => 0
      case Weak => 1
      case Regular => 2
      case Fair => 3
      case Healthy => 4
    }
  }

  /** The data-quality band of a rounded score. */
  function QualityBand(r: int): (s: QualityStatus)
    ensures s == Excellent <==> r >= 95
    ensures s == Good <==> 80 <= r < 95
    ensures s == Unstable <==> 50 <= r < 80
    ensures s == QualityCritical <==> r < 50
  {
    if r >= 95 then Excellent
    else if r >= 80 then Good
    else if r >= 50 then Unstable
    else QualityCritical
  }

  /** The plant-health band of a rounded score. */
  function HealthBand(r: int): (s: HealthStatus)
    ensures s == Healthy <==> r >= 80
    ensures s == Fair <==> 60 <= r < 80
    ensures s == Regular <==> 40 <= r < 60
    ensures s == Weak <==> 20 <= r < 40
    ensures s == HealthCritical <==> r < 20
  {
    if r >= 80 then Healthy
    else if r >= 60 then Fair
    else if r >= 40 then Regular
    else if r >= 20 then Weak
    else HealthCritical
  }

  /** What a ring shows: the rounded score, its band and the stroke offset. */
  datatype RingView<S> = RingView(rounded: int, status: S, offset: real)

  /** The dash offset: the part of the circumference NOT covered by the score. */
  function RingOffset(circumference: real, r: int): real
  {
    circumference - (r as real / 100.0) * circumference
  }

  function QualityRing(value: real, circumference: real): (v: RingView<QualityStatus>)
    ensures v.rounded == JsRound(value)
    ensures v.status == QualityBand(v.rounded)
    ensures v.offset == circumference * (1.0 - v.rounded as real / 100.0)
  {
    var r := JsRound(value);
    RingView(r, QualityBand(r), RingOffset(circumference, r))
  }

  function HealthRing(value: real, circumference: real): (v: RingView<HealthStatus>)
    ensures v.rounded == JsRound(value)
    ensures v.status == HealthBand(v.rounded)
    ensures v.offset == circumference * (1.0 - v.rounded as real / 100.0)
  {
    var r := JsRound(value);
    RingView(r, HealthBand(r), RingOffset(circumference, r))
  }

  /** Both band functions never fall as the score rises. */
  lemma BandsMonotone(v1: real, v2: real, c: real)
    requires v1 <= v2
    ensures QualityRing(v1, c).status.Rank() <= QualityRing(v2, c).status.Rank()
    ensures HealthRing(v1, c).status.Rank() <= HealthRing(v2, c).status.Rank()
  {
    JsRoundMonotone(v1, v2);
  }

  /** A full score leaves no gap, a zero score leaves the whole ring, and in between the gap shrinks. */
  lemma RingOffsetBounds(circumference: real, r1: int, r2: int)
    requires circumference > 0.0
    ensures RingOffset(circumference, 100) == 0.0
    ensures RingOffset(circumference, 0) == circumference
    ensures 0 <= r1 <= 100 ==> 0.0 <= RingOffset(circumference, r1) <= circumference
    ensures r1 <= r2 ==> RingOffset(circumference, r2) <= RingOffset(circumference, r1)
  {
    if 0 <= r1 <= 100 {
      assert 0.0 <= (r1 as real / 100.0) * circumference <= circumference;
    }
    if r1 <= r2 {
      assert (r1 as real / 100.0) * circumference <= (r2 as real / 100.0) * circumference;
    }
  }

  /** A score of 94.5 already rounds into the top quality band; 94.4 does not. */
  lemma QualityRoundingBoundary(c: real)
    ensures QualityRing(94.5, c).status == Excellent
    ensures QualityRing(94.4, c).status == Good
  {
  }

  // ---------------------------------------------------------------- gauges

  /** The acceptable range of each gauge: the device's threshold, else the fixed default. */
  function TempRange(d: PlantDevice): (real, real)
  {
    (OrElse(d.minTempC, 15.0), OrElse(d.maxTempC, 30.0))
  }

  function SoilRange(d: PlantDevice): (real, real)
  {
    (OrElse(d.minSoilHumidity, 30.0), OrElse(d.maxSoilHumidity, 70.0))
  }

  function AirRange(d: PlantDevice): (real, real)
  {
    (OrElse(d.minHumidity, 40.0), OrElse(d.maxHumidity, 80.0))
  }

  function LightRange(d: PlantDevice): (real, real)
  {
    (OrElse(d.minLightLux, 500.0), OrElse(d.maxLightLux, 2000.0))
  }

  const TempColors: SmartGauge.Colors := SmartGauge.Colors(Some("#3B82F6"), Some("#10B981"), Some("#EF4444"))
  const SoilColors: SmartGauge.Colors := SmartGauge.Colors(Some("#EF4444"), Some("#10B981"), Some("#3B82F6"))
  const LightColors: SmartGauge.Colors := SmartGauge.Colors(Some("#94A3B8"), Some("#FBBF24"), Some("#F97316"))

  /** The soil card is outlined red when soil humidity is below the device's minimum, 0 when it has none. */
  predicate SoilHighlighted(kpi: Kpi, d: PlantDevice)
  {
    kpi.soilHum < OrElse(d.minSoilHumidity, 0.0)
  }

  /** Everything the grid decides; the health and quality cards exist only when their score does. */
  datatype GridView = GridView(
    temp: SmartGauge.GaugeView,
    soil: SmartGauge.GaugeView,
    air: SmartGauge.GaugeView,
    light: SmartGauge.GaugeView,
    soilHighlighted: bool,
    health: Option<RingView<HealthStatus>>,
    quality: Option<RingView<QualityStatus>>)

  function Grid(kpi: Kpi, d: PlantDevice, circumference: real): (g: GridView)
    ensures g.temp.status == SmartGauge.GaugeStatus(kpi.temp, TempRange(d).0, TempRange(d).1)
    ensures g.soil.status == SmartGauge.GaugeStatus(kpi.soilHum, SoilRange(d).0, SoilRange(d).1)
    ensures g.air.status == SmartGauge.GaugeStatus(kpi.ambientHum, AirRange(d).0, AirRange(d).1)
    ensures g.light.status == SmartGauge.GaugeStatus(kpi.light, LightRange(d).0, LightRange(d).1)
    ensures g.temp.width == SmartGauge.ClampedPercentage(kpi.temp, 0.0, 50.0)
    ensures g.soil.width == SmartGauge.ClampedPercentage(kpi.soilHum, 0.0, 100.0)
    ensures g.air.width == SmartGauge.ClampedPercentage(kpi.ambientHum, 0.0, 100.0)
    ensures g.light.width == SmartGauge.ClampedPercentage(kpi.light, 0.0, 5000.0)
    ensures g.temp.color == SmartGauge.ColorFor(g.temp.status, TempColors)
    ensures g.soil.color == SmartGauge.ColorFor(g.soil.status, SoilColors)
    ensures g.air.color == SmartGauge.ColorFor(g.air.status, SmartGauge.DefaultColors)
    ensures g.light.color == SmartGauge.ColorFor(g.light.status, LightColors)
    ensures g.soilHighlighted <==> kpi.soilHum < OrElse(d.minSoilHumidity, 0.0)
    ensures g.health.Some? <==> kpi.healthIndex.Some?
    ensures g.health.Some? ==> g.health.value.rounded == JsRound(kpi.healthIndex.value)
    ensures g.health.Some? ==> g.health.value.status == HealthBand(g.health.value.rounded)
    ensures g.health.Some? ==> g.health.value.offset == RingOffset(circumference, g.health.value.rounded)
    ensures g.quality.Some? <==> kpi.dataQuality.Some?
    ensures g.quality.Some? ==> g.quality.value.rounded == JsRound(kpi.dataQuality.value)
    ensures g.quality.Some? ==> g.quality.value.status == QualityBand(g.quality.value.rounded)
    ensures g.quality.Some? ==> g.quality.value.offset == RingOffset(circumference, g.quality.value.rounded)
  {
    GridView(
      SmartGauge.Gauge(kpi.temp, TempRange(d).0, TempRange(d).1, 0.0, 50.0, TempColors),
      SmartGauge.Gauge(kpi.soilHum, SoilRange(d).0, SoilRange(d).1, 0.0, 100.0, SoilColors),
      SmartGauge.Gauge(kpi.ambientHum, AirRange(d).0, AirRange(d).1, 0.0, 100.0),
      SmartGauge.Gauge(kpi.light, LightRange(d).0, LightRange(d).1, 0.0, 5000.0, LightColors),
      SoilHighlighted(kpi, d),
      if kpi.healthIndex.Some? then Some(HealthRing(kpi.healthIndex.value, circumference)) else None,
      if kpi.dataQuality.Some? then Some(QualityRing(kpi.dataQuality.value, circumference)) else None)
  }

  /** A device with no thresholds gets the fixed defaults and never highlights a non-negative soil reading. */
  lemma DefaultsWithoutThresholds(kpi: Kpi, d: PlantDevice)
    requires d.minTempC.None? && d.maxTempC.None? && d.minSoilHumidity.None? && d.maxSoilHumidity.None?
    requires d.minHumidity.None? && d.maxHumidity.None? && d.minLightLux.None? && d.maxLightLux.None?
    ensures TempRange(d) == (15.0, 30.0) && SoilRange(d) == (30.0, 70.0)
    ensures AirRange(d) == (40.0, 80.0) && LightRange(d) == (500.0, 2000.0)
    ensures kpi.soilHum >= 0.0 ==> !SoilHighlighted(kpi, d)
  {
  }

  /** A present threshold is used as given, even when it is 0. */
  lemma ThresholdsOverrideDefaults(d: PlantDevice)
    ensures d.minTempC.Some? ==> TempRange(d).0 == d.minTempC.value
    ensures d.maxTempC.Some? ==> TempRange(d).1 == d.maxTempC.value
    ensures d.minSoilHumidity.Some? ==> SoilRange(d).0 == d.minSoilHumidity.value
    ensures d.maxSoilHumidity.Some? ==> SoilRange(d).1 == d.maxSoilHumidity.value
    ensures d.minHumidity.Some? ==> AirRange(d).0 == d.minHumidity.value
    ensures d.maxHumidity.Some? ==> AirRange(d).1 == d.maxHumidity.value
    ensures d.minLightLux.Some? ==> LightRange(d).0 == d.minLightLux.value
    ensures d.maxLightLux.Some? ==> LightRange(d).1 == d.maxLightLux.value
  {
  }

  /** Soil 20 against a minimum of 35: the soil gauge reads Low and the card is highlighted. */
  lemma LowSoilExample(kpi: Kpi, d: PlantDevice, c: real)
    requires kpi.soilHum == 20.0 && d.minSoilHumidity == Some(35.0)
    ensures Grid(kpi, d, c).soil.status == SmartGauge.Low
    ensures Grid(kpi, d, c).soilHighlighted
  {
  }
}
