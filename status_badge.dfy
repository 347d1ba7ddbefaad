/** The humidity badge of a device card: three bands with a label and a colour. */
module StatusBadge {

  datatype HumidityLevel = Critical | Normal | High {
    function Label(): string
    {
      match this
      case Critical => "Crítico"
      case Normal => "Normal"
      case High => "Alto"
    }

    function ColorClass(): string
    {
      match this
      case Critical => "bg-red-500 hover:bg-red-600 text-white"
      case Normal => "bg-green-500 hover:bg-green-600 text-white"
      case High => "bg-blue-500 hover:bg-blue-600 text-white"
    }

    /** Order of the bands from dry to wet. */
    function Rank(): nat
    {
      match this
      case Critical => 0
      case Normal => 1
      case High => 2
    }
  }

  /** The band of a humidity reading; 30 is still critical, 80 is already high. */
  function HumidityBadge(humidity: real): (level: HumidityLevel)
    ensures level == Critical <==> humidity <= 30.0
    ensures level == Normal <==> 30.0 < humidity < 80.0
    ensures level == High <==> humidity >= 80.0
  {
    if humidity <= 30.0 then Critical
    else if humidity < 80.0 then Normal
    else High
  }

  /** The band never falls as humidity rises. */
  lemma BadgeMonotone(h1: real, h2: real)
    requires h1 <= h2
    ensures HumidityBadge(h1).Rank() <= HumidityBadge(h2).Rank()
  {
  }

  /** Distinct bands have distinct labels, so the label identifies the band. */
  lemma LabelsDistinct(a: HumidityLevel, b: HumidityLevel)
    ensures a.Label() == b.Label() <==> a == b
  {
  }
}
