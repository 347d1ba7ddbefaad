/** The simulated device card: pump button, mode switch, battery warning, header label. */
module DeviceCard {
  import opened Types
  import StatusBadge

  /** The pump button is disabled in automatic mode and while the device is offline. */
  predicate PumpButtonDisabled(d: DeviceStatus)
  {
    d.mode == Auto || !d.isOnline
  }

  /** A toggle request reported to the page: device id and requested pump state. */
  datatype PumpRequest = PumpRequest(id: string, active: bool)

  /** Clicking the pump button asks for the opposite of the current pump state. */
  function PumpClick(d: DeviceStatus): (r: PumpRequest)
    ensures r.id == d.id
    ensures r.active != d.pumpActive
  {
    PumpRequest(d.id, !d.pumpActive)
  }

  /** The pump button's caption. */
  function PumpLabel(d: DeviceStatus): (caption: string)
    ensures caption == "Activa" <==> d.pumpActive
    ensures caption == "Inactiva" <==> !d.pumpActive
  {
    if d.pumpActive then "Activa" else "Inactiva"
  }

  /** The automatic-mode switch shows checked exactly in automatic mode. */
  predicate ModeSwitchChecked(d: DeviceStatus)
  {
    d.mode == Auto
  }

  /** A change of the switch reports "auto" when checked, "manual" otherwise. */
  function ModeFromSwitch(checked: bool): (m: Mode)
    ensures m == Auto <==> checked
    ensures m == Manual <==> !checked
  {
    if checked then Auto else Manual
  }

  /** The switch and the mode it reports are inverse to each other. */
  lemma ModeSwitchRoundTrip(d: DeviceStatus, checked: bool)
    ensures ModeSwitchChecked(d.(mode := ModeFromSwitch(checked))) == checked
    ensures ModeFromSwitch(ModeSwitchChecked(d)) == d.mode
  {
  }

  /** The battery reading is shown as a warning below 20 percent. */
  predicate BatteryWarning(d: DeviceStatus)
  {
    d.battery < 20.0
  }

  /** Every reading below 20 percent is a warning; 20 percent itself and above is not. */
  lemma BatteryBoundary(d: DeviceStatus)
    ensures d.battery < 20.0 ==> BatteryWarning(d)
    ensures d.battery >= 20.0 ==> !BatteryWarning(d)
  {
  }

  /** The header line: "En línea" online; otherwise the time since last seen (formatted elsewhere). */
  datatype HeaderLabel = OnlineLabel | SeenAgo(lastSeen: string)

  function Header(d: DeviceStatus): (h: HeaderLabel)
    ensures h == OnlineLabel <==> d.isOnline
    ensures h.SeenAgo? ==> h.lastSeen == d.lastSeen
  {
    if d.isOnline then OnlineLabel else SeenAgo(d.lastSeen)
  }

  /** The card's humidity badge. */
  function HumidityBadge(d: DeviceStatus): (level: StatusBadge.HumidityLevel)
    ensures level == StatusBadge.Critical <==> d.humidity <= 30.0
    ensures level == StatusBadge.Normal <==> 30.0 < d.humidity < 80.0
    ensures level == StatusBadge.High <==> d.humidity >= 80.0
  {
    StatusBadge.HumidityBadge(d.humidity)
  }

  /** A pump click can only come from an enabled button: a manual-mode, online device. */
  lemma ClickableOnlyManualOnline(d: DeviceStatus)
    ensures !PumpButtonDisabled(d) <==> d.mode == Manual && d.isOnline
  {
  }
}
