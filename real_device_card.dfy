/** The card of a registered device: the online predicate and its labels. */
module RealDeviceCard {
  import opened Wrappers
  import opened Types

  /** A device counts as online while its last reading is less than five minutes old. */
  const OnlineWindowMs: int := 5 * 60 * 1000

  /** `now` is the current time and `last` the last reading's time, both in milliseconds. */
  function IsOnline(last: Option<int>, now: int): (online: bool)
    ensures last.None? ==> !online
    ensures last.Some? ==> (online <==> now - last.value < 300000)
  {
    match last
    case None => false
    case Some(t) => now - t < OnlineWindowMs
  }

  /** Online at some time means online at every earlier time, for the same last reading. */
  lemma OnlineEarlier(last: Option<int>, now: int, earlier: int)
    requires earlier <= now
    ensures IsOnline(last, now) ==> IsOnline(last, earlier)
  {
  }

  /** The five-minute bound is strict: exactly five minutes after the last reading is offline. */
  lemma OnlineBoundary(t: int)
    ensures IsOnline(Some(t), t + 299999)
    ensures !IsOnline(Some(t), t + 300000)
  {
  }

  function BadgeLabel(d: PlantDevice, now: int): (s: string)
    ensures s == "En línea" <==> IsOnline(d.lastDataReceived, now)
    ensures s == "Inactivo" <==> !IsOnline(d.lastDataReceived, now)
  {
    if IsOnline(d.lastDataReceived, now) then "En línea" else "Inactivo"
  }

  /** The activity label depends on the backend's `isActive` flag alone, not on being online. */
  function ActiveLabel(d: PlantDevice): (s: string)
    ensures s == "Activo" <==> d.isActive
    ensures s == "Inactivo" <==> !d.isActive
  {
    if d.isActive then "Activo" else "Inactivo"
  }

  lemma ActiveIndependentOfOnline(d: PlantDevice, l1: Option<int>, l2: Option<int>)
    ensures ActiveLabel(d.(lastDataReceived := l1)) == ActiveLabel(d.(lastDataReceived := l2))
  {
  }
}
