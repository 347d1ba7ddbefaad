/**
 * The demo dashboard page: simulated devices whose humidity drifts every
 * tick, a chart buffer of the selected device's last 20 readings, manual
 * pump and mode toggles, and a newest-first notification list.
 */
module Dashboard {
  import opened Wrappers
  import opened Types
  import DeviceCard

  /** The chart keeps at most this many points. */
  const ChartCapacity: nat := 20

  datatype ChartPoint = ChartPoint(time: string, humidity: real)

  /** Math.max(0, Math.min(100, x)). */
  function ClampHumidity(x: real): (r: real)
    ensures 0.0 <= r <= 100.0
    ensures 0.0 <= x <= 100.0 ==> r == x
    ensures x < 0.0 ==> r == 0.0
    ensures x > 100.0 ==> r == 100.0
  {
    Max(0.0, Min(100.0, x))
  }

  /** Number(x.toFixed(1)): the nearest tenth, halves rounded away from zero. */
  function ToFixed1(x: real): (r: real)
    ensures -0.05 <= r - x <= 0.05
  {
    if x >= 0.0 then ((x * 10.0 + 0.5).Floor as real) / 10.0
    else -(((-x * 10.0 + 0.5).Floor as real) / 10.0)
  }

  lemma ToFixed1Bounds(x: real)
    requires 0.0 <= x <= 100.0
    ensures 0.0 <= ToFixed1(x) <= 100.0
  {
    var n := (x * 10.0 + 0.5).Floor;
    assert 0 <= n <= 1000;
  }

  /** One simulated reading: humidity drifts by `change`, is clamped and rounded; the device is seen now. */
  function TickDevice(d: DeviceStatus, change: real, now: string): (r: DeviceStatus)
    ensures 0.0 <= r.humidity <= 100.0
    ensures -0.05 <= r.humidity - ClampHumidity(d.humidity + change) <= 0.05
    ensures r == d.(humidity := r.humidity, lastSeen := now)
  {
    var h := ClampHumidity(d.humidity + change);
    ToFixed1Bounds(h);
    d.(humidity := ToFixed1(h), lastSeen := now)
  }

  /** The tick over all devices; `change(i)` is the random drift drawn for the i-th device. */
  function TickDevices(ds: seq<DeviceStatus>, change: nat -> real, now: string): (r: seq<DeviceStatus>)
    ensures |r| == |ds|
    ensures forall i :: 0 <= i < |ds| ==> r[i] == TickDevice(ds[i], change(i), now)
  {
    seq(|ds|, i requires 0 <= i < |ds| => TickDevice(ds[i], change(i), now))
  }

  /** A tick keeps every humidity in [0, 100], and the count, order, ids and all other fields. */
  lemma TickPreserves(ds: seq<DeviceStatus>, change: nat -> real, now: string)
    ensures |TickDevices(ds, change, now)| == |ds|
    ensures forall i :: 0 <= i < |ds| ==>
              && 0.0 <= TickDevices(ds, change, now)[i].humidity <= 100.0
              && TickDevices(ds, change, now)[i].id == ds[i].id
              && TickDevices(ds, change, now)[i] ==
                   ds[i].(humidity := TickDevices(ds, change, now)[i].humidity, lastSeen := now)
  {
  }

  /** `[...prev, point].slice(-20)`. */
  function ChartPush(prev: seq<ChartPoint>, p: ChartPoint): (r: seq<ChartPoint>)
    ensures |r| == if |prev| + 1 < ChartCapacity then |prev| + 1 else ChartCapacity
    ensures r[|r| - 1] == p
    ensures r == (prev + [p])[|prev| + 1 - |r|..]
  {
    var s := prev + [p];
    if |s| > ChartCapacity then s[|s| - ChartCapacity..] else s
  }

  /** The buffer never grows beyond its capacity, and below it nothing is dropped. */
  lemma ChartPushKeepsRecent(prev: seq<ChartPoint>, p: ChartPoint)
    ensures |ChartPush(prev, p)| <= ChartCapacity
    ensures |prev| < ChartCapacity ==> ChartPush(prev, p) == prev + [p]
    ensures |prev| >= ChartCapacity ==> ChartPush(prev, p) == prev[|prev| - ChartCapacity + 1..] + [p]
  {
    var r := ChartPush(prev, p);
    if |prev| >= ChartCapacity {
      assert (prev + [p])[|prev| + 1 - ChartCapacity..] == prev[|prev| - ChartCapacity + 1..] + [p];
    }
  }

  /** Array.prototype.find on the id: the first device with that id, if any. */
  function FindDevice(ds: seq<DeviceStatus>, id: string): (r: Option<DeviceStatus>)
    ensures r.None? <==> forall i :: 0 <= i < |ds| ==> ds[i].id != id
    ensures r.Some? ==> exists i :: 0 <= i < |ds| && ds[i] == r.value && r.value.id == id &&
                                    forall j :: 0 <= j < i ==> ds[j].id != id
  {
    if ds == [] then None
    else if ds[0].id == id then Some(ds[0])
    else
      var r := FindDevice(ds[1..], id);
      if r.Some? then
        var i :| 0 <= i < |ds[1..]| && ds[1..][i] == r.value && r.value.id == id &&
                 forall j :: 0 <= j < i ==> ds[1..][j].id != id;
        assert ds[i + 1] == r.value;
        assert forall j :: 0 <= j < i + 1 ==> ds[j].id != id by {
          forall j | 0 <= j < i + 1 ensures ds[j].id != id {
            if j > 0 { assert ds[j] == ds[1..][j - 1]; }
          }
        }
        r
      else
        assert forall i :: 0 <= i < |ds| ==> ds[i].id != id by {
          forall i | 0 <= i < |ds| ensures ds[i].id != id {
            if i > 0 { assert ds[i] == ds[1..][i - 1]; }
          }
        }
        r
  }

  /** Set the pump of the device(s) with the given id; every other device is left as it was. */
  function SetPump(ds: seq<DeviceStatus>, id: string, active: bool): (r: seq<DeviceStatus>)
    ensures |r| == |ds|
    ensures forall i :: 0 <= i < |ds| && ds[i].id != id ==> r[i] == ds[i]
    ensures forall i :: 0 <= i < |ds| && ds[i].id == id ==> r[i] == ds[i].(pumpActive := active)
  {
    seq(|ds|, i requires 0 <= i < |ds| => if ds[i].id == id then ds[i].(pumpActive := active) else ds[i])
  }

  /** Set the mode of the device(s) with the given id; every other device is left as it was. */
  function SetMode(ds: seq<DeviceStatus>, id: string, mode: Mode): (r: seq<DeviceStatus>)
    ensures |r| == |ds|
    ensures forall i :: 0 <= i < |ds| && ds[i].id != id ==> r[i] == ds[i]
    ensures forall i :: 0 <= i < |ds| && ds[i].id == id ==> r[i] == ds[i].(mode := mode)
  {
    seq(|ds|, i requires 0 <= i < |ds| => if ds[i].id == id then ds[i].(mode := mode) else ds[i])
  }

  /** Setting the same pump state twice is setting it once. */
  lemma SetPumpIdempotent(ds: seq<DeviceStatus>, id: string, active: bool)
    ensures SetPump(SetPump(ds, id, active), id, active) == SetPump(ds, id, active)
  {
  }

  /** The notification added when a pump is switched on by hand. */
  function PumpNotification(id: string, notificationId: string, now: string): (n: Notification)
    ensures n.kind == InfoKind && !n.read
    ensures n.id == notificationId && n.timestamp == now
    ensures n.title == "Riego Manual Activado"
    ensures n.message == "Se ha activado el riego manual para el dispositivo " + id
  {
    Notification(notificationId, "Riego Manual Activado",
                 "Se ha activado el riego manual para el dispositivo " + id, InfoKind, now, false)
  }

  /** A click on a card's pump button, handled by the page, flips that device's pump. */
  lemma PumpClickFlips(ds: seq<DeviceStatus>, i: nat)
    requires i < |ds|
    ensures SetPump(ds, DeviceCard.PumpClick(ds[i]).id, DeviceCard.PumpClick(ds[i]).active)[i].pumpActive
            == !ds[i].pumpActive
  {
  }

  /** A change of a card's mode switch, handled by the page, leaves the switch showing the new position. */
  lemma ModeSwitchApplies(ds: seq<DeviceStatus>, i: nat, checked: bool)
    requires i < |ds|
    ensures DeviceCard.ModeSwitchChecked(SetMode(ds, ds[i].id, DeviceCard.ModeFromSwitch(checked))[i]) == checked
  {
  }

  class Page {
    var devices: seq<DeviceStatus>
    var notifications: seq<Notification>
    var selectedDeviceId: string
    var chartData: seq<ChartPoint>

    ghost predicate Valid()
      reads this
    {
      |chartData| <= ChartCapacity
    }

    /** The page starts on the first device with an empty chart. */
    constructor(initialDevices: seq<DeviceStatus>, initialNotifications: seq<Notification>)
      requires |initialDevices| > 0
      ensures Valid()
      ensures devices == initialDevices && notifications == initialNotifications
      ensures selectedDeviceId == initialDevices[0].id && chartData == []
    {
      devices := initialDevices;
      notifications := initialNotifications;
      selectedDeviceId := initialDevices[0].id;
      chartData := [];
    }

    /**
     * One interval tick. The chart point reads the selected device from the
     * devices as they were BEFORE this tick's update, as the handler does.
     */
    method Tick(change: nat -> real, now: string, clock: string)
      requires Valid()
      modifies this
      ensures Valid()
      ensures devices == TickDevices(old(devices), change, now)
      ensures chartData == match FindDevice(old(devices), old(selectedDeviceId))
                           case None => old(chartData)
                           case Some(d) => ChartPush(old(chartData), ChartPoint(clock, d.humidity))
      ensures notifications == old(notifications) && selectedDeviceId == old(selectedDeviceId)
    {
      var current := FindDevice(devices, selectedDeviceId);
      devices := TickDevices(devices, change, now);
      if current.Some? {
        chartData := ChartPush(chartData, ChartPoint(clock, current.value.humidity));
        ChartPushKeepsRecent(old(chartData), ChartPoint(clock, current.value.humidity));
      }
    }

    /** handleTogglePump: set the pump; switching on also prepends one unread "info" notification. */
    method TogglePump(id: string, active: bool, notificationId: string, now: string)
      requires Valid()
      modifies this
      ensures Valid()
      ensures devices == SetPump(old(devices), id, active)
      ensures notifications == if active then [PumpNotification(id, notificationId, now)] + old(notifications)
                               else old(notifications)
      ensures selectedDeviceId == old(selectedDeviceId) && chartData == old(chartData)
    {
      devices := SetPump(devices, id, active);
      if active {
        notifications := [PumpNotification(id, notificationId, now)] + notifications;
      }
    }

    /** handleToggleMode: only the mode of the matching device changes. */
    method ToggleMode(id: string, mode: Mode)
      requires Valid()
      modifies this
      ensures Valid()
      ensures devices == SetMode(old(devices), id, mode)
      ensures notifications == old(notifications)
      ensures selectedDeviceId == old(selectedDeviceId) && chartData == old(chartData)
    {
      devices := SetMode(devices, id, mode);
    }

    /** Selecting a device in the chart selector resets the chart. */
    method SelectDevice(id: string)
      requires Valid()
      modifies this
      ensures Valid()
      ensures selectedDeviceId == id && chartData == []
      ensures devices == old(devices) && notifications == old(notifications)
    {
      selectedDeviceId := id;
      chartData := [];
    }
  }
}
