/**
 * The REST client. The network is outside the model: a call is described by
 * the request it issues, and its outcome is computed from a response value
 * supplied by the caller. A non-ok response always becomes a failure.
 */
module ApiService {
  import opened Wrappers
  import opened Types

  datatype HttpMethod = GET | POST | PUT | DELETE

  datatype Param = Param(key: string, value: string)

  /** A request relative to the configurable base URL. */
  datatype Request = Request(verb: HttpMethod, path: string, query: seq<Param>)

  /** A response as the client sees it: the ok flag, the body as text, the decoded body. */
  datatype Response<T> = Response(ok: bool, text: string, body: T)

  /** The client's operations, with the default arguments the client declares. */
  datatype Operation =
    | GetDevices
    | CreateDevice
    | DeleteDevice(plantId: string)
    | GetDeviceDetails(plantId: string)
    | UpdateDeviceThresholds(plantId: string)
    | SendCommand(plantId: string)
    | GetPlantKpis(plantId: string)
    | GetRealtimeData(plantId: string)
    | GetTemperatureHistory(plantId: string, range: string := "24h")
    | GetSoilHumidityHistory(plantId: string, range: string := "24h")
    | GetLightHistory(plantId: string, range: string := "24h")
    | GetHumidityHistory(plantId: string, range: string := "24h")
    | GetHistoryCombined(plantId: string, range: string := "72h", window: Option<string> := None)
    | GetClustering(plantId: string)
    | GetAlertsByPlant(plantId: string, limit: int := 50)
    | GetUnreadAlerts(plantId: string)
    | MarkAlertAsRead(alertId: string)
    | SendTestNotification(plantId: string)

  /** Decimal digits of a natural number, as template literals print it. */
  function NatToString(n: nat): (s: string)
    ensures |s| >= 1
    ensures forall i :: 0 <= i < |s| ==> '0' <= s[i] <= '9'
    ensures n == 0 ==> s == "0"
    ensures n > 0 ==> s[0] != '0'
    ensures |s| == 1 || s[0] != '0'
  {
    if n < 10 then ["0123456789"[n]] else NatToString(n / 10) + ["0123456789"[n % 10]]
  }

  /** The number a string of decimal digits denotes, most significant digit first. */
  function DigitsValue(s: string): int
  {
    if s == [] then 0 else 10 * DigitsValue(s[..|s| - 1]) + (s[|s| - 1] as int - '0' as int)
  }

  /** Printing a natural number and reading its digits back gives the number. */
  lemma {:induction false} NatToStringValue(n: nat)
    ensures DigitsValue(NatToString(n)) == n
  {
    var s := NatToString(n);
    if n < 10 {
      assert s[..|s| - 1] == [];
      assert "0123456789"[n] as int - '0' as int == n by {
        if n == 0 {} else if n == 1 {} else if n == 2 {} else if n == 3 {} else if n == 4 {}
        else if n == 5 {} else if n == 6 {} else if n == 7 {} else if n == 8 {} else {}
      }
    } else {
      var d := n % 10;
      assert s == NatToString(n / 10) + ["0123456789"[d]];
      assert s[..|s| - 1] == NatToString(n / 10);
      NatToStringValue(n / 10);
      assert "0123456789"[d] as int - '0' as int == d by {
        if d == 0 {} else if d == 1 {} else if d == 2 {} else if d == 3 {} else if d == 4 {}
        else if d == 5 {} else if d == 6 {} else if d == 7 {} else if d == 8 {} else {}
      }
    }
  }

  /** A minus sign in front of a digit string keeps the digits, their value and their first digit. */
  lemma MinusSign(digits: string)
    requires |digits| >= 1 && forall k :: 0 <= k < |digits| ==> '0' <= digits[k] <= '9'
    ensures var s := "-" + digits;
      |s| >= 2 && s[0] == '-' && s[1..] == digits && s[1] == digits[0] &&
      forall k :: 1 <= k < |s| ==> '0' <= s[k] <= '9'
  {
    var s := "-" + digits;
    assert s[1..] == digits;
    forall k | 1 <= k < |s| ensures '0' <= s[k] <= '9' {
      assert s[k] == digits[k - 1];
    }
  }

  /** A template literal's rendering of an integer: a minus sign before the digits of a negative. */
  function IntToString(i: int): (s: string)
    ensures i >= 0 ==> DigitsValue(s) == i
    ensures i >= 0 ==> |s| >= 1 && forall k :: 0 <= k < |s| ==> '0' <= s[k] <= '9'
    ensures i >= 0 ==> |s| == 1 || s[0] != '0'
    ensures i < 0 ==> |s| >= 2 && s[0] == '-' && DigitsValue(s[1..]) == -i
    ensures i < 0 ==> forall k :: 1 <= k < |s| ==> '0' <= s[k] <= '9'
    ensures i < 0 ==> s[1] != '0'
  {
    if i < 0 then
      NatToStringValue(-i);
      MinusSign(NatToString(-i));
      "-" + NatToString(-i)
    else
      NatToStringValue(i);
      NatToString(i)
  }

  /** The query of the combined history: `range` always, `window` only when it is a non-empty string. */
  function CombinedQuery(range: string, window: Option<string>): (q: seq<Param>)
    ensures |q| >= 1 && q[0] == Param("range", range)
    ensures |q| == 2 <==> Truthy(window)
    ensures |q| <= 2
    ensures |q| == 2 ==> q[1] == Param("window", window.value)
  {
    [Param("range", range)] + if Truthy(window) then [Param("window", window.value)] else []
  }

  /** `key=value` pairs joined by `&` (percent-encoding is not modelled). */
  function QueryString(q: seq<Param>): string
  {
    if q == [] then ""
    else if |q| == 1 then q[0].key + "=" + q[0].value
    else q[0].key + "=" + q[0].value + "&" + QueryString(q[1..])
  }

  function RequestOf(op: Operation): Request
  {
    match op
    case GetDevices => Request(GET, "/devices", [])
    case CreateDevice => Request(POST, "/devices", [])
    case DeleteDevice(p) => Request(DELETE, "/devices/" + p, [])
    case GetDeviceDetails(p) => Request(GET, "/devices/" + p, [])
    case UpdateDeviceThresholds(p) => Request(PUT, "/devices/" + p + "/thresholds", [])
    case SendCommand(p) => Request(POST, "/devices/" + p + "/command", [])
    case GetPlantKpis(p) => Request(GET, "/analytics/" + p + "/kpi", [])
    case GetRealtimeData(p) => Request(GET, "/analytics/" + p + "/realtime", [])
    case GetTemperatureHistory(p, r) => Request(GET, "/analytics/" + p + "/history/temperature", [Param("range", r)])
    case GetSoilHumidityHistory(p, r) => Request(GET, "/analytics/" + p + "/history/soil", [Param("range", r)])
    case GetLightHistory(p, r) => Request(GET, "/analytics/" + p + "/history/light", [Param("range", r)])
    case GetHumidityHistory(p, r) => Request(GET, "/analytics/" + p + "/history/humidity", [Param("range", r)])
    case GetHistoryCombined(p, r, w) => Request(GET, "/analytics/" + p + "/history/combined", CombinedQuery(r, w))
    case GetClustering(p) => Request(GET, "/analytics/" + p + "/clustering", [])
    case GetAlertsByPlant(p, l) => Request(GET, "/alerts/" + p, [Param("limit", IntToString(l))])
    case GetUnreadAlerts(p) => Request(GET, "/alerts/" + p + "/unread", [])
    case MarkAlertAsRead(a) => Request(PUT, "/alerts/" + a + "/read", [])
    case SendTestNotification(p) => Request(POST, "/devices/" + p + "/test-notification", [])
  }

  /** The operations that report the response text as the error when it is non-empty. */
  predicate ReportsResponseText(op: Operation)
  {
    op.CreateDevice? || op.DeleteDevice? || op.SendCommand?
  }

  /** The fixed error message of each operation. */
  function ErrorMessage(op: Operation): string
  {
    match op
    case GetDevices => "Error fetching devices"
    case CreateDevice => "Error creando dispositivo"
    case DeleteDevice(_) => "Error eliminando dispositivo"
    case GetDeviceDetails(_) => "Error fetching device details"
    case UpdateDeviceThresholds(_) => "Error updating thresholds"
    case SendCommand(_) => "Error sending command"
    case GetPlantKpis(_) => "Error fetching KPIs"
    case GetRealtimeData(_) => "Error fetching realtime data"
    case GetTemperatureHistory(_, _) => "Error fetching temperature history"
    case GetSoilHumidityHistory(_, _) => "Error fetching soil humidity history"
    case GetLightHistory(_, _) => "Error fetching light history"
    case GetHumidityHistory(_, _) => "Error fetching humidity history"
    case GetHistoryCombined(_, _, _) => "Error fetching combined history"
    case GetClustering(_) => "Error fetching clustering data"
    case GetAlertsByPlant(_, _) => "Error fetching alerts"
    case GetUnreadAlerts(_) => "Error fetching unread alerts"
    case MarkAlertAsRead(_) => "Error marking alert as read"
    case SendTestNotification(_) => "Error sending test notification"
  }

  /** The outcome of an operation given its response: a non-ok response throws, an ok one yields the body. */
  function Call<T>(op: Operation, res: Response<T>): (r: Result<T>)
    ensures r.Success? <==> res.ok
    ensures r.Success? ==> r.value == res.body
    ensures r.Failure? && ReportsResponseText(op) && res.text != "" ==> r.error == res.text
    ensures r.Failure? && !(ReportsResponseText(op) && res.text != "") ==> r.error == ErrorMessage(op)
  {
    if res.ok then Success(res.body)
    else if ReportsResponseText(op) && res.text != "" then Failure(res.text)
    else Failure(ErrorMessage(op))
  }

  /** Omitted ranges default to 72h for the combined history and 24h for the per-metric ones. */
  lemma DefaultRanges(p: string)
    ensures RequestOf(GetHistoryCombined(p)).query == [Param("range", "72h")]
    ensures RequestOf(GetTemperatureHistory(p)).query == [Param("range", "24h")]
    ensures RequestOf(GetSoilHumidityHistory(p)).query == [Param("range", "24h")]
    ensures RequestOf(GetLightHistory(p)).query == [Param("range", "24h")]
    ensures RequestOf(GetHumidityHistory(p)).query == [Param("range", "24h")]
    ensures RequestOf(GetAlertsByPlant(p)).query == [Param("limit", "50")]
  {
    assert NatToString(50) == "50" by {
      assert NatToString(5) == "5";
    }
  }

  /** The combined-history query string: `range=R`, then `&window=W` only for a non-empty window. */
  lemma CombinedQueryString(range: string, window: Option<string>)
    ensures QueryString(CombinedQuery(range, window)) ==
            "range=" + range + (if Truthy(window) then "&window=" + window.value else "")
  {
    if Truthy(window) {
      var q := CombinedQuery(range, window);
      assert q[1..] == [Param("window", window.value)];
    }
  }

  // ---------------------------------------------------------------- all alerts

  /** The per-device alert requests: one per device, in device order, each with limit 20. */
  function AlertOperations(devices: seq<PlantDevice>): (ops: seq<Operation>)
    ensures |ops| == |devices|
    ensures forall i :: 0 <= i < |devices| ==> ops[i] == GetAlertsByPlant(devices[i].plantId, 20)
  {
    if devices == [] then [] else [GetAlertsByPlant(devices[0].plantId, 20)] + AlertOperations(devices[1..])
  }

  /** Promise.all: every result, in order, or a failure when any call failed (the first in order). */
  function All<T>(results: seq<Result<T>>): (r: Result<seq<T>>)
    ensures r.Success? <==> forall i :: 0 <= i < |results| ==> results[i].Success?
    ensures r.Success? ==> (|r.value| == |results| &&
              forall i :: 0 <= i < |results| ==> r.value[i] == results[i].value)
    ensures r.Failure? ==> exists i :: 0 <= i < |results| && results[i] == Failure(r.error)
  {
    if results == [] then Success([])
    else if results[0].Failure? then Failure(results[0].error)
    else match All(results[1..])
      case Failure(e) => Failure(e)
      case Success(rest) => Success([results[0].value] + rest)
  }

  /** Array.prototype.flat on a list of lists. */
  function Flatten<T>(lists: seq<seq<T>>): seq<T>
  {
    if lists == [] then [] else lists[0] + Flatten(lists[1..])
  }

  function SumMultisets<T>(lists: seq<seq<T>>): multiset<T>
  {
    if lists == [] then multiset{} else multiset(lists[0]) + SumMultisets(lists[1..])
  }

  lemma {:induction false} FlattenMultiset<T>(lists: seq<seq<T>>)
    ensures multiset(Flatten(lists)) == SumMultisets(lists)
  {
    if lists != [] {
      FlattenMultiset(lists[1..]);
    }
  }

  /** Newest first: timestamps never increase along the list. */
  predicate NewestFirst(s: seq<PlantAlert>)
  {
    forall i, j :: 0 <= i < j < |s| ==> s[i].timestamp >= s[j].timestamp
  }

  /** Insert `x` ahead of the first alert that is not newer than it. */
  function Insert(x: PlantAlert, s: seq<PlantAlert>): seq<PlantAlert>
  {
    if s == [] || s[0].timestamp <= x.timestamp then [x] + s
    else [s[0]] + Insert(x, s[1..])
  }

  /** The comparator sort `(a, b) => b.timestamp - a.timestamp`, stable as the language requires. */
  function SortNewestFirst(s: seq<PlantAlert>): seq<PlantAlert>
  {
    if s == [] then [] else Insert(s[0], SortNewestFirst(s[1..]))
  }

  lemma {:induction false} InsertPermutes(x: PlantAlert, s: seq<PlantAlert>)
    ensures multiset(Insert(x, s)) == multiset(s) + multiset{x}
  {
    if s != [] && s[0].timestamp > x.timestamp {
      InsertPermutes(x, s[1..]);
      assert s == [s[0]] + s[1..];
    }
  }

  lemma {:induction false} InsertSorted(x: PlantAlert, s: seq<PlantAlert>)
    requires NewestFirst(s)
    ensures NewestFirst(Insert(x, s))
    ensures |Insert(x, s)| == |s| + 1
  {
    if s != [] && s[0].timestamp > x.timestamp {
      InsertSorted(x, s[1..]);
      InsertPermutes(x, s[1..]);
      var t := Insert(x, s[1..]);
      forall k | 0 <= k < |t| ensures s[0].timestamp >= t[k].timestamp {
        assert t[k] in multiset(t);
        assert t[k] in multiset(s[1..]) + multiset{x};
        if t[k] != x {
          assert t[k] in s[1..];
        }
      }
    }
  }

  /** The sort orders newest first and is a permutation of its input. */
  lemma {:induction false} SortCorrect(s: seq<PlantAlert>)
    ensures NewestFirst(SortNewestFirst(s))
    ensures multiset(SortNewestFirst(s)) == multiset(s)
  {
    if s != [] {
      SortCorrect(s[1..]);
      InsertSorted(s[0], SortNewestFirst(s[1..]));
      InsertPermutes(s[0], SortNewestFirst(s[1..]));
      assert s == [s[0]] + s[1..];
    }
  }

  /** The alerts of one timestamp, in list order. */
  function WithTimestamp(s: seq<PlantAlert>, t: int): seq<PlantAlert>
  {
    if s == [] then [] else (if s[0].timestamp == t then [s[0]] else []) + WithTimestamp(s[1..], t)
  }

  lemma {:induction false} InsertStable(x: PlantAlert, s: seq<PlantAlert>, t: int)
    ensures WithTimestamp(Insert(x, s), t) ==
            (if x.timestamp == t then [x] else []) + WithTimestamp(s, t)
  {
    if s != [] && s[0].timestamp > x.timestamp {
      InsertStable(x, s[1..], t);
      var head := if s[0].timestamp == t then [s[0]] else [];
      assert Insert(x, s) == [s[0]] + Insert(x, s[1..]);
      assert WithTimestamp(Insert(x, s), t) == head + WithTimestamp(Insert(x, s[1..]), t);
      assert x.timestamp == t ==> head == [];
    } else {
      assert Insert(x, s) == [x] + s;
      assert ([x] + s)[1..] == s;
    }
  }

  /** Stability: alerts with equal timestamps keep their relative order. */
  lemma {:induction false} SortStable(s: seq<PlantAlert>, t: int)
    ensures WithTimestamp(SortNewestFirst(s), t) == WithTimestamp(s, t)
  {
    if s != [] {
      SortStable(s[1..], t);
      InsertStable(s[0], SortNewestFirst(s[1..]), t);
    }
  }

  /** The outcome of each per-device alert request, in device order. */
  function AlertResults(ds: seq<PlantDevice>, backend: Operation -> Response<seq<PlantAlert>>)
    : (rs: seq<Result<seq<PlantAlert>>>)
    ensures |rs| == |ds|
    ensures forall i :: 0 <= i < |ds| ==>
              rs[i] == Call(GetAlertsByPlant(ds[i].plantId, 20), backend(GetAlertsByPlant(ds[i].plantId, 20)))
  {
    var ops := AlertOperations(ds);
    seq(|ops|, i requires 0 <= i < |ops| => Call(ops[i], backend(ops[i])))
  }

  /**
   * getAllAlerts: list the devices, fetch each device's latest 20 alerts,
   * flatten, sort newest first. `backend` gives the response of each call.
   */
  function GetAllAlerts(devices: Response<seq<PlantDevice>>,
                        backend: Operation -> Response<seq<PlantAlert>>): (r: Result<seq<PlantAlert>>)
    ensures !devices.ok ==> r == Failure(ErrorMessage(GetDevices))
    ensures r.Success? ==> devices.ok
    ensures r.Success? <==> (devices.ok &&
              forall i :: 0 <= i < |devices.body| ==> backend(GetAlertsByPlant(devices.body[i].plantId, 20)).ok)
  {
    if !devices.ok then Failure(ErrorMessage(GetDevices))
    else
      var rs := AlertResults(devices.body, backend);
      match All(rs)
      case Failure(e) => Failure(e)
      case Success(lists) => Success(SortNewestFirst(Flatten(lists)))
  }

  /** The alert lists the backend returns for each device, in device order. */
  function FetchedLists(ds: seq<PlantDevice>, backend: Operation -> Response<seq<PlantAlert>>)
    : (ls: seq<seq<PlantAlert>>)
    ensures |ls| == |ds|
    ensures forall i :: 0 <= i < |ds| ==> ls[i] == backend(GetAlertsByPlant(ds[i].plantId, 20)).body
  {
    if ds == [] then [] else [backend(GetAlertsByPlant(ds[0].plantId, 20)).body] + FetchedLists(ds[1..], backend)
  }

  /** A successful aggregation is exactly the fetched lists, concatenated and sorted. */
  lemma AllAlertsValue(devices: Response<seq<PlantDevice>>,
                       backend: Operation -> Response<seq<PlantAlert>>)
    requires GetAllAlerts(devices, backend).Success?
    ensures GetAllAlerts(devices, backend).value == SortNewestFirst(Flatten(FetchedLists(devices.body, backend)))
  {
    var ds := devices.body;
    var rs := AlertResults(ds, backend);
    var lists := All(rs).value;
    var expected := FetchedLists(ds, backend);
    forall i | 0 <= i < |ds| ensures lists[i] == expected[i] {
      assert rs[i].Success?;
    }
    assert lists == expected;
  }

  /** A successful aggregation is sorted and loses or duplicates nothing of the per-device lists. */
  lemma AllAlertsCorrect(devices: Response<seq<PlantDevice>>,
                         backend: Operation -> Response<seq<PlantAlert>>)
    requires GetAllAlerts(devices, backend).Success?
    ensures NewestFirst(GetAllAlerts(devices, backend).value)
    ensures multiset(GetAllAlerts(devices, backend).value) ==
            SumMultisets(FetchedLists(devices.body, backend))
  {
    AllAlertsValue(devices, backend);
    var flat := Flatten(FetchedLists(devices.body, backend));
    SortCorrect(flat);
    FlattenMultiset(FetchedLists(devices.body, backend));
  }
}
