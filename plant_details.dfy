/**
 * The device details view: it reconciles a fetched history series, a
 * fetched realtime KPI snapshot and live WebSocket telemetry into the
 * state slices `kpis`, `historyData` and `isLoading`. Live telemetry only
 * overlays the KPI snapshot; the history series changes only on a fetch.
 */
module PlantDetails {
  import opened Wrappers
  import opened Types
  import ApiService

  /** Fewer aggregated points than this triggers the raw-history fallback. */
  const RawFallbackThreshold: nat := 5

  // ---------------------------------------------------------------- messages

  datatype MessageType = Telemetry | PumpEvent | Alert | Unrecognised

  /** The fields a telemetry payload may carry, under either of their two names. */
  datatype TelemetryData = TelemetryData(
    temp: Option<real>, tempC: Option<real>,
    soilHum: Option<real>, soilHumidity: Option<real>,
    ambientHum: Option<real>, ambientHumidity: Option<real>,
    light: Option<real>, lightLux: Option<real>,
    pumpOn: Option<bool>)

  /** A parsed message; `data` is `None` when the payload is missing, so reading a field of it throws. */
  datatype WsMessage = WsMessage(kind: MessageType, plantId: Option<string>, data: Option<TelemetryData>)

  /** What arrives on the socket: text that does or does not parse as a message. */
  datatype Inbound = Malformed | Parsed(msg: WsMessage)

  /** `a ?? b ?? d`. */
  function FirstDefined(a: Option<real>, b: Option<real>, d: real): (r: real)
    ensures a.Some? ==> r == a.value
    ensures a.None? && b.Some? ==> r == b.value
    ensures a.None? && b.None? ==> r == d
  {
    OrElse(a, OrElse(b, d))
  }

  /** The live KPI snapshot built from a telemetry payload, stamped with the receipt time. */
  function NormaliseTelemetry(data: TelemetryData, now: string): (k: Kpi)
    ensures k.temp == FirstDefined(data.temp, data.tempC, 0.0)
    ensures k.soilHum == FirstDefined(data.soilHum, data.soilHumidity, 0.0)
    ensures k.ambientHum == FirstDefined(data.ambientHum, data.ambientHumidity, 0.0)
    ensures k.light == FirstDefined(data.light, data.lightLux, 0.0)
    ensures k.pumpOn == (data.pumpOn == Some(true))
    ensures k.timestamp == now
    ensures k.healthIndex.None? && k.dataQuality.None?
  {
    Kpi(FirstDefined(data.temp, data.tempC, 0.0),
        FirstDefined(data.soilHum, data.soilHumidity, 0.0),
        FirstDefined(data.ambientHum, data.ambientHumidity, 0.0),
        FirstDefined(data.light, data.lightLux, 0.0),
        OrElse(data.pumpOn, false),
        now, None, None)
  }

  /** The events that carry live telemetry for the selected device. */
  predicate UpdatesKpis(selected: string, event: Inbound)
  {
    && event.Parsed?
    && event.msg.plantId == Some(selected)
    && event.msg.kind == Telemetry
    && event.msg.data.Some?
  }

  /**
   * The KPI slice after one socket event. Only a well-formed TELEMETRY message
   * for the selected device with a payload replaces it; everything else
   * (another device, ALERT, PUMP_EVENT, an unknown type, a parse failure, a
   * missing payload) leaves it as it was.
   */
  function KpisAfterMessage(kpis: Option<Kpi>, selected: string, event: Inbound, now: string): (r: Option<Kpi>)
    ensures UpdatesKpis(selected, event) ==> r == Some(NormaliseTelemetry(event.msg.data.value, now))
    ensures !UpdatesKpis(selected, event) ==> r == kpis
  {
    match event
    case Malformed => kpis
    case Parsed(m) =>
      if m.plantId != Some(selected) then kpis
      else if m.kind == Telemetry && m.data.Some? then Some(NormaliseTelemetry(m.data.value, now))
      else kpis
  }

  lemma OtherDeviceIgnored(kpis: Option<Kpi>, selected: string, m: WsMessage, now: string)
    requires m.plantId != Some(selected)
    ensures KpisAfterMessage(kpis, selected, Parsed(m), now) == kpis
  {
  }

  lemma NonTelemetryIgnored(kpis: Option<Kpi>, selected: string, m: WsMessage, now: string)
    requires m.kind == Alert || m.kind == PumpEvent
    ensures KpisAfterMessage(kpis, selected, Parsed(m), now) == kpis
  {
  }

  // ---------------------------------------------------------------- fetching

  /** The raw-history fallback call: it may throw, answer not ok, or answer with points. */
  datatype RawOutcome = RawThrew | RawNotOk | RawOk(points: seq<HistoryPoint>)

  /** The raw series replaces the aggregated one only if it is strictly longer. */
  predicate AdoptRaw(aggregated: seq<HistoryPoint>, raw: RawOutcome)
  {
    |aggregated| < RawFallbackThreshold && raw.RawOk? && |raw.points| > |aggregated|
  }

  function ChooseHistory(aggregated: seq<HistoryPoint>, raw: RawOutcome): (h: seq<HistoryPoint>)
    ensures AdoptRaw(aggregated, raw) ==> h == raw.points
    ensures !AdoptRaw(aggregated, raw) ==> h == aggregated
    ensures |h| >= |aggregated|
  {
    if |aggregated| < RawFallbackThreshold then
      match raw
      case RawOk(points) => if |points| > |aggregated| then points else aggregated
      case _ => aggregated
    else aggregated
  }

  /** An aggregated series of five or more points is always kept, whatever the raw call did. */
  lemma EnoughPointsKeepsAggregated(aggregated: seq<HistoryPoint>, raw: RawOutcome)
    requires |aggregated| >= RawFallbackThreshold
    ensures ChooseHistory(aggregated, raw) == aggregated
  {
  }

  /** The window parameter: the empty selection means "let the backend choose" (no parameter). */
  function WindowParam(aggregationWindow: string): (w: Option<string>)
    ensures w.None? <==> aggregationWindow == ""
    ensures w.Some? ==> w.value == aggregationWindow
  {
    if aggregationWindow == "" then None else Some(aggregationWindow)
  }

  /** The parameters one fetch was started with. */
  datatype FetchRequest = FetchRequest(plantId: string, range: string, window: Option<string>)

  /** The raw fallback request: same device and range, limit 100, never aggregated. */
  function RawHistoryRequest(f: FetchRequest): ApiService.Request
  {
    ApiService.Request(ApiService.GET, "/analytics/" + f.plantId + "/history/raw",
                       [ApiService.Param("range", f.range), ApiService.Param("limit", "100")])
  }

  class DetailsView {
    /** The selected device. It is a prop: a new device keeps the view and its state. */
    var plantId: string
    var kpis: Option<Kpi>
    var historyData: seq<HistoryPoint>
    var isLoading: bool
    var timeRange: string
    var aggregationWindow: string

    constructor(plantId: string)
      ensures this.plantId == plantId
      ensures kpis.None? && historyData == [] && isLoading
      ensures timeRange == "72h" && aggregationWindow == ""
    {
      this.plantId := plantId;
      kpis := None;
      historyData := [];
      isLoading := true;
      timeRange := "72h";
      aggregationWindow := "";
    }

    /**
     * A different device is passed to the open view. The snapshot and the
     * history of the previous device stay until a fetch for the new one
     * succeeds; a failed fetch leaves them on screen.
     */
    method ChangeDevice(newPlantId: string)
      modifies this`plantId
      ensures plantId == newPlantId
      ensures kpis == old(kpis) && historyData == old(historyData) && isLoading == old(isLoading)
      ensures timeRange == old(timeRange) && aggregationWindow == old(aggregationWindow)
    {
      plantId := newPlantId;
    }

    method SetTimeRange(range: string)
      modifies this`timeRange
      ensures timeRange == range
    {
      timeRange := range;
    }

    method SetAggregationWindow(window: string)
      modifies this`aggregationWindow
      ensures aggregationWindow == window
    {
      aggregationWindow := window;
    }

    /**
     * Start a fetch: mark loading and issue the realtime and combined-history
     * requests together; the returned parameters travel with the fetch.
     */
    method BeginFetch() returns (f: FetchRequest, realtime: ApiService.Request, combined: ApiService.Request)
      modifies this`isLoading
      ensures isLoading
      ensures f == FetchRequest(plantId, timeRange, WindowParam(aggregationWindow))
      ensures realtime == ApiService.RequestOf(ApiService.GetRealtimeData(plantId))
      ensures combined == ApiService.RequestOf(ApiService.GetHistoryCombined(plantId, timeRange, WindowParam(aggregationWindow)))
    {
      isLoading := true;
      f := FetchRequest(plantId, timeRange, WindowParam(aggregationWindow));
      realtime := ApiService.RequestOf(ApiService.GetRealtimeData(plantId));
      combined := ApiService.RequestOf(ApiService.GetHistoryCombined(f.plantId, f.range, f.window));
    }

    /**
     * Finish a fetch with the outcomes of its calls. If either of the two
     * joint calls failed, nothing but the loading flag changes. Otherwise the
     * realtime snapshot is adopted and, when the aggregated series is short,
     * one raw request is made and its answer adopted if strictly longer.
     */
    method CompleteFetch(f: FetchRequest, realtime: Result<Kpi>, combined: Result<seq<HistoryPoint>>,
                         raw: RawOutcome)
      returns (rawRequest: Option<ApiService.Request>)
      modifies this`kpis, this`historyData, this`isLoading
      ensures !isLoading
      ensures rawRequest.Some? <==> realtime.Success? && combined.Success? &&
                                    |combined.value| < RawFallbackThreshold
      ensures rawRequest.Some? ==> rawRequest.value == RawHistoryRequest(f)
      ensures realtime.Success? && combined.Success? ==>
                kpis == Some(realtime.value) && historyData == ChooseHistory(combined.value, raw)
      ensures realtime.Failure? || combined.Failure? ==>
                kpis == old(kpis) && historyData == old(historyData)
    {
      rawRequest := None;
      if realtime.Success? && combined.Success? {
        var history := combined.value;
        if |history| < RawFallbackThreshold {
          rawRequest := Some(RawHistoryRequest(f));
          if raw.RawOk? && |raw.points| > |history| {
            historyData := raw.points;
            kpis := Some(realtime.value);
            isLoading := false;
            return;
          }
        }
        kpis := Some(realtime.value);
        historyData := history;
      }
      isLoading := false;
    }

    /** The socket handler: only the KPI snapshot may change, never the history or the loading flag. */
    method OnMessage(event: Inbound, now: string)
      modifies this`kpis
      ensures kpis == KpisAfterMessage(old(kpis), plantId, event, now)
      ensures historyData == old(historyData) && isLoading == old(isLoading)
    {
      match event
      case Malformed =>
      case Parsed(m) =>
        if m.plantId != Some(plantId) {
          return;
        }
        if m.kind == Telemetry && m.data.Some? {
          kpis := Some(NormaliseTelemetry(m.data.value, now));
        }
    }

  }

  /** The soil badge: "Crítico" when a snapshot exists and soil humidity is below 35. */
  function SoilBadge(kpis: Option<Kpi>): (badge: string)
    ensures badge == "Crítico" <==> kpis.Some? && kpis.value.soilHum < 35.0
    ensures badge == "Normal" <==> !(kpis.Some? && kpis.value.soilHum < 35.0)
  {
    if kpis.Some? && kpis.value.soilHum < 35.0 then "Crítico" else "Normal"
  }

  /** A live reading of soil 20 flags the badge. */
  lemma LowSoilTelemetryFlags(data: TelemetryData, now: string)
    requires data.soilHum == Some(20.0)
    ensures SoilBadge(Some(NormaliseTelemetry(data, now))) == "Crítico"
  {
  }

  /** A reading of exactly 35 is not critical here, unlike the device card's badge at 30. */
  lemma SoilBadgeBoundary(k: Kpi)
    requires k.soilHum == 35.0
    ensures SoilBadge(Some(k)) == "Normal"
  {
  }
}
