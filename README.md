# Irrigation dashboard model

A Dafny model of the decision logic behind an IoT plant-irrigation web
dashboard. The dashboard shows live telemetry for each plant: temperature,
soil humidity, air humidity and light. It colours every reading against the
plant's thresholds and lets an operator switch a pump or a device mode. It
also loads history and alerts from a REST back end.

The model has one module per source file:

- `SmartGauge`: the bar gauge. It clamps the bar's width, picks a status of
  Bajo, Óptimo or Alto against the thresholds, and picks a colour.
- `StatusBadge`: the humidity badge, with the bands Crítico, Normal and Alto.
- `KpiGrid`: the KPI grid.
  - The health and data-quality rings, with JavaScript `Math.round`
    modelled exactly.
  - Each gauge's threshold, which falls back to a default through `??`.
  - The low-soil highlight.
- `ApiService`: the REST client.
  - Every endpoint is a request value with its default parameters.
  - `Call` turns a response into a result: a failed response becomes an
    error, which is the server's text for the endpoints that report it and
    a fixed message otherwise.
  - `GetAllAlerts` fans out over all devices, and fails as soon as one
    request fails. Otherwise it returns the flattened alerts sorted newest
    first. The sort is stable and a permutation.
- `HumidityChart`: the x-axis tick label, which keeps the part of the time
  string before the second `:`.
- `DeviceCard`: the device card. It covers the pump button (what it sends
  and when it is disabled), the mode switch, the battery warning and the
  header line.
- `RealDeviceCard`: the back-end device card, which counts as online within
  five minutes of the last data.
- `Dashboard`: the main page, as the class `Page`.
  - A simulated tick. Humidity drifts, is clamped to 0–100 and rounded to
    one decimal. A chart point is pushed into a window of 20.
  - The handlers for pump, mode and device selection.
- `PlantDetails`: the plant-details modal, as the class `DetailsView`.
  - The fetch: realtime KPIs plus combined history. When the aggregated
    history has fewer than 5 points it falls back to raw history.
  - The live-message handler, which normalises alternate field names. It
    ignores messages for another plant, messages that are not telemetry and
    malformed messages.
  - The soil badge.
- `CreateDeviceForm`: the device-creation form, as the class `Form`. It
  covers validation, submission and the reset after success.

`Wrappers` holds `Option`/`Result` and the JavaScript `??` and `||`
fallbacks. `Types` holds the shared record shapes.

Numbers are `real`. `Math.round(x)` is `floor(x + 1/2)`, and `toFixed(1)` is
the nearest tenth. The clock, `Math.random`, `Date.now()`, `Math.PI` (the ring
circumference) and every network response are parameters of the operations.
Nothing in the model performs I/O.

The page's tick is modelled as the code is written. The new chart point takes
the selected device's humidity from the device list captured *before* this
tick's update, so the chart runs one tick behind the cards.

Three behaviours of the code that a reader might not expect are modelled as written:

- The critical soil level is a different number in each place. The details
  modal flags soil below 35. The humidity badge marks 30 and below as
  critical. The KPI grid highlights soil below the device's own minimum, or
  0 when none is set.
- A live telemetry message replaces the whole KPI snapshot. The snapshot
  then has no health index and no data-quality value.
- The details modal keeps its state when it is given another device. The
  previous device's snapshot and history stay in the view's state while the
  new fetch runs, which shows a spinner meanwhile. If that fetch fails, they
  appear again under the new device's title.

## Model

| member | source | states |
|---|---|---|
| SmartGauge.ClampedPercentage | components/dashboard/smart-gauge.tsx:31-32 | The bar width is always in 0..100. It equals the raw percentage of the limit range when that lies in 0..100, and is 0 below and 100 above. |
| SmartGauge.GaugeStatus | components/dashboard/smart-gauge.tsx:43-51 | Low exactly when value < min. High exactly when value ≥ min and value > max. Optimal exactly when min ≤ value ≤ max. |
| SmartGauge.Gauge | components/dashboard/smart-gauge.tsx:20-51 | The rendered gauge's width is the clamped percentage, in 0..100. It has the status of the value and the colour that belongs to that status. |
| SmartGauge.GaugeColor | components/dashboard/smart-gauge.tsx:35-40 | The colour chain: low colour below min, high colour above max (each falling back to #EF4444 when absent or empty), otherwise the optimal colour. Its properties are ColorAgreesWithStatus and MissingColorFallsBack. |
| SmartGauge.ColorAgreesWithStatus | components/dashboard/smart-gauge.tsx:35-51 | The colour chain and the status chain agree: the bar colour is always the colour slot of the status that is shown. |
| SmartGauge.MissingColorFallsBack | components/dashboard/smart-gauge.tsx:36-40 | Below min with no low colour, or above max with no high colour, the bar is the fallback red #EF4444. An empty string counts as no colour. |
| SmartGauge.InRangeIsUnclamped | components/dashboard/smart-gauge.tsx:31-32 | A value inside the limit range gets exactly its proportional width. |
| SmartGauge.WidthMonotone | components/dashboard/smart-gauge.tsx:31-32 | A larger value never gives a narrower bar. |
| SmartGauge.StatusMonotone | components/dashboard/smart-gauge.tsx:43-51 | A larger value never gives a lower status (Low < Optimal < High). |
| SmartGauge.OptimalExample | components/dashboard/smart-gauge.tsx:31-51 | 25 with thresholds 20..30 on limits 0..50 is a 50 percent bar with status Óptimo. |
| StatusBadge.HumidityBadge | components/dashboard/status-badge.tsx:13-22 | Critical exactly when humidity ≤ 30, High exactly when ≥ 80, Normal exactly in between. |
| StatusBadge.BadgeMonotone | components/dashboard/status-badge.tsx:13-22 | Higher humidity never gives a lower badge level. |
| StatusBadge.LabelsDistinct | components/dashboard/status-badge.tsx:13-22 | The three levels show three different labels, so the label identifies the level. |
| KpiGrid.JsRound | components/dashboard/kpi-grid.tsx:28 | The rounded value is the integer n with n − ½ ≤ x < n + ½ (halves round up, as in JavaScript). |
| KpiGrid.JsRoundMonotone | components/dashboard/kpi-grid.tsx:28 | Rounding preserves order. |
| KpiGrid.QualityBand | components/dashboard/kpi-grid.tsx:46-70 | Each data-quality status holds exactly on its band of the rounded value: ≥95, 80..94, 50..79, <50. |
| KpiGrid.HealthBand | components/dashboard/kpi-grid.tsx:137-169 | Each health status holds exactly on its band of the rounded value: ≥80, 60..79, 40..59, 20..39, <20. |
| KpiGrid.QualityRing | components/dashboard/kpi-grid.tsx:27-70 | The quality ring shows the rounded value, the band of that rounded value, and offset c·(1 − r/100). |
| KpiGrid.HealthRing | components/dashboard/kpi-grid.tsx:119-169 | The health ring shows the rounded value, the band of that rounded value, and offset c·(1 − r/100). |
| KpiGrid.BandsMonotone | components/dashboard/kpi-grid.tsx:46-169 | A higher score never gives a worse quality or health status. |
| KpiGrid.RingOffset | components/dashboard/kpi-grid.tsx:35 | The ring gap `c − (r/100)·c`, shared by both rings (line 126 is the same formula). Its bounds are RingOffsetBounds. |
| KpiGrid.RingOffsetBounds | components/dashboard/kpi-grid.tsx:35 | A score of 100 leaves no gap and 0 leaves the whole ring. In between, the offset lies between 0 and the circumference and shrinks as the score grows. |
| KpiGrid.QualityRoundingBoundary | components/dashboard/kpi-grid.tsx:28-54 | 94.5 rounds up into Excelente, while 94.4 stays Buena. |
| KpiGrid.TempRange | components/dashboard/kpi-grid.tsx:231-232 | The temperature thresholds, `minTempC ?? 15` and `maxTempC ?? 30`. Proved in DefaultsWithoutThresholds and ThresholdsOverrideDefaults. |
| KpiGrid.SoilRange | components/dashboard/kpi-grid.tsx:261-262 | The soil thresholds, `minSoilHumidity ?? 30` and `maxSoilHumidity ?? 70`. |
| KpiGrid.AirRange | components/dashboard/kpi-grid.tsx:285-286 | The air-humidity thresholds, `minHumidity ?? 40` and `maxHumidity ?? 80`. |
| KpiGrid.LightRange | components/dashboard/kpi-grid.tsx:308-309 | The light thresholds, `minLightLux ?? 500` and `maxLightLux ?? 2000`. |
| KpiGrid.SoilHighlighted | components/dashboard/kpi-grid.tsx:248 | The soil card is highlighted when soil < `minSoilHumidity ?? 0`. Grid and LowSoilExample state it. |
| KpiGrid.Grid | components/dashboard/kpi-grid.tsx:217-358 | Each gauge uses the device threshold or its default, with limits 0..50, 0..100, 0..100 and 0..5000. Its colour comes from the card's palette for its status. Each ring shows the rounded score, its band and its offset. The soil card is highlighted exactly when soil < (minimum ?? 0). Each ring is shown exactly when its value is present. |
| KpiGrid.DefaultsWithoutThresholds | components/dashboard/kpi-grid.tsx:229-311 | A device without thresholds uses 15..30 °C, 30..70 % soil, 40..80 % air and 500..2000 lux. A non-negative soil reading is then never highlighted. |
| KpiGrid.ThresholdsOverrideDefaults | components/dashboard/kpi-grid.tsx:229-311 | For each of the eight thresholds, a configured value replaces the default as given, 0 included. |
| KpiGrid.LowSoilExample | components/dashboard/kpi-grid.tsx:246-268 | Soil 20 with minimum 35 is highlighted and its gauge reads Bajo. |
| ApiService.CombinedQuery | lib/apiService.ts:133-134 | The query starts with range. The window parameter is appended exactly when the window is truthy, so an empty string gives no parameter. |
| ApiService.CombinedQueryString | lib/apiService.ts:133-135 | The combined URL query is `range=<r>`, followed by `&window=<w>` only when a truthy window is given. |
| ApiService.DefaultRanges | lib/apiService.ts:95-153 | The defaults are a 24h range for the four single histories, 72h for the combined history, and an alert limit of 50. |
| ApiService.RequestOf | lib/apiService.ts:17-186 | Each endpoint's verb, path and query, with the defaults that DefaultRanges and CombinedQueryString state. |
| ApiService.NatToString | lib/apiService.ts:150 | The decimal digits of a number as `${limit}` prints them. The string is non-empty and all digits, with no leading zero: "0" for 0, and a non-zero first digit otherwise. |
| ApiService.NatToStringValue | lib/apiService.ts:150 | Reading the printed digits back gives the number. |
| ApiService.IntToString | lib/apiService.ts:150 | A non-negative limit prints as digits without a leading zero that denote it. A negative one prints as a minus sign before such digits for its magnitude. |
| ApiService.Call | lib/apiService.ts:17-186 | A call succeeds exactly when the response is ok, and then returns its body. Otherwise the error is the server's text for create, delete and command (when not empty), and the endpoint's fixed message for every other response that is not ok. A rejected `fetch` is not modelled. |
| ApiService.AlertOperations | lib/apiService.ts:171-173 | One alerts request per device, in device order, with limit 20. |
| ApiService.All | lib/apiService.ts:174 | Succeeds exactly when every result succeeds, with the values in order. Otherwise it fails with the error of one of the failed results. |
| ApiService.Flatten | lib/apiService.ts:175 | `.flat()` of the per-device alert lists, in order. FlattenMultiset states what it keeps. |
| ApiService.FlattenMultiset | lib/apiService.ts:175 | Flattening keeps every alert of every list: the multiset of the result is the sum of the lists' multisets. |
| ApiService.Insert | lib/apiService.ts:175-177 | Places one alert ahead of the first alert that is not newer than it. This is the step of the newest-first insertion sort. It is proved in InsertPermutes, InsertSorted and InsertStable. |
| ApiService.SortNewestFirst | lib/apiService.ts:175-177 | The comparator sort `b.timestamp − a.timestamp`. SortCorrect and SortStable prove it sorted, a permutation and stable. |
| ApiService.SortCorrect | lib/apiService.ts:175-177 | The timestamp sort orders newest first and is a permutation of its input. |
| ApiService.SortStable | lib/apiService.ts:175-177 | Alerts with equal timestamps keep their relative order, as a stable sort does. |
| ApiService.AlertResults | lib/apiService.ts:171-174 | The i-th result is the call for the i-th device's alerts. |
| ApiService.GetAllAlerts | lib/apiService.ts:169-178 | A failed device list fails with "Error fetching devices". The whole operation succeeds exactly when the device list and every per-device alerts response are ok. |
| ApiService.AllAlertsValue | lib/apiService.ts:169-178 | On success the value is the newest-first sort of the concatenated per-device alert bodies. |
| ApiService.AllAlertsCorrect | lib/apiService.ts:169-178 | On success the alerts are sorted newest first and are exactly the fetched alerts, counted with multiplicity. |
| HumidityChart.SplitJoin | components/charts/humidity-chart.tsx:29 | Splitting at ':' gives one more piece than there are colons. No piece holds a colon, and joining the pieces restores the string. |
| HumidityChart.TickLabel | components/charts/humidity-chart.tsx:29 | `value.split(':').slice(0, 2).join(':')`, stated through the TickLabel lemmas below. |
| HumidityChart.TickLabelIsPrefix | components/charts/humidity-chart.tsx:29 | The tick label is a prefix of the time string. |
| HumidityChart.TickLabelColons | components/charts/humidity-chart.tsx:29 | The label contains at most one colon. |
| HumidityChart.TickLabelKeepsShort | components/charts/humidity-chart.tsx:29 | A time with at most one colon is shown unchanged. |
| HumidityChart.TickLabelIdempotent | components/charts/humidity-chart.tsx:29 | Formatting a label again does not change it. |
| HumidityChart.TickLabelDropsSeconds | components/charts/humidity-chart.tsx:29 | "14:05:09" is labelled "14:05". |
| DeviceCard.PumpLabel | components/dashboard/device-card.tsx:89-95 | The pump button reads "Activa" exactly when the pump is on and "Inactiva" exactly when it is off. |
| DeviceCard.HumidityBadge | components/dashboard/device-card.tsx:43 | The card's badge is Crítico exactly at humidity ≤ 30, Alto exactly at ≥ 80, and Normal in between. |
| DeviceCard.PumpClick | components/dashboard/device-card.tsx:85 | A pump click asks for this device and for the opposite of its current pump state. |
| DeviceCard.ModeSwitchChecked | components/dashboard/device-card.tsx:75 | The switch is on exactly for auto mode. ModeSwitchRoundTrip relates it to ModeFromSwitch. |
| DeviceCard.ModeFromSwitch | components/dashboard/device-card.tsx:76 | Switch on means auto, switch off means manual. |
| DeviceCard.ModeSwitchRoundTrip | components/dashboard/device-card.tsx:75-76 | A device given the mode a switch position selects shows that position. Feeding back the position a device shows gives back its mode. |
| DeviceCard.BatteryWarning | components/dashboard/device-card.tsx:59 | The battery is shown in red below 20 percent. BatteryBoundary states both sides. |
| DeviceCard.BatteryBoundary | components/dashboard/device-card.tsx:59 | Every battery reading below 20 percent is flagged; 20 and above is not. |
| DeviceCard.Header | components/dashboard/device-card.tsx:31-33 | The header reads "En línea" exactly when the device is online. Otherwise it shows the time since the device's own lastSeen. |
| DeviceCard.PumpButtonDisabled | components/dashboard/device-card.tsx:86 | The pump button is disabled in auto mode or when the device is offline. ClickableOnlyManualOnline states the converse. |
| DeviceCard.ClickableOnlyManualOnline | components/dashboard/device-card.tsx:86 | The pump button is enabled exactly for a device that is online and in manual mode. |
| RealDeviceCard.IsOnline | components/dashboard/real-device-card.tsx:17-19 | No timestamp means offline. Otherwise the device is online exactly when less than 300000 ms have passed. |
| RealDeviceCard.OnlineEarlier | components/dashboard/real-device-card.tsx:17-19 | A device online at some instant is also online at every earlier instant. |
| RealDeviceCard.OnlineBoundary | components/dashboard/real-device-card.tsx:17-19 | Exactly five minutes after the last data the device is offline. |
| RealDeviceCard.BadgeLabel | components/dashboard/real-device-card.tsx:31-32 | "En línea" exactly when online, "Inactivo" otherwise. |
| RealDeviceCard.ActiveLabel | components/dashboard/real-device-card.tsx:61-62 | "Activo" exactly when the device is flagged active, "Inactivo" otherwise. |
| RealDeviceCard.ActiveIndependentOfOnline | components/dashboard/real-device-card.tsx:61-62 | The active label depends only on the active flag, not on how recent the data is. |
| Dashboard.ClampHumidity | app/page.tsx:27 | The result is in 0..100. Values in range are unchanged, values below 0 become 0 and values above 100 become 100. |
| Dashboard.ToFixed1 | app/page.tsx:39 | Rounding to one decimal moves a value by at most 0.05. |
| Dashboard.ToFixed1Bounds | app/page.tsx:27-39 | A value in 0..100 stays in 0..100 after rounding to one decimal. |
| Dashboard.TickDevice | app/page.tsx:24-41 | After a tick, humidity is in 0..100 and within 0.05 of the clamped drifted value. Only humidity and lastSeen change. |
| Dashboard.TickDevices | app/page.tsx:23-43 | Every device is ticked in place, with its own random drift, and the list keeps its length and order. |
| Dashboard.TickPreserves | app/page.tsx:23-42 | After a tick the list has the same length, every humidity is in 0..100, and each device keeps its id and every field except humidity and lastSeen. |
| Dashboard.ChartPush | app/page.tsx:48-56 | The chart holds min(n+1, 20) points, ends with the new point, and is a suffix of the old chart followed by the new point. |
| Dashboard.ChartPushKeepsRecent | app/page.tsx:48-56 | Below 20 points the new point is appended. At 20 or more the oldest points are dropped so that exactly 20 remain. |
| Dashboard.FindDevice | app/page.tsx:46 | None exactly when no device has the id. Otherwise the first device with that id. |
| Dashboard.SetPump | app/page.tsx:65 | Devices with the id get the new pump state; all others are unchanged. |
| Dashboard.SetMode | app/page.tsx:82 | Devices with the id get the new mode; all others are unchanged. |
| Dashboard.SetPumpIdempotent | app/page.tsx:65 | Setting the same pump state twice is the same as setting it once. |
| Dashboard.PumpNotification | app/page.tsx:68-76 | Turning a pump on raises an unread info notification titled "Riego Manual Activado", whose message names the device, with the given id and timestamp. |
| Dashboard.PumpClickFlips | app/page.tsx:64-65 | Applying a card's pump click to the page's list flips that device's pump. |
| Dashboard.ModeSwitchApplies | app/page.tsx:81-82 | After the page applies a switch change, the card's switch shows what the user set. |
| Dashboard.Page.constructor | app/page.tsx:13-18 | Starts with the initial devices and notifications, the first device selected, and an empty chart. |
| Dashboard.Page.Tick | app/page.tsx:21-59 | The devices become the ticked list. When the selected device exists, the chart gains a point with that device's humidity from before the tick, kept to 20 points. Notifications and the selection are unchanged. |
| Dashboard.Page.TogglePump | app/page.tsx:64-79 | The pump state of the device with the id is set. Turning it on prepends one notification; turning it off adds none. |
| Dashboard.Page.ToggleMode | app/page.tsx:81-83 | The mode of the device with the id is set; nothing else changes. |
| Dashboard.Page.SelectDevice | app/page.tsx:131-134 | Selects the device and empties the chart. |
| PlantDetails.FirstDefined | components/dashboard/plant-details-modal.tsx:116-119 | Takes the primary field when present, else the alternate name, else 0. |
| PlantDetails.NormaliseTelemetry | components/dashboard/plant-details-modal.tsx:115-122 | Each KPI is read from its primary or alternate field, or is 0 when both are missing. The pump is on only when it is true. The timestamp is the current time, and there is no health index or data quality. |
| PlantDetails.KpisAfterMessage | components/dashboard/plant-details-modal.tsx:96-137 | The snapshot is replaced exactly when a well-formed telemetry message with data arrives for this plant. Otherwise it is kept. |
| PlantDetails.OtherDeviceIgnored | components/dashboard/plant-details-modal.tsx:104-107 | A message for another plant leaves the snapshot unchanged. |
| PlantDetails.NonTelemetryIgnored | components/dashboard/plant-details-modal.tsx:111-134 | Pump-event and alert messages leave the snapshot unchanged. |
| PlantDetails.AdoptRaw | components/dashboard/plant-details-modal.tsx:56-63 | Raw history is adopted when there are fewer than 5 aggregated points, the raw response is ok, and it has strictly more points. |
| PlantDetails.ChooseHistory | components/dashboard/plant-details-modal.tsx:56-76 | The raw history replaces the aggregated one exactly when the aggregated one has fewer than 5 points and the raw request succeeds with more points. The history never shrinks. |
| PlantDetails.EnoughPointsKeepsAggregated | components/dashboard/plant-details-modal.tsx:56 | With 5 or more aggregated points the raw history is never used. |
| PlantDetails.WindowParam | components/dashboard/plant-details-modal.tsx:46 | An empty aggregation window sends no window. Any other value is sent as is. |
| PlantDetails.DetailsView.constructor | components/dashboard/plant-details-modal.tsx:33-38 | Starts with no snapshot, no history, loading, range 72h and no window. |
| PlantDetails.RawHistoryRequest | components/dashboard/plant-details-modal.tsx:59 | The raw fallback request for the same plant and range, with limit 100. |
| PlantDetails.DetailsView.ChangeDevice | components/dashboard/plant-details-modal.tsx:31-38 | A new device prop changes only the selected plant. The previous snapshot, history, loading flag, range and window are kept. |
| PlantDetails.DetailsView.SetTimeRange | components/dashboard/plant-details-modal.tsx:320 | Sets the range only. |
| PlantDetails.DetailsView.SetAggregationWindow | components/dashboard/plant-details-modal.tsx:350 | Sets the window only. |
| PlantDetails.DetailsView.BeginFetch | components/dashboard/plant-details-modal.tsx:40-51 | Sets loading. Issues the realtime request and the combined request with the current range and window. |
| PlantDetails.DetailsView.CompleteFetch | components/dashboard/plant-details-modal.tsx:43-83 | When both calls succeed, the snapshot and the chosen history are stored, and the raw request is issued exactly when there are fewer than 5 points. After any failure the old state is kept. Loading always ends. |
| PlantDetails.DetailsView.OnMessage | components/dashboard/plant-details-modal.tsx:96-137 | Only the snapshot changes, as stated by KpisAfterMessage. |
| PlantDetails.SoilBadge | components/dashboard/plant-details-modal.tsx:221-222 | "Crítico" exactly when a snapshot exists with soil below 35, "Normal" otherwise. |
| PlantDetails.LowSoilTelemetryFlags | components/dashboard/plant-details-modal.tsx:221-222 | A live message with soil 20 makes the badge read Crítico. |
| PlantDetails.SoilBadgeBoundary | components/dashboard/plant-details-modal.tsx:221-222 | Soil at exactly 35 reads Normal. |
| CreateDeviceForm.Form.constructor | components/dashboard/create-device-form.tsx:13-19 | Starts not loading, with empty fields and the default user id. |
| CreateDeviceForm.Form.EditPlantId | components/dashboard/create-device-form.tsx:71 | Changes the plant id only. |
| CreateDeviceForm.Form.EditName | components/dashboard/create-device-form.tsx:87 | Changes the name only. |
| CreateDeviceForm.Form.EditOwnerEmail | components/dashboard/create-device-form.tsx:101 | Changes the owner email only. |
| CreateDeviceForm.Form.BeginSubmit | components/dashboard/create-device-form.tsx:21-29 | Sends the form exactly when plant id and name are both non-empty, and then starts loading. Otherwise nothing changes. |
| CreateDeviceForm.Form.FinishSubmit | components/dashboard/create-device-form.tsx:31-50 | Loading ends. Success resets the form; failure keeps what was typed. |
| CreateDeviceForm.Form.HandleSubmit | components/dashboard/create-device-form.tsx:21-51 | The whole submit: an invalid form sends nothing and changes nothing. A valid one sends the typed data and ends not loading, reset on success and kept on failure. |
| Wrappers.OrElse | components/dashboard/kpi-grid.tsx:231-232 | `a ?? d`: the value when present, the default only when absent. |
| Wrappers.OrIfFalsy | components/dashboard/smart-gauge.tsx:36-40 | `a \|\| d` on strings: the default when absent or empty. |

## Left out

- Rendering, styling, icons, layout and toasts: they only present values that the model computes.
- Floating point: numbers are reals, so results differ from IEEE doubles in the last digits. NaN and Infinity do not exist here.
- SmartGauge.ClampedPercentage: requires limitMin ≠ limitMax. Equal limits divide by zero in the source, giving NaN or Infinity; every caller passes distinct fixed limits.
- SmartGauge.Gauge: inherits the same requirement, limitMin ≠ limitMax.
- The gauge's and cards' text formatting with `toFixed`, and `formatDistanceToNow`: these are display strings only.
- Dashboard.ToFixed1: exact only within ±0.05. The binary rounding of doubles that `toFixed` performs is not modelled.
- Dashboard.Page.Tick: the random drift is a parameter. The source draws it from [−1, 1), and the model does not assume that range.
- The page's empty auto-watering branch: it has no effect in the source.
- The page's effect lifecycle: the interval is re-created on every change of devices or selection. The model states the resulting step only.
- ApiService.All: when several requests fail, the source rejects with whichever fails first in time. The model takes the first in device order.
- ApiService.SortCorrect: compares integer timestamps. Parsing the ISO timestamp strings into dates, and the comparator's NaN for unparseable dates, are not modelled.
- The base URL and percent-encoding of query values: requests carry paths and raw parameter values.
- ApiService.Call: a `fetch` that rejects, for example on a network failure, is not modelled. The source then passes on the rejection's own error message, which is neither the server's text nor the fixed message. Every modelled response has reached the server and carries an ok flag.
- JSON `null` in a realtime body: the model's `None` is `undefined` only. The grid tests `!== undefined` at kpi-grid.tsx:323 and :340, so a `null` health index or data quality still renders a ring, as 0 and Crítica. The model shows no ring in that case.
- JSON decoding of response bodies: each response carries an already decoded body. Responses whose JSON does not match the expected shape are not modelled.
- Console logging in the API client and the modal: it has no effect on state.
- The modal's WebSocket connection, reconnection and close: only the handling of one received message is modelled. Alert messages only raise a toast, which is left out.
- The modal's fetch races: a fetch superseded by a new device, range or window can still store its result, even under the new device's title. Such interleavings are not modelled, because each fetch is one begin/complete pair.
- The modal's open flag and a missing device: the effect does nothing while the modal is closed or has no device. The view model starts open with a device.
- The modal's command button (`handleCommand` and its sending flag): it is a loading flag around one API call, which `ApiService.Call` already covers.
- The form's `required` input attributes: the browser's own validation runs before the handler. The model checks the handler's test only.
- The form's `window` event that refreshes the device list: it is a notification to other components.
- The initial mock devices and notifications: the page's constructor takes them as parameters.
- The notifications list component: it is not part of this model.
- lib/types.ts declares a KPI record shape that the components do not use. The model follows the fields the components read.
