/**
 * The entities shared by the dashboard's views, as the code uses them.
 * Times that the views compare are milliseconds since the epoch (`int`);
 * times that are only displayed stay strings.
 */
module Types {
  import opened Wrappers

  /**
   * The KPI snapshot the views read: current readings plus the optional
   * backend-computed health index and data-quality score.
   */
  datatype Kpi = Kpi(
    temp: real,
    soilHum: real,
    ambientHum: real,
    light: real,
    pumpOn: bool,
    timestamp: string,
    healthIndex: Option<real>,
    dataQuality: Option<real>)

  /** One point of the combined history series. */
  datatype HistoryPoint = HistoryPoint(
    time: string,
    temp: Option<real>,
    ambientHum: Option<real>,
    soilHum: Option<real>,
    light: Option<real>)

  /**
   * A registered device as the backend describes it. `lastDataReceived` is
   * `None` when the field is absent, empty or not a date: the online test
   * treats all three alike.
   */
  datatype PlantDevice = PlantDevice(
    plantId: string,
    name: string,
    isActive: bool,
    lastDataReceived: Option<int>,
    minHumidity: Option<real>,
    maxHumidity: Option<real>,
    minSoilHumidity: Option<real>,
    maxSoilHumidity: Option<real>,
    minTempC: Option<real>,
    maxTempC: Option<real>,
    minLightLux: Option<real>,
    maxLightLux: Option<real>)

  datatype Severity = Critica | Alerta | Recomendacion | Info

  /** A backend alert; `timestamp` is the parsed time in milliseconds. */
  datatype PlantAlert = PlantAlert(
    plantId: string,
    severity: Severity,
    message: string,
    metric: string,
    value: real,
    timestamp: int,
    isRead: bool)

  datatype DeviceCommand = Riego | Luz | Stop

  datatype Mode = Auto | Manual

  /** A device of the simulated dashboard. */
  datatype DeviceStatus = DeviceStatus(
    id: string,
    name: string,
    isOnline: bool,
    pumpActive: bool,
    mode: Mode,
    lastSeen: string,
    humidity: real,
    temperature: real,
    battery: real,
    signalStrength: real)

  datatype NotificationKind = InfoKind | WarningKind | ErrorKind | SuccessKind

  datatype Notification = Notification(
    id: string,
    title: string,
    message: string,
    kind: NotificationKind,
    timestamp: string,
    read: bool)

  /** The body of a device-registration request. */
  datatype CreateDeviceRequest = CreateDeviceRequest(
    plantId: string,
    name: string,
    userId: string,
    ownerEmail: string)
}
