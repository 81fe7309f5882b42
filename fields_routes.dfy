/**
 * `GET /fields/fielddashboard{field_id}` and `PUT /fields/sensor/resetdate`: the field
 * dashboard assembled from the field's first sensor, and the mapping of every error inside
 * the handlers' `try` to HTTP 500.
 *
 * The MySQL lookups are inputs: the field lookup (None when there is no such field, a
 * failure when the query raises), the latest reset day by serial and by SensorId, and the
 * result of the reset-date update. `today` and `weekEnd` are the days the service reads
 * from the clock (today and seven days ahead).
 */
module FieldsRoutes {
  import opened Wrappers
  import opened Text
  import opened Ordering
  import opened Stats
  import opened AzureTables
  import opened GddSpec
  import opened GddProperties
  import opened Records

  /** `HTTPException(status_code, detail)`. */
  datatype HttpError = HttpError(status: int, detail: Text)

  const NotFound: HttpError := HttpError(404, "Field not found")
  const UpdateNotFound: HttpError := HttpError(404, "Sensor not found or update failed")
  const InternalServerError: HttpError := HttpError(500, "Internal Server Error")

  /** `GraphData(date, value)`. */
  datatype GraphData = GraphData(date: Text, value: real)

  /** `FieldSensorSchema`: listed for every sensor of the field. */
  datatype FieldSensor = FieldSensor(sensorId: Text, serialNo: Text, optimalGdd: int, sensorResetDate: Text, state: Text)

  /** `FieldDashboardSchema`; the optional figures and the lists have defaults None and []. */
  datatype FieldDashboard = FieldDashboard(
    fieldName: Text, altitude: int,
    currentGdd: Option<int>, optimalGdd: Option<int>, cuttingDateCalculated: Option<Text>,
    fieldSensors: seq<FieldSensor>,
    sevenDayTempForecast: seq<GraphData>, sevenDayGddForecast: seq<GraphData>, sevenDayHumidityForecast: seq<GraphData>)

  /** The list comprehensions `[GraphData(date=r["date"], value=r[...]) for r in records]`. */
  function Graph(records: seq<Dated<real>>): (gs: seq<GraphData>)
    ensures |gs| == |records|
    ensures forall i :: 0 <= i < |records| ==> gs[i].date == records[i].date && gs[i].value == records[i].value
  {
    seq(|records|, i requires 0 <= i < |records| => GraphData(records[i].date, records[i].value))
  }

  /** `FieldSensors`: one entry per sensor, each with the reset date looked up by its own SensorId. */
  function FieldSensors(sensors: seq<SensorRecord>, resetById: Text -> Text): (fs: seq<FieldSensor>)
    ensures |fs| == |sensors|
    ensures forall i :: 0 <= i < |sensors| ==>
      fs[i] == FieldSensor(sensors[i].sensorId, sensors[i].serialNo, sensors[i].optimalGdd, resetById(sensors[i].sensorId), sensors[i].state)
  {
    seq(|sensors|, i requires 0 <= i < |sensors| =>
      FieldSensor(sensors[i].sensorId, sensors[i].serialNo, sensors[i].optimalGdd, resetById(sensors[i].sensorId), sensors[i].state))
  }

  /** The dashboard of a field that has sensors: every figure from `sensors[0]` and its latest reset. */
  function SensorDashboard(w: Table, g: Table, field: FieldRecord, resetBySerial: Text -> Text, resetById: Text -> Text,
                           today: Text, weekEnd: Text): (d: FieldDashboard)
    requires field.sensors != []
    ensures d.fieldName == field.name && d.altitude == field.altitude
    ensures d.currentGdd.Some? && d.optimalGdd == Some(field.sensors[0].optimalGdd)
    ensures d.cuttingDateCalculated == field.sensors[0].cuttingDate
    ensures |d.fieldSensors| == |field.sensors|
  {
    var selected := field.sensors[0];
    var serial := selected.serialNo;
    var reset := resetBySerial(serial);
    FieldDashboard(
      field.name, field.altitude,
      Some(Ceil(SensorGdd(g, serial, reset, today))), Some(selected.optimalGdd), selected.cuttingDate,
      FieldSensors(field.sensors, resetById),
      Graph(DailySeries(RowsBetween(w, serial, today, weekEnd), AirTemperature)),
      Graph(Cumulative(CumulativeScan(g, serial, reset, weekEnd), reset, today, weekEnd)),
      Graph(DailySeries(RowsBetween(w, serial, today, weekEnd), RelativeHumidity)))
  }

  /** The body of the handler's `try`: 404 for a missing field, the bare dashboard for a field without sensors. */
  function FieldDashboardBody(w: Table, g: Table, lookup: Result<Option<FieldRecord>, Text>, resetBySerial: Text -> Text,
                              resetById: Text -> Text, today: Text, weekEnd: Text): (r: Result<FieldDashboard, HttpError>)
    ensures r.Success? <==> lookup.Success? && lookup.value.Some?
    ensures lookup == Success(None) ==> r == Failure(NotFound)
    ensures r.Success? ==> r.value.fieldName == lookup.value.value.name && r.value.altitude == lookup.value.value.altitude
    ensures r.Success? && lookup.value.value.sensors == [] ==> r.value.fieldSensors == [] && r.value.currentGdd.None?
  {
    match lookup
    case Failure(reason) => Failure(HttpError(500, reason))
    case Success(None) => Failure(NotFound)
    case Success(Some(field)) =>
      if field.sensors == [] then Success(FieldDashboard(field.name, field.altitude, None, None, None, [], [], [], []))
      else Success(SensorDashboard(w, g, field, resetBySerial, resetById, today, weekEnd))
  }

  /** `except Exception: raise HTTPException(status_code=500, ...)`, which catches the 404 as well. */
  function CatchAll<T>(r: Result<T, HttpError>): (c: Result<T, HttpError>)
    ensures c.Success? <==> r.Success?
    ensures c.Success? ==> c.value == r.value
    ensures c.Failure? ==> c.error == InternalServerError
  {
    if r.Success? then r else Failure(InternalServerError)
  }

  /** `read_farm_dashboard` of the fields router. */
  function ReadFieldDashboard(w: Table, g: Table, lookup: Result<Option<FieldRecord>, Text>, resetBySerial: Text -> Text,
                              resetById: Text -> Text, today: Text, weekEnd: Text): (r: Result<FieldDashboard, HttpError>)
    ensures r.Failure? <==> !(lookup.Success? && lookup.value.Some?)
    ensures r.Failure? ==> r.error == InternalServerError
    ensures r.Success? ==> r.value.fieldName == lookup.value.value.name && r.value.altitude == lookup.value.value.altitude
  {
    CatchAll(FieldDashboardBody(w, g, lookup, resetBySerial, resetById, today, weekEnd))
  }

  /** `update_sensor_reset_date`: `true` when the update succeeded, 500 for a false result or a raised error. */
  function UpdateSensorResetDate(update: Result<bool, Text>): (r: Result<bool, HttpError>)
    ensures r.Success? <==> update == Success(true)
    ensures r.Success? ==> r.value
    ensures r.Failure? ==> r.error == InternalServerError
  {
    CatchAll(match update
      case Failure(reason) => Failure(HttpError(500, reason))
      case Success(success) => if !success then Failure(UpdateNotFound) else Success(success))
  }

  // ---------------------------------------------------------------------------
  // Properties

  /** A missing field raises 404 inside the `try`, and the client receives 500. */
  lemma MissingFieldIs500(w: Table, g: Table, resetBySerial: Text -> Text, resetById: Text -> Text, today: Text, weekEnd: Text)
    ensures FieldDashboardBody(w, g, Success(None), resetBySerial, resetById, today, weekEnd) == Failure(NotFound)
    ensures ReadFieldDashboard(w, g, Success(None), resetBySerial, resetById, today, weekEnd) == Failure(InternalServerError)
  {
  }

  /** A field without sensors shows its name and altitude and keeps every other default. */
  lemma NoSensorsDashboard(w: Table, g: Table, field: FieldRecord, resetBySerial: Text -> Text, resetById: Text -> Text,
                           today: Text, weekEnd: Text)
    requires field.sensors == []
    ensures ReadFieldDashboard(w, g, Success(Some(field)), resetBySerial, resetById, today, weekEnd)
            == Success(FieldDashboard(field.name, field.altitude, None, None, None, [], [], [], []))
  {
  }

  /**
   * Every figure of a field with sensors, all but the sensor list, depends on the first
   * sensor only: two fields with the same name, altitude and first sensor show the same.
   */
  lemma FirstSensorDecides(w: Table, g: Table, a: FieldRecord, b: FieldRecord, resetBySerial: Text -> Text,
                           resetById: Text -> Text, today: Text, weekEnd: Text)
    requires a.sensors != [] && b.sensors != []
    requires a.name == b.name && a.altitude == b.altitude && a.sensors[0] == b.sensors[0]
    ensures var da := ReadFieldDashboard(w, g, Success(Some(a)), resetBySerial, resetById, today, weekEnd).value;
      var db := ReadFieldDashboard(w, g, Success(Some(b)), resetBySerial, resetById, today, weekEnd).value;
      da.(fieldSensors := []) == db.(fieldSensors := [])
  {
  }

  /**
   * The figures of a field with sensors: the current GDD rounded up from the first sensor's
   * sum since its latest reset, its optimal GDD, its stored cutting date (not recomputed),
   * and one sensor entry per sensor with that sensor's own reset date.
   */
  lemma SensorFigures(w: Table, g: Table, field: FieldRecord, resetBySerial: Text -> Text, resetById: Text -> Text,
                      today: Text, weekEnd: Text)
    requires field.sensors != []
    ensures var s := field.sensors[0];
      var d := ReadFieldDashboard(w, g, Success(Some(field)), resetBySerial, resetById, today, weekEnd).value;
      && d.currentGdd.Some?
      && SensorGdd(g, s.serialNo, resetBySerial(s.serialNo), today) <= d.currentGdd.value as real
      && (d.currentGdd.value as real) < SensorGdd(g, s.serialNo, resetBySerial(s.serialNo), today) + 1.0
      && d.optimalGdd == Some(s.optimalGdd)
      && d.cuttingDateCalculated == s.cuttingDate
      && |d.fieldSensors| == |field.sensors|
      && forall i :: 0 <= i < |field.sensors| ==>
           d.fieldSensors[i].sensorId == field.sensors[i].sensorId
           && d.fieldSensors[i].sensorResetDate == resetById(field.sensors[i].sensorId)
  {
  }

  /**
   * The GDD graph is in ascending date order, lies in [today, weekEnd], and each point is a
   * record of the first sensor with the sum of all records up to it since the reset.
   */
  lemma GddGraphInWindow(w: Table, g: Table, field: FieldRecord, resetBySerial: Text -> Text, resetById: Text -> Text,
                         today: Text, weekEnd: Text)
    requires field.sensors != []
    ensures var gs := ReadFieldDashboard(w, g, Success(Some(field)), resetBySerial, resetById, today, weekEnd).value.sevenDayGddForecast;
      && (forall i, j :: 0 <= i < j < |gs| ==> LexLe(gs[i].date, gs[j].date))
      && (forall i :: 0 <= i < |gs| ==> InWindow(gs[i].date, today, weekEnd))
  {
    var serial := field.sensors[0].serialNo;
    var reset := resetBySerial(serial);
    CumulativeForecastSums(g, serial, reset, today, weekEnd);
  }

  /**
   * With timestamp row keys, the temperature and humidity graphs have one point per day in
   * strictly ascending order, each day before `weekEnd`.
   */
  lemma WeatherGraphsBeforeWeekEnd(w: Table, g: Table, field: FieldRecord, resetBySerial: Text -> Text, resetById: Text -> Text,
                                   today: Text, weekEnd: Text)
    requires field.sensors != []
    requires forall k :: k in Partition(w, field.sensors[0].serialNo) ==> ' ' in k
    ensures var d := ReadFieldDashboard(w, g, Success(Some(field)), resetBySerial, resetById, today, weekEnd).value;
      && (forall i, j :: 0 <= i < j < |d.sevenDayTempForecast| ==> LexLt(d.sevenDayTempForecast[i].date, d.sevenDayTempForecast[j].date))
      && (forall i :: 0 <= i < |d.sevenDayTempForecast| ==> LexLt(d.sevenDayTempForecast[i].date, weekEnd))
      && (forall i :: 0 <= i < |d.sevenDayHumidityForecast| ==> LexLt(d.sevenDayHumidityForecast[i].date, weekEnd))
  {
    var serial := field.sensors[0].serialNo;
    var rows := RowsBetween(w, serial, today, weekEnd);
    var d := ReadFieldDashboard(w, g, Success(Some(field)), resetBySerial, resetById, today, weekEnd).value;
    assert d.sevenDayTempForecast == Graph(DailySeries(rows, AirTemperature));
    assert d.sevenDayHumidityForecast == Graph(DailySeries(rows, RelativeHumidity));
    SevenDayEndsBeforeWeekEnd(w, serial, today, weekEnd, AirTemperature);
    SevenDayEndsBeforeWeekEnd(w, serial, today, weekEnd, RelativeHumidity);
    GraphAscendingBefore(DailySeries(rows, AirTemperature), weekEnd);
    GraphAscendingBefore(DailySeries(rows, RelativeHumidity), weekEnd);
  }

  /** A graph keeps the order of its records' dates and their bound. */
  lemma GraphAscendingBefore(records: seq<Dated<real>>, weekEnd: Text)
    requires Ascending(Dates(records))
    requires forall i :: 0 <= i < |records| ==> LexLt(records[i].date, weekEnd)
    ensures forall i, j :: 0 <= i < j < |Graph(records)| ==> LexLt(Graph(records)[i].date, Graph(records)[j].date)
    ensures forall i :: 0 <= i < |Graph(records)| ==> LexLt(Graph(records)[i].date, weekEnd)
  {
    var gs := Graph(records);
    forall i, j | 0 <= i < j < |gs| ensures LexLt(gs[i].date, gs[j].date) {
      assert Dates(records)[i] == records[i].date && Dates(records)[j] == records[j].date;
    }
  }

  /** A reset-date update that finds no sensor raises 404 inside the `try`, and the client receives 500. */
  lemma FailedUpdateIs500()
    ensures UpdateSensorResetDate(Success(false)) == Failure(InternalServerError)
  {
  }
}
