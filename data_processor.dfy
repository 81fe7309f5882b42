/**
 * The data processor: `on_message` decodes one MQTT payload `serial,timestamp,temperature`
 * into a `weatherdata` entity and stores it, and one pass of `fetch_weather_forecast`
 * turns each sensor's weather forecast into rows and runs the GDD pipeline for it.
 *
 * MQTT, HTTP and the MySQL writes are not performed: a payload arrives already decoded
 * from UTF-8 (None when it is not UTF-8), each sensor's forecast response is an input
 * indexed by the sensor's position in the pass, the latest reset day per serial is an
 * input, and the cutting-date updates the pass would write are its result.
 */
module DataProcessor {
  import opened Wrappers
  import opened Text
  import opened AzureTables
  import opened GddSpec
  import opened TableService
  import opened Records
  import opened Formats
  import opened Seqs

  // ---------------------------------------------------------------------------
  // on_message

  /** Why a payload is rejected; every kind is a ValueError that `on_message` logs. */
  datatype DecodeError = NotUtf8 | FieldCount(found: nat) | BadTimestamp(text: Text) | BadNumber(text: Text)

  /**
   * The decoding of `on_message`: exactly three comma-separated fields, the timestamp
   * parsed before the number, and an entity keyed by the serial and the timestamp
   * re-rendered as `%Y-%m-%d %H:%M:%S`, carrying only `temperature_actual`.
   */
  function DecodeMessage(f: Formats, body: Option<Text>): (r: Result<Entity, DecodeError>)
    ensures body.None? ==> r == Failure(NotUtf8)
    ensures body.Some? && Count(body.value, ',') != 2 ==> r.Failure?
    ensures r.Success? <==>
      && body.Some? && |Split(body.value, ',')| == 3
      && f.parseTimestamp(Split(body.value, ',')[1]).Some?
      && f.parseNumber(Split(body.value, ',')[2]).Some?
    ensures r.Success? ==>
      var parts := Split(body.value, ',');
      && r.value.partitionKey == parts[0] && ',' !in r.value.partitionKey
      && r.value.rowKey == f.formatTimestamp(f.parseTimestamp(parts[1]).value)
      && r.value.props == map[TemperatureActual := f.parseNumber(parts[2]).value]
  {
    if body.None? then Failure(NotUtf8)
    else
      var parts := Split(body.value, ',');
      SplitLength(body.value, ',');
      if |parts| != 3 then Failure(FieldCount(|parts|))
      else
        match f.parseTimestamp(parts[1])
        case None => Failure(BadTimestamp(parts[1]))
        case Some(t) =>
          match f.parseNumber(parts[2])
          case None => Failure(BadNumber(parts[2]))
          case Some(x) => Success(Entity(parts[0], f.formatTimestamp(t), map[TemperatureActual := x]))
  }

  /**
   * `on_message`: a payload that decodes is merge-upserted into `weatherdata`; any other
   * payload is logged and dropped, and the call returns normally either way.
   */
  method OnMessage(svc: AzureTableService, f: Formats, body: Option<Text>) returns (stored: bool)
    modifies svc
    ensures stored <==> DecodeMessage(f, body).Success?
    ensures stored ==> svc.weather == Upsert(old(svc.weather), DecodeMessage(f, body).value)
    ensures !stored ==> svc.weather == old(svc.weather)
    ensures svc.gdd == old(svc.gdd)
  {
    var r := DecodeMessage(f, body);
    if r.Success? {
      svc.StoreEntity(WeatherData, r.value);
      stored := true;
    } else {
      stored := false;
    }
  }

  // ---------------------------------------------------------------------------
  // fetch_weather_forecast

  /** One entry of the response's `properties.timeseries`: its `time` and its `data.instant.details`, when present. */
  datatype ForecastItem = ForecastItem(time: Option<Text>, details: Option<Attributes>)

  /** Why a sensor's step stops: the HTTP request, a missing JSON key, or any other error. */
  datatype SensorError = RequestFailed(reason: Text) | MissingKey(key: Text) | Unexpected(reason: Text)

  /** The write `update_sensor_cutting_date(serial, date)` that ends a sensor's step. */
  datatype CuttingUpdate = CuttingUpdate(serial: Text, date: Option<Text>)

  const PartitionKeyName: Text := "PartitionKey"
  const RowKeyName: Text := "RowKey"

  /**
   * One timeseries item as a `weatherdata` row: `time` with `Z` replaced by `+00:00`, parsed
   * and re-rendered as the RowKey, the serial as PartitionKey, and every instant detail as
   * a property. The item's lookups fail in source order: `time`, its parse, then the details.
   */
  function ForecastRow(f: Formats, serial: Text, item: ForecastItem): (r: Result<Entity, SensorError>)
    ensures r.Success? <==> item.time.Some? && f.parseIso(Replace(item.time.value, 'Z', "+00:00")).Some? && item.details.Some?
    ensures r.Success? ==> r.value.partitionKey == serial
                           && r.value.rowKey == f.formatTimestamp(f.parseIso(Replace(item.time.value, 'Z', "+00:00")).value)
                           && (forall k :: k in r.value.props <==> k in item.details.value && k != PartitionKeyName && k != RowKeyName)
                           && forall k :: k in r.value.props ==> r.value.props[k] == item.details.value[k]
  {
    if item.time.None? then Failure(MissingKey("time"))
    else
      match f.parseIso(Replace(item.time.value, 'Z', "+00:00"))
      case None => Failure(Unexpected("fromisoformat"))
      case Some(t) =>
        if item.details.None? then Failure(MissingKey("details"))
        else Success(Entity(serial, f.formatTimestamp(t), item.details.value - {PartitionKeyName, RowKeyName}))
  }

  /** The rows of all items, one per item in order, or the error of the first item that fails. */
  function ForecastRows(f: Formats, serial: Text, items: seq<ForecastItem>): (r: Result<seq<Entity>, SensorError>)
    ensures r.Success? <==> forall i :: 0 <= i < |items| ==> ForecastRow(f, serial, items[i]).Success?
    ensures r.Success? ==> |r.value| == |items| && forall i :: 0 <= i < |items| ==> ForecastRow(f, serial, items[i]) == Success(r.value[i])
  {
    if items == [] then Success([])
    else
      var n := |items| - 1;
      match ForecastRows(f, serial, items[..n])
      case Failure(e) =>
        assert !ForecastRow(f, serial, items[..n][0]).Success? || exists i :: 0 <= i < n && !ForecastRow(f, serial, items[..n][i]).Success?;
        Failure(e)
      case Success(rows) =>
        assert forall i :: 0 <= i < n ==> items[..n][i] == items[i];
        match ForecastRow(f, serial, items[n])
        case Failure(e) => Failure(e)
        case Success(row) => Success(rows + [row])
  }

  /** The `for item in ...timeseries` loop: each item becomes a row appended to `forecast_data`. */
  method BuildForecastRows(f: Formats, serial: Text, items: seq<ForecastItem>) returns (r: Result<seq<Entity>, SensorError>)
    ensures r == ForecastRows(f, serial, items)
  {
    var rows: seq<Entity> := [];
    var i := 0;
    while i < |items|
      invariant 0 <= i <= |items|
      invariant ForecastRows(f, serial, items[..i]) == Success(rows)
    {
      assert items[..i + 1][..i] == items[..i];
      var row := ForecastRow(f, serial, items[i]);
      if row.Failure? {
        PrefixFailure(f, serial, items, i + 1);
        return Failure(row.error);
      }
      rows := rows + [row.value];
      i := i + 1;
    }
    assert items[..i] == items;
    return Success(rows);
  }

  /** Once a prefix of the items fails, the whole list fails with the same error. */
  lemma {:induction false} PrefixFailure(f: Formats, serial: Text, items: seq<ForecastItem>, k: nat)
    requires k <= |items|
    requires ForecastRows(f, serial, items[..k]).Failure?
    ensures ForecastRows(f, serial, items) == ForecastRows(f, serial, items[..k])
    decreases |items| - k
  {
    if k < |items| {
      assert items[..k + 1][..k] == items[..k];
      PrefixFailure(f, serial, items, k + 1);
    } else {
      assert items[..k] == items;
    }
  }

  /** The two tables as values. */
  datatype Tables = Tables(weather: Table, gdd: Table)

  /**
   * After a sensor's rows: the rows saved when there are any, then `add_gdd_forecast`, then
   * `add_gdd_actual`, both reading the weather table as saved.
   */
  function AfterRows(t: Tables, serial: Text, rows: seq<Entity>): (r: Tables)
    ensures rows == [] ==> r.weather == t.weather
    ensures r.weather == UpsertAll(t.weather, rows)
  {
    var w := if rows == [] then t.weather else UpsertAll(t.weather, rows);
    var g1 := WithDailyMeans(t.gdd, serial, GddForecast, DailyMeans(WeatherRows(w, serial), AirTemperature));
    var g2 := WithDailyMeans(g1, serial, GddActual, DailyMeans(WeatherRows(w, serial), TemperatureActual));
    Tables(w, g2)
  }

  /** A sensor's step as one value: the new tables and the cutting-date write, or the error. */
  datatype StepResult = StepResult(tables: Tables, update: Result<CuttingUpdate, SensorError>)

  /**
   * The body of the per-sensor `try`: a failed request or a malformed item ends the step
   * with nothing saved; otherwise the tables advance as `AfterRows` says and the cutting
   * date is computed on the new `gdddata` from the sensor's latest reset day.
   */
  function SensorStep(t: Tables, f: Formats, s: SensorRecord, response: Result<seq<ForecastItem>, SensorError>, resetDay: Text): (r: StepResult)
    ensures r.update.Failure? ==> r.tables == t
    ensures r.update.Success? ==> r.update.value.serial == s.serialNo
  {
    if response.Failure? then StepResult(t, Failure(response.error))
    else
      match ForecastRows(f, s.serialNo, response.value)
      case Failure(e) => StepResult(t, Failure(e))
      case Success(rows) =>
        var t' := AfterRows(t, s.serialNo, rows);
        StepResult(t', Success(CuttingUpdate(s.serialNo, CrossingDate(CuttingScan(t'.gdd, s.serialNo, resetDay), s.optimalGdd as real))))
  }

  /** The per-sensor `try` block of `fetch_weather_forecast`. */
  method ProcessSensor(svc: AzureTableService, f: Formats, s: SensorRecord, response: Result<seq<ForecastItem>, SensorError>, resetDay: Text)
    returns (update: Result<CuttingUpdate, SensorError>)
    modifies svc
    ensures StepResult(Tables(svc.weather, svc.gdd), update) == SensorStep(Tables(old(svc.weather), old(svc.gdd)), f, s, response, resetDay)
  {
    if response.Failure? {
      return Failure(response.error);
    }
    var rows := BuildForecastRows(f, s.serialNo, response.value);
    if rows.Failure? {
      return Failure(rows.error);
    }
    if rows.value != [] {
      svc.SaveWeatherDataList(rows.value);
    }
    svc.AddGddForecast(s.serialNo);
    svc.AddGddActual(s.serialNo);
    var date := svc.CalculateCuttingDate(s.serialNo, s.optimalGdd, resetDay);
    update := Success(CuttingUpdate(s.serialNo, date));
  }

  /** The state of a pass after some sensors: the tables and the cutting-date writes so far. */
  datatype Pass = Pass(tables: Tables, updates: seq<CuttingUpdate>)

  /** The pass after one more sensor's step: its write is kept when the step succeeded. */
  function Advance(p: Pass, f: Formats, s: SensorRecord, response: Result<seq<ForecastItem>, SensorError>, resetDay: Text): (q: Pass)
    ensures |q.updates| <= |p.updates| + 1
  {
    var step := SensorStep(p.tables, f, s, response, resetDay);
    Pass(step.tables, p.updates + if step.update.Success? then [step.update.value] else [])
  }

  /** The pass over `ss`, the k-th sensor getting response `fetch(k)`. */
  function RunPass(t: Tables, f: Formats, ss: seq<SensorRecord>, fetch: nat -> Result<seq<ForecastItem>, SensorError>,
                   resetDay: Text -> Text): (p: Pass)
    ensures |p.updates| <= |ss|
    ensures forall i :: 0 <= i < |p.updates| ==> exists j :: 0 <= j < |ss| && p.updates[i].serial == ss[j].serialNo
  {
    if ss == [] then Pass(t, [])
    else
      var n := |ss| - 1;
      Advance(RunPass(t, f, ss[..n], fetch, resetDay), f, ss[n], fetch(n), resetDay(ss[n].serialNo))
  }

  lemma RunPassSnoc(t: Tables, f: Formats, ss: seq<SensorRecord>, s: SensorRecord,
                    fetch: nat -> Result<seq<ForecastItem>, SensorError>, resetDay: Text -> Text)
    ensures RunPass(t, f, ss + [s], fetch, resetDay) == Advance(RunPass(t, f, ss, fetch, resetDay), f, s, fetch(|ss|), resetDay(s.serialNo))
  {
    assert (ss + [s])[..|ss|] == ss;
  }

  /** Advancing the pass over `prefix` by the next sensor is the pass over `prefix + [s]`. */
  lemma PassStep(t0: Tables, f: Formats, prefix: seq<SensorRecord>, s: SensorRecord,
                 fetch: nat -> Result<seq<ForecastItem>, SensorError>, resetDay: Text -> Text, p: Pass, q: Pass, k: nat)
    requires p == RunPass(t0, f, prefix, fetch, resetDay) && k == |prefix|
    requires q == Advance(p, f, s, fetch(k), resetDay(s.serialNo))
    ensures q == RunPass(t0, f, prefix + [s], fetch, resetDay)
  {
    RunPassSnoc(t0, f, prefix, s, fetch, resetDay);
  }

  /** A step's result, with its write appended when there is one, is the advanced pass. */
  lemma StepAdvances(before: Pass, after: Tables, update: Result<CuttingUpdate, SensorError>, f: Formats, s: SensorRecord,
                     response: Result<seq<ForecastItem>, SensorError>, resetDay: Text)
    requires StepResult(after, update) == SensorStep(before.tables, f, s, response, resetDay)
    ensures Advance(before, f, s, response, resetDay) == Pass(after, before.updates + if update.Success? then [update.value] else [])
  {
  }

  /** One sensor's `try` block followed by keeping its write, as one step of the pass. */
  method AdvanceSensor(svc: AzureTableService, f: Formats, s: SensorRecord, response: Result<seq<ForecastItem>, SensorError>,
                       resetDay: Text, updates0: seq<CuttingUpdate>)
    returns (updates: seq<CuttingUpdate>)
    modifies svc
    ensures Pass(Tables(svc.weather, svc.gdd), updates) == Advance(Pass(Tables(old(svc.weather), old(svc.gdd)), updates0), f, s, response, resetDay)
  {
    ghost var before := Pass(Tables(svc.weather, svc.gdd), updates0);
    var update := ProcessSensor(svc, f, s, response, resetDay);
    StepAdvances(before, Tables(svc.weather, svc.gdd), update, f, s, response, resetDay);
    updates := updates0;
    if update.Success? {
      updates := updates + [update.value];
    }
  }

  /** The step for the sensor at position `k` of the pass, continuing the pass over `prefix`. */
  method PassSensor(svc: AzureTableService, f: Formats, s: SensorRecord, ghost t0: Tables, ghost prefix: seq<SensorRecord>, k: nat,
                    updates0: seq<CuttingUpdate>, fetch: nat -> Result<seq<ForecastItem>, SensorError>, resetDay: Text -> Text)
    returns (updates: seq<CuttingUpdate>)
    requires k == |prefix|
    requires Pass(Tables(svc.weather, svc.gdd), updates0) == RunPass(t0, f, prefix, fetch, resetDay)
    modifies svc
    ensures Pass(Tables(svc.weather, svc.gdd), updates) == RunPass(t0, f, prefix + [s], fetch, resetDay)
  {
    ghost var p := Pass(Tables(svc.weather, svc.gdd), updates0);
    updates := AdvanceSensor(svc, f, s, fetch(k), resetDay(s.serialNo), updates0);
    PassStep(t0, f, prefix, s, fetch, resetDay, p, Pass(Tables(svc.weather, svc.gdd), updates), k);
  }

  /** The inner `for sensor in field.sensors` loop, continuing a pass that has done `done`. */
  method ProcessFieldSensors(svc: AzureTableService, f: Formats, sensors: seq<SensorRecord>, ghost t0: Tables,
                             ghost done: seq<SensorRecord>, base: nat, updates0: seq<CuttingUpdate>,
                             fetch: nat -> Result<seq<ForecastItem>, SensorError>, resetDay: Text -> Text)
    returns (updates: seq<CuttingUpdate>)
    requires base == |done|
    requires Pass(Tables(svc.weather, svc.gdd), updates0) == RunPass(t0, f, done, fetch, resetDay)
    modifies svc
    ensures Pass(Tables(svc.weather, svc.gdd), updates) == RunPass(t0, f, done + sensors, fetch, resetDay)
  {
    updates := updates0;
    var j := 0;
    PrefixEnds(done, sensors);
    while j < |sensors|
      invariant 0 <= j <= |sensors|
      invariant Pass(Tables(svc.weather, svc.gdd), updates) == RunPass(t0, f, done + sensors[..j], fetch, resetDay)
    {
      updates := PassSensor(svc, f, sensors[j], t0, done + sensors[..j], base + j, updates, fetch, resetDay);
      PrefixSnoc(done, sensors, j);
      j := j + 1;
    }
  }

  /**
   * One pass of `fetch_weather_forecast`'s `while True` loop: every sensor of every field in
   * order, each in its own `try`, so a failing sensor is logged and the next one runs.
   */
  method FetchWeatherForecast(svc: AzureTableService, f: Formats, fields: seq<FieldRecord>,
                              fetch: nat -> Result<seq<ForecastItem>, SensorError>, resetDay: Text -> Text)
    returns (updates: seq<CuttingUpdate>)
    modifies svc
    ensures Pass(Tables(svc.weather, svc.gdd), updates) == RunPass(Tables(old(svc.weather), old(svc.gdd)), f, AllSensors(fields), fetch, resetDay)
  {
    updates := [];
    ghost var t0 := Tables(svc.weather, svc.gdd);
    var count := 0;
    var i := 0;
    while i < |fields|
      invariant 0 <= i <= |fields|
      invariant count == |AllSensors(fields[..i])|
      invariant Pass(Tables(svc.weather, svc.gdd), updates) == RunPass(t0, f, AllSensors(fields[..i]), fetch, resetDay)
    {
      assert fields[..i + 1][..i] == fields[..i];
      assert AllSensors(fields[..i + 1]) == AllSensors(fields[..i]) + fields[i].sensors;
      updates := ProcessFieldSensors(svc, f, fields[i].sensors, t0, AllSensors(fields[..i]), count, updates, fetch, resetDay);
      count := count + |fields[i].sensors|;
      i := i + 1;
    }
    assert fields[..i] == fields;
  }
}
