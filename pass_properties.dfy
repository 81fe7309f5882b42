/**
 * Properties of one pass of `fetch_weather_forecast`: a failing sensor changes nothing, the
 * cutting-date writes name the succeeding sensors in order, and each sensor's cutting date
 * is read from a `gdddata` that already holds both of that sensor's daily series.
 */
module PassProperties {
  import opened Wrappers
  import opened Text
  import opened AzureTables
  import opened GddSpec
  import opened GddProperties
  import opened Records
  import opened Formats
  import opened DataProcessor

  /** A sensor whose response cannot be turned into rows leaves the pass exactly as it was. */
  lemma FailedSensorChangesNothing(p: Pass, f: Formats, s: SensorRecord, response: Result<seq<ForecastItem>, SensorError>, resetDay: Text)
    requires response.Failure? || ForecastRows(f, s.serialNo, response.value).Failure?
    ensures Advance(p, f, s, response, resetDay) == p
  {
    assert p.updates + [] == p.updates;
  }

  /** A pass in which every request fails writes nothing and leaves both tables as they were. */
  lemma {:induction false} PassAllFail(t: Tables, f: Formats, ss: seq<SensorRecord>,
                                       fetch: nat -> Result<seq<ForecastItem>, SensorError>, resetDay: Text -> Text)
    requires forall k :: 0 <= k < |ss| ==> fetch(k).Failure?
    ensures RunPass(t, f, ss, fetch, resetDay) == Pass(t, [])
  {
    if ss != [] {
      var n := |ss| - 1;
      PassAllFail(t, f, ss[..n], fetch, resetDay);
      FailedSensorChangesNothing(Pass(t, []), f, ss[n], fetch(n), resetDay(ss[n].serialNo));
    }
  }

  /** The step for `s` ends in a cutting-date write: the request succeeded and every item became a row. */
  predicate Succeeds(f: Formats, s: SensorRecord, response: Result<seq<ForecastItem>, SensorError>)
  {
    response.Success? && ForecastRows(f, s.serialNo, response.value).Success?
  }

  /** Whether a step succeeds depends only on the response, not on the tables. */
  lemma StepSucceeds(t: Tables, f: Formats, s: SensorRecord, response: Result<seq<ForecastItem>, SensorError>, resetDay: Text)
    ensures SensorStep(t, f, s, response, resetDay).update.Success? <==> Succeeds(f, s, response)
  {
  }

  /** The serials of the succeeding sensors, in pass order. */
  function SucceedingSerials(f: Formats, ss: seq<SensorRecord>, fetch: nat -> Result<seq<ForecastItem>, SensorError>): (r: seq<Text>)
    ensures |r| <= |ss|
  {
    if ss == [] then []
    else
      var n := |ss| - 1;
      SucceedingSerials(f, ss[..n], fetch) + if Succeeds(f, ss[n], fetch(n)) then [ss[n].serialNo] else []
  }

  function Serials(us: seq<CuttingUpdate>): (r: seq<Text>)
    ensures |r| == |us|
    ensures forall i :: 0 <= i < |us| ==> r[i] == us[i].serial
  {
    seq(|us|, i requires 0 <= i < |us| => us[i].serial)
  }

  /**
   * The pass writes one cutting date per sensor whose response yields rows, for that
   * sensor's serial, in the order the sensors are visited.
   */
  lemma {:induction false} PassWritesSucceeding(t: Tables, f: Formats, ss: seq<SensorRecord>,
                                                fetch: nat -> Result<seq<ForecastItem>, SensorError>, resetDay: Text -> Text)
    ensures Serials(RunPass(t, f, ss, fetch, resetDay).updates) == SucceedingSerials(f, ss, fetch)
  {
    if ss != [] {
      var n := |ss| - 1;
      PassWritesSucceeding(t, f, ss[..n], fetch, resetDay);
      AdvanceSerials(RunPass(t, f, ss[..n], fetch, resetDay), f, ss[n], fetch(n), resetDay(ss[n].serialNo));
    }
  }

  /** One step adds the sensor's serial to the writes exactly when the step succeeds. */
  lemma AdvanceSerials(p: Pass, f: Formats, s: SensorRecord, response: Result<seq<ForecastItem>, SensorError>, resetDay: Text)
    ensures Serials(Advance(p, f, s, response, resetDay).updates) == Serials(p.updates) + if Succeeds(f, s, response) then [s.serialNo] else []
  {
    StepSucceeds(p.tables, f, s, response, resetDay);
    var step := SensorStep(p.tables, f, s, response, resetDay);
    AppendUpdateSerials(p.updates, step.update, s.serialNo, Succeeds(f, s, response));
  }

  lemma AppendUpdateSerials(us: seq<CuttingUpdate>, u: Result<CuttingUpdate, SensorError>, serial: Text, ok: bool)
    requires u.Success? <==> ok
    requires u.Success? ==> u.value.serial == serial
    ensures Serials(us + if u.Success? then [u.value] else []) == Serials(us) + if ok then [serial] else []
  {
    var added := if u.Success? then [u.value] else [];
    assert Serials(us + added) == Serials(us) + Serials(added);
  }

  /** When every sensor's response yields rows, the writes are the sensors' serials one to one. */
  lemma {:induction false} AllSucceedingSerials(f: Formats, ss: seq<SensorRecord>, fetch: nat -> Result<seq<ForecastItem>, SensorError>)
    requires forall k :: 0 <= k < |ss| ==> Succeeds(f, ss[k], fetch(k))
    ensures |SucceedingSerials(f, ss, fetch)| == |ss|
    ensures forall i :: 0 <= i < |ss| ==> SucceedingSerials(f, ss, fetch)[i] == ss[i].serialNo
  {
    if ss != [] {
      var n := |ss| - 1;
      AllSucceedingSerials(f, ss[..n], fetch);
    }
  }

  /**
   * After a sensor's rows the `gdddata` partition of the sensor holds, for every day with
   * weather readings, GddForecast as that day's mean air temperature and GddActual as its
   * mean measured temperature.
   */
  lemma AfterRowsWritesBothSeries(t: Tables, serial: Text, rows: seq<Entity>, d: Text)
    ensures var w := AfterRows(t, serial, rows).weather;
      var g := AfterRows(t, serial, rows).gdd;
      var forecast := DailyMeans(WeatherRows(w, serial), AirTemperature);
      var actual := DailyMeans(WeatherRows(w, serial), TemperatureActual);
      && (d in forecast ==> d in Partition(g, serial) && Get(Partition(g, serial)[d], GddForecast) == Some(forecast[d]))
      && (d in actual ==> d in Partition(g, serial) && Get(Partition(g, serial)[d], GddActual) == Some(actual[d]))
  {
    var w := AfterRows(t, serial, rows).weather;
    var forecast := DailyMeans(WeatherRows(w, serial), AirTemperature);
    var actual := DailyMeans(WeatherRows(w, serial), TemperatureActual);
    var g1 := WithDailyMeans(t.gdd, serial, GddForecast, forecast);
    WithDailyMeansReads(t.gdd, serial, GddForecast, forecast, serial, d, GddForecast);
    WithDailyMeansReads(g1, serial, GddActual, actual, serial, d, GddForecast);
    WithDailyMeansReads(g1, serial, GddActual, actual, serial, d, GddActual);
  }

  /** The per-sensor steps write only the sensor's own `gdddata` partition. */
  lemma AfterRowsOtherPartitions(t: Tables, serial: Text, rows: seq<Entity>, q: Text)
    requires q != serial
    ensures Partition(AfterRows(t, serial, rows).gdd, q) == Partition(t.gdd, q)
  {
  }

  /**
   * The cutting date a succeeding step writes, when it has one, is a day stored for the
   * sensor in the `gdddata` the step itself produced, on or after the reset day, carrying
   * GddActual or GddForecast.
   */
  lemma StepCuttingDateIsStoredDay(t: Tables, f: Formats, s: SensorRecord, response: Result<seq<ForecastItem>, SensorError>, resetDay: Text)
    ensures var r := SensorStep(t, f, s, response, resetDay);
      r.update.Success? && r.update.value.date.Some? ==>
        var d := r.update.value.date.value;
        LexLe(resetDay, d) && d in Partition(r.tables.gdd, s.serialNo)
        && HasGdd(Entity(s.serialNo, d, Partition(r.tables.gdd, s.serialNo)[d]))
  {
    var r := SensorStep(t, f, s, response, resetDay);
    CuttingDateIsStoredDay(r.tables.gdd, s.serialNo, resetDay, s.optimalGdd as real);
  }
}
