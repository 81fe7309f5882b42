/**
 * `AzureTableService`: the two tables as fields that its methods update, and the GDD
 * pipeline's loops (grouping by date, upserting daily means, the threshold scan, the
 * running total, the seven-day series), each proved to compute its specification in
 * `GddSpec`. The clock is not read: `today` and `weekEnd` (today + 7 days) are parameters,
 * as text `YYYY-MM-DD`, and so is the reset date's day.
 */
module TableService {
  import opened Wrappers
  import opened Text
  import opened Ordering
  import opened Stats
  import opened AzureTables
  import opened GddSpec

  datatype TableName = WeatherData | GddData

  /**
   * The `grouped_data` loop: the readings of `attr` collected per date, and the dates in the
   * order they were first met (a Python dict's insertion order), each once.
   */
  method GroupByDate(rows: seq<Entity>, attr: Text) returns (grouped: map<Text, seq<real>>, order: seq<Text>)
    ensures grouped.Keys == ReadingDates(rows, attr)
    ensures forall d :: d in grouped ==> grouped[d] == Readings(rows, attr, d) && |grouped[d]| > 0
    ensures forall d :: d in order <==> d in grouped
    ensures forall a, b :: 0 <= a < b < |order| ==> order[a] != order[b]
  {
    grouped := map[];
    order := [];
    var i := 0;
    while i < |rows|
      invariant 0 <= i <= |rows|
      invariant Grouping(rows[..i], attr, grouped, order)
    {
      assert rows[..i + 1] == rows[..i] + [rows[i]];
      grouped, order := AddReading(rows[..i], rows[i], attr, grouped, order);
      i := i + 1;
    }
    assert rows[..|rows|] == rows;
    forall d | d in grouped ensures |grouped[d]| > 0 {
      ReadingDatesNonEmpty(rows, attr, d);
    }
  }

  /** What the grouping loop holds after the rows `seen`. */
  ghost predicate Grouping(seen: seq<Entity>, attr: Text, grouped: map<Text, seq<real>>, order: seq<Text>)
  {
    && grouped.Keys == ReadingDates(seen, attr)
    && (forall d :: d in grouped ==> grouped[d] == Readings(seen, attr, d))
    && (forall d :: d in order <==> d in grouped)
    && (forall a, b :: 0 <= a < b < |order| ==> order[a] != order[b])
  }

  /** One step of the grouping loop: a row carrying `attr` adds its reading to its date's group. */
  method AddReading(ghost seen: seq<Entity>, r: Entity, attr: Text, grouped0: map<Text, seq<real>>, order0: seq<Text>)
    returns (grouped: map<Text, seq<real>>, order: seq<Text>)
    requires Grouping(seen, attr, grouped0, order0)
    ensures Grouping(seen + [r], attr, grouped, order)
  {
    grouped, order := grouped0, order0;
    assert (seen + [r])[..|seen|] == seen;
    if attr in r.props {
      var d := DatePart(r.rowKey);
      if d !in grouped {
        ReadingDatesNonEmpty(seen, attr, d);
        grouped := grouped[d := []];
        order := order + [d];
      }
      grouped := grouped[d := grouped[d] + [r.props[attr]]];
    }
  }

  /**
   * The scan shared by both cutting-date functions: running total over the records in
   * order, skipping absent values, returning the date of the first record at which the
   * total reaches `optimal`, or None.
   */
  method ScanForCrossing(recs: seq<Dated<Option<real>>>, optimal: int) returns (date: Option<Text>)
    ensures date == CrossingDate(recs, optimal as real)
  {
    var t := optimal as real;
    var acc := 0.0;
    var i := 0;
    while i < |recs|
      invariant 0 <= i <= |recs|
      invariant acc == Accumulated(recs[..i])
      invariant forall j :: 0 <= j < i ==> !ReachesAt(recs, j, t)
    {
      assert recs[..i + 1][..i] == recs[..i];
      var gdd := recs[i].value;
      if gdd.None? {
        i := i + 1;
        continue;
      }
      acc := acc + gdd.value;
      if acc >= t {
        assert ReachesAt(recs, i, t);
        var first := FirstCrossing(recs, t);
        assert first.Some? && first.value == i;
        return Some(recs[i].date);
      }
      i := i + 1;
    }
    assert recs[..i] == recs;
    return None;
  }

  /** Writing one more day-row into the daily-means table is a merge upsert. */
  lemma UpsertDailyMean(g: Table, p: Text, field: Text, means: map<Text, real>, d: Text, v: real)
    requires d !in means
    ensures Upsert(WithDailyMeans(g, p, field, means), Entity(p, d, map[field := v]))
            == WithDailyMeans(g, p, field, means[d := v])
  {
    var part := Partition(g, p);
    var W := WithDailyMeans(g, p, field, means);
    var P := Partition(W, p);
    if means == map[] {
      DailyPartitionEmpty(part, field);
    }
    assert P == DailyPartition(part, field, means);
    assert d in P <==> d in part;
    var merged := if d in P then P[d] + map[field := v] else map[field := v];
    assert merged == (if d in part then part[d] else map[])[field := v] by {
      if d in P {
        assert P[d] == part[d];
      }
    }
    assert Upsert(W, Entity(p, d, map[field := v])) == W[p := P[d := merged]];
    DailyPartitionStep(part, field, means, d, v);
    assert W[p := P[d := merged]] == g[p := DailyPartition(part, field, means[d := v])];
  }

  lemma DailyPartitionEmpty(part: map<Text, Attributes>, field: Text)
    ensures DailyPartition(part, field, map[]) == part
  {
  }

  /** Setting one more date's mean in a daily partition. */
  lemma DailyPartitionStep(part: map<Text, Attributes>, field: Text, means: map<Text, real>, d: Text, v: real)
    requires d !in means
    ensures DailyPartition(part, field, means)[d := (if d in part then part[d] else map[])[field := v]]
            == DailyPartition(part, field, means[d := v])
  {
  }

  /** The means of the listed dates. */
  function Restrict(means: map<Text, real>, ds: seq<Text>): (m: map<Text, real>)
    ensures m.Keys == means.Keys * (set d | d in ds)
  {
    map d | d in means && d in ds :: means[d]
  }

  lemma RestrictStep(means: map<Text, real>, order: seq<Text>, k: nat)
    requires k < |order|
    requires forall a, b :: 0 <= a < b < |order| ==> order[a] != order[b]
    requires order[k] in means
    ensures order[k] !in Restrict(means, order[..k])
    ensures Restrict(means, order[..k])[order[k] := means[order[k]]] == Restrict(means, order[..k + 1])
  {
    assert order[..k + 1] == order[..k] + [order[k]];
  }

  /**
   * The loop of `calculate_cumulative_gdd_forecast`: the running total `cumulative_gdd` of
   * the values dated on or after the reset day, emitted for each record inside the window.
   */
  method RunningTotals(recs: seq<Dated<real>>, resetDay: Text, today: Text, weekEnd: Text) returns (out: seq<Dated<real>>)
    ensures out == Cumulative(recs, resetDay, today, weekEnd)
  {
    out := [];
    var total := 0.0;
    var i := 0;
    while i < |recs|
      invariant 0 <= i <= |recs|
      invariant total == TotalFrom(recs[..i], resetDay)
      invariant out == Cumulative(recs[..i], resetDay, today, weekEnd)
    {
      assert recs[..i + 1][..i] == recs[..i];
      var r := recs[i];
      if LexLe(resetDay, r.date) {
        total := total + r.value;
      }
      if LexLe(today, r.date) && LexLe(r.date, weekEnd) {
        out := out + [Dated(r.date, total)];
      }
      i := i + 1;
    }
    assert recs[..i] == recs;
  }

  /**
   * The `data` list of `add_gdd_*`: one row per date, in the grouping's order, keyed by the
   * date under PartitionKey `p` and carrying only `field` set to the mean of that date's group.
   */
  method DailyRows(p: Text, field: Text, grouped: map<Text, seq<real>>, order: seq<Text>, ghost means: map<Text, real>)
    returns (data: seq<Entity>)
    requires forall d :: d in order ==> d in grouped && |grouped[d]| > 0 && d in means && means[d] == Mean(grouped[d])
    ensures |data| == |order|
    ensures forall k :: 0 <= k < |order| ==> order[k] in means && data[k] == Entity(p, order[k], map[field := means[order[k]]])
  {
    data := [];
    var j := 0;
    while j < |order|
      invariant 0 <= j <= |order| && |data| == j
      invariant forall k :: 0 <= k < j ==> order[k] in means && data[k] == Entity(p, order[k], map[field := means[order[k]]])
    {
      var date := order[j];
      data := data + [Entity(p, date, map[field := Mean(grouped[date])])];
      j := j + 1;
    }
  }

  class AzureTableService {
    /** `weatherdata`: sensor serial -> timestamp `YYYY-MM-DD HH:MM:SS` -> readings. */
    var weather: Table
    /** `gdddata`: sensor serial -> date `YYYY-MM-DD` -> `GddActual` and/or `GddForecast`. */
    var gdd: Table

    constructor (weather: Table, gdd: Table)
      ensures this.weather == weather && this.gdd == gdd
    {
      this.weather := weather;
      this.gdd := gdd;
    }

    /** `store_entity`: one merge upsert into the named table. */
    method StoreEntity(table: TableName, e: Entity)
      modifies this
      ensures table == WeatherData ==> weather == Upsert(old(weather), e) && gdd == old(gdd)
      ensures table == GddData ==> gdd == Upsert(old(gdd), e) && weather == old(weather)
    {
      if table == WeatherData {
        weather := Upsert(weather, e);
      } else {
        gdd := Upsert(gdd, e);
      }
    }

    /** `save_weather_data_list`: the entities upserted into `weatherdata` in list order. */
    method SaveWeatherDataList(es: seq<Entity>)
      modifies this
      ensures weather == UpsertAll(old(weather), es) && gdd == old(gdd)
    {
      var i := 0;
      while i < |es|
        invariant 0 <= i <= |es|
        invariant weather == UpsertAll(old(weather), es[..i]) && gdd == old(gdd)
      {
        assert es[..i + 1][..i] == es[..i];
        weather := Upsert(weather, es[i]);
        i := i + 1;
      }
      assert es[..i] == es;
    }

    /**
     * The body shared by `add_gdd_forecast` and `add_gdd_actual`: group the rows that carry
     * `attr` by date, average each group, and merge-upsert one `gdddata` row per date under
     * PartitionKey `p` that carries only `field`.
     */
    method AddDailyMeans(p: Text, attr: Text, field: Text)
      modifies this
      ensures weather == old(weather)
      ensures gdd == WithDailyMeans(old(gdd), p, field, DailyMeans(WeatherRows(old(weather), p), attr))
    {
      var rows := WeatherRows(weather, p);
      var grouped, order := GroupByDate(rows, attr);
      ghost var means := DailyMeans(rows, attr);
      var data := DailyRows(p, field, grouped, order, means);
      WriteDailyRows(p, field, means, order, data);
    }

    /** The upsert loop of `add_gdd_*`: one merge upsert per day-row, in list order. */
    method WriteDailyRows(p: Text, field: Text, ghost means: map<Text, real>, order: seq<Text>, data: seq<Entity>)
      requires |data| == |order|
      requires forall a, b :: 0 <= a < b < |order| ==> order[a] != order[b]
      requires forall d :: d in order <==> d in means
      requires forall k :: 0 <= k < |order| ==> order[k] in means && data[k] == Entity(p, order[k], map[field := means[order[k]]])
      modifies this
      ensures weather == old(weather)
      ensures gdd == WithDailyMeans(old(gdd), p, field, means)
    {
      var k := 0;
      while k < |data|
        invariant 0 <= k <= |data|
        invariant weather == old(weather)
        invariant gdd == WithDailyMeans(old(gdd), p, field, Restrict(means, order[..k]))
      {
        RestrictStep(means, order, k);
        UpsertDailyMean(old(gdd), p, field, Restrict(means, order[..k]), order[k], means[order[k]]);
        gdd := Upsert(gdd, data[k]);
        k := k + 1;
      }
      assert Restrict(means, order[..k]) == means;
    }

    /** `add_gdd_forecast`: daily means of `air_temperature` into `GddForecast`. */
    method AddGddForecast(p: Text)
      modifies this
      ensures weather == old(weather)
      ensures gdd == WithDailyMeans(old(gdd), p, GddForecast, DailyMeans(WeatherRows(old(weather), p), AirTemperature))
    {
      AddDailyMeans(p, AirTemperature, GddForecast);
    }

    /** `add_gdd_actual`: daily means of `temperature_actual` into `GddActual`. */
    method AddGddActual(p: Text)
      modifies this
      ensures weather == old(weather)
      ensures gdd == WithDailyMeans(old(gdd), p, GddActual, DailyMeans(WeatherRows(old(weather), p), TemperatureActual))
    {
      AddDailyMeans(p, TemperatureActual, GddActual);
    }

    /**
     * `calculate_cutting_date`: over the sensor's rows from the reset day on, the date of
     * the first record whose actual-or-forecast running total reaches `optimal`.
     */
    method CalculateCuttingDate(serial: Text, optimal: int, resetDay: Text) returns (date: Option<Text>)
      ensures date == CrossingDate(CuttingScan(gdd, serial, resetDay), optimal as real)
    {
      var recs := CuttingScan(gdd, serial, resetDay);
      date := ScanForCrossing(recs, optimal);
    }

    /** `calculate_forcast_cutting_date`: the same scan over forecast-or-0 values of every row. */
    method CalculateForecastCuttingDate(serial: Text, optimal: int, resetDay: Text) returns (date: Option<Text>)
      ensures date == CrossingDate(ForecastScan(gdd, serial, resetDay), optimal as real)
    {
      var recs := ForecastScan(gdd, serial, resetDay);
      date := ScanForCrossing(recs, optimal);
    }

    /**
     * The body shared by `get_seven_day_temperature_forecast` and
     * `get_seven_day_humidity_forecast`: the daily means of `attr` over the rows of `p` with
     * RowKey in [today, weekEnd], sorted by date.
     */
    method SevenDayForecast(p: Text, attr: Text, today: Text, weekEnd: Text) returns (series: seq<Dated<real>>)
      ensures series == DailySeries(RowsBetween(weather, p, today, weekEnd), attr)
    {
      var rows := RowsBetween(weather, p, today, weekEnd);
      var grouped, order := GroupByDate(rows, attr);
      var daily := seq(|order|, i requires 0 <= i < |order| => Dated(order[i], Mean(grouped[order[i]])));
      series := SortByDate(daily);
      SameSeries(rows, attr, grouped, order, daily, series);
    }

    method SevenDayTemperatureForecast(p: Text, today: Text, weekEnd: Text) returns (series: seq<Dated<real>>)
      ensures series == DailySeries(RowsBetween(weather, p, today, weekEnd), AirTemperature)
    {
      series := SevenDayForecast(p, AirTemperature, today, weekEnd);
    }

    method SevenDayHumidityForecast(p: Text, today: Text, weekEnd: Text) returns (series: seq<Dated<real>>)
      ensures series == DailySeries(RowsBetween(weather, p, today, weekEnd), RelativeHumidity)
    {
      series := SevenDayForecast(p, RelativeHumidity, today, weekEnd);
    }

    /**
     * `calculate_cumulative_gdd_forecast`: over the sensor's rows dated in [reset, weekEnd],
     * sorted, the running total of values dated on or after the reset day, emitted for the
     * records dated in [today, weekEnd].
     */
    method CumulativeGddForecast(p: Text, resetDay: Text, today: Text, weekEnd: Text) returns (out: seq<Dated<real>>)
      ensures out == Cumulative(CumulativeScan(gdd, p, resetDay, weekEnd), resetDay, today, weekEnd)
    {
      var recs := CumulativeScan(gdd, p, resetDay, weekEnd);
      out := RunningTotals(recs, resetDay, today, weekEnd);
    }
  }

  /** Sorting the grouped means gives the ascending daily series. */
  lemma SameSeries(rows: seq<Entity>, attr: Text, grouped: map<Text, seq<real>>, order: seq<Text>,
                   daily: seq<Dated<real>>, series: seq<Dated<real>>)
    requires grouped.Keys == ReadingDates(rows, attr)
    requires forall d :: d in grouped ==> grouped[d] == Readings(rows, attr, d) && |grouped[d]| > 0
    requires forall d :: d in order <==> d in grouped
    requires forall a, b :: 0 <= a < b < |order| ==> order[a] != order[b]
    requires |daily| == |order|
    requires forall i :: 0 <= i < |order| ==> daily[i] == Dated(order[i], Mean(grouped[order[i]]))
    requires series == SortByDate(daily)
    ensures series == DailySeries(rows, attr)
  {
    var means := DailyMeans(rows, attr);
    GroupMeans(rows, attr, grouped, order, daily);
    SortByDateAscending(daily);
    SortedMeans(means, daily, series);
  }

  /** The grouped means list each date with a reading once, with that date's mean. */
  lemma GroupMeans(rows: seq<Entity>, attr: Text, grouped: map<Text, seq<real>>, order: seq<Text>,
                   daily: seq<Dated<real>>)
    requires grouped.Keys == ReadingDates(rows, attr)
    requires forall d :: d in grouped ==> grouped[d] == Readings(rows, attr, d) && |grouped[d]| > 0
    requires forall d :: d in order <==> d in grouped
    requires forall a, b :: 0 <= a < b < |order| ==> order[a] != order[b]
    requires |daily| == |order|
    requires forall i :: 0 <= i < |order| ==> daily[i] == Dated(order[i], Mean(grouped[order[i]]))
    ensures DistinctDates(daily)
    ensures forall i :: 0 <= i < |daily| ==>
      daily[i].date in DailyMeans(rows, attr) && daily[i].value == DailyMeans(rows, attr)[daily[i].date]
    ensures forall d :: d in Dates(daily) <==> d in DailyMeans(rows, attr)
  {
    var means := DailyMeans(rows, attr);
    forall d | d in means ensures d in Dates(daily) {
      var j :| 0 <= j < |order| && order[j] == d;
      assert Dates(daily)[j] == d;
    }
  }

  /** An ascending permutation of a list holding each date's mean once is the daily series. */
  lemma SortedMeans(means: map<Text, real>, daily: seq<Dated<real>>, series: seq<Dated<real>>)
    requires forall i :: 0 <= i < |daily| ==> daily[i].date in means && daily[i].value == means[daily[i].date]
    requires forall d :: d in Dates(daily) <==> d in means
    requires multiset(series) == multiset(daily)
    requires Ascending(Dates(series))
    ensures |series| == |means.Keys|
    ensures Dates(series) == SortedKeys(means.Keys)
    ensures forall i :: 0 <= i < |series| ==> series[i] == Dated(SortedKeys(means.Keys)[i], means[SortedKeys(means.Keys)[i]])
    ensures series == SeriesOf(means)
  {
    var ks := SortedKeys(means.Keys);
    SeriesValuesFromMeans(means, daily, series);
    SeriesDatesAreKeys(means, daily, series);
    AscendingUnique(Dates(series), ks);
    assert series == Listed(means, ks);
  }

  /** A reordering of entries that each carry their date's mean still carries the means. */
  lemma SeriesValuesFromMeans(means: map<Text, real>, daily: seq<Dated<real>>, series: seq<Dated<real>>)
    requires forall i :: 0 <= i < |daily| ==> daily[i].date in means && daily[i].value == means[daily[i].date]
    requires multiset(series) == multiset(daily)
    ensures forall i :: 0 <= i < |series| ==> series[i].date in means && series[i].value == means[series[i].date]
  {
    forall i | 0 <= i < |series| ensures series[i].date in means && series[i].value == means[series[i].date] {
      assert series[i] in multiset(daily);
      var j :| 0 <= j < |daily| && daily[j] == series[i];
    }
  }

  /** A reordering of entries dated by exactly the keys of `means` is dated by the same keys. */
  lemma SeriesDatesAreKeys(means: map<Text, real>, daily: seq<Dated<real>>, series: seq<Dated<real>>)
    requires forall d :: d in Dates(daily) <==> d in means
    requires multiset(series) == multiset(daily)
    ensures forall d :: d in Dates(series) <==> d in means
  {
    forall d ensures d in Dates(series) <==> d in means {
      if d in Dates(series) {
        var i :| 0 <= i < |series| && Dates(series)[i] == d;
        assert series[i] in multiset(daily);
        var j :| 0 <= j < |daily| && daily[j] == series[i];
        assert Dates(daily)[j] == d;
      }
      if d in means {
        var j :| 0 <= j < |daily| && Dates(daily)[j] == d;
        assert daily[j] in multiset(series);
        var i :| 0 <= i < |series| && series[i] == daily[j];
        assert Dates(series)[i] == d;
      }
    }
  }
}
