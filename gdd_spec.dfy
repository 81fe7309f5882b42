/**
 * What the GDD pipeline of the table service computes, as functions of the table contents:
 * daily means of hourly readings, the value chosen for a day (actual or forecast), the
 * threshold search for the cutting date, the sum since the reset date, the running total
 * shown in the dashboard and the seven-day daily series.
 *
 * The "GDD" of a day is the mean of that day's temperatures; no base temperature is
 * subtracted anywhere.
 */
module GddSpec {
  import opened Wrappers
  import opened Text
  import opened Ordering
  import opened Stats
  import opened AzureTables

  const AirTemperature: Text := "air_temperature"
  const TemperatureActual: Text := "temperature_actual"
  const RelativeHumidity: Text := "relative_humidity"
  const GddActual: Text := "GddActual"
  const GddForecast: Text := "GddForecast"

  /**
   * The weather rows `get_weather_data_with_*` returns: partition `p`, or, when `p` is the
   * empty text (falsy in `if partition_key:`), the rows of every partition.
   */
  function WeatherRows(w: Table, p: Text): (rows: seq<Entity>)
    ensures forall i :: 0 <= i < |rows| ==> Stored(w, rows[i])
    ensures p != "" ==> forall i :: 0 <= i < |rows| ==> rows[i].partitionKey == p
  {
    if p != "" then PartitionEntities(w, p) else AllEntities(w)
  }

  // ---------------------------------------------------------------------------
  // Daily averaging

  /** The readings of `attr` in rows whose RowKey has date part `d`, in row order. */
  function Readings(rows: seq<Entity>, attr: Text, d: Text): seq<real>
  {
    if rows == [] then []
    else
      var r := rows[|rows| - 1];
      Readings(rows[..|rows| - 1], attr, d)
        + (if attr in r.props && DatePart(r.rowKey) == d then [r.props[attr]] else [])
  }

  /** The dates (RowKey text before the first space) of the rows that carry `attr`. */
  function ReadingDates(rows: seq<Entity>, attr: Text): set<Text>
  {
    if rows == [] then {}
    else
      var r := rows[|rows| - 1];
      ReadingDates(rows[..|rows| - 1], attr) + (if attr in r.props then {DatePart(r.rowKey)} else {})
  }

  /** A date has readings exactly when some row of that date carries the attribute. */
  lemma {:induction false} ReadingDatesNonEmpty(rows: seq<Entity>, attr: Text, d: Text)
    ensures d in ReadingDates(rows, attr) <==> |Readings(rows, attr, d)| > 0
  {
    if rows != [] {
      ReadingDatesNonEmpty(rows[..|rows| - 1], attr, d);
    }
  }

  /** Each reading of date `d` comes from a row of that date that carries the attribute. */
  lemma {:induction false} ReadingsFrom(rows: seq<Entity>, attr: Text, d: Text, k: nat)
    requires k < |Readings(rows, attr, d)|
    ensures exists i :: 0 <= i < |rows| && attr in rows[i].props && DatePart(rows[i].rowKey) == d
                        && rows[i].props[attr] == Readings(rows, attr, d)[k]
  {
    var n := |rows| - 1;
    var pre := Readings(rows[..n], attr, d);
    if k < |pre| {
      ReadingsFrom(rows[..n], attr, d, k);
      var i :| 0 <= i < n && attr in rows[..n][i].props && DatePart(rows[..n][i].rowKey) == d
               && rows[..n][i].props[attr] == pre[k];
      assert rows[i] == rows[..n][i];
    } else {
      assert rows[n].props[attr] == Readings(rows, attr, d)[k];
    }
  }

  /**
   * The grouping and averaging of `add_gdd_*`: one mean per date that has a reading,
   * computed over exactly that date's readings.
   */
  function DailyMeans(rows: seq<Entity>, attr: Text): (m: map<Text, real>)
    ensures m.Keys == ReadingDates(rows, attr)
  {
    assert forall d :: d in ReadingDates(rows, attr) ==> |Readings(rows, attr, d)| > 0 by {
      forall d | d in ReadingDates(rows, attr) ensures |Readings(rows, attr, d)| > 0 {
        ReadingDatesNonEmpty(rows, attr, d);
      }
    }
    map d | d in ReadingDates(rows, attr) :: Mean(Readings(rows, attr, d))
  }

  /** A day's mean lies between bounds that hold for every reading of the rows. */
  lemma DailyMeanBounds(rows: seq<Entity>, attr: Text, d: Text, lo: real, hi: real)
    requires forall i :: 0 <= i < |rows| && attr in rows[i].props ==> lo <= rows[i].props[attr] <= hi
    requires d in DailyMeans(rows, attr)
    ensures lo <= DailyMeans(rows, attr)[d] <= hi
  {
    var xs := Readings(rows, attr, d);
    ReadingDatesNonEmpty(rows, attr, d);
    forall k | 0 <= k < |xs| ensures lo <= xs[k] <= hi {
      ReadingsFrom(rows, attr, d, k);
    }
    MeanBounds(xs, lo, hi);
  }

  /** A row without the attribute changes no daily mean: it is skipped, not counted as 0. */
  lemma {:induction false} DailyMeansSkipMissing(rows: seq<Entity>, r: Entity, attr: Text)
    requires attr !in r.props
    ensures DailyMeans(rows + [r], attr) == DailyMeans(rows, attr)
  {
    assert (rows + [r])[..|rows|] == rows;
    forall d ensures Readings(rows + [r], attr, d) == Readings(rows, attr, d) {
    }
  }

  /** A reading for one date leaves the means of all other dates as they were. */
  lemma {:induction false} DailyMeansOtherDate(rows: seq<Entity>, r: Entity, attr: Text, d: Text)
    requires d in DailyMeans(rows, attr)
    requires DatePart(r.rowKey) != d
    ensures d in DailyMeans(rows + [r], attr)
    ensures DailyMeans(rows + [r], attr)[d] == DailyMeans(rows, attr)[d]
  {
    assert (rows + [r])[..|rows|] == rows;
    assert Readings(rows + [r], attr, d) == Readings(rows, attr, d);
  }

  /**
   * The `gdddata` table after `upsert_entity` of `{PartitionKey: p, RowKey: d, field: means[d]}`
   * for every date `d` (merge mode): the day-rows of `p` gain or overwrite `field`, their
   * other properties stay, and nothing else changes. No upsert at all leaves the table as is.
   */
  function WithDailyMeans(g: Table, p: Text, field: Text, means: map<Text, real>): (r: Table)
    ensures forall q :: q != p ==> Partition(r, q) == Partition(g, q)
    ensures forall d :: d in means ==> d in Partition(r, p) && field in Partition(r, p)[d] && Partition(r, p)[d][field] == means[d]
  {
    if means == map[] then g
    else
      g[p := DailyPartition(Partition(g, p), field, means)]
  }

  /** A partition with `field` of each date in `means` set to that date's mean. */
  function DailyPartition(part: map<Text, Attributes>, field: Text, means: map<Text, real>): map<Text, Attributes>
  {
    map d | d in part.Keys + means.Keys :: if d in means then (if d in part then part[d] else map[])[field := means[d]] else part[d]
  }

  /**
   * One row per date with a reading and no other row: date `d` of partition `p` holds the
   * date's mean in `field`, every other property reads as before, and other rows and
   * partitions are untouched.
   */
  lemma WithDailyMeansReads(g: Table, p: Text, field: Text, means: map<Text, real>, q: Text, d: Text, name: Text)
    ensures d in Partition(WithDailyMeans(g, p, field, means), q) <==>
              d in Partition(g, q) || (q == p && d in means)
    ensures d in Partition(WithDailyMeans(g, p, field, means), q) ==>
      Get(Partition(WithDailyMeans(g, p, field, means), q)[d], name) ==
        if q == p && d in means && name == field then Some(means[d])
        else if d in Partition(g, q) then Get(Partition(g, q)[d], name)
        else None
  {
  }

  // ---------------------------------------------------------------------------
  // The value of a day

  /**
   * `entity.get("GddActual") or entity.get("GddForecast")`: Python's `or` keeps the actual
   * unless it is absent or exactly 0, and otherwise yields the forecast, which may be absent.
   */
  function ActualOrForecast(props: Attributes): (v: Option<real>)
    ensures GddActual in props && props[GddActual] != 0.0 ==> v == Some(props[GddActual])
    ensures (GddActual !in props || props[GddActual] == 0.0) ==> v == Get(props, GddForecast)
  {
    var a := Get(props, GddActual);
    if a.Some? && a.value != 0.0 then a else Get(props, GddForecast)
  }

  /** `entity.get("GddActual") or entity.get("GddForecast", 0)`: as above, 0 when both fail. */
  function ActualOrForecastOrZero(props: Attributes): (v: real)
    ensures v == ActualOrForecast(props).GetOr(0.0)
  {
    var a := Get(props, GddActual);
    if a.Some? && a.value != 0.0 then a.value else Get(props, GddForecast).GetOr(0.0)
  }

  /** A day with actual 5 and forecast 9 contributes 5: the actual wins, nothing is added up. */
  lemma ActualWins()
    ensures ActualOrForecast(map[GddActual := 5.0, GddForecast := 9.0]) == Some(5.0)
    ensures ActualOrForecastOrZero(map[GddActual := 5.0, GddForecast := 9.0]) == 5.0
  {
  }

  /** An actual of exactly 0 is falsy: the forecast is used instead, or nothing at all. */
  lemma ZeroActualFallsThrough(f: real)
    ensures ActualOrForecast(map[GddActual := 0.0, GddForecast := f]) == Some(f)
    ensures ActualOrForecast(map[GddActual := 0.0]) == None
    ensures ActualOrForecastOrZero(map[GddActual := 0.0]) == 0.0
  {
    assert GddActual != GddForecast;
  }

  // ---------------------------------------------------------------------------
  // Threshold search

  /** The running total of the values present among the records (`accumulated_gdd`). */
  function Accumulated(vs: seq<Dated<Option<real>>>): real
  {
    if vs == [] then 0.0 else Accumulated(vs[..|vs| - 1]) + vs[|vs| - 1].value.GetOr(0.0)
  }

  /** Record `i` carries a value and the running total through it has reached `t`. */
  predicate ReachesAt(vs: seq<Dated<Option<real>>>, i: nat, t: real)
  {
    i < |vs| && vs[i].value.Some? && Accumulated(vs[..i + 1]) >= t
  }

  function CrossingFrom(vs: seq<Dated<Option<real>>>, t: real, i: nat, acc: real): (r: Option<nat>)
    requires i <= |vs| && acc == Accumulated(vs[..i])
    requires forall j :: 0 <= j < i ==> !ReachesAt(vs, j, t)
    ensures r.Some? ==> i <= r.value && ReachesAt(vs, r.value, t)
                        && forall j :: 0 <= j < r.value ==> !ReachesAt(vs, j, t)
    ensures r.None? ==> forall j :: 0 <= j < |vs| ==> !ReachesAt(vs, j, t)
    decreases |vs| - i
  {
    if i == |vs| then None
    else
      assert vs[..i + 1][..i] == vs[..i];
      var acc' := acc + vs[i].value.GetOr(0.0);
      if vs[i].value.Some? && acc' >= t then Some(i)
      else CrossingFrom(vs, t, i + 1, acc')
  }

  /**
   * The index of the first record whose value is present and at which the running total
   * reaches the threshold; None when no record does.
   */
  function FirstCrossing(vs: seq<Dated<Option<real>>>, t: real): (r: Option<nat>)
    ensures r.Some? ==> ReachesAt(vs, r.value, t) && forall j :: 0 <= j < r.value ==> !ReachesAt(vs, j, t)
    ensures r.None? ==> forall j :: 0 <= j < |vs| ==> !ReachesAt(vs, j, t)
  {
    CrossingFrom(vs, t, 0, 0.0)
  }

  /** A higher threshold is reached no earlier, and only if the lower one is reached. */
  lemma CrossingMonotone(vs: seq<Dated<Option<real>>>, t1: real, t2: real)
    requires t1 <= t2
    ensures FirstCrossing(vs, t2).Some? ==>
              FirstCrossing(vs, t1).Some? && FirstCrossing(vs, t1).value <= FirstCrossing(vs, t2).value
  {
    if FirstCrossing(vs, t2).Some? {
      var i2 := FirstCrossing(vs, t2).value;
      assert ReachesAt(vs, i2, t1);
    }
  }

  /** The row filter of `calculate_cutting_date`: the row has GddActual or GddForecast. */
  predicate HasGdd(e: Entity)
  {
    GddActual in e.props || GddForecast in e.props
  }

  /** The scan record of a gdd row: its date and its actual-or-forecast value. */
  function CuttingRecord(e: Entity): Dated<Option<real>>
  {
    Dated(e.rowKey, ActualOrForecast(e.props))
  }

  /**
   * The records `calculate_cutting_date` scans: one per row that has GddActual or
   * GddForecast, in row order, and no other; the value is absent when the actual is 0 or
   * missing and there is no forecast.
   */
  function CuttingRecords(es: seq<Entity>): (vs: seq<Dated<Option<real>>>)
    ensures |vs| <= |es|
  {
    if es == [] then []
    else (if HasGdd(es[0]) then [CuttingRecord(es[0])] else []) + CuttingRecords(es[1..])
  }

  /** The row a cutting record comes from: a row with GddActual or GddForecast. */
  ghost function CuttingRecordOrigin(es: seq<Entity>, i: nat): (j: nat)
    requires i < |CuttingRecords(es)|
    ensures j < |es| && HasGdd(es[j]) && CuttingRecords(es)[i] == CuttingRecord(es[j])
  {
    var head := if HasGdd(es[0]) then [CuttingRecord(es[0])] else [];
    assert CuttingRecords(es) == head + CuttingRecords(es[1..]);
    if HasGdd(es[0]) && i == 0 then 0
    else
      var k := CuttingRecordOrigin(es[1..], i - |head|);
      assert es[1..][k] == es[k + 1];
      k + 1
  }

  /** Every row with GddActual or GddForecast gives a cutting record. */
  lemma {:induction false} CuttingRecordsComplete(es: seq<Entity>, j: nat)
    requires j < |es| && HasGdd(es[j])
    ensures CuttingRecord(es[j]) in CuttingRecords(es)
  {
    if j > 0 {
      CuttingRecordsComplete(es[1..], j - 1);
      assert es[1..][j - 1] == es[j];
    }
  }

  /**
   * The records `calculate_forcast_cutting_date` scans: every row, as written, because the
   * filter `"GddForecast" or 0 in entity` is always true; the value is the forecast, or 0
   * when the forecast is absent or 0.
   */
  function ForecastRecords(es: seq<Entity>): (vs: seq<Dated<Option<real>>>)
    ensures |vs| == |es|
    ensures forall i :: 0 <= i < |vs| ==> vs[i] == Dated(es[i].rowKey, Some(Get(es[i].props, GddForecast).GetOr(0.0)))
  {
    seq(|es|, i requires 0 <= i < |es| => Dated(es[i].rowKey, Some(Get(es[i].props, GddForecast).GetOr(0.0))))
  }

  /** The gdd rows of a sensor from the reset date on, sorted by date (lines 264-278). */
  function CuttingScan(g: Table, serial: Text, resetDay: Text): (r: seq<Dated<Option<real>>>)
    ensures SortedByDate(r)
    ensures |r| <= |Partition(g, serial).Keys|
  {
    var vs := CuttingRecords(KeyRange(PartitionEntities(g, serial), Some(resetDay), None));
    SortByDateSorted(vs);
    SortByDate(vs)
  }

  /** The gdd rows of a sensor from the reset date on, every one of them, sorted by date (lines 307-321). */
  function ForecastScan(g: Table, serial: Text, resetDay: Text): (r: seq<Dated<Option<real>>>)
    ensures SortedByDate(r)
    ensures |r| == |KeyRange(PartitionEntities(g, serial), Some(resetDay), None)|
  {
    var vs := ForecastRecords(KeyRange(PartitionEntities(g, serial), Some(resetDay), None));
    SortByDateSorted(vs);
    SortByDate(vs)
  }

  /**
   * The date of the first record at which the running total reaches `t`, if any; the
   * source compares against the integer `optimal_gdd`, which callers pass as a real.
   */
  function CrossingDate(vs: seq<Dated<Option<real>>>, t: real): (d: Option<Text>)
    ensures d.Some? ==> exists i :: 0 <= i < |vs| && vs[i].date == d.value && ReachesAt(vs, i, t)
                                    && forall j :: 0 <= j < i ==> !ReachesAt(vs, j, t)
    ensures d.None? <==> forall i :: 0 <= i < |vs| ==> !ReachesAt(vs, i, t)
  {
    match FirstCrossing(vs, t)
    case None => None
    case Some(i) => Some(vs[i].date)
  }

  // ---------------------------------------------------------------------------
  // Sums since the reset date

  function SensorValues(es: seq<Entity>): (vs: seq<real>)
    ensures |vs| == |es|
    ensures forall i :: 0 <= i < |es| ==> vs[i] == ActualOrForecastOrZero(es[i].props)
  {
    seq(|es|, i requires 0 <= i < |es| => ActualOrForecastOrZero(es[i].props))
  }

  /**
   * Every row of partition `serial` keyed within [from, to], inclusive on both ends: the
   * `RowKey ge ... and RowKey le ...` queries of both tables (lines 353-358, 386-389, 484-489).
   */
  function RowsBetween(g: Table, serial: Text, from: Text, to: Text): (es: seq<Entity>)
    ensures KeysAscending(es)
    ensures forall i :: 0 <= i < |es| ==>
      es[i].partitionKey == serial && Stored(g, es[i]) && LexLe(from, es[i].rowKey) && LexLe(es[i].rowKey, to)
    ensures forall k :: k in Partition(g, serial) && LexLe(from, k) && LexLe(k, to) ==> k in RowKeys(es)
  {
    var all := PartitionEntities(g, serial);
    KeyRangeAscending(all, Some(from), Some(to));
    var r := KeyRange(all, Some(from), Some(to));
    assert forall k :: k in Partition(g, serial) && LexLe(from, k) && LexLe(k, to) ==> k in RowKeys(r) by {
      forall k | k in Partition(g, serial) && LexLe(from, k) && LexLe(k, to) ensures k in RowKeys(r) {
        KeyRangeListsKey(all, Some(from), Some(to), k);
      }
    }
    r
  }

  /**
   * `calculate_sensor_gdd`: the sum of actual-else-forecast-else-0 over the rows dated
   * from the reset date to today; 0 when there are none.
   */
  function SensorGdd(g: Table, serial: Text, resetDay: Text, today: Text): (total: real)
    ensures RowsBetween(g, serial, resetDay, today) == [] ==> total == 0.0
  {
    Sum(SensorValues(RowsBetween(g, serial, resetDay, today)))
  }

  /** The `(date, gdd_forecast)` records of `calculate_cumulative_gdd_forecast` (lines 492-504). */
  function ForecastPoints(es: seq<Entity>): (vs: seq<Dated<real>>)
    ensures |vs| == |es|
    ensures forall i :: 0 <= i < |es| ==> vs[i] == Dated(es[i].rowKey, ActualOrForecastOrZero(es[i].props))
  {
    seq(|es|, i requires 0 <= i < |es| => Dated(es[i].rowKey, ActualOrForecastOrZero(es[i].props)))
  }

  /** `within(d)` of the display window: `today <= d <= weekEnd`. */
  predicate InWindow(d: Text, today: Text, weekEnd: Text)
  {
    LexLe(today, d) && LexLe(d, weekEnd)
  }

  /** The running total `cumulative_gdd` after the records: values dated on or after the reset day. */
  function TotalFrom(vs: seq<Dated<real>>, resetDay: Text): real
  {
    if vs == [] then 0.0
    else
      var r := vs[|vs| - 1];
      TotalFrom(vs[..|vs| - 1], resetDay) + (if LexLe(resetDay, r.date) then r.value else 0.0)
  }

  /**
   * The emitted entries: one per record dated inside the window, carrying the running total
   * through that record, which includes the records before the window.
   */
  function Cumulative(vs: seq<Dated<real>>, resetDay: Text, today: Text, weekEnd: Text): (r: seq<Dated<real>>)
    ensures |r| <= |vs|
    ensures forall i :: 0 <= i < |r| ==> InWindow(r[i].date, today, weekEnd)
  {
    if vs == [] then []
    else
      var r := vs[|vs| - 1];
      Cumulative(vs[..|vs| - 1], resetDay, today, weekEnd)
        + (if InWindow(r.date, today, weekEnd) then [Dated(r.date, TotalFrom(vs, resetDay))] else [])
  }

  /** The sorted records of `calculate_cumulative_gdd_forecast`. */
  function CumulativeScan(g: Table, p: Text, resetDay: Text, weekEnd: Text): (r: seq<Dated<real>>)
    ensures SortedByDate(r)
    ensures |r| == |RowsBetween(g, p, resetDay, weekEnd)|
  {
    var vs := ForecastPoints(RowsBetween(g, p, resetDay, weekEnd));
    SortByDateSorted(vs);
    SortByDate(vs)
  }

  // ---------------------------------------------------------------------------
  // Seven-day series

  /** One entry per date with a reading, in ascending date order, carrying that date's mean. */
  function DailySeries(rows: seq<Entity>, attr: Text): (s: seq<Dated<real>>)
    ensures Ascending(Dates(s))
    ensures forall d :: d in Dates(s) <==> d in ReadingDates(rows, attr)
    ensures forall i :: 0 <= i < |s| ==> s[i].date in DailyMeans(rows, attr) && s[i].value == DailyMeans(rows, attr)[s[i].date]
  {
    SeriesOf(DailyMeans(rows, attr))
  }

  /** The entries of `m` in ascending key order. */
  function SeriesOf(m: map<Text, real>): (s: seq<Dated<real>>)
    ensures Ascending(Dates(s))
    ensures forall d :: d in Dates(s) <==> d in m
    ensures forall i :: 0 <= i < |s| ==> s[i].date in m && s[i].value == m[s[i].date]
  {
    var ds := SortedKeys(m.Keys);
    ListedDates(m, ds);
    Listed(m, ds)
  }

  /** The entries of `m` under the keys `ds`, in the order of `ds`. */
  function Listed(m: map<Text, real>, ds: seq<Text>): (s: seq<Dated<real>>)
    requires forall d :: d in ds ==> d in m
    ensures |s| == |ds|
    ensures forall i :: 0 <= i < |ds| ==> s[i] == Dated(ds[i], m[ds[i]])
  {
    seq(|ds|, i requires 0 <= i < |ds| => Dated(ds[i], m[ds[i]]))
  }

  lemma ListedDates(m: map<Text, real>, ds: seq<Text>)
    requires forall d :: d in ds ==> d in m
    ensures Dates(Listed(m, ds)) == ds
  {
  }
}
