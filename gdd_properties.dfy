/**
 * Properties of the GDD pipeline that relate several of its functions: the scans see the
 * rows in ascending date order (so the source's sort changes nothing), the cutting date is
 * a stored day on or after the reset date, the forecast scan's always-true filter is
 * harmless for positive thresholds, the running total counts every record before the
 * window, and the seven-day series ends before its last day.
 */
module GddProperties {
  import opened Wrappers
  import opened Text
  import opened Ordering
  import opened Stats
  import opened AzureTables
  import opened GddSpec

  // ---------------------------------------------------------------------------
  // Row order

  lemma KeysAscendingTail(es: seq<Entity>)
    requires KeysAscending(es) && |es| > 0
    ensures KeysAscending(es[1..])
    ensures forall j :: 1 <= j < |es| ==> LexLt(es[0].rowKey, es[j].rowKey)
  {
    var t := es[1..];
    forall i, j | 0 <= i < j < |t| ensures LexLt(t[i].rowKey, t[j].rowKey) {
      assert t[i] == es[i + 1] && t[j] == es[j + 1];
    }
  }

  /** Rows with ascending keys give cutting records in date order. */
  lemma {:induction false} CuttingRecordsSorted(es: seq<Entity>)
    requires KeysAscending(es)
    ensures SortedByDate(CuttingRecords(es))
  {
    if es != [] {
      KeysAscendingTail(es);
      CuttingRecordsSorted(es[1..]);
      var rest := CuttingRecords(es[1..]);
      if HasGdd(es[0]) {
        forall j | 0 <= j < |rest| ensures LexLe(es[0].rowKey, rest[j].date) {
          var k := CuttingRecordOrigin(es[1..], j);
          assert es[1..][k] == es[k + 1];
        }
        SortedCons(CuttingRecord(es[0]), rest);
      }
    }
  }

  lemma ForecastRecordsSorted(es: seq<Entity>)
    requires KeysAscending(es)
    ensures SortedByDate(ForecastRecords(es))
  {
  }

  /**
   * The query returns a partition's rows in ascending RowKey order, so the sort by date in
   * `calculate_cutting_date` leaves the filtered records in row order.
   */
  lemma CuttingScanInRowOrder(g: Table, serial: Text, resetDay: Text)
    ensures CuttingScan(g, serial, resetDay) == CuttingRecords(KeyRange(PartitionEntities(g, serial), Some(resetDay), None))
    ensures SortedByDate(CuttingScan(g, serial, resetDay))
  {
    var es := KeyRange(PartitionEntities(g, serial), Some(resetDay), None);
    KeyRangeAscending(PartitionEntities(g, serial), Some(resetDay), None);
    CuttingRecordsSorted(es);
    SortByDateOfSorted(CuttingRecords(es));
  }

  lemma ForecastScanInRowOrder(g: Table, serial: Text, resetDay: Text)
    ensures ForecastScan(g, serial, resetDay) == ForecastRecords(KeyRange(PartitionEntities(g, serial), Some(resetDay), None))
    ensures SortedByDate(ForecastScan(g, serial, resetDay))
  {
    var es := KeyRange(PartitionEntities(g, serial), Some(resetDay), None);
    KeyRangeAscending(PartitionEntities(g, serial), Some(resetDay), None);
    ForecastRecordsSorted(es);
    SortByDateOfSorted(ForecastRecords(es));
  }

  /**
   * The cutting date, when there is one, is the RowKey of a stored gdd row of the sensor
   * that has GddActual or GddForecast and is dated on or after the reset day.
   */
  lemma CuttingDateIsStoredDay(g: Table, serial: Text, resetDay: Text, t: real)
    ensures CrossingDate(CuttingScan(g, serial, resetDay), t).Some? ==>
      var d := CrossingDate(CuttingScan(g, serial, resetDay), t).value;
      LexLe(resetDay, d) && d in Partition(g, serial) && HasGdd(Entity(serial, d, Partition(g, serial)[d]))
  {
    var es := KeyRange(PartitionEntities(g, serial), Some(resetDay), None);
    CuttingScanInRowOrder(g, serial, resetDay);
    var vs := CuttingScan(g, serial, resetDay);
    if FirstCrossing(vs, t).Some? {
      var i := FirstCrossing(vs, t).value;
      var j := CuttingRecordOrigin(es, i);
      RangeRowStored(g, serial, resetDay, es[j]);
    }
  }

  /** A row of the reset-day query is a stored row of the sensor dated on or after the reset day. */
  lemma RangeRowStored(g: Table, serial: Text, resetDay: Text, e: Entity)
    requires e in KeyRange(PartitionEntities(g, serial), Some(resetDay), None)
    ensures LexLe(resetDay, e.rowKey) && e.rowKey in Partition(g, serial) && Partition(g, serial)[e.rowKey] == e.props
  {
    var all := PartitionEntities(g, serial);
    var r := KeyRange(all, Some(resetDay), None);
    var i :| 0 <= i < |r| && r[i] == e;
    assert InRange(e.rowKey, Some(resetDay), None) && e in all;
    var k :| 0 <= k < |all| && all[k] == e;
    assert Stored(g, all[k]) && all[k].partitionKey == serial;
  }

  /** Raising `optimal_gdd` never gives an earlier cutting date, and never a date where there was none. */
  lemma CuttingDateMonotone(g: Table, serial: Text, resetDay: Text, t1: real, t2: real)
    requires t1 <= t2
    ensures CrossingDate(CuttingScan(g, serial, resetDay), t2).Some? ==>
      CrossingDate(CuttingScan(g, serial, resetDay), t1).Some?
      && LexLe(CrossingDate(CuttingScan(g, serial, resetDay), t1).value, CrossingDate(CuttingScan(g, serial, resetDay), t2).value)
  {
    var vs := CuttingScan(g, serial, resetDay);
    CuttingScanInRowOrder(g, serial, resetDay);
    CrossingMonotone(vs, t1, t2);
    if FirstCrossing(vs, t2).Some? {
      var i1, i2 := FirstCrossing(vs, t1).value, FirstCrossing(vs, t2).value;
      if i1 == i2 {
        LexLeReflexive(vs[i1].date);
      }
    }
  }

  // ---------------------------------------------------------------------------
  // The forecast scan's filter

  /**
   * The scan as the loop runs it: the total so far in `acc`, the first record whose value
   * is present and brings the total to `t` ends the scan with its date.
   */
  function ScanFrom(vs: seq<Dated<Option<real>>>, t: real, acc: real): Option<Text>
  {
    if vs == [] then None
    else
      var acc' := acc + vs[0].value.GetOr(0.0);
      if vs[0].value.Some? && acc' >= t then Some(vs[0].date) else ScanFrom(vs[1..], t, acc')
  }

  lemma {:induction false} ScanFromCrossing(vs: seq<Dated<Option<real>>>, t: real, i: nat)
    requires i <= |vs|
    requires forall j :: 0 <= j < i ==> !ReachesAt(vs, j, t)
    ensures ScanFrom(vs[i..], t, Accumulated(vs[..i])) ==
      match CrossingFrom(vs, t, i, Accumulated(vs[..i]))
      case None => None
      case Some(k) => Some(vs[k].date)
    decreases |vs| - i
  {
    if i < |vs| {
      var acc := Accumulated(vs[..i]);
      var acc' := acc + vs[i].value.GetOr(0.0);
      assert vs[..i + 1][..i] == vs[..i];
      assert Accumulated(vs[..i + 1]) == acc';
      assert vs[i..][1..] == vs[i + 1..];
      assert ScanFrom(vs[i..], t, acc) == if vs[i].value.Some? && acc' >= t then Some(vs[i].date) else ScanFrom(vs[i + 1..], t, acc');
      assert CrossingFrom(vs, t, i, acc) == if vs[i].value.Some? && acc' >= t then Some(i) else CrossingFrom(vs, t, i + 1, acc');
      if !(vs[i].value.Some? && acc' >= t) {
        assert !ReachesAt(vs, i, t);
        ScanFromCrossing(vs, t, i + 1);
      }
    }
  }

  /** The running-total scan and the first-crossing characterization give the same date. */
  lemma ScanIsCrossingDate(vs: seq<Dated<Option<real>>>, t: real)
    ensures ScanFrom(vs, t, 0.0) == CrossingDate(vs, t)
  {
    ScanFromCrossing(vs, t, 0);
    assert vs[0..] == vs;
  }

  /**
   * Totals 5, then nothing, then 11, then 15: a threshold of 5 is met on the first day, 10
   * on the third (the record without a value is skipped), and 100 never.
   */
  lemma CrossingExample()
    ensures var vs := [Dated("2024-06-01", Some(5.0)), Dated("2024-06-02", None),
                       Dated("2024-06-03", Some(6.0)), Dated("2024-06-04", Some(4.0))];
      CrossingDate(vs, 5.0) == Some("2024-06-01")
      && CrossingDate(vs, 10.0) == Some("2024-06-03")
      && CrossingDate(vs, 100.0) == None
  {
    var vs := [Dated("2024-06-01", Some(5.0)), Dated("2024-06-02", None),
               Dated("2024-06-03", Some(6.0)), Dated("2024-06-04", Some(4.0))];
    ScanIsCrossingDate(vs, 5.0);
    ScanIsCrossingDate(vs, 10.0);
    ScanIsCrossingDate(vs, 100.0);
  }

  /** The evidently intended filter `"GddForecast" in entity`: only rows with a forecast. */
  function ForecastBearing(es: seq<Entity>): (vs: seq<Dated<Option<real>>>)
    ensures |vs| <= |es|
  {
    if es == [] then []
    else
      (if GddForecast in es[0].props then [Dated(es[0].rowKey, Some(Get(es[0].props, GddForecast).GetOr(0.0)))] else [])
        + ForecastBearing(es[1..])
  }

  lemma {:induction false} ScanSkipsRowsWithoutForecast(es: seq<Entity>, t: real, acc: real)
    requires acc < t
    ensures ScanFrom(ForecastRecords(es), t, acc) == ScanFrom(ForecastBearing(es), t, acc)
  {
    if es != [] {
      var all := ForecastRecords(es);
      assert all[1..] == ForecastRecords(es[1..]);
      var acc' := acc + Get(es[0].props, GddForecast).GetOr(0.0);
      if GddForecast in es[0].props {
        if acc' < t {
          ScanSkipsRowsWithoutForecast(es[1..], t, acc');
        }
      } else {
        assert all[0].value == Some(0.0);
        assert ForecastBearing(es) == ForecastBearing(es[1..]);
        ScanSkipsRowsWithoutForecast(es[1..], t, acc);
      }
    }
  }

  /**
   * The filter `"GddForecast" or 0 in entity` is always true, so rows without a forecast
   * enter the scan with value 0; for a positive `optimal_gdd` that never changes the date
   * found, which is the one the filter `"GddForecast" in entity` would give.
   */
  lemma ForecastFilterHarmless(es: seq<Entity>, t: real)
    requires t > 0.0
    ensures CrossingDate(ForecastRecords(es), t) == CrossingDate(ForecastBearing(es), t)
  {
    ScanIsCrossingDate(ForecastRecords(es), t);
    ScanIsCrossingDate(ForecastBearing(es), t);
    ScanSkipsRowsWithoutForecast(es, t, 0.0);
  }

  /** With `optimal_gdd` 0 the first row is the date, even when it has no forecast. */
  lemma ForecastFilterAtZero()
    ensures var es := [Entity("s1", "2024-06-01", map[GddActual := 4.0]), Entity("s1", "2024-06-02", map[GddForecast := 3.0])];
      CrossingDate(ForecastRecords(es), 0.0) == Some("2024-06-01")
      && CrossingDate(ForecastBearing(es), 0.0) == Some("2024-06-02")
  {
    var es := [Entity("s1", "2024-06-01", map[GddActual := 4.0]), Entity("s1", "2024-06-02", map[GddForecast := 3.0])];
    assert GddActual != GddForecast;
    ScanIsCrossingDate(ForecastRecords(es), 0.0);
    ScanIsCrossingDate(ForecastBearing(es), 0.0);
    assert ForecastBearing(es) == [Dated("2024-06-02", Some(3.0))];
  }

  // ---------------------------------------------------------------------------
  // Sums since the reset date

  /** With no negative GDD stored, the sum since the reset date is not negative. */
  lemma SensorGddNonNegative(g: Table, serial: Text, resetDay: Text, today: Text)
    requires forall k, name :: k in Partition(g, serial) && name in Partition(g, serial)[k] ==> Partition(g, serial)[k][name] >= 0.0
    ensures SensorGdd(g, serial, resetDay, today) >= 0.0
  {
    var es := RowsBetween(g, serial, resetDay, today);
    forall i | 0 <= i < |es| ensures ActualOrForecastOrZero(es[i].props) >= 0.0 {
      RowsBetweenStored(g, serial, resetDay, today, i);
      ValueNonNegative(es[i].props);
    }
    SumNonNegative(SensorValues(es));
  }

  /** A row of the date-range query is a stored row of the partition. */
  lemma RowsBetweenStored(g: Table, serial: Text, from: Text, to: Text, i: nat)
    requires i < |RowsBetween(g, serial, from, to)|
    ensures var e := RowsBetween(g, serial, from, to)[i];
      e.rowKey in Partition(g, serial) && Partition(g, serial)[e.rowKey] == e.props
  {
    var all := PartitionEntities(g, serial);
    var e := RowsBetween(g, serial, from, to)[i];
    assert e in all;
    var k :| 0 <= k < |all| && all[k] == e;
    assert Stored(g, all[k]) && all[k].partitionKey == serial;
  }

  lemma ValueNonNegative(props: Attributes)
    requires forall name :: name in props ==> props[name] >= 0.0
    ensures ActualOrForecastOrZero(props) >= 0.0
  {
  }

  function Values(vs: seq<Dated<real>>): (xs: seq<real>)
    ensures |xs| == |vs|
    ensures forall i :: 0 <= i < |vs| ==> xs[i] == vs[i].value
  {
    seq(|vs|, i requires 0 <= i < |vs| => vs[i].value)
  }

  /** When no record predates the reset day, the running total is the plain sum. */
  lemma {:induction false} TotalFromAll(vs: seq<Dated<real>>, resetDay: Text)
    requires forall i :: 0 <= i < |vs| ==> LexLe(resetDay, vs[i].date)
    ensures TotalFrom(vs, resetDay) == Sum(Values(vs))
  {
    if vs != [] {
      var n := |vs| - 1;
      TotalFromAll(vs[..n], resetDay);
      assert Values(vs)[..n] == Values(vs[..n]);
    }
  }

  lemma TotalFromPrefix(vs: seq<Dated<real>>, resetDay: Text, i: nat)
    requires i < |vs|
    requires forall j :: 0 <= j < |vs| ==> LexLe(resetDay, vs[j].date)
    ensures TotalFrom(vs[..i + 1], resetDay) == Sum(Values(vs[..i + 1]))
  {
    var pre := vs[..i + 1];
    assert forall j :: 0 <= j < |pre| ==> pre[j] == vs[j];
    TotalFromAll(pre, resetDay);
  }

  /**
   * Every emitted entry is a record inside the window with the running total through that
   * record, and every record inside the window is emitted.
   */
  lemma CumulativeEntries(vs: seq<Dated<real>>, resetDay: Text, today: Text, weekEnd: Text)
    ensures |Cumulative(vs, resetDay, today, weekEnd)| <= |vs|
    ensures forall k :: 0 <= k < |Cumulative(vs, resetDay, today, weekEnd)| ==>
      InWindow(Cumulative(vs, resetDay, today, weekEnd)[k].date, today, weekEnd)
      && exists i :: 0 <= i < |vs| && Cumulative(vs, resetDay, today, weekEnd)[k] == Dated(vs[i].date, TotalFrom(vs[..i + 1], resetDay))
    ensures forall i :: 0 <= i < |vs| && InWindow(vs[i].date, today, weekEnd) ==>
      Dated(vs[i].date, TotalFrom(vs[..i + 1], resetDay)) in Cumulative(vs, resetDay, today, weekEnd)
  {
    CumulativeEntriesSound(vs, resetDay, today, weekEnd);
    CumulativeEntriesComplete(vs, resetDay, today, weekEnd);
  }

  /** The last record's entry, when it is in the window, ends the series. */
  lemma CumulativeLast(vs: seq<Dated<real>>, resetDay: Text, today: Text, weekEnd: Text)
    requires vs != []
    ensures Cumulative(vs, resetDay, today, weekEnd) == Cumulative(vs[..|vs| - 1], resetDay, today, weekEnd)
      + (if InWindow(vs[|vs| - 1].date, today, weekEnd) then [Dated(vs[|vs| - 1].date, TotalFrom(vs, resetDay))] else [])
  {
  }

  /** Every entry is the running total through some record. */
  lemma {:induction false} CumulativeEntriesSound(vs: seq<Dated<real>>, resetDay: Text, today: Text, weekEnd: Text)
    ensures forall k :: 0 <= k < |Cumulative(vs, resetDay, today, weekEnd)| ==>
      exists i :: 0 <= i < |vs| && Cumulative(vs, resetDay, today, weekEnd)[k] == Dated(vs[i].date, TotalFrom(vs[..i + 1], resetDay))
  {
    if vs != [] {
      var n := |vs| - 1;
      var pre := vs[..n];
      CumulativeEntriesSound(pre, resetDay, today, weekEnd);
      CumulativeLast(vs, resetDay, today, weekEnd);
      var c := Cumulative(vs, resetDay, today, weekEnd);
      var cp := Cumulative(pre, resetDay, today, weekEnd);
      forall k | 0 <= k < |c|
        ensures exists i :: 0 <= i < |vs| && c[k] == Dated(vs[i].date, TotalFrom(vs[..i + 1], resetDay))
      {
        if k < |cp| {
          var i :| 0 <= i < |pre| && cp[k] == Dated(pre[i].date, TotalFrom(pre[..i + 1], resetDay));
          assert vs[..i + 1] == pre[..i + 1] && vs[i] == pre[i];
          assert c[k] == cp[k];
        } else {
          assert vs[..n + 1] == vs;
          assert c[k] == Dated(vs[n].date, TotalFrom(vs[..n + 1], resetDay));
        }
      }
    } else {
      assert Cumulative(vs, resetDay, today, weekEnd) == [];
    }
  }

  /** Every record inside the window has its running total among the entries. */
  lemma {:induction false} CumulativeEntriesComplete(vs: seq<Dated<real>>, resetDay: Text, today: Text, weekEnd: Text)
    ensures forall i :: 0 <= i < |vs| && InWindow(vs[i].date, today, weekEnd) ==>
      Dated(vs[i].date, TotalFrom(vs[..i + 1], resetDay)) in Cumulative(vs, resetDay, today, weekEnd)
  {
    if vs != [] {
      var n := |vs| - 1;
      var pre := vs[..n];
      CumulativeEntriesComplete(pre, resetDay, today, weekEnd);
      CumulativeLast(vs, resetDay, today, weekEnd);
      var c := Cumulative(vs, resetDay, today, weekEnd);
      var cp := Cumulative(pre, resetDay, today, weekEnd);
      forall i | 0 <= i < |vs| && InWindow(vs[i].date, today, weekEnd)
        ensures Dated(vs[i].date, TotalFrom(vs[..i + 1], resetDay)) in c
      {
        if i < n {
          assert vs[..i + 1] == pre[..i + 1] && vs[i] == pre[i];
          assert Dated(pre[i].date, TotalFrom(pre[..i + 1], resetDay)) in cp;
        } else {
          assert vs[..n + 1] == vs;
        }
      }
    }
  }

  /** Records in date order give entries in date order. */
  lemma {:induction false} CumulativeSorted(vs: seq<Dated<real>>, resetDay: Text, today: Text, weekEnd: Text)
    requires SortedByDate(vs)
    ensures SortedByDate(Cumulative(vs, resetDay, today, weekEnd))
  {
    if vs != [] {
      var n := |vs| - 1;
      var pre := vs[..n];
      assert SortedByDate(pre) by {
        forall i, j | 0 <= i < j < |pre| ensures LexLe(pre[i].date, pre[j].date) {
          assert pre[i] == vs[i] && pre[j] == vs[j];
        }
      }
      CumulativeSorted(pre, resetDay, today, weekEnd);
      if InWindow(vs[n].date, today, weekEnd) {
        assert forall i :: 0 <= i < |pre| ==> pre[i] == vs[i];
        CumulativeDatesBelow(pre, resetDay, today, weekEnd, vs[n].date);
        SortedSnoc(Cumulative(pre, resetDay, today, weekEnd), Dated(vs[n].date, TotalFrom(vs, resetDay)));
      }
    }
  }

  /** Records dated no later than `d` give entries dated no later than `d`. */
  lemma {:induction false} CumulativeDatesBelow(vs: seq<Dated<real>>, resetDay: Text, today: Text, weekEnd: Text, d: Text)
    requires forall i :: 0 <= i < |vs| ==> LexLe(vs[i].date, d)
    ensures forall k :: 0 <= k < |Cumulative(vs, resetDay, today, weekEnd)| ==> LexLe(Cumulative(vs, resetDay, today, weekEnd)[k].date, d)
  {
    if vs != [] {
      var n := |vs| - 1;
      assert forall i :: 0 <= i < n ==> vs[..n][i] == vs[i];
      CumulativeDatesBelow(vs[..n], resetDay, today, weekEnd, d);
    }
  }

  lemma SortedSnoc<V>(rs: seq<Dated<V>>, x: Dated<V>)
    requires SortedByDate(rs)
    requires forall j :: 0 <= j < |rs| ==> LexLe(rs[j].date, x.date)
    ensures SortedByDate(rs + [x])
  {
    var r := rs + [x];
    forall a, b | 0 <= a < b < |r| ensures LexLe(r[a].date, r[b].date) {
      if b < |rs| {
        assert r[a] == rs[a] && r[b] == rs[b];
      }
    }
  }

  lemma ForecastPointsSorted(es: seq<Entity>)
    requires KeysAscending(es)
    ensures SortedByDate(ForecastPoints(es))
  {
  }

  /** The sort in `calculate_cumulative_gdd_forecast` leaves the rows in RowKey order. */
  lemma CumulativeScanInRowOrder(g: Table, p: Text, resetDay: Text, weekEnd: Text)
    ensures CumulativeScan(g, p, resetDay, weekEnd) == ForecastPoints(RowsBetween(g, p, resetDay, weekEnd))
    ensures SortedByDate(CumulativeScan(g, p, resetDay, weekEnd))
    ensures forall i :: 0 <= i < |CumulativeScan(g, p, resetDay, weekEnd)| ==>
      LexLe(resetDay, CumulativeScan(g, p, resetDay, weekEnd)[i].date)
  {
    var es := RowsBetween(g, p, resetDay, weekEnd);
    KeyRangeAscending(PartitionEntities(g, p), Some(resetDay), Some(weekEnd));
    ForecastPointsSorted(es);
    SortByDateOfSorted(ForecastPoints(es));
    RowsBetweenFrom(g, p, resetDay, weekEnd);
    ForecastPointsFrom(es, resetDay);
  }

  lemma RowsBetweenFrom(g: Table, p: Text, from: Text, to: Text)
    ensures forall i :: 0 <= i < |RowsBetween(g, p, from, to)| ==> LexLe(from, RowsBetween(g, p, from, to)[i].rowKey)
  {
    var es := RowsBetween(g, p, from, to);
    assert forall i :: 0 <= i < |es| ==> InRange(es[i].rowKey, Some(from), Some(to));
  }

  lemma ForecastPointsFrom(es: seq<Entity>, from: Text)
    requires forall i :: 0 <= i < |es| ==> LexLe(from, es[i].rowKey)
    ensures forall i :: 0 <= i < |ForecastPoints(es)| ==> LexLe(from, ForecastPoints(es)[i].date)
  {
  }

  /**
   * Over sorted records none of which predates the reset day, the entries are in date order,
   * lie in the window, and each carries the plain sum of the records up to and including it.
   */
  lemma RunningSums(vs: seq<Dated<real>>, resetDay: Text, today: Text, weekEnd: Text)
    requires SortedByDate(vs)
    requires forall i :: 0 <= i < |vs| ==> LexLe(resetDay, vs[i].date)
    ensures SortedByDate(Cumulative(vs, resetDay, today, weekEnd))
    ensures forall k :: 0 <= k < |Cumulative(vs, resetDay, today, weekEnd)| ==>
      InWindow(Cumulative(vs, resetDay, today, weekEnd)[k].date, today, weekEnd)
      && exists i :: 0 <= i < |vs| && Cumulative(vs, resetDay, today, weekEnd)[k] == Dated(vs[i].date, Sum(Values(vs[..i + 1])))
    ensures forall i :: 0 <= i < |vs| && InWindow(vs[i].date, today, weekEnd) ==>
      Dated(vs[i].date, Sum(Values(vs[..i + 1]))) in Cumulative(vs, resetDay, today, weekEnd)
  {
    var c := Cumulative(vs, resetDay, today, weekEnd);
    CumulativeSorted(vs, resetDay, today, weekEnd);
    CumulativeEntries(vs, resetDay, today, weekEnd);
    TotalsArePlainSums(vs, resetDay);
    forall k | 0 <= k < |c| ensures exists i :: 0 <= i < |vs| && c[k] == Dated(vs[i].date, Sum(Values(vs[..i + 1]))) {
      var i :| 0 <= i < |vs| && c[k] == Dated(vs[i].date, TotalFrom(vs[..i + 1], resetDay));
    }
  }

  /** With no record before the reset day, every running total is the plain sum of its prefix. */
  lemma TotalsArePlainSums(vs: seq<Dated<real>>, resetDay: Text)
    requires forall j :: 0 <= j < |vs| ==> LexLe(resetDay, vs[j].date)
    ensures forall n :: 0 < n <= |vs| ==> TotalFrom(vs[..n], resetDay) == Sum(Values(vs[..n]))
  {
    forall n | 0 < n <= |vs| ensures TotalFrom(vs[..n], resetDay) == Sum(Values(vs[..n])) {
      TotalFromPrefix(vs, resetDay, n - 1);
    }
  }

  /**
   * `calculate_cumulative_gdd_forecast` emits, in ascending date order, exactly the records
   * dated inside [today, weekEnd]; each carries the sum of the values of all records up to
   * and including it, the ones before the window among them.
   */
  lemma CumulativeForecastSums(g: Table, p: Text, resetDay: Text, today: Text, weekEnd: Text)
    ensures SortedByDate(Cumulative(CumulativeScan(g, p, resetDay, weekEnd), resetDay, today, weekEnd))
    ensures forall k :: 0 <= k < |Cumulative(CumulativeScan(g, p, resetDay, weekEnd), resetDay, today, weekEnd)| ==>
      var vs := CumulativeScan(g, p, resetDay, weekEnd);
      InWindow(Cumulative(vs, resetDay, today, weekEnd)[k].date, today, weekEnd)
      && exists i :: 0 <= i < |vs| && Cumulative(vs, resetDay, today, weekEnd)[k] == Dated(vs[i].date, Sum(Values(vs[..i + 1])))
  {
    CumulativeScanInRowOrder(g, p, resetDay, weekEnd);
    RunningSums(CumulativeScan(g, p, resetDay, weekEnd), resetDay, today, weekEnd);
  }

  /** The order of the June dates the examples use. */
  lemma JuneDays()
    ensures LexLe("2024-06-01", "2024-06-01") && LexLe("2024-06-01", "2024-06-02") && LexLe("2024-06-01", "2024-06-03")
    ensures !LexLe("2024-06-02", "2024-06-01")
    ensures InWindow("2024-06-02", "2024-06-02", "2024-06-09") && InWindow("2024-06-03", "2024-06-02", "2024-06-09")
  {
    var day := "2024-06-0";
    assert "2024-06-01" == day + ['1'] + [];
    assert "2024-06-02" == day + ['2'] + [];
    assert "2024-06-03" == day + ['3'] + [];
    assert "2024-06-09" == day + ['9'] + [];
    LexLtAtDifference(day, '1', '2', [], []);
    LexLtAtDifference(day, '1', '3', [], []);
    LexLtAtDifference(day, '2', '3', [], []);
    LexLtAtDifference(day, '2', '9', [], []);
    LexLtAtDifference(day, '3', '9', [], []);
    LexLeReflexive("2024-06-01");
    LexLeReflexive("2024-06-02");
  }

  /** Reset on June 1, window from June 2: the entry for June 2 already holds June 1's value. */
  lemma CumulativeExample()
    ensures Cumulative([Dated("2024-06-01", 4.0), Dated("2024-06-02", 5.0)], "2024-06-01", "2024-06-02", "2024-06-09")
            == [Dated("2024-06-02", 9.0)]
  {
    JuneDays();
    CarriedIntoWindow(Dated("2024-06-01", 4.0), Dated("2024-06-02", 5.0), "2024-06-01", "2024-06-02", "2024-06-09");
  }

  /** A record after the reset day but before the window is carried into the next entry's total. */
  lemma CarriedIntoWindow(x: Dated<real>, y: Dated<real>, resetDay: Text, today: Text, weekEnd: Text)
    requires LexLe(resetDay, x.date) && LexLe(resetDay, y.date)
    requires !InWindow(x.date, today, weekEnd) && InWindow(y.date, today, weekEnd)
    ensures Cumulative([x, y], resetDay, today, weekEnd) == [Dated(y.date, x.value + y.value)]
  {
    CumulativeSnoc([], x, resetDay, today, weekEnd);
    assert [] + [x] == [x];
    CumulativeSnoc([x], y, resetDay, today, weekEnd);
    assert [x] + [y] == [x, y];
  }

  /** One more record: the total and the entries grow by what that record contributes. */
  lemma CumulativeSnoc(vs: seq<Dated<real>>, x: Dated<real>, resetDay: Text, today: Text, weekEnd: Text)
    ensures TotalFrom(vs + [x], resetDay) == TotalFrom(vs, resetDay) + (if LexLe(resetDay, x.date) then x.value else 0.0)
    ensures Cumulative(vs + [x], resetDay, today, weekEnd) == Cumulative(vs, resetDay, today, weekEnd)
      + (if InWindow(x.date, today, weekEnd) then [Dated(x.date, TotalFrom(vs + [x], resetDay))] else [])
  {
    assert (vs + [x])[..|vs|] == vs;
  }

  // ---------------------------------------------------------------------------
  // Seven-day series

  /** Each date with a reading is the date part of a row that carries the attribute. */
  lemma {:induction false} ReadingDatesFrom(rows: seq<Entity>, attr: Text, d: Text)
    requires d in ReadingDates(rows, attr)
    ensures exists j :: 0 <= j < |rows| && attr in rows[j].props && DatePart(rows[j].rowKey) == d
  {
    var n := |rows| - 1;
    if d in ReadingDates(rows[..n], attr) {
      ReadingDatesFrom(rows[..n], attr, d);
      var j :| 0 <= j < n && attr in rows[..n][j].props && DatePart(rows[..n][j].rowKey) == d;
      assert rows[j] == rows[..n][j];
    }
  }

  /** A date of the series is the date part of one of the rows it was computed from. */
  lemma SeriesDateFromRow(rows: seq<Entity>, attr: Text, i: nat)
    requires i < |DailySeries(rows, attr)|
    ensures exists j :: 0 <= j < |rows| && DatePart(rows[j].rowKey) == DailySeries(rows, attr)[i].date
  {
    var s := DailySeries(rows, attr);
    assert s[i].date in Dates(s);
    ReadingDatesFrom(rows, attr, s[i].date);
  }

  /**
   * With timestamp row keys `date time`, the filter `RowKey le weekEnd` drops every row of
   * the last day, so each date of the seven-day series comes strictly before `weekEnd`.
   */
  lemma SevenDayEndsBeforeWeekEnd(w: Table, p: Text, today: Text, weekEnd: Text, attr: Text)
    requires forall k :: k in Partition(w, p) ==> ' ' in k
    ensures forall i :: 0 <= i < |DailySeries(RowsBetween(w, p, today, weekEnd), attr)| ==>
      LexLt(DailySeries(RowsBetween(w, p, today, weekEnd), attr)[i].date, weekEnd)
  {
    var rows := RowsBetween(w, p, today, weekEnd);
    forall i | 0 <= i < |DailySeries(rows, attr)| ensures LexLt(DailySeries(rows, attr)[i].date, weekEnd) {
      SeriesDateFromRow(rows, attr, i);
      var j :| 0 <= j < |rows| && DatePart(rows[j].rowKey) == DailySeries(rows, attr)[i].date;
      WindowRowBeforeWeekEnd(w, p, today, weekEnd, j);
    }
  }

  /** The date part of a timestamp row key within [today, weekEnd] comes before `weekEnd`. */
  lemma WindowRowBeforeWeekEnd(w: Table, p: Text, today: Text, weekEnd: Text, j: nat)
    requires forall k :: k in Partition(w, p) ==> ' ' in k
    requires j < |RowsBetween(w, p, today, weekEnd)|
    ensures LexLt(DatePart(RowsBetween(w, p, today, weekEnd)[j].rowKey), weekEnd)
  {
    var rows := RowsBetween(w, p, today, weekEnd);
    var all := PartitionEntities(w, p);
    assert InRange(rows[j].rowKey, Some(today), Some(weekEnd)) && rows[j] in all;
    var m :| 0 <= m < |all| && all[m] == rows[j];
    assert Stored(w, all[m]) && all[m].partitionKey == p;
    DatePartBelow(rows[j].rowKey, weekEnd);
  }
}
