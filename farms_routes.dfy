/**
 * `GET /farms/farmdashboard`: for every farm of the user one dashboard entry, for every
 * field of the farm one detail with the field's current GDD (the ceiling of the mean of its
 * sensors' GDD since their latest reset) and its earliest stored cutting date.
 *
 * The MySQL lookups are inputs: the farms with their fields and sensors as the query
 * returns them, and the latest reset day of each sensor by SensorId. `today` is the day
 * `calculate_sensor_gdd` reads from the clock.
 */
module FarmsRoutes {
  import opened Wrappers
  import opened Text
  import opened Stats
  import opened AzureTables
  import opened GddSpec
  import opened GddProperties
  import opened TableService
  import opened Records
  import opened Seqs

  /** `FieldDetail`: one field of the farm dashboard. */
  datatype FieldDetail = FieldDetail(fieldId: Text, fieldName: Text, currentGdd: int, optimalCuttingDate: Option<Text>)

  /** `FarmDashboardSchema`: one farm with its field details. */
  datatype FarmDashboard = FarmDashboard(farmId: Text, farmName: Text, farmFields: seq<FieldDetail>)

  /** Each sensor's `calculate_sensor_gdd`, from that sensor's own latest reset day. */
  function SensorGdds(g: Table, sensors: seq<SensorRecord>, resets: Text -> Text, today: Text): (gs: seq<real>)
    ensures |gs| == |sensors|
    ensures forall i :: 0 <= i < |sensors| ==> gs[i] == SensorGdd(g, sensors[i].serialNo, resets(sensors[i].sensorId), today)
  {
    seq(|sensors|, i requires 0 <= i < |sensors| => SensorGdd(g, sensors[i].serialNo, resets(sensors[i].sensorId), today))
  }

  /** The stored cutting dates of the sensors that have one, in sensor order. */
  function CuttingDates(sensors: seq<SensorRecord>): (ds: seq<Text>)
    ensures |ds| <= |sensors|
    ensures forall k :: 0 <= k < |ds| ==> exists i :: 0 <= i < |sensors| && sensors[i].cuttingDate == Some(ds[k])
    ensures forall i :: 0 <= i < |sensors| && sensors[i].cuttingDate.Some? ==> sensors[i].cuttingDate.value in ds
  {
    if sensors == [] then []
    else
      var n := |sensors| - 1;
      var pre := CuttingDates(sensors[..n]);
      assert forall i :: 0 <= i < n ==> sensors[..n][i] == sensors[i];
      pre + if sensors[n].cuttingDate.Some? then [sensors[n].cuttingDate.value] else []
  }

  /** Python's `min(dates) if dates else None` over day texts. */
  function Earliest(ds: seq<Text>): (m: Option<Text>)
    ensures m.None? <==> ds == []
    ensures m.Some? ==> m.value in ds && forall k :: 0 <= k < |ds| ==> LexLe(m.value, ds[k])
  {
    if ds == [] then None
    else
      var n := |ds| - 1;
      match Earliest(ds[..n])
      case None =>
        LexLeReflexive(ds[n]);
        Some(ds[n])
      case Some(m) =>
        assert forall k :: 0 <= k < n ==> ds[k] == ds[..n][k];
        LexLeTotal(m, ds[n]);
        LexLeReflexive(ds[n]);
        LexLeReflexive(m);
        if LexLt(ds[n], m) then
          assert forall k :: 0 <= k < n ==> LexLe(ds[n], ds[k]) by {
            forall k | 0 <= k < n ensures LexLe(ds[n], ds[k]) {
              LexLeTransitive(ds[n], m, ds[k]);
            }
          }
          Some(ds[n])
        else Some(m)
  }

  /** `math.ceil(sum(gdd_values) / len(gdd_values)) if gdd_values else 0`. */
  function CurrentGdd(gdds: seq<real>): (n: int)
    ensures gdds == [] ==> n == 0
    ensures gdds != [] ==> Mean(gdds) <= n as real < Mean(gdds) + 1.0
  {
    if gdds == [] then 0 else Ceil(Mean(gdds))
  }

  /** The detail of one field. */
  function FieldDetailOf(g: Table, field: FieldRecord, resets: Text -> Text, today: Text): (d: FieldDetail)
    ensures d.fieldId == field.fieldId && d.fieldName == field.name
    ensures field.sensors == [] ==> d.currentGdd == 0
    ensures d.optimalCuttingDate.None? <==> forall i :: 0 <= i < |field.sensors| ==> field.sensors[i].cuttingDate.None?
    ensures d.optimalCuttingDate.Some? ==>
      (exists i :: 0 <= i < |field.sensors| && field.sensors[i].cuttingDate == d.optimalCuttingDate)
      && forall i :: 0 <= i < |field.sensors| && field.sensors[i].cuttingDate.Some? ==>
           LexLe(d.optimalCuttingDate.value, field.sensors[i].cuttingDate.value)
  {
    FieldDetail(field.fieldId, field.name, CurrentGdd(SensorGdds(g, field.sensors, resets, today)),
                Earliest(CuttingDates(field.sensors)))
  }

  /** The dashboard entry of one farm: one detail per field, in field order. */
  function FarmDashboardOf(g: Table, farm: FarmRecord, resets: Text -> Text, today: Text): (d: FarmDashboard)
    ensures d.farmId == farm.farmId && d.farmName == farm.name
    ensures |d.farmFields| == |farm.fields|
    ensures forall j :: 0 <= j < |farm.fields| ==> d.farmFields[j] == FieldDetailOf(g, farm.fields[j], resets, today)
    ensures forall j :: 0 <= j < |farm.fields| ==> d.farmFields[j].fieldId == farm.fields[j].fieldId
  {
    FarmDashboard(farm.farmId, farm.name,
                  seq(|farm.fields|, j requires 0 <= j < |farm.fields| => FieldDetailOf(g, farm.fields[j], resets, today)))
  }

  /** The sensor loop of one field, then the mean and the minimum. */
  method ReadFieldDetail(svc: AzureTableService, field: FieldRecord, resets: Text -> Text, today: Text) returns (detail: FieldDetail)
    ensures detail == FieldDetailOf(svc.gdd, field, resets, today)
  {
    var sensors := field.sensors;
    var gddValues: seq<real> := [];
    var cuttingDates: seq<Text> := [];
    var k := 0;
    while k < |sensors|
      invariant 0 <= k <= |sensors|
      invariant gddValues == SensorGdds(svc.gdd, sensors[..k], resets, today)
      invariant cuttingDates == CuttingDates(sensors[..k])
    {
      SensorLoopStep(svc.gdd, sensors, k, resets, today);
      var sensor := sensors[k];
      var latestResetDate := resets(sensor.sensorId);
      var gdd := SensorGdd(svc.gdd, sensor.serialNo, latestResetDate, today);
      gddValues := gddValues + [gdd];
      if sensor.cuttingDate.Some? {
        cuttingDates := cuttingDates + [sensor.cuttingDate.value];
      }
      k := k + 1;
    }
    WholePrefix(sensors);
    var currentGdd := if |gddValues| > 0 then Ceil(Sum(gddValues) / (|gddValues| as real)) else 0;
    var optimalCuttingDate := if |cuttingDates| > 0 then Earliest(cuttingDates) else None;
    detail := FieldDetail(field.fieldId, field.name, currentGdd, optimalCuttingDate);
  }

  /** One more sensor adds its GDD to the values and, when it has one, its cutting date to the dates. */
  lemma SensorLoopStep(g: Table, sensors: seq<SensorRecord>, k: nat, resets: Text -> Text, today: Text)
    requires k < |sensors|
    ensures SensorGdds(g, sensors[..k + 1], resets, today)
            == SensorGdds(g, sensors[..k], resets, today) + [SensorGdd(g, sensors[k].serialNo, resets(sensors[k].sensorId), today)]
    ensures CuttingDates(sensors[..k + 1])
            == CuttingDates(sensors[..k]) + if sensors[k].cuttingDate.Some? then [sensors[k].cuttingDate.value] else []
  {
    assert sensors[..k + 1] == sensors[..k] + [sensors[k]];
    SensorGddsSnoc(g, sensors[..k], sensors[k], resets, today);
    CuttingDatesSnoc(sensors[..k], sensors[k]);
  }

  /** One farm of the dashboard: the detail of each of its fields, in order. */
  method ReadFarm(svc: AzureTableService, farm: FarmRecord, resets: Text -> Text, today: Text)
    returns (dashboard: FarmDashboard)
    ensures dashboard == FarmDashboardOf(svc.gdd, farm, resets, today)
  {
    var farmFields: seq<FieldDetail> := [];
    var j := 0;
    while j < |farm.fields|
      invariant 0 <= j <= |farm.fields|
      invariant |farmFields| == j
      invariant forall b :: 0 <= b < j ==> farmFields[b] == FieldDetailOf(svc.gdd, farm.fields[b], resets, today)
    {
      var detail := ReadFieldDetail(svc, farm.fields[j], resets, today);
      farmFields := farmFields + [detail];
      j := j + 1;
    }
    dashboard := FarmDashboard(farm.farmId, farm.name, farmFields);
  }

  /** `read_farm_dashboard`: one entry per farm, in the order the farms come back. */
  method ReadFarmDashboard(svc: AzureTableService, farms: seq<FarmRecord>, resets: Text -> Text, today: Text)
    returns (response: seq<FarmDashboard>)
    ensures |response| == |farms|
    ensures forall i :: 0 <= i < |farms| ==> response[i] == FarmDashboardOf(svc.gdd, farms[i], resets, today)
  {
    response := [];
    var i := 0;
    while i < |farms|
      invariant 0 <= i <= |farms|
      invariant |response| == i
      invariant forall a :: 0 <= a < i ==> response[a] == FarmDashboardOf(svc.gdd, farms[a], resets, today)
    {
      var dashboard := ReadFarm(svc, farms[i], resets, today);
      response := response + [dashboard];
      i := i + 1;
    }
  }

  // ---------------------------------------------------------------------------
  // Properties

  /** A field's current GDD lies between the smallest and one above the largest sensor bound. */
  lemma CurrentGddBounds(gdds: seq<real>, lo: real, hi: real)
    requires gdds != []
    requires forall i :: 0 <= i < |gdds| ==> lo <= gdds[i] <= hi
    ensures lo <= CurrentGdd(gdds) as real < hi + 1.0
  {
    MeanBounds(gdds, lo, hi);
  }

  /** With one sensor the current GDD is that sensor's GDD rounded up. */
  lemma SingleSensorGdd(x: real)
    ensures CurrentGdd([x]) == Ceil(x)
  {
    assert Sum([x]) == Sum([]) + x;
  }

  lemma SensorGddsSnoc(g: Table, sensors: seq<SensorRecord>, s: SensorRecord, resets: Text -> Text, today: Text)
    ensures SensorGdds(g, sensors + [s], resets, today) == SensorGdds(g, sensors, resets, today) + [SensorGdd(g, s.serialNo, resets(s.sensorId), today)]
  {
    var ss := sensors + [s];
    var a := SensorGdds(g, ss, resets, today);
    var b := SensorGdds(g, sensors, resets, today);
    assert forall i :: 0 <= i < |b| ==> a[i] == b[i] by {
      forall i | 0 <= i < |b| ensures a[i] == b[i] {
        assert ss[i] == sensors[i];
      }
    }
    assert a == b + [a[|b|]];
  }

  lemma CuttingDatesSnoc(sensors: seq<SensorRecord>, s: SensorRecord)
    ensures CuttingDates(sensors + [s]) == CuttingDates(sensors) + if s.cuttingDate.Some? then [s.cuttingDate.value] else []
  {
    assert (sensors + [s])[..|sensors|] == sensors;
  }

  lemma CuttingDatesSnocUndated(sensors: seq<SensorRecord>, s: SensorRecord)
    requires s.cuttingDate.None?
    ensures CuttingDates(sensors + [s]) == CuttingDates(sensors)
  {
    assert (sensors + [s])[..|sensors|] == sensors;
  }

  /**
   * A sensor without a stored cutting date leaves the field's cutting date as it was but
   * still enters the average.
   */
  lemma UndatedSensorStillAveraged(g: Table, field: FieldRecord, s: SensorRecord, resets: Text -> Text, today: Text)
    requires s.cuttingDate.None?
    ensures var more := field.(sensors := field.sensors + [s]);
      && FieldDetailOf(g, more, resets, today).optimalCuttingDate == FieldDetailOf(g, field, resets, today).optimalCuttingDate
      && FieldDetailOf(g, more, resets, today).currentGdd
         == CurrentGdd(SensorGdds(g, field.sensors, resets, today) + [SensorGdd(g, s.serialNo, resets(s.sensorId), today)])
  {
    SensorGddsSnoc(g, field.sensors, s, resets, today);
    CuttingDatesSnocUndated(field.sensors, s);
  }

  /** The cutting date shown for a field is the earliest stored date of its sensors, if any has one. */
  lemma FieldCuttingDateIsEarliest(g: Table, field: FieldRecord, resets: Text -> Text, today: Text)
    ensures var d := FieldDetailOf(g, field, resets, today).optimalCuttingDate;
      && (d.None? <==> forall i :: 0 <= i < |field.sensors| ==> field.sensors[i].cuttingDate.None?)
      && (d.Some? ==> (exists i :: 0 <= i < |field.sensors| && field.sensors[i].cuttingDate == d)
                      && forall i :: 0 <= i < |field.sensors| && field.sensors[i].cuttingDate.Some? ==>
                           LexLe(d.value, field.sensors[i].cuttingDate.value))
  {
    var ds := CuttingDates(field.sensors);
    var d := Earliest(ds);
    if d.Some? {
      var k :| 0 <= k < |ds| && ds[k] == d.value;
      forall i | 0 <= i < |field.sensors| && field.sensors[i].cuttingDate.Some?
        ensures LexLe(d.value, field.sensors[i].cuttingDate.value)
      {
        var m :| 0 <= m < |ds| && ds[m] == field.sensors[i].cuttingDate.value;
      }
    }
  }

  /** Averaging values none of which is negative and rounding up gives no negative number. */
  lemma CurrentGddOfNonNegative(gs: seq<real>)
    requires forall i :: 0 <= i < |gs| ==> gs[i] >= 0.0
    ensures CurrentGdd(gs) >= 0
  {
    if gs != [] {
      SumNonNegative(gs);
      var n := |gs| as real;
      assert Sum(gs) / n >= 0.0;
    }
  }

  /** With no negative value stored in `gdddata`, no field shows a negative current GDD. */
  lemma CurrentGddNonNegative(g: Table, field: FieldRecord, resets: Text -> Text, today: Text)
    requires forall p, k, name :: k in Partition(g, p) && name in Partition(g, p)[k] ==> Partition(g, p)[k][name] >= 0.0
    ensures FieldDetailOf(g, field, resets, today).currentGdd >= 0
  {
    var gs := SensorGdds(g, field.sensors, resets, today);
    forall i | 0 <= i < |gs| ensures gs[i] >= 0.0 {
      SensorGddNonNegative(g, field.sensors[i].serialNo, resets(field.sensors[i].sensorId), today);
    }
    CurrentGddOfNonNegative(gs);
  }
}
