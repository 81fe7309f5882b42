/**
 * The sensor simulator: `create_sensor_data` frames one reading as the CSV payload
 * `serial,timestamp,temperature`, and one run of `generate_past_20_days_data` publishes,
 * for every sensor of every field, one reading per hour of the past 20 days and today.
 *
 * The random number generator is an input: the n-th message of a run draws fraction
 * `draws(n)`, the value `random.random()` would return, from [0, 1). Publishing is the
 * result: the run returns the publications in the order it makes them.
 */
module SensorSimulator {
  import opened Wrappers
  import opened Text
  import opened Stats
  import opened AzureTables
  import opened GddSpec
  import opened Records
  import opened Formats
  import opened Seqs
  import opened DataProcessor

  /** A value `random.random()` can return. */
  type Fraction = u: real | 0.0 <= u < 1.0 witness 0.0

  const SecondsPerHour: int := 3600
  const SecondsPerDay: int := 86400
  /** 21 days of 24 hours. */
  const MessagesPerSensor: nat := 504
  /** The environment default of `MQTT_TOPIC_PREFIX`. */
  const DefaultTopicPrefix: Text := "farms"

  /** `datetime.now().replace(minute=0, second=0, microsecond=0)` on a whole-second clock. */
  function TruncateToHour(now: int): (t: int)
    ensures t <= now < t + SecondsPerHour
    ensures t % SecondsPerHour == 0
  {
    now - now % SecondsPerHour
  }

  /** `random.uniform(lo, hi)` for the draw `u`: `lo + (hi - lo) * u`. */
  function Uniform(lo: real, hi: real, u: Fraction): real
  {
    lo + (hi - lo) * u
  }

  /** `round(x, 2)`, rounding halves upwards. */
  function Round2(x: real): (r: real)
    ensures x - 0.005 <= r <= x + 0.005
  {
    (x * 100.0 + 0.5).Floor as real / 100.0
  }

  /**
   * The temperature `create_sensor_data` generates from draw `u`: a value in [-10, 35]
   * with at most two decimals.
   */
  function Temperature(u: Fraction): (r: real)
    ensures -10.0 <= r <= 35.0
    ensures exists n: int :: r == Hundredths(n)
  {
    var y := Uniform(-10.0, 35.0, u);
    var n := (y * 100.0 + 0.5).Floor;
    assert -1000.0 < y * 100.0 + 0.5 < 3501.0;
    assert -1000 <= n <= 3500;
    assert Round2(y) == Hundredths(n);
    Round2(y)
  }

  /** `f"{sensor_serial},{timestamp},{temperature_actual}"`. */
  function CreateSensorData(f: Formats, serial: Text, timestamp: Text, u: Fraction): (payload: Text)
    ensures ',' !in serial && ',' !in timestamp && ',' !in f.formatNumber(Temperature(u)) ==>
      Split(payload, ',') == [serial, timestamp, f.formatNumber(Temperature(u))]
  {
    var temperature := f.formatNumber(Temperature(u));
    var payload := serial + "," + timestamp + "," + temperature;
    if ',' !in serial && ',' !in timestamp && ',' !in temperature then
      SplitFields(serial, timestamp, temperature);
      payload
    else payload
  }

  lemma SplitFields(a: Text, b: Text, c: Text)
    requires ',' !in a && ',' !in b && ',' !in c
    ensures Split(a + "," + b + "," + c, ',') == [a, b, c]
  {
    assert a + "," + b + "," + c == a + [','] + (b + [','] + c);
    SplitJoin(a, ',', b + [','] + c);
    SplitJoin(b, ',', c);
    SplitNoSeparator(c, ',');
  }

  /**
   * A payload of the simulator, for a serial without a comma, is accepted by the data
   * processor's `on_message` and stored as the reading it was made from: the serial as
   * PartitionKey, the timestamp as RowKey and the generated temperature.
   */
  lemma PayloadDecodes(f: Formats, serial: Text, t: int, u: Fraction)
    requires RoundTrips(f)
    requires ',' !in serial
    ensures DecodeMessage(f, Some(CreateSensorData(f, serial, f.formatTimestamp(t), u)))
            == Success(Entity(serial, f.formatTimestamp(t), map[TemperatureActual := Temperature(u)]))
  {
    var payload := CreateSensorData(f, serial, f.formatTimestamp(t), u);
    assert Split(payload, ',') == [serial, f.formatTimestamp(t), f.formatNumber(Temperature(u))];
    assert f.parseTimestamp(f.formatTimestamp(t)) == Some(t);
    var n :| Temperature(u) == Hundredths(n);
    assert f.parseNumber(f.formatNumber(Hundredths(n))) == Some(Hundredths(n));
  }

  /** `f"{MQTT_TOPIC_PREFIX}/{farm_id}/fields/{field_id}"`. */
  function Topic(prefix: Text, field: FieldRecord): (topic: Text)
    ensures |topic| == |prefix| + |field.farmId| + |field.fieldId| + 9
    ensures topic[..|prefix| + 1] == prefix + "/"
    ensures topic[|topic| - |field.fieldId| - 8..] == "/fields/" + field.fieldId
  {
    prefix + "/" + field.farmId + "/fields/" + field.fieldId
  }

  /** One `publish_message(topic, payload)`. */
  datatype Publication = Publication(topic: Text, payload: Text)

  /** The instant of a sensor's k-th message in a run anchored at `current`: hour k - 480. */
  function Instant(current: int, k: int): (t: int)
    ensures (t - current) % SecondsPerHour == 0
    ensures t < current <==> k < 480
    ensures k == 480 ==> t == current
  {
    current + (k - 480) * SecondsPerHour
  }

  /**
   * The schedule: the instants are strictly increasing, and every whole hour from 480
   * hours before `current` to 23 hours after it is the instant of exactly one message.
   */
  lemma ScheduleCoversEachHourOnce(current: int)
    ensures forall k1, k2 :: 0 <= k1 < k2 < MessagesPerSensor ==> Instant(current, k1) < Instant(current, k2)
    ensures forall h :: -480 <= h <= 23 ==> Instant(current, h + 480) == current + h * SecondsPerHour
    ensures forall k :: 0 <= k < MessagesPerSensor ==>
      current - 480 * SecondsPerHour <= Instant(current, k) <= current + 23 * SecondsPerHour
  {
  }

  /** The messages of one sensor, the n-th drawing `draws(base + n)`. */
  function SensorPublications(topic: Text, serial: Text, current: int, f: Formats, draws: nat -> Fraction, base: nat): (ps: seq<Publication>)
    ensures |ps| == MessagesPerSensor
  {
    seq(MessagesPerSensor, k requires 0 <= k < MessagesPerSensor =>
      Publication(topic, CreateSensorData(f, serial, f.formatTimestamp(Instant(current, k)), draws(base + k))))
  }

  /** The messages of a field's sensors, sensor after sensor, all to the field's topic. */
  function FieldPublications(topic: Text, sensors: seq<SensorRecord>, current: int, f: Formats, draws: nat -> Fraction, base: nat): (ps: seq<Publication>)
    ensures |ps| == MessagesPerSensor * |sensors|
    ensures forall i :: 0 <= i < |ps| ==> ps[i].topic == topic
  {
    if sensors == [] then []
    else
      var n := |sensors| - 1;
      FieldPublications(topic, sensors[..n], current, f, draws, base)
        + SensorPublications(topic, sensors[n].serialNo, current, f, draws, base + MessagesPerSensor * n)
  }

  /** The messages of one run of `generate_past_20_days_data`, field after field. */
  function RunPublications(prefix: Text, fields: seq<FieldRecord>, current: int, f: Formats, draws: nat -> Fraction): (ps: seq<Publication>)
    ensures |ps| == MessagesPerSensor * |AllSensors(fields)|
  {
    if fields == [] then []
    else
      var n := |fields| - 1;
      var before := RunPublications(prefix, fields[..n], current, f, draws);
      before + FieldPublications(Topic(prefix, fields[n]), fields[n].sensors, current, f, draws, |before|)
  }

  /** The day and hour loops for one sensor. */
  method PublishSensor(topic: Text, serial: Text, current: int, f: Formats, draws: nat -> Fraction, base: nat)
    returns (pubs: seq<Publication>)
    ensures pubs == SensorPublications(topic, serial, current, f, draws, base)
  {
    ghost var all := SensorPublications(topic, serial, current, f, draws, base);
    pubs := [];
    var dayOffset := 0;
    while dayOffset < 21
      invariant 0 <= dayOffset <= 21
      invariant pubs == all[..24 * dayOffset]
    {
      var dayTime := current - (20 - dayOffset) * SecondsPerDay;
      var hourOffset := 0;
      while hourOffset < 24
        invariant 0 <= hourOffset <= 24
        invariant pubs == all[..24 * dayOffset + hourOffset]
      {
        var k := 24 * dayOffset + hourOffset;
        assert dayTime + hourOffset * SecondsPerHour == Instant(current, k);
        var timestamp := f.formatTimestamp(dayTime + hourOffset * SecondsPerHour);
        assert all[..k + 1] == all[..k] + [all[k]];
        pubs := pubs + [Publication(topic, CreateSensorData(f, serial, timestamp, draws(base + k)))];
        hourOffset := hourOffset + 1;
      }
      dayOffset := dayOffset + 1;
    }
    assert all[..24 * 21] == all;
  }

  /**
   * `generate_past_20_days_data(fields_with_sensors, current_time)`: every sensor of every
   * field, in order, publishes its 504 messages to its field's topic.
   */
  method GeneratePast20DaysData(prefix: Text, fields: seq<FieldRecord>, current: int, f: Formats, draws: nat -> Fraction)
    returns (pubs: seq<Publication>)
    ensures pubs == RunPublications(prefix, fields, current, f, draws)
  {
    pubs := [];
    var i := 0;
    while i < |fields|
      invariant 0 <= i <= |fields|
      invariant pubs == RunPublications(prefix, fields[..i], current, f, draws)
    {
      RunPublicationsStep(prefix, fields, i, current, f, draws);
      var p := PublishField(Topic(prefix, fields[i]), fields[i].sensors, current, f, draws, |pubs|);
      pubs := pubs + p;
      i := i + 1;
    }
    WholePrefix(fields);
  }

  /** The sensor loop for one field: its sensors' messages in order, numbered from `base`. */
  method PublishField(topic: Text, sensors: seq<SensorRecord>, current: int, f: Formats, draws: nat -> Fraction, base: nat)
    returns (pubs: seq<Publication>)
    ensures pubs == FieldPublications(topic, sensors, current, f, draws, base)
  {
    pubs := [];
    var j := 0;
    while j < |sensors|
      invariant 0 <= j <= |sensors|
      invariant pubs == FieldPublications(topic, sensors[..j], current, f, draws, base)
    {
      FieldPublicationsStep(topic, sensors, j, current, f, draws, base);
      var p := PublishSensor(topic, sensors[j].serialNo, current, f, draws, base + MessagesPerSensor * j);
      pubs := pubs + p;
      j := j + 1;
    }
    WholePrefix(sensors);
  }

  lemma FieldPublicationsStep(topic: Text, sensors: seq<SensorRecord>, j: nat, current: int, f: Formats, draws: nat -> Fraction, base: nat)
    requires j < |sensors|
    ensures FieldPublications(topic, sensors[..j + 1], current, f, draws, base)
            == FieldPublications(topic, sensors[..j], current, f, draws, base)
               + SensorPublications(topic, sensors[j].serialNo, current, f, draws, base + MessagesPerSensor * j)
  {
    assert sensors[..j + 1][..j] == sensors[..j];
  }

  lemma RunPublicationsStep(prefix: Text, fields: seq<FieldRecord>, i: nat, current: int, f: Formats, draws: nat -> Fraction)
    requires i < |fields|
    ensures RunPublications(prefix, fields[..i + 1], current, f, draws)
            == RunPublications(prefix, fields[..i], current, f, draws)
               + FieldPublications(Topic(prefix, fields[i]), fields[i].sensors, current, f, draws,
                                   |RunPublications(prefix, fields[..i], current, f, draws)|)
  {
    assert fields[..i + 1][..i] == fields[..i];
  }

  /** The data processor accepts the payload and stores a temperature in [-10, 35]. */
  predicate Accepted(f: Formats, p: Publication)
  {
    var r := DecodeMessage(f, Some(p.payload));
    r.Success? && TemperatureActual in r.value.props && -10.0 <= r.value.props[TemperatureActual] <= 35.0
  }

  lemma SensorPublicationsAccepted(topic: Text, serial: Text, current: int, f: Formats, draws: nat -> Fraction, base: nat)
    requires RoundTrips(f)
    requires ',' !in serial
    ensures forall k :: 0 <= k < MessagesPerSensor ==> Accepted(f, SensorPublications(topic, serial, current, f, draws, base)[k])
  {
    forall k | 0 <= k < MessagesPerSensor
      ensures Accepted(f, SensorPublications(topic, serial, current, f, draws, base)[k])
    {
      PayloadDecodes(f, serial, Instant(current, k), draws(base + k));
    }
  }

  lemma {:induction false} FieldPublicationsAccepted(topic: Text, sensors: seq<SensorRecord>, current: int, f: Formats, draws: nat -> Fraction, base: nat)
    requires RoundTrips(f)
    requires forall j :: 0 <= j < |sensors| ==> ',' !in sensors[j].serialNo
    ensures forall i :: 0 <= i < |FieldPublications(topic, sensors, current, f, draws, base)| ==>
      Accepted(f, FieldPublications(topic, sensors, current, f, draws, base)[i])
  {
    if sensors != [] {
      var n := |sensors| - 1;
      FieldPublicationsAccepted(topic, sensors[..n], current, f, draws, base);
      SensorPublicationsAccepted(topic, sensors[n].serialNo, current, f, draws, base + MessagesPerSensor * n);
    }
  }

  /**
   * When no serial contains a comma, every message of a run is accepted by `on_message`
   * and carries a temperature in [-10, 35].
   */
  lemma {:induction false} RunPublicationsAccepted(prefix: Text, fields: seq<FieldRecord>, current: int, f: Formats, draws: nat -> Fraction)
    requires RoundTrips(f)
    requires forall j :: 0 <= j < |AllSensors(fields)| ==> ',' !in AllSensors(fields)[j].serialNo
    ensures forall i :: 0 <= i < |RunPublications(prefix, fields, current, f, draws)| ==>
      Accepted(f, RunPublications(prefix, fields, current, f, draws)[i])
  {
    if fields != [] {
      var n := |fields| - 1;
      var done := AllSensors(fields[..n]);
      assert AllSensors(fields) == done + fields[n].sensors;
      assert forall j :: 0 <= j < |done| ==> done[j] == AllSensors(fields)[j];
      assert forall j :: 0 <= j < |fields[n].sensors| ==> fields[n].sensors[j] == AllSensors(fields)[|done| + j];
      RunPublicationsAccepted(prefix, fields[..n], current, f, draws);
      var before := RunPublications(prefix, fields[..n], current, f, draws);
      FieldPublicationsAccepted(Topic(prefix, fields[n]), fields[n].sensors, current, f, draws, |before|);
    }
  }

  /** The messages of the i-th field all go to that field's topic. */
  lemma {:induction false} RunTopics(prefix: Text, fields: seq<FieldRecord>, current: int, f: Formats, draws: nat -> Fraction)
    ensures forall p :: p in RunPublications(prefix, fields, current, f, draws) ==>
      exists i :: 0 <= i < |fields| && p.topic == Topic(prefix, fields[i])
  {
    if fields != [] {
      var n := |fields| - 1;
      RunTopics(prefix, fields[..n], current, f, draws);
      forall p | p in RunPublications(prefix, fields, current, f, draws)
        ensures exists i :: 0 <= i < |fields| && p.topic == Topic(prefix, fields[i])
      {
        if p in RunPublications(prefix, fields[..n], current, f, draws) {
          var i :| 0 <= i < n && p.topic == Topic(prefix, fields[..n][i]);
          assert fields[..n][i] == fields[i];
        } else {
          assert p.topic == Topic(prefix, fields[n]);
        }
      }
    }
  }
}
