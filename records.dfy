/**
 * The MySQL rows the services read, as plain values: the routers, the data processor and
 * the simulator receive them from `MySQLService` and only read them.
 */
module Records {
  import opened Wrappers
  import opened Text

  /** A sensor: its ids, its GDD target, the stored cutting date (the day as `YYYY-MM-DD`) and its state. */
  datatype SensorRecord = SensorRecord(sensorId: Text, serialNo: Text, optimalGdd: int, cuttingDate: Option<Text>, state: Text)

  /** A field with its sensors in the order the query returns them. */
  datatype FieldRecord = FieldRecord(fieldId: Text, farmId: Text, name: Text, altitude: int, sensors: seq<SensorRecord>)

  /** A farm with its fields. */
  datatype FarmRecord = FarmRecord(farmId: Text, name: Text, fields: seq<FieldRecord>)

  /** The sensors of the fields, field after field, each field's in order. */
  function AllSensors(fields: seq<FieldRecord>): (ss: seq<SensorRecord>)
    ensures fields == [] ==> ss == []
  {
    if fields == [] then [] else AllSensors(fields[..|fields| - 1]) + fields[|fields| - 1].sensors
  }
}
