/**
 * Telemetry field and sensor definitions: the configured lists, lookup by id,
 * id lists, and the consistency check run when the definitions are loaded.
 */
module Metadata {
  import opened Values

  /**
   * One row of a telemetry table: how a value under `sourceKey` in incoming
   * telemetry is labelled and formatted. `transform` names an optional
   * conversion applied before formatting.
   */
  datatype TelemetryField = TelemetryField(
    id: string, caption: string, unit: string, fmt: string, sourceKey: string,
    transform: Option<string>)

  /** A physical sensor, shown as one status LED. */
  datatype SensorDef = SensorDef(id: string, caption: string)

  function Field(id: string, caption: string, unit: string, fmt: string, sourceKey: string): TelemetryField {
    TelemetryField(id, caption, unit, fmt, sourceKey, None)
  }

  /** The unit string of the temperature rows, as the definitions spell it. */
  const DegreesC: string := "\U{00C2}\U{00B0}C"

  const TelemetryFields: seq<TelemetryField> := [
    Field("alt_bmp", "Altitude (BMP280)", "m", "{:.1f}", "alt_bmp"),
    Field("pressure_bmp", "Pressure (BMP280)", "Pa", "{:.0f}", "pressure_bmp"),
    Field("alt_gps", "Altitude (GPS)", "m", "{:.1f}", "alt_gps"),
    Field("alt_6m", "Altitude (6-min Avg)", "m", "{:.1f}", "alt_6m"),
    Field("temp_tc", "Temp (MAX6675)", DegreesC, "{:.1f}", "temp_tc"),
    Field("temp_bmp", "Temp (BMP280)", DegreesC, "{:.2f}", "temp_bmp"),
    Field("temp_dht", "Temp (DHT22)", DegreesC, "{:.1f}", "temp_dht"),
    Field("co", "CO (MQ-7)", "ppm", "{:.3f}", "co"),
    Field("o3", "Ozone (MQ-131)", "ppm", "{:.4f}", "o3"),
    Field("flammable", "Flammable Gas (MQ-2)", "ppm", "{:.3f}", "flammable"),
    Field("speed", "Speed (MPU6050)", "m/s", "{:.2f}", "speed"),
    Field("gps", "GPS (lat, lon)", "", "{:.6f}, {:.6f}", "gps_latlon"),
    Field("rtc", "RTC Time (DS1302)", "", "{}", "rtc_time"),
    Field("batt_voltage", "Battery Voltage (BMS)", "V", "{:.2f}", "batt_voltage"),
    Field("batt_current", "Battery Current (BMS)", "A", "{:.2f}", "batt_current"),
    Field("batt_temp", "Battery Temp (BMS)", DegreesC, "{:.1f}", "batt_temp"),
    Field("lora_rssi", "LoRa RSSI", "dBm", "{:.0f}", "lora_rssi"),
    Field("lora_snr", "LoRa SNR", "dB", "{:.1f}", "lora_snr"),
    Field("lora_packets", "LoRa Packet Count", "", "{}", "lora_packets"),
    Field("cpu", "CPU Load", "%", "{:.1f}", "cpu")
  ]

  const Sensors: seq<SensorDef> := [
    SensorDef("bmp", "BMP180"),
    SensorDef("gps", "GPS"),
    SensorDef("esp32", "ESP32"),
    SensorDef("max6675", "MAX6675"),
    SensorDef("dht22", "DHT22"),
    SensorDef("mpu", "MPU6050"),
    SensorDef("mq131", "MQ131"),
    SensorDef("mq2", "MQ2"),
    SensorDef("mq7", "MQ7"),
    SensorDef("bms", "Battery Management System"),
    SensorDef("rtc", "RTC"),
    SensorDef("lora", "LoRa Radio")
  ]

  ghost predicate Distinct(s: seq<string>) {
    forall i, j :: 0 <= i < j < |s| ==> s[i] != s[j]
  }

  /** The first field whose id is `id`, or `None`. */
  function FieldById(fields: seq<TelemetryField>, id: string): (r: Option<TelemetryField>)
    ensures r.None? <==> forall i :: 0 <= i < |fields| ==> fields[i].id != id
    ensures r.Some? ==> exists i :: 0 <= i < |fields| && fields[i] == r.value && r.value.id == id &&
                                    forall j :: 0 <= j < i ==> fields[j].id != id
  {
    if fields == [] then None
    else if fields[0].id == id then Some(fields[0])
    else
      var r := FieldById(fields[1..], id);
      assert r.Some? ==> exists i :: 0 < i < |fields| && fields[i] == r.value && r.value.id == id &&
                                     forall j :: 0 <= j < i ==> fields[j].id != id by {
        if r.Some? {
          var k :| 0 <= k < |fields[1..]| && fields[1..][k] == r.value && r.value.id == id &&
                   forall j :: 0 <= j < k ==> fields[1..][j].id != id;
          assert forall j :: 0 <= j < k + 1 ==> fields[j].id != id by {
            forall j | 0 <= j < k + 1 ensures fields[j].id != id {
              if j > 0 { assert fields[j] == fields[1..][j - 1]; }
            }
          }
        }
      }
      r
  }

  /** The first sensor whose id is `id`, or `None`. */
  function SensorById(sensors: seq<SensorDef>, id: string): (r: Option<SensorDef>)
    ensures r.None? <==> forall i :: 0 <= i < |sensors| ==> sensors[i].id != id
    ensures r.Some? ==> exists i :: 0 <= i < |sensors| && sensors[i] == r.value && r.value.id == id &&
                                    forall j :: 0 <= j < i ==> sensors[j].id != id
  {
    if sensors == [] then None
    else if sensors[0].id == id then Some(sensors[0])
    else
      var r := SensorById(sensors[1..], id);
      assert r.Some? ==> exists i :: 0 < i < |sensors| && sensors[i] == r.value && r.value.id == id &&
                                     forall j :: 0 <= j < i ==> sensors[j].id != id by {
        if r.Some? {
          var k :| 0 <= k < |sensors[1..]| && sensors[1..][k] == r.value && r.value.id == id &&
                   forall j :: 0 <= j < k ==> sensors[1..][j].id != id;
          assert forall j :: 0 <= j < k + 1 ==> sensors[j].id != id by {
            forall j | 0 <= j < k + 1 ensures sensors[j].id != id {
              if j > 0 { assert sensors[j] == sensors[1..][j - 1]; }
            }
          }
        }
      }
      r
  }

  /** The ids of `fields`, in list order. */
  function FieldIds(fields: seq<TelemetryField>): (ids: seq<string>)
    ensures |ids| == |fields|
    ensures forall i :: 0 <= i < |fields| ==> ids[i] == fields[i].id
  {
    seq(|fields|, i requires 0 <= i < |fields| => fields[i].id)
  }

  /** The ids of `sensors`, in list order. */
  function SensorIds(sensors: seq<SensorDef>): (ids: seq<string>)
    ensures |ids| == |sensors|
    ensures forall i :: 0 <= i < |sensors| ==> ids[i] == sensors[i].id
  {
    seq(|sensors|, i requires 0 <= i < |sensors| => sensors[i].id)
  }

  /** Python `len(ids) != len(set(ids))`. */
  predicate HasDuplicates(ids: seq<string>) {
    |set x | x in ids| != |ids|
  }

  /** The set of a list never has more elements than the list. */
  lemma {:induction false} SetOfListNoLarger(s: seq<string>)
    ensures |set x | x in s| <= |s|
  {
    if s != [] {
      SetOfListNoLarger(s[1..]);
      assert (set x | x in s) == {s[0]} + (set x | x in s[1..]);
    }
  }

  /** The duplicate check by set size finds exactly the lists with a repeated entry. */
  lemma {:induction false} HasDuplicatesIffRepeated(s: seq<string>)
    ensures !HasDuplicates(s) <==> Distinct(s)
  {
    if s != [] {
      var rest := s[1..];
      HasDuplicatesIffRepeated(rest);
      SetOfListNoLarger(rest);
      assert (set x | x in s) == {s[0]} + (set x | x in rest);
      if s[0] in rest {
        var k :| 0 <= k < |rest| && rest[k] == s[0];
        assert s[0] == s[k + 1];
        assert (set x | x in s) == (set x | x in rest);
      } else {
        assert Distinct(s) <==> Distinct(rest) by {
          if Distinct(rest) {
            forall i, j | 0 <= i < j < |s| ensures s[i] != s[j] {
              if i > 0 { assert s[i] == rest[i - 1] && s[j] == rest[j - 1]; }
              else { assert s[j] == rest[j - 1]; }
            }
          }
          if Distinct(s) {
            forall i, j | 0 <= i < j < |rest| ensures rest[i] != rest[j] {
              assert rest[i] == s[i + 1] && rest[j] == s[j + 1];
            }
          }
        }
      }
    }
  }

  datatype MetadataError =
    | DuplicateFieldIds
    | DuplicateSensorIds
    | EmptyFieldIdOrLabel(field: TelemetryField)
    | EmptySensorIdOrLabel(sensor: SensorDef)

  function FirstEmptyField(fields: seq<TelemetryField>): (r: Option<TelemetryField>)
    ensures r.None? <==> forall f :: f in fields ==> f.id != "" && f.caption != ""
    ensures r.Some? ==> r.value in fields && (r.value.id == "" || r.value.caption == "")
  {
    if fields == [] then None
    else if fields[0].id == "" || fields[0].caption == "" then Some(fields[0])
    else FirstEmptyField(fields[1..])
  }

  function FirstEmptySensor(sensors: seq<SensorDef>): (r: Option<SensorDef>)
    ensures r.None? <==> forall s :: s in sensors ==> s.id != "" && s.caption != ""
    ensures r.Some? ==> r.value in sensors && (r.value.id == "" || r.value.caption == "")
  {
    if sensors == [] then None
    else if sensors[0].id == "" || sensors[0].caption == "" then Some(sensors[0])
    else FirstEmptySensor(sensors[1..])
  }

  /**
   * The load-time consistency check: `None` when it passes, otherwise the
   * error it raises, checked in the order duplicates of field ids, duplicates
   * of sensor ids, an empty field id or caption, an empty sensor id or caption.
   */
  function ValidateMetadata(fields: seq<TelemetryField>, sensors: seq<SensorDef>): (r: Option<MetadataError>)
    ensures r.None? <==>
      && Distinct(FieldIds(fields))
      && Distinct(SensorIds(sensors))
      && (forall f :: f in fields ==> f.id != "" && f.caption != "")
      && (forall s :: s in sensors ==> s.id != "" && s.caption != "")
    ensures r == Some(DuplicateFieldIds) <==> !Distinct(FieldIds(fields))
    ensures r.Some? && r.value.EmptyFieldIdOrLabel? ==>
      r.value.field in fields && (r.value.field.id == "" || r.value.field.caption == "")
    ensures r.Some? && r.value.EmptySensorIdOrLabel? ==>
      r.value.sensor in sensors && (r.value.sensor.id == "" || r.value.sensor.caption == "")
  {
    HasDuplicatesIffRepeated(FieldIds(fields));
    HasDuplicatesIffRepeated(SensorIds(sensors));
    if HasDuplicates(FieldIds(fields)) then Some(DuplicateFieldIds)
    else if HasDuplicates(SensorIds(sensors)) then Some(DuplicateSensorIds)
    else match FirstEmptyField(fields)
      case Some(f) => Some(EmptyFieldIdOrLabel(f))
      case None =>
        match FirstEmptySensor(sensors)
        case Some(s) => Some(EmptySensorIdOrLabel(s))
        case None => None
  }

  lemma ConfiguredFieldIdsDistinct()
    ensures Distinct(FieldIds(TelemetryFields))
  {
    var ids := [
      "alt_bmp", "pressure_bmp", "alt_gps", "alt_6m", "temp_tc", "temp_bmp", "temp_dht", "co", "o3",
      "flammable", "speed", "gps", "rtc", "batt_voltage", "batt_current", "batt_temp", "lora_rssi",
      "lora_snr", "lora_packets", "cpu"];
    assert Distinct(ids);
    assert FieldIds(TelemetryFields) == ids;
  }


  lemma ConfiguredSensorIdsDistinct()
    ensures Distinct(SensorIds(Sensors))
  {
    var ids := ["bmp", "gps", "esp32", "max6675", "dht22", "mpu", "mq131", "mq2", "mq7", "bms", "rtc", "lora"];
    assert Distinct(ids);
    assert SensorIds(Sensors) == ids;
  }

  /** The configured definitions pass the check that runs when they are loaded. */
  lemma ConfiguredMetadataIsValid()
    ensures ValidateMetadata(TelemetryFields, Sensors) == None
  {
    ConfiguredFieldIdsDistinct();
    ConfiguredSensorIdsDistinct();
    ConfiguredEntriesNamed();
  }

  lemma ConfiguredEntriesNamed()
    ensures forall f :: f in TelemetryFields ==> f.id != "" && f.caption != ""
    ensures forall s :: s in Sensors ==> s.id != "" && s.caption != ""
  {
    forall i | 0 <= i < |TelemetryFields| ensures TelemetryFields[i].id != "" && TelemetryFields[i].caption != "" {
    }
    forall i | 0 <= i < |Sensors| ensures Sensors[i].id != "" && Sensors[i].caption != "" {
    }
  }

  /** In a list with distinct ids, looking up the id of any entry finds that entry. */
  lemma {:induction false} FieldByOwnId(fields: seq<TelemetryField>, k: nat)
    requires k < |fields|
    requires Distinct(FieldIds(fields))
    ensures FieldById(fields, fields[k].id) == Some(fields[k])
  {
    var r := FieldById(fields, fields[k].id);
    var i :| 0 <= i < |fields| && fields[i] == r.value && r.value.id == fields[k].id &&
             forall j :: 0 <= j < i ==> fields[j].id != fields[k].id;
    assert FieldIds(fields)[i] == FieldIds(fields)[k];
  }

  /** In a list with distinct ids, looking up the id of any sensor finds that sensor. */
  lemma {:induction false} SensorByOwnId(sensors: seq<SensorDef>, k: nat)
    requires k < |sensors|
    requires Distinct(SensorIds(sensors))
    ensures SensorById(sensors, sensors[k].id) == Some(sensors[k])
  {
    var r := SensorById(sensors, sensors[k].id);
    var i :| 0 <= i < |sensors| && sensors[i] == r.value && r.value.id == sensors[k].id &&
             forall j :: 0 <= j < i ==> sensors[j].id != sensors[k].id;
    assert SensorIds(sensors)[i] == SensorIds(sensors)[k];
  }
}
