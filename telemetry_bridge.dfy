/**
 * The telemetry file player: reads a replay file (newline-delimited JSON or a
 * JSON array), and for each record emits the telemetry, the sensor status and
 * a trajectory point, pacing the records by their timestamps.
 *
 * Threads, the stop event and sleeping are not modelled as such: a run is a
 * sequence of emitted events in which a sleep is an event, the stop event is
 * observed as set once `stopAfter` records have started, and the wall
 * clock is a parameter.
 */
module TelemetryBridge {
  import opened Values

  /** The player's configuration. */
  datatype Player = Player(filePath: string, realtime: bool, speed: real, defaultInterval: real, loop: bool)

  /** A new player: a speed that is not positive is replaced by 1.0. */
  function NewPlayer(filePath: string, realtime: bool, speed: real, defaultInterval: real, loop: bool): (p: Player)
    ensures p.speed > 0.0
    ensures speed > 0.0 ==> p.speed == speed
    ensures speed <= 0.0 ==> p.speed == 1.0
    ensures p.filePath == filePath && p.realtime == realtime && p.defaultInterval == defaultInterval && p.loop == loop
  {
    Player(filePath, realtime, if speed > 0.0 then speed else 1.0, defaultInterval, loop)
  }

  // ---------------------------------------------------------------------------
  // Timestamps

  /** Numeric epochs above 1e12 are milliseconds. */
  const MsThreshold: real := 1000000000000.0

  /**
   * A timestamp value in seconds: numbers (booleans count as 0 and 1) as
   * seconds or, above 1e12, milliseconds; strings as ISO 8601 with a final
   * 'Z' read as "+00:00"; anything else (or a string that does not parse)
   * gives `None`.
   */
  function TsValue(ts: Value, rt: Runtime): (r: Option<real>)
    ensures ts.Null? || ts.List? || ts.Tuple? || ts.Dict? ==> r.None?
    ensures ts.Num? && ts.r > MsThreshold ==> r == Some(ts.r / 1000.0)
    ensures ts.Num? && ts.r <= MsThreshold ==> r == Some(ts.r)
    ensures ts.Str? && EndsWith(ts.s, "Z") ==> r == rt.fromIsoFormat(ts.s[..|ts.s| - 1] + "+00:00")
  {
    match ts
    case Null => None
    case Num(x) => if x > MsThreshold then Some(x / 1000.0) else Some(x)
    case Bool(b) => Some(if b then 1.0 else 0.0)
    case Str(s) => rt.fromIsoFormat(if EndsWith(s, "Z") then s[..|s| - 1] + "+00:00" else s)
    case _ => None
  }

  /**
   * The record's timestamp: its `ts` value when that is truthy, and its
   * `timestamp` value otherwise; `None` when it has neither.
   */
  function ParseTs(record: map<string, Value>, rt: Runtime): (r: Option<real>)
    ensures "ts" !in record && "timestamp" !in record ==> r.None?
    ensures Truthy(Get(record, "ts")) ==> r == TsValue(record["ts"], rt)
    ensures !Truthy(Get(record, "ts")) ==> r == TsValue(Get(record, "timestamp"), rt)
  {
    TsValue(Or(Get(record, "ts"), Get(record, "timestamp")), rt)
  }

  // ---------------------------------------------------------------------------
  // Reading the replay file

  /** Line ends as text-mode reading recognises them. */
  predicate IsLineBreak(c: char) {
    c == '\n' || c == '\r'
  }

  /**
   * The file's text cut at every line end. A "\r\n" pair gives an extra empty
   * piece, which the blank-line rule drops like any other.
   */
  function Segments(s: string): (lines: seq<string>)
    ensures |lines| >= 1
  {
    if s == [] then [""]
    else
      var rest := Segments(s[1..]);
      if IsLineBreak(s[0]) then [""] + rest else [[s[0]] + rest[0]] + rest[1..]
  }

  /** What one line contributes: nothing when blank or not valid JSON, else its decoded value. */
  function LineRecord(line: string, rt: Runtime): seq<Value> {
    var s := Strip(line);
    if s == "" then []
    else match rt.jsonLoads(s)
      case Some(v) => [v]
      case None => []
  }

  /** The records of a newline-delimited file, in file order. */
  function NdjsonRecords(lines: seq<string>, rt: Runtime): seq<Value> {
    FlatMap(lines, line => LineRecord(line, rt))
  }

  /** Records of consecutive parts of a file are the parts' records, in order. */
  lemma NdjsonConcat(a: seq<string>, b: seq<string>, rt: Runtime)
    ensures NdjsonRecords(a + b, rt) == NdjsonRecords(a, rt) + NdjsonRecords(b, rt)
  {
    FlatMapAppend(a, b, line => LineRecord(line, rt));
  }

  lemma SingleLine(line: string, rt: Runtime)
    ensures NdjsonRecords([line], rt) == LineRecord(line, rt)
  {
    FlatMapSnoc([], line, l => LineRecord(l, rt));
    assert [] + [line] == [line];
  }

  /** The records of the first i + 1 lines: those of the first i, then line i's. */
  lemma NdjsonPrefixStep(lines: seq<string>, i: nat, rt: Runtime)
    requires i < |lines|
    ensures NdjsonRecords(lines[..i + 1], rt) == NdjsonRecords(lines[..i], rt) + LineRecord(lines[i], rt)
  {
    assert lines[..i + 1] == lines[..i] + [lines[i]];
    NdjsonConcat(lines[..i], [lines[i]], rt);
    SingleLine(lines[i], rt);
  }

  /** Line `i` contributes its own record (or nothing) between those of the lines before and after it. */
  lemma LineInPlace(lines: seq<string>, i: nat, rt: Runtime)
    requires i < |lines|
    ensures NdjsonRecords(lines, rt) ==
      NdjsonRecords(lines[..i], rt) + LineRecord(lines[i], rt) + NdjsonRecords(lines[i + 1..], rt)
  {
    assert lines == lines[..i] + ([lines[i]] + lines[i + 1..]);
    NdjsonConcat(lines[..i], [lines[i]] + lines[i + 1..], rt);
    NdjsonConcat([lines[i]], lines[i + 1..], rt);
    SingleLine(lines[i], rt);
  }

  /** A blank or undecodable line can be removed without changing the records or their order. */
  lemma SkippedLineChangesNothing(lines: seq<string>, i: nat, rt: Runtime)
    requires i < |lines|
    requires Strip(lines[i]) == "" || rt.jsonLoads(Strip(lines[i])).None?
    ensures NdjsonRecords(lines, rt) == NdjsonRecords(lines[..i] + lines[i + 1..], rt)
  {
    LineInPlace(lines, i, rt);
    NdjsonConcat(lines[..i], lines[i + 1..], rt);
  }

  /** A non-blank line that decodes gives a record, after those of the earlier lines and before those of the later ones. */
  lemma DecodedLineKept(lines: seq<string>, i: nat, v: Value, rt: Runtime)
    requires i < |lines| && Strip(lines[i]) != "" && rt.jsonLoads(Strip(lines[i])) == Some(v)
    ensures NdjsonRecords(lines, rt) == NdjsonRecords(lines[..i], rt) + [v] + NdjsonRecords(lines[i + 1..], rt)
  {
    LineInPlace(lines, i, rt);
  }

  /** Every record is the decoding of some non-blank line. */
  lemma {:induction false} RecordsComeFromLines(lines: seq<string>, rt: Runtime)
    ensures forall r :: r in NdjsonRecords(lines, rt) ==>
      exists i :: 0 <= i < |lines| && Strip(lines[i]) != "" && rt.jsonLoads(Strip(lines[i])) == Some(r)
  {
    if lines != [] {
      var init := lines[..|lines| - 1];
      RecordsComeFromLines(init, rt);
      LineInPlace(lines, |lines| - 1, rt);
      assert lines[..|lines| - 1] == init && lines[|lines|..] == [];
      forall r | r in NdjsonRecords(lines, rt)
        ensures exists i :: 0 <= i < |lines| && Strip(lines[i]) != "" && rt.jsonLoads(Strip(lines[i])) == Some(r)
      {
        if r in NdjsonRecords(init, rt) {
          var i :| 0 <= i < |init| && Strip(init[i]) != "" && rt.jsonLoads(Strip(init[i])) == Some(r);
          assert init[i] == lines[i];
        } else {
          var i := |lines| - 1;
          assert Strip(lines[i]) != "" && rt.jsonLoads(Strip(lines[i])) == Some(r);
        }
      }
    }
  }

  /**
   * The records of a file as intended: none for an empty file, the decoded
   * array for a file starting with '[', the decodable lines otherwise.
   */
  function LoadRecords(content: string, rt: Runtime): (r: Result<seq<Value>>)
    ensures content == [] ==> r == Ok([])
    ensures content != [] && content[0] != '[' ==> r == Ok(NdjsonRecords(Segments(content), rt))
    ensures content != [] && content[0] == '[' && r.Ok? ==> rt.jsonLoadFile(content) == Some(List(r.value))
  {
    if content == [] then Ok([])
    else if content[0] == '[' then
      match rt.jsonLoadFile(content)
      case Some(List(xs)) => Ok(xs)
      case _ => Err(ValueError)
    else Ok(NdjsonRecords(Segments(content), rt))
  }

  /**
   * The records of a file as the reader is written. The reader is a
   * generator, so returning the decoded array from it ends the iteration
   * with no items: an array file yields nothing (or raises when it does not
   * decode).
   */
  function OpenRecordsAsWritten(content: string, rt: Runtime): Result<seq<Value>> {
    if content == [] then Ok([])
    else if content[0] == '[' then
      if rt.jsonLoadFile(content).Some? then Ok([]) else Err(ValueError)
    else Ok(NdjsonRecords(Segments(content), rt))
  }

  /**
   * The records of the replay file, read as the reader is written. `None` is
   * a file that cannot be read: `open()` raises `OSError` for a missing or
   * unreadable file (a file that is not UTF-8 raises a `ValueError` instead,
   * which the run treats the same way).
   */
  function FileRecordsAsWritten(file: Option<string>, rt: Runtime): Result<seq<Value>> {
    if file.None? then Err(OSError) else OpenRecordsAsWritten(file.value, rt)
  }

  /** An array file with records plays nothing as written, and plays its records as intended. */
  lemma ArrayFilePlaysNothingAsWritten(content: string, xs: seq<Value>, rt: Runtime)
    requires content != [] && content[0] == '['
    requires rt.jsonLoadFile(content) == Some(List(xs)) && xs != []
    ensures OpenRecordsAsWritten(content, rt) == Ok([])
    ensures LoadRecords(content, rt) == Ok(xs)
  {
  }

  /** The two readers agree on every file that does not start with '['. */
  lemma ReadersAgreeOnNdjson(content: string, rt: Runtime)
    requires content == [] || content[0] != '['
    ensures OpenRecordsAsWritten(content, rt) == LoadRecords(content, rt)
  {
  }

  /**
   * Reads the records of a file as the reader is written: the decodable
   * non-blank lines in order, and nothing for an array file.
   */
  method OpenRecords(content: string, rt: Runtime) returns (r: Result<seq<Value>>)
    ensures r == OpenRecordsAsWritten(content, rt)
  {
    if content == [] {
      return Ok([]);
    }
    if content[0] == '[' {
      if rt.jsonLoadFile(content).Some? {
        return Ok([]);
      }
      return Err(ValueError);
    }
    var lines := Segments(content);
    var records: seq<Value> := [];
    var i := 0;
    while i < |lines|
      invariant 0 <= i <= |lines|
      invariant records == NdjsonRecords(lines[..i], rt)
    {
      NdjsonPrefixStep(lines, i, rt);
      var line := Strip(lines[i]);
      if line != "" {
        var decoded := rt.jsonLoads(line);
        if decoded.Some? {
          records := records + [decoded.value];
        }
      }
      i := i + 1;
    }
    assert lines[..i] == lines;
    return Ok(records);
  }

  // ---------------------------------------------------------------------------
  // Emitting one record

  /** The point sent to the trajectory chart. */
  datatype TrajectoryPoint = TrajectoryPoint(t: real, lat: real, lon: real, altExpected: Value, altActual: Value)

  /** What the player emits, in order; sleeping is an event too. */
  datatype Event =
    | TelemetryUpdated(telemetry: map<string, Value>)
    | SensorStatusUpdated(sensors: map<string, Value>)
    | TrajectoryAppended(point: TrajectoryPoint)
    | Slept(seconds: real)

  /** The record's telemetry: `telemetry`, else `data`, else an empty dictionary. */
  function Telemetry(record: map<string, Value>): Value {
    Or(Or(Get(record, "telemetry"), Get(record, "data")), Dict(map[]))
  }

  /** When both coordinates convert to numbers, `gps_latlon` becomes the pair of them. */
  function WithGpsPair(m: map<string, Value>, rt: Runtime): map<string, Value> {
    if "gps_lat" in m && "gps_lon" in m then
      match (ToFloat(m["gps_lat"], rt), ToFloat(m["gps_lon"], rt))
      case (Some(a), Some(b)) => m["gps_latlon" := Tuple([Num(a), Num(b)])]
      case _ => m
    else m
  }

  function Items(v: Value): seq<Value> {
    match v
    case List(xs) => xs
    case Tuple(xs) => xs
    case _ => []
  }

  /** The "lat, lon" text with six decimals each. */
  function CoordinateText(lat: real, lon: real, rt: Runtime): string {
    rt.fixed6(lat) + ", " + rt.fixed6(lon)
  }

  /**
   * A list or pair under `gps_latlon` becomes its "lat, lon" text; a list
   * that is not a pair of numbers raises, given here as `None`.
   */
  function WithGpsText(m: map<string, Value>, rt: Runtime): (r: Option<map<string, Value>>)
    ensures r.Some? ==> r.value.Keys == m.Keys
    ensures r.Some? ==> forall k :: k in m && k != "gps_latlon" ==> r.value[k] == m[k]
    ensures r.Some? && "gps_latlon" in r.value ==> !r.value["gps_latlon"].List? && !r.value["gps_latlon"].Tuple?
    ensures r.None? ==> "gps_latlon" in m && (m["gps_latlon"].List? || m["gps_latlon"].Tuple?)
  {
    if "gps_latlon" in m && (m["gps_latlon"].List? || m["gps_latlon"].Tuple?) then
      var pair := Items(m["gps_latlon"]);
      if |pair| != 2 then None
      else match (FixedArgument(pair[0]), FixedArgument(pair[1]))
        case (Some(a), Some(b)) => Some(m["gps_latlon" := Str(CoordinateText(a, b, rt))])
        case _ => None
    else Some(m)
  }

  /** The telemetry as forwarded, or `None` when normalising the position raises. */
  function NormalizedTelemetry(m: map<string, Value>, rt: Runtime): Option<map<string, Value>> {
    WithGpsText(WithGpsPair(m, rt), rt)
  }

  /**
   * Numeric coordinates reach the table as one "lat, lon" text with six
   * decimals each; every other key is forwarded unchanged.
   */
  lemma GpsLatLonBecomesText(m: map<string, Value>, rt: Runtime)
    requires "gps_lat" in m && "gps_lon" in m
    requires ToFloat(m["gps_lat"], rt).Some? && ToFloat(m["gps_lon"], rt).Some?
    ensures NormalizedTelemetry(m, rt) ==
      Some(m["gps_latlon" := Str(CoordinateText(ToFloat(m["gps_lat"], rt).value, ToFloat(m["gps_lon"], rt).value, rt))])
  {
    var a := ToFloat(m["gps_lat"], rt).value;
    var b := ToFloat(m["gps_lon"], rt).value;
    var m1 := m["gps_latlon" := Tuple([Num(a), Num(b)])];
    assert WithGpsPair(m, rt) == m1;
    assert Items(m1["gps_latlon"]) == [Num(a), Num(b)];
    assert FixedArgument(Num(a)) == Some(a) && FixedArgument(Num(b)) == Some(b);
    var text := Str(CoordinateText(a, b, rt));
    assert WithGpsText(m1, rt) == Some(m1["gps_latlon" := text]);
    assert m1["gps_latlon" := text] == m["gps_latlon" := text];
  }

  /** The forwarded altitude: `alt_gps` when truthy, else `alt_bmp`, else 0.0. */
  function Altitude(m: map<string, Value>): (alt: Value)
    ensures Truthy(Get(m, "alt_gps")) ==> alt == m["alt_gps"]
    ensures !Truthy(Get(m, "alt_gps")) && Get(m, "alt_bmp") != Null ==> alt == m["alt_bmp"]
    ensures !Truthy(Get(m, "alt_gps")) && Get(m, "alt_bmp") == Null ==> alt == Num(0.0)
  {
    var a := Or(Get(m, "alt_gps"), Get(m, "alt_bmp"));
    if a.Null? then Num(0.0) else a
  }

  /** The time given to a trajectory point: the record's timestamp, or the clock when that is missing or 0. */
  function PointTime(record: map<string, Value>, now: real, rt: Runtime): real {
    var ts := ParseTs(record, rt);
    if ts.Some? && ts.value != 0.0 then ts.value else now
  }

  /**
   * The trajectory point of a record, present exactly when both coordinates
   * are present and convert to numbers; its expected and actual altitude are
   * the same forwarded altitude.
   */
  function TrajectoryOf(m: map<string, Value>, record: map<string, Value>, now: real, rt: Runtime): (pt: Option<TrajectoryPoint>)
    ensures pt.Some? <==>
      Get(m, "gps_lat") != Null && Get(m, "gps_lon") != Null &&
      ToFloat(Get(m, "gps_lat"), rt).Some? && ToFloat(Get(m, "gps_lon"), rt).Some?
    ensures pt.Some? ==>
      && Some(pt.value.lat) == ToFloat(m["gps_lat"], rt) && Some(pt.value.lon) == ToFloat(m["gps_lon"], rt)
      && pt.value.altExpected == pt.value.altActual == Altitude(m)
      && pt.value.t == PointTime(record, now, rt)
  {
    var lat := Get(m, "gps_lat");
    var lon := Get(m, "gps_lon");
    if lat.Null? || lon.Null? then None
    else match (ToFloat(lat, rt), ToFloat(lon, rt))
      case (Some(a), Some(b)) => Some(TrajectoryPoint(PointTime(record, now, rt), a, b, Altitude(m), Altitude(m)))
      case _ => None
  }

  /** The sensor-status event: only for a dictionary under `sensors`. */
  function SensorEvents(record: map<string, Value>): seq<Event> {
    match Get(record, "sensors")
    case Dict(s) => [SensorStatusUpdated(s)]
    case _ => []
  }

  /** The events of one record, and whether emitting it finished without raising. */
  datatype Emission = Emission(events: seq<Event>, completed: bool)

  /**
   * What one record emits. A dictionary of telemetry is forwarded (with its
   * position normalised), then the sensor status, then the trajectory point.
   * Telemetry that is not a dictionary makes the emitter raise: a string or
   * list that contains "gps_latlon" raises at once, any other string or list
   * after the sensor status, and a number at the first membership test.
   */
  function EmitOutcome(record: map<string, Value>, now: real, rt: Runtime): Emission {
    match Telemetry(record)
    case Dict(m) =>
      (match NormalizedTelemetry(m, rt)
       case None => Emission([], false)
       case Some(m2) =>
         var traj := match TrajectoryOf(m2, record, now, rt)
           case Some(pt) => [TrajectoryAppended(pt)]
           case None => [];
         Emission([TelemetryUpdated(m2)] + SensorEvents(record) + traj, true))
    case Str(s) => if Contains(s, "gps_latlon") then Emission([], false) else Emission(SensorEvents(record), false)
    case List(xs) => if Str("gps_latlon") in xs then Emission([], false) else Emission(SensorEvents(record), false)
    case _ => Emission([], false)
  }

  /**
   * A sensor-status event carries the record's `sensors` dictionary and is
   * emitted only when there is one; a record whose emission completes emits
   * it exactly when there is one.
   */
  lemma SensorStatusOnlyForDict(record: map<string, Value>, now: real, rt: Runtime)
    ensures forall e :: e in EmitOutcome(record, now, rt).events && e.SensorStatusUpdated? ==>
      Get(record, "sensors") == Dict(e.sensors)
    ensures EmitOutcome(record, now, rt).completed && Get(record, "sensors").Dict? ==>
      SensorStatusUpdated(Get(record, "sensors").entries) in EmitOutcome(record, now, rt).events
  {
  }

  /**
   * A completed emission starts with the forwarded telemetry, whose
   * `gps_latlon` is never a list or pair; a trajectory point in it has the
   * forwarded coordinates and the forwarded altitude as both altitudes.
   */
  lemma EmissionShape(record: map<string, Value>, now: real, rt: Runtime)
    ensures var e := EmitOutcome(record, now, rt);
      e.completed ==>
        && Telemetry(record).Dict?
        && NormalizedTelemetry(Telemetry(record).entries, rt).Some?
        && var m2 := NormalizedTelemetry(Telemetry(record).entries, rt).value;
        && e.events[0] == TelemetryUpdated(m2)
        && ("gps_latlon" in m2 ==> !m2["gps_latlon"].List? && !m2["gps_latlon"].Tuple?)
        && forall ev :: ev in e.events && ev.TrajectoryAppended? ==>
             ev.point.altExpected == ev.point.altActual == Altitude(m2) && Some(ev.point.lat) == ToFloat(Get(m2, "gps_lat"), rt)
  {
    var e := EmitOutcome(record, now, rt);
    if e.completed {
      var m2 := NormalizedTelemetry(Telemetry(record).entries, rt).value;
      var pt := TrajectoryOf(m2, record, now, rt);
      assert forall ev :: ev in e.events && ev.TrajectoryAppended? ==> pt.Some? && ev.point == pt.value;
    }
  }

  /**
   * Emits one record step by step: normalises the position in the telemetry
   * dictionary, then emits the telemetry, the sensor status and the
   * trajectory point in that order.
   */
  method EmitRecord(record: map<string, Value>, now: real, rt: Runtime) returns (events: seq<Event>, completed: bool)
    ensures Emission(events, completed) == EmitOutcome(record, now, rt)
  {
    events := [];
    var telemetry := Telemetry(record);
    if !telemetry.Dict? {
      if (telemetry.Str? && !Contains(telemetry.s, "gps_latlon")) || (telemetry.List? && Str("gps_latlon") !in telemetry.items) {
        events := SensorEvents(record);
      }
      return events, false;
    }
    var m := telemetry.entries;
    if "gps_lat" in m && "gps_lon" in m {
      var lat := ToFloat(m["gps_lat"], rt);
      var lon := ToFloat(m["gps_lon"], rt);
      if lat.Some? && lon.Some? {
        m := m["gps_latlon" := Tuple([Num(lat.value), Num(lon.value)])];
      }
    }
    assert m == WithGpsPair(telemetry.entries, rt);
    if "gps_latlon" in m && (m["gps_latlon"].List? || m["gps_latlon"].Tuple?) {
      var pair := Items(m["gps_latlon"]);
      if |pair| != 2 {
        return [], false;
      }
      var a := FixedArgument(pair[0]);
      var b := FixedArgument(pair[1]);
      if a.None? || b.None? {
        return [], false;
      }
      m := m["gps_latlon" := Str(CoordinateText(a.value, b.value, rt))];
    }
    events := events + [TelemetryUpdated(m)];
    events := events + SensorEvents(record);
    var lat := Get(m, "gps_lat");
    var lon := Get(m, "gps_lon");
    var alt := Or(Get(m, "alt_gps"), Get(m, "alt_bmp"));
    if lat != Null && lon != Null {
      var t := PointTime(record, now, rt);
      var la := ToFloat(lat, rt);
      var lo := ToFloat(lon, rt);
      if la.Some? && lo.Some? {
        var altValue := if alt.Null? then Num(0.0) else alt;
        events := events + [TrajectoryAppended(TrajectoryPoint(t, la.value, lo.value, altValue, altValue))];
      }
    }
    completed := true;
  }

  // ---------------------------------------------------------------------------
  // Pacing and the run loop

  /** What happens before a record is emitted. */
  datatype Pacing = NoWait | Wait(seconds: real) | BadWait

  /**
   * The pause before a record. In realtime mode: the timestamp difference
   * scaled by the speed (never negative) when both timestamps exist, nothing
   * for the first timestamped record, and the default interval scaled by the
   * speed for a record without a timestamp (a negative interval makes the
   * sleep raise). Without realtime there is no pause.
   */
  function Pace(p: Player, ts: Option<real>, prev: Option<real>): (w: Pacing)
    ensures w.Wait? ==> w.seconds >= 0.0
    ensures !p.realtime ==> w == NoWait
    ensures p.realtime && ts.Some? && prev.Some? ==> w == Wait(Max(0.0, (ts.value - prev.value) / Max(0.0001, p.speed)))
    ensures p.realtime && ts.Some? && prev.None? ==> w == NoWait
    ensures p.realtime && ts.None? && p.defaultInterval >= 0.0 ==> w == Wait(p.defaultInterval / Max(0.0001, p.speed))
    ensures w.BadWait? <==> p.realtime && ts.None? && p.defaultInterval < 0.0
  {
    if p.realtime && ts.Some? && prev.Some? then
      Wait(Max(0.0, (ts.value - prev.value) / Max(0.0001, p.speed)))
    else if p.realtime && ts.None? then
      var s := p.defaultInterval / Max(0.0001, p.speed);
      if s < 0.0 then BadWait else Wait(s)
    else NoWait
  }

  /** At double speed, records ten seconds apart are emitted five seconds apart. */
  lemma PaceAtDoubleSpeed()
    ensures Pace(Player("", true, 2.0, 0.5, false), Some(110.0), Some(100.0)) == Wait(5.0)
  {
  }

  /** The pause between passes of a looping run. */
  const PassPause: real := 0.1

  /** How a run ended: an empty file, the stop event, the end of a single pass, or an exception. */
  datatype RunEnd = NoRecords | Stopped | Finished | Aborted

  /** An emission never sleeps: pauses come only from pacing and between passes. */
  lemma EmissionNeverSleeps(record: map<string, Value>, now: real, rt: Runtime)
    ensures forall e :: e in EmitOutcome(record, now, rt).events ==> !e.Slept?
  {
  }

  // The records of one pass. `base` is the run's number of the pass's first
  // record and `i` the position in the pass; the clock reading at 2j stands
  // for the wall clock while the run's j-th record is emitted, and the one at
  // 2j + 1 for the wall clock just after.

  /** A record's timestamp; a record that is not a dictionary has none. */
  function TsOf(rec: Value, rt: Runtime): Option<real> {
    if rec.Dict? then ParseTs(rec.entries, rt) else None
  }

  /** What a record emits; a record that is not a dictionary emits nothing and stops the run. */
  function OutcomeOf(rec: Value, now: real, rt: Runtime): Emission {
    if rec.Dict? then EmitOutcome(rec.entries, now, rt) else Emission([], false)
  }

  /**
   * The two things a pass needs to know about a record: its timestamp, and
   * what it emits given the clock reading.
   */
  datatype RecordSemantics = RecordSemantics(ts: Value -> Option<real>, emit: (Value, real) -> Emission)

  /** The record semantics of the bridge under the runtime `rt`. */
  function Semantics(rt: Runtime): RecordSemantics {
    RecordSemantics(rec => TsOf(rec, rt), (rec, now) => OutcomeOf(rec, now, rt))
  }

  /** No record emission of the bridge sleeps. */
  ghost predicate NeverSleeps(sem: RecordSemantics) {
    forall rec, now, e :: e in sem.emit(rec, now).events ==> !e.Slept?
  }

  lemma BridgeNeverSleeps(rt: Runtime)
    ensures NeverSleeps(Semantics(rt))
  {
    forall rec, now, e | e in Semantics(rt).emit(rec, now).events
      ensures !e.Slept?
    {
      if rec.Dict? {
        EmissionNeverSleeps(rec.entries, now, rt);
      }
    }
  }

  /** The previous timestamp: the record's own, or the clock when that is missing or 0. */
  function NextPrev(ts: Option<real>, now: real): real {
    if ts.Some? && ts.value != 0.0 then ts.value else now
  }

  /** The previous timestamp seen by record i of a pass; none for the first. */
  function PrevIn(recs: seq<Value>, base: nat, i: nat, clock: nat -> real, sem: RecordSemantics): Option<real>
    requires i < |recs|
  {
    if i == 0 then None else Some(NextPrev(sem.ts(recs[i - 1]), clock(2 * (base + i - 1) + 1)))
  }

  function PaceIn(p: Player, recs: seq<Value>, base: nat, i: nat, clock: nat -> real, sem: RecordSemantics): Pacing
    requires i < |recs|
  {
    Pace(p, sem.ts(recs[i]), PrevIn(recs, base, i, clock, sem))
  }

  function OutcomeIn(recs: seq<Value>, base: nat, i: nat, clock: nat -> real, sem: RecordSemantics): Emission
    requires i < |recs|
  {
    sem.emit(recs[i], clock(2 * (base + i)))
  }

  /** Record i of a pass cannot be started: it is not a dictionary, or its pause raises. */
  predicate BlockedIn(p: Player, recs: seq<Value>, base: nat, i: nat, clock: nat -> real, sem: RecordSemantics)
    requires i < |recs|
  {
    !recs[i].Dict? || PaceIn(p, recs, base, i, clock, sem).BadWait?
  }

  function WaitEvents(w: Pacing): seq<Event> {
    if w.Wait? then [Slept(w.seconds)] else []
  }

  /** The events of record i of a pass: its pause, then its emission. */
  function ChunkIn(p: Player, recs: seq<Value>, base: nat, i: nat, clock: nat -> real, sem: RecordSemantics): seq<Event>
    requires i < |recs|
  {
    WaitEvents(PaceIn(p, recs, base, i, clock, sem)) + OutcomeIn(recs, base, i, clock, sem).events
  }

  /** The events of the first c records of a pass. */
  function PassTrace(p: Player, recs: seq<Value>, base: nat, c: nat, clock: nat -> real, sem: RecordSemantics): seq<Event>
    requires c <= |recs|
  {
    if c == 0 then [] else PassTrace(p, recs, base, c - 1, clock, sem) + ChunkIn(p, recs, base, c - 1, clock, sem)
  }

  /** The first c records of a pass were started, and all but the last completed. */
  ghost predicate PassStarted(p: Player, recs: seq<Value>, base: nat, c: nat, clock: nat -> real, sem: RecordSemantics)
    requires c <= |recs|
  {
    forall i :: 0 <= i < c ==>
      !BlockedIn(p, recs, base, i, clock, sem) && (i < c - 1 ==> OutcomeIn(recs, base, i, clock, sem).completed)
  }

  /** The emission of the record before the c-th of the pass, if any, completed. */
  predicate PassLastOk(recs: seq<Value>, base: nat, c: nat, clock: nat -> real, sem: RecordSemantics)
    requires c <= |recs|
  {
    c == 0 || OutcomeIn(recs, base, c - 1, clock, sem).completed
  }

  // The whole run, record j counting over all passes.

  /** The position within its pass of the run's j-th record. */
  function PassIndex(j: nat, n: nat): (k: nat)
    requires n > 0
    ensures k < n && k <= j
    ensures j < n ==> k == j
  {
    if j < n then j else PassIndex(j - n, n)
  }

  lemma {:induction false} PassIndexWithinPass(base: nat, i: nat, n: nat)
    requires n > 0 && PassIndex(base, n) == 0 && i < n
    ensures PassIndex(base + i, n) == i
  {
    if base >= n {
      PassIndexWithinPass(base - n, i, n);
    }
  }

  /** The run's record j, i records into a pass that starts at `base`, is record i of that pass. */
  lemma PassIndexAt(base: nat, i: nat, j: nat, n: nat)
    requires n > 0 && PassIndex(base, n) == 0 && i < n && j == base + i
    ensures PassIndex(j, n) == i && PassBase(j, n) == base
  {
    PassIndexWithinPass(base, i, n);
  }

  /** A whole pass later, the position within the pass is the same. */
  lemma PassIndexNextPass(j: nat, n: nat, k: nat)
    requires n > 0 && k == j + n
    ensures PassIndex(k, n) == PassIndex(j, n)
  {
    assert k - n == j;
  }

  /** The run's number of the first record of the pass holding its j-th record. */
  function PassBase(j: nat, n: nat): nat
    requires n > 0
  {
    j - PassIndex(j, n)
  }

  /** The j-th record the run emits. */
  function RecAt(recs: seq<Value>, j: nat): Value
    requires recs != []
  {
    recs[PassIndex(j, |recs|)]
  }

  function PaceAt(p: Player, recs: seq<Value>, j: nat, clock: nat -> real, sem: RecordSemantics): Pacing
    requires recs != []
  {
    PaceIn(p, recs, PassBase(j, |recs|), PassIndex(j, |recs|), clock, sem)
  }

  function OutcomeAt(recs: seq<Value>, j: nat, clock: nat -> real, sem: RecordSemantics): Emission
    requires recs != []
  {
    OutcomeIn(recs, PassBase(j, |recs|), PassIndex(j, |recs|), clock, sem)
  }

  predicate BlockedAt(p: Player, recs: seq<Value>, j: nat, clock: nat -> real, sem: RecordSemantics)
    requires recs != []
  {
    BlockedIn(p, recs, PassBase(j, |recs|), PassIndex(j, |recs|), clock, sem)
  }

  /** The emission of the record before the m-th, if any, completed. */
  predicate LastOk(recs: seq<Value>, m: nat, clock: nat -> real, sem: RecordSemantics)
    requires recs != []
  {
    m == 0 || OutcomeAt(recs, m - 1, clock, sem).completed
  }

  /** Records remain after the first m: always when looping, else within the single pass. */
  predicate MoreToPlay(p: Player, recs: seq<Value>, m: nat) {
    p.loop || m < |recs|
  }

  /** The first m records were all started, and all but the last completed. */
  ghost predicate Started(p: Player, recs: seq<Value>, m: nat, clock: nat -> real, sem: RecordSemantics)
    requires recs != []
  {
    forall j :: 0 <= j < m ==> !BlockedAt(p, recs, j, clock, sem) && (j < m - 1 ==> OutcomeAt(recs, j, clock, sem).completed)
  }

  /** The pause between passes, before the first record of every pass but the first. */
  function PauseBefore(recs: seq<Value>, j: nat): seq<Event>
    requires recs != []
  {
    if j > 0 && PassIndex(j, |recs|) == 0 then [Slept(PassPause)] else []
  }

  /** The events of the run's j-th record: its pause, then its emission. */
  function ChunkAt(p: Player, recs: seq<Value>, j: nat, clock: nat -> real, sem: RecordSemantics): seq<Event>
    requires recs != []
  {
    ChunkIn(p, recs, PassBase(j, |recs|), PassIndex(j, |recs|), clock, sem)
  }

  /**
   * The events of the first m records of a run: for each record, the pause
   * between passes when it heads a pass after the first, then its own events.
   */
  function ExpectedTrace(p: Player, recs: seq<Value>, m: nat, clock: nat -> real, sem: RecordSemantics): seq<Event>
    requires recs != []
  {
    if m == 0 then []
    else ExpectedTrace(p, recs, m - 1, clock, sem) + PauseBefore(recs, m - 1) + ChunkAt(p, recs, m - 1, clock, sem)
  }

  /**
   * Events after those of the last record: the pause between passes, which a
   * looping run takes before it notices the stop event, and which precedes a
   * record that cannot be started at the head of a later pass.
   */
  function Tail(p: Player, recs: seq<Value>, m: nat, end: RunEnd, clock: nat -> real, sem: RecordSemantics): seq<Event>
    requires recs != []
  {
    if m > 0 && ((end == Stopped && p.loop) ||
                 (end == Aborted && LastOk(recs, m, clock, sem) && PassIndex(m, |recs|) == 0))
    then [Slept(PassPause)]
    else []
  }

  /**
   * What a run over the non-empty records `recs` that started m records
   * emits, and how it ended: it stops only at the stop event while records
   * remain, finishes only after a complete single pass, and aborts only
   * when an emission raises or the next record cannot be started.
   */
  ghost predicate RunOutcome(p: Player, recs: seq<Value>, clock: nat -> real, sem: RecordSemantics,
                             stopAfter: nat, m: nat, trace: seq<Event>, end: RunEnd)
    requires recs != []
  {
    && m <= stopAfter
    && (!p.loop ==> m <= |recs|)
    && Started(p, recs, m, clock, sem)
    && trace == ExpectedTrace(p, recs, m, clock, sem) + Tail(p, recs, m, end, clock, sem)
    && end != NoRecords
    && (end == Finished <==> !MoreToPlay(p, recs, m) && LastOk(recs, m, clock, sem))
    && (end == Stopped <==> m == stopAfter && MoreToPlay(p, recs, m) && LastOk(recs, m, clock, sem))
    && (end == Aborted <==>
          !LastOk(recs, m, clock, sem) ||
          (m < stopAfter && MoreToPlay(p, recs, m) && BlockedAt(p, recs, m, clock, sem)))
  }

  /** Every pause a run emits is non-negative. */
  lemma {:induction false} SleepsNonNegative(p: Player, recs: seq<Value>, m: nat, clock: nat -> real, sem: RecordSemantics)
    requires recs != [] && NeverSleeps(sem)
    ensures forall e :: e in ExpectedTrace(p, recs, m, clock, sem) && e.Slept? ==> e.seconds >= 0.0
  {
    if m > 0 {
      SleepsNonNegative(p, recs, m - 1, clock, sem);
      ChunkSleepsNonNegative(p, recs, PassBase(m - 1, |recs|), PassIndex(m - 1, |recs|), clock, sem);
    }
  }

  lemma ChunkSleepsNonNegative(p: Player, recs: seq<Value>, base: nat, i: nat, clock: nat -> real, sem: RecordSemantics)
    requires i < |recs| && NeverSleeps(sem)
    ensures forall e :: e in ChunkIn(p, recs, base, i, clock, sem) && e.Slept? ==> e.seconds >= 0.0
  {
    var now := clock(2 * (base + i));
    assert forall e :: e in sem.emit(recs[i], now).events ==> !e.Slept?;
  }

  /** Without realtime, the only pauses are those between passes. */
  lemma {:induction false} NoRecordPausesWithoutRealtime(p: Player, recs: seq<Value>, m: nat, clock: nat -> real, sem: RecordSemantics)
    requires recs != [] && !p.realtime && NeverSleeps(sem)
    ensures forall e :: e in ExpectedTrace(p, recs, m, clock, sem) && e.Slept? ==> e.seconds == PassPause
  {
    if m > 0 {
      NoRecordPausesWithoutRealtime(p, recs, m - 1, clock, sem);
      ChunkNeverPausesWithoutRealtime(p, recs, PassBase(m - 1, |recs|), PassIndex(m - 1, |recs|), clock, sem);
    }
  }

  lemma ChunkNeverPausesWithoutRealtime(p: Player, recs: seq<Value>, base: nat, i: nat, clock: nat -> real, sem: RecordSemantics)
    requires i < |recs| && !p.realtime && NeverSleeps(sem)
    ensures forall e :: e in ChunkIn(p, recs, base, i, clock, sem) ==> !e.Slept?
  {
    var now := clock(2 * (base + i));
    assert forall e :: e in sem.emit(recs[i], now).events ==> !e.Slept?;
  }

  /** Each pass starts with no previous timestamp, so its first timestamped record is emitted without a pause. */
  lemma FirstOfPassNoPause(p: Player, recs: seq<Value>, j: nat, clock: nat -> real, sem: RecordSemantics)
    requires recs != [] && PassIndex(j, |recs|) == 0 && sem.ts(RecAt(recs, j)).Some?
    ensures PaceAt(p, recs, j, clock, sem) == NoWait
  {
  }

  /** Inside a pass that starts at record `base`, the run's record j == base + i is record i of the pass. */
  lemma RunRecordInPass(p: Player, recs: seq<Value>, base: nat, i: nat, j: nat, clock: nat -> real, sem: RecordSemantics)
    requires recs != [] && PassIndex(base, |recs|) == 0 && i < |recs| && j == base + i
    ensures PassIndex(j, |recs|) == i && PassBase(j, |recs|) == base
    ensures RecAt(recs, j) == recs[i]
    ensures PaceAt(p, recs, j, clock, sem) == PaceIn(p, recs, base, i, clock, sem)
    ensures OutcomeAt(recs, j, clock, sem) == OutcomeIn(recs, base, i, clock, sem)
    ensures BlockedAt(p, recs, j, clock, sem) == BlockedIn(p, recs, base, i, clock, sem)
  {
    PassIndexAt(base, i, j, |recs|);
  }

  /** The run's events up to record m, the c-th of a pass, are those before the pass, its pause, and the pass's own. */
  lemma {:induction false} RunTraceOfPass(p: Player, recs: seq<Value>, base: nat, before: seq<Event>, c: nat, m: nat,
                                          clock: nat -> real, sem: RecordSemantics)
    requires recs != [] && PassIndex(base, |recs|) == 0 && 0 < c <= |recs| && m == base + c
    requires before == ExpectedTrace(p, recs, base, clock, sem) + PauseBefore(recs, base)
    ensures ExpectedTrace(p, recs, m, clock, sem) == before + PassTrace(p, recs, base, c, clock, sem)
  {
    var last, k := m - 1, c - 1;
    if k > 0 {
      RunTraceOfPass(p, recs, base, before, k, last, clock, sem);
    }
    RunTraceStep(p, recs, base, before, k, c, last, m, clock, sem);
  }

  /** One more record of a pass adds its events to the run's. */
  lemma RunTraceStep(p: Player, recs: seq<Value>, base: nat, before: seq<Event>, k: nat, c: nat, last: nat, m: nat,
                     clock: nat -> real, sem: RecordSemantics)
    requires recs != [] && PassIndex(base, |recs|) == 0 && k < |recs| && c == k + 1
    requires last == base + k && m == last + 1
    requires before == ExpectedTrace(p, recs, base, clock, sem) + PauseBefore(recs, base)
    requires k > 0 ==> ExpectedTrace(p, recs, last, clock, sem) == before + PassTrace(p, recs, base, k, clock, sem)
    ensures ExpectedTrace(p, recs, m, clock, sem) == before + PassTrace(p, recs, base, c, clock, sem)
  {
    var chunk, earlier := ChunkIn(p, recs, base, k, clock, sem), PassTrace(p, recs, base, k, clock, sem);
    var prefix := ExpectedTrace(p, recs, last, clock, sem) + PauseBefore(recs, last);
    ChunkInPass(p, recs, base, k, last, clock, sem);
    ExpectedTraceStep(p, recs, last, m, clock, sem);
    PassTraceNext(p, recs, base, k, c, clock, sem);
    if k == 0 {
      AppendEmpty(before, earlier);
    } else {
      AppendEmpty(ExpectedTrace(p, recs, last, clock, sem), PauseBefore(recs, last));
    }
    AppendAssociative(before, earlier, chunk);
  }

  lemma AppendEmpty(a: seq<Event>, b: seq<Event>)
    requires b == []
    ensures a + b == a
  {
  }

  /** The run's record `last`, record k of a pass, has that record's events, and the pause between passes only at k == 0. */
  lemma ChunkInPass(p: Player, recs: seq<Value>, base: nat, k: nat, last: nat, clock: nat -> real, sem: RecordSemantics)
    requires recs != [] && PassIndex(base, |recs|) == 0 && k < |recs| && last == base + k
    ensures ChunkAt(p, recs, last, clock, sem) == ChunkIn(p, recs, base, k, clock, sem)
    ensures PauseBefore(recs, last) == if k == 0 then PauseBefore(recs, base) else []
  {
    PassIndexAt(base, k, last, |recs|);
  }

  lemma ExpectedTraceStep(p: Player, recs: seq<Value>, last: nat, m: nat, clock: nat -> real, sem: RecordSemantics)
    requires recs != [] && m == last + 1
    ensures ExpectedTrace(p, recs, m, clock, sem) ==
      ExpectedTrace(p, recs, last, clock, sem) + PauseBefore(recs, last) + ChunkAt(p, recs, last, clock, sem)
  {
  }

  lemma PassTraceNext(p: Player, recs: seq<Value>, base: nat, k: nat, c: nat, clock: nat -> real, sem: RecordSemantics)
    requires k < |recs| && c == k + 1
    ensures PassTrace(p, recs, base, c, clock, sem) == PassTrace(p, recs, base, k, clock, sem) + ChunkIn(p, recs, base, k, clock, sem)
  {
  }

  lemma AppendAssociative(a: seq<Event>, b: seq<Event>, c: seq<Event>)
    ensures (a + b) + c == a + (b + c)
  {
  }

  /** The run's records up to the c-th of a pass, record m of the run, were started exactly when the pass's were too. */
  lemma RunStartedOfPass(p: Player, recs: seq<Value>, base: nat, c: nat, m: nat, clock: nat -> real, sem: RecordSemantics)
    requires recs != [] && PassIndex(base, |recs|) == 0 && c <= |recs| && m == base + c
    requires Started(p, recs, base, clock, sem) && LastOk(recs, base, clock, sem)
    requires PassStarted(p, recs, base, c, clock, sem)
    ensures Started(p, recs, m, clock, sem)
    ensures c > 0 ==> (LastOk(recs, m, clock, sem) <==> PassLastOk(recs, base, c, clock, sem))
  {
    forall j | base <= j < m
      ensures !BlockedAt(p, recs, j, clock, sem) && (j < m - 1 ==> OutcomeAt(recs, j, clock, sem).completed)
    {
      RunRecordInPass(p, recs, base, j - base, j, clock, sem);
    }
    if c > 0 {
      RunRecordInPass(p, recs, base, c - 1, m - 1, clock, sem);
    }
  }

  /** How one pass over the records ended. */
  datatype PassEnd = PassDone | PassStopped | PassAborted

  /** What became of one record of a pass. */
  datatype RecordEnd = Blocked | Emitted | Raised

  /**
   * Handles record i of a pass: gives up when it is not a dictionary or its
   * pause raises; otherwise pauses, emits it, and works out the previous
   * timestamp for the next record.
   */
  method PlayRecord(p: Player, records: seq<Value>, sem: RecordSemantics, clock: nat -> real,
                    base: nat, i: nat, prev: Option<real>, trace0: seq<Event>)
    returns (trace: seq<Event>, nextPrev: Option<real>, how: RecordEnd)
    requires i < |records| && prev == PrevIn(records, base, i, clock, sem)
    ensures how == Blocked <==> BlockedIn(p, records, base, i, clock, sem)
    ensures how == Blocked ==> trace == trace0
    ensures how != Blocked ==> trace == trace0 + ChunkIn(p, records, base, i, clock, sem)
    ensures how == Emitted <==> !BlockedIn(p, records, base, i, clock, sem) && OutcomeIn(records, base, i, clock, sem).completed
    ensures how == Emitted && i + 1 < |records| ==> nextPrev == PrevIn(records, base, i + 1, clock, sem)
  {
    trace := trace0;
    nextPrev := prev;
    var rec := records[i];
    if !rec.Dict? {
      return trace, nextPrev, Blocked;
    }
    var ts := sem.ts(rec);
    var pace := Pace(p, ts, prev);
    if pace.BadWait? {
      return trace, nextPrev, Blocked;
    }
    trace := trace + WaitEvents(pace);
    var emission := sem.emit(rec, clock(2 * (base + i)));
    trace := trace + emission.events;
    if !emission.completed {
      return trace, nextPrev, Raised;
    }
    nextPrev := Some(NextPrev(ts, clock(2 * (base + i) + 1)));
    how := Emitted;
  }

  lemma PassTraceStep(p: Player, recs: seq<Value>, base: nat, c: nat, clock: nat -> real, sem: RecordSemantics)
    requires c < |recs|
    ensures PassTrace(p, recs, base, c + 1, clock, sem) == PassTrace(p, recs, base, c, clock, sem) + ChunkIn(p, recs, base, c, clock, sem)
  {
  }

  lemma PassStartedStep(p: Player, recs: seq<Value>, base: nat, c: nat, clock: nat -> real, sem: RecordSemantics)
    requires c < |recs|
    requires PassStarted(p, recs, base, c, clock, sem) && PassLastOk(recs, base, c, clock, sem)
    requires !BlockedIn(p, recs, base, c, clock, sem)
    ensures PassStarted(p, recs, base, c + 1, clock, sem)
  {
  }

  /**
   * How a pass that handled `count` records ended: it is done only after
   * every record completed, stops only at the stop event, and aborts only
   * when an emission raised or the next record cannot be started.
   */
  ghost predicate PassOutcome(p: Player, recs: seq<Value>, base: nat, stopAfter: nat, clock: nat -> real,
                              sem: RecordSemantics, count: nat, how: PassEnd)
    requires count <= |recs|
  {
    && (how == PassDone <==> count == |recs| && PassLastOk(recs, base, count, clock, sem))
    && (how == PassStopped <==>
          count < |recs| && base + count == stopAfter && PassLastOk(recs, base, count, clock, sem))
    && (how == PassAborted <==>
          !PassLastOk(recs, base, count, clock, sem) ||
          (count < |recs| && base + count < stopAfter && BlockedIn(p, recs, base, count, clock, sem)))
  }

  lemma PassOutcomeStopped(p: Player, recs: seq<Value>, base: nat, stopAfter: nat, clock: nat -> real,
                           sem: RecordSemantics, count: nat)
    requires count < |recs| && base + count == stopAfter && PassLastOk(recs, base, count, clock, sem)
    ensures PassOutcome(p, recs, base, stopAfter, clock, sem, count, PassStopped)
  {
  }

  lemma PassOutcomeBlocked(p: Player, recs: seq<Value>, base: nat, stopAfter: nat, clock: nat -> real,
                           sem: RecordSemantics, count: nat)
    requires count < |recs| && base + count < stopAfter && PassLastOk(recs, base, count, clock, sem)
    requires BlockedIn(p, recs, base, count, clock, sem)
    ensures PassOutcome(p, recs, base, stopAfter, clock, sem, count, PassAborted)
  {
  }

  lemma PassOutcomeRaised(p: Player, recs: seq<Value>, base: nat, stopAfter: nat, clock: nat -> real,
                          sem: RecordSemantics, count: nat)
    requires 0 < count <= |recs| && !OutcomeIn(recs, base, count - 1, clock, sem).completed
    ensures PassOutcome(p, recs, base, stopAfter, clock, sem, count, PassAborted)
  {
  }

  lemma PassOutcomeDone(p: Player, recs: seq<Value>, base: nat, stopAfter: nat, clock: nat -> real,
                        sem: RecordSemantics)
    requires PassLastOk(recs, base, |recs|, clock, sem)
    ensures PassOutcome(p, recs, base, stopAfter, clock, sem, |recs|, PassDone)
  {
  }

  /**
   * One pass over the records, whose first record is the run's record
   * number `base`: checks the stop event, then handles the records one by
   * one.
   */
  method PlayPass(p: Player, records: seq<Value>, sem: RecordSemantics, clock: nat -> real,
                  stopAfter: nat, base: nat)
    returns (trace: seq<Event>, count: nat, how: PassEnd)
    requires records != [] && base < stopAfter
    ensures count <= |records| && base + count <= stopAfter
    ensures PassStarted(p, records, base, count, clock, sem)
    ensures trace == PassTrace(p, records, base, count, clock, sem)
    ensures PassOutcome(p, records, base, stopAfter, clock, sem, count, how)
  {
    trace := [];
    count := 0;
    how := PassDone;
    var prev: Option<real> := None;
    while count < |records|
      invariant count <= |records| && base + count <= stopAfter
      invariant count < |records| ==> prev == PrevIn(records, base, count, clock, sem)
      invariant PassStarted(p, records, base, count, clock, sem) && PassLastOk(records, base, count, clock, sem)
      invariant trace == PassTrace(p, records, base, count, clock, sem)
      invariant how == PassDone
    {
      if base + count >= stopAfter {
        PassOutcomeStopped(p, records, base, stopAfter, clock, sem, count);
        how := PassStopped;
        break;
      }
      var step;
      trace, prev, step := PlayRecord(p, records, sem, clock, base, count, prev, trace);
      if step == Blocked {
        PassOutcomeBlocked(p, records, base, stopAfter, clock, sem, count);
        how := PassAborted;
        break;
      }
      PassStartedStep(p, records, base, count, clock, sem);
      PassTraceStep(p, records, base, count, clock, sem);
      count := count + 1;
      if step == Raised {
        PassOutcomeRaised(p, records, base, stopAfter, clock, sem, count);
        how := PassAborted;
        break;
      }
    }
    if how == PassDone {
      PassOutcomeDone(p, records, base, stopAfter, clock, sem);
    }
  }

  /**
   * What a run of a file read as `loaded` that started `emitted` records may
   * return: it emits nothing when asked to stop at once, when the file
   * cannot be read, or when it holds no record; otherwise `RunOutcome`.
   */
  ghost predicate RunResult(p: Player, loaded: Result<seq<Value>>, sem: RecordSemantics, clock: nat -> real,
                            stopAfter: nat, trace: seq<Event>, emitted: nat, end: RunEnd)
  {
    && emitted <= stopAfter
    && (stopAfter == 0 ==> trace == [] && emitted == 0 && end == Stopped)
    && (stopAfter > 0 && loaded.Err? ==> trace == [] && emitted == 0 && end == Aborted)
    && (stopAfter > 0 && loaded == Ok([]) ==> trace == [] && emitted == 0 && end == NoRecords)
    && (end == NoRecords ==> loaded == Ok([]))
    && (loaded.Ok? && loaded.value != [] ==>
          RunOutcome(p, loaded.value, clock, sem, stopAfter, emitted, trace, end))
  }

  /** A looping run between passes: the records so far all went well, and the pause between passes followed. */
  ghost predicate BetweenPasses(p: Player, recs: seq<Value>, clock: nat -> real, sem: RecordSemantics,
                                emitted: nat, trace: seq<Event>)
  {
    && recs != [] && p.loop && emitted > 0
    && PassIndex(emitted, |recs|) == 0
    && Started(p, recs, emitted, clock, sem) && LastOk(recs, emitted, clock, sem)
    && trace == ExpectedTrace(p, recs, emitted, clock, sem) + [Slept(PassPause)]
  }

  /** What a run knows after a pass from its record `base` over the non-empty records `recs` of `content`. */
  ghost predicate AfterPass(p: Player, loaded: Result<seq<Value>>, recs: seq<Value>, clock: nat -> real,
                            sem: RecordSemantics, stopAfter: nat, base: nat, trace0: seq<Event>,
                            trace: seq<Event>, count: nat, how: PassEnd)
  {
    && loaded == Ok(recs) && recs != [] && base < stopAfter
    && (base == 0 ==> trace0 == [])
    && (base > 0 ==> BetweenPasses(p, recs, clock, sem, base, trace0))
    && count <= |recs| && base + count <= stopAfter
    && PassStarted(p, recs, base, count, clock, sem)
    && trace == trace0 + PassTrace(p, recs, base, count, clock, sem)
    && PassOutcome(p, recs, base, stopAfter, clock, sem, count, how)
  }

  /** How the run ends when a pass ends with `how`, unless a looping run goes on to its next pass. */
  function EndOfPass(p: Player, how: PassEnd): RunEnd {
    if how == PassAborted then Aborted
    else if !p.loop && how == PassDone then Finished
    else Stopped
  }

  lemma UnreadableResult(p: Player, loaded: Result<seq<Value>>, clock: nat -> real, sem: RecordSemantics, stopAfter: nat)
    requires 0 < stopAfter && loaded.Err?
    ensures RunResult(p, loaded, sem, clock, stopAfter, [], 0, Aborted)
  {
  }

  /** A file without records ends the run before any record. */
  lemma EmptyResult(p: Player, loaded: Result<seq<Value>>, clock: nat -> real, sem: RecordSemantics, stopAfter: nat)
    requires 0 < stopAfter && loaded == Ok([])
    ensures RunResult(p, loaded, sem, clock, stopAfter, [], 0, NoRecords)
  {
  }

  /** The run's view of a pass, from what the run knows before it; `m` is the run's count after the pass. */
  lemma AfterPassInRun(p: Player, loaded: Result<seq<Value>>, recs: seq<Value>, clock: nat -> real,
                       sem: RecordSemantics, stopAfter: nat, base: nat, trace0: seq<Event>,
                       trace: seq<Event>, count: nat, how: PassEnd, m: nat)
    requires AfterPass(p, loaded, recs, clock, sem, stopAfter, base, trace0, trace, count, how)
    requires m == base + count
    ensures PassIndex(base, |recs|) == 0 && LastOk(recs, base, clock, sem) && (base > 0 ==> p.loop)
    ensures trace0 == ExpectedTrace(p, recs, base, clock, sem) + PauseBefore(recs, base)
    ensures Started(p, recs, m, clock, sem)
    ensures LastOk(recs, m, clock, sem) <==> PassLastOk(recs, base, count, clock, sem)
    ensures count > 0 ==> trace == ExpectedTrace(p, recs, m, clock, sem)
    ensures count < |recs| ==> PassIndex(m, |recs|) == count
    ensures count < |recs| ==> (BlockedAt(p, recs, m, clock, sem) <==> BlockedIn(p, recs, base, count, clock, sem))
    ensures count == |recs| ==> PassIndex(m, |recs|) == 0
  {
    if base == 0 {
      assert ExpectedTrace(p, recs, 0, clock, sem) + PauseBefore(recs, 0) == [];
    }
    PassInRun(p, recs, clock, sem, base, trace0, count, m);
  }

  /** A pass that aborts ends the run. */
  lemma AbortedPassResult(p: Player, loaded: Result<seq<Value>>, recs: seq<Value>, clock: nat -> real,
      sem: RecordSemantics, stopAfter: nat, base: nat, trace0: seq<Event>, passTrace: seq<Event>, count: nat,
      trace: seq<Event>, emitted: nat, end: RunEnd)
    requires AfterPass(p, loaded, recs, clock, sem, stopAfter, base, trace0, passTrace, count, PassAborted)
    requires trace == passTrace && emitted == base + count && end == Aborted
    ensures RunResult(p, loaded, sem, clock, stopAfter, trace, emitted, end)
  {
    AfterPassInRun(p, loaded, recs, clock, sem, stopAfter, base, trace0, passTrace, count, PassAborted, emitted);
    AbortedPassEndsRun(p, recs, clock, sem, stopAfter, base, trace0, count, emitted);
  }

  /** A single pass that does not abort ends the run. */
  lemma SinglePassResult(p: Player, loaded: Result<seq<Value>>, recs: seq<Value>, clock: nat -> real,
      sem: RecordSemantics, stopAfter: nat, trace0: seq<Event>, passTrace: seq<Event>, count: nat, how: PassEnd,
      trace: seq<Event>, emitted: nat, end: RunEnd)
    requires !p.loop && how != PassAborted
    requires AfterPass(p, loaded, recs, clock, sem, stopAfter, 0, trace0, passTrace, count, how)
    requires trace == passTrace && emitted == count && end == (if how == PassDone then Finished else Stopped)
    ensures RunResult(p, loaded, sem, clock, stopAfter, trace, emitted, end)
  {
    AfterPassInRun(p, loaded, recs, clock, sem, stopAfter, 0, trace0, passTrace, count, how, emitted);
    assert passTrace == PassTrace(p, recs, 0, count, clock, sem);
    SinglePassEndsRun(p, recs, clock, sem, stopAfter, count, how, emitted);
  }

  /** A looping run stopped inside a pass ends after the pause between passes. */
  lemma StoppedLoopResult(p: Player, loaded: Result<seq<Value>>, recs: seq<Value>, clock: nat -> real,
      sem: RecordSemantics, stopAfter: nat, base: nat, trace0: seq<Event>, passTrace: seq<Event>, count: nat,
      trace: seq<Event>, emitted: nat, end: RunEnd)
    requires p.loop
    requires AfterPass(p, loaded, recs, clock, sem, stopAfter, base, trace0, passTrace, count, PassStopped)
    requires trace == passTrace + [Slept(PassPause)] && emitted == base + count && end == Stopped
    ensures RunResult(p, loaded, sem, clock, stopAfter, trace, emitted, end)
  {
    AfterPassInRun(p, loaded, recs, clock, sem, stopAfter, base, trace0, passTrace, count, PassStopped, emitted);
  }

  /** A completed pass of a looping run leads to the next pass. */
  lemma DoneLoopResult(p: Player, loaded: Result<seq<Value>>, recs: seq<Value>, clock: nat -> real,
      sem: RecordSemantics, stopAfter: nat, base: nat, trace0: seq<Event>, passTrace: seq<Event>, count: nat,
      trace: seq<Event>, emitted: nat)
    requires p.loop
    requires AfterPass(p, loaded, recs, clock, sem, stopAfter, base, trace0, passTrace, count, PassDone)
    requires trace == passTrace + [Slept(PassPause)] && emitted == base + count
    ensures base < emitted <= stopAfter && loaded.Ok?
    ensures BetweenPasses(p, loaded.value, clock, sem, emitted, trace)
  {
    AfterPassInRun(p, loaded, recs, clock, sem, stopAfter, base, trace0, passTrace, count, PassDone, emitted);
  }

  /** The end of a pass: either the run's result, or the state between passes of a looping run. */
  lemma PassResult(p: Player, loaded: Result<seq<Value>>, recs: seq<Value>, clock: nat -> real,
      sem: RecordSemantics, stopAfter: nat, base: nat, trace0: seq<Event>,
      passTrace: seq<Event>, count: nat, how: PassEnd,
      trace: seq<Event>, emitted: nat, end: RunEnd, more: bool)
    requires AfterPass(p, loaded, recs, clock, sem, stopAfter, base, trace0, passTrace, count, how)
    requires trace == if p.loop && how != PassAborted then passTrace + [Slept(PassPause)] else passTrace
    requires emitted == base + count
    requires end == EndOfPass(p, how) && more == (p.loop && how == PassDone)
    ensures emitted <= stopAfter
    ensures more ==>
      && base < emitted && end == Stopped && loaded.Ok?
      && BetweenPasses(p, loaded.value, clock, sem, emitted, trace) == true
    ensures !more ==> RunResult(p, loaded, sem, clock, stopAfter, trace, emitted, end) == true
  {
    if how == PassAborted {
      AbortedPassResult(p, loaded, recs, clock, sem, stopAfter, base, trace0, passTrace, count, trace, emitted, end);
    } else if !p.loop {
      SinglePassResult(p, loaded, recs, clock, sem, stopAfter, trace0, passTrace, count, how, trace, emitted, end);
    } else if how == PassStopped {
      StoppedLoopResult(p, loaded, recs, clock, sem, stopAfter, base, trace0, passTrace, count, trace, emitted, end);
    } else {
      DoneLoopResult(p, loaded, recs, clock, sem, stopAfter, base, trace0, passTrace, count, trace, emitted);
    }
  }


  /**
   * One pass of a run: re-reads the file and plays it from the run's record
   * `emitted0`. Either the run ends here, or it loops on with the pause
   * between passes.
   */
  method NextPass(p: Player, file: Option<string>, rt: Runtime, ghost loaded: Result<seq<Value>>, sem: RecordSemantics,
                  clock: nat -> real, stopAfter: nat, emitted0: nat, trace0: seq<Event>)
    returns (trace: seq<Event>, emitted: nat, end: RunEnd, more: bool)
    requires loaded == FileRecordsAsWritten(file, rt)
    requires emitted0 < stopAfter
    requires emitted0 == 0 ==> trace0 == []
    requires emitted0 > 0 ==>
      loaded.Ok? && BetweenPasses(p, loaded.value, clock, sem, emitted0, trace0)
    ensures emitted0 <= emitted <= stopAfter
    ensures more ==>
      && emitted0 < emitted && end == Stopped && loaded.Ok?
      && BetweenPasses(p, loaded.value, clock, sem, emitted, trace)
    ensures !more ==> RunResult(p, loaded, sem, clock, stopAfter, trace, emitted, end)
  {
    var loadedNow: Result<seq<Value>>;
    if file.None? {
      loadedNow := Err(OSError);
    } else {
      loadedNow := OpenRecords(file.value, rt);
    }
    if loadedNow.Err? {
      UnreadableResult(p, loaded, clock, sem, stopAfter);
      return [], 0, Aborted, false;
    }
    var records := loadedNow.value;
    if records == [] {
      EmptyResult(p, loaded, clock, sem, stopAfter);
      return [], 0, NoRecords, false;
    }
    var passTrace, count, how := PlayPass(p, records, sem, clock, stopAfter, emitted0);
    var played := trace0 + passTrace;
    trace := if p.loop && how != PassAborted then played + [Slept(PassPause)] else played;
    emitted := emitted0 + count;
    end := EndOfPass(p, how);
    more := p.loop && how == PassDone;
    PassResult(p, loaded, records, clock, sem, stopAfter, emitted0, trace0, played, count, how,
               trace, emitted, end, more);
  }

  /**
   * Plays the file. Each pass re-reads it; a file that cannot be read ends
   * the run at once; records are emitted in file order with their pauses;
   * a looping run pauses between passes and goes on until stopped. `emitted` counts the records whose emission started.
   */
  method Run(p: Player, file: Option<string>, rt: Runtime, clock: nat -> real, stopAfter: nat)
    returns (trace: seq<Event>, emitted: nat, end: RunEnd)
    ensures RunResult(p, FileRecordsAsWritten(file, rt), Semantics(rt), clock, stopAfter, trace, emitted, end)
    ensures file.None? && 0 < stopAfter ==> trace == [] && emitted == 0 && end == Aborted
  {
    var sem := Semantics(rt);
    ghost var loaded := FileRecordsAsWritten(file, rt);
    trace := [];
    emitted := 0;
    end := Stopped;
    if stopAfter == 0 {
      if loaded.Ok? && loaded.value != [] {
        StoppedBeforeStart(p, loaded.value, clock, sem);
      }
      return;
    }
    while emitted < stopAfter
      invariant emitted <= stopAfter
      invariant emitted == 0 ==> trace == []
      invariant end == Stopped
      invariant emitted > 0 ==>
        loaded.Ok? && BetweenPasses(p, loaded.value, clock, sem, emitted, trace)
      decreases stopAfter - emitted
    {
      var more;
      trace, emitted, end, more := NextPass(p, file, rt, loaded, sem, clock, stopAfter, emitted, trace);
      if !more {
        return;
      }
    }
    ghost var recs := loaded.value;
    StoppedLoopEndsRun(p, recs, clock, sem, stopAfter, emitted, trace);
  }

  /**
   * As written, a run over an array file ends before any record: as if the
   * file were empty when the array decodes, and aborted when it does not.
   */
  lemma ArrayFileRunEndsEmpty(p: Player, content: string, rt: Runtime, clock: nat -> real, stopAfter: nat,
                              trace: seq<Event>, emitted: nat, end: RunEnd)
    requires content != [] && content[0] == '[' && 0 < stopAfter
    requires RunResult(p, FileRecordsAsWritten(Some(content), rt), Semantics(rt), clock, stopAfter, trace, emitted, end)
    ensures trace == [] && emitted == 0
    ensures end == (if rt.jsonLoadFile(content).Some? then NoRecords else Aborted)
  {
  }

  /** A pass that starts at record `base` of a run, seen from the run: what its `count` records add, up to the run's record m. */
  lemma PassInRun(p: Player, recs: seq<Value>, clock: nat -> real, sem: RecordSemantics,
                  base: nat, before: seq<Event>, count: nat, m: nat)
    requires recs != [] && PassIndex(base, |recs|) == 0
    requires Started(p, recs, base, clock, sem) && LastOk(recs, base, clock, sem)
    requires before == ExpectedTrace(p, recs, base, clock, sem) + PauseBefore(recs, base)
    requires count <= |recs| && m == base + count
    requires PassStarted(p, recs, base, count, clock, sem)
    ensures Started(p, recs, m, clock, sem)
    ensures LastOk(recs, m, clock, sem) <==> PassLastOk(recs, base, count, clock, sem)
    ensures count > 0 ==> before + PassTrace(p, recs, base, count, clock, sem) == ExpectedTrace(p, recs, m, clock, sem)
    ensures count < |recs| ==> PassIndex(m, |recs|) == count
    ensures count < |recs| ==> (BlockedAt(p, recs, m, clock, sem) <==> BlockedIn(p, recs, base, count, clock, sem))
    ensures count == |recs| ==> PassIndex(m, |recs|) == 0
  {
    var n := |recs|;
    RunStartedOfPass(p, recs, base, count, m, clock, sem);
    if count > 0 {
      RunTraceOfPass(p, recs, base, before, count, m, clock, sem);
    }
    if count < n {
      RunRecordInPass(p, recs, base, count, m, clock, sem);
    }
    if count == n {
      PassIndexNextPass(base, n, m);
    }
  }

  /** A pass that aborts ends the run with the events so far, and the pause before it when it aborted at its head. */
  lemma AbortedPassEndsRun(p: Player, recs: seq<Value>, clock: nat -> real, sem: RecordSemantics, stopAfter: nat,
                           base: nat, before: seq<Event>, count: nat, m: nat)
    requires recs != [] && PassIndex(base, |recs|) == 0 && base < stopAfter
    requires base > 0 ==> p.loop
    requires LastOk(recs, base, clock, sem)
    requires before == ExpectedTrace(p, recs, base, clock, sem) + PauseBefore(recs, base)
    requires count <= |recs| && m == base + count && m <= stopAfter
    requires Started(p, recs, m, clock, sem)
    requires LastOk(recs, m, clock, sem) <==> PassLastOk(recs, base, count, clock, sem)
    requires count > 0 ==> before + PassTrace(p, recs, base, count, clock, sem) == ExpectedTrace(p, recs, m, clock, sem)
    requires count < |recs| ==> PassIndex(m, |recs|) == count
    requires count < |recs| ==> (BlockedAt(p, recs, m, clock, sem) <==> BlockedIn(p, recs, base, count, clock, sem))
    requires PassOutcome(p, recs, base, stopAfter, clock, sem, count, PassAborted)
    ensures RunOutcome(p, recs, clock, sem, stopAfter, m, before + PassTrace(p, recs, base, count, clock, sem), Aborted)
  {
    if count == 0 {
      assert PassTrace(p, recs, base, 0, clock, sem) == [];
      assert before + [] == before;
    }
  }

  /** A single pass that does not abort ends the run: finished after the last record, stopped before it. */
  lemma SinglePassEndsRun(p: Player, recs: seq<Value>, clock: nat -> real, sem: RecordSemantics, stopAfter: nat,
                          count: nat, how: PassEnd, m: nat)
    requires recs != [] && 0 < stopAfter && !p.loop
    requires count <= |recs| && m == count && m <= stopAfter
    requires Started(p, recs, m, clock, sem)
    requires LastOk(recs, m, clock, sem) <==> PassLastOk(recs, 0, count, clock, sem)
    requires count > 0 ==> PassTrace(p, recs, 0, count, clock, sem) == ExpectedTrace(p, recs, m, clock, sem)
    requires how != PassAborted && PassOutcome(p, recs, 0, stopAfter, clock, sem, count, how)
    ensures RunOutcome(p, recs, clock, sem, stopAfter, m, PassTrace(p, recs, 0, count, clock, sem),
                       if how == PassDone then Finished else Stopped)
  {
  }

  /** A run asked to stop before its first record emits nothing. */
  lemma StoppedBeforeStart(p: Player, recs: seq<Value>, clock: nat -> real, sem: RecordSemantics)
    requires recs != []
    ensures RunOutcome(p, recs, clock, sem, 0, 0, [], Stopped)
  {
    assert ExpectedTrace(p, recs, 0, clock, sem) + Tail(p, recs, 0, Stopped, clock, sem) == [];
  }

  /** A looping run stopped inside a pass ends with the events so far and one pause between passes. */
  lemma StoppedLoopEndsRun(p: Player, recs: seq<Value>, clock: nat -> real, sem: RecordSemantics, stopAfter: nat,
                           m: nat, trace: seq<Event>)
    requires recs != [] && p.loop && 0 < m == stopAfter
    requires Started(p, recs, m, clock, sem) && LastOk(recs, m, clock, sem)
    requires trace == ExpectedTrace(p, recs, m, clock, sem) + [Slept(PassPause)]
    ensures RunOutcome(p, recs, clock, sem, stopAfter, m, trace, Stopped)
  {
  }

}
