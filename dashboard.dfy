/**
 * The rules of the main dashboard window: which widget shows each sensor's
 * status and what state it shows, how the telemetry fields are split between
 * the "latest readings" and "track" tables, how the two table columns share
 * the table's width, and how trajectory points reach the chart.
 */
module Dashboard {
  import opened Values
  import opened Metadata
  import opened StatusLed
  import opened Charts
  import opened TelemetryBridge

  // ---------------------------------------------------------------------------
  // Which widget shows each sensor

  /** Each sensor id with the object name of its indicator in the window layout, in the window's order. */
  const SensorMap: seq<(string, string)> := [
    ("bmp", "bmp180Indicator"),
    ("esp32", "esp32Indicator"),
    ("mq131", "mq131Indicator"),
    ("mpu", "mpu6050Indicator"),
    ("gps", "gpsIndicator"),
    ("mq2", "mq2Indicator"),
    ("dht22", "dht22Indicator"),
    ("mq7", "mq7Indicator"),
    ("rtc", "rtcIndicator"),
    ("max6675", "max6675Indicator"),
    ("lora", "loRaIndicator"),
    ("bms", "bmsIndicator")
  ]

  function PairIds(pairs: seq<(string, string)>): seq<string> {
    seq(|pairs|, k requires 0 <= k < |pairs| => pairs[k].0)
  }

  function PairNames(pairs: seq<(string, string)>): seq<string> {
    seq(|pairs|, k requires 0 <= k < |pairs| => pairs[k].1)
  }

  /** The sensor map names each sensor once and each indicator once. */
  lemma SensorMapDistinct()
    ensures Distinct(PairIds(SensorMap)) && Distinct(PairNames(SensorMap))
  {
    var ids := ["bmp", "esp32", "mq131", "mpu", "gps", "mq2", "dht22", "mq7", "rtc", "max6675", "lora", "bms"];
    var names := ["bmp180Indicator", "esp32Indicator", "mq131Indicator", "mpu6050Indicator", "gpsIndicator",
      "mq2Indicator", "dht22Indicator", "mq7Indicator", "rtcIndicator", "max6675Indicator", "loRaIndicator",
      "bmsIndicator"];
    assert Distinct(ids) && Distinct(names);
    assert PairIds(SensorMap) == ids;
    assert PairNames(SensorMap) == names;
  }

  /** The position of the last pair with sensor id `id`: the entry a dictionary literal keeps. */
  function PairIndexOf(pairs: seq<(string, string)>, id: string): (r: Option<nat>)
    ensures r.Some? ==> r.value < |pairs| && pairs[r.value].0 == id
    ensures r.Some? ==> forall k :: r.value < k < |pairs| ==> pairs[k].0 != id
    ensures r.None? ==> forall k :: 0 <= k < |pairs| ==> pairs[k].0 != id
  {
    if pairs == [] then None
    else if pairs[|pairs| - 1].0 == id then Some(|pairs| - 1)
    else PairIndexOf(pairs[..|pairs| - 1], id)
  }

  predicate IsLedNamed(c: Child, name: string) {
    c.name == name && c.widget.LedWidget?
  }

  /** `findChild(StatusLED, name)` over the children from position `from` on: the first LED child with that name. */
  function FindLedFrom(children: seq<Child>, name: string, from: nat): (r: Option<nat>)
    requires from <= |children|
    decreases |children| - from
    ensures r.Some? ==> from <= r.value < |children| && IsLedNamed(children[r.value], name)
    ensures r.Some? ==> forall j :: from <= j < r.value ==> !IsLedNamed(children[j], name)
    ensures r.None? ==> forall j :: from <= j < |children| ==> !IsLedNamed(children[j], name)
  {
    if from == |children| then None
    else if IsLedNamed(children[from], name) then Some(from)
    else FindLedFrom(children, name, from + 1)
  }

  /**
   * The widget the window keeps for the indicator named `name`: the
   * registered indicator, whatever kind of widget it is, and failing that
   * the first status LED child of that name.
   */
  function IndicatorFor(indicators: map<string, Widget>, children: seq<Child>, name: string): Option<Widget> {
    if name in indicators then Some(indicators[name])
    else match FindLedFrom(children, name, 0)
      case Some(k) => Some(children[k].widget)
      case None => None
  }

  /** The window's sensor table: a sensor id with its widget for each pair whose indicator was found, in order. */
  function SensorLeds(indicators: map<string, Widget>, children: seq<Child>, pairs: seq<(string, string)>): seq<(string, Widget)> {
    if pairs == [] then []
    else
      var prev := SensorLeds(indicators, children, pairs[..|pairs| - 1]);
      var last := pairs[|pairs| - 1];
      match IndicatorFor(indicators, children, last.1)
      case Some(w) => prev + [(last.0, w)]
      case None => prev
  }

  function EntryIds(entries: seq<(string, Widget)>): seq<string> {
    seq(|entries|, i requires 0 <= i < |entries| => entries[i].0)
  }

  /** Every entry of the sensor table is a sensor of the map with the widget found under its indicator name. */
  lemma {:induction false} SensorLedsFromMap(indicators: map<string, Widget>, children: seq<Child>, pairs: seq<(string, string)>)
    requires Distinct(PairIds(pairs))
    ensures forall i :: 0 <= i < |SensorLeds(indicators, children, pairs)| ==>
      var entry := SensorLeds(indicators, children, pairs)[i];
      PairIndexOf(pairs, entry.0).Some? &&
      IndicatorFor(indicators, children, pairs[PairIndexOf(pairs, entry.0).value].1) == Some(entry.1)
  {
    if pairs != [] {
      var n := |pairs| - 1;
      var prefix, last := pairs[..n], pairs[n];
      PrefixIdsDistinct(pairs, prefix);
      SensorLedsFromMap(indicators, children, prefix);
      var prev := SensorLeds(indicators, children, prefix);
      PrevIdsBeforeLast(pairs, prefix, prev, indicators, children);
      PrefixLookup(pairs, prefix, prev, last.0);
    }
  }

  lemma PrefixIdsDistinct(pairs: seq<(string, string)>, prefix: seq<(string, string)>)
    requires pairs != [] && prefix == pairs[..|pairs| - 1] && Distinct(PairIds(pairs))
    ensures Distinct(PairIds(prefix))
    ensures forall k :: 0 <= k < |prefix| ==> pairs[k].0 != pairs[|pairs| - 1].0
  {
    assert forall k :: 0 <= k < |prefix| ==> PairIds(prefix)[k] == PairIds(pairs)[k];
    forall k | 0 <= k < |prefix| ensures pairs[k].0 != pairs[|pairs| - 1].0 {
      assert PairIds(pairs)[k] == pairs[k].0 && PairIds(pairs)[|pairs| - 1] == pairs[|pairs| - 1].0;
    }
  }

  /** The sensors of the table built from the pairs before the last are not the last pair's sensor. */
  lemma PrevIdsBeforeLast(pairs: seq<(string, string)>, prefix: seq<(string, string)>, prev: seq<(string, Widget)>,
                          indicators: map<string, Widget>, children: seq<Child>)
    requires pairs != [] && prefix == pairs[..|pairs| - 1]
    requires forall k :: 0 <= k < |prefix| ==> pairs[k].0 != pairs[|pairs| - 1].0
    requires forall i :: 0 <= i < |prev| ==> PairIndexOf(prefix, prev[i].0).Some?
    ensures forall i :: 0 <= i < |prev| ==> prev[i].0 != pairs[|pairs| - 1].0
    ensures pairs[|pairs| - 1].0 !in EntryIds(prev)
  {
    forall i | 0 <= i < |prev| ensures prev[i].0 != pairs[|pairs| - 1].0 {
      var k := PairIndexOf(prefix, prev[i].0).value;
      assert prefix[k] == pairs[k];
    }
  }

  /** Each sensor appears in the table at most once. */
  lemma {:induction false} SensorLedsDistinctIds(indicators: map<string, Widget>, children: seq<Child>, pairs: seq<(string, string)>)
    requires Distinct(PairIds(pairs))
    ensures Distinct(EntryIds(SensorLeds(indicators, children, pairs)))
  {
    if pairs != [] {
      var n := |pairs| - 1;
      var prefix, last := pairs[..n], pairs[n];
      PrefixIdsDistinct(pairs, prefix);
      SensorLedsDistinctIds(indicators, children, prefix);
      SensorLedsFromMap(indicators, children, prefix);
      var prev := SensorLeds(indicators, children, prefix);
      PrevIdsBeforeLast(pairs, prefix, prev, indicators, children);
      match IndicatorFor(indicators, children, last.1)
      case Some(w) =>
        assert EntryIds(prev + [(last.0, w)]) == EntryIds(prev) + [last.0];
      case None =>
    }
  }

  /** A sensor of the map is in the table exactly when its indicator was found. */
  lemma {:induction false} SensorLedsFound(indicators: map<string, Widget>, children: seq<Child>, pairs: seq<(string, string)>)
    requires Distinct(PairIds(pairs))
    ensures forall k :: 0 <= k < |pairs| ==>
      (pairs[k].0 in EntryIds(SensorLeds(indicators, children, pairs)) <==> IndicatorFor(indicators, children, pairs[k].1).Some?)
  {
    if pairs != [] {
      var n := |pairs| - 1;
      var prefix, last := pairs[..n], pairs[n];
      PrefixIdsDistinct(pairs, prefix);
      SensorLedsFound(indicators, children, prefix);
      SensorLedsFromMap(indicators, children, prefix);
      var prev := SensorLeds(indicators, children, prefix);
      PrevIdsBeforeLast(pairs, prefix, prev, indicators, children);
      assert forall k :: 0 <= k < n ==> prefix[k] == pairs[k];
      match IndicatorFor(indicators, children, last.1)
      case Some(w) =>
        assert EntryIds(prev + [(last.0, w)]) == EntryIds(prev) + [last.0];
      case None =>
    }
  }

  /** Looking up a sensor that is not the last pair's gives the same position in the pairs before it. */
  lemma PrefixLookup(pairs: seq<(string, string)>, prefix: seq<(string, string)>, prev: seq<(string, Widget)>, lastId: string)
    requires pairs != [] && prefix == pairs[..|pairs| - 1] && lastId == pairs[|pairs| - 1].0
    requires forall i :: 0 <= i < |prev| ==> prev[i].0 != lastId
    ensures forall i :: 0 <= i < |prev| ==> PairIndexOf(pairs, prev[i].0) == PairIndexOf(prefix, prev[i].0)
    ensures PairIndexOf(pairs, lastId) == Some(|pairs| - 1)
    ensures forall k :: 0 <= k < |prefix| ==> prefix[k] == pairs[k]
  {
  }

  /** The child that a found indicator is: a child of the indicator's name whose widget it is. */
  lemma IndicatorChild(children: seq<Child>, name: string, w: Widget) returns (a: nat)
    requires IndicatorFor(Discovered(children), children, name) == Some(w)
    ensures a < |children| && children[a].name == name && children[a].widget == w
  {
    if name in Discovered(children) {
      DiscoveredWidgets(children);
      a :| 0 <= a < |children| && children[a].name == name && children[a].widget == Discovered(children)[name];
    } else {
      a := FindLedFrom(children, name, 0).value;
    }
  }

  /** No status LED appears twice among the children. */
  ghost predicate ChildLedsDistinct(children: seq<Child>) {
    forall i, j :: 0 <= i < j < |children| && children[i].widget.LedWidget? && children[j].widget.LedWidget? ==>
      children[i].widget.led != children[j].widget.led
  }

  /** No status LED appears twice in a sensor table. */
  ghost predicate EntryLedsDistinct(entries: seq<(string, Widget)>) {
    forall i, j :: 0 <= i < j < |entries| && entries[i].1.LedWidget? && entries[j].1.LedWidget? ==>
      entries[i].1.led != entries[j].1.led
  }

  /**
   * Different sensors of the table are shown by different LEDs: their
   * indicators have different names, so they are different children.
   */
  lemma SensorLedsDistinct(children: seq<Child>, pairs: seq<(string, string)>)
    requires Distinct(PairIds(pairs)) && Distinct(PairNames(pairs))
    requires ChildLedsDistinct(children)
    ensures EntryLedsDistinct(SensorLeds(Discovered(children), children, pairs))
  {
    var entries := SensorLeds(Discovered(children), children, pairs);
    SensorLedsFromMap(Discovered(children), children, pairs);
    SensorLedsDistinctIds(Discovered(children), children, pairs);
    forall i, j | 0 <= i < j < |entries| && entries[i].1.LedWidget? && entries[j].1.LedWidget?
      ensures entries[i].1.led != entries[j].1.led
    {
      var ki, kj := PairIndexOf(pairs, entries[i].0).value, PairIndexOf(pairs, entries[j].0).value;
      assert EntryIds(entries)[i] != EntryIds(entries)[j];
      assert PairNames(pairs)[ki] != PairNames(pairs)[kj];
      var a := IndicatorChild(children, pairs[ki].1, entries[i].1);
      var b := IndicatorChild(children, pairs[kj].1, entries[j].1);
      if a < b {
        assert children[a].widget.led != children[b].widget.led;
      } else {
        assert children[b].widget.led != children[a].widget.led;
      }
    }
  }

  /** With the registry that discovery builds, the fallback search never finds an LED discovery missed. */
  lemma FallbackFindsNothingNew(children: seq<Child>, name: string)
    requires IsIndicatorName(name)
    ensures IndicatorFor(Discovered(children), children, name).Some? <==>
      exists i :: 0 <= i < |children| && children[i].name == name
  {
    DiscoveredKeys(children);
    if name !in Discovered(children) {
      assert forall i :: 0 <= i < |children| ==> children[i].name != name;
    }
  }

  // ---------------------------------------------------------------------------
  // What each sensor LED shows

  /** The state shown for a sensor: "on" only for a status of exactly `True`; missing, `False` or anything else is a fault. */
  function SensorLedState(status: map<string, Value>, id: string): (s: string)
    ensures s in ValidStates
    ensures s == "on" <==> id in status && status[id] == Bool(true)
    ensures s != "on" ==> s == "fault"
  {
    if Get(status, id) == Bool(true) then "on" else "fault"
  }

  /** A truthy status that is not `True` itself, such as 1, still shows as a fault. */
  lemma TruthyIsNotTrue(id: string)
    ensures Truthy(Num(1.0)) && SensorLedState(map[id := Num(1.0)], id) == "fault"
    ensures SensorLedState(map[], id) == "fault"
  {
  }

  function SensorStates(entries: seq<(string, Widget)>, status: map<string, Value>): (states: seq<string>)
    ensures |states| == |entries|
    ensures forall i :: 0 <= i < |entries| ==> states[i] == SensorLedState(status, entries[i].0)
  {
    seq(|entries|, i requires 0 <= i < |entries| => SensorLedState(status, entries[i].0))
  }

  function AllOff(n: nat): (states: seq<string>)
    ensures |states| == n && forall i :: 0 <= i < n ==> states[i] == "off"
  {
    seq(n, _ => "off")
  }

  /** How many entries of the table are reached before the first widget that is not an LED. */
  function LedPrefix(entries: seq<(string, Widget)>): (n: nat)
    ensures n <= |entries|
    ensures forall i :: 0 <= i < n ==> entries[i].1.LedWidget?
    ensures n < |entries| ==> entries[n].1.OtherWidget?
  {
    if entries == [] then 0
    else if entries[0].1.OtherWidget? then 0
    else 1 + LedPrefix(entries[1..])
  }

  /** `led.setState(state)` happened to this LED with a valid state. */
  twostate predicate Shows(led: StatusLED, state: string)
    reads led
  {
    && led.state == state
    && led.updates == old(led.updates) + (if old(led.state) != state then 1 else 0)
    && led.text == old(led.text) && led.statusProperty == old(led.statusProperty)
  }

  // ---------------------------------------------------------------------------
  // The telemetry tables

  /** The source keys shown in the track table rather than the latest-readings table. */
  const TrackKeys: set<string> := {"gps_latlon", "alt_gps", "rtc_time"}

  /** The fields of the latest-readings table: those whose key is not a track key, in order. */
  function LatestFields(fields: seq<TelemetryField>): seq<TelemetryField> {
    if fields == [] then []
    else
      var prev := LatestFields(fields[..|fields| - 1]);
      var f := fields[|fields| - 1];
      if f.sourceKey !in TrackKeys then prev + [f] else prev
  }

  /** The fields of the track table: those whose key is a track key, in order. */
  function TrackFields(fields: seq<TelemetryField>): seq<TelemetryField> {
    if fields == [] then []
    else
      var prev := TrackFields(fields[..|fields| - 1]);
      var f := fields[|fields| - 1];
      if f.sourceKey in TrackKeys then prev + [f] else prev
  }

  /**
   * The two tables split the fields: a field is in the latest-readings
   * table exactly when its key is not a track key, in the track table
   * exactly when it is, never in both, and together they hold every field
   * as often as the list does.
   */
  lemma {:induction false} PartitionSplitsFields(fields: seq<TelemetryField>)
    ensures forall f :: f in LatestFields(fields) <==> f in fields && f.sourceKey !in TrackKeys
    ensures forall f :: f in TrackFields(fields) <==> f in fields && f.sourceKey in TrackKeys
    ensures forall f :: !(f in LatestFields(fields) && f in TrackFields(fields))
    ensures multiset(LatestFields(fields)) + multiset(TrackFields(fields)) == multiset(fields)
  {
    if fields != [] {
      var prefix := fields[..|fields| - 1];
      var f := fields[|fields| - 1];
      PartitionSplitsFields(prefix);
      assert fields == prefix + [f];
    }
  }

  /** Both tables keep the list's order: splitting a concatenation splits each part. */
  lemma {:induction false} PartitionKeepsOrder(xs: seq<TelemetryField>, ys: seq<TelemetryField>)
    ensures LatestFields(xs + ys) == LatestFields(xs) + LatestFields(ys)
    ensures TrackFields(xs + ys) == TrackFields(xs) + TrackFields(ys)
  {
    if ys == [] {
      assert xs + ys == xs;
    } else {
      var init := ys[..|ys| - 1];
      var zs := xs + ys;
      assert zs[..|zs| - 1] == xs + init;
      PartitionKeepsOrder(xs, init);
    }
  }

  lemma {:induction false} NoTrackKeys(xs: seq<TelemetryField>)
    requires forall i :: 0 <= i < |xs| ==> xs[i].sourceKey !in TrackKeys
    ensures TrackFields(xs) == [] && LatestFields(xs) == xs
  {
    if xs != [] {
      NoTrackKeys(xs[..|xs| - 1]);
      assert xs == xs[..|xs| - 1] + [xs[|xs| - 1]];
    }
  }

  lemma {:induction false} OnlyTrackKeys(xs: seq<TelemetryField>)
    requires forall i :: 0 <= i < |xs| ==> xs[i].sourceKey in TrackKeys
    ensures TrackFields(xs) == xs && LatestFields(xs) == []
  {
    if xs != [] {
      OnlyTrackKeys(xs[..|xs| - 1]);
      assert xs == xs[..|xs| - 1] + [xs[|xs| - 1]];
    }
  }

  /** With the configured fields, the track table shows GPS altitude, position and RTC time, in that order. */
  lemma ConfiguredTrackFields()
    ensures TrackFields(TelemetryFields) == [TelemetryFields[2], TelemetryFields[11], TelemetryFields[12]]
    ensures |LatestFields(TelemetryFields)| == 17
  {
    var fs := TelemetryFields;
    assert fs == fs[..11] + fs[11..];
    ConfiguredHeadPartition();
    ConfiguredTailPartition();
    PartitionKeepsOrder(fs[..11], fs[11..]);
  }

  lemma ConfiguredHeadPartition()
    ensures TrackFields(TelemetryFields[..11]) == [TelemetryFields[2]]
    ensures |LatestFields(TelemetryFields[..11])| == 10
  {
    var fs := TelemetryFields;
    var a, b, c := fs[..2], fs[2..3], fs[3..11];
    assert fs[..11] == a + b + c;
    NoTrackKeys(a);
    OnlyTrackKeys(b);
    NoTrackKeys(c);
    PartitionKeepsOrder(a, b);
    PartitionKeepsOrder(a + b, c);
  }

  lemma ConfiguredTailPartition()
    ensures TrackFields(TelemetryFields[11..]) == [TelemetryFields[11], TelemetryFields[12]]
    ensures |LatestFields(TelemetryFields[11..])| == 7
  {
    var fs := TelemetryFields;
    var d, e := fs[11..13], fs[13..];
    assert fs[11..] == d + e;
    OnlyTrackKeys(d);
    NoTrackKeys(e);
    PartitionKeepsOrder(d, e);
  }

  // ---------------------------------------------------------------------------
  // Column widths

  /** The width to share: the viewport's, else the table's, else 600 (a width of 0 counts as unknown). */
  function AvailableWidth(viewportWidth: int, tableWidth: int): int {
    if viewportWidth != 0 then viewportWidth
    else if tableWidth != 0 then tableWidth
    else 600
  }

  /** Python `int(n * 3 / 5)`: three fifths of `n`, truncated toward zero. */
  function ThreeFifths(n: int): int {
    if n >= 0 then (3 * n) / 5 else -((-3 * n) / 5)
  }

  /**
   * The initial widths of the parameter and value columns: three fifths of
   * the available width for the first, the rest for the second but never
   * less than 80 pixels.
   */
  function ColumnWidths(viewportWidth: int, tableWidth: int): (w: (int, int))
    ensures var avail := AvailableWidth(viewportWidth, tableWidth);
      && avail != 0
      && w.1 >= 80 && w.1 >= avail - w.0
      && (avail >= 0 ==> 0 <= w.0 <= avail && 5 * w.0 <= 3 * avail < 5 * w.0 + 5)
      && (avail < 0 ==> w.0 <= 0 && 3 * avail <= 5 * w.0 < 3 * avail + 5)
      && (avail >= 200 ==> w.0 + w.1 == avail)
      && (avail < 200 ==> w.1 == 80 || w.0 + w.1 == avail)
  {
    var avail := AvailableWidth(viewportWidth, tableWidth);
    var col0 := ThreeFifths(avail);
    (col0, if avail - col0 >= 80 then avail - col0 else 80)
  }

  /** Before the table has a size, the columns get 360 and 240 pixels. */
  lemma UnsizedTableColumns()
    ensures ColumnWidths(0, 0) == (360, 240)
  {
  }

  // ---------------------------------------------------------------------------
  // Trajectory points

  /** The object the player hands to the chart for a trajectory point: attributes `t`, `lat`, `lon` and the two altitudes. */
  function PointObject(p: TrajectoryPoint): ChartPoint {
    Obj(map["t" := Num(p.t), "lat" := Num(p.lat), "lon" := Num(p.lon),
            "alt_expected" := p.altExpected, "alt_actual" := p.altActual])
  }

  /**
   * A point from the player never clears the chart, always has a time, and
   * is stored exactly when its altitude converts to a number, with the
   * chart's own epoch rule applied to its time.
   */
  lemma PlayerPointStored(p: TrajectoryPoint, rt: Runtime)
    ensures !ClearRequested(PointObject(p)) && !ClearRequestedAsWritten(PointObject(p))
    ensures var pp := ParsePoint(PointObject(p), rt);
      && !pp.NoTime? && pp.ts == NormalizeEpoch(p.t)
      && (pp.Accepted? <==> ToFloat(p.altActual, rt).Some?)
  {
    var attrs := PointObject(p).attrs;
    assert "clear" !in attrs;
    assert Get(attrs, "t") == Num(p.t);
    assert Get(attrs, "alt_actual") == p.altActual;
  }

  /**
   * The player and the chart read epochs differently: a timestamp of 5e10
   * passes the player unchanged (it is not above 1e12) but the chart takes
   * it for milliseconds and stores 5e7 seconds.
   */
  lemma EpochRulesDisagree(rt: Runtime)
    ensures TsValue(Num(50000000000.0), rt) == Some(50000000000.0)
    ensures NormalizeEpoch(50000000000.0) == 50000000.0
  {
  }

  // ---------------------------------------------------------------------------
  // The window

  class DashboardWindow {
    const indicators: IndicatorsManager
    /** Sensor id and the widget showing its status, in sensor-map order. */
    const sensorLeds: seq<(string, Widget)>
    /** The trajectory chart, when the layout has one. */
    const charts: Option<TrajectoryCharts>

    ghost function SensorLedSet(): set<StatusLED>
      reads this
    {
      set i | 0 <= i < |sensorLeds| && sensorLeds[i].1.LedWidget? :: sensorLeds[i].1.led
    }

    ghost predicate Valid()
      reads this
    {
      EntryLedsDistinct(sensorLeds)
    }

    /**
     * Builds the window over its child widgets: discovers the indicators and
     * collects, for each sensor of the sensor map, the widget found for it.
     */
    constructor(children: seq<Child>, charts: Option<TrajectoryCharts>)
      requires ChildLedsDistinct(children)
      requires forall i :: 0 <= i < |children| && children[i].widget.LedWidget? ==> children[i].widget.led.Valid()
      ensures Valid()
      ensures indicators.indicators == Discovered(children)
      ensures sensorLeds == SensorLeds(Discovered(children), children, SensorMap)
      ensures this.charts == charts
    {
      var manager := new IndicatorsManager(children);
      var entries := CollectSensorLeds(manager, children, SensorMap);
      indicators := manager;
      sensorLeds := entries;
      this.charts := charts;
      SensorMapDistinct();
      SensorLedsDistinct(children, SensorMap);
    }

    /**
     * Sets the sensor LEDs to the given states in table order. A widget that
     * is not an LED has no `setState`: the call raises `AttributeError`
     * there, after the LEDs before it were set and before any after it.
     */
    method ShowStates(states: seq<string>) returns (r: Result<()>)
      requires Valid()
      requires |states| == |sensorLeds| && forall i :: 0 <= i < |states| ==> states[i] in ValidStates
      modifies SensorLedSet()
      ensures r.Ok? <==> LedPrefix(sensorLeds) == |sensorLeds|
      ensures r.Err? ==> r.error == AttributeError
      ensures forall i :: 0 <= i < LedPrefix(sensorLeds) ==> Shows(sensorLeds[i].1.led, states[i])
      ensures forall i :: LedPrefix(sensorLeds) <= i < |sensorLeds| && sensorLeds[i].1.LedWidget? ==>
        unchanged(sensorLeds[i].1.led)
    {
      var n := LedPrefix(sensorLeds);
      var i := 0;
      while i < n
        invariant 0 <= i <= n
        invariant forall j :: 0 <= j < i ==> Shows(sensorLeds[j].1.led, states[j])
        invariant forall j :: i <= j < |sensorLeds| && sensorLeds[j].1.LedWidget? ==> unchanged(sensorLeds[j].1.led)
      {
        var led := sensorLeds[i].1.led;
        assert forall j :: 0 <= j < |sensorLeds| && j != i && sensorLeds[j].1.LedWidget? ==> sensorLeds[j].1.led != led;
        var _ := led.SetState(states[i]);
        i := i + 1;
      }
      r := if n == |sensorLeds| then Ok(()) else Err(AttributeError);
    }

    /**
     * Shows each sensor's status: "on" exactly for a status of `True`,
     * "fault" otherwise, including a sensor missing from `status`.
     */
    method UpdateSensors(status: map<string, Value>) returns (r: Result<()>)
      requires Valid()
      modifies SensorLedSet()
      ensures r.Ok? <==> LedPrefix(sensorLeds) == |sensorLeds|
      ensures forall i :: 0 <= i < LedPrefix(sensorLeds) ==>
        Shows(sensorLeds[i].1.led, SensorLedState(status, sensorLeds[i].0))
      ensures forall i :: LedPrefix(sensorLeds) <= i < |sensorLeds| && sensorLeds[i].1.LedWidget? ==>
        unchanged(sensorLeds[i].1.led)
    {
      r := ShowStates(SensorStates(sensorLeds, status));
    }

    /** Turns every sensor LED off, as the window does before the first status arrives. */
    method InitializeLeds() returns (r: Result<()>)
      requires Valid()
      modifies SensorLedSet()
      ensures r.Ok? <==> LedPrefix(sensorLeds) == |sensorLeds|
      ensures forall i :: 0 <= i < LedPrefix(sensorLeds) ==> Shows(sensorLeds[i].1.led, "off")
      ensures forall i :: LedPrefix(sensorLeds) <= i < |sensorLeds| && sensorLeds[i].1.LedWidget? ==>
        unchanged(sensorLeds[i].1.led)
    {
      r := ShowStates(AllOff(|sensorLeds|));
    }

    /**
     * Forwards a trajectory point to the chart: nothing without a chart;
     * otherwise the chart is cleared first when `getattr(p, "clear", False)`
     * is truthy (every dictionary point), and the point is appended.
     */
    method AppendTrajectory(p: ChartPoint, rt: Runtime)
      requires charts.Some? ==> charts.value.Valid()
      modifies if charts.Some? then {charts.value} else {}
      ensures charts.Some? ==> charts.value.Valid()
      ensures charts.Some? ==>
        var start := if ClearRequestedAsWritten(p) then Cleared(old(charts.value.State())) else old(charts.value.State());
        charts.value.State() == Appended(start, ParsePoint(p, rt), charts.value.updateInterval)
    {
      if charts.None? {
        return;
      }
      var chart := charts.value;
      if ClearRequestedAsWritten(p) {
        chart.Clear();
      }
      var _ := chart.AppendPoint(p, rt);
    }
  }

  /** The loop that fills the sensor table: for each pair, the registered indicator, else an LED child of that name. */
  method CollectSensorLeds(manager: IndicatorsManager, children: seq<Child>, pairs: seq<(string, string)>)
    returns (entries: seq<(string, Widget)>)
    ensures entries == SensorLeds(manager.indicators, children, pairs)
  {
    entries := [];
    var k := 0;
    while k < |pairs|
      invariant 0 <= k <= |pairs|
      invariant entries == SensorLeds(manager.indicators, children, pairs[..k])
    {
      var next := k + 1;
      assert pairs[..next][..k] == pairs[..k];
      var (id, name) := pairs[k];
      var w := manager.GetItem(name);
      if w.Some? {
        entries := entries + [(id, w.value)];
      } else {
        var found := FindLedFrom(children, name, 0);
        if found.Some? {
          entries := entries + [(id, children[found.value].widget)];
        }
      }
      k := next;
    }
    assert pairs[..k] == pairs;
  }
}
