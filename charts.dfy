/**
 * The altitude chart: three parallel buffers of relative time, expected
 * altitude and actual altitude, anchored at the time of the first point,
 * with plot refreshes batched every few accepted points.
 */
module Charts {
  import opened Values

  /**
   * A point handed to the chart: an object with attributes (what the replay
   * player emits), or a dictionary (a raw replay record).
   */
  datatype ChartPoint = Obj(attrs: map<string, Value>) | DictPoint(entries: map<string, Value>)

  /** The chart's epoch thresholds: above 1e12 the time is read as nanoseconds, above 1e10 as milliseconds. */
  const NanoThreshold: real := 1000000000000.0
  const MilliThreshold: real := 10000000000.0

  /** Numeric times are brought to seconds by the chart's own magnitude rule. */
  function NormalizeEpoch(raw: real): (t: real)
    ensures raw > NanoThreshold ==> t == raw / 1000000000.0 && t > 1000.0
    ensures MilliThreshold < raw <= NanoThreshold ==> t == raw / 1000.0 && 10000000.0 < t <= 1000000000.0
    ensures raw <= MilliThreshold ==> t == raw
  {
    if raw > NanoThreshold then raw / 1000000000.0
    else if raw > MilliThreshold then raw / 1000.0
    else raw
  }

  /**
   * A time value in seconds, or `None` when the point must be ignored.
   * Strings are ISO 8601: every 'Z' becomes "+00:00" when the string ends
   * in 'Z', and the original string is retried with the fixed
   * microsecond pattern when that fails.
   */
  function ParseTime(raw: Value, rt: Runtime): (t: Option<real>)
    ensures raw.Null? || raw.List? || raw.Tuple? || raw.Dict? ==> t.None?
    ensures raw.Num? ==> t == Some(NormalizeEpoch(raw.r))
  {
    match raw
    case Null => None
    case Str(s) =>
      var iso := if EndsWith(s, "Z") then ReplaceChar(s, 'Z', "+00:00") else s;
      (match rt.fromIsoFormat(iso)
       case Some(t) => Some(t)
       case None => rt.strptimeUtc(s))
    case _ =>
      match ToFloat(raw, rt)
      case Some(r) => Some(NormalizeEpoch(r))
      case None => None
  }

  /**
   * The clear flag as the chart reads it: `getattr(p, "clear", False)`. On a
   * dictionary that finds the bound method `dict.clear`, which is truthy, so
   * every dictionary point clears the chart.
   */
  predicate ClearRequestedAsWritten(p: ChartPoint) {
    match p
    case Obj(attrs) => Truthy(Get(attrs, "clear"))
    case DictPoint(_) => true
  }

  /** The clear flag as intended: a truthy "clear" attribute or key. */
  predicate ClearRequested(p: ChartPoint) {
    match p
    case Obj(attrs) => Truthy(Get(attrs, "clear"))
    case DictPoint(entries) => Truthy(Get(entries, "clear"))
  }

  /** The as-written flag clears on a dictionary point that carries no clear key at all. */
  lemma DictPointAlwaysClears()
    ensures ClearRequestedAsWritten(DictPoint(map["ts" := Num(1.0), "alt_actual" := Num(10.0)]))
    ensures !ClearRequested(DictPoint(map["ts" := Num(1.0), "alt_actual" := Num(10.0)]))
  {
  }

  /** The two readings agree on attribute objects; they differ only on dictionaries. */
  lemma ClearFlagsAgreeOnObjects(p: ChartPoint)
    ensures ClearRequestedAsWritten(p) != ClearRequested(p) <==> p.DictPoint? && !Truthy(Get(p.entries, "clear"))
  {
  }

  /** The raw time: attribute `t` on an object, key `ts` on a dictionary. */
  function RawTime(p: ChartPoint): Value {
    match p
    case Obj(attrs) => Get(attrs, "t")
    case DictPoint(entries) => Get(entries, "ts")
  }

  /** An attribute of an object or a key of a dictionary; `None` when absent. */
  function Field(p: ChartPoint, k: string): Value {
    match p
    case Obj(attrs) => Get(attrs, k)
    case DictPoint(entries) => Get(entries, k)
  }

  /**
   * The expected and actual altitude values before conversion. A dictionary
   * point missing either one looks into its "telemetry" dictionary: actual
   * altitude from `alt_gps`, else `alt_bmp`, else `alt`; expected from
   * `alt_expected`.
   */
  function AltitudeValues(p: ChartPoint): (Value, Value) {
    var exp := Field(p, "alt_expected");
    var act := Field(p, "alt_actual");
    if (exp.Null? || act.Null?) && p.DictPoint? && Get(p.entries, "telemetry").Dict? then
      var tele := Get(p.entries, "telemetry").entries;
      var act2 := if act.Null? then Or(Or(Get(tele, "alt_gps"), Get(tele, "alt_bmp")), Get(tele, "alt")) else act;
      var exp2 := if exp.Null? then Get(tele, "alt_expected") else exp;
      (exp2, act2)
    else (exp, act)
  }

  /** What a point amounts to once parsed. */
  datatype ParsedPoint =
    | NoTime
    | BadAltitude(ts: real)
    | Accepted(ts: real, altExpected: Option<real>, altActual: real)

  /**
   * A point with no parseable time is ignored; one with a time but an
   * actual altitude that does not convert to a number is rejected after its
   * time is read; otherwise it is accepted, with an expected altitude that is
   * NaN (here `None`) when missing or not numeric.
   */
  function ParsePoint(p: ChartPoint, rt: Runtime): (pp: ParsedPoint)
    ensures RawTime(p).Null? ==> pp == NoTime
    ensures pp.NoTime? <==> ParseTime(RawTime(p), rt).None?
    ensures pp.BadAltitude? ==> ToFloat(AltitudeValues(p).1, rt).None?
    ensures pp.Accepted? ==> Some(pp.altActual) == ToFloat(AltitudeValues(p).1, rt)
    ensures pp.Accepted? && AltitudeValues(p).0.Null? ==> pp.altExpected.None?
    ensures !pp.NoTime? ==> Some(pp.ts) == ParseTime(RawTime(p), rt)
    ensures pp.BadAltitude? <==> ParseTime(RawTime(p), rt).Some? && ToFloat(AltitudeValues(p).1, rt).None?
    ensures pp.Accepted? ==>
      pp.altExpected == if AltitudeValues(p).0.Null? then None else ToFloat(AltitudeValues(p).0, rt)
  {
    match ParseTime(RawTime(p), rt)
    case None => NoTime
    case Some(ts) =>
      var (exp, act) := AltitudeValues(p);
      match ToFloat(act, rt)
      case None => BadAltitude(ts)
      case Some(a) => Accepted(ts, if exp.Null? then None else ToFloat(exp, rt), a)
  }

  /** The buffers, anchor and refresh counter of a chart. */
  datatype ChartState = ChartState(
    t: seq<real>, altExp: seq<Option<real>>, altAct: seq<real>, baseTime: Option<real>, pending: int)

  /** Python `max(1, interval)`: the number of accepted points per refresh. */
  function FlushBound(interval: int): (b: int)
    ensures b >= 1 && b >= interval
  {
    if interval >= 1 then interval else 1
  }

  function Cleared(s: ChartState): ChartState {
    ChartState([], [], [], None, 0)
  }

  /** The new state after one parsed point. */
  function Appended(s: ChartState, pp: ParsedPoint, interval: int): ChartState {
    if pp.NoTime? then s
    else
      var base := if s.baseTime.None? then pp.ts else s.baseTime.value;
      if pp.BadAltitude? then s.(baseTime := Some(base))
      else
        var pending := if s.pending + 1 >= FlushBound(interval) then 0 else s.pending + 1;
        ChartState(s.t + [pp.ts - base], s.altExp + [pp.altExpected], s.altAct + [pp.altActual], Some(base), pending)
  }

  /** Whether appending `pp` refreshes the plot. */
  predicate Flushes(s: ChartState, pp: ParsedPoint, interval: int) {
    pp.Accepted? && s.pending + 1 >= FlushBound(interval)
  }

  /**
   * An accepted point extends all three buffers by one, so equal lengths
   * stay equal; anything else leaves the buffers as they were.
   */
  lemma AppendedKeepsBuffersAligned(s: ChartState, pp: ParsedPoint, interval: int)
    requires |s.t| == |s.altExp| == |s.altAct|
    ensures var r := Appended(s, pp, interval);
      && |r.t| == |r.altExp| == |r.altAct|
      && |r.t| == |s.t| + (if pp.Accepted? then 1 else 0)
      && r.t[..|s.t|] == s.t && r.altExp[..|s.altExp|] == s.altExp && r.altAct[..|s.altAct|] == s.altAct
  {
  }

  /**
   * The refresh counter stays in [0, max(1, interval)), and a refresh happens
   * exactly when the counter would reach the bound, resetting it to 0.
   */
  lemma PendingStaysBelowBound(s: ChartState, pp: ParsedPoint, interval: int)
    requires 0 <= s.pending < FlushBound(interval)
    ensures 0 <= Appended(s, pp, interval).pending < FlushBound(interval)
    ensures Flushes(s, pp, interval) ==> Appended(s, pp, interval).pending == 0
    ensures pp.Accepted? && !Flushes(s, pp, interval) ==> Appended(s, pp, interval).pending == s.pending + 1
  {
  }

  /** The first point accepted after a clear is stored at relative time 0. */
  lemma FirstPointAfterClearAtZero(s: ChartState, ts: real, exp: Option<real>, act: real, interval: int)
    ensures Appended(Cleared(s), Accepted(ts, exp, act), interval).t == [0.0]
  {
  }

  /**
   * As written, a dictionary point restarts the chart: whatever was stored,
   * afterwards the chart holds at most that one point, at relative time 0,
   * and holds it exactly when the point is accepted.
   */
  lemma DictPointRestartsChart(s: ChartState, entries: map<string, Value>, rt: Runtime, interval: int)
    ensures ClearRequestedAsWritten(DictPoint(entries))
    ensures var r := Appended(Cleared(s), ParsePoint(DictPoint(entries), rt), interval);
      && |r.t| == |r.altExp| == |r.altAct| <= 1
      && (ParsePoint(DictPoint(entries), rt).Accepted? <==> r.t == [0.0])
      && (ParsePoint(DictPoint(entries), rt).NoTime? ==> r.baseTime.None?)
  {
  }

  /**
   * A point rejected for its altitude still anchors the time base when none is
   * set, and appends nothing; the next accepted point is measured from it.
   */
  lemma RejectedPointAnchorsBase(s: ChartState, ts: real, ts2: real, exp: Option<real>, act: real, interval: int)
    requires s.baseTime.None?
    ensures var r := Appended(s, BadAltitude(ts), interval);
      && r.baseTime == Some(ts) && r.t == s.t && r.altExp == s.altExp && r.altAct == s.altAct && r.pending == s.pending
      && Appended(r, Accepted(ts2, exp, act), interval).t == s.t + [ts2 - ts]
  {
  }

  /** The state after a sequence of parsed points, in order. */
  function AppendAll(s: ChartState, pps: seq<ParsedPoint>, interval: int): ChartState
    decreases |pps|
  {
    if pps == [] then s else Appended(AppendAll(s, pps[..|pps| - 1], interval), pps[|pps| - 1], interval)
  }

  /** The time of the first point that carries one, if any. */
  function FirstTime(pps: seq<ParsedPoint>): Option<real> {
    if pps == [] then None
    else if !pps[0].NoTime? then Some(pps[0].ts)
    else FirstTime(pps[1..])
  }

  /** The times of the accepted points, in order. */
  function AcceptedTimes(pps: seq<ParsedPoint>): seq<real> {
    if pps == [] then []
    else AcceptedTimes(pps[..|pps| - 1]) + (if pps[|pps| - 1].Accepted? then [pps[|pps| - 1].ts] else [])
  }

  function Shift(xs: seq<real>, base: real): (ys: seq<real>)
    ensures |ys| == |xs| && forall i :: 0 <= i < |xs| ==> ys[i] == xs[i] - base
  {
    if xs == [] then [] else Shift(xs[..|xs| - 1], base) + [xs[|xs| - 1] - base]
  }

  lemma {:induction false} FirstTimeOfExtension(pps: seq<ParsedPoint>, pp: ParsedPoint)
    ensures FirstTime(pps + [pp]) == if FirstTime(pps).Some? then FirstTime(pps) else if pp.NoTime? then None else Some(pp.ts)
  {
    if pps != [] {
      assert (pps + [pp])[1..] == pps[1..] + [pp];
      FirstTimeOfExtension(pps[1..], pp);
    }
  }

  /**
   * Starting from a cleared chart, the stored times after any sequence of
   * points are the accepted points' times measured from the first point that
   * carried a time (even a rejected one), in arrival order.
   */
  lemma {:induction false} StoredTimesRelativeToFirst(s: ChartState, pps: seq<ParsedPoint>, interval: int)
    ensures var r := AppendAll(Cleared(s), pps, interval);
      && r.baseTime == FirstTime(pps)
      && (r.baseTime.Some? ==> r.t == Shift(AcceptedTimes(pps), r.baseTime.value))
      && (r.baseTime.None? ==> r.t == [] && AcceptedTimes(pps) == [])
  {
    if pps != [] {
      var init := pps[..|pps| - 1];
      var last := pps[|pps| - 1];
      assert pps == init + [last];
      StoredTimesRelativeToFirst(s, init, interval);
      FirstTimeOfExtension(init, last);
      var r0 := AppendAll(Cleared(s), init, interval);
      var first, times := FirstTime(init), AcceptedTimes(init);
      StoredTimesStep(r0, last, first, times, interval);
      assert AppendAll(Cleared(s), pps, interval) == Appended(r0, last, interval);
      assert AcceptedTimes(pps) == times + (if last.Accepted? then [last.ts] else []);
    }
  }

  /** One more point keeps the stored times equal to the accepted times measured from the first time. */
  lemma StoredTimesStep(r0: ChartState, pp: ParsedPoint, first: Option<real>, times: seq<real>, interval: int)
    requires r0.baseTime == first
    requires first.Some? ==> r0.t == Shift(times, first.value)
    requires first.None? ==> r0.t == [] && times == []
    ensures var r := Appended(r0, pp, interval);
      var first' := if first.Some? then first else if pp.NoTime? then None else Some(pp.ts);
      var times' := times + (if pp.Accepted? then [pp.ts] else []);
      && r.baseTime == first'
      && (first'.Some? ==> r.t == Shift(times', first'.value))
      && (first'.None? ==> r.t == [] && times' == [])
  {
    if pp.Accepted? {
      var base := if first.Some? then first.value else pp.ts;
      ShiftSnoc(times, pp.ts, base);
    }
  }

  lemma ShiftSnoc(xs: seq<real>, x: real, base: real)
    ensures Shift(xs + [x], base) == Shift(xs, base) + [x - base]
  {
    assert (xs + [x])[..|xs|] == xs;
  }

  class TrajectoryCharts {
    var t: seq<real>
    var altExp: seq<Option<real>>
    var altAct: seq<real>
    var baseTime: Option<real>
    var pendingUpdates: int
    /** Accepted points per plot refresh. */
    const updateInterval: int
    /** Declared as a buffer cap; nothing enforces it. */
    const maxPoints: int
    /** The absolute times of the stored points, before the base time is subtracted. */
    ghost var absTimes: seq<real>

    function State(): ChartState
      reads this
    {
      ChartState(t, altExp, altAct, baseTime, pendingUpdates)
    }

    /**
     * The buffers are parallel, the refresh counter is below its bound, and
     * every stored time is its absolute time minus the base time.
     */
    ghost predicate Valid()
      reads this
    {
      && |t| == |altExp| == |altAct| == |absTimes|
      && 0 <= pendingUpdates < FlushBound(updateInterval)
      && (t != [] ==> baseTime.Some?)
      && forall i :: 0 <= i < |t| ==> t[i] == absTimes[i] - baseTime.value
    }

    constructor()
      ensures Valid()
      ensures State() == ChartState([], [], [], None, 0) && absTimes == []
      ensures updateInterval == 5 && maxPoints == 10000
    {
      t := [];
      altExp := [];
      altAct := [];
      baseTime := None;
      pendingUpdates := 0;
      updateInterval := 5;
      maxPoints := 10000;
      absTimes := [];
    }

    /** Empties the buffers and resets the counter and the base time. */
    method Clear()
      requires Valid()
      modifies this
      ensures Valid()
      ensures State() == Cleared(old(State())) && absTimes == []
    {
      t := [];
      altExp := [];
      altAct := [];
      pendingUpdates := 0;
      baseTime := None;
      absTimes := [];
    }

    /**
     * Adds one point: clears first when `getattr(p, "clear", False)` is
     * truthy, which holds for every dictionary point, then stores the point
     * as `ParsePoint` reads it. Returns whether the plot was refreshed.
     */
    method AppendPoint(p: ChartPoint, rt: Runtime) returns (flushed: bool)
      requires Valid()
      modifies this
      ensures Valid()
      ensures var start := if ClearRequestedAsWritten(p) then Cleared(old(State())) else old(State());
        && State() == Appended(start, ParsePoint(p, rt), updateInterval)
        && flushed == Flushes(start, ParsePoint(p, rt), updateInterval)
      ensures var kept := if ClearRequestedAsWritten(p) then [] else old(absTimes);
        absTimes == kept + (if ParsePoint(p, rt).Accepted? then [ParsePoint(p, rt).ts] else [])
    {
      if ClearRequestedAsWritten(p) {
        Clear();
      }
      flushed := Store(ParsePoint(p, rt));
    }

    /**
     * Stores a parsed point: a point with a time anchors the base time when
     * none is set; an accepted one is appended to the three buffers and
     * advances the refresh counter, which wraps to 0 on a refresh.
     */
    method Store(pp: ParsedPoint) returns (flushed: bool)
      requires Valid()
      modifies this
      ensures Valid()
      ensures State() == Appended(old(State()), pp, updateInterval)
      ensures flushed == Flushes(old(State()), pp, updateInterval)
      ensures absTimes == old(absTimes) + (if pp.Accepted? then [pp.ts] else [])
    {
      flushed := false;
      if pp.NoTime? {
        return;
      }
      if baseTime.None? {
        baseTime := Some(pp.ts);
      }
      if pp.BadAltitude? {
        return;
      }
      t := t + [pp.ts - baseTime.value];
      altExp := altExp + [pp.altExpected];
      altAct := altAct + [pp.altActual];
      absTimes := absTimes + [pp.ts];
      pendingUpdates := pendingUpdates + 1;
      if pendingUpdates >= FlushBound(updateInterval) {
        flushed := true;
        pendingUpdates := 0;
      }
    }

    /** The number of stored points; every buffer has this length. */
    function GetDataPointCount(): (n: nat)
      reads this
      requires Valid()
      ensures n == |t| == |altExp| == |altAct|
    {
      |t|
    }
  }
}
