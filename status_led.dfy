/**
 * The round status LED widget and the manager that discovers the indicator
 * widgets of a window and sets their states by name.
 */
module StatusLed {
  import opened Values

  /** The states an LED can show: green, grey and red. */
  const ValidStates: seq<string> := ["on", "off", "fault"]

  class StatusLED {
    const diameter: int
    var state: string
    /** Stored for the layout loader; never drawn. */
    var text: string
    /** The Qt dynamic property "status" that legacy style sheets read. */
    var statusProperty: Option<string>
    /** Repaints scheduled with `update()`. */
    var updates: nat

    ghost predicate Valid()
      reads this
    {
      state in ValidStates
    }

    /** A new LED is off and has no text. */
    constructor(diameter: int)
      ensures Valid()
      ensures this.diameter == diameter && state == "off" && text == "" && Text() == ""
      ensures statusProperty == None && updates == 0
    {
      this.diameter := diameter;
      state := "off";
      text := "";
      statusProperty := None;
      updates := 0;
    }

    /**
     * Sets the LED state. A state outside `ValidStates` raises `ValueError`
     * and leaves the LED as it was; a valid state schedules one repaint
     * exactly when it differs from the current one.
     */
    method SetState(newState: string) returns (r: Result<()>)
      modifies this
      ensures newState !in ValidStates ==> r == Err(ValueError) && state == old(state) && updates == old(updates)
      ensures newState in ValidStates ==>
        r == Ok(()) && state == newState && updates == old(updates) + (if old(state) != newState then 1 else 0)
      ensures text == old(text) && statusProperty == old(statusProperty)
      ensures old(Valid()) ==> Valid()
    {
      if newState !in ValidStates {
        return Err(ValueError);
      }
      if state != newState {
        state := newState;
        updates := updates + 1;
      }
      return Ok(());
    }

    /** This LED went through `ApplyStatus(requested, mapped)` since the earlier state. */
    twostate predicate Applied(requested: string, mapped: string)
      reads this
    {
      && state == mapped && statusProperty == Some(requested)
      && updates == old(updates) + (if old(state) != mapped then 2 else 1)
      && text == old(text)
    }

    /**
     * What the indicator manager does to an LED: record the requested state
     * name as the "status" property, show the mapped state, schedule a repaint.
     */
    method ApplyStatus(requested: string, mapped: string)
      requires mapped in ValidStates
      modifies this
      ensures Applied(requested, mapped)
      ensures Valid()
    {
      statusProperty := Some(requested);
      var _ := SetState(mapped);
      updates := updates + 1;
    }

    /** Boolean on/off control: never produces "fault". */
    method SetOn(on: bool)
      modifies this
      ensures state == (if on then "on" else "off") && state != "fault"
      ensures updates == old(updates) + (if old(state) != state then 1 else 0)
      ensures text == old(text) && statusProperty == old(statusProperty)
      ensures Valid()
    {
      var newState := if on then "on" else "off";
      var _ := SetState(newState);
    }

    /** The current state; always one of `ValidStates`. */
    function GetState(): (s: string)
      reads this
      requires Valid()
      ensures s in ValidStates
    {
      state
    }

    method SetText(t: string)
      modifies this
      ensures text == t && Text() == t
      ensures state == old(state) && statusProperty == old(statusProperty) && updates == old(updates)
    {
      text := t;
    }

    /** The text last given to `SetText`, or "" for a new LED. */
    function Text(): string
      reads this
    {
      text
    }
  }

  /** Legacy state names and the LED's own names, translated to LED states. */
  const StateMapping: map<string, string> := map[
    "ok" := "on",
    "inactive" := "off",
    "error" := "fault",
    "warning" := "fault",
    "on" := "on",
    "off" := "off",
    "fault" := "fault"
  ]

  /**
   * The LED state a requested state name stands for, or `None` when the name
   * is not accepted.
   */
  function MapState(s: string): (r: Option<string>)
    ensures r.Some? <==> s in {"ok", "inactive", "error", "warning", "on", "off", "fault"}
    ensures r.Some? ==> r.value in ValidStates
    ensures s in ValidStates ==> r == Some(s)
    ensures s == "ok" ==> r == Some("on")
    ensures s == "inactive" ==> r == Some("off")
    ensures s == "error" || s == "warning" ==> r == Some("fault")
  {
    if s in StateMapping then Some(StateMapping[s]) else None
  }

  /** A widget of the window: a status LED, or some other widget (identified by a number). */
  datatype Widget = LedWidget(led: StatusLED) | OtherWidget(id: nat)

  /** A child widget of the window, with its object name. */
  datatype Child = Child(name: string, widget: Widget)

  /** The naming rule for indicator widgets. */
  predicate IsIndicatorName(name: string) {
    name != "" && EndsWith(name, "Indicator")
  }

  /** The name registry discovery builds from the window's children: a later child replaces an earlier one of the same name. */
  ghost function Discovered(children: seq<Child>): map<string, Widget> {
    if children == [] then map[]
    else
      var m := Discovered(children[..|children| - 1]);
      var c := children[|children| - 1];
      if IsIndicatorName(c.name) then m[c.name := c.widget] else m
  }

  /** The registry's key order: each name where it was first registered. */
  ghost function DiscoveredOrder(children: seq<Child>): seq<string> {
    if children == [] then []
    else
      var order := DiscoveredOrder(children[..|children| - 1]);
      var c := children[|children| - 1];
      if IsIndicatorName(c.name) && c.name !in order then order + [c.name] else order
  }

  /** Discovery registers exactly the children with indicator names. */
  lemma {:induction false} DiscoveredKeys(children: seq<Child>)
    ensures forall n :: n in Discovered(children) <==>
      exists i :: 0 <= i < |children| && children[i].name == n && IsIndicatorName(n)
  {
    if children != [] {
      var prefix := children[..|children| - 1];
      DiscoveredKeys(prefix);
      forall n ensures n in Discovered(children) <==>
        exists i :: 0 <= i < |children| && children[i].name == n && IsIndicatorName(n)
      {
        if n in Discovered(prefix) {
          var i :| 0 <= i < |prefix| && prefix[i].name == n && IsIndicatorName(n);
          assert children[i] == prefix[i];
        }
        if exists i :: 0 <= i < |children| && children[i].name == n && IsIndicatorName(n) {
          var i :| 0 <= i < |children| && children[i].name == n && IsIndicatorName(n);
          if i < |prefix| { assert prefix[i] == children[i]; }
        }
      }
    }
  }

  /** Every registered widget is a child registered under its own name. */
  lemma {:induction false} DiscoveredWidgets(children: seq<Child>)
    ensures forall n :: n in Discovered(children) ==>
      exists i :: 0 <= i < |children| && children[i].name == n && children[i].widget == Discovered(children)[n]
  {
    if children != [] {
      var prefix := children[..|children| - 1];
      DiscoveredWidgets(prefix);
      var c := children[|children| - 1];
      forall n | n in Discovered(children) ensures
        exists i :: 0 <= i < |children| && children[i].name == n && children[i].widget == Discovered(children)[n]
      {
        if IsIndicatorName(c.name) && n == c.name {
          assert children[|children| - 1].name == n;
        } else {
          assert n in Discovered(prefix) && Discovered(children)[n] == Discovered(prefix)[n];
          var i :| 0 <= i < |prefix| && prefix[i].name == n && prefix[i].widget == Discovered(prefix)[n];
          assert children[i] == prefix[i];
        }
      }
    }
  }

  /** The key order lists every registered name, and each once. */
  lemma {:induction false} DiscoveredOrderKeys(children: seq<Child>)
    ensures forall n :: n in DiscoveredOrder(children) <==> n in Discovered(children)
    ensures forall i, j :: 0 <= i < j < |DiscoveredOrder(children)| ==> DiscoveredOrder(children)[i] != DiscoveredOrder(children)[j]
  {
    if children != [] {
      var prefix := children[..|children| - 1];
      DiscoveredOrderKeys(prefix);
      var order := DiscoveredOrder(prefix);
      var c := children[|children| - 1];
      if IsIndicatorName(c.name) && c.name !in order {
        assert DiscoveredOrder(children) == order + [c.name];
        forall i, j | 0 <= i < j < |order| + 1 ensures (order + [c.name])[i] != (order + [c.name])[j] {
          if j == |order| { assert order[i] in order; }
        }
      }
    }
  }

  /** How a caller names the indicator to set: by name, or by passing the widget (or `None`). */
  datatype Target = ByName(name: string) | ByWidget(widget: Option<Widget>)

  /**
   * A registry whose key order lists every key once, and in which no LED is
   * registered under two names.
   */
  ghost predicate OrderedRegistry(indicators: map<string, Widget>, order: seq<string>) {
    && (forall n :: n in indicators <==> n in order)
    && (forall i, j :: 0 <= i < j < |order| ==> order[i] != order[j])
    && (forall n, m ::
          n in indicators && m in indicators && n != m && indicators[n].LedWidget? && indicators[m].LedWidget? ==>
          indicators[n].led != indicators[m].led)
  }

  function LedsUpTo(indicators: map<string, Widget>, order: seq<string>, i: nat): set<StatusLED>
    requires i <= |order| && forall n :: n in order ==> n in indicators
  {
    set a | 0 <= a < i && indicators[order[a]].LedWidget? :: indicators[order[a]].led
  }

  lemma LedNotYetSet(indicators: map<string, Widget>, order: seq<string>, i: nat)
    requires OrderedRegistry(indicators, order) && i < |order| && indicators[order[i]].LedWidget?
    ensures indicators[order[i]].led !in LedsUpTo(indicators, order, i)
  {
    forall a | 0 <= a < i && indicators[order[a]].LedWidget? ensures indicators[order[a]].led != indicators[order[i]].led {
      assert order[a] != order[i];
    }
  }

  lemma LedsInOrder(indicators: map<string, Widget>, order: seq<string>)
    requires OrderedRegistry(indicators, order)
    ensures LedsUpTo(indicators, order, |order|) ==
      set n | n in indicators && indicators[n].LedWidget? :: indicators[n].led
  {
    forall l | l in set n | n in indicators && indicators[n].LedWidget? :: indicators[n].led
      ensures l in LedsUpTo(indicators, order, |order|)
    {
      var n :| n in indicators && indicators[n].LedWidget? && indicators[n].led == l;
      var a :| 0 <= a < |order| && order[a] == n;
    }
  }

  class IndicatorsManager {
    /** Registered indicator widgets by name. */
    var indicators: map<string, Widget>
    /** The registry's keys in insertion order. */
    var order: seq<string>

    /** The status LEDs among the registered widgets. */
    function Leds(): set<StatusLED>
      reads this
    {
      set n | n in indicators && indicators[n].LedWidget? :: indicators[n].led
    }

    ghost predicate Valid()
      reads this, Leds()
      ensures Valid() ==> OrderedRegistry(indicators, order)
    {
      && OrderedRegistry(indicators, order)
      && (forall l :: l in Leds() ==> l.Valid())
    }

    /**
     * Discovers the indicators among the window's children: every child whose
     * non-empty name ends in "Indicator". Child widgets are distinct objects.
     */
    constructor(children: seq<Child>)
      requires forall i, j :: 0 <= i < j < |children| && children[i].widget.LedWidget? && children[j].widget.LedWidget? ==>
        children[i].widget.led != children[j].widget.led
      requires forall i :: 0 <= i < |children| && children[i].widget.LedWidget? ==> children[i].widget.led.Valid()
      ensures Valid()
      ensures indicators == Discovered(children) && order == DiscoveredOrder(children)
    {
      indicators := map[];
      order := [];
      new;
      var i := 0;
      while i < |children|
        invariant 0 <= i <= |children|
        invariant indicators == Discovered(children[..i]) && order == DiscoveredOrder(children[..i])
        invariant forall n :: n in indicators ==>
          exists k :: 0 <= k < i && children[k].name == n && children[k].widget == indicators[n]
        invariant forall n :: n in indicators <==> n in order
        invariant forall a, b :: 0 <= a < b < |order| ==> order[a] != order[b]
      {
        assert children[..i + 1][..i] == children[..i];
        var c := children[i];
        if IsIndicatorName(c.name) {
          if c.name !in indicators {
            order := order + [c.name];
          }
          indicators := indicators[c.name := c.widget];
        }
        i := i + 1;
      }
      assert children[..i] == children;
      forall n, m | n in indicators && m in indicators && n != m &&
          indicators[n].LedWidget? && indicators[m].LedWidget?
        ensures indicators[n].led != indicators[m].led
      {
        var a :| 0 <= a < |children| && children[a].name == n && children[a].widget == indicators[n];
        var b :| 0 <= b < |children| && children[b].name == m && children[b].widget == indicators[m];
      }
      forall l | l in Leds() ensures l.Valid() {
        var n :| n in indicators && indicators[n].LedWidget? && indicators[n].led == l;
        var a :| 0 <= a < |children| && children[a].name == n && children[a].widget == indicators[n];
      }
    }

    /** The widget a target resolves to, if any. */
    function Resolve(target: Target): Option<Widget>
      reads this
    {
      match target
      case ByName(name) => if name in indicators then Some(indicators[name]) else None
      case ByWidget(w) => w
    }

    /** The LED a target resolves to, as a frame. */
    function TargetLeds(target: Target): set<StatusLED>
      reads this
    {
      match Resolve(target)
      case Some(LedWidget(led)) => {led}
      case _ => {}
    }

    /**
     * Sets one indicator. A state name that `MapState` does not accept raises
     * `ValueError` and changes nothing; otherwise the result says whether the
     * target resolved to a widget, and a resolved LED records the requested
     * name as its "status" property, shows the mapped state, and is repainted.
     */
    method Set(target: Target, state: string) returns (r: Result<bool>)
      requires Valid()
      requires forall l :: l in TargetLeds(target) ==> l.Valid()
      modifies TargetLeds(target)
      ensures MapState(state).None? ==> r == Err(ValueError)
      ensures MapState(state).Some? ==> r == Ok(Resolve(target).Some?)
      ensures forall l :: l in TargetLeds(target) ==>
        if MapState(state).None? then unchanged(l) else l.Applied(state, MapState(state).value)
      ensures forall l :: l in TargetLeds(target) ==> l.Valid()
      ensures Valid()
    {
      var mapped := MapState(state);
      if mapped.None? {
        return Err(ValueError);
      }
      var w := Resolve(target);
      if w.None? {
        return Ok(false);
      }
      if w.value.LedWidget? {
        w.value.led.ApplyStatus(state, mapped.value);
      }
      return Ok(true);
    }

    /**
     * Sets every registered indicator. A state name that `MapState` does not
     * accept raises `ValueError` and changes nothing; otherwise every LED
     * records the name, shows the mapped state and is repainted.
     */
    method SetAll(state: string) returns (r: Result<()>)
      requires Valid()
      modifies Leds()
      ensures MapState(state).None? ==> r == Err(ValueError) && forall l :: l in Leds() ==> unchanged(l)
      ensures MapState(state).Some? ==> r == Ok(()) && forall l :: l in Leds() ==> l.Applied(state, MapState(state).value)
      ensures Valid()
    {
      var mapped := MapState(state);
      if mapped.None? {
        return Err(ValueError);
      }
      ghost var done: set<StatusLED> := {};
      var i := 0;
      while i < |order|
        invariant 0 <= i <= |order|
        invariant done == LedsUpTo(indicators, order, i)
        invariant forall l :: l in Leds() ==> if l in done then l.Applied(state, mapped.value) else unchanged(l)
      {
        var w := indicators[order[i]];
        if w.LedWidget? {
          var led := w.led;
          LedNotYetSet(indicators, order, i);
          led.ApplyStatus(state, mapped.value);
          done := done + {led};
        }
        i := i + 1;
      }
      LedsInOrder(indicators, order);
      return Ok(());
    }

    /** The registered names, in registration order, each once. */
    function Names(): (names: seq<string>)
      reads this, Leds()
      requires Valid()
      ensures forall n :: n in names <==> n in indicators
      ensures forall i, j :: 0 <= i < j < |names| ==> names[i] != names[j]
    {
      order
    }

    /** Dictionary-style lookup: `None` for a name that was not registered. */
    function GetItem(name: string): (w: Option<Widget>)
      reads this
      ensures w.None? <==> name !in indicators
      ensures w.Some? ==> w.value == indicators[name]
    {
      if name in indicators then Some(indicators[name]) else None
    }
  }
}
