/**
 * The camera window's snapshot bookkeeping: snapshot file names, the number
 * the next snapshot gets (recovered from the names already in the snapshot
 * directory), the counter that advances with each saved snapshot, and the
 * rule that only one camera window is open at a time.
 */
module Camera {
  import opened Values

  // ---------------------------------------------------------------------------
  // Decimal numbers

  predicate IsDigit(c: char) {
    '0' <= c <= '9'
  }

  /** The decimal digits of `n`, most significant first, without leading zeros. */
  function Decimal(n: nat): (s: string)
    ensures s != [] && forall i :: 0 <= i < |s| ==> IsDigit(s[i])
  {
    if n < 10 then ['0' + n as char]
    else Decimal(n / 10) + ['0' + (n % 10) as char]
  }

  /** The number the digits of `s` spell, skipping the `_` separators Python allows between digits. */
  function DigitsValue(s: string): nat {
    if s == [] then 0
    else
      var prev := DigitsValue(s[..|s| - 1]);
      var c := s[|s| - 1];
      if IsDigit(c) then 10 * prev + (c - '0') as nat else prev
  }

  /** A body Python's `int()` accepts: digits, with single underscores only between two digits. */
  predicate ValidDigits(s: string) {
    && s != []
    && IsDigit(s[0]) && IsDigit(s[|s| - 1])
    && (forall i :: 0 <= i < |s| ==> IsDigit(s[i]) || s[i] == '_')
    && (forall i :: 0 <= i < |s| - 1 ==> !(s[i] == '_' && s[i + 1] == '_'))
  }

  /**
   * Python `int(s)` for a string: surrounding whitespace is ignored, then an
   * optional sign and a valid digit body, in base 10 (leading zeros allowed).
   * `None` where `int()` raises `ValueError`.
   */
  function ParseInt(s: string): Option<int> {
    ParseStripped(Strip(s))
  }

  /** `int()` on a string without surrounding whitespace. */
  function ParseStripped(t: string): Option<int> {
    if t == [] then None
    else
      var body := if t[0] == '-' || t[0] == '+' then t[1..] else t;
      if !ValidDigits(body) then None
      else if t[0] == '-' then Some(-(DigitsValue(body) as int))
      else Some(DigitsValue(body))
  }

  function Zeros(k: nat): (s: string)
    ensures |s| == k && forall i :: 0 <= i < k ==> s[i] == '0'
  {
    seq(k, _ => '0')
  }

  /** `s` padded on the left with zeros to at least `width` characters. */
  function ZeroPadded(s: string, width: nat): string {
    if |s| < width then Zeros(width - |s|) + s else s
  }

  /**
   * Python `f"{n:03d}"`: at least three characters, zeros inserted after the
   * sign of a negative number.
   */
  function Pad3(n: int): (s: string)
    ensures |s| >= 3
    ensures n >= 0 ==> forall i :: 0 <= i < |s| ==> IsDigit(s[i])
    ensures n < 0 ==> s[0] == '-' && forall i :: 1 <= i < |s| ==> IsDigit(s[i])
  {
    if n >= 0 then ZeroPadded(Decimal(n), 3) else "-" + ZeroPadded(Decimal(-n), 2)
  }

  /** The digits of a number spell that number. */
  lemma {:induction false} DecimalValue(n: nat)
    ensures DigitsValue(Decimal(n)) == n
  {
    if n >= 10 {
      DecimalValue(n / 10);
      var s := Decimal(n);
      assert s[..|s| - 1] == Decimal(n / 10);
    }
  }

  /** Leading zeros do not change the value of a digit string. */
  lemma {:induction false} LeadingZerosValue(k: nat, s: string)
    ensures DigitsValue(Zeros(k) + s) == DigitsValue(s)
  {
    if s == [] {
      assert Zeros(k) + s == Zeros(k);
      ZerosValue(k);
    } else {
      var init := s[..|s| - 1];
      LeadingZerosValue(k, init);
      assert (Zeros(k) + s)[..|Zeros(k) + s| - 1] == Zeros(k) + init;
    }
  }

  lemma {:induction false} ZerosValue(k: nat)
    ensures DigitsValue(Zeros(k)) == 0
  {
    if k > 0 {
      ZerosValue(k - 1);
      assert Zeros(k)[..k - 1] == Zeros(k - 1);
    }
  }

  /** Zero-padding the digits of `m` keeps a valid digit body that spells `m`. */
  lemma PaddedDigits(m: nat, width: nat)
    ensures ValidDigits(ZeroPadded(Decimal(m), width))
    ensures DigitsValue(ZeroPadded(Decimal(m), width)) == m
  {
    DecimalValue(m);
    if |Decimal(m)| < width {
      LeadingZerosValue(width - |Decimal(m)|, Decimal(m));
    }
  }

  /** A string of digits parses as the number it spells. */
  lemma ParseDigits(s: string)
    requires s != [] && forall i :: 0 <= i < |s| ==> IsDigit(s[i])
    ensures ParseInt(s) == Some(DigitsValue(s) as int)
  {
    NoSpaceUnchanged(s);
    assert ParseInt(s) == ParseStripped(s);
    assert ValidDigits(s);
  }

  /** A minus sign followed by a valid digit body parses as the negated number. */
  lemma ParseNegative(digits: string)
    requires ValidDigits(digits)
    ensures ParseInt("-" + digits) == Some(-(DigitsValue(digits) as int))
  {
    var s := "-" + digits;
    NoSpaceUnchanged(s);
    assert ParseInt(s) == ParseStripped(s);
    assert s[1..] == digits;
  }

  /** Python's `int()` reads back the zero-padded counter of a file name: `int(f"{n:03d}") == n`. */
  lemma Pad3RoundTrip(n: int)
    ensures ParseInt(Pad3(n)) == Some(n)
  {
    if n >= 0 {
      Pad3NonNegative(n);
    } else {
      Pad3Negative(n);
    }
  }

  lemma Pad3NonNegative(n: nat)
    ensures ParseInt(Pad3(n)) == Some(n)
  {
    var digits := ZeroPadded(Decimal(n), 3);
    assert Pad3(n) == digits;
    PaddedDigits(n, 3);
    ParseDigits(digits);
  }

  lemma Pad3Negative(n: int)
    requires n < 0
    ensures ParseInt(Pad3(n)) == Some(n)
  {
    var m: nat := -n;
    var digits := ZeroPadded(Decimal(m), 2);
    assert Pad3(n) == "-" + digits;
    PaddedDigits(m, 2);
    ParseNegative(digits);
  }

  /** A string without whitespace at either end is its own `strip()`. */
  lemma NoSpaceUnchanged(s: string)
    requires |s| >= 1 && !IsSpace(s[0]) && !IsSpace(s[|s| - 1])
    ensures Strip(s) == s
  {
  }

  /**
   * A name ending with a character that is no digit, underscore, sign or
   * whitespace carries no number: `int()` rejects it.
   */
  lemma ParseIntRejectsOtherCharacters(s: string, i: nat)
    requires i < |s| && !IsDigit(s[i]) && s[i] != '_' && s[i] != '+' && s[i] != '-' && !IsSpace(s[i])
    ensures ParseInt(s) == None
  {
    var j := StripKeeps(s, i);
    ParseStrippedRejects(Strip(s), j);
  }

  /** A character that is no whitespace survives `strip()`. */
  lemma StripKeeps(s: string, i: nat) returns (j: nat)
    requires i < |s| && !IsSpace(s[i])
    ensures j < |Strip(s)| && Strip(s)[j] == s[i]
  {
    var left := TrimLeft(s);
    TrimLeftRemovesSpace(s);
    var start := |s| - |left|;
    assert start <= i;
    j := i - start;
    assert left[j] == s[i];
    TrimRightRemovesSpace(left);
    assert j < |TrimRight(left)|;
  }

  /** A character that is no digit, underscore or sign makes `int()` fail. */
  lemma ParseStrippedRejects(t: string, j: nat)
    requires j < |t| && !IsDigit(t[j]) && t[j] != '_' && t[j] != '+' && t[j] != '-'
    ensures ParseStripped(t) == None
  {
    if t[0] == '-' || t[0] == '+' {
      assert t[1..][j - 1] == t[j];
    }
  }

  // ---------------------------------------------------------------------------
  // Snapshot file names

  const SnapshotPrefix: string := "balloonsat_"
  const SnapshotSuffix: string := ".jpg"

  /** The snapshot file name for a `%Y%m%d_%H%M%S` timestamp and a counter value. */
  function SnapshotName(timestamp: string, counter: int): string {
    SnapshotPrefix + timestamp + "_" + Pad3(counter) + SnapshotSuffix
  }

  /** The directory glob `balloonsat_*.jpg`: the prefix, anything, the suffix. */
  predicate MatchesSnapshotGlob(name: string) {
    |name| >= |SnapshotPrefix| + |SnapshotSuffix| && StartsWith(name, SnapshotPrefix) && EndsWith(name, SnapshotSuffix)
  }

  /** `Path(name).stem` for a name ending in ".jpg": the name without that suffix. */
  function Stem(name: string): string
    requires EndsWith(name, SnapshotSuffix)
  {
    name[..|name| - |SnapshotSuffix|]
  }

  /** Python `s.split('_')[-1]`: what follows the last underscore, or all of `s` when it has none. */
  function LastField(s: string): (r: string)
    ensures '_' !in r
    ensures |r| <= |s| && r == s[|s| - |r|..]
    ensures |r| < |s| ==> s[|s| - |r| - 1] == '_'
  {
    if s == [] then []
    else if s[|s| - 1] == '_' then []
    else LastField(s[..|s| - 1]) + [s[|s| - 1]]
  }

  /** The number a file in the snapshot directory carries, when its name ends in one. */
  function SnapshotNumber(name: string): Option<int>
    requires MatchesSnapshotGlob(name)
  {
    ParseInt(LastField(Stem(name)))
  }

  /** Everything after the last underscore of `s + "_" + tail` is `tail`, when `tail` has no underscore. */
  lemma {:induction false} LastFieldAfterSeparator(s: string, tail: string)
    requires '_' !in tail
    ensures LastField(s + "_" + tail) == tail
  {
    if tail != [] {
      var init := tail[..|tail| - 1];
      assert (s + "_" + tail)[..|s + "_" + tail| - 1] == s + "_" + init;
      LastFieldAfterSeparator(s, init);
    } else {
      assert s + "_" + tail == s + "_";
    }
  }

  /**
   * Every snapshot file the window writes matches the directory glob, and
   * the number read back from its name is the counter it was saved with.
   */
  lemma SnapshotNameRoundTrip(timestamp: string, counter: int)
    ensures MatchesSnapshotGlob(SnapshotName(timestamp, counter))
    ensures SnapshotNumber(SnapshotName(timestamp, counter)) == Some(counter)
  {
    var name := SnapshotName(timestamp, counter);
    var pad := Pad3(counter);
    var stemText := SnapshotPrefix + timestamp + "_" + pad;
    assert name == stemText + SnapshotSuffix;
    assert name[..|SnapshotPrefix|] == SnapshotPrefix;
    assert name[|name| - |SnapshotSuffix|..] == SnapshotSuffix;
    assert Stem(name) == stemText;
    assert '_' !in pad by {
      assert forall i :: 0 <= i < |pad| ==> pad[i] != '_';
    }
    LastFieldAfterSeparator(SnapshotPrefix + timestamp, pad);
    Pad3RoundTrip(counter);
  }

  // ---------------------------------------------------------------------------
  // The next snapshot number

  /** The number a directory entry contributes: one for a snapshot file whose name ends in a number. */
  function FileNumber(name: string): Option<int> {
    if MatchesSnapshotGlob(name) then SnapshotNumber(name) else None
  }

  /** The numbers `number` finds among `names`, in order; names without one are skipped. */
  function NumbersOf(names: seq<string>, number: string -> Option<int>): seq<int> {
    if names == [] then []
    else
      var prev := NumbersOf(names[..|names| - 1], number);
      var found := number(names[|names| - 1]);
      if found.Some? then prev + [found.value] else prev
  }

  /** The numbers of the snapshot files among `names`, in order. */
  function SnapshotNumbers(names: seq<string>): seq<int> {
    NumbersOf(names, FileNumber)
  }

  /** Every name with a number contributes it, and nothing else is contributed. */
  lemma {:induction false} NumbersListed(names: seq<string>, number: string -> Option<int>)
    ensures forall i :: 0 <= i < |names| && number(names[i]).Some? ==> number(names[i]).value in NumbersOf(names, number)
    ensures forall x :: x in NumbersOf(names, number) ==> exists i :: 0 <= i < |names| && number(names[i]) == Some(x)
  {
    if names != [] {
      var init := names[..|names| - 1];
      NumbersListed(init, number);
      assert forall i :: 0 <= i < |init| ==> init[i] == names[i];
    }
  }

  /** Adding a name to the directory adds its number, if it has one, at the end. */
  lemma NumbersOfSnoc(names: seq<string>, name: string, number: string -> Option<int>)
    ensures NumbersOf(names + [name], number) ==
      NumbersOf(names, number) + (if number(name).Some? then [number(name).value] else [])
  {
    assert (names + [name])[..|names|] == names;
  }

  /** Python `max(xs, default=0)`. */
  function MaxOrZero(xs: seq<int>): (m: int)
    ensures xs == [] ==> m == 0
    ensures xs != [] ==> m in xs && forall i :: 0 <= i < |xs| ==> xs[i] <= m
  {
    if xs == [] then 0
    else if |xs| == 1 then xs[0]
    else
      var prev := MaxOrZero(xs[..|xs| - 1]);
      if xs[|xs| - 1] > prev then xs[|xs| - 1] else prev
  }

  /** A number above all the others is the new maximum. */
  lemma MaxOrZeroSnoc(xs: seq<int>, c: int)
    requires xs == [] || c > MaxOrZero(xs)
    ensures MaxOrZero(xs + [c]) == c
  {
    if xs != [] {
      assert (xs + [c])[..|xs|] == xs;
    }
  }

  /** The directory entry of a saved snapshot contributes the counter it was saved with. */
  lemma SnapshotFileNumber(timestamp: string, counter: int)
    ensures FileNumber(SnapshotName(timestamp, counter)) == Some(counter)
  {
    SnapshotNameRoundTrip(timestamp, counter);
  }

  /** The number the next snapshot gets, given the names in the snapshot directory. */
  function NextNumber(names: seq<string>): int {
    MaxOrZero(SnapshotNumbers(names)) + 1
  }

  /**
   * The next snapshot number: 1 for a directory without numbered snapshots,
   * otherwise one more than the largest number among them.
   */
  method NextSnapshotNumber(names: seq<string>) returns (n: int)
    ensures n == NextNumber(names)
    ensures SnapshotNumbers(names) == [] ==> n == 1
    ensures SnapshotNumbers(names) != [] ==> n - 1 in SnapshotNumbers(names)
    ensures forall i :: 0 <= i < |names| && FileNumber(names[i]).Some? ==> FileNumber(names[i]).value < n
  {
    var numbers: seq<int> := [];
    var i := 0;
    while i < |names|
      invariant 0 <= i <= |names|
      invariant numbers == SnapshotNumbers(names[..i])
    {
      var next, name := i + 1, names[i];
      assert names[..next] == names[..i] + [name];
      NumbersOfSnoc(names[..i], name, FileNumber);
      var found := FileNumber(name);
      if found.Some? {
        numbers := numbers + [found.value];
      }
      i := next;
    }
    assert names[..i] == names;
    n := MaxOrZero(numbers) + 1;
    NextNumberBounds(names);
  }

  /** Every snapshot number in the directory lies below the next number. */
  lemma NextNumberBounds(names: seq<string>)
    ensures forall i :: 0 <= i < |names| && FileNumber(names[i]).Some? ==> FileNumber(names[i]).value < NextNumber(names)
  {
    NumbersListed(names, FileNumber);
  }

  /**
   * Saving the snapshot the counter names moves the directory's next number
   * on by one: a window started afterwards continues where this one is.
   */
  lemma SavingAdvancesNextNumber(names: seq<string>, timestamp: string)
    ensures NextNumber(names + [SnapshotName(timestamp, NextNumber(names))]) == NextNumber(names) + 1
  {
    var c := NextNumber(names);
    var name := SnapshotName(timestamp, c);
    SnapshotFileNumber(timestamp, c);
    NumbersOfSnoc(names, name, FileNumber);
    var xs := SnapshotNumbers(names);
    assert SnapshotNumbers(names + [name]) == xs + [c];
    MaxOrZeroSnoc(xs, c);
  }

  /** A saved snapshot's number is never handed out again by a later window. */
  lemma SavedNumberNotReused(names: seq<string>, timestamp: string, counter: int)
    ensures NextNumber(names + [SnapshotName(timestamp, counter)]) > counter
  {
    var name := SnapshotName(timestamp, counter);
    SnapshotFileNumber(timestamp, counter);
    NumbersOfSnoc(names, name, FileNumber);
    assert SnapshotNumbers(names + [name]) == SnapshotNumbers(names) + [counter];
    assert (SnapshotNumbers(names) + [counter])[|SnapshotNumbers(names)|] == counter;
  }

  // ---------------------------------------------------------------------------
  // The window

  /** What pressing the snapshot button did. */
  datatype SnapshotOutcome =
    | NoFrame
    | Saved(filename: string)
    | SaveFailed(filename: string)

  /** The status line after a save: the file name and how many snapshots the counter has passed. */
  function SavedStatus(filename: string, counter: int): string {
    "\U{1F4F8} Snapshot saved: " + filename + " | Total: " + (if counter >= 0 then Decimal(counter) else "-" + Decimal(-counter))
  }

  /** The status line a newly built window shows until the first frame arrives. */
  const WaitingStatus: string := "\U{1F4E1} Waiting for connection..."

  class CameraWindow {
    /** False for the bare object a second construction leaves behind while a window is open. */
    const initialized: bool
    var snapshotCounter: int
    var statusText: string
    /** Times another construction brought this window to the front. */
    var raised: nat

    /**
     * A fully built window: its counter starts at the next free snapshot
     * number, and its status line says it is waiting for the camera.
     */
    constructor Open(names: seq<string>)
      ensures initialized && snapshotCounter == NextNumber(names) && statusText == WaitingStatus && raised == 0
    {
      initialized := true;
      statusText := WaitingStatus;
      raised := 0;
      new;
      snapshotCounter := NextSnapshotNumber(names);
    }

    /** The object a construction returns when a window is already open: nothing of it is set up. */
    constructor Bare()
      ensures !initialized && snapshotCounter == 0 && statusText == "" && raised == 0
    {
      initialized := false;
      snapshotCounter := 0;
      statusText := "";
      raised := 0;
    }

    /**
     * Saves the current frame as the snapshot the counter names. The counter
     * advances by exactly one when the save succeeds; without a frame, or
     * when saving fails, it stays as it was. On the bare object the handler
     * fails with `AttributeError`.
     */
    method OnSnapshot(hasFrame: bool, timestamp: string, saved: bool) returns (r: Result<SnapshotOutcome>)
      modifies this
      ensures !initialized ==> r == Err(AttributeError) && snapshotCounter == old(snapshotCounter)
      ensures initialized && !hasFrame ==> r == Ok(NoFrame)
      ensures initialized && hasFrame && saved ==> r == Ok(Saved(SnapshotName(timestamp, old(snapshotCounter))))
      ensures initialized && hasFrame && !saved ==> r == Ok(SaveFailed(SnapshotName(timestamp, old(snapshotCounter))))
      ensures snapshotCounter == old(snapshotCounter) + (if r.Ok? && r.value.Saved? then 1 else 0)
      ensures statusText == if r.Ok? && r.value.Saved? then SavedStatus(r.value.filename, old(snapshotCounter)) else old(statusText)
      ensures raised == old(raised)
    {
      if !initialized {
        return Err(AttributeError);
      }
      if !hasFrame {
        return Ok(NoFrame);
      }
      var filename := SnapshotName(timestamp, snapshotCounter);
      if saved {
        snapshotCounter := snapshotCounter + 1;
        statusText := SavedStatus(filename, snapshotCounter - 1);
        r := Ok(Saved(filename));
      } else {
        r := Ok(SaveFailed(filename));
      }
    }
  }

  /** The class-level slot holding the open camera window, if any. */
  class WindowSlot {
    var instance: Option<CameraWindow>

    constructor()
      ensures instance == None
    {
      instance := None;
    }

    /** `is_open()`: whether a camera window is registered. */
    function IsOpen(): (b: bool)
      reads this
      ensures b <==> instance.Some?
    {
      instance.Some?
    }

    /**
     * Constructing a camera window. While one is open, that window is
     * brought to the front and the new object is left bare; otherwise a new
     * window is built and registered.
     */
    method Construct(names: seq<string>) returns (w: CameraWindow)
      modifies this, if instance.Some? then {instance.value} else {}
      ensures fresh(w)
      ensures old(instance).Some? ==>
        && instance == old(instance) && !w.initialized
        && instance.value.raised == old(instance.value.raised) + 1
        && instance.value.snapshotCounter == old(instance.value.snapshotCounter)
        && instance.value.statusText == old(instance.value.statusText)
      ensures old(instance).None? ==> instance == Some(w) && w.initialized && w.snapshotCounter == NextNumber(names)
    {
      if instance.Some? {
        var open := instance.value;
        open.raised := open.raised + 1;
        w := new CameraWindow.Bare();
      } else {
        w := new CameraWindow.Open(names);
        instance := Some(w);
      }
    }

    /** `closeEvent`: the slot is emptied, so the next construction builds a new window. */
    method Close()
      modifies this
      ensures instance == None && !IsOpen()
    {
      instance := None;
    }
  }
}
