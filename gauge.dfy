/** The horizontal bar gauge used for CPU and memory load. */
module Gauge {
  import opened Values

  /**
   * Python `max(0.0, min(maxValue, v))`: `v` clamped into [0, maxValue]. With
   * a negative maximum the lower bound wins and the result is 0.
   */
  function Clamp(v: real, maxValue: real): (r: real)
    ensures 0.0 <= r
    ensures 0.0 <= maxValue ==> r <= maxValue
    ensures maxValue < 0.0 ==> r == 0.0
    ensures 0.0 <= v <= maxValue ==> r == v
    ensures v < 0.0 ==> r == 0.0
    ensures 0.0 <= maxValue < v ==> r == maxValue
  {
    Max(0.0, Min(maxValue, v))
  }

  /** Clamping is idempotent: a clamped value is its own clamp. */
  lemma ClampIdempotent(v: real, maxValue: real)
    ensures Clamp(Clamp(v, maxValue), maxValue) == Clamp(v, maxValue)
  {
  }

  class LinearGauge {
    var value: real
    var maxValue: real
    var caption: string
    /** Repaints scheduled with `update()`. */
    var updates: nat

    /** The value always lies in [0, maxValue], or is 0 when the maximum is not positive. */
    ghost predicate Valid()
      reads this
    {
      0.0 <= value && (value <= maxValue || value == 0.0)
    }

    /** A new gauge shows 0 on the given scale; the default scale is 0..100 with caption "CPU %". */
    constructor(maxValue: real, caption: string)
      ensures Valid()
      ensures value == 0.0 && this.maxValue == maxValue && this.caption == caption && updates == 0
    {
      value := 0.0;
      this.maxValue := maxValue;
      this.caption := caption;
      updates := 0;
    }

    /** Shows `v` clamped into the scale; repaints exactly when the shown value changes. */
    method SetValue(v: real)
      modifies this
      ensures value == Clamp(v, old(maxValue))
      ensures updates == old(updates) + (if value != old(value) then 1 else 0)
      ensures maxValue == old(maxValue) && caption == old(caption)
      ensures Valid()
    {
      var clamped := Max(0.0, Min(maxValue, v));
      if clamped != value {
        value := clamped;
        updates := updates + 1;
      }
    }

    function GetValue(): (v: real)
      reads this
      requires Valid()
      ensures 0.0 <= v
      ensures 0.0 <= maxValue ==> v <= maxValue
    {
      value
    }

    /** Changes the caption; repaints exactly when it differs. */
    method SetLabel(newCaption: string)
      modifies this
      ensures caption == newCaption && GetLabel() == newCaption
      ensures updates == old(updates) + (if newCaption != old(caption) then 1 else 0)
      ensures value == old(value) && maxValue == old(maxValue)
    {
      if newCaption != caption {
        caption := newCaption;
        updates := updates + 1;
      }
    }

    function GetLabel(): string
      reads this
    {
      caption
    }

    /**
     * Changes the scale. A maximum that is not positive raises `ValueError`
     * and changes nothing; otherwise the current value is re-clamped.
     */
    method SetMaxValue(m: real) returns (r: Result<()>)
      modifies this
      ensures m <= 0.0 ==> r == Err(ValueError) && maxValue == old(maxValue) && value == old(value) && updates == old(updates)
      ensures 0.0 < m ==> r == Ok(()) && maxValue == m && value == Clamp(old(value), m) && 0.0 <= value <= m
      ensures 0.0 < m ==> updates == old(updates) + (if value != old(value) then 1 else 0)
      ensures caption == old(caption)
      ensures old(Valid()) ==> Valid()
    {
      if m <= 0.0 {
        return Err(ValueError);
      }
      maxValue := m;
      SetValue(value);
      return Ok(());
    }
  }
}
