/** The rotary knobs of the wave controls: the mapping between a knob's
    value and the 290-degree arc from 120 to 410 degrees, the re-basing of
    cursor angles past the dead zone, and the drag gesture state. */
module Knob {
  import opened Wrappers
  import opened WaveParams

  const StartDeg: real := 120.0
  const EndDeg: real := 410.0
  const AngleRange: real := EndDeg - StartDeg

  function Abs(x: real): real {
    if x < 0.0 then -x else x
  }

  /** `Math.max(0, Math.min(1, x))`. */
  function Clamp01(x: real): (r: real)
    ensures 0.0 <= r <= 1.0
    ensures 0.0 <= x <= 1.0 ==> r == x
    ensures x <= 0.0 ==> r == 0.0
    ensures x >= 1.0 ==> r == 1.0
  {
    if x < 0.0 then 0.0 else if x > 1.0 then 1.0 else x
  }

  /** The wrap correction at the head of `angleToValue`: fold the difference
      to the previous angle into [-180, 180] and move the angle by a full turn
      when the folded difference still exceeds 180 degrees. */
  function Unwrap(angle: real, prev: Option<real>): real {
    match prev
    case None => angle
    case Some(p) =>
      var d0 := angle - p;
      var d1 := if d0 > 180.0 then d0 - 360.0 else d0;
      var d2 := if d1 < -180.0 then d1 + 360.0 else d1;
      if Abs(d2) > 180.0 then angle + (if d2 > 0.0 then -360.0 else 360.0) else angle
  }

  lemma NonnegProduct(x: real, y: real)
    requires 0.0 <= x && 0.0 <= y
    ensures 0.0 <= x * y
  {}

  /** A fraction of the way from `lo` to `hi` stays between them. */
  lemma ScaleInto(n: real, lo: real, hi: real)
    requires 0.0 <= n <= 1.0 && lo < hi
    ensures lo <= lo + n * (hi - lo) <= hi
  {
    var d := hi - lo;
    NonnegProduct(n, d);
    NonnegProduct(1.0 - n, d);
    assert (1.0 - n) * d == d - n * d;
  }

  /** `angleToValue(angleDeg, prevAngle)`: the position on the arc, clamped
      to the arc, scaled onto the key's limits. */
  function AngleToValue(k: ParamKey, angle: real, prev: Option<real>): (v: real)
    ensures LimitsOf(k).min <= v <= LimitsOf(k).max
    ensures Unwrap(angle, prev) <= StartDeg ==> v == LimitsOf(k).min
    ensures Unwrap(angle, prev) >= EndDeg ==> v == LimitsOf(k).max
  {
    var l := LimitsOf(k);
    var n := Clamp01((Unwrap(angle, prev) - StartDeg) / AngleRange);
    ScaleInto(n, l.min, l.max);
    l.min + n * (l.max - l.min)
  }

  /** `valueToAngle(value)`: the inverse affine map, without clamping. */
  function ValueToAngle(k: ParamKey, v: real): (a: real)
    ensures LimitsOf(k).min <= v <= LimitsOf(k).max ==> StartDeg <= a <= EndDeg
  {
    var l := LimitsOf(k);
    var n := (v - l.min) / (l.max - l.min);
    if 0.0 <= n <= 1.0 then ScaleInto(n, StartDeg, EndDeg); StartDeg + n * AngleRange
    else StartDeg + n * AngleRange
  }

  /** A value within the limits survives the trip to an angle and back. */
  lemma ValueAngleRoundTrip(k: ParamKey, v: real)
    requires LimitsOf(k).min <= v <= LimitsOf(k).max
    ensures AngleToValue(k, ValueToAngle(k, v), None) == v
  {
    var l := LimitsOf(k);
    var n := (v - l.min) / (l.max - l.min);
    assert 0.0 <= n <= 1.0;
    var a := StartDeg + n * AngleRange;
    assert (a - StartDeg) / AngleRange == n;
    assert n * (l.max - l.min) == v - l.min;
  }

  /** An angle on the arc survives the trip to a value and back. */
  lemma AngleValueRoundTrip(k: ParamKey, a: real)
    requires StartDeg <= a <= EndDeg
    ensures ValueToAngle(k, AngleToValue(k, a, None)) == a
  {
    var l := LimitsOf(k);
    var n := (a - StartDeg) / AngleRange;
    assert 0.0 <= n <= 1.0;
    var v := l.min + n * (l.max - l.min);
    assert (v - l.min) / (l.max - l.min) == n;
    assert n * AngleRange == a - StartDeg;
  }

  /** Turning further never lowers the value. */
  lemma AngleToValueMonotone(k: ParamKey, a1: real, a2: real)
    requires a1 <= a2
    ensures AngleToValue(k, a1, None) <= AngleToValue(k, a2, None)
  {
    var l := LimitsOf(k);
    var n1 := Clamp01((a1 - StartDeg) / AngleRange);
    var n2 := Clamp01((a2 - StartDeg) / AngleRange);
    assert (a1 - StartDeg) / AngleRange <= (a2 - StartDeg) / AngleRange;
    assert n1 <= n2;
    assert n1 * (l.max - l.min) <= n2 * (l.max - l.min);
  }

  /** When the folded difference to the previous angle is at most 540
      degrees, the wrap correction leaves the angle alone. */
  lemma UnwrapNoOp(angle: real, prev: real)
    requires Abs(angle - prev) <= 540.0
    ensures Unwrap(angle, Some(prev)) == angle
  {}

  /** So for angles produced by mouse and touch events, both in [0, 480), the
      previous angle never changes the value. */
  lemma PrevAngleIrrelevant(k: ParamKey, angle: real, prev: real)
    requires 0.0 <= angle < 480.0 && 0.0 <= prev < 480.0
    ensures AngleToValue(k, angle, Some(prev)) == AngleToValue(k, angle, None)
  {
    UnwrapNoOp(angle, prev);
  }

  /** `atan2` in degrees, moved into [0, 360). */
  function BaseAngle(raw: real): (a: real)
    requires -180.0 <= raw <= 180.0
    ensures 0.0 <= a < 360.0
    ensures a == raw || a == raw + 360.0
  {
    if raw < 0.0 then raw + 360.0 else raw
  }

  /** `getAngleFromEvent` after `atan2`: `raw` is the cursor's angle in
      degrees as `atan2` gives it, `current` the knob's present value. An
      angle short of the arc's start is moved a full turn on when the gesture
      already sits past 360 degrees or the knob is above 40% of its range. */
  function EventAngle(k: ParamKey, raw: real, lastAngle: Option<real>, current: real): (a: real)
    requires -180.0 <= raw <= 180.0
    ensures 0.0 <= a < 480.0
    ensures a == BaseAngle(raw) || a == BaseAngle(raw) + 360.0
    ensures a == BaseAngle(raw) + 360.0 <==>
      BaseAngle(raw) < StartDeg
      && ((lastAngle.Some? && lastAngle.value >= 360.0)
          || (current - LimitsOf(k).min) / (LimitsOf(k).max - LimitsOf(k).min) > 0.4)
  {
    var angle := BaseAngle(raw);
    if 0.0 <= angle < StartDeg then
      var l := LimitsOf(k);
      var normalized := (current - l.min) / (l.max - l.min);
      if lastAngle.Some? && lastAngle.value >= 360.0 then angle + 360.0
      else if normalized > 0.4 then angle + 360.0
      else angle
    else angle
  }

  /** `handleMouseDown` first sets `lastAngle` to the angle of the current
      value. That pre-set never changes the event angle: it reaches 360 only
      when the knob is above 82% of its range, which already triggers the
      full turn. */
  lemma MouseDownPresetIrrelevant(k: ParamKey, raw: real, current: real)
    requires -180.0 <= raw <= 180.0
    ensures EventAngle(k, raw, Some(ValueToAngle(k, current)), current) == EventAngle(k, raw, None, current)
  {
    var l := LimitsOf(k);
    var n := (current - l.min) / (l.max - l.min);
    if ValueToAngle(k, current) >= 360.0 {
      assert StartDeg + n * AngleRange >= 360.0;
      assert n * AngleRange >= 240.0;
      assert n > 0.4;
    }
  }

  /** The drag state kept per knob: `isDragging` and `lastAngle`. */
  class KnobGesture {
    const key: ParamKey
    var isDragging: bool
    var lastAngle: Option<real>

    /** Outside a drag there is no last angle; inside one it is an event
        angle. */
    predicate Valid()
      reads this
    {
      (isDragging <==> lastAngle.Some?)
      && (lastAngle.Some? ==> 0.0 <= lastAngle.value < 480.0)
    }

    constructor (k: ParamKey)
      ensures key == k && !isDragging && lastAngle == None
      ensures Valid()
    {
      key := k;
      isDragging := false;
      lastAngle := None;
    }

    /** `handleMouseDown`: start a drag and jump the value to the cursor. */
    method MouseDown(engine: WaveEngine, raw: real)
      requires -180.0 <= raw <= 180.0
      requires engine.Valid()
      modifies this, engine
      ensures Valid() && engine.Valid() && isDragging
      ensures var current := Get(old(engine.params), key);
        var a := EventAngle(key, raw, None, current);
        lastAngle == Some(a) && engine.params == With(old(engine.params), key, AngleToValue(key, a, None))
    {
      isDragging := true;
      var current := Get(engine.params, key);
      lastAngle := Some(ValueToAngle(key, current));
      var angle := EventAngle(key, raw, lastAngle, current);
      MouseDownPresetIrrelevant(key, raw, current);
      lastAngle := Some(angle);
      var value := AngleToValue(key, angle, None);
      engine.SetParam(key, Some(value));
    }

    /** `handleTouchStart`: the same without the pre-set last angle. */
    method TouchStart(engine: WaveEngine, raw: real)
      requires -180.0 <= raw <= 180.0
      requires engine.Valid()
      modifies this, engine
      ensures Valid() && engine.Valid() && isDragging
      ensures var current := Get(old(engine.params), key);
        var a := EventAngle(key, raw, old(lastAngle), current);
        lastAngle == Some(a) && engine.params == With(old(engine.params), key, AngleToValue(key, a, None))
    {
      isDragging := true;
      var current := Get(engine.params, key);
      var angle := EventAngle(key, raw, lastAngle, current);
      lastAngle := Some(angle);
      var value := AngleToValue(key, angle, None);
      engine.SetParam(key, Some(value));
    }

    /** `handleMouseMove` / `handleTouchMove`: ignored outside a drag; inside
        one, follow the cursor and remember its angle. */
    method Move(engine: WaveEngine, raw: real)
      requires -180.0 <= raw <= 180.0
      requires Valid() && engine.Valid()
      modifies this, engine
      ensures Valid() && engine.Valid()
      ensures !old(isDragging) ==> lastAngle == old(lastAngle) && !isDragging && engine.params == old(engine.params)
      ensures old(isDragging) ==> var current := Get(old(engine.params), key);
        var a := EventAngle(key, raw, old(lastAngle), current);
        isDragging && lastAngle == Some(a)
        && engine.params == With(old(engine.params), key, AngleToValue(key, a, None))
    {
      if !isDragging {
        return;
      }
      var current := Get(engine.params, key);
      var angle := EventAngle(key, raw, lastAngle, current);
      var value := AngleToValue(key, angle, lastAngle);
      PrevAngleIrrelevant(key, angle, lastAngle.value);
      lastAngle := Some(angle);
      engine.SetParam(key, Some(value));
    }

    /** `handleMouseUp` / `handleTouchEnd`: end the drag and forget the
        angle. */
    method Release()
      requires Valid()
      modifies this
      ensures Valid() && !isDragging && lastAngle == None
    {
      if isDragging {
        isDragging := false;
        lastAngle := None;
      }
    }
  }
}
