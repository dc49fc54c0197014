/** The wave canvas: the once-only set-up guard, `resize`, the per-frame
    time accumulator, and the arithmetic of one frame's drawing loops (curve
    samples every 5 px in "lines" mode, one glyph every 8 px in "code" mode).
    `Math.sin`, `Math.cos` and `Math.pow` are not modelled; they arrive as
    the fields of a `Trig` value. */
module Renderer {
  import opened Wrappers
  import opened WaveParams

  /** The transcendental functions the drawing uses, left uninterpreted. */
  datatype Trig = Trig(sin: real -> real, cos: real -> real, pow: (real, real) -> real, pi: real)

  /** One entry of the `waves` table. */
  datatype Wave = Wave(timeModifier: real, lineWidth: real, amplitude: real, wavelength: real)

  /** The nine waves, identical in all three scripts. */
  const Waves: seq<Wave> := [
    Wave(1.0, 2.0, 50.0, 200.0),
    Wave(0.5, 1.5, 140.0, 300.0),
    Wave(0.7, 1.0, 90.0, 240.0),
    Wave(1.1, 0.5, 30.0, 120.0),
    Wave(2.0, 1.0, -50.0, 15.0),
    Wave(1.0, 2.0, -100.0, 30.0),
    Wave(0.5, 1.0, -200.0, 60.0),
    Wave(0.25, 3.0, -160.0, 40.0),
    Wave(0.35, 2.0, -240.0, 70.0)
  ]

  const CodeBinary: seq<string> := ["0", "1"]
  const CodeHex: seq<string> := ["0x0F", "0x4F", "0xA1", "0x7E", "0x3C"]
  const GradientLight: seq<string> := ["#3b82f6", "#06b6d4", "#6366f1", "#8b5cf6", "#ec4899"]
  const GradientDark: seq<string> := ["#93c5fd", "#67e8f9", "#a5b4fc", "#c4b5fd", "#f9a8d4"]

  /** Glyph colours: dark themes draw with the `light` list and light themes
      with the `dark` list. */
  function CodePalette(isDark: bool): (p: seq<string>)
    ensures |p| == 5
    ensures p == if isDark then GradientLight else GradientDark
  {
    if isDark then GradientLight else GradientDark
  }

  function BaseOpacity(isDark: bool): real {
    if isDark then 0.9 else 0.6
  }

  // ---------------------------------------------------------------------
  // Arithmetic of one glyph

  /** Truncation towards zero, as JavaScript's `%` uses it. */
  function Trunc(x: real): (t: int)
    ensures x >= 0.0 ==> 0.0 <= x - t as real < 1.0
    ensures x < 0.0 ==> -1.0 < x - t as real <= 0.0
  {
    if x >= 0.0 then x.Floor else -((-x).Floor)
  }

  lemma RemBelow(a: real, m: real, t: real)
    requires m > 0.0 && 0.0 <= a / m - t < 1.0
    ensures 0.0 <= a - m * t < m
  {
    var f := a / m - t;
    assert m * f < m * 1.0;
    assert a - m * t == m * f;
  }

  lemma RemAbove(a: real, m: real, t: real)
    requires m > 0.0 && -1.0 < a / m - t <= 0.0
    ensures -m < a - m * t <= 0.0
  {
    var f := t - a / m;
    assert m * f < m * 1.0;
    assert a - m * t == -(m * f);
  }

  /** JavaScript's `a % m` on Numbers: the remainder takes the sign of `a`. */
  function TruncRem(a: real, m: real): (r: real)
    requires m > 0.0
    ensures -m < r < m
    ensures a >= 0.0 ==> r >= 0.0
    ensures a < 0.0 ==> r <= 0.0
  {
    var t := Trunc(a / m) as real;
    if a / m >= 0.0 then
      RemBelow(a, m, t);
      a - m * t
    else
      RemAbove(a, m, t);
      a - m * t
  }

  const Step: nat := 8
  const StreamSpeed: real := 90.0

  /** The glyph's drifting x position, wrapped into the row. */
  function PhaseX(x: real, time: real, index: nat, width: real): (p: real)
    requires width >= 0.0
    ensures -(Step as real) <= p < width + Step as real
  {
    var dir := if index % 2 == 0 then 1.0 else -1.0;
    var p0 := x - StreamSpeed * time * dir;
    var p1 := TruncRem(p0, width + Step as real);
    if p1 < -(Step as real) then p1 + (width + Step as real) else p1
  }

  /** `Math.max(0, Math.min(1, x))`. */
  function Unit(x: real): (r: real)
    ensures 0.0 <= r <= 1.0
    ensures 0.0 <= x <= 1.0 ==> r == x
  {
    if x < 0.0 then 0.0 else if x > 1.0 then 1.0 else x
  }

  lemma DivUnit(c: real, w: real)
    requires w > 0.0 && 0.0 <= c <= w
    ensures 0.0 <= c / w <= 1.0
  {
    assert c / w * w == c;
  }

  /** Horizontal position of a glyph as a fraction of the row. */
  function Position(phaseX: real, width: real): (pos: real)
    requires width >= 0.0
    ensures 0.0 <= pos <= 1.0
  {
    if width > 0.0 then
      var clamped := if phaseX < 0.0 then 0.0 else if phaseX > width then width else phaseX;
      DivUnit(clamped, width);
      clamped / width
    else 0.0
  }

  /** `codeAlpha`: whatever the flicker, the glyph's opacity lies in [0.4, 1]. */
  function Alpha(baseOpacity: real, flicker: real): (a: real)
    ensures 0.4 <= a <= 1.0
    ensures 0.4 <= baseOpacity * (0.6 + 0.4 * flicker) <= 1.0 ==> a == baseOpacity * (0.6 + 0.4 * flicker)
  {
    var raw := baseOpacity * (0.6 + 0.4 * flicker);
    if raw > 1.0 then 1.0 else if raw < 0.4 then 0.4 else raw
  }

  /** On a dark theme, with a flicker in [0, 1], the clamp never acts. */
  lemma DarkAlphaUnclamped(flicker: real)
    requires 0.0 <= flicker <= 1.0
    ensures Alpha(BaseOpacity(true), flicker) == 0.9 * (0.6 + 0.4 * flicker)
    ensures 0.54 <= Alpha(BaseOpacity(true), flicker) <= 0.9
  {}

  /** `colorIndex`: the glyph's position picks one of the first four colours,
      shifted by the wave's index; the result always indexes the 5-entry palette. */
  function ColorIndex(position: real, index: nat): (c: nat)
    ensures c < 5
    ensures 0 <= (Unit(position) * 4.0).Floor <= 4
  {
    var baseIndex := (Unit(position) * 4.0).Floor;
    (baseIndex + index) % 5
  }

  /** `sequenceIndex` of the glyph at `x` in the row of wave `index`. */
  function SequenceIndex(x: nat, index: nat): nat {
    x / Step + index * 3
  }

  predicate IsHexSlot(s: nat) {
    s % 12 < 3
  }

  /** The glyph text: a hex literal in hex slots, a binary digit elsewhere. */
  function Token(s: nat): (t: string)
    ensures IsHexSlot(s) ==> t in CodeHex && t == CodeHex[s % 5]
    ensures !IsHexSlot(s) ==> t in CodeBinary && t == CodeBinary[s % 2]
  {
    if IsHexSlot(s) then CodeHex[s % |CodeHex|] else CodeBinary[s % |CodeBinary|]
  }

  /** Number of hex slots among `s, s + 1, ..., s + n - 1`. */
  function HexSlots(s: nat, n: nat): nat
    decreases n
  {
    if n == 0 then 0 else (if IsHexSlot(s) then 1 else 0) + HexSlots(s + 1, n - 1)
  }

  lemma {:induction false} HexSlotsSnoc(s: nat, n: nat)
    ensures HexSlots(s, n + 1) == HexSlots(s, n) + (if IsHexSlot(s + n) then 1 else 0)
    decreases n
  {
    if n > 0 {
      HexSlotsSnoc(s + 1, n - 1);
    }
  }

  lemma {:induction false} HexSlotsFrom0()
    ensures HexSlots(0, 12) == 3
  {
    var k := 12;
    while k > 0
      invariant 0 <= k <= 12
      invariant HexSlots(k, 12 - k) == if k >= 3 then 0 else 3 - k
      decreases k
    {
      k := k - 1;
    }
  }

  lemma HexSlotsCons(s: nat, n: nat)
    ensures HexSlots(s, n + 1) == (if IsHexSlot(s) then 1 else 0) + HexSlots(s + 1, n)
  {}

  lemma HexSlotPeriodic(u: nat)
    ensures IsHexSlot(u + 12) == IsHexSlot(u)
  {
    assert (u + 12) % 12 == u % 12;
  }

  /** Exactly 3 of any 12 consecutive glyph slots show a hex literal
      (stated for a window length `n` that is 12, so that the recursive
      count is not unrolled on a literal). */
  lemma {:induction false} HexWindow(s: nat, n: nat)
    requires n == 12
    ensures HexSlots(s, n) == 3
    decreases s
  {
    if s == 0 {
      HexSlotsFrom0();
    } else {
      var u := s - 1;
      HexWindow(u, n);
      HexSlotsSnoc(u, n);
      HexSlotsCons(u, n);
      HexSlotPeriodic(u);
    }
  }

  lemma HexShare(s: nat)
    ensures HexSlots(s, 12) == 3
  {
    HexWindow(s, 12);
  }

  /** `wave.amplitude * amp` and `2 * PI / (wave.wavelength / freq)`. */
  function EffectiveAmp(w: Wave, ampMult: real): real {
    w.amplitude * ampMult
  }

  /** The wave number, written so that a zero frequency gives 0 as the
      infinite wavelength does in the scripts. */
  function WaveNumber(t: Trig, w: Wave, freqMult: real): real
    requires w.wavelength != 0.0
  {
    2.0 * t.pi * freqMult / w.wavelength
  }

  /** The y offset formula shared by both modes, for a local amplitude. */
  function Displacement(t: Trig, w: Wave, index: nat, k: real, px: real, time: real, localAmp: real): real {
    t.sin(k * px + time * w.timeModifier) * localAmp * t.sin(time * 0.2 + index as real)
      + t.cos(px * 0.01 + time) * (localAmp * 0.2)
  }

  lemma DisplacementZero(t: Trig, w: Wave, index: nat, k: real, px: real, time: real)
    ensures Displacement(t, w, index, k, px, time, 0.0) == 0.0
  {}

  // ---------------------------------------------------------------------
  // The two drawing loops

  /** `y` of a "lines" sample at `x`. `steepness` is `None` for the script
      without spatial decay, whose amplitude and frequency multipliers are
      then 1. */
  function CurveY(t: Trig, w: Wave, index: nat, x: nat, width: nat, yAxis: real, time: real,
                  ampMult: real, freqMult: real, steepness: Option<real>): real
    requires w.wavelength != 0.0
  {
    var decay := match steepness
      case None => 1.0
      case Some(s) => t.pow(if width > 0 then x as real / width as real else 0.0, s);
    yAxis + Displacement(t, w, index, WaveNumber(t, w, freqMult), x as real, time, EffectiveAmp(w, ampMult) * decay)
  }

  /** One glyph of a "code" row. */
  datatype Glyph = Glyph(phaseX: real, y: real, colorIndex: nat, alpha: real, token: string)

  function GlyphAt(t: Trig, w: Wave, index: nat, x: nat, width: nat, yAxis: real, time: real,
                   isDark: bool, p: Params): (g: Glyph)
    requires w.wavelength != 0.0
    ensures -(Step as real) <= g.phaseX < width as real + Step as real
    ensures g.colorIndex < 5 && 0.4 <= g.alpha <= 1.0
    ensures g.token == Token(SequenceIndex(x, index))
  {
    var phaseX := PhaseX(x as real, time, index, width as real);
    var position := Position(phaseX, width as real);
    var localAmp := EffectiveAmp(w, p.amp) * t.pow(position, p.steepness);
    var y := yAxis + Displacement(t, w, index, WaveNumber(t, w, p.freq), phaseX, time, localAmp);
    var flicker := 0.5 + 0.5 * t.sin(time * 2.0 + x as real * 0.08 + index as real);
    Glyph(phaseX, y, ColorIndex(position, index), Alpha(BaseOpacity(isDark), flicker), Token(SequenceIndex(x, index)))
  }

  /** With the amplitude multiplier at 0 every curve sample lies on the axis. */
  lemma CurveFlatWhenAmpZero(t: Trig, w: Wave, index: nat, x: nat, width: nat, yAxis: real, time: real,
                             freqMult: real, steepness: Option<real>)
    requires w.wavelength != 0.0
    ensures CurveY(t, w, index, x, width, yAxis, time, 0.0, freqMult, steepness) == yAxis
  {
    var decay := match steepness
      case None => 1.0
      case Some(s) => t.pow(if width > 0 then x as real / width as real else 0.0, s);
    assert EffectiveAmp(w, 0.0) * decay == 0.0;
    DisplacementZero(t, w, index, WaveNumber(t, w, freqMult), x as real, time);
  }

  /** The same for every glyph. */
  lemma GlyphFlatWhenAmpZero(t: Trig, w: Wave, index: nat, x: nat, width: nat, yAxis: real, time: real,
                             isDark: bool, p: Params)
    requires w.wavelength != 0.0 && p.amp == 0.0
    ensures GlyphAt(t, w, index, x, width, yAxis, time, isDark, p).y == yAxis
  {
    var phaseX := PhaseX(x as real, time, index, width as real);
    var position := Position(phaseX, width as real);
    assert EffectiveAmp(w, p.amp) * t.pow(position, p.steepness) == 0.0;
    DisplacementZero(t, w, index, WaveNumber(t, w, p.freq), phaseX, time);
  }

  /** The "lines" loop `for (x = 0; x < width; x += 5)`. */
  method CurveRow(t: Trig, w: Wave, index: nat, width: nat, yAxis: real, time: real,
                  ampMult: real, freqMult: real, steepness: Option<real>)
    returns (pts: seq<(nat, real)>)
    requires w.wavelength != 0.0
    ensures |pts| == (width + 4) / 5
    ensures forall i :: 0 <= i < |pts| ==>
      pts[i] == (5 * i, CurveY(t, w, index, 5 * i, width, yAxis, time, ampMult, freqMult, steepness))
  {
    pts := [];
    var x: nat := 0;
    while x < width
      invariant x == 5 * |pts| && (x < width + 5)
      invariant forall i :: 0 <= i < |pts| ==>
        pts[i] == (5 * i, CurveY(t, w, index, 5 * i, width, yAxis, time, ampMult, freqMult, steepness))
      decreases width - x
    {
      pts := pts + [(x, CurveY(t, w, index, x, width, yAxis, time, ampMult, freqMult, steepness))];
      x := x + 5;
    }
  }

  /** The "code" loop `for (x = 0; x < width + step; x += step)`. */
  method GlyphRow(t: Trig, w: Wave, index: nat, width: nat, yAxis: real, time: real, isDark: bool, p: Params)
    returns (gs: seq<Glyph>)
    requires w.wavelength != 0.0
    ensures |gs| == (width + 15) / 8
    ensures forall i :: 0 <= i < |gs| ==> gs[i] == GlyphAt(t, w, index, 8 * i, width, yAxis, time, isDark, p)
  {
    gs := [];
    var x: nat := 0;
    while x < width + Step
      invariant x == 8 * |gs| && x < width + 16
      invariant forall i :: 0 <= i < |gs| ==> gs[i] == GlyphAt(t, w, index, 8 * i, width, yAxis, time, isDark, p)
      decreases width + Step - x
    {
      gs := gs + [GlyphAt(t, w, index, x, width, yAxis, time, isDark, p)];
      x := x + Step;
    }
  }

  // ---------------------------------------------------------------------
  // Canvas state

  /** `setupWaveAnimation`'s `waveInitialized` flag: the animation loop is
      started at most once, however often the home page is shown. */
  class WaveSetup {
    var initialized: bool
    var loopsStarted: nat

    predicate Valid()
      reads this
    {
      loopsStarted <= (if initialized then 1 else 0)
    }

    constructor ()
      ensures !initialized && loopsStarted == 0 && Valid()
    {
      initialized := false;
      loopsStarted := 0;
    }

    /** A missing canvas is reported and never retried: the flag is set
        before the canvas is looked up. */
    method Setup(canvasFound: bool) returns (started: bool)
      requires Valid()
      modifies this
      ensures Valid() && initialized
      ensures started <==> !old(initialized) && canvasFound
      ensures loopsStarted == old(loopsStarted) + (if started then 1 else 0)
    {
      if initialized {
        return false;
      }
      initialized := true;
      if !canvasFound {
        return false;
      }
      loopsStarted := loopsStarted + 1;
      started := true;
    }
  }

  /** The canvas, its CSS size as `resize` last recorded it, and the
      animation clock. */
  class WaveCanvas {
    var width: Option<nat>
    var height: Option<nat>
    var canvasWidth: int
    var canvasHeight: int
    var time: real

    constructor (initialWidth: int, initialHeight: int)
      ensures width == None && height == None
      ensures canvasWidth == initialWidth && canvasHeight == initialHeight && time == 0.0
    {
      width, height := None, None;
      canvasWidth, canvasHeight := initialWidth, initialHeight;
      time := 0.0;
    }

    /** `resize` with the zero-size guard: nothing changes without a parent
        or when the parent has no width or no height. `parent` is the
        parent's `(offsetWidth, offsetHeight)`. */
    method Resize(parent: Option<(nat, nat)>, dpr: real)
      requires dpr > 0.0
      modifies this
      ensures time == old(time)
      ensures parent.None? || parent.value.0 == 0 || parent.value.1 == 0 ==>
        width == old(width) && height == old(height)
        && canvasWidth == old(canvasWidth) && canvasHeight == old(canvasHeight)
      ensures parent.Some? && parent.value.0 > 0 && parent.value.1 > 0 ==>
        width == Some(parent.value.0) && height == Some(parent.value.1)
        && canvasWidth == (parent.value.0 as real * dpr).Floor && canvasHeight == (parent.value.1 as real * dpr).Floor
      ensures width.Some? && width.value == 0 ==> old(width) == width
    {
      if parent.None? {
        return;
      }
      var (w, h) := parent.value;
      if w == 0 || h == 0 {
        return;
      }
      width, height := Some(w), Some(h);
      canvasWidth := (w as real * dpr).Floor;
      canvasHeight := (h as real * dpr).Floor;
    }

    /** `resize` without the guard, as the two theme scripts have it. */
    method ResizeUnguarded(w: nat, h: nat, dpr: real)
      requires dpr > 0.0
      modifies this
      ensures time == old(time)
      ensures width == Some(w) && height == Some(h)
      ensures canvasWidth == (w as real * dpr).Floor && canvasHeight == (h as real * dpr).Floor
    {
      width, height := Some(w), Some(h);
      canvasWidth := (w as real * dpr).Floor;
      canvasHeight := (h as real * dpr).Floor;
    }

    /** A frame of the guarded script: a present, unchecked toggle skips the
        frame without advancing the clock; otherwise the clock advances by
        `0.008 * speed`, which never runs it backwards since the engine keeps
        speed within [0, 5]. */
    method FrameSource(toggle: Option<bool>, engine: WaveEngine) returns (drawn: bool)
      requires engine.Valid()
      modifies this
      ensures drawn <==> toggle != Some(false)
      ensures width == old(width) && height == old(height)
      ensures canvasWidth == old(canvasWidth) && canvasHeight == old(canvasHeight)
      ensures time == old(time) + (if drawn then 0.008 * engine.params.speed else 0.0)
      ensures old(time) <= time <= old(time) + 0.04
    {
      if toggle == Some(false) {
        return false;
      }
      assert 0.0 <= Get(engine.params, Speed) <= 5.0;
      time := time + 0.008 * engine.params.speed;
      drawn := true;
    }

    /** A frame of `main.js`: the speed multiplier is the slider's value,
        read afresh every frame. */
    method FrameMain(checked: bool, speedMult: real) returns (drawn: bool)
      modifies this
      ensures drawn == checked
      ensures width == old(width) && height == old(height)
      ensures canvasWidth == old(canvasWidth) && canvasHeight == old(canvasHeight)
      ensures time == old(time) + (if drawn then 0.008 * speedMult else 0.0)
      ensures speedMult >= 0.0 ==> old(time) <= time
    {
      if !checked {
        return false;
      }
      time := time + 0.008 * speedMult;
      drawn := true;
    }

    /** A frame of the theme's `custom.js`: no toggle, a fixed step. */
    method FrameFixed()
      modifies this
      ensures width == old(width) && height == old(height)
      ensures canvasWidth == old(canvasWidth) && canvasHeight == old(canvasHeight)
      ensures time == old(time) + 0.008
    {
      time := time + 0.008;
    }
  }
}
