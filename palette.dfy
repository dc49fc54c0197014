/** `generatePalette(baseHex, prefix)`: the eleven CSS custom properties
    `--{prefix}-{level}` derived from one base colour. Levels 50..500 blend
    white towards the base, 600 is the base itself and 700..950 blend black
    towards the base. The three theme scripts differ only in the weights of
    the dark half, which is therefore a parameter. */
module Palette {
  import opened Wrappers
  import opened Decimal
  import opened Colors

  /** All eleven levels in the order the palette is filled. */
  const Levels: seq<nat> := [50, 100, 200, 300, 400, 500, 600, 700, 800, 900, 950]

  const LightLevels: seq<nat> := Levels[..6]
  const LightWeights: seq<real> := [0.05, 0.1, 0.25, 0.45, 0.70, 0.85]
  const BaseLevel: nat := Levels[6]
  const DarkLevels: seq<nat> := Levels[7..]

  /** Weights of the base colour for levels 700, 800, 900 and 950. */
  type DarkSchedule = s: seq<real> | |s| == 4 witness [0.0, 0.0, 0.0, 0.0]

  /** The schedule of both `custom.js` copies. */
  const CustomDark: DarkSchedule := [0.2, 0.35, 0.55, 0.75]
  /** The schedule of `main.js`. */
  const MainDark: DarkSchedule := [0.1, 0.3, 0.5, 0.7]

  /** `--${prefix}-${level}`. */
  function Key(prefix: string, level: nat): string {
    "--" + prefix + "-" + NatToString(level)
  }

  /** The colour of the level at index `i` of `Levels`. */
  function Shade(base: Rgb, i: nat, dark: DarkSchedule): Rgb
    requires i < |Levels|
  {
    if i < 6 then MixColors(White, base, LightWeights[i])
    else if i == 6 then base
    else MixColors(Black, base, dark[i - 7])
  }

  /** The keys in the order the script assigns them. */
  function KeySeq(prefix: string): (ks: seq<string>)
    ensures |ks| == |Levels|
    ensures forall i :: 0 <= i < |ks| ==> ks[i] == Key(prefix, Levels[i])
  {
    seq(|Levels|, i requires 0 <= i < |Levels| => Key(prefix, Levels[i]))
  }

  /** The values in the same order. */
  function ValueSeq(base: Rgb, dark: DarkSchedule): (vs: seq<string>)
    ensures |vs| == |Levels|
    ensures forall i :: 0 <= i < |vs| ==> vs[i] == Triplet(Shade(base, i, dark))
  {
    seq(|Levels|, i requires 0 <= i < |Levels| => Triplet(Shade(base, i, dark)))
  }

  /** The object left by assigning `vs[i]` to `ks[i]` for each `i` in turn. */
  function MapOf(ks: seq<string>, vs: seq<string>): map<string, string>
    requires |ks| == |vs|
    decreases |ks|
  {
    if ks == [] then map[]
    else MapOf(ks[..|ks| - 1], vs[..|vs| - 1])[ks[|ks| - 1] := vs[|vs| - 1]]
  }

  /** What `generatePalette(baseHex, prefix)` returns. */
  function PaletteSpec(baseHex: string, prefix: string, dark: DarkSchedule): map<string, string> {
    MapOf(KeySeq(prefix), ValueSeq(HexToRgb(baseHex), dark))
  }

  /** `generatePalette`: the two `forEach` loops and the assignment of 600
      between them. */
  method GeneratePalette(baseHex: string, prefix: string, dark: DarkSchedule)
    returns (palette: map<string, string>)
    ensures palette == PaletteSpec(baseHex, prefix, dark)
  {
    var base := HexToRgb(baseHex);
    ghost var ks, vs := KeySeq(prefix), ValueSeq(base, dark);
    palette := map[];
    for i := 0 to 6
      invariant palette == MapOf(ks[..i], vs[..i])
    {
      PaletteStep(prefix, base, dark, i);
      palette := palette[Key(prefix, LightLevels[i]) := Triplet(MixColors(White, base, LightWeights[i]))];
    }
    PaletteStep(prefix, base, dark, 6);
    palette := palette[Key(prefix, BaseLevel) := Triplet(base)];
    for i := 0 to 4
      invariant palette == MapOf(ks[..7 + i], vs[..7 + i])
    {
      PaletteStep(prefix, base, dark, 7 + i);
      palette := palette[Key(prefix, DarkLevels[i]) := Triplet(MixColors(Black, base, dark[i]))];
    }
    assert ks[..11] == ks && vs[..11] == vs;
  }

  // ---------------------------------------------------------------------
  // Facts about `MapOf`

  /** One more assignment extends the object by that property. */
  lemma MapOfStep(ks: seq<string>, vs: seq<string>, n: nat)
    requires |ks| == |vs| && n < |ks|
    ensures MapOf(ks[..n + 1], vs[..n + 1]) == MapOf(ks[..n], vs[..n])[ks[n] := vs[n]]
  {
    assert ks[..n + 1][..n] == ks[..n];
    assert vs[..n + 1][..n] == vs[..n];
  }

  /** The assignment at index `n`, written as the script writes it. */
  lemma PaletteStep(prefix: string, base: Rgb, dark: DarkSchedule, n: nat)
    requires n < |Levels|
    ensures var ks, vs := KeySeq(prefix), ValueSeq(base, dark);
      MapOf(ks[..n + 1], vs[..n + 1]) == MapOf(ks[..n], vs[..n])[ks[n] := vs[n]]
      && (n < 6 ==> ks[n] == Key(prefix, LightLevels[n]) && vs[n] == Triplet(MixColors(White, base, LightWeights[n])))
      && (n == 6 ==> ks[n] == Key(prefix, BaseLevel) && vs[n] == Triplet(base))
      && (7 <= n ==> ks[n] == Key(prefix, DarkLevels[n - 7]) && vs[n] == Triplet(MixColors(Black, base, dark[n - 7])))
  {
    MapOfStep(KeySeq(prefix), ValueSeq(base, dark), n);
  }

  predicate Distinct(ks: seq<string>) {
    forall i, j :: 0 <= i < j < |ks| ==> ks[i] != ks[j]
  }

  lemma {:induction false} MapOfKeys(ks: seq<string>, vs: seq<string>)
    requires |ks| == |vs|
    ensures MapOf(ks, vs).Keys == set k | k in ks
    decreases |ks|
  {
    if ks != [] {
      var n := |ks| - 1;
      MapOfKeys(ks[..n], vs[..n]);
      assert ks == ks[..n] + [ks[n]];
    }
  }

  /** With distinct keys every assignment survives: the object maps each key
      to the value assigned to it, and has one property per assignment. */
  lemma {:induction false} MapOfLookup(ks: seq<string>, vs: seq<string>)
    requires |ks| == |vs| && Distinct(ks)
    ensures forall i :: 0 <= i < |ks| ==> ks[i] in MapOf(ks, vs) && MapOf(ks, vs)[ks[i]] == vs[i]
    ensures |MapOf(ks, vs)| == |ks|
    decreases |ks|
  {
    if ks != [] {
      var n := |ks| - 1;
      var p, q := ks[..n], vs[..n];
      var m := MapOf(p, q);
      assert Distinct(p);
      MapOfLookup(p, q);
      MapOfKeys(p, q);
      assert ks[n] !in m;
      forall i | 0 <= i < |ks| ensures ks[i] in MapOf(ks, vs) && MapOf(ks, vs)[ks[i]] == vs[i] {
        if i < n {
          assert p[i] == ks[i] && q[i] == vs[i];
        }
      }
    }
  }

  // ---------------------------------------------------------------------
  // Keys

  /** Keys of one prefix are distinct for distinct levels. */
  lemma KeyInjective(prefix: string, a: nat, b: nat)
    ensures Key(prefix, a) == Key(prefix, b) ==> a == b
  {
    var head := "--" + prefix + "-";
    if Key(prefix, a) == Key(prefix, b) {
      assert Key(prefix, a)[|head|..] == NatToString(a);
      assert Key(prefix, b)[|head|..] == NatToString(b);
      NatToStringInjective(a, b);
    }
  }

  lemma KeysDistinct(prefix: string)
    ensures Distinct(KeySeq(prefix))
  {
    var ks := KeySeq(prefix);
    forall i, j | 0 <= i < j < |ks| ensures ks[i] != ks[j] {
      KeyInjective(prefix, Levels[i], Levels[j]);
    }
  }

  /** The keys in assignment order are the keys of the eleven levels. */
  lemma KeySeqLevels(prefix: string)
    ensures (set k | k in KeySeq(prefix)) == set l | l in Levels :: Key(prefix, l)
  {
    var ks := KeySeq(prefix);
    forall k | k in ks ensures k in set l | l in Levels :: Key(prefix, l) {
      var i :| 0 <= i < |ks| && ks[i] == k;
      assert Levels[i] in Levels;
    }
    forall l | l in Levels ensures Key(prefix, l) in ks {
      var i :| 0 <= i < |Levels| && Levels[i] == l;
      assert ks[i] == Key(prefix, l);
    }
  }

  /** The palette has exactly the eleven keys `--{prefix}-{50..950}`. */
  lemma PaletteKeys(baseHex: string, prefix: string, dark: DarkSchedule)
    ensures PaletteSpec(baseHex, prefix, dark).Keys == set l | l in Levels :: Key(prefix, l)
    ensures |PaletteSpec(baseHex, prefix, dark)| == 11
  {
    var ks, vs := KeySeq(prefix), ValueSeq(HexToRgb(baseHex), dark);
    MapOfKeys(ks, vs);
    KeysDistinct(prefix);
    MapOfLookup(ks, vs);
    KeySeqLevels(prefix);
  }

  /** The value under each key is the triplet of that level's shade. */
  lemma PaletteAt(baseHex: string, prefix: string, dark: DarkSchedule, i: nat)
    requires i < |Levels|
    ensures Key(prefix, Levels[i]) in PaletteSpec(baseHex, prefix, dark)
    ensures PaletteSpec(baseHex, prefix, dark)[Key(prefix, Levels[i])] == Triplet(Shade(HexToRgb(baseHex), i, dark))
  {
    KeysDistinct(prefix);
    MapOfLookup(KeySeq(prefix), ValueSeq(HexToRgb(baseHex), dark));
  }

  /** Level 600 is the parsed base, unchanged. */
  lemma PaletteBase(baseHex: string, prefix: string, dark: DarkSchedule)
    ensures Key(prefix, 600) in PaletteSpec(baseHex, prefix, dark)
    ensures PaletteSpec(baseHex, prefix, dark)[Key(prefix, 600)] == Triplet(HexToRgb(baseHex))
  {
    PaletteAt(baseHex, prefix, dark, 6);
  }

  /** Levels 50..500 blend white with the base by the fixed light weights. */
  lemma PaletteLight(baseHex: string, prefix: string, dark: DarkSchedule, i: nat)
    requires i < 6
    ensures Key(prefix, LightLevels[i]) in PaletteSpec(baseHex, prefix, dark)
    ensures PaletteSpec(baseHex, prefix, dark)[Key(prefix, LightLevels[i])]
      == Triplet(MixColors(White, HexToRgb(baseHex), LightWeights[i]))
  {
    PaletteAt(baseHex, prefix, dark, i);
  }

  /** Levels 700..950 blend black with the base by the dark schedule. */
  lemma PaletteDark(baseHex: string, prefix: string, dark: DarkSchedule, i: nat)
    requires i < 4
    ensures Key(prefix, DarkLevels[i]) in PaletteSpec(baseHex, prefix, dark)
    ensures PaletteSpec(baseHex, prefix, dark)[Key(prefix, DarkLevels[i])]
      == Triplet(MixColors(Black, HexToRgb(baseHex), dark[i]))
  {
    PaletteAt(baseHex, prefix, dark, 7 + i);
  }

  /** `main.js` example: its 950 level is black blended with 0.7 of the base. */
  lemma MainPalette950(baseHex: string, prefix: string)
    ensures Key(prefix, 950) in PaletteSpec(baseHex, prefix, MainDark)
    ensures PaletteSpec(baseHex, prefix, MainDark)[Key(prefix, 950)]
      == Triplet(MixColors(Black, HexToRgb(baseHex), 0.7))
  {
    PaletteAt(baseHex, prefix, MainDark, 10);
  }

  // ---------------------------------------------------------------------
  // Shades

  predicate ScheduleInRange(dark: DarkSchedule) {
    forall i :: 0 <= i < 4 ==> 0.0 <= dark[i] <= 1.0
  }

  predicate ScheduleIncreasing(dark: DarkSchedule) {
    forall i, j :: 0 <= i < j < 4 ==> dark[i] <= dark[j]
  }

  /** With a schedule of weights in [0, 1] every shade is a valid colour. */
  lemma ShadeInGamut(base: Rgb, i: nat, dark: DarkSchedule)
    requires InGamut(base) && ScheduleInRange(dark) && i < |Levels|
    ensures InGamut(Shade(base, i, dark))
  {}

  /** Every entry reads back as its shade, which is a valid colour. */
  lemma PaletteDecodes(baseHex: string, prefix: string, dark: DarkSchedule, i: nat)
    requires ScheduleInRange(dark) && i < |Levels|
    ensures Key(prefix, Levels[i]) in PaletteSpec(baseHex, prefix, dark)
    ensures DecodeTriplet(PaletteSpec(baseHex, prefix, dark)[Key(prefix, Levels[i])])
      == Some(Shade(HexToRgb(baseHex), i, dark))
    ensures InGamut(Shade(HexToRgb(baseHex), i, dark))
  {
    PaletteAt(baseHex, prefix, dark, i);
    TripletRoundTrip(Shade(HexToRgb(baseHex), i, dark));
    ShadeInGamut(HexToRgb(baseHex), i, dark);
  }

  predicate ChannelsLe(c1: Rgb, c2: Rgb) {
    c1.r <= c2.r && c1.g <= c2.g && c1.b <= c2.b
  }

  /** From 50 to 500 each level is at most as bright as the previous one,
      channel by channel: the light half darkens from white towards the base. */
  lemma LightHalfDarkens(base: Rgb, dark: DarkSchedule, i: nat, j: nat)
    requires InGamut(base) && i <= j < 6
    ensures ChannelsLe(Shade(base, j, dark), Shade(base, i, dark))
  {
    MixChannelMonotone(255, base.r, LightWeights[i], LightWeights[j]);
    MixChannelMonotone(255, base.g, LightWeights[i], LightWeights[j]);
    MixChannelMonotone(255, base.b, LightWeights[i], LightWeights[j]);
  }

  /** From 700 to 950 each level is at least as bright as the previous one:
      the weights are shares of the base, so the dark half brightens from
      near black towards the base as the level number grows. */
  lemma DarkHalfBrightens(base: Rgb, dark: DarkSchedule, i: nat, j: nat)
    requires InGamut(base) && ScheduleIncreasing(dark) && 7 <= i <= j < 11
    ensures ChannelsLe(Shade(base, i, dark), Shade(base, j, dark))
  {
    MixChannelMonotone(0, base.r, dark[i - 7], dark[j - 7]);
    MixChannelMonotone(0, base.g, dark[i - 7], dark[j - 7]);
    MixChannelMonotone(0, base.b, dark[i - 7], dark[j - 7]);
  }

  /** A grey base shows that the dark half is not ordered darkest-last: 950
      is strictly brighter than 700 under both schedules. */
  lemma Dark950BrighterThan700()
    ensures Shade(Rgb(100, 100, 100), 7, CustomDark) == Rgb(20, 20, 20)
    ensures Shade(Rgb(100, 100, 100), 10, CustomDark) == Rgb(75, 75, 75)
    ensures Shade(Rgb(100, 100, 100), 7, MainDark) == Rgb(10, 10, 10)
    ensures Shade(Rgb(100, 100, 100), 10, MainDark) == Rgb(70, 70, 70)
  {
    assert Blend(0.0, 100.0, 0.2) == 20.0;
    assert Blend(0.0, 100.0, 0.75) == 75.0;
    assert Blend(0.0, 100.0, 0.1) == 10.0;
    assert Blend(0.0, 100.0, 0.7) == 70.0;
  }

  /** The two schedules give different palettes: `main.js` and the
      `custom.js` copies disagree on the 700 level of base `#646464`. */
  lemma SchedulesDiffer(prefix: string)
    ensures Key(prefix, 700) in PaletteSpec("#646464", prefix, CustomDark)
    ensures Key(prefix, 700) in PaletteSpec("#646464", prefix, MainDark)
    ensures PaletteSpec("#646464", prefix, CustomDark)[Key(prefix, 700)]
      != PaletteSpec("#646464", prefix, MainDark)[Key(prefix, 700)]
  {
    var grey := Rgb(100, 100, 100);
    assert HexToRgb("#646464") == grey by {
      assert HexPattern("#646464");
      assert ByteAt("646464", 0) == 100;
    }
    PaletteAt("#646464", prefix, CustomDark, 7);
    PaletteAt("#646464", prefix, MainDark, 7);
    Dark950BrighterThan700();
    TripletInjective(Rgb(20, 20, 20), Rgb(10, 10, 10));
  }
}
