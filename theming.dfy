/** Themes: the CSS variable tables, the default brand and ambient colours,
    the control layout each theme selects, and the state `setTheme`,
    `updateBrandColor`, `updateAmbientColor` and `resetColors` leave behind
    in the three scripts. The document's inline style is a map from custom
    property name to value. */
module Theming {
  import opened Wrappers
  import opened Colors
  import opened Palette
  import Renderer

  /** Which of the three scripts is being modelled. */
  datatype Variant = SourceCustom | ThemeMain | ThemeCustom

  /** `main.js` darkens with its own schedule; both `custom.js` copies share one. */
  function DarkOf(v: Variant): (d: DarkSchedule)
    ensures d == (if v == ThemeMain then MainDark else CustomDark)
  {
    if v == ThemeMain then MainDark else CustomDark
  }

  /** The two `custom.js` copies generate the same palette for every base
      colour and prefix; `main.js` differs from them. */
  lemma CustomCopiesAgree(baseHex: string, prefix: string)
    ensures PaletteSpec(baseHex, prefix, DarkOf(ThemeCustom)) == PaletteSpec(baseHex, prefix, DarkOf(SourceCustom))
    ensures DarkOf(ThemeMain) != DarkOf(ThemeCustom)
  {
    assert MainDark[0] != CustomDark[0];
  }

  datatype ThemeKey = Void | Azure | Paper

  const AllThemes: seq<ThemeKey> := [Void, Azure, Paper]

  function ThemeName(k: ThemeKey): string {
    match k
    case Void => "void"
    case Azure => "azure"
    case Paper => "paper"
  }

  /** Theme key by the name the buttons pass; any other name leaves
      `THEMES[themeKey]` undefined, so `setTheme` throws on it. */
  function ThemeNamed(name: string): (k: Option<ThemeKey>)
    ensures k.Some? ==> ThemeName(k.value) == name
    ensures k.None? ==> forall t: ThemeKey :: ThemeName(t) != name
  {
    if name == "void" then Some(Void)
    else if name == "azure" then Some(Azure)
    else if name == "paper" then Some(Paper)
    else None
  }

  lemma ThemeNameRoundTrip(k: ThemeKey)
    ensures ThemeNamed(ThemeName(k)) == Some(k)
  {}

  /** `THEMES[k].isDark`: only the void theme is dark. */
  function IsDark(k: ThemeKey): bool {
    k == Void
  }

  /** What the renderer makes of `isDark`: the void theme draws its glyphs
      from the light gradient at base opacity 0.9, the two light themes from
      the dark gradient at 0.6. */
  lemma ThemeGlyphs(k: ThemeKey)
    ensures IsDark(k) <==> k == Void
    ensures Renderer.BaseOpacity(IsDark(k)) == (if k == Void then 0.9 else 0.6)
    ensures Renderer.CodePalette(IsDark(k))
      == (if k == Void then Renderer.GradientLight else Renderer.GradientDark)
  {}

  /** `THEMES[k].variables` of the two `custom.js` scripts. */
  function CustomVariables(k: ThemeKey): map<string, string> {
    match k
    case Void => map[
      "--bg-base" := "#020408", "--bg-surface" := "#0f1419", "--bg-surface-hover" := "#1a202c",
      "--text-main" := "#f8fafc", "--text-muted" := "#9ca3af", "--border-color" := "#1a202c",
      "--card-border" := "#1a202c"]
    case Azure => map[
      "--bg-base" := "#f8fafc", "--bg-surface" := "#ffffff", "--bg-surface-hover" := "#f1f5f9",
      "--text-main" := "#0f172a", "--text-muted" := "#64748b", "--border-color" := "#e2e8f0",
      "--card-border" := "#e2e8f0"]
    case Paper => map[
      "--bg-base" := "#fafafa", "--bg-surface" := "#ffffff", "--bg-surface-hover" := "#f1f5f9",
      "--text-main" := "#0f172a", "--text-muted" := "#64748b", "--border-color" := "#cbd5e1",
      "--card-border" := "#e2e8f0"]
  }

  /** `THEMES[k].variables` of `main.js`. */
  function MainVariables(k: ThemeKey): map<string, string> {
    match k
    case Void => map[
      "--bg-base" := "rgb(var(--ambient-950))", "--bg-surface" := "rgb(var(--ambient-900))",
      "--bg-surface-hover" := "rgb(var(--ambient-800))", "--text-main" := "#f8fafc",
      "--text-muted" := "#94a3b8", "--border-color" := "rgba(255,255,255,0.1)", "--slider-bg" := "#ffffff"]
    case Azure => map[
      "--bg-base" := "#f0f9ff", "--bg-surface" := "#ffffff", "--bg-surface-hover" := "#e0f2fe",
      "--text-main" := "#0f172a", "--text-muted" := "#64748b", "--border-color" := "#e2e8f0",
      "--slider-bg" := "#e2e8f0"]
    case Paper => map[
      "--bg-base" := "#ffffff", "--bg-surface" := "#f8fafc", "--bg-surface-hover" := "#f1f5f9",
      "--text-main" := "#1e293b", "--text-muted" := "#64748b", "--border-color" := "#e2e8f0",
      "--slider-bg" := "rgb(var(--skin-base))"]
  }

  function Variables(v: Variant, k: ThemeKey): map<string, string> {
    if v == ThemeMain then MainVariables(k) else CustomVariables(k)
  }

  /** `THEMES[k].brand` and `THEMES[k].ambient` (`main.js` only). */
  function ThemeBrand(k: ThemeKey): string {
    match k
    case Void => "#6600ff"
    case Azure => "#3b82f6"
    case Paper => "#00608a"
  }

  function ThemeAmbient(k: ThemeKey): string {
    match k
    case Void => "#000000"
    case Azure => "#f0f9ff"
    case Paper => "#ffffff"
  }

  /** The (brand, ambient) pair `resetColors` applies in each script. */
  function ResetPair(v: Variant, k: ThemeKey): (string, string) {
    match v
    case ThemeMain => (ThemeBrand(k), ThemeAmbient(k))
    case ThemeCustom => ("#00608a", "#0f172a")
    case SourceCustom =>
      match k
      case Paper => ("#c800ff", "#ffffff")
      case Void => ("#6600ff", "#000000")
      case Azure => ("#3b82f6", "#f0f9ff")
  }

  lemma SevenHex(s: string)
    requires |s| == 7 && s[0] == '#'
    requires IsHexDigit(s[1]) && IsHexDigit(s[2]) && IsHexDigit(s[3])
    requires IsHexDigit(s[4]) && IsHexDigit(s[5]) && IsHexDigit(s[6])
    ensures HexPattern(s)
  {
    assert forall i :: 0 <= i < 6 ==> s[1..][i] == s[i + 1];
  }

  /** Every default colour is a well-formed hex colour, so the palettes
      built from them never fall back to black. */
  lemma DefaultsAreHex(v: Variant, k: ThemeKey)
    ensures HexPattern(ResetPair(v, k).0) && HexPattern(ResetPair(v, k).1)
  {
    SevenHex(ResetPair(v, k).0);
    SevenHex(ResetPair(v, k).1);
  }

  /** The source script's `resetColors` says it mirrors `main.js`: it does
      for void and azure, and for the paper ambient, but not for the paper
      brand colour. */
  lemma SourceResetMirrorsMain(k: ThemeKey)
    ensures ResetPair(SourceCustom, k).1 == ResetPair(ThemeMain, k).1
    ensures ResetPair(SourceCustom, k).0 == ResetPair(ThemeMain, k).0 <==> k != Paper
  {}

  /** The theme's `custom.js` ignores the theme when resetting. */
  lemma ThemeResetConstant(k1: ThemeKey, k2: ThemeKey)
    ensures ResetPair(ThemeCustom, k1) == ResetPair(ThemeCustom, k2)
    ensures ResetPair(ThemeCustom, k1) != ResetPair(ThemeMain, Azure)
  {}

  /** The initial `state` fields of each script. */
  function InitialTheme(v: Variant): ThemeKey {
    if v == SourceCustom then Void else Azure
  }

  function InitialColors(v: Variant): (string, string) {
    if v == SourceCustom then ("#6600ff", "#000000") else ("#00608a", "#0f172a")
  }

  /** The initial colours are what a reset of the initial theme would give,
      except in `main.js`, whose initial state carries the paper brand. */
  lemma InitialColorsAreResetColors(v: Variant)
    ensures InitialColors(v) == ResetPair(v, InitialTheme(v)) <==> v != ThemeMain
  {}

  /** The wave-control groups `setTheme` shows or hides in the source
      script. */
  datatype ControlGroup = HorizontalSliders | VerticalFaders | RotaryKnobs

  /** The groups marked `hidden` after `setTheme(k)`. */
  function HiddenControls(k: ThemeKey): (h: set<ControlGroup>)
    ensures |h| == 2
  {
    if k == Paper then {HorizontalSliders, RotaryKnobs}
    else if k == Void then {HorizontalSliders, VerticalFaders}
    else {VerticalFaders, RotaryKnobs}
  }

  /** Exactly one group stays visible: faders for paper, knobs for void,
      sliders for azure; and a different one for each theme. */
  lemma VisibleControl(k: ThemeKey, g: ControlGroup)
    ensures g !in HiddenControls(k) <==>
      g == (match k case Paper => VerticalFaders case Void => RotaryKnobs case Azure => HorizontalSliders)
  {}

  lemma LayoutsDiffer(k1: ThemeKey, k2: ThemeKey)
    ensures HiddenControls(k1) == HiddenControls(k2) ==> k1 == k2
  {
    if k1 != k2 {
      var g := match k1 case Paper => VerticalFaders case Void => RotaryKnobs case Azure => HorizontalSliders;
      VisibleControl(k1, g);
      VisibleControl(k2, g);
    }
  }

  // ---------------------------------------------------------------------
  // Style keys

  predicate HasPrefix(x: string, p: string) {
    |p| <= |x| && x[..|p|] == p
  }

  lemma KeyHasPrefix(prefix: string, level: nat)
    ensures HasPrefix(Key(prefix, level), "--" + prefix + "-")
  {
    var p := "--" + prefix + "-";
    assert Key(prefix, level)[..|p|] == p;
  }

  /** No key starts with both prefixes. */
  lemma PrefixesExclusive(x: string)
    ensures !(HasPrefix(x, "--brand-") && HasPrefix(x, "--ambient-"))
  {
    if HasPrefix(x, "--brand-") {
      assert x[2] == x[..8][2] == 'b';
      assert |x| < 10 || x[..10][2] == 'b';
    }
  }

  /** Every property name any theme's variables set. */
  const VariableNames: set<string> := {"--bg-base", "--bg-surface", "--bg-surface-hover", "--text-main",
    "--text-muted", "--border-color", "--card-border", "--slider-bg"}

  lemma VariablesNamed(v: Variant, k: ThemeKey)
    ensures Variables(v, k).Keys <= VariableNames
  {}

  /** No theme variable starts with either palette prefix. */
  lemma VariableNamesNotPaletteKeys(x: string)
    requires x in VariableNames
    ensures !HasPrefix(x, "--brand-") && !HasPrefix(x, "--ambient-")
  {
    assert x[2] != 'a';
    if |x| >= 8 {
      assert x[..8] != "--brand-" by {
        assert x[3] != 'r';
      }
    }
  }

  /** The eleven property names of a palette with the given prefix. */
  function PaletteKeySet(prefix: string): set<string> {
    set l | l in Levels :: Key(prefix, l)
  }

  lemma PaletteKeysPrefixed(prefix: string, x: string)
    requires x in PaletteKeySet(prefix)
    ensures HasPrefix(x, "--" + prefix + "-")
  {
    var l :| l in Levels && x == Key(prefix, l);
    KeyHasPrefix(prefix, l);
  }

  /** So the brand palette, the ambient palette and the theme variables
      set disjoint sets of properties. */
  lemma PalettesDisjoint()
    ensures PaletteKeySet("brand") !! PaletteKeySet("ambient")
  {
    forall x | x in PaletteKeySet("brand")
      ensures x !in PaletteKeySet("ambient")
    {
      PaletteKeysPrefixed("brand", x);
      PrefixesExclusive(x);
      if x in PaletteKeySet("ambient") {
        PaletteKeysPrefixed("ambient", x);
      }
    }
  }

  lemma VariableNamesDisjoint(prefix: string)
    requires prefix == "brand" || prefix == "ambient"
    ensures VariableNames !! PaletteKeySet(prefix)
  {
    forall x | x in PaletteKeySet(prefix)
      ensures x !in VariableNames
    {
      PaletteKeysPrefixed(prefix, x);
      PaletteKeyNotVariable(prefix, x);
    }
  }

  /** No brand or ambient palette key is a theme variable. */
  lemma PaletteKeyNotVariable(prefix: string, x: string)
    requires prefix == "brand" || prefix == "ambient"
    requires HasPrefix(x, "--" + prefix + "-")
    ensures x !in VariableNames
  {
    assert x[2] == prefix[0] && x[3] == prefix[1] by {
      assert x[..|prefix| + 3] == "--" + prefix + "-";
    }
  }

  lemma VariablesDisjoint(v: Variant, k: ThemeKey, prefix: string)
    requires prefix == "brand" || prefix == "ambient"
    ensures Variables(v, k).Keys !! PaletteKeySet(prefix)
  {
    VariablesNamed(v, k);
    VariableNamesDisjoint(prefix);
  }

  /** Applying a later palette never disturbs an earlier one on a disjoint
      key set: after `style + brand + ambient`, every brand key holds its
      brand value. */
  lemma LaterOverlayKeeps(style: map<string, string>, first: map<string, string>, second: map<string, string>, x: string)
    requires first.Keys !! second.Keys && x in first
    ensures x in style + first + second && (style + first + second)[x] == first[x]
  {}

  /** The button loop of `setTheme`: the chosen theme's button gets the
      active class string and the other two the inactive one. */
  method MarkButtons(k: ThemeKey) returns (active: set<ThemeKey>)
    ensures active == {k}
    ensures forall t: ThemeKey :: t in active <==> t == k
  {
    active := {};
    for i := 0 to |AllThemes|
      invariant forall t: ThemeKey :: t in active <==> t == k && t in AllThemes[..i]
    {
      assert AllThemes[..i + 1] == AllThemes[..i] + [AllThemes[i]];
      if AllThemes[i] == k {
        active := active + {AllThemes[i]};
      }
    }
    assert AllThemes[..|AllThemes|] == AllThemes;
  }

  // ---------------------------------------------------------------------
  // The page state the theme functions change

  class ThemeState {
    const variant: Variant
    var currentTheme: ThemeKey
    var brandColor: string
    var ambientColor: string
    var style: map<string, string>
    var activeButtons: set<ThemeKey>
    var hiddenControls: set<ControlGroup>

    constructor (v: Variant)
      ensures variant == v && currentTheme == InitialTheme(v)
      ensures (brandColor, ambientColor) == InitialColors(v)
      ensures style == map[] && activeButtons == {} && hiddenControls == {}
    {
      variant := v;
      currentTheme := InitialTheme(v);
      var (b, a) := InitialColors(v);
      brandColor, ambientColor := b, a;
      style := map[];
      activeButtons := {};
      hiddenControls := {};
    }

    /** `updateBrandColor(hex)`: record the colour and apply its palette. */
    method UpdateBrandColor(hex: string)
      modifies this
      ensures brandColor == hex && ambientColor == old(ambientColor)
      ensures style == old(style) + PaletteSpec(hex, "brand", DarkOf(variant))
      ensures currentTheme == old(currentTheme) && activeButtons == old(activeButtons)
      ensures hiddenControls == old(hiddenControls)
    {
      brandColor := hex;
      var palette := GeneratePalette(hex, "brand", DarkOf(variant));
      style := style + palette;
    }

    /** `updateAmbientColor(hex)`: the same for the ambient palette. */
    method UpdateAmbientColor(hex: string)
      modifies this
      ensures ambientColor == hex && brandColor == old(brandColor)
      ensures style == old(style) + PaletteSpec(hex, "ambient", DarkOf(variant))
      ensures currentTheme == old(currentTheme) && activeButtons == old(activeButtons)
      ensures hiddenControls == old(hiddenControls)
    {
      ambientColor := hex;
      var palette := GeneratePalette(hex, "ambient", DarkOf(variant));
      style := style + palette;
    }

    /** `updateBrandColor(b)` then `updateAmbientColor(a)`. */
    method AdoptColors(b: string, a: string)
      modifies this
      ensures brandColor == b && ambientColor == a
      ensures style == old(style) + PaletteSpec(b, "brand", DarkOf(variant)) + PaletteSpec(a, "ambient", DarkOf(variant))
      ensures currentTheme == old(currentTheme) && activeButtons == old(activeButtons)
      ensures hiddenControls == old(hiddenControls)
    {
      UpdateBrandColor(b);
      UpdateAmbientColor(a);
    }

    /** `setTheme(k)`: apply the theme's variables and mark exactly its
        button active; `main.js` also adopts and applies the theme's brand
        and ambient colours, and the source script switches the controls. */
    method SetTheme(k: ThemeKey)
      modifies this
      ensures currentTheme == k && activeButtons == {k}
      ensures variant == ThemeMain ==>
        brandColor == ThemeBrand(k) && ambientColor == ThemeAmbient(k)
        && style == old(style) + Variables(variant, k)
             + PaletteSpec(ThemeBrand(k), "brand", MainDark) + PaletteSpec(ThemeAmbient(k), "ambient", MainDark)
      ensures variant != ThemeMain ==>
        brandColor == old(brandColor) && ambientColor == old(ambientColor)
        && style == old(style) + Variables(variant, k)
      ensures hiddenControls == (if variant == SourceCustom then HiddenControls(k) else old(hiddenControls))
    {
      currentTheme := k;
      style := style + Variables(variant, k);
      if variant == ThemeMain {
        AdoptColors(ThemeBrand(k), ThemeAmbient(k));
      }
      activeButtons := MarkButtons(k);
      if variant == SourceCustom {
        hiddenControls := HiddenControls(k);
      }
    }

    /** `resetColors()`: apply the script's default pair for the current
        theme. */
    method ResetColors()
      modifies this
      ensures (brandColor, ambientColor) == ResetPair(variant, currentTheme)
      ensures currentTheme == old(currentTheme) && activeButtons == old(activeButtons)
      ensures hiddenControls == old(hiddenControls)
      ensures style == old(style)
        + PaletteSpec(ResetPair(variant, currentTheme).0, "brand", DarkOf(variant))
        + PaletteSpec(ResetPair(variant, currentTheme).1, "ambient", DarkOf(variant))
    {
      var (b, a) := ResetPair(variant, currentTheme);
      AdoptColors(b, a);
    }

    /** Start-up in every script: `setTheme(state.currentTheme)` then
        `resetColors()`. Afterwards the colours are the theme's defaults, the
        style holds the theme's variables and both palettes generated from
        the defaults, and the source tree's script has hidden the controls
        the theme does not show. */
    method Startup()
      modifies this
      ensures currentTheme == old(currentTheme) && activeButtons == {currentTheme}
      ensures (brandColor, ambientColor) == ResetPair(variant, currentTheme)
      ensures hiddenControls
        == (if variant == SourceCustom then HiddenControls(currentTheme) else old(hiddenControls))
      ensures variant == ThemeMain ==>
        style == old(style) + Variables(variant, currentTheme)
          + PaletteSpec(ThemeBrand(currentTheme), "brand", MainDark)
          + PaletteSpec(ThemeAmbient(currentTheme), "ambient", MainDark)
          + PaletteSpec(brandColor, "brand", DarkOf(variant))
          + PaletteSpec(ambientColor, "ambient", DarkOf(variant))
      ensures variant != ThemeMain ==>
        style == old(style) + Variables(variant, currentTheme)
          + PaletteSpec(brandColor, "brand", DarkOf(variant))
          + PaletteSpec(ambientColor, "ambient", DarkOf(variant))
      ensures forall x :: x in Variables(variant, currentTheme) ==>
        x in style && style[x] == Variables(variant, currentTheme)[x]
      ensures forall x :: x in PaletteSpec(brandColor, "brand", DarkOf(variant)) ==>
        x in style && style[x] == PaletteSpec(brandColor, "brand", DarkOf(variant))[x]
      ensures forall x :: x in PaletteSpec(ambientColor, "ambient", DarkOf(variant)) ==>
        x in style && style[x] == PaletteSpec(ambientColor, "ambient", DarkOf(variant))[x]
    {
      SetTheme(currentTheme);
      ghost var before := style;
      ResetColors();
      var bp := PaletteSpec(brandColor, "brand", DarkOf(variant));
      var ap := PaletteSpec(ambientColor, "ambient", DarkOf(variant));
      PaletteKeys(brandColor, "brand", DarkOf(variant));
      PaletteKeys(ambientColor, "ambient", DarkOf(variant));
      PalettesDisjoint();
      forall x | x in bp
        ensures x in style && style[x] == bp[x]
      {
        LaterOverlayKeeps(before, bp, ap, x);
      }
      if variant == ThemeMain {
        PaletteKeys(ThemeBrand(currentTheme), "brand", MainDark);
        PaletteKeys(ThemeAmbient(currentTheme), "ambient", MainDark);
      }
      var vars := Variables(variant, currentTheme);
      VariablesDisjoint(variant, currentTheme, "brand");
      VariablesDisjoint(variant, currentTheme, "ambient");
      forall x | x in vars
        ensures x in style && style[x] == vars[x]
      {
        assert x !in PaletteKeySet("brand") && x !in PaletteKeySet("ambient");
      }
    }
  }
}
