# CodeMismatch front end: a verified model

This project models the client-side behaviour of the CodeMismatch site theme. It covers three scripts:

- `source/themes/codemismatch/javascripts/custom.js` (the full version, with rotary knobs, a code-glyph renderer and the wave prompt);
- `themes/codemismatch/javascripts/main.js` (the Gemini-backed version);
- `themes/codemismatch/javascripts/custom.js` (the reduced copy).

The three scripts share most of their logic, so the model is written once. Where they differ, it is parameterised by which script runs: the `Variant` datatype in `Theming`, `ChatVariant` in `Chat`, and separate methods in `Renderer` and `Navigation`.

The modules follow the program's parts:

- `Strings` and `Decimal`: ASCII lower-casing; `includes`; `trim` over JavaScript's white-space set; single-character `replace(/c/g, r)`; decimal rendering of integers with its parser.
- `Colors`: `hexToRgb` (the `#?RRGGBB` pattern, case-insensitive, black on mismatch), its inverse, `Math.round`, the `mixColors` blend, and the `"r g b"` triplet that `generatePalette` writes, with its decoder.
- `Palette`: `generatePalette`, an imperative method with its two loops, proved equal to a map built from the eleven levels 50–950. Lemmas give every entry and the light/dark ordering.
- `WaveParams`: the wave defaults and limits, `clampWaveParam`, the keyword presets of `parseWavePrompt`, and the engine's `setParam` and `applyWavePrompt`.
- `Knob`: the rotary knob's angle/value mapping, the dead-zone re-basing of cursor angles, and the drag gesture state.
- `Renderer`: the set-up guard, `resize` and the time accumulator of the three render loops. It also covers the per-glyph arithmetic of code mode (phase, position, alpha, colour index, token) and the sampling of lines mode.
- `Navigation`: the section map, the placeholder title, the nav highlight, history entries, initial hash handling and `popstate`.
- `Theming`: theme tables, default colours, the layout each theme selects, and the style map that `setTheme`, `updateBrandColor`, `updateAmbientColor` and `resetColors` leave behind.
- `Chat`: the `appendMessage` escaping, the message log of `handleChatSend`, and the non-network branches of `generateOracleResponse`.

How the model represents the program:

- JavaScript numbers are modelled as `real`.
- `Math.round(x)` is `⌊x + 1/2⌋`.
- `%` on numbers is the truncated remainder (`Renderer.TruncRem`).
- `Math.sin`, `Math.cos`, `Math.pow` and `Math.atan2` are not interpreted. They arrive as function-valued parameters, or (for `atan2`) as the raw angle.
- `parseFloat` results are `Option<real>`, where `None` stands for `NaN`.
- The document's inline style is a `map<string, string>`.
- `history.pushState` appends to a `seq<string>`.
- `Date.now()` readings and the outcome of the Gemini call are parameters.

The section lookup of the two `custom.js` scripts misbehaves on one class of page ids, and `main.js` loses the page a URL names on load. "## Findings" gives the input for each and the corrected member beside it.

## Model

| member | source | states |
|---|---|---|
| Strings.Lower | source/themes/codemismatch/javascripts/custom.js:830 | Lower-casing keeps the length and maps each character through ASCII case folding |
| Strings.OccursWithin | source/themes/codemismatch/javascripts/custom.js:834-835 | A keyword found inside a longer keyword's occurrence occurs in the prompt too |
| Strings.TrimStart | source/themes/codemismatch/javascripts/custom.js:806 | The result is the longest suffix that starts with a non-space; only white space was dropped |
| Strings.TrimEnd | source/themes/codemismatch/javascripts/custom.js:806 | The result is the longest prefix that ends with a non-space; only white space was dropped |
| Strings.Trim | source/themes/codemismatch/javascripts/custom.js:806 | Empty exactly when the input is all white space; otherwise it neither starts nor ends with white space and is a substring of the input |
| Strings.TrimParts | source/themes/codemismatch/javascripts/custom.js:806 | The input is white space, then the trimmed text, then white space: only the two ends are dropped; with the end characters of `Trim` this pins the result |
| Strings.CountConcat | source/themes/codemismatch/javascripts/custom.js:779 | Character counts add over concatenation |
| Strings.ReplaceAllConcat | source/themes/codemismatch/javascripts/custom.js:779 | A global single-character replace distributes over concatenation |
| Strings.ReplaceAllAbsent | source/themes/codemismatch/javascripts/custom.js:779 | Replacing a character that does not occur leaves the text unchanged |
| Decimal.NatToString | source/themes/codemismatch/javascripts/custom.js:285 | The rendering of a level is a non-empty digit string with no leading zero |
| Decimal.NatRoundTrip | source/themes/codemismatch/javascripts/custom.js:285 | Parsing the decimal rendering of a natural gives it back |
| Decimal.NatToStringInjective | source/themes/codemismatch/javascripts/custom.js:285 | Different naturals render differently |
| Decimal.IntToString | source/themes/codemismatch/javascripts/custom.js:279 | The rendering is non-empty, has no space, and starts with '-' exactly for negatives |
| Decimal.IntRoundTrip | source/themes/codemismatch/javascripts/custom.js:279 | Every integer's rendering is a well-formed numeral that parses back to it |
| Colors.ByteAt | source/themes/codemismatch/javascripts/custom.js:252-254 | Two hex digits denote a byte value of at most 255 |
| Colors.ParseDigits | source/themes/codemismatch/javascripts/custom.js:251-256 | Six characters parse exactly when all are hex digits, giving an in-gamut colour |
| Colors.ParseHex | source/themes/codemismatch/javascripts/custom.js:250-256 | `hexToRgb`'s regular expression matches exactly the `#?RRGGBB` pattern, and a match is in gamut |
| Colors.HexToRgb | source/themes/codemismatch/javascripts/custom.js:250-257 | Always in gamut; a well-formed string gives its parsed colour, anything else gives black |
| Colors.HexRoundTrip | source/themes/codemismatch/javascripts/custom.js:250-257 | Formatting an in-gamut colour as `#RRGGBB`, with or without the `#`, and parsing it gives the colour back |
| Colors.ParseHexIgnoresCase | source/themes/codemismatch/javascripts/custom.js:251 | The case-insensitive flag: a lower-cased string parses to the same colour |
| Colors.Round | source/themes/codemismatch/javascripts/custom.js:261 | `Math.round` lands within one half of its argument |
| Colors.RoundMonotone | source/themes/codemismatch/javascripts/custom.js:261 | `Math.round` never reverses order |
| Colors.BlendBetween | source/themes/codemismatch/javascripts/custom.js:261-263 | A blend with weight in [0, 1] stays between its endpoints |
| Colors.BlendMonotone | source/themes/codemismatch/javascripts/custom.js:261-263 | A larger weight moves the blend further towards the second colour |
| Colors.MixChannel | source/themes/codemismatch/javascripts/custom.js:261-263 | Weight 0 gives the first channel, weight 1 the second; weights in between stay between them |
| Colors.MixColors | source/themes/codemismatch/javascripts/custom.js:259-265 | Weights 0 and 1 give the endpoint colours; for in-gamut inputs and weights in [0, 1] the mix is in gamut |
| Colors.MixChannelMonotone | source/themes/codemismatch/javascripts/custom.js:259-265 | The rounded channel moves monotonically with the weight |
| Colors.TripletRoundTrip | source/themes/codemismatch/javascripts/custom.js:279 | The `"r g b"` triplet decodes back to the colour |
| Colors.TripletInjective | source/themes/codemismatch/javascripts/custom.js:279 | Different colours give different triplets |
| Palette.KeySeq | source/themes/codemismatch/javascripts/custom.js:283-291 | One key per level, in level order, each `--prefix-level` |
| Palette.ValueSeq | source/themes/codemismatch/javascripts/custom.js:283-291 | One triplet per level, each the shade of the base colour for that level |
| Palette.GeneratePalette | source/themes/codemismatch/javascripts/custom.js:272-293 | The two loops and the assignment of 600 build exactly the specification map |
| Palette.PaletteStep | source/themes/codemismatch/javascripts/custom.js:282-292 | Each loop step adds to the map the key and shade of the next level (light mix, base, or dark mix) |
| Palette.MapOfKeys | source/themes/codemismatch/javascripts/custom.js:282-292 | The key set of the built map is the set of keys written |
| Palette.MapOfLookup | source/themes/codemismatch/javascripts/custom.js:282-292 | With distinct keys each key maps to its own value, and the map has one entry per key |
| Palette.KeyInjective | source/themes/codemismatch/javascripts/custom.js:285 | Different levels give different CSS variable names |
| Palette.KeysDistinct | source/themes/codemismatch/javascripts/custom.js:283-291 | No two levels write the same key |
| Palette.KeySeqLevels | source/themes/codemismatch/javascripts/custom.js:283-291 | The keys written are exactly `--prefix-l` for the eleven levels |
| Palette.PaletteKeys | source/themes/codemismatch/javascripts/custom.js:272-293 | The palette has exactly eleven entries, one per level |
| Palette.PaletteAt | source/themes/codemismatch/javascripts/custom.js:272-293 | The entry for each level is the triplet of that level's shade |
| Palette.PaletteBase | source/themes/codemismatch/javascripts/custom.js:287 | Level 600 is the base colour itself |
| Palette.PaletteLight | source/themes/codemismatch/javascripts/custom.js:283-286 | Levels 50–500 mix white towards the base with weights 0.05, 0.1, 0.25, 0.45, 0.7, 0.85 |
| Palette.PaletteDark | source/themes/codemismatch/javascripts/custom.js:288-291 | Levels 700–950 mix black towards the base with the script's dark schedule |
| Palette.MainPalette950 | themes/codemismatch/javascripts/main.js:361-364 | In `main.js`, level 950 is black mixed 0.7 towards the base |
| Palette.ShadeInGamut | source/themes/codemismatch/javascripts/custom.js:277-280 | Every shade of an in-gamut base is in gamut when the schedule's weights are in [0, 1] |
| Palette.PaletteDecodes | source/themes/codemismatch/javascripts/custom.js:272-293 | Every palette entry decodes to an in-gamut colour, the shade of its level |
| Palette.LightHalfDarkens | source/themes/codemismatch/javascripts/custom.js:283-286 | From 50 to 500 each level is channel-wise no brighter than the previous |
| Palette.DarkHalfBrightens | source/themes/codemismatch/javascripts/custom.js:288-291 | With an increasing schedule, 700 to 950 get channel-wise brighter, not darker |
| Palette.Dark950BrighterThan700 | source/themes/codemismatch/javascripts/custom.js:288-291 | For grey 100 the 700 shade is 20 and the 950 shade 75 (10 and 70 in `main.js`) |
| Palette.SchedulesDiffer | themes/codemismatch/javascripts/main.js:361-364 | `main.js` and the `custom.js` copies give different 700 shades for the same base |
| WaveParams.KeyNamed | source/themes/codemismatch/javascripts/custom.js:332-333 | A name is a key exactly when it names one; otherwise no key has that name |
| WaveParams.KeyNamedName | source/themes/codemismatch/javascripts/custom.js:11-16 | Every key is found by its own name |
| WaveParams.LimitsOf | source/themes/codemismatch/javascripts/custom.js:11-16 | Every key's range is non-empty |
| WaveParams.With | source/themes/codemismatch/javascripts/custom.js:439 | Setting one parameter changes that one and keeps the others |
| WaveParams.DefaultsInLimits | source/themes/codemismatch/javascripts/custom.js:4-16 | The default parameters lie within the limits |
| WaveParams.Clamp | source/themes/codemismatch/javascripts/custom.js:334-336 | Always within the key's limits; in-range values are kept, out-of-range values go to the nearer bound, and `NaN` goes to the minimum |
| WaveParams.ClampIdempotent | source/themes/codemismatch/javascripts/custom.js:331-337 | Clamping twice is clamping once |
| WaveParams.ClampMonotone | source/themes/codemismatch/javascripts/custom.js:331-337 | Clamping preserves order |
| WaveParams.ClampWaveParam | source/themes/codemismatch/javascripts/custom.js:331-337 | Unknown names pass the value through; known names clamp it |
| WaveParams.ParseWavePrompt | source/themes/codemismatch/javascripts/custom.js:829-855 | The loop over the presets computes the prompt's parameters and match flag as specified |
| WaveParams.ApplyOverridesValue | source/themes/codemismatch/javascripts/custom.js:836-838 | After a preset's overrides, a key holds its last override clamped, or its old value |
| WaveParams.ApplyRulesValue | source/themes/codemismatch/javascripts/custom.js:843-852 | After all presets, a key holds the last firing preset's clamped value for it, if any |
| WaveParams.LastFiringWins | source/themes/codemismatch/javascripts/custom.js:843-852 | When a preset fires and no later preset sets the key, that preset's clamped value is the result |
| WaveParams.NoKeywordNoChange | source/themes/codemismatch/javascripts/custom.js:829-855 | A prompt that fires no preset leaves the parameters unchanged and reports no match |
| WaveParams.MatchedIffSomeFires | source/themes/codemismatch/javascripts/custom.js:832-839 | The match flag is set exactly when some preset's keyword occurs in the lower-cased prompt |
| WaveParams.UnnamedKeepsValue | source/themes/codemismatch/javascripts/custom.js:829-855 | A key no firing preset mentions keeps its value |
| WaveParams.LastOverrideInLimits | source/themes/codemismatch/javascripts/custom.js:836-838 | Every value a preset writes is within the key's limits |
| WaveParams.ParsePromptInLimits | source/themes/codemismatch/javascripts/custom.js:829-855 | Parsing keeps in-limit parameters in limits |
| WaveParams.SmoothEndsRound | source/themes/codemismatch/javascripts/custom.js:844-852 | "smooth" fires both the smooth and the round presets, and the later round preset sets steepness 0.8 |
| WaveParams.SlowAlsoFlattens | source/themes/codemismatch/javascripts/custom.js:846-850 | "slow" also contains "low": the slow preset sets speed 0.45, the later low preset sets amplitude 0.7, and no later preset changes either |
| WaveParams.WaveEngine.SetParam | source/themes/codemismatch/javascripts/custom.js:438-441 | Sets the one parameter to its clamped value and keeps the engine within limits |
| WaveParams.WaveEngine.ApplyWavePrompt | source/themes/codemismatch/javascripts/custom.js:876-903 | Blank text does nothing; otherwise the feedback says whether a preset matched, and on a match exactly the keys whose slider is wired to `setParam` take the parsed values while the rest keep theirs |
| WaveParams.WaveEngine.PushControls | source/themes/codemismatch/javascripts/custom.js:857-874 | Pushing parsed in-limit parameters through the controls sets exactly the wired keys to them and keeps the others |
| WaveParams.Adopt | source/themes/codemismatch/javascripts/custom.js:857-874 | After the push each wired key holds the parsed value and every other key its old one |
| WaveParams.PushKeysValue | source/themes/codemismatch/javascripts/custom.js:865-873 | After pushing the first n keys, each wired one of them holds the parsed value; all others are untouched |
| WaveParams.PushAllKeys | source/themes/codemismatch/javascripts/custom.js:857-874 | Pushing every key through the controls gives the parsed values on the wired keys and the old values elsewhere |
| WaveParams.AllWiredAdopts | source/themes/codemismatch/javascripts/custom.js:857-874 | With every slider wired, the parameters become exactly the parsed ones |
| WaveParams.NoneWiredKeeps | source/themes/codemismatch/javascripts/custom.js:757-764 | Before `setupWaveControls` has attached any listener, a matched prompt changes no parameter |
| Knob.Clamp01 | source/themes/codemismatch/javascripts/custom.js:527 | The result is in [0, 1]; values inside are kept, values outside go to the nearer end |
| Knob.ScaleInto | source/themes/codemismatch/javascripts/custom.js:528 | A fraction in [0, 1] of the way between two bounds stays between them |
| Knob.AngleToValue | source/themes/codemismatch/javascripts/custom.js:515-529 | The value is within the key's limits; angles before 120° give the minimum and after 410° the maximum |
| Knob.ValueToAngle | source/themes/codemismatch/javascripts/custom.js:531-534 | An in-limit value maps onto the 120°–410° arc |
| Knob.ValueAngleRoundTrip | source/themes/codemismatch/javascripts/custom.js:515-534 | An in-limit value survives the trip to an angle and back |
| Knob.AngleValueRoundTrip | source/themes/codemismatch/javascripts/custom.js:515-534 | An angle on the arc survives the trip to a value and back |
| Knob.AngleToValueMonotone | source/themes/codemismatch/javascripts/custom.js:515-529 | Turning further never lowers the value |
| Knob.UnwrapNoOp | source/themes/codemismatch/javascripts/custom.js:516-524 | The wrap correction is a no-op when the angles differ by at most 540° |
| Knob.PrevAngleIrrelevant | source/themes/codemismatch/javascripts/custom.js:572-579 | For event angles in [0, 480) the previous angle never changes the value |
| Knob.BaseAngle | source/themes/codemismatch/javascripts/custom.js:544-545 | The `atan2` angle moved into [0, 360), by a full turn at most |
| Knob.EventAngle | source/themes/codemismatch/javascripts/custom.js:536-558 | The angle is in [0, 480); it gains 360° exactly when it lies before the arc and either the gesture is past 360° or the knob is above 40% |
| Knob.MouseDownPresetIrrelevant | source/themes/codemismatch/javascripts/custom.js:560-570 | The last angle that mouse-down sets first never changes the event angle |
| Knob.KnobGesture.MouseDown | source/themes/codemismatch/javascripts/custom.js:560-570 | Starts a drag, records the event angle, and sets the parameter to that angle's value |
| Knob.KnobGesture.TouchStart | source/themes/codemismatch/javascripts/custom.js:598-606 | The same as mouse-down, without the pre-set last angle |
| Knob.KnobGesture.Move | source/themes/codemismatch/javascripts/custom.js:572-579 | Ignored outside a drag; inside one it follows the cursor and updates the last angle |
| Knob.KnobGesture.Release | source/themes/codemismatch/javascripts/custom.js:581-588 | Ends the drag and forgets the angle |
| Renderer.CodePalette | source/themes/codemismatch/javascripts/custom.js:665 | Five colours; dark themes draw with the light list and light themes with the dark list |
| Renderer.Trunc | source/themes/codemismatch/javascripts/custom.js:715 | Truncation towards zero: within one of its argument, on the zero side |
| Renderer.TruncRem | source/themes/codemismatch/javascripts/custom.js:715 | JavaScript's `%`: smaller than the modulus in magnitude, with the sign of the dividend |
| Renderer.PhaseX | source/themes/codemismatch/javascripts/custom.js:713-716 | The glyph's drifting x is within one step of the canvas |
| Renderer.Position | source/themes/codemismatch/javascripts/custom.js:718-719 | The horizontal position is in [0, 1] |
| Renderer.Alpha | source/themes/codemismatch/javascripts/custom.js:728 | Alpha is in [0.4, 1] and equals the flickered opacity when that lies inside |
| Renderer.DarkAlphaUnclamped | source/themes/codemismatch/javascripts/custom.js:728 | On dark themes the clamp never acts: alpha stays in [0.54, 0.9] |
| Renderer.ColorIndex | source/themes/codemismatch/javascripts/custom.js:729-731 | The colour index is a valid index into the five-colour palette |
| Renderer.Token | source/themes/codemismatch/javascripts/custom.js:737-745 | Hex slots draw a hex literal and other slots a binary digit, indexed cyclically |
| Renderer.HexShare | source/themes/codemismatch/javascripts/custom.js:738 | Any twelve consecutive slots hold exactly three hex glyphs |
| Renderer.DisplacementZero | source/themes/codemismatch/javascripts/custom.js:701-703 | With zero amplitude the sinusoidal displacement vanishes |
| Renderer.GlyphAt | source/themes/codemismatch/javascripts/custom.js:712-747 | Each glyph's x is near the canvas, its colour index is valid, its alpha is in [0.4, 1], and its token is the slot's |
| Renderer.CurveFlatWhenAmpZero | source/themes/codemismatch/javascripts/custom.js:696-708 | A curve with zero amplitude is the flat axis line |
| Renderer.GlyphFlatWhenAmpZero | source/themes/codemismatch/javascripts/custom.js:712-748 | Glyphs lie on the axis when the amplitude parameter is zero |
| Renderer.CurveRow | source/themes/codemismatch/javascripts/custom.js:696-708 | The sampling loop yields one point every 5 px across the width, each on the curve |
| Renderer.GlyphRow | source/themes/codemismatch/javascripts/custom.js:712-748 | The glyph loop yields one glyph every 8 px up to one step past the width, each as specified |
| Renderer.WaveSetup.Setup | source/themes/codemismatch/javascripts/custom.js:339-347 | Starts the loops at most once, and only when the canvas exists |
| Renderer.WaveCanvas.Resize | source/themes/codemismatch/javascripts/custom.js:355-366 | A missing or zero-sized parent leaves the canvas alone; otherwise the sizes follow the parent, scaled by the pixel ratio |
| Renderer.WaveCanvas.ResizeUnguarded | themes/codemismatch/javascripts/custom.js:264-270 | The reduced copy always adopts the parent's size, zero included |
| Renderer.WaveCanvas.FrameSource | source/themes/codemismatch/javascripts/custom.js:649-754 | A frame is drawn unless the toggle is switched off; time advances by 0.008 × speed, and by at most 0.04 |
| Renderer.WaveCanvas.FrameMain | themes/codemismatch/javascripts/main.js:422-483 | A frame is drawn exactly when the toggle is checked, advancing time by 0.008 × the speed multiplier |
| Renderer.WaveCanvas.FrameFixed | themes/codemismatch/javascripts/custom.js:276-316 | Every frame advances time by 0.008 and leaves the sizes alone |
| Navigation.SectionLookupAsWritten | source/themes/codemismatch/javascripts/custom.js:157 | As written, the lookup throws exactly for the names inherited from `Object.prototype` |
| Navigation.PrototypeHashThrows | source/themes/codemismatch/javascripts/custom.js:98-99 | The hash `#toString` (or `#constructor`) makes the initial navigation throw |
| Navigation.SectionMap | source/themes/codemismatch/javascripts/custom.js:147-157 | Known pages show their table entry; every other id shows nothing |
| Navigation.AsWrittenAgreesElsewhere | source/themes/codemismatch/javascripts/custom.js:147-157 | Outside the inherited names the as-written lookup is the corrected one |
| Navigation.MainAgreesWithTable | themes/codemismatch/javascripts/main.js:200-236 | `main.js`'s if-chain shows the same sections as the corrected table for every id |
| Navigation.SectionsShown | source/themes/codemismatch/javascripts/custom.js:147-157 | A page shows something exactly when it is known, and only real sections |
| Navigation.HomeShowsThree | source/themes/codemismatch/javascripts/custom.js:148-150 | Home shows hero, services and work; services and work show only themselves |
| Navigation.PlaceholderTitle | source/themes/codemismatch/javascripts/custom.js:160-167 | A title is written exactly for the open-source and blog pages |
| Navigation.TitleIffPlaceholder | source/themes/codemismatch/javascripts/custom.js:147-167 | The title is written exactly for the pages that show the placeholder section |
| Navigation.Site.Navigate | source/themes/codemismatch/javascripts/custom.js:128-176 | Records the page, pushes `#page` when asked, shows exactly its sections, highlights its link if any, and sets the placeholder title |
| Navigation.Site.NavigateWithWave | source/themes/codemismatch/javascripts/custom.js:128-182 | Navigation plus the guarded wave set-up, which runs only on home |
| Navigation.Site.LoadFromHash | themes/codemismatch/javascripts/custom.js:64-66 | Initial load: the fragment's page, or home if none, shown with its highlight and title, without a history entry |
| Navigation.Site.LoadFromHashWithWave | source/themes/codemismatch/javascripts/custom.js:97-99 | The same initial load, and on home the first run of the guarded wave set-up |
| Navigation.Site.LoadMain | themes/codemismatch/javascripts/main.js:75-101 | As written: `#home` is pushed before the hash is read, so every load ends on home with one history entry, whatever the URL named |
| Navigation.Site.LoadMainIntended | themes/codemismatch/javascripts/main.js:97-101 | As intended: the page the URL names (home if none) is shown and pushed as the one new history entry, and the URL names it afterwards |
| Navigation.MainDeepLink | themes/codemismatch/javascripts/main.js:75-101 | A visit to `#contact` ends on home as written and on contact as intended |
| Navigation.Site.Popstate | themes/codemismatch/javascripts/main.js:91-95 | An entry naming a page is shown, with its highlight and title, without pushing; anything else changes nothing |
| Navigation.Site.PopstateWithWave | source/themes/codemismatch/javascripts/custom.js:120-124 | The same through the wave-running `navigateTo`: the set-up starts only when the entry is home and it never ran |
| Theming.DarkOf | themes/codemismatch/javascripts/main.js:361-364 | `main.js` uses its own dark schedule; the `custom.js` copies share the other |
| Theming.CustomCopiesAgree | themes/codemismatch/javascripts/custom.js:208-229 | The two `custom.js` copies generate identical palettes; `main.js` does not |
| Theming.ThemeNamed | source/themes/codemismatch/javascripts/custom.js:199-201 | A name selects a theme exactly when some theme carries it |
| Theming.ThemeNameRoundTrip | source/themes/codemismatch/javascripts/custom.js:44-81 | Each theme is found by its own name |
| Theming.DefaultsAreHex | source/themes/codemismatch/javascripts/custom.js:315-328 | Every default colour a reset applies is a well-formed `#RRGGBB` string |
| Theming.SourceResetMirrorsMain | source/themes/codemismatch/javascripts/custom.js:315-328 | The reset colours match `main.js`'s theme table except for paper's brand |
| Theming.ThemeResetConstant | themes/codemismatch/javascripts/custom.js:251-254 | The reduced copy resets to one fixed pair whatever the theme, and it differs from azure's |
| Theming.InitialColorsAreResetColors | themes/codemismatch/javascripts/main.js:7-11 | The initial colours equal a reset of the initial theme except in `main.js` |
| Theming.HiddenControls | source/themes/codemismatch/javascripts/custom.js:222-241 | Every theme hides exactly two of the three control groups |
| Theming.VisibleControl | source/themes/codemismatch/javascripts/custom.js:222-241 | Paper shows the faders, void the knobs, and azure the sliders |
| Theming.LayoutsDiffer | source/themes/codemismatch/javascripts/custom.js:222-241 | Different themes hide different groups |
| Theming.PrefixesExclusive | source/themes/codemismatch/javascripts/custom.js:301-312 | No name can start with both `--brand-` and `--ambient-` |
| Theming.VariablesNamed | source/themes/codemismatch/javascripts/custom.js:204-207 | Every variable a theme writes is one of the known theme variables |
| Theming.PalettesDisjoint | source/themes/codemismatch/javascripts/custom.js:301-312 | The brand and ambient palettes write disjoint keys |
| Theming.VariableNamesDisjoint | source/themes/codemismatch/javascripts/custom.js:204-207 | No theme variable is a palette key |
| Theming.VariablesDisjoint | source/themes/codemismatch/javascripts/custom.js:204-207 | A theme's variables and either palette never overwrite each other |
| Theming.LaterOverlayKeeps | source/themes/codemismatch/javascripts/custom.js:301-312 | A later palette over disjoint keys keeps the earlier palette's entries |
| Theming.MarkButtons | source/themes/codemismatch/javascripts/custom.js:209-220 | Exactly the selected theme's button is active |
| Theming.ThemeState.UpdateBrandColor | source/themes/codemismatch/javascripts/custom.js:295-303 | Records the brand colour and overlays its palette on the style; nothing else changes |
| Theming.ThemeState.UpdateAmbientColor | source/themes/codemismatch/javascripts/custom.js:305-313 | Records the ambient colour and overlays its palette on the style; nothing else changes |
| Theming.ThemeState.AdoptColors | themes/codemismatch/javascripts/main.js:285-303 | Adopts both colours and overlays the brand then the ambient palette |
| Theming.ThemeState.SetTheme | source/themes/codemismatch/javascripts/custom.js:199-242 | The theme and its button become current and its variables are written; `main.js` also adopts the theme's colours and palettes; the main `custom.js` switches the control layout |
| Theming.ThemeState.ResetColors | source/themes/codemismatch/javascripts/custom.js:315-328 | Adopts the script's reset pair for the current theme and writes both palettes |
| Theming.ThemeState.Startup | source/themes/codemismatch/javascripts/custom.js:90-95 | After start-up the current theme's button is active, the colours are its reset pair, the source tree's script hides the theme's controls, and the style is the old one overlaid with the theme's variables, then (in `main.js`) the theme's palettes, then the reset palettes; every variable and every reset palette entry is in the final style |
| Theming.ThemeGlyphs | source/themes/codemismatch/javascripts/custom.js:658-665 | Only the void theme is dark; it draws from the light gradient at base opacity 0.9, the light themes from the dark gradient at 0.6 |
| Chat.SanitizeChar | source/themes/codemismatch/javascripts/custom.js:779 | For one character the three replacements act as a character-wise escape |
| Chat.EscapeEachConcat | source/themes/codemismatch/javascripts/custom.js:779 | The character-wise escape distributes over concatenation |
| Chat.SanitizeIsCharwise | source/themes/codemismatch/javascripts/custom.js:779 | The chained replacements equal escaping each character on its own |
| Chat.EscapeEachShape | source/themes/codemismatch/javascripts/custom.js:779 | The escaped text has no newline, its only `<` begin `<br>`, and there is one per input newline |
| Chat.SanitizeShape | themes/codemismatch/javascripts/custom.js:329 | The displayed text contains no markup other than line breaks, one per newline |
| Chat.AmpersandNotEscaped | source/themes/codemismatch/javascripts/custom.js:779 | `&` is not escaped, so `<` and a literal `&lt;` display alike |
| Chat.MarkupFreeAgrees | themes/codemismatch/javascripts/main.js:123 | Without `<` or `>` the `main.js` text and the escaped text coincide |
| Chat.MainKeepsMarkup | themes/codemismatch/javascripts/main.js:117-124 | `main.js` passes markup through where the `custom.js` scripts escape it |
| Chat.Render | source/themes/codemismatch/javascripts/custom.js:795-800 | One displayed entry per message, with its role and its escaped text |
| Chat.RenderSnoc | source/themes/codemismatch/javascripts/custom.js:795-800 | Rendering a log with one more message appends that message's rendering |
| Chat.Forwarded | themes/codemismatch/javascripts/main.js:181 | `slice(0, -1)` forwards all but the last entry |
| Chat.History | themes/codemismatch/javascripts/main.js:153 | The history is the log's roles and texts, in order |
| Chat.OracleRequest | themes/codemismatch/javascripts/main.js:167-189 | No request without a key; otherwise it carries the prior history and the new message |
| Chat.OracleResponse | themes/codemismatch/javascripts/main.js:167-197 | Never empty; the missing-key text without a key; the service's text when it answers with some, the "signal unstable" text for an empty answer, and the logic-gate text on failure |
| Chat.ShippedKeyNeverCalls | themes/codemismatch/javascripts/main.js:4 | With the shipped empty key no request is made and the reply is the missing-key text |
| Chat.ForwardedIsPriorLog | themes/codemismatch/javascripts/main.js:153-181 | The forwarded history is exactly the log before the new user message |
| Chat.Reply | source/themes/codemismatch/javascripts/custom.js:817 | Replies are never empty; the offline scripts always give the fixed offline text |
| Chat.ChatLog.Type | source/themes/codemismatch/javascripts/custom.js:806 | Typing changes only the draft |
| Chat.ChatLog.Send | source/themes/codemismatch/javascripts/custom.js:802-826 | A blank draft sends nothing; otherwise the trimmed user message and then the reply are appended, the draft is cleared, and the display stays the log's rendering |
| Chat.ChatLog.Exchange | source/themes/codemismatch/javascripts/custom.js:809-819 | Appends the question and the answer in order, clears the draft, and keeps the display in step |
| Chat.ChatLog.Push | source/themes/codemismatch/javascripts/custom.js:809-810 | Appends one message and keeps the display equal to the log's rendering |
| Chat.LoggedTextTrimmed | source/themes/codemismatch/javascripts/custom.js:806-809 | The logged user text neither starts nor ends with white space, and the draft is white space, that text, white space |

## Left out

- DOM and canvas side effects: `classList`, `innerHTML`, `style.setProperty` (modelled as a map update), `scrollTo`, the body's gradient class, icon creation, colour-picker and label updates. Only the state they encode is modelled.
- `toggleMobileMenu`, `toggleMobileProducts` and `toggleThemePanel`: pure DOM class toggles with no state of their own.
- `Math.sin`, `Math.cos`, `Math.pow` and `Math.atan2`: they are left uninterpreted (function parameters or a raw angle), because the verifier has no trigonometry.
- `updateKnobVisual`'s SVG arc path, plus the `toFixed` labels and `toRgba` string formatting: only the numbers behind them (colour index, alpha) are modelled.
- The lines-mode gradient colours and stroke calls: only the sample points are modelled.
- `parseFloat`'s grammar: its result is an `Option<real>` parameter, with `None` for `NaN`.
- Range-input and colour-picker parsing of raw DOM values is not modelled.
- Strings.Lower: folds ASCII letters only. `toLowerCase` also maps non-ASCII letters, for example U+212A KELVIN SIGN to `k` (so "SPI\u212AY" fires the sharp preset in a browser but not in the model), and it can change the length (U+0130 becomes two characters).
- WaveParams.ClampWaveParam: for names inherited from `Object.prototype` (such as `toString`), `WAVE_LIMITS[key]` is truthy and the script returns `undefined` or `NaN`; the model passes the value through. No caller passes such a name.
- Navigation.Site.Popstate, Navigation.Site.PopstateWithWave: the browser's own update of the URL when it fires `popstate` is not modelled; the handlers leave `location` alone.
- Knob.KnobGesture.MouseDown, Knob.KnobGesture.TouchStart, Knob.KnobGesture.Move: the knob's stored `value`, which the angle computation reads, is assumed equal to the engine's parameter. The scripts keep the two in step through the UI sync.
- Scheduling (`requestAnimationFrame`, `requestIdleCallback`, `setTimeout`, `async`/`await`): each callback is one method call. This means no interleavings.
- The Gemini client and network: the service's outcome is a parameter of `Chat.OracleResponse`.
- The `catch` branch of `main.js` `handleChatSend` is not modelled. It is unreachable, because `generateOracleResponse` catches internally.
- `Date.now()`: message ids take the two clock readings as parameters.
- IEEE-754 rounding: reals are exact, so `.5` ties and the floating-point results of `mixColors` can differ from the browser's in the last bit.
- `querySelector` with page ids that are not valid selectors is not modelled. Neither are missing DOM elements, which throw in `main.js` and in the reduced `custom.js` (`resize` reads `canvas.parentElement` unguarded; `Renderer.WaveCanvas.ResizeUnguarded` assumes the parent exists).
- Theme keys other than void, azure and paper are not modelled; `setTheme` throws on them, and the model's `ThemeKey` datatype excludes them.
- `source/javascripts/custom.js`, the congen and draftr themes, the Ruby scripts and `config.rb` are not part of this model.

## Findings

| source | as written | input that shows it | evidently intended | confidence | as-written member | corrected member |
|---|---|---|---|---|---|---|
| source/themes/codemismatch/javascripts/custom.js:157 | `sectionMap[pageId] \|\| []` then `.forEach` finds inherited `Object.prototype` members, which are truthy and lack `forEach` | URL hash `#toString` (also `#constructor`) | an id outside the table shows no section | not executed | Navigation.SectionLookupAsWritten | Navigation.SectionMap |
| themes/codemismatch/javascripts/main.js:75 | `navigateTo('home')` pushes `#home` before line 98 reads `location.hash`, so the hash read is always `home` | a visit to `/#contact` | the page the URL names is shown and pushed once | not executed | Navigation.Site.LoadMain | Navigation.Site.LoadMainIntended |
