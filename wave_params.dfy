/** The wave animation's four tuning parameters: the `WAVE_LIMITS` table,
    `clampWaveParam`, `setParam` writing into the shared parameter record,
    and the keyword presets of `parseWavePrompt` / `applyWavePrompt`. */
module WaveParams {
  import opened Wrappers
  import opened Strings

  datatype ParamKey = Speed | Freq | Amp | Steepness

  const AllKeys: seq<ParamKey> := [Speed, Freq, Amp, Steepness]

  /** The property name of a key in `WAVE_LIMITS` and in the parameter record. */
  function Name(k: ParamKey): string {
    match k
    case Speed => "speed"
    case Freq => "freq"
    case Amp => "amp"
    case Steepness => "steepness"
  }

  /** `WAVE_LIMITS[name]`: `None` for a name the table does not have. */
  function KeyNamed(name: string): (k: Option<ParamKey>)
    ensures k.Some? ==> Name(k.value) == name
    ensures k.None? ==> forall j :: Name(j) != name
  {
    if name == "speed" then Some(Speed)
    else if name == "freq" then Some(Freq)
    else if name == "amp" then Some(Amp)
    else if name == "steepness" then Some(Steepness)
    else None
  }

  lemma KeyNamedName(k: ParamKey)
    ensures KeyNamed(Name(k)) == Some(k)
  {}

  datatype Limits = Limits(min: real, max: real)

  /** `WAVE_LIMITS`. */
  function LimitsOf(k: ParamKey): (l: Limits)
    ensures l.min < l.max
  {
    match k
    case Speed => Limits(0.0, 5.0)
    case Freq => Limits(0.1, 3.0)
    case Amp => Limits(0.0, 3.0)
    case Steepness => Limits(0.1, 10.0)
  }

  /** `state.wave.params`. */
  datatype Params = Params(speed: real, freq: real, amp: real, steepness: real)

  function Get(p: Params, k: ParamKey): real {
    match k
    case Speed => p.speed
    case Freq => p.freq
    case Amp => p.amp
    case Steepness => p.steepness
  }

  /** `p[k] = v`: the one parameter changes, the others keep their values. */
  function With(p: Params, k: ParamKey, v: real): (q: Params)
    ensures Get(q, k) == v
    ensures forall j :: j != k ==> Get(q, j) == Get(p, j)
  {
    match k
    case Speed => p.(speed := v)
    case Freq => p.(freq := v)
    case Amp => p.(amp := v)
    case Steepness => p.(steepness := v)
  }

  /** `WAVE_DEFAULTS`. */
  const Defaults := Params(0.896, 0.198, 1.356, 1.4)

  predicate InLimits(p: Params) {
    forall k :: LimitsOf(k).min <= Get(p, k) <= LimitsOf(k).max
  }

  lemma DefaultsInLimits()
    ensures InLimits(Defaults)
  {
    forall k ensures LimitsOf(k).min <= Get(Defaults, k) <= LimitsOf(k).max {
      match k
      case Speed =>
      case Freq =>
      case Amp =>
      case Steepness =>
    }
  }

  // ---------------------------------------------------------------------
  // clampWaveParam

  /** `clampWaveParam` for a key the table knows. The value is what
      `parseFloat` made of the input, `None` standing for `NaN`. */
  function Clamp(k: ParamKey, v: Option<real>): (r: real)
    ensures LimitsOf(k).min <= r <= LimitsOf(k).max
    ensures v.None? ==> r == LimitsOf(k).min
    ensures v.Some? && LimitsOf(k).min <= v.value <= LimitsOf(k).max ==> r == v.value
    ensures v.Some? && v.value < LimitsOf(k).min ==> r == LimitsOf(k).min
    ensures v.Some? && v.value > LimitsOf(k).max ==> r == LimitsOf(k).max
  {
    var l := LimitsOf(k);
    match v
    case None => l.min
    case Some(x) => if x < l.min then l.min else if x > l.max then l.max else x
  }

  /** Clamping an already clamped value changes nothing. */
  lemma ClampIdempotent(k: ParamKey, v: Option<real>)
    ensures Clamp(k, Some(Clamp(k, v))) == Clamp(k, v)
  {}

  /** Clamping is monotone in the value. */
  lemma ClampMonotone(k: ParamKey, x: real, y: real)
    requires x <= y
    ensures Clamp(k, Some(x)) <= Clamp(k, Some(y))
  {}

  /** `clampWaveParam(key, value)` with the key given by name: an unknown
      name hands the value back untouched. */
  function ClampWaveParam(name: string, v: Option<real>): (r: Option<real>)
    ensures KeyNamed(name).None? ==> r == v
    ensures KeyNamed(name).Some? ==> r.Some? && r.value == Clamp(KeyNamed(name).value, v)
  {
    match KeyNamed(name)
    case None => v
    case Some(k) => Some(Clamp(k, v))
  }

  // ---------------------------------------------------------------------
  // parseWavePrompt

  /** One `applyPreset(keywords, params)` line: the keywords, and the
      parameter overrides in the order the object literal lists them. */
  datatype Rule = Rule(keywords: seq<string>, overrides: seq<(ParamKey, real)>)

  /** The ten presets, in the order they are applied. */
  const PromptRules: seq<Rule> := [
    Rule(["storm", "thunder", "chaos", "angry", "wild"],
         [(Speed, 2.4), (Freq, 1.5), (Amp, 2.1), (Steepness, 4.2)]),
    Rule(["calm", "gentle", "serene", "smooth", "quiet"],
         [(Speed, 0.35), (Freq, 0.35), (Amp, 0.6), (Steepness, 0.9)]),
    Rule(["fast", "rapid", "hurry", "speed"], [(Speed, 1.8)]),
    Rule(["slow", "relax", "drift", "lag"], [(Speed, 0.45)]),
    Rule(["choppy", "tight", "busy", "jitter"], [(Freq, 1.6), (Steepness, 3.5)]),
    Rule(["long", "rolling", "wide", "swell"], [(Freq, 0.3)]),
    Rule(["high", "tall", "big", "huge"], [(Amp, 2.0)]),
    Rule(["low", "flat", "shallow", "small"], [(Amp, 0.7)]),
    Rule(["sharp", "spiky", "pointy"], [(Steepness, 4.5)]),
    Rule(["round", "soft", "smooth"], [(Steepness, 0.8)])
  ]

  /** `keywords.some((word) => prompt.includes(word))`. */
  predicate Fires(prompt: string, r: Rule) {
    exists i | 0 <= i < |r.keywords| :: Contains(prompt, r.keywords[i])
  }

  /** The value the first `n` overrides give `k`, the last one winning. */
  function OverrideFor(os: seq<(ParamKey, real)>, k: ParamKey, n: nat): Option<real>
    requires n <= |os|
    decreases n
  {
    if n == 0 then None
    else if os[n - 1].0 == k then Some(os[n - 1].1)
    else OverrideFor(os, k, n - 1)
  }

  /** `Object.entries(params).forEach(...)` over the first `n` overrides. */
  function ApplyOverrides(p: Params, os: seq<(ParamKey, real)>, n: nat): Params
    requires n <= |os|
    decreases n
  {
    if n == 0 then p
    else
      var q := ApplyOverrides(p, os, n - 1);
      With(q, os[n - 1].0, Clamp(os[n - 1].0, Some(os[n - 1].1)))
  }

  /** The first `n` presets applied in order to `p`. */
  function ApplyRules(prompt: string, rules: seq<Rule>, p: Params, n: nat): Params
    requires n <= |rules|
    decreases n
  {
    if n == 0 then p
    else
      var q := ApplyRules(prompt, rules, p, n - 1);
      if Fires(prompt, rules[n - 1]) then ApplyOverrides(q, rules[n - 1].overrides, |rules[n - 1].overrides|)
      else q
  }

  /** Some of the first `n` presets fires. */
  predicate MatchedUpTo(prompt: string, rules: seq<Rule>, n: nat)
    requires n <= |rules|
  {
    exists i | 0 <= i < n :: Fires(prompt, rules[i])
  }

  /** The value that the last firing preset among the first `n` assigns to
      `k`, clamped; `None` when no firing preset names `k`. */
  function LastOverride(prompt: string, rules: seq<Rule>, k: ParamKey, n: nat): Option<real>
    requires n <= |rules|
    decreases n
  {
    if n == 0 then None
    else
      var r := rules[n - 1];
      var o := OverrideFor(r.overrides, k, |r.overrides|);
      if Fires(prompt, r) && o.Some? then Some(Clamp(k, o)) else LastOverride(prompt, rules, k, n - 1)
  }

  /** What `parseWavePrompt(text)` returns when the current parameters are
      `current`. */
  function ParsePrompt(text: string, current: Params): (Params, bool) {
    var prompt := Lower(text);
    (ApplyRules(prompt, PromptRules, current, |PromptRules|), MatchedUpTo(prompt, PromptRules, |PromptRules|))
  }

  /** `parseWavePrompt`: lower-case the text, then run every preset over a
      copy of the current parameters. */
  method ParseWavePrompt(text: string, current: Params) returns (parsed: Params, matched: bool)
    ensures (parsed, matched) == ParsePrompt(text, current)
  {
    var prompt := Lower(text);
    parsed := current;
    matched := false;
    for i := 0 to |PromptRules|
      invariant parsed == ApplyRules(prompt, PromptRules, current, i)
      invariant matched <==> MatchedUpTo(prompt, PromptRules, i)
    {
      var rule := PromptRules[i];
      if Fires(prompt, rule) {
        ghost var before := parsed;
        for j := 0 to |rule.overrides|
          invariant parsed == ApplyOverrides(before, rule.overrides, j)
        {
          var (k, v) := rule.overrides[j];
          parsed := With(parsed, k, Clamp(k, Some(v)));
        }
        matched := true;
      }
    }
  }

  // ---------------------------------------------------------------------
  // Properties of the presets

  lemma {:induction false} ApplyOverridesValue(p: Params, os: seq<(ParamKey, real)>, k: ParamKey, n: nat)
    requires n <= |os|
    ensures Get(ApplyOverrides(p, os, n), k)
      == match OverrideFor(os, k, n) case None => Get(p, k) case Some(v) => Clamp(k, Some(v))
    decreases n
  {
    if n > 0 {
      ApplyOverridesValue(p, os, k, n - 1);
    }
  }

  /** Later presets win: each parameter ends with the value the last firing
      preset naming it assigns, and keeps its current value when none does. */
  lemma {:induction false} ApplyRulesValue(prompt: string, rules: seq<Rule>, p: Params, k: ParamKey, n: nat)
    requires n <= |rules|
    ensures Get(ApplyRules(prompt, rules, p, n), k) == LastOverride(prompt, rules, k, n).GetOr(Get(p, k))
    decreases n
  {
    if n > 0 {
      ApplyRulesValue(prompt, rules, p, k, n - 1);
      var r := rules[n - 1];
      if Fires(prompt, r) {
        ApplyOverridesValue(ApplyRules(prompt, rules, p, n - 1), r.overrides, k, |r.overrides|);
      }
    }
  }

  /** A prompt without any keyword matches nothing and leaves every
      parameter as it was. */
  lemma NoKeywordNoChange(text: string, current: Params)
    requires forall i :: 0 <= i < |PromptRules| ==> !Fires(Lower(text), PromptRules[i])
    ensures ParsePrompt(text, current) == (current, false)
  {
    var prompt := Lower(text);
    forall n | 0 <= n <= |PromptRules| ensures ApplyRules(prompt, PromptRules, current, n) == current {
      NoFireNoChange(prompt, current, n);
    }
  }

  lemma {:induction false} NoFireNoChange(prompt: string, current: Params, n: nat)
    requires n <= |PromptRules|
    requires forall i :: 0 <= i < |PromptRules| ==> !Fires(prompt, PromptRules[i])
    ensures ApplyRules(prompt, PromptRules, current, n) == current
    decreases n
  {
    if n > 0 {
      NoFireNoChange(prompt, current, n - 1);
    }
  }

  /** The result says whether anything matched: exactly when some preset
      fires. */
  lemma MatchedIffSomeFires(text: string, current: Params)
    ensures ParsePrompt(text, current).1 <==> exists i :: 0 <= i < |PromptRules| && Fires(Lower(text), PromptRules[i])
  {}

  /** A parameter that no firing preset names keeps its current value. */
  lemma UnnamedKeepsValue(text: string, current: Params, k: ParamKey)
    requires LastOverride(Lower(text), PromptRules, k, |PromptRules|) == None
    ensures Get(ParsePrompt(text, current).0, k) == Get(current, k)
  {
    ApplyRulesValue(Lower(text), PromptRules, current, k, |PromptRules|);
  }

  lemma {:induction false} LastOverrideInLimits(prompt: string, rules: seq<Rule>, k: ParamKey, n: nat)
    requires n <= |rules|
    ensures LastOverride(prompt, rules, k, n).Some? ==>
      LimitsOf(k).min <= LastOverride(prompt, rules, k, n).value <= LimitsOf(k).max
    decreases n
  {
    if n > 0 {
      LastOverrideInLimits(prompt, rules, k, n - 1);
    }
  }

  /** Parameters within the limits stay within the limits. */
  lemma ParsePromptInLimits(text: string, current: Params)
    requires InLimits(current)
    ensures InLimits(ParsePrompt(text, current).0)
  {
    forall k ensures LimitsOf(k).min <= Get(ParsePrompt(text, current).0, k) <= LimitsOf(k).max {
      ApplyRulesValue(Lower(text), PromptRules, current, k, |PromptRules|);
      LastOverrideInLimits(Lower(text), PromptRules, k, |PromptRules|);
    }
  }

  lemma {:induction false} LastFiringWins(prompt: string, rules: seq<Rule>, k: ParamKey, i: nat, n: nat)
    requires i < n <= |rules|
    requires Fires(prompt, rules[i])
    requires OverrideFor(rules[i].overrides, k, |rules[i].overrides|).Some?
    requires forall j :: i < j < n ==> OverrideFor(rules[j].overrides, k, |rules[j].overrides|).None?
    ensures LastOverride(prompt, rules, k, n) == Some(Clamp(k, OverrideFor(rules[i].overrides, k, |rules[i].overrides|)))
    decreases n
  {
    if n - 1 > i {
      LastFiringWins(prompt, rules, k, i, n - 1);
    }
  }

  lemma ContainsAt(s: string, w: string, i: nat)
    requires OccursAt(s, w, i)
    ensures Contains(s, w)
  {}

  /** "smooth" is a keyword of both the calm and the round preset; the round
      preset comes last, so any prompt mentioning it ends with steepness 0.8. */
  lemma SmoothEndsRound(text: string, current: Params)
    requires Contains(Lower(text), "smooth")
    ensures ParsePrompt(text, current).1
    ensures Get(ParsePrompt(text, current).0, Steepness) == 0.8
    ensures Fires(Lower(text), PromptRules[1]) && Fires(Lower(text), PromptRules[9])
  {
    var prompt := Lower(text);
    assert PromptRules[9].keywords[2] == "smooth";
    assert PromptRules[1].keywords[3] == "smooth";
    assert Fires(prompt, PromptRules[9]);
    ApplyRulesValue(prompt, PromptRules, current, Steepness, |PromptRules|);
  }

  /** "slow" contains "low": asking for slow waves also flattens them, and no
      later preset touches speed or amplitude again. */
  lemma SlowAlsoFlattens(text: string, current: Params)
    requires Contains(Lower(text), "slow")
    ensures Get(ParsePrompt(text, current).0, Speed) == 0.45
    ensures Get(ParsePrompt(text, current).0, Amp) == 0.7
  {
    var prompt := Lower(text);
    var i: nat :| i <= |prompt| && OccursAt(prompt, "slow", i);
    assert OccursAt("slow", "low", 1);
    OccursWithin(prompt, "slow", "low", i, 1);
    ContainsAt(prompt, "low", i + 1);
    assert PromptRules[3].keywords[0] == "slow";
    assert PromptRules[7].keywords[0] == "low";
    assert Fires(prompt, PromptRules[3]);
    assert Fires(prompt, PromptRules[7]);
    forall j | 3 < j < |PromptRules|
      ensures OverrideFor(PromptRules[j].overrides, Speed, |PromptRules[j].overrides|).None?
    {
      assert j in {4, 5, 6, 7, 8, 9};
    }
    forall j | 7 < j < |PromptRules|
      ensures OverrideFor(PromptRules[j].overrides, Amp, |PromptRules[j].overrides|).None?
    {
      assert j in {8, 9};
    }
    LastFiringWins(prompt, PromptRules, Speed, 3, |PromptRules|);
    LastFiringWins(prompt, PromptRules, Amp, 7, |PromptRules|);
    ApplyRulesValue(prompt, PromptRules, current, Speed, |PromptRules|);
    ApplyRulesValue(prompt, PromptRules, current, Amp, |PromptRules|);
  }

  // ---------------------------------------------------------------------
  // The shared parameter record

  /** The record `state.wave.params`, which the animation reads as
      `baseParams` and the controls write through `setParam`. */
  class WaveEngine {
    var params: Params

    predicate Valid()
      reads this
    {
      InLimits(params)
    }

    constructor ()
      ensures params == Defaults
      ensures Valid()
    {
      params := Defaults;
      DefaultsInLimits();
    }

    /** `setParam(key, value)`: store the clamped value. */
    method SetParam(k: ParamKey, v: Option<real>)
      requires Valid()
      modifies this
      ensures params == With(old(params), k, Clamp(k, v))
      ensures Valid()
    {
      params := With(params, k, Clamp(k, v));
    }

    /** `applyWavePrompt` with the prompt box holding `text`. Returns the
        button feedback, `None` when the trimmed prompt is empty and nothing
        happens. When something matched, `updateWaveControlsFromParams`
        writes each parameter, clamped, into its first slider and fires an
        `input` event. Only the keys in `wired` reach `setParam`: those whose
        slider exists and already carries the listener `setupWaveControls`
        attaches; the others keep their values. */
    method ApplyWavePrompt(text: string, wired: set<ParamKey>) returns (feedback: Option<string>)
      requires Valid()
      modifies this
      ensures Valid()
      ensures feedback.None? <==> Trim(text) == ""
      ensures feedback.None? ==> params == old(params)
      ensures feedback.Some? ==> var (parsed, matched) := ParsePrompt(Trim(text), old(params));
        && feedback == Some(if matched then "Parameters Optimized" else "No Keywords Detected")
        && params == (if matched then Adopt(old(params), parsed, wired) else old(params))
    {
      var prompt := Trim(text);
      if prompt == "" {
        return None;
      }
      var parsed, matched := ParseWavePrompt(prompt, params);
      ParsePromptInLimits(prompt, params);
      if matched {
        PushControls(parsed, wired);
      }
      feedback := Some(if matched then "Parameters Optimized" else "No Keywords Detected");
    }

    /** `updateWaveControlsFromParams(parsed)`: each wired key's slider
        takes the clamped value and its listener stores it. */
    method PushControls(parsed: Params, wired: set<ParamKey>)
      requires Valid() && InLimits(parsed)
      modifies this
      ensures Valid() && params == Adopt(old(params), parsed, wired)
    {
      ghost var current := params;
      for i := 0 to |AllKeys|
        invariant Valid()
        invariant params == PushKeys(current, parsed, wired, i)
      {
        var k := AllKeys[i];
        if k in wired {
          var value := Clamp(k, Some(Get(parsed, k)));
          SetParam(k, Some(value));
        }
      }
      PushAllKeys(current, parsed, wired);
    }
  }

  /** The parameters after a push reaches exactly the keys in `wired`. */
  function Adopt(p: Params, q: Params, wired: set<ParamKey>): (r: Params)
    ensures forall k :: Get(r, k) == if k in wired then Get(q, k) else Get(p, k)
  {
    Params(
      if Speed in wired then q.speed else p.speed,
      if Freq in wired then q.freq else p.freq,
      if Amp in wired then q.amp else p.amp,
      if Steepness in wired then q.steepness else p.steepness)
  }

  /** `p` after the first `n` of `AllKeys` are pushed from `q`: a wired key
      takes its clamped value, an unwired one is skipped. */
  function PushKeys(p: Params, q: Params, wired: set<ParamKey>, n: nat): Params
    requires n <= |AllKeys|
    decreases n
  {
    if n == 0 then p
    else
      var k := AllKeys[n - 1];
      var r := PushKeys(p, q, wired, n - 1);
      if k in wired then With(r, k, Clamp(k, Some(Clamp(k, Some(Get(q, k)))))) else r
  }

  lemma {:induction false} PushKeysValue(p: Params, q: Params, wired: set<ParamKey>, n: nat)
    requires InLimits(q) && n <= |AllKeys|
    ensures forall j :: 0 <= j < |AllKeys| ==>
      Get(PushKeys(p, q, wired, n), AllKeys[j])
        == if j < n && AllKeys[j] in wired then Get(q, AllKeys[j]) else Get(p, AllKeys[j])
    decreases n
  {
    if n > 0 {
      PushKeysValue(p, q, wired, n - 1);
    }
  }

  /** Pushing every key of parameters within the limits yields `q` on the
      wired keys and `p` on the others. */
  lemma PushAllKeys(p: Params, q: Params, wired: set<ParamKey>)
    requires InLimits(q)
    ensures PushKeys(p, q, wired, |AllKeys|) == Adopt(p, q, wired)
  {
    PushKeysValue(p, q, wired, |AllKeys|);
    var r := PushKeys(p, q, wired, |AllKeys|);
    assert Get(r, AllKeys[0]) == Get(Adopt(p, q, wired), AllKeys[0]);
    assert Get(r, AllKeys[1]) == Get(Adopt(p, q, wired), AllKeys[1]);
    assert Get(r, AllKeys[2]) == Get(Adopt(p, q, wired), AllKeys[2]);
    assert Get(r, AllKeys[3]) == Get(Adopt(p, q, wired), AllKeys[3]);
  }

  /** With every slider wired the push reproduces the parsed parameters. */
  lemma AllWiredAdopts(p: Params, q: Params)
    ensures Adopt(p, q, {Speed, Freq, Amp, Steepness}) == q
  {}

  /** Before the controls are set up nothing is wired and nothing changes. */
  lemma NoneWiredKeeps(p: Params, q: Params)
    ensures Adopt(p, q, {}) == p
  {}
}
