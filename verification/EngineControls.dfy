/** The engine's readers of the control file: core/layer_toggles.hpp, core/operator_controls.hpp
    and core/adaptive_controls.hpp, all on top of the flat reader. `body` is the file's text, or
    nothing when it cannot be opened; `wild` is what an undefined conversion to an int gives. */
module EngineControls {
  import opened Text
  import opened FlatReader

  // ----- Layers ----------------------------------------------------------------------------

  datatype LayerToggles = LayerToggles(
    adaptive: bool, council: bool, dnnAdvisory: bool, whale: bool,
    councilReal: bool, dnnAdvisoryReal: bool, whaleReal: bool)

  const ALL_ON := LayerToggles(true, true, true, true, true, true, true)

  predicate Missing(body: Option<string>) { body.None? || body.value == "" }

  predicate SourceIsReal(body: string, key: string) {
    GetString(body, key, "real") != "mock"
  }

  function ReadLayerToggles(body: Option<string>): LayerToggles {
    if Missing(body) then ALL_ON
    else
      var t := body.value;
      LayerToggles(
        GetBool(t, "layer_adaptive_enabled", true), GetBool(t, "layer_council_enabled", true),
        GetBool(t, "layer_dnn_advisory_enabled", true), GetBool(t, "layer_whale_enabled", true),
        SourceIsReal(t, "council_source"), SourceIsReal(t, "dnn_advisory_source"), SourceIsReal(t, "whale_source"))
  }

  // ----- Operator controls -------------------------------------------------------------------

  datatype OperatorControls = OperatorControls(
    primary: bool, secondary: bool, tertiary: bool, dailyBudget: int, cooldown: int, pins: map<string, string>)

  const UNSET := OperatorControls(true, true, true, -1, -1, map[])

  predicate IsRegimeLabel(r: string) { r == "trending" || r == "range_bound" || r == "neutral" }

  /** The pins of the whitelisted symbols whose flat key carries a valid regime. */
  function PinsIn(body: string, whitelist: seq<string>): map<string, string> {
    if whitelist == [] then map[]
    else
      var n := |whitelist| - 1;
      var regime := GetString(body, "regime_pin:" + whitelist[n], "");
      var rest := PinsIn(body, whitelist[..n]);
      if IsRegimeLabel(regime) then rest[whitelist[n] := regime] else rest
  }

  /** The numbers a 32-bit int holds once truncated. */
  predicate FitsInt(d: Double) { d.Real? && -2147483649.0 < d.x < 2147483648.0 }

  /** `static_cast<int>`: undefined for what an int does not hold, so `wild` says what comes out then. */
  function ToInt(d: Double, wild: Double -> int): int { if FitsInt(d) then Truncated(d.x) else wild(d) }

  predicate AtLeastZero(d: Double) {
    match d
    case Real(x) => x >= 0.0
    case Infinite(negative) => !negative
    case NotANumber => false
  }

  function BudgetIn(b: Double, wild: Double -> int): int {
    if AtLeastZero(b) then
      var n := ToInt(b, wild);
      if n < 1 then 1 else if n > 500 then 500 else n
    else -1
  }

  function CooldownIn(c: Double, wild: Double -> int): int {
    if AtLeastZero(c) then
      var n := ToInt(c, wild);
      if n > 1440 then 1440 else n
    else -1
  }

  function ReadOperatorControls(body: Option<string>, whitelist: seq<string>, wild: Double -> int): OperatorControls {
    if Missing(body) then UNSET
    else
      var t := body.value;
      OperatorControls(
        GetBool(t, "llm_primary_enabled", true), GetBool(t, "llm_secondary_enabled", true),
        GetBool(t, "llm_tertiary_enabled", true),
        BudgetIn(GetNumber(t, "rt_council_daily_budget", Real(-1.0)), wild),
        CooldownIn(GetNumber(t, "rt_per_symbol_cooldown_minutes", Real(-1.0)), wild),
        PinsIn(t, whitelist))
  }

  method LoadPins(t: string, whitelist: seq<string>) returns (pins: map<string, string>)
    ensures pins == PinsIn(t, whitelist)
  {
    hide GetString;
    pins := map[];
    for i := 0 to |whitelist|
      invariant pins == PinsIn(t, whitelist[..i])
    {
      var regime := GetString(t, "regime_pin:" + whitelist[i], "");
      assert whitelist[..i + 1][..i] == whitelist[..i];
      if IsRegimeLabel(regime) {
        pins := pins[whitelist[i] := regime];
      }
    }
    assert whitelist[..|whitelist|] == whitelist;
  }

  /** The reader as it runs: overwrite the defaults field by field, then loop over the whitelist. */
  method LoadOperatorControls(body: Option<string>, whitelist: seq<string>, wild: Double -> int)
    returns (oc: OperatorControls)
    ensures oc == ReadOperatorControls(body, whitelist, wild)
  {
    hide GetBool, GetNumber, PinsIn, ToInt;
    oc := UNSET;
    if Missing(body) {
      return;
    }
    var t := body.value;
    oc := oc.(primary := GetBool(t, "llm_primary_enabled", true));
    oc := oc.(secondary := GetBool(t, "llm_secondary_enabled", true));
    oc := oc.(tertiary := GetBool(t, "llm_tertiary_enabled", true));
    var b := GetNumber(t, "rt_council_daily_budget", Real(-1.0));
    if AtLeastZero(b) {
      var n := ToInt(b, wild);
      oc := oc.(dailyBudget := if n < 1 then 1 else if n > 500 then 500 else n);
    }
    var c := GetNumber(t, "rt_per_symbol_cooldown_minutes", Real(-1.0));
    if AtLeastZero(c) {
      var n := ToInt(c, wild);
      oc := oc.(cooldown := if n > 1440 then 1440 else n);
    }
    var pins := LoadPins(t, whitelist);
    oc := oc.(pins := pins);
  }

  // ----- Adaptive controls ---------------------------------------------------------------------

  datatype AdaptiveRuntime = AdaptiveRuntime(
    feed: bool, shaping: bool, react: bool, maxAgeSeconds: int, trimFraction: Double)

  /** `d <= 0.0 || d > 1.0`: every comparison with a not-a-number is false. */
  predicate OutsideUnit(d: Double) {
    match d
    case Real(x) => x <= 0.0 || x > 1.0
    case Infinite(_) => true
    case NotANumber => false
  }

  function Revalidated(a: AdaptiveRuntime, cfg: AdaptiveRuntime): AdaptiveRuntime {
    AdaptiveRuntime(a.feed, a.feed && a.shaping, a.feed && a.react,
      if a.maxAgeSeconds <= 0 then cfg.maxAgeSeconds else a.maxAgeSeconds,
      if OutsideUnit(a.trimFraction) then cfg.trimFraction else a.trimFraction)
  }

  function ReadAdaptiveControls(body: Option<string>, cfg: AdaptiveRuntime, wild: Double -> int): AdaptiveRuntime {
    if Missing(body) then cfg
    else
      var t := body.value;
      Revalidated(AdaptiveRuntime(
        GetBool(t, "adaptive_news_feed_enabled", cfg.feed),
        GetBool(t, "adaptive_watchlist_shaping_enabled", cfg.shaping),
        GetBool(t, "adaptive_react_defensive_enabled", cfg.react),
        ToInt(GetNumber(t, "action_max_age_seconds", Real(cfg.maxAgeSeconds as real)), wild),
        GetNumber(t, "defensive_trim_fraction", cfg.trimFraction)), cfg)
  }

  /** The reader as it runs: seed from the configuration, let the file override, then correct. */
  method LoadAdaptiveControls(body: Option<string>, cfg: AdaptiveRuntime, wild: Double -> int)
    returns (a: AdaptiveRuntime)
    ensures a == ReadAdaptiveControls(body, cfg, wild)
  {
    hide GetBool, GetNumber, ToInt;
    a := cfg;
    if Missing(body) {
      return;
    }
    var t := body.value;
    a := a.(feed := GetBool(t, "adaptive_news_feed_enabled", a.feed));
    a := a.(shaping := GetBool(t, "adaptive_watchlist_shaping_enabled", a.shaping));
    a := a.(react := GetBool(t, "adaptive_react_defensive_enabled", a.react));
    a := a.(maxAgeSeconds := ToInt(GetNumber(t, "action_max_age_seconds", Real(a.maxAgeSeconds as real)), wild));
    a := a.(trimFraction := GetNumber(t, "defensive_trim_fraction", a.trimFraction));
    if a.maxAgeSeconds <= 0 {
      a := a.(maxAgeSeconds := cfg.maxAgeSeconds);
    }
    if OutsideUnit(a.trimFraction) {
      a := a.(trimFraction := cfg.trimFraction);
    }
    if !a.feed {
      a := a.(shaping := false, react := false);
    }
  }

  predicate ValidTrim(d: Double) { d.Real? && 0.0 < d.x <= 1.0 }

  /** Whatever text the file holds, a valid configuration keeps the engine's values valid: an action
      can go stale and nothing downstream runs without the feed. A trim closes part of a position
      unless the file says not-a-number, which no correction catches. */
  lemma AnyFileReadsValid(body: Option<string>, cfg: AdaptiveRuntime, wild: Double -> int)
    requires cfg.maxAgeSeconds > 0 && ValidTrim(cfg.trimFraction) && (cfg.feed || (!cfg.shaping && !cfg.react))
    ensures var a := ReadAdaptiveControls(body, cfg, wild);
            && a.maxAgeSeconds > 0 && (a.feed || (!a.shaping && !a.react))
            && (ValidTrim(a.trimFraction)
                <==> Missing(body) || !GetNumber(body.value, "defensive_trim_fraction", cfg.trimFraction).NotANumber?)
  {
    hide GetBool, GetNumber;
  }

  /** Whatever text the file holds, only whitelisted symbols are pinned, to valid labels. */
  lemma {:induction false} AnyFilePinsTheWhitelist(body: string, whitelist: seq<string>)
    ensures var pins := PinsIn(body, whitelist);
            forall s :: s in pins ==> s in whitelist && IsRegimeLabel(pins[s])
  {
    hide GetString, IsRegimeLabel;
    if whitelist != [] {
      var n := |whitelist| - 1;
      var pins, rest := PinsIn(body, whitelist), PinsIn(body, whitelist[..n]);
      AnyFilePinsTheWhitelist(body, whitelist[..n]);
      assert whitelist == whitelist[..n] + [whitelist[n]];
      forall s | s in pins
        ensures s in whitelist && IsRegimeLabel(pins[s])
      {
        var regime := GetString(body, "regime_pin:" + whitelist[n], "");
        assert pins == if IsRegimeLabel(regime) then rest[whitelist[n] := regime] else rest;
        if s in rest && pins[s] == rest[s] {
          assert s in whitelist[..n];
        } else {
          assert s == whitelist[n] && pins[s] == regime;
        }
      }
    }
  }

  predicate CooldownFits(c: Double) { !AtLeastZero(c) || FitsInt(c) }

  /** Whatever text the file holds, the budget is unset or in its bounds, the cooldown is at most a
      day, and the pins are valid; the cooldown is unset or not negative unless its number fits no int
      and the undefined conversion gives less than -1. */
  lemma AnyFileReadsInBounds(body: Option<string>, whitelist: seq<string>, wild: Double -> int)
    ensures var oc := ReadOperatorControls(body, whitelist, wild);
            && (oc.dailyBudget == -1 || 1 <= oc.dailyBudget <= 500) && oc.cooldown <= 1440
            && (-1 <= oc.cooldown <==>
                  || Missing(body)
                  || var c := GetNumber(body.value, "rt_per_symbol_cooldown_minutes", Real(-1.0));
                     CooldownFits(c) || -1 <= wild(c))
            && forall s :: s in oc.pins ==> s in whitelist && IsRegimeLabel(oc.pins[s])
  {
    hide GetBool, GetNumber, PinsIn, IsRegimeLabel;
    if !Missing(body) { AnyFilePinsTheWhitelist(body.value, whitelist); }
  }

  /** The file's cooldown is unset or in its bounds, whatever an undefined conversion gives, exactly when
      its number is below zero, not a number, or fits an int: there is no lower clamp. */
  lemma CooldownHoldsIffItFits(body: Option<string>, whitelist: seq<string>)
    ensures (forall wild: Double -> int :: -1 <= ReadOperatorControls(body, whitelist, wild).cooldown <= 1440)
       <==> Missing(body) || CooldownFits(GetNumber(body.value, "rt_per_symbol_cooldown_minutes", Real(-1.0)))
  {
    hide GetBool, GetNumber, PinsIn;
    if !Missing(body) {
      var c := GetNumber(body.value, "rt_per_symbol_cooldown_minutes", Real(-1.0));
      forall wild: Double -> int
        ensures ReadOperatorControls(body, whitelist, wild).cooldown == CooldownIn(c, wild)
      {}
      if !CooldownFits(c) {
        assert ReadOperatorControls(body, whitelist, _ => -2).cooldown == -2;
      }
    }
  }
}
