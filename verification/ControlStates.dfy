/** What `read_controls` makes of a saved object, key by key over the whole state, and what it leaves. */
module ControlStates {
  import opened Text
  import opened Controls
  import opened ControlRules
  import opened ControlValues

  predicate IsObject(saved: Dict, key: string) { key in saved && saved[key].VDict? }

  /** A nested object of flags: each of these keys it carries is its truth value. */
  predicate Toggles(saved: Dict, block: string, keys: set<string>, prior: map<string, bool>, m: map<string, bool>) {
    && OnlyAt(keys, prior, m)
    && if IsObject(saved, block) then forall k :: k in keys ==> k in m && FlagRead(saved[block].entries, prior, k, m[k])
       else m == prior
  }

  /** The value under a key when it is one of the allowed names, else the prior one. */
  predicate Choice(saved: Dict, key: string, allowed: set<string>, prior: string, r: string) {
    if key in saved && saved[key].VStr? && saved[key].s in allowed then r == saved[key].s else r == prior
  }

  predicate TopFlag(saved: Dict, key: string, prior: bool, r: bool) {
    if key in saved then r == !Falsy(saved[key]) else r == prior
  }

  predicate SourcesRead(saved: Dict, prior: map<string, string>, m: map<string, string>) {
    && OnlyAt({"council", "dnn_advisory", "whale"}, prior, m)
    && if IsObject(saved, "layer_sources") then
         forall k :: k in {"council", "dnn_advisory", "whale"} ==>
           k in m && k in prior && Choice(saved["layer_sources"].entries, k, {"mock", "real"}, prior[k], m[k])
       else m == prior
  }

  /** Pins of whitelisted symbols to known regimes replace the prior ones. */
  ghost predicate PinsRead(saved: Dict, whitelist: set<string>, prior: map<string, string>, m: map<string, string>) {
    forall s ::
      if IsObject(saved, "regime_pins") && s in saved["regime_pins"].entries && s in whitelist
         && saved["regime_pins"].entries[s] in {VStr("trending"), VStr("range_bound"), VStr("neutral")}
      then s in m && saved["regime_pins"].entries[s] == VStr(m[s])
      else (s in m <==> s in prior) && (s in m ==> m[s] == prior[s])
  }

  ghost predicate BlocksRead(p: Parse, saved: Dict, prior: Parts, x: Parts) {
    && (if IsObject(saved, "discovery") then
          var d := saved["discovery"].entries;
          FunnelNumbers(p, d, prior.discovery, x.discovery) && FunnelFlags(d, prior.discovery, x.discovery)
        else x.discovery == prior.discovery)
    && (if IsObject(saved, "adaptive_realtime") then
          var d := saved["adaptive_realtime"].entries;
          PollNumbers(p, d, prior.adaptive, x.adaptive) && PollFlags(d, prior.adaptive, x.adaptive)
        else x.adaptive == prior.adaptive)
    && (if IsObject(saved, "budget") then BudgetNumbers(p, saved["budget"].entries, prior.budget, x.budget)
        else x.budget == prior.budget)
  }

  predicate TogglesRead(saved: Dict, models: set<string>, prior: Parts, x: Parts) {
    && Toggles(saved, "layers", {"adaptive", "council", "dnn_advisory", "whale"}, prior.layers, x.layers)
    && Toggles(saved, "models", models, prior.models, x.models)
    && Toggles(saved, "sleeves", {"quant_core", "research_satellite"}, prior.sleeves, x.sleeves)
    && Toggles(saved, "whale_feeds", {"sec_edgar_enabled", "whale_live_enabled", "whale_alert_enabled"},
               prior.whaleFeeds, x.whaleFeeds)
    && SourcesRead(saved, prior.sources, x.sources)
  }

  ghost predicate TopRead(saved: Dict, whitelist: set<string>, prior: State, st: State) {
    && Choice(saved, "feed_mode", {"alpaca_paper", "synthetic_regimes", "replay", "flat_random_walk"},
              prior.feedMode, st.feedMode)
    && Choice(saved, "clock_mode", {"real", "simulated"}, prior.clockMode, st.clockMode)
    && Choice(saved, "strategy_profile", {"swing", "active_quant"}, prior.profile, st.profile)
    && TopFlag(saved, "gate_enabled", prior.gate, st.gate) && TopFlag(saved, "auto_promote", prior.autoPromote, st.autoPromote)
    && TopFlag(saved, "rl_enabled", prior.rl, st.rl) && TopFlag(saved, "rebalance_requested", prior.rebalance, st.rebalance)
    && st.promote == (if "pending_promote" in saved then saved["pending_promote"] else prior.promote)
    && st.rollback == (if "pending_rollback" in saved then saved["pending_rollback"] else prior.rollback)
    && PinsRead(saved, whitelist, prior.pins, st.pins)
  }

  /** The state a saved object is read as, given the defaults. */
  ghost predicate ReadAs(p: Parse, saved: Dict, defaults: State, models: seq<string>, whitelist: set<string>, st: State) {
    && BlocksRead(p, saved, PartsOf(defaults), PartsOf(st))
    && TogglesRead(saved, Named(models), PartsOf(defaults), PartsOf(st))
    && TopRead(saved, whitelist, defaults, st)
  }

  lemma TogglesAreRead(names: seq<string>, keys: set<string>, saved: Dict, block: string, prior: map<string, bool>)
    requires HasKeys(names, prior) && keys == Named(names)
    ensures var r := MergeNested(FlagFields(names), saved, block, prior);
            r.Returned? && Toggles(saved, block, keys, prior, r.value)
  {
    FlagsAreTotal(names);
    if IsObject(saved, block) {
      var d := saved[block].entries;
      MergeTotal(FlagFields(names), v => Some(Truthy(v)), d, prior);
      var m := prior + Setting(FlagFields(names), v => Some(Truthy(v)), d);
      forall k | k in keys
        ensures k in m && FlagRead(d, prior, k, m[k])
      {
        if k in d { TruthIs(d[k]); }
      }
    }
  }

  function Named(names: seq<string>): set<string> { set i | 0 <= i < |names| :: names[i] }

  lemma LayerNames()
    ensures Named(LAYERS) == {"adaptive", "council", "dnn_advisory", "whale"}
  {
    var t := LAYERS;
    assert t[0] in Named(t) && t[1] in Named(t) && t[2] in Named(t) && t[3] in Named(t);
  }

  lemma SleeveNames()
    ensures Named(SLEEVES) == {"quant_core", "research_satellite"}
  {
    var t := SLEEVES;
    assert t[0] in Named(t) && t[1] in Named(t);
  }

  lemma WhaleFeedNames()
    ensures Named(WHALE_FEEDS) == {"sec_edgar_enabled", "whale_live_enabled", "whale_alert_enabled"}
  {
    var t := WHALE_FEEDS;
    assert t[0] in Named(t) && t[1] in Named(t) && t[2] in Named(t);
  }

  lemma SourcesAreRead(saved: Dict, prior: map<string, string>)
    requires HasKeys(SOURCE_LAYERS, prior)
    ensures var r := MergeNested(SourceFields(SOURCE_LAYERS), saved, "layer_sources", prior);
            r.Returned? && SourcesRead(saved, prior, r.value)
  {
    hide HasKeys, Choice, SourceFields, ValidText, HasField;
    var fields := SourceFields(SOURCE_LAYERS);
    SourcesAreTotal(SOURCE_LAYERS);
    SourceNames();
    if IsObject(saved, "layer_sources") {
      var d := saved["layer_sources"].entries;
      MergeTotal(fields, v => ValidText(v, IsSource), d, prior);
      assert Setting(fields, v => ValidText(v, IsSource), d)
          == map k | k in d && k in {"council", "dnn_advisory", "whale"} && ValidText(d[k], IsSource).Some?
                 :: ValidText(d[k], IsSource).value;
      var m := prior + Setting(fields, v => ValidText(v, IsSource), d);
      SourcesTaken(d, prior, m);
    }
  }

  lemma SourceNames()
    ensures forall k :: HasField(SourceFields(SOURCE_LAYERS), k) <==> k in {"council", "dnn_advisory", "whale"}
    ensures forall m: map<string, string> :: HasKeys(SOURCE_LAYERS, m) ==> {"council", "dnn_advisory", "whale"} <= m.Keys
  {
    var fields, t := SourceFields(SOURCE_LAYERS), SOURCE_LAYERS;
    assert t[0] == "council" && t[1] == "dnn_advisory" && t[2] == "whale";
    assert fields[0].key == "council" && fields[1].key == "dnn_advisory" && fields[2].key == "whale";
  }

  lemma SourcesTaken(d: Dict, prior: map<string, string>, m: map<string, string>)
    requires {"council", "dnn_advisory", "whale"} <= prior.Keys
    requires m == prior + map k | k in d && k in {"council", "dnn_advisory", "whale"} && ValidText(d[k], IsSource).Some?
                              :: ValidText(d[k], IsSource).value
    ensures OnlyAt({"council", "dnn_advisory", "whale"}, prior, m)
    ensures forall k :: k in {"council", "dnn_advisory", "whale"} ==>
              k in m && k in prior && Choice(d, k, {"mock", "real"}, prior[k], m[k])
  {}

  lemma BlocksAreRead(p: Parse, saved: Dict, prior: Parts, x: Parts)
    requires DiscoveryBounded(prior.discovery) && AdaptiveBounded(prior.adaptive) && BudgetBounded(prior.budget)
    requires ReadDiscovery(p, saved, prior.discovery) == Returned(x.discovery)
    requires ReadAdaptive(p, saved, prior.adaptive) == Returned(x.adaptive)
    requires ReadBudget(p, saved, prior.budget) == Returned(x.budget)
    ensures BlocksRead(p, saved, prior, x)
  {
    hide MergeBlock, Narrowing, DownstreamOff, FunnelNumbers, FunnelFlags, PollNumbers, PollFlags, BudgetNumbers, Bounded;
    if IsObject(saved, "discovery") {
      var d := saved["discovery"].entries;
      var merged := MergeBlock(p, DISCOVERY_FLAGS, DISCOVERY_BOUNDS, DISCOVERY_REALS, d, prior.discovery).value;
      FunnelComesTo(p, DISCOVERY_FLAGS, d, prior.discovery, merged);
      FlagsStay(d, prior.discovery, merged, x.discovery);
    }
    if IsObject(saved, "adaptive_realtime") {
      var d := saved["adaptive_realtime"].entries;
      var merged := MergeBlock(p, ADAPTIVE_FLAGS, ADAPTIVE_BOUNDS, ADAPTIVE_REALS, d, prior.adaptive).value;
      PollComesTo(p, ADAPTIVE_FLAGS, d, prior.adaptive, merged);
      NumbersStay(p, d, prior.adaptive, merged);
    }
    if IsObject(saved, "budget") {
      BudgetComesTo(p, saved["budget"].entries, prior.budget, x.budget);
    }
  }

  lemma FlagsStay(d: Dict, prior: Block, a: Block, b: Block)
    requires FunnelFlags(d, prior, a) && b.flags == a.flags
    ensures FunnelFlags(d, prior, b)
  {}

  lemma NumbersStay(p: Parse, d: Dict, prior: Block, b: Block)
    requires PollNumbers(p, d, prior, b)
    ensures PollNumbers(p, d, prior, DownstreamOff(b))
  {
    hide IntRead, RealRead, DownstreamOff, OnlyAt;
    NumbersAreLeft(b);
  }

  lemma TopIsRead(parts: Parts, saved: Dict, defaults: State, whitelist: set<string>)
    ensures TopRead(saved, whitelist, defaults, Assemble(parts, saved, defaults, whitelist))
  {
    hide PinsRead, MergePins, Choice, TopFlag, ValidOr, FlagOr, IsFeedMode, IsClockMode, IsProfile;
    PinsAreRead(saved, whitelist, defaults.pins);
    ModesAreNamed();
    ChoiceIsRead(saved, "feed_mode", IsFeedMode, {"alpaca_paper", "synthetic_regimes", "replay", "flat_random_walk"},
                 defaults.feedMode);
    ChoiceIsRead(saved, "clock_mode", IsClockMode, {"real", "simulated"}, defaults.clockMode);
    ChoiceIsRead(saved, "strategy_profile", IsProfile, {"swing", "active_quant"}, defaults.profile);
    TopFlagIsRead(saved, "gate_enabled", defaults.gate);
    TopFlagIsRead(saved, "auto_promote", defaults.autoPromote);
    TopFlagIsRead(saved, "rl_enabled", defaults.rl);
    TopFlagIsRead(saved, "rebalance_requested", defaults.rebalance);
  }

  lemma ModesAreNamed()
    ensures forall s :: IsFeedMode(s) <==> s in {"alpaca_paper", "synthetic_regimes", "replay", "flat_random_walk"}
    ensures forall s :: IsClockMode(s) <==> s in {"real", "simulated"}
    ensures forall s :: IsProfile(s) <==> s in {"swing", "active_quant"}
  {}

  lemma ChoiceIsRead(saved: Dict, key: string, valid: string -> bool, allowed: set<string>, prior: string)
    requires forall s :: valid(s) <==> s in allowed
    ensures Choice(saved, key, allowed, prior, ValidOr(saved, key, valid, prior))
  {}

  lemma TopFlagIsRead(saved: Dict, key: string, prior: bool)
    ensures TopFlag(saved, key, prior, FlagOr(saved, key, prior))
  {
    if key in saved { TruthIs(saved[key]); }
  }

  lemma PinsAreRead(saved: Dict, whitelist: set<string>, prior: map<string, string>)
    ensures PinsRead(saved, whitelist, prior, MergePins(saved, whitelist, prior))
  {}

  /** A state that is read is the one the saved object's values come to, field by field. */
  lemma ReadControlsReadsAs(p: Parse, saved: Dict, defaults: State, models: seq<string>, whitelist: set<string>)
    requires StateOk(defaults, models, whitelist)
    ensures var r := ReadControls(p, saved, defaults, models, whitelist);
            r.Returned? ==> ReadAs(p, saved, defaults, models, whitelist, r.value)
  {
    hide ReadDiscovery, ReadAdaptive, ReadBudget, MergeNested, BlocksRead, Toggles, SourcesRead, TopRead, Assemble,
         TopOk, DiscoveryBounded, AdaptiveBounded, BudgetBounded, Shaped, HasKeys, FlagFields, SourceFields;
    var prior := PartsOf(defaults);
    var r := ReadControls(p, saved, defaults, models, whitelist);
    if r.Returned? {
      var x := ReadParts(p, saved, prior, models).value;
      BlocksAreRead(p, saved, prior, x);
      LayerNames();
      SleeveNames();
      WhaleFeedNames();
      TogglesAreRead(LAYERS, {"adaptive", "council", "dnn_advisory", "whale"}, saved, "layers", prior.layers);
      TogglesAreRead(models, Named(models), saved, "models", prior.models);
      TogglesAreRead(SLEEVES, {"quant_core", "research_satellite"}, saved, "sleeves", prior.sleeves);
      TogglesAreRead(WHALE_FEEDS, {"sec_edgar_enabled", "whale_live_enabled", "whale_alert_enabled"}, saved,
                     "whale_feeds", prior.whaleFeeds);
      SourcesAreRead(saved, prior.sources);
      TopIsRead(x, saved, defaults, whitelist);
      PartsStay(x, saved, defaults, whitelist);
    }
  }

  lemma PartsStay(parts: Parts, saved: Dict, defaults: State, whitelist: set<string>)
    ensures PartsOf(Assemble(parts, saved, defaults, whitelist)) == parts
  {}
}
