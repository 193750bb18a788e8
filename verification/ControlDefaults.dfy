/** The defaults of the two bounded blocks (`_discovery_defaults` and `_adaptive_defaults`): what the
    configuration gives, else a fixed fallback, clamped. */
module ControlDefaults {
  import opened Controls
  import opened ControlValues

  const DISCOVERY_FALLBACK := Block(
    map["discovery_enabled" := false, "long_term_sleeve_enabled" := false],
    map["discovery_daily_council_budget" := 12, "max_finalists" := 12, "max_survivors" := 5,
        "max_council_calls_per_pass" := 5, "crypto_interval_minutes" := 60, "equity_interval_minutes" := 60],
    map["stage_a_whale_weight" := 0.15])

  const ADAPTIVE_FALLBACK := Block(
    map["adaptive_news_feed_enabled" := false, "adaptive_watchlist_shaping_enabled" := false,
        "adaptive_react_defensive_enabled" := false],
    map["poll_interval_seconds" := 60, "max_symbols_per_poll" := 30, "news_lookback_minutes" := 15,
        "adaptive_daily_llm_budget" := 20, "max_interpretations_per_poll" := 3, "action_max_age_seconds" := 300],
    map["materiality_min_sentiment" := 0.55, "action_min_severity" := 0.60,
        "interpretation_min_relevance" := 0.40, "defensive_trim_fraction" := 0.50,
        "adaptive_est_cost_per_call_usd" := 0.02])

  function Given<T>(configured: map<string, T>, fallback: map<string, T>): map<string, T> {
    map k | k in fallback :: if k in configured then configured[k] else fallback[k]
  }

  /** The configured block with the missing values filled in: what the engine validates. */
  function Filled(configured: Block, fallback: Block): Block {
    Block(Given(configured.flags, fallback.flags), Given(configured.ints, fallback.ints),
          Given(configured.reals, fallback.reals))
  }

  function ClampInts(bounds: seq<IntBound>, m: map<string, int>): map<string, int> {
    if bounds == [] then m
    else
      var b := bounds[0];
      var clamped := if b.key in m then m[b.key := ClampInt(m[b.key], b.lo, b.hi)] else m;
      ClampInts(bounds[1..], clamped)
  }

  function ClampReals(bounds: seq<RealBound>, m: map<string, real>): map<string, real> {
    if bounds == [] then m
    else
      var b := bounds[0];
      var clamped := if b.key in m then m[b.key := ClampReal(m[b.key], b.lo, b.hi)] else m;
      ClampReals(bounds[1..], clamped)
  }

  function Clamped(b: Block, ints: seq<IntBound>, reals: seq<RealBound>): Block {
    b.(ints := ClampInts(ints, b.ints), reals := ClampReals(reals, b.reals))
  }

  const COST_BOUND := RealBound("adaptive_est_cost_per_call_usd", 0.0, 1.0)

  function DiscoveryDefaults(configured: Block): Block {
    Clamped(Filled(configured, DISCOVERY_FALLBACK), DISCOVERY_BOUNDS, DISCOVERY_REALS)
  }

  function AdaptiveDefaults(configured: Block): Block {
    Clamped(Filled(configured, ADAPTIVE_FALLBACK), ADAPTIVE_BOUNDS, ADAPTIVE_REALS + [COST_BOUND])
  }

  lemma {:induction false} ClampIntsAt(bounds: seq<IntBound>, m: map<string, int>)
    requires forall i, j :: 0 <= i < j < |bounds| ==> bounds[i].key != bounds[j].key
    ensures var r := ClampInts(bounds, m);
            && r.Keys == m.Keys
            && (forall i :: 0 <= i < |bounds| && bounds[i].key in m ==>
                  r[bounds[i].key] == ClampInt(m[bounds[i].key], bounds[i].lo, bounds[i].hi))
            && (forall k :: k in m && (forall i :: 0 <= i < |bounds| ==> bounds[i].key != k) ==> r[k] == m[k])
  {
    if bounds != [] {
      var b, tail := bounds[0], bounds[1..];
      assert forall i :: 0 <= i < |tail| ==> tail[i] == bounds[i + 1];
      assert forall i :: 1 <= i < |bounds| ==> bounds[i] == tail[i - 1];
      ClampIntsAt(tail, if b.key in m then m[b.key := ClampInt(m[b.key], b.lo, b.hi)] else m);
    }
  }

  lemma {:induction false} ClampRealsAt(bounds: seq<RealBound>, m: map<string, real>)
    requires forall i, j :: 0 <= i < j < |bounds| ==> bounds[i].key != bounds[j].key
    ensures var r := ClampReals(bounds, m);
            && r.Keys == m.Keys
            && (forall i :: 0 <= i < |bounds| && bounds[i].key in m ==>
                  r[bounds[i].key] == ClampReal(m[bounds[i].key], bounds[i].lo, bounds[i].hi))
            && (forall k :: k in m && (forall i :: 0 <= i < |bounds| ==> bounds[i].key != k) ==> r[k] == m[k])
  {
    if bounds != [] {
      var b, tail := bounds[0], bounds[1..];
      assert forall i :: 0 <= i < |tail| ==> tail[i] == bounds[i + 1];
      assert forall i :: 1 <= i < |bounds| ==> bounds[i] == tail[i - 1];
      ClampRealsAt(tail, if b.key in m then m[b.key := ClampReal(m[b.key], b.lo, b.hi)] else m);
    }
  }

  /** A table of bounds for the keys of a block: no key twice, none missing, no bound upside down. */
  predicate Tabulates(ints: seq<IntBound>, reals: seq<RealBound>, b: Block) {
    && (forall i, j :: 0 <= i < j < |ints| ==> ints[i].key != ints[j].key)
    && (forall i, j :: 0 <= i < j < |reals| ==> reals[i].key != reals[j].key)
    && (forall i :: 0 <= i < |ints| ==> ints[i].key in b.ints && ints[i].lo <= ints[i].hi)
    && (forall i :: 0 <= i < |reals| ==> reals[i].key in b.reals && reals[i].lo <= reals[i].hi)
  }

  lemma ClampedIsBounded(b: Block, flags: seq<string>, ints: seq<IntBound>, reals: seq<RealBound>)
    requires Tabulates(ints, reals, b) && forall i :: 0 <= i < |flags| ==> flags[i] in b.flags
    ensures Bounded(Clamped(b, ints, reals), flags, ints, reals)
  {
    hide ClampInts, ClampReals;
    ClampIntsAt(ints, b.ints);
    ClampRealsAt(reals, b.reals);
  }

  lemma FunnelTable()
    ensures Tabulates(DISCOVERY_BOUNDS, DISCOVERY_REALS, DISCOVERY_FALLBACK)
    ensures forall i :: 0 <= i < |DISCOVERY_FLAGS| ==> DISCOVERY_FLAGS[i] in DISCOVERY_FALLBACK.flags
  {}

  lemma PollTable()
    ensures Tabulates(ADAPTIVE_BOUNDS, [], ADAPTIVE_FALLBACK)
    ensures forall i :: 0 <= i < |ADAPTIVE_FLAGS| ==> ADAPTIVE_FLAGS[i] in ADAPTIVE_FALLBACK.flags
  {}

  lemma ThresholdTable()
    ensures Tabulates([], ADAPTIVE_REALS + [COST_BOUND], ADAPTIVE_FALLBACK)
  {}

  lemma FilledHas(configured: Block, fallback: Block, ints: seq<IntBound>, reals: seq<RealBound>)
    requires Tabulates(ints, reals, fallback)
    ensures Tabulates(ints, reals, Filled(configured, fallback))
    ensures Filled(configured, fallback).flags.Keys == fallback.flags.Keys
  {}

  lemma FunnelIsBounded(configured: Block)
    ensures DiscoveryBounded(DiscoveryDefaults(configured))
  {
    hide Clamped, Filled, Bounded, Tabulates;
    FunnelTable();
    FilledHas(configured, DISCOVERY_FALLBACK, DISCOVERY_BOUNDS, DISCOVERY_REALS);
    ClampedIsBounded(Filled(configured, DISCOVERY_FALLBACK), DISCOVERY_FLAGS, DISCOVERY_BOUNDS, DISCOVERY_REALS);
  }

  lemma WithoutTheLast(b: Block, flags: seq<string>, ints: seq<IntBound>, reals: seq<RealBound>, last: RealBound)
    requires Bounded(b, flags, ints, reals + [last])
    ensures Bounded(b, flags, ints, reals)
  {
    assert forall i :: 0 <= i < |reals| ==> (reals + [last])[i] == reals[i];
  }

  lemma TablesMeet(ints: seq<IntBound>, reals: seq<RealBound>, b: Block)
    requires Tabulates(ints, [], b) && Tabulates([], reals, b)
    ensures Tabulates(ints, reals, b)
  {}

  lemma PollIsBounded(configured: Block)
    ensures AdaptiveBounded(AdaptiveDefaults(configured))
  {
    hide Clamped, Filled, Bounded, Tabulates;
    PollTable();
    ThresholdTable();
    TablesMeet(ADAPTIVE_BOUNDS, ADAPTIVE_REALS + [COST_BOUND], ADAPTIVE_FALLBACK);
    FilledHas(configured, ADAPTIVE_FALLBACK, ADAPTIVE_BOUNDS, ADAPTIVE_REALS + [COST_BOUND]);
    ClampedIsBounded(Filled(configured, ADAPTIVE_FALLBACK), ADAPTIVE_FLAGS, ADAPTIVE_BOUNDS, ADAPTIVE_REALS + [COST_BOUND]);
    WithoutTheLast(AdaptiveDefaults(configured), ADAPTIVE_FLAGS, ADAPTIVE_BOUNDS, ADAPTIVE_REALS, COST_BOUND);
  }

  /** Clamping keeps the validator's order: what narrows in the configuration narrows in the defaults. */
  lemma ClampKeepsNarrowing(calls: int, survivors: int, finalists: int)
    requires calls <= survivors <= finalists
    ensures ClampInt(calls, 0, 20) <= ClampInt(survivors, 1, 20) <= ClampInt(finalists, 1, 50)
  {}

  lemma ClampedNarrows(b: Block)
    requires Narrows(b) && Tabulates(DISCOVERY_BOUNDS, DISCOVERY_REALS, b)
    ensures Narrows(Clamped(b, DISCOVERY_BOUNDS, DISCOVERY_REALS))
  {
    hide ClampInts, ClampReals;
    var t := DISCOVERY_BOUNDS;
    assert t[1] == IntBound("max_finalists", 1, 50) && t[2] == IntBound("max_survivors", 1, 20)
        && t[3] == IntBound("max_council_calls_per_pass", 0, 20);
    ClampIntsAt(t, b.ints);
    ClampKeepsNarrowing(b.ints[t[3].key], b.ints[t[2].key], b.ints[t[1].key]);
  }

  lemma FlagsStay(configured: Block)
    ensures FeedIsMaster(AdaptiveDefaults(configured)) <==> FeedIsMaster(configured)
  {
    hide ClampInts, ClampReals;
  }

  /** Any configuration gives defaults in bounds, and one that passes the validator's narrowing and feed
      rules, the numbers it leaves out filled in, gives defaults that obey them. */
  lemma DefaultsObeyTheRules(discovery: Block, adaptive: Block)
    ensures DiscoveryBounded(DiscoveryDefaults(discovery)) && AdaptiveBounded(AdaptiveDefaults(adaptive))
    ensures Narrows(Filled(discovery, DISCOVERY_FALLBACK)) ==> Narrows(DiscoveryDefaults(discovery))
    ensures FeedIsMaster(AdaptiveDefaults(adaptive)) <==> FeedIsMaster(adaptive)
  {
    hide Clamped, Filled, Tabulates, Narrows, DiscoveryBounded, AdaptiveBounded, FeedIsMaster, AdaptiveDefaults;
    FunnelIsBounded(discovery);
    PollIsBounded(adaptive);
    FunnelTable();
    FilledHas(discovery, DISCOVERY_FALLBACK, DISCOVERY_BOUNDS, DISCOVERY_REALS);
    if Narrows(Filled(discovery, DISCOVERY_FALLBACK)) { ClampedNarrows(Filled(discovery, DISCOVERY_FALLBACK)); }
    FlagsStay(adaptive);
  }

  // ----- Each default ----------------------------------------------------------------------------------

  /** The default is the allowed number nearest to the configured one, or to the fallback. */
  ghost predicate IntDefault(configured: Block, b: Block, key: string, fallback: int, lo: int, hi: int) {
    key in b.ints && NearestInt(lo, hi, if key in configured.ints then configured.ints[key] else fallback, b.ints[key])
  }

  ghost predicate RealDefault(configured: Block, b: Block, key: string, fallback: real, lo: real, hi: real) {
    && key in b.reals
    && NearestReal(lo, hi, if key in configured.reals then configured.reals[key] else fallback, b.reals[key])
  }

  predicate FlagDefault(configured: Block, b: Block, key: string) {
    key in b.flags && b.flags[key] == (key in configured.flags && configured.flags[key])
  }

  ghost predicate FunnelDefaults(configured: Block, b: Block) {
    && FlagDefault(configured, b, "discovery_enabled") && FlagDefault(configured, b, "long_term_sleeve_enabled")
    && IntDefault(configured, b, "discovery_daily_council_budget", 12, 0, 100)
    && IntDefault(configured, b, "max_finalists", 12, 1, 50)
    && IntDefault(configured, b, "max_survivors", 5, 1, 20)
    && IntDefault(configured, b, "max_council_calls_per_pass", 5, 0, 20)
    && IntDefault(configured, b, "crypto_interval_minutes", 60, 15, 1440)
    && IntDefault(configured, b, "equity_interval_minutes", 60, 15, 1440)
    && RealDefault(configured, b, "stage_a_whale_weight", 0.15, 0.0, 1.0)
  }

  predicate PollFlagDefaults(configured: Block, b: Block) {
    && FlagDefault(configured, b, "adaptive_news_feed_enabled")
    && FlagDefault(configured, b, "adaptive_watchlist_shaping_enabled")
    && FlagDefault(configured, b, "adaptive_react_defensive_enabled")
  }

  ghost predicate PollDefaults(configured: Block, b: Block) {
    && IntDefault(configured, b, "poll_interval_seconds", 60, 15, 3600)
    && IntDefault(configured, b, "max_symbols_per_poll", 30, 1, 29)
    && IntDefault(configured, b, "news_lookback_minutes", 15, 1, 240)
    && IntDefault(configured, b, "adaptive_daily_llm_budget", 20, 0, 200)
    && IntDefault(configured, b, "max_interpretations_per_poll", 3, 0, 20)
    && IntDefault(configured, b, "action_max_age_seconds", 300, 30, 3600)
  }

  ghost predicate ThresholdDefaults(configured: Block, b: Block) {
    && RealDefault(configured, b, "materiality_min_sentiment", 0.55, 0.0, 1.0)
    && RealDefault(configured, b, "action_min_severity", 0.60, 0.0, 1.0)
    && RealDefault(configured, b, "interpretation_min_relevance", 0.40, 0.0, 1.0)
    && RealDefault(configured, b, "defensive_trim_fraction", 0.50, 0.01, 1.0)
    && RealDefault(configured, b, "adaptive_est_cost_per_call_usd", 0.02, 0.0, 1.0)
  }

  lemma NearestClamp(lo: int, hi: int, n: int)
    requires lo <= hi
    ensures NearestInt(lo, hi, n, ClampInt(n, lo, hi))
  {}

  lemma ClampedDefaults(configured: Block, fallback: Block, ints: seq<IntBound>, reals: seq<RealBound>)
    requires Tabulates(ints, reals, fallback)
    ensures var b := Clamped(Filled(configured, fallback), ints, reals);
            && b.flags == Given(configured.flags, fallback.flags)
            && (forall i :: 0 <= i < |ints| ==>
                  ints[i].key in fallback.ints
                  && IntDefault(configured, b, ints[i].key, fallback.ints[ints[i].key], ints[i].lo, ints[i].hi))
            && (forall i :: 0 <= i < |reals| ==>
                  reals[i].key in fallback.reals
                  && RealDefault(configured, b, reals[i].key, fallback.reals[reals[i].key], reals[i].lo, reals[i].hi))
  {
    hide ClampInts, ClampReals, NearestInt, NearestReal;
    var filled := Filled(configured, fallback);
    ClampIntsAt(ints, filled.ints);
    ClampRealsAt(reals, filled.reals);
    forall i | 0 <= i < |ints|
      ensures NearestInt(ints[i].lo, ints[i].hi, filled.ints[ints[i].key],
                         ClampInt(filled.ints[ints[i].key], ints[i].lo, ints[i].hi))
    {
      NearestClamp(ints[i].lo, ints[i].hi, filled.ints[ints[i].key]);
    }
    forall i | 0 <= i < |reals|
      ensures NearestReal(reals[i].lo, reals[i].hi, filled.reals[reals[i].key],
                          ClampReal(filled.reals[reals[i].key], reals[i].lo, reals[i].hi))
    {
      NearestFloat(reals[i].lo, reals[i].hi, filled.reals[reals[i].key]);
    }
  }

  /** A block that gives the funnel's fallbacks. */
  predicate FunnelFallbacks(f: Block) {
    && OffIn(f.flags, "discovery_enabled") && OffIn(f.flags, "long_term_sleeve_enabled")
    && Gives(f, "discovery_daily_council_budget", 12) && Gives(f, "max_finalists", 12) && Gives(f, "max_survivors", 5)
    && Gives(f, "max_council_calls_per_pass", 5) && Gives(f, "crypto_interval_minutes", 60)
    && Gives(f, "equity_interval_minutes", 60)
    && "stage_a_whale_weight" in f.reals && f.reals["stage_a_whale_weight"] == 0.15
  }

  predicate PollFallbacks(f: Block) {
    && Gives(f, "poll_interval_seconds", 60) && Gives(f, "max_symbols_per_poll", 30)
    && Gives(f, "news_lookback_minutes", 15) && Gives(f, "adaptive_daily_llm_budget", 20)
    && Gives(f, "max_interpretations_per_poll", 3) && Gives(f, "action_max_age_seconds", 300)
  }

  predicate Gives(f: Block, key: string, n: int) { key in f.ints && f.ints[key] == n }

  lemma FallbacksAre()
    ensures FunnelFallbacks(DISCOVERY_FALLBACK) && PollFallbacks(ADAPTIVE_FALLBACK)
  {}

  lemma FunnelDefaultsFrom(configured: Block, fallback: Block)
    requires FunnelFallbacks(fallback) && Tabulates(DISCOVERY_BOUNDS, DISCOVERY_REALS, fallback)
    ensures FunnelDefaults(configured, Clamped(Filled(configured, fallback), DISCOVERY_BOUNDS, DISCOVERY_REALS))
  {
    hide Clamped, IntDefault, RealDefault, FlagDefault, Tabulates, Given;
    ClampedDefaults(configured, fallback, DISCOVERY_BOUNDS, DISCOVERY_REALS);
    var b := Clamped(Filled(configured, fallback), DISCOVERY_BOUNDS, DISCOVERY_REALS);
    OffUnlessConfigured(configured, b, fallback.flags, "discovery_enabled");
    OffUnlessConfigured(configured, b, fallback.flags, "long_term_sleeve_enabled");
    var t := DISCOVERY_BOUNDS;
    assert t[0] == IntBound("discovery_daily_council_budget", 0, 100) && t[1] == IntBound("max_finalists", 1, 50);
    assert t[2] == IntBound("max_survivors", 1, 20) && t[3] == IntBound("max_council_calls_per_pass", 0, 20);
    assert t[4] == IntBound("crypto_interval_minutes", 15, 1440) && t[5] == IntBound("equity_interval_minutes", 15, 1440);
    assert DISCOVERY_REALS[0] == RealBound("stage_a_whale_weight", 0.0, 1.0);
  }

  lemma PollDefaultsFrom(configured: Block, fallback: Block)
    requires PollFallbacks(fallback) && Tabulates(ADAPTIVE_BOUNDS, ADAPTIVE_REALS + [COST_BOUND], fallback)
    ensures PollDefaults(configured, Clamped(Filled(configured, fallback), ADAPTIVE_BOUNDS, ADAPTIVE_REALS + [COST_BOUND]))
  {
    hide Clamped, IntDefault, RealDefault, Tabulates;
    ClampedDefaults(configured, fallback, ADAPTIVE_BOUNDS, ADAPTIVE_REALS + [COST_BOUND]);
    var t := ADAPTIVE_BOUNDS;
    assert t[0] == IntBound("poll_interval_seconds", 15, 3600) && t[1] == IntBound("max_symbols_per_poll", 1, 29);
    assert t[2] == IntBound("news_lookback_minutes", 1, 240) && t[3] == IntBound("adaptive_daily_llm_budget", 0, 200);
    assert t[4] == IntBound("max_interpretations_per_poll", 0, 20) && t[5] == IntBound("action_max_age_seconds", 30, 3600);
  }

  lemma PollFlagDefaultsAre(configured: Block)
    ensures PollFlagDefaults(configured, AdaptiveDefaults(configured))
  {
    hide ClampInts, ClampReals, Given;
    var b := AdaptiveDefaults(configured);
    assert b.flags == Given(configured.flags, ADAPTIVE_FALLBACK.flags);
    PollFlagsAreOff();
    OffUnlessConfigured(configured, b, ADAPTIVE_FALLBACK.flags, "adaptive_news_feed_enabled");
    OffUnlessConfigured(configured, b, ADAPTIVE_FALLBACK.flags, "adaptive_watchlist_shaping_enabled");
    OffUnlessConfigured(configured, b, ADAPTIVE_FALLBACK.flags, "adaptive_react_defensive_enabled");
  }

  predicate OffIn(flags: map<string, bool>, key: string) { key in flags && !flags[key] }

  lemma PollFlagsAreOff()
    ensures OffIn(ADAPTIVE_FALLBACK.flags, "adaptive_news_feed_enabled")
    ensures OffIn(ADAPTIVE_FALLBACK.flags, "adaptive_watchlist_shaping_enabled")
    ensures OffIn(ADAPTIVE_FALLBACK.flags, "adaptive_react_defensive_enabled")
  {}

  lemma OffUnlessConfigured(configured: Block, b: Block, fallback: map<string, bool>, key: string)
    requires OffIn(fallback, key) && b.flags == Given(configured.flags, fallback)
    ensures FlagDefault(configured, b, key)
  {}

  lemma ThresholdDefaultsAre(configured: Block)
    ensures ThresholdDefaults(configured, AdaptiveDefaults(configured))
  {
    hide Clamped, IntDefault, RealDefault, Tabulates;
    PollTable();
    ThresholdTable();
    TablesMeet(ADAPTIVE_BOUNDS, ADAPTIVE_REALS + [COST_BOUND], ADAPTIVE_FALLBACK);
    ClampedDefaults(configured, ADAPTIVE_FALLBACK, ADAPTIVE_BOUNDS, ADAPTIVE_REALS + [COST_BOUND]);
    var w := ADAPTIVE_REALS + [COST_BOUND];
    assert w[0] == RealBound("materiality_min_sentiment", 0.0, 1.0) && w[1] == RealBound("action_min_severity", 0.0, 1.0);
    assert w[2] == RealBound("interpretation_min_relevance", 0.0, 1.0) && w[3] == RealBound("defensive_trim_fraction", 0.01, 1.0);
    assert w[4] == RealBound("adaptive_est_cost_per_call_usd", 0.0, 1.0);
  }

  /** Every default of the two blocks is the allowed value nearest to the configured one, or to its fallback. */
  lemma DefaultsAreNearest(discovery: Block, adaptive: Block)
    ensures FunnelDefaults(discovery, DiscoveryDefaults(discovery))
    ensures PollFlagDefaults(adaptive, AdaptiveDefaults(adaptive)) && PollDefaults(adaptive, AdaptiveDefaults(adaptive))
    ensures ThresholdDefaults(adaptive, AdaptiveDefaults(adaptive))
  {
    hide FunnelDefaults, PollDefaults, PollFlagDefaults, ThresholdDefaults, Clamped, Filled, FunnelFallbacks, PollFallbacks, Tabulates;
    FallbacksAre();
    FunnelTable();
    PollTable();
    ThresholdTable();
    TablesMeet(ADAPTIVE_BOUNDS, ADAPTIVE_REALS + [COST_BOUND], ADAPTIVE_FALLBACK);
    FunnelDefaultsFrom(discovery, DISCOVERY_FALLBACK);
    PollDefaultsFrom(adaptive, ADAPTIVE_FALLBACK);
    ThresholdDefaultsAre(adaptive);
    PollFlagDefaultsAre(adaptive);
  }
}
