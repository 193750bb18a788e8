/** The setters of api_server/controls.py: read the state, change one thing, write it all back. */
module ControlSetters {
  import opened Text
  import opened Controls
  import opened ControlRules
  import opened ControlValues
  import opened Numbers

  /** A state `read_controls` can return under a valid configuration: in bounds, obeying the rules,
      with the keys of the defaults. */
  ghost predicate Proper(p: Parse, defaults: State, models: seq<string>, whitelist: set<string>, st: State) {
    && StateOk(st, models, whitelist) && Narrows(st.discovery) && FeedIsMaster(st.adaptive)
    && PartsAgree(p, models, PartsOf(defaults), PartsOf(st))
  }

  /** A configuration that passes its validator. */
  ghost predicate ValidDefaults(defaults: State, models: seq<string>, whitelist: set<string>) {
    && |models| == 3 && StateOk(defaults, models, whitelist) && defaults.pins == map[]
    && Narrows(defaults.discovery) && FeedIsMaster(defaults.adaptive)
  }

  lemma ReadingIsProper(p: Parse, saved: Dict, defaults: State, models: seq<string>, whitelist: set<string>)
    requires ValidDefaults(defaults, models, whitelist)
    ensures var r := ReadControls(p, saved, defaults, models, whitelist);
            r.Returned? ==> Proper(p, defaults, models, whitelist, r.value)
  {
    hide ReadParts, Assemble, PartsOk, TopOk, PartsAgree, Narrows, FeedIsMaster, Nested, Overflows;
    ReadControlsKeepsTheRules(p, saved, defaults, models, whitelist);
    var r := ReadParts(p, saved, PartsOf(defaults), models);
    ReadPartsKeepsTheRules(p, saved, PartsOf(defaults), models);
    if r.Returned? {
      AssembleOk(r.value, saved, defaults, whitelist);
    }
  }

  /** Writing a proper state and reading it gives it back. */
  lemma ProperReadsBack(p: Parse, st: State, ts: string, defaults: State, models: seq<string>, whitelist: set<string>)
    requires ValidDefaults(defaults, models, whitelist) && Proper(p, defaults, models, whitelist, st)
    ensures ReadControls(p, Out(st, models, ts), defaults, models, whitelist) == Returned(st)
  {
    hide ReadParts, Assemble, PartsOk, TopOk, PartsAgree, Narrows, FeedIsMaster, Nested, Out, Narrowing, DownstreamOff,
         CarriesParts, CarriesTop;
    var x := PartsOf(st);
    var out := Out(st, models, ts);
    OutCarriesParts(st, models, ts);
    OutCarriesTop(st, models, ts);
    RereadParts(p, out, PartsOf(defaults), x, models);
    RulesAreFixedPoints(p, x, models);
    RereadTop(x, out, st, defaults, whitelist);
  }

  // ----- What each setter makes of the state --------------------------------------------------------

  function WithLayer(st: State, layer: string, enabled: bool): State { st.(layers := st.layers[layer := enabled]) }

  function WithPin(st: State, symbol: string, regime: Option<string>): State {
    match regime
    case Some(r) => st.(pins := st.pins[symbol := r])
    case None => st.(pins := st.pins - {symbol})
  }

  /** The settings clamped into the block, the funnel narrowed again. */
  function WithFunnel(p: Parse, st: State, settings: Dict): Outcome<State> {
    var merged :- MergeBlock(p, [], DISCOVERY_BOUNDS, DISCOVERY_REALS, settings, st.discovery);
    Returned(st.(discovery := Narrowing(merged)))
  }

  function WithAdaptive(p: Parse, st: State, settings: Dict): Outcome<State> {
    var merged :- MergeBlock(p, [], ADAPTIVE_BOUNDS, ADAPTIVE_REALS, settings, st.adaptive);
    Returned(st.(adaptive := merged))
  }

  function WithFlag(st: State, flag: string, enabled: bool): State {
    st.(adaptive := DownstreamOff(st.adaptive.(flags := st.adaptive.flags[flag := enabled])))
  }

  // ----- Each keeps the state proper -----------------------------------------------------------------

  lemma AgreesTransitively<T>(fields: seq<Field<T>>, a: map<string, T>, b: map<string, T>, c: map<string, T>)
    requires Agrees(fields, a, b) && Agrees(fields, b, c)
    ensures Agrees(fields, a, c)
  {
    hide HasField;
  }

  lemma SettingOneAgrees(keys: seq<string>, m: map<string, bool>, k: string, b: bool)
    requires k in keys && HasKeys(keys, m)
    ensures k in m && Agrees(FlagFields(keys), m, m[k := b]) && HasKeys(keys, m[k := b])
  {
    hide HasField;
    FlagsAreTotal(keys);
    var i :| 0 <= i < |keys| && keys[i] == k;
    assert m[k := b].Keys == m.Keys;
  }

  lemma LayerIsProper(p: Parse, defaults: State, models: seq<string>, whitelist: set<string>, st: State,
        layer: string, enabled: bool)
    requires Proper(p, defaults, models, whitelist, st) && layer in LAYERS
    ensures Proper(p, defaults, models, whitelist, WithLayer(st, layer, enabled))
  {
    hide BlockAgrees, Agrees, Narrows, FeedIsMaster, BudgetBounded, DiscoveryBounded, AdaptiveBounded, Shaped,
         IsFeedMode, IsClockMode, IsProfile, IsRegime, HasKeys;
    SettingOneAgrees(LAYERS, st.layers, layer, enabled);
    AgreesTransitively(FlagFields(LAYERS), defaults.layers, st.layers, WithLayer(st, layer, enabled).layers);
  }

  lemma PinIsProper(p: Parse, defaults: State, models: seq<string>, whitelist: set<string>, st: State,
        symbol: string, regime: Option<string>)
    requires Proper(p, defaults, models, whitelist, st) && symbol in whitelist
    requires regime.Some? ==> IsRegime(regime.value)
    ensures Proper(p, defaults, models, whitelist, WithPin(st, symbol, regime))
  {
    hide PartsOk, PartsAgree, Narrows, FeedIsMaster, IsRegime, IsFeedMode, IsClockMode, IsProfile;
    assert PartsOf(WithPin(st, symbol, regime)) == PartsOf(st);
  }

  /** New values for the numbers of a block leave its shape and its agreement with the defaults. */
  lemma NumbersKeepTheBlock(p: Parse, flags: seq<string>, ints: seq<IntBound>, reals: seq<RealBound>, prior: Block,
        before: Block, b: Block)
    requires BlockAgrees(p, flags, ints, reals, prior, before) && Shaped(before)
    requires BlockAgrees(p, [], ints, reals, before, b)
    ensures BlockAgrees(p, flags, ints, reals, prior, b) && Shaped(b) && b.flags == before.flags
  {
    AgreesTransitively(IntFields(p, ints), prior.ints, before.ints, b.ints);
    AgreesTransitively(RealFields(p, reals), prior.reals, before.reals, b.reals);
    assert b.flags == before.flags;
  }

  lemma FunnelIsProper(p: Parse, defaults: State, models: seq<string>, whitelist: set<string>, st: State,
        settings: Dict)
    requires Proper(p, defaults, models, whitelist, st)
    ensures WithFunnel(p, st, settings).Raised? <==> BlockRaises(DISCOVERY_BOUNDS, DISCOVERY_REALS, settings)
    ensures WithFunnel(p, st, settings).Returned? ==>
              Proper(p, defaults, models, whitelist, WithFunnel(p, st, settings).value)
  {
    hide BlockAgrees, Agrees, Narrows, FeedIsMaster, BudgetBounded, AdaptiveBounded, Shaped, IsFeedMode,
         IsClockMode, IsProfile, IsRegime, HasKeys, MergeBlock,
         Narrowing, BlockRaises, HasField, FlagFields;
    FunnelBlock(p, defaults.discovery, st.discovery, settings);
  }

  lemma FunnelBlock(p: Parse, prior: Block, b: Block, settings: Dict)
    requires DiscoveryBounded(b) && Shaped(b)
    requires BlockAgrees(p, DISCOVERY_FLAGS, DISCOVERY_BOUNDS, DISCOVERY_REALS, prior, b)
    ensures var r := MergeBlock(p, [], DISCOVERY_BOUNDS, DISCOVERY_REALS, settings, b);
            && (r.Raised? <==> BlockRaises(DISCOVERY_BOUNDS, DISCOVERY_REALS, settings))
            && (r.Returned? ==>
                  var n := Narrowing(r.value);
                  DiscoveryBounded(n) && Shaped(n) && Narrows(n)
                  && BlockAgrees(p, DISCOVERY_FLAGS, DISCOVERY_BOUNDS, DISCOVERY_REALS, prior, n))
  {
    hide Agrees, Narrows, MergeBlock, Narrowing, BlockRaises, HasField, FlagFields, Merged;
    DiscoveryTables(p);
    EmptyTable();
    MergeBlockSpec(p, [], DISCOVERY_BOUNDS, DISCOVERY_REALS, settings, b);
    MergedBlockAgrees(p, [], DISCOVERY_BOUNDS, DISCOVERY_REALS, settings, b);
    var r := MergeBlock(p, [], DISCOVERY_BOUNDS, DISCOVERY_REALS, settings, b);
    if r.Returned? {
      NumbersKeepTheBlock(p, DISCOVERY_FLAGS, DISCOVERY_BOUNDS, DISCOVERY_REALS, prior, b, r.value);
      NarrowingKeepsBounds(p, r.value);
      NarrowingAgrees(p, r.value);
      NumbersKeepTheBlock(p, DISCOVERY_FLAGS, DISCOVERY_BOUNDS, DISCOVERY_REALS, prior, r.value, Narrowing(r.value));
    }
  }

  lemma EmptyTable()
    ensures DistinctKeys(FlagFields([]))
  {}

  lemma NarrowingAgrees(p: Parse, b: Block)
    requires DiscoveryBounded(b)
    ensures BlockAgrees(p, [], DISCOVERY_BOUNDS, DISCOVERY_REALS, b, Narrowing(b))
  {
    hide Narrowing, HasField;
    NarrowingKeepsBounds(p, b);
  }

  lemma AdaptiveIsProper(p: Parse, defaults: State, models: seq<string>, whitelist: set<string>, st: State,
        settings: Dict)
    requires Proper(p, defaults, models, whitelist, st)
    ensures WithAdaptive(p, st, settings).Raised? <==> BlockRaises(ADAPTIVE_BOUNDS, ADAPTIVE_REALS, settings)
    ensures WithAdaptive(p, st, settings).Returned? ==>
              Proper(p, defaults, models, whitelist, WithAdaptive(p, st, settings).value)
  {
    hide BlockAgrees, Agrees, Narrows, FeedIsMaster, BudgetBounded, DiscoveryBounded, AdaptiveBounded, Shaped,
         IsFeedMode, IsClockMode,
         IsProfile, IsRegime, HasKeys, MergeBlock, BlockRaises, HasField, FlagFields;
    AdaptiveBlock(p, defaults.adaptive, st.adaptive, settings);
  }

  /** New numbers leave the flags, so the feed stays the master. */
  lemma AdaptiveBlock(p: Parse, prior: Block, b: Block, settings: Dict)
    requires AdaptiveBounded(b) && Shaped(b)
    requires BlockAgrees(p, ADAPTIVE_FLAGS, ADAPTIVE_BOUNDS, ADAPTIVE_REALS, prior, b)
    requires FeedIsMaster(b)
    ensures var r := MergeBlock(p, [], ADAPTIVE_BOUNDS, ADAPTIVE_REALS, settings, b);
            && (r.Raised? <==> BlockRaises(ADAPTIVE_BOUNDS, ADAPTIVE_REALS, settings))
            && (r.Returned? ==>
                  AdaptiveBounded(r.value) && Shaped(r.value) && FeedIsMaster(r.value)
                  && BlockAgrees(p, ADAPTIVE_FLAGS, ADAPTIVE_BOUNDS, ADAPTIVE_REALS, prior, r.value))
  {
    hide Agrees, MergeBlock, BlockRaises, HasField, FlagFields, Merged;
    AdaptiveTables(p);
    EmptyTable();
    MergeBlockSpec(p, [], ADAPTIVE_BOUNDS, ADAPTIVE_REALS, settings, b);
    MergedBlockAgrees(p, [], ADAPTIVE_BOUNDS, ADAPTIVE_REALS, settings, b);
    var r := MergeBlock(p, [], ADAPTIVE_BOUNDS, ADAPTIVE_REALS, settings, b);
    if r.Returned? {
      NumbersKeepTheBlock(p, ADAPTIVE_FLAGS, ADAPTIVE_BOUNDS, ADAPTIVE_REALS, prior, b, r.value);
    }
  }

  lemma FlagIsProper(p: Parse, defaults: State, models: seq<string>, whitelist: set<string>, st: State,
        flag: string, enabled: bool)
    requires Proper(p, defaults, models, whitelist, st) && flag in ADAPTIVE_FLAGS
    ensures Proper(p, defaults, models, whitelist, WithFlag(st, flag, enabled))
  {
    hide BlockAgrees, Agrees, Narrows, FeedIsMaster, BudgetBounded, DiscoveryBounded, AdaptiveBounded, Shaped,
         IsFeedMode, IsClockMode,
         IsProfile, IsRegime, HasKeys, DownstreamOff;
    FlagBlock(p, defaults.adaptive, st.adaptive, flag, enabled);
  }

  lemma FlagBlock(p: Parse, prior: Block, b: Block, flag: string, enabled: bool)
    requires AdaptiveBounded(b) && Shaped(b)
    requires BlockAgrees(p, ADAPTIVE_FLAGS, ADAPTIVE_BOUNDS, ADAPTIVE_REALS, prior, b)
    requires flag in ADAPTIVE_FLAGS
    ensures var n := DownstreamOff(b.(flags := b.flags[flag := enabled]));
            && AdaptiveBounded(n) && Shaped(n) && FeedIsMaster(n)
            && BlockAgrees(p, ADAPTIVE_FLAGS, ADAPTIVE_BOUNDS, ADAPTIVE_REALS, prior, n)
  {
    hide Agrees, FeedIsMaster, DownstreamOff, HasField, IntFields, RealFields, FlagFields;
    var c := b.(flags := b.flags[flag := enabled]);
    SettingOneAgrees(ADAPTIVE_FLAGS, b.flags, flag, enabled);
    assert c.flags.Keys == b.flags.Keys;
    DownstreamOffSpec(p, c);
    OffAgrees(p, c);
    AgreesTransitively(FlagFields(ADAPTIVE_FLAGS), prior.flags, b.flags, c.flags);
    AgreesTransitively(FlagFields(ADAPTIVE_FLAGS), prior.flags, c.flags, DownstreamOff(c).flags);
  }

  lemma OffAgrees(p: Parse, b: Block)
    requires AdaptiveBounded(b)
    ensures Agrees(FlagFields(ADAPTIVE_FLAGS), b.flags, DownstreamOff(b).flags)
  {
    hide DownstreamOff, HasField;
    DownstreamOffSpec(p, b);
  }

  // ----- What each changes --------------------------------------------------------------------------------

  /** Some setting of the object overflows: an infinite number for an integer, an integer no double can
      hold for a float. */
  predicate Overflowing(settings: Dict, ints: set<string>) {
    exists k :: k in settings
      && if k in ints then settings[k].VInfinite? else settings[k].VInt? && BeyondDouble(settings[k].n as real)
  }

  /** The funnel's numbers are the settings', narrowed; nothing else of the state changes. */
  ghost predicate FunnelSet(p: Parse, settings: Dict, before: State, after: State) {
    && after == before.(discovery := after.discovery)
    && FunnelNumbers(p, settings, before.discovery, after.discovery)
    && after.discovery.flags == before.discovery.flags
  }

  ghost predicate PollSet(p: Parse, settings: Dict, before: State, after: State) {
    && after == before.(adaptive := after.adaptive)
    && PollNumbers(p, settings, before.adaptive, after.adaptive)
    && after.adaptive.flags == before.adaptive.flags
  }

  /** One flag is as asked, and the downstream two are on only with the feed. */
  predicate FlagSet(flag: string, enabled: bool, before: State, after: State) {
    && after == before.(adaptive := after.adaptive)
    && after.adaptive.ints == before.adaptive.ints && after.adaptive.reals == before.adaptive.reals
    && PollFlags(map[flag := VBool(enabled)], before.adaptive, after.adaptive)
  }

  lemma FunnelSettings(settings: Dict)
    ensures KnownSettings(settings, DISCOVERY_BOUNDS, DISCOVERY_REALS)
       <==> settings != map[] && settings.Keys <= FUNNEL_KEYS + {"stage_a_whale_weight"}
    ensures KnownSettings(settings, DISCOVERY_BOUNDS, DISCOVERY_REALS) ==>
              (BlockRaises(DISCOVERY_BOUNDS, DISCOVERY_REALS, settings) <==> Overflowing(settings, FUNNEL_KEYS))
  {
    FunnelKeys();
    FunnelKeysApart();
    SettingsOf(settings, DISCOVERY_BOUNDS, DISCOVERY_REALS);
  }

  lemma PollSettings(settings: Dict)
    ensures KnownSettings(settings, ADAPTIVE_BOUNDS, ADAPTIVE_REALS)
       <==> settings != map[] && settings.Keys <= POLL_KEYS + THRESHOLD_KEYS
    ensures KnownSettings(settings, ADAPTIVE_BOUNDS, ADAPTIVE_REALS) ==>
              (BlockRaises(ADAPTIVE_BOUNDS, ADAPTIVE_REALS, settings) <==> Overflowing(settings, POLL_KEYS))
  {
    PollKeys();
    ThresholdKeys();
    PollKeysApart();
    SettingsOf(settings, ADAPTIVE_BOUNDS, ADAPTIVE_REALS);
  }

  lemma FunnelKeysApart()
    ensures FUNNEL_KEYS !! {"stage_a_whale_weight"}
  {}

  lemma PollKeysApart()
    ensures POLL_KEYS !! THRESHOLD_KEYS
  {}

  lemma SettingsOf(settings: Dict, ints: seq<IntBound>, reals: seq<RealBound>)
    requires Keys(ints) !! RealKeys(reals)
    ensures KnownSettings(settings, ints, reals) <==> settings != map[] && settings.Keys <= Keys(ints) + RealKeys(reals)
    ensures KnownSettings(settings, ints, reals) ==>
              (BlockRaises(ints, reals, settings) <==> Overflowing(settings, Keys(ints)))
  {
    assert forall i :: 0 <= i < |ints| ==> ints[i].key in Keys(ints);
    assert forall i :: 0 <= i < |reals| ==> reals[i].key in RealKeys(reals);
  }

  lemma FunnelIsSet(p: Parse, settings: Dict, st: State)
    requires DiscoveryBounded(st.discovery)
    ensures WithFunnel(p, st, settings).Returned? ==> FunnelSet(p, settings, st, WithFunnel(p, st, settings).value)
  {
    hide MergeBlock, Narrowing, FunnelNumbers, DiscoveryBounded;
    var merged := MergeBlock(p, [], DISCOVERY_BOUNDS, DISCOVERY_REALS, settings, st.discovery);
    if merged.Returned? {
      FunnelComesTo(p, [], settings, st.discovery, merged.value);
    }
  }

  lemma PollIsSet(p: Parse, settings: Dict, st: State)
    requires AdaptiveBounded(st.adaptive)
    ensures WithAdaptive(p, st, settings).Returned? ==> PollSet(p, settings, st, WithAdaptive(p, st, settings).value)
  {
    hide MergeBlock, PollNumbers, AdaptiveBounded;
    var merged := MergeBlock(p, [], ADAPTIVE_BOUNDS, ADAPTIVE_REALS, settings, st.adaptive);
    if merged.Returned? {
      PollComesTo(p, [], settings, st.adaptive, merged.value);
    }
  }

  lemma FlagIsSet(st: State, flag: string, enabled: bool)
    requires AdaptiveBounded(st.adaptive) && flag in ADAPTIVE_FLAGS
    ensures FlagSet(flag, enabled, st, WithFlag(st, flag, enabled))
  {
    hide DownstreamOff, PollFlags;
    var b := st.adaptive.(flags := st.adaptive.flags[flag := enabled]);
    FlagTaken(st.adaptive, flag, enabled);
    OffFlags(map[flag := VBool(enabled)], st.adaptive, b);
    NumbersAreLeft(b);
  }

  lemma FlagTaken(prior: Block, flag: string, enabled: bool)
    requires AdaptiveBounded(prior) && flag in ADAPTIVE_FLAGS
    ensures var d: Dict, b := map[flag := VBool(enabled)], prior.(flags := prior.flags[flag := enabled]);
            && FlagAt(d, prior, b, "adaptive_news_feed_enabled")
            && FlagAt(d, prior, b, "adaptive_watchlist_shaping_enabled")
            && FlagAt(d, prior, b, "adaptive_react_defensive_enabled")
            && OnlyAt({"adaptive_news_feed_enabled", "adaptive_watchlist_shaping_enabled",
                       "adaptive_react_defensive_enabled"}, prior.flags, b.flags)
  {
    var t := ADAPTIVE_FLAGS;
    assert t[0] == "adaptive_news_feed_enabled" && t[1] == "adaptive_watchlist_shaping_enabled"
        && t[2] == "adaptive_react_defensive_enabled";
    assert t[0] in prior.flags && t[1] in prior.flags && t[2] in prior.flags;
  }

  // ----- The setters over the file ---------------------------------------------------------------------

  /** A settings object names only known settings, and at least one. */
  predicate KnownSettings(settings: Dict, ints: seq<IntBound>, reals: seq<RealBound>) {
    && settings != map[]
    && forall k :: k in settings ==>
         || (exists i :: 0 <= i < |ints| && ints[i].key == k)
         || (exists i :: 0 <= i < |reals| && reals[i].key == k)
  }

  lemma ProperIsBounded(p: Parse, defaults: State, models: seq<string>, whitelist: set<string>, st: State)
    requires Proper(p, defaults, models, whitelist, st)
    ensures DiscoveryBounded(st.discovery) && AdaptiveBounded(st.adaptive)
  {
    hide DiscoveryBounded, AdaptiveBounded, BudgetBounded, PartsAgree, Narrows, FeedIsMaster, TopOk;
  }

  class ControlFile {
    const p: Parse
    const defaults: State
    const models: seq<string>
    const whitelist: set<string>
    /** The object in the file; empty while there is none. */
    var saved: Dict

    constructor (p: Parse, defaults: State, models: seq<string>, whitelist: set<string>, saved: Dict)
      requires ValidDefaults(defaults, models, whitelist)
      ensures Valid() && this.saved == saved
      ensures this.p == p && this.defaults == defaults && this.models == models && this.whitelist == whitelist
    {
      this.p, this.defaults, this.models, this.whitelist, this.saved := p, defaults, models, whitelist, saved;
    }

    ghost predicate Valid() { ValidDefaults(defaults, models, whitelist) }

    function Current(): Outcome<State>
      reads this
    {
      ReadControls(p, saved, defaults, models, whitelist)
    }

    /** `_write_controls`: the next read gives the written state. */
    method Write(st: State, ts: string)
      requires Valid() && Proper(p, defaults, models, whitelist, st)
      modifies this`saved
      ensures saved == Out(st, models, ts) && Current() == Returned(st)
    {
      hide Proper, Out;
      ProperReadsBack(p, st, ts, defaults, models, whitelist);
      saved := Out(st, models, ts);
    }

    /** Raises when reading does; refuses an unknown layer; otherwise changes that layer only. */
    method SetLayer(layer: string, enabled: bool, ts: string) returns (r: Outcome<bool>)
      requires Valid()
      modifies this`saved
      ensures layer !in LAYERS ==> r == Returned(false) && saved == old(saved)
      ensures layer in LAYERS && old(Current()).Raised? ==> r == Raised && saved == old(saved)
      ensures layer in LAYERS && old(Current()).Returned? ==>
                var was := old(Current()).value;
                r == Returned(true) && Current() == Returned(was.(layers := was.layers[layer := enabled]))
    {
      hide Proper, ValidDefaults, ReadControls;
      if layer !in LAYERS {
        return Returned(false);
      }
      var st :- Current();
      ReadingIsProper(p, saved, defaults, models, whitelist);
      LayerIsProper(p, defaults, models, whitelist, st, layer, enabled);
      st := st.(layers := st.layers[layer := enabled]);
      Write(st, ts);
      r := Returned(true);
    }

    method SetRegime(symbol: string, regime: Option<string>, ts: string) returns (r: Outcome<bool>)
      requires Valid()
      modifies this`saved
      ensures var known := symbol in whitelist && (regime.Some? ==> IsRegime(regime.value));
              && (!known ==> r == Returned(false) && saved == old(saved))
              && (known && old(Current()).Raised? ==> r == Raised && saved == old(saved))
              && (known && old(Current()).Returned? ==>
                    var was := old(Current()).value;
                    r == Returned(true)
                    && Current() == Returned(was.(pins := if regime.None? then was.pins - {symbol}
                                                          else was.pins[symbol := regime.value])))
    {
      hide Proper, ValidDefaults, ReadControls, IsRegime;
      if symbol !in whitelist {
        return Returned(false);
      }
      if regime.Some? && !IsRegime(regime.value) {
        return Returned(false);
      }
      var st :- Current();
      ReadingIsProper(p, saved, defaults, models, whitelist);
      PinIsProper(p, defaults, models, whitelist, st, symbol, regime);
      if regime.None? {
        st := st.(pins := st.pins - {symbol});
      } else {
        st := st.(pins := st.pins[symbol := regime.value]);
      }
      Write(st, ts);
      r := Returned(true);
    }

    method SetDiscoverySettings(settings: Dict, ts: string) returns (r: Outcome<bool>)
      requires Valid()
      modifies this`saved
      ensures var known := settings != map[] && settings.Keys <= FUNNEL_KEYS + {"stage_a_whale_weight"};
              var now, over := old(Current()), Overflowing(settings, FUNNEL_KEYS);
              && (!known ==> r == Returned(false) && saved == old(saved))
              && (known && (now.Raised? || over) ==> r == Raised && saved == old(saved))
              && (known && now.Returned? && !over ==>
                    r == Returned(true) && Current().Returned? && FunnelSet(p, settings, now.value, Current().value))
    {
      hide Proper, ValidDefaults, ReadControls, WithFunnel, KnownSettings, BlockRaises, Overflowing, FunnelSet;
      FunnelSettings(settings);
      if !KnownSettings(settings, DISCOVERY_BOUNDS, DISCOVERY_REALS) {
        return Returned(false);
      }
      var st :- Current();
      ReadingIsProper(p, saved, defaults, models, whitelist);
      FunnelIsProper(p, defaults, models, whitelist, st, settings);
      ProperIsBounded(p, defaults, models, whitelist, st);
      FunnelIsSet(p, settings, st);
      st :- WithFunnel(p, st, settings);
      Write(st, ts);
      r := Returned(true);
    }

    method SetAdaptiveSettings(settings: Dict, ts: string) returns (r: Outcome<bool>)
      requires Valid()
      modifies this`saved
      ensures var known := settings != map[] && settings.Keys <= POLL_KEYS + THRESHOLD_KEYS;
              var now, over := old(Current()), Overflowing(settings, POLL_KEYS);
              && (!known ==> r == Returned(false) && saved == old(saved))
              && (known && (now.Raised? || over) ==> r == Raised && saved == old(saved))
              && (known && now.Returned? && !over ==>
                    r == Returned(true) && Current().Returned? && PollSet(p, settings, now.value, Current().value))
    {
      hide Proper, ValidDefaults, ReadControls, WithAdaptive, KnownSettings, BlockRaises, Overflowing, PollSet;
      PollSettings(settings);
      if !KnownSettings(settings, ADAPTIVE_BOUNDS, ADAPTIVE_REALS) {
        return Returned(false);
      }
      var st :- Current();
      ReadingIsProper(p, saved, defaults, models, whitelist);
      AdaptiveIsProper(p, defaults, models, whitelist, st, settings);
      ProperIsBounded(p, defaults, models, whitelist, st);
      PollIsSet(p, settings, st);
      st :- WithAdaptive(p, st, settings);
      Write(st, ts);
      r := Returned(true);
    }

    /** Enabling needs the prerequisites, and the feed on for a downstream half; disabling is never
        refused, and turning the feed off turns both halves off. */
    method SetAdaptiveFlag(flag: string, enabled: bool, prerequisites: bool, ts: string) returns (r: Outcome<bool>)
      requires Valid()
      modifies this`saved
      ensures var now := old(Current());
              var refused := flag !in ADAPTIVE_FLAGS || (now.Returned? && enabled && (!prerequisites
                || (flag != "adaptive_news_feed_enabled" && !Flag(now.value.adaptive, "adaptive_news_feed_enabled"))));
              && (refused ==> r == Returned(false) && saved == old(saved))
              && (!refused && now.Raised? ==> r == Raised && saved == old(saved))
              && (!refused && now.Returned? ==>
                    r == Returned(true) && Current().Returned? && FlagSet(flag, enabled, now.value, Current().value))
    {
      hide Proper, ValidDefaults, ReadControls, Flag, DownstreamOff, FlagSet;
      if flag !in ADAPTIVE_FLAGS {
        return Returned(false);
      }
      var st :- Current();
      if enabled {
        if !prerequisites {
          return Returned(false);
        }
        if flag != "adaptive_news_feed_enabled" && !Flag(st.adaptive, "adaptive_news_feed_enabled") {
          return Returned(false);
        }
      }
      ReadingIsProper(p, saved, defaults, models, whitelist);
      FlagIsProper(p, defaults, models, whitelist, st, flag, enabled);
      ProperIsBounded(p, defaults, models, whitelist, st);
      FlagIsSet(st, flag, enabled);
      st := st.(adaptive := DownstreamOff(st.adaptive.(flags := st.adaptive.flags[flag := enabled])));
      Write(st, ts);
      r := Returned(true);
    }
  }
}
