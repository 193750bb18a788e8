/** What `read_controls` guarantees for any saved object, and that writing a state and
    reading it again gives the same state. */
module ControlRules {
  import opened Text
  import opened Controls

  // ----- The written object ---------------------------------------------------------------------

  function FlagDict(m: map<string, bool>): Dict { map k | k in m :: VBool(m[k]) }
  function TextDict(m: map<string, string>): Dict { map k | k in m :: VStr(m[k]) }
  function IntDict(m: map<string, int>): Dict { map k | k in m :: VInt(m[k]) }
  function RealDict(m: map<string, real>): Dict { map k | k in m :: VFloat(m[k]) }
  function BlockDict(b: Block): Dict { FlagDict(b.flags) + IntDict(b.ints) + RealDict(b.reals) }

  function GetOr<T>(m: map<string, T>, k: string, default: T): T { if k in m then m[k] else default }

  /** The nested maps the GUI and Python read by path. */
  function Blocks(st: State): Dict {
    map["layers" := VDict(FlagDict(st.layers)), "layer_sources" := VDict(TextDict(st.sources)),
        "models" := VDict(FlagDict(st.models)), "budget" := VDict(IntDict(st.budget.ints)),
        "regime_pins" := VDict(TextDict(st.pins)), "discovery" := VDict(BlockDict(st.discovery)),
        "adaptive_realtime" := VDict(BlockDict(st.adaptive)), "sleeves" := VDict(FlagDict(st.sleeves)),
        "whale_feeds" := VDict(FlagDict(st.whaleFeeds)),
        "pending_promote" := st.promote, "pending_rollback" := st.rollback]
  }

  /** The top-level flags, the last seven derived for the engine's flat reader. */
  function TopFlags(st: State, models: seq<string>): map<string, bool>
    requires |models| == 3
  {
    map["gate_enabled" := st.gate, "auto_promote" := st.autoPromote, "rl_enabled" := st.rl,
        "rebalance_requested" := st.rebalance,
        "layer_adaptive_enabled" := GetOr(st.layers, "adaptive", true),
        "layer_council_enabled" := GetOr(st.layers, "council", true),
        "layer_dnn_advisory_enabled" := GetOr(st.layers, "dnn_advisory", true),
        "layer_whale_enabled" := GetOr(st.layers, "whale", true),
        "llm_primary_enabled" := GetOr(st.models, models[0], true),
        "llm_secondary_enabled" := GetOr(st.models, models[1], true),
        "llm_tertiary_enabled" := GetOr(st.models, models[2], true)]
  }

  function FlatSource(st: State, layer: string): string {
    if GetOr(st.sources, layer, "real") == "mock" then "mock" else "real"
  }

  function TopTexts(st: State, ts: string): map<string, string> {
    map["feed_mode" := st.feedMode, "clock_mode" := st.clockMode, "strategy_profile" := st.profile, "ts" := ts,
        "council_source" := FlatSource(st, "council"),
        "dnn_advisory_source" := FlatSource(st, "dnn_advisory"),
        "whale_source" := FlatSource(st, "whale")]
  }

  /** The flat source keys say what the nested map says. */
  lemma FlatSourcesSay(st: State, ts: string)
    requires {"council", "dnn_advisory", "whale"} <= st.sources.Keys && forall k :: k in st.sources ==> IsSource(st.sources[k])
    ensures var t := TopTexts(st, ts);
            && "council_source" in t && t["council_source"] == st.sources["council"]
            && "dnn_advisory_source" in t && t["dnn_advisory_source"] == st.sources["dnn_advisory"]
            && "whale_source" in t && t["whale_source"] == st.sources["whale"]
  {}

  function TopInts(st: State): map<string, int> {
    map k | k in {"rt_council_daily_budget", "rt_per_symbol_cooldown_minutes"} && k[3..] in st.budget.ints
          :: st.budget.ints[k[3..]]
  }

  function PinKey(symbol: string): string { "regime_pin:" + symbol }

  function TopPins(st: State): map<string, string> {
    map key | key in set s | s in st.pins :: PinKey(s) :: st.pins[key[11..]]
  }

  /** Everything `_write_controls` puts into the file. */
  function Out(st: State, models: seq<string>, ts: string): Dict
    requires |models| == 3
  {
    TextDict(TopPins(st)) + (IntDict(TopInts(st)) + (TextDict(TopTexts(st, ts))
      + (FlagDict(TopFlags(st, models)) + Blocks(st))))
  }

  // ----- Every field in bounds -------------------------------------------------------------------

  predicate HasKeys<T>(keys: seq<string>, m: map<string, T>) {
    forall i :: 0 <= i < |keys| ==> keys[i] in m
  }

  predicate PartsOk(x: Parts, models: seq<string>) {
    && HasKeys(LAYERS, x.layers) && HasKeys(SOURCE_LAYERS, x.sources) && HasKeys(models, x.models)
    && HasKeys(SLEEVES, x.sleeves) && HasKeys(WHALE_FEEDS, x.whaleFeeds)
    && (forall k :: k in x.sources ==> IsSource(x.sources[k]))
    && BudgetBounded(x.budget) && DiscoveryBounded(x.discovery) && AdaptiveBounded(x.adaptive)
    && Shaped(x.discovery) && Shaped(x.adaptive) && x.budget.flags == map[] && x.budget.reals == map[]
  }

  predicate TopOk(st: State, whitelist: set<string>) {
    && IsFeedMode(st.feedMode) && IsClockMode(st.clockMode) && IsProfile(st.profile)
    && (forall s :: s in st.pins ==> s in whitelist && IsRegime(st.pins[s]))
  }

  /** Every field in bounds, every choice among its allowed values. */
  predicate StateOk(st: State, models: seq<string>, whitelist: set<string>) {
    PartsOk(PartsOf(st), models) && TopOk(st, whitelist)
  }

  /** The keys of a block's flags, integers and floats are different keys. */
  predicate Shaped(b: Block) {
    b.flags.Keys !! b.ints.Keys && b.flags.Keys !! b.reals.Keys && b.ints.Keys !! b.reals.Keys
  }

  lemma Tables()
    ensures forall p :: DistinctKeys(IntFields(p, BUDGET_BOUNDS)) && DistinctKeys(IntFields(p, DISCOVERY_BOUNDS))
                        && DistinctKeys(IntFields(p, ADAPTIVE_BOUNDS)) && DistinctKeys(RealFields(p, DISCOVERY_REALS))
                        && DistinctKeys(RealFields(p, ADAPTIVE_REALS))
    ensures DistinctKeys(FlagFields(LAYERS)) && DistinctKeys(SourceFields(SOURCE_LAYERS))
    ensures DistinctKeys(FlagFields(SLEEVES)) && DistinctKeys(FlagFields(WHALE_FEEDS))
    ensures DistinctKeys(FlagFields(DISCOVERY_FLAGS)) && DistinctKeys(FlagFields(ADAPTIVE_FLAGS))
  {}

  predicate SaneInts(bounds: seq<IntBound>) { forall i :: 0 <= i < |bounds| ==> bounds[i].lo <= bounds[i].hi }
  predicate SaneReals(bounds: seq<RealBound>) { forall i :: 0 <= i < |bounds| ==> bounds[i].lo <= bounds[i].hi }

  predicate IntsWithin(bounds: seq<IntBound>, m: map<string, int>) {
    forall i :: 0 <= i < |bounds| ==> bounds[i].key in m && bounds[i].lo <= m[bounds[i].key] <= bounds[i].hi
  }

  predicate RealsWithin(bounds: seq<RealBound>, m: map<string, real>) {
    forall i :: 0 <= i < |bounds| ==> bounds[i].key in m && bounds[i].lo <= m[bounds[i].key] <= bounds[i].hi
  }

  lemma MergedIntsWithin(p: Parse, bounds: seq<IntBound>, saved: Dict, prior: map<string, int>, m: map<string, int>)
    requires SaneInts(bounds) && IntsWithin(bounds, prior) && Merged(IntFields(p, bounds), saved, prior, m)
    requires DistinctKeys(IntFields(p, bounds))
    ensures IntsWithin(bounds, m)
  {
    var fields := IntFields(p, bounds);
    forall i | 0 <= i < |bounds|
      ensures bounds[i].key in m && bounds[i].lo <= m[bounds[i].key] <= bounds[i].hi
    {
      assert Taken(fields[i], saved, prior, m);
      assert fields[i].key == bounds[i].key;
      if bounds[i].key in saved {
        ClampedIntWithin(p, saved[bounds[i].key], bounds[i].lo, bounds[i].hi);
      }
    }
  }

  lemma MergedRealsWithin(p: Parse, bounds: seq<RealBound>, saved: Dict, prior: map<string, real>, m: map<string, real>)
    requires SaneReals(bounds) && RealsWithin(bounds, prior) && Merged(RealFields(p, bounds), saved, prior, m)
    ensures RealsWithin(bounds, m)
  {
    var fields := RealFields(p, bounds);
    forall i | 0 <= i < |bounds|
      ensures bounds[i].key in m && bounds[i].lo <= m[bounds[i].key] <= bounds[i].hi
    {
      assert Taken(fields[i], saved, prior, m);
      assert fields[i].key == bounds[i].key;
      if bounds[i].key in saved {
        ClampedFloatWithin(p, saved[bounds[i].key], bounds[i].lo, bounds[i].hi);
      }
    }
  }

  ghost predicate Sane(p: Parse, flags: seq<string>, ints: seq<IntBound>, reals: seq<RealBound>) {
    && DistinctKeys(FlagFields(flags)) && DistinctKeys(IntFields(p, ints)) && DistinctKeys(RealFields(p, reals))
    && SaneInts(ints) && SaneReals(reals)
  }

  /** What the file carries for a block makes reading it raise. */
  predicate BlockRaises(ints: seq<IntBound>, reals: seq<RealBound>, saved: Dict) {
    || (exists i :: 0 <= i < |ints| && ints[i].key in saved && saved[ints[i].key].VInfinite?)
    || (exists i :: 0 <= i < |reals| && reals[i].key in saved && TooBig(saved[reals[i].key]))
  }

  lemma FieldsRaise(p: Parse, flags: seq<string>, ints: seq<IntBound>, reals: seq<RealBound>, saved: Dict)
    requires Sane(p, flags, ints, reals)
    ensures !SomeRaises(FlagFields(flags), saved)
    ensures BlockRaises(ints, reals, saved)
       <==> SomeRaises(IntFields(p, ints), saved) || SomeRaises(RealFields(p, reals), saved)
  {
    forall i | 0 <= i < |ints| && ints[i].key in saved
      ensures IntFields(p, ints)[i].key == ints[i].key
      ensures IntFields(p, ints)[i].coerce(saved[ints[i].key]).Raised? <==> saved[ints[i].key].VInfinite?
    {
      ClampedIntWithin(p, saved[ints[i].key], ints[i].lo, ints[i].hi);
    }
    forall i | 0 <= i < |reals| && reals[i].key in saved
      ensures RealFields(p, reals)[i].key == reals[i].key
      ensures RealFields(p, reals)[i].coerce(saved[reals[i].key]).Raised?
         <==> TooBig(saved[reals[i].key])
    {
      ClampedFloatWithin(p, saved[reals[i].key], reals[i].lo, reals[i].hi);
    }
  }

  /** A merged block is in bounds, and merging raises exactly on an infinite integer field or an
      oversized float field. */
  lemma MergeBlockSpec(p: Parse, flags: seq<string>, ints: seq<IntBound>, reals: seq<RealBound>, saved: Dict,
        prior: Block)
    requires Sane(p, flags, ints, reals) && Bounded(prior, flags, ints, reals)
    ensures var r := MergeBlock(p, flags, ints, reals, saved, prior);
            && (r.Raised? <==> BlockRaises(ints, reals, saved))
            && (r.Returned? ==>
                  (Bounded(r.value, flags, ints, reals)
                   && Merged(FlagFields(flags), saved, prior.flags, r.value.flags)
                   && Merged(IntFields(p, ints), saved, prior.ints, r.value.ints)
                   && Merged(RealFields(p, reals), saved, prior.reals, r.value.reals)))
  {
    hide Merge, BlockRaises, Merged, SomeRaises;
    MergeSpec(FlagFields(flags), saved, prior.flags);
    MergeSpec(IntFields(p, ints), saved, prior.ints);
    MergeSpec(RealFields(p, reals), saved, prior.reals);
    FieldsRaise(p, flags, ints, reals, saved);
    var r := MergeBlock(p, flags, ints, reals, saved, prior);
    if r.Returned? {
      MergedIntsWithin(p, ints, saved, prior.ints, r.value.ints);
      MergedRealsWithin(p, reals, saved, prior.reals, r.value.reals);
      MergedHas(FlagFields(flags), saved, prior.flags, r.value.flags);
    }
  }

  lemma MergedHas<T>(fields: seq<Field<T>>, saved: Dict, prior: map<string, T>, m: map<string, T>)
    requires Merged(fields, saved, prior, m)
    ensures forall k :: k in prior ==> k in m
  {}

  /** Fields that never raise and take `value(v)`, or leave the prior value. */
  ghost predicate Total<T>(fields: seq<Field<T>>, value: Value -> Option<T>) {
    forall i, v :: 0 <= i < |fields| ==> fields[i].coerce(v) == Returned(value(v))
  }

  /** What the file sets through such fields. */
  ghost function Setting<T>(fields: seq<Field<T>>, value: Value -> Option<T>, saved: Dict): map<string, T> {
    map k | k in saved && HasField(fields, k) && value(saved[k]).Some? :: value(saved[k]).value
  }

  lemma {:induction false} MergeTotal<T>(fields: seq<Field<T>>, value: Value -> Option<T>, saved: Dict,
        prior: map<string, T>)
    requires Total(fields, value)
    ensures Merge(fields, saved, prior) == Returned(prior + Setting(fields, value, saved))
  {
    if fields == [] {
      assert prior + Setting(fields, value, saved) == prior;
    } else {
      var f, tail := fields[0], fields[1..];
      assert forall i :: 0 <= i < |tail| ==> tail[i] == fields[i + 1];
      var next := if f.key in saved && value(saved[f.key]).Some? then prior[f.key := value(saved[f.key]).value] else prior;
      MergeTotal(tail, value, saved, next);
      SettingStep(fields, value, saved, prior, next);
    }
  }

  lemma SettingStep<T>(fields: seq<Field<T>>, value: Value -> Option<T>, saved: Dict, prior: map<string, T>,
        next: map<string, T>)
    requires fields != []
    requires next == var k := fields[0].key;
                     if k in saved && value(saved[k]).Some? then prior[k := value(saved[k]).value] else prior
    ensures next + Setting(fields[1..], value, saved) == prior + Setting(fields, value, saved)
  {
    hide HasField;
    var a, b := next + Setting(fields[1..], value, saved), prior + Setting(fields, value, saved);
    forall k
      ensures k in a <==> k in b
      ensures k in a ==> a[k] == b[k]
    {
      HasFieldStep(fields, k);
    }
  }

  lemma FlagsAreTotal(keys: seq<string>)
    ensures Total(FlagFields(keys), v => Some(Truthy(v)))
    ensures forall k :: HasField(FlagFields(keys), k) <==> k in keys
  {
    var fields := FlagFields(keys);
    forall k
      ensures HasField(fields, k) <==> k in keys
    {
      if k in keys {
        var i :| 0 <= i < |keys| && keys[i] == k;
        assert fields[i].key == k;
      }
    }
  }

  lemma SourcesAreTotal(keys: seq<string>)
    ensures Total(SourceFields(keys), v => ValidText(v, IsSource))
  {}

  /** `m` differs from `prior` in field values only. */
  ghost predicate Agrees<T>(fields: seq<Field<T>>, prior: map<string, T>, m: map<string, T>) {
    && m.Keys == prior.Keys && (forall i :: 0 <= i < |fields| ==> fields[i].key in prior)
    && forall k :: k in prior && !HasField(fields, k) ==> m[k] == prior[k]
  }

  lemma MergedAgrees<T>(fields: seq<Field<T>>, saved: Dict, prior: map<string, T>, m: map<string, T>)
    requires Merged(fields, saved, prior, m) && forall i :: 0 <= i < |fields| ==> fields[i].key in prior
    ensures Agrees(fields, prior, m)
  {}

  /** Reading back what was read: every field's written value is read as itself. */
  lemma Reread<T>(fields: seq<Field<T>>, saved: Dict, prior: map<string, T>, m: map<string, T>)
    requires DistinctKeys(fields) && Agrees(fields, prior, m)
    requires forall i :: 0 <= i < |fields| ==>
               fields[i].key in saved && fields[i].coerce(saved[fields[i].key]) == Returned(Some(m[fields[i].key]))
    ensures Merge(fields, saved, prior) == Returned(m)
  {
    MergeSpec(fields, saved, prior);
    var r := Merge(fields, saved, prior).value;
    forall k | k in prior
      ensures r[k] == m[k]
    {
      if HasField(fields, k) {
        var i :| 0 <= i < |fields| && fields[i].key == k;
        assert Taken(fields[i], saved, prior, r);
      }
    }
    assert r == m;
  }

  lemma RereadTotal<T>(fields: seq<Field<T>>, value: Value -> Option<T>, saved: Dict, prior: map<string, T>,
        m: map<string, T>)
    requires Total(fields, value) && Agrees(fields, prior, m)
    requires forall k :: k in m ==> k in saved && value(saved[k]) == Some(m[k])
    requires forall k :: k in saved ==> k in m
    ensures Merge(fields, saved, prior) == Returned(m)
  {
    MergeTotal(fields, value, saved, prior);
    forall k | k in m
      ensures (prior + Setting(fields, value, saved))[k] == m[k]
    {}
    assert m == prior + Setting(fields, value, saved);
  }

  lemma RereadFlags(flags: seq<string>, saved: Dict, prior: map<string, bool>, m: map<string, bool>)
    requires DistinctKeys(FlagFields(flags)) && Agrees(FlagFields(flags), prior, m)
    requires forall k :: k in m ==> k in saved && saved[k] == VBool(m[k])
    ensures Merge(FlagFields(flags), saved, prior) == Returned(m)
  {
    hide Merge;
    var fields := FlagFields(flags);
    forall i | 0 <= i < |fields|
      ensures fields[i].key in m && fields[i].coerce(saved[fields[i].key]) == Returned(Some(m[fields[i].key]))
    {
      assert fields[i].key == flags[i] && flags[i] in prior && flags[i] in m;
      assert Truthy(saved[flags[i]]) == m[flags[i]];
      assert fields[i].coerce(saved[flags[i]]) == Returned(Some(Truthy(saved[flags[i]])));
    }
    Reread(fields, saved, prior, m);
  }

  lemma RereadInts(p: Parse, bounds: seq<IntBound>, saved: Dict, prior: map<string, int>, m: map<string, int>)
    requires DistinctKeys(IntFields(p, bounds)) && Agrees(IntFields(p, bounds), prior, m) && IntsWithin(bounds, m)
    requires forall k :: k in m ==> k in saved && saved[k] == VInt(m[k])
    ensures Merge(IntFields(p, bounds), saved, prior) == Returned(m)
  {
    hide Merge;
    var fields := IntFields(p, bounds);
    forall i | 0 <= i < |fields|
      ensures fields[i].key in m && fields[i].coerce(saved[fields[i].key]) == Returned(Some(m[fields[i].key]))
    {
      assert fields[i].key == bounds[i].key;
    }
    Reread(fields, saved, prior, m);
  }

  lemma RereadReals(p: Parse, bounds: seq<RealBound>, saved: Dict, prior: map<string, real>, m: map<string, real>)
    requires DistinctKeys(RealFields(p, bounds)) && Agrees(RealFields(p, bounds), prior, m) && RealsWithin(bounds, m)
    requires forall k :: k in m ==> k in saved && saved[k] == VFloat(m[k])
    ensures Merge(RealFields(p, bounds), saved, prior) == Returned(m)
  {
    hide Merge;
    var fields := RealFields(p, bounds);
    forall i | 0 <= i < |fields|
      ensures fields[i].key in m && fields[i].coerce(saved[fields[i].key]) == Returned(Some(m[fields[i].key]))
    {
      assert fields[i].key == bounds[i].key;
    }
    Reread(fields, saved, prior, m);
  }

  lemma BlockLookups(b: Block)
    requires Shaped(b)
    ensures forall k :: k in b.flags ==> k in BlockDict(b) && BlockDict(b)[k] == VBool(b.flags[k])
    ensures forall k :: k in b.ints ==> k in BlockDict(b) && BlockDict(b)[k] == VInt(b.ints[k])
    ensures forall k :: k in b.reals ==> k in BlockDict(b) && BlockDict(b)[k] == VFloat(b.reals[k])
  {}

  lemma RereadBlock(p: Parse, flags: seq<string>, ints: seq<IntBound>, reals: seq<RealBound>, prior: Block, b: Block)
    requires Sane(p, flags, ints, reals) && Bounded(b, flags, ints, reals) && Shaped(b)
    requires Agrees(FlagFields(flags), prior.flags, b.flags)
    requires Agrees(IntFields(p, ints), prior.ints, b.ints)
    requires Agrees(RealFields(p, reals), prior.reals, b.reals)
    ensures MergeBlock(p, flags, ints, reals, BlockDict(b), prior) == Returned(b)
  {
    hide Agrees, Merge, BlockDict, DistinctKeys;
    BlockLookups(b);
    RereadFlags(flags, BlockDict(b), prior.flags, b.flags);
    RereadInts(p, ints, BlockDict(b), prior.ints, b.ints);
    RereadReals(p, reals, BlockDict(b), prior.reals, b.reals);
  }

  // ----- Block by block --------------------------------------------------------------------------------

  ghost predicate BlockAgrees(p: Parse, flags: seq<string>, ints: seq<IntBound>, reals: seq<RealBound>,
        prior: Block, b: Block) {
    && Agrees(FlagFields(flags), prior.flags, b.flags) && Agrees(IntFields(p, ints), prior.ints, b.ints)
    && Agrees(RealFields(p, reals), prior.reals, b.reals)
  }

  lemma BlockAgreesWithItself(p: Parse, flags: seq<string>, ints: seq<IntBound>, reals: seq<RealBound>, b: Block)
    requires Bounded(b, flags, ints, reals)
    ensures BlockAgrees(p, flags, ints, reals, b, b)
  {}

  lemma MergedBlockAgrees(p: Parse, flags: seq<string>, ints: seq<IntBound>, reals: seq<RealBound>, saved: Dict,
        prior: Block)
    requires Sane(p, flags, ints, reals) && Bounded(prior, flags, ints, reals)
    ensures var r := MergeBlock(p, flags, ints, reals, saved, prior);
            r.Returned? ==> BlockAgrees(p, flags, ints, reals, prior, r.value)
  {
    hide Merge, Merged, Agrees;
    MergeBlockSpec(p, flags, ints, reals, saved, prior);
    var r := MergeBlock(p, flags, ints, reals, saved, prior);
    if r.Returned? {
      MergedAgrees(FlagFields(flags), saved, prior.flags, r.value.flags);
      MergedAgrees(IntFields(p, ints), saved, prior.ints, r.value.ints);
      MergedAgrees(RealFields(p, reals), saved, prior.reals, r.value.reals);
    }
  }

  lemma DiscoveryTables(p: Parse)
    ensures Sane(p, DISCOVERY_FLAGS, DISCOVERY_BOUNDS, DISCOVERY_REALS)
    ensures HasField(IntFields(p, DISCOVERY_BOUNDS), "max_survivors")
    ensures HasField(IntFields(p, DISCOVERY_BOUNDS), "max_council_calls_per_pass")
    ensures forall b :: DiscoveryBounded(b) ==>
              && "max_finalists" in b.ints && 1 <= b.ints["max_finalists"] <= 50
              && "max_survivors" in b.ints && 1 <= b.ints["max_survivors"] <= 20
              && "max_council_calls_per_pass" in b.ints && 0 <= b.ints["max_council_calls_per_pass"] <= 20
  {
    Tables();
    var f := IntFields(p, DISCOVERY_BOUNDS);
    assert DISCOVERY_BOUNDS[1].key == "max_finalists" && DISCOVERY_BOUNDS[2].key == "max_survivors"
        && DISCOVERY_BOUNDS[3].key == "max_council_calls_per_pass";
    assert f[2].key == "max_survivors" && f[3].key == "max_council_calls_per_pass";
  }

  /** Clamping down survivors and calls keeps every discovery field in its own bounds. */
  lemma NarrowingKeepsBounds(p: Parse, b: Block)
    requires DiscoveryBounded(b)
    ensures DiscoveryBounded(Narrowing(b)) && Narrows(Narrowing(b))
    ensures Narrowing(b) == b <==> Narrows(b)
    ensures Narrowing(b).flags == b.flags && Narrowing(b).reals == b.reals && Narrowing(b).ints.Keys == b.ints.Keys
    ensures forall k :: k in b.ints && !HasField(IntFields(p, DISCOVERY_BOUNDS), k) ==>
              Narrowing(b).ints[k] == b.ints[k]
  {
    hide HasField;
    DiscoveryTables(p);
    var n := Narrowing(b);
    assert n.ints["max_finalists"] == b.ints["max_finalists"];
    if Narrows(b) {
      assert n.ints == b.ints;
    }
  }

  lemma DiscoverySpec(p: Parse, saved: Dict, prior: Block)
    requires DiscoveryBounded(prior) && Shaped(prior)
    ensures var r := ReadDiscovery(p, saved, prior); var nested := Nested(saved, "discovery");
            && (r.Raised? <==> nested.Some? && BlockRaises(DISCOVERY_BOUNDS, DISCOVERY_REALS, nested.value))
            && (r.Returned? ==> DiscoveryBounded(r.value) && Shaped(r.value))
            && (r.Returned? ==> BlockAgrees(p, DISCOVERY_FLAGS, DISCOVERY_BOUNDS, DISCOVERY_REALS, prior, r.value))
            && (r.Returned? ==> (Narrows(r.value) <==> nested.Some? || Narrows(prior)))
  {
    hide BlockRaises, MergeBlock, HasField, Narrowing, Narrows;
    DiscoveryTables(p);
    match Nested(saved, "discovery")
    case None => BlockAgreesWithItself(p, DISCOVERY_FLAGS, DISCOVERY_BOUNDS, DISCOVERY_REALS, prior);
    case Some(d) =>
      MergeBlockSpec(p, DISCOVERY_FLAGS, DISCOVERY_BOUNDS, DISCOVERY_REALS, d, prior);
      MergedBlockAgrees(p, DISCOVERY_FLAGS, DISCOVERY_BOUNDS, DISCOVERY_REALS, d, prior);
      var merged := MergeBlock(p, DISCOVERY_FLAGS, DISCOVERY_BOUNDS, DISCOVERY_REALS, d, prior);
      if merged.Returned? {
        NarrowingKeepsBounds(p, merged.value);
      }
  }

  lemma AdaptiveTables(p: Parse)
    ensures Sane(p, ADAPTIVE_FLAGS, ADAPTIVE_BOUNDS, ADAPTIVE_REALS)
    ensures HasField(FlagFields(ADAPTIVE_FLAGS), "adaptive_watchlist_shaping_enabled")
    ensures HasField(FlagFields(ADAPTIVE_FLAGS), "adaptive_react_defensive_enabled")
    ensures forall b :: AdaptiveBounded(b) ==>
              && "adaptive_news_feed_enabled" in b.flags && "adaptive_watchlist_shaping_enabled" in b.flags
              && "adaptive_react_defensive_enabled" in b.flags
  {
    Tables();
    var f := FlagFields(ADAPTIVE_FLAGS);
    assert ADAPTIVE_FLAGS[0] == "adaptive_news_feed_enabled";
    assert f[1].key == ADAPTIVE_FLAGS[1] == "adaptive_watchlist_shaping_enabled";
    assert f[2].key == ADAPTIVE_FLAGS[2] == "adaptive_react_defensive_enabled";
  }

  lemma DownstreamOffSpec(p: Parse, b: Block)
    requires AdaptiveBounded(b)
    ensures AdaptiveBounded(DownstreamOff(b)) && FeedIsMaster(DownstreamOff(b))
    ensures DownstreamOff(b) == b <==> FeedIsMaster(b)
    ensures DownstreamOff(b).ints == b.ints && DownstreamOff(b).reals == b.reals
    ensures DownstreamOff(b).flags.Keys == b.flags.Keys
    ensures forall k :: k in b.flags && !HasField(FlagFields(ADAPTIVE_FLAGS), k) ==>
              DownstreamOff(b).flags[k] == b.flags[k]
  {
    hide HasField;
    AdaptiveTables(p);
    if FeedIsMaster(b) {
      assert DownstreamOff(b).flags == b.flags;
    }
  }

  lemma AdaptiveSpec(p: Parse, saved: Dict, prior: Block)
    requires AdaptiveBounded(prior) && Shaped(prior)
    ensures var r := ReadAdaptive(p, saved, prior); var nested := Nested(saved, "adaptive_realtime");
            && (r.Raised? <==> nested.Some? && BlockRaises(ADAPTIVE_BOUNDS, ADAPTIVE_REALS, nested.value))
            && (r.Returned? ==> AdaptiveBounded(r.value) && Shaped(r.value))
            && (r.Returned? ==> BlockAgrees(p, ADAPTIVE_FLAGS, ADAPTIVE_BOUNDS, ADAPTIVE_REALS, prior, r.value))
            && (r.Returned? ==> (FeedIsMaster(r.value) <==> nested.Some? || FeedIsMaster(prior)))
  {
    hide BlockRaises, MergeBlock, HasField, DownstreamOff, FeedIsMaster;
    AdaptiveTables(p);
    match Nested(saved, "adaptive_realtime")
    case None => BlockAgreesWithItself(p, ADAPTIVE_FLAGS, ADAPTIVE_BOUNDS, ADAPTIVE_REALS, prior);
    case Some(d) =>
      MergeBlockSpec(p, ADAPTIVE_FLAGS, ADAPTIVE_BOUNDS, ADAPTIVE_REALS, d, prior);
      MergedBlockAgrees(p, ADAPTIVE_FLAGS, ADAPTIVE_BOUNDS, ADAPTIVE_REALS, d, prior);
      var merged := MergeBlock(p, ADAPTIVE_FLAGS, ADAPTIVE_BOUNDS, ADAPTIVE_REALS, d, prior);
      if merged.Returned? {
        DownstreamOffSpec(p, merged.value);
      }
  }

  lemma BudgetSpec(p: Parse, saved: Dict, prior: Block)
    requires BudgetBounded(prior) && prior.flags == map[] && prior.reals == map[]
    ensures var r := ReadBudget(p, saved, prior); var nested := Nested(saved, "budget");
            && (r.Raised? <==> nested.Some? && BlockRaises(BUDGET_BOUNDS, [], nested.value))
            && (r.Returned? ==> BudgetBounded(r.value) && r.value.flags == map[] && r.value.reals == map[])
            && (r.Returned? ==> BlockAgrees(p, [], BUDGET_BOUNDS, [], prior, r.value))
  {
    hide BlockRaises, MergeBlock, HasField;
    Tables();
    match Nested(saved, "budget")
    case None => BlockAgreesWithItself(p, [], BUDGET_BOUNDS, [], prior);
    case Some(d) =>
      MergeBlockSpec(p, [], BUDGET_BOUNDS, [], d, prior);
      MergedBlockAgrees(p, [], BUDGET_BOUNDS, [], d, prior);
      var merged := MergeBlock(p, [], BUDGET_BOUNDS, [], d, prior);
      if merged.Returned? {
        assert merged.value.flags.Keys == {} && merged.value.reals.Keys == {};
        assert merged.value.flags == map[] && merged.value.reals == map[];
      }
  }

  lemma NestedFlagsSpec(keys: seq<string>, saved: Dict, block: string, prior: map<string, bool>)
    requires HasKeys(keys, prior)
    ensures var r := MergeNested(FlagFields(keys), saved, block, prior);
            r.Returned? && HasKeys(keys, r.value) && Agrees(FlagFields(keys), prior, r.value)
  {
    var fields := FlagFields(keys);
    FlagsAreTotal(keys);
    match Nested(saved, block)
    case None =>
    case Some(d) =>
      MergeTotal(fields, v => Some(Truthy(v)), d, prior);
      var m := prior + Setting(fields, v => Some(Truthy(v)), d);
      assert forall k :: k in keys ==> k in prior;
      assert m.Keys == prior.Keys;
  }

  lemma SourcesSpec(saved: Dict, prior: map<string, string>)
    requires HasKeys(SOURCE_LAYERS, prior) && forall k :: k in prior ==> IsSource(prior[k])
    ensures var r := MergeNested(SourceFields(SOURCE_LAYERS), saved, "layer_sources", prior);
            r.Returned? && HasKeys(SOURCE_LAYERS, r.value) && Agrees(SourceFields(SOURCE_LAYERS), prior, r.value)
            && forall k :: k in r.value ==> IsSource(r.value[k])
  {
    var fields := SourceFields(SOURCE_LAYERS);
    SourcesAreTotal(SOURCE_LAYERS);
    assert forall i :: 0 <= i < |fields| ==> fields[i].key == SOURCE_LAYERS[i];
    match Nested(saved, "layer_sources")
    case None =>
    case Some(d) =>
      MergeTotal(fields, v => ValidText(v, IsSource), d, prior);
      var m := prior + Setting(fields, v => ValidText(v, IsSource), d);
      assert m.Keys == prior.Keys;
  }

  lemma PinsSpec(saved: Dict, whitelist: set<string>, prior: map<string, string>)
    requires forall s :: s in prior ==> s in whitelist && IsRegime(prior[s])
    ensures var m := MergePins(saved, whitelist, prior); forall s :: s in m ==> s in whitelist && IsRegime(m[s])
    ensures forall s :: s in prior ==> s in MergePins(saved, whitelist, prior)
  {}

  /** The one thing that makes reading a hand-edited object fail: an infinite number where an
      integer belongs, or an integer no float can hold where a float belongs. */
  predicate Overflows(saved: Dict) {
    var d, a, b := Nested(saved, "discovery"), Nested(saved, "adaptive_realtime"), Nested(saved, "budget");
    || (d.Some? && BlockRaises(DISCOVERY_BOUNDS, DISCOVERY_REALS, d.value))
    || (a.Some? && BlockRaises(ADAPTIVE_BOUNDS, ADAPTIVE_REALS, a.value))
    || (b.Some? && BlockRaises(BUDGET_BOUNDS, [], b.value))
  }

  ghost predicate PartsAgree(p: Parse, models: seq<string>, prior: Parts, x: Parts) {
    && Agrees(FlagFields(LAYERS), prior.layers, x.layers) && Agrees(FlagFields(models), prior.models, x.models)
    && Agrees(FlagFields(SLEEVES), prior.sleeves, x.sleeves)
    && Agrees(FlagFields(WHALE_FEEDS), prior.whaleFeeds, x.whaleFeeds)
    && Agrees(SourceFields(SOURCE_LAYERS), prior.sources, x.sources)
    && BlockAgrees(p, [], BUDGET_BOUNDS, [], prior.budget, x.budget)
    && BlockAgrees(p, DISCOVERY_FLAGS, DISCOVERY_BOUNDS, DISCOVERY_REALS, prior.discovery, x.discovery)
    && BlockAgrees(p, ADAPTIVE_FLAGS, ADAPTIVE_BOUNDS, ADAPTIVE_REALS, prior.adaptive, x.adaptive)
  }

  lemma ReadPartsKeepsTheRules(p: Parse, saved: Dict, prior: Parts, models: seq<string>)
    requires PartsOk(prior, models)
    ensures var r := ReadParts(p, saved, prior, models);
            && (r.Raised? <==> Overflows(saved))
            && (r.Returned? ==> PartsOk(r.value, models) && PartsAgree(p, models, prior, r.value))
            && (r.Returned? ==>
                  (Narrows(r.value.discovery) <==> Nested(saved, "discovery").Some? || Narrows(prior.discovery)))
            && (r.Returned? ==>
                  (FeedIsMaster(r.value.adaptive)
                   <==> Nested(saved, "adaptive_realtime").Some? || FeedIsMaster(prior.adaptive)))
  {
    hide ReadDiscovery, ReadAdaptive, ReadBudget, MergeNested, BlockAgrees, Agrees, BlockRaises, Narrows, Nested,
         FeedIsMaster, DiscoveryBounded, AdaptiveBounded, BudgetBounded, HasKeys, Shaped, FlagFields, SourceFields;
    DiscoverySpec(p, saved, prior.discovery);
    AdaptiveSpec(p, saved, prior.adaptive);
    BudgetSpec(p, saved, prior.budget);
    NestedFlagsSpec(LAYERS, saved, "layers", prior.layers);
    NestedFlagsSpec(models, saved, "models", prior.models);
    NestedFlagsSpec(SLEEVES, saved, "sleeves", prior.sleeves);
    NestedFlagsSpec(WHALE_FEEDS, saved, "whale_feeds", prior.whaleFeeds);
    SourcesSpec(saved, prior.sources);
  }

  lemma AssembleOk(parts: Parts, saved: Dict, defaults: State, whitelist: set<string>)
    requires TopOk(defaults, whitelist)
    ensures TopOk(Assemble(parts, saved, defaults, whitelist), whitelist)
    ensures PartsOf(Assemble(parts, saved, defaults, whitelist)) == parts
    ensures forall s :: s in defaults.pins ==> s in Assemble(parts, saved, defaults, whitelist).pins
  {
    hide MergePins;
    PinsSpec(saved, whitelist, defaults.pins);
  }

  /** For any hand-edited object, `read_controls` returns every field in bounds, unless a number
      overflows; the funnel narrows and the feed is master whenever the object carries the block
      or the configuration obeys the rule. */
  lemma ReadControlsKeepsTheRules(p: Parse, saved: Dict, defaults: State, models: seq<string>, whitelist: set<string>)
    requires StateOk(defaults, models, whitelist)
    ensures var r := ReadControls(p, saved, defaults, models, whitelist);
            && (r.Raised? <==> Overflows(saved))
            && (r.Returned? ==> StateOk(r.value, models, whitelist))
            && (r.Returned? ==>
                  (Narrows(r.value.discovery) <==> Nested(saved, "discovery").Some? || Narrows(defaults.discovery)))
            && (r.Returned? ==>
                  (FeedIsMaster(r.value.adaptive)
                   <==> Nested(saved, "adaptive_realtime").Some? || FeedIsMaster(defaults.adaptive)))
  {
    hide ReadParts, Assemble, PartsOk, TopOk, PartsAgree, Narrows, FeedIsMaster, Nested, Overflows;
    var r := ReadParts(p, saved, PartsOf(defaults), models);
    ReadPartsKeepsTheRules(p, saved, PartsOf(defaults), models);
    if r.Returned? {
      AssembleOk(r.value, saved, defaults, whitelist);
    }
  }

  /** A hand-edited file that `read_controls` raises on: `{"budget": {"council_daily_budget": Infinity}}`. */
  lemma InfiniteBudgetRaises(p: Parse, defaults: State, models: seq<string>, whitelist: set<string>)
    requires StateOk(defaults, models, whitelist)
    ensures ReadControls(p, map["budget" := VDict(map["council_daily_budget" := VInfinite(false)])],
                         defaults, models, whitelist).Raised?
  {
    hide ReadControls, StateOk;
    var budget: Dict := map["council_daily_budget" := VInfinite(false)];
    var saved: Dict := map["budget" := VDict(budget)];
    assert BUDGET_BOUNDS[0].key == "council_daily_budget";
    assert Overflows(saved);
    ReadControlsKeepsTheRules(p, saved, defaults, models, whitelist);
  }

  // ----- Writing and reading again ----------------------------------------------------------------------

  lemma BlocksShadow(st: State, models: seq<string>, ts: string, k: string)
    requires |models| == 3 && k in Blocks(st)
    ensures k in Out(st, models, ts) && Out(st, models, ts)[k] == Blocks(st)[k]
  {
    hide Blocks, TopFlags, TopTexts, TopInts, TopPins;
  }

  /** What reading needs of the written object's nested blocks. */
  predicate CarriesParts(out: Dict, x: Parts) {
    && Nested(out, "layers") == Some(FlagDict(x.layers)) && Nested(out, "layer_sources") == Some(TextDict(x.sources))
    && Nested(out, "models") == Some(FlagDict(x.models)) && Nested(out, "budget") == Some(IntDict(x.budget.ints))
    && Nested(out, "discovery") == Some(BlockDict(x.discovery))
    && Nested(out, "adaptive_realtime") == Some(BlockDict(x.adaptive))
    && Nested(out, "sleeves") == Some(FlagDict(x.sleeves)) && Nested(out, "whale_feeds") == Some(FlagDict(x.whaleFeeds))
  }

  lemma BlockAt(st: State, models: seq<string>, ts: string, k: string, d: Dict)
    requires |models| == 3 && k in Blocks(st) && Blocks(st)[k] == VDict(d)
    ensures Nested(Out(st, models, ts), k) == Some(d)
  {
    hide Out, Blocks;
    BlocksShadow(st, models, ts, k);
  }

  lemma BlockValues(st: State)
    ensures var b := Blocks(st);
            && "layers" in b && b["layers"] == VDict(FlagDict(st.layers))
            && "layer_sources" in b && b["layer_sources"] == VDict(TextDict(st.sources))
            && "models" in b && b["models"] == VDict(FlagDict(st.models))
            && "budget" in b && b["budget"] == VDict(IntDict(st.budget.ints))
            && "regime_pins" in b && b["regime_pins"] == VDict(TextDict(st.pins))
            && "discovery" in b && b["discovery"] == VDict(BlockDict(st.discovery))
  {
    hide FlagDict, TextDict, IntDict, BlockDict;
  }

  lemma MoreBlockValues(st: State)
    ensures var b := Blocks(st);
            && "adaptive_realtime" in b && b["adaptive_realtime"] == VDict(BlockDict(st.adaptive))
            && "sleeves" in b && b["sleeves"] == VDict(FlagDict(st.sleeves))
            && "whale_feeds" in b && b["whale_feeds"] == VDict(FlagDict(st.whaleFeeds))
            && "pending_promote" in b && b["pending_promote"] == st.promote
            && "pending_rollback" in b && b["pending_rollback"] == st.rollback
  {
    hide FlagDict, TextDict, IntDict, BlockDict;
  }

  lemma OutCarriesParts(st: State, models: seq<string>, ts: string)
    requires |models| == 3
    ensures CarriesParts(Out(st, models, ts), PartsOf(st))
    ensures Nested(Out(st, models, ts), "regime_pins") == Some(TextDict(st.pins))
  {
    hide Out, Blocks, BlockDict, FlagDict, TextDict, IntDict, Nested;
    BlockValues(st);
    MoreBlockValues(st);
    BlockAt(st, models, ts, "layers", FlagDict(st.layers));
    BlockAt(st, models, ts, "layer_sources", TextDict(st.sources));
    BlockAt(st, models, ts, "models", FlagDict(st.models));
    BlockAt(st, models, ts, "budget", IntDict(st.budget.ints));
    BlockAt(st, models, ts, "regime_pins", TextDict(st.pins));
    BlockAt(st, models, ts, "discovery", BlockDict(st.discovery));
    BlockAt(st, models, ts, "adaptive_realtime", BlockDict(st.adaptive));
    BlockAt(st, models, ts, "sleeves", FlagDict(st.sleeves));
    BlockAt(st, models, ts, "whale_feeds", FlagDict(st.whaleFeeds));
  }

  lemma BlockNames(st: State)
    ensures Blocks(st).Keys == {"layers", "layer_sources", "models", "budget", "regime_pins", "discovery",
              "adaptive_realtime", "sleeves", "whale_feeds", "pending_promote", "pending_rollback"}
  {}

  lemma FlagNames(st: State, models: seq<string>)
    requires |models| == 3
    ensures TopFlags(st, models).Keys == {"gate_enabled", "auto_promote", "rl_enabled", "rebalance_requested",
              "layer_adaptive_enabled", "layer_council_enabled", "layer_dnn_advisory_enabled", "layer_whale_enabled",
              "llm_primary_enabled", "llm_secondary_enabled", "llm_tertiary_enabled"}
  {}

  lemma TextNames(st: State, ts: string)
    ensures TopTexts(st, ts).Keys == {"feed_mode", "clock_mode", "strategy_profile", "ts", "council_source",
              "dnn_advisory_source", "whale_source"}
  {}

  lemma FlagShadows(st: State, models: seq<string>, ts: string, k: string)
    requires |models| == 3 && k in TopFlags(st, models) && k !in Blocks(st)
    ensures k in Out(st, models, ts) && Out(st, models, ts)[k] == VBool(TopFlags(st, models)[k])
  {
    hide Blocks, TopFlags, TopTexts, TopInts, TopPins;
  }

  lemma TextShadows(st: State, models: seq<string>, ts: string, k: string)
    requires |models| == 3 && k in TopTexts(st, ts) && k !in TopFlags(st, models) && k !in Blocks(st)
    ensures k in Out(st, models, ts) && Out(st, models, ts)[k] == VStr(TopTexts(st, ts)[k])
  {
    hide Blocks, TopFlags, TopTexts, TopInts, TopPins;
  }

  predicate CarriesTop(out: Dict, st: State) {
    && "gate_enabled" in out && out["gate_enabled"] == VBool(st.gate)
    && "auto_promote" in out && out["auto_promote"] == VBool(st.autoPromote)
    && "rl_enabled" in out && out["rl_enabled"] == VBool(st.rl)
    && "rebalance_requested" in out && out["rebalance_requested"] == VBool(st.rebalance)
    && "feed_mode" in out && out["feed_mode"] == VStr(st.feedMode)
    && "clock_mode" in out && out["clock_mode"] == VStr(st.clockMode)
    && "strategy_profile" in out && out["strategy_profile"] == VStr(st.profile)
    && "pending_promote" in out && out["pending_promote"] == st.promote
    && "pending_rollback" in out && out["pending_rollback"] == st.rollback
  }

  lemma FlagValues(st: State, models: seq<string>)
    requires |models| == 3
    ensures var f := TopFlags(st, models);
            && "gate_enabled" in f && f["gate_enabled"] == st.gate
            && "auto_promote" in f && f["auto_promote"] == st.autoPromote
            && "rl_enabled" in f && f["rl_enabled"] == st.rl
            && "rebalance_requested" in f && f["rebalance_requested"] == st.rebalance
  {}

  lemma NotFlags(st: State, models: seq<string>)
    requires |models| == 3
    ensures "feed_mode" !in TopFlags(st, models) && "clock_mode" !in TopFlags(st, models)
    ensures "strategy_profile" !in TopFlags(st, models)
  {
    hide TopFlags;
    FlagNames(st, models);
  }

  lemma NotBlocks(st: State)
    ensures "gate_enabled" !in Blocks(st) && "auto_promote" !in Blocks(st) && "rl_enabled" !in Blocks(st)
    ensures "rebalance_requested" !in Blocks(st) && "feed_mode" !in Blocks(st) && "clock_mode" !in Blocks(st)
    ensures "strategy_profile" !in Blocks(st)
  {
    hide Blocks;
    BlockNames(st);
  }

  lemma OutCarriesTop(st: State, models: seq<string>, ts: string)
    requires |models| == 3
    ensures CarriesTop(Out(st, models, ts), st)
  {
    hide Out, Blocks, TopFlags;
    FlagValues(st, models);
    NotFlags(st, models);
    NotBlocks(st);
    MoreBlockValues(st);
    BlocksShadow(st, models, ts, "pending_promote");
    BlocksShadow(st, models, ts, "pending_rollback");
    FlagShadows(st, models, ts, "gate_enabled");
    FlagShadows(st, models, ts, "auto_promote");
    FlagShadows(st, models, ts, "rl_enabled");
    FlagShadows(st, models, ts, "rebalance_requested");
    TextShadows(st, models, ts, "feed_mode");
    TextShadows(st, models, ts, "clock_mode");
    TextShadows(st, models, ts, "strategy_profile");
  }

  lemma RereadNestedFlags(keys: seq<string>, saved: Dict, block: string, prior: map<string, bool>, m: map<string, bool>)
    requires Nested(saved, block) == Some(FlagDict(m)) && Agrees(FlagFields(keys), prior, m)
    ensures MergeNested(FlagFields(keys), saved, block, prior) == Returned(m)
  {
    FlagsAreTotal(keys);
    RereadTotal(FlagFields(keys), v => Some(Truthy(v)), FlagDict(m), prior, m);
  }

  lemma RereadSources(saved: Dict, prior: map<string, string>, m: map<string, string>)
    requires Nested(saved, "layer_sources") == Some(TextDict(m)) && Agrees(SourceFields(SOURCE_LAYERS), prior, m)
    requires forall k :: k in m ==> IsSource(m[k])
    ensures MergeNested(SourceFields(SOURCE_LAYERS), saved, "layer_sources", prior) == Returned(m)
  {
    SourcesAreTotal(SOURCE_LAYERS);
    RereadTotal(SourceFields(SOURCE_LAYERS), v => ValidText(v, IsSource), TextDict(m), prior, m);
  }

  lemma RereadPins(saved: Dict, whitelist: set<string>, prior: map<string, string>, m: map<string, string>)
    requires Nested(saved, "regime_pins") == Some(TextDict(m))
    requires (forall s :: s in m ==> s in whitelist && IsRegime(m[s])) && forall s :: s in prior ==> s in m
    ensures MergePins(saved, whitelist, prior) == m
  {}

  lemma RereadDiscovery(p: Parse, saved: Dict, prior: Block, b: Block)
    requires Nested(saved, "discovery") == Some(BlockDict(b)) && DiscoveryBounded(b) && Shaped(b)
    requires BlockAgrees(p, DISCOVERY_FLAGS, DISCOVERY_BOUNDS, DISCOVERY_REALS, prior, b)
    ensures ReadDiscovery(p, saved, prior) == Returned(Narrowing(b))
    ensures Narrowing(b) == b <==> Narrows(b)
  {
    hide Agrees, MergeBlock, BlockDict, Narrows, Narrowing;
    DiscoveryTables(p);
    RereadBlock(p, DISCOVERY_FLAGS, DISCOVERY_BOUNDS, DISCOVERY_REALS, prior, b);
    NarrowingKeepsBounds(p, b);
  }

  lemma RereadAdaptive(p: Parse, saved: Dict, prior: Block, b: Block)
    requires Nested(saved, "adaptive_realtime") == Some(BlockDict(b)) && AdaptiveBounded(b) && Shaped(b)
    requires BlockAgrees(p, ADAPTIVE_FLAGS, ADAPTIVE_BOUNDS, ADAPTIVE_REALS, prior, b)
    ensures ReadAdaptive(p, saved, prior) == Returned(DownstreamOff(b))
    ensures DownstreamOff(b) == b <==> FeedIsMaster(b)
  {
    hide Agrees, MergeBlock, BlockDict, FeedIsMaster, DownstreamOff;
    AdaptiveTables(p);
    RereadBlock(p, ADAPTIVE_FLAGS, ADAPTIVE_BOUNDS, ADAPTIVE_REALS, prior, b);
    DownstreamOffSpec(p, b);
  }

  lemma RereadBudget(p: Parse, saved: Dict, prior: Block, b: Block)
    requires Nested(saved, "budget") == Some(IntDict(b.ints)) && BudgetBounded(b) && b.flags == map[] && b.reals == map[]
    requires BlockAgrees(p, [], BUDGET_BOUNDS, [], prior, b)
    ensures ReadBudget(p, saved, prior) == Returned(b)
  {
    hide Agrees, MergeBlock;
    Tables();
    assert IntDict(b.ints) == BlockDict(b);
    RereadBlock(p, [], BUDGET_BOUNDS, [], prior, b);
  }

  lemma RereadParts(p: Parse, out: Dict, prior: Parts, x: Parts, models: seq<string>)
    requires CarriesParts(out, x) && PartsOk(x, models) && PartsAgree(p, models, prior, x)
    ensures ReadParts(p, out, prior, models)
         == Returned(x.(discovery := Narrowing(x.discovery), adaptive := DownstreamOff(x.adaptive)))
  {
    hide ReadDiscovery, ReadAdaptive, ReadBudget, MergeNested, BlockAgrees, Agrees, Narrowing, DownstreamOff,
         DiscoveryBounded, AdaptiveBounded, BudgetBounded, HasKeys, Shaped, Nested, FlagDict, TextDict, IntDict, BlockDict,
         FlagFields, SourceFields;
    RereadDiscovery(p, out, prior.discovery, x.discovery);
    RereadAdaptive(p, out, prior.adaptive, x.adaptive);
    RereadBudget(p, out, prior.budget, x.budget);
    RereadNestedFlags(LAYERS, out, "layers", prior.layers, x.layers);
    RereadNestedFlags(models, out, "models", prior.models, x.models);
    RereadNestedFlags(SLEEVES, out, "sleeves", prior.sleeves, x.sleeves);
    RereadNestedFlags(WHALE_FEEDS, out, "whale_feeds", prior.whaleFeeds, x.whaleFeeds);
    RereadSources(out, prior.sources, x.sources);
  }

  lemma RereadTop(parts: Parts, out: Dict, st: State, defaults: State, whitelist: set<string>)
    requires CarriesTop(out, st) && TopOk(st, whitelist) && Nested(out, "regime_pins") == Some(TextDict(st.pins))
    requires forall s :: s in defaults.pins ==> s in st.pins
    ensures PartsOf(st) == parts ==> Assemble(parts, out, defaults, whitelist) == st
    ensures Assemble(parts, out, defaults, whitelist) == st ==> PartsOf(st) == parts
  {
    hide MergePins, Nested, TextDict, IsFeedMode, IsClockMode, IsProfile, IsRegime;
    RereadPins(out, whitelist, defaults.pins, st.pins);
  }

  /** For any state `read_controls` returns, writing it and reading again gives the same state exactly
      when it obeys the narrowing and feed rules, which it does under a valid configuration. */
  lemma WritingRoundTrips(p: Parse, saved: Dict, ts: string, defaults: State, models: seq<string>,
        whitelist: set<string>)
    requires |models| == 3 && StateOk(defaults, models, whitelist)
    requires ReadControls(p, saved, defaults, models, whitelist).Returned?
    ensures var st := ReadControls(p, saved, defaults, models, whitelist).value;
            && (ReadControls(p, Out(st, models, ts), defaults, models, whitelist) == Returned(st)
                <==> Narrows(st.discovery) && FeedIsMaster(st.adaptive))
            && (Narrows(defaults.discovery) && FeedIsMaster(defaults.adaptive) ==>
                Narrows(st.discovery) && FeedIsMaster(st.adaptive))
  {
    hide ReadParts, Assemble, PartsOk, TopOk, PartsAgree, Narrows, FeedIsMaster, Nested, Overflows, Out, Narrowing,
         DownstreamOff,
         CarriesParts, CarriesTop;
    var prior := PartsOf(defaults);
    var x := ReadParts(p, saved, prior, models).value;
    var st := Assemble(x, saved, defaults, whitelist);
    var out := Out(st, models, ts);
    ReadPartsKeepsTheRules(p, saved, prior, models);
    AssembleOk(x, saved, defaults, whitelist);
    OutCarriesParts(st, models, ts);
    OutCarriesTop(st, models, ts);
    RereadParts(p, out, prior, x, models);
    var again := x.(discovery := Narrowing(x.discovery), adaptive := DownstreamOff(x.adaptive));
    RereadTop(again, out, st, defaults, whitelist);
    RulesAreFixedPoints(p, x, models);
  }

  lemma RulesAreFixedPoints(p: Parse, x: Parts, models: seq<string>)
    requires PartsOk(x, models)
    ensures Narrowing(x.discovery) == x.discovery <==> Narrows(x.discovery)
    ensures DownstreamOff(x.adaptive) == x.adaptive <==> FeedIsMaster(x.adaptive)
  {
    hide Narrowing, DownstreamOff, Narrows, FeedIsMaster, DiscoveryBounded, AdaptiveBounded;
    NarrowingKeepsBounds(p, x.discovery);
    DownstreamOffSpec(p, x.adaptive);
  }
}
