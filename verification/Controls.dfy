/** The operator control state (api_server/controls.py): how a saved file is merged over the
    configuration's defaults and every field re-validated, whatever the file holds. */
module Controls {
  import opened Numbers
  import opened Text

  /** What `json.load` gives Python: numbers are integers, floats, infinities or NaN. */
  datatype Value =
    | VNull
    | VBool(b: bool)
    | VInt(n: int)
    | VFloat(x: real)
    | VInfinite(negative: bool)
    | VNan
    | VStr(s: string)
    | VList(items: seq<Value>)
    | VDict(entries: map<string, Value>)

  type Dict = map<string, Value>

  /** `int(str)` and `float(str)`, as far as they succeed. */
  datatype Parse = Parse(toInt: string -> Option<int>, toFloat: string -> Option<Value>)

  // ----- Coercions ---------------------------------------------------------------------------

  predicate Truthy(v: Value) {
    match v
    case VNull => false
    case VBool(b) => b
    case VInt(n) => n != 0
    case VFloat(x) => x != 0.0
    case VInfinite(_) => true
    case VNan => true
    case VStr(s) => s != ""
    case VList(items) => items != []
    case VDict(entries) => entries != map[]
  }

  function ClampInt(n: int, lo: int, hi: int): int {
    var low := if n < hi then n else hi;
    if lo < low then low else lo
  }

  function ClampReal(x: real, lo: real, hi: real): real {
    var low := if x < hi then x else hi;
    if lo < low then low else lo
  }

  /** `_clamp_int`: `int(v)` fails softly on a type or value error, to the lower bound; an
      infinite float makes it raise an overflow error, which is not caught. */
  function ClampedInt(p: Parse, v: Value, lo: int, hi: int): Outcome<int> {
    match v
    case VInfinite(_) => Raised
    case VBool(b) => Returned(ClampInt(if b then 1 else 0, lo, hi))
    case VInt(n) => Returned(ClampInt(n, lo, hi))
    case VFloat(x) => Returned(ClampInt(Truncated(x), lo, hi))
    case VStr(s) => Returned(ClampInt(match p.toInt(s) case Some(n) => n case None => lo, lo, hi))
    case _ => Returned(ClampInt(lo, lo, hi))
  }

  /** `float(v)` raises. */
  predicate TooBig(v: Value) { v.VInt? && BeyondDouble(v.n as real) }

  /** `_clamp_float`; `min` keeps its first argument beside a NaN, so a NaN clamps to the upper bound. */
  function ClampedFloat(p: Parse, v: Value, lo: real, hi: real): Outcome<real> {
    match v
    case VBool(b) => Returned(ClampReal(if b then 1.0 else 0.0, lo, hi))
    case VInt(n) => if TooBig(v) then Raised else Returned(ClampReal(n as real, lo, hi))
    case VStr(s) =>
      (match p.toFloat(s)
       case Some(VFloat(x)) => Returned(ClampReal(x, lo, hi))
       case Some(VInfinite(negative)) => Returned(if negative then lo else ClampReal(hi, lo, hi))
       case Some(VNan) => Returned(ClampReal(hi, lo, hi))
       case _ => Returned(lo))
    case VFloat(x) => Returned(ClampReal(x, lo, hi))
    case VInfinite(negative) => Returned(if negative then lo else ClampReal(hi, lo, hi))
    case VNan => Returned(ClampReal(hi, lo, hi))
    case _ => Returned(lo)
  }

  // ----- The state ------------------------------------------------------------------------------

  datatype IntBound = IntBound(key: string, lo: int, hi: int)
  datatype RealBound = RealBound(key: string, lo: real, hi: real)

  /** One nested block of the file: its flags, its bounded integers and its bounded floats. */
  datatype Block = Block(flags: map<string, bool>, ints: map<string, int>, reals: map<string, real>)

  datatype State = State(
    layers: map<string, bool>, sources: map<string, string>,
    feedMode: string, clockMode: string, profile: string,
    gate: bool, autoPromote: bool, rl: bool, rebalance: bool,
    models: map<string, bool>, budget: Block, pins: map<string, string>,
    discovery: Block, adaptive: Block, sleeves: map<string, bool>, whaleFeeds: map<string, bool>,
    promote: Value, rollback: Value)

  const LAYERS := ["adaptive", "council", "dnn_advisory", "whale"]
  const SOURCE_LAYERS := ["council", "dnn_advisory", "whale"]
  const SLEEVES := ["quant_core", "research_satellite"]
  const WHALE_FEEDS := ["sec_edgar_enabled", "whale_live_enabled", "whale_alert_enabled"]

  predicate IsSource(s: string) { s == "mock" || s == "real" }
  predicate IsFeedMode(s: string) {
    s == "alpaca_paper" || s == "synthetic_regimes" || s == "replay" || s == "flat_random_walk"
  }
  predicate IsClockMode(s: string) { s == "real" || s == "simulated" }
  predicate IsProfile(s: string) { s == "swing" || s == "active_quant" }
  predicate IsRegime(s: string) { s == "trending" || s == "range_bound" || s == "neutral" }

  const BUDGET_BOUNDS := [IntBound("council_daily_budget", 1, 500),
                          IntBound("per_symbol_cooldown_minutes", 0, 1440)]

  const DISCOVERY_FLAGS := ["discovery_enabled", "long_term_sleeve_enabled"]
  const DISCOVERY_BOUNDS := [
    IntBound("discovery_daily_council_budget", 0, 100), IntBound("max_finalists", 1, 50),
    IntBound("max_survivors", 1, 20), IntBound("max_council_calls_per_pass", 0, 20),
    IntBound("crypto_interval_minutes", 15, 1440), IntBound("equity_interval_minutes", 15, 1440)]
  const DISCOVERY_REALS := [RealBound("stage_a_whale_weight", 0.0, 1.0)]

  const ADAPTIVE_FLAGS := ["adaptive_news_feed_enabled", "adaptive_watchlist_shaping_enabled",
                           "adaptive_react_defensive_enabled"]
  const ADAPTIVE_BOUNDS := [
    IntBound("poll_interval_seconds", 15, 3600), IntBound("max_symbols_per_poll", 1, 29),
    IntBound("news_lookback_minutes", 1, 240), IntBound("adaptive_daily_llm_budget", 0, 200),
    IntBound("max_interpretations_per_poll", 0, 20), IntBound("action_max_age_seconds", 30, 3600)]
  const ADAPTIVE_REALS := [
    RealBound("materiality_min_sentiment", 0.0, 1.0), RealBound("action_min_severity", 0.0, 1.0),
    RealBound("interpretation_min_relevance", 0.0, 1.0), RealBound("defensive_trim_fraction", 0.01, 1.0)]

  // ----- Bounds and rules ------------------------------------------------------------------------

  predicate Bounded(b: Block, flags: seq<string>, ints: seq<IntBound>, reals: seq<RealBound>) {
    && (forall i :: 0 <= i < |flags| ==> flags[i] in b.flags)
    && (forall i :: 0 <= i < |ints| ==> ints[i].key in b.ints && ints[i].lo <= b.ints[ints[i].key] <= ints[i].hi)
    && (forall i :: 0 <= i < |reals| ==>
          reals[i].key in b.reals && reals[i].lo <= b.reals[reals[i].key] <= reals[i].hi)
  }

  predicate DiscoveryBounded(b: Block) { Bounded(b, DISCOVERY_FLAGS, DISCOVERY_BOUNDS, DISCOVERY_REALS) }
  predicate AdaptiveBounded(b: Block) { Bounded(b, ADAPTIVE_FLAGS, ADAPTIVE_BOUNDS, ADAPTIVE_REALS) }
  predicate BudgetBounded(b: Block) { Bounded(b, [], BUDGET_BOUNDS, []) }

  function Flag(b: Block, key: string): bool { key in b.flags && b.flags[key] }
  function IntOf(b: Block, key: string): int { if key in b.ints then b.ints[key] else 0 }

  /** The funnel narrows: council calls <= survivors <= finalists. */
  predicate Narrows(b: Block) {
    IntOf(b, "max_council_calls_per_pass") <= IntOf(b, "max_survivors") <= IntOf(b, "max_finalists")
  }

  /** No downstream adaptive flag is on while the feed is off. */
  predicate FeedIsMaster(b: Block) {
    Flag(b, "adaptive_news_feed_enabled")
    || (!Flag(b, "adaptive_watchlist_shaping_enabled") && !Flag(b, "adaptive_react_defensive_enabled"))
  }

  function MinInt(a: int, b: int): int { if b < a then b else a }

  function Narrowing(b: Block): Block {
    var survivors := MinInt(IntOf(b, "max_survivors"), IntOf(b, "max_finalists"));
    var calls := MinInt(IntOf(b, "max_council_calls_per_pass"), survivors);
    b.(ints := b.ints["max_survivors" := survivors]["max_council_calls_per_pass" := calls])
  }

  function DownstreamOff(b: Block): Block {
    if Flag(b, "adaptive_news_feed_enabled") then b
    else b.(flags := b.flags["adaptive_watchlist_shaping_enabled" := false]["adaptive_react_defensive_enabled" := false])
  }

  // ----- Reading the saved file --------------------------------------------------------------------

  /** A key the reader looks for, and what it makes of the value there: a new value, nothing
      (the prior value stays), or an uncaught error. */
  datatype Field<T> = Field(key: string, coerce: Value -> Outcome<Option<T>>)

  function Merge<T>(fields: seq<Field<T>>, saved: Dict, prior: map<string, T>): Outcome<map<string, T>> {
    if fields == [] then Returned(prior)
    else
      var f := fields[0];
      if f.key in saved then
        var v :- f.coerce(saved[f.key]);
        Merge(fields[1..], saved, match v case Some(x) => prior[f.key := x] case None => prior)
      else Merge(fields[1..], saved, prior)
  }

  function FlagFields(keys: seq<string>): seq<Field<bool>> {
    seq(|keys|, i requires 0 <= i < |keys| => Field(keys[i], v => Returned(Some(Truthy(v)))))
  }

  function SourceFields(keys: seq<string>): seq<Field<string>> {
    seq(|keys|, i requires 0 <= i < |keys| => Field(keys[i], v => Returned(ValidText(v, IsSource))))
  }

  function ValidText(v: Value, valid: string -> bool): Option<string> {
    if v.VStr? && valid(v.s) then Some(v.s) else None
  }

  function Set<T>(o: Outcome<T>): Outcome<Option<T>> {
    match o case Returned(x) => Returned(Some(x)) case Raised => Raised
  }

  function IntFields(p: Parse, bounds: seq<IntBound>): seq<Field<int>> {
    seq(|bounds|, i requires 0 <= i < |bounds| =>
      Field(bounds[i].key, v => Set(ClampedInt(p, v, bounds[i].lo, bounds[i].hi))))
  }

  function RealFields(p: Parse, bounds: seq<RealBound>): seq<Field<real>> {
    seq(|bounds|, i requires 0 <= i < |bounds| =>
      Field(bounds[i].key, v => Set(ClampedFloat(p, v, bounds[i].lo, bounds[i].hi))))
  }

  function MergeBlock(p: Parse, flags: seq<string>, ints: seq<IntBound>, reals: seq<RealBound>, saved: Dict,
        prior: Block): Outcome<Block> {
    var newFlags :- Merge(FlagFields(flags), saved, prior.flags);
    var newInts :- Merge(IntFields(p, ints), saved, prior.ints);
    var newReals :- Merge(RealFields(p, reals), saved, prior.reals);
    Returned(Block(newFlags, newInts, newReals))
  }

  /** The nested object under `key`; an absent or other value reads as an empty one, which merges nothing. */
  function Nested(saved: Dict, key: string): Option<Dict> {
    if key in saved && saved[key].VDict? then Some(saved[key].entries) else None
  }

  function ReadBudget(p: Parse, saved: Dict, prior: Block): Outcome<Block> {
    match Nested(saved, "budget")
    case None => Returned(prior)
    case Some(b) => MergeBlock(p, [], BUDGET_BOUNDS, [], b, prior)
  }

  function ReadDiscovery(p: Parse, saved: Dict, prior: Block): Outcome<Block> {
    match Nested(saved, "discovery")
    case None => Returned(prior)
    case Some(d) =>
      var merged :- MergeBlock(p, DISCOVERY_FLAGS, DISCOVERY_BOUNDS, DISCOVERY_REALS, d, prior);
      Returned(Narrowing(merged))
  }

  function ReadAdaptive(p: Parse, saved: Dict, prior: Block): Outcome<Block> {
    match Nested(saved, "adaptive_realtime")
    case None => Returned(prior)
    case Some(a) =>
      var merged :- MergeBlock(p, ADAPTIVE_FLAGS, ADAPTIVE_BOUNDS, ADAPTIVE_REALS, a, prior);
      Returned(DownstreamOff(merged))
  }

  function MergeNested<T>(fields: seq<Field<T>>, saved: Dict, block: string, prior: map<string, T>)
    : Outcome<map<string, T>>
  {
    match Nested(saved, block)
    case None => Returned(prior)
    case Some(d) => Merge(fields, d, prior)
  }

  function FlagOr(saved: Dict, key: string, prior: bool): bool {
    if key in saved then Truthy(saved[key]) else prior
  }

  function ValidOr(saved: Dict, key: string, valid: string -> bool, prior: string): string {
    if key in saved then (match ValidText(saved[key], valid) case Some(s) => s case None => prior) else prior
  }

  /** Pins of whitelisted symbols to valid regimes. */
  function MergePins(saved: Dict, whitelist: set<string>, prior: map<string, string>): map<string, string> {
    match Nested(saved, "regime_pins")
    case None => prior
    case Some(d) => prior + map s | s in d && s in whitelist && ValidText(d[s], IsRegime).Some? :: d[s].s
  }

  /** The nested blocks of a state. */
  datatype Parts = Parts(discovery: Block, adaptive: Block, budget: Block, layers: map<string, bool>,
                         sources: map<string, string>, models: map<string, bool>,
                         sleeves: map<string, bool>, whaleFeeds: map<string, bool>)

  function PartsOf(st: State): Parts {
    Parts(st.discovery, st.adaptive, st.budget, st.layers, st.sources, st.models, st.sleeves, st.whaleFeeds)
  }

  function ReadParts(p: Parse, saved: Dict, prior: Parts, models: seq<string>): Outcome<Parts> {
    var discovery :- ReadDiscovery(p, saved, prior.discovery);
    var adaptive :- ReadAdaptive(p, saved, prior.adaptive);
    var budget :- ReadBudget(p, saved, prior.budget);
    var layers :- MergeNested(FlagFields(LAYERS), saved, "layers", prior.layers);
    var sources :- MergeNested(SourceFields(SOURCE_LAYERS), saved, "layer_sources", prior.sources);
    var modelFlags :- MergeNested(FlagFields(models), saved, "models", prior.models);
    var sleeves :- MergeNested(FlagFields(SLEEVES), saved, "sleeves", prior.sleeves);
    var feeds :- MergeNested(FlagFields(WHALE_FEEDS), saved, "whale_feeds", prior.whaleFeeds);
    Returned(Parts(discovery, adaptive, budget, layers, sources, modelFlags, sleeves, feeds))
  }

  /** The parts, with the fields at the top of the file. */
  function Assemble(parts: Parts, saved: Dict, defaults: State, whitelist: set<string>): State {
    State(parts.layers, parts.sources,
      ValidOr(saved, "feed_mode", IsFeedMode, defaults.feedMode),
      ValidOr(saved, "clock_mode", IsClockMode, defaults.clockMode),
      ValidOr(saved, "strategy_profile", IsProfile, defaults.profile),
      FlagOr(saved, "gate_enabled", defaults.gate), FlagOr(saved, "auto_promote", defaults.autoPromote),
      FlagOr(saved, "rl_enabled", defaults.rl), FlagOr(saved, "rebalance_requested", defaults.rebalance),
      parts.models, parts.budget, MergePins(saved, whitelist, defaults.pins), parts.discovery, parts.adaptive,
      parts.sleeves, parts.whaleFeeds,
      if "pending_promote" in saved then saved["pending_promote"] else defaults.promote,
      if "pending_rollback" in saved then saved["pending_rollback"] else defaults.rollback)
  }

  /** `read_controls`, given the saved object (empty when the file cannot be read). */
  function ReadControls(p: Parse, saved: Dict, defaults: State, models: seq<string>,
        whitelist: set<string>): Outcome<State> {
    var parts :- ReadParts(p, saved, PartsOf(defaults), models);
    Returned(Assemble(parts, saved, defaults, whitelist))
  }

  // ----- What one merge does ------------------------------------------------------------------------

  lemma ClampedIntWithin(p: Parse, v: Value, lo: int, hi: int)
    requires lo <= hi
    ensures ClampedInt(p, v, lo, hi).Raised? <==> v.VInfinite?
    ensures ClampedInt(p, v, lo, hi).Returned? ==> lo <= ClampedInt(p, v, lo, hi).value <= hi
  {}

  lemma ClampedFloatWithin(p: Parse, v: Value, lo: real, hi: real)
    requires lo <= hi
    ensures ClampedFloat(p, v, lo, hi).Raised? <==> TooBig(v)
    ensures ClampedFloat(p, v, lo, hi).Returned? ==> lo <= ClampedFloat(p, v, lo, hi).value <= hi
  {}

  predicate DistinctKeys<T>(fields: seq<Field<T>>) {
    forall i, j :: 0 <= i < j < |fields| ==> fields[i].key != fields[j].key
  }

  /** Some field of the table raises on what the file carries for it. */
  predicate SomeRaises<T>(fields: seq<Field<T>>, saved: Dict) {
    exists i :: 0 <= i < |fields| && fields[i].key in saved && fields[i].coerce(saved[fields[i].key]).Raised?
  }

  predicate HasField<T>(fields: seq<Field<T>>, k: string) {
    exists i :: 0 <= i < |fields| && fields[i].key == k
  }

  /** What the file carries for a field has taken effect in `m`. */
  predicate Taken<T(==)>(f: Field<T>, saved: Dict, prior: map<string, T>, m: map<string, T>) {
    f.key in saved ==>
      match f.coerce(saved[f.key])
      case Raised => false
      case Returned(None) => (f.key in m <==> f.key in prior) && (f.key in m ==> m[f.key] == prior[f.key])
      case Returned(Some(x)) => f.key in m && m[f.key] == x
  }

  /** `m` is `prior` with every field the file carries taken, and nothing else changed. */
  ghost predicate Merged<T>(fields: seq<Field<T>>, saved: Dict, prior: map<string, T>, m: map<string, T>) {
    && (forall k :: k in prior ==> k in m)
    && (forall k :: k in m && k !in prior ==> k in saved && HasField(fields, k))
    && (forall i :: 0 <= i < |fields| ==> Taken(fields[i], saved, prior, m))
    && forall k :: k in prior && !(k in saved && HasField(fields, k)) ==> m[k] == prior[k]
  }

  lemma HasFieldStep<T>(fields: seq<Field<T>>, k: string)
    requires fields != []
    ensures HasField(fields, k) <==> fields[0].key == k || HasField(fields[1..], k)
  {
    if HasField(fields[1..], k) {
      var i :| 0 <= i < |fields[1..]| && fields[1..][i].key == k;
      assert fields[i + 1].key == k;
    }
    if HasField(fields, k) && fields[0].key != k {
      var i :| 0 <= i < |fields| && fields[i].key == k;
      assert fields[1..][i - 1].key == k;
    }
  }

  lemma SomeRaisesStep<T>(fields: seq<Field<T>>, saved: Dict)
    requires fields != []
    ensures SomeRaises(fields, saved)
       <==> (fields[0].key in saved && fields[0].coerce(saved[fields[0].key]).Raised?) || SomeRaises(fields[1..], saved)
  {
    if SomeRaises(fields[1..], saved) {
      var tail := fields[1..];
      var i :| 0 <= i < |tail| && tail[i].key in saved && tail[i].coerce(saved[tail[i].key]).Raised?;
      assert fields[i + 1] == fields[1..][i];
    }
    if SomeRaises(fields, saved) && !(fields[0].key in saved && fields[0].coerce(saved[fields[0].key]).Raised?) {
      var i :| 0 <= i < |fields| && fields[i].key in saved && fields[i].coerce(saved[fields[i].key]).Raised?;
      assert fields[1..][i - 1] == fields[i];
    }
  }

  /** A merge raises exactly when some field does; otherwise it takes every field and changes nothing else. */
  lemma {:induction false} MergeSpec<T>(fields: seq<Field<T>>, saved: Dict, prior: map<string, T>)
    requires DistinctKeys(fields)
    ensures Merge(fields, saved, prior).Raised? <==> SomeRaises(fields, saved)
    ensures Merge(fields, saved, prior).Returned? ==> Merged(fields, saved, prior, Merge(fields, saved, prior).value)
  {
    if fields != [] {
      var f, tail := fields[0], fields[1..];
      SomeRaisesStep(fields, saved);
      if !(f.key in saved && f.coerce(saved[f.key]).Raised?) {
        var next := if f.key in saved && f.coerce(saved[f.key]).value.Some?
                    then prior[f.key := f.coerce(saved[f.key]).value.value] else prior;
        MergeSpec(tail, saved, next);
        if Merge(tail, saved, next).Returned? {
          MergedStep(fields, saved, prior, next, Merge(tail, saved, next).value);
        }
      }
    }
  }

  lemma MergedStep<T>(fields: seq<Field<T>>, saved: Dict, prior: map<string, T>, next: map<string, T>,
        m: map<string, T>)
    requires fields != [] && DistinctKeys(fields) && Merged(fields[1..], saved, next, m)
    requires var f := fields[0];
             && (f.key in saved ==> f.coerce(saved[f.key]).Returned?)
             && next == if f.key in saved && f.coerce(saved[f.key]).value.Some?
                        then prior[f.key := f.coerce(saved[f.key]).value.value] else prior
    ensures Merged(fields, saved, prior, m)
  {
    var f, tail := fields[0], fields[1..];
    assert forall i :: 0 <= i < |tail| ==> tail[i] == fields[i + 1];
    assert !HasField(tail, f.key);
    forall k
      ensures HasField(fields, k) <==> f.key == k || HasField(tail, k)
    {
      HasFieldStep(fields, k);
    }
    forall i | 0 <= i < |fields|
      ensures Taken(fields[i], saved, prior, m)
    {
      if i > 0 {
        assert Taken(tail[i - 1], saved, next, m);
        assert fields[i].key != f.key;
      }
    }
  }
}
