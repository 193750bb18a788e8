/** What a saved file's values come to, key by key: every number is the allowed value nearest to the one
    carried, every flag its Python truth value, every choice the one carried when it is allowed. */
module ControlValues {
  import opened Numbers
  import opened Text
  import opened Controls
  import opened ControlRules

  // ----- One value ---------------------------------------------------------------------------------

  function Apart(a: int, b: int): nat { if a < b then b - a else a - b }
  function Distance(a: real, b: real): real { Abs(a - b) }

  /** Nothing between the bounds lies nearer to `n` than `r`. */
  ghost predicate NearestInt(lo: int, hi: int, n: int, r: int) {
    lo <= r <= hi && forall y :: lo <= y <= hi ==> Apart(r, n) <= Apart(y, n)
  }

  ghost predicate NearestReal(lo: real, hi: real, x: real, r: real) {
    lo <= r <= hi && forall y: real :: lo <= y <= hi ==> Distance(r, x) <= Distance(y, x)
  }

  /** `n` is `x` without its fraction. */
  predicate WithoutFraction(x: real, n: int) {
    if x < 0.0 then x <= n as real < x + 1.0 else n as real <= x < n as real + 1.0
  }

  /** The integer a value comes to; an infinite one comes to none. */
  ghost predicate ComesToInt(p: Parse, v: Value, lo: int, hi: int, r: int) {
    match v
    case VInt(n) => NearestInt(lo, hi, n, r)
    case VBool(b) => NearestInt(lo, hi, if b then 1 else 0, r)
    case VFloat(x) => exists n :: WithoutFraction(x, n) && NearestInt(lo, hi, n, r)
    case VStr(s) => if p.toInt(s).Some? then NearestInt(lo, hi, p.toInt(s).value, r) else r == lo
    case VInfinite(_) => false
    case _ => r == lo
  }

  /** The float a float comes to, whatever it is. */
  ghost predicate FloatComesTo(v: Value, lo: real, hi: real, r: real) {
    match v
    case VFloat(x) => NearestReal(lo, hi, x, r)
    case VInfinite(negative) => r == if negative then lo else hi
    case VNan => r == hi
    case _ => r == lo
  }

  /** The float a value comes to; an integer no double can hold comes to none. */
  ghost predicate ComesToReal(p: Parse, v: Value, lo: real, hi: real, r: real) {
    match v
    case VInt(n) => !BeyondDouble(n as real) && NearestReal(lo, hi, n as real, r)
    case VBool(b) => NearestReal(lo, hi, if b then 1.0 else 0.0, r)
    case VStr(s) => if p.toFloat(s).Some? then FloatComesTo(p.toFloat(s).value, lo, hi, r) else r == lo
    case _ => FloatComesTo(v, lo, hi, r)
  }

  /** The values Python takes for false. */
  predicate Falsy(v: Value) {
    || v == VNull || v == VBool(false) || v == VInt(0) || v == VFloat(0.0) || v == VStr("")
    || v == VList([]) || v == VDict(map[])
  }

  /** `_clamp_int` gives what the value comes to, and nothing exactly for an infinite one. */
  lemma IntComesTo(p: Parse, v: Value, lo: int, hi: int)
    requires lo <= hi
    ensures var r := ClampedInt(p, v, lo, hi);
            if v.VInfinite? then r.Raised? else r.Returned? && ComesToInt(p, v, lo, hi, r.value)
  {
    match v
    case VFloat(x) => assert WithoutFraction(x, Truncated(x));
    case _ =>
  }

  lemma RealComesTo(p: Parse, v: Value, lo: real, hi: real)
    requires lo <= hi
    ensures var r := ClampedFloat(p, v, lo, hi);
            if v.VInt? && BeyondDouble(v.n as real) then r.Raised?
            else r.Returned? && ComesToReal(p, v, lo, hi, r.value)
  {
    forall x: real
      ensures NearestReal(lo, hi, x, ClampReal(x, lo, hi))
    {
      NearestFloat(lo, hi, x);
    }
  }

  lemma NearestFloat(lo: real, hi: real, x: real)
    requires lo <= hi
    ensures NearestReal(lo, hi, x, ClampReal(x, lo, hi))
  {
    var r := ClampReal(x, lo, hi);
    forall y: real | lo <= y <= hi
      ensures Distance(r, x) <= Distance(y, x)
    {}
  }

  /** A value comes to one integer, which is the value itself inside the bounds and a bound outside them. */
  lemma NearestIsOne(lo: int, hi: int, n: int, r: int)
    requires NearestInt(lo, hi, n, r)
    ensures r == if n < lo then lo else if hi < n then hi else n
  {
    var y := if n < lo then lo else if hi < n then hi else n;
    assert Apart(r, n) <= Apart(y, n);
  }

  lemma TruthIs(v: Value)
    ensures Truthy(v) <==> !Falsy(v)
  {}

  // ----- The keys of a block -------------------------------------------------------------------------

  ghost predicate IntRead(p: Parse, d: Dict, prior: map<string, int>, key: string, lo: int, hi: int, r: int) {
    if key in d then ComesToInt(p, d[key], lo, hi, r) else key in prior && prior[key] == r
  }

  ghost predicate RealRead(p: Parse, d: Dict, prior: map<string, real>, key: string, lo: real, hi: real, r: real) {
    if key in d then ComesToReal(p, d[key], lo, hi, r) else key in prior && prior[key] == r
  }

  predicate FlagRead(d: Dict, prior: map<string, bool>, key: string, r: bool) {
    if key in d then r == !Falsy(d[key]) else key in prior && prior[key] == r
  }

  /** The values under these keys, and no others, may differ from the prior ones. */
  predicate OnlyAt<T(==)>(keys: set<string>, prior: map<string, T>, m: map<string, T>) {
    m.Keys == prior.Keys && forall k :: k in prior && k !in keys ==> m[k] == prior[k]
  }

  function Keys(ints: seq<IntBound>): set<string> { set i | 0 <= i < |ints| :: ints[i].key }
  function RealKeys(reals: seq<RealBound>): set<string> { set i | 0 <= i < |reals| :: reals[i].key }

  lemma MergedInts(p: Parse, bounds: seq<IntBound>, saved: Dict, prior: map<string, int>, m: map<string, int>)
    requires Merged(IntFields(p, bounds), saved, prior, m) && IntsWithin(bounds, prior)
    ensures forall i :: 0 <= i < |bounds| ==>
              bounds[i].key in m
              && IntRead(p, saved, prior, bounds[i].key, bounds[i].lo, bounds[i].hi, m[bounds[i].key])
    ensures OnlyAt(Keys(bounds), prior, m)
  {
    hide ComesToInt;
    var fields := IntFields(p, bounds);
    forall i | 0 <= i < |bounds|
      ensures bounds[i].key in m
      ensures IntRead(p, saved, prior, bounds[i].key, bounds[i].lo, bounds[i].hi, m[bounds[i].key])
    {
      var b := bounds[i];
      assert Taken(fields[i], saved, prior, m) && fields[i].key == b.key;
      if b.key in saved {
        IntComesTo(p, saved[b.key], b.lo, b.hi);
      } else {
        assert m[b.key] == prior[b.key];
      }
    }
    forall k | HasField(fields, k)
      ensures k in Keys(bounds) && k in prior
    {
      var i :| 0 <= i < |fields| && fields[i].key == k;
      assert bounds[i].key == k;
    }
  }

  lemma MergedReals(p: Parse, bounds: seq<RealBound>, saved: Dict, prior: map<string, real>, m: map<string, real>)
    requires Merged(RealFields(p, bounds), saved, prior, m) && RealsWithin(bounds, prior)
    ensures forall i :: 0 <= i < |bounds| ==>
              bounds[i].key in m
              && RealRead(p, saved, prior, bounds[i].key, bounds[i].lo, bounds[i].hi, m[bounds[i].key])
    ensures OnlyAt(RealKeys(bounds), prior, m)
  {
    hide ComesToReal;
    var fields := RealFields(p, bounds);
    forall i | 0 <= i < |bounds|
      ensures bounds[i].key in m
      ensures RealRead(p, saved, prior, bounds[i].key, bounds[i].lo, bounds[i].hi, m[bounds[i].key])
    {
      var b := bounds[i];
      assert Taken(fields[i], saved, prior, m) && fields[i].key == b.key;
      if b.key in saved {
        RealComesTo(p, saved[b.key], b.lo, b.hi);
      } else {
        assert m[b.key] == prior[b.key];
      }
    }
    forall k | HasField(fields, k)
      ensures k in RealKeys(bounds) && k in prior
    {
      var i :| 0 <= i < |fields| && fields[i].key == k;
      assert bounds[i].key == k;
    }
  }

  lemma MergedFlags(keys: seq<string>, saved: Dict, prior: map<string, bool>, m: map<string, bool>)
    requires Merged(FlagFields(keys), saved, prior, m) && HasKeys(keys, prior)
    ensures forall i :: 0 <= i < |keys| ==> keys[i] in m && FlagRead(saved, prior, keys[i], m[keys[i]])
    ensures OnlyAt(set i | 0 <= i < |keys| :: keys[i], prior, m)
  {
    var fields := FlagFields(keys);
    forall i | 0 <= i < |keys|
      ensures keys[i] in m && FlagRead(saved, prior, keys[i], m[keys[i]])
    {
      assert Taken(fields[i], saved, prior, m) && fields[i].key == keys[i];
      if keys[i] in saved {
        TruthIs(saved[keys[i]]);
      } else {
        assert m[keys[i]] == prior[keys[i]];
      }
    }
    forall k | HasField(fields, k)
      ensures k in (set i | 0 <= i < |keys| :: keys[i]) && k in prior
    {
      var i :| 0 <= i < |fields| && fields[i].key == k;
      assert keys[i] == k;
    }
  }

  // ----- The blocks a saved object carries ---------------------------------------------------------------

  /** `r` is the smaller of two numbers. */
  predicate Least(a: int, b: int, r: int) { r <= a && r <= b && (r == a || r == b) }

  ghost predicate IntAt(p: Parse, d: Dict, prior: Block, b: Block, key: string, lo: int, hi: int) {
    key in b.ints && IntRead(p, d, prior.ints, key, lo, hi, b.ints[key])
  }

  ghost predicate RealAt(p: Parse, d: Dict, prior: Block, b: Block, key: string, lo: real, hi: real) {
    key in b.reals && RealRead(p, d, prior.reals, key, lo, hi, b.reals[key])
  }

  predicate FlagAt(d: Dict, prior: Block, b: Block, key: string) {
    key in b.flags && FlagRead(d, prior.flags, key, b.flags[key])
  }

  const FUNNEL_KEYS := {"discovery_daily_council_budget", "max_finalists", "max_survivors",
                        "max_council_calls_per_pass", "crypto_interval_minutes", "equity_interval_minutes"}

  /** The numbers of the funnel after a read or a change: each the allowed value nearest to the one carried,
      then calls cut down to survivors and survivors to finalists. */
  ghost predicate FunnelNumbers(p: Parse, d: Dict, prior: Block, b: Block) {
    && IntAt(p, d, prior, b, "discovery_daily_council_budget", 0, 100)
    && IntAt(p, d, prior, b, "max_finalists", 1, 50)
    && IntAt(p, d, prior, b, "crypto_interval_minutes", 15, 1440)
    && IntAt(p, d, prior, b, "equity_interval_minutes", 15, 1440)
    && RealAt(p, d, prior, b, "stage_a_whale_weight", 0.0, 1.0)
    && "max_survivors" in b.ints && "max_council_calls_per_pass" in b.ints
    && (exists survivors, calls ::
          && IntRead(p, d, prior.ints, "max_survivors", 1, 20, survivors)
          && IntRead(p, d, prior.ints, "max_council_calls_per_pass", 0, 20, calls)
          && Least(survivors, b.ints["max_finalists"], b.ints["max_survivors"])
          && Least(calls, b.ints["max_survivors"], b.ints["max_council_calls_per_pass"]))
    && OnlyAt(FUNNEL_KEYS, prior.ints, b.ints) && OnlyAt({"stage_a_whale_weight"}, prior.reals, b.reals)
  }

  predicate FunnelFlags(d: Dict, prior: Block, b: Block) {
    && FlagAt(d, prior, b, "discovery_enabled") && FlagAt(d, prior, b, "long_term_sleeve_enabled")
    && OnlyAt({"discovery_enabled", "long_term_sleeve_enabled"}, prior.flags, b.flags)
  }

  const POLL_KEYS := {"poll_interval_seconds", "max_symbols_per_poll", "news_lookback_minutes",
                      "adaptive_daily_llm_budget", "max_interpretations_per_poll", "action_max_age_seconds"}
  const THRESHOLD_KEYS := {"materiality_min_sentiment", "action_min_severity", "interpretation_min_relevance",
                           "defensive_trim_fraction"}

  ghost predicate PollNumbers(p: Parse, d: Dict, prior: Block, b: Block) {
    && IntAt(p, d, prior, b, "poll_interval_seconds", 15, 3600)
    && IntAt(p, d, prior, b, "max_symbols_per_poll", 1, 29)
    && IntAt(p, d, prior, b, "news_lookback_minutes", 1, 240)
    && IntAt(p, d, prior, b, "adaptive_daily_llm_budget", 0, 200)
    && IntAt(p, d, prior, b, "max_interpretations_per_poll", 0, 20)
    && IntAt(p, d, prior, b, "action_max_age_seconds", 30, 3600)
    && RealAt(p, d, prior, b, "materiality_min_sentiment", 0.0, 1.0)
    && RealAt(p, d, prior, b, "action_min_severity", 0.0, 1.0)
    && RealAt(p, d, prior, b, "interpretation_min_relevance", 0.0, 1.0)
    && RealAt(p, d, prior, b, "defensive_trim_fraction", 0.01, 1.0)
    && OnlyAt(POLL_KEYS, prior.ints, b.ints) && OnlyAt(THRESHOLD_KEYS, prior.reals, b.reals)
  }

  /** Each flag is its truth value, and the two downstream ones are on only with the feed. */
  predicate PollFlags(d: Dict, prior: Block, b: Block) {
    && FlagAt(d, prior, b, "adaptive_news_feed_enabled")
    && "adaptive_watchlist_shaping_enabled" in b.flags && "adaptive_react_defensive_enabled" in b.flags
    && (exists shaping :: FlagRead(d, prior.flags, "adaptive_watchlist_shaping_enabled", shaping)
          && b.flags["adaptive_watchlist_shaping_enabled"] == (shaping && b.flags["adaptive_news_feed_enabled"]))
    && (exists react :: FlagRead(d, prior.flags, "adaptive_react_defensive_enabled", react)
          && b.flags["adaptive_react_defensive_enabled"] == (react && b.flags["adaptive_news_feed_enabled"]))
    && OnlyAt({"adaptive_news_feed_enabled", "adaptive_watchlist_shaping_enabled",
               "adaptive_react_defensive_enabled"}, prior.flags, b.flags)
  }

  ghost predicate BudgetNumbers(p: Parse, d: Dict, prior: Block, b: Block) {
    && IntAt(p, d, prior, b, "council_daily_budget", 1, 500)
    && IntAt(p, d, prior, b, "per_symbol_cooldown_minutes", 0, 1440)
    && OnlyAt({"council_daily_budget", "per_symbol_cooldown_minutes"}, prior.ints, b.ints)
    && b.flags == prior.flags && b.reals == prior.reals
  }

  /** Merging a block puts every number and flag of its tables in its place. */
  lemma MergedBlock(p: Parse, flags: seq<string>, ints: seq<IntBound>, reals: seq<RealBound>, d: Dict,
        prior: Block, b: Block)
    requires Sane(p, flags, ints, reals) && Bounded(prior, flags, ints, reals)
    requires MergeBlock(p, flags, ints, reals, d, prior) == Returned(b)
    ensures forall i :: 0 <= i < |ints| ==> IntAt(p, d, prior, b, ints[i].key, ints[i].lo, ints[i].hi)
    ensures forall i :: 0 <= i < |reals| ==> RealAt(p, d, prior, b, reals[i].key, reals[i].lo, reals[i].hi)
    ensures forall i :: 0 <= i < |flags| ==> FlagAt(d, prior, b, flags[i])
    ensures OnlyAt(Keys(ints), prior.ints, b.ints) && OnlyAt(RealKeys(reals), prior.reals, b.reals)
    ensures OnlyAt(set i | 0 <= i < |flags| :: flags[i], prior.flags, b.flags)
  {
    hide Merge, Merged, IntRead, RealRead, FlagRead, OnlyAt, MergeBlock, Sane;
    MergeBlockSpec(p, flags, ints, reals, d, prior);
    MergedInts(p, ints, d, prior.ints, b.ints);
    MergedReals(p, reals, d, prior.reals, b.reals);
    MergedFlags(flags, d, prior.flags, b.flags);
  }

  /** The funnel's numbers before they narrow. */
  ghost predicate Unnarrowed(p: Parse, d: Dict, prior: Block, b: Block) {
    && IntAt(p, d, prior, b, "discovery_daily_council_budget", 0, 100)
    && IntAt(p, d, prior, b, "max_finalists", 1, 50)
    && IntAt(p, d, prior, b, "max_survivors", 1, 20)
    && IntAt(p, d, prior, b, "max_council_calls_per_pass", 0, 20)
    && IntAt(p, d, prior, b, "crypto_interval_minutes", 15, 1440)
    && IntAt(p, d, prior, b, "equity_interval_minutes", 15, 1440)
    && RealAt(p, d, prior, b, "stage_a_whale_weight", 0.0, 1.0)
    && OnlyAt(FUNNEL_KEYS, prior.ints, b.ints) && OnlyAt({"stage_a_whale_weight"}, prior.reals, b.reals)
  }

  /** Narrowing cuts survivors down to finalists and calls down to survivors, and touches nothing else. */
  lemma NarrowingCuts(b: Block)
    requires FUNNEL_KEYS <= b.ints.Keys
    ensures var n := Narrowing(b);
            && n.flags == b.flags && n.reals == b.reals
            && OnlyAt({"max_survivors", "max_council_calls_per_pass"}, b.ints, n.ints)
            && Least(b.ints["max_survivors"], n.ints["max_finalists"], n.ints["max_survivors"])
            && Least(b.ints["max_council_calls_per_pass"], n.ints["max_survivors"],
                     n.ints["max_council_calls_per_pass"])
  {}

  lemma NarrowedNumbers(p: Parse, d: Dict, prior: Block, b: Block)
    requires Unnarrowed(p, d, prior, b)
    ensures FunnelNumbers(p, d, prior, Narrowing(b)) && Narrowing(b).flags == b.flags
  {
    hide IntRead, RealRead, Narrowing, Least;
    NarrowingCuts(b);
    assert IntRead(p, d, prior.ints, "max_survivors", 1, 20, b.ints["max_survivors"]);
    assert IntRead(p, d, prior.ints, "max_council_calls_per_pass", 0, 20, b.ints["max_council_calls_per_pass"]);
  }

  lemma FunnelTables(p: Parse, d: Dict, prior: Block, b: Block)
    requires forall i :: 0 <= i < |DISCOVERY_BOUNDS| ==>
               IntAt(p, d, prior, b, DISCOVERY_BOUNDS[i].key, DISCOVERY_BOUNDS[i].lo, DISCOVERY_BOUNDS[i].hi)
    requires forall i :: 0 <= i < |DISCOVERY_REALS| ==>
               RealAt(p, d, prior, b, DISCOVERY_REALS[i].key, DISCOVERY_REALS[i].lo, DISCOVERY_REALS[i].hi)
    requires OnlyAt(Keys(DISCOVERY_BOUNDS), prior.ints, b.ints) && OnlyAt(RealKeys(DISCOVERY_REALS), prior.reals, b.reals)
    ensures Unnarrowed(p, d, prior, b)
  {
    hide IntAt, RealAt, OnlyAt;
    FunnelKeys();
    var t, w := DISCOVERY_BOUNDS, DISCOVERY_REALS[0];
    assert t[0] == IntBound("discovery_daily_council_budget", 0, 100) && t[1] == IntBound("max_finalists", 1, 50);
    assert t[2] == IntBound("max_survivors", 1, 20) && t[3] == IntBound("max_council_calls_per_pass", 0, 20);
    assert t[4] == IntBound("crypto_interval_minutes", 15, 1440) && t[5] == IntBound("equity_interval_minutes", 15, 1440);
    assert IntAt(p, d, prior, b, t[0].key, t[0].lo, t[0].hi) && IntAt(p, d, prior, b, t[1].key, t[1].lo, t[1].hi);
    assert IntAt(p, d, prior, b, t[2].key, t[2].lo, t[2].hi) && IntAt(p, d, prior, b, t[3].key, t[3].lo, t[3].hi);
    assert IntAt(p, d, prior, b, t[4].key, t[4].lo, t[4].hi) && IntAt(p, d, prior, b, t[5].key, t[5].lo, t[5].hi);
    assert RealAt(p, d, prior, b, w.key, w.lo, w.hi);
  }

  lemma FunnelComesTo(p: Parse, flags: seq<string>, d: Dict, prior: Block, merged: Block)
    requires DiscoveryBounded(prior) && (flags == DISCOVERY_FLAGS || flags == [])
    requires MergeBlock(p, flags, DISCOVERY_BOUNDS, DISCOVERY_REALS, d, prior) == Returned(merged)
    ensures FunnelNumbers(p, d, prior, Narrowing(merged)) && Narrowing(merged).flags == merged.flags
    ensures if flags == [] then merged.flags == prior.flags else FunnelFlags(d, prior, merged)
  {
    hide MergeBlock, IntAt, RealAt, FlagRead, Narrowing, FunnelNumbers, Unnarrowed, Sane, HasField;
    DiscoveryTables(p);
    NoFlags();
    FunnelIsSane(p, flags);
    MergedBlock(p, flags, DISCOVERY_BOUNDS, DISCOVERY_REALS, d, prior, merged);
    FunnelTables(p, d, prior, merged);
    NarrowedNumbers(p, d, prior, merged);
    if flags == [] {
      assert merged.flags == prior.flags;
    } else {
      FunnelKeys();
      assert flags[0] == "discovery_enabled" && flags[1] == "long_term_sleeve_enabled";
    }
  }

  lemma FunnelIsSane(p: Parse, flags: seq<string>)
    requires flags == DISCOVERY_FLAGS || flags == []
    ensures Sane(p, flags, DISCOVERY_BOUNDS, DISCOVERY_REALS)
  {
    hide HasField;
    DiscoveryTables(p);
  }

  lemma NoFlags()
    ensures DistinctKeys(FlagFields([]))
  {}

  lemma FunnelKeys()
    ensures Keys(DISCOVERY_BOUNDS) == FUNNEL_KEYS && RealKeys(DISCOVERY_REALS) == {"stage_a_whale_weight"}
    ensures (set i | 0 <= i < |DISCOVERY_FLAGS| :: DISCOVERY_FLAGS[i]) == {"discovery_enabled", "long_term_sleeve_enabled"}
  {
    var t, f := DISCOVERY_BOUNDS, DISCOVERY_FLAGS;
    assert t[0].key in Keys(t) && t[1].key in Keys(t) && t[2].key in Keys(t) && t[3].key in Keys(t)
        && t[4].key in Keys(t) && t[5].key in Keys(t);
    assert DISCOVERY_REALS[0].key in RealKeys(DISCOVERY_REALS);
    var names := set i | 0 <= i < |f| :: f[i];
    assert f[0] in names && f[1] in names;
  }

  // ----- The adaptive block ------------------------------------------------------------------------------

  lemma PollKeys()
    ensures Keys(ADAPTIVE_BOUNDS) == POLL_KEYS
  {
    var t := ADAPTIVE_BOUNDS;
    assert t[0].key in Keys(t) && t[1].key in Keys(t) && t[2].key in Keys(t) && t[3].key in Keys(t)
        && t[4].key in Keys(t) && t[5].key in Keys(t);
  }

  lemma ThresholdKeys()
    ensures RealKeys(ADAPTIVE_REALS) == THRESHOLD_KEYS
  {
    var t := ADAPTIVE_REALS;
    assert t[0].key in RealKeys(t) && t[1].key in RealKeys(t) && t[2].key in RealKeys(t) && t[3].key in RealKeys(t);
  }

  lemma PollFlagKeys()
    ensures (set i | 0 <= i < |ADAPTIVE_FLAGS| :: ADAPTIVE_FLAGS[i])
         == {"adaptive_news_feed_enabled", "adaptive_watchlist_shaping_enabled", "adaptive_react_defensive_enabled"}
  {
    var f := ADAPTIVE_FLAGS;
    var names := set i | 0 <= i < |f| :: f[i];
    assert f[0] in names && f[1] in names && f[2] in names;
  }

  lemma PollTables(p: Parse, d: Dict, prior: Block, b: Block)
    requires forall i :: 0 <= i < |ADAPTIVE_BOUNDS| ==>
               IntAt(p, d, prior, b, ADAPTIVE_BOUNDS[i].key, ADAPTIVE_BOUNDS[i].lo, ADAPTIVE_BOUNDS[i].hi)
    requires forall i :: 0 <= i < |ADAPTIVE_REALS| ==>
               RealAt(p, d, prior, b, ADAPTIVE_REALS[i].key, ADAPTIVE_REALS[i].lo, ADAPTIVE_REALS[i].hi)
    requires OnlyAt(Keys(ADAPTIVE_BOUNDS), prior.ints, b.ints) && OnlyAt(RealKeys(ADAPTIVE_REALS), prior.reals, b.reals)
    ensures PollNumbers(p, d, prior, b)
  {
    hide IntAt, RealAt, OnlyAt;
    PollKeys();
    ThresholdKeys();
    var t, w := ADAPTIVE_BOUNDS, ADAPTIVE_REALS;
    assert t[0] == IntBound("poll_interval_seconds", 15, 3600) && t[1] == IntBound("max_symbols_per_poll", 1, 29);
    assert t[2] == IntBound("news_lookback_minutes", 1, 240) && t[3] == IntBound("adaptive_daily_llm_budget", 0, 200);
    assert t[4] == IntBound("max_interpretations_per_poll", 0, 20) && t[5] == IntBound("action_max_age_seconds", 30, 3600);
    assert w[0] == RealBound("materiality_min_sentiment", 0.0, 1.0) && w[1] == RealBound("action_min_severity", 0.0, 1.0);
    assert w[2] == RealBound("interpretation_min_relevance", 0.0, 1.0) && w[3] == RealBound("defensive_trim_fraction", 0.01, 1.0);
    assert IntAt(p, d, prior, b, t[0].key, t[0].lo, t[0].hi) && IntAt(p, d, prior, b, t[1].key, t[1].lo, t[1].hi);
    assert IntAt(p, d, prior, b, t[2].key, t[2].lo, t[2].hi) && IntAt(p, d, prior, b, t[3].key, t[3].lo, t[3].hi);
    assert IntAt(p, d, prior, b, t[4].key, t[4].lo, t[4].hi) && IntAt(p, d, prior, b, t[5].key, t[5].lo, t[5].hi);
    assert RealAt(p, d, prior, b, w[0].key, w[0].lo, w[0].hi) && RealAt(p, d, prior, b, w[1].key, w[1].lo, w[1].hi);
    assert RealAt(p, d, prior, b, w[2].key, w[2].lo, w[2].hi) && RealAt(p, d, prior, b, w[3].key, w[3].lo, w[3].hi);
  }

  /** Turning the feed off takes the two downstream flags with it and touches nothing else. */
  lemma OffTakesBoth(b: Block)
    requires {"adaptive_news_feed_enabled", "adaptive_watchlist_shaping_enabled", "adaptive_react_defensive_enabled"}
          <= b.flags.Keys
    ensures var n, feed := DownstreamOff(b), b.flags["adaptive_news_feed_enabled"];
            && n.ints == b.ints && n.reals == b.reals
            && OnlyAt({"adaptive_watchlist_shaping_enabled", "adaptive_react_defensive_enabled"}, b.flags, n.flags)
            && n.flags["adaptive_watchlist_shaping_enabled"] == (b.flags["adaptive_watchlist_shaping_enabled"] && feed)
            && n.flags["adaptive_react_defensive_enabled"] == (b.flags["adaptive_react_defensive_enabled"] && feed)
  {}

  lemma OffFlags(d: Dict, prior: Block, b: Block)
    requires FlagAt(d, prior, b, "adaptive_news_feed_enabled")
    requires FlagAt(d, prior, b, "adaptive_watchlist_shaping_enabled")
    requires FlagAt(d, prior, b, "adaptive_react_defensive_enabled")
    requires OnlyAt({"adaptive_news_feed_enabled", "adaptive_watchlist_shaping_enabled",
                     "adaptive_react_defensive_enabled"}, prior.flags, b.flags)
    ensures PollFlags(d, prior, DownstreamOff(b))
  {
    hide FlagRead, DownstreamOff;
    OffTakesBoth(b);
    assert FlagRead(d, prior.flags, "adaptive_watchlist_shaping_enabled", b.flags["adaptive_watchlist_shaping_enabled"]);
    assert FlagRead(d, prior.flags, "adaptive_react_defensive_enabled", b.flags["adaptive_react_defensive_enabled"]);
  }

  lemma PollIsSane(p: Parse, flags: seq<string>)
    requires flags == ADAPTIVE_FLAGS || flags == []
    ensures Sane(p, flags, ADAPTIVE_BOUNDS, ADAPTIVE_REALS)
  {
    hide HasField;
    AdaptiveTables(p);
    NoFlags();
  }

  lemma PollComesTo(p: Parse, flags: seq<string>, d: Dict, prior: Block, merged: Block)
    requires AdaptiveBounded(prior) && (flags == ADAPTIVE_FLAGS || flags == [])
    requires MergeBlock(p, flags, ADAPTIVE_BOUNDS, ADAPTIVE_REALS, d, prior) == Returned(merged)
    ensures PollNumbers(p, d, prior, merged)
    ensures if flags == [] then merged.flags == prior.flags else PollFlags(d, prior, DownstreamOff(merged))
  {
    hide MergeBlock, IntAt, RealAt, FlagAt, DownstreamOff, PollNumbers, PollFlags, Sane, HasField;
    PollIsSane(p, flags);
    MergedBlock(p, flags, ADAPTIVE_BOUNDS, ADAPTIVE_REALS, d, prior, merged);
    PollTables(p, d, prior, merged);
    if flags == [] {
      assert merged.flags == prior.flags;
    } else {
      PollFlagKeys();
      assert flags[0] == "adaptive_news_feed_enabled" && flags[1] == "adaptive_watchlist_shaping_enabled"
          && flags[2] == "adaptive_react_defensive_enabled";
      OffFlags(d, prior, merged);
    }
  }

  lemma BudgetComesTo(p: Parse, d: Dict, prior: Block, merged: Block)
    requires BudgetBounded(prior)
    requires MergeBlock(p, [], BUDGET_BOUNDS, [], d, prior) == Returned(merged)
    ensures BudgetNumbers(p, d, prior, merged)
  {
    hide MergeBlock, IntAt, HasField;
    Tables();
    NoFlags();
    MergedBlock(p, [], BUDGET_BOUNDS, [], d, prior, merged);
    var t := BUDGET_BOUNDS;
    assert t[0] == IntBound("council_daily_budget", 1, 500) && t[1] == IntBound("per_symbol_cooldown_minutes", 0, 1440);
    assert IntAt(p, d, prior, merged, t[0].key, t[0].lo, t[0].hi) && IntAt(p, d, prior, merged, t[1].key, t[1].lo, t[1].hi);
    assert t[0].key in Keys(t) && t[1].key in Keys(t);
    assert Keys(t) == {"council_daily_budget", "per_symbol_cooldown_minutes"};
    assert merged.flags == prior.flags && merged.reals == prior.reals;
  }

  lemma NumbersAreLeft(b: Block)
    ensures DownstreamOff(b).ints == b.ints && DownstreamOff(b).reals == b.reals
  {}
}
