/** What the engine's three readers make of any control file at all, key by key (core/layer_toggles.hpp,
    core/operator_controls.hpp, core/adaptive_controls.hpp). */
module EngineReading {
  import opened Text
  import opened FlatReader
  import opened FlatMeaning
  import opened EngineControls
  import V = ControlValues

  /** A flag: what the first value under the key says, else the default. */
  ghost predicate FlagIs(text: string, key: string, default: bool, r: bool) {
    && (forall rest :: Leads(text, key, rest) ==>
          r == if SaysYes(rest) then true else if SaysNo(rest) then false else default)
    && ((forall rest :: !Leads(text, key, rest)) ==> r == default)
  }

  /** A source is a stand-in exactly when the file says "mock". */
  ghost predicate SourceIs(text: string, key: string, live: bool) {
    live <==> forall rest :: !(Leads(text, key, rest) && Quotes(rest, "mock"))
  }

  /** A number: the numeral that stands first under the key, else the default. */
  ghost predicate NumberIs(text: string, key: string, default: Double, d: Double) {
    && (forall rest :: Leads(text, key, rest) ==>
          d == match ReadNumber(rest) case None => default case Some(x) => x)
    && ((forall rest :: !Leads(text, key, rest)) ==> d == default)
  }

  /** Conversion to a 32-bit int: without the fraction where that fits. */
  ghost predicate Converts(d: Double, wild: Double -> int, n: int) {
    && (d.Real? ==> forall m :: V.WithoutFraction(d.x, m) ==>
                      n == if -0x8000_0000 <= m < 0x8000_0000 then m else wild(d))
    && (!d.Real? ==> n == wild(d))
  }

  predicate NotNegative(d: Double) { (d.Real? && d.x >= 0.0) || d == Infinite(false) }

  ghost predicate BudgetIs(d: Double, wild: Double -> int, r: int) {
    if NotNegative(d) then exists n :: Converts(d, wild, n) && V.NearestInt(1, 500, n, r) else r == -1
  }

  ghost predicate CooldownIs(d: Double, wild: Double -> int, r: int) {
    if NotNegative(d) then exists n :: Converts(d, wild, n) && V.Least(n, 1440, r) else r == -1
  }

  /** The regime the file pins a symbol to. */
  ghost predicate PinnedTo(text: string, symbol: string, regime: string) {
    && regime in {"trending", "range_bound", "neutral"}
    && exists rest :: Leads(text, "regime_pin:" + symbol, rest) && Quotes(rest, regime)
  }

  ghost predicate PinsAre(text: string, whitelist: seq<string>, pins: map<string, string>) {
    && (forall s :: s in pins ==> s in whitelist && PinnedTo(text, s, pins[s]))
    && forall s, r :: s in whitelist && PinnedTo(text, s, r) ==> s in pins
  }

  lemma FlagReads(text: string, key: string, default: bool)
    ensures FlagIs(text, key, default, GetBool(text, key, default))
  {
    hide GetBool, Leads;
    BoolMeans(text, key, default);
  }

  lemma SourceReads(text: string, key: string)
    ensures SourceIs(text, key, SourceIsReal(text, key))
  {
    hide GetString, Leads;
    StringMeans(text, key, "real");
  }

  lemma NumberReads(text: string, key: string, default: Double)
    ensures NumberIs(text, key, default, GetNumber(text, key, default))
  {
    hide GetNumber, Leads, ReadNumber;
    NumberMeans(text, key, default);
  }

  lemma ConversionReads(d: Double, wild: Double -> int)
    ensures Converts(d, wild, ToInt(d, wild))
  {}

  lemma BudgetReads(d: Double, wild: Double -> int)
    ensures BudgetIs(d, wild, BudgetIn(d, wild))
  {
    hide ToInt, Converts;
    ConversionReads(d, wild);
  }

  lemma CooldownReads(d: Double, wild: Double -> int)
    ensures CooldownIs(d, wild, CooldownIn(d, wild))
  {
    hide ToInt, Converts;
    ConversionReads(d, wild);
  }

  lemma LabelIs(text: string, symbol: string)
    ensures var r := GetString(text, "regime_pin:" + symbol, "");
            && (IsRegimeLabel(r) ==> PinnedTo(text, symbol, r))
            && forall v :: PinnedTo(text, symbol, v) ==> v == r && IsRegimeLabel(r)
  {
    hide GetString, Leads, Quotes;
    StringMeans(text, "regime_pin:" + symbol, "");
  }

  lemma {:induction false} PinsRead(text: string, whitelist: seq<string>)
    ensures PinsAre(text, whitelist, PinsIn(text, whitelist))
  {
    hide GetString, PinnedTo, IsRegimeLabel;
    if whitelist != [] {
      var n := |whitelist| - 1;
      PinsRead(text, whitelist[..n]);
      LabelIs(text, whitelist[n]);
      assert whitelist == whitelist[..n] + [whitelist[n]];
    }
  }

  /** The layers as any file is read: on and real unless the file says otherwise. */
  ghost predicate LayersAre(body: Option<string>, t: LayerToggles) {
    if body.None? || body.value == "" then t == LayerToggles(true, true, true, true, true, true, true)
    else
      var s := body.value;
      && FlagIs(s, "layer_adaptive_enabled", true, t.adaptive) && FlagIs(s, "layer_council_enabled", true, t.council)
      && FlagIs(s, "layer_dnn_advisory_enabled", true, t.dnnAdvisory) && FlagIs(s, "layer_whale_enabled", true, t.whale)
      && SourceIs(s, "council_source", t.councilReal) && SourceIs(s, "dnn_advisory_source", t.dnnAdvisoryReal)
      && SourceIs(s, "whale_source", t.whaleReal)
  }

  /** Every slot on, the budgets as numbers in their bounds or unset, the pins of the whitelist. */
  ghost predicate OperatorIs(body: Option<string>, whitelist: seq<string>, wild: Double -> int, oc: OperatorControls) {
    if body.None? || body.value == "" then oc == OperatorControls(true, true, true, -1, -1, map[])
    else
      var s := body.value;
      && FlagIs(s, "llm_primary_enabled", true, oc.primary) && FlagIs(s, "llm_secondary_enabled", true, oc.secondary)
      && FlagIs(s, "llm_tertiary_enabled", true, oc.tertiary) && PinsAre(s, whitelist, oc.pins)
      && (exists b :: NumberIs(s, "rt_council_daily_budget", Real(-1.0), b) && BudgetIs(b, wild, oc.dailyBudget))
      && exists c :: NumberIs(s, "rt_per_symbol_cooldown_minutes", Real(-1.0), c) && CooldownIs(c, wild, oc.cooldown)
  }

  /** The configuration's values, what the file gives over them, corrected. */
  ghost predicate AdaptiveIs(body: Option<string>, cfg: AdaptiveRuntime, wild: Double -> int, a: AdaptiveRuntime) {
    if body.None? || body.value == "" then a == cfg
    else
      var s := body.value;
      && FlagIs(s, "adaptive_news_feed_enabled", cfg.feed, a.feed)
      && (exists x :: FlagIs(s, "adaptive_watchlist_shaping_enabled", cfg.shaping, x) && a.shaping == (a.feed && x))
      && (exists x :: FlagIs(s, "adaptive_react_defensive_enabled", cfg.react, x) && a.react == (a.feed && x))
      && (exists d, n :: NumberIs(s, "action_max_age_seconds", Real(cfg.maxAgeSeconds as real), d)
            && Converts(d, wild, n) && a.maxAgeSeconds == if n > 0 then n else cfg.maxAgeSeconds)
      && exists d :: NumberIs(s, "defensive_trim_fraction", cfg.trimFraction, d)
           && a.trimFraction == if d == NotANumber || (d.Real? && 0.0 < d.x <= 1.0) then d else cfg.trimFraction
  }

  lemma LayersRead(body: Option<string>)
    ensures LayersAre(body, ReadLayerToggles(body))
  {
    hide FlagIs, SourceIs, GetBool, SourceIsReal;
    if !Missing(body) {
      FlagReads(body.value, "layer_adaptive_enabled", true);
      FlagReads(body.value, "layer_council_enabled", true);
      FlagReads(body.value, "layer_dnn_advisory_enabled", true);
      FlagReads(body.value, "layer_whale_enabled", true);
      SourceReads(body.value, "council_source");
      SourceReads(body.value, "dnn_advisory_source");
      SourceReads(body.value, "whale_source");
    }
  }

  lemma OperatorReads(body: Option<string>, whitelist: seq<string>, wild: Double -> int)
    ensures OperatorIs(body, whitelist, wild, ReadOperatorControls(body, whitelist, wild))
  {
    hide FlagIs, NumberIs, BudgetIs, CooldownIs, PinsAre, GetBool, GetNumber, PinsIn, BudgetIn, CooldownIn;
    if !Missing(body) {
      var t := body.value;
      FlagReads(t, "llm_primary_enabled", true);
      FlagReads(t, "llm_secondary_enabled", true);
      FlagReads(t, "llm_tertiary_enabled", true);
      NumberReads(t, "rt_council_daily_budget", Real(-1.0));
      NumberReads(t, "rt_per_symbol_cooldown_minutes", Real(-1.0));
      BudgetReads(GetNumber(t, "rt_council_daily_budget", Real(-1.0)), wild);
      CooldownReads(GetNumber(t, "rt_per_symbol_cooldown_minutes", Real(-1.0)), wild);
      PinsRead(t, whitelist);
    }
  }

  lemma AdaptiveReads(body: Option<string>, cfg: AdaptiveRuntime, wild: Double -> int)
    ensures AdaptiveIs(body, cfg, wild, ReadAdaptiveControls(body, cfg, wild))
  {
    hide FlagIs, NumberIs, Converts, GetBool, GetNumber, ToInt;
    if !Missing(body) {
      var t := body.value;
      var age := GetNumber(t, "action_max_age_seconds", Real(cfg.maxAgeSeconds as real));
      FlagReads(t, "adaptive_news_feed_enabled", cfg.feed);
      FlagReads(t, "adaptive_watchlist_shaping_enabled", cfg.shaping);
      FlagReads(t, "adaptive_react_defensive_enabled", cfg.react);
      NumberReads(t, "action_max_age_seconds", Real(cfg.maxAgeSeconds as real));
      NumberReads(t, "defensive_trim_fraction", cfg.trimFraction);
      ConversionReads(age, wild);
    }
  }

  /** Whatever the file holds, each value the engine runs on is the one its own key gives, or its default. */
  lemma AnyFileIsReadByKey(body: Option<string>, whitelist: seq<string>, cfg: AdaptiveRuntime, wild: Double -> int)
    ensures LayersAre(body, ReadLayerToggles(body))
    ensures OperatorIs(body, whitelist, wild, ReadOperatorControls(body, whitelist, wild))
    ensures AdaptiveIs(body, cfg, wild, ReadAdaptiveControls(body, cfg, wild))
  {
    LayersRead(body);
    OperatorReads(body, whitelist, wild);
    AdaptiveReads(body, cfg, wild);
  }
}
