/** The names in the control file, and that none of them is a key the engine searches for. */
module ControlNames {
  import opened FlatReading

  // The keys the engine searches for: at the top of the file, and in its adaptive block.
  const LAYER_KEYS: set<string> := {"layer_adaptive_enabled", "layer_council_enabled", "layer_dnn_advisory_enabled",
        "layer_whale_enabled"}
  const SLOT_KEYS: set<string> := {"llm_primary_enabled", "llm_secondary_enabled", "llm_tertiary_enabled"}
  const SOURCE_KEYS: set<string> := {"council_source", "dnn_advisory_source", "whale_source"}
  const BUDGET_KEYS: set<string> := {"rt_council_daily_budget", "rt_per_symbol_cooldown_minutes"}
  const TOP_KEYS := LAYER_KEYS + SLOT_KEYS + SOURCE_KEYS + BUDGET_KEYS
  const ADAPTIVE_KEYS: set<string> := {"adaptive_news_feed_enabled", "adaptive_watchlist_shaping_enabled",
        "adaptive_react_defensive_enabled", "action_max_age_seconds", "defensive_trim_fraction"}

  predicate IsFlagKey(s: string) { s in LAYER_KEYS + SLOT_KEYS }
  predicate IsSourceKey(s: string) { s in SOURCE_KEYS }
  predicate IsBudgetKey(s: string) { s in BUDGET_KEYS }
  predicate IsTopKey(s: string) { s in TOP_KEYS }
  predicate IsAdaptiveKey(s: string) { s in ADAPTIVE_KEYS }
  predicate IsEngineKey(s: string) { IsTopKey(s) || IsAdaptiveKey(s) }

  /** No quote and no colon. */
  predicate Word(s: string) { forall i :: 0 <= i < |s| ==> s[i] != '"' && s[i] != ':' }

  /** A name or fixed text of the file that the engine never searches for. */
  predicate IsOther(s: string) { Word(s) && !IsEngineKey(s) }

  /** The first letters and lengths of the searched keys: no other name shares both. */
  predicate MarksKey(first: char, length: nat) {
    match first
    case 'a' => length in {22, 26, 32, 34}
    case 'c' => length == 14
    case 'd' => length in {19, 23}
    case 'l' => length in {19, 20, 21, 22, 26}
    case 'r' => length in {23, 30}
    case 'w' => length == 12
    case _ => false
  }

  predicate Marked(s: string) { s != "" && MarksKey(s[0], |s|) }

  lemma KeysAreMarked(s: string)
    ensures IsEngineKey(s) ==> Marked(s) && |s| > 1 && (s[0] == 'r' ==> s[1] == 't')
  {}

  lemma LayerKeysArePlain()
    ensures PlainKey("layer_adaptive_enabled") && PlainKey("layer_council_enabled") && PlainKey("layer_whale_enabled")
  {}

  lemma SlotAndSourceKeysArePlain()
    ensures PlainKey("llm_primary_enabled") && PlainKey("llm_secondary_enabled") && PlainKey("llm_tertiary_enabled")
    ensures PlainKey("council_source") && PlainKey("whale_source")
  {}

  lemma NumberKeysArePlain()
    ensures PlainKey("rt_council_daily_budget") && PlainKey("rt_per_symbol_cooldown_minutes")
    ensures PlainKey("action_max_age_seconds")
  {}

  lemma AdvisoryKeysArePlain()
    ensures PlainKey("layer_dnn_advisory_enabled") && PlainKey("dnn_advisory_source")
    ensures PlainKey("defensive_trim_fraction")
  {}

  lemma AdaptiveFlagKeysArePlain()
    ensures PlainKey("adaptive_news_feed_enabled") && PlainKey("adaptive_react_defensive_enabled")
  {}

  lemma ShapingKeyIsPlain()
    ensures PlainKey("adaptive_watchlist_shaping_enabled")
  {}

  lemma EngineKeysArePlain(s: string)
    ensures IsEngineKey(s) ==> PlainKey(s)
  {
    hide PlainKey;
    LayerKeysArePlain();
    SlotAndSourceKeysArePlain();
    NumberKeysArePlain();
    AdvisoryKeysArePlain();
    ShapingKeyIsPlain();
    AdaptiveFlagKeysArePlain();
  }

  /** The keys keep apart: each stands in its own place, and none is a name of another kind. */
  lemma Apart(s: string)
    ensures IsOther(s) ==> !IsTopKey(s) && !IsAdaptiveKey(s)
    ensures IsTopKey(s) ==> !IsAdaptiveKey(s)
    ensures IsTopKey(s) <==> IsFlagKey(s) || IsSourceKey(s) || IsBudgetKey(s)
    ensures IsFlagKey(s) ==> !IsSourceKey(s) && !IsBudgetKey(s)
    ensures IsSourceKey(s) ==> !IsBudgetKey(s)
  {}

  // ----- The other names of the file ------------------------------------------------------------

  lemma UnmarkedAreOther()
    ensures forall s :: Word(s) && !Marked(s) ==> IsOther(s)
  {
    hide Word, Marked, IsEngineKey;
    forall s { KeysAreMarked(s); }
  }

  lemma TopNamesAreOther()
    ensures IsOther("gate_enabled") && IsOther("auto_promote") && IsOther("rl_enabled")
    ensures IsOther("rebalance_requested") && IsOther("feed_mode") && IsOther("clock_mode")
    ensures IsOther("strategy_profile") && IsOther("ts")
  {
    hide IsOther;
    UnmarkedAreOther();
  }

  lemma BlockNamesAreOther()
    ensures IsOther("layers") && IsOther("layer_sources") && IsOther("models") && IsOther("budget")
    ensures IsOther("regime_pins") && IsOther("discovery") && IsOther("adaptive_realtime") && IsOther("sleeves")
    ensures IsOther("whale_feeds") && IsOther("pending_promote") && IsOther("pending_rollback")
  {
    hide IsOther;
    UnmarkedAreOther();
  }

  lemma LayerNamesAreOther()
    ensures IsOther("adaptive") && IsOther("council") && IsOther("dnn_advisory") && IsOther("whale")
    ensures IsOther("quant_core") && IsOther("research_satellite") && IsOther("sec_edgar_enabled")
    ensures IsOther("whale_live_enabled") && IsOther("whale_alert_enabled")
  {
    hide IsOther;
    UnmarkedAreOther();
  }

  lemma FunnelFlagNamesAreOther()
    ensures IsOther("discovery_enabled") && IsOther("long_term_sleeve_enabled")
    ensures IsOther("stage_a_whale_weight")
  {
    hide IsOther;
    UnmarkedAreOther();
  }

  lemma FunnelNamesAreOther()
    ensures IsOther("max_finalists") && IsOther("max_survivors") && IsOther("discovery_daily_council_budget")
    ensures IsOther("max_council_calls_per_pass")
  {
    hide IsOther;
    UnmarkedAreOther();
  }

  lemma BudgetNamesAreOther()
    ensures IsOther("council_daily_budget") && IsOther("per_symbol_cooldown_minutes")
  {
    hide IsOther;
    UnmarkedAreOther();
  }

  lemma CadenceNamesAreOther()
    ensures IsOther("crypto_interval_minutes") && IsOther("equity_interval_minutes")
    ensures IsOther("poll_interval_seconds")
  {
    hide IsOther;
    UnmarkedAreOther();
  }

  lemma PollNamesAreOther()
    ensures IsOther("max_symbols_per_poll") && IsOther("news_lookback_minutes")
    ensures IsOther("max_interpretations_per_poll")
  {
    hide IsOther;
    UnmarkedAreOther();
  }

  lemma ThresholdNamesAreOther()
    ensures IsOther("materiality_min_sentiment") && IsOther("action_min_severity")
    ensures IsOther("interpretation_min_relevance")
  {
    hide IsOther;
    UnmarkedAreOther();
  }

  lemma SpendNamesAreOther()
    ensures IsOther("adaptive_daily_llm_budget") && IsOther("adaptive_est_cost_per_call_usd")
  {
    hide IsOther;
    UnmarkedAreOther();
  }

  /** The texts a validated choice can hold. */
  lemma ChoiceTextsAreOther()
    ensures IsOther("alpaca_paper") && IsOther("synthetic_regimes") && IsOther("replay")
    ensures IsOther("flat_random_walk") && IsOther("simulated") && IsOther("mock") && IsOther("real")
    ensures IsOther("swing") && IsOther("active_quant") && IsOther("trending") && IsOther("range_bound")
    ensures IsOther("neutral")
  {
    hide IsOther;
    UnmarkedAreOther();
  }
}
