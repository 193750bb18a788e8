/** The engine sees exactly what the API wrote, and a setter changes exactly what it names. */
module EngineView {
  import opened Numbers
  import opened Text
  import opened JsonText
  import opened FlatReader
  import opened FlatReading
  import opened FlatValues
  import opened Controls
  import opened ControlRules
  import opened ControlNames
  import opened ControlReading
  import opened ControlSetters
  import opened EngineControls

  /** A state `read_controls` returns has the keys of its defaults, so it can be written for the engine. */
  lemma ProperIsWritable(p: Parse, defaults: State, models: seq<string>, ts: string, whitelist: set<string>, st: State)
    requires |models| == 3 && Proper(p, defaults, models, whitelist, st) && DefaultKeys(PartsOf(defaults), models)
    requires PlainSymbols(whitelist) && forall k :: Searched(k, whitelist) ==> QuietTexts(st, ts, k)
    ensures Writable(st, models, ts, whitelist)
  {
    hide HasField, IsOther, IsAdaptiveKey, QuietTexts, Searched, StateOk;
  }

  // ----- What the state says ---------------------------------------------------------------------

  function LayersOf(st: State): LayerToggles {
    LayerToggles(
      GetOr(st.layers, "adaptive", true), GetOr(st.layers, "council", true),
      GetOr(st.layers, "dnn_advisory", true), GetOr(st.layers, "whale", true),
      GetOr(st.sources, "council", "real") == "real", GetOr(st.sources, "dnn_advisory", "real") == "real",
      GetOr(st.sources, "whale", "real") == "real")
  }

  function OperatorOf(st: State, models: seq<string>): OperatorControls
    requires |models| == 3
  {
    OperatorControls(
      GetOr(st.models, models[0], true), GetOr(st.models, models[1], true), GetOr(st.models, models[2], true),
      IntOf(st.budget, "council_daily_budget"), IntOf(st.budget, "per_symbol_cooldown_minutes"), st.pins)
  }

  function AdaptiveOf(st: State): AdaptiveRuntime {
    AdaptiveRuntime(
      Flag(st.adaptive, "adaptive_news_feed_enabled"), Flag(st.adaptive, "adaptive_watchlist_shaping_enabled"),
      Flag(st.adaptive, "adaptive_react_defensive_enabled"), IntOf(st.adaptive, "action_max_age_seconds"),
      Real(GetOr(st.adaptive.reals, "defensive_trim_fraction", 0.0)))
  }

  lemma ChoiceIsVerbatim(s: string)
    requires IsSource(s) || IsRegime(s)
    ensures Verbatim(s)
  {}

  // ----- Key by key ----------------------------------------------------------------------------------

  lemma TopFlagReads(doc: Json, st: State, models: seq<string>, ts: string, whitelist: set<string>, k: string)
    requires Writable(st, models, ts, whitelist) && Represents(doc, VDict(Out(st, models, ts)))
    requires IsFlagKey(k) && k in TopFlags(st, models)
    ensures forall d :: GetBool(Document(doc), k, d) == TopFlags(st, models)[k]
  {
    hide Out, Represents, IsFlagKey, IsTopKey, IsAdaptiveKey, IsSourceKey, IsBudgetKey, IsOther, FreeElsewhere,
         PlainKey, TopFlags, Document, GetBool;
    KeyIsSearched(k, whitelist);
    WritableIsFree(st, models, ts, whitelist, k);
    FlagAtTop(st, models, ts, k);
    ReadsTop(doc, Out(st, models, ts), k);
  }

  lemma KeyIsSearched(k: string, whitelist: set<string>)
    requires IsFlagKey(k) || IsSourceKey(k) || IsBudgetKey(k)
    ensures IsTopKey(k) && Searched(k, whitelist) && Home(k) == k
  {
    hide IsFlagKey, IsTopKey, IsAdaptiveKey, IsSourceKey, IsBudgetKey, IsOther;
    Apart(k);
  }

  lemma TopSourceReads(doc: Json, st: State, models: seq<string>, ts: string, whitelist: set<string>, k: string)
    requires Writable(st, models, ts, whitelist) && Represents(doc, VDict(Out(st, models, ts)))
    requires IsSourceKey(k) && k in TopTexts(st, ts) && IsSource(TopTexts(st, ts)[k])
    ensures forall d :: GetString(Document(doc), k, d) == TopTexts(st, ts)[k]
  {
    hide Out, Represents, IsFlagKey, IsTopKey, IsAdaptiveKey, IsSourceKey, IsBudgetKey, IsOther, FreeElsewhere,
         PlainKey, TopTexts, Document,
         GetString, IsSource, IsRegime, Verbatim, Clashes;
    var s := TopTexts(st, ts)[k];
    KeyIsSearched(k, whitelist);
    WritableIsFree(st, models, ts, whitelist, k);
    TextAtTop(st, models, ts, k);
    ChoicesAreOther(s);
    OtherIsQuiet(s, k, whitelist);
    ChoiceIsVerbatim(s);
    ReadsTop(doc, Out(st, models, ts), k);
  }

  lemma TopIntReads(doc: Json, st: State, models: seq<string>, ts: string, whitelist: set<string>, k: string)
    requires Writable(st, models, ts, whitelist) && Represents(doc, VDict(Out(st, models, ts)))
    requires k in TopInts(st) && 0 <= TopInts(st)[k] <= 1440
    ensures forall d :: GetNumber(Document(doc), k, d) == Real(TopInts(st)[k] as real)
  {
    hide Out, Represents, IsFlagKey, IsTopKey, IsAdaptiveKey, IsSourceKey, IsBudgetKey, IsOther, FreeElsewhere,
         PlainKey, TopInts, Document, GetNumber, BeyondDouble;
    SmallFits(TopInts(st)[k] as real);
    IntNamesAreKnown(st);
    KeyIsSearched(k, whitelist);
    WritableIsFree(st, models, ts, whitelist, k);
    IntAtTop(st, models, ts, k);
    ReadsTop(doc, Out(st, models, ts), k);
  }

  lemma PinReads(doc: Json, st: State, models: seq<string>, ts: string, whitelist: set<string>, s: string)
    requires Writable(st, models, ts, whitelist) && Represents(doc, VDict(Out(st, models, ts))) && s in whitelist
    ensures GetString(Document(doc), PinKey(s), "") == if s in st.pins then st.pins[s] else ""
  {
    hide Out, Represents, IsTopKey, IsAdaptiveKey, IsOther, FreeElsewhere, PlainKey, Document, GetString, PinKey,
         IsRegime, IsSource, Verbatim,
         Clashes, DefaultKeys, QuietTexts, PlainSymbols, PartsOk;
    var k := PinKey(s);
    assert Searched(k, whitelist);
    PinIsNoName(s);
    WritableIsFree(st, models, ts, whitelist, k);
    PinAtTop(st, models, ts, s);
    if s in st.pins {
      ChoicesAreOther(st.pins[s]);
      OtherIsQuiet(st.pins[s], k, whitelist);
      ChoiceIsVerbatim(st.pins[s]);
      ReadsTop(doc, Out(st, models, ts), k);
    } else {
      ReadsNothing(doc, Out(st, models, ts), k);
    }
  }

  lemma AdaptiveReads(doc: Json, st: State, models: seq<string>, ts: string, whitelist: set<string>, k: string)
    requires Writable(st, models, ts, whitelist) && Represents(doc, VDict(Out(st, models, ts)))
    requires IsAdaptiveKey(k) && k in BlockDict(st.adaptive)
    ensures ReadsAs(doc, k, BlockDict(st.adaptive)[k])
  {
    hide Out, Represents, IsTopKey, IsAdaptiveKey, IsOther, FreeElsewhere, PlainKey, BlockDict, ReadsAs, Blocks,
         Clashes;
    WritableIsFree(st, models, ts, whitelist, k);
    var inner := BlockDict(st.adaptive);
    MoreBlockValues(st);
    BlocksShadow(st, models, ts, "adaptive_realtime");
    BlocksHaveOtherNames(st);
    OtherIsQuiet("adaptive_realtime", k, whitelist);
    AdaptiveEntriesAreFree(st, models, k);
    ReadsNested(doc, Out(st, models, ts), "adaptive_realtime", inner, k);
  }

  lemma AdaptiveEntriesAreFree(st: State, models: seq<string>, k: string)
    requires DefaultKeys(PartsOf(st), models) && k in BlockDict(st.adaptive)
    ensures FreeElsewhere(BlockDict(st.adaptive), k, k) && Free(BlockDict(st.adaptive)[k], k)
  {
    hide IsTopKey, IsAdaptiveKey, IsOther, Clashes, FreeElsewhere, FlagDict, IntDict, RealDict;
    var b := st.adaptive;
    forall y | y in b.flags.Keys + b.ints.Keys + b.reals.Keys && y != k
      ensures !Clashes(y, k)
    {
      NameIsQuiet(y, k);
    }
    FlagsFreeElsewhere(b.flags, k, k);
    IntsFreeElsewhere(b.ints, k, k);
    RealsFreeElsewhere(b.reals, k, k);
    SumFreeElsewhere(FlagDict(b.flags), IntDict(b.ints), k, k);
    SumFreeElsewhere(FlagDict(b.flags) + IntDict(b.ints), RealDict(b.reals), k, k);
    EntriesAreScalars(b, k);
  }

  lemma EntriesAreScalars(b: Block, k: string)
    requires k in BlockDict(b)
    ensures var v := BlockDict(b)[k]; v.VBool? || v.VInt? || v.VFloat?
  {}

  // ----- Reader by reader ---------------------------------------------------------------------------

  lemma LayerFlagsAtTop(st: State, models: seq<string>)
    requires |models| == 3
    ensures var f := TopFlags(st, models);
            && "layer_adaptive_enabled" in f && f["layer_adaptive_enabled"] == GetOr(st.layers, "adaptive", true)
            && "layer_council_enabled" in f && f["layer_council_enabled"] == GetOr(st.layers, "council", true)
            && "layer_dnn_advisory_enabled" in f
            && f["layer_dnn_advisory_enabled"] == GetOr(st.layers, "dnn_advisory", true)
            && "layer_whale_enabled" in f && f["layer_whale_enabled"] == GetOr(st.layers, "whale", true)
  {
    hide GetOr;
  }

  lemma SlotFlagsAtTop(st: State, models: seq<string>)
    requires |models| == 3
    ensures var f := TopFlags(st, models);
            && "llm_primary_enabled" in f && f["llm_primary_enabled"] == GetOr(st.models, models[0], true)
            && "llm_secondary_enabled" in f && f["llm_secondary_enabled"] == GetOr(st.models, models[1], true)
            && "llm_tertiary_enabled" in f && f["llm_tertiary_enabled"] == GetOr(st.models, models[2], true)
  {
    hide GetOr;
  }

  lemma SourcesAtTop(st: State, ts: string)
    ensures var t := TopTexts(st, ts);
            && "council_source" in t && t["council_source"] == FlatSource(st, "council")
            && "dnn_advisory_source" in t && t["dnn_advisory_source"] == FlatSource(st, "dnn_advisory")
            && "whale_source" in t && t["whale_source"] == FlatSource(st, "whale")
  {
    hide FlatSource;
  }

  lemma FlagKeyNames()
    ensures IsFlagKey("layer_adaptive_enabled") && IsFlagKey("layer_council_enabled")
    ensures IsFlagKey("layer_dnn_advisory_enabled") && IsFlagKey("layer_whale_enabled")
    ensures IsFlagKey("llm_primary_enabled") && IsFlagKey("llm_secondary_enabled") && IsFlagKey("llm_tertiary_enabled")
  {}

  lemma SourceKeyNames()
    ensures IsSourceKey("council_source") && IsSourceKey("dnn_advisory_source") && IsSourceKey("whale_source")
  {}

  lemma FlatSourceIsSource(st: State, layer: string)
    requires forall y :: y in st.sources ==> IsSource(st.sources[y])
    ensures IsSource(FlatSource(st, layer))
    ensures FlatSource(st, layer) != "mock" <==> GetOr(st.sources, layer, "real") == "real"
  {}

  lemma DocumentIsText(doc: Json, out: Dict)
    requires Represents(doc, VDict(out))
    ensures !Missing(Some(Document(doc)))
  {
    RepresentedNumbers(doc, VDict(out));
    ValueText(doc, 0, "");
  }

  lemma LayersAsWritten(doc: Json, st: State, models: seq<string>, ts: string, whitelist: set<string>)
    requires Writable(st, models, ts, whitelist) && Represents(doc, VDict(Out(st, models, ts)))
    ensures ReadLayerToggles(Some(Document(doc))) == LayersOf(st)
  {
    hide Out, Represents, Document, GetBool, GetString, TopFlags, TopTexts, FlatSource, GetOr, IsFlagKey,
         IsSourceKey, IsSource, Missing,
         DefaultKeys, TopOk, HasKeys, Searched, QuietTexts, PlainSymbols, BudgetBounded, DiscoveryBounded,
         AdaptiveBounded, Shaped;
    DocumentIsText(doc, Out(st, models, ts));
    LayerFlagsAtTop(st, models);
    FlagKeyNames();
    TopFlagReads(doc, st, models, ts, whitelist, "layer_adaptive_enabled");
    TopFlagReads(doc, st, models, ts, whitelist, "layer_council_enabled");
    TopFlagReads(doc, st, models, ts, whitelist, "layer_dnn_advisory_enabled");
    TopFlagReads(doc, st, models, ts, whitelist, "layer_whale_enabled");
    SourcesAtTop(st, ts);
    SourceKeyNames();
    FlatSourceIsSource(st, "council");
    FlatSourceIsSource(st, "dnn_advisory");
    FlatSourceIsSource(st, "whale");
    TopSourceReads(doc, st, models, ts, whitelist, "council_source");
    TopSourceReads(doc, st, models, ts, whitelist, "dnn_advisory_source");
    TopSourceReads(doc, st, models, ts, whitelist, "whale_source");
  }

  lemma RuntimePrefix(k: string)
    ensures ("rt_" + k)[3..] == k
  {}

  lemma BudgetKeyNames()
    ensures "rt_council_daily_budget" == "rt_" + "council_daily_budget"
    ensures "rt_per_symbol_cooldown_minutes" == "rt_" + "per_symbol_cooldown_minutes"
  {}

  lemma BudgetEntries(b: Block)
    requires BudgetBounded(b)
    ensures "council_daily_budget" in b.ints && 1 <= IntOf(b, "council_daily_budget") <= 500
    ensures "per_symbol_cooldown_minutes" in b.ints && 0 <= IntOf(b, "per_symbol_cooldown_minutes") <= 1440
  {
    assert BUDGET_BOUNDS[0] == IntBound("council_daily_budget", 1, 500);
    assert BUDGET_BOUNDS[1] == IntBound("per_symbol_cooldown_minutes", 0, 1440);
  }

  lemma RuntimeAtTop(st: State, k: string)
    requires k in {"rt_council_daily_budget", "rt_per_symbol_cooldown_minutes"} && k[3..] in st.budget.ints
    ensures k in TopInts(st) && TopInts(st)[k] == IntOf(st.budget, k[3..])
  {}

  lemma BudgetAtTop(st: State)
    requires BudgetBounded(st.budget)
    ensures var t := TopInts(st);
            && "rt_council_daily_budget" in t
            && t["rt_council_daily_budget"] == IntOf(st.budget, "council_daily_budget")
            && "rt_per_symbol_cooldown_minutes" in t
            && t["rt_per_symbol_cooldown_minutes"] == IntOf(st.budget, "per_symbol_cooldown_minutes")
    ensures 1 <= IntOf(st.budget, "council_daily_budget") <= 500
    ensures 0 <= IntOf(st.budget, "per_symbol_cooldown_minutes") <= 1440
  {
    hide BudgetBounded, IntOf, TopInts;
    BudgetEntries(st.budget);
    BudgetKeyNames();
    RuntimePrefix("council_daily_budget");
    RuntimePrefix("per_symbol_cooldown_minutes");
    RuntimeAtTop(st, "rt_council_daily_budget");
    RuntimeAtTop(st, "rt_per_symbol_cooldown_minutes");
  }

  lemma {:induction false} PinsAsWritten(doc: Json, st: State, models: seq<string>, ts: string,
        whitelist: set<string>, symbols: seq<string>)
    requires Writable(st, models, ts, whitelist) && Represents(doc, VDict(Out(st, models, ts)))
    requires forall s :: s in symbols ==> s in whitelist
    ensures PinsIn(Document(doc), symbols) == map s | s in symbols && s in st.pins :: st.pins[s]
  {
    hide Out, Represents, Document, GetString, DefaultKeys, Searched, QuietTexts, PlainSymbols, PartsOk;
    if symbols != [] {
      var n := |symbols| - 1;
      PinsAsWritten(doc, st, models, ts, whitelist, symbols[..n]);
      PinReads(doc, st, models, ts, whitelist, symbols[n]);
      assert symbols == symbols[..n] + [symbols[n]];
      assert symbols[n] in st.pins ==> IsRegime(st.pins[symbols[n]]);
    }
  }

  lemma OperatorAsWritten(doc: Json, st: State, models: seq<string>, ts: string, whitelist: seq<string>,
        wild: Double -> int)
    requires Writable(st, models, ts, (set s | s in whitelist)) && Represents(doc, VDict(Out(st, models, ts)))
    ensures ReadOperatorControls(Some(Document(doc)), whitelist, wild) == OperatorOf(st, models)
  {
    hide Out, Represents, Document, GetBool, GetNumber, TopFlags, TopInts, GetOr, IntOf, IsFlagKey, IsSource,
         Missing, PinsIn,
         DefaultKeys, HasKeys, Searched, QuietTexts, PlainSymbols, BudgetBounded, DiscoveryBounded, AdaptiveBounded, Shaped;
    var allowed := set s | s in whitelist;
    DocumentIsText(doc, Out(st, models, ts));
    SlotFlagsAtTop(st, models);
    FlagKeyNames();
    TopFlagReads(doc, st, models, ts, allowed, "llm_primary_enabled");
    TopFlagReads(doc, st, models, ts, allowed, "llm_secondary_enabled");
    TopFlagReads(doc, st, models, ts, allowed, "llm_tertiary_enabled");
    BudgetAtTop(st);
    TopIntReads(doc, st, models, ts, allowed, "rt_council_daily_budget");
    TopIntReads(doc, st, models, ts, allowed, "rt_per_symbol_cooldown_minutes");
    PinsAsWritten(doc, st, models, ts, allowed, whitelist);
    assert (map s | s in whitelist && s in st.pins :: st.pins[s]) == st.pins;
  }

  lemma AdaptiveKeyNames()
    ensures IsAdaptiveKey("adaptive_news_feed_enabled") && IsAdaptiveKey("adaptive_watchlist_shaping_enabled")
    ensures IsAdaptiveKey("adaptive_react_defensive_enabled") && IsAdaptiveKey("action_max_age_seconds")
    ensures IsAdaptiveKey("defensive_trim_fraction")
  {}

  lemma AdaptiveEntries(b: Block)
    requires AdaptiveBounded(b) && Shaped(b)
    ensures var d := BlockDict(b);
            && "adaptive_news_feed_enabled" in d
            && d["adaptive_news_feed_enabled"] == VBool(Flag(b, "adaptive_news_feed_enabled"))
            && "adaptive_watchlist_shaping_enabled" in d
            && d["adaptive_watchlist_shaping_enabled"] == VBool(Flag(b, "adaptive_watchlist_shaping_enabled"))
            && "adaptive_react_defensive_enabled" in d
            && d["adaptive_react_defensive_enabled"] == VBool(Flag(b, "adaptive_react_defensive_enabled"))
            && "action_max_age_seconds" in d && d["action_max_age_seconds"] == VInt(IntOf(b, "action_max_age_seconds"))
            && "defensive_trim_fraction" in d
            && d["defensive_trim_fraction"] == VFloat(GetOr(b.reals, "defensive_trim_fraction", 0.0))
    ensures 30 <= IntOf(b, "action_max_age_seconds") <= 3600
    ensures 0.01 <= GetOr(b.reals, "defensive_trim_fraction", 0.0) <= 1.0
  {
    hide BlockDict, Shaped;
    BlockLookups(b);
    assert ADAPTIVE_FLAGS[0] == "adaptive_news_feed_enabled" && ADAPTIVE_FLAGS[1] == "adaptive_watchlist_shaping_enabled"
        && ADAPTIVE_FLAGS[2] == "adaptive_react_defensive_enabled";
    assert ADAPTIVE_BOUNDS[5] == IntBound("action_max_age_seconds", 30, 3600);
    assert ADAPTIVE_REALS[3] == RealBound("defensive_trim_fraction", 0.01, 1.0);
  }

  lemma AdaptiveAsWritten(doc: Json, st: State, models: seq<string>, ts: string, whitelist: set<string>,
        cfg: AdaptiveRuntime, wild: Double -> int)
    requires Writable(st, models, ts, whitelist) && Represents(doc, VDict(Out(st, models, ts)))
    requires FeedIsMaster(st.adaptive)
    ensures ReadAdaptiveControls(Some(Document(doc)), cfg, wild) == AdaptiveOf(st)
  {
    hide Out, Represents, Document, GetBool, GetNumber, GetString, Flag, IntOf, GetOr, IsAdaptiveKey, BlockDict,
         Missing, BeyondDouble,
         DefaultKeys, TopOk, HasKeys, Searched, QuietTexts, PlainSymbols, BudgetBounded, DiscoveryBounded,
         AdaptiveBounded, Shaped;
    DocumentIsText(doc, Out(st, models, ts));
    AdaptiveKeyNames();
    AdaptiveEntries(st.adaptive);
    SmallFits(IntOf(st.adaptive, "action_max_age_seconds") as real);
    SmallFits(GetOr(st.adaptive.reals, "defensive_trim_fraction", 0.0));
    AdaptiveReads(doc, st, models, ts, whitelist, "adaptive_news_feed_enabled");
    AdaptiveReads(doc, st, models, ts, whitelist, "adaptive_watchlist_shaping_enabled");
    AdaptiveReads(doc, st, models, ts, whitelist, "adaptive_react_defensive_enabled");
    AdaptiveReads(doc, st, models, ts, whitelist, "action_max_age_seconds");
    AdaptiveReads(doc, st, models, ts, whitelist, "defensive_trim_fraction");
  }

  /** For every document of the written object, whatever the order of its members and the form of
      its numbers, all three engine readers read exactly what was written. */
  lemma EngineSeesWhatWasWritten(doc: Json, st: State, models: seq<string>, ts: string, whitelist: seq<string>,
        cfg: AdaptiveRuntime, wild: Double -> int)
    requires Writable(st, models, ts, (set s | s in whitelist)) && Represents(doc, VDict(Out(st, models, ts)))
    requires FeedIsMaster(st.adaptive)
    ensures var body := Some(Document(doc));
            && ReadLayerToggles(body) == LayersOf(st)
            && ReadOperatorControls(body, whitelist, wild) == OperatorOf(st, models)
            && ReadAdaptiveControls(body, cfg, wild) == AdaptiveOf(st)
  {
    hide Represents, Document, ReadLayerToggles, ReadOperatorControls, ReadAdaptiveControls, LayersOf, OperatorOf,
         AdaptiveOf, Out;
    LayersAsWritten(doc, st, models, ts, (set s | s in whitelist));
    OperatorAsWritten(doc, st, models, ts, whitelist, wild);
    AdaptiveAsWritten(doc, st, models, ts, (set s | s in whitelist), cfg, wild);
  }

  // ----- One setter, one field ------------------------------------------------------------------------

  function Toggled(t: LayerToggles, layer: string, enabled: bool): LayerToggles {
    t.(adaptive := if layer == "adaptive" then enabled else t.adaptive,
       council := if layer == "council" then enabled else t.council,
       dnnAdvisory := if layer == "dnn_advisory" then enabled else t.dnnAdvisory,
       whale := if layer == "whale" then enabled else t.whale)
  }

  lemma GetOrSet<T>(m: map<string, T>, k: string, x: T, y: string, default: T)
    ensures GetOr(m[k := x], y, default) == if k == y then x else GetOr(m, y, default)
  {}

  lemma LayersOfToggled(st: State, layer: string, enabled: bool)
    ensures LayersOf(WithLayer(st, layer, enabled)) == Toggled(LayersOf(st), layer, enabled)
  {
    hide GetOr;
    GetOrSet(st.layers, layer, enabled, "adaptive", true);
    GetOrSet(st.layers, layer, enabled, "council", true);
    GetOrSet(st.layers, layer, enabled, "dnn_advisory", true);
    GetOrSet(st.layers, layer, enabled, "whale", true);
  }

  /** `set_layer` changes exactly one of the values the engine reads, whatever the order of the
      members in the file before and after. */
  lemma SetLayerChangesOneField(before: Json, after: Json, st: State, layer: string, enabled: bool,
        models: seq<string>, ts: string, ts': string, whitelist: seq<string>, cfg: AdaptiveRuntime,
        wild: Double -> int)
    requires layer in LAYERS && FeedIsMaster(st.adaptive)
    requires var allowed := set s | s in whitelist;
             Writable(st, models, ts, allowed) && Writable(WithLayer(st, layer, enabled), models, ts', allowed)
    requires Represents(before, VDict(Out(st, models, ts)))
    requires Represents(after, VDict(Out(WithLayer(st, layer, enabled), models, ts')))
    ensures var old', new' := Some(Document(before)), Some(Document(after));
            && ReadLayerToggles(new') == Toggled(ReadLayerToggles(old'), layer, enabled)
            && ReadOperatorControls(new', whitelist, wild) == ReadOperatorControls(old', whitelist, wild)
            && ReadAdaptiveControls(new', cfg, wild) == ReadAdaptiveControls(old', cfg, wild)
  {
    hide Represents, Document, ReadLayerToggles, ReadOperatorControls, ReadAdaptiveControls, LayersOf, Out,
         Writable, Toggled, FeedIsMaster;
    EngineSeesWhatWasWritten(before, st, models, ts, whitelist, cfg, wild);
    EngineSeesWhatWasWritten(after, WithLayer(st, layer, enabled), models, ts', whitelist, cfg, wild);
    LayersOfToggled(st, layer, enabled);
  }

  // ----- A value no correction catches -----------------------------------------------------------

  function NotANumberFile(): string { "{" + (Needle("defensive_trim_fraction") + (": " + "NaN}")) }

  lemma WordReads()
    ensures !IsSpace("NaN}"[0]) && ReadNumber("NaN}") == Some(NotANumber)
  {}

  lemma NumberAt(text: string, k: string, field: string, d: Double)
    requires ValueStart(text, k) == Some(|text| - |field|) && |field| < |text| && text[|text| - |field|..] == field
    ensures GetNumber(text, k, d) == match ReadNumber(field) case None => d case Some(x) => x
  {}

  lemma TrimOf(text: string, cfg: AdaptiveRuntime, wild: Double -> int)
    requires text != "" && GetNumber(text, "defensive_trim_fraction", cfg.trimFraction) == NotANumber
    ensures ReadAdaptiveControls(Some(text), cfg, wild).trimFraction == NotANumber
  {
    hide GetNumber, GetBool;
  }

  /** A file that says not-a-number: the engine runs with that trim fraction, whatever its configuration. */
  lemma NotANumberIsKept(cfg: AdaptiveRuntime, wild: Double -> int)
    ensures ReadAdaptiveControls(Some(NotANumberFile()), cfg, wild).trimFraction == NotANumber
  {
    hide GetBool, GetNumber, ReadNumber, ValueStart, Needle, Clears, ReadAdaptiveControls;
    var k, field, text := "defensive_trim_fraction", "NaN}", NotANumberFile();
    WordReads();
    ClearsPlain("{", Needle(k) + (": " + field), k);
    LandsOnField(text, k, field);
    NumberAt(text, k, field, cfg.trimFraction);
    TrimOf(text, cfg, wild);
  }

  const THREE_BILLION := Number(false, "3000000000", "", None)

  /** The file `{"rt_per_symbol_cooldown_minutes": 3000000000}`, as it is written. */
  function LargeCooldownFile(): string {
    Document(Obj([Member("rt_per_symbol_cooldown_minutes", Num(THREE_BILLION))]))
  }

  lemma {:induction false} TrailingZeros(s: string, n: nat)
    requires Digits(s) && n <= |s| && forall i :: |s| - n <= i < |s| ==> s[i] == '0'
    ensures Natural(s) == Natural(s[..|s| - n]) * Power10(n)
  {
    if n == 0 {
      assert s[..|s|] == s;
    } else {
      var front := s[..|s| - 1];
      TrailingZeros(front, n - 1);
      assert front[..|front| - (n - 1)] == s[..|s| - n];
    }
  }

  lemma ThreeBillion()
    ensures WellFormedNumber(THREE_BILLION) && NumberValue(THREE_BILLION) == 3_000_000_000.0
  {
    var s := THREE_BILLION.whole;
    TrailingZeros(s, 9);
    assert s[..1] == "3" && Natural("3") == 3;
    assert s + "" == s && Power(0) == 1.0;
    assert Scaled(Natural(s) as real, 0) == 3_000_000_000.0;
  }

  /** Three billion minutes fit no int: the cooldown can come out below every bound. */
  lemma LargeCooldownEscapes(whitelist: seq<string>)
    ensures exists wild: Double -> int ::
              ReadOperatorControls(Some(LargeCooldownFile()), whitelist, wild).cooldown < -1
  {
    hide Emit, GetBool, GetNumber, PinsIn, NumberValue, PlainKey, BeyondDouble;
    var k, m := "rt_per_symbol_cooldown_minutes", Member("rt_per_symbol_cooldown_minutes", Num(THREE_BILLION));
    NumberKeysArePlain();
    ThreeBillion();
    SmallFits(3_000_000_000.0);
    assert NumbersOk(m.value) && MembersOk([m]);
    assert MemberHits([m], k)[0] == Hit.Field(Num(THREE_BILLION));
    ReadsNumber(Obj([m]), k, THREE_BILLION, Real(-1.0));
    assert LargeCooldownFile() != "" by { ValueText(Obj([m]), 0, ""); }
    assert ReadOperatorControls(Some(LargeCooldownFile()), whitelist, _ => -2).cooldown == -2;
  }

  // ----- Why the keys are flat and distinct -----------------------------------------------------------

  lemma LayerNamesArePlain()
    ensures forall y :: y in LAYERS ==> PlainKey(y)
  {}

  lemma LayersHaveOtherNames(y: string)
    requires y in LAYERS
    ensures IsOther(y)
  {
    hide IsOther;
    LayerNamesAreOther();
  }

  lemma LayersAreNoSources(layer: string, s: string)
    requires layer in LAYERS && IsSource(s)
    ensures s != layer
  {}

  lemma LayersAreNoBlocks(layer: string)
    requires layer in LAYERS
    ensures layer != "layers" && layer != "layer_sources"
  {}

  lemma BoolIsFree(b: bool, k: string)
    ensures Free(VBool(b), k)
  {}

  lemma BareFlagHit(layers: Json, m: map<string, bool>, layer: string)
    requires Represents(layers, VDict(FlagDict(m))) && layer in m && (forall y :: y in m ==> y in LAYERS)
    ensures Hits(layers, layer) == [Hit.Field(Json.Bool(m[layer]))]
  {
    hide Clashes, Free, RepresentsMembers, FlagDict, FreeElsewhere, IsOther;
    forall y | y in m && y != layer
      ensures !Clashes(y, layer)
    {
      LayersHaveOtherNames(y);
      NameIsQuiet(y, layer);
    }
    FlagsFreeElsewhere(m, layer, layer);
    BoolIsFree(m[layer], layer);
    FlagEntry(m, layer);
    var j := OneHit(layers.members, FlagDict(m), layer);
  }

  lemma FlagEntry(m: map<string, bool>, k: string)
    requires k in m
    ensures k in FlagDict(m) && FlagDict(m)[k] == VBool(m[k])
  {}

  lemma BareSourceHit(sources: Json, m: map<string, string>, layer: string)
    requires Represents(sources, VDict(TextDict(m))) && layer in m && (forall y :: y in m ==> y in LAYERS)
    requires forall y :: y in m ==> IsSource(m[y])
    ensures Hits(sources, layer) == [Hit.Field(Json.Str(m[layer]))]
  {
    hide Clashes, RepresentsMembers, TextDict, FreeElsewhere, IsSource, IsOther;
    forall y | y in m
      ensures (y != layer ==> !Clashes(y, layer)) && !Clashes(m[y], layer)
    {
      LayersAreNoSources(layer, m[y]);
      ChoicesAreOther(m[y]);
      NameIsQuiet(m[y], layer);
      LayersHaveOtherNames(y);
      if y != layer { NameIsQuiet(y, layer); }
    }
    TextsFreeElsewhere(m, layer, layer);
    TextEntry(m, layer);
    var j := OneHit(sources.members, TextDict(m), layer);
  }

  lemma TextEntry(m: map<string, string>, k: string)
    requires k in m
    ensures k in TextDict(m) && TextDict(m)[k] == VStr(m[k])
  {}

  lemma TwoBlocks(a: Member, b: Member, k: string)
    requires NumbersOk(a.value) && NumbersOk(b.value) && !Clashes(a.key, k) && !Clashes(b.key, k)
    ensures Hits(Obj([a, b]), k) == Hits(a.value, k) + Hits(b.value, k) && NumbersOk(Obj([a, b]))
  {
    var members := [a, b];
    assert members[1..] == [b] && [b][1..] == [];
    assert MemberHits([], k) == [];
    assert MemberHits([b], k) == Hits(b.value, k);
  }

  /** The bare layer name, searched for in the nested blocks: it stands there twice, and an off
      layer reads as off or sticks on with the order of the two blocks. */
  lemma BareLayerKeyDependsOnTheOrder(layers: Json, sources: Json, st: State, layer: string)
    requires Represents(layers, VDict(FlagDict(st.layers))) && Represents(sources, VDict(TextDict(st.sources)))
    requires (forall y :: y in st.layers ==> y in LAYERS) && (forall y :: y in st.sources ==> y in LAYERS)
    requires forall y :: y in st.sources ==> IsSource(st.sources[y])
    requires layer in st.layers && layer in st.sources && !st.layers[layer]
    ensures !GetBool(Document(Obj([Member("layers", layers), Member("layer_sources", sources)])), layer, true)
    ensures GetBool(Document(Obj([Member("layer_sources", sources), Member("layers", layers)])), layer, true)
  {
    hide Document, GetBool, Represents, Hits, FlagDict, TextDict, IsSource, Clashes, PlainKey, NumbersOk, IsOther;
    var l, s := Member("layers", layers), Member("layer_sources", sources);
    BareFlagHit(layers, st.layers, layer);
    BareSourceHit(sources, st.sources, layer);
    RepresentedNumbers(layers, VDict(FlagDict(st.layers)));
    RepresentedNumbers(sources, VDict(TextDict(st.sources)));
    LayersAreNoBlocks(layer);
    BlockNamesAreOther();
    NameIsQuiet("layers", layer);
    NameIsQuiet("layer_sources", layer);
    TwoBlocks(l, s, layer);
    TwoBlocks(s, l, layer);
    LayerNamesArePlain();
    ReadsBool(Obj([l, s]), layer, false, true);
    StringIsNoBool(Obj([s, l]), layer, st.sources[layer], true);
  }
}
