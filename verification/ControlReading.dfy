/** The engine reads the values the API wrote, whatever the order the file's members stand in. */
module ControlReading {
  import opened Numbers
  import opened Text
  import opened JsonText
  import opened FlatReader
  import opened FlatReading
  import opened FlatValues
  import opened Controls
  import opened ControlRules
  import opened ControlNames
  import opened EngineControls

  // ----- Documents of a Python value ---------------------------------------------------------

  /** `j` is a JSON document of `v`: objects in any member order, numbers in any numeral that
      denotes them. Infinities and NaN have no document. */
  ghost predicate Represents(j: Json, v: Value)
    decreases j, 1
  {
    match v
    case VNull => j.Null?
    case VBool(b) => j == Json.Bool(b)
    case VInt(n) => j.Num? && WellFormedNumber(j.n) && NumberValue(j.n) == n as real
    case VFloat(x) => j.Num? && WellFormedNumber(j.n) && NumberValue(j.n) == x
    case VStr(s) => j == Json.Str(s)
    case VList(items) =>
      j.Arr? && |j.items| == |items| && forall i :: 0 <= i < |items| ==> Represents(j.items[i], items[i])
    case VDict(entries) => j.Obj? && RepresentsMembers(j.members, entries)
    case _ => false
  }

  ghost predicate RepresentsMembers(members: seq<Member>, entries: Dict)
    decreases members, 0
  {
    && (forall i, k :: 0 <= i < k < |members| ==> members[i].key != members[k].key)
    && (forall k :: k in entries ==> exists i :: 0 <= i < |members| && members[i].key == k)
    && forall i :: 0 <= i < |members| ==>
         members[i].key in entries && (var value := members[i].value; Represents(value, entries[members[i].key]))
  }

  /** No string in the value clashes with the key. */
  predicate Free(v: Value, k: string) {
    match v
    case VStr(s) => !Clashes(s, k)
    case VList(items) => forall i :: 0 <= i < |items| ==> Free(items[i], k)
    case VDict(entries) => forall y :: y in entries ==> !Clashes(y, k) && Free(entries[y], k)
    case _ => true
  }

  lemma {:induction false} RepresentedNumbers(j: Json, v: Value)
    requires Represents(j, v)
    ensures NumbersOk(j)
    decreases j
  {
    match j
    case Arr(items) =>
      forall i | 0 <= i < |items|
        ensures NumbersOk(items[i])
      {
        RepresentedNumbers(items[i], v.items[i]);
      }
    case Obj(members) =>
      forall i | 0 <= i < |members|
        ensures var value := members[i].value; NumbersOk(value)
      {
        RepresentedNumbers(members[i].value, v.entries[members[i].key]);
      }
    case _ =>
  }

  lemma {:induction false} ItemsWithoutHits(items: seq<Json>, k: string)
    requires forall i :: 0 <= i < |items| ==> Hits(items[i], k) == []
    ensures ItemHits(items, k) == []
  {
    if items != [] { ItemsWithoutHits(items[1..], k); }
  }

  function OwnHits(m: Member, k: string): seq<Hit> {
    (if Clashes(m.key, k) then [Hit.Field(m.value)] else []) + Hits(m.value, k)
  }

  lemma {:induction false} MembersWithoutHits(members: seq<Member>, k: string)
    requires forall i :: 0 <= i < |members| ==> OwnHits(members[i], k) == []
    ensures MemberHits(members, k) == []
  {
    if members != [] {
      MembersWithoutHits(members[1..], k);
      assert OwnHits(members[0], k) == [];
    }
  }

  /** When one member holds all the hits, its hits are those of the object. */
  lemma {:induction false} MembersWithOneHit(members: seq<Member>, k: string, at: nat)
    requires at < |members| && forall i :: 0 <= i < |members| && i != at ==> OwnHits(members[i], k) == []
    ensures MemberHits(members, k) == OwnHits(members[at], k)
  {
    if at == 0 {
      assert forall i :: 0 <= i < |members[1..]| ==> members[1..][i] == members[i + 1];
      MembersWithoutHits(members[1..], k);
    } else {
      assert OwnHits(members[0], k) == [];
      assert forall i :: 0 <= i < |members[1..]| ==> members[1..][i] == members[i + 1];
      MembersWithOneHit(members[1..], k, at - 1);
    }
  }

  /** A value free of the key has no hits, in any document of it. */
  lemma {:induction false} FreeHasNoHits(j: Json, v: Value, k: string)
    requires Represents(j, v) && Free(v, k)
    ensures Hits(j, k) == []
    decreases j
  {
    match j
    case Arr(items) =>
      forall i | 0 <= i < |items|
        ensures Hits(items[i], k) == []
      {
        FreeHasNoHits(items[i], v.items[i], k);
      }
      ItemsWithoutHits(items, k);
    case Obj(members) =>
      forall i | 0 <= i < |members|
        ensures OwnHits(members[i], k) == []
      {
        FreeHasNoHits(members[i].value, v.entries[members[i].key], k);
      }
      MembersWithoutHits(members, k);
    case _ =>
  }

  /** Apart from the entry under `k`, the object is free of `k`. */
  predicate FreeElsewhere(entries: Dict, home: string, k: string) {
    forall y :: y in entries && y != home ==> !Clashes(y, k) && Free(entries[y], k)
  }

  /** A key that stands in the object as one entry, and nowhere else, has one hit: that entry. */
  lemma OneHit(members: seq<Member>, entries: Dict, k: string) returns (j: Json)
    requires RepresentsMembers(members, entries) && k in entries
    requires FreeElsewhere(entries, k, k) && Free(entries[k], k)
    ensures MemberHits(members, k) == [Hit.Field(j)] && Represents(j, entries[k])
  {
    var at :| 0 <= at < |members| && members[at].key == k;
    j := members[at].value;
    forall i | 0 <= i < |members| && i != at
      ensures OwnHits(members[i], k) == []
    {
      assert members[i].key != k;
      FreeHasNoHits(members[i].value, entries[members[i].key], k);
    }
    FreeHasNoHits(j, entries[k], k);
    MembersWithOneHit(members, k, at);
  }

  /** The same, when the entry stands in the nested object under `home`. */
  lemma OneNestedHit(members: seq<Member>, entries: Dict, home: string, inner: Dict, k: string) returns (j: Json)
    requires RepresentsMembers(members, entries) && home in entries && entries[home] == VDict(inner) && !Clashes(home, k)
    requires FreeElsewhere(entries, home, k)
    requires k in inner && FreeElsewhere(inner, k, k) && Free(inner[k], k)
    ensures MemberHits(members, k) == [Hit.Field(j)] && Represents(j, inner[k])
  {
    var at :| 0 <= at < |members| && members[at].key == home;
    forall i | 0 <= i < |members| && i != at
      ensures OwnHits(members[i], k) == []
    {
      assert members[i].key != home;
      FreeHasNoHits(members[i].value, entries[members[i].key], k);
    }
    j := OneHit(members[at].value.members, inner, k);
    MembersWithOneHit(members, k, at);
  }

  /** No hit at all: the object is free of the key. */
  lemma NoHit(members: seq<Member>, entries: Dict, k: string)
    requires RepresentsMembers(members, entries) && Free(VDict(entries), k)
    ensures MemberHits(members, k) == []
  {
    FreeHasNoHits(Obj(members), VDict(entries), k);
  }

  // ----- The names of the written file ------------------------------------------------------------

  /** The nested blocks hold no searched key, but the adaptive ones in the adaptive block. */
  predicate DefaultKeys(x: Parts, models: seq<string>) {
    && (forall y :: y in x.layers.Keys + x.sources.Keys + x.sleeves.Keys + x.whaleFeeds.Keys ==> IsOther(y))
    && (forall y :: y in x.budget.ints.Keys ==> IsOther(y))
    && (forall y :: y in x.discovery.flags.Keys + x.discovery.ints.Keys + x.discovery.reals.Keys ==> IsOther(y))
    && (forall y :: y in x.adaptive.flags.Keys + x.adaptive.ints.Keys + x.adaptive.reals.Keys ==>
          IsOther(y) || IsAdaptiveKey(y))
    && (forall m :: m in x.models ==> m in models)
  }

  predicate HasIntKey(bounds: seq<IntBound>, y: string) { exists i :: 0 <= i < |bounds| && y == bounds[i].key }

  predicate HasRealKey(bounds: seq<RealBound>, y: string) { exists i :: 0 <= i < |bounds| && y == bounds[i].key }

  predicate LayerKey(y: string) { y in LAYERS || y in SLEEVES || y in WHALE_FEEDS || HasIntKey(BUDGET_BOUNDS, y) }

  predicate FunnelKey(y: string) {
    y in DISCOVERY_FLAGS || HasIntKey(DISCOVERY_BOUNDS, y) || HasRealKey(DISCOVERY_REALS, y)
  }

  predicate PollKey(y: string) {
    || y in ADAPTIVE_FLAGS || HasIntKey(ADAPTIVE_BOUNDS, y) || HasRealKey(ADAPTIVE_REALS, y)
    || y == "adaptive_est_cost_per_call_usd"
  }

  /** The keys `_defaults` gives the nested blocks. */
  predicate ListedKeys(x: Parts, models: seq<string>) {
    && (forall y :: y in x.layers.Keys + x.sources.Keys + x.sleeves.Keys + x.whaleFeeds.Keys ==> LayerKey(y))
    && (forall y :: y in x.budget.ints.Keys ==> LayerKey(y))
    && (forall y :: y in x.discovery.flags.Keys + x.discovery.ints.Keys + x.discovery.reals.Keys ==> FunnelKey(y))
    && (forall y :: y in x.adaptive.flags.Keys + x.adaptive.ints.Keys + x.adaptive.reals.Keys ==> PollKey(y))
    && (forall m :: m in x.models ==> m in models)
  }

  lemma LayerKeysAreOther(y: string)
    requires LayerKey(y)
    ensures IsOther(y)
  {
    hide IsOther;
    LayerNamesAreOther();
    BudgetNamesAreOther();
  }

  lemma FunnelKeysAreOther(y: string)
    requires FunnelKey(y)
    ensures IsOther(y)
  {
    hide IsOther;
    FunnelFlagNamesAreOther();
    FunnelNamesAreOther();
    CadenceNamesAreOther();
  }

  lemma PollKeysAreKnown(y: string)
    requires PollKey(y)
    ensures IsOther(y) || IsAdaptiveKey(y)
  {
    hide IsOther;
    CadenceNamesAreOther();
    PollNamesAreOther();
    ThresholdNamesAreOther();
    SpendNamesAreOther();
  }

  /** None of the keys of `_defaults` is searched for outside its place. */
  lemma ListedKeysKeepApart(x: Parts, models: seq<string>)
    requires ListedKeys(x, models)
    ensures DefaultKeys(x, models)
  {
    hide IsOther, IsAdaptiveKey, LayerKey, FunnelKey, PollKey;
    forall y
      ensures LayerKey(y) || FunnelKey(y) ==> IsOther(y)
      ensures PollKey(y) ==> IsOther(y) || IsAdaptiveKey(y)
    {
      if LayerKey(y) { LayerKeysAreOther(y); }
      if FunnelKey(y) { FunnelKeysAreOther(y); }
      if PollKey(y) { PollKeysAreKnown(y); }
    }
  }

  /** The keys the engine searches for. */
  ghost predicate Searched(k: string, whitelist: set<string>) {
    IsEngineKey(k) || exists s :: s in whitelist && k == PinKey(s)
  }

  predicate PlainSymbols(whitelist: set<string>) {
    forall s :: s in whitelist ==> PlainChars(s)
  }

  lemma PinPrefixIsPlain()
    ensures PlainChars("regime_pin:") && !Delimiter('r')
  {}

  lemma PinKeyIsPlain(s: string)
    requires PlainChars(s)
    ensures PlainKey(PinKey(s))
  {
    hide PlainChar, Delimiter;
    PinPrefixIsPlain();
    var prefix := "regime_pin:";
    assert forall i :: 0 <= i < |PinKey(s)| ==> PinKey(s)[i] == if i < |prefix| then prefix[i] else s[i - |prefix|];
  }

  lemma SearchedIsPlain(k: string, whitelist: set<string>)
    requires Searched(k, whitelist) && PlainSymbols(whitelist)
    ensures PlainKey(k)
  {
    hide IsTopKey, IsAdaptiveKey, PlainKey, PlainChars, PinKey;
    EngineKeysArePlain(k);
    if !IsEngineKey(k) {
      var s :| s in whitelist && k == PinKey(s);
      PinKeyIsPlain(s);
    }
  }

  /** A name of the file clashes with a searched key only when it is that key. */
  lemma NameIsQuiet(y: string, k: string)
    requires (IsOther(y) || IsEngineKey(y)) && y != k
    ensures !Clashes(y, k)
  {
    hide IsTopKey, IsAdaptiveKey;
    EngineKeysArePlain(y);
  }

  lemma OtherIsQuiet(y: string, k: string, whitelist: set<string>)
    requires IsOther(y) && Searched(k, whitelist)
    ensures !Clashes(y, k)
  {
    hide IsTopKey, IsAdaptiveKey, Clashes;
    if !IsEngineKey(k) {
      assert k[10] == ':';
    }
    NameIsQuiet(y, k);
  }

  lemma OthersAreQuiet(k: string, whitelist: set<string>)
    requires Searched(k, whitelist)
    ensures forall y :: IsOther(y) ==> !Clashes(y, k)
  {
    hide IsOther, Clashes;
    forall y | IsOther(y)
      ensures !Clashes(y, k)
    {
      OtherIsQuiet(y, k, whitelist);
    }
  }

  lemma PinIsQuiet(s: string, k: string)
    requires PlainChars(s) && PinKey(s) != k
    ensures !Clashes(PinKey(s), k)
  {
    assert forall i :: 0 <= i < |PinKey(s)| ==> PinKey(s)[i] != '"';
  }

  // ----- The written file is free of every searched key, but for its one place ------------------------

  /** No text of the operator's own clashes with a searched key. */
  predicate QuietTexts(st: State, ts: string, k: string) {
    && !Clashes(ts, k)
    && (forall m :: m in st.models ==> !Clashes(m, k)) && (forall s :: s in st.pins ==> !Clashes(s, k))
    && Free(st.promote, k) && Free(st.rollback, k)
  }

  lemma FlagsAreFree(m: map<string, bool>, k: string)
    requires forall y :: y in m ==> !Clashes(y, k)
    ensures Free(VDict(FlagDict(m)), k)
  {}

  lemma IntsAreFree(m: map<string, int>, k: string)
    requires forall y :: y in m ==> !Clashes(y, k)
    ensures Free(VDict(IntDict(m)), k)
  {}

  lemma RealsAreFree(m: map<string, real>, k: string)
    requires forall y :: y in m ==> !Clashes(y, k)
    ensures Free(VDict(RealDict(m)), k)
  {}

  lemma TextsAreFree(m: map<string, string>, k: string)
    requires forall y :: y in m ==> !Clashes(y, k) && !Clashes(m[y], k)
    ensures Free(VDict(TextDict(m)), k)
  {}

  lemma SumIsFree(a: Dict, b: Dict, k: string)
    requires Free(VDict(a), k) && Free(VDict(b), k)
    ensures Free(VDict(a + b), k)
  {
    hide Clashes;
  }

  lemma BlockIsFree(b: Block, k: string)
    requires forall y :: y in b.flags.Keys + b.ints.Keys + b.reals.Keys ==> !Clashes(y, k)
    ensures Free(VDict(BlockDict(b)), k)
  {
    hide Clashes, Free, FlagDict, IntDict, RealDict;
    FlagsAreFree(b.flags, k);
    IntsAreFree(b.ints, k);
    RealsAreFree(b.reals, k);
    SumIsFree(FlagDict(b.flags), IntDict(b.ints), k);
    SumIsFree(FlagDict(b.flags) + IntDict(b.ints), RealDict(b.reals), k);
  }

  /** The nested blocks, the adaptive one aside. */
  lemma BlocksAreFree(st: State, models: seq<string>, k: string, whitelist: set<string>)
    requires DefaultKeys(PartsOf(st), models) && Searched(k, whitelist)
    requires (forall y :: y in st.sources ==> IsOther(st.sources[y])) && (forall s :: s in st.pins ==> IsOther(st.pins[s]))
    requires (forall m :: m in st.models ==> !Clashes(m, k)) && (forall s :: s in st.pins ==> !Clashes(s, k))
    ensures Free(VDict(FlagDict(st.layers)), k) && Free(VDict(TextDict(st.sources)), k)
    ensures Free(VDict(FlagDict(st.models)), k) && Free(VDict(IntDict(st.budget.ints)), k)
    ensures Free(VDict(TextDict(st.pins)), k) && Free(VDict(BlockDict(st.discovery)), k)
    ensures Free(VDict(FlagDict(st.sleeves)), k) && Free(VDict(FlagDict(st.whaleFeeds)), k)
  {
    hide IsOther, IsTopKey, IsAdaptiveKey, Clashes, Free, FlagDict, TextDict, IntDict, BlockDict;
    OthersAreQuiet(k, whitelist);
    FlagsAreFree(st.layers, k);
    TextsAreFree(st.sources, k);
    FlagsAreFree(st.models, k);
    IntsAreFree(st.budget.ints, k);
    TextsAreFree(st.pins, k);
    BlockIsFree(st.discovery, k);
    FlagsAreFree(st.sleeves, k);
    FlagsAreFree(st.whaleFeeds, k);
  }

  // The names at the top of the file.

  lemma BlocksHaveOtherNames(st: State)
    ensures forall y :: y in Blocks(st) ==> IsOther(y)
  {
    hide Blocks, IsOther;
    BlockNames(st);
    BlockNamesAreOther();
  }

  lemma FlagNamesAreKnown(st: State, models: seq<string>)
    requires |models| == 3
    ensures forall y :: y in TopFlags(st, models) ==> IsOther(y) || IsFlagKey(y)
  {
    hide TopFlags, IsOther;
    FlagNames(st, models);
    TopNamesAreOther();
  }

  lemma TextNamesAreKnown(st: State, ts: string)
    ensures forall y :: y in TopTexts(st, ts) ==> IsOther(y) || IsSourceKey(y)
  {
    hide TopTexts, IsOther;
    TextNames(st, ts);
    TopNamesAreOther();
  }

  lemma IntNamesAreKnown(st: State)
    ensures forall y :: y in TopInts(st) ==> IsBudgetKey(y)
  {
    assert TopInts(st).Keys <= BUDGET_KEYS;
  }

  lemma TopNamesAreKnown(st: State, models: seq<string>, ts: string)
    requires |models| == 3
    ensures forall y :: y in TopFlags(st, models) || y in TopTexts(st, ts) || y in TopInts(st) ==>
              IsOther(y) || IsTopKey(y)
  {
    hide IsOther, IsFlagKey, IsSourceKey, IsBudgetKey, IsTopKey, TopFlags, TopTexts, TopInts;
    FlagNamesAreKnown(st, models);
    TextNamesAreKnown(st, ts);
    IntNamesAreKnown(st);
    forall y { Apart(y); }
  }

  // The choices at the top and in the blocks are fixed texts.

  lemma ChoicesAreOther(s: string)
    ensures IsFeedMode(s) || IsClockMode(s) || IsProfile(s) || IsRegime(s) || IsSource(s) ==> IsOther(s)
  {
    hide IsOther;
    ChoiceTextsAreOther();
  }

  lemma TopTextsAre(st: State, ts: string)
    ensures forall y :: y in TopTexts(st, ts) ==>
              TopTexts(st, ts)[y] in {st.feedMode, st.clockMode, st.profile, ts, "mock", "real"}
  {}

  lemma TopTextsAreQuiet(st: State, ts: string, whitelist: set<string>, k: string)
    requires TopOk(st, whitelist) && Searched(k, whitelist) && !Clashes(ts, k)
    ensures forall y :: y in TopTexts(st, ts) ==> !Clashes(TopTexts(st, ts)[y], k)
  {
    hide IsOther, Clashes, Searched, IsFeedMode, IsClockMode, IsProfile, IsRegime, TopTexts;
    TopTextsAre(st, ts);
    OthersAreQuiet(k, whitelist);
    ChoicesAreOther(st.feedMode);
    ChoicesAreOther(st.clockMode);
    ChoicesAreOther(st.profile);
    ChoicesAreOther("mock");
    ChoicesAreOther("real");
  }

  lemma PinsAtTop(st: State)
    ensures forall s :: s in st.pins ==> PinKey(s) in TopPins(st) && TopPins(st)[PinKey(s)] == st.pins[s]
    ensures forall y :: y in TopPins(st) ==> exists s :: s in st.pins && y == PinKey(s)
  {
    assert forall s :: PinKey(s)[11..] == s;
  }

  lemma TopPinsAreQuiet(st: State, whitelist: set<string>, home: string, k: string)
    requires TopOk(st, whitelist) && Searched(k, whitelist) && PlainSymbols(whitelist)
    requires IsAdaptiveKey(k) || home == k
    ensures FreeElsewhere(TextDict(TopPins(st)), home, k)
  {
    hide IsOther, Clashes, PinKey, TopPins, IsRegime, IsAdaptiveKey;
    PinsAtTop(st);
    OthersAreQuiet(k, whitelist);
    var pins := TopPins(st);
    forall y | y in pins && y != home
      ensures !Clashes(y, k) && !Clashes(pins[y], k)
    {
      var s :| s in st.pins && y == PinKey(s);
      ChoicesAreOther(st.pins[s]);
      PinIsNoName(s);
      PinIsQuiet(s, k);
    }
  }

  lemma PinIsNoName(s: string)
    ensures !IsEngineKey(PinKey(s)) && !IsOther(PinKey(s))
  {
    hide IsTopKey, IsAdaptiveKey;
    KeysAreMarked(PinKey(s));
    assert PinKey(s)[0] == 'r' && PinKey(s)[1] == 'e' && PinKey(s)[10] == ':';
  }

  // Sums of dictionaries.

  lemma FlagsFreeElsewhere(m: map<string, bool>, home: string, k: string)
    requires forall y :: y in m && y != home ==> !Clashes(y, k)
    ensures FreeElsewhere(FlagDict(m), home, k)
  {}

  lemma IntsFreeElsewhere(m: map<string, int>, home: string, k: string)
    requires forall y :: y in m && y != home ==> !Clashes(y, k)
    ensures FreeElsewhere(IntDict(m), home, k)
  {}

  lemma TextsFreeElsewhere(m: map<string, string>, home: string, k: string)
    requires forall y :: y in m && y != home ==> !Clashes(y, k) && !Clashes(m[y], k)
    ensures FreeElsewhere(TextDict(m), home, k)
  {}

  lemma RealsFreeElsewhere(m: map<string, real>, home: string, k: string)
    requires forall y :: y in m && y != home ==> !Clashes(y, k)
    ensures FreeElsewhere(RealDict(m), home, k)
  {}

  lemma SumFreeElsewhere(a: Dict, b: Dict, home: string, k: string)
    requires FreeElsewhere(a, home, k) && FreeElsewhere(b, home, k)
    ensures FreeElsewhere(a + b, home, k)
  {
    hide Clashes, Free;
  }

  /** Where the value of a searched key stands: at the top, or in the adaptive block. */
  function Home(k: string): string { if IsAdaptiveKey(k) then "adaptive_realtime" else k }

  predicate FreeAt(d: Dict, y: string, k: string) { y in d && Free(d[y], k) }

  lemma EachBlockIsFree(st: State, models: seq<string>, ts: string, k: string, whitelist: set<string>)
    requires DefaultKeys(PartsOf(st), models) && TopOk(st, whitelist) && Searched(k, whitelist)
    requires (forall y :: y in st.sources ==> IsSource(st.sources[y])) && QuietTexts(st, ts, k)
    ensures var b := Blocks(st);
            && FreeAt(b, "layers", k) && FreeAt(b, "layer_sources", k) && FreeAt(b, "models", k)
            && FreeAt(b, "budget", k) && FreeAt(b, "regime_pins", k) && FreeAt(b, "discovery", k)
            && FreeAt(b, "sleeves", k) && FreeAt(b, "whale_feeds", k)
            && FreeAt(b, "pending_promote", k) && FreeAt(b, "pending_rollback", k)
            && (!IsAdaptiveKey(k) ==> FreeAt(b, "adaptive_realtime", k))
  {
    hide IsOther, IsTopKey, IsAdaptiveKey, Clashes, Free, FlagDict, TextDict, IntDict, BlockDict, Blocks, Searched,
         IsRegime, IsSource;
    BlockValues(st);
    MoreBlockValues(st);
    forall y | y in st.sources ensures IsOther(st.sources[y]) { ChoicesAreOther(st.sources[y]); }
    forall s | s in st.pins ensures IsOther(st.pins[s]) { ChoicesAreOther(st.pins[s]); }
    BlocksAreFree(st, models, k, whitelist);
    if !IsAdaptiveKey(k) {
      AdaptiveBlockIsFree(st, models, k, whitelist);
    }
  }

  lemma BlocksFreeElsewhere(st: State, models: seq<string>, ts: string, k: string, whitelist: set<string>)
    requires DefaultKeys(PartsOf(st), models) && TopOk(st, whitelist) && Searched(k, whitelist)
    requires (forall y :: y in st.sources ==> IsSource(st.sources[y])) && QuietTexts(st, ts, k)
    ensures FreeElsewhere(Blocks(st), Home(k), k)
  {
    hide IsOther, IsAdaptiveKey, Clashes, Free, Blocks, Searched, DefaultKeys, TopOk, QuietTexts, FreeAt;
    BlocksHaveOtherNames(st);
    OthersAreQuiet(k, whitelist);
    EachBlockIsFree(st, models, ts, k, whitelist);
    BlocksFreeAt(st, k);
    forall y | y in Blocks(st) && y != Home(k)
      ensures Free(Blocks(st)[y], k)
    {
      assert FreeAt(Blocks(st), y, k);
      FreeAtMeans(Blocks(st), y, k);
    }
  }

  lemma FreeAtMeans(d: Dict, y: string, k: string)
    requires FreeAt(d, y, k)
    ensures Free(d[y], k)
  {}

  lemma BlocksFreeAt(st: State, k: string)
    requires var b := Blocks(st);
             && FreeAt(b, "layers", k) && FreeAt(b, "layer_sources", k) && FreeAt(b, "models", k)
             && FreeAt(b, "budget", k) && FreeAt(b, "regime_pins", k) && FreeAt(b, "discovery", k)
             && FreeAt(b, "sleeves", k) && FreeAt(b, "whale_feeds", k)
             && FreeAt(b, "pending_promote", k) && FreeAt(b, "pending_rollback", k)
    ensures forall y :: y in Blocks(st) && y != "adaptive_realtime" ==> FreeAt(Blocks(st), y, k)
  {
    hide Blocks, FreeAt;
    BlockNames(st);
  }

  lemma AdaptiveBlockIsFree(st: State, models: seq<string>, k: string, whitelist: set<string>)
    requires DefaultKeys(PartsOf(st), models) && Searched(k, whitelist) && !IsAdaptiveKey(k)
    ensures Free(VDict(BlockDict(st.adaptive)), k)
  {
    hide IsOther, IsTopKey, IsAdaptiveKey, Clashes, Free, BlockDict, Searched;
    OthersAreQuiet(k, whitelist);
    var b := st.adaptive;
    forall y | y in b.flags.Keys + b.ints.Keys + b.reals.Keys
      ensures !Clashes(y, k)
    {
      if IsAdaptiveKey(y) { NameIsQuiet(y, k); }
    }
    BlockIsFree(b, k);
  }

  /** Apart from its home, the written object is free of each searched key. */
  lemma OutIsFree(st: State, models: seq<string>, ts: string, k: string, whitelist: set<string>)
    requires |models| == 3 && DefaultKeys(PartsOf(st), models) && TopOk(st, whitelist)
    requires forall y :: y in st.sources ==> IsSource(st.sources[y])
    requires PlainSymbols(whitelist) && Searched(k, whitelist) && QuietTexts(st, ts, k)
    ensures FreeElsewhere(Out(st, models, ts), Home(k), k)
  {
    hide IsOther, IsTopKey, IsAdaptiveKey, Clashes, Free, FlagDict, TextDict, IntDict, Blocks, TopPins, TopTexts,
         TopFlags, TopInts,
         Searched, IsSource, TopOk, DefaultKeys, FreeElsewhere, PlainSymbols;
    var home := Home(k);
    OthersAreQuiet(k, whitelist);
    forall y | IsTopKey(y) && y != home
      ensures !Clashes(y, k)
    {
      Apart(y);
      NameIsQuiet(y, k);
    }
    BlocksFreeElsewhere(st, models, ts, k, whitelist);
    TopNamesAreKnown(st, models, ts);
    FlagsFreeElsewhere(TopFlags(st, models), home, k);
    TopTextsAreQuiet(st, ts, whitelist, k);
    TextsFreeElsewhere(TopTexts(st, ts), home, k);
    IntsFreeElsewhere(TopInts(st), home, k);
    TopPinsAreQuiet(st, whitelist, home, k);
    var flags := FlagDict(TopFlags(st, models)) + Blocks(st);
    SumFreeElsewhere(FlagDict(TopFlags(st, models)), Blocks(st), home, k);
    SumFreeElsewhere(TextDict(TopTexts(st, ts)), flags, home, k);
    SumFreeElsewhere(IntDict(TopInts(st)), TextDict(TopTexts(st, ts)) + flags, home, k);
    SumFreeElsewhere(TextDict(TopPins(st)), IntDict(TopInts(st)) + (TextDict(TopTexts(st, ts)) + flags), home, k);
  }

  // ----- One searched key, one place --------------------------------------------------------------

  /** A state the API writes: in bounds, with the keys of its defaults, no text of the operator's
      own clashing with a searched key. */
  ghost predicate Writable(st: State, models: seq<string>, ts: string, whitelist: set<string>) {
    && |models| == 3 && StateOk(st, models, whitelist) && DefaultKeys(PartsOf(st), models) && PlainSymbols(whitelist)
    && forall k :: Searched(k, whitelist) ==> QuietTexts(st, ts, k)
  }

  lemma WritableIsFree(st: State, models: seq<string>, ts: string, whitelist: set<string>, k: string)
    requires Writable(st, models, ts, whitelist) && Searched(k, whitelist)
    ensures FreeElsewhere(Out(st, models, ts), Home(k), k)
    ensures PlainKey(k)
  {
    hide FreeElsewhere, Searched, QuietTexts, PlainKey, PlainSymbols, DefaultKeys, TopOk, Out, Home, BudgetBounded,
         DiscoveryBounded,
         AdaptiveBounded, HasKeys, Shaped, IsSource;
    OutIsFree(st, models, ts, k, whitelist);
    SearchedIsPlain(k, whitelist);
  }

  /** What the reader gets for a key, once its one hit is known. */
  ghost predicate ReadsAs(doc: Json, k: string, v: Value) {
    match v
    case VBool(b) => forall d :: GetBool(Document(doc), k, d) == b
    case VStr(s) => Verbatim(s) ==> forall d :: GetString(Document(doc), k, d) == s
    case VInt(n) => !BeyondDouble(n as real) ==> forall d :: GetNumber(Document(doc), k, d) == Real(n as real)
    case VFloat(x) => !BeyondDouble(x) ==> forall d :: GetNumber(Document(doc), k, d) == Real(x)
    case _ => true
  }

  lemma ReadsOneHit(doc: Json, k: string, j: Json, v: Value)
    requires PlainKey(k) && NumbersOk(doc) && Hits(doc, k) == [Hit.Field(j)] && Represents(j, v)
    ensures ReadsAs(doc, k, v)
  {
    hide PlainKey, NumbersOk, Hits, GetBool, GetString, GetNumber, Document, Verbatim, BeyondDouble;
    match v
    case VBool(b) => forall d ensures GetBool(Document(doc), k, d) == b { ReadsBool(doc, k, b, d); }
    case VStr(s) =>
      if Verbatim(s) {
        forall d ensures GetString(Document(doc), k, d) == s { ReadsString(doc, k, s, d); }
      }
    case VInt(n) =>
      if !BeyondDouble(n as real) {
        forall d ensures GetNumber(Document(doc), k, d) == Real(n as real) { ReadsNumber(doc, k, j.n, d); }
      }
    case VFloat(x) =>
      if !BeyondDouble(x) {
        forall d ensures GetNumber(Document(doc), k, d) == Real(x) { ReadsNumber(doc, k, j.n, d); }
      }
    case _ =>
  }

  /** A key at the top of the written object reads as its value there. */
  lemma ReadsTop(doc: Json, out: Dict, k: string)
    requires Represents(doc, VDict(out)) && PlainKey(k) && k in out
    requires FreeElsewhere(out, k, k) && Free(out[k], k)
    ensures ReadsAs(doc, k, out[k])
  {
    hide PlainKey, ReadsAs, FreeElsewhere, RepresentsMembers, Free, NumbersOk;
    RepresentedNumbers(doc, VDict(out));
    var j := OneHit(doc.members, out, k);
    ReadsOneHit(doc, k, j, out[k]);
  }

  /** A key in a nested object reads as its value there. */
  lemma ReadsNested(doc: Json, out: Dict, home: string, inner: Dict, k: string)
    requires Represents(doc, VDict(out)) && PlainKey(k) && home in out && out[home] == VDict(inner) && !Clashes(home, k)
    requires FreeElsewhere(out, home, k) && k in inner && FreeElsewhere(inner, k, k) && Free(inner[k], k)
    ensures ReadsAs(doc, k, inner[k])
  {
    hide PlainKey, ReadsAs, FreeElsewhere, RepresentsMembers, Free, NumbersOk, Clashes;
    RepresentedNumbers(doc, VDict(out));
    var j := OneNestedHit(doc.members, out, home, inner, k);
    ReadsOneHit(doc, k, j, inner[k]);
  }

  /** A key the written object does not carry reads as the default. */
  lemma ReadsNothing(doc: Json, out: Dict, k: string)
    requires Represents(doc, VDict(out)) && PlainKey(k) && k !in out && FreeElsewhere(out, k, k)
    ensures forall d :: GetString(Document(doc), k, d) == d
  {
    hide PlainKey, RepresentsMembers, NumbersOk, GetString, GetBool, GetNumber;
    RepresentedNumbers(doc, VDict(out));
    NoHit(doc.members, out, k);
    MissesWithoutHit(doc, k);
  }

  // ----- Where each value stands ----------------------------------------------------------------------

  lemma FlagAtTop(st: State, models: seq<string>, ts: string, k: string)
    requires |models| == 3 && k in TopFlags(st, models) && IsTopKey(k)
    ensures k in Out(st, models, ts) && Out(st, models, ts)[k] == VBool(TopFlags(st, models)[k])
  {
    hide IsOther, IsTopKey, IsAdaptiveKey, Blocks, TopFlags, Out;
    Apart(k);
    BlocksHaveOtherNames(st);
    FlagShadows(st, models, ts, k);
  }

  lemma TextAtTop(st: State, models: seq<string>, ts: string, k: string)
    requires |models| == 3 && k in TopTexts(st, ts) && IsTopKey(k)
    ensures k in Out(st, models, ts) && Out(st, models, ts)[k] == VStr(TopTexts(st, ts)[k])
  {
    hide IsOther, IsFlagKey, IsSourceKey, IsBudgetKey, IsTopKey, IsAdaptiveKey, Blocks, TopFlags, TopTexts, TopInts,
         Out;
    Apart(k);
    BlocksHaveOtherNames(st);
    FlagNamesAreKnown(st, models);
    TextNamesAreKnown(st, ts);
    TextShadows(st, models, ts, k);
  }

  lemma IntAtTop(st: State, models: seq<string>, ts: string, k: string)
    requires |models| == 3 && k in TopInts(st)
    ensures k in Out(st, models, ts) && Out(st, models, ts)[k] == VInt(TopInts(st)[k])
  {
    hide IsOther, IsFlagKey, IsSourceKey, IsBudgetKey, IsTopKey, IsAdaptiveKey, Blocks, TopFlags, TopTexts, TopInts,
         TopPins;
    IntNamesAreKnown(st);
    Apart(k);
    BlocksHaveOtherNames(st);
    FlagNamesAreKnown(st, models);
    TextNamesAreKnown(st, ts);
  }

  /** A pin key stands at the top exactly when its symbol is pinned. */
  lemma PinAtTop(st: State, models: seq<string>, ts: string, s: string)
    requires |models| == 3
    ensures PinKey(s) in Out(st, models, ts) <==> s in st.pins
    ensures s in st.pins ==> Out(st, models, ts)[PinKey(s)] == VStr(st.pins[s])
  {
    hide IsOther, IsTopKey, IsAdaptiveKey, Blocks, TopFlags, TopTexts, TopInts, TopPins;
    var k := PinKey(s);
    PinIsNoName(s);
    BlocksHaveOtherNames(st);
    TopNamesAreKnown(st, models, ts);
    PinsAtTop(st);
    if k in TopPins(st) {
      var t :| t in st.pins && k == PinKey(t);
      assert t == k[11..] == s;
    }
  }
}
