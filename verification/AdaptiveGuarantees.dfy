/** What holds over every sequence of polls: each event is read at most once and charged for once,
    no day goes over its budget, held names come first, and the action queue stays defensive. */
module AdaptiveGuarantees {
  import opened Text
  import opened Sorting
  import opened Actions
  import opened AdaptiveStore
  import opened AdaptivePoll

  // ----- What reading a list of items does --------------------------------------------------------

  /** The rows of the items are marked read, and no other row changes. */
  ghost predicate Marked(before: seq<Event>, events: seq<Event>, items: seq<Item>) {
    && |events| == |before|
    && forall i :: 0 <= i < |events| ==>
         events[i] == before[i].(escalated := before[i].escalated || HasId(items, i + 1))
  }

  /** One reading per item, at this time, follows the earlier ones. */
  ghost predicate Appended(before: seq<Reading>, readings: seq<Reading>, items: seq<Item>, now: int) {
    && |readings| == |before| + |items| && readings[..|before|] == before
    && forall k :: 0 <= k < |items| ==> readings[|before| + k].eventId == items[k].id && readings[|before| + k].ts == now
  }

  /** Queued actions follow the earlier ones: each constructed, at or above the floor, from an item,
      and none at all with the defensive flag off. */
  ghost predicate Acted(before: seq<Action>, actions: seq<Action>, items: seq<Item>, s: Settings, now: int) {
    && |before| <= |actions| && actions[..|before|] == before && (!s.defensiveOn ==> actions == before)
    && forall k :: |before| <= k < |actions| ==>
         && Constructs(actions[k]) && s.minSeverity <= actions[k].severity
         && HasId(items, actions[k].eventId) && actions[k].ts == now
  }

  lemma HasIdGrows(items: seq<Item>, x: Item)
    ensures forall id :: HasId(items + [x], id) <==> HasId(items, id) || id == x.id
  {
    var all := items + [x];
    assert all[|items|] == x && forall k :: 0 <= k < |items| ==> all[k] == items[k];
    forall id
      ensures HasId(all, id) <==> HasId(items, id) || id == x.id
    {
      if HasId(all, id) {
        var k :| 0 <= k < |all| && all[k].id == id;
        assert k < |items| ==> items[k].id == id;
      }
      if HasId(items, id) {
        var k :| 0 <= k < |items| && items[k].id == id;
        assert all[k].id == id;
      }
    }
  }

  lemma ReadOneDoes(p0: Progress, p: Progress, items: seq<Item>, x: Item, s: Settings, w: World, now: int)
    requires 1 <= x.id <= |p.events|
    requires Marked(p0.events, p.events, items) && Appended(p0.readings, p.readings, items, now)
    ensures var r := ReadOne(p, x, s, w, now);
            Marked(p0.events, r.events, items + [x]) && Appended(p0.readings, r.readings, items + [x], now)
  {
    hide Caused, HasId, Appended;
    HasIdGrows(items, x);
    var r := ReadOne(p, x, s, w, now);
    AppendedStep(p0.readings, p.readings, items, x, r.readings[|p.readings|].effect, now);
  }

  lemma AppendedStep(before: seq<Reading>, readings: seq<Reading>, items: seq<Item>, x: Item, effect: Effect, now: int)
    requires Appended(before, readings, items, now)
    ensures Appended(before, readings + [Reading(x.id, now, effect)], items + [x], now)
  {
    var all := readings + [Reading(x.id, now, effect)];
    assert all[..|before|] == readings[..|before|];
    forall k | 0 <= k < |items| + 1
      ensures all[|before| + k].eventId == (items + [x])[k].id && all[|before| + k].ts == now
    {
      if k < |items| { assert all[|before| + k] == readings[|before| + k]; }
    }
  }

  lemma ReadOneActs(p0: Progress, p: Progress, items: seq<Item>, x: Item, s: Settings, w: World, now: int)
    requires 1 <= x.id <= |p.events| && Acted(p0.actions, p.actions, items, s, now)
    ensures Acted(p0.actions, ReadOne(p, x, s, w, now).actions, items + [x], s, now)
  {
    hide HasId, Constructs, RouteOf;
    HasIdGrows(items, x);
    var i := w.interpret(x);
    QueuedIsDefensive(x.symbol, i.action, i.severity, s.minSeverity, s.defensiveOn, s.shapingOn, x.id, now);
  }

  lemma {:induction false} ReadAllDoes(p: Progress, items: seq<Item>, s: Settings, w: World, now: int)
    requires IdsWithin(items, |p.events|)
    ensures var r := ReadAll(p, items, s, w, now);
            && Marked(p.events, r.events, items) && Appended(p.readings, r.readings, items, now)
            && Acted(p.actions, r.actions, items, s, now)
  {
    hide Marked, Appended, Acted, ReadOne;
    if items == [] {
      NothingRead(p, s, now);
    } else {
      var n := |items| - 1;
      var q := ReadAll(p, items[..n], s, w, now);
      ReadAllDoes(p, items[..n], s, w, now);
      ReadOneDoes(p, q, items[..n], items[n], s, w, now);
      ReadOneActs(p, q, items[..n], items[n], s, w, now);
      assert items[..n] + [items[n]] == items;
    }
  }

  lemma NothingRead(p: Progress, s: Settings, now: int)
    ensures Marked(p.events, p.events, []) && Appended(p.readings, p.readings, [], now)
    ensures Acted(p.actions, p.actions, [], s, now)
  {}

  // ----- Each event is read at most once ------------------------------------------------------------

  predicate IsRead(readings: seq<Reading>, id: nat) { exists k :: 0 <= k < |readings| && readings[k].eventId == id }

  /** Every reading is of a stored material event, each event has at most one, and an event is marked
      escalated exactly when it has one. */
  ghost predicate Linked(events: seq<Event>, readings: seq<Reading>) {
    && (forall k :: 0 <= k < |readings| ==> 1 <= readings[k].eventId <= |events|)
    && (forall j, k :: 0 <= j < k < |readings| ==> readings[j].eventId != readings[k].eventId)
    && (forall i :: 0 <= i < |events| ==> (events[i].escalated <==> IsRead(readings, i + 1)))
    && (forall i :: 0 <= i < |events| && events[i].escalated ==> events[i].material)
  }

  lemma GrowingKeepsLinked(before: seq<Event>, events: seq<Event>, readings: seq<Reading>, now: int)
    requires Linked(before, readings) && Grown(before, events, now)
    ensures Linked(events, readings)
  {
    forall i | 0 <= i < |events|
      ensures events[i].escalated <==> IsRead(readings, i + 1)
    {
      if i < |before| { assert events[i] == events[..|before|][i] == before[i]; }
    }
    assert forall i :: 0 <= i < |before| ==> events[i] == before[i];
  }

  lemma IsReadAfter(before: seq<Reading>, readings: seq<Reading>, items: seq<Item>, now: int)
    requires Appended(before, readings, items, now)
    ensures forall id :: IsRead(readings, id) <==> IsRead(before, id) || HasId(items, id)
  {
    assert forall k :: 0 <= k < |before| ==> readings[k] == before[k];
    forall id
      ensures IsRead(readings, id) <==> IsRead(before, id) || HasId(items, id)
    {
      if IsRead(readings, id) {
        var k :| 0 <= k < |readings| && readings[k].eventId == id;
        assert k >= |before| ==> readings[k].eventId == items[k - |before|].id;
      }
      if IsRead(before, id) {
        var k :| 0 <= k < |before| && before[k].eventId == id;
        assert readings[k].eventId == id;
      }
      if HasId(items, id) {
        var k :| 0 <= k < |items| && items[k].id == id;
        assert readings[|before| + k].eventId == id;
      }
    }
  }

  /** Reading unread items, each once, keeps the link. */
  lemma ReadingKeepsLinked(before: seq<Event>, events: seq<Event>, readings0: seq<Reading>, readings: seq<Reading>,
        items: seq<Item>, now: int)
    requires Linked(before, readings0) && Marked(before, events, items) && Appended(readings0, readings, items, now)
    requires DistinctIds(items) && forall x :: x in items ==> Unread(x, before)
    ensures Linked(events, readings)
  {
    hide HasId, IsRead;
    IsReadAfter(readings0, readings, items, now);
    forall k | 0 <= k < |items|
      ensures 1 <= items[k].id <= |events| && !IsRead(readings0, items[k].id) && before[items[k].id - 1].material
    {
      assert items[k] in items;
      UnreadMeans(items[k], before);
      assert !before[items[k].id - 1].escalated;
    }
    ReadingsInRange(readings0, readings, items, |events|, now);
    NewReadingsDiffer(readings0, readings, items, now);
    ItemsAreMaterial(items, before);
  }

  lemma ItemsAreMaterial(items: seq<Item>, before: seq<Event>)
    requires forall x :: x in items ==> Unread(x, before)
    ensures forall i :: 0 <= i < |before| && HasId(items, i + 1) ==> before[i].material
  {
    forall i | 0 <= i < |before| && HasId(items, i + 1)
      ensures before[i].material
    {
      var k :| 0 <= k < |items| && items[k].id == i + 1;
      assert items[k] in items;
    }
  }

  lemma ReadingsInRange(readings0: seq<Reading>, readings: seq<Reading>, items: seq<Item>, n: nat, now: int)
    requires Appended(readings0, readings, items, now)
    requires forall k :: 0 <= k < |readings0| ==> 1 <= readings0[k].eventId <= n
    requires forall k :: 0 <= k < |items| ==> 1 <= items[k].id <= n
    ensures forall k :: 0 <= k < |readings| ==> 1 <= readings[k].eventId <= n
  {
    var m := |readings0|;
    forall k | 0 <= k < |readings|
      ensures 1 <= readings[k].eventId <= n
    {
      if k < m {
        assert readings[k] == readings0[k];
      } else {
        assert readings[m + (k - m)].eventId == items[k - m].id;
      }
    }
  }

  lemma NewReadingsDiffer(readings0: seq<Reading>, readings: seq<Reading>, items: seq<Item>, now: int)
    requires Appended(readings0, readings, items, now) && DistinctIds(items)
    requires forall j, k :: 0 <= j < k < |readings0| ==> readings0[j].eventId != readings0[k].eventId
    requires forall k :: 0 <= k < |items| ==> !IsRead(readings0, items[k].id)
    ensures forall j, k :: 0 <= j < k < |readings| ==> readings[j].eventId != readings[k].eventId
  {
    var m := |readings0|;
    assert forall k :: 0 <= k < m ==> readings[k] == readings0[k];
    forall j, k | 0 <= j < k < |readings|
      ensures readings[j].eventId != readings[k].eventId
    {
      if k >= m {
        assert readings[k].eventId == items[k - m].id;
        if j < m {
          assert readings0[j].eventId == readings[j].eventId;
        } else {
          assert readings[j].eventId == items[j - m].id;
        }
      }
    }
  }

  // ----- Articles sharing a key are stored once -----------------------------------------------------

  ghost predicate DistinctKeys(events: seq<Event>) {
    forall i, j :: 0 <= i < j < |events| && events[i].dedupe.Some? ==> events[i].dedupe != events[j].dedupe
  }

  lemma RecordOneKeepsKeys(r: Recorded, a: Article, now: int)
    requires DistinctKeys(r.events)
    ensures DistinctKeys(RecordOne(r, a, now).events)
  {}

  lemma {:induction false} RecordingKeepsKeys(events: seq<Event>, articles: seq<Article>, now: int)
    requires DistinctKeys(events)
    ensures DistinctKeys(RecordAll(events, articles, now).events)
  {
    hide DistinctKeys, RecordOne;
    if articles != [] {
      var n := |articles| - 1;
      RecordingKeepsKeys(events, articles[..n], now);
      RecordOneKeepsKeys(RecordAll(events, articles[..n], now), articles[n], now);
    }
  }

  lemma MarkingKeepsKeys(before: seq<Event>, events: seq<Event>, items: seq<Item>)
    requires DistinctKeys(before) && Marked(before, events, items)
    ensures DistinctKeys(events)
  {
    hide HasId;
  }

  // ----- One poll ---------------------------------------------------------------------------------------

  /** What holds of the tables in every state. */
  ghost predicate Good(st: Store) {
    && Linked(st.events, st.readings) && DistinctKeys(st.events)
    && forall k :: 0 <= k < |st.actions| ==> Constructs(st.actions[k]) && 1 <= st.actions[k].eventId <= |st.events|
  }

  /** The items a poll reads. */
  function ItemsRead(st: Store, s: Settings, articles: seq<Article>, now: int): seq<Item> {
    var queue := QueueOf(RecordAll(st.events, articles, now), now);
    queue[..Reads(queue, s, ReadingsOn(st.readings, DayOf(now)))]
  }

  /** The tables after the reading loop, in terms of the items read. */
  lemma ReadFeedDoes(st: Store, s: Settings, w: World, articles: seq<Article>, now: int)
    ensures var r := RecordAll(st.events, articles, now);
            var items, p := ItemsRead(st, s, articles, now), ReadFeed(st, s, w, articles, now);
            && Grown(st.events, r.events, now) && IdsWithin(items, |r.events|)
            && Marked(r.events, p.events, items) && Appended(st.readings, p.readings, items, now)
            && Acted(st.actions, p.actions, items, s, now)
            && DistinctIds(items) && (forall x :: x in items ==> Unread(x, r.events))
  {
    hide Marked, Appended, Acted, Grown, Listed, Unread, QueueOf;
    var r := RecordAll(st.events, articles, now);
    var queue := QueueOf(r, now);
    RecordingGrows(st.events, articles, now);
    QueueIs(st.events, r, now);
    var items := ItemsRead(st, s, articles, now);
    assert forall x :: x in items ==> x in queue;
    ReadAllDoes(Progress(r.events, st.readings, st.actions, 0, 0), items, s, w, now);
  }

  lemma ActedInRange(before: seq<Action>, actions: seq<Action>, items: seq<Item>, s: Settings, now: int, m: nat, n: nat)
    requires Acted(before, actions, items, s, now) && IdsWithin(items, n) && m <= n
    requires forall k :: 0 <= k < |before| ==> Constructs(before[k]) && 1 <= before[k].eventId <= m
    ensures forall k :: 0 <= k < |actions| ==> Constructs(actions[k]) && 1 <= actions[k].eventId <= n
  {
    hide Constructs;
    forall k | 0 <= k < |actions|
      ensures Constructs(actions[k]) && 1 <= actions[k].eventId <= n
    {
      if k < |before| { assert actions[k] == actions[..|before|][k] == before[k]; }
    }
  }

  lemma ReadFeedKeepsGood(st: Store, s: Settings, w: World, articles: seq<Article>, now: int, polls: seq<Poll>)
    requires Good(st)
    ensures var p := ReadFeed(st, s, w, articles, now); Good(Store(p.events, p.readings, p.actions, polls))
  {
    hide Marked, Appended, Acted, Grown, Unread, Linked, DistinctKeys, ReadFeed, ItemsRead;
    var r := RecordAll(st.events, articles, now);
    var items, p := ItemsRead(st, s, articles, now), ReadFeed(st, s, w, articles, now);
    ReadFeedDoes(st, s, w, articles, now);
    GrowingKeepsLinked(st.events, r.events, st.readings, now);
    ReadingKeepsLinked(r.events, p.events, st.readings, p.readings, items, now);
    RecordingKeepsKeys(st.events, articles, now);
    MarkingKeepsKeys(r.events, p.events, items);
    SameLength(st.events, r.events, p.events, items, now);
    ActedInRange(st.actions, p.actions, items, s, now, |st.events|, |p.events|);
  }

  lemma SameLength(before: seq<Event>, middle: seq<Event>, events: seq<Event>, items: seq<Item>, now: int)
    requires Grown(before, middle, now) && Marked(middle, events, items)
    ensures |before| <= |middle| == |events|
  {}

  lemma PollKeepsGood(st: Store, s: Settings, w: World, now: int)
    requires Good(st)
    ensures Good(RunOnce(st, s, w, now))
  {
    hide Linked, DistinctKeys, ReadFeed, PollRow;
    if s.feedOn && w.hasKey && w.feed.Some? {
      ReadFeedKeepsGood(st, s, w, w.feed.value, now, st.polls + [PollRow(st, s, w, w.feed.value, now)]);
    }
  }

  /** The readings of a day, after a poll: those before, and the items read when it is that day. */
  lemma {:induction false} CountAppended(before: seq<Reading>, readings: seq<Reading>, items: seq<Item>, now: int,
        day: int)
    requires Appended(before, readings, items, now)
    ensures ReadingsOn(readings, day) == ReadingsOn(before, day) + if DayOf(now) == day then |items| else 0
    decreases |items|
  {
    if items == [] {
      assert readings == before;
    } else {
      var n := |items| - 1;
      var front := readings[..|readings| - 1];
      assert front[..|before|] == readings[..|before|];
      forall k | 0 <= k < n
        ensures front[|before| + k].eventId == items[..n][k].id && front[|before| + k].ts == now
      {
        assert front[|before| + k] == readings[|before| + k] && readings[|before| + k].eventId == items[k].id;
      }
      CountAppended(before, front, items[..n], now, day);
      assert readings[|before| + n].eventId == items[n].id && readings[|before| + n].ts == now;
    }
  }

  function MaxNat(a: nat, b: nat): nat { if a < b then b else a }

  /** A poll never takes its day over its budget, and leaves every other day as it was. */
  lemma PollStaysInBudget(st: Store, s: Settings, w: World, now: int, day: int)
    ensures var after := RunOnce(st, s, w, now);
            && ReadingsOn(after.readings, day) >= ReadingsOn(st.readings, day)
            && (DayOf(now) != day ==> ReadingsOn(after.readings, day) == ReadingsOn(st.readings, day))
            && (DayOf(now) == day ==>
                  ReadingsOn(after.readings, day) <= MaxNat(ReadingsOn(st.readings, day), NonNegative(s.budget)))
  {
    hide ReadFeed, PollRow, QueueOf, Appended, Marked, Acted, Grown;
    if s.feedOn && w.hasKey && w.feed.Some? {
      var articles := w.feed.value;
      var items := ItemsRead(st, s, articles, now);
      ReadFeedDoes(st, s, w, articles, now);
      CountAppended(st.readings, ReadFeed(st, s, w, articles, now).readings, items, now, day);
      assert |items| <= Allowed(s, ReadingsOn(st.readings, DayOf(now)));
    }
  }

  // ----- Every sequence of polls ---------------------------------------------------------------------------

  /** One wake-up of the runner: forced, or only when the cadence says it is time. */
  datatype Tick = Tick(s: Settings, w: World, now: int, forced: bool)

  function After(st: Store, t: Tick): Store {
    if t.forced then RunOnce(st, t.s, t.w, t.now) else RunDue(st, t.s, t.w, t.now)
  }

  function RunAll(st: Store, ticks: seq<Tick>): Store {
    if ticks == [] then st else After(RunAll(st, ticks[..|ticks| - 1]), ticks[|ticks| - 1])
  }

  /** From empty tables, or any good ones: each stored event is read at most once, it is marked
      escalated exactly when it has a reading, keys are stored once, queued actions are defensive. */
  lemma {:induction false} EverySequenceIsGood(st: Store, ticks: seq<Tick>)
    requires Good(st)
    ensures Good(RunAll(st, ticks))
  {
    hide Good, RunOnce, Due;
    if ticks != [] {
      var n := |ticks| - 1;
      EverySequenceIsGood(st, ticks[..n]);
      PollKeepsGood(RunAll(st, ticks[..n]), ticks[n].s, ticks[n].w, ticks[n].now);
    }
  }

  lemma EmptyTablesAreGood()
    ensures Good(Store([], [], [], []))
  {}

  /** With a fixed budget the readings of a day never exceed it. */
  lemma {:induction false} NoDayOverBudget(st: Store, ticks: seq<Tick>, day: int, budget: nat)
    requires forall i :: 0 <= i < |ticks| && DayOf(ticks[i].now) == day ==> ticks[i].s.budget <= budget
    ensures ReadingsOn(RunAll(st, ticks).readings, day) <= MaxNat(ReadingsOn(st.readings, day), budget)
  {
    hide RunOnce, Due, DayOf, ReadingsOn;
    if ticks != [] {
      var n := |ticks| - 1;
      NoDayOverBudget(st, ticks[..n], day, budget);
      PollStaysInBudget(RunAll(st, ticks[..n]), ticks[n].s, ticks[n].w, ticks[n].now, day);
    }
  }

  /** Two paid readings are never of articles with the same key. */
  lemma ChargedOncePerKey(st: Store, j: nat, k: nat)
    requires Good(st) && j < k < |st.readings|
    ensures var a, b := st.events[st.readings[j].eventId - 1], st.events[st.readings[k].eventId - 1];
            a.dedupe.Some? ==> a.dedupe != b.dedupe
  {
    var x, y := st.readings[j].eventId, st.readings[k].eventId;
    assert x != y;
  }
}
