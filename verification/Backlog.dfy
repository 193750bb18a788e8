/** What becomes of a stored event over a sequence of polls: it is on offer in every reading poll of
    its window until one reads it. */
module Backlog {
  import opened Text
  import opened Actions
  import opened AdaptiveStore
  import opened AdaptivePoll
  import opened AdaptiveGuarantees
  import opened AdaptiveOrder

  /** A wake-up that reaches the reading loop. */
  predicate ReadsFeed(st: Store, t: Tick) {
    && (t.forced || Due(st.polls, t.s.interval, t.now)) && t.s.feedOn && t.w.hasKey && t.w.feed.Some?
  }

  function Offered(st: Store, t: Tick): seq<Item>
    requires ReadsFeed(st, t)
  {
    QueueOf(RecordAll(st.events, t.w.feed.value, t.now), t.now)
  }

  function Served(st: Store, t: Tick): seq<Item>
    requires ReadsFeed(st, t)
  {
    ItemsRead(st, t.s, t.w.feed.value, t.now)
  }

  predicate InWindow(x: Item, t: Tick) { x.ts >= t.now - PENDING_MAX_AGE }

  /** The poll finds at most as many unread material events in its window as the backlog holds. */
  predicate Fits(st: Store, t: Tick)
    requires ReadsFeed(st, t)
  {
    var events := RecordAll(st.events, t.w.feed.value, t.now).events;
    |PendingRows(events, |events|, t.now - PENDING_MAX_AGE)| <= PENDING_LIMIT
  }

  /** The item stands for a stored material event, read or not. */
  predicate Stands(x: Item, events: seq<Event>) {
    1 <= x.id <= |events| && x == ItemOf(events, x.id) && events[x.id - 1].material
  }

  lemma StandsAfter(st: Store, t: Tick, x: Item)
    requires Stands(x, st.events)
    ensures Stands(x, After(st, t).events)
  {
    hide Due, PollRow, ReadFeed, RecordAll, Appended, Acted, QueueOf;
    if ReadsFeed(st, t) {
      ReadFeedDoes(st, t.s, t.w, t.w.feed.value, t.now);
    }
  }

  lemma StandsGrown(before: seq<Event>, events: seq<Event>, now: int, x: Item)
    requires Stands(x, before) && Grown(before, events, now)
    ensures Stands(x, events)
  {
    assert events[..|before|][x.id - 1] == before[x.id - 1];
  }

  lemma AppendedReads(before: seq<Reading>, readings: seq<Reading>, items: seq<Item>, now: int,
        events: seq<Event>, x: Item)
    requires Appended(before, readings, items, now) && Stands(x, events) && forall y :: y in items ==> Unread(y, events)
    ensures IsRead(readings, x.id) <==> IsRead(before, x.id) || x in items
  {
    if IsRead(before, x.id) {
      var k :| 0 <= k < |before| && before[k].eventId == x.id;
      assert readings[..|before|][k] == readings[k];
    }
    if x in items {
      var k :| 0 <= k < |items| && items[k] == x;
      assert readings[|before| + k].eventId == x.id;
    }
    if IsRead(readings, x.id) {
      var k :| 0 <= k < |readings| && readings[k].eventId == x.id;
      if k < |before| {
        assert readings[..|before|][k] == readings[k];
      } else {
        assert items[k - |before|].id == x.id && items[k - |before|] in items;
      }
    }
  }

  /** A poll reads an event exactly when it serves it. */
  lemma ReadByServing(st: Store, t: Tick, x: Item)
    requires Stands(x, st.events)
    ensures IsRead(After(st, t).readings, x.id)
       <==> IsRead(st.readings, x.id) || (ReadsFeed(st, t) && x in Served(st, t))
  {
    hide Due, PollRow, ReadFeed, RecordAll, Acted, QueueOf, ItemsRead, IsRead, Appended, Grown, Stands, Unread;
    if ReadsFeed(st, t) {
      var articles := t.w.feed.value;
      var events := RecordAll(st.events, articles, t.now).events;
      ReadFeedDoes(st, t.s, t.w, articles, t.now);
      StandsGrown(st.events, events, t.now, x);
      AppendedReads(st.readings, ReadFeed(st, t.s, t.w, articles, t.now).readings, Served(st, t), t.now, events, x);
    }
  }

  /** While the window's unread events fit the backlog, an event of an earlier poll is on offer exactly
      when it is unread and inside the window. */
  lemma OfferedIff(st: Store, t: Tick, x: Item)
    requires Good(st) && Stands(x, st.events) && ReadsFeed(st, t) && Fits(st, t)
    ensures x in Offered(st, t) <==> !IsRead(st.readings, x.id) && InWindow(x, t)
  {
    hide Due, RecordAll, QueueOf, IsRead, PendingMaterial, PendingRows, DistinctKeys;
    var articles := t.w.feed.value;
    var r := RecordAll(st.events, articles, t.now);
    RecordingGrows(st.events, articles, t.now);
    StandsGrown(st.events, r.events, t.now, x);
    QueueIs(st.events, r, t.now);
    PendingMaterialIs(r.events, t.now - PENDING_MAX_AGE);
    assert r.events[..|st.events|][x.id - 1] == st.events[x.id - 1];
    assert Unread(x, r.events) <==> !IsRead(st.readings, x.id);
    if !IsRead(st.readings, x.id) && InWindow(x, t) {
      BacklogIsOffered(st, articles, t.now, x);
    }
  }

  // ----- Over a sequence of polls -----------------------------------------------------------------

  /** The tables before the `n`th wake-up. */
  function At(st: Store, ticks: seq<Tick>, n: nat): Store
    requires n <= |ticks|
  {
    RunAll(st, ticks[..n])
  }

  lemma AtNext(st: Store, ticks: seq<Tick>, n: nat)
    requires n < |ticks|
    ensures At(st, ticks, n + 1) == After(At(st, ticks, n), ticks[n])
  {
    assert ticks[..n + 1][..n] == ticks[..n];
  }

  predicate ReadsAt(st: Store, ticks: seq<Tick>, n: int) { 0 <= n < |ticks| && ReadsFeed(At(st, ticks, n), ticks[n]) }

  predicate ServedAt(st: Store, ticks: seq<Tick>, n: int, x: Item) {
    ReadsAt(st, ticks, n) && x in Served(At(st, ticks, n), ticks[n])
  }

  lemma {:induction false} StaysStored(st: Store, ticks: seq<Tick>, n: nat, x: Item)
    requires Good(st) && Stands(x, st.events) && n <= |ticks|
    ensures Good(At(st, ticks, n)) && Stands(x, At(st, ticks, n).events)
  {
    hide Good, Stands, After;
    EverySequenceIsGood(st, ticks[..n]);
    if n == 0 {
      assert ticks[..0] == [];
    } else {
      StaysStored(st, ticks, n - 1, x);
      AtNext(st, ticks, n - 1);
      StandsAfter(At(st, ticks, n - 1), ticks[n - 1], x);
    }
  }

  lemma {:induction false} ReadOnceServed(st: Store, ticks: seq<Tick>, n: nat, x: Item)
    requires Good(st) && Stands(x, st.events) && n <= |ticks|
    ensures IsRead(At(st, ticks, n).readings, x.id)
       <==> IsRead(st.readings, x.id) || exists k :: 0 <= k < n && ServedAt(st, ticks, k, x)
  {
    hide Good, Stands, After, IsRead, ReadsFeed, At;
    if n == 0 {
      assert At(st, ticks, 0) == st by { AtStart(st, ticks); }
    } else {
      ReadOnceServed(st, ticks, n - 1, x);
      AtNext(st, ticks, n - 1);
      StaysStored(st, ticks, n - 1, x);
      ReadByServing(At(st, ticks, n - 1), ticks[n - 1], x);
      assert IsRead(At(st, ticks, n).readings, x.id)
        <==> IsRead(At(st, ticks, n - 1).readings, x.id) || ServedAt(st, ticks, n - 1, x);
      assert (exists k :: 0 <= k < n && ServedAt(st, ticks, k, x))
        <==> ServedAt(st, ticks, n - 1, x) || exists k :: 0 <= k < n - 1 && ServedAt(st, ticks, k, x);
    }
  }

  lemma AtStart(st: Store, ticks: seq<Tick>)
    ensures At(st, ticks, 0) == st
  {
    assert ticks[..0] == [];
  }

  /** Over any sequence of wake-ups, a stored material event is on offer in every reading poll whose
      backlog has room until one serves it or its window passes, and it is read in the end exactly
      when one has. */
  lemma OfferedUntilRead(st: Store, ticks: seq<Tick>, x: Item)
    requires Good(st) && Stands(x, st.events) && !IsRead(st.readings, x.id)
    ensures forall n :: ReadsAt(st, ticks, n) && Fits(At(st, ticks, n), ticks[n]) ==>
              (x in Offered(At(st, ticks, n), ticks[n])
               <==> InWindow(x, ticks[n]) && forall k :: 0 <= k < n ==> !ServedAt(st, ticks, k, x))
    ensures IsRead(RunAll(st, ticks).readings, x.id) <==> exists k :: ServedAt(st, ticks, k, x)
  {
    hide Good, Stands, After, IsRead, At, ReadsFeed, Offered, Fits, Served;
    forall n | ReadsAt(st, ticks, n) && Fits(At(st, ticks, n), ticks[n])
      ensures x in Offered(At(st, ticks, n), ticks[n])
         <==> InWindow(x, ticks[n]) && forall k :: 0 <= k < n ==> !ServedAt(st, ticks, k, x)
    {
      StaysStored(st, ticks, n, x);
      ReadOnceServed(st, ticks, n, x);
      OfferedIff(At(st, ticks, n), ticks[n], x);
    }
    ReadOnceServed(st, ticks, |ticks|, x);
    AtEnd(st, ticks);
  }

  lemma AtEnd(st: Store, ticks: seq<Tick>)
    ensures At(st, ticks, |ticks|) == RunAll(st, ticks)
  {
    assert ticks[..|ticks|] == ticks;
  }

  /** One reading poll of its window with room in the backlog and calls for its whole queue, and the
      event has been read. */
  lemma ReadOnceCallsReach(st: Store, ticks: seq<Tick>, x: Item, n: nat)
    requires Good(st) && Stands(x, st.events) && ReadsAt(st, ticks, n)
    requires var s, t := At(st, ticks, n), ticks[n];
             Fits(s, t) && InWindow(x, t) && Allowed(t.s, ReadingsOn(s.readings, DayOf(t.now))) >= |Offered(s, t)|
    ensures IsRead(RunAll(st, ticks).readings, x.id)
  {
    hide Good, Stands, After, IsRead, At, ReadsFeed, Fits, QueueOf, RecordAll, DayOf, ReadingsOn;
    var s, t := At(st, ticks, n), ticks[n];
    StaysStored(st, ticks, n, x);
    ReadOnceServed(st, ticks, n, x);
    ReadOnceServed(st, ticks, |ticks|, x);
    AtEnd(st, ticks);
    OfferedIff(s, t, x);
    assert Served(s, t) == Offered(s, t);
    assert x in Offered(s, t) ==> ServedAt(st, ticks, n, x);
  }
}
