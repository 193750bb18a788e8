/** In which order a poll spends its calls, what stays on offer, and how often polls come. */
module AdaptiveOrder {
  import opened Text
  import opened Sorting
  import opened Actions
  import opened AdaptiveStore
  import opened AdaptivePoll
  import opened AdaptiveGuarantees

  // ----- The action queue -------------------------------------------------------------------------

  /** What a poll queues for the engine: earlier rows stay, new ones name a symbol, carry an action
      the engine's allowlist knows by that name and a severity from the poll's floor to 1; with the
      defensive flag off there are none. */
  lemma QueuedActionsAreValid(st: Store, s: Settings, w: World, now: int)
    ensures var after := RunOnce(st, s, w, now).actions;
            && |st.actions| <= |after| && after[..|st.actions|] == st.actions
            && (!s.defensiveOn ==> after == st.actions)
            && forall k :: |st.actions| <= k < |after| ==>
                 && after[k].symbol != "" && s.minSeverity <= after[k].severity <= 1.0 && after[k].ts == now
                 && ParseKind(after[k].name).Some? && KindName(ParseKind(after[k].name).value) == after[k].name
  {
    hide ReadFeed, PollRow, QueueOf, Appended, Marked, Grown, ParseKind;
    if s.feedOn && w.hasKey && w.feed.Some? {
      ReadFeedDoes(st, s, w, w.feed.value, now);
      var after := RunOnce(st, s, w, now).actions;
      forall k | |st.actions| <= k < |after|
        ensures ParseKind(after[k].name).Some? && KindName(ParseKind(after[k].name).value) == after[k].name
      {
        AllowlistsAgree(after[k].name, Trim);
      }
    }
  }

  /** While the defensive flag is off, no sequence of polls queues anything. */
  lemma {:induction false} FlagOffQueuesNothing(st: Store, ticks: seq<Tick>)
    requires forall i :: 0 <= i < |ticks| ==> !ticks[i].s.defensiveOn
    ensures RunAll(st, ticks).actions == st.actions
  {
    hide RunOnce, Due;
    if ticks != [] {
      var n := |ticks| - 1;
      FlagOffQueuesNothing(st, ticks[..n]);
      QueuedActionsAreValid(RunAll(st, ticks[..n]), ticks[n].s, ticks[n].w, ticks[n].now);
    }
  }

  // ----- The poll's own row -----------------------------------------------------------------------------

  lemma {:induction false} ReadAllCounts(p: Progress, items: seq<Item>, s: Settings, w: World, now: int)
    requires IdsWithin(items, |p.events|)
    ensures var r := ReadAll(p, items, s, w, now);
            r.queued - p.queued == |r.actions| - |p.actions| && |r.readings| == |p.readings| + |items|
  {
    hide RouteOf;
    if items != [] { ReadAllCounts(p, items[..|items| - 1], s, w, now); }
  }

  lemma {:induction false} RecordAllCounts(events: seq<Event>, articles: seq<Article>, now: int)
    ensures var r := RecordAll(events, articles, now);
            |r.events| == |events| + r.added && |r.latest| <= r.added <= |articles|
  {
    hide Known;
    if articles != [] { RecordAllCounts(events, articles[..|articles| - 1], now); }
  }

  lemma ReadFeedCounts(st: Store, s: Settings, w: World, articles: seq<Article>, now: int)
    ensures var r := RecordAll(st.events, articles, now); var p := ReadFeed(st, s, w, articles, now);
            && |p.events| == |r.events| && p.queued == |p.actions| - |st.actions|
            && |p.readings| == |st.readings| + |ItemsRead(st, s, articles, now)|
  {
    hide ReadAll, QueueOf;
    var r := RecordAll(st.events, articles, now);
    QueueIdsWithin(st.events, articles, now);
    ReadAllCounts(Progress(r.events, st.readings, st.actions, 0, 0), ItemsRead(st, s, articles, now), s, w, now);
  }

  /** The row a poll leaves accounts for what it added to the other tables, and for what is left of
      the day's budget after it. */
  lemma PollRowAccounts(st: Store, s: Settings, w: World, now: int)
    requires s.feedOn
    ensures var after := RunOnce(st, s, w, now); var row := after.polls[|st.polls|];
            && |after.polls| == |st.polls| + 1 && row.ts == now
            && row.added == |after.events| - |st.events| && row.calls == |after.readings| - |st.readings|
            && row.queued == |after.actions| - |st.actions| && row.material <= row.added <= row.seen
            && row.budgetLeft == NonNegative(s.budget - ReadingsOn(after.readings, DayOf(now)))
  {
    hide ReadFeed, QueueOf, RecordAll, Symbols, StatusAfter, Reads, ReadingsOn, DayOf;
    if w.hasKey && w.feed.Some? {
      var articles := w.feed.value;
      RecordAllCounts(st.events, articles, now);
      ReadFeedCounts(st, s, w, articles, now);
      ReadFeedDoes(st, s, w, articles, now);
      var read := ReadFeed(st, s, w, articles, now).readings;
      CountAppended(st.readings, read, ItemsRead(st, s, articles, now), now, DayOf(now));
    }
  }

  // ----- Held names first ------------------------------------------------------------------------------

  lemma HeldFirstIsTotal()
    ensures TotalPreorder(HeldFirst)
  {
    forall a: Item, b: Item, c: Item
      ensures HeldFirst(a, b) || HeldFirst(b, a)
      ensures HeldFirst(a, b) && HeldFirst(b, c) ==> HeldFirst(a, c)
    {
      Order(a.symbol, b.symbol, c.symbol);
    }
  }

  lemma ServedFirstIsTotal()
    ensures TotalPreorder(ServedFirst)
  {}

  function HeldCount(queue: seq<Item>): (n: nat)
    ensures n <= |queue|
  {
    if queue == [] then 0 else HeldCount(queue[..|queue| - 1]) + if queue[|queue| - 1].held then 1 else 0
  }

  /** Held items come before all others. */
  predicate HeldLead(queue: seq<Item>) { forall i, j :: 0 <= i < j < |queue| && queue[j].held ==> queue[i].held }

  lemma SortedLeads(queue: seq<Item>)
    ensures SortedBy(HeldFirst, queue) || SortedBy(ServedFirst, queue) ==> HeldLead(queue)
  {
    if SortedBy(HeldFirst, queue) {
      assert forall i, j :: 0 <= i < j < |queue| ==> HeldFirst(queue[i], queue[j]);
    } else if SortedBy(ServedFirst, queue) {
      assert forall i, j :: 0 <= i < j < |queue| ==> ServedFirst(queue[i], queue[j]);
    }
  }

  /** Where held items lead, they are the first ones. */
  lemma {:induction false} HeldAreFirst(queue: seq<Item>)
    requires HeldLead(queue)
    ensures forall i :: 0 <= i < |queue| ==> (queue[i].held <==> i < HeldCount(queue))
  {
    if queue != [] {
      var n := |queue| - 1;
      HeldAreFirst(queue[..n]);
      assert forall i :: 0 <= i < n ==> queue[..n][i] == queue[i];
    }
  }

  /** An unread held event of the window. */
  predicate HeldWaiting(x: Item, events: seq<Event>, now: int) {
    Unread(x, events) && x.held && x.ts >= now - PENDING_MAX_AGE
  }

  /** No unheld event is read while a held one of the window is left unread. */
  ghost predicate HeldComeFirst(events: seq<Event>, queue: seq<Item>, n: nat, now: int)
    requires n <= |queue|
  {
    forall x, y :: HeldWaiting(x, events, now) && y in queue[..n] && !y.held ==> x in queue[..n]
  }

  lemma InPrefix(queue: seq<Item>, n: nat, x: Item, at: nat)
    requires at < n <= |queue| && queue[at] == x
    ensures x in queue[..n]
  {
    assert queue[..n][at] == x;
  }

  lemma QueueIsSorted(r: Recorded, now: int)
    ensures SortedBy(HeldFirst, QueueOf(r, now))
  {
    hide HeldFirst;
    HeldFirstIsTotal();
    SortSorts(HeldFirst, r.latest + Others(PendingMaterial(r.events, now - PENDING_MAX_AGE), r.latest));
  }

  /** Held names come first exactly when the poll reads no further than the held items of its queue,
      or its queue holds every held event of the window. */
  lemma HeldComeFirstWhen(events: seq<Event>, r: Recorded, now: int, n: nat)
    requires n <= |QueueOf(r, now)|
    ensures var queue := QueueOf(r, now);
            HeldComeFirst(r.events, queue, n, now)
            <==> n <= HeldCount(queue) || forall x :: HeldWaiting(x, r.events, now) ==> x in queue
  {
    hide QueueOf, HeldWaiting;
    var queue := QueueOf(r, now);
    QueueIsSorted(r, now);
    SortedLeads(queue);
    HeldAreFirst(queue);
    var held := HeldCount(queue);
    if n <= held {
      forall y | y in queue[..n]
        ensures y.held
      {
        var j :| 0 <= j < n && queue[..n][j] == y;
        assert queue[j].held;
      }
    } else {
      var y := queue[held];
      InPrefix(queue, n, y, held);
      assert !y.held;
      forall x | HeldWaiting(x, r.events, now) && x in queue
        ensures x in queue[..n]
      {
        HeldIsHeld(x, r.events, now);
        var i :| 0 <= i < |queue| && queue[i] == x;
        InPrefix(queue, n, x, i);
      }
      assert forall x :: x in queue[..n] ==> x in queue;
    }
  }

  lemma HeldIsHeld(x: Item, events: seq<Event>, now: int)
    requires HeldWaiting(x, events, now)
    ensures x.held
  {}

  // ----- What the backlog leaves out -------------------------------------------------------------------

  /** A pending event is left out of the backlog only past the limit, a held one only when all that
      are in it are held, and never for an older one of its kind. */
  lemma LeftOut(events: seq<Event>, cutoff: int, x: Item)
    requires Unread(x, events) && x.ts >= cutoff && x !in PendingMaterial(events, cutoff)
    ensures |PendingRows(events, |events|, cutoff)| > PENDING_LIMIT == |PendingMaterial(events, cutoff)|
    ensures forall y :: y in PendingMaterial(events, cutoff) ==> (x.held ==> y.held) && (y.held == x.held ==> y.ts >= x.ts)
  {
    hide Unread, PendingRows, Sort, ServedFirst;
    var rows := PendingRows(events, |events|, cutoff);
    PendingRowsOf(events, cutoff);
    ServedFirstIsTotal();
    SortSorts(ServedFirst, rows);
    SortPermutes(ServedFirst, rows);
    var sorted := Sort(ServedFirst, rows);
    var i :| 0 <= i < |sorted| && sorted[i] == x;
    InTake(sorted, i, PENDING_LIMIT);
    forall y | y in PendingMaterial(events, cutoff)
      ensures (x.held ==> y.held) && (y.held == x.held ==> y.ts >= x.ts)
    {
      var j :| 0 <= j < PENDING_LIMIT && sorted[..PENDING_LIMIT][j] == y;
      assert ServedFirst(sorted[j], sorted[i]);
      ServedFirstMeans(y, x);
    }
  }

  lemma InTake(items: seq<Item>, i: nat, m: nat)
    requires i < |items|
    ensures i < m <= |items| ==> items[i] in items[..m]
  {
    if i < m <= |items| { InPrefix(items, m, items[i], i); }
  }

  lemma ServedFirstMeans(y: Item, x: Item)
    requires ServedFirst(y, x)
    ensures (x.held ==> y.held) && (y.held == x.held ==> y.ts >= x.ts)
  {}

  function SetOf(items: seq<Item>): set<Item> { set x | x in items }

  lemma {:induction false} SetOfDistinct(items: seq<Item>)
    requires DistinctIds(items)
    ensures |SetOf(items)| == |items|
  {
    if items != [] {
      var front, last := items[..|items| - 1], items[|items| - 1];
      assert items == front + [last];
      NotAmong(front, last);
      SetOfDistinct(front);
      assert SetOf(items) == SetOf(front) + {last};
    }
  }

  lemma {:induction false} SetOfAny(items: seq<Item>)
    ensures |SetOf(items)| <= |items|
  {
    if items != [] {
      var front, last := items[..|items| - 1], items[|items| - 1];
      SetOfAny(front);
      assert items == front + [last];
      assert SetOf(items) == SetOf(front) + {last};
    }
  }

  lemma SubsetCounts(a: set<Item>, b: set<Item>)
    requires a <= b
    ensures |a| <= |b|
  {
    assert b == a + (b - a);
  }

  /** Distinct held items of a sorted queue are at most as many as its held items. */
  lemma HeldCountCovers(queue: seq<Item>, held: seq<Item>)
    requires SortedBy(HeldFirst, queue) && DistinctIds(held) && forall x :: x in held ==> x.held && x in queue
    ensures |held| <= HeldCount(queue)
  {
    hide HeldFirst;
    SortedLeads(queue);
    HeldAreFirst(queue);
    var front := queue[..HeldCount(queue)];
    forall x | x in held
      ensures x in front
    {
      var i :| 0 <= i < |queue| && queue[i] == x;
      InPrefix(queue, HeldCount(queue), x, i);
    }
    SetOfDistinct(held);
    SetOfAny(front);
    SubsetCounts(SetOf(held), SetOf(front));
  }

  /** A poll allowed no more calls than the backlog holds always reads held names first. */
  lemma SmallCapReadsHeldFirst(before: seq<Event>, r: Recorded, now: int, n: nat)
    requires Grown(before, r.events, now) && Listed(r.latest, r.events, |before|)
    requires n <= |QueueOf(r, now)| && n <= PENDING_LIMIT
    ensures HeldComeFirst(r.events, QueueOf(r, now), n, now)
  {
    hide Grown, Listed, QueueOf, Unread, HeldComeFirst, PendingMaterial;
    var queue, cutoff := QueueOf(r, now), now - PENDING_MAX_AGE;
    HeldComeFirstWhen(before, r, now, n);
    QueueIs(before, r, now);
    QueueIsSorted(r, now);
    if x :| HeldWaiting(x, r.events, now) && x !in queue {
      LeftOut(r.events, cutoff, x);
      PendingMaterialIs(r.events, cutoff);
      HeldCountCovers(queue, PendingMaterial(r.events, cutoff));
    }
  }

  /** In every poll whose cap or remaining budget is at most the backlog's limit, no unheld event is
      read while a held one of the window is left unread. */
  lemma PollReadsHeldFirst(st: Store, s: Settings, articles: seq<Article>, now: int)
    requires Allowed(s, ReadingsOn(st.readings, DayOf(now))) <= PENDING_LIMIT
    ensures var r := RecordAll(st.events, articles, now); var queue := QueueOf(r, now);
            HeldComeFirst(r.events, queue, Reads(queue, s, ReadingsOn(st.readings, DayOf(now))), now)
  {
    hide Grown, Listed, QueueOf, HeldComeFirst;
    var r := RecordAll(st.events, articles, now);
    RecordingGrows(st.events, articles, now);
    SmallCapReadsHeldFirst(st.events, r, now, Reads(QueueOf(r, now), s, ReadingsOn(st.readings, DayOf(now))));
  }

  /** While at most fifty unread material events lie inside the window, a poll offers every one. */
  lemma BacklogIsOffered(st: Store, articles: seq<Article>, now: int, x: Item)
    requires var r := RecordAll(st.events, articles, now);
             && |PendingRows(r.events, |r.events|, now - PENDING_MAX_AGE)| <= PENDING_LIMIT
             && Unread(x, r.events) && x.ts >= now - PENDING_MAX_AGE
    ensures x in QueueOf(RecordAll(st.events, articles, now), now)
  {
    hide Grown, Listed, QueueOf, Unread, PendingMaterial, PendingRows;
    var r := RecordAll(st.events, articles, now);
    RecordingGrows(st.events, articles, now);
    QueueIs(st.events, r, now);
    if x !in PendingMaterial(r.events, now - PENDING_MAX_AGE) {
      LeftOut(r.events, now - PENDING_MAX_AGE, x);
    }
  }

  /** An offered event a poll does not read stays unread, so the next one finds it again. */
  lemma UnreadStays(st: Store, s: Settings, w: World, articles: seq<Article>, now: int, x: Item)
    requires Unread(x, RecordAll(st.events, articles, now).events) && !HasId(ItemsRead(st, s, articles, now), x.id)
    ensures Unread(x, ReadFeed(st, s, w, articles, now).events)
  {
    hide ReadFeed, ItemsRead, Appended, Acted, Grown, HasId;
    ReadFeedDoes(st, s, w, articles, now);
  }

  // ----- The cadence -------------------------------------------------------------------------------------

  ghost predicate Spaced(polls: seq<Poll>, gap: nat) {
    forall i, j :: 0 <= i < j < |polls| ==> polls[j].ts - polls[i].ts >= gap
  }

  lemma {:induction false} LastIsLatest(polls: seq<Poll>)
    ensures polls == [] <==> LastPoll(polls).None?
    ensures forall i :: 0 <= i < |polls| ==> polls[i].ts <= LastPoll(polls).value
  {
    if polls != [] {
      LastIsLatest(polls[..|polls| - 1]);
      assert forall i :: 0 <= i < |polls| - 1 ==> polls[..|polls| - 1][i] == polls[i];
    }
  }

  /** A poll that runs leaves one row, of its own time. */
  lemma PollLeavesOneRow(st: Store, s: Settings, w: World, now: int)
    requires s.feedOn
    ensures var after := RunOnce(st, s, w, now).polls;
            |after| == |st.polls| + 1 && after[..|st.polls|] == st.polls && after[|st.polls|].ts == now
  {
    hide ReadFeed, QueueOf;
  }

  lemma DueKeepsSpacing(st: Store, s: Settings, w: World, now: int, gap: nat)
    requires Spaced(st.polls, gap) && s.interval >= gap
    ensures Spaced(RunDue(st, s, w, now).polls, gap)
  {
    hide RunOnce;
    if s.feedOn && Due(st.polls, s.interval, now) {
      PollLeavesOneRow(st, s, w, now);
      LastIsLatest(st.polls);
      var after := RunOnce(st, s, w, now).polls;
      assert forall i :: 0 <= i < |st.polls| ==> after[i] == after[..|st.polls|][i] == st.polls[i];
    }
  }

  /** Polls that come by the cadence stand at least its interval apart, whatever the clock does. */
  lemma {:induction false} PollsAreSpaced(st: Store, ticks: seq<Tick>, gap: nat)
    requires Spaced(st.polls, gap) && forall i :: 0 <= i < |ticks| ==> !ticks[i].forced && ticks[i].s.interval >= gap
    ensures Spaced(RunAll(st, ticks).polls, gap)
  {
    hide RunOnce, RunDue, Spaced;
    if ticks != [] {
      var n := |ticks| - 1;
      PollsAreSpaced(st, ticks[..n], gap);
      DueKeepsSpacing(RunAll(st, ticks[..n]), ticks[n].s, ticks[n].w, ticks[n].now, gap);
    }
  }
}
