/** One poll said on the tables: which rows it stores, which events it reads and in which order, and the
    row it leaves (adaptive/run.py, adaptive/store.py). */
module PollRows {
  import opened Text
  import opened Sorting
  import opened Actions
  import opened AdaptiveStore
  import opened AdaptivePoll
  import opened AdaptiveGuarantees
  import opened AdaptiveOrder
  import opened PollEffects

  // ----- What is stored --------------------------------------------------------------------------------

  predicate HasKey(events: seq<Event>, key: string) { exists i :: 0 <= i < |events| && events[i].dedupe == Some(key) }

  /** No stored event and no earlier article of the feed has this article's key, or it has none. */
  predicate Arrives(articles: seq<Article>, i: nat, events: seq<Event>)
    requires i < |articles|
  {
    articles[i].key != "" ==>
      !HasKey(events, articles[i].key) && forall j :: 0 <= j < i ==> articles[j].key != articles[i].key
  }

  /** The arriving ones among the first `n` articles. */
  function Arriving(articles: seq<Article>, n: nat, events: seq<Event>): seq<Article>
    requires n <= |articles|
  {
    if n == 0 then []
    else Arriving(articles, n - 1, events) + if Arrives(articles, n - 1, events) then [articles[n - 1]] else []
  }

  predicate RowFor(e: Event, a: Article, now: int) {
    && e.ts == now && e.symbol == a.symbol && e.held == a.held && e.material == a.material && !e.escalated
    && if a.key == "" then e.dedupe == None else e.dedupe == Some(a.key)
  }

  /** The earlier rows, and one new row for each article that arrives. */
  ghost predicate Stores(before: seq<Event>, kept: seq<Article>, rows: seq<Event>, now: int) {
    && |rows| == |before| + |kept| && rows[..|before|] == before
    && forall k :: 0 <= k < |kept| ==> RowFor(rows[|before| + k], kept[k], now)
  }

  predicate Seen(articles: seq<Article>, n: nat, events: seq<Event>, key: string)
    requires n <= |articles|
  {
    HasKey(events, key) || (key != "" && exists j :: 0 <= j < n && articles[j].key == key)
  }

  function MaterialOf(kept: seq<Article>): nat {
    if kept == [] then 0 else MaterialOf(kept[..|kept| - 1]) + if kept[|kept| - 1].material then 1 else 0
  }

  lemma HasKeyGrows(events: seq<Event>, e: Event)
    ensures forall key :: HasKey(events + [e], key) <==> HasKey(events, key) || e.dedupe == Some(key)
  {
    var all := events + [e];
    assert all[|events|] == e && forall i :: 0 <= i < |events| ==> all[i] == events[i];
  }

  lemma {:induction false} RecordingStores(events: seq<Event>, articles: seq<Article>, n: nat, now: int)
    requires n <= |articles|
    ensures var r, kept := RecordAll(events, articles[..n], now), Arriving(articles, n, events);
            && Stores(events, kept, r.events, now) && r.added == |kept| && |r.latest| == MaterialOf(kept)
            && forall key :: HasKey(r.events, key) <==> Seen(articles, n, events, key)
  {
    hide HasKey, Stores, Seen, Known, Arrives;
    if n == 0 {
      NothingStored(events, articles, now);
    } else {
      var a := articles[n - 1];
      assert articles[..n][..n - 1] == articles[..n - 1];
      RecordingStores(events, articles, n - 1, now);
      var r, kept := RecordAll(events, articles[..n - 1], now), Arriving(articles, n - 1, events);
      KnownIsKey(r.events, EventOf(a, now));
      HasKeyGrows(r.events, EventOf(a, now));
      SeenStep(events, articles, n);
      StoresStep(events, kept, r.events, a, now);
      assert (kept + [a])[..|kept|] == kept;
      assert kept + [] == kept;
    }
  }

  lemma NothingStored(events: seq<Event>, articles: seq<Article>, now: int)
    ensures Stores(events, [], events, now)
    ensures forall key :: HasKey(events, key) <==> Seen(articles, 0, events, key)
  {}

  lemma StoresStep(before: seq<Event>, kept: seq<Article>, rows: seq<Event>, a: Article, now: int)
    requires Stores(before, kept, rows, now)
    ensures Stores(before, kept + [a], rows + [EventOf(a, now)], now)
  {
    var all := rows + [EventOf(a, now)];
    assert all[..|before|] == rows[..|before|];
    assert forall i :: 0 <= i < |rows| ==> all[i] == rows[i];
  }

  lemma SeenStep(events: seq<Event>, articles: seq<Article>, n: nat)
    requires 0 < n <= |articles|
    ensures Arrives(articles, n - 1, events)
       <==> articles[n - 1].key == "" || !Seen(articles, n - 1, events, articles[n - 1].key)
    ensures forall key :: Seen(articles, n, events, key)
              <==> Seen(articles, n - 1, events, key) || (key != "" && articles[n - 1].key == key)
  {
    hide HasKey;
  }

  lemma KnownIsKey(events: seq<Event>, e: Event)
    ensures Known(events, e.dedupe) <==> e.dedupe.Some? && HasKey(events, e.dedupe.value)
  {}

  // ----- What is queued, and in which order ------------------------------------------------------------

  /** An unread material event of the table. */
  predicate Waits(x: Item, rows: seq<Event>) {
    && 1 <= x.id <= |rows|
    && var e := rows[x.id - 1];
       x.ts == e.ts && x.symbol == e.symbol && x.held == e.held && e.material && !e.escalated
  }

  /** Held first, then the newest, then the last stored. */
  predicate ServedBefore(a: Item, b: Item) {
    if a.held != b.held then a.held else if a.ts != b.ts then a.ts > b.ts else a.id > b.id
  }

  predicate ServedInOrder(line: seq<Item>) { forall i, j :: 0 <= i < j < |line| ==> ServedBefore(line[i], line[j]) }

  /** The waiting events of the last hour, in the order the backlog serves them. */
  ghost predicate Hour(line: seq<Item>, rows: seq<Event>, now: int) {
    (forall x :: x in line <==> Waits(x, rows) && x.ts >= now - 3600) && ServedInOrder(line)
  }

  function FirstFifty(line: seq<Item>): seq<Item> { if |line| > 50 then line[..50] else line }

  /** Held names first, then by symbol; of one symbol this feed's in its order, then the backlog's in its. */
  predicate QueuedBefore(a: Item, b: Item, base: nat) {
    if a.held != b.held then a.held
    else if a.symbol != b.symbol then Less(a.symbol, b.symbol)
    else SameNameBefore(a, b, base)
  }

  predicate SameNameBefore(a: Item, b: Item, base: nat) {
    if a.id > base then b.id <= base || a.id < b.id
    else b.id <= base && (a.ts > b.ts || (a.ts == b.ts && a.id > b.id))
  }

  /** The queue of a poll: this feed's waiting events and the first fifty of the backlog. */
  ghost predicate QueueIsOf(queue: seq<Item>, line: seq<Item>, rows: seq<Event>, base: nat) {
    && (forall x :: x in queue <==> (Waits(x, rows) && x.id > base) || x in FirstFifty(line))
    && QueuedInOrder(queue, base)
  }

  predicate QueuedInOrder(queue: seq<Item>, base: nat) {
    forall i, j :: 0 <= i < j < |queue| ==> QueuedBefore(queue[i], queue[j], base)
  }

  lemma WaitsIsUnread(rows: seq<Event>)
    ensures forall x :: Waits(x, rows) <==> Unread(x, rows)
  {}

  /** The backlog is the first fifty of the hour. */
  lemma BacklogIsTheHour(rows: seq<Event>, now: int) returns (line: seq<Item>)
    ensures Hour(line, rows, now) && PendingMaterial(rows, now - PENDING_MAX_AGE) == FirstFifty(line)
  {
    hide Unread, Waits, PendingRows, Sort, ServedFirst;
    var pending := PendingRows(rows, |rows|, now - PENDING_MAX_AGE);
    line := Sort(ServedFirst, pending);
    WaitsIsUnread(rows);
    PendingRowsOf(rows, now - PENDING_MAX_AGE);
    ServedFirstIsTotal();
    SortSorts(ServedFirst, pending);
    SortPermutes(ServedFirst, pending);
    SortKeepsDistinct(ServedFirst, pending);
    forall i, j | 0 <= i < j < |line|
      ensures ServedBefore(line[i], line[j])
    {
      assert ServedFirst(line[i], line[j]) && line[i].id != line[j].id;
      ServedStrictly(line[i], line[j]);
    }
  }

  lemma ServedStrictly(a: Item, b: Item)
    requires ServedFirst(a, b) && a.id != b.id
    ensures ServedBefore(a, b)
  {}

  lemma {:induction false} OthersInOrder(items: seq<Item>, latest: seq<Item>)
    requires ServedInOrder(items)
    ensures ServedInOrder(Others(items, latest))
  {
    hide HasId, ServedBefore;
    if items != [] {
      var n := |items| - 1;
      var front := Others(items[..n], latest);
      OthersInOrder(items[..n], latest);
      OthersAre(items[..n], latest);
      forall i | 0 <= i < |front|
        ensures ServedBefore(front[i], items[n])
      {
        assert front[i] in front;
        var k :| 0 <= k < n && items[..n][k] == front[i];
        assert items[k] == front[i];
      }
    }
  }

  /** The unsorted queue: this feed's events by id, then older ones of the backlog as they are served. */
  ghost predicate Unsorted(all: seq<Item>, base: nat) {
    forall i, j :: 0 <= i < j < |all| && all[i].held == all[j].held ==> SameNameBefore(all[i], all[j], base)
  }

  lemma UnsortedIs(before: seq<Event>, r: Recorded, now: int, line: seq<Item>)
    requires Grown(before, r.events, now) && Listed(r.latest, r.events, |before|)
    requires Hour(line, r.events, now) && PendingMaterial(r.events, now - PENDING_MAX_AGE) == FirstFifty(line)
    ensures Unsorted(r.latest + Others(PendingMaterial(r.events, now - PENDING_MAX_AGE), r.latest), |before|)
  {
    hide HasId, PendingMaterial, Waits, Unread;
    var backlog := PendingMaterial(r.events, now - PENDING_MAX_AGE);
    var others := Others(backlog, r.latest);
    var all := r.latest + others;
    OthersInOrder(backlog, r.latest);
    OthersAreOld(before, r, now, backlog);
    forall i, j | 0 <= i < j < |all| && all[i].held == all[j].held
      ensures SameNameBefore(all[i], all[j], |before|)
    {
      if j >= |r.latest| {
        assert others[j - |r.latest|] in others;
        if i >= |r.latest| {
          assert others[i - |r.latest|] in others;
          assert ServedBefore(others[i - |r.latest|], others[j - |r.latest|]);
        }
      }
    }
  }

  lemma OthersAreOld(before: seq<Event>, r: Recorded, now: int, backlog: seq<Item>)
    requires Grown(before, r.events, now) && Listed(r.latest, r.events, |before|)
    requires forall x :: x in backlog ==> Waits(x, r.events)
    ensures forall x :: x in Others(backlog, r.latest) ==> x.id <= |before|
  {
    hide HasId;
    OthersAre(backlog, r.latest);
    forall x | Waits(x, r.events) && x.id > |before|
      ensures HasId(r.latest, x.id)
    {
      assert HasId(r.latest, x.id - 1 + 1);
    }
  }

  lemma LatestAre(before: seq<Event>, r: Recorded, now: int)
    requires Grown(before, r.events, now) && Listed(r.latest, r.events, |before|)
    ensures forall x :: x in r.latest <==> Waits(x, r.events) && x.id > |before|
  {
    forall x | Waits(x, r.events) && x.id > |before|
      ensures x in r.latest
    {
      assert HasId(r.latest, x.id - 1 + 1);
      var k :| 0 <= k < |r.latest| && r.latest[k].id == x.id;
      assert r.latest[k] == x;
    }
  }

  lemma SortedQueue(all: seq<Item>, base: nat)
    requires Unsorted(all, base)
    ensures QueuedInOrder(Sort(HeldFirst, all), base)
  {
    hide Sort, SameNameBefore;
    var q := Sort(HeldFirst, all);
    var later := (a: Item, b: Item) => SameNameBefore(a, b, base);
    HeldFirstIsTotal();
    SortSorts(HeldFirst, all);
    SortIsStable(HeldFirst, later, all);
    forall i, j | 0 <= i < j < |q|
      ensures QueuedBefore(q[i], q[j], base)
    {
      assert HeldFirst(q[i], q[j]);
      Order(q[i].symbol, q[j].symbol, q[i].symbol);
      if q[i].held == q[j].held && q[i].symbol == q[j].symbol {
        assert later(q[i], q[j]);
      }
    }
  }

  /** The queue of a poll. */
  lemma QueueIsInOrder(before: seq<Event>, r: Recorded, now: int) returns (line: seq<Item>)
    requires Grown(before, r.events, now) && Listed(r.latest, r.events, |before|)
    ensures Hour(line, r.events, now) && QueueIsOf(QueueOf(r, now), line, r.events, |before|)
  {
    hide HeldFirst, PendingMaterial, Listed, Grown, Unread, Waits, Unsorted, QueuedBefore, Hour;
    line := BacklogIsTheHour(r.events, now);
    QueueIs(before, r, now);
    LatestAre(before, r, now);
    UnsortedIs(before, r, now, line);
    SortedQueue(r.latest + Others(PendingMaterial(r.events, now - PENDING_MAX_AGE), r.latest), |before|);
  }

  // ----- The whole poll ----------------------------------------------------------------------------------

  /** Both times lie on one UTC day. */
  ghost predicate SameDay(a: int, b: int) {
    exists d :: 86400 * d <= a < 86400 * d + 86400 && 86400 * d <= b < 86400 * d + 86400
  }

  ghost function ReadingsOfToday(readings: seq<Reading>, now: int): set<nat> {
    set k: nat | k < |readings| && SameDay(readings[k].ts, now)
  }

  lemma DaysAre(a: int, b: int)
    ensures DayOf(a) == DayOf(b) <==> SameDay(a, b)
  {
    if DayOf(a) == DayOf(b) {
      var d := DayOf(a);
      assert 86400 * d <= a < 86400 * d + 86400;
    }
  }

  lemma {:induction false} TodayIsCounted(readings: seq<Reading>, now: int)
    ensures ReadingsOn(readings, DayOf(now)) == |ReadingsOfToday(readings, now)|
  {
    hide SameDay;
    if readings != [] {
      var n := |readings| - 1;
      TodayIsCounted(readings[..n], now);
      DaysAre(readings[n].ts, now);
      assert ReadingsOfToday(readings, now)
          == ReadingsOfToday(readings[..n], now) + if SameDay(readings[n].ts, now) then {n} else {};
    }
  }

  /** The most calls that neither the queue, the cap per poll nor the rest of the day's budget forbids. */
  predicate CallsMade(n: nat, queued: nat, perPoll: int, left: int) {
    && n <= queued && (n > 0 ==> n <= perPoll && n <= left)
    && (n < queued ==> n >= perPoll || n >= left)
  }

  /** The rows that are read are marked, and no others. */
  ghost predicate MarksRead(rows: seq<Event>, events: seq<Event>, news: seq<Reading>) {
    && |events| == |rows|
    && forall i :: 0 <= i < |rows| ==>
         events[i] == rows[i].(escalated := rows[i].escalated || exists k :: 0 <= k < |news| && news[k].eventId == i + 1)
  }

  /** Why the loop stopped: with the queue done, at the cap, or at the budget. */
  predicate StopsFor(status: Status, n: nat, queued: nat, perPoll: int) {
    if n == queued then status == Fine else if n >= perPoll then status == CapReached else status == BudgetSpent
  }

  predicate LeftIs(n: nat, left: int) { n == if left < 0 then 0 else left }

  ghost predicate RowAccounts(row: Poll, st: Store, s: Settings, w: World, articles: seq<Article>, now: int,
        kept: seq<Article>, queued: nat, news: seq<Reading>) {
    && row.ts == now && row.symbols == |PollTargets(w.held, w.watch, s.maxSymbols)| && row.seen == |articles|
    && row.added == |kept| && row.material == MaterialOf(kept) && row.calls == |news|
    && row.queued == CountOf(news, Queued) && row.referred == CountOf(news, Referred)
    && LeftIs(row.budgetLeft, s.budget - |ReadingsOfToday(st.readings, now)| - |news|)
    && StopsFor(row.status, |news|, queued, s.perPoll)
  }

  /** A poll that gets a feed: it stores what arrives, reads the front of its queue, and leaves for each
      reading the effect its interpretation has. */
  ghost predicate Polled(st: Store, s: Settings, w: World, articles: seq<Article>, now: int, after: Store,
        rows: seq<Event>, line: seq<Item>, queue: seq<Item>, news: seq<Reading>) {
    var kept := Arriving(articles, |articles|, st.events);
    && Stores(st.events, kept, rows, now) && Hour(line, rows, now) && QueueIsOf(queue, line, rows, |st.events|)
    && CallsMade(|news|, |queue|, s.perPoll, s.budget - |ReadingsOfToday(st.readings, now)|)
    && |news| <= |queue| && ReadsItems(news, queue[..|news|]) && Explained(news, rows, s, w, now)
    && MarksRead(rows, after.events, news) && after.readings == st.readings + news
    && after.actions == st.actions + ActionsOf(news, rows, w, now)
    && |after.polls| == |st.polls| + 1 && after.polls[..|st.polls|] == st.polls
    && RowAccounts(after.polls[|st.polls|], st, s, w, articles, now, kept, |queue|, news)
  }

  lemma CallsAre(queue: seq<Item>, s: Settings, used: nat)
    ensures CallsMade(Reads(queue, s, used), |queue|, s.perPoll, s.budget - used)
    ensures StopsFor(StatusAfter(queue, s, used), Reads(queue, s, used), |queue|, s.perPoll)
  {}

  lemma MarkedByReadings(rows: seq<Event>, events: seq<Event>, items: seq<Item>, news: seq<Reading>)
    requires Marked(rows, events, items) && ReadsItems(news, items)
    ensures MarksRead(rows, events, news)
  {
    forall id
      ensures HasId(items, id) <==> exists k :: 0 <= k < |news| && news[k].eventId == id
    {
      if HasId(items, id) {
        var k :| 0 <= k < |items| && items[k].id == id;
        assert news[k].eventId == id;
      }
      if k :| 0 <= k < |news| && news[k].eventId == id { assert items[k].id == id; }
    }
  }

  lemma FrontStands(queue: seq<Item>, n: nat, rows: seq<Event>)
    requires n <= |queue| && forall x :: x in queue ==> Unread(x, rows)
    ensures Stand(queue[..n], rows)
  {
    forall k | 0 <= k < n
      ensures 1 <= queue[k].id <= |rows| && queue[k] == ItemOf(rows, queue[k].id)
    {
      assert queue[k] in queue;
    }
  }

  /** Every poll that gets a feed is as said. */
  lemma PollIs(st: Store, s: Settings, w: World, articles: seq<Article>, now: int)
    returns (rows: seq<Event>, line: seq<Item>, queue: seq<Item>, news: seq<Reading>)
    requires s.feedOn && w.hasKey && w.feed == Some(articles)
    ensures Polled(st, s, w, articles, now, RunOnce(st, s, w, now), rows, line, queue, news)
  {
    hide Grown, Listed, Stores, Hour, QueueIsOf, CallsMade, ReadsItems, Explained, MarksRead, Marked, Appended, Acted,
         StopsFor, QueueOf, RecordAll, ReadAll, Reads, ReadingsOn, StatusAfter, ReadingsOfToday, Stand, Unread, CountOf,
         ActionsOf, PollTargets, Arriving;
    var r := RecordAll(st.events, articles, now);
    rows, queue := r.events, QueueOf(r, now);
    var used := ReadingsOn(st.readings, DayOf(now));
    var n := Reads(queue, s, used);
    assert articles[..|articles|] == articles;
    RecordingStores(st.events, articles, |articles|, now);
    RecordingGrows(st.events, articles, now);
    QueueIs(st.events, r, now);
    line := QueueIsInOrder(st.events, r, now);
    TodayIsCounted(st.readings, now);
    CallsAre(queue, s, used);
    FrontStands(queue, n, rows);
    var p := Progress(rows, st.readings, st.actions, 0, 0);
    news := ReadAllExplained(p, queue[..n], rows, s, w, now);
    ReadAllDoes(p, queue[..n], s, w, now);
    ReadsAreAsMany(news, queue[..n]);
    MarkedByReadings(rows, ReadAll(p, queue[..n], s, w, now).events, queue[..n], news);
  }

  lemma ReadsAreAsMany(news: seq<Reading>, items: seq<Item>)
    requires ReadsItems(news, items)
    ensures |news| == |items|
  {}

  // ----- Every sequence of wake-ups -----------------------------------------------------------------------

  /** The wake-up polls: the feed is on, and it is forced or no poll lies less than the interval back. */
  predicate Polls(st: Store, t: Tick) {
    t.s.feedOn && (t.forced || forall i :: 0 <= i < |st.polls| ==>
                                 t.now - st.polls[i].ts >= t.s.interval && t.now - st.polls[i].ts >= 0)
  }

  /** A poll without a key, or without a feed, leaves its row and nothing else. */
  ghost predicate OnlyNotes(st: Store, t: Tick, after: Store, symbols: nat, status: Status) {
    && |after.polls| == |st.polls| + 1
    && var row := after.polls[|st.polls|];
       && after == st.(polls := st.polls + [row])
       && row == Poll(t.now, symbols, 0, 0, 0, 0, 0, 0, row.budgetLeft, status)
       && LeftIs(row.budgetLeft, t.s.budget - |ReadingsOfToday(st.readings, t.now)|)
  }

  /** What one wake-up makes of the tables. */
  ghost predicate WokenIs(st: Store, t: Tick, after: Store) {
    if !Polls(st, t) then after == st
    else if !t.w.hasKey then OnlyNotes(st, t, after, 0, NoKey)
    else if t.w.feed.None? then
      OnlyNotes(st, t, after, |PollTargets(t.w.held, t.w.watch, t.s.maxSymbols)|, FeedError)
    else exists rows, line, queue, news ::
           Polled(st, t.s, t.w, t.w.feed.value, t.now, after, rows, line, queue, news)
  }

  lemma {:induction false} LastPollIs(polls: seq<Poll>)
    ensures polls == [] <==> LastPoll(polls).None?
    ensures polls != [] ==> exists i :: 0 <= i < |polls| && polls[i].ts == LastPoll(polls).value
    ensures forall i :: 0 <= i < |polls| ==> polls[i].ts <= LastPoll(polls).value
  {
    LastIsLatest(polls);
    if polls != [] {
      var n := |polls| - 1;
      LastPollIs(polls[..n]);
      if LastPoll(polls).value != polls[n].ts {
        var i :| 0 <= i < n && polls[..n][i].ts == LastPoll(polls[..n]).value;
        assert polls[i].ts == LastPoll(polls).value;
      }
    }
  }

  lemma DueIs(st: Store, t: Tick)
    requires t.s.feedOn && !t.forced
    ensures Due(st.polls, t.s.interval, t.now) <==> Polls(st, t)
  {
    LastPollIs(st.polls);
  }

  /** Every wake-up does what is said. */
  lemma WakeUpIs(st: Store, t: Tick)
    ensures WokenIs(st, t, After(st, t))
  {
    hide Polled, RunOnce, Due, Polls, ReadingsOn, ReadingsOfToday, PollTargets;
    if t.s.feedOn && !t.forced { DueIs(st, t); }
    PollsNeedTheFeed(st, t);
    if Polls(st, t) {
      TodayIsCounted(st.readings, t.now);
      if t.w.hasKey && t.w.feed.Some? {
        var rows, line, queue, news := PollIs(st, t.s, t.w, t.w.feed.value, t.now);
      } else {
        FailureNotes(st, t);
      }
    }
  }

  lemma PollsNeedTheFeed(st: Store, t: Tick)
    ensures Polls(st, t) ==> t.s.feedOn
    ensures t.s.feedOn && t.forced ==> Polls(st, t)
    ensures !t.s.feedOn ==> RunOnce(st, t.s, t.w, t.now) == st
  {}

  lemma FailureNotes(st: Store, t: Tick)
    requires t.s.feedOn && (!t.w.hasKey || t.w.feed.None?)
    ensures var after := RunOnce(st, t.s, t.w, t.now);
            if !t.w.hasKey then OnlyNotes(st, t, after, 0, NoKey)
            else OnlyNotes(st, t, after, |PollTargets(t.w.held, t.w.watch, t.s.maxSymbols)|, FeedError)
  {
    hide ReadingsOn, ReadingsOfToday, PollTargets, DayOf;
    TodayIsCounted(st.readings, t.now);
  }

  /** The action stands for a reading made at this wake-up: of a stored event, found to matter, and asking
      for it with the defensive flag on. */
  ghost predicate StandsFor(a: Action, t: Tick, before: Store, after: Store) {
    exists x: Item, k ::
      && |before.readings| <= k < |after.readings| && after.readings[k] == Reading(x.id, t.now, Queued)
      && 1 <= x.id <= |after.events| && x == ItemOf(after.events, x.id)
      && a == ActionOf(x, t.w.interpret(x), t.now) && Matters(t.w.interpret(x), t.s) && t.s.defensiveOn
      && IsProtective(a.name) && a.symbol != "" && 0.0 <= a.severity <= 1.0
  }

  lemma {:induction false} ActionsOfAre(news: seq<Reading>, events: seq<Event>, s: Settings, w: World, now: int, a: Action)
    requires Explained(news, events, s, w, now) && a in ActionsOf(news, events, w, now)
    ensures exists k :: 0 <= k < |news| && news[k].effect == Queued
              && a == ActionOf(ItemOf(events, news[k].eventId), w.interpret(ItemOf(events, news[k].eventId)), now)
  {
    hide EffectIs;
    var n := |news| - 1;
    if a in ActionsOf(news[..n], events, w, now) {
      ActionsOfAre(news[..n], events, s, w, now, a);
      var k :| 0 <= k < n && news[..n][k].effect == Queued
               && a == ActionOf(ItemOf(events, news[..n][k].eventId), w.interpret(ItemOf(events, news[..n][k].eventId)), now);
      assert news[k] == news[..n][k];
    }
  }

  lemma MarkedRowsStand(rows: seq<Event>, events: seq<Event>, news: seq<Reading>, id: nat)
    requires MarksRead(rows, events, news) && 1 <= id <= |rows|
    ensures 1 <= id <= |events| && ItemOf(events, id) == ItemOf(rows, id)
  {}

  /** What a reading that queues means for the action it queues. */
  lemma QueuedStands(t: Tick, before: Store, after: Store, rows: seq<Event>, news: seq<Reading>, k: nat)
    requires Explained(news, rows, t.s, t.w, t.now) && MarksRead(rows, after.events, news)
    requires after.readings == before.readings + news && k < |news| && news[k].effect == Queued
    ensures var x := ItemOf(rows, news[k].eventId); StandsFor(ActionOf(x, t.w.interpret(x), t.now), t, before, after)
  {
    hide Spells;
    var x := ItemOf(rows, news[k].eventId);
    MarkedRowsStand(rows, after.events, news, x.id);
    assert after.readings[|before.readings| + k] == news[k] == Reading(x.id, t.now, Queued);
  }

  lemma PolledStands(t: Tick, st: Store, after: Store, rows: seq<Event>, line: seq<Item>, queue: seq<Item>,
        news: seq<Reading>, a: Action)
    requires t.w.feed.Some? && Polled(st, t.s, t.w, t.w.feed.value, t.now, after, rows, line, queue, news)
    ensures |st.actions| <= |after.actions| && after.actions[..|st.actions|] == st.actions
    ensures a in after.actions[|st.actions|..] ==> StandsFor(a, t, st, after)
  {
    hide Stores, Hour, QueueIsOf, CallsMade, ReadsItems, RowAccounts, ActionsOf, StandsFor, EffectIs, MarksRead, ActionOf;
    assert after.actions[|st.actions|..] == ActionsOf(news, rows, t.w, t.now);
    if a in after.actions[|st.actions|..] {
      ActionsOfAre(news, rows, t.s, t.w, t.now, a);
      var k :| 0 <= k < |news| && news[k].effect == Queued
               && a == ActionOf(ItemOf(rows, news[k].eventId), t.w.interpret(ItemOf(rows, news[k].eventId)), t.now);
      QueuedStands(t, st, after, rows, news, k);
    }
  }

  lemma NewActionStands(st: Store, t: Tick, a: Action)
    ensures var after := After(st, t);
            && |st.actions| <= |after.actions| && after.actions[..|st.actions|] == st.actions
            && (a in after.actions[|st.actions|..] ==> StandsFor(a, t, st, after))
  {
    hide Polled, After, Polls, StandsFor;
    var after := After(st, t);
    WakeUpIs(st, t);
    if Polls(st, t) && t.w.hasKey && t.w.feed.Some? {
      var rows: seq<Event>, line: seq<Item>, queue: seq<Item>, news: seq<Reading> :|
        Polled(st, t.s, t.w, t.w.feed.value, t.now, after, rows, line, queue, news);
      PolledStands(t, st, after, rows, line, queue, news, a);
    } else {
      assert after.actions == st.actions && after.actions[|st.actions|..] == [];
    }
  }

  /** Over every sequence of wake-ups, each action queued stands for a reading of its own wake-up. */
  lemma {:induction false} EveryActionStands(st: Store, ticks: seq<Tick>, k: nat)
    requires |st.actions| <= k < |RunAll(st, ticks).actions|
    ensures exists j :: 0 <= j < |ticks|
              && StandsFor(RunAll(st, ticks).actions[k], ticks[j], RunAll(st, ticks[..j]), RunAll(st, ticks[..j + 1]))
  {
    hide After, StandsFor;
    if ticks != [] {
      var n := |ticks| - 1;
      var before, after := RunAll(st, ticks[..n]), RunAll(st, ticks);
      NewActionStands(before, ticks[n], after.actions[k]);
      assert ticks[..n + 1] == ticks;
      if k < |before.actions| {
        assert after.actions[k] == before.actions[k];
        EveryActionStands(st, ticks[..n], k);
        var j :| 0 <= j < n && StandsFor(before.actions[k], ticks[..n][j], RunAll(st, ticks[..n][..j]),
                                         RunAll(st, ticks[..n][..j + 1]));
        assert ticks[..n][..j] == ticks[..j] && ticks[..n][..j + 1] == ticks[..j + 1];
      } else {
        assert after.actions[|before.actions|..][k - |before.actions|] == after.actions[k];
      }
    }
  }
}
