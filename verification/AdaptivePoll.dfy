/** One poll of the adaptive layer (adaptive/run.py, `run_once`): record what the feed brings, queue
    the material events with the backlog, read as many as the cap and the budget allow. */
module AdaptivePoll {
  import opened Text
  import opened Sorting
  import opened Actions
  import opened AdaptiveStore

  datatype Settings = Settings(feedOn: bool, budget: int, perPoll: int, minSeverity: real, minRelevance: real,
    defensiveOn: bool, shapingOn: bool, maxSymbols: int, interval: int)

  datatype Interp = Interp(relevance: real, severity: real, action: string)

  /** What a poll meets outside: whether a key resolves, the names to ask about, what the feed brings
      (nothing when it fails), how the model reads an event, and what the watchlist accepts. */
  datatype World = World(hasKey: bool, held: seq<string>, watch: seq<string>, feed: Option<seq<Article>>,
    interpret: Item -> Interp, refers: string -> bool, prunes: string -> bool)

  function NonNegative(n: int): nat { if n > 0 then n else 0 }

  // ----- Recording -----------------------------------------------------------------------------

  /** The event table, the material events added, and how many were added at all. */
  datatype Recorded = Recorded(events: seq<Event>, latest: seq<Item>, added: nat)

  function RecordOne(r: Recorded, a: Article, now: int): Recorded {
    var e := EventOf(a, now);
    if Known(r.events, e.dedupe) then r
    else
      var latest := if a.material then r.latest + [Item(|r.events| + 1, now, a.symbol, a.held)] else r.latest;
      Recorded(r.events + [e], latest, r.added + 1)
  }

  function RecordAll(events: seq<Event>, articles: seq<Article>, now: int): Recorded {
    if articles == [] then Recorded(events, [], 0)
    else RecordOne(RecordAll(events, articles[..|articles| - 1], now), articles[|articles| - 1], now)
  }

  // ----- The queue -------------------------------------------------------------------------------

  predicate HasId(items: seq<Item>, id: nat) { exists i :: 0 <= i < |items| && items[i].id == id }

  function Others(items: seq<Item>, latest: seq<Item>): seq<Item> {
    if items == [] then []
    else
      var n := |items| - 1;
      Others(items[..n], latest) + if HasId(latest, items[n].id) then [] else [items[n]]
  }

  /** The key `(not held, symbol)`. */
  predicate HeldFirst(a: Item, b: Item) {
    if a.held != b.held then a.held else AtMost(a.symbol, b.symbol)
  }

  function QueueOf(r: Recorded, now: int): seq<Item> {
    Sort(HeldFirst, r.latest + Others(PendingMaterial(r.events, now - PENDING_MAX_AGE), r.latest))
  }

  // ----- The reading loop --------------------------------------------------------------------------

  datatype Progress = Progress(events: seq<Event>, readings: seq<Reading>, actions: seq<Action>,
                               queued: nat, referred: nat)

  /** What one interpretation causes: at most one effect, and the action it queues. A routing error
      costs the event, not the poll. */
  function Caused(item: Item, i: Interp, s: Settings, w: World, now: int): (Effect, Option<Action>) {
    if i.relevance < s.minRelevance then (Nothing, None)
    else
      match RouteOf(item.symbol, i.action, i.severity, s.minSeverity, s.defensiveOn, s.shapingOn, item.id, now)
      case Raised => (Nothing, None)
      case Returned(Dropped(_)) => (Nothing, None)
      case Returned(Refer(symbol)) => (if w.refers(symbol) then Referred else Nothing, None)
      case Returned(Prune(symbol)) => (if symbol != "" && w.prunes(symbol) then Pruned else Nothing, None)
      case Returned(Queue(a)) => (Queued, Some(a))
  }

  function ReadOne(p: Progress, item: Item, s: Settings, w: World, now: int): (r: Progress)
    requires 1 <= item.id <= |p.events|
    ensures |r.events| == |p.events|
  {
    var (effect, action) := Caused(item, w.interpret(item), s, w, now);
    Progress(MarkEscalated(p.events, item.id), p.readings + [Reading(item.id, now, effect)],
      match action case Some(a) => p.actions + [a] case None => p.actions,
      if effect == Queued then p.queued + 1 else p.queued, if effect == Referred then p.referred + 1 else p.referred)
  }

  predicate IdsWithin(items: seq<Item>, n: nat) { forall i :: 0 <= i < |items| ==> 1 <= items[i].id <= n }

  function ReadAll(p: Progress, items: seq<Item>, s: Settings, w: World, now: int): (r: Progress)
    requires IdsWithin(items, |p.events|)
    ensures |r.events| == |p.events|
  {
    if items == [] then p
    else
      var n := |items| - 1;
      ReadOne(ReadAll(p, items[..n], s, w, now), items[n], s, w, now)
  }

  /** How many calls the cap and what is left of the day's budget allow. */
  function Allowed(s: Settings, used: nat): nat {
    NonNegative(if s.perPoll < s.budget - used then s.perPoll else s.budget - used)
  }

  function Reads(queue: seq<Item>, s: Settings, used: nat): (n: nat)
    ensures n <= |queue|
  {
    if Allowed(s, used) < |queue| then Allowed(s, used) else |queue|
  }

  function StatusAfter(queue: seq<Item>, s: Settings, used: nat): Status {
    var n := Reads(queue, s, used);
    if n == |queue| then Fine else if n >= s.perPoll then CapReached else BudgetSpent
  }

  // ----- The poll --------------------------------------------------------------------------------------

  function Failed(store: Store, s: Settings, now: int, symbols: nat, status: Status): Store {
    store.(polls := store.polls
      + [Poll(now, symbols, 0, 0, 0, 0, 0, 0, NonNegative(s.budget - ReadingsOn(store.readings, DayOf(now))), status)])
  }

  function Symbols(s: Settings, w: World): nat { |PollTargets(w.held, w.watch, s.maxSymbols)| }

  // ----- What recording does ------------------------------------------------------------------------

  /** New rows follow the old ones, dated now and unread. */
  ghost predicate Grown(before: seq<Event>, events: seq<Event>, now: int) {
    && |before| <= |events| && events[..|before|] == before
    && forall i :: |before| <= i < |events| ==> events[i].ts == now && !events[i].escalated
  }

  /** Items of material rows past `base`, in the order of their ids. */
  ghost predicate ListsRows(latest: seq<Item>, events: seq<Event>, base: nat) {
    && (forall k :: 0 <= k < |latest| ==> base < latest[k].id <= |events| && latest[k] == ItemOf(events, latest[k].id)
                                          && events[latest[k].id - 1].material)
    && (forall j, k :: 0 <= j < k < |latest| ==> latest[j].id < latest[k].id)
  }

  /** All the material rows past `base` are among the items. */
  ghost predicate ListsAll(latest: seq<Item>, events: seq<Event>, base: nat) {
    forall i :: base <= i < |events| && events[i].material ==> HasId(latest, i + 1)
  }

  /** The list holds the material rows past `base`, each once, in the order of their ids. */
  ghost predicate Listed(latest: seq<Item>, events: seq<Event>, base: nat) {
    ListsRows(latest, events, base) && ListsAll(latest, events, base)
  }

  lemma ListsAllStep(latest: seq<Item>, events: seq<Event>, base: nat, e: Event, x: Item)
    requires base <= |events| && ListsAll(latest, events, base) && x.id == |events| + 1
    ensures ListsAll(if e.material then latest + [x] else latest, events + [e], base)
  {
    var all := events + [e];
    var next := if e.material then latest + [x] else latest;
    forall i | base <= i < |all| && all[i].material
      ensures HasId(next, i + 1)
    {
      if i < |events| {
        assert HasId(latest, i + 1);
        var k :| 0 <= k < |latest| && latest[k].id == i + 1;
        assert next[k].id == i + 1;
      } else {
        assert next[|latest|].id == i + 1;
      }
    }
  }

  lemma ListsRowsStep(latest: seq<Item>, events: seq<Event>, base: nat, e: Event)
    requires base <= |events| && ListsRows(latest, events, base)
    ensures ListsRows(latest, events + [e], base)
    ensures e.material ==> ListsRows(latest + [ItemOf(events + [e], |events| + 1)], events + [e], base)
  {
    assert forall i :: 0 <= i < |events| ==> (events + [e])[i] == events[i];
  }

  lemma ListedStep(latest: seq<Item>, events: seq<Event>, base: nat, e: Event)
    requires base <= |events| && Listed(latest, events, base)
    ensures Listed(if e.material then latest + [ItemOf(events + [e], |events| + 1)] else latest, events + [e], base)
  {
    hide ListsRows, ListsAll;
    ListsRowsStep(latest, events, base, e);
    ListsAllStep(latest, events, base, e, ItemOf(events + [e], |events| + 1));
  }

  lemma {:induction false} RecordingGrows(events: seq<Event>, articles: seq<Article>, now: int)
    ensures var r := RecordAll(events, articles, now);
            Grown(events, r.events, now) && Listed(r.latest, r.events, |events|)
  {
    hide Known, Listed;
    if articles == [] {
      NothingListed(events);
    } else {
      var n := |articles| - 1;
      var r := RecordAll(events, articles[..n], now);
      RecordingGrows(events, articles[..n], now);
      ListedStep(r.latest, r.events, |events|, EventOf(articles[n], now));
    }
  }

  lemma NothingListed(events: seq<Event>)
    ensures Listed([], events, |events|)
  {}

  // ----- The queue is made of unread material events, each once -----------------------------------------

  predicate DistinctIds(items: seq<Item>) { forall j, k :: 0 <= j < k < |items| ==> items[j].id != items[k].id }

  /** An item that stands for an unread material row. */
  predicate Unread(item: Item, events: seq<Event>) {
    && 1 <= item.id <= |events| && item == ItemOf(events, item.id)
    && events[item.id - 1].material && !events[item.id - 1].escalated
  }

  /** Unread rows of the window among the first `n`, in the order of their ids. */
  ghost predicate RowsOf(rows: seq<Item>, events: seq<Event>, n: nat, cutoff: int) {
    && (forall k :: 0 <= k < |rows| ==> rows[k].id <= n && Unread(rows[k], events) && rows[k].ts >= cutoff)
    && (forall j, k :: 0 <= j < k < |rows| ==> rows[j].id < rows[k].id)
  }

  lemma RowsStep(rows: seq<Item>, events: seq<Event>, n: nat, cutoff: int)
    requires 0 < n <= |events| && RowsOf(rows, events, n - 1, cutoff)
    ensures RowsOf(rows, events, n, cutoff)
    ensures IsPending(events[n - 1], cutoff) ==> RowsOf(rows + [ItemOf(events, n)], events, n, cutoff)
  {}

  lemma {:induction false} PendingRowsAre(events: seq<Event>, n: nat, cutoff: int)
    requires n <= |events|
    ensures RowsOf(PendingRows(events, n, cutoff), events, n, cutoff)
  {
    hide RowsOf, ItemOf, IsPending;
    if n == 0 {
      NoRows(events, cutoff);
    } else {
      PendingRowsAre(events, n - 1, cutoff);
      RowsStep(PendingRows(events, n - 1, cutoff), events, n, cutoff);
      assert PendingRows(events, n - 1, cutoff) + [] == PendingRows(events, n - 1, cutoff);
    }
  }

  lemma NoRows(events: seq<Event>, cutoff: int)
    ensures RowsOf([], events, 0, cutoff)
  {}

  lemma {:induction false} AllPendingRows(events: seq<Event>, n: nat, cutoff: int, i: nat)
    requires i < n <= |events| && IsPending(events[i], cutoff)
    ensures HasId(PendingRows(events, n, cutoff), i + 1)
  {
    var front, rows := PendingRows(events, n - 1, cutoff), PendingRows(events, n, cutoff);
    if i < n - 1 {
      AllPendingRows(events, n - 1, cutoff, i);
      var k :| 0 <= k < |front| && front[k].id == i + 1;
      assert rows[k].id == i + 1;
    } else {
      assert rows[|front|].id == i + 1;
    }
  }

  lemma {:induction false} InsertKeepsDistinct(leq: (Item, Item) -> bool, x: Item, xs: seq<Item>)
    requires DistinctIds(xs) && !HasId(xs, x.id)
    ensures DistinctIds(Insert(leq, x, xs))
  {
    if xs != [] && !leq(x, xs[0]) {
      var tail := Insert(leq, x, xs[1..]);
      assert !HasId(xs[1..], x.id) by {
        assert forall k :: 0 <= k < |xs[1..]| ==> xs[1..][k] == xs[k + 1];
      }
      InsertKeepsDistinct(leq, x, xs[1..]);
      InsertPermutes(leq, x, xs[1..]);
      forall k | 0 <= k < |tail|
        ensures tail[k].id != xs[0].id
      {
        assert tail[k] in multiset(tail);
        assert tail[k] == x || tail[k] in xs[1..];
      }
    }
  }

  lemma {:induction false} SortKeepsDistinct(leq: (Item, Item) -> bool, xs: seq<Item>)
    requires DistinctIds(xs)
    ensures DistinctIds(Sort(leq, xs))
  {
    if xs != [] {
      var tail := Sort(leq, xs[1..]);
      SortKeepsDistinct(leq, xs[1..]);
      SortPermutes(leq, xs[1..]);
      forall k | 0 <= k < |tail|
        ensures tail[k].id != xs[0].id
      {
        assert tail[k] in tail;
        var j :| 0 <= j < |xs[1..]| && xs[1..][j] == tail[k];
        assert xs[j + 1] == tail[k];
      }
      InsertKeepsDistinct(leq, xs[0], tail);
    }
  }

  lemma {:induction false} OthersAre(items: seq<Item>, latest: seq<Item>)
    ensures forall x :: x in Others(items, latest) <==> x in items && !HasId(latest, x.id)
  {
    hide HasId;
    if items != [] {
      OthersAre(items[..|items| - 1], latest);
      assert items == items[..|items| - 1] + [items[|items| - 1]];
    }
  }

  lemma NotAmong(front: seq<Item>, x: Item)
    requires DistinctIds(front + [x])
    ensures DistinctIds(front) && forall y :: y in front ==> y.id != x.id
  {
    var all := front + [x];
    assert all[|front|] == x && forall k :: 0 <= k < |front| ==> all[k] == front[k];
  }

  lemma {:induction false} OthersAreDistinct(items: seq<Item>, latest: seq<Item>)
    requires DistinctIds(items)
    ensures DistinctIds(Others(items, latest))
  {
    hide HasId;
    if items != [] {
      var front, last := items[..|items| - 1], items[|items| - 1];
      assert items == front + [last];
      NotAmong(front, last);
      OthersAreDistinct(front, latest);
      OthersAre(front, latest);
      assert forall k :: 0 <= k < |Others(front, latest)| ==> Others(front, latest)[k] in front;
    }
  }

  /** The pending rows: unread rows of the window, each once, and all of them. */
  lemma PendingRowsOf(events: seq<Event>, cutoff: int)
    ensures var rows := PendingRows(events, |events|, cutoff);
            && DistinctIds(rows) && (forall x :: x in rows ==> Unread(x, events) && x.ts >= cutoff)
            && (forall x :: Unread(x, events) && x.ts >= cutoff ==> x in rows)
  {
    var rows := PendingRows(events, |events|, cutoff);
    PendingRowsAre(events, |events|, cutoff);
    assert forall x :: x in rows ==> exists k :: 0 <= k < |rows| && rows[k] == x;
    forall x | Unread(x, events) && x.ts >= cutoff
      ensures x in rows
    {
      AllPendingRows(events, |events|, cutoff, x.id - 1);
      var k :| 0 <= k < |rows| && rows[k].id == x.id;
      assert Unread(rows[k], events);
    }
  }

  /** The backlog: unread rows of the window, each once, at most fifty. */
  lemma PendingMaterialIs(events: seq<Event>, cutoff: int)
    ensures var ps := PendingMaterial(events, cutoff);
            && |ps| <= PENDING_LIMIT && DistinctIds(ps)
            && (forall x :: x in ps ==> Unread(x, events) && x.ts >= cutoff)
  {
    hide ServedFirst, Unread, PendingRows, Sort;
    var rows := PendingRows(events, |events|, cutoff);
    PendingRowsOf(events, cutoff);
    SortKeepsDistinct(ServedFirst, rows);
    SortPermutes(ServedFirst, rows);
  }

  lemma UnreadMeans(x: Item, events: seq<Event>)
    requires Unread(x, events)
    ensures 1 <= x.id <= |events| && x.ts == events[x.id - 1].ts && x.held == events[x.id - 1].held
    ensures events[x.id - 1].material && !events[x.id - 1].escalated
  {}

  /** The queue holds unread material events, each once: all the new ones and the backlog. */
  lemma QueueIs(before: seq<Event>, r: Recorded, now: int)
    requires Grown(before, r.events, now) && Listed(r.latest, r.events, |before|)
    ensures var q := QueueOf(r, now);
            && DistinctIds(q) && IdsWithin(q, |r.events|)
            && (forall x :: x in q ==> Unread(x, r.events))
            && (forall x :: x in q <==> x in r.latest || x in PendingMaterial(r.events, now - PENDING_MAX_AGE))
  {
    hide HeldFirst, PendingMaterial, Listed, Grown, Unread;
    var backlog := PendingMaterial(r.events, now - PENDING_MAX_AGE);
    var others := Others(backlog, r.latest);
    var all := r.latest + others;
    PendingMaterialIs(r.events, now - PENDING_MAX_AGE);
    OthersAre(backlog, r.latest);
    OthersAreDistinct(backlog, r.latest);
    LatestAreUnread(before, r, now);
    SameIdSameItem(r.latest, backlog, r.events);
    forall j, k | 0 <= j < k < |all|
      ensures all[j].id != all[k].id
    {
      if k >= |r.latest| && j < |r.latest| {
        assert others[k - |r.latest|] in others;
        assert r.latest[j].id == all[j].id;
      }
    }
    SortKeepsDistinct(HeldFirst, all);
    SortPermutes(HeldFirst, all);
    forall x | x in all
      ensures Unread(x, r.events)
    {}
    forall k | 0 <= k < |QueueOf(r, now)|
      ensures 1 <= QueueOf(r, now)[k].id <= |r.events|
    {
      assert QueueOf(r, now)[k] in all;
      UnreadMeans(QueueOf(r, now)[k], r.events);
    }
  }

  lemma LatestAreUnread(before: seq<Event>, r: Recorded, now: int)
    requires Grown(before, r.events, now) && Listed(r.latest, r.events, |before|)
    ensures DistinctIds(r.latest) && forall x :: x in r.latest ==> Unread(x, r.events) && x.ts == now
  {}

  lemma SameIdSameItem(latest: seq<Item>, backlog: seq<Item>, events: seq<Event>)
    requires forall x :: x in latest || x in backlog ==> Unread(x, events)
    ensures forall x :: x in backlog && HasId(latest, x.id) ==> x in latest
  {
    forall x | x in backlog && HasId(latest, x.id)
      ensures x in latest
    {
      var k :| 0 <= k < |latest| && latest[k].id == x.id;
      assert latest[k] in latest && Unread(latest[k], events) && Unread(x, events);
    }
  }

  // ----- The whole poll --------------------------------------------------------------------------------

  lemma QueueIdsWithin(events: seq<Event>, articles: seq<Article>, now: int)
    ensures var r := RecordAll(events, articles, now); IdsWithin(QueueOf(r, now), |r.events|)
  {
    RecordingGrows(events, articles, now);
    QueueIs(events, RecordAll(events, articles, now), now);
  }

  /** What a poll that reaches the reading loop makes of the tables. */
  function ReadFeed(store: Store, s: Settings, w: World, articles: seq<Article>, now: int): Progress {
    var r := RecordAll(store.events, articles, now);
    var queue := QueueOf(r, now);
    QueueIdsWithin(store.events, articles, now);
    ReadAll(Progress(r.events, store.readings, store.actions, 0, 0),
      queue[..Reads(queue, s, ReadingsOn(store.readings, DayOf(now)))], s, w, now)
  }

  function PollRow(store: Store, s: Settings, w: World, articles: seq<Article>, now: int): Poll {
    var used := ReadingsOn(store.readings, DayOf(now));
    var r := RecordAll(store.events, articles, now);
    var queue := QueueOf(r, now);
    var n := Reads(queue, s, used);
    var p := ReadFeed(store, s, w, articles, now);
    Poll(now, Symbols(s, w), |articles|, r.added, |r.latest|, n, p.queued, p.referred, NonNegative(s.budget - used - n),
      StatusAfter(queue, s, used))
  }

  function RunOnce(store: Store, s: Settings, w: World, now: int): Store {
    if !s.feedOn then store
    else if !w.hasKey then Failed(store, s, now, 0, NoKey)
    else
      match w.feed
      case None => Failed(store, s, now, Symbols(s, w), FeedError)
      case Some(articles) =>
        var p := ReadFeed(store, s, w, articles, now);
        Store(p.events, p.readings, p.actions, store.polls + [PollRow(store, s, w, articles, now)])
  }

  // ----- The cadence -----------------------------------------------------------------------------------

  /** The time of the last poll: the latest there is. */
  function LastPoll(polls: seq<Poll>): Option<int> {
    if polls == [] then None
    else
      var n := |polls| - 1;
      match LastPoll(polls[..n])
      case None => Some(polls[n].ts)
      case Some(t) => Some(if polls[n].ts > t then polls[n].ts else t)
  }

  predicate Due(polls: seq<Poll>, interval: int, now: int) {
    match LastPoll(polls) case None => true case Some(t) => now - t >= NonNegative(interval)
  }

  function RunDue(store: Store, s: Settings, w: World, now: int): Store {
    if !s.feedOn || !Due(store.polls, s.interval, now) then store else RunOnce(store, s, w, now)
  }
}
