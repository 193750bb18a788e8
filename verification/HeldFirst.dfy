/** When a poll reads held names first, said on the tables, the feed and the settings. */
module HeldFirst {
  import opened Text
  import opened Sorting
  import opened Actions
  import opened AdaptiveStore
  import opened AdaptivePoll
  import opened AdaptiveGuarantees
  import opened AdaptiveOrder

  // ----- Counting held items ----------------------------------------------------------------------

  function HeldOf(items: seq<Item>): set<Item> { set x | x in items && x.held }

  lemma {:induction false} HeldOfDistinct(items: seq<Item>)
    requires DistinctIds(items)
    ensures |HeldOf(items)| == HeldCount(items)
  {
    if items != [] {
      var front, last := items[..|items| - 1], items[|items| - 1];
      assert items == front + [last];
      NotAmong(front, last);
      HeldOfDistinct(front);
      assert HeldOf(items) == HeldOf(front) + if last.held then {last} else {};
    }
  }

  lemma {:induction false} AllHeld(items: seq<Item>)
    ensures HeldCount(items) == |items| <==> forall x :: x in items ==> x.held
  {
    if items != [] {
      var front, last := items[..|items| - 1], items[|items| - 1];
      assert items == front + [last];
      AllHeld(front);
    }
  }

  // ----- The window in the order it is served ---------------------------------------------------------

  /** `line` is the unread rows of the window as the backlog query serves them: held rows first, and
      of the held rows those of this poll's feed first. */
  ghost predicate Line(line: seq<Item>, events: seq<Event>, base: nat, now: int) {
    && DistinctIds(line) && HeldLead(line)
    && (forall x :: x in line <==> Unread(x, events) && x.ts >= now - PENDING_MAX_AGE)
    && forall i, j :: 0 <= i < j < HeldCount(line) && line[j].id > base ==> line[i].id > base
  }

  predicate PastAndNew(events: seq<Event>, base: nat, now: int) {
    forall i :: 0 <= i < |events| ==> if i < base then events[i].ts <= now else events[i].ts == now
  }

  lemma ServedLine(events: seq<Event>, base: nat, now: int) returns (line: seq<Item>)
    requires base <= |events| && PastAndNew(events, base, now)
    ensures Line(line, events, base, now)
    ensures HeldCount(line) == HeldCount(PendingRows(events, |events|, now - PENDING_MAX_AGE))
    ensures PendingMaterial(events, now - PENDING_MAX_AGE) == if |line| > PENDING_LIMIT then line[..PENDING_LIMIT] else line
  {
    hide Unread, PendingRows, Sort, ServedFirst, PastAndNew, HeldLead;
    var rows := PendingRows(events, |events|, now - PENDING_MAX_AGE);
    line := Sort(ServedFirst, rows);
    PendingRowsOf(events, now - PENDING_MAX_AGE);
    ServedFirstIsTotal();
    SortSorts(ServedFirst, rows);
    SortPermutes(ServedFirst, rows);
    SortKeepsDistinct(ServedFirst, rows);
    SortedLeads(line);
    HeldAreFirst(line);
    HeldOfDistinct(rows);
    HeldOfDistinct(line);
    assert HeldOf(rows) == HeldOf(line);
    forall i, j | 0 <= i < j < HeldCount(line) && line[j].id > base
      ensures line[i].id > base
    {
      assert ServedFirst(line[i], line[j]) && line[i] in line && line[j] in line;
      NewAheadOfOld(events, base, now, line[i], line[j]);
    }
  }

  lemma NewAheadOfOld(events: seq<Event>, base: nat, now: int, x: Item, y: Item)
    requires PastAndNew(events, base, now) && Unread(x, events) && Unread(y, events)
    requires ServedFirst(x, y) && x.held && y.held && y.id > base
    ensures x.id > base
  {
    UnreadMeans(x, events);
    UnreadMeans(y, events);
  }

  /** The new ones among the first `w` of the line are the first ones. */
  lemma Boundary(line: seq<Item>, base: nat, w: nat) returns (m: nat)
    requires w <= |line| && forall i, j :: 0 <= i < j < w && line[j].id > base ==> line[i].id > base
    ensures m <= w && forall i :: 0 <= i < w ==> (line[i].id > base <==> i < m)
  {
    m := 0;
    while m < w && line[m].id > base
      invariant m <= w && forall i :: 0 <= i < m ==> line[i].id > base
    {
      m := m + 1;
    }
  }

  /** New held items are the first held ones of the line. */
  lemma NewHeldLead(line: seq<Item>, latest: seq<Item>, events: seq<Event>, base: nat, now: int, m: nat)
    requires base <= |events| && PastAndNew(events, base, now) && Line(line, events, base, now)
    requires Listed(latest, events, base) && (forall x :: x in latest ==> Unread(x, events) && x.ts == now)
    requires m <= HeldCount(line) && forall i :: 0 <= i < HeldCount(line) ==> (line[i].id > base <==> i < m)
    ensures HeldCount(latest) == m && forall i :: 0 <= i < HeldCount(line) ==> (line[i] in latest <==> i < m)
  {
    hide Unread, PastAndNew;
    HeldAreFirst(line);
    var front := line[..m];
    forall x
      ensures x in front <==> x in latest && x.held
    {
      if x in latest && x.held {
        assert x in line;
        var i :| 0 <= i < |line| && line[i] == x;
        InPrefix(line, m, x, i);
      }
      if x in front {
        var i :| 0 <= i < m && front[i] == x;
        assert line[i] == x && x in line;
        NewIsLatest(latest, events, base, x);
      }
    }
    assert SetOf(front) == HeldOf(latest);
    SetOfDistinct(front);
    HeldOfDistinct(latest);
    forall i | 0 <= i < HeldCount(line)
      ensures line[i] in latest <==> i < m
    {
      if i < m { InPrefix(line, m, line[i], i); }
    }
  }

  lemma NewIsLatest(latest: seq<Item>, events: seq<Event>, base: nat, x: Item)
    requires base <= |events| && Listed(latest, events, base) && Unread(x, events) && x.id > base
    ensures x in latest
  {
    UnreadMeans(x, events);
    assert HasId(latest, x.id);
  }

  // ----- Which held events the queue holds ------------------------------------------------------------

  /** The queue holds the first held rows of the line, up to the backlog's limit or all the new ones. */
  lemma QueueHolds(line: seq<Item>, latest: seq<Item>, queue: seq<Item>, w: nat, m: nat)
    requires DistinctIds(line) && DistinctIds(queue) && HeldLead(line) && w == HeldCount(line) && m <= w
    requires forall x :: x in queue <==> x in latest || x in if |line| > PENDING_LIMIT then line[..PENDING_LIMIT] else line
    requires forall x :: x in latest && x.held ==> x in line
    requires forall i :: 0 <= i < w ==> (line[i] in latest <==> i < m)
    ensures var reach := MaxNat(PENDING_LIMIT, m);
            && (forall i :: 0 <= i < w ==> (line[i] in queue <==> i < reach))
            && (w > reach ==> HeldCount(queue) == reach)
            && (w > PENDING_LIMIT ==> forall x :: x in queue && !x.held ==> x in latest)
  {
    HeldAreFirst(line);
    var reach := MaxNat(PENDING_LIMIT, m);
    var top := if |line| > PENDING_LIMIT then line[..PENDING_LIMIT] else line;
    forall i | 0 <= i < w
      ensures line[i] in queue <==> i < reach
    {
      if i < PENDING_LIMIT && |line| > PENDING_LIMIT { InPrefix(line, PENDING_LIMIT, line[i], i); }
      if line[i] in top {
        var j :| 0 <= j < |top| && top[j] == line[i];
        assert line[j] == line[i] && j == i;
      }
    }
    if w > reach {
      var front := line[..reach];
      forall x
        ensures x in front <==> x in queue && x.held
      {
        if x in queue && x.held {
          assert x in line;
          var i :| 0 <= i < |line| && line[i] == x;
          InPrefix(line, reach, x, i);
        }
        if x in front {
          var i :| 0 <= i < reach && front[i] == x;
          assert line[i] == x;
        }
      }
      assert SetOf(front) == HeldOf(queue);
      SetOfDistinct(front);
      HeldOfDistinct(queue);
    }
  }

  /** The unread held events of the window. */
  function Waiting(events: seq<Event>, now: int): nat {
    HeldCount(PendingRows(events, |events|, now - PENDING_MAX_AGE))
  }

  /** How many held events a poll can be offered: the backlog's limit, or all the new ones. */
  function Reach(latest: seq<Item>): nat { MaxNat(PENDING_LIMIT, HeldCount(latest)) }

  function CallsAllowed(st: Store, s: Settings, now: int): nat { Allowed(s, ReadingsOn(st.readings, DayOf(now))) }

  /** With a clock that has not gone back, a poll reads held names first exactly when no more held
      events wait than it can be offered, or it may make no more calls than that, or its feed brought
      no material event of a name not held. */
  lemma HeldComeFirstIff(st: Store, s: Settings, articles: seq<Article>, now: int)
    requires forall i :: 0 <= i < |st.events| ==> st.events[i].ts <= now
    ensures var r := RecordAll(st.events, articles, now); var queue := QueueOf(r, now);
            HeldComeFirst(r.events, queue, Reads(queue, s, ReadingsOn(st.readings, DayOf(now))), now)
            <==> Waiting(r.events, now) <= Reach(r.latest) || CallsAllowed(st, s, now) <= Reach(r.latest)
                 || forall x :: x in r.latest ==> x.held
  {
    hide RecordAll, QueueOf, HeldComeFirst, Allowed, ReadingsOn, Unread, PendingMaterial, PendingRows, Grown, Listed,
         HeldLead;
    var r := RecordAll(st.events, articles, now);
    var queue, base := QueueOf(r, now), |st.events|;
    RecordingGrows(st.events, articles, now);
    StaysPast(st.events, r.events, now);
    QueueIs(st.events, r, now);
    LatestAreUnread(st.events, r, now);
    var line := ServedLine(r.events, base, now);
    var m := Boundary(line, base, HeldCount(line));
    NewHeldLead(line, r.latest, r.events, base, now, m);
    QueueHolds(line, r.latest, queue, HeldCount(line), m);
    QueueIsSorted(r, now);
    SortedLeads(queue);
    HeldAreFirst(line);
    UnheldInQueue(queue, r.latest);
    AllWaitingAreQueued(line, queue, r.events, now, Reach(r.latest));
    HeldComeFirstWhen(st.events, r, now, Reads(queue, s, ReadingsOn(st.readings, DayOf(now))));
  }

  lemma StaysPast(before: seq<Event>, events: seq<Event>, now: int)
    requires Grown(before, events, now) && forall i :: 0 <= i < |before| ==> before[i].ts <= now
    ensures |before| <= |events| && PastAndNew(events, |before|, now)
  {
    assert forall i :: 0 <= i < |before| ==> events[..|before|][i] == events[i];
  }

  lemma UnheldInQueue(queue: seq<Item>, latest: seq<Item>)
    requires HeldLead(queue) && forall x :: x in latest ==> x in queue
    ensures (forall x :: x in queue && !x.held ==> x in latest) ==>
              (HeldCount(queue) == |queue| <==> forall x :: x in latest ==> x.held)
  {
    AllHeld(queue);
  }

  lemma AllWaitingAreQueued(line: seq<Item>, queue: seq<Item>, events: seq<Event>, now: int, reach: nat)
    requires forall x :: x in line <==> Unread(x, events) && x.ts >= now - PENDING_MAX_AGE
    requires forall i :: 0 <= i < |line| ==> (line[i].held <==> i < HeldCount(line))
    requires forall i :: 0 <= i < HeldCount(line) ==> (line[i] in queue <==> i < reach)
    ensures (forall x :: HeldWaiting(x, events, now) ==> x in queue) <==> HeldCount(line) <= reach
  {
    hide Unread;
    if HeldCount(line) > reach {
      assert line[reach] in line && HeldWaiting(line[reach], events, now);
    } else {
      forall x | HeldWaiting(x, events, now)
        ensures x in queue
      {
        assert x in line && x.held;
        var i :| 0 <= i < |line| && line[i] == x;
      }
    }
  }

  // ----- On the tables ----------------------------------------------------------------------------

  /** After the poll, an event of a name not held has been read and a held one of the window has not. */
  ghost predicate PassedOver(before: Store, after: Store, now: int) {
    exists i: nat, j: nat :: i < |after.events| && j < |after.events|
      && var x, y := after.events[i], after.events[j];
         && x.held && x.material && !x.escalated && x.ts >= now - PENDING_MAX_AGE && !IsRead(after.readings, i + 1)
         && !y.held && !IsRead(before.readings, j + 1) && IsRead(after.readings, j + 1)
  }

  /** A poll whose queue passes a held event over leaves that in the tables. */
  lemma PassedOverInTables(st: Store, s: Settings, w: World, now: int)
    requires Good(st) && s.feedOn && w.hasKey && w.feed.Some?
    requires var r := RecordAll(st.events, w.feed.value, now); var queue := QueueOf(r, now);
             !HeldComeFirst(r.events, queue, Reads(queue, s, ReadingsOn(st.readings, DayOf(now))), now)
    ensures PassedOver(st, RunOnce(st, s, w, now), now)
  {
    hide RecordAll, QueueOf, Reads, ReadFeed, PollRow, Grown, Acted, Good, Unread, Marked, Appended, PassedOver;
    var articles := w.feed.value;
    var r, items := RecordAll(st.events, articles, now), ItemsRead(st, s, articles, now);
    ReadFeedDoes(st, s, w, articles, now);
    PollKeepsGood(st, s, w, now);
    var x, y :| HeldWaiting(x, r.events, now) && y in items && !y.held && x !in items;
    UnreadBefore(st, r.events, y, now);
    TablesShow(st, r.events, RunOnce(st, s, w, now), items, x, y, now);
  }

  lemma TablesShow(before: Store, events: seq<Event>, after: Store, items: seq<Item>, x: Item, y: Item, now: int)
    requires Good(after) && Marked(events, after.events, items) && Appended(before.readings, after.readings, items, now)
    requires forall z :: z in items ==> Unread(z, events)
    requires HeldWaiting(x, events, now) && x !in items && y in items && !y.held && !IsRead(before.readings, y.id)
    ensures PassedOver(before, after, now)
  {
    hide Unread;
    UnreadMeans(x, events);
    UnreadMeans(y, events);
    if HasId(items, x.id) { SameItem(items, x, events); }
    var k :| 0 <= k < |items| && items[k] == y;
    assert after.readings[|before.readings| + k].eventId == y.id;
    var i: nat, j: nat := x.id - 1, y.id - 1;
    assert after.events[i] == events[i] && after.events[j].held == events[j].held;
    assert !IsRead(after.readings, i + 1) && IsRead(after.readings, j + 1);
  }

  lemma SameItem(items: seq<Item>, x: Item, events: seq<Event>)
    requires HasId(items, x.id) && Unread(x, events) && forall z :: z in items ==> Unread(z, events)
    ensures x in items
  {
    var k :| 0 <= k < |items| && items[k].id == x.id;
    assert items[k] in items;
  }

  lemma UnreadBefore(st: Store, events: seq<Event>, y: Item, now: int)
    requires Good(st) && Grown(st.events, events, now) && Unread(y, events)
    ensures !IsRead(st.readings, y.id)
  {
    UnreadMeans(y, events);
    if y.id <= |st.events| { assert events[..|st.events|][y.id - 1] == st.events[y.id - 1]; }
  }

  // ----- Two polls that pass a held name over --------------------------------------------------------

  const HELD_NEWS := Article("H", true, "", true)
  const OTHER_NEWS := Article("U", false, "", true)

  /** Fifty-one items of news on a held name, and no calls allowed. */
  const QUIET := Tick(Settings(true, 100, 0, 0.0, 0.0, false, false, 10, 60), News(Flood(PENDING_LIMIT + 1)), 0, false)
  /** A minute later, one item on another name, and a hundred calls allowed. */
  const LOUD := Tick(Settings(true, 100, 100, 0.0, 0.0, false, false, 10, 60), News([OTHER_NEWS]), 60, false)

  function News(articles: seq<Article>): World {
    World(true, ["H"], ["U"], Some(articles), _ => Interp(0.0, 0.0, "none"), _ => false, _ => false)
  }

  function Flood(n: nat): seq<Article> { seq(n, _ => HELD_NEWS) }
  function FloodRows(n: nat): seq<Event> { seq(n, _ => EventOf(HELD_NEWS, 0)) }

  lemma {:induction false} FloodIsStored(n: nat)
    ensures RecordAll([], Flood(n), 0).events == FloodRows(n)
  {
    if n > 0 {
      FloodIsStored(n - 1);
      assert Flood(n)[..n - 1] == Flood(n - 1);
      assert FloodRows(n) == FloodRows(n - 1) + [EventOf(HELD_NEWS, 0)];
    }
  }

  const NOTHING := Store([], [], [], [])

  lemma QuietPollReadsNothing()
    ensures var st := After(NOTHING, QUIET);
            st.events == FloodRows(PENDING_LIMIT + 1) && st.readings == [] && |st.polls| == 1 && st.polls[0].ts == 0
            && forall i :: 0 <= i < |st.events| ==> st.events[i].ts <= 60
  {
    hide RecordAll, QueueOf;
    FloodIsStored(PENDING_LIMIT + 1);
    PollLeavesOneRow(NOTHING, QUIET.s, QUIET.w, 0);
    assert Reads(QueueOf(RecordAll([], Flood(PENDING_LIMIT + 1), 0), 0), QUIET.s, 0) == 0;
  }

  lemma LoudFeed(r: Recorded)
    requires r == RecordAll(FloodRows(PENDING_LIMIT + 1), [OTHER_NEWS], 60)
    ensures r.events == FloodRows(PENDING_LIMIT + 1) + [EventOf(OTHER_NEWS, 60)]
    ensures r.latest == [Item(PENDING_LIMIT + 2, 60, "U", false)]
  {
    assert [OTHER_NEWS][..0] == [];
    assert RecordAll(FloodRows(PENDING_LIMIT + 1), [], 60) == Recorded(FloodRows(PENDING_LIMIT + 1), [], 0);
  }

  lemma {:induction false} FloodWaits(events: seq<Event>, n: nat)
    requires n <= |events| && events[..n] == FloodRows(n)
    ensures HeldCount(PendingRows(events, n, 60 - PENDING_MAX_AGE)) == n
  {
    if n > 0 {
      assert events[..n][..n - 1] == events[..n - 1] && FloodRows(n)[..n - 1] == FloodRows(n - 1);
      assert events[..n][n - 1] == events[n - 1];
      FloodWaits(events, n - 1);
      var rows := PendingRows(events, n, 60 - PENDING_MAX_AGE);
      assert rows[..|rows| - 1] == PendingRows(events, n - 1, 60 - PENDING_MAX_AGE);
    }
  }

  lemma LoudCounts(r: Recorded)
    requires r.events == FloodRows(PENDING_LIMIT + 1) + [EventOf(OTHER_NEWS, 60)]
    requires r.latest == [Item(PENDING_LIMIT + 2, 60, "U", false)]
    ensures Waiting(r.events, 60) == PENDING_LIMIT + 1 && Reach(r.latest) == PENDING_LIMIT
  {
    var n := PENDING_LIMIT + 1;
    assert r.events[..n] == FloodRows(n);
    FloodWaits(r.events, n);
    var front, rows := PendingRows(r.events, n, 60 - PENDING_MAX_AGE), PendingRows(r.events, n + 1, 60 - PENDING_MAX_AGE);
    assert rows == front + [ItemOf(r.events, n + 1)] && rows[..|rows| - 1] == front;
    assert r.latest[..0] == [];
  }

  /** From empty tables two polls by the cadence, a minute apart, read an event of a name not held and
      pass over one of a held name. */
  lemma HeldLeftForUnheld()
    ensures var first := After(NOTHING, QUIET); PassedOver(first, After(first, LOUD), 60)
  {
    hide RecordAll, QueueOf, Reads, RunOnce, HeldComeFirst, PassedOver, Good, FloodRows, Waiting, Reach;
    var first := After(NOTHING, QUIET);
    QuietPollReadsNothing();
    EmptyTablesAreGood();
    EverySequenceIsGood(NOTHING, [QUIET]);
    assert [QUIET][..0] == [] && RunAll(NOTHING, []) == NOTHING && RunAll(NOTHING, [QUIET]) == first;
    var r := RecordAll(first.events, [OTHER_NEWS], 60);
    LoudFeed(r);
    LoudCounts(r);
    HeldComeFirstIff(first, LOUD.s, [OTHER_NEWS], 60);
    PassedOverInTables(first, LOUD.s, LOUD.w, 60);
    assert Due(first.polls, 60, 60);
  }
}
