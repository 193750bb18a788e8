/** The runner as it runs (adaptive/run.py, adaptive/store.py): the tables are updated in place, the
    filter and the reading loop walk their lists. */
module AdaptiveRunner {
  import opened Text
  import opened Sorting
  import opened Actions
  import opened AdaptiveStore
  import opened AdaptivePoll

  class Runner {
    var events: seq<Event>
    var readings: seq<Reading>
    var actions: seq<Action>
    var polls: seq<Poll>

    constructor ()
      ensures Tables() == Store([], [], [], [])
    {
      events, readings, actions, polls := [], [], [], [];
    }

    ghost function Tables(): Store
      reads this
    {
      Store(events, readings, actions, polls)
    }

    /** `record_event`: the new row's id, or nothing for a duplicate. */
    method Record(a: Article, now: int) returns (id: Option<nat>)
      modifies this`events
      ensures (events, id) == AdaptiveStore.RecordEvent(old(events), EventOf(a, now))
    {
      var e := EventOf(a, now);
      if Known(events, e.dedupe) {
        return None;
      }
      events := events + [e];
      id := Some(|events|);
    }

    /** `llm_calls_today`. */
    method CallsOn(day: int) returns (n: nat)
      ensures n == ReadingsOn(readings, day)
    {
      n := 0;
      for i := 0 to |readings|
        invariant n == ReadingsOn(readings[..i], day)
      {
        assert readings[..i + 1][..i] == readings[..i];
        if DayOf(readings[i].ts) == day {
          n := n + 1;
        }
      }
      assert readings[..|readings|] == readings;
    }

    /** The free filter: store every article, keep the new material ones. */
    method RecordFeed(articles: seq<Article>, now: int) returns (latest: seq<Item>, added: nat)
      modifies this`events
      ensures Recorded(events, latest, added) == RecordAll(old(events), articles, now)
    {
      hide Known;
      latest, added := [], 0;
      for i := 0 to |articles|
        invariant Recorded(events, latest, added) == RecordAll(old(events), articles[..i], now)
      {
        assert articles[..i + 1][..i] == articles[..i];
        var a := articles[i];
        var id := Record(a, now);
        if id.None? {
          continue;
        }
        added := added + 1;
        if a.material {
          latest := latest + [Item(id.value, now, a.symbol, a.held)];
        }
      }
      assert articles[..|articles|] == articles;
    }

    /** The new events and the backlog, held names first. */
    method BuildQueue(latest: seq<Item>, added: nat, now: int) returns (queue: seq<Item>)
      ensures queue == QueueOf(Recorded(events, latest, added), now)
    {
      hide Sort, HasId;
      var pending := PendingMaterial(events, now - PENDING_MAX_AGE);
      var scored := latest;
      for i := 0 to |pending|
        invariant scored == latest + Others(pending[..i], latest)
      {
        assert pending[..i + 1][..i] == pending[..i];
        if !HasId(latest, pending[i].id) {
          scored := scored + [pending[i]];
        }
      }
      assert pending[..|pending|] == pending;
      queue := Sort(HeldFirst, scored);
    }

    /** One paid call: mark the event, route what the model says, record it. */
    method Read(x: Item, s: Settings, w: World, now: int, queued: nat, referred: nat)
      returns (nowQueued: nat, nowReferred: nat)
      requires 1 <= x.id <= |events|
      modifies this`events, this`readings, this`actions
      ensures Progress(events, readings, actions, nowQueued, nowReferred)
           == ReadOne(Progress(old(events), old(readings), old(actions), queued, referred), x, s, w, now)
    {
      hide RouteOf;
      nowQueued, nowReferred := queued, referred;
      var interp := w.interpret(x);
      events := MarkEscalated(events, x.id);
      if interp.relevance < s.minRelevance {
        readings := readings + [Reading(x.id, now, Nothing)];
        return;
      }
      var routed := RouteOf(x.symbol, interp.action, interp.severity, s.minSeverity, s.defensiveOn, s.shapingOn,
        x.id, now);
      var effect := Nothing;
      match routed {
        case Raised =>
        case Returned(Dropped(_)) =>
        case Returned(Refer(symbol)) =>
          if w.refers(symbol) {
            effect := Referred;
            nowReferred := referred + 1;
          }
        case Returned(Prune(symbol)) =>
          if symbol != "" && w.prunes(symbol) {
            effect := Pruned;
          }
        case Returned(Queue(action)) =>
          actions := actions + [action];
          effect := Queued;
          nowQueued := queued + 1;
      }
      readings := readings + [Reading(x.id, now, effect)];
    }

    /** The reading loop: it stops at the per-poll cap, then at the day's budget. */
    method ReadQueue(queue: seq<Item>, s: Settings, w: World, now: int, used: nat)
      returns (calls: nat, queued: nat, referred: nat, status: Status)
      requires IdsWithin(queue, |events|)
      modifies this`events, this`readings, this`actions
      ensures calls == Reads(queue, s, used) && status == StatusAfter(queue, s, used)
      ensures Progress(events, readings, actions, queued, referred)
           == ReadAll(Progress(old(events), old(readings), old(actions), 0, 0), queue[..calls], s, w, now)
    {
      hide ReadOne;
      calls, queued, referred, status := 0, 0, 0, Fine;
      while calls < |queue|
        invariant calls <= |queue| && (calls > 0 ==> calls <= s.perPoll && calls <= s.budget - used) && status == Fine
        invariant |events| == |old(events)|
        invariant Progress(events, readings, actions, queued, referred)
               == ReadAll(Progress(old(events), old(readings), old(actions), 0, 0), queue[..calls], s, w, now)
      {
        if calls >= s.perPoll {
          status := CapReached;
          break;
        }
        if used + calls >= s.budget {
          status := BudgetSpent;
          break;
        }
        assert queue[..calls + 1][..calls] == queue[..calls];
        queued, referred := Read(queue[calls], s, w, now, queued, referred);
        calls := calls + 1;
      }
    }

    method NotePoll(p: Poll)
      modifies this`polls
      ensures polls == old(polls) + [p]
    {
      polls := polls + [p];
    }

    /** `run_once`. */
    method RunOnce(s: Settings, w: World, now: int)
      modifies this
      ensures Tables() == AdaptivePoll.RunOnce(old(Tables()), s, w, now)
    {
      hide QueueOf, RecordAll, ReadAll, ReadingsOn, PollTargets, StatusAfter, Reads;
      if !s.feedOn {
        return;
      }
      var used := CallsOn(DayOf(now));
      if !w.hasKey {
        NotePoll(Poll(now, 0, 0, 0, 0, 0, 0, 0, NonNegative(s.budget - used), NoKey));
        return;
      }
      var targets := PollTargets(w.held, w.watch, s.maxSymbols);
      if w.feed.None? {
        NotePoll(Poll(now, |targets|, 0, 0, 0, 0, 0, 0, NonNegative(s.budget - used), FeedError));
        return;
      }
      var articles := w.feed.value;
      ghost var before := events;
      var latest, added := RecordFeed(articles, now);
      QueueIdsWithin(before, articles, now);
      var queue := BuildQueue(latest, added, now);
      var calls, queued, referred, status := ReadQueue(queue, s, w, now, used);
      NotePoll(Poll(now, |targets|, |articles|, added, |latest|, calls, queued, referred,
            NonNegative(s.budget - used - calls), status));
    }

    /** `run_due`. */
    method RunDue(s: Settings, w: World, now: int)
      modifies this
      ensures Tables() == AdaptivePoll.RunDue(old(Tables()), s, w, now)
    {
      hide AdaptivePoll.RunOnce, LastPoll;
      if !s.feedOn {
        return;
      }
      if !Due(polls, s.interval, now) {
        return;
      }
      RunOnce(s, w, now);
    }
  }
}
