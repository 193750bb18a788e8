/** The adaptive layer's tables and queries (adaptive/store.py) and its poll targets
    (adaptive/news_feed.py). Rows are never deleted, so a row's id is its position plus one. */
module AdaptiveStore {
  import opened Text
  import opened Sorting
  import opened Actions

  const DAY := 86400
  const PENDING_LIMIT := 50
  const PENDING_MAX_AGE := 3600

  function DayOf(ts: int): int { ts / DAY }

  /** One stored event; `dedupe` is nothing for an article without a key. */
  datatype Event = Event(ts: int, symbol: string, held: bool, material: bool, dedupe: Option<string>, escalated: bool)

  datatype Effect = Nothing | Referred | Pruned | Queued

  /** One paid interpretation. */
  datatype Reading = Reading(eventId: nat, ts: int, effect: Effect)

  datatype Status = Fine | CapReached | BudgetSpent | NoKey | FeedError

  datatype Poll = Poll(ts: int, symbols: nat, seen: nat, added: nat, material: nat, calls: nat,
                       queued: nat, referred: nat, budgetLeft: nat, status: Status)

  datatype Store = Store(events: seq<Event>, readings: seq<Reading>, actions: seq<Action>, polls: seq<Poll>)

  // ----- Events ------------------------------------------------------------------------------------

  /** An article of the feed with the free filter's verdict on it; an empty key is no key. */
  datatype Article = Article(symbol: string, held: bool, key: string, material: bool)

  predicate Known(events: seq<Event>, dedupe: Option<string>) {
    dedupe.Some? && exists i :: 0 <= i < |events| && events[i].dedupe == dedupe
  }

  function EventOf(a: Article, now: int): Event {
    Event(now, a.symbol, a.held, a.material, if a.key == "" then None else Some(a.key), false)
  }

  /** `record_event`: an insert that the unique key may ignore. */
  function RecordEvent(events: seq<Event>, e: Event): (seq<Event>, Option<nat>) {
    if Known(events, e.dedupe) then (events, None) else (events + [e], Some(|events| + 1))
  }

  function MarkEscalated(events: seq<Event>, id: nat): (r: seq<Event>)
    requires 1 <= id <= |events|
    ensures |r| == |events|
  {
    events[id - 1 := events[id - 1].(escalated := true)]
  }

  // ----- The backlog ---------------------------------------------------------------------------------

  /** What the reading loop is offered. */
  datatype Item = Item(id: nat, ts: int, symbol: string, held: bool)

  predicate IsPending(e: Event, cutoff: int) { e.material && !e.escalated && e.ts >= cutoff }

  function ItemOf(events: seq<Event>, id: nat): Item
    requires 1 <= id <= |events|
  {
    var e := events[id - 1];
    Item(id, e.ts, e.symbol, e.held)
  }

  /** The pending rows among the first `n`, in the order of their ids. */
  function PendingRows(events: seq<Event>, n: nat, cutoff: int): seq<Item>
    requires n <= |events|
  {
    if n == 0 then []
    else PendingRows(events, n - 1, cutoff) + if IsPending(events[n - 1], cutoff) then [ItemOf(events, n)] else []
  }

  /** ORDER BY held DESC, ts DESC, id DESC. */
  predicate ServedFirst(a: Item, b: Item) {
    if a.held != b.held then a.held
    else if a.ts != b.ts then a.ts > b.ts
    else a.id >= b.id
  }

  function PendingMaterial(events: seq<Event>, cutoff: int): seq<Item> {
    var rows := Sort(ServedFirst, PendingRows(events, |events|, cutoff));
    if |rows| > PENDING_LIMIT then rows[..PENDING_LIMIT] else rows
  }

  // ----- Readings --------------------------------------------------------------------------------------

  /** `llm_calls_today`: the rows of a day. */
  function ReadingsOn(readings: seq<Reading>, day: int): nat {
    if readings == [] then 0
    else
      var n := |readings| - 1;
      ReadingsOn(readings[..n], day) + if DayOf(readings[n].ts) == day then 1 else 0
  }

  // ----- Poll targets ----------------------------------------------------------------------------------

  datatype Target = Target(symbol: string, held: bool)

  function Tagged(symbols: seq<string>, held: bool): (r: seq<Target>)
    ensures |r| == |symbols| && forall i :: 0 <= i < |r| ==> r[i] == Target(symbols[i], held)
  {
    seq(|symbols|, i requires 0 <= i < |symbols| => Target(symbols[i], held))
  }

  function Unheld(watch: seq<string>, held: seq<string>): seq<string> {
    if watch == [] then []
    else
      var n := |watch| - 1;
      Unheld(watch[..n], held) + if watch[n] in held then [] else [watch[n]]
  }

  /** `poll_targets`: held names first, capped. */
  function PollTargets(held: seq<string>, watch: seq<string>, maxSymbols: int): seq<Target> {
    var all := Tagged(held, true) + Tagged(Unheld(watch, held), false);
    if maxSymbols <= 0 then [] else if maxSymbols >= |all| then all else all[..maxSymbols]
  }

  lemma {:induction false} UnheldAre(watch: seq<string>, held: seq<string>, s: string)
    ensures s in Unheld(watch, held) <==> s in watch && s !in held
  {
    if watch != [] {
      var n := |watch| - 1;
      UnheldAre(watch[..n], held, s);
      assert watch == watch[..n] + [watch[n]];
    }
  }

  /** The cap drops a held name only from a list without any watchlist name; the list holds every
      name at most as its kind, and all of them when the cap allows. */
  lemma CapDropsHeldLast(held: seq<string>, watch: seq<string>, maxSymbols: int)
    ensures var out := PollTargets(held, watch, maxSymbols);
            && |out| <= (if maxSymbols > 0 then maxSymbols else 0)
            && (forall t :: t in out ==> if t.held then t.symbol in held else t.symbol in watch && t.symbol !in held)
            && ((exists t :: t in out && !t.held) ==> forall s :: s in held ==> Target(s, true) in out)
            && (|held| + |Unheld(watch, held)| <= maxSymbols ==>
                  forall s :: s in held || s in watch ==> Target(s, s in held) in out)
  {
    var out := PollTargets(held, watch, maxSymbols);
    var unheld := Unheld(watch, held);
    var all := Tagged(held, true) + Tagged(unheld, false);
    forall s ensures s in unheld <==> s in watch && s !in held { UnheldAre(watch, held, s); }
    assert forall i :: 0 <= i < |out| ==> out[i] == all[i];
    if t :| t in out && !t.held {
      assert |out| > |held|;
      forall s | s in held
        ensures Target(s, true) in out
      {
        var i :| 0 <= i < |held| && held[i] == s;
        assert out[i] == Target(s, true);
      }
    }
    if |held| + |unheld| <= maxSymbols {
      assert out == all;
      forall s | s in held || s in watch
        ensures Target(s, s in held) in out
      {
        if s in held {
          var i :| 0 <= i < |held| && held[i] == s;
          assert all[i] == Target(s, true);
        } else {
          var i :| 0 <= i < |unheld| && unheld[i] == s;
          assert all[|held| + i] == Target(s, false);
        }
      }
    }
  }

  /** The watchlist names that are not held, in their order. */
  lemma {:induction false} UnheldInOrder(watch: seq<string>, held: seq<string>) returns (at: seq<nat>)
    ensures |at| == |Unheld(watch, held)| && forall j, k :: 0 <= j < k < |at| ==> at[j] < at[k]
    ensures forall k :: 0 <= k < |at| ==>
              at[k] < |watch| && Unheld(watch, held)[k] == watch[at[k]] && watch[at[k]] !in held
    ensures forall i :: 0 <= i < |watch| && watch[i] !in held ==> i in at
  {
    at := [];
    if watch != [] {
      var n := |watch| - 1;
      var front := UnheldInOrder(watch[..n], held);
      at := front + if watch[n] in held then [] else [n];
      assert forall i :: i in front ==> i in at;
      assert watch[n] !in held ==> at[|front|] == n;
      forall i | 0 <= i < |watch| && watch[i] !in held
        ensures i in at
      {
        if i < n { assert watch[..n][i] == watch[i]; }
      }
    }
  }

  /** The targets are the held names and then the watchlist's others, as many as the cap allows. */
  lemma TargetsAre(held: seq<string>, watch: seq<string>, maxSymbols: int)
    ensures var out, others := PollTargets(held, watch, maxSymbols), Unheld(watch, held);
            && (maxSymbols <= 0 ==> out == [])
            && (0 < maxSymbols ==> |out| == maxSymbols < |held| + |others| || |out| == |held| + |others| <= maxSymbols)
            && forall i :: 0 <= i < |out| ==>
                 out[i] == if i < |held| then Target(held[i], true) else Target(others[i - |held|], false)
  {}
}
