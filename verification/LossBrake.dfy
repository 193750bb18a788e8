/** The loss brake over whole runs (core/backtest_main.cpp): which close sets its release time, how
    long it holds, and exactly when a counter at the cap always has a release time ahead. */
module LossBrake {
  import opened Text
  import opened Tape
  import opened Backtest
  import opened BacktestInvariants

  // ----- The close of a bar ---------------------------------------------------------------------

  /** The trade this bar closes, if it closes one. */
  function TradeAt(env: Env, s: State, r: BarRow): (t: Option<Event>)
    ensures t.Some? ==> t.value.Trade? && t.value.symbol == r.symbol && t.value.exitTs == r.timestamp
  {
    var filled := FillPending(env, StartBar(env, s, r), r);
    if r.symbol !in filled.open then None
    else
      var op := Aged(filled.open[r.symbol]);
      var reason := ExitOf(env, Get(filled.hist, r.symbol, []), r, op);
      if reason == NoExit then None else Some(TradeOf(op, r, reason, BarOf(env, r), filled.book.equity))
  }

  /** The book changes at the start of a bar and by its close, whose trade is emitted. */
  lemma StepSettles(env: Env, s: State, r: BarRow)
    ensures var ready := StartBar(env, s, r).book;
            match TradeAt(env, s, r)
            case None => Step(env, s, r).book == ready
            case Some(t) => Step(env, s, r).book == Settle(env, ready, r.timestamp, t.pnl) && t in Step(env, s, r).output
  {
    hide StartBar, FillPending, Observe, ExitOf, TradeOf, Settle;
    var ready := StartBar(env, s, r);
    var filled := FillPending(env, ready, r);
    FillKeepsTheBook(env, ready, r);
    ObserveKeepsTheBook(env, ManageExit(env, filled, r), r);
    ObserveEmits(env, ManageExit(env, filled, r), r);
    var t := TradeAt(env, s, r);
    if t.Some? {
      var out := ManageExit(env, filled, r).output;
      assert out[|out| - 1] == t.value && Step(env, s, r).output[|out| - 1] == out[|out| - 1];
    }
  }

  lemma ObserveEmits(env: Env, s: State, r: BarRow)
    ensures s.output <= Observe(env, s, r).output
  {
    hide Noted;
  }

  // ----- Where a release time comes from ----------------------------------------------------------

  /** This bar's close is a loss that takes the counter to the cap while no release time is set. */
  predicate Trips(env: Env, s: State, r: BarRow) {
    var t, ready := TradeAt(env, s, r), StartBar(env, s, r).book;
    t.Some? && !(t.value.pnl >= 0.0 || ready.losses + 1 < env.lossCap) && ready.release == 0
  }

  function ReleaseAfter(env: Env, r: BarRow): int { env.epoch(r.timestamp) + env.cooldownMinutes * 60 }

  predicate TripsAt(env: Env, tape: seq<BarRow>, i: int) {
    0 <= i < |tape| && Trips(env, Run(env, tape[..i]), tape[i])
  }

  /** No bar after `i` and before `k` comes at or after the release time. */
  predicate NotReached(env: Env, tape: seq<BarRow>, i: int, k: int, release: int)
    requires k <= |tape|
  {
    release < 0 || forall j :: 0 <= i < j < k ==> env.epoch(tape[j].timestamp) < release
  }

  lemma RunStep(env: Env, tape: seq<BarRow>, i: nat)
    requires i < |tape|
    ensures Run(env, tape[..i + 1]) == Step(env, Run(env, tape[..i]), tape[i])
  {
    assert tape[..i + 1][..i] == tape[..i];
  }

  /** A bar sets a release time exactly when it trips the brake; otherwise it keeps what its start
      left. */
  lemma StepReleases(env: Env, s: State, r: BarRow)
    requires env.lossCap >= 1
    ensures Step(env, s, r).book.release
         == if Trips(env, s, r) then ReleaseAfter(env, r) else StartBar(env, s, r).book.release
  {
    hide StartBar, Step, TradeAt;
    StepSettles(env, s, r);
  }

  predicate SetAt(env: Env, tape: seq<BarRow>, release: int, i: int) {
    TripsAt(env, tape, i) && release == ReleaseAfter(env, tape[i]) && NotReached(env, tape, i, |tape|, release)
  }

  /** In every run a release time was set by a bar whose close lost and reached the cap, and no bar
      since has come at or after it. */
  lemma {:induction false} ReleaseIsTraced(env: Env, tape: seq<BarRow>)
    requires env.lossCap >= 1
    ensures var release := Run(env, tape).book.release; release != 0 ==> exists i :: SetAt(env, tape, release, i)
  {
    hide Step, Trips, StartBar;
    if tape != [] {
      var n := |tape| - 1;
      var front, s, r := tape[..n], Run(env, tape[..n]), tape[n];
      ReleaseIsTraced(env, front);
      StepReleases(env, s, r);
      var release := Run(env, tape).book.release;
      if Trips(env, s, r) {
        assert release != 0 ==> SetAt(env, tape, release, n);
      } else if release != 0 {
        StartReleases(env, s, r);
        var i :| SetAt(env, front, release, i);
        assert front[..i] == tape[..i];
        assert SetAt(env, tape, release, i);
      }
    }
  }

  /** The start of a bar keeps the release time and the counter, or clears both when it is reached. */
  lemma StartReleases(env: Env, s: State, r: BarRow)
    ensures var b := StartBar(env, s, r).book;
            if s.book.release > 0 && env.epoch(r.timestamp) >= s.book.release then b.release == 0 && b.losses == 0
            else b.release == s.book.release && b.losses == s.book.losses
  {}

  /** A trip leaves its losing trade in the output. */
  lemma TripEmitsALoss(env: Env, tape: seq<BarRow>, i: nat) returns (t: Event)
    requires TripsAt(env, tape, i)
    ensures t.Trade? && t.pnl < 0.0 && t.exitTs == tape[i].timestamp && t in Run(env, tape[..i + 1]).output
  {
    hide Step, StartBar, TradeAt;
    var s := Run(env, tape[..i]);
    StepSettles(env, s, tape[i]);
    RunStep(env, tape, i);
    t := TradeAt(env, s, tape[i]).value;
  }

  // ----- How long the brake holds -------------------------------------------------------------------

  /** A release time stays until a bar reaches it; one below zero stays for good. */
  lemma {:induction false} HoldsUntilReached(env: Env, tape: seq<BarRow>, i: nat, k: nat)
    requires env.lossCap >= 1 && i < k <= |tape| && TripsAt(env, tape, i) && ReleaseAfter(env, tape[i]) != 0
    requires NotReached(env, tape, i, k, ReleaseAfter(env, tape[i]))
    ensures Run(env, tape[..k]).book.release == ReleaseAfter(env, tape[i])
    decreases k
  {
    hide Run, Step, StartBar;
    var s, r := Run(env, tape[..k - 1]), tape[k - 1];
    RunStep(env, tape, k - 1);
    StepReleases(env, s, r);
    if k > i + 1 {
      HoldsUntilReached(env, tape, i, k - 1);
      StartReleases(env, s, r);
    }
  }

  /** Every bar after the trip is still judged under its release time exactly while none of them has
      reached it. */
  lemma ReleasedIffReached(env: Env, tape: seq<BarRow>, i: nat)
    requires env.lossCap >= 1 && TripsAt(env, tape, i) && ReleaseAfter(env, tape[i]) != 0
    ensures var release := ReleaseAfter(env, tape[i]);
            (forall j :: i < j < |tape| ==> StartBar(env, Run(env, tape[..j]), tape[j]).book.release == release)
            <==> NotReached(env, tape, i, |tape|, release)
  {
    hide Run, StartBar, Trips;
    var release := ReleaseAfter(env, tape[i]);
    if NotReached(env, tape, i, |tape|, release) {
      forall j | i < j < |tape|
        ensures StartBar(env, Run(env, tape[..j]), tape[j]).book.release == release
      {
        HoldsUntilReached(env, tape, i, j);
        StartReleases(env, Run(env, tape[..j]), tape[j]);
      }
    } else {
      var x := FirstReached(env, tape, i, release);
      FirstReachedIsJudgedAfresh(env, tape, i, x);
    }
  }

  lemma FirstReached(env: Env, tape: seq<BarRow>, i: nat, release: int) returns (x: nat)
    requires i < |tape| && !NotReached(env, tape, i, |tape|, release)
    ensures i < x < |tape| && env.epoch(tape[x].timestamp) >= release >= 0 && NotReached(env, tape, i, x, release)
  {
    x := i + 1;
    while env.epoch(tape[x].timestamp) < release
      invariant i < x < |tape| && NotReached(env, tape, i, x, release)
      invariant exists j :: x <= j < |tape| && env.epoch(tape[j].timestamp) >= release
      decreases |tape| - x
    {
      x := x + 1;
    }
  }

  /** The first bar at or after a positive release time clears the brake: the gate is shown a zero
      counter. */
  lemma FirstReachedIsJudgedAfresh(env: Env, tape: seq<BarRow>, i: nat, x: nat)
    requires env.lossCap >= 1 && i < x < |tape| && TripsAt(env, tape, i) && ReleaseAfter(env, tape[i]) > 0
    requires NotReached(env, tape, i, x, ReleaseAfter(env, tape[i]))
    requires env.epoch(tape[x].timestamp) >= ReleaseAfter(env, tape[i])
    ensures var ready := StartBar(env, Run(env, tape[..x]), tape[x]);
            ready.book.release == 0 && ready.book.losses == 0 && RebuildPortfolio(ready.book, ready.open).losses == 0
  {
    hide Run, RebuildPortfolio, StartBar, Trips;
    HoldsUntilReached(env, tape, i, x);
    StartReleases(env, Run(env, tape[..x]), tape[x]);
    var ready := StartBar(env, Run(env, tape[..x]), tape[x]);
    PortfolioHeader(ready.book, ready.open);
  }

  // ----- What the counter counts ------------------------------------------------------------------------

  lemma FillEmits(env: Env, s: State, r: BarRow) returns (a: seq<Event>)
    ensures Trades(a) == 0 && FillPending(env, s, r).output == s.output + a
  {
    hide EntryOf, Decide;
    a := FillPending(env, s, r).output[|s.output|..];
    OneMore(a);
  }

  lemma ObserveAdds(env: Env, s: State, r: BarRow) returns (c: seq<Event>)
    ensures Trades(c) == 0 && Observe(env, s, r).output == s.output + c
  {
    hide Noted;
    c := Observe(env, s, r).output[|s.output|..];
    OneMore(c);
  }

  /** What a bar emits: perhaps a block, its trade, perhaps a signal or a refusal. */
  lemma StepOutput(env: Env, s: State, r: BarRow) returns (a: seq<Event>, c: seq<Event>)
    ensures Trades(a) == 0 == Trades(c)
    ensures Step(env, s, r).output
         == s.output + a + (match TradeAt(env, s, r) case None => [] case Some(t) => [t]) + c
  {
    hide ExitOf, TradeOf, FillPending, Observe, RollDay, ReleaseBrake, Trades;
    var ready := StartBar(env, s, r);
    a := FillEmits(env, ready, r);
    c := ObserveAdds(env, ManageExit(env, FillPending(env, ready, r), r), r);
    assert s.output + a + [] == s.output + a;
  }

  lemma OneMore(events: seq<Event>)
    requires |events| <= 1 && forall i :: 0 <= i < |events| ==> !events[i].Trade?
    ensures Trades(events) == 0
  {}

  lemma {:induction false} TradesJoin(a: seq<Event>, b: seq<Event>)
    ensures Trades(a + b) == Trades(a) + Trades(b)
  {
    if b == [] {
      assert a + b == a;
    } else {
      var n := |b| - 1;
      assert (a + b)[..|a + b| - 1] == a + b[..n];
      TradesJoin(a, b[..n]);
    }
  }

  predicate ReleasedAt(env: Env, tape: seq<BarRow>, i: int) {
    && 0 <= i < |tape|
    && var release := Run(env, tape[..i]).book.release; release > 0 && env.epoch(tape[i].timestamp) >= release
  }

  predicate AllLose(events: seq<Event>) { forall m :: 0 <= m < |events| && events[m].Trade? ==> events[m].pnl < 0.0 }

  /** Up to `k` events ago: a win, or the output of the bars before one that reached its release time; and no
      such bar since. */
  ghost predicate StartsStreak(env: Env, tape: seq<BarRow>, k: nat) {
    var output := Run(env, tape).output;
    && k <= |output|
    && (k == 0 || (output[k - 1].Trade? && output[k - 1].pnl >= 0.0)
        || exists i :: ReleasedAt(env, tape, i) && |Run(env, tape[..i]).output| == k)
    && forall i :: ReleasedAt(env, tape, i) ==> |Run(env, tape[..i]).output| <= k
  }

  lemma ReleasedBefore(env: Env, tape: seq<BarRow>, i: int)
    requires 0 <= i < |tape| - 1
    ensures ReleasedAt(env, tape, i) <==> ReleasedAt(env, tape[..|tape| - 1], i)
    ensures tape[..|tape| - 1][..i] == tape[..i]
  {
    assert tape[..|tape| - 1][..i] == tape[..i];
  }

  /** The start of the streak after another bar: its win, its release, or the earlier one. */
  lemma StreakMoves(env: Env, tape: seq<BarRow>, k: nat, a: seq<Event>, b: seq<Event>, c: seq<Event>, next: nat)
    requires tape != [] && StartsStreak(env, tape[..|tape| - 1], k)
    requires var n := |tape| - 1; var output := Run(env, tape[..n]).output;
             && Run(env, tape).output == output + a + b + c
             && ((next == |output| + |a| + 1 && |b| == 1 && b[0].Trade? && b[0].pnl >= 0.0)
                 || next == if ReleasedAt(env, tape, n) then |output| else k)
    ensures StartsStreak(env, tape, next)
  {
    hide Run;
    var n := |tape| - 1;
    var before, output := Run(env, tape[..n]).output, Run(env, tape).output;
    forall i | ReleasedAt(env, tape, i)
      ensures |Run(env, tape[..i]).output| <= next
    {
      if i < n { ReleasedBefore(env, tape, i); }
    }
    if next == |before| + |a| + 1 && |b| == 1 && b[0].Trade? && b[0].pnl >= 0.0 {
      assert output[next - 1] == b[0];
    } else if !ReleasedAt(env, tape, n) && k > 0 {
      assert output[k - 1] == before[k - 1];
      if !(before[k - 1].Trade? && before[k - 1].pnl >= 0.0) {
        var i :| ReleasedAt(env, tape[..n], i) && |Run(env, tape[..n][..i]).output| == k;
        ReleasedBefore(env, tape, i);
      }
    }
  }

  lemma NoTradeLoses(events: seq<Event>)
    requires Trades(events) == 0
    ensures AllLose(events) && forall m :: 0 <= m < |events| ==> !events[m].Trade?
  {
    if events != [] { NoTradeLoses(events[..|events| - 1]); }
  }

  lemma TailTrades(output: seq<Event>, base: nat, a: seq<Event>, b: seq<Event>, c: seq<Event>)
    requires base <= |output| && Trades(a) == 0 == Trades(c) && |b| <= 1 && forall i :: 0 <= i < |b| ==> b[i].Trade?
    ensures Trades((output + a + b + c)[base..]) == Trades(output[base..]) + |b|
    ensures AllLose((output + a + b + c)[base..]) <==> AllLose(output[base..]) && AllLose(b)
  {
    hide Trades;
    var tail := output[base..];
    assert (output + a + b + c)[base..] == tail + a + b + c;
    TradesJoin(tail + a + b, c);
    TradesJoin(tail + a, b);
    TradesJoin(tail, a);
    OneTrade(b);
    NoTradeLoses(a);
    NoTradeLoses(c);
    AllLoseJoin(tail + a + b, c);
    AllLoseJoin(tail + a, b);
    AllLoseJoin(tail, a);
  }

  lemma AllLoseJoin(a: seq<Event>, b: seq<Event>)
    ensures AllLose(a + b) <==> AllLose(a) && AllLose(b)
  {
    assert forall m :: 0 <= m < |a| ==> (a + b)[m] == a[m];
    assert forall m :: 0 <= m < |b| ==> (a + b)[|a| + m] == b[m];
  }

  lemma StreakStep(env: Env, tape: seq<BarRow>, k: nat) returns (next: nat)
    requires tape != [] && StartsStreak(env, tape[..|tape| - 1], k)
    requires var s := Run(env, tape[..|tape| - 1]); s.book.losses == Trades(s.output[k..]) && AllLose(s.output[k..])
    ensures StartsStreak(env, tape, next)
    ensures var s := Run(env, tape); s.book.losses == Trades(s.output[next..]) && AllLose(s.output[next..])
  {
    hide Run, Step, TradeAt, StartBar, Trades, AllLose;
    var n := |tape| - 1;
    var s, r := Run(env, tape[..n]), tape[n];
    assert Run(env, tape) == Step(env, s, r) by { RunStep(env, tape, n); assert tape[..n + 1] == tape; }
    StepSettles(env, s, r);
    StartReleases(env, s, r);
    var a, c := StepOutput(env, s, r);
    var t := TradeAt(env, s, r);
    var b: seq<Event> := match t case None => [] case Some(x) => [x];
    var base := if ReleasedAt(env, tape, n) then |s.output| else k;
    next := if t.Some? && t.value.pnl >= 0.0 then |s.output| + |a| + 1 else base;
    StreakMoves(env, tape, k, a, b, c, next);
    if t.Some? && t.value.pnl >= 0.0 {
      assert Run(env, tape).output[next..] == c;
      NoTradeLoses(c);
    } else {
      TailTrades(s.output, base, a, b, c);
      LosesAlone(b);
      assert ReleasedAt(env, tape, n) ==> s.output[base..] == [];
      assert Trades([]) == 0 && AllLose([]) by { NothingTraded(); }
    }
  }

  lemma LosesAlone(events: seq<Event>)
    requires forall i :: 0 <= i < |events| ==> events[i].Trade? && events[i].pnl < 0.0
    ensures AllLose(events)
  {}

  lemma NothingTraded()
    ensures Trades([]) == 0 && AllLose([])
  {}

  lemma OneTrade(events: seq<Event>)
    requires |events| <= 1 && forall i :: 0 <= i < |events| ==> events[i].Trade?
    ensures Trades(events) == |events|
  {}

  /** The counter is the number of trades since the last win or release, all of them losses. */
  lemma {:induction false} CounterIsStreak(env: Env, tape: seq<BarRow>) returns (k: nat)
    ensures StartsStreak(env, tape, k)
    ensures var s := Run(env, tape); s.book.losses == Trades(s.output[k..]) && AllLose(s.output[k..])
  {
    hide Step, TradeAt;
    if tape == [] {
      k := 0;
    } else {
      var n := |tape| - 1;
      k := CounterIsStreak(env, tape[..n]);
      k := StreakStep(env, tape, k);
    }
  }

  // ----- When a counter at the cap always has a release time ahead ------------------------------------

  predicate HasRelease(env: Env, b: Book) { b.losses >= env.lossCap ==> b.release > 0 }

  /** Throughout a run a counter at or above the cap has a positive release time exactly when the cap
      is at least one and every trip sets one. */
  lemma ReleaseIsAlwaysSetIff(env: Env, tape: seq<BarRow>)
    ensures (forall k :: 0 <= k <= |tape| ==> HasRelease(env, Run(env, tape[..k]).book))
       <==> env.lossCap >= 1 && forall i :: TripsAt(env, tape, i) ==> ReleaseAfter(env, tape[i]) > 0
  {
    hide Step, Trips;
    assert tape[..0] == [];
    if env.lossCap >= 1 && forall i :: TripsAt(env, tape, i) ==> ReleaseAfter(env, tape[i]) > 0 {
      forall k | 0 <= k <= |tape|
        ensures HasRelease(env, Run(env, tape[..k]).book)
      {
        GoodTripsRelease(env, tape, k);
      }
    }
    if i :| TripsAt(env, tape, i) && ReleaseAfter(env, tape[i]) <= 0 && env.lossCap >= 1 {
      RunStep(env, tape, i);
      TripLosses(env, Run(env, tape[..i]), tape[i]);
      StepReleases(env, Run(env, tape[..i]), tape[i]);
      assert !HasRelease(env, Run(env, tape[..i + 1]).book);
    }
  }

  lemma TripLosses(env: Env, s: State, r: BarRow)
    ensures Trips(env, s, r) ==> Step(env, s, r).book.losses >= env.lossCap
    ensures !Trips(env, s, r) && env.lossCap >= 1 && Step(env, s, r).book.losses >= env.lossCap ==>
              StartBar(env, s, r).book.losses >= env.lossCap || StartBar(env, s, r).book.release != 0
  {
    hide StartBar, Step, TradeAt;
    StepSettles(env, s, r);
  }

  lemma {:induction false} GoodTripsRelease(env: Env, tape: seq<BarRow>, k: nat)
    requires k <= |tape| && env.lossCap >= 1
    requires forall i :: TripsAt(env, tape, i) ==> ReleaseAfter(env, tape[i]) > 0
    ensures HasRelease(env, Run(env, tape[..k]).book) && Run(env, tape[..k]).book.release >= 0
  {
    hide Step, StartBar, Trips;
    if k == 0 {
      assert tape[..0] == [];
    } else {
      var s, r := Run(env, tape[..k - 1]), tape[k - 1];
      GoodTripsRelease(env, tape, k - 1);
      RunStep(env, tape, k - 1);
      StepReleases(env, s, r);
      StartReleases(env, s, r);
      TripLosses(env, s, r);
      assert Trips(env, s, r) ==> TripsAt(env, tape, k - 1);
    }
  }
}
