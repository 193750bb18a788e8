/** The loss brake on a tape alone: for which tapes, caps and cooldowns no strategy, gate or fee
    schedule can leave a counter at the cap without a release time ahead. */
module EveryStrategy {
  import opened Numbers
  import opened Text
  import opened Tape
  import opened Backtest
  import opened BacktestInvariants
  import opened Lookahead
  import opened LossBrake

  // ----- Bars at which a trade can close --------------------------------------------------------

  predicate Seen(tape: seq<BarRow>, symbol: string) { exists j :: 0 <= j < |tape| && tape[j].symbol == symbol }

  /** A trade can close at a bar only when its symbol came before: one bar to signal, one to fill. */
  predicate CanClose(tape: seq<BarRow>, i: int) { 0 <= i < |tape| && Seen(tape[..i], tape[i].symbol) }

  function Closes(tape: seq<BarRow>): nat {
    if tape == [] then 0
    else Closes(tape[..|tape| - 1]) + (if CanClose(tape, |tape| - 1) then 1 else 0)
  }

  /** The bar of the tape's `n`th possible close. */
  predicate NthClose(tape: seq<BarRow>, n: int, i: int) { CanClose(tape, i) && Closes(tape[..i + 1]) == n }

  lemma CloseStep(tape: seq<BarRow>, r: BarRow)
    ensures Closes(tape + [r]) == Closes(tape) + (if Seen(tape, r.symbol) then 1 else 0)
  {
    assert (tape + [r])[..|tape|] == tape;
  }

  lemma {:induction false} NthCloseExists(tape: seq<BarRow>, n: int) returns (i: int)
    requires 1 <= n <= Closes(tape)
    ensures NthClose(tape, n, i)
  {
    var last := |tape| - 1;
    if Closes(tape[..last]) >= n {
      i := NthCloseExists(tape[..last], n);
      assert tape[..last][..i + 1] == tape[..i + 1] && tape[..last][..i] == tape[..i];
    } else {
      i := last;
      assert tape[..last + 1] == tape;
    }
  }

  // ----- No strategy trips the brake earlier ------------------------------------------------------

  lemma CloseIsSeen(env: Env, tape: seq<BarRow>, r: BarRow)
    requires TradeAt(env, Run(env, tape), r).Some?
    ensures Seen(tape, r.symbol)
  {
    hide Run, Decide, EntryOf, ExitOf, TradeOf, SignalAt, PaidAt;
    var s := Run(env, tape);
    EveryRunIsTraced(env, tape);
    if r.symbol in s.pending {
      var j :| PendingAt(env, tape, r.symbol, s.pending[r.symbol], j);
    } else {
      var op := s.open[r.symbol];
      assert Entered(env, tape, r.symbol, op, Managed(tape, false));
      var w, j, e :| EnteredAt(env, tape, r.symbol, op, |tape|, w, j, e);
      assert tape[e].symbol == r.symbol;
    }
  }

  lemma {:induction false} LossesNeedCloses(env: Env, tape: seq<BarRow>)
    ensures 0 <= Run(env, tape).book.losses <= Closes(tape)
  {
    hide Step, TradeAt, StartBar, CanClose;
    if tape != [] {
      var n := |tape| - 1;
      var s, r := Run(env, tape[..n]), tape[n];
      LossesNeedCloses(env, tape[..n]);
      StepSettles(env, s, r);
      StartReleases(env, s, r);
      assert tape == tape[..n] + [r];
      CloseStep(tape[..n], r);
      if TradeAt(env, s, r).Some? { CloseIsSeen(env, tape[..n], r); }
    }
  }

  /** A trip comes at a possible close, and not before as many of them as the cap. */
  lemma TripNeedsCloses(env: Env, tape: seq<BarRow>, i: int)
    requires TripsAt(env, tape, i)
    ensures CanClose(tape, i) && Closes(tape[..i + 1]) >= env.lossCap
  {
    hide Run, TradeAt, StartBar;
    var front, s, r := tape[..i], Run(env, tape[..i]), tape[i];
    CloseIsSeen(env, front, r);
    LossesNeedCloses(env, front);
    StartReleases(env, s, r);
    assert tape[..i + 1] == front + [r];
    CloseStep(front, r);
  }

  // ----- A strategy that loses whenever it can ----------------------------------------------------

  /** Every price of the bar lies within `m` of zero. */
  predicate Within(r: BarRow, m: real) { m >= 1.0 && -m < r.open < m && -m < r.low && -m < r.high }

  predicate AllWithin(tape: seq<BarRow>, m: real) { m >= 1.0 && forall i :: 0 <= i < |tape| ==> Within(tape[i], m) }

  lemma {:induction false} PricesAreBounded(tape: seq<BarRow>) returns (m: real)
    ensures AllWithin(tape, m)
  {
    m := 1.0;
    if tape != [] {
      var n := |tape| - 1;
      var front := PricesAreBounded(tape[..n]);
      var r := tape[n];
      m := Max(front, 1.0 + Max(Abs(r.open), Max(Abs(r.low), Abs(r.high))));
      assert forall i :: 0 <= i < n ==> tape[i] == tape[..n][i];
    }
  }

  function Buy(m: real): Signal { Signal(Long, "momentum", 1.0, -m - 1.0, -m, 0) }

  /** Always buy, with a target below every price, on a sliver of the equity. */
  function Loser(m: real, epoch: string -> int, lossCap: int, cooldown: int): Env
    requires m >= 1.0
  {
    Env((n: nat) => true,
        (h: seq<Bar>, crypto: bool) => (Some(Buy(m)), Trace("", 0.0, "")),
        (h: seq<Bar>) => false,
        (o: Order, p: Portfolio) => Allowed,
        (price: real, volume: real, notional: real) => 0.0,
        (h: seq<Bar>) => 0.0,
        epoch, 0.0, 1.0, 0.000025 / m, 1.0, false, false, false, lossCap, cooldown, 1)
  }

  /** Nothing open, an entry pending for every symbol seen, and one loss for every possible close. */
  ghost predicate Losing(s: State, tape: seq<BarRow>, m: real) {
    && s.open == map[] && s.book.equity > 0.0 && s.book.release == 0 && s.book.losses == Closes(tape)
    && (forall k :: k in s.pending ==> s.pending[k].signal == Buy(m))
    && forall k :: k in s.pending <==> Seen(tape, k)
  }

  /** The quantity the loser buys. */
  function Sliver(m: real, equity: real, open: real): real
    requires m >= 1.0
  {
    0.000025 / m * equity / Max(0.0001, open)
  }

  /** Bought at `open` and sold at `-m`: a loss of less than the equity. */
  lemma LossIsSmall(m: real, open: real, equity: real)
    requires m >= 1.0 && -m < open < m && equity > 0.0
    ensures -equity < (-m - open) * Sliver(m, equity, open) < 0.0
  {
    var n, d := 0.000025 / m * equity, Max(0.0001, open);
    assert n > 0.0 && m * n == 0.000025 * equity;
    var qty := n / d;
    assert qty > 0.0 && qty * d == n;
    Scale(qty, 0.0001, d);
    Scale(2.0 * m, qty * 0.0001, n);
    Scale(qty, m + open, 2.0 * m);
    assert 2.0 * m * n == 0.00005 * equity;
  }

  lemma Scale(x: real, a: real, b: real)
    requires x > 0.0
    ensures a <= b ==> x * a <= x * b
    ensures a > 0.0 ==> x * a > 0.0
  {}

  /** What the loser's entry at a bar is. */
  lemma LoserEnters(env: Env, s: State, r: BarRow, w: Waiting, m: real)
    requires m >= 1.0 && env == Loser(m, env.epoch, env.lossCap, env.cooldownMinutes) && w.signal == Buy(m)
    ensures var op := EntryOf(env, s, r, w);
            && op.pos.qty == Sliver(m, s.book.equity, r.open) && op.pos.entryPrice == r.open
            && op.pos.direction == Long && op.pos.stop == -m - 1.0 && op.pos.target == -m
            && op.entryFee == 0.0 && op.entrySideFee == 0.0
  {}

  lemma LoserExits(env: Env, op: OpenPos, r: BarRow, history: seq<Bar>, m: real)
    requires Within(r, m) && env == Loser(m, env.epoch, env.lossCap, env.cooldownMinutes)
    requires op.pos.direction == Long && op.pos.stop == -m - 1.0 && op.pos.target == -m
    ensures ExitOf(env, history, r, op) == Target
  {}

  /** The pending entry of the loser is filled, and nothing else happens. */
  lemma LoserFills(env: Env, s: State, r: BarRow, m: real)
    requires Within(r, m) && env == Loser(m, env.epoch, env.lossCap, env.cooldownMinutes)
    requires s.open == map[] && r.symbol in s.pending
    ensures var filled := FillPending(env, s, r);
            && filled.open == map[r.symbol := EntryOf(env, s, r, s.pending[r.symbol])]
            && filled.book == s.book && filled.pending == s.pending - {r.symbol}
  {
    hide EntryOf, OrderFor, RebuildPortfolio;
  }

  lemma FreeOfFees(open: real, exitPx: real, qty: real)
    ensures Profit(Long, open, exitPx, qty, 0.0, 0.0) == (exitPx - open) * qty
  {}

  lemma LoserSells(env: Env, s: State, r: BarRow, w: Waiting, m: real)
    requires Within(r, m) && env == Loser(m, env.epoch, env.lossCap, env.cooldownMinutes)
    requires w.signal == Buy(m) && s.book.equity > 0.0
    ensures var t := TradeOf(Aged(EntryOf(env, s, r, w)), r, Target, BarOf(env, r), s.book.equity);
            -s.book.equity < t.pnl < 0.0
  {
    hide EntryOf, TradeOf, Profit, Loser, Sliver;
    var op := Aged(EntryOf(env, s, r, w));
    LoserEnters(env, s, r, w, m);
    LossIsSmall(m, r.open, s.book.equity);
    TradeMakes(op, r, Target, BarOf(env, r), s.book.equity);
    SoldAtTarget(op, r, BarOf(env, r), s.book.equity);
    FreeOfFees(r.open, -m, op.pos.qty);
  }

  lemma SoldAtTarget(op: OpenPos, r: BarRow, bar: Bar, equity: real)
    ensures TradeOf(op, r, Target, bar, equity).exitPx == op.pos.target
  {
    hide ReturnOf, RealizedPnl, SpansBoth;
  }

  lemma StartIsQuiet(env: Env, s: State, r: BarRow)
    requires s.book.release == 0
    ensures var ready := StartBar(env, s, r);
            && ready.book.equity == s.book.equity && ready.book.losses == s.book.losses && ready.book.release == 0
            && ready.open == s.open && ready.pending == s.pending && ready.hist == s.hist
  {}

  /** A position of the loser closes at its target on the bar it was filled at. */
  lemma LoserCloses(env: Env, s: State, r: BarRow, m: real)
    requires Within(r, m) && env == Loser(m, env.epoch, env.lossCap, env.cooldownMinutes)
    requires s.open == map[] && r.symbol in s.pending && s.pending[r.symbol].signal == Buy(m) && s.book.release == 0
    requires s.book.equity > 0.0
    ensures TradeAt(env, s, r).Some? && -s.book.equity < TradeAt(env, s, r).value.pnl < 0.0
  {
    hide EntryOf, StartBar, FillPending, ExitOf, TradeOf, Loser, BarOf;
    var ready := StartBar(env, s, r);
    var w := s.pending[r.symbol];
    StartIsQuiet(env, s, r);
    LoserFills(env, ready, r, m);
    LoserEnters(env, ready, r, w, m);
    LoserSells(env, ready, r, w, m);
    LoserExits(env, Aged(EntryOf(env, ready, r, w)), r, Get(FillPending(env, ready, r).hist, r.symbol, []), m);
  }

  lemma LoserObserves(env: Env, s: State, r: BarRow, m: real)
    requires m >= 1.0 && env == Loser(m, env.epoch, env.lossCap, env.cooldownMinutes)
    requires r.symbol !in s.open && r.symbol !in s.pending
    ensures var t := Observe(env, s, r);
            && t.open == s.open && t.pending.Keys == s.pending.Keys + {r.symbol} && t.pending[r.symbol].signal == Buy(m)
            && forall k :: k in s.pending ==> t.pending[k] == s.pending[k]
  {
    hide Noted;
  }

  /** A bar leaves the loser flat, with an entry pending for its symbol. */
  lemma LoserStaysFlat(env: Env, s: State, tape: seq<BarRow>, r: BarRow, m: real)
    requires Within(r, m) && env == Loser(m, env.epoch, env.lossCap, env.cooldownMinutes) && Losing(s, tape, m)
    ensures var t := Step(env, s, r);
            && t.open == map[] && t.pending.Keys == s.pending.Keys + {r.symbol}
            && forall k :: k in t.pending ==> t.pending[k].signal == Buy(m)
    ensures TradeAt(env, s, r).Some? <==> Seen(tape, r.symbol)
    ensures TradeAt(env, s, r).Some? ==> -s.book.equity < TradeAt(env, s, r).value.pnl < 0.0
  {
    hide EntryOf, StartBar, FillPending, Observe, ExitOf, TradeOf, Loser, BarOf, Buy;
    var ready := StartBar(env, s, r);
    StartIsQuiet(env, s, r);
    if r.symbol in s.pending {
      LoserFills(env, ready, r, m);
      LoserCloses(env, s, r, m);
    } else {
      NothingToFill(env, ready, r);
    }
    LoserObserves(env, ManageExit(env, FillPending(env, ready, r), r), r, m);
  }

  lemma NothingToFill(env: Env, s: State, r: BarRow)
    requires r.symbol !in s.pending
    ensures FillPending(env, s, r) == s
  {}

  lemma SeenAfter(tape: seq<BarRow>, r: BarRow)
    ensures forall k :: Seen(tape + [r], k) <==> Seen(tape, k) || k == r.symbol
  {
    forall k
      ensures Seen(tape + [r], k) <==> Seen(tape, k) || k == r.symbol
    {
      if Seen(tape, k) {
        var j :| 0 <= j < |tape| && tape[j].symbol == k;
        assert (tape + [r])[j].symbol == k;
      }
      assert (tape + [r])[|tape|].symbol == r.symbol;
    }
  }

  /** Below the cap the loser takes a loss at every possible close. */
  lemma LoserGoesOn(env: Env, s: State, tape: seq<BarRow>, r: BarRow, m: real)
    requires Within(r, m) && env == Loser(m, env.epoch, env.lossCap, env.cooldownMinutes) && Losing(s, tape, m)
    requires Closes(tape + [r]) < env.lossCap
    ensures Losing(Step(env, s, r), tape + [r], m)
  {
    hide Step, TradeAt, StartBar, Loser, Buy, Seen;
    LoserStaysFlat(env, s, tape, r, m);
    StepSettles(env, s, r);
    StartIsQuiet(env, s, r);
    CloseStep(tape, r);
    SeenAfter(tape, r);
  }

  /** Before the close that reaches the cap the loser has lost at every one. */
  lemma {:induction false} LoserRuns(env: Env, tape: seq<BarRow>, m: real)
    requires AllWithin(tape, m) && env == Loser(m, env.epoch, env.lossCap, env.cooldownMinutes)
    requires Closes(tape) < env.lossCap
    ensures Losing(Run(env, tape), tape, m)
  {
    hide Step, Loser, Losing, CanClose;
    if tape == [] {
      LoserStarts(env, m);
    } else {
      var n := |tape| - 1;
      assert tape == tape[..n] + [tape[n]];
      LoserRuns(env, tape[..n], m);
      LoserGoesOn(env, Run(env, tape[..n]), tape[..n], tape[n], m);
    }
  }

  lemma LoserStarts(env: Env, m: real)
    requires m >= 1.0 && env == Loser(m, env.epoch, env.lossCap, env.cooldownMinutes)
    ensures Losing(Run(env, []), [], m)
  {}

  /** The loser trips the brake at the close that reaches the cap. */
  lemma LoserTrips(env: Env, tape: seq<BarRow>, i: int, m: real)
    requires AllWithin(tape, m) && env == Loser(m, env.epoch, env.lossCap, env.cooldownMinutes)
    requires NthClose(tape, env.lossCap, i)
    ensures TripsAt(env, tape, i)
  {
    hide Run, TradeAt, StartBar, Loser, Seen, Step;
    var front, r := tape[..i], tape[i];
    assert tape[..i + 1] == front + [r];
    CloseStep(front, r);
    LoserRuns(env, front, m);
    LoserStaysFlat(env, Run(env, front), front, r, m);
    StartIsQuiet(env, Run(env, front), r);
  }

  // ----- The brake for every strategy ---------------------------------------------------------------

  ghost predicate AlwaysReleases(env: Env, tape: seq<BarRow>) {
    forall k :: 0 <= k <= |tape| ==> HasRelease(env, Run(env, tape[..k]).book)
  }

  /** The harness's clock does not go back along the tape. */
  predicate Forward(tape: seq<BarRow>, epoch: string -> int) {
    forall i, j :: 0 <= i < j < |tape| ==> epoch(tape[i].timestamp) <= epoch(tape[j].timestamp)
  }

  /** The cap is at least one, and the possible close that reaches it comes at a time after which the
      cooldown ends past 1970. */
  ghost predicate CapEndsLate(tape: seq<BarRow>, epoch: string -> int, lossCap: int, cooldown: int) {
    && lossCap >= 1
    && forall i :: NthClose(tape, lossCap, i) ==> epoch(tape[i].timestamp) + cooldown * 60 > 0
  }

  /** On any tape: enough that every possible close from the cap's on comes that late. */
  lemma EnoughForEveryStrategy(env: Env, tape: seq<BarRow>)
    requires env.lossCap >= 1
    requires forall i :: CanClose(tape, i) && Closes(tape[..i + 1]) >= env.lossCap ==> ReleaseAfter(env, tape[i]) > 0
    ensures AlwaysReleases(env, tape)
  {
    hide Trips, Run, CanClose;
    forall i | TripsAt(env, tape, i)
      ensures ReleaseAfter(env, tape[i]) > 0
    {
      TripNeedsCloses(env, tape, i);
    }
    ReleaseIsAlwaysSetIff(env, tape);
  }

  lemma LaterClosesEndLate(tape: seq<BarRow>, epoch: string -> int, lossCap: int, cooldown: int, i: int)
    requires Forward(tape, epoch) && CapEndsLate(tape, epoch, lossCap, cooldown)
    requires CanClose(tape, i) && Closes(tape[..i + 1]) >= lossCap
    ensures epoch(tape[i].timestamp) + cooldown * 60 > 0
  {
    var first := NthCloseExists(tape[..i + 1], lossCap);
    assert tape[..i + 1][..first + 1] == tape[..first + 1] && tape[..i + 1][..first] == tape[..first];
    assert NthClose(tape, lossCap, first);
  }

  /** On a tape whose time does not go back, whatever strategy, gate and fees: a counter at the cap always
      has a release time ahead, exactly when the cap is at least one and the first bar at which as
      many trades as that can have closed leaves a cooldown that ends past 1970. */
  lemma BrakeHoldsForEveryStrategyIff(tape: seq<BarRow>, epoch: string -> int, lossCap: int, cooldown: int)
    requires Forward(tape, epoch)
    ensures (forall env: Env :: env.epoch == epoch && env.lossCap == lossCap && env.cooldownMinutes == cooldown ==>
               AlwaysReleases(env, tape))
       <==> CapEndsLate(tape, epoch, lossCap, cooldown)
  {
    hide AlwaysReleases, Run, Seen;
    if CapEndsLate(tape, epoch, lossCap, cooldown) {
      forall env: Env | env.epoch == epoch && env.lossCap == lossCap && env.cooldownMinutes == cooldown
        ensures AlwaysReleases(env, tape)
      {
        forall i | CanClose(tape, i) && Closes(tape[..i + 1]) >= lossCap
          ensures ReleaseAfter(env, tape[i]) > 0
        {
          LaterClosesEndLate(tape, epoch, lossCap, cooldown, i);
        }
        EnoughForEveryStrategy(env, tape);
      }
    } else {
      var m := PricesAreBounded(tape);
      var env := Loser(m, epoch, lossCap, cooldown);
      LoserFails(env, tape, m);
    }
  }

  lemma LoserFails(env: Env, tape: seq<BarRow>, m: real)
    requires AllWithin(tape, m) && env == Loser(m, env.epoch, env.lossCap, env.cooldownMinutes)
    requires !CapEndsLate(tape, env.epoch, env.lossCap, env.cooldownMinutes)
    ensures !AlwaysReleases(env, tape)
  {
    hide Run, TripsAt, Loser;
    ReleaseIsAlwaysSetIff(env, tape);
    if env.lossCap >= 1 {
      var i :| NthClose(tape, env.lossCap, i) && env.epoch(tape[i].timestamp) + env.cooldownMinutes * 60 <= 0;
      LoserTrips(env, tape, i, m);
    }
  }
}
