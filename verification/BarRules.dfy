/** What one bar of a run does, in terms of the tape: the day's ledger, the order and the portfolio the
    gate is asked about, and when the strategy is asked for a signal. */
module BarRules {
  import opened Numbers
  import opened Text
  import opened Tape
  import opened Backtest
  import opened BacktestInvariants
  import opened Lookahead
  import opened GateView
  import opened LossBrake

  // ----- The day's ledger ---------------------------------------------------------------------------

  /** The two stamps agree in their first ten characters. */
  predicate SameDay(a: string, b: string) {
    && (|a| == |b| || (|a| >= 10 && |b| >= 10))
    && forall i :: 0 <= i < 10 && i < |a| && i < |b| ==> a[i] == b[i]
  }

  /** The last day's bars start at bar `k`. */
  predicate DayBegins(tape: seq<BarRow>, k: nat) {
    && k < |tape|
    && (forall i :: k <= i < |tape| ==> SameDay(tape[i].timestamp, tape[|tape| - 1].timestamp))
    && (k > 0 ==> !SameDay(tape[k - 1].timestamp, tape[|tape| - 1].timestamp))
  }

  lemma DaysCompare(a: string, b: string)
    ensures DayOf(a) == DayOf(b) <==> SameDay(a, b)
  {
    var x, y := DayOf(a), DayOf(b);
    assert forall i :: 0 <= i < 10 && i < |a| ==> x[i] == a[i];
    assert forall i :: 0 <= i < 10 && i < |b| ==> y[i] == b[i];
    if DayOf(a) == DayOf(b) {
      assert |x| == |y|;
      assert forall i :: 0 <= i < |x| ==> x[i] == y[i];
    }
  }

  lemma StepKeepsTheDay(env: Env, s: State, r: BarRow)
    ensures var b := Step(env, s, r).book;
            && b.day == DayOf(r.timestamp)
            && b.startOfDay == if s.book.day == DayOf(r.timestamp) then s.book.startOfDay else s.book.equity
  {
    hide Step, TradeAt, DayOf;
    StepSettles(env, s, r);
  }

  lemma {:induction false} DayIsLast(env: Env, tape: seq<BarRow>)
    ensures Run(env, tape).book.day == if tape == [] then "" else DayOf(tape[|tape| - 1].timestamp)
  {
    hide Step, DayOf;
    if tape != [] {
      StepKeepsTheDay(env, Run(env, tape[..|tape| - 1]), tape[|tape| - 1]);
    }
  }

  /** The day's start is the equity before the first of the day's bars, and the day's profit what has come
      since. */
  lemma {:induction false} DayLedger(env: Env, tape: seq<BarRow>) returns (k: nat)
    requires tape != []
    ensures DayBegins(tape, k)
    ensures var b := Run(env, tape).book;
            b.startOfDay == Run(env, tape[..k]).book.equity && b.realizedToday == b.equity - b.startOfDay
  {
    hide Step, DayOf, SameDay;
    var n := |tape| - 1;
    var s, r := Run(env, tape[..n]), tape[n];
    EveryRunBalances(env, tape);
    StepKeepsTheDay(env, s, r);
    DayIsLast(env, tape[..n]);
    DaysCompare(r.timestamp, r.timestamp);
    if n > 0 && DayOf(tape[n - 1].timestamp) == DayOf(r.timestamp) {
      k := DayLedger(env, tape[..n]);
      SameDayBegins(tape, k);
      assert tape[..n][..k] == tape[..k];
    } else {
      k := n;
      if n > 0 { DaysCompare(tape[n - 1].timestamp, r.timestamp); }
      if n == 0 { assert tape[..0] == []; }
    }
  }

  lemma SameDayBegins(tape: seq<BarRow>, k: nat)
    requires |tape| > 1 && DayBegins(tape[..|tape| - 1], k)
    requires DayOf(tape[|tape| - 2].timestamp) == DayOf(tape[|tape| - 1].timestamp)
    ensures DayBegins(tape, k)
  {
    hide DayOf, SameDay;
    var n := |tape| - 1;
    assert forall i :: 0 <= i < n ==> tape[..n][i] == tape[i];
    forall i | 0 <= i <= n
      ensures SameDay(tape[i].timestamp, tape[n].timestamp)
         <==> i == n || SameDay(tape[i].timestamp, tape[n - 1].timestamp)
    {
      DaysCompare(tape[i].timestamp, tape[n].timestamp);
      DaysCompare(tape[i].timestamp, tape[n - 1].timestamp);
    }
  }

  // ----- The gate -------------------------------------------------------------------------------------

  /** The book when the bar's entry is judged: the money before the bar, the day's ledger with this bar's
      day begun, and a counter cleared when the bar reaches the release time. */
  predicate AtOpen(env: Env, s: State, t: State, r: BarRow, b: Book) {
    && b.equity == s.book.equity && b.startOfDay == t.book.startOfDay && b.realizedToday == b.equity - b.startOfDay
    && b.losses == if s.book.release > 0 && env.epoch(r.timestamp) >= s.book.release then 0 else s.book.losses
  }

  /** What a verdict does: a block is counted and emitted and opens nothing, an entry is opened. */
  predicate Answered(s: State, t: State, r: BarRow, v: Verdict) {
    match v
    case Blocked(reason) =>
      && t.gateBlocks == s.gateBlocks + 1 && |s.output| < |t.output|
      && t.output[|s.output|] == GateBlock(r.timestamp, r.symbol, reason) && t.open == s.open && t.trades == s.trades
    case Allowed =>
      && t.gateBlocks == s.gateBlocks
      && ((r.symbol in t.open && t.trades == s.trades) || (t.open == s.open && t.trades == s.trades + 1))
  }

  /** An entry on `sig` spends its share of the equity. */
  predicate Spends(env: Env, equity: real, sig: Signal, spent: real) {
    spent == env.riskPct * equity * ScaleAt(sig.strength, env.scaleCap)
  }

  /** The order for an entry at the bar's open that spends `spent`. */
  function OrderAt(env: Env, r: BarRow, sig: Signal, spent: real): Order {
    Order("alpaca", r.symbol, r.symbol, CategoryAt(r.symbol), sig.direction == Long,
          spent / Max(0.0001, r.open), r.open, spent, 1.0, 1.0, env.agreement)
  }

  lemma OrderIs(env: Env, equity: real, r: BarRow, sig: Signal) returns (spent: real)
    ensures Spends(env, equity, sig, spent)
    ensures OrderFor(env, equity, r, sig) == OrderAt(env, r, sig, spent)
  {
    hide NotionalOf, ScaleAt, Max, OrderFor, OrderAt;
    spent := NotionalOf(env, equity, sig);
    SizeIsScaled(env, equity, sig);
    OrderSpends(env, equity, r, sig);
  }

  lemma OrderSpends(env: Env, equity: real, r: BarRow, sig: Signal)
    ensures OrderFor(env, equity, r, sig) == OrderAt(env, r, sig, NotionalOf(env, equity, sig))
  {
    hide NotionalOf, Max;
  }

  lemma BookAtOpen(env: Env, s: State, r: BarRow)
    requires Balanced(env, s)
    ensures AtOpen(env, s, Step(env, s, r), r, StartBar(env, s, r).book)
  {
    hide Step, TradeAt;
    StepSettles(env, s, r);
  }

  lemma StepAnswers(env: Env, s: State, r: BarRow)
    requires Balanced(env, s) && r.symbol in s.pending
    ensures Answered(s, Step(env, s, r), r, Decide(env, StartBar(env, s, r), r, s.pending[r.symbol]))
  {
    hide Decide, EntryOf, ExitOf, TradeOf, Noted, RollDay, ReleaseBrake, Balanced;
    FillNeverOverwrites(env, s, r);
    var ready := StartBar(env, s, r);
    var managed := ManageExit(env, FillPending(env, ready, r), r);
    ObserveTouches(env, managed, r);
    if Decide(env, ready, r, s.pending[r.symbol]).Blocked? {
      assert managed.output[|s.output|] == GateBlock(r.timestamp, r.symbol, Decide(env, ready, r, s.pending[r.symbol]).reason);
    }
  }

  lemma ObserveTouches(env: Env, s: State, r: BarRow)
    ensures var t := Observe(env, s, r);
            && t.open == s.open && t.trades == s.trades && t.gateBlocks == s.gateBlocks && s.output <= t.output
  {
    hide Noted;
  }

  /** The gate is asked about a pending entry with this order, on a portfolio that shows the open
      positions and the book of the moment, and its verdict is carried out. */
  lemma GateIsAsked(env: Env, tape: seq<BarRow>, r: BarRow) returns (spent: real, p: Portfolio, b: Book)
    requires r.symbol in Run(env, tape).pending
    ensures var s, t := Run(env, tape), Run(env, tape + [r]);
            && Shows(p, b, s.open) && AtOpen(env, s, t, r, b)
            && var sig := s.pending[r.symbol].signal;
               && Spends(env, s.book.equity, sig, spent)
               && Answered(s, t, r, env.gate(OrderAt(env, r, sig, spent), p))
  {
    hide Run, Step, StartBar, Shows, AtOpen, Answered, Spends, OrderFor, OrderAt, RebuildPortfolio;
    var s := Run(env, tape);
    var w := s.pending[r.symbol];
    b := StartBar(env, s, r).book;
    p := RebuildPortfolio(b, s.open);
    RunMore(env, tape, r);
    EveryRunBalances(env, tape);
    RebuildShows(b, s.open);
    BookAtOpen(env, s, r);
    StepAnswers(env, s, r);
    spent := OrderIs(env, s.book.equity, r, w.signal);
    StartKeeps(env, s, r);
  }

  lemma StartKeeps(env: Env, s: State, r: BarRow)
    ensures var ready := StartBar(env, s, r);
            && ready.open == s.open && ready.pending == s.pending && ready.hist == s.hist
            && ready.book.equity == s.book.equity && ready.output == s.output
  {}

  lemma RunMore(env: Env, tape: seq<BarRow>, r: BarRow)
    ensures Run(env, tape + [r]) == Step(env, Run(env, tape), r)
  {
    assert (tape + [r])[..|tape|] == tape;
  }

  /** Without a pending entry the bar opens nothing and asks nothing. */
  lemma NoEntryUnasked(env: Env, tape: seq<BarRow>, r: BarRow)
    requires r.symbol !in Run(env, tape).pending
    ensures var s, t := Run(env, tape), Run(env, tape + [r]);
            t.gateBlocks == s.gateBlocks && t.open.Keys <= s.open.Keys
  {
    hide Run, ExitOf, TradeOf, Noted, Observe, RollDay, ReleaseBrake;
    RunMore(env, tape, r);
    var s := Run(env, tape);
    ObserveTouches(env, ManageExit(env, FillPending(env, StartBar(env, s, r), r), r), r);
  }

  // ----- Signals ----------------------------------------------------------------------------------------

  /** A strategy shown `h` at the bar is asked exactly when its symbol has no position and `h` is warm; the
      signal it gives is pending and emitted, its refusal is emitted when those are. */
  ghost predicate Taken(env: Env, h: seq<Bar>, r: BarRow, t: State) {
    var asked := r.symbol !in t.open && env.warm(|h|);
    var (signal, trace) := env.evaluate(h, '/' in r.symbol);
    && (r.symbol in t.pending <==> asked && signal.Some?)
    && (r.symbol in t.pending ==>
          && t.pending[r.symbol] == Waiting(signal.value, trace.atrZ, r.close, trace.regime)
          && LastIs(t.output, SignalOut(r.timestamp, r.symbol, signal.value.factor, trace.regime, trace.atrZ)))
    && (asked && signal.None? && env.emitRejections ==>
          LastIs(t.output, Reject(r.timestamp, r.symbol, trace, r.close)))
  }

  predicate LastIs(output: seq<Event>, e: Event) { output != [] && output[|output| - 1] == e }

  function Refusals(output: seq<Event>): nat {
    if output == [] then 0
    else Refusals(output[..|output| - 1]) + (if output[|output| - 1].Reject? then 1 else 0)
  }

  lemma RefusalsAdd(output: seq<Event>, e: Event)
    ensures Refusals(output + [e]) == Refusals(output) + (if e.Reject? then 1 else 0)
  {
    assert (output + [e])[..|output|] == output;
  }

  /** A refusal is emitted only where the strategy was asked and those are wanted. */
  ghost predicate Refused(env: Env, h: seq<Bar>, r: BarRow, s: State, t: State) {
    var refused := r.symbol !in t.open && env.warm(|h|) && env.evaluate(h, '/' in r.symbol).0.None? && env.emitRejections;
    Refusals(t.output) == Refusals(s.output) + if refused then 1 else 0
  }

  lemma ObserveRefuses(env: Env, s: State, r: BarRow)
    requires r.symbol !in s.pending
    ensures Refused(env, Noted(env, s, r), r, s, Observe(env, s, r))
  {
    hide Noted;
    var (signal, trace) := env.evaluate(Noted(env, s, r), IsCrypto(r.symbol));
    RefusalsAdd(s.output, Reject(r.timestamp, r.symbol, trace, r.close));
    if signal.Some? {
      RefusalsAdd(s.output, SignalOut(r.timestamp, r.symbol, signal.value.factor, trace.regime, trace.atrZ));
    }
  }

  lemma ManagedRefuses(env: Env, s: State, r: BarRow)
    ensures Refusals(ManageExit(env, FillPending(env, s, r), r).output) == Refusals(s.output)
  {
    hide FillPending, ManageExit;
    FillRefuses(env, s, r);
    ExitRefuses(env, FillPending(env, s, r), r);
  }

  lemma FillRefuses(env: Env, s: State, r: BarRow)
    ensures Refusals(FillPending(env, s, r).output) == Refusals(s.output)
  {
    hide EntryOf, Decide, Refusals;
    if r.symbol in s.pending {
      var v := Decide(env, s, r, s.pending[r.symbol]);
      if v.Blocked? { RefusalsAdd(s.output, GateBlock(r.timestamp, r.symbol, v.reason)); }
    }
  }

  lemma ExitRefuses(env: Env, s: State, r: BarRow)
    ensures Refusals(ManageExit(env, s, r).output) == Refusals(s.output)
  {
    hide ExitOf, TradeOf, Refusals, Settle;
    if r.symbol in s.open {
      var op := Aged(s.open[r.symbol]);
      var reason := ExitOf(env, Get(s.hist, r.symbol, []), r, op);
      RefusalsAdd(s.output, TradeOf(op, r, reason, BarOf(env, r), s.book.equity));
    }
  }

  /** The pending entries of the other symbols. */
  ghost predicate OthersWait(s: State, t: State, symbol: string) {
    forall k :: k != symbol ==> (k in t.pending <==> k in s.pending) && (k in t.pending ==> t.pending[k] == s.pending[k])
  }

  lemma ObserveTakes(env: Env, s: State, r: BarRow)
    requires r.symbol !in s.pending
    ensures Taken(env, Noted(env, s, r), r, Observe(env, s, r)) && OthersWait(s, Observe(env, s, r), r.symbol)
  {
    hide Noted;
    var h, t := Noted(env, s, r), Observe(env, s, r);
    var (signal, trace) := env.evaluate(h, '/' in r.symbol);
    assert IsCrypto(r.symbol) == ('/' in r.symbol);
    if r.symbol !in s.open && env.warm(|h|) {
      if signal.Some? {
        assert t.output == s.output + [SignalOut(r.timestamp, r.symbol, signal.value.factor, trace.regime, trace.atrZ)];
      } else if env.emitRejections {
        assert t.output == s.output + [Reject(r.timestamp, r.symbol, trace, r.close)];
      }
    }
  }

  lemma ManagedWaits(env: Env, s: State, r: BarRow)
    ensures var m := ManageExit(env, FillPending(env, s, r), r);
            m.hist == s.hist && r.symbol !in m.pending && OthersWait(s, m, r.symbol)
  {
    hide ExitOf, TradeOf, EntryOf, Decide;
  }

  /** At every bar of every run the strategy is shown its symbol's last 300 bars with this one, and asked
      and heard by that rule. */
  lemma SignalsAreTaken(env: Env, tape: seq<BarRow>, r: BarRow)
    ensures var t := Run(env, tape + [r]);
            && Taken(env, History(env, tape + [r], r.symbol), r, t) && OthersWait(Run(env, tape), t, r.symbol)
            && Refused(env, History(env, tape + [r], r.symbol), r, Run(env, tape), t)
  {
    hide Run, History, Noted, StartBar, ManageExit, FillPending, Observe, Taken;
    var s := Run(env, tape);
    var ready := StartBar(env, s, r);
    var managed := ManageExit(env, FillPending(env, ready, r), r);
    RunMore(env, tape, r);
    EveryRunIsTraced(env, tape);
    HistoriesGrow(env, tape, s, r);
    StartKeeps(env, s, r);
    ManagedWaits(env, ready, r);
    ObserveTakes(env, managed, r);
    ManagedRefuses(env, ready, r);
    ObserveRefuses(env, managed, r);
    SameHistory(env, s, managed, r);
  }

  lemma SameHistory(env: Env, s: State, t: State, r: BarRow)
    requires s.hist == t.hist
    ensures Noted(env, s, r) == Noted(env, t, r)
  {}
}
