/** No lookahead: what a run emits up to a bar, and every price it trades at, come from
    the bars up to then. */
module Lookahead {
  import opened Numbers
  import opened Text
  import opened Tape
  import opened Backtest
  import opened TradeMoney

  // ----- A symbol's own bars ------------------------------------------------------------

  /** A bar as the strategy sees it; `--strip-volume` takes its volume away. */
  function BarAt(env: Env, r: BarRow): Bar {
    Bar(r.open, r.high, r.low, r.close, if env.stripVolume then 0.0 else r.volume)
  }

  function OwnBars(env: Env, tape: seq<BarRow>, symbol: string): seq<Bar> {
    if tape == [] then []
    else
      var n := |tape| - 1;
      OwnBars(env, tape[..n], symbol) + (if tape[n].symbol == symbol then [BarAt(env, tape[n])] else [])
  }

  function Last<T>(s: seq<T>, n: nat): seq<T> {
    if |s| <= n then s else s[|s| - n..]
  }

  /** The symbol's last 300 bars on the tape, or all of them while there are fewer. */
  function History(env: Env, tape: seq<BarRow>, symbol: string): seq<Bar> {
    Last(OwnBars(env, tape, symbol), 300)
  }

  function OwnCount(tape: seq<BarRow>, symbol: string): nat {
    if tape == [] then 0
    else OwnCount(tape[..|tape| - 1], symbol) + (if tape[|tape| - 1].symbol == symbol then 1 else 0)
  }

  lemma OwnCountNext(tape: seq<BarRow>, e: nat, r: BarRow, n: nat, symbol: string)
    requires e <= n <= |tape|
    ensures OwnCount((tape + [r])[e..n], symbol) == OwnCount(tape[e..n], symbol)
    ensures n == |tape| ==>
              OwnCount((tape + [r])[e..n + 1], symbol) == OwnCount(tape[e..n], symbol) + (if r.symbol == symbol then 1 else 0)
  {
    assert (tape + [r])[e..n] == tape[e..n];
    if n == |tape| {
      assert (tape + [r])[e..n + 1] == tape[e..n] + [r];
      assert (tape[e..n] + [r])[..|tape[e..n]|] == tape[e..n];
    }
  }

  lemma HistoryGrows(env: Env, tape: seq<BarRow>, r: BarRow, symbol: string)
    ensures History(env, tape + [r], symbol)
         == if r.symbol == symbol then Capped(History(env, tape, symbol) + [BarOf(env, r)])
            else History(env, tape, symbol)
  {
    assert (tape + [r])[..|tape|] == tape;
    var own := OwnBars(env, tape, symbol);
    if r.symbol == symbol && |own| >= 300 {
      assert Last(own + [BarOf(env, r)], 300) == Last(own, 300)[1..] + [BarOf(env, r)];
    }
  }

  // ----- Where a pending entry, a position and a trade come from --------------------------

  /** Bar `e` is its symbol's first bar after bar `j`. */
  predicate NextOwn(tape: seq<BarRow>, j: int, e: int) {
    && 0 <= j < e < |tape| && tape[j].symbol == tape[e].symbol
    && forall k :: j < k < e ==> tape[k].symbol != tape[j].symbol
  }

  /** At bar `j` the strategy, shown that symbol's history up to bar `j`, gave this signal. */
  predicate SignalAt(env: Env, tape: seq<BarRow>, j: int, w: Waiting) {
    && 0 <= j < |tape|
    && env.warm(|History(env, tape[..j + 1], tape[j].symbol)|)
    && var (signal, trace) := env.evaluate(History(env, tape[..j + 1], tape[j].symbol), '/' in tape[j].symbol);
       signal == Some(w.signal) && w.atrZ == trace.atrZ && w.regime == trace.regime && w.close == tape[j].close
  }

  /** The signal of a pending entry was given at its symbol's latest bar. */
  predicate PendingAt(env: Env, tape: seq<BarRow>, symbol: string, w: Waiting, j: int) {
    && 0 <= j < |tape| && tape[j].symbol == symbol && SignalAt(env, tape, j, w)
    && forall k :: j < k < |tape| ==> tape[k].symbol != symbol
  }

  /** How much of the risk budget a signal gets: its strength, between a fifth and the cap. */
  function ScaleAt(strength: real, cap: real): real {
    var top := if cap < 1.0 then cap else 1.0;
    if top < 0.2 || strength < 0.2 then 0.2 else if strength > top then top else strength
  }

  lemma SizeIsScaled(env: Env, equity: real, sig: Signal)
    ensures NotionalOf(env, equity, sig) == env.riskPct * equity * ScaleAt(sig.strength, env.scaleCap)
  {
    assert Max(Min(Clamp(sig.strength, 0.0, 1.0), env.scaleCap), 0.2) == ScaleAt(sig.strength, env.scaleCap);
  }

  /** What an entry at bar `e` spends: its share of the equity the run had before that bar. */
  function SpentAt(env: Env, tape: seq<BarRow>, e: nat, w: Waiting): real
    requires e < |tape|
  {
    env.riskPct * Run(env, tape[..e]).book.equity * ScaleAt(w.signal.strength, env.scaleCap)
  }

  function QuantityAt(env: Env, tape: seq<BarRow>, e: nat, w: Waiting): real
    requires e < |tape|
  {
    SpentAt(env, tape, e, w) / Max(0.0001, tape[e].open)
  }

  /** The cost of one side of an entry at bar `e`: an equity's comes from the price it fills at and
      the dollar volume of its last 300 bars before `e`, 78 of them to a session. */
  function SideFeeAt(env: Env, tape: seq<BarRow>, e: nat, w: Waiting): real
    requires e < |tape|
  {
    if '/' in tape[e].symbol then env.cryptoFee
    else env.equityFee(tape[e].open, env.dollarVolume(History(env, tape[..e], tape[e].symbol)) * 78.0,
                       SpentAt(env, tape, e, w))
  }

  function EntryFeeAt(env: Env, tape: seq<BarRow>, e: nat, w: Waiting): real
    requires e < |tape|
  {
    SpentAt(env, tape, e, w) * SideFeeAt(env, tape, e, w)
  }

  /** The quantity and cost of a position entered at bar `e`. */
  predicate PaidAt(env: Env, tape: seq<BarRow>, op: OpenPos, w: Waiting, e: int) {
    && 0 <= e < |tape|
    && op.pos.qty == QuantityAt(env, tape, e, w) && op.entrySideFee == SideFeeAt(env, tape, e, w)
    && op.entryFee == EntryFeeAt(env, tape, e, w)
  }

  /** When a position entered at bar `e` leaves at its own bar `x`, and why: the stop before the target,
      both at the prices the bar reached, then the indicator on the bars before, then its age. */
  predicate LeavesAt(env: Env, tape: seq<BarRow>, w: Waiting, e: int, x: int, reason: ExitReason)
    requires 0 <= e <= x < |tape|
  {
    var r, sig := tape[x], w.signal;
    var stopped := (sig.direction == Long && r.low <= sig.stop) || (sig.direction == Short && r.high >= sig.stop);
    var reached := (sig.direction == Long && r.high >= sig.target) || (sig.direction == Short && r.low <= sig.target);
    var indicated := env.rsi2Style && sig.factor == "reversion" && env.rsi2Exit(History(env, tape[..x], r.symbol));
    var aged := sig.timeStopBars > 0 && OwnCount(tape[e..x + 1], r.symbol) >= sig.timeStopBars;
    match reason
    case Stop => stopped
    case Target => reached && !stopped
    case Indicator => indicated && !stopped && !reached
    case TimeStop => aged && !stopped && !reached && !indicated
    case NoExit => !stopped && !reached && !indicated && !aged
  }

  /** No own bar from `e` to before `n` was one to leave at. */
  predicate Kept(env: Env, tape: seq<BarRow>, w: Waiting, e: int, n: int)
    requires 0 <= e < |tape| && n <= |tape|
  {
    forall x :: e <= x < n && tape[x].symbol == tape[e].symbol ==> LeavesAt(env, tape, w, e, x, NoExit)
  }

  /** The bar spans the stop and the target of the signal. */
  predicate Spans(r: BarRow, sig: Signal) {
    if sig.direction == Long then r.low <= sig.stop && r.high >= sig.target
    else r.high >= sig.stop && r.low <= sig.target
  }

  function CategoryAt(symbol: string): string { if '/' in symbol then "crypto" else "equity" }

  /** A position was entered at the open of its symbol's first bar after the signal bar, on the
      signal's own stop and target, in the quantity and at the cost of that moment; it is as old as the
      own bars it has been through before `n`, and none of them was one to leave at. */
  predicate EnteredAt(env: Env, tape: seq<BarRow>, symbol: string, op: OpenPos, n: int, w: Waiting, j: int, e: int) {
    && NextOwn(tape, j, e) && tape[e].symbol == symbol && SignalAt(env, tape, j, w)
    && op.pos.entryPrice == tape[e].open && op.entryTs == tape[e].timestamp && op.signalClose == w.close
    && op.pos.direction == w.signal.direction && op.pos.factor == w.signal.factor
    && op.pos.stop == w.signal.stop && op.pos.target == w.signal.target && op.pos.timeStopBars == w.signal.timeStopBars
    && op.pos.symbol == op.pos.market == symbol && op.pos.category == CategoryAt(symbol)
    && op.pos.openedTs == tape[e].timestamp
    && op.atrZ == w.atrZ && op.regime == w.regime && PaidAt(env, tape, op, w, e)
    && e <= n <= |tape| && op.pos.barsHeld == OwnCount(tape[e..n], symbol) && Kept(env, tape, w, e, n)
  }

  /** The money a trade makes: the price move on its quantity, less the cost of both sides. */
  function Profit(direction: Direction, entryPx: real, exitPx: real, qty: real, side: real, entryFee: real): real {
    (if direction == Short then -1.0 else 1.0) * (exitPx - entryPx) * qty - (exitPx * qty * side + entryFee)
  }

  /** What a trade says it returned: the price move on the price a long buys at or a short buys back at,
      less the cost of both sides; a short bought back for nothing is left open. */
  predicate ReturnFits(direction: Direction, entryPx: real, exitPx: real, side: real, ret: real) {
    && (entryPx <= 0.0 ==> ret + 2.0 * side == 0.0)
    && (entryPx > 0.0 && direction == Long ==> (ret + 2.0 * side) * entryPx == exitPx - entryPx)
    && (entryPx > 0.0 && direction != Long && exitPx != 0.0 ==> (ret + 2.0 * side) * exitPx == entryPx - exitPx)
  }

  /** The cost and profit of a trade entered at bar `e` and left at bar `x`; the profit is added to
      the equity the run had before bar `x`. */
  predicate SettledAt(env: Env, tape: seq<BarRow>, t: Event, w: Waiting, e: int, x: int)
    requires t.Trade?
  {
    && 0 <= e < |tape| && 0 <= x < |tape| && t.sideFee == SideFeeAt(env, tape, e, w)
    && t.pnl == Profit(w.signal.direction, tape[e].open, t.exitPx, QuantityAt(env, tape, e, w),
                       SideFeeAt(env, tape, e, w), EntryFeeAt(env, tape, e, w))
    && t.equity == Run(env, tape[..x]).book.equity + t.pnl
    && ReturnFits(w.signal.direction, tape[e].open, t.exitPx, t.sideFee, t.ret)
  }

  /** A trade was entered at the open of its symbol's first bar after its signal bar, and left at the
      first own bar `x` that was one to leave at, for that reason, at the signal's stop, its target, or
      that bar's close. */
  predicate TradedAt(env: Env, tape: seq<BarRow>, t: Event, w: Waiting, j: int, e: int, x: int)
    requires t.Trade?
  {
    && NextOwn(tape, j, e) && e <= x < |tape| && tape[e].symbol == tape[x].symbol == t.symbol
    && SignalAt(env, tape, j, w) && t.signalClose == w.close && t.factor == w.signal.factor
    && t.entryPx == tape[e].open && t.entryTs == tape[e].timestamp && t.exitTs == tape[x].timestamp
    && t.stop == w.signal.stop && t.target == w.signal.target
    && t.exitPx == (match t.exitReason case Stop => w.signal.stop case Target => w.signal.target case _ => tape[x].close)
    && t.atrZ == w.atrZ && t.regime == w.regime && SettledAt(env, tape, t, w, e, x)
    && t.category == CategoryAt(t.symbol) && (t.ambiguous <==> Spans(tape[x], w.signal))
    && t.barsHeld == OwnCount(tape[e..x + 1], t.symbol)
    && Kept(env, tape, w, e, x) && t.exitReason != NoExit && LeavesAt(env, tape, w, e, x, t.exitReason)
  }

  ghost predicate HistoriesTraced(env: Env, tape: seq<BarRow>, s: State) {
    forall symbol :: Get(s.hist, symbol, []) == History(env, tape, symbol)
  }

  ghost predicate PendingTraced(env: Env, tape: seq<BarRow>, s: State) {
    forall symbol :: symbol in s.pending ==> exists j :: PendingAt(env, tape, symbol, s.pending[symbol], j)
  }

  ghost predicate Entered(env: Env, tape: seq<BarRow>, symbol: string, op: OpenPos, n: int) {
    exists w, j, e :: EnteredAt(env, tape, symbol, op, n, w, j, e)
  }

  /** The bars a position has been through: all of them, or all but the current one. */
  function Managed(tape: seq<BarRow>, behind: bool): int { if behind then |tape| - 1 else |tape| }

  /** `behind`: the symbol whose position has yet to go through the current bar. */
  ghost predicate OpenTraced(env: Env, tape: seq<BarRow>, s: State, behind: Option<string>) {
    forall symbol :: symbol in s.open ==>
      Entered(env, tape, symbol, s.open[symbol], Managed(tape, behind == Some(symbol)))
  }

  ghost predicate TradesTraced(env: Env, tape: seq<BarRow>, output: seq<Event>) {
    forall i :: 0 <= i < |output| && output[i].Trade? ==>
      exists w, j, e, x :: TradedAt(env, tape, output[i], w, j, e, x)
  }

  ghost predicate Traced(env: Env, tape: seq<BarRow>, s: State) {
    && HistoriesTraced(env, tape, s) && PendingTraced(env, tape, s)
    && OpenTraced(env, tape, s, None) && TradesTraced(env, tape, s.output)
  }

  // ----- Another bar on the tape --------------------------------------------------------------

  lemma SignalStays(env: Env, tape: seq<BarRow>, r: BarRow, j: int, w: Waiting)
    requires SignalAt(env, tape, j, w)
    ensures SignalAt(env, tape + [r], j, w)
  {
    assert (tape + [r])[..j + 1] == tape[..j + 1];
  }

  /** What is worked out from the bars before `e` and bar `e` itself stays as it is. */
  lemma AmountsStay(env: Env, tape: seq<BarRow>, r: BarRow, e: nat, w: Waiting)
    requires e < |tape|
    ensures SpentAt(env, tape + [r], e, w) == SpentAt(env, tape, e, w)
    ensures QuantityAt(env, tape + [r], e, w) == QuantityAt(env, tape, e, w)
    ensures SideFeeAt(env, tape + [r], e, w) == SideFeeAt(env, tape, e, w)
    ensures EntryFeeAt(env, tape + [r], e, w) == EntryFeeAt(env, tape, e, w)
  {
    hide History, Run, ScaleAt;
    assert (tape + [r])[..e] == tape[..e] && (tape + [r])[e] == tape[e];
  }

  lemma SettledStays(env: Env, tape: seq<BarRow>, r: BarRow, t: Event, w: Waiting, e: int, x: int)
    requires t.Trade? && SettledAt(env, tape, t, w, e, x)
    ensures SettledAt(env, tape + [r], t, w, e, x)
  {
    hide Run, QuantityAt, SideFeeAt, EntryFeeAt, Profit, ReturnFits;
    AmountsStay(env, tape, r, e, w);
    assert (tape + [r])[..x] == tape[..x] && (tape + [r])[e] == tape[e];
  }

  lemma LeavingStays(env: Env, tape: seq<BarRow>, r: BarRow, w: Waiting, e: int, x: int, reason: ExitReason)
    requires 0 <= e <= x < |tape|
    ensures LeavesAt(env, tape + [r], w, e, x, reason) == LeavesAt(env, tape, w, e, x, reason)
  {
    hide History;
    assert (tape + [r])[..x] == tape[..x] && (tape + [r])[e..x + 1] == tape[e..x + 1] && (tape + [r])[x] == tape[x];
  }

  lemma KeptStays(env: Env, tape: seq<BarRow>, r: BarRow, w: Waiting, e: int, n: int)
    requires 0 <= e < |tape| && n <= |tape| && Kept(env, tape, w, e, n)
    ensures Kept(env, tape + [r], w, e, n)
    ensures n == |tape| && r.symbol != tape[e].symbol ==> Kept(env, tape + [r], w, e, n + 1)
  {
    hide LeavesAt;
    forall x | e <= x < n && tape[x].symbol == tape[e].symbol
      ensures LeavesAt(env, tape + [r], w, e, x, NoExit)
    {
      LeavingStays(env, tape, r, w, e, x, NoExit);
    }
  }

  lemma EnteredStays(env: Env, tape: seq<BarRow>, r: BarRow, symbol: string, op: OpenPos, w: Waiting, j: int, e: int)
    requires EnteredAt(env, tape, symbol, op, |tape|, w, j, e)
    ensures EnteredAt(env, tape + [r], symbol, op, Managed(tape + [r], r.symbol == symbol), w, j, e)
  {
    hide Run, QuantityAt, SideFeeAt, EntryFeeAt, SignalAt, Kept;
    SignalStays(env, tape, r, j, w);
    AmountsStay(env, tape, r, e, w);
    OwnCountNext(tape, e, r, |tape|, symbol);
    KeptStays(env, tape, r, w, e, |tape|);
  }

  lemma TradedStays(env: Env, tape: seq<BarRow>, r: BarRow, t: Event, w: Waiting, j: int, e: int, x: int)
    requires t.Trade? && TradedAt(env, tape, t, w, j, e, x)
    ensures TradedAt(env, tape + [r], t, w, j, e, x)
  {
    hide SettledAt, SignalAt, Kept, LeavesAt;
    SignalStays(env, tape, r, j, w);
    SettledStays(env, tape, r, t, w, e, x);
    KeptStays(env, tape, r, w, e, x);
    LeavingStays(env, tape, r, w, e, x, t.exitReason);
    assert (tape + [r])[e..x + 1] == tape[e..x + 1];
  }

  /** The invariant's parts over the tape with the bar added, before the bar is acted on. */
  lemma BarArrives(env: Env, tape: seq<BarRow>, s: State, r: BarRow)
    requires Traced(env, tape, s)
    ensures OpenTraced(env, tape + [r], s, Some(r.symbol))
    ensures TradesTraced(env, tape + [r], s.output)
  {
    forall symbol | symbol in s.open
      ensures Entered(env, tape + [r], symbol, s.open[symbol], Managed(tape + [r], Some(r.symbol) == Some(symbol)))
    {
      var w, j, e :| EnteredAt(env, tape, symbol, s.open[symbol], |tape|, w, j, e);
      EnteredStays(env, tape, r, symbol, s.open[symbol], w, j, e);
    }
    forall i | 0 <= i < |s.output| && s.output[i].Trade?
      ensures exists w, j, e, x :: TradedAt(env, tape + [r], s.output[i], w, j, e, x)
    {
      var w, j, e, x :| TradedAt(env, tape, s.output[i], w, j, e, x);
      TradedStays(env, tape, r, s.output[i], w, j, e, x);
    }
  }

  /** Pending entries of other symbols are not affected by the bar. */
  lemma PendingStays(env: Env, tape: seq<BarRow>, r: BarRow, symbol: string, w: Waiting, j: int)
    requires PendingAt(env, tape, symbol, w, j) && r.symbol != symbol
    ensures PendingAt(env, tape + [r], symbol, w, j)
  {
    SignalStays(env, tape, r, j, w);
  }

  lemma {:induction false} SeenHasHistory(env: Env, tape: seq<BarRow>, j: nat)
    requires j < |tape|
    ensures History(env, tape, tape[j].symbol) != []
  {
    if j < |tape| - 1 { SeenHasHistory(env, tape[..|tape| - 1], j); }
  }

  /** What an entry spends and costs, from the history it was shown. */
  lemma EntryAmounts(env: Env, s: State, r: BarRow, w: Waiting)
    ensures var op, spent := EntryOf(env, s, r, w), NotionalOf(env, s.book.equity, w.signal);
            && op.pos.qty == spent / Max(0.0001, r.open) && op.entryFee == spent * op.entrySideFee
            && (Get(s.hist, r.symbol, []) != [] ==>
                  op.entrySideFee
                  == if IsCrypto(r.symbol) then env.cryptoFee
                     else env.equityFee(r.open, env.dollarVolume(Get(s.hist, r.symbol, [])) * 78.0, spent))
  {
    hide NotionalOf, Max, Get;
  }

  lemma EntryIsPaid(env: Env, tape: seq<BarRow>, s: State, r: BarRow, w: Waiting, j: int)
    requires 0 <= j < |tape| && tape[j].symbol == r.symbol
    requires s.book.equity == Run(env, tape).book.equity && HistoriesTraced(env, tape, s)
    ensures PaidAt(env, tape + [r], EntryOf(env, s, r, w), w, |tape|)
  {
    hide History, Run, NotionalOf, ScaleAt, Max, EntryOf;
    var longer, op := tape + [r], EntryOf(env, s, r, w);
    SeenHasHistory(env, tape, j);
    EntryAmounts(env, s, r, w);
    SizeIsScaled(env, s.book.equity, w.signal);
    assert longer[..|tape|] == tape && longer[|tape|] == r;
    var spent := SpentAt(env, longer, |tape|, w);
    assert spent == NotionalOf(env, s.book.equity, w.signal);
    assert SideFeeAt(env, longer, |tape|, w) == op.entrySideFee;
  }

  lemma EntryIsTraced(env: Env, tape: seq<BarRow>, s: State, r: BarRow, w: Waiting, j: int)
    requires PendingAt(env, tape, r.symbol, w, j)
    requires s.book.equity == Run(env, tape).book.equity && HistoriesTraced(env, tape, s)
    ensures EnteredAt(env, tape + [r], r.symbol, EntryOf(env, s, r, w), |tape|, w, j, |tape|)
  {
    hide History, Run, PaidAt, SignalAt, HistoriesTraced;
    SignalStays(env, tape, r, j, w);
    EntryIsPaid(env, tape, s, r, w, j);
    assert (tape + [r])[|tape|..|tape|] == [];
  }

  /** After the fill: the bar's symbol is no longer pending, a filled entry is priced at this bar. */
  lemma FillIsTraced(env: Env, tape: seq<BarRow>, s: State, r: BarRow)
    requires s.book.equity == Run(env, tape).book.equity && HistoriesTraced(env, tape, s)
    requires PendingTraced(env, tape, s)
    requires OpenTraced(env, tape + [r], s, Some(r.symbol)) && TradesTraced(env, tape + [r], s.output)
    ensures var t := FillPending(env, s, r);
            && t.hist == s.hist && t.book == s.book && r.symbol !in t.pending
            && PendingTraced(env, tape + [r], t)
            && OpenTraced(env, tape + [r], t, Some(r.symbol))
            && TradesTraced(env, tape + [r], t.output)
  {
    hide Decide, EntryOf, PendingAt, EnteredAt, TradedAt, HistoriesTraced, Run;
    var t := FillPending(env, s, r);
    forall symbol | symbol in t.pending
      ensures exists j :: PendingAt(env, tape + [r], symbol, t.pending[symbol], j)
    {
      assert symbol in s.pending && symbol != r.symbol && t.pending[symbol] == s.pending[symbol];
      var j :| PendingAt(env, tape, symbol, s.pending[symbol], j);
      PendingStays(env, tape, r, symbol, s.pending[symbol], j);
    }
    if r.symbol in s.pending && Decide(env, s, r, s.pending[r.symbol]) == Allowed {
      var j :| PendingAt(env, tape, r.symbol, s.pending[r.symbol], j);
      EntryIsTraced(env, tape, s, r, s.pending[r.symbol], j);
      assert Entered(env, tape + [r], r.symbol, EntryOf(env, s, r, s.pending[r.symbol]), |tape|);
    }
    forall symbol | symbol in t.open
      ensures Entered(env, tape + [r], symbol, t.open[symbol], Managed(tape + [r], Some(r.symbol) == Some(symbol)))
    {
      if symbol in s.open && t.open[symbol] == s.open[symbol] {
        assert Entered(env, tape + [r], symbol, s.open[symbol], Managed(tape + [r], Some(r.symbol) == Some(symbol)));
      }
    }
  }

  lemma TradeMakes(op: OpenPos, r: BarRow, reason: ExitReason, bar: Bar, equity: real)
    ensures var t := TradeOf(op, r, reason, bar, equity);
            && t.pnl == Profit(op.pos.direction, op.pos.entryPrice, t.exitPx, op.pos.qty, op.entrySideFee, op.entryFee)
            && t.equity == equity + t.pnl && t.sideFee == op.entrySideFee
            && ReturnFits(op.pos.direction, op.pos.entryPrice, t.exitPx, t.sideFee, t.ret)
  {
    hide ReturnOf, ExitPrice, SpansBoth, ReturnFits;
    ReturnIs(op.pos, ExitPrice(op.pos, reason, bar), op.entrySideFee);
  }

  lemma ReturnIs(pos: Position, exitPx: real, side: real)
    ensures ReturnFits(pos.direction, pos.entryPrice, exitPx, side, ReturnOf(pos, exitPx) - 2.0 * side)
  {
    var gross := ReturnOf(pos, exitPx);
    assert gross - 2.0 * side + 2.0 * side == gross;
    if pos.entryPrice > 0.0 && pos.direction == Long {
      QuotientBack(exitPx, pos.entryPrice);
    } else if pos.entryPrice > 0.0 && exitPx != 0.0 {
      QuotientBack(pos.entryPrice, exitPx);
    }
  }

  /** What a trade carries over from its position. */
  lemma TradeCarries(op: OpenPos, r: BarRow, reason: ExitReason, bar: Bar, equity: real)
    ensures var t := TradeOf(op, r, reason, bar, equity);
            && t.signalClose == op.signalClose && t.factor == op.pos.factor && t.entryPx == op.pos.entryPrice
            && t.entryTs == op.entryTs && t.exitTs == r.timestamp && t.symbol == r.symbol && t.exitReason == reason
            && t.stop == op.pos.stop && t.target == op.pos.target && t.atrZ == op.atrZ && t.regime == op.regime
            && t.exitPx == (match reason case Stop => op.pos.stop case Target => op.pos.target case _ => bar.close)
            && t.category == op.pos.category && t.ambiguous == SpansBoth(op.pos, bar) && t.barsHeld == op.pos.barsHeld
  {
    hide ReturnOf, RealizedPnl, SpansBoth;
  }

  lemma TradeIsSettled(env: Env, tape: seq<BarRow>, r: BarRow, op: OpenPos, reason: ExitReason, equity: real,
        w: Waiting, e: int)
    requires PaidAt(env, tape + [r], op, w, e) && op.pos.entryPrice == (tape + [r])[e].open
    requires op.pos.direction == w.signal.direction && equity == Run(env, tape).book.equity
    ensures SettledAt(env, tape + [r], TradeOf(op, r, reason, BarOf(env, r), equity), w, e, |tape|)
  {
    hide Run, QuantityAt, SideFeeAt, EntryFeeAt, TradeOf, Profit, ReturnFits;
    TradeMakes(op, r, reason, BarOf(env, r), equity);
    assert (tape + [r])[..|tape|] == tape;
  }

  lemma PaidAnyAge(env: Env, tape: seq<BarRow>, op: OpenPos, w: Waiting, e: int, age: int)
    ensures PaidAt(env, tape, op.(pos := op.pos.(barsHeld := age)), w, e) <==> PaidAt(env, tape, op, w, e)
  {}

  lemma AgedKeeps(op: OpenPos)
    ensures var p := Aged(op).pos;
            && Aged(op).signalClose == op.signalClose && Aged(op).entryTs == op.entryTs
            && Aged(op).atrZ == op.atrZ && Aged(op).regime == op.regime
            && p.factor == op.pos.factor && p.entryPrice == op.pos.entryPrice && p.category == op.pos.category
            && p.direction == op.pos.direction && p.stop == op.pos.stop && p.target == op.pos.target
            && p.barsHeld == op.pos.barsHeld + 1
  {}

  lemma SpansOf(pos: Position, env: Env, r: BarRow, sig: Signal)
    requires pos.direction == sig.direction && pos.stop == sig.stop && pos.target == sig.target
    ensures SpansBoth(pos, BarOf(env, r)) <==> Spans(r, sig)
  {}

  lemma TradeIsTraced(env: Env, tape: seq<BarRow>, r: BarRow, held: OpenPos, reason: ExitReason, equity: real,
        w: Waiting, j: int, e: int)
    requires EnteredAt(env, tape + [r], r.symbol, held, |tape|, w, j, e)
    requires reason != NoExit && LeavesAt(env, tape + [r], w, e, |tape|, reason)
    requires equity == Run(env, tape).book.equity
    ensures TradedAt(env, tape + [r], TradeOf(Aged(held), r, reason, BarOf(env, r), equity), w, j, e, |tape|)
  {
    hide Aged, TradeOf, Run, SignalAt, PaidAt, SettledAt, Kept, LeavesAt, SpansBoth, Spans, OwnCount;
    var op := Aged(held);
    AgedKeeps(held);
    assert PaidAt(env, tape + [r], op, w, e) by { AgedIsPaid(env, tape + [r], held, w, e); }
    TradeCarries(op, r, reason, BarOf(env, r), equity);
    SpansOf(op.pos, env, r, w.signal);
    TradeIsSettled(env, tape, r, op, reason, equity, w, e);
    assert (tape + [r])[e..|tape|] == tape[e..];
    OwnCountNext(tape, e, r, |tape|, r.symbol);
  }

  lemma AgedIsPaid(env: Env, tape: seq<BarRow>, op: OpenPos, w: Waiting, e: int)
    requires PaidAt(env, tape, op, w, e)
    ensures PaidAt(env, tape, Aged(op), w, e)
  {
    PaidAnyAge(env, tape, op, w, e, op.pos.barsHeld + 1);
  }

  /** After the exit management: positions have aged by the bar, and a close is a traced trade. */
  lemma ExitIsTraced(env: Env, tape: seq<BarRow>, s: State, r: BarRow)
    requires s.book.equity == Run(env, tape).book.equity && HistoriesTraced(env, tape, s)
    requires OpenTraced(env, tape + [r], s, Some(r.symbol)) && TradesTraced(env, tape + [r], s.output)
    ensures var t := ManageExit(env, s, r);
            && t.hist == s.hist && t.pending == s.pending
            && OpenTraced(env, tape + [r], t, None) && TradesTraced(env, tape + [r], t.output)
  {
    hide ExitOf, TradeOf, EnteredAt, TradedAt, Run, LeavesAt;
    var t := ManageExit(env, s, r);
    if r.symbol in s.open {
      var held := s.open[r.symbol];
      var op := Aged(held);
      assert Entered(env, tape + [r], r.symbol, held, Managed(tape + [r], true));
      var w, j, e :| EnteredAt(env, tape + [r], r.symbol, held, |tape|, w, j, e);
      var reason := ExitOf(env, Get(s.hist, r.symbol, []), r, op);
      ExitFollowsTheRule(env, tape, r, held, w, j, e);
      if reason == NoExit {
        AgedIsEntered(env, tape, r, held, w, j, e);
        assert Entered(env, tape + [r], r.symbol, op, |tape| + 1);
      } else {
        TradeIsTraced(env, tape, r, held, reason, s.book.equity, w, j, e);
      }
      OthersStayOpen(env, tape + [r], s, t, r.symbol);
    } else {
      OthersStayOpen(env, tape + [r], s, t, r.symbol);
    }
  }

  /** The exit taken at the current bar is the one the rule names. */
  lemma ExitFollowsTheRule(env: Env, tape: seq<BarRow>, r: BarRow, held: OpenPos, w: Waiting, j: int, e: int)
    requires EnteredAt(env, tape + [r], r.symbol, held, |tape|, w, j, e)
    ensures LeavesAt(env, tape + [r], w, e, |tape|, ExitOf(env, History(env, tape, r.symbol), r, Aged(held)))
  {
    hide History, Kept, PaidAt, SignalAt;
    assert (tape + [r])[..|tape|] == tape && (tape + [r])[e..|tape|] == tape[e..];
    OwnCountNext(tape, e, r, |tape|, r.symbol);
  }

  lemma AgedIsEntered(env: Env, tape: seq<BarRow>, r: BarRow, op: OpenPos, w: Waiting, j: int, e: int)
    requires EnteredAt(env, tape + [r], r.symbol, op, |tape|, w, j, e)
    requires LeavesAt(env, tape + [r], w, e, |tape|, NoExit)
    ensures EnteredAt(env, tape + [r], r.symbol, Aged(op), |tape| + 1, w, j, e)
  {
    hide PaidAt, SignalAt, LeavesAt;
    PaidAnyAge(env, tape + [r], op, w, e, op.pos.barsHeld + 1);
    assert (tape + [r])[e..|tape|] == tape[e..];
    OwnCountNext(tape, e, r, |tape|, r.symbol);
  }

  lemma OthersStayOpen(env: Env, tape: seq<BarRow>, s: State, t: State, current: string)
    requires OpenTraced(env, tape, s, Some(current))
    requires forall symbol :: symbol in t.open && symbol != current ==> symbol in s.open && t.open[symbol] == s.open[symbol]
    requires current in t.open ==> Entered(env, tape, current, t.open[current], |tape|)
    ensures OpenTraced(env, tape, t, None)
  {
    hide Entered;
    forall symbol | symbol in t.open
      ensures Entered(env, tape, symbol, t.open[symbol], Managed(tape, None == Some(symbol)))
    {
      if symbol != current {
        assert Entered(env, tape, symbol, s.open[symbol], Managed(tape, Some(current) == Some(symbol)));
      }
    }
  }

  lemma HistoriesGrow(env: Env, tape: seq<BarRow>, s: State, r: BarRow)
    requires HistoriesTraced(env, tape, s)
    ensures HistoriesTraced(env, tape + [r], s.(hist := s.hist[r.symbol := Noted(env, s, r)]))
    ensures Noted(env, s, r) == History(env, tape + [r], r.symbol)
  {
    hide History;
    forall symbol {:trigger History(env, tape + [r], symbol)}
      ensures History(env, tape + [r], symbol)
           == if r.symbol == symbol then Noted(env, s, r) else Get(s.hist, symbol, [])
    {
      HistoryGrows(env, tape, r, symbol);
    }
  }

  /** After the observation: the history holds the bar, and a new pending entry was signalled at it. */
  lemma ObserveIsTraced(env: Env, tape: seq<BarRow>, s: State, r: BarRow)
    requires HistoriesTraced(env, tape, s) && PendingTraced(env, tape + [r], s)
    requires OpenTraced(env, tape + [r], s, None) && TradesTraced(env, tape + [r], s.output)
    ensures Traced(env, tape + [r], Observe(env, s, r))
  {
    hide Entered, TradedAt, Noted, History, PendingAt;
    HistoriesGrow(env, tape, s, r);
    var (signal, trace) := env.evaluate(Noted(env, s, r), IsCrypto(r.symbol));
    if signal.Some? && env.warm(|Noted(env, s, r)|) {
      SignalIsTraced(env, tape, r, Waiting(signal.value, trace.atrZ, r.close, trace.regime));
    }
  }

  lemma SignalIsTraced(env: Env, tape: seq<BarRow>, r: BarRow, w: Waiting)
    requires env.warm(|History(env, tape + [r], r.symbol)|)
    requires var (signal, trace) := env.evaluate(History(env, tape + [r], r.symbol), '/' in r.symbol);
             signal == Some(w.signal) && w.atrZ == trace.atrZ && w.regime == trace.regime && w.close == r.close
    ensures PendingAt(env, tape + [r], r.symbol, w, |tape|)
  {
    assert (tape + [r])[..|tape| + 1] == tape + [r];
  }

  lemma StepIsTraced(env: Env, tape: seq<BarRow>, s: State, r: BarRow)
    requires s == Run(env, tape) && Traced(env, tape, s)
    ensures Traced(env, tape + [r], Step(env, s, r))
  {
    hide FillPending, ManageExit, Observe, PendingAt, Entered, TradedAt, History, Run;
    var ready := StartBar(env, s, r);
    BarArrives(env, tape, s, r);
    assert PendingTraced(env, tape, ready);
    forall symbol | symbol in ready.open
      ensures Entered(env, tape + [r], symbol, ready.open[symbol], Managed(tape + [r], Some(r.symbol) == Some(symbol)))
    {
      assert symbol in s.open;
    }
    FillIsTraced(env, tape, ready, r);
    var filled := FillPending(env, ready, r);
    ExitIsTraced(env, tape, filled, r);
    ObserveIsTraced(env, tape, ManageExit(env, filled, r), r);
  }

  /** Every history is its symbol's last 300 bars so far; every pending entry was signalled at its
      symbol's latest bar; every position and every trade was entered at the open of its symbol's
      first bar after the signal bar, and its signal, quantity, cost and profit came from bars up to
      the signal, the entry and the exit only. */
  lemma {:induction false} EveryRunIsTraced(env: Env, tape: seq<BarRow>)
    ensures Traced(env, tape, Run(env, tape))
  {
    hide Step, PendingAt, EnteredAt, TradedAt;
    if tape != [] {
      var n := |tape| - 1;
      EveryRunIsTraced(env, tape[..n]);
      StepIsTraced(env, tape[..n], Run(env, tape[..n]), tape[n]);
      assert tape == tape[..n] + [tape[n]];
    }
  }

  // ----- Later bars change nothing emitted -------------------------------------------------------

  /** The stamp an event is written with. */
  function StampOf(e: Event): string { if e.Trade? then e.exitTs else e.ts }

  /** The output grows, by events of that stamp only. */
  predicate Appends(before: seq<Event>, after: seq<Event>, stamp: string) {
    before <= after && forall i :: |before| <= i < |after| ==> StampOf(after[i]) == stamp
  }

  lemma StepAppends(env: Env, s: State, r: BarRow)
    ensures Appends(s.output, Step(env, s, r).output, r.timestamp)
  {
    hide Decide, EntryOf, ExitOf, TradeOf, Noted, Settle, StartBar, ManageExit, FillPending, Observe;
    var ready := StartBar(env, s, r);
    assert ready.output == s.output by { StartKeepsOutput(env, s, r); }
    FillAppends(env, ready, r);
    ExitAppends(env, FillPending(env, ready, r), r);
    ObserveAppends(env, ManageExit(env, FillPending(env, ready, r), r), r);
  }

  lemma StartKeepsOutput(env: Env, s: State, r: BarRow)
    ensures StartBar(env, s, r).output == s.output
  {}

  lemma FillAppends(env: Env, s: State, r: BarRow)
    ensures Appends(s.output, FillPending(env, s, r).output, r.timestamp)
  {
    hide Decide, EntryOf;
  }

  lemma ExitAppends(env: Env, s: State, r: BarRow)
    ensures Appends(s.output, ManageExit(env, s, r).output, r.timestamp)
  {
    hide ExitOf, TradeOf;
  }

  lemma ObserveAppends(env: Env, s: State, r: BarRow)
    ensures Appends(s.output, Observe(env, s, r).output, r.timestamp)
  {
    hide Noted;
  }

  /** A run of a prefix is a prefix of the run, and what follows it carries the later bars' stamps. */
  lemma {:induction false} RunExtends(env: Env, tape: seq<BarRow>, k: nat)
    requires k <= |tape|
    ensures var early, all := Run(env, tape[..k]).output, Run(env, tape).output;
            && early <= all
            && forall i :: |early| <= i < |all| ==> exists m :: k <= m < |tape| && StampOf(all[i]) == tape[m].timestamp
    decreases |tape|
  {
    hide Step, StampOf;
    if k < |tape| {
      var n := |tape| - 1;
      RunExtends(env, tape[..n], k);
      assert tape[..n][..k] == tape[..k];
      StepAppends(env, Run(env, tape[..n]), tape[n]);
    } else {
      assert tape[..k] == tape;
    }
  }

  /** The events stamped up to `t`. */
  function Upto(output: seq<Event>, t: string): seq<Event> {
    if output == [] then []
    else
      var n := |output| - 1;
      Upto(output[..n], t) + (if AtMost(StampOf(output[n]), t) then [output[n]] else [])
  }

  lemma {:induction false} UptoSplits(output: seq<Event>, n: nat, t: string)
    requires n <= |output|
    requires forall i :: 0 <= i < n ==> AtMost(StampOf(output[i]), t)
    requires forall i :: n <= i < |output| ==> !AtMost(StampOf(output[i]), t)
    ensures Upto(output, t) == output[..n]
  {
    hide AtMost, StampOf;
    if output != [] {
      var last := |output| - 1;
      if n <= last {
        UptoSplits(output[..last], n, t);
        assert output[..last][..n] == output[..n];
      } else {
        UptoSplits(output[..last], last, t);
        assert output[..last] + [output[last]] == output[..n];
      }
    }
  }

  /** The first `k` bars of the tape are those stamped up to `t`. */
  predicate CutAt(tape: seq<BarRow>, k: nat, t: string) {
    && k <= |tape|
    && (forall i :: 0 <= i < k ==> AtMost(tape[i].timestamp, t))
    && (forall i :: k <= i < |tape| ==> !AtMost(tape[i].timestamp, t))
  }

  lemma RunUpto(env: Env, tape: seq<BarRow>, k: nat, t: string)
    requires CutAt(tape, k, t)
    ensures Upto(Run(env, tape).output, t) == Run(env, tape[..k]).output
  {
    hide AtMost, StampOf, Step;
    var all, early := Run(env, tape).output, Run(env, tape[..k]).output;
    RunExtends(env, tape, k);
    RunExtends(env, tape[..k], 0);
    assert tape[..k][..0] == [];
    UptoSplits(all, |early|, t);
  }

  /** Two tapes with the same bars up to a moment, whatever comes later in either, give the same
      events stamped up to that moment. */
  lemma NoLookahead(env: Env, a: seq<BarRow>, b: seq<BarRow>, k: nat, t: string)
    requires CutAt(a, k, t) && CutAt(b, k, t) && a[..k] == b[..k]
    ensures Upto(Run(env, a).output, t) == Upto(Run(env, b).output, t)
  {
    RunUpto(env, a, k, t);
    RunUpto(env, b, k, t);
  }
}
