/** One backtest (core/backtest_main.cpp): the book, and the step that each bar of the
    tape takes it through. The strategy, the risk gate, the equity fee schedule and the
    timestamp reader are parameters of the run. */
module Backtest {
  import opened Numbers
  import opened Text
  import opened Tape

  const HISTORY_CAP := 300

  datatype Direction = Long | Short | Flat
  datatype Bar = Bar(open: real, high: real, low: real, close: real, volume: real)

  datatype Signal = Signal(direction: Direction, factor: string, strength: real,
                           stop: real, target: real, timeStopBars: int)
  datatype Trace = Trace(regime: string, atrZ: real, firstReject: string)

  datatype Position = Position(symbol: string, market: string, category: string, factor: string,
                               openedTs: string, direction: Direction, entryPrice: real, qty: real,
                               stop: real, target: real, timeStopBars: int, barsHeld: int)
  datatype OpenPos = OpenPos(pos: Position, entryTs: string, entryFee: real, entrySideFee: real,
                             atrZ: real, signalClose: real, regime: string)

  datatype Order = Order(venue: string, symbol: string, market: string, category: string, buy: bool,
                         qty: real, price: real, notional: real,
                         confidence: real, edge: real, agreement: int)

  /** What the gate sees of the book. */
  datatype Portfolio = Portfolio(
    equity: real, startOfDayEquity: real, realizedToday: real, losses: int, positions: nat,
    perSymbol: map<string, real>, perMarket: map<string, real>, perCategory: map<string, real>,
    openRisk: real)

  datatype Verdict = Allowed | Blocked(reason: string)

  datatype Env = Env(
    warm: nat -> bool,
    evaluate: (seq<Bar>, bool) -> (Option<Signal>, Trace),
    rsi2Exit: seq<Bar> -> bool,
    gate: (Order, Portfolio) -> Verdict,
    equityFee: (real, real, real) -> real,
    dollarVolume: seq<Bar> -> real,
    epoch: string -> int,
    cryptoFee: real, startingBalance: real, riskPct: real, scaleCap: real,
    rsi2Style: bool, stripVolume: bool, emitRejections: bool,
    lossCap: int, cooldownMinutes: int, agreement: int)

  datatype ExitReason = NoExit | Stop | Target | Indicator | TimeStop

  datatype Event =
    | GateBlock(ts: string, symbol: string, reason: string)
    | SignalOut(ts: string, symbol: string, factor: string, regime: string, atrZ: real)
    | Reject(ts: string, symbol: string, trace: Trace, close: real)
    | Trade(symbol: string, factor: string, category: string, entryTs: string, exitTs: string,
            entryPx: real, exitPx: real, exitReason: ExitReason, ret: real, pnl: real, barsHeld: int,
            ambiguous: bool, atrZ: real, signalClose: real, equity: real, sideFee: real, regime: string,
            stop: real, target: real)

  /** The money and the loss brake. */
  datatype Book = Book(equity: real, startOfDay: real, day: string, realizedToday: real,
                       losses: int, release: int)

  /** A pending entry, with what its signal bar leaves for the fill to record. */
  datatype Waiting = Waiting(signal: Signal, atrZ: real, close: real, regime: string)

  datatype State = State(book: Book, open: map<string, OpenPos>, hist: map<string, seq<Bar>>,
                         pending: map<string, Waiting>,
                         trades: nat, ambiguous: nat, gateBlocks: nat, output: seq<Event>)

  function Initial(env: Env): State {
    State(Book(env.startingBalance, env.startingBalance, "", 0.0, 0, 0), map[], map[], map[], 0, 0, 0, [])
  }

  // ----- Small parts ------------------------------------------------------------------

  function Clamp(x: real, lo: real, hi: real): real { if x < lo then lo else if hi < x then hi else x }

  /** A quotient; a zero divisor, whose floating-point result is not a number here, gives zero. */
  function Quotient(a: real, b: real): real { if b == 0.0 then 0.0 else a / b }

  function Get<V>(m: map<string, V>, k: string, default: V): V { if k in m then m[k] else default }

  predicate IsCrypto(symbol: string) { '/' in symbol }

  function DayOf(ts: string): string { if |ts| >= 10 then ts[..10] else ts }

  function BarOf(env: Env, r: BarRow): Bar {
    Bar(r.open, r.high, r.low, r.close, if env.stripVolume then 0.0 else r.volume)
  }

  function Capped<T>(s: seq<T>): seq<T> {
    if |s| > HISTORY_CAP then s[1..] else s
  }

  /** Stop before target, then the indicator, then the time stop. */
  function CheckExit(pos: Position, bar: Bar, indicator: bool): ExitReason {
    if pos.direction == Long && bar.low <= pos.stop then Stop
    else if pos.direction == Long && bar.high >= pos.target then Target
    else if pos.direction == Short && bar.high >= pos.stop then Stop
    else if pos.direction == Short && bar.low <= pos.target then Target
    else if indicator then Indicator
    else if pos.timeStopBars > 0 && pos.barsHeld >= pos.timeStopBars then TimeStop
    else NoExit
  }

  function ExitPrice(pos: Position, reason: ExitReason, bar: Bar): real {
    match reason
    case Stop => pos.stop
    case Target => pos.target
    case _ => bar.close
  }

  function RealizedPnl(pos: Position, exitPx: real): real {
    (if pos.direction == Short then -1.0 else 1.0) * (exitPx - pos.entryPrice) * pos.qty
  }

  /** Whether the bar spans both the stop and the target. */
  predicate SpansBoth(pos: Position, bar: Bar) {
    if pos.direction == Long then bar.low <= pos.stop && bar.high >= pos.target
    else bar.high >= pos.stop && bar.low <= pos.target
  }

  function ReturnOf(pos: Position, exitPx: real): real {
    if pos.entryPrice > 0.0 then
      if pos.direction == Long then Quotient(exitPx, pos.entryPrice) - 1.0
      else Quotient(pos.entryPrice, exitPx) - 1.0
    else 0.0
  }

  // ----- The portfolio the gate is shown -------------------------------------------------

  predicate Least(k: string, s: set<string>) {
    k in s && forall x :: x in s ==> AtMost(k, x)
  }

  lemma {:induction false} LeastExists(s: set<string>)
    requires s != {}
    ensures exists k :: Least(k, s)
  {
    var a :| a in s;
    LessTrichotomy(a, a);
    if s != {a} {
      var rest := s - {a};
      assert s == rest + {a};
      LeastExists(rest);
      var k :| Least(k, rest);
      var least := if Less(a, k) then a else k;
      forall x | x in s
        ensures AtMost(least, x)
      {
        Text.Order(a, k, x);
        Text.Order(k, a, x);
      }
      assert Least(least, s);
    } else {
      assert Least(a, s);
    }
  }

  /** The keys of a `std::map` in the order it is walked. */
  function SortedKeys(s: set<string>): seq<string>
    decreases |s|
  {
    if s == {} then []
    else
      LeastExists(s);
      LeastIsUnique(s);
      var k :| Least(k, s);
      [k] + SortedKeys(s - {k})
  }

  lemma LeastIsUnique(s: set<string>)
    ensures forall a, b :: Least(a, s) && Least(b, s) ==> a == b
  {
    forall a, b | Least(a, s) && Least(b, s)
      ensures a == b
    {
      LessTrichotomy(a, b);
    }
  }

  function Notional(op: OpenPos): real { op.pos.entryPrice * op.pos.qty }

  function Raise(m: map<string, real>, k: string, amount: real): map<string, real> {
    m[k := Get(m, k, 0.0) + amount]
  }

  function AddPosition(p: Portfolio, sym: string, op: OpenPos): Portfolio {
    p.(positions := p.positions + 1,
       perSymbol := Raise(p.perSymbol, sym, Notional(op)),
       perMarket := Raise(p.perMarket, op.pos.market, Notional(op)),
       perCategory := Raise(p.perCategory, op.pos.category, Notional(op)),
       openRisk := p.openRisk + Abs(op.pos.entryPrice - op.pos.stop) * op.pos.qty)
  }

  function AddPositions(p: Portfolio, open: map<string, OpenPos>, keys: seq<string>): Portfolio
    requires forall k :: k in keys ==> k in open
  {
    if keys == [] then p
    else
      var last := keys[|keys| - 1];
      assert last in keys;
      AddPosition(AddPositions(p, open, keys[..|keys| - 1]), last, open[last])
  }

  lemma {:induction false} SortedKeysAreTheKeys(s: set<string>)
    ensures forall k :: k in SortedKeys(s) <==> k in s
    ensures |SortedKeys(s)| == |s|
    ensures forall i, j :: 0 <= i < j < |SortedKeys(s)| ==> SortedKeys(s)[i] != SortedKeys(s)[j]
    decreases |s|
  {
    if s != {} {
      var keys := SortedKeys(s);
      SortedKeysAreTheKeys(s - {keys[0]});
      assert keys[1..] == SortedKeys(s - {keys[0]});
      assert keys == [keys[0]] + keys[1..];
    }
  }

  function RebuildPortfolio(b: Book, open: map<string, OpenPos>): Portfolio {
    SortedKeysAreTheKeys(open.Keys);
    AddPositions(Portfolio(b.equity, b.startOfDay, b.realizedToday, b.losses, 0, map[], map[], map[], 0.0),
                 open, SortedKeys(open.Keys))
  }

  // ----- One bar --------------------------------------------------------------------------

  function RollDay(b: Book, r: BarRow): Book {
    var day := DayOf(r.timestamp);
    if b.day != day then b.(day := day, startOfDay := b.equity, realizedToday := 0.0) else b
  }

  function ReleaseBrake(env: Env, b: Book, r: BarRow): Book {
    if b.release > 0 && env.epoch(r.timestamp) >= b.release then b.(losses := 0, release := 0) else b
  }

  function StartBar(env: Env, s: State, r: BarRow): State {
    s.(book := ReleaseBrake(env, RollDay(s.book, r), r))
  }

  function NotionalOf(env: Env, equity: real, sig: Signal): real {
    env.riskPct * equity * Max(Min(Clamp(sig.strength, 0.0, 1.0), env.scaleCap), 0.2)
  }

  function OrderFor(env: Env, equity: real, r: BarRow, sig: Signal): Order {
    var notional := NotionalOf(env, equity, sig);
    Order("alpaca", r.symbol, r.symbol, if IsCrypto(r.symbol) then "crypto" else "equity",
          sig.direction == Long, notional / Max(0.0001, r.open), r.open, notional, 1.0, 1.0, env.agreement)
  }

  /** The position an allowed order opens: priced at this bar's open, its cost from the
      history seen so far. */
  function Filled(env: Env, o: Order, history: seq<Bar>, r: BarRow, w: Waiting): OpenPos {
    var sig := w.signal;
    var volume := if history == [] then 0.0 else env.dollarVolume(history) * 78.0;
    var side := if IsCrypto(r.symbol) then env.cryptoFee else env.equityFee(r.open, volume, o.notional);
    OpenPos(Position(r.symbol, r.symbol, o.category, sig.factor, r.timestamp, sig.direction, r.open, o.qty,
                     sig.stop, sig.target, sig.timeStopBars, 0),
            r.timestamp, o.notional * side, side, w.atrZ, w.close, w.regime)
  }

  function Decide(env: Env, s: State, r: BarRow, w: Waiting): Verdict {
    env.gate(OrderFor(env, s.book.equity, r, w.signal), RebuildPortfolio(s.book, s.open))
  }

  function Block(s: State, r: BarRow, reason: string): State {
    s.(pending := s.pending - {r.symbol}, gateBlocks := s.gateBlocks + 1,
       output := s.output + [GateBlock(r.timestamp, r.symbol, reason)])
  }

  function Enter(s: State, symbol: string, op: OpenPos): State {
    s.(pending := s.pending - {symbol}, open := s.open[symbol := op])
  }

  function EntryOf(env: Env, s: State, r: BarRow, w: Waiting): OpenPos {
    Filled(env, OrderFor(env, s.book.equity, r, w.signal), Get(s.hist, r.symbol, []), r, w)
  }

  /** A pending entry fills at this bar's open, or the gate blocks it. */
  function FillPending(env: Env, s: State, r: BarRow): State {
    if r.symbol !in s.pending then s
    else
      var w := s.pending[r.symbol];
      match Decide(env, s, r, w)
      case Blocked(reason) => Block(s, r, reason)
      case Allowed => Enter(s, r.symbol, EntryOf(env, s, r, w))
  }

  function TradeOf(op: OpenPos, r: BarRow, reason: ExitReason, bar: Bar, equity: real): (t: Event)
    ensures t.Trade? && t.symbol == r.symbol && t.exitTs == r.timestamp
  {
    var exitPx := ExitPrice(op.pos, reason, bar);
    var pnl := RealizedPnl(op.pos, exitPx) - (exitPx * op.pos.qty * op.entrySideFee + op.entryFee);
    Trade(r.symbol, op.pos.factor, op.pos.category, op.entryTs, r.timestamp, op.pos.entryPrice, exitPx, reason,
          ReturnOf(op.pos, exitPx) - 2.0 * op.entrySideFee, pnl, op.pos.barsHeld, SpansBoth(op.pos, bar),
          op.atrZ, op.signalClose, equity + pnl, op.entrySideFee, op.regime, op.pos.stop, op.pos.target)
  }

  function Settle(env: Env, b: Book, ts: string, pnl: real): Book {
    var losses := if pnl >= 0.0 then 0 else b.losses + 1;
    b.(equity := b.equity + pnl, realizedToday := b.realizedToday + pnl, losses := losses,
       release := if losses >= env.lossCap && b.release == 0
                  then env.epoch(ts) + env.cooldownMinutes * 60 else b.release)
  }

  /** The state after the trade `t` that closes its symbol's position. */
  function Close(env: Env, s: State, t: Event): State
    requires t.Trade?
  {
    s.(book := Settle(env, s.book, t.exitTs, t.pnl),
       ambiguous := s.ambiguous + (if t.ambiguous then 1 else 0), trades := s.trades + 1,
       output := s.output + [t], open := s.open - {t.symbol})
  }

  function Aged(op: OpenPos): OpenPos { op.(pos := op.pos.(barsHeld := op.pos.barsHeld + 1)) }

  function ExitOf(env: Env, history: seq<Bar>, r: BarRow, op: OpenPos): ExitReason {
    CheckExit(op.pos, BarOf(env, r), env.rsi2Style && op.pos.factor == "reversion" && env.rsi2Exit(history))
  }

  /** The open position of this bar's symbol ages, and closes when an exit fires. */
  function ManageExit(env: Env, s: State, r: BarRow): State {
    if r.symbol !in s.open then s
    else
      var op := Aged(s.open[r.symbol]);
      var reason := ExitOf(env, Get(s.hist, r.symbol, []), r, op);
      if reason == NoExit then s.(open := s.open[r.symbol := op])
      else Close(env, s, TradeOf(op, r, reason, BarOf(env, r), s.book.equity))
  }

  function Noted(env: Env, s: State, r: BarRow): seq<Bar> {
    Capped(Get(s.hist, r.symbol, []) + [BarOf(env, r)])
  }

  function Pend(s: State, r: BarRow, sig: Signal, trace: Trace): State {
    s.(pending := s.pending[r.symbol := Waiting(sig, trace.atrZ, r.close, trace.regime)],
       output := s.output + [SignalOut(r.timestamp, r.symbol, sig.factor, trace.regime, trace.atrZ)])
  }

  /** History first, then the strategy is asked on the closed bar. */
  function Observe(env: Env, s: State, r: BarRow): State {
    var h := Noted(env, s, r);
    var seen := s.(hist := s.hist[r.symbol := h]);
    if !env.warm(|h|) || r.symbol in s.open || r.symbol in s.pending then seen
    else
      var (signal, trace) := env.evaluate(h, IsCrypto(r.symbol));
      match signal
      case Some(sig) => Pend(seen, r, sig, trace)
      case None =>
        if env.emitRejections then seen.(output := s.output + [Reject(r.timestamp, r.symbol, trace, r.close)])
        else seen
  }

  function Step(env: Env, s: State, r: BarRow): State {
    Observe(env, ManageExit(env, FillPending(env, StartBar(env, s, r), r), r), r)
  }

  function Run(env: Env, tape: seq<BarRow>): State {
    if tape == [] then Initial(env)
    else Step(env, Run(env, tape[..|tape| - 1]), tape[|tape| - 1])
  }
}
