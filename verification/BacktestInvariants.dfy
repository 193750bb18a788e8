/** What every run of the backtest keeps, at every bar. */
module BacktestInvariants {
  import opened Text
  import opened Tape
  import opened Backtest

  // ----- Reading the output ---------------------------------------------------------------

  function Signals(output: seq<Event>): nat {
    if output == [] then 0
    else Signals(output[..|output| - 1]) + (if output[|output| - 1].SignalOut? then 1 else 0)
  }

  function GateBlocks(output: seq<Event>): nat {
    if output == [] then 0
    else GateBlocks(output[..|output| - 1]) + (if output[|output| - 1].GateBlock? then 1 else 0)
  }

  function Trades(output: seq<Event>): nat {
    if output == [] then 0
    else Trades(output[..|output| - 1]) + (if output[|output| - 1].Trade? then 1 else 0)
  }

  /** The trades flagged as ambiguous. */
  function Flagged(output: seq<Event>): nat {
    if output == [] then 0
    else
      var last := output[|output| - 1];
      Flagged(output[..|output| - 1]) + (if last.Trade? && last.ambiguous then 1 else 0)
  }

  function TradePnl(output: seq<Event>): real {
    if output == [] then 0.0
    else TradePnl(output[..|output| - 1]) + (if output[|output| - 1].Trade? then output[|output| - 1].pnl else 0.0)
  }

  lemma Emitted(output: seq<Event>, e: Event)
    ensures Signals(output + [e]) == Signals(output) + (if e.SignalOut? then 1 else 0)
    ensures GateBlocks(output + [e]) == GateBlocks(output) + (if e.GateBlock? then 1 else 0)
    ensures Trades(output + [e]) == Trades(output) + (if e.Trade? then 1 else 0)
    ensures Flagged(output + [e]) == Flagged(output) + (if e.Trade? && e.ambiguous then 1 else 0)
    ensures TradePnl(output + [e]) == TradePnl(output) + (if e.Trade? then e.pnl else 0.0)
  {
    assert (output + [e])[..|output|] == output;
  }

  // ----- Conservation -----------------------------------------------------------------------

  /** Every signal is accounted for, no symbol is both pending and open, and the money balances. */
  ghost predicate Balanced(env: Env, s: State) {
    && s.pending.Keys !! s.open.Keys
    && Signals(s.output) == GateBlocks(s.output) + Trades(s.output) + |s.open| + |s.pending|
    && s.gateBlocks == GateBlocks(s.output) && s.trades == Trades(s.output) && s.ambiguous == Flagged(s.output)
    && s.book.equity == env.startingBalance + TradePnl(s.output)
    && s.book.equity == s.book.startOfDay + s.book.realizedToday
  }

  lemma RemoveKey<V>(m: map<string, V>, k: string)
    requires k in m
    ensures |m - {k}| == |m| - 1 && (m - {k}).Keys == m.Keys - {k}
  {
    assert (m - {k}).Keys == m.Keys - {k};
    assert m.Keys == (m.Keys - {k}) + {k};
    assert |(m - {k}).Keys| == |m - {k}|;
  }

  lemma AddKey<V>(m: map<string, V>, k: string, v: V)
    ensures m[k := v].Keys == m.Keys + {k}
    ensures |m[k := v]| == |m| + (if k in m then 0 else 1)
  {
    assert m[k := v].Keys == m.Keys + {k};
    assert |m[k := v].Keys| == |m[k := v]|;
    if k in m { assert m.Keys + {k} == m.Keys; }
  }

  lemma BlockBalances(env: Env, s: State, r: BarRow, reason: string)
    requires Balanced(env, s) && r.symbol in s.pending
    ensures Balanced(env, Block(s, r, reason))
  {
    RemoveKey(s.pending, r.symbol);
    Emitted(s.output, GateBlock(r.timestamp, r.symbol, reason));
  }

  lemma EnterBalances(env: Env, s: State, symbol: string, op: OpenPos)
    requires Balanced(env, s) && symbol in s.pending
    ensures Balanced(env, Enter(s, symbol, op))
  {
    RemoveKey(s.pending, symbol);
    AddKey(s.open, symbol, op);
  }

  lemma FillPendingBalances(env: Env, s: State, r: BarRow)
    requires Balanced(env, s)
    ensures Balanced(env, FillPending(env, s, r))
  {
    hide Decide, EntryOf, Block, Enter;
    if r.symbol in s.pending {
      var w := s.pending[r.symbol];
      match Decide(env, s, r, w)
      case Blocked(reason) => BlockBalances(env, s, r, reason);
      case Allowed => EnterBalances(env, s, r.symbol, EntryOf(env, s, r, w));
    }
  }

  lemma CloseBalances(env: Env, s: State, t: Event)
    requires Balanced(env, s) && t.Trade? && t.symbol in s.open
    ensures Balanced(env, Close(env, s, t))
  {
    RemoveKey(s.open, t.symbol);
    Emitted(s.output, t);
  }

  lemma ManageExitBalances(env: Env, s: State, r: BarRow)
    requires Balanced(env, s)
    ensures Balanced(env, ManageExit(env, s, r))
  {
    hide Close, TradeOf, ExitOf;
    if r.symbol in s.open {
      var op := Aged(s.open[r.symbol]);
      var reason := ExitOf(env, Get(s.hist, r.symbol, []), r, op);
      var t := TradeOf(op, r, reason, BarOf(env, r), s.book.equity);
      AddKey(s.open, r.symbol, op);
      CloseBalances(env, s, t);
    }
  }

  lemma PendBalances(env: Env, s: State, r: BarRow, sig: Signal, trace: Trace)
    requires Balanced(env, s) && r.symbol !in s.open && r.symbol !in s.pending
    ensures Balanced(env, Pend(s, r, sig, trace))
  {
    Emitted(s.output, SignalOut(r.timestamp, r.symbol, sig.factor, trace.regime, trace.atrZ));
    AddKey(s.pending, r.symbol, Waiting(sig, trace.atrZ, r.close, trace.regime));
  }

  lemma RejectBalances(env: Env, s: State, e: Event)
    requires Balanced(env, s) && e.Reject?
    ensures Balanced(env, s.(output := s.output + [e]))
  {
    Emitted(s.output, e);
  }

  lemma HistoryIsNoMoney(env: Env, s: State, hist: map<string, seq<Bar>>)
    requires Balanced(env, s)
    ensures Balanced(env, s.(hist := hist))
  {}

  lemma ObserveBalances(env: Env, s: State, r: BarRow)
    requires Balanced(env, s)
    ensures Balanced(env, Observe(env, s, r))
  {
    hide Pend, Noted, Balanced;
    var seen := s.(hist := s.hist[r.symbol := Noted(env, s, r)]);
    var (signal, trace) := env.evaluate(Noted(env, s, r), IsCrypto(r.symbol));
    HistoryIsNoMoney(env, s, seen.hist);
    RejectBalances(env, seen, Reject(r.timestamp, r.symbol, trace, r.close));
    if signal.Some? && r.symbol !in s.open && r.symbol !in s.pending {
      PendBalances(env, seen, r, signal.value, trace);
    }
  }

  lemma StartBalances(env: Env, s: State, r: BarRow)
    requires Balanced(env, s)
    ensures Balanced(env, StartBar(env, s, r))
  {}

  lemma StepBalances(env: Env, s: State, r: BarRow)
    requires Balanced(env, s)
    ensures Balanced(env, Step(env, s, r))
  {
    hide Balanced, StartBar, FillPending, ManageExit, Observe;
    var ready := StartBar(env, s, r);
    var filled := FillPending(env, ready, r);
    StartBalances(env, s, r);
    FillPendingBalances(env, ready, r);
    ManageExitBalances(env, filled, r);
    ObserveBalances(env, ManageExit(env, filled, r), r);
  }

  /** At every point of every run: signals = blocks + trades + open + pending, no symbol is
      both pending and open, and equity = balance + trade pnl = start of day + today. */
  lemma {:induction false} EveryRunBalances(env: Env, tape: seq<BarRow>)
    ensures Balanced(env, Run(env, tape))
  {
    if tape != [] {
      EveryRunBalances(env, tape[..|tape| - 1]);
      StepBalances(env, Run(env, tape[..|tape| - 1]), tape[|tape| - 1]);
    }
  }

  /** A fill of a balanced book finds its symbol closed and leaves every open position as it was. */
  lemma FillNeverOverwrites(env: Env, s: State, r: BarRow)
    requires Balanced(env, s)
    ensures r.symbol in s.pending ==> r.symbol !in s.open
    ensures forall sym :: sym in s.open ==>
              sym in FillPending(env, s, r).open && FillPending(env, s, r).open[sym] == s.open[sym]
  {
    hide Decide, EntryOf;
  }

  // ----- Parts of a step that leave the money alone --------------------------------------------

  lemma FillKeepsTheBook(env: Env, s: State, r: BarRow)
    ensures FillPending(env, s, r).book == s.book
  {
    hide Decide, EntryOf;
  }

  lemma ObserveKeepsTheBook(env: Env, s: State, r: BarRow)
    ensures Observe(env, s, r).book == s.book
  {
    hide Noted;
  }

  lemma PortfolioHeader(b: Book, open: map<string, OpenPos>)
    ensures var p := RebuildPortfolio(b, open);
            p.losses == b.losses && p.equity == b.equity
            && p.startOfDayEquity == b.startOfDay && p.realizedToday == b.realizedToday
  {
    SortedKeysAreTheKeys(open.Keys);
    HeaderKept(Portfolio(b.equity, b.startOfDay, b.realizedToday, b.losses, 0, map[], map[], map[], 0.0),
               open, SortedKeys(open.Keys));
  }

  lemma {:induction false} HeaderKept(p: Portfolio, open: map<string, OpenPos>, keys: seq<string>)
    requires forall k :: k in keys ==> k in open
    ensures var q := AddPositions(p, open, keys);
            q.losses == p.losses && q.equity == p.equity
            && q.startOfDayEquity == p.startOfDayEquity && q.realizedToday == p.realizedToday
  {
    if keys != [] { HeaderKept(p, open, keys[..|keys| - 1]); }
  }

  // ----- Exposure ---------------------------------------------------------------------------------

  ghost function Total(m: map<string, real>): real {
    if m == map[] then 0.0 else var k :| k in m; m[k] + Total(m - {k})
  }

  lemma {:induction false} TotalWithout(m: map<string, real>, k: string)
    requires k in m
    ensures Total(m) == m[k] + Total(m - {k})
  {
    var first :| first in m && Total(m) == m[first] + Total(m - {first});
    if first != k {
      TotalWithout(m - {first}, k);
      TotalWithout(m - {k}, first);
      assert (m - {first}) - {k} == (m - {k}) - {first};
    }
  }

  lemma TotalRaised(m: map<string, real>, k: string, amount: real)
    ensures Total(Raise(m, k, amount)) == Total(m) + amount
  {
    var raised := Raise(m, k, amount);
    TotalWithout(raised, k);
    assert raised - {k} == m - {k};
    if k in m {
      TotalWithout(m, k);
    } else {
      assert m - {k} == m;
    }
  }

  /** The notional of the positions held under `keys`. */
  function NotionalUnder(open: map<string, OpenPos>, keys: seq<string>): real
    requires forall k :: k in keys ==> k in open
  {
    if keys == [] then 0.0
    else
      var last := keys[|keys| - 1];
      assert last in keys;
      NotionalUnder(open, keys[..|keys| - 1]) + Notional(open[last])
  }

  lemma {:induction false} ExposuresAdd(p: Portfolio, open: map<string, OpenPos>, keys: seq<string>)
    requires forall k :: k in keys ==> k in open
    ensures var q := AddPositions(p, open, keys);
            && Total(q.perSymbol) == Total(p.perSymbol) + NotionalUnder(open, keys)
            && Total(q.perMarket) == Total(p.perMarket) + NotionalUnder(open, keys)
            && Total(q.perCategory) == Total(p.perCategory) + NotionalUnder(open, keys)
            && q.positions == p.positions + |keys|
  {
    if keys != [] {
      var last := keys[|keys| - 1];
      assert last in keys;
      var before := AddPositions(p, open, keys[..|keys| - 1]);
      ExposuresAdd(p, open, keys[..|keys| - 1]);
      TotalRaised(before.perSymbol, last, Notional(open[last]));
      TotalRaised(before.perMarket, open[last].pos.market, Notional(open[last]));
      TotalRaised(before.perCategory, open[last].pos.category, Notional(open[last]));
    }
  }

  ghost function Notionals(open: map<string, OpenPos>): map<string, real> {
    map k | k in open :: Notional(open[k])
  }

  ghost function SumOver(m: map<string, real>, keys: seq<string>): real
    requires forall k :: k in keys ==> k in m
  {
    if keys == [] then 0.0
    else
      var last := keys[|keys| - 1];
      assert last in keys;
      SumOver(m, keys[..|keys| - 1]) + m[last]
  }

  lemma {:induction false} NotionalIsSum(open: map<string, OpenPos>, keys: seq<string>)
    requires forall k :: k in keys ==> k in open
    ensures NotionalUnder(open, keys) == SumOver(Notionals(open), keys)
  {
    if keys != [] {
      assert keys[|keys| - 1] in keys;
      NotionalIsSum(open, keys[..|keys| - 1]);
    }
  }

  lemma {:induction false} SumIsTotal(m: map<string, real>, keys: seq<string>, whole: map<string, real>)
    requires forall k :: k in keys <==> k in m
    requires forall i, j :: 0 <= i < j < |keys| ==> keys[i] != keys[j]
    requires forall k :: k in m ==> k in whole && whole[k] == m[k]
    ensures SumOver(whole, keys) == Total(m)
  {
    if keys == [] {
      assert m == map[];
    } else {
      var n := |keys| - 1;
      var last := keys[n];
      assert last in keys;
      TotalWithout(m, last);
      SumIsTotal(m - {last}, keys[..n], whole);
    }
  }

  /** The exposures rebuilt for the gate, by symbol, by market and by category, each sum to
      the open notional, and every open position is counted once. */
  lemma ExposuresSumToOpenNotional(b: Book, open: map<string, OpenPos>)
    ensures var p := RebuildPortfolio(b, open);
            && Total(p.perSymbol) == Total(Notionals(open))
            && Total(p.perMarket) == Total(Notionals(open))
            && Total(p.perCategory) == Total(Notionals(open))
            && p.positions == |open|
  {
    hide AddPositions, SortedKeys;
    var keys := SortedKeys(open.Keys);
    SortedKeysAreTheKeys(open.Keys);
    ExposuresAdd(Portfolio(b.equity, b.startOfDay, b.realizedToday, b.losses, 0, map[], map[], map[], 0.0),
                 open, keys);
    NotionalIsSum(open, keys);
    SumIsTotal(Notionals(open), keys, Notionals(open));
  }
}
