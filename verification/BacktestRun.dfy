/** The backtest as the code runs it (core/backtest_main.cpp): one book, updated in place by
    the step that the tape calls for each bar. */
module BacktestRun {
  import opened Text
  import opened Tape
  import opened Backtest
  import opened BacktestInvariants
  import opened Lookahead

  lemma AddPositionsStep(p: Portfolio, open: map<string, OpenPos>, keys: seq<string>, i: nat)
    requires i < |keys| && forall k :: k in keys ==> k in open
    ensures AddPositions(p, open, keys[..i + 1]) == AddPosition(AddPositions(p, open, keys[..i]), keys[i], open[keys[i]])
  {
    assert keys[..i + 1][..i] == keys[..i];
  }

  class Harness {
    const env: Env
    var equity: real
    var startOfDay: real
    var day: string
    var realizedToday: real
    var losses: int
    var release: int
    var open: map<string, OpenPos>
    var hist: map<string, seq<Bar>>
    var pending: map<string, Waiting>
    var trades: nat
    var ambiguous: nat
    var gateBlocks: nat
    var output: seq<Event>

    constructor (env: Env)
      ensures this.env == env && Value() == Initial(env)
    {
      this.env := env;
      equity, startOfDay, day, realizedToday := env.startingBalance, env.startingBalance, "", 0.0;
      losses, release := 0, 0;
      open, hist, pending := map[], map[], map[];
      trades, ambiguous, gateBlocks, output := 0, 0, 0, [];
    }

    function TheBook(): Book
      reads this
    {
      Book(equity, startOfDay, day, realizedToday, losses, release)
    }

    function Value(): State
      reads this
    {
      State(TheBook(), open, hist, pending, trades, ambiguous, gateBlocks, output)
    }

    /** Roll the daily ledger and release the loss brake. */
    method BeginBar(r: BarRow)
      modifies this`day, this`startOfDay, this`realizedToday, this`losses, this`release
      ensures Value() == StartBar(env, old(Value()), r)
    {
      var today := DayOf(r.timestamp);
      if day != today {
        day, startOfDay, realizedToday := today, equity, 0.0;
      }
      var barEpoch := env.epoch(r.timestamp);
      if release > 0 && barEpoch >= release {
        losses, release := 0, 0;
      }
    }

    /** The portfolio rebuilt position by position, in the order the map is walked. */
    method Rebuild() returns (p: Portfolio)
      ensures p == RebuildPortfolio(TheBook(), open)
    {
      hide AddPosition, SortedKeys;
      var keys := SortedKeys(open.Keys);
      SortedKeysAreTheKeys(open.Keys);
      p := Portfolio.Portfolio(equity, startOfDay, realizedToday, losses, 0, map[], map[], map[], 0.0);
      ghost var empty := p;
      for i := 0 to |keys|
        invariant p == AddPositions(empty, open, keys[..i])
      {
        AddPositionsStep(empty, open, keys, i);
        p := AddPosition(p, keys[i], open[keys[i]]);
      }
      assert keys[..|keys|] == keys;
    }

    method Ask(r: BarRow, w: Waiting) returns (v: Verdict)
      ensures v == Decide(env, Value(), r, w)
    {
      hide RebuildPortfolio, OrderFor;
      var order := OrderFor(env, equity, r, w.signal);
      var portfolio := Rebuild();
      v := env.gate(order, portfolio);
    }

    method BlockEntry(r: BarRow, reason: string)
      modifies this`pending, this`gateBlocks, this`output
      ensures Value() == Block(old(Value()), r, reason)
    {
      gateBlocks := gateBlocks + 1;
      output := output + [GateBlock(r.timestamp, r.symbol, reason)];
      pending := pending - {r.symbol};
    }

    method OpenPosition(symbol: string, op: OpenPos)
      modifies this`open, this`pending
      ensures Value() == Enter(old(Value()), symbol, op)
    {
      open := open[symbol := op];
      pending := pending - {symbol};
    }

    method Fill(r: BarRow)
      modifies this`open, this`pending, this`gateBlocks, this`output
      ensures Value() == FillPending(env, old(Value()), r)
    {
      hide EntryOf, Decide, Enter, Block;
      if r.symbol in pending {
        var w := pending[r.symbol];
        var entry := EntryOf(env, Value(), r, w);
        var verdict := Ask(r, w);
        match verdict {
          case Blocked(reason) => BlockEntry(r, reason);
          case Allowed => OpenPosition(r.symbol, entry);
        }
      }
    }

    method SettleTrade(ts: string, pnl: real)
      modifies this`equity, this`realizedToday, this`losses, this`release
      ensures TheBook() == Settle(env, old(TheBook()), ts, pnl)
    {
      equity, realizedToday := equity + pnl, realizedToday + pnl;
      losses := if pnl >= 0.0 then 0 else losses + 1;
      if losses >= env.lossCap && release == 0 {
        release := env.epoch(ts) + env.cooldownMinutes * 60;
      }
    }

    method ClosePosition(t: Event)
      requires t.Trade?
      modifies this`equity, this`realizedToday, this`losses, this`release
      modifies this`open, this`trades, this`ambiguous, this`output
      ensures Value() == Close(env, old(Value()), t)
    {
      hide Settle;
      SettleTrade(t.exitTs, t.pnl);
      ambiguous := ambiguous + (if t.ambiguous then 1 else 0);
      trades := trades + 1;
      output := output + [t];
      open := open - {t.symbol};
    }

    method Exit(r: BarRow)
      modifies this`equity, this`realizedToday, this`losses, this`release
      modifies this`open, this`trades, this`ambiguous, this`output
      ensures Value() == ManageExit(env, old(Value()), r)
    {
      hide TradeOf, ExitOf, Close;
      if r.symbol in open {
        var op := Aged(open[r.symbol]);
        var reason := ExitOf(env, Get(hist, r.symbol, []), r, op);
        if reason == NoExit {
          open := open[r.symbol := op];
        } else {
          ClosePosition(TradeOf(op, r, reason, BarOf(env, r), equity));
        }
      }
    }

    method Entry(r: BarRow)
      modifies this`hist, this`pending, this`output
      ensures Value() == Observe(env, old(Value()), r)
    {
      hide Noted;
      var h := Noted(env, Value(), r);
      hist := hist[r.symbol := h];
      if !env.warm(|h|) || r.symbol in open || r.symbol in pending {
        return;
      }
      var (signal, trace) := env.evaluate(h, IsCrypto(r.symbol));
      match signal {
        case Some(sig) =>
          pending := pending[r.symbol := Waiting(sig, trace.atrZ, r.close, trace.regime)];
          output := output + [SignalOut(r.timestamp, r.symbol, sig.factor, trace.regime, trace.atrZ)];
        case None =>
          if env.emitRejections {
            output := output + [Reject(r.timestamp, r.symbol, trace, r.close)];
          }
      }
    }

    method OnBar(r: BarRow)
      modifies this
      ensures Value() == Step(env, old(Value()), r)
    {
      hide StartBar, FillPending, ManageExit, Observe;
      BeginBar(r);
      Fill(r);
      Exit(r);
      Entry(r);
    }
  }

  /** A whole run: what the harness holds at the end balances, and every price in it is traced
      to the bars it came from. */
  method Simulate(env: Env, tape: seq<BarRow>) returns (h: Harness)
    ensures fresh(h) && h.Value() == Run(env, tape)
    ensures Balanced(env, h.Value()) && Traced(env, tape, h.Value())
  {
    hide Step, Balanced, Traced;
    h := new Harness(env);
    for i := 0 to |tape|
      invariant fresh(h) && h.env == env && h.Value() == Run(env, tape[..i])
    {
      h.OnBar(tape[i]);
      assert tape[..i + 1][..i] == tape[..i];
    }
    assert tape[..|tape|] == tape;
    EveryRunBalances(env, tape);
    EveryRunIsTraced(env, tape);
  }
}
