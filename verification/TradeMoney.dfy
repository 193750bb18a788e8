/** The money of one round trip (core/backtest_main.cpp, the fill and the exit of `step`). */
module TradeMoney {
  import opened Tape
  import opened Backtest

  /** The entry fee is the side fee on the fill's own notional. */
  predicate FeeOfFill(op: OpenPos) { op.entryFee == op.pos.entryPrice * op.pos.qty * op.entrySideFee }

  lemma QuotientBack(x: real, d: real)
    requires d != 0.0
    ensures x / d * d == x
  {}

  lemma Reorder(x: real, y: real, z: real)
    ensures x * y * z == x * z * y
  {}

  /** A fill at a price the sizing does not floor pays its side fee on price times quantity. */
  lemma FillPaysItsFee(env: Env, s: State, r: BarRow, w: Waiting)
    requires r.open >= 0.0001
    ensures var op := EntryOf(env, s, r, w); FeeOfFill(op) && op.pos.entryPrice == r.open && op.entryTs == r.timestamp
  {
    var notional := NotionalOf(env, s.book.equity, w.signal);
    QuotientBack(notional, r.open);
  }

  /** Both sides pay the entry's fee: the net profit is the reported return on the entry notional,
      less the fee on the price move (for a short, on the exit notional). */
  lemma ProfitAgreesWithReturn(op: OpenPos, r: BarRow, reason: ExitReason, bar: Bar, equity: real)
    requires FeeOfFill(op) && op.pos.entryPrice > 0.0 && op.pos.direction != Flat
    requires op.pos.direction == Short ==> ExitPrice(op.pos, reason, bar) > 0.0
    ensures var t := TradeOf(op, r, reason, bar, equity);
            var entry, exit, q, f := op.pos.entryPrice, t.exitPx, op.pos.qty, op.entrySideFee;
            && exit == ExitPrice(op.pos, reason, bar) && t.equity == equity + t.pnl
            && t.pnl == if op.pos.direction == Long then entry * q * t.ret - f * q * (exit - entry)
                        else exit * q * t.ret - f * q * (entry - exit)
  {
    var entry, exit, q, f := op.pos.entryPrice, ExitPrice(op.pos, reason, bar), op.pos.qty, op.entrySideFee;
    if op.pos.direction == Long { Scaled(entry, exit, q, f); } else { Scaled(exit, entry, q, f); }
  }

  /** The return on `base` of a move to `other`, in money. */
  lemma Scaled(base: real, other: real, q: real, f: real)
    requires base > 0.0
    ensures base * q * (other / base - 1.0 - 2.0 * f) == (other - base) * q - 2.0 * f * q * base
  {
    QuotientBack(other, base);
    assert base * q * (other / base) == other * q by { Reorder(base, q, other / base); }
    Distribute(base * q, other / base, 2.0 * f);
  }

  lemma Distribute(m: real, x: real, y: real)
    ensures m * (x - 1.0 - y) == m * x - m - m * y
  {}
}
