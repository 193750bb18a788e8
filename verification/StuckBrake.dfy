/** Two runs whose loss brake never releases: bars without a time of day, which all read as the
    epoch, and bars from before 1970, whose release time is below zero. */
module StuckBrake {
  import opened Text
  import opened Tape
  import opened Backtest
  import opened BacktestInvariants
  import opened LossBrake
  import Clock = Epoch

  /** A strategy that always buys, a gate that blocks at one loss, four hours of cooldown, and the
      source's own reading of timestamps. */
  const STRICT := Env(
    (n: nat) => true,
    (h: seq<Bar>, crypto: bool) => (Some(Signal(Long, "momentum", 1.0, 95.0, 110.0, 0)), Trace("trending", 0.0, "")),
    (h: seq<Bar>) => false,
    (o: Order, p: Portfolio) => if p.losses >= 1 then Blocked("max_consecutive_losses") else Allowed,
    (price: real, volume: real, notional: real) => 0.0,
    (h: seq<Bar>) => 0.0,
    (ts: string) => Clock.Epoch(ts),
    0.0, 1000.0, 0.01, 1.0, false, false, false, 1, 240, 1)

  /** A bar that opens at 100 and falls through a stop at 95. */
  function Falling(ts: string): BarRow {
    BarRow("alpaca", "SPY", "5Min", ts, 100.0, 101.0, 90.0, 92.0, 1.0, "alpaca", "alpaca")
  }

  /** One loss taken, nothing open, no second trade, and the given release time. */
  predicate Tripped(s: State, release: int) {
    s.book.losses == 1 && s.book.release == release && s.open == map[] && s.trades == 1
  }

  const ENTRY := Waiting(Signal(Long, "momentum", 1.0, 95.0, 110.0, 0), 0.0, 92.0, "trending")

  lemma FirstBarSignals(ts: string)
    ensures var s := Run(STRICT, [Falling(ts)]);
            && s.pending == map["SPY" := ENTRY] && s.open == map[] && s.trades == 0
            && s.book.losses == 0 && s.book.release == 0 && s.book.equity == 1000.0
  {
    assert [Falling(ts)][..0] == [];
    assert Run(STRICT, [Falling(ts)]) == Step(STRICT, Initial(STRICT), Falling(ts));
  }

  lemma EmptyPortfolio(b: Book)
    ensures RebuildPortfolio(b, map[]).losses == b.losses
  {
    PortfolioHeader(b, map[]);
  }

  /** The pending entry fills at 100 and is stopped out at 95 on the same bar. */
  lemma SecondBarLoses(s: State, ts: string)
    requires s.pending == map["SPY" := ENTRY] && s.open == map[] && s.trades == 0
    requires s.book.losses == 0 && s.book.release == 0 && s.book.equity == 1000.0
    ensures Tripped(Step(STRICT, s, Falling(ts)), Clock.Epoch(ts) + 14_400)
  {
    hide RebuildPortfolio, Clock.Epoch, Noted;
    var r := Falling(ts);
    var ready := StartBar(STRICT, s, r);
    EmptyPortfolio(ready.book);
    var filled := FillPending(STRICT, ready, r);
    var op := EntryOf(STRICT, ready, r, ENTRY);
    assert filled.open == map["SPY" := op];
    assert op.pos.qty == 0.1;
    var closed := ManageExit(STRICT, filled, r);
    assert closed.open == map[];
  }

  lemma TwoBarsTrip(first: string, second: string)
    ensures Tripped(Run(STRICT, [Falling(first), Falling(second)]), Clock.Epoch(second) + 14_400)
  {
    hide Step;
    var tape := [Falling(first), Falling(second)];
    assert tape[..1] == [Falling(first)];
    FirstBarSignals(first);
    SecondBarLoses(Run(STRICT, tape[..1]), second);
  }

  /** A bar that does not reach the release time finds the gate closed and changes nothing. */
  lemma StaysTripped(s: State, release: int, r: BarRow)
    requires Tripped(s, release) && (release < 0 || Clock.Epoch(r.timestamp) < release)
    ensures Tripped(Step(STRICT, s, r), release)
  {
    hide RebuildPortfolio, Clock.Epoch, Noted, OrderFor;
    var ready := StartBar(STRICT, s, r);
    EmptyPortfolio(ready.book);
    assert FillPending(STRICT, ready, r).open == map[];
  }

  lemma {:induction false} StaysTrippedOn(tape: seq<BarRow>, release: int, rest: seq<BarRow>)
    requires Tripped(Run(STRICT, tape), release)
    requires release < 0 || forall r :: r in rest ==> Clock.Epoch(r.timestamp) < release
    ensures Tripped(Run(STRICT, tape + rest), release)
  {
    hide Step, Tripped, Clock.Epoch;
    if rest == [] {
      assert tape + rest == tape;
    } else {
      var n := |rest| - 1;
      StaysTrippedOn(tape, release, rest[..n]);
      assert (tape + rest)[..|tape + rest| - 1] == tape + rest[..n];
      StaysTripped(Run(STRICT, tape + rest[..n]), release, rest[n]);
    }
  }

  /** With date-only bars the release time is four hours past the epoch, and no bar ever reaches it:
      one loss, and the harness never trades again. */
  lemma DateOnlyBarsNeverRelease(rest: seq<BarRow>)
    requires forall r :: r in rest ==> 'T' !in r.timestamp
    ensures Tripped(Run(STRICT, [Falling("2024-01-04"), Falling("2024-01-05")] + rest), 14_400)
  {
    hide Tripped, Run, Clock.Epoch;
    TwoBarsTrip("2024-01-04", "2024-01-05");
    Clock.DateOnlyIsZero("2024-01-05");
    forall r | r in rest
      ensures Clock.Epoch(r.timestamp) < 14_400
    {
      Clock.DateOnlyIsZero(r.timestamp);
    }
    StaysTrippedOn([Falling("2024-01-04"), Falling("2024-01-05")], 14_400, rest);
  }

  lemma DigitsOfYear()
    ensures Natural("1969") == 1969
  {
    assert "1969"[..3] == "196" && "196"[..2] == "19" && "19"[..1] == "1" && "1"[..0] == "";
    assert Natural("1") == 1 && Natural("19") == 19 && Natural("196") == 196;
  }

  lemma TwoDigits(s: string)
    requires |s| == 2 && Digits(s)
    ensures Natural(s) == 10 * DigitValue(s[0]) + DigitValue(s[1])
  {
    assert s[..1] == [s[0]] && s[..1][..0] == "";
    assert Natural(s[..1]) == DigitValue(s[0]);
  }

  lemma LastEvening()
    ensures Clock.Epoch("1969-12-31T00:05:00Z") == -86_100
  {
    hide Natural, Clock.ScanNumbers;
    var numerals := ["1969", "12", "31", "00", "05", "00"];
    Clock.ScansNumerals(numerals, Clock.SEPARATORS, "Z");
    SpacedText();
    DigitsOfYear();
    TwoDigits("12");
    TwoDigits("31");
    TwoDigits("00");
    TwoDigits("05");
    assert Clock.Naturals(numerals) == [1969, 12, 31, 0, 5, 0];
    assert Clock.SecondsOf(1969, 12, 31, 0, 5, 0) == -86_100;
  }

  lemma SpacedText()
    ensures Clock.Spaced(["1969", "12", "31", "00", "05", "00"], Clock.SEPARATORS, "Z") == "1969-12-31T00:05:00Z"
  {}

  /** Before 1970 the release time is below zero, where it is neither cleared nor set again, whatever
      bars follow. */
  lemma BarsBefore1970NeverRelease(rest: seq<BarRow>)
    ensures var tape := [Falling("1969-12-31T00:00:00Z"), Falling("1969-12-31T00:05:00Z")];
            Tripped(Run(STRICT, tape + rest), -71_700)
  {
    hide Tripped, Run, Clock.Epoch;
    TwoBarsTrip("1969-12-31T00:00:00Z", "1969-12-31T00:05:00Z");
    LastEvening();
    StaysTrippedOn([Falling("1969-12-31T00:00:00Z"), Falling("1969-12-31T00:05:00Z")], -71_700, rest);
  }
}
