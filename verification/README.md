# AiTrader: verified model

A Dafny model of the parts of AiTrader whose guarantees only an argument over every input, every
order of events or every run can settle, with proofs of those guarantees. Check it with
`dafny verify dfyconfig.toml`.

## What is modelled

**Backtest tape and book** (`core/backtest_main.cpp`). `Tape` gives the two ways to deliver the bars:
hold the whole sorted tape, or walk the database in monthly windows. `BarWalk` has both as loops with
the per-symbol counters, `TapeRefinement` proves when they deliver the same bars in the same order, and
`TapeCounts` when each bar comes once and the counters agree.
`Backtest` is the per-bar step over pending signals, open positions, money, loss brake and rolling
history, `BacktestRun` the same step on a class that updates its fields in place.
`BacktestInvariants`, `TradeMoney`, `Lookahead` and `LossBrake` prove what every run keeps, `GateView` what
the gate is shown, `BarRules` when the day turns, the gate is asked and a signal is taken, `EveryStrategy`
what a tape decides about the loss brake for every strategy; `Epoch` reads timestamps as the harness's
clock does (`core/util.cpp`), and `StuckBrake` has two runs whose loss brake never releases.

**The control file** (`api_server/controls.py`, `core/bridge_client.cpp`, `core/layer_toggles.hpp`,
`core/operator_controls.hpp`, `core/adaptive_controls.hpp`). `Controls` and `ControlRules` are Python's
reader and writer: clamps, narrowing, the feed rule, and the round trip through the file;
`ControlDefaults` is what the two start from, `ControlValues` and `ControlStates` what each value of a saved
file comes to.
`ControlSetters` has the setters on a class that holds the file's object. `JsonText` prints a document
character by character, `JsonStrings` reads its strings back; `FlatReader` is the engine's flat first-match search, `FlatMeaning` and
`FlatNumerals` what it reads in any text, `FlatReading` and `FlatValues` what it reads in a printed document,
`EngineReading` what the engine's readers make of any file; `ControlNames`, `ControlReading`,
`ControlDocuments`, `EngineControls` and `EngineView` put the two sides together: the engine reads what Python wrote, in whatever order the
members stand. `AtomicFile` is the temp-file-and-rename protocol as a state machine over system calls, `AtomicRuns` what
one undisturbed write, read or sweep does.

**YAML subset** (`config/yaml.cpp`, `split_csv` in `config/config.cpp`). `Yaml` is the parser over values,
`YamlTree` the parser as it runs, on heap nodes with a stack of open ones, `YamlComments` what each kind of
line reads as and what comments and quotes do, `YamlPrinting` a printer that parsing undoes, `YamlIndents`
what indentation does to the parser's errors, and `CsvLists` what any list of names splits into.

**Adaptive poll runner** (`adaptive/run.py`, `store.py`, `actions.py`, `news_feed.py`,
`core/adaptive_actions.hpp`). `Actions`, `AdaptiveStore` and `AdaptivePoll` model one poll over the four
tables, `AdaptiveRunner` the same poll with tables updated in place, `PollEffects` and `PollRows` what a
reading causes and a poll does, said on the tables. `AdaptiveGuarantees` and
`AdaptiveOrder` prove what holds after every sequence of polls, `Backlog` what becomes of one event over
a sequence, `HeldFirst` when a poll reads the names held first.

**Universe and report** (`backtest/universe.py`, `backtest/report.py`). `Segments`, `Formation`, `Ranking`,
`Median`, `Report` and `Wilson`.

`Text`, `Numbers` and `Sorting` hold what the others share: the order of strings by character, searching,
trimming and numerals; how far doubles reach; a stable sort and the uniqueness of sorted sequences.

## How the source is read

- Floats are reals. The exceptions are where a value that is no number changes a branch: what
  `json.load` gives Python (infinities, NaN) and what `stod` gives the engine's number reader.
- `strategy::evaluate`, `indicators_warm`, `rsi2_exit_triggered`, `RiskGate::evaluate`, the fee schedules
  and `iso8601_to_epoch` are parameters of a run; the two runs of `StuckBrake` use the last one as the
  source defines it. A range read of bars is a filter inclusive at both ends, an empty bound meaning none.
- SQLite tables are sequences of rows whose id is the position plus one; the unique key on
  `dedupe_key` is the insert's guard. Timestamps of the adaptive tables are seconds.
- `int(str)`, `float(str)`, the square root, the model's answers, the feed and the watchlist's
  acceptance are parameters.
- A conversion to an int that the C++ standard leaves undefined may give any int (`wild`).
- A loop in the source is a loop here, on a class where the source updates fields in place, and each is
  tied to a function the lemmas speak about.

## Where the code differs from its own promises

- The streaming walk prints month bounds with `%04d`. Past November 9999 the bound has five digits and
  sorts among the stamps of the year 1000, so a tape that reaches into December 9999 is walked over
  again. `TapeRefinement.StreamingIsTheHeldTape` says exactly when the two paths agree, and
  `TapeCounts.EachBarOnce` when each bar comes once and the `usable` counts are the same.
- Every field a hand-edited control file can carry is re-clamped on read, but an infinity in an integer
  field, or an integer beyond the range of a double in a float field, raises an error that
  `read_controls` does not catch (`ControlRules.ReadControlsKeepsTheRules`); it does so for
  `{"budget": {"council_daily_budget": Infinity}}` (`ControlRules.InfiniteBudgetRaises`).
- The engine's re-validation lets a not-a-number trim fraction through, as every comparison with it is
  false (`EngineControls.AnyFileReadsValid`, `EngineView.NotANumberIsKept`), and its cooldown has no
  lower clamp for a number that fits no int (`EngineControls.CooldownHoldsIffItFits`): a file that says
  3000000000 shows it (`EngineView.LargeCooldownEscapes`).
- The atomic write rests on a temp name not being handed out again while a process still goes by it,
  which `mkstemp` does not promise once a sweep has removed the file (`AtomicFile.HeldNameIsPublished`,
  `AtomicFile.ReusedNameIsPublished`).
- `config/yaml.hpp:27-28` announces an error on inconsistent indentation. The parser has none: only a tab
  in front of a line and a line without a colon fail (`Yaml.FailsAtTheFirstBadLine`), and the number of
  spaces never matters to that (`YamlIndents.IndentationIsNoError`, `YamlIndents.UnevenIndentsParse`).
- Held names are not always read first. A poll is offered at most fifty events of the backlog beside the
  new ones, so a held event is passed over exactly when more held events wait than that, more calls are
  allowed than that, and the poll brings news on a name not held (`HeldFirst.HeldComeFirstIff`). Two
  polls from empty tables show it (`HeldFirst.HeldLeftForUnheld`).
- A `watchlist_add` that is not in normal form is classed as shaping but compared as it stands, so it
  removes the symbol (`Actions.UnnormalizedAddPrunes`).
- With a window of no sessions a formation date's window ends after it
  (`Formation.EmptyWindowLooksAhead`).
- The backtest's loss brake can hold for good. A counter at the cap always has a release time above zero
  exactly when the cap is at least one and each losing close that reaches it comes at a time after which
  the cooldown ends past 1970 (`LossBrake.ReleaseIsAlwaysSetIff`; for every strategy on a tape at once,
  `EveryStrategy.BrakeHoldsForEveryStrategyIff`), and the brake is released exactly when
  a later bar's own time reaches that moment (`LossBrake.ReleasedIffReached`). `iso8601_to_epoch` gives 0
  for a stamp without a time of day, so with date-only bars none ever does
  (`StuckBrake.DateOnlyBarsNeverRelease`); before 1970 the release time is negative and is never looked
  at (`StuckBrake.BarsBefore1970NeverRelease`).

## Model

| member | source | states |
|---|---|---|
| TapeRefinement.StreamingIsTheHeldTape | core/backtest_main.cpp:249-321 | The default monthly walk delivers exactly the held, sorted tape, in the same order, for every database with unique rows and well-formed stamps and every start and end, if and only if no row lies where a walk past December 9999 passes again. |
| TapeRefinement.DecemberTapeIsNotTheHeldTape | core/backtest_main.cpp:293-320 | A database of two bars for which the walk delivers a bar twice. |
| TapeCounts.EachBarOnce | core/backtest_main.cpp:249-321 | For distinct rows and symbols the held tape holds each bar asked for once and no other; the walk does so too, and counts as many bars of every symbol, if and only if it passes over no row again. |
| TapeRefinement.RegularWalk | core/backtest_main.cpp:293-320 | While the months keep four digits the walk delivers each row between the clamped bounds as often as the database holds it, in the tape's order, and nothing else. |
| TapeRefinement.CrossingWalk | core/backtest_main.cpp:293-320 | A walk into December 9999 delivers a part up to that month and then every row from the year 1000 on once more. |
| TapeRefinement.RewalkedRow | core/backtest_main.cpp:293-320 | A walk that passes over a row again delivers every row of the held tape, and that one once more. |
| TapeRefinement.StreamFromDelivers | core/backtest_main.cpp:297-320 | From a month boundary on, the remaining windows deliver exactly the later rows up to the end, none twice although both window edges are inclusive. |
| TapeRefinement.WindowDelivers | core/backtest_main.cpp:298-314 | One window delivers, sorted, the rows between its inclusive edges less those at or before the previous bound. |
| TapeRefinement.HeldTapeDelivers | core/backtest_main.cpp:251-262 | The held tape holds exactly the rows that the database's span clamped to start and end selects: clamping loses and adds nothing. |
| TapeRefinement.StampBeforeNextMonth | core/backtest_main.cpp:294-298 | As strings, a stamp sorts before the printed first instant of the next month, outside December 9999. |
| Tape.BoundsAreStamps | core/backtest_main.cpp:266-294 | The clamped bounds are stamps or empty, so the year and month read from them parse. |
| Tape.RangeReadIsOrdered | storage/storage.cpp:602-620 | A range read comes in the order of time, whatever the order of the rows in the database. |
| Tape.BoundsAreClamped | core/backtest_main.cpp:285-286 | The walk's bounds are the least and greatest timestamp, or the start and end asked for where those lie further in. |
| Tape.ExtremesAreRows | core/backtest_main.cpp:270-284 | The least and greatest timestamp of the database are timestamps of rows and enclose all others. |
| BarWalk.Walk.Stream | core/backtest_main.cpp:265-320 | The window loop ends, calls back with the streamed rows in order and keeps the per-symbol usable counts equal to what was delivered. |
| BarWalk.Walk.HoldTape | core/backtest_main.cpp:251-263 | The held path calls back with the held tape in order, with the same counts. |
| BarWalk.Walk.LoadTape | core/backtest_main.cpp:252-257 | Reading symbol after symbol and sorting once gives the held tape. |
| BarWalk.Walk.ReadWindow | core/backtest_main.cpp:299-310 | The rows of one window, those of the previous one dropped, sorted. |
| BarWalk.Walk.DeliverAll | core/backtest_main.cpp:258-261 | Delivering appends the rows and counts each under its symbol. |
| BacktestInvariants.EveryRunBalances | core/backtest_main.cpp:385-602 | After every bar of every run: signals emitted equal gate blocks plus trades plus open positions plus pending signals, no symbol is both pending and open, and equity is the starting balance plus all trade profits and the day's start plus the day's profit. |
| BacktestInvariants.FillNeverOverwrites | core/backtest_main.cpp:406-474 | A fill finds its symbol without a position and leaves every other position as it was. |
| LossBrake.ReleaseIsAlwaysSetIff | core/backtest_main.cpp:385-592 | Throughout a run a counter at or above the cap has a release time above zero, if and only if the cap is at least one and every losing close that takes the counter to the cap with no release set comes on a bar whose epoch plus the cooldown is above zero. |
| LossBrake.ReleaseIsTraced | core/backtest_main.cpp:509-518 | In every run a release time is the epoch plus the cooldown of an earlier bar whose close lost and reached the cap, and no bar since has come at or after it. |
| LossBrake.TripEmitsALoss | core/backtest_main.cpp:519-541 | That bar left its losing trade in the output. |
| LossBrake.HoldsUntilReached | core/backtest_main.cpp:396-400 | A release time stays as it is until a bar reaches it, wins and losses coming in any order; one below zero stays for good. |
| LossBrake.ReleasedIffReached | core/backtest_main.cpp:396-400 | Every later bar is still judged under the release time if and only if none of them comes at or after it. |
| LossBrake.FirstReachedIsJudgedAfresh | core/backtest_main.cpp:396-442 | The first bar at or after the release time clears it and shows the gate a loss counter of zero. |
| LossBrake.StepSettles | core/backtest_main.cpp:385-592 | A bar touches the money and the brake only at its start and by at most one close, whose trade it emits. |
| LossBrake.CounterIsStreak | core/backtest_main.cpp:509-518 | The loss counter is the number of trades since the last win or release, all of them losses. |
| EveryStrategy.BrakeHoldsForEveryStrategyIff | core/backtest_main.cpp:385-592 | For a tape whose time does not go back, a cap and a cooldown: under every strategy, gate, fee schedule and sizing a counter at the cap always has a release time above zero, if and only if the cap is at least one and the bar that is as many-th as the cap among those whose symbol came before has an epoch that plus the cooldown is above zero. |
| EveryStrategy.EnoughForEveryStrategy | core/backtest_main.cpp:385-592 | On any tape it is enough that every such bar from that one on ends its cooldown above zero. |
| EveryStrategy.TripNeedsCloses | core/backtest_main.cpp:404-518 | Whatever the strategy, a release time is set only at a bar whose symbol came before, and not before as many such bars as the cap. |
| EveryStrategy.LoserTrips | core/backtest_main.cpp:404-518 | For every tape and cap there is a strategy that loses at each of those bars and sets its release time at the one that reaches the cap. |
| StuckBrake.DateOnlyBarsNeverRelease | core/util.cpp:38-41 | A strategy that always buys, a cap of one loss and a cooldown of four hours: two date-only bars trip the brake, and after any number of further ones there has been no second trade. |
| StuckBrake.BarsBefore1970NeverRelease | core/backtest_main.cpp:396-400 | The same with two bars of 1969: the release time is negative, and whatever bars follow there is no second trade. |
| Epoch.DateOnlyIsZero | core/util.cpp:38-41 | A stamp without a T reads as epoch 0. |
| Epoch.ScansNumerals | core/util.cpp:39-41 | Numerals with the format's separators between them scan as their values. |
| Epoch.ScanIsReading | core/util.cpp:39-41 | For any text the scan gives the numbers that stand in front, blanks and signs allowed, with the format's separators right between them, and nothing if and only if they do not. |
| Epoch.SecondsFollowTheCalendar | core/util.cpp:42-53 | Seconds count from 1970; days, hours, minutes and seconds add up; each month starts its own length after the one before, leap years by the Gregorian rule, and months past the twelfth carry into the year. |
| BacktestInvariants.ExposuresSumToOpenNotional | core/backtest_main.cpp:121-138 | The symbol, market and category exposures rebuilt for the gate each sum to the notional of the open positions, and the count is theirs. |
| GateView.RebuildShows | core/backtest_main.cpp:121-138 | For any book and open positions the portfolio the gate is shown holds each open symbol at its own entry price times quantity and no other symbol, each market and each category at the sum over exactly its own positions and no other key, the open risk as the sum of distance to the stop times quantity, and the equity, day, loss counter and count as they are. |
| TradeMoney.FillPaysItsFee | core/backtest_main.cpp:411-467 | At a price the sizing does not floor, the entry fee is the side fee on the fill's own price times quantity, at this bar's open. |
| TradeMoney.ProfitAgreesWithReturn | core/backtest_main.cpp:494-510 | The profit in money and the reported return of a trade agree up to the fee on the price move, for longs and shorts. |
| BarRules.DayLedger | core/backtest_main.cpp:388-395 | In every run the day's start is the equity before the first bar of the last bar's day, and the day's profit is the equity gained since. |
| BarRules.GateIsAsked | core/backtest_main.cpp:404-442 | At the first bar of a pending symbol the gate is asked once, with the order sized on the equity before the bar and a portfolio that shows the book of the moment, and its verdict decides between an entry and a counted block. |
| BarRules.NoEntryUnasked | core/backtest_main.cpp:404-474 | A bar of a symbol without a pending entry opens nothing and blocks nothing. |
| BarRules.SignalsAreTaken | core/backtest_main.cpp:546-591 | At every bar of every run the strategy is shown the symbol's last 300 bars, asked exactly when the symbol has no position and the indicators are warm, and its signal becomes the pending entry; a refusal is emitted only when refusals are asked for, and every other symbol's entry keeps waiting. |
| Lookahead.SizeIsScaled | core/backtest_main.cpp:411-419 | An entry spends the risk fraction of the equity times the strength, the strength cut at one, at the scale cap and at a fifth from below. |
| Lookahead.NoLookahead | core/backtest_main.cpp:385-602 | Two tapes with the same bars up to a moment, whatever either holds later, give the same events stamped up to that moment. |
| Lookahead.EveryRunIsTraced | core/backtest_main.cpp:354-563 | In every run each history is exactly the symbol's last 300 bars; each pending entry was signalled at its symbol's latest bar by a strategy shown that history only; each position and trade was entered at the open of the symbol's first bar after its signal bar, in a quantity sized on the equity before that bar, an equity at the cost of that open and of the dollar volume of the 300 bars before it; each trade was left by the exit rule: at the stop or target when a later bar spans it, the stop first when it spans both, which the trade then says, else at the close of the bar that the exit signal or the longest holding time names; its profit is that price move less both sides' cost, and it carries its signal's symbol, market and category. |
| Lookahead.HistoryGrows | core/backtest_main.cpp:546-549 | Pushing a bar and dropping the oldest beyond 300 keeps the symbol's last 300 bars, and no other symbol's history changes. |
| Lookahead.RunExtends | core/backtest_main.cpp:593-593 | A run of a prefix is a prefix of the run, and every event after it carries the stamp of a later bar. |
| BacktestRun.Harness.Rebuild | core/backtest_main.cpp:121-138 | The loop over the open positions in symbol order builds the portfolio that `GateView.RebuildShows` describes entry by entry. |
| BacktestRun.Harness.OnBar | core/backtest_main.cpp:385-592 | The four phases in place, in the source's order, take the whole state one step. |
| BacktestRun.Simulate | core/backtest_main.cpp:376-593 | The loop over a tape ends in the run's state, which balances and is traced. |
| FlatReader.FindValueStart | core/bridge_client.cpp:214-225 | The loop that skips blanks after the colon lands where the first occurrence of the quoted key leads. |
| FlatMeaning.StartLeads | core/bridge_client.cpp:214-225 | In any text the search lands behind the first quoted key, the next colon and all blanks after it. |
| FlatMeaning.LeadsIsStart | core/bridge_client.cpp:214-225 | And it lands there whenever there is such a place. |
| FlatMeaning.BoolMeans | core/bridge_client.cpp:249-257 | In any text a boolean is true when "true" or a one stands there, false when "false" or a zero does, and the default otherwise. |
| FlatMeaning.StringMeans | core/bridge_client.cpp:239-247 | In any text a string is what stands there between two quotes, and the default when nothing does. |
| FlatMeaning.NumberMeans | core/bridge_client.cpp:228-237 | In any text a number is what `stod` finds there, and the default when it finds none. |
| FlatNumerals.DecimalMeans | core/bridge_client.cpp:232-236 | `stod` on a decimal numeral, signed or not, with digits before or after the point, with or without a power of ten, whatever follows it: exactly the number written, unless that is beyond a double. |
| FlatNumerals.HexadecimalMeans | core/bridge_client.cpp:232-236 | The same for a hexadecimal numeral, with or without a point and a power of two. |
| FlatNumerals.WordsMean | core/bridge_client.cpp:232-236 | An infinity or a not-a-number in letters of either case is read as that. |
| FlatNumerals.NothingMeans | core/bridge_client.cpp:232-236 | Text that starts with no digit, point or such a word holds no number. |
| FlatReading.FirstHit | core/bridge_client.cpp:214-225 | In the printed text of any document the first occurrence of the quoted key is that of the first key or string token that ends with it; nothing earlier can match inside another token, an escape or a number. |
| FlatReading.EmitClears | core/bridge_client.cpp:216-218 | A value none of whose tokens clashes with the key prints no occurrence of it. |
| FlatReading.InsideToken | core/bridge_client.cpp:216-218 | A match can never start inside the escaped text of a token, unless the token ends with a quote and the key. |
| FlatReading.TokenHit | core/bridge_client.cpp:216-218 | A token that equals the key, or ends with a quote and the key, does hold an occurrence. |
| FlatValues.LandsOnFirstHit | core/bridge_client.cpp:214-225 | The search lands on the value of the first member under the key. |
| FlatValues.MissesWithoutHit | core/bridge_client.cpp:214-257 | Without a hit all three readers keep their default. |
| FlatValues.ReadsBool | core/bridge_client.cpp:249-257 | The first hit's boolean is read, whatever the default. |
| FlatValues.StringIsNoBool | core/bridge_client.cpp:249-257 | A string under the key reads as the default, neither true nor false. |
| FlatValues.ReadsString | core/bridge_client.cpp:239-247 | The first hit's string is read back, when it prints unescaped. |
| FlatValues.ReadsNumber | core/bridge_client.cpp:228-237 | The first hit's numeral is read as the number it denotes, sign, fraction and exponent; one beyond a double keeps the default. |
| ControlValues.IntComesTo | api_server/controls.py:182-187 | The clamp raises if and only if the value is infinite; otherwise it is the allowed integer nearest to the one carried, a float's being what is left without its fraction and a text's what it parses to, and the lower bound for what is no number. |
| ControlValues.NearestIsOne | api_server/controls.py:187-187 | That nearest integer is one only: the value itself inside the bounds, the upper bound above them, the lower one below. |
| Controls.ClampedIntWithin | api_server/controls.py:182-187 | So it lies within its bounds for any value. |
| ControlValues.RealComesTo | api_server/controls.py:192-196 | The clamp raises if and only if the value is an integer too large for a double; otherwise it is the allowed number nearest to the one carried or parsed, the bound on an infinity's side, the upper bound for NaN and the lower one for what is no number. |
| Controls.ClampedFloatWithin | api_server/controls.py:192-196 | So it lies within its bounds for any value, NaN included. |
| Numbers.BeyondIsNoNearer | core/bridge_client.cpp:232-236 | A number overflows a double exactly when it lies no nearer to the largest double than to the power of two above it. |
| Controls.MergeSpec | api_server/controls.py:373-468 | Merging a saved object over defaults raises exactly when some carried field does; otherwise every carried field takes effect and nothing else changes. |
| ControlStates.ReadControlsReadsAs | api_server/controls.py:373-468 | For any saved object the state read is, key by key: each carried number the nearest one in its bounds, calls then cut to survivors and survivors to finalists; each carried flag its Python truth value, the downstream two only with the feed; each source, mode, profile and pin the one carried when it is an allowed name; and everything else the default. |
| ControlRules.ReadControlsKeepsTheRules | api_server/controls.py:373-468 | For any saved object: raises if and only if some number overflows; otherwise every field is in bounds and every choice valid, the funnel narrows if and only if the block is in the file or the defaults narrow, and likewise no downstream flag is on without the feed. |
| ControlRules.InfiniteBudgetRaises | api_server/controls.py:182-187 | Reading the object whose council budget is Infinity raises, whatever the defaults. |
| ControlRules.WritingRoundTrips | api_server/controls.py:500-555 | Writing a state that was read and reading it again gives the same state if and only if it narrows and obeys the feed rule, which it does whenever the defaults do. |
| ControlRules.FlatSourcesSay | api_server/controls.py:507-509 | The flat source keys written for the engine say what the nested map says. |
| ControlDefaults.DefaultsObeyTheRules | api_server/controls.py:280-354 | Any configuration gives defaults in the control bounds; one the validator accepts on narrowing, the numbers it leaves out filled in, gives defaults that narrow; and the defaults obey the feed rule if and only if the configuration does. |
| ControlDefaults.DefaultsAreNearest | api_server/controls.py:280-354 | Every default of the two blocks is the allowed value nearest to the configured one, or to its fallback where the configuration has none; a flag is on only when configured on. |
| ControlRules.NarrowingKeepsBounds | api_server/controls.py:357-370 | Narrowing keeps every bound, makes calls at most survivors at most finalists, and changes a block if and only if it did not narrow. |
| ControlRules.DownstreamOffSpec | api_server/controls.py:318-330 | With the feed off both downstream flags go off, a block changes if and only if it broke the rule, and nothing else in it changes. |
| ControlRules.DiscoverySpec | api_server/controls.py:417-428 | The discovery block after a read: bounds, when it raises, and when it narrows. |
| ControlRules.AdaptiveSpec | api_server/controls.py:429-443 | The adaptive block after a read: bounds, when it raises, and when the feed is master. |
| ControlRules.BudgetSpec | api_server/controls.py:453-462 | The budget after a read is in bounds; when it raises. |
| ControlSetters.ReadingIsProper | api_server/controls.py:373-468 | Whatever the file holds, a read that returns gives a state that obeys all rules. |
| ControlSetters.ProperReadsBack | api_server/controls.py:500-555 | A state that obeys the rules reads back as itself once written. |
| ControlSetters.LayerIsProper | api_server/controls.py:1333-1345 | Setting a layer keeps all rules. |
| ControlSetters.PinIsProper | api_server/controls.py:1525-1539 | Pinning or unpinning a whitelisted symbol keeps all rules. |
| ControlSetters.FunnelIsProper | api_server/controls.py:835-865 | New funnel settings keep all rules, and raise if and only if one of them overflows. |
| ControlSetters.AdaptiveIsProper | api_server/controls.py:944-974 | New adaptive settings keep all rules, the feed's mastery too, and raise if and only if one of them overflows. |
| ControlSetters.FlagIsProper | api_server/controls.py:903-941 | Setting an adaptive flag keeps all rules: the feed going off takes the downstream flags with it. |
| ControlSetters.ControlFile.Write | api_server/controls.py:500-616 | After a write the next read gives the written state. |
| ControlSetters.ControlFile.SetLayer | api_server/controls.py:1333-1345 | An unknown layer changes nothing; otherwise the next read differs in that layer only. |
| ControlSetters.ControlFile.SetRegime | api_server/controls.py:1525-1539 | An unknown symbol or label changes nothing; otherwise the next read differs in that pin only. |
| ControlSetters.ControlFile.SetDiscoverySettings | api_server/controls.py:835-865 | No settings or an unknown one changes nothing; an overflow raises before the write; otherwise the next read has each given number at the nearest one in its bounds, the funnel narrowed after that, and nothing else changed. |
| ControlSetters.ControlFile.SetAdaptiveSettings | api_server/controls.py:944-974 | No settings or an unknown one changes nothing; an overflow raises before the write; otherwise the next read has each given number at the nearest one in its bounds and nothing else changed. |
| ControlSetters.ControlFile.SetAdaptiveFlag | api_server/controls.py:903-941 | Refused exactly for an unknown flag, or when enabling without the prerequisites or a downstream flag without the feed; disabling is never refused; the next read shows the flag and the feed rule. |
| ControlReading.ListedKeysKeepApart | api_server/controls.py:205-354 | No key of the nested defaults is a key the engine searches for, the adaptive ones in the adaptive block aside, and every other one is free of quotes and colons. |
| ControlReading.FreeHasNoHits | core/bridge_client.cpp:214-225 | A value free of a key has no hit for it in any document of it, in any order of members. |
| ControlReading.OneHit | api_server/controls.py:515-555 | A key that stands once in the file has exactly one hit, whatever the order of the members. |
| ControlReading.OneNestedHit | core/adaptive_controls.hpp:46-59 | The same for a key inside a nested block. |
| ControlReading.WritableIsFree | api_server/controls.py:507-555 | In the written object every searched key stands in its one place and nowhere else, not even at the end of another token. |
| ControlDocuments.DocumentOf | api_server/controls.py:595-595 | Every written object has a printed document in every order of its members, so the reading theorems are about real files. |
| ControlDocuments.NumeralDenotes | api_server/controls.py:595-595 | Every integer has a numeral that denotes it. |
| JsonStrings.StringsReadBack | api_server/controls.py:595-595 | Every string, written between quotes with its escapes and surrogate pairs, reads back by the grammar of RFC 8259, section 7, as itself, whatever text follows. |
| EngineView.EngineSeesWhatWasWritten | core/layer_toggles.hpp:78-94 | For every order of the file's members and every form of its numbers, the three engine readers give exactly the layers, sources, slots, budget, cooldown, pins and adaptive values that were written. |
| EngineView.LayersAsWritten | core/layer_toggles.hpp:53-94 | Layer enables and sources as written. |
| EngineView.OperatorAsWritten | core/operator_controls.hpp:66-100 | Council slots, budget, cooldown and regime pins as written, not altered by the engine's clamps. |
| EngineView.AdaptiveAsWritten | core/adaptive_controls.hpp:60-115 | Adaptive values as written, not altered by the re-validation, whatever the configuration. |
| EngineView.SetLayerChangesOneField | core/layer_toggles.hpp:78-94 | Setting a layer changes exactly that one of all the values the engine reads, whatever the order of the members before and after. |
| EngineView.BareLayerKeyDependsOnTheOrder | api_server/controls.py:515-531 | The bug the flat keys removed: searched by its bare name, an off layer reads as off or sticks on with the order of two blocks. |
| EngineView.ProperIsWritable | api_server/controls.py:500-555 | Every state a read returns meets the assumptions of the reading theorems, given plain symbols and quiet free texts. |
| EngineView.NotANumberIsKept | core/adaptive_controls.hpp:88-105 | A file whose trim fraction says NaN leaves the engine with it, whatever its configuration. |
| EngineView.LargeCooldownEscapes | core/operator_controls.hpp:87-92 | A written file that says 3000000000 minutes can be read as a cooldown below every bound. |
| EngineControls.AnyFileReadsValid | core/adaptive_controls.hpp:85-113 | Whatever the file says, the engine's maximum age stays above zero and nothing downstream runs without the feed; the trim fraction is in its range if and only if the file does not say NaN. |
| EngineControls.AnyFileReadsInBounds | core/operator_controls.hpp:79-98 | Whatever the file says, the budget is unset or in 1 to 500, the cooldown at most 1440, and only whitelisted symbols are pinned, to valid labels; the cooldown is below unset exactly when its number fits no int and the undefined conversion gives less than -1. |
| EngineReading.AnyFileIsReadByKey | core/operator_controls.hpp:66-101 | Whatever text the file holds, each value the engine runs on is the one its own key gives: layers and slots on and sources real unless the file says otherwise, the budget the nearest in 1 to 500 and the cooldown cut at 1440 or both unset, exactly the whitelisted symbols with a valid label pinned, the adaptive values the file's where they pass and the configuration's where they do not; a missing file gives the defaults. |
| EngineControls.CooldownHoldsIffItFits | core/operator_controls.hpp:87-92 | The cooldown read from a file stays unset or in 0 to 1440 under every outcome of an undefined conversion if and only if the file is missing or its number is below zero, not a number, or fits an int; a numeral beyond a double is the unset -1. |
| EngineControls.AnyFilePinsTheWhitelist | core/operator_controls.hpp:94-98 | Only whitelisted symbols are pinned, to valid labels. |
| EngineControls.LoadOperatorControls | core/operator_controls.hpp:66-101 | The reader as it runs, field by field over its defaults. |
| EngineControls.LoadPins | core/operator_controls.hpp:94-98 | The loop over the whitelist collects exactly the pins with a valid label. |
| EngineControls.LoadAdaptiveControls | core/adaptive_controls.hpp:60-115 | The reader as it runs: configuration, overrides, corrections. |
| AtomicFile.ControlFileIsAlwaysWhole | api_server/controls.py:471-616 | Under every interleaving of writers, readers, sweeps and kills, while no temp name in use is handed out again: the control file is absent or one whole text, a reader that reaches the end has one whole text, and a file about to be swept is older than the stale limit. |
| AtomicFile.EveryTextIsGiven | api_server/controls.py:573-603 | Every file's text is one some writer set out to write, or was there before. |
| AtomicFile.StepKeeps | api_server/controls.py:471-616 | Each single system call keeps the invariant. |
| AtomicFile.CreateKeeps | api_server/controls.py:573-573 | Creating a temp file under a name nobody goes by keeps it. |
| AtomicFile.WriteKeeps | api_server/controls.py:594-602 | Writing a piece of the text keeps it. |
| AtomicFile.ReplaceKeeps | api_server/controls.py:603-603 | The rename of a complete temp file keeps it, or fails when the name is gone. |
| AtomicFile.UnlinkKeeps | api_server/controls.py:489-497 | Removing the stale file found keeps it, whatever happened since it was found. |
| AtomicFile.ReadKeeps | api_server/controls.py:376-380 | Reading a piece of the opened file keeps it. |
| AtomicFile.HeldNameIsPublished | api_server/controls.py:573-603 | The assumption on names is needed: handed out again while its writer is still to rename it, a name publishes an unfinished file, from every such state. |
| AtomicFile.HeldNameIsSwept | api_server/controls.py:489-497 | Likewise a name a sweep is about to remove: a file created this instant is deleted. |
| AtomicFile.ReusedNameIsPublished | api_server/controls.py:471-603 | A whole run, from no files at all, that ends with half a text as the control file. |
| AtomicRuns.WritePublishes | api_server/controls.py:572-603 | From any directory, a write that nothing disturbs makes its whole text the control file and changes nothing else in the directory. |
| AtomicRuns.ReadGetsAll | api_server/controls.py:376-380 | A reader that opens the control file and asks until nothing is left gets all of it and sees its end. |
| AtomicRuns.FailedWriteLeavesNothing | api_server/controls.py:604-616 | A write that fails after any part of its text leaves the directory as it was. |
| AtomicRuns.SweepTakesStale | api_server/controls.py:484-497 | A sweep is about to remove a temp file if and only if it was last written more than a minute before the sweep began, then removes just that, and passes over one that is gone. |
| AtomicRuns.TempNames | api_server/controls.py:490-491 | The temp names are those that begin with ".controls." and end with ".tmp". |
| YamlPrinting.ParsingUndoesPrinting | config/yaml.cpp:63-113 | Parsing the printed form of any nested entries rebuilds the tree they stand for, later names overriding earlier ones, for any indentation steps. |
| YamlPrinting.EveryMappingRoundTrips | config/yaml.cpp:63-113 | Every nested mapping of plain names to safe texts has a printed form, with either quote and any width of indentation, that parses back to it. |
| YamlComments.CommentIsCut | config/yaml.cpp:27-35 | Every text is characters and whole quoted texts, then nothing, a comment, or a quote that nothing closes; the comment is cut off, and nothing else is. |
| YamlComments.EntryReads | config/yaml.cpp:76-106 | A line of spaces, a name, a colon and a value, with any blanks between them and any comment behind, reads as that entry, the value without the quotes around it. |
| YamlComments.OpeningReads | config/yaml.cpp:76-110 | A name and a colon open a mapping, whatever comment follows. |
| YamlComments.CommentReads | config/yaml.cpp:83-84 | Spaces followed by a comment or by nothing are skipped, with a carriage return too. |
| YamlComments.ColonlessReads | config/yaml.cpp:86-89 | Text without a colon is an error, whatever comment follows. |
| YamlComments.TabReads | config/yaml.cpp:76-82 | A tab after the spaces in front is an error, whatever follows. |
| YamlComments.PlainValueReads | config/yaml.cpp:27-49 | An unquoted value followed by a comment reads as the value. |
| YamlComments.QuotedValueReads | config/yaml.cpp:27-49 | A quoted text that holds anything but its own quote, comment marks included, reads as itself, whatever comment follows. |
| YamlComments.LeafReadsBackIffWhole | config/yaml.cpp:27-49 | A quoted scalar reads back as written if and only if every comment mark in it stands between quotes. |
| YamlComments.CommentsChangeNothing | config/yaml.cpp:63-113 | Lines with comments added parse to the same tree, or fail alike. |
| YamlPrinting.ReadsItems | config/yaml.cpp:72-111 | From any stack, printed entries extend the mapping they are indented under, and nothing else. |
| YamlPrinting.SegmentsOfDotted | config/yaml.cpp:12-14 | A dotted path splits into the names it was made of if and only if the last one is not empty. |
| YamlPrinting.DottedLookupAgrees | config/yaml.cpp:10-22 | A dotted lookup finds what following the names in the tree finds. |
| YamlPrinting.SplittingUndoesJoining | config/config.cpp:115-127 | A comma-joined list of trimmed, non-empty, comma-free names comes back unchanged. |
| CsvLists.AnyTextSplits | config/config.cpp:115-127 | Any text is fields with commas between them, and splits into what the fields give in order: each one trimmed, a blank one nothing. |
| YamlPrinting.StoredListComesBack | config/config.cpp:113-127 | The same through the file: printed as a quoted scalar, parsed, looked up and split. |
| Yaml.SettleGrows | config/yaml.cpp:97-99 | Popping keeps the stack's indents strictly increasing and leaves the parent strictly less indented on top. |
| Yaml.StepGrows | config/yaml.cpp:72-111 | Every line keeps the stack's indents strictly increasing from the root's -1. |
| Yaml.FailsAtTheFirstBadLine | config/yaml.cpp:76-87 | Parsing fails if and only if some line has a tab in front or lacks a colon, and names the first such line. |
| YamlIndents.IndentationIsNoError | config/yaml.cpp:51-87 | Texts whose lines differ only in the spaces in front fail alike, on the same line, or not at all. |
| YamlIndents.UnevenIndentsParse | config/yaml.cpp:63-113 | A mapping whose second entry is indented less than its first parses, with both entries. |
| YamlTree.ParseYaml | config/yaml.cpp:63-113 | The loop over heap nodes and a frame stack returns a finished tree that stands for the parsed value, or the same error. |
| YamlTree.AddEntry | config/yaml.cpp:97-110 | One entry updates the heap as the step on values says, and touches only nodes on the stack. |
| YamlTree.PopTo | config/yaml.cpp:97-99 | The pop loop leaves the settled stack; what it popped is finished. |
| YamlTree.AddLeaf | config/yaml.cpp:101-106 | A scalar goes into the parent's map. |
| YamlTree.OpenChild | config/yaml.cpp:101-110 | A new mapping goes into the parent's map and onto the stack. |
| YamlTree.NodeAt | config/yaml.cpp:10-22 | The walk down the nodes finds the node whose value the lookup on the tree gives, or nothing when it does. |
| YamlTree.StripComment | config/yaml.cpp:27-35 | The loop with two quote flags keeps exactly the text before the first comment mark outside quotes. |
| YamlTree.CountSpaces | config/yaml.cpp:51-59 | The loop counts the spaces in front, or finds a tab among them. |
| YamlTree.Split | config/config.cpp:115-127 | The loop over commas collects the trimmed, non-empty tokens. |
| Actions.RouteRaisesIff | adaptive/actions.py:167-223 | Routing raises if and only if a defensive reading it would queue is not in normal form or has a severity outside 0 to 1; never on normalized output. |
| Actions.AggressiveIsAtMostReferred | adaptive/actions.py:191-208 | An aggressive reading is dropped or referred, never queued, and referred if and only if the shaping flag is on and the severity reaches the floor; unknown and neutral readings are always dropped. |
| PollEffects.NormalIsSpelling | adaptive/actions.py:71-83 | An action is classed under a name exactly when it is that name up to case and the white space around it. |
| PollEffects.ReadingHasItsEffect | adaptive/run.py:184-220 | A reading queues an action if and only if its relevance and severity reach the floors, the defensive flag is on, the event names a symbol and the action is one of the three names with a severity from 0 to 1, and then it queues that one; it refers, or prunes, if and only if both floors are reached, the shaping flag is on, the action asks for it and the watchlist accepts; otherwise it does nothing. |
| PollEffects.DropsSayWhy | adaptive/actions.py:167-223 | A reading that is dropped carries the first reason that holds of it, and no other reading is dropped. |
| Actions.UnnormalizedAddPrunes | adaptive/actions.py:201-208 | An add that is not in normal form prunes the symbol instead of referring it. |
| Actions.AllowlistsAgree | core/adaptive_actions.hpp:41-71 | The C++ allowlist accepts exactly the Python one, and an accepted name prints back as itself. |
| AdaptiveStore.CapDropsHeldLast | adaptive/news_feed.py:67-81 | The capped target list is tagged right, holds everything when it fits, and drops a held name only when it contains no watchlist name. |
| AdaptiveStore.TargetsAre | adaptive/news_feed.py:67-81 | The targets are the held names and then the watchlist's others, each in order, as many as the cap allows. |
| AdaptiveStore.UnheldInOrder | adaptive/news_feed.py:78-78 | Those others are exactly the watchlist names that are not held, in the watchlist's order. |
| AdaptivePoll.RecordingGrows | adaptive/store.py:124-154 | Recording a feed appends unread rows of this time and returns the new material ones, each once, in order. |
| AdaptivePoll.PendingMaterialIs | adaptive/store.py:161-187 | The backlog is unread material rows of the window, each once, at most fifty. |
| AdaptivePoll.QueueIs | adaptive/run.py:148-156 | The queue holds each event once, all unread: every new material one and the whole backlog, nothing else. |
| PollRows.PollIs | adaptive/run.py:75-226 | A poll that gets a feed stores one unread row for each article whose key neither a stored row nor an earlier article has; queues the new material events and the first fifty of the last hour's unread ones, held first, then by symbol, new ones in feed order before old ones newest first; reads as many from the front as the cap and the rest of the UTC day's budget allow; marks and records exactly those, each with the effect its interpretation has, and queues exactly the actions these ask for; its own row counts all that and says why it stopped. |
| PollRows.WakeUpIs | adaptive/run.py:60-126 | A wake-up polls if and only if the feed is on and it is forced or every earlier poll lies at least the interval back; otherwise nothing changes, and without a key or a feed only the poll's row is added. |
| PollRows.EveryActionStands | adaptive/run.py:180-220 | Over any sequence of wake-ups each action added stands for a reading of its own wake-up: of a stored event, with relevance and severity at or above that wake-up's floors, asking for it with the defensive flag on. |
| AdaptiveGuarantees.EverySequenceIsGood | adaptive/run.py:75-241 | After any sequence of polls: each event has at most one interpretation, is marked escalated if and only if it has one and only if material; articles sharing a key are stored once; every action row is constructed and names a stored event. |
| AdaptiveGuarantees.NoDayOverBudget | adaptive/store.py:224-235 | With a fixed budget the interpretations of any day never exceed it, whatever the order of polls and clocks. |
| AdaptiveGuarantees.PollStaysInBudget | adaptive/run.py:168-178 | One poll never takes its day over the budget and leaves every other day's count as it was. |
| AdaptiveGuarantees.ChargedOncePerKey | adaptive/store.py:124-154 | Two paid interpretations are never of articles with the same key. |
| AdaptiveGuarantees.PollKeepsGood | adaptive/run.py:75-226 | Each poll, forced, failed or complete, keeps all of this. |
| AdaptiveGuarantees.ReadAllDoes | adaptive/run.py:168-220 | The reading loop marks exactly the items it read, records one interpretation each, in order, and appends only constructed actions. |
| AdaptiveGuarantees.EmptyTablesAreGood | adaptive/store.py:108-111 | Freshly created tables satisfy it. |
| AdaptiveOrder.QueuedActionsAreValid | adaptive/run.py:195-220 | A poll keeps the earlier action rows and appends rows with a symbol, a severity from this poll's floor to 1 and a name the engine parses and prints back; none with the defensive flag off. |
| AdaptiveOrder.FlagOffQueuesNothing | adaptive/run.py:162-220 | While the defensive flag is off no sequence of polls adds an action. |
| AdaptiveOrder.PollRowAccounts | adaptive/run.py:222-226 | A poll leaves one row whose counts are the growth of the tables and whose remaining budget is what the day has left. |
| AdaptiveOrder.PollReadsHeldFirst | adaptive/run.py:156-178 | While the calls allowed are at most fifty, no unheld event is read in a poll that leaves a held one of the window unread. |
| HeldFirst.HeldComeFirstIff | adaptive/run.py:142-178 | For any tables of the past, feed and settings: no unheld event is read while a held one of the window stays unread, if and only if the waiting held events, or the calls allowed, are at most the larger of fifty and the new held events, or every new material event is held. |
| HeldFirst.PassedOverInTables | adaptive/run.py:142-178 | Otherwise the poll leaves in the tables a reading of an unheld event and a held one of the window without any. |
| HeldFirst.HeldLeftForUnheld | adaptive/store.py:161-187 | Two polls a minute apart, from empty tables, end there. |
| AdaptiveOrder.LeftOut | adaptive/store.py:179-183 | An event is left out of the backlog only past fifty, a held one only when all in it are held, never for an older one of its kind. |
| AdaptiveOrder.BacklogIsOffered | adaptive/run.py:142-151 | While at most fifty unread material events lie in the window, a poll offers every one. |
| AdaptiveOrder.UnreadStays | adaptive/store.py:157-158 | An offered event that is not read stays unread, so the next poll finds it. |
| Backlog.OfferedUntilRead | adaptive/run.py:142-220 | Over any sequence of wake-ups, forced, failed or too early ones among them, a stored unread material event is on offer in a reading poll whose backlog has room if and only if it is inside the window and no earlier poll served it; and it has an interpretation in the end if and only if some poll served it. |
| Backlog.OfferedIff | adaptive/run.py:142-156 | While the unread events of the window fit the backlog, an event of an earlier poll is offered if and only if it is unread and inside the window. |
| Backlog.ReadOnceCallsReach | adaptive/run.py:156-220 | One such poll with calls for its whole queue, and the event has been read. |
| AdaptiveOrder.PollsAreSpaced | adaptive/run.py:60-72 | Polls made by the cadence stand at least its interval apart, whatever the clock does. |
| AdaptiveRunner.Runner.CallsOn | adaptive/store.py:224-235 | The count of the day's interpretation rows. |
| AdaptiveRunner.Runner.RecordFeed | adaptive/run.py:128-140 | The filter loop over the feed. |
| AdaptiveRunner.Runner.BuildQueue | adaptive/run.py:148-156 | The backlog appended and the whole sorted, held names first. |
| AdaptiveRunner.Runner.Read | adaptive/run.py:180-220 | One paid call: the event is marked, its interpretation routed, the reading and the action it may queue recorded; `PollEffects.ReadingHasItsEffect` says which effect it has. |
| AdaptiveRunner.Runner.ReadQueue | adaptive/run.py:168-220 | The loop makes exactly the calls the cap and the rest of the budget allow, and says why it stopped. |
| AdaptiveRunner.Runner.RunOnce | adaptive/run.py:75-226 | One poll on the tables in place, to the tables that `PollRows.PollIs` describes. |
| AdaptiveRunner.Runner.RunDue | adaptive/run.py:229-241 | A poll only when the feed is on and the cadence says it is time. |
| Segments.SegmentSeries | backtest/universe.py:257-283 | Fails if and only if it has to look up a date that is no session; otherwise returns a segmentation: runs that cover the dates in order, all inner gaps at most the limit, each later run's recorded gap the true one and beyond the limit. |
| Segments.GapCountsSessions | backtest/universe.py:274-274 | For bars in the order of the exchange's sessions the gap is how many sessions lie strictly between two bars. |
| Segments.SegmentationIsUnique | backtest/universe.py:257-283 | There is only one segmentation of a series. |
| Segments.BreaksAreLongGaps | backtest/universe.py:286-290 | A window holds a segment break if and only if some bar in it follows a gap beyond the limit. |
| Formation.ListFormationDates | backtest/universe.py:214-230 | The loop with its set of seen months gives the formation dates. |
| Formation.FormationDatesAre | backtest/universe.py:214-230 | A day is a formation date if and only if it is the first session of its month with a full window before it. |
| Formation.LaterSessionsAppend | backtest/universe.py:214-230 | Later sessions only append formation dates. |
| Formation.FormationHasItsWindow | backtest/universe.py:233-244 | A formation date's window does not raise for any window of at least zero sessions, has exactly its sessions, and ends strictly before the date if and only if the date is not the very first session. |
| Formation.WindowIsBefore | backtest/universe.py:233-244 | A window of at least one session is given for a session if and only if as many come before it, and is those sessions. |
| Formation.NoSessionNoWindow | backtest/universe.py:241-241 | A day that is no session raises. |
| Formation.EmptyWindowLooksAhead | backtest/universe.py:233-244 | With a window of no sessions the first session's window ends at the last session. |
| Formation.WindowsNeverMove | backtest/universe.py:233-244 | A window decided once is the same after any later sessions. |
| Ranking.RankMembers | backtest/universe.py:191-211 | The candidates with enough bars, a median close at the floor, one listing in the window and a known kind, no fund unless funds are asked for, are ranked by dollar volume and symbol: the first up to the limit are members, the rest are rejected as below it; each other candidate is rejected with the first test it fails and its own number. |
| Ranking.EveryCandidateIsDecided | backtest/universe.py:168-211 | Every admitted candidate is a member or below the rank, every other one is turned away for the first test it fails, and there are no other members. |
| Ranking.FundsBringFunds | backtest/universe.py:180-188 | Asking for funds as well brings in only candidates known to be funds. |
| Ranking.MembersAndRejectionsSplit | backtest/universe.py:191-211 | Every candidate ends up once, as a member or as a rejection. |
| Ranking.MembersAreTheBest | backtest/universe.py:203-211 | The members are admitted candidates with ranks 1, 2 and so on by dollar volume and symbol, as many as the limit takes, and no admitted candidate left out outranks one. |
| Ranking.MembershipIgnoresOrder | backtest/universe.py:191-211 | For distinct symbols the members are the same for every order of the candidates. |
| Median.MedianHalves | backtest/universe.py:99-107 | At least half the values are at or below the median and at least half at or above it. |
| Median.MedianIsTheMean | backtest/universe.py:99-107 | The median is the mean of the two values that stand in the middle in ascending order, which are one for an odd number of values. |
| Median.PlaceIsOne | backtest/universe.py:102-103 | Only one value stands at a place in ascending order. |
| Median.MedianIgnoresOrder | backtest/universe.py:99-107 | The median is the same for every order of the values. |
| Report.MaxDrawdown | backtest/report.py:89-94 | The one pass with a running peak gives the least difference of equity over all pairs of points in order, the start included. |
| Report.DrawdownIsUnique | backtest/report.py:89-94 | Only one number is that minimum. |
| Report.WalkForward | backtest/report.py:115-132 | The loop gives one numbered fold per slice, with the first and last entry time of the slice; none for no trades. |
| Report.FoldsCoverTheTrades | backtest/report.py:115-132 | The slices put together are the trades sorted by entry, a permutation of the input; sizes differ by at most one, and each fold carries its number and the entry times of its first and last trade. |
| Report.FoldIsSlice | backtest/report.py:124-126 | A fold runs from one whole part of the number of trades times its number over the folds to the next. |
| Report.FoldsAreChronological | backtest/report.py:115-132 | No trade of an earlier fold enters after one of a later fold. |
| Report.CutsAreEven | backtest/report.py:124-126 | The integer cuts start at 0, end at the number of trades and are apart by the share or one more. |
| Sorting.SortIsStable | backtest/report.py:119-119 | Sorting leaves elements that tie in the order they came in. |
| Wilson.WilsonInterval | backtest/report.py:25-33 | The interval lies in 0 to 1, contains the observed rate, and holds exactly the rates the score test at z = 1.96 does not reject. |
| Wilson.AcceptedRates | backtest/report.py:29-33 | Before the clamps the interval is exactly the set of accepted rates. |
| Wilson.AcceptedIsRate | backtest/report.py:29-33 | An accepted rate lies in 0 to 1, so the clamps cut nothing off. |

## Left out

- Backtest.ReturnOf: a quotient by a zero exit price is zero here and infinite in the source; an exit at exactly zero is the only such case.
- LossBrake.ReleaseIsTraced: for a cap of at least one, which `config/config.cpp:562-563` demands; with a lower cap a counter of zero is already at it.
- TradeMoney.FillPaysItsFee: for a price below 0.0001, where the source floors the divisor of the quantity but not the price.
- TapeRefinement.StreamingIsTheHeldTape: assumes rows unique by timestamp and symbol and stamps that begin with four digits and, if longer than six characters, a month from 01 to 12; `stoi` on other stamps throws or reads less.
- FlatValues.ReadsNumber: for a numeral nearer to zero than the least normal double some libraries let `stod` throw, which keeps the default; the model reads its value. Either way the budget, the cooldown and the trim fraction hold or fail alike.
- EveryStrategy.BrakeHoldsForEveryStrategyIff: assumes that the clock reads the stamps of the tape in their order, as it does for stamps in one format; without that only `EveryStrategy.EnoughForEveryStrategy` is stated.
- EngineView.EngineSeesWhatWasWritten: assumes that the free texts of the file (model ids, pending requests, the time) do not equal or end with a quoted searched key, and that whitelisted symbols are printable without quotes, backslashes or blanks.
- ControlRules.ReadControlsKeepsTheRules: the saved value is an object; for any other JSON value the source raises. The text reader `json.load` itself is not modelled.
- ControlDefaults.DefaultsObeyTheRules: for a configuration whose entries are flags and numbers; an infinite number raises in `_clamp_int`, as it does on a read.
- TapeCounts.EachBarOnce: assumes a symbol is not asked for twice and no two rows of the database are equal in every column; a repeated one is delivered as often by both paths.
- HeldFirst.HeldComeFirstIff: for stored timestamps that are not after the poll's own; a clock that went back can put older new events behind stored ones.
- AtomicFile.ControlFileIsAlwaysWhole: durability across a power loss, permissions and hard links; the clock does not run backwards; one control path.
- YamlPrinting.EveryMappingRoundTrips: unquoted scalars, which read back with their blanks trimmed, are parsed by the model but not printed.
- AdaptiveOrder.PollsAreSpaced: timestamps that do not parse count as no poll in the source; rows written by the runner always parse.
- AdaptiveGuarantees.EverySequenceIsGood: a crash between two statements of one poll, whose transaction SQLite rolls back.
- Which ensemble factors a layer toggle gates (`core/layer_toggles.hpp:100-107`): an easy member.
- Calibrate mode, the output's text format, the per-venue duplicates of the portfolio, and the reject rows' indicator fields of the backtest.
- `set_source`, `set_feed_clock`, `set_model`, `set_rl`, `set_auto_promote`, `set_budget`, `set_sleeve`, weights, the audit log and the clamped lists the setters report: they add easy members.
- `mean_ci`, `by_group` and the sample threshold of `stats_for`; `summarize_window`, `classify_fund`, `detect_discontinuities`; `main` loops.
- The adaptive interpreter, the materiality rules, the feed's HTTP client, `apply_route`'s watchlist writes, free-text columns and the cost estimate.
- The other rules of `validate_config`, and reading the configuration field by field.
- Non-ASCII case folding in `classify`: no allowlisted name contains a letter that a non-ASCII capital folds to, so the class is the same.
