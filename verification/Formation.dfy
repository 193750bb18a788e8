/** Formation dates and trailing windows (backtest/universe.py). */
module Formation {
  import opened Text

  /** `day[:7]`: the month of a YYYY-MM-DD day. */
  function Month(day: string): string { if |day| <= 7 then day else day[..7] }

  predicate InMonths(month: string, days: seq<string>) {
    exists j :: 0 <= j < |days| && Month(days[j]) == month
  }

  /** The first session of its month, with `window` sessions before it. */
  predicate Forms(sessions: seq<string>, i: nat, window: int)
    requires i < |sessions|
  {
    !InMonths(Month(sessions[i]), sessions[..i]) && i >= window
  }

  function FormationDates(sessions: seq<string>, window: int): seq<string> {
    if sessions == [] then []
    else
      var n := |sessions| - 1;
      FormationDates(sessions[..n], window) + if Forms(sessions, n, window) then [sessions[n]] else []
  }

  /** `formation_dates`: one pass that remembers the months it has seen. */
  method ListFormationDates(sessions: seq<string>, window: int) returns (out: seq<string>)
    ensures out == FormationDates(sessions, window)
  {
    out := [];
    var seen: set<string> := {};
    for i := 0 to |sessions|
      invariant out == FormationDates(sessions[..i], window)
      invariant forall m :: m in seen <==> InMonths(m, sessions[..i])
    {
      var day := sessions[i];
      var month := Month(day);
      assert sessions[..i + 1][..i] == sessions[..i];
      SeenStep(sessions, i);
      if month in seen {
        continue;
      }
      seen := seen + {month};
      if i >= window {
        out := out + [day];
      }
    }
    assert sessions[..|sessions|] == sessions;
  }

  lemma SeenStep(sessions: seq<string>, i: nat)
    requires i < |sessions|
    ensures forall m :: InMonths(m, sessions[..i + 1]) <==> m == Month(sessions[i]) || InMonths(m, sessions[..i])
  {
    hide Month;
    var front, all := sessions[..i], sessions[..i + 1];
    assert all[i] == sessions[i] && forall j :: 0 <= j < i ==> front[j] == all[j];
    forall m
      ensures InMonths(m, all) <==> m == Month(sessions[i]) || InMonths(m, front)
    {
      if InMonths(m, all) {
        var j :| 0 <= j < |all| && Month(all[j]) == m;
        assert j < i ==> Month(front[j]) == m;
      }
      if InMonths(m, front) {
        var j :| 0 <= j < |front| && Month(front[j]) == m;
        assert Month(all[j]) == m;
      }
    }
  }

  // ----- What the dates are -------------------------------------------------------------------

  /** YYYY-MM-DD days of one month. */
  predicate SameMonth(a: string, b: string) {
    if |a| >= 7 && |b| >= 7 then a[..7] == b[..7] else a == b
  }

  /** The session opens its month and has `window` sessions behind it. */
  predicate OpensMonth(sessions: seq<string>, i: nat, window: int)
    requires i < |sessions|
  {
    i >= window && forall j :: 0 <= j < i ==> !SameMonth(sessions[j], sessions[i])
  }

  lemma FormsIsOpening(sessions: seq<string>, i: nat, window: int)
    requires i < |sessions|
    ensures Forms(sessions, i, window) <==> OpensMonth(sessions, i, window)
  {
    var front := sessions[..i];
    assert forall j :: 0 <= j < i ==> front[j] == sessions[j];
    assert forall j :: 0 <= j < i ==> (Month(front[j]) == Month(sessions[i]) <==> SameMonth(sessions[j], sessions[i]));
  }

  /** The formation dates are exactly the days that open their month with a full window behind them. */
  lemma FormationDatesAre(sessions: seq<string>, window: int, day: string)
    ensures day in FormationDates(sessions, window)
       <==> exists i :: 0 <= i < |sessions| && sessions[i] == day && OpensMonth(sessions, i, window)
  {
    hide Forms, OpensMonth, FormationDates;
    FormationDatesForm(sessions, window, day);
    forall i | 0 <= i < |sessions|
      ensures Forms(sessions, i, window) <==> OpensMonth(sessions, i, window)
    {
      FormsIsOpening(sessions, i, window);
    }
  }

  lemma {:induction false} FormationDatesForm(sessions: seq<string>, window: int, day: string)
    ensures day in FormationDates(sessions, window)
       <==> exists i :: 0 <= i < |sessions| && sessions[i] == day && Forms(sessions, i, window)
  {
    if sessions != [] {
      var n := |sessions| - 1;
      var front := sessions[..n];
      FormationDatesForm(front, window, day);
      forall i | 0 <= i < n
        ensures Forms(front, i, window) <==> Forms(sessions, i, window)
      {
        assert front[..i] == sessions[..i];
      }
      if i :| 0 <= i < |front| && front[i] == day && Forms(front, i, window) {
        assert sessions[i] == day && Forms(sessions, i, window);
      }
      if i :| 0 <= i < |sessions| && sessions[i] == day && Forms(sessions, i, window) && i != n {
        assert front[i] == day && Forms(front, i, window);
      }
    }
  }

  /** Later sessions only append dates. */
  lemma {:induction false} LaterSessionsAppend(sessions: seq<string>, later: seq<string>, window: int)
    ensures FormationDates(sessions, window) <= FormationDates(sessions + later, window)
    decreases |later|
  {
    if later == [] {
      assert sessions + later == sessions;
    } else {
      var n := |later| - 1;
      LaterSessionsAppend(sessions, later[..n], window);
      assert (sessions + later)[..|sessions + later| - 1] == sessions + later[..n];
    }
  }

  ghost predicate Ascending(sessions: seq<string>) {
    forall i, j :: 0 <= i < j < |sessions| ==> Less(sessions[i], sessions[j])
  }

  // ----- Windows --------------------------------------------------------------------------------

  /** A Python index: negative ones count from the end, those out of range raise. */
  function ItemAt(s: seq<string>, i: int): Outcome<string> {
    if 0 <= i < |s| then Returned(s[i])
    else if -|s| <= i < 0 then Returned(s[|s| + i])
    else Raised
  }

  function IndexOf(s: seq<string>, day: string, from: nat): Option<nat>
    decreases |s| - from
  {
    if from >= |s| then None else if s[from] == day then Some(from) else IndexOf(s, day, from + 1)
  }

  /** The trailing window as inclusive first and last session. */
  function WindowBounds(sessions: seq<string>, day: string, window: int): Outcome<(string, string)> {
    match IndexOf(sessions, day, 0)
    case None => Raised
    case Some(i) =>
      if i < window then Raised
      else
        match (ItemAt(sessions, i - window), ItemAt(sessions, i - 1))
        case (Returned(start), Returned(end)) => Returned((start, end))
        case _ => Raised
  }

  lemma {:induction false} IndexOfAscending(s: seq<string>, i: nat, from: nat)
    requires Ascending(s) && from <= i < |s|
    ensures IndexOf(s, s[i], from) == Some(i)
    decreases i - from
  {
    LessTrichotomy(s[from], s[i]);
    if from < i { IndexOfAscending(s, i, from + 1); }
  }

  lemma {:induction false} IndexIsFirst(s: seq<string>, day: string, from: nat)
    ensures match IndexOf(s, day, from)
            case None => forall j :: from <= j < |s| ==> s[j] != day
            case Some(i) => from <= i < |s| && s[i] == day && forall j :: from <= j < i ==> s[j] != day
    decreases |s| - from
  {
    if from < |s| && s[from] != day { IndexIsFirst(s, day, from + 1); }
  }

  /** A session has a window of at least one session exactly when as many come before it: those sessions,
      itself not among them. */
  lemma WindowIsBefore(sessions: seq<string>, i: nat, window: int)
    requires window >= 1 && i < |sessions| && forall j :: 0 <= j < i ==> sessions[j] != sessions[i]
    ensures WindowBounds(sessions, sessions[i], window)
         == if i < window then Raised else Returned((sessions[i - window], sessions[i - 1]))
  {
    IndexIsFirst(sessions, sessions[i], 0);
    assert IndexOf(sessions, sessions[i], 0) == Some(i);
  }

  /** A day without trading has none. */
  lemma NoSessionNoWindow(sessions: seq<string>, day: string, window: int)
    requires day !in sessions
    ensures WindowBounds(sessions, day, window).Raised?
  {
    IndexIsFirst(sessions, day, 0);
  }

  /** A formation date has a window, and it ends strictly before that date exactly when the date is
      not the very first session, which a window of at least one session ensures. */
  lemma FormationHasItsWindow(sessions: seq<string>, window: int, i: nat)
    requires Ascending(sessions) && i < |sessions| && Forms(sessions, i, window)
    ensures var w := WindowBounds(sessions, sessions[i], window);
            && (w.Returned? <==> i - window < |sessions|) && (window >= 0 ==> w.Returned?)
            && (w.Returned? ==> (Less(w.value.1, sessions[i]) <==> i > 0))
            && (window >= 1 ==>
                  && i > 0 && w.value == (sessions[i - window], sessions[i - 1])
                  && AtMost(w.value.0, w.value.1))
  {
    IndexOfAscending(sessions, i, 0);
    var last := sessions[|sessions| - 1];
    LessTrichotomy(last, sessions[i]);
    if window >= 1 {
      LessTrichotomy(sessions[i - window], sessions[i - 1]);
    }
  }

  /** With a window of no sessions, the first session's window ends at the last session of all. */
  lemma EmptyWindowLooksAhead(first: string, second: string)
    requires Less(first, second)
    ensures Forms([first, second], 0, 0) && WindowBounds([first, second], first, 0) == Returned((first, second))
  {}

  lemma {:induction false} IndexOfPrefix(s: seq<string>, more: seq<string>, day: string, from: nat)
    requires IndexOf(s, day, from).Some?
    ensures IndexOf(s + more, day, from) == IndexOf(s, day, from)
    decreases |s| - from
  {
    if s[from] != day { IndexOfPrefix(s, more, day, from + 1); }
  }

  /** A window decided once never moves: later sessions leave it as it was. */
  lemma WindowsNeverMove(sessions: seq<string>, later: seq<string>, window: nat, i: nat)
    requires Ascending(sessions) && window >= 1 && i < |sessions| && Forms(sessions, i, window)
    ensures WindowBounds(sessions + later, sessions[i], window) == WindowBounds(sessions, sessions[i], window)
  {
    IndexOfAscending(sessions, i, 0);
    IndexOfPrefix(sessions, later, sessions[i], 0);
  }
}
