/** Listing segments of a ticker (backtest/universe.py, `segment_series`): its bar dates split
    wherever more trading sessions than the limit lie between neighbours. */
module Segments {
  import opened Text

  datatype Segment = Segment(index: nat, startDate: string, endDate: string, bars: nat, gapBefore: int)

  /** Sessions strictly between the bar before `i` and the bar at `i`. */
  function Gap(dates: seq<string>, sessionIndex: map<string, int>, i: nat): int
    requires 0 < i < |dates| && dates[i] in sessionIndex && dates[i - 1] in sessionIndex
  {
    sessionIndex[dates[i]] - sessionIndex[dates[i - 1]] - 1
  }

  /** The map numbers the exchange's sessions in their order. */
  ghost predicate NumbersSessions(sessionIndex: map<string, int>, sessions: seq<string>) {
    && (forall d :: d in sessionIndex ==> 0 <= sessionIndex[d] < |sessions| && sessions[sessionIndex[d]] == d)
    && forall k :: 0 <= k < |sessions| ==> sessions[k] in sessionIndex && sessionIndex[sessions[k]] == k
  }

  /** The sessions whose numbers lie strictly between two. */
  function SessionsBetween(sessionIndex: map<string, int>, low: int, high: int): set<string> {
    set d | d in sessionIndex && low < sessionIndex[d] < high
  }

  lemma {:induction false} BetweenCounts(sessionIndex: map<string, int>, sessions: seq<string>, low: int, high: int)
    requires NumbersSessions(sessionIndex, sessions) && 0 <= low < high < |sessions|
    ensures |SessionsBetween(sessionIndex, low, high)| == high - low - 1
    decreases high - low
  {
    if high == low + 1 {
      assert SessionsBetween(sessionIndex, low, high) == {};
    } else {
      BetweenCounts(sessionIndex, sessions, low, high - 1);
      assert SessionsBetween(sessionIndex, low, high)
          == SessionsBetween(sessionIndex, low, high - 1) + {sessions[high - 1]};
    }
  }

  /** For bars in the order of the sessions, the gap is how many sessions lie strictly between them. */
  lemma GapCountsSessions(sessions: seq<string>, dates: seq<string>, sessionIndex: map<string, int>, i: nat)
    requires NumbersSessions(sessionIndex, sessions)
    requires 0 < i < |dates| && dates[i] in sessionIndex && dates[i - 1] in sessionIndex
    requires sessionIndex[dates[i - 1]] < sessionIndex[dates[i]]
    ensures Gap(dates, sessionIndex, i)
         == |SessionsBetween(sessionIndex, sessionIndex[dates[i - 1]], sessionIndex[dates[i]])|
  {
    BetweenCounts(sessionIndex, sessions, sessionIndex[dates[i - 1]], sessionIndex[dates[i]]);
  }

  predicate Indexed(dates: seq<string>, sessionIndex: map<string, int>) {
    forall i :: 0 <= i < |dates| ==> dates[i] in sessionIndex
  }

  /** Where segment `i` begins among the bars. */
  function Offset(segments: seq<Segment>, i: nat): nat
    requires i <= |segments|
  {
    if i == 0 then 0 else Offset(segments, i - 1) + segments[i - 1].bars
  }

  /** The run of bars at an offset: named by its first and last date, numbered in order, all gaps
      inside at most the limit, the gap before it recorded and beyond the limit. */
  ghost predicate RunAt(s: Segment, i: nat, at: nat, dates: seq<string>, sessionIndex: map<string, int>, limit: int)
    requires Indexed(dates, sessionIndex)
  {
    && s.index == i && 0 < s.bars && at + s.bars <= |dates|
    && s.startDate == dates[at] && s.endDate == dates[at + s.bars - 1]
    && (if i == 0 then s.gapBefore == 0
        else 0 < at && s.gapBefore == Gap(dates, sessionIndex, at) && s.gapBefore > limit)
    && forall j :: at < j < at + s.bars ==> Gap(dates, sessionIndex, j) <= limit
  }

  ghost predicate IsRun(segments: seq<Segment>, i: nat, dates: seq<string>, sessionIndex: map<string, int>, limit: int)
    requires i < |segments| && Indexed(dates, sessionIndex)
  {
    RunAt(segments[i], i, Offset(segments, i), dates, sessionIndex, limit)
  }

  /** The segments cover the dates in order, run after run. */
  ghost predicate Segmentation(segments: seq<Segment>, dates: seq<string>, sessionIndex: map<string, int>, limit: int)
    requires Indexed(dates, sessionIndex)
  {
    && Offset(segments, |segments|) == |dates|
    && forall i :: 0 <= i < |segments| ==> IsRun(segments, i, dates, sessionIndex, limit)
  }

  lemma {:induction false} OffsetOfPrefix(segments: seq<Segment>, more: seq<Segment>, i: nat)
    requires i <= |segments|
    ensures Offset(segments + more, i) == Offset(segments, i)
  {
    if i > 0 { OffsetOfPrefix(segments, more, i - 1); }
  }

  /** Closing the current run keeps the runs before it. */
  lemma RunsKept(segments: seq<Segment>, s: Segment, dates: seq<string>, sessionIndex: map<string, int>, limit: int)
    requires Indexed(dates, sessionIndex)
    requires forall i :: 0 <= i < |segments| ==> IsRun(segments, i, dates, sessionIndex, limit)
    requires RunAt(s, |segments|, Offset(segments, |segments|), dates, sessionIndex, limit)
    ensures forall i :: 0 <= i < |segments| + 1 ==> IsRun(segments + [s], i, dates, sessionIndex, limit)
    ensures Offset(segments + [s], |segments| + 1) == Offset(segments, |segments|) + s.bars
  {
    hide RunAt;
    OffsetOfPrefix(segments, [s], |segments|);
    forall i | 0 <= i < |segments|
      ensures IsRun(segments + [s], i, dates, sessionIndex, limit)
    {
      assert IsRun(segments, i, dates, sessionIndex, limit);
      OffsetOfPrefix(segments, [s], i);
    }
  }

  /** `segment_series`: one pass over neighbouring dates. It fails exactly when a date it has to
      look up is on no session; a single bar is never looked up. */
  method SegmentSeries(dates: seq<string>, sessionIndex: map<string, int>, limit: int) returns (r: Option<seq<Segment>>)
    ensures r.None? <==> |dates| >= 2 && !Indexed(dates, sessionIndex)
    ensures r.Some? && Indexed(dates, sessionIndex) ==> Segmentation(r.value, dates, sessionIndex, limit)
    ensures r.Some? && |dates| == 1 ==> r.value == [Segment(0, dates[0], dates[0], 1, 0)]
  {
    if dates == [] {
      return Some([]);
    }
    hide Gap;
    var segments: seq<Segment> := [];
    var start, count, gapBefore: int := dates[0], 1, 0;
    var i: nat := 1;
    while i < |dates|
      invariant 1 <= i <= |dates| && 1 <= count
      invariant i > 1 ==> Indexed(dates[..i], sessionIndex)
      invariant Indexed(dates, sessionIndex) ==>
                  Current(segments, start, count, gapBefore, i, dates, sessionIndex, limit)
      invariant i == 1 ==> segments == [] && start == dates[0] && count == 1 && gapBefore == 0
    {
      if dates[i] !in sessionIndex || dates[i - 1] !in sessionIndex {
        return None;
      }
      var gap := Gap(dates, sessionIndex, i);
      if gap > limit {
        if Indexed(dates, sessionIndex) {
          RunsKept(segments, Segment(|segments|, start, dates[i - 1], count, gapBefore), dates, sessionIndex, limit);
        }
        segments := segments + [Segment(|segments|, start, dates[i - 1], count, gapBefore)];
        start, count, gapBefore := dates[i], 1, gap;
      } else {
        count := count + 1;
      }
      i := i + 1;
    }
    assert dates[..i] == dates;
    if Indexed(dates, sessionIndex) {
      RunsKept(segments, Segment(|segments|, start, dates[|dates| - 1], count, gapBefore), dates, sessionIndex, limit);
    }
    r := Some(segments + [Segment(|segments|, start, dates[|dates| - 1], count, gapBefore)]);
  }

  /** In the loop: the finished runs, and the one that reaches up to `i`. */
  ghost predicate Current(segments: seq<Segment>, start: string, count: nat, gapBefore: int, i: nat,
      dates: seq<string>, sessionIndex: map<string, int>, limit: int)
    requires Indexed(dates, sessionIndex)
  {
    var at := Offset(segments, |segments|);
    && (forall k :: 0 <= k < |segments| ==> IsRun(segments, k, dates, sessionIndex, limit))
    && 0 < count && at + count == i <= |dates| && start == dates[at]
    && (if segments == [] then gapBefore == 0
        else 0 < at && gapBefore == Gap(dates, sessionIndex, at) && gapBefore > limit)
    && forall j :: at < j < i ==> Gap(dates, sessionIndex, j) <= limit
  }

  // ----- There is one segmentation --------------------------------------------------------------

  /** After a run comes the end of the dates, or a gap beyond the limit. */
  lemma RunEnds(segments: seq<Segment>, i: nat, dates: seq<string>, sessionIndex: map<string, int>, limit: int)
    requires Indexed(dates, sessionIndex) && i < |segments| && Segmentation(segments, dates, sessionIndex, limit)
    ensures var next := Offset(segments, i + 1);
            0 < next <= |dates| && (next == |dates| || Gap(dates, sessionIndex, next) > limit)
  {
    assert IsRun(segments, i, dates, sessionIndex, limit);
    if i + 1 < |segments| {
      assert IsRun(segments, i + 1, dates, sessionIndex, limit);
    }
  }

  lemma NoLonger(a: seq<Segment>, b: seq<Segment>, i: nat, dates: seq<string>, sessionIndex: map<string, int>,
        limit: int)
    requires Indexed(dates, sessionIndex) && i < |a| && i < |b| && Offset(a, i) == Offset(b, i)
    requires Segmentation(a, dates, sessionIndex, limit) && Segmentation(b, dates, sessionIndex, limit)
    ensures a[i].bars <= b[i].bars
  {
    hide Gap;
    assert IsRun(a, i, dates, sessionIndex, limit) && IsRun(b, i, dates, sessionIndex, limit);
    RunEnds(b, i, dates, sessionIndex, limit);
  }

  lemma {:induction false} SameRuns(a: seq<Segment>, b: seq<Segment>, i: nat, dates: seq<string>,
        sessionIndex: map<string, int>, limit: int)
    requires Indexed(dates, sessionIndex) && i <= |a| && i <= |b|
    requires Segmentation(a, dates, sessionIndex, limit) && Segmentation(b, dates, sessionIndex, limit)
    ensures Offset(a, i) == Offset(b, i) && a[..i] == b[..i]
  {
    if i > 0 {
      SameRuns(a, b, i - 1, dates, sessionIndex, limit);
      NoLonger(a, b, i - 1, dates, sessionIndex, limit);
      NoLonger(b, a, i - 1, dates, sessionIndex, limit);
      assert IsRun(a, i - 1, dates, sessionIndex, limit) && IsRun(b, i - 1, dates, sessionIndex, limit);
      assert a[..i] == a[..i - 1] + [a[i - 1]] && b[..i] == b[..i - 1] + [b[i - 1]];
    }
  }

  lemma {:induction false} OffsetsGrow(segments: seq<Segment>, i: nat, k: nat)
    requires i <= k <= |segments| && forall j :: 0 <= j < |segments| ==> segments[j].bars > 0
    ensures i < k ==> Offset(segments, i) < Offset(segments, k)
    decreases k
  {
    if i < k { OffsetsGrow(segments, i, k - 1); }
  }

  lemma SameNumber(a: seq<Segment>, b: seq<Segment>, dates: seq<string>, sessionIndex: map<string, int>, limit: int)
    requires Indexed(dates, sessionIndex)
    requires Segmentation(a, dates, sessionIndex, limit) && Segmentation(b, dates, sessionIndex, limit)
    ensures |a| == |b|
  {
    hide Gap;
    var m := if |a| < |b| then |a| else |b|;
    forall i | 0 <= i < |a| ensures a[i].bars > 0 { assert IsRun(a, i, dates, sessionIndex, limit); }
    forall i | 0 <= i < |b| ensures b[i].bars > 0 { assert IsRun(b, i, dates, sessionIndex, limit); }
    SameRuns(a, b, m, dates, sessionIndex, limit);
    OffsetsGrow(a, m, |a|);
    OffsetsGrow(b, m, |b|);
  }

  lemma SegmentationIsUnique(a: seq<Segment>, b: seq<Segment>, dates: seq<string>, sessionIndex: map<string, int>,
        limit: int)
    requires Indexed(dates, sessionIndex)
    requires Segmentation(a, dates, sessionIndex, limit) && Segmentation(b, dates, sessionIndex, limit)
    ensures a == b
  {
    SameNumber(a, b, dates, sessionIndex, limit);
    SameRuns(a, b, |a|, dates, sessionIndex, limit);
    assert a[..|a|] == a && b[..|b|] == b;
  }

  // ----- Breaks inside a window -------------------------------------------------------------------

  predicate Between(start: string, date: string, end: string) { AtMost(start, date) && AtMost(date, end) }

  /** `has_segment_break_in`. */
  predicate HasBreakIn(segments: seq<Segment>, start: string, end: string) {
    exists i :: 0 <= i < |segments| && segments[i].index > 0 && Between(start, segments[i].startDate, end)
  }

  lemma {:induction false} SegmentAt(segments: seq<Segment>, j: nat, k: nat) returns (i: nat)
    requires k <= |segments| && j < Offset(segments, k)
    ensures i < k && Offset(segments, i) <= j < Offset(segments, i) + segments[i].bars
  {
    if j < Offset(segments, k - 1) {
      i := SegmentAt(segments, j, k - 1);
    } else {
      i := k - 1;
    }
  }

  /** A window holds a break exactly when some bar in it follows a gap beyond the limit. */
  lemma BreaksAreLongGaps(segments: seq<Segment>, dates: seq<string>, sessionIndex: map<string, int>, limit: int,
        start: string, end: string)
    requires Indexed(dates, sessionIndex) && Segmentation(segments, dates, sessionIndex, limit)
    ensures HasBreakIn(segments, start, end)
       <==> exists j :: 0 < j < |dates| && Gap(dates, sessionIndex, j) > limit
                        && AtMost(start, dates[j]) && AtMost(dates[j], end)
  {
    hide Gap, AtMost;
    if HasBreakIn(segments, start, end) {
      var i :| 0 <= i < |segments| && segments[i].index > 0 && Between(start, segments[i].startDate, end);
      assert IsRun(segments, i, dates, sessionIndex, limit);
      assert Gap(dates, sessionIndex, Offset(segments, i)) > limit;
    }
    if j :| 0 < j < |dates| && Gap(dates, sessionIndex, j) > limit && Between(start, dates[j], end) {
      var i := SegmentAt(segments, j, |segments|);
      assert IsRun(segments, i, dates, sessionIndex, limit);
      assert j == Offset(segments, i);
    }
  }
}
