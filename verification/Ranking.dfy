/** Membership at a formation date (backtest/universe.py): who is rejected and why, and the ranking
    of the rest. */
module Ranking {
  import opened Text
  import opened Sorting

  datatype Params = Params(minBars: int, minClose: real, topN: int, includeFunds: bool)

  /** `isFund` is nothing when the kind of instrument could not be established. */
  datatype Candidate = Candidate(
    symbol: string, bars: int, medianClose: real, dollarVolume: real, isFund: Option<bool>, segmentBreak: bool)

  datatype Reason =
    | ThinWindow(bars: int)
    | BelowPriceFloor(close: real)
    | SegmentBreak
    | Unclassified
    | Fund
    | BelowRank(n: int)

  datatype Member = Member(rank: int, candidate: Candidate)
  datatype Rejection = Rejection(symbol: string, reason: Reason)

  function RejectionReason(c: Candidate, p: Params): Option<Reason> {
    if c.bars < p.minBars then Some(ThinWindow(c.bars))
    else if c.medianClose < p.minClose then Some(BelowPriceFloor(c.medianClose))
    else if c.segmentBreak then Some(SegmentBreak)
    else if c.isFund.None? then Some(Unclassified)
    else if c.isFund.value && !p.includeFunds then Some(Fund)
    else None
  }

  predicate IsEligible(c: Candidate, p: Params) { RejectionReason(c, p).None? }

  function Eligible(cs: seq<Candidate>, p: Params): seq<Candidate> {
    if cs == [] then []
    else
      var n := |cs| - 1;
      Eligible(cs[..n], p) + if IsEligible(cs[n], p) then [cs[n]] else []
  }

  function Refused(cs: seq<Candidate>, p: Params): seq<Rejection> {
    if cs == [] then []
    else
      var n := |cs| - 1;
      Refused(cs[..n], p) + match RejectionReason(cs[n], p) case Some(r) => [Rejection(cs[n].symbol, r)] case None => []
  }

  /** The key `(-dollar_volume, symbol)`, ascending. */
  predicate Ahead(a: Candidate, b: Candidate) {
    a.dollarVolume > b.dollarVolume || (a.dollarVolume == b.dollarVolume && AtMost(a.symbol, b.symbol))
  }

  /** How many `s[:n]` takes; a negative `n` counts from the end. */
  function Take(length: nat, n: int): (r: nat)
    ensures r <= length
  {
    if n >= length then length else if n >= 0 then n else if length + n >= 0 then length + n else 0
  }

  function Ranked(cs: seq<Candidate>, p: Params): seq<Candidate> { Sort(Ahead, Eligible(cs, p)) }

  function Numbered(cs: seq<Candidate>): (r: seq<Member>)
    ensures |r| == |cs| && forall i :: 0 <= i < |r| ==> r[i] == Member(i + 1, cs[i])
  {
    seq(|cs|, i requires 0 <= i < |cs| => Member(i + 1, cs[i]))
  }

  function Members(cs: seq<Candidate>, p: Params): seq<Member> {
    var ranked := Ranked(cs, p);
    Numbered(ranked[..Take(|ranked|, p.topN)])
  }

  function TooLow(cs: seq<Candidate>, n: int): (r: seq<Rejection>)
    ensures |r| == |cs| && forall i :: 0 <= i < |r| ==> r[i] == Rejection(cs[i].symbol, BelowRank(n))
  {
    seq(|cs|, i requires 0 <= i < |cs| => Rejection(cs[i].symbol, BelowRank(n)))
  }

  function Rejections(cs: seq<Candidate>, p: Params): seq<Rejection> {
    var ranked := Ranked(cs, p);
    Refused(cs, p) + TooLow(ranked[Take(|ranked|, p.topN)..], p.topN)
  }

  // ----- What is decided about each candidate --------------------------------------------------------

  /** Enough bars, a median close at the floor or above, one listing in the window, and a known kind,
      which is no fund unless funds are asked for. */
  predicate Admitted(c: Candidate, p: Params) {
    && c.bars >= p.minBars && c.medianClose >= p.minClose && !c.segmentBreak
    && c.isFund.Some? && (c.isFund.value ==> p.includeFunds)
  }

  /** The reason names the first test that fails, with the candidate's own number. */
  predicate Explains(r: Reason, c: Candidate, p: Params) {
    match r
    case ThinWindow(bars) => bars == c.bars && c.bars < p.minBars
    case BelowPriceFloor(close) => c.bars >= p.minBars && close == c.medianClose && c.medianClose < p.minClose
    case SegmentBreak => c.bars >= p.minBars && c.medianClose >= p.minClose && c.segmentBreak
    case Unclassified => c.bars >= p.minBars && c.medianClose >= p.minClose && !c.segmentBreak && c.isFund == None
    case Fund =>
      && c.bars >= p.minBars && c.medianClose >= p.minClose && !c.segmentBreak
      && c.isFund == Some(true) && !p.includeFunds
    case BelowRank(_) => false
  }

  /** The candidates that are admitted, or that are not, in the order they come. */
  function Sieved(cs: seq<Candidate>, p: Params, admitted: bool): seq<Candidate> {
    if cs == [] then []
    else Sieved(cs[..|cs| - 1], p, admitted)
         + if Admitted(cs[|cs| - 1], p) == admitted then [cs[|cs| - 1]] else []
  }

  /** The larger dollar volume first, of equal ones the smaller symbol. */
  predicate Outranks(a: Candidate, b: Candidate) {
    if a.dollarVolume == b.dollarVolume then a.symbol == b.symbol || Less(a.symbol, b.symbol)
    else a.dollarVolume > b.dollarVolume
  }

  /** The admitted candidates, best first. */
  ghost predicate RanksAdmitted(ranked: seq<Candidate>, cs: seq<Candidate>, p: Params) {
    && multiset(ranked) == multiset(Sieved(cs, p, true))
    && forall i, j :: 0 <= i < j < |ranked| ==> Outranks(ranked[i], ranked[j])
  }

  /** The first `cut` are members, the rest are below the rank. */
  predicate CutAt(ranked: seq<Candidate>, cut: nat, topN: int, members: seq<Member>, low: seq<Rejection>) {
    && cut <= |ranked| && |members| == cut && |low| == |ranked| - cut
    && (0 <= topN <= |ranked| ==> cut == topN) && (topN > |ranked| ==> cut == |ranked|)
    && (topN < 0 ==> if |ranked| + topN < 0 then cut == 0 else cut == |ranked| + topN)
    && (forall i :: 0 <= i < cut ==> members[i] == Member(i + 1, ranked[i]))
    && (forall i :: cut <= i < |ranked| ==> low[i - cut] == Rejection(ranked[i].symbol, BelowRank(topN)))
  }

  predicate IsMember(c: Candidate, ms: seq<Member>) { exists i :: 0 <= i < |ms| && ms[i].candidate == c }

  predicate ExplainsAll(refused: seq<Rejection>, others: seq<Candidate>, p: Params) {
    && |refused| == |others|
    && forall i :: 0 <= i < |others| ==> refused[i].symbol == others[i].symbol && Explains(refused[i].reason, others[i], p)
  }

  /** The members and the rejections of a formation date. */
  ghost predicate Decides(cs: seq<Candidate>, p: Params, members: seq<Member>, rejected: seq<Rejection>) {
    exists ranked: seq<Candidate>, cut: nat ::
      && RanksAdmitted(ranked, cs, p) && |Sieved(cs, p, false)| <= |rejected|
      && ExplainsAll(rejected[..|Sieved(cs, p, false)|], Sieved(cs, p, false), p)
      && CutAt(ranked, cut, p.topN, members, rejected[|Sieved(cs, p, false)|..])
  }

  lemma ReasonExplains(c: Candidate, p: Params)
    ensures IsEligible(c, p) <==> Admitted(c, p)
    ensures !IsEligible(c, p) ==> Explains(RejectionReason(c, p).value, c, p)
  {}

  lemma {:induction false} SievedLists(cs: seq<Candidate>, p: Params)
    ensures Eligible(cs, p) == Sieved(cs, p, true)
    ensures ExplainsAll(Refused(cs, p), Sieved(cs, p, false), p)
  {
    hide RejectionReason, Admitted, Explains;
    if cs != [] {
      SievedLists(cs[..|cs| - 1], p);
      ReasonExplains(cs[|cs| - 1], p);
    }
  }

  lemma RankedInOrder(cs: seq<Candidate>, p: Params)
    ensures RanksAdmitted(Ranked(cs, p), cs, p)
  {
    hide Eligible, Sieved, Sort;
    SievedLists(cs, p);
    AheadIsTotal();
    SortSorts(Ahead, Eligible(cs, p));
    SortPermutes(Ahead, Eligible(cs, p));
    forall a: Candidate, b: Candidate
      ensures Ahead(a, b) ==> Outranks(a, b)
    {
      Order(a.symbol, b.symbol, b.symbol);
    }
  }

  lemma RankingDecides(cs: seq<Candidate>, p: Params)
    ensures Decides(cs, p, Members(cs, p), Rejections(cs, p))
  {
    hide Eligible, Refused, Sieved, Sort, RanksAdmitted, ExplainsAll;
    var ranked, refused := Ranked(cs, p), Refused(cs, p);
    var cut := Take(|ranked|, p.topN);
    SievedLists(cs, p);
    RankedInOrder(cs, p);
    RefusedCount(refused, Sieved(cs, p, false), p);
    var low := TooLow(ranked[cut..], p.topN);
    assert Rejections(cs, p)[..|refused|] == refused && Rejections(cs, p)[|refused|..] == low;
    assert CutAt(ranked, cut, p.topN, Members(cs, p), low);
  }

  lemma RefusedCount(refused: seq<Rejection>, others: seq<Candidate>, p: Params)
    requires ExplainsAll(refused, others, p)
    ensures |refused| == |others|
  {}

  /** `rank_members`: sort the candidates into two lists, rank the eligible, cut at the top. */
  method RankMembers(cs: seq<Candidate>, p: Params) returns (members: seq<Member>, rejected: seq<Rejection>)
    ensures members == Members(cs, p) && rejected == Rejections(cs, p)
    ensures Decides(cs, p, members, rejected)
  {
    hide RejectionReason, Sort, Decides;
    RankingDecides(cs, p);
    var eligible: seq<Candidate> := [];
    rejected := [];
    for i := 0 to |cs|
      invariant eligible == Eligible(cs[..i], p) && rejected == Refused(cs[..i], p)
    {
      assert cs[..i + 1][..i] == cs[..i];
      var reason := RejectionReason(cs[i], p);
      if reason.Some? {
        rejected := rejected + [Rejection(cs[i].symbol, reason.value)];
      } else {
        eligible := eligible + [cs[i]];
      }
    }
    assert cs[..|cs|] == cs;
    eligible := Sort(Ahead, eligible);
    var cut := Take(|eligible|, p.topN);
    members := [];
    for i := 0 to cut
      invariant members == Numbered(eligible[..cut])[..i]
    {
      members := members + [Member(i + 1, eligible[i])];
    }
    ghost var refused := rejected;
    for i := cut to |eligible|
      invariant rejected == refused + TooLow(eligible[cut..], p.topN)[..i - cut]
    {
      rejected := rejected + [Rejection(eligible[i].symbol, BelowRank(p.topN))];
    }
  }

  lemma {:induction false} SievedAre(cs: seq<Candidate>, p: Params, admitted: bool, c: Candidate)
    ensures c in Sieved(cs, p, admitted) <==> c in cs && Admitted(c, p) == admitted
  {
    hide Admitted;
    if cs != [] {
      var n := |cs| - 1;
      SievedAre(cs[..n], p, admitted, c);
      assert cs == cs[..n] + [cs[n]];
    }
  }

  /** Rejected for what the candidate is, not for its rank. */
  predicate TurnedAway(c: Candidate, p: Params, rejected: seq<Rejection>) {
    exists i :: 0 <= i < |rejected| && rejected[i].symbol == c.symbol && Explains(rejected[i].reason, c, p)
  }

  predicate IsBelow(c: Candidate, p: Params, rejected: seq<Rejection>) {
    Rejection(c.symbol, BelowRank(p.topN)) in rejected
  }

  /** A candidate that is admitted is a member or below the rank, any other is turned away for the first
      test it fails, and there are no other members. */
  lemma EveryCandidateIsDecided(cs: seq<Candidate>, p: Params, members: seq<Member>, rejected: seq<Rejection>)
    requires Decides(cs, p, members, rejected)
    ensures forall c :: c in cs ==>
              if Admitted(c, p) then IsMember(c, members) || IsBelow(c, p, rejected)
              else TurnedAway(c, p, rejected) && !IsMember(c, members)
    ensures forall i :: 0 <= i < |members| ==> members[i].candidate in cs && Admitted(members[i].candidate, p)
  {
    hide Admitted, Explains, Outranks, Sieved;
    var others := Sieved(cs, p, false);
    var ranked: seq<Candidate>, cut: nat :|
      && RanksAdmitted(ranked, cs, p) && |others| <= |rejected| && ExplainsAll(rejected[..|others|], others, p)
      && CutAt(ranked, cut, p.topN, members, rejected[|others|..]);
    forall c
      ensures c in ranked <==> c in cs && Admitted(c, p)
      ensures c in others <==> c in cs && !Admitted(c, p)
    {
      SievedAre(cs, p, true, c);
      SievedAre(cs, p, false, c);
      assert c in ranked <==> c in multiset(ranked);
    }
    assert forall i :: 0 <= i < |members| ==> members[i].candidate == ranked[i] && ranked[i] in ranked;
    forall c | c in cs && Admitted(c, p)
      ensures IsMember(c, members) || IsBelow(c, p, rejected)
    {
      var i :| 0 <= i < |ranked| && ranked[i] == c;
      if i < cut {
        assert members[i].candidate == c;
      } else {
        assert rejected[|others|..][i - cut] == Rejection(c.symbol, BelowRank(p.topN));
      }
    }
    forall c | c in cs && !Admitted(c, p)
      ensures TurnedAway(c, p, rejected)
    {
      var i :| 0 <= i < |others| && others[i] == c;
      assert rejected[..|others|][i] == rejected[i];
    }
  }

  /** Asking for funds as well brings in none but candidates known to be funds. */
  lemma FundsBringFunds(cs: seq<Candidate>, p: Params, c: Candidate, without: seq<Member>, refused: seq<Rejection>,
        withFunds: seq<Member>, rejected: seq<Rejection>)
    requires c in cs && Decides(cs, p.(includeFunds := false), without, refused)
    requires Decides(cs, p.(includeFunds := true), withFunds, rejected)
    requires IsMember(c, withFunds) && !IsMember(c, without) && !IsBelow(c, p, refused)
    ensures c.isFund == Some(true)
  {
    hide Decides;
    EveryCandidateIsDecided(cs, p.(includeFunds := false), without, refused);
    EveryCandidateIsDecided(cs, p.(includeFunds := true), withFunds, rejected);
  }

  // ----- The members and the rejections split the candidates ----------------------------------------

  function Symbols(cs: seq<Candidate>): seq<string> { seq(|cs|, i requires 0 <= i < |cs| => cs[i].symbol) }
  function MemberSymbols(ms: seq<Member>): seq<string> { seq(|ms|, i requires 0 <= i < |ms| => ms[i].candidate.symbol) }
  function RejectedSymbols(rs: seq<Rejection>): seq<string> { seq(|rs|, i requires 0 <= i < |rs| => rs[i].symbol) }

  lemma SymbolsJoin(a: seq<Candidate>, b: seq<Candidate>)
    ensures Symbols(a + b) == Symbols(a) + Symbols(b)
  {}

  lemma RejectedJoin(a: seq<Rejection>, b: seq<Rejection>)
    ensures RejectedSymbols(a + b) == RejectedSymbols(a) + RejectedSymbols(b)
  {}

  lemma OneSymbol(c: Candidate, r: Reason)
    ensures Symbols([c]) == [c.symbol] && RejectedSymbols([Rejection(c.symbol, r)]) == [c.symbol]
    ensures Symbols([]) == [] && RejectedSymbols([]) == []
  {}

  lemma {:induction false} ListsSplit(cs: seq<Candidate>, p: Params)
    ensures multiset(Symbols(cs)) == multiset(Symbols(Eligible(cs, p))) + multiset(RejectedSymbols(Refused(cs, p)))
  {
    hide RejectionReason, Symbols, RejectedSymbols;
    if cs == [] {
      OneSymbol(Candidate("", 0, 0.0, 0.0, None, false), Fund);
    } else {
      var n := |cs| - 1;
      ListsSplit(cs[..n], p);
      assert cs == cs[..n] + [cs[n]];
      var e, r := Eligible(cs[..n], p), Refused(cs[..n], p);
      var reason := RejectionReason(cs[n], p);
      SymbolsJoin(cs[..n], [cs[n]]);
      SymbolsJoin(e, if reason.None? then [cs[n]] else []);
      RejectedJoin(r, if reason.Some? then [Rejection(cs[n].symbol, reason.value)] else []);
      OneSymbol(cs[n], if reason.Some? then reason.value else Fund);
    }
  }

  lemma {:induction false} InsertedSymbols(c: Candidate, xs: seq<Candidate>)
    ensures multiset(Symbols(Insert(Ahead, c, xs))) == multiset{c.symbol} + multiset(Symbols(xs))
  {
    hide Ahead;
    if xs == [] || Ahead(c, xs[0]) {
      assert Symbols([c] + xs) == [c.symbol] + Symbols(xs);
    } else {
      InsertedSymbols(c, xs[1..]);
      var tail := Insert(Ahead, c, xs[1..]);
      assert Symbols([xs[0]] + tail) == [xs[0].symbol] + Symbols(tail);
      assert Symbols(xs) == [xs[0].symbol] + Symbols(xs[1..]);
    }
  }

  lemma {:induction false} SortedSymbols(xs: seq<Candidate>)
    ensures multiset(Symbols(Sort(Ahead, xs))) == multiset(Symbols(xs))
  {
    hide Ahead;
    if xs != [] {
      SortedSymbols(xs[1..]);
      InsertedSymbols(xs[0], Sort(Ahead, xs[1..]));
      assert Symbols(xs) == [xs[0].symbol] + Symbols(xs[1..]);
    }
  }

  lemma MemberSymbolsAre(cs: seq<Candidate>)
    ensures MemberSymbols(Numbered(cs)) == Symbols(cs)
  {}

  lemma TooLowSymbolsAre(cs: seq<Candidate>, n: int)
    ensures RejectedSymbols(TooLow(cs, n)) == Symbols(cs)
  {}

  /** Every candidate ends up once, as a member or as a rejection, for every limit. */
  lemma MembersAndRejectionsSplit(cs: seq<Candidate>, p: Params)
    ensures multiset(Symbols(cs))
         == multiset(MemberSymbols(Members(cs, p))) + multiset(RejectedSymbols(Rejections(cs, p)))
  {
    hide RejectionReason, Ahead, Eligible, Refused, Symbols, RejectedSymbols, MemberSymbols, Numbered, TooLow, Sort;
    var ranked := Ranked(cs, p);
    var cut := Take(|ranked|, p.topN);
    ListsSplit(cs, p);
    SortedSymbols(Eligible(cs, p));
    assert ranked == ranked[..cut] + ranked[cut..];
    SymbolsJoin(ranked[..cut], ranked[cut..]);
    MemberSymbolsAre(ranked[..cut]);
    TooLowSymbolsAre(ranked[cut..], p.topN);
    RejectedJoin(Refused(cs, p), TooLow(ranked[cut..], p.topN));
  }

  // ----- The members are the best ---------------------------------------------------------------------

  lemma AheadIsTotal()
    ensures TotalPreorder(Ahead)
  {
    forall a: Candidate, b: Candidate
      ensures Ahead(a, b) || Ahead(b, a)
    {
      Order(a.symbol, b.symbol, b.symbol);
    }
    forall a: Candidate, b: Candidate, c: Candidate | Ahead(a, b) && Ahead(b, c)
      ensures Ahead(a, c)
    {
      Order(a.symbol, b.symbol, c.symbol);
    }
  }

  lemma {:induction false} EligibleAre(cs: seq<Candidate>, p: Params, c: Candidate)
    ensures c in Eligible(cs, p) <==> c in cs && IsEligible(c, p)
  {
    hide RejectionReason;
    if cs != [] {
      var n := |cs| - 1;
      EligibleAre(cs[..n], p, c);
      assert cs == cs[..n] + [cs[n]];
    }
  }

  /** The members are admitted candidates with ranks 1, 2, ... in order, as many as the limit
      allows, and none other that is admitted outranks one. */
  lemma MembersAreTheBest(cs: seq<Candidate>, p: Params)
    ensures var ms := Members(cs, p);
            && |ms| == Take(|Sieved(cs, p, true)|, p.topN)
            && (forall i :: 0 <= i < |ms| ==> ms[i].rank == i + 1 && ms[i].candidate in cs && Admitted(ms[i].candidate, p))
            && (forall i, j :: 0 <= i < j < |ms| ==> Outranks(ms[i].candidate, ms[j].candidate))
            && (forall c, i :: c in cs && Admitted(c, p) && !IsMember(c, ms) && 0 <= i < |ms| ==>
                  Outranks(ms[i].candidate, c))
  {
    hide Admitted, Outranks, Ahead, Sort, Eligible, Sieved;
    var ranked, ms := Ranked(cs, p), Members(cs, p);
    SievedLists(cs, p);
    RankedInOrder(cs, p);
    SortPermutes(Ahead, Eligible(cs, p));
    forall i | 0 <= i < |ms|
      ensures ms[i].candidate in cs && Admitted(ms[i].candidate, p)
    {
      assert ranked[i] in ranked;
      SievedAre(cs, p, true, ranked[i]);
    }
    forall c, i | c in cs && Admitted(c, p) && !IsMember(c, ms) && 0 <= i < |ms|
      ensures Outranks(ms[i].candidate, c)
    {
      SievedAre(cs, p, true, c);
      var j :| 0 <= j < |ranked| && ranked[j] == c;
      assert j < |ms| ==> ms[j].candidate == c;
    }
  }

  // ----- The order of the candidates does not matter ------------------------------------------------

  predicate DistinctSymbols(cs: seq<Candidate>) {
    forall i, j :: 0 <= i < j < |cs| ==> cs[i].symbol != cs[j].symbol
  }

  lemma {:induction false} EligibleCounts(cs: seq<Candidate>, p: Params, c: Candidate)
    ensures multiset(Eligible(cs, p))[c] == if IsEligible(c, p) then multiset(cs)[c] else 0
  {
    hide RejectionReason;
    if cs != [] {
      var n := |cs| - 1;
      EligibleCounts(cs[..n], p, c);
      assert cs == cs[..n] + [cs[n]];
    }
  }

  /** For distinct symbols, the members are the same for every order of the candidates. */
  lemma MembershipIgnoresOrder(cs: seq<Candidate>, ds: seq<Candidate>, p: Params)
    requires multiset(cs) == multiset(ds) && DistinctSymbols(cs)
    ensures Members(cs, p) == Members(ds, p)
  {
    hide RejectionReason, Eligible, Sort;
    var xs, ys := Eligible(cs, p), Eligible(ds, p);
    forall c
      ensures multiset(xs)[c] == multiset(ys)[c]
    {
      EligibleCounts(cs, p, c);
      EligibleCounts(ds, p, c);
    }
    assert multiset(xs) == multiset(ys);
    forall a, b | a in multiset(xs) && b in multiset(xs) && Ahead(a, b) && Ahead(b, a)
      ensures a == b
    {
      EligibleAre(cs, p, a);
      EligibleAre(cs, p, b);
      Order(a.symbol, b.symbol, b.symbol);
      var i :| 0 <= i < |cs| && cs[i] == a;
      var j :| 0 <= j < |cs| && cs[j] == b;
    }
    AheadIsTotal();
    SortIsCanonical(Ahead, xs, ys);
  }
}
