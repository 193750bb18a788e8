/** What the gate is shown: the portfolio rebuilt from the open positions, entry by entry. */
module GateView {
  import opened Text
  import opened Tape
  import opened Backtest
  import opened BacktestInvariants

  // ----- Sums over groups of positions ------------------------------------------------------------

  /** What a position is worth at its entry, and what it loses when its stop is hit. */
  function Worth(op: OpenPos): real { op.pos.entryPrice * op.pos.qty }

  function AtRisk(op: OpenPos): real {
    (if op.pos.entryPrice < op.pos.stop then op.pos.stop - op.pos.entryPrice else op.pos.entryPrice - op.pos.stop)
    * op.pos.qty
  }

  /** What is held under the keys of a group. */
  ghost function Held(open: map<string, OpenPos>, group: string -> string, g: string): real {
    Total(map k | k in open && group(k) == g :: Worth(open[k]))
  }

  /** `m` has an entry for each group with a position, of what is held under it, and no other. */
  ghost predicate SumsUp(m: map<string, real>, open: map<string, OpenPos>, group: string -> string) {
    && (forall k :: k in open ==> group(k) in m)
    && (forall g :: g in m ==> (exists k :: k in open && group(k) == g) && m[g] == Held(open, group, g))
  }

  lemma HeldMore(open: map<string, OpenPos>, k: string, op: OpenPos, group: string -> string,
        g: string)
    requires k !in open
    ensures Held(open[k := op], group, g) == Held(open, group, g) + if group(k) == g then Worth(op) else 0.0
  {
    var more := open[k := op];
    var a, b := map x | x in more && group(x) == g :: Worth(more[x]), map x | x in open && group(x) == g :: Worth(open[x]);
    if group(k) == g {
      TotalWithout(a, k);
      assert a - {k} == b;
    } else {
      assert a == b;
    }
  }

  lemma HeldNothing(open: map<string, OpenPos>, group: string -> string, g: string)
    requires forall k :: k in open ==> group(k) != g
    ensures Held(open, group, g) == 0.0
  {
    assert (map k | k in open && group(k) == g :: Worth(open[k])) == map[];
  }

  lemma SumsUpMore(m: map<string, real>, open: map<string, OpenPos>, k: string, op: OpenPos, group: string -> string)
    requires SumsUp(m, open, group) && k !in open
    ensures SumsUp(Raise(m, group(k), Worth(op)), open[k := op], group)
  {
    var raised, more := Raise(m, group(k), Worth(op)), open[k := op];
    forall g | g in raised
      ensures (exists x :: x in more && group(x) == g) && raised[g] == Held(more, group, g)
    {
      HeldMore(open, k, op, group, g);
      if g == group(k) {
        assert k in more;
        if g !in m { HeldNothing(open, group, g); }
      } else {
        var x :| x in open && group(x) == g;
        assert x in more;
      }
    }
  }

  // ----- The portfolio ------------------------------------------------------------------------------

  ghost predicate ByMarket(m: map<string, real>, open: map<string, OpenPos>) {
    && (forall k :: k in open ==> open[k].pos.market in m)
    && forall g :: g in m ==>
         && (exists k :: k in open && open[k].pos.market == g)
         && m[g] == Total(map k | k in open && open[k].pos.market == g :: Worth(open[k]))
  }

  ghost predicate ByCategory(m: map<string, real>, open: map<string, OpenPos>) {
    && (forall k :: k in open ==> open[k].pos.category in m)
    && forall g :: g in m ==>
         && (exists k :: k in open && open[k].pos.category == g)
         && m[g] == Total(map k | k in open && open[k].pos.category == g :: Worth(open[k]))
  }

  /** The portfolio shows the book's money and loss counter, each open position under its own symbol, each
      market and category with what is held there, and the risk to the stops. */
  ghost predicate Shows(p: Portfolio, b: Book, open: map<string, OpenPos>) {
    && p.equity == b.equity && p.startOfDayEquity == b.startOfDay && p.realizedToday == b.realizedToday
    && p.losses == b.losses && p.positions == |open|
    && p.perSymbol == (map k | k in open :: Worth(open[k]))
    && ByMarket(p.perMarket, open) && ByCategory(p.perCategory, open)
    && p.openRisk == Total(map k | k in open :: AtRisk(open[k]))
  }

  /** The positions under some of the symbols. */
  ghost function Part(open: map<string, OpenPos>, keys: seq<string>): map<string, OpenPos> {
    map k | k in keys && k in open :: open[k]
  }

  lemma PartGrows(open: map<string, OpenPos>, keys: seq<string>)
    requires keys != [] && (forall k :: k in keys ==> k in open)
    requires forall i, j :: 0 <= i < j < |keys| ==> keys[i] != keys[j]
    ensures var n := |keys| - 1;
            && keys[n] in open && keys[n] !in Part(open, keys[..n])
            && Part(open, keys) == Part(open, keys[..n])[keys[n] := open[keys[n]]]
  {
    var n := |keys| - 1;
    assert keys == keys[..n] + [keys[n]];
    assert keys[n] in keys;
  }

  /** The three maps after some of the positions. */
  ghost predicate Sums(q: Portfolio, part: map<string, OpenPos>, symbol: string -> string, market: string -> string,
        category: string -> string)
  {
    && SumsUp(q.perSymbol, part, symbol) && SumsUp(q.perMarket, part, market)
    && SumsUp(q.perCategory, part, category)
    && q.openRisk == Total(map k | k in part :: AtRisk(part[k]))
  }

  lemma RiskMore(part: map<string, OpenPos>, k: string, op: OpenPos)
    requires k !in part
    ensures var more := part[k := op];
            Total(map x | x in more :: AtRisk(more[x])) == Total(map x | x in part :: AtRisk(part[x])) + AtRisk(op)
  {
    var more := part[k := op];
    var a := map x | x in more :: AtRisk(more[x]);
    TotalWithout(a, k);
    assert a - {k} == map x | x in part :: AtRisk(part[x]);
  }

  lemma PositionAdds(q: Portfolio, k: string, op: OpenPos)
    ensures var r := AddPosition(q, k, op);
            && r.perSymbol == Raise(q.perSymbol, k, Worth(op))
            && r.perMarket == Raise(q.perMarket, op.pos.market, Worth(op))
            && r.perCategory == Raise(q.perCategory, op.pos.category, Worth(op))
            && r.openRisk == q.openRisk + AtRisk(op)
  {
    hide Raise;
  }

  lemma SumsMore(q: Portfolio, part: map<string, OpenPos>, k: string, op: OpenPos, symbol: string -> string,
        market: string -> string, category: string -> string)
    requires Sums(q, part, symbol, market, category) && k !in part
    requires symbol(k) == k && market(k) == op.pos.market && category(k) == op.pos.category
    ensures Sums(AddPosition(q, k, op), part[k := op], symbol, market, category)
  {
    hide SumsUp, AddPosition, Worth, AtRisk, Raise, Total;
    PositionAdds(q, k, op);
    SumsUpMore(q.perSymbol, part, k, op, symbol);
    SumsUpMore(q.perMarket, part, k, op, market);
    SumsUpMore(q.perCategory, part, k, op, category);
    RiskMore(part, k, op);
  }

  lemma {:induction false} PositionsSum(p: Portfolio, open: map<string, OpenPos>, keys: seq<string>,
        symbol: string -> string, market: string -> string, category: string -> string)
    requires Sums(p, map[], symbol, market, category)
    requires (forall k :: k in keys ==> k in open) && forall i, j :: 0 <= i < j < |keys| ==> keys[i] != keys[j]
    requires forall k :: k in open ==> symbol(k) == k && market(k) == open[k].pos.market && category(k) == open[k].pos.category
    ensures Sums(AddPositions(p, open, keys), Part(open, keys), symbol, market, category)
  {
    hide Sums, AddPosition;
    if keys == [] {
      assert Part(open, keys) == map[];
    } else {
      var n := |keys| - 1;
      PartGrows(open, keys);
      PositionsSum(p, open, keys[..n], symbol, market, category);
      SumsMore(AddPositions(p, open, keys[..n]), Part(open, keys[..n]), keys[n], open[keys[n]], symbol, market, category);
    }
  }

  lemma ShowsSymbols(m: map<string, real>, open: map<string, OpenPos>, symbol: string -> string)
    requires SumsUp(m, open, symbol) && forall k :: k in open ==> symbol(k) == k
    ensures m == map k | k in open :: Worth(open[k])
  {
    hide Worth;
    forall k | k in open
      ensures Held(open, symbol, k) == Worth(open[k])
    {
      var one := map x | x in open && symbol(x) == k :: Worth(open[x]);
      TotalWithout(one, k);
      assert one - {k} == map[];
    }
  }

  lemma HeldByMarket(open: map<string, OpenPos>, market: string -> string, g: string)
    requires forall k :: k in open ==> market(k) == open[k].pos.market
    ensures Held(open, market, g) == Total(map k | k in open && open[k].pos.market == g :: Worth(open[k]))
  {
    hide Worth, Total;
    assert (map k | k in open && market(k) == g :: Worth(open[k]))
        == map k | k in open && open[k].pos.market == g :: Worth(open[k]);
  }

  lemma ShowsMarkets(m: map<string, real>, open: map<string, OpenPos>, market: string -> string)
    requires SumsUp(m, open, market) && forall k :: k in open ==> market(k) == open[k].pos.market
    ensures ByMarket(m, open)
  {
    hide Worth, Total, Held;
    forall g | g in m
      ensures (exists k :: k in open && open[k].pos.market == g)
           && m[g] == Total(map k | k in open && open[k].pos.market == g :: Worth(open[k]))
    {
      HeldByMarket(open, market, g);
      var k :| k in open && market(k) == g;
    }
  }

  lemma HeldByCategory(open: map<string, OpenPos>, category: string -> string, g: string)
    requires forall k :: k in open ==> category(k) == open[k].pos.category
    ensures Held(open, category, g) == Total(map k | k in open && open[k].pos.category == g :: Worth(open[k]))
  {
    hide Worth, Total;
    assert (map k | k in open && category(k) == g :: Worth(open[k]))
        == map k | k in open && open[k].pos.category == g :: Worth(open[k]);
  }

  lemma ShowsCategories(m: map<string, real>, open: map<string, OpenPos>, category: string -> string)
    requires SumsUp(m, open, category) && forall k :: k in open ==> category(k) == open[k].pos.category
    ensures ByCategory(m, open)
  {
    hide Worth, Total, Held;
    forall g | g in m
      ensures (exists k :: k in open && open[k].pos.category == g)
           && m[g] == Total(map k | k in open && open[k].pos.category == g :: Worth(open[k]))
    {
      HeldByCategory(open, category, g);
      var k :| k in open && category(k) == g;
    }
  }

  /** The gate is shown exactly the book and the open positions. */
  lemma RebuildShows(b: Book, open: map<string, OpenPos>)
    ensures Shows(RebuildPortfolio(b, open), b, open)
  {
    hide AddPositions, SortedKeys, ByMarket, ByCategory, Sums, SumsUp, Worth, AtRisk, Total;
    var keys := SortedKeys(open.Keys);
    var empty := Portfolio(b.equity, b.startOfDay, b.realizedToday, b.losses, 0, map[], map[], map[], 0.0);
    var symbol := (k: string) => k;
    var market := (k: string) => if k in open then open[k].pos.market else "";
    var category := (k: string) => if k in open then open[k].pos.category else "";
    SortedKeysAreTheKeys(open.Keys);
    assert Sums(empty, map[], symbol, market, category) by { NothingSums(empty, symbol, market, category); }
    PositionsSum(empty, open, keys, symbol, market, category);
    assert Part(open, keys) == open;
    var p := RebuildPortfolio(b, open);
    SumsMean(p, open, symbol, market, category);
    ShowsSymbols(p.perSymbol, open, symbol);
    ShowsMarkets(p.perMarket, open, market);
    ShowsCategories(p.perCategory, open, category);
    PortfolioHeader(b, open);
    ExposuresSumToOpenNotional(b, open);
  }

  lemma SumsMean(q: Portfolio, open: map<string, OpenPos>, symbol: string -> string, market: string -> string,
        category: string -> string)
    requires Sums(q, open, symbol, market, category)
    ensures SumsUp(q.perSymbol, open, symbol) && SumsUp(q.perMarket, open, market)
    ensures SumsUp(q.perCategory, open, category)
    ensures q.openRisk == Total(map k | k in open :: AtRisk(open[k]))
  {}

  lemma NothingSums(p: Portfolio, symbol: string -> string, market: string -> string, category: string -> string)
    requires p.perSymbol == map[] && p.perMarket == map[] && p.perCategory == map[] && p.openRisk == 0.0
    ensures Sums(p, map[], symbol, market, category)
  {
    var none: map<string, OpenPos> := map[];
    assert (map k | k in none :: AtRisk(none[k])) == map[];
  }
}
