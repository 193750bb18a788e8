/** What each reading of a poll causes, read off the interpretation and the settings, and what a poll
    therefore adds to the tables (adaptive/run.py, adaptive/actions.py). */
module PollEffects {
  import opened Text
  import opened Actions
  import opened AdaptiveStore
  import opened AdaptivePoll
  import opened AdaptiveGuarantees

  // ----- How an action may be spelled ----------------------------------------------------------------

  /** What Python's `str.strip` takes off. */
  predicate Margin(s: string) {
    forall i :: 0 <= i < |s| ==>
      var n := s[i] as int;
      n in {9, 10, 11, 12, 13, 28, 29, 30, 31, 32, 0x85, 0xA0, 0x1680, 0x2028, 0x2029, 0x202F, 0x205F, 0x3000}
      || 0x2000 <= n <= 0x200A
  }

  /** The same letters, whatever their case. */
  predicate SameLetters(a: string, name: string) {
    |a| == |name| && forall k :: 0 <= k < |a| ==> a[k] == name[k] || ('A' <= a[k] <= 'Z' && a[k] as int + 32 == name[k] as int)
  }

  /** The action is the name, up to case and to white space around it. */
  ghost predicate Spells(action: string, name: string) {
    exists left, core, right :: action == left + (core + right) && Margin(left) && SameLetters(core, name) && Margin(right)
  }

  lemma {:induction false} StripLeft(left: string, rest: string)
    requires Margin(left) && rest != "" && !IsWhite(rest[0])
    ensures TrimLeft(left + rest, IsWhite) == rest
  {
    if left == "" {
      assert left + rest == rest;
    } else {
      assert (left + rest)[1..] == left[1..] + rest;
      StripLeft(left[1..], rest);
    }
  }

  lemma {:induction false} StripRight(core: string, right: string)
    requires Margin(right) && core != "" && !IsWhite(core[|core| - 1])
    ensures TrimRight(core + right, IsWhite) == core
    decreases |right|
  {
    if right == "" {
      assert core + right == core;
    } else {
      assert (core + right)[..|core + right| - 1] == core + right[..|right| - 1];
      StripRight(core, right[..|right| - 1]);
    }
  }

  lemma {:induction false} LeftMargin(s: string) returns (left: string)
    ensures Margin(left) && s == left + TrimLeft(s, IsWhite)
  {
    left := "";
    if s != "" && IsWhite(s[0]) {
      var rest := LeftMargin(s[1..]);
      left := [s[0]] + rest;
      assert s == [s[0]] + s[1..];
    }
  }

  lemma {:induction false} RightMargin(s: string) returns (right: string)
    ensures Margin(right) && s == TrimRight(s, IsWhite) + right
  {
    right := "";
    if s != "" && IsWhite(s[|s| - 1]) {
      var rest := RightMargin(s[..|s| - 1]);
      right := rest + [s[|s| - 1]];
      assert s == s[..|s| - 1] + [s[|s| - 1]];
    }
  }

  lemma LoweredLetters(core: string, name: string)
    requires Plain(name)
    ensures Lower(core) == name <==> SameLetters(core, name)
    ensures SameLetters(core, name) ==> forall k :: 0 <= k < |core| ==> !IsWhite(core[k])
  {}

  /** Stripping and lowering an action gives a name exactly when the action spells it. */
  lemma NormalIsSpelling(action: string, name: string)
    requires Plain(name) && name != ""
    ensures Normal(action) == name <==> Spells(action, name)
  {
    hide Lower, Margin, SameLetters, Plain, IsWhite;
    var left := LeftMargin(action);
    var middle := TrimLeft(action, IsWhite);
    var right := RightMargin(middle);
    var core := TrimRight(middle, IsWhite);
    LoweredLetters(core, name);
    assert action == left + (core + right);
    if Spells(action, name) {
      var l, c, r :| action == l + (c + r) && Margin(l) && SameLetters(c, name) && Margin(r);
      LoweredLetters(c, name);
      assert c != "" by { assert |c| == |name| by { assert |Lower(c)| == |c|; } }
      assert (c + r)[0] == c[0];
      StripLeft(l, c + r);
      StripRight(c, r);
    }
  }

  // ----- One reading ---------------------------------------------------------------------------------

  /** The model finds the event about the name, and grave enough to move something. */
  predicate Matters(i: Interp, s: Settings) { s.minRelevance <= i.relevance && s.minSeverity <= i.severity }

  predicate IsProtective(action: string) { action == "exit" || action == "trim" || action == "flag_for_review" }

  ghost predicate IsReferral(action: string) {
    Spells(action, "open") || Spells(action, "increase") || action == "watchlist_add"
  }

  ghost predicate IsRemoval(action: string) {
    Spells(action, "watchlist_remove") || (Spells(action, "watchlist_add") && action != "watchlist_add")
  }

  /** The one effect of an interpretation, or none. */
  ghost predicate EffectIs(x: Item, i: Interp, s: Settings, w: World, e: Effect) {
    && (e == Queued <==> Matters(i, s) && s.defensiveOn && x.symbol != "" && IsProtective(i.action)
                         && 0.0 <= i.severity <= 1.0)
    && (e == Referred <==> Matters(i, s) && s.shapingOn && IsReferral(i.action) && w.refers(x.symbol))
    && (e == Pruned <==> Matters(i, s) && s.shapingOn && IsRemoval(i.action) && x.symbol != "" && w.prunes(x.symbol))
  }

  function ActionOf(x: Item, i: Interp, now: int): Action { Action(x.symbol, i.action, i.severity, x.id, now) }

  lemma ShapingNames()
    ensures Plain("open") && Plain("increase") && Plain("watchlist_add") && Plain("watchlist_remove")
  {}

  lemma SpelledNames(action: string)
    ensures Normal(action) == "open" <==> Spells(action, "open")
    ensures Normal(action) == "increase" <==> Spells(action, "increase")
    ensures Normal(action) == "watchlist_add" <==> Spells(action, "watchlist_add")
    ensures Normal(action) == "watchlist_remove" <==> Spells(action, "watchlist_remove")
    ensures IsProtective(action) ==> Normal(action) == action
    ensures action == "watchlist_add" ==> Normal(action) == action
  {
    hide Normal, Spells, Plain;
    ShapingNames();
    DefensiveNames();
    NormalIsSpelling(action, "open");
    NormalIsSpelling(action, "increase");
    NormalIsSpelling(action, "watchlist_add");
    NormalIsSpelling(action, "watchlist_remove");
    if IsProtective(action) || action == "watchlist_add" { PlainIsNormal(action); }
  }

  /** A reading has its effect, and queues the action it names exactly when that effect is to queue. */
  lemma ReadingHasItsEffect(x: Item, i: Interp, s: Settings, w: World, now: int)
    ensures EffectIs(x, i, s, w, Caused(x, i, s, w, now).0)
    ensures Caused(x, i, s, w, now).1
         == if Caused(x, i, s, w, now).0 == Queued then Some(ActionOf(x, i, now)) else None
  {
    hide Normal, Spells;
    SpelledNames(i.action);
  }

  // ----- Why a reading causes nothing --------------------------------------------------------------------

  ghost predicate SpellsOne(action: string, names: set<string>) { exists name :: name in names && Spells(action, name) }

  lemma QuietNames()
    ensures Plain("none") && Plain("hold") && Plain("monitor")
  {}

  lemma SpellingOf(action: string, names: set<string>)
    requires forall name :: name in names ==> Plain(name) && name != ""
    ensures SpellsOne(action, names) <==> Normal(action) in names
  {
    hide Normal, Spells, Plain;
    forall name | name in names
      ensures Normal(action) == name <==> Spells(action, name)
    {
      NormalIsSpelling(action, name);
    }
  }

  lemma ClassOf(action: string)
    ensures Classify(action) == Defensive <==> SpellsOne(action, {"exit", "trim", "flag_for_review"})
    ensures Classify(action) == Shaping <==> SpellsOne(action, {"watchlist_add", "watchlist_remove"})
    ensures Classify(action) == Aggressive <==> SpellsOne(action, {"open", "increase"})
    ensures Classify(action) == Neutral <==> SpellsOne(action, {"none", "hold", "monitor"})
  {
    hide Normal, Spells, Plain;
    ShapingNames();
    DefensiveNames();
    QuietNames();
    SpellingOf(action, {"exit", "trim", "flag_for_review"});
    SpellingOf(action, {"watchlist_add", "watchlist_remove"});
    SpellingOf(action, {"open", "increase"});
    SpellingOf(action, {"none", "hold", "monitor"});
  }

  /** A reading that is dropped says why: the first of these that holds of it. */
  lemma DropsSayWhy(symbol: string, action: string, severity: real, minSeverity: real, defensiveOn: bool,
        shapingOn: bool, eventId: nat, ts: int)
    ensures var r := RouteOf(symbol, action, severity, minSeverity, defensiveOn, shapingOn, eventId, ts);
            var protective := SpellsOne(action, {"exit", "trim", "flag_for_review"});
            var moving := SpellsOne(action, {"watchlist_add", "watchlist_remove"}) || SpellsOne(action, {"open", "increase"});
            if SpellsOne(action, {"none", "hold", "monitor"}) then r == Returned(Dropped("no_action_suggested"))
            else if !protective && !moving then r == Returned(Dropped("unknown_action_class"))
            else if severity < minSeverity then r == Returned(Dropped("below_min_severity"))
            else if moving && !shapingOn then r == Returned(Dropped("shaping_disabled"))
            else if protective && !defensiveOn then r == Returned(Dropped("defensive_disabled"))
            else if protective && symbol == "" then r == Returned(Dropped("no_symbol_for_defensive"))
            else r.Returned? ==> !r.value.Dropped?
  {
    hide Classify, SpellsOne;
    ClassOf(action);
  }

  // ----- All readings of a poll ------------------------------------------------------------------------

  /** Readings of stored events at this time, each with the effect of its interpretation. */
  ghost predicate Explained(news: seq<Reading>, events: seq<Event>, s: Settings, w: World, now: int) {
    forall k :: 0 <= k < |news| ==>
      && 1 <= news[k].eventId <= |events| && news[k].ts == now
      && EffectIs(ItemOf(events, news[k].eventId), w.interpret(ItemOf(events, news[k].eventId)), s, w, news[k].effect)
  }

  /** The actions that readings queue, in their order. */
  function ActionsOf(news: seq<Reading>, events: seq<Event>, w: World, now: int): seq<Action>
    requires forall k :: 0 <= k < |news| ==> 1 <= news[k].eventId <= |events|
  {
    if news == [] then []
    else
      var n := |news| - 1;
      var x := ItemOf(events, news[n].eventId);
      ActionsOf(news[..n], events, w, now) + if news[n].effect == Queued then [ActionOf(x, w.interpret(x), now)] else []
  }

  function CountOf(news: seq<Reading>, e: Effect): nat {
    if news == [] then 0 else CountOf(news[..|news| - 1], e) + if news[|news| - 1].effect == e then 1 else 0
  }

  predicate Stand(items: seq<Item>, events: seq<Event>) {
    forall k :: 0 <= k < |items| ==> 1 <= items[k].id <= |events| && items[k] == ItemOf(events, items[k].id)
  }

  predicate ReadsItems(news: seq<Reading>, items: seq<Item>) {
    |news| == |items| && forall k :: 0 <= k < |items| ==> news[k].eventId == items[k].id
  }

  lemma {:induction false} ReadAllExplained(p: Progress, items: seq<Item>, events: seq<Event>, s: Settings, w: World,
        now: int) returns (news: seq<Reading>)
    requires |events| == |p.events| && Stand(items, events)
    ensures IdsWithin(items, |p.events|) && ReadsItems(news, items) && Explained(news, events, s, w, now)
    ensures var r := ReadAll(p, items, s, w, now);
            && r.readings == p.readings + news && r.actions == p.actions + ActionsOf(news, events, w, now)
            && r.queued == p.queued + CountOf(news, Queued) && r.referred == p.referred + CountOf(news, Referred)
  {
    hide EffectIs, Caused, ActionOf, ActionsOf, ReadsItems, CountOf;
    if items == [] {
      news := [];
      NothingExplained(events, s, w, now);
    } else {
      var n := |items| - 1;
      var x := items[n];
      var front := ReadAllExplained(p, items[..n], events, s, w, now);
      ReadingHasItsEffect(x, w.interpret(x), s, w, now);
      var e := Caused(x, w.interpret(x), s, w, now).0;
      news := front + [Reading(x.id, now, e)];
      OneMoreReading(front, items[..n], x, e, events, s, w, now);
      assert items[..n] + [x] == items;
      NoMoreActions(p.actions + ActionsOf(front, events, w, now));
    }
  }

  lemma NothingExplained(events: seq<Event>, s: Settings, w: World, now: int)
    ensures Explained([], events, s, w, now) && ReadsItems([], []) && ActionsOf([], events, w, now) == []
    ensures CountOf([], Queued) == CountOf([], Referred) == 0
  {}

  lemma NoMoreActions(actions: seq<Action>)
    ensures actions + [] == actions
  {}

  lemma OneMoreReading(front: seq<Reading>, items: seq<Item>, x: Item, e: Effect, events: seq<Event>, s: Settings,
        w: World, now: int)
    requires Explained(front, events, s, w, now) && ReadsItems(front, items)
    requires 1 <= x.id <= |events| && x == ItemOf(events, x.id) && EffectIs(x, w.interpret(x), s, w, e)
    ensures var news := front + [Reading(x.id, now, e)];
            && Explained(news, events, s, w, now) && ReadsItems(news, items + [x])
            && ActionsOf(news, events, w, now)
               == ActionsOf(front, events, w, now) + (if e == Queued then [ActionOf(x, w.interpret(x), now)] else [])
            && CountOf(news, Queued) == CountOf(front, Queued) + (if e == Queued then 1 else 0)
            && CountOf(news, Referred) == CountOf(front, Referred) + (if e == Referred then 1 else 0)
  {
    hide EffectIs, ActionOf;
    var news := front + [Reading(x.id, now, e)];
    assert news[..|front|] == front;
  }
}
