/** What one reading of a live event may cause (adaptive/actions.py), and the engine's own
    allowlist for it (core/adaptive_actions.hpp). */
module Actions {
  import opened Text

  datatype Class = Defensive | Shaping | Aggressive | Neutral | Unknown

  predicate IsDefensive(a: string) { a == "exit" || a == "trim" || a == "flag_for_review" }
  predicate IsShaping(a: string) { a == "watchlist_add" || a == "watchlist_remove" }
  predicate IsAggressive(a: string) { a == "open" || a == "increase" }
  predicate IsNeutral(a: string) { a == "none" || a == "hold" || a == "monitor" }

  // ----- `action.strip().lower()` ---------------------------------------------------------------

  predicate IsWhite(c: char) {
    var n := c as int;
    9 <= n <= 13 || 28 <= n <= 32 || n == 0x85 || n == 0xA0 || n == 0x1680 || 0x2000 <= n <= 0x200A
    || n == 0x2028 || n == 0x2029 || n == 0x202F || n == 0x205F || n == 0x3000
  }

  function LowerChar(c: char): char { if 'A' <= c <= 'Z' then (c as int + 32) as char else c }

  function Lower(s: string): (r: string)
    ensures |r| == |s| && forall i :: 0 <= i < |s| ==> r[i] == LowerChar(s[i])
  {
    seq(|s|, i requires 0 <= i < |s| => LowerChar(s[i]))
  }

  function Normal(a: string): string { Lower(Trimmed(a, IsWhite)) }

  /** An allowlist: whatever is not named is unknown. */
  function Classify(action: string): Class {
    var a := Normal(action);
    if IsDefensive(a) then Defensive
    else if IsShaping(a) then Shaping
    else if IsAggressive(a) then Aggressive
    else if IsNeutral(a) then Neutral
    else Unknown
  }

  predicate Plain(a: string) { forall i :: 0 <= i < |a| ==> !IsWhite(a[i]) && !('A' <= a[i] <= 'Z') }

  lemma PlainIsNormal(a: string)
    requires Plain(a)
    ensures Normal(a) == a
  {}

  lemma DefensiveNames()
    ensures Plain("exit") && Plain("trim") && Plain("flag_for_review")
  {}

  lemma DefensiveIsNormal(a: string)
    requires IsDefensive(a)
    ensures Normal(a) == a && Classify(a) == Defensive
  {
    hide Normal;
    DefensiveNames();
    PlainIsNormal(a);
  }

  // ----- The only value the engine's queue takes --------------------------------------------------

  datatype Action = Action(symbol: string, name: string, severity: real, eventId: nat, ts: int)

  /** The constructor's own checks; it raises when they fail. */
  predicate Constructs(a: Action) {
    a.symbol != "" && IsDefensive(a.name) && 0.0 <= a.severity <= 1.0
  }

  datatype Route =
    | Dropped(why: string)
    | Refer(symbol: string)
    | Prune(symbol: string)
    | Queue(action: Action)

  /** `route`: at most one effect, or a reason for none; it raises when the action cannot be constructed. */
  function RouteOf(symbol: string, action: string, severity: real, minSeverity: real, defensiveOn: bool,
        shapingOn: bool, eventId: nat, ts: int): Outcome<Route>
  {
    var kind := Classify(action);
    if kind == Unknown then Returned(Dropped("unknown_action_class"))
    else if kind == Neutral then Returned(Dropped("no_action_suggested"))
    else if severity < minSeverity then Returned(Dropped("below_min_severity"))
    else if kind == Aggressive then
      if !shapingOn then Returned(Dropped("shaping_disabled")) else Returned(Refer(symbol))
    else if kind == Shaping then
      if !shapingOn then Returned(Dropped("shaping_disabled"))
      else if action == "watchlist_add" then Returned(Refer(symbol))
      else Returned(Prune(symbol))
    else if !defensiveOn then Returned(Dropped("defensive_disabled"))
    else if symbol == "" then Returned(Dropped("no_symbol_for_defensive"))
    else
      var a := Action(symbol, action, severity, eventId, ts);
      if Constructs(a) then Returned(Queue(a)) else Raised
  }

  /** Routing raises exactly on a defensive reading it would queue whose action is not in normal form
      or whose severity is no score. On normalized output it never raises. */
  lemma RouteRaisesIff(symbol: string, action: string, severity: real, minSeverity: real, defensiveOn: bool,
        shapingOn: bool, eventId: nat, ts: int)
    ensures RouteOf(symbol, action, severity, minSeverity, defensiveOn, shapingOn, eventId, ts).Raised?
       <==> && Classify(action) == Defensive && severity >= minSeverity && defensiveOn && symbol != ""
            && (action != Normal(action) || severity < 0.0 || severity > 1.0)
  {
    hide Normal;
    if IsDefensive(action) { DefensiveIsNormal(action); }
  }

  /** Whatever is queued is a constructed action at or above the floor, with the defensive flag on;
      nothing aggressive is ever queued, under any flags. */
  lemma QueuedIsDefensive(symbol: string, action: string, severity: real, minSeverity: real, defensiveOn: bool,
        shapingOn: bool, eventId: nat, ts: int)
    ensures var r := RouteOf(symbol, action, severity, minSeverity, defensiveOn, shapingOn, eventId, ts);
            r.Returned? && r.value.Queue? ==>
              && defensiveOn && Constructs(r.value.action) && minSeverity <= r.value.action.severity
              && Classify(action) == Defensive && r.value.action == Action(symbol, action, severity, eventId, ts)
  {}

  /** An aggressive reading is at most referred, and only with the shaping flag on; nothing is pruned
      or referred below the floor or without that flag. */
  lemma AggressiveIsAtMostReferred(symbol: string, action: string, severity: real, minSeverity: real,
        defensiveOn: bool, shapingOn: bool, eventId: nat, ts: int)
    ensures var r := RouteOf(symbol, action, severity, minSeverity, defensiveOn, shapingOn, eventId, ts);
            && (Classify(action) == Aggressive ==>
                  r.Returned? && (r.value.Dropped? || r.value == Refer(symbol))
                  && (r.value == Refer(symbol) <==> shapingOn && severity >= minSeverity))
            && (r.Returned? && (r.value.Refer? || r.value.Prune?) ==>
                  shapingOn && severity >= minSeverity && (Classify(action) == Aggressive || Classify(action) == Shaping))
            && (Classify(action) == Unknown || Classify(action) == Neutral ==> r.Returned? && r.value.Dropped?)
  {
    hide Classify;
  }

  /** An "add" not in normal form is classed as shaping but compared as it stands: it prunes. */
  lemma UnnormalizedAddPrunes(symbol: string, action: string, severity: real, defensiveOn: bool, eventId: nat, ts: int)
    requires Normal(action) == "watchlist_add"
    ensures RouteOf(symbol, action, severity, severity, defensiveOn, true, eventId, ts)
         == Returned(if action == "watchlist_add" then Refer(symbol) else Prune(symbol))
  {
    hide Normal;
  }

  // ----- The engine's allowlist ---------------------------------------------------------------------

  datatype Kind = Trim | Exit | FlagForReview

  function KindName(k: Kind): string {
    match k
    case Trim => "trim"
    case Exit => "exit"
    case FlagForReview => "flag_for_review"
  }

  function ParseKind(action: string): Option<Kind> {
    if action == "trim" then Some(Trim)
    else if action == "exit" then Some(Exit)
    else if action == "flag_for_review" then Some(FlagForReview)
    else None
  }

  /** The two allowlists agree, and a parsed name prints back as itself. */
  lemma AllowlistsAgree(action: string, k: Kind)
    ensures ParseKind(action).Some? <==> IsDefensive(action)
    ensures ParseKind(action).Some? ==> KindName(ParseKind(action).value) == action
    ensures ParseKind(KindName(k)) == Some(k)
  {}
}
