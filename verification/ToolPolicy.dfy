/**
 What the rules decide about one tool call (tool_policy.go, internal/config/config.go).
 A value is the string constraints compare it by; globs, regular expressions,
 numbers and hashes are whatever the Matchers say.
 */
module ToolPolicy {
  import opened Wrappers

  // --- Rules ---

  datatype Matchers = Matchers(glob: (string, string) -> bool, regex: (string, string) -> bool,
                               number: string -> Option<real>, hash: string -> string)

  datatype Constraint = Constraint(equals: Option<string>, oneOf: seq<string>, glob: string, regex: string,
                                   max: Option<real>, min: Option<real>, optional: bool,
                                   reviewAbove: Option<real>, maxPerDay: Option<real>)

  /** args in key order. pinned is the hash of the definition read from definitionFile, once it has been read. */
  datatype Rule = Rule(requireApproval: bool, args: seq<(string, Constraint)>, denies: bool, maxCalls: Option<int>,
                       allowGrants: bool, highRisk: bool, definitionHash: string, definitionFile: string,
                       pinned: Option<string>)

  type Args = map<string, string>

  /** The definition the harness sent, if it sent a non-empty one. */
  type Definition = Option<string>

  /** Today's total of an argument; None when it cannot be read. */
  type Totals = string -> Option<real>

  const CALLS := "#calls"

  predicate Numeric(c: Constraint) {
    c.max.Some? || c.min.Some? || c.reviewAbove.Some? || c.maxPerDay.Some?
  }

  predicate NumberFits(m: Matchers, c: Constraint, s: string) {
    Numeric(c) ==>
      match m.number(s)
      case None => false
      case Some(f) =>
        && (c.max.Some? ==> f <= c.max.value)
        && (c.min.Some? ==> f >= c.min.value)
        && (c.maxPerDay.Some? ==> f >= 0.0)
  }

  /** ArgConstraint.Check. */
  predicate Fits(m: Matchers, c: Constraint, args: Args, key: string) {
    if key !in args then c.optional else
      var s := args[key];
      && (c.equals.Some? ==> s == c.equals.value)
      && (c.oneOf != [] ==> s in c.oneOf)
      && (c.glob != "" ==> m.glob(c.glob, s))
      && (c.regex != "" ==> m.regex(c.regex, s))
      && NumberFits(m, c, s)
  }

  /** ArgConstraint.Review. */
  predicate Reviewed(m: Matchers, c: Constraint, args: Args, key: string) {
    && c.reviewAbove.Some? && key in args
    && m.number(args[key]).Some? && m.number(args[key]).value > c.reviewAbove.value
  }

  /** matchToolDefinition. */
  predicate DefinitionFits(m: Matchers, r: Rule, d: Definition) {
    if r.definitionFile != "" then
      r.definitionHash == "" && r.pinned.Some? && d.Some? && m.hash(d.value) == r.pinned.value
    else r.definitionHash == "" || (d.Some? && m.hash(d.value) == r.definitionHash)
  }

  predicate Grantable(r: Rule) { r.allowGrants && !r.highRisk }

  // --- Verdicts ---

  datatype Decision = Allow | Ask | Deny

  /** Why a call does not simply pass. */
  datatype Why = NoWhy | BadArgument(key: string) | BadDefinition | OverCap(key: string) | AboveReview(key: string)

  datatype Verdict = Verdict(decision: Decision, why: Why, grantable: bool)

  datatype Result<+T> = Ok(value: T) | Unreadable

  // --- What a rule asks of a call, in its own fields ---

  /** The value is the one, or among those, that the rule names, and matches its patterns. */
  ghost predicate NamedValue(m: Matchers, c: Constraint, s: string) {
    && (forall v :: c.equals == Some(v) ==> s == v)
    && (|c.oneOf| > 0 ==> exists k :: 0 <= k < |c.oneOf| && c.oneOf[k] == s)
    && (|c.glob| > 0 ==> m.glob(c.glob, s))
    && (|c.regex| > 0 ==> m.regex(c.regex, s))
  }

  /** The number lies between min and max, and is not negative if a day's total counts it. */
  predicate InRange(c: Constraint, n: real) {
    && (c.min == None || c.min.value <= n)
    && (c.max == None || n <= c.max.value)
    && (c.maxPerDay == None || 0.0 <= n)
  }

  predicate NumberAsked(c: Constraint) {
    !(c.min == None && c.max == None && c.reviewAbove == None && c.maxPerDay == None)
  }

  /** An argument as its constraint wants it. */
  ghost predicate Satisfies(m: Matchers, c: Constraint, args: Args, key: string) {
    && (key !in args ==> c.optional)
    && (key in args ==> NamedValue(m, c, args[key]))
    && (key in args && NumberAsked(c) ==> exists n :: m.number(args[key]) == Some(n) && InRange(c, n))
  }

  /** It needs nobody's eyes, and the day's total has room for it. */
  ghost predicate PassesAsIs(m: Matchers, c: Constraint, args: Args, key: string, totals: Totals) {
    key in args ==>
      forall n :: m.number(args[key]) == Some(n) ==>
        && (c.reviewAbove.Some? ==> n <= c.reviewAbove.value)
        && (c.maxPerDay.Some? ==> exists total :: totals(key) == Some(total) && total + n <= c.maxPerDay.value)
  }

  /** The definition the harness sent is the pinned one, if the rule pins one. */
  ghost predicate AsPinned(m: Matchers, r: Rule, d: Definition) {
    && (r.definitionFile != "" ==> r.definitionHash == "" && exists text :: d == Some(text) && r.pinned == Some(m.hash(text)))
    && (r.definitionFile == "" && r.definitionHash != "" ==> exists text :: d == Some(text) && m.hash(text) == r.definitionHash)
  }

  lemma NamedIff(m: Matchers, c: Constraint, s: string)
    ensures NamedValue(m, c, s) <==>
            && (c.equals.Some? ==> s == c.equals.value) && (c.oneOf != [] ==> s in c.oneOf)
            && (c.glob != "" ==> m.glob(c.glob, s)) && (c.regex != "" ==> m.regex(c.regex, s))
  {
    assert c.equals.Some? ==> c.equals == Some(c.equals.value);
    assert s in c.oneOf <==> exists k :: 0 <= k < |c.oneOf| && c.oneOf[k] == s;
  }

  lemma NumberIff(m: Matchers, c: Constraint, s: string)
    ensures NumberFits(m, c, s) <==> (NumberAsked(c) ==> exists n :: m.number(s) == Some(n) && InRange(c, n))
  {
    if m.number(s).Some? {
      assert m.number(s) == Some(m.number(s).value);
    }
  }

  lemma FitsIff(m: Matchers, c: Constraint, args: Args, key: string)
    ensures Fits(m, c, args, key) <==> Satisfies(m, c, args, key)
  {
    if key in args {
      NamedIff(m, c, args[key]);
      NumberIff(m, c, args[key]);
    }
  }

  // --- The checks, as loops over the rule's arguments ---

  /** The first argument that does not fit. */
  function FirstBad(m: Matchers, cs: seq<(string, Constraint)>, args: Args): Option<string> {
    if cs == [] then None
    else if !Fits(m, cs[0].1, args, cs[0].0) then Some(cs[0].0)
    else FirstBad(m, cs[1..], args)
  }

  function FirstReviewed(m: Matchers, cs: seq<(string, Constraint)>, args: Args): Option<string> {
    if cs == [] then None
    else if Reviewed(m, cs[0].1, args, cs[0].0) then Some(cs[0].0)
    else FirstReviewed(m, cs[1..], args)
  }

  /** The argument is counted by this call. */
  predicate Counts(m: Matchers, c: Constraint, args: Args, key: string) {
    c.maxPerDay.Some? && key in args && m.number(args[key]).Some?
  }

  predicate Over(m: Matchers, c: Constraint, args: Args, key: string, total: real)
    requires Counts(m, c, args, key)
  {
    total + m.number(args[key]).value > c.maxPerDay.value
  }

  /** ReadDailyCaps over the capped arguments: the first one over, or over when an earlier one already was. */
  function ArgCaps(m: Matchers, cs: seq<(string, Constraint)>, denies: bool, args: Args, totals: Totals, over: Option<string>)
    : Result<Option<string>>
  {
    if cs == [] then Ok(over) else
      var key, c := cs[0].0, cs[0].1;
      if !Counts(m, c, args, key) then ArgCaps(m, cs[1..], denies, args, totals, over) else
        match totals(key)
        case None => Unreadable
        case Some(total) =>
          if over.None? && Over(m, c, args, key, total) then
            if denies then Ok(Some(key)) else ArgCaps(m, cs[1..], denies, args, totals, Some(key))
          else ArgCaps(m, cs[1..], denies, args, totals, over)
  }

  /** ReadDailyCaps: the first cap this call would pass. */
  function DailyCaps(m: Matchers, r: Rule, args: Args, totals: Totals): Result<Option<string>> {
    var caps := ArgCaps(m, r.args, r.denies, args, totals, None);
    if caps == Unreadable then Unreadable
    else if (r.denies && caps.value.Some?) || r.maxCalls.None? then caps
    else
      match totals(CALLS)
      case None => Unreadable
      case Some(calls) =>
        if caps.value.None? && calls + 1.0 > r.maxCalls.value as real then Ok(Some(CALLS)) else caps
  }

  function Mismatch(m: Matchers, r: Rule, args: Args, d: Definition): Why {
    match FirstBad(m, r.args, args)
    case Some(key) => BadArgument(key)
    case None => if DefinitionFits(m, r, d) then NoWhy else BadDefinition
  }

  /** Past the mismatch checks: whether a human is needed, and why. */
  function AskOrAllow(m: Matchers, r: Rule, args: Args, why: Why): Verdict {
    if r.requireApproval || why != NoWhy then Verdict(Ask, why, why == NoWhy && Grantable(r))
    else
      match FirstReviewed(m, r.args, args)
      case Some(key) => Verdict(Ask, AboveReview(key), false)
      case None => Verdict(Allow, NoWhy, false)
  }

  /** evaluateToolPolicy; an unlisted tool has no rule. */
  function Evaluate(m: Matchers, listed: Option<Rule>, args: Args, d: Definition, totals: Totals): Result<Verdict> {
    match listed
    case None => Ok(Verdict(Deny, NoWhy, false))
    case Some(r) =>
      var mismatch := Mismatch(m, r, args, d);
      if mismatch != NoWhy then
        Ok(if r.denies then Verdict(Deny, mismatch, false) else AskOrAllow(m, r, args, mismatch))
      else
        match DailyCaps(m, r, args, totals)
        case Unreadable => Unreadable
        case Ok(None) => Ok(AskOrAllow(m, r, args, NoWhy))
        case Ok(Some(key)) =>
          Ok(if r.denies then Verdict(Deny, OverCap(key), false) else AskOrAllow(m, r, args, OverCap(key)))
  }

  /** The first argument in the rule's order that is not as its constraint wants it. */
  ghost predicate FirstUnsatisfied(m: Matchers, cs: seq<(string, Constraint)>, args: Args, i: int) {
    && 0 <= i < |cs| && !Satisfies(m, cs[i].1, args, cs[i].0)
    && forall j :: 0 <= j < i ==> Satisfies(m, cs[j].1, args, cs[j].0)
  }

  lemma {:induction false} FirstBadMeans(m: Matchers, cs: seq<(string, Constraint)>, args: Args)
    ensures FirstBad(m, cs, args) == None ==> forall i :: 0 <= i < |cs| ==> Satisfies(m, cs[i].1, args, cs[i].0)
    ensures FirstBad(m, cs, args).Some? ==>
              exists i :: FirstUnsatisfied(m, cs, args, i) && cs[i].0 == FirstBad(m, cs, args).value
  {
    if cs != [] {
      var rest := cs[1..];
      FitsIff(m, cs[0].1, args, cs[0].0);
      FirstBadMeans(m, rest, args);
      assert forall i :: 1 <= i < |cs| ==> cs[i] == rest[i - 1];
      if !Fits(m, cs[0].1, args, cs[0].0) {
        assert FirstUnsatisfied(m, cs, args, 0);
      } else if FirstBad(m, rest, args).Some? {
        var i :| FirstUnsatisfied(m, rest, args, i) && rest[i].0 == FirstBad(m, rest, args).value;
        assert FirstUnsatisfied(m, cs, args, i + 1);
      }
    }
  }

  method MatchArgs(m: Matchers, r: Rule, args: Args) returns (bad: Option<string>)
    ensures bad == FirstBad(m, r.args, args)
    ensures bad.None? ==> forall i :: 0 <= i < |r.args| ==> Satisfies(m, r.args[i].1, args, r.args[i].0)
    ensures bad.Some? ==> exists i :: FirstUnsatisfied(m, r.args, args, i) && r.args[i].0 == bad.value
  {
    FirstBadMeans(m, r.args, args);
    for i := 0 to |r.args|
      invariant FirstBad(m, r.args, args) == FirstBad(m, r.args[i..], args)
    {
      if !Fits(m, r.args[i].1, args, r.args[i].0) {
        return Some(r.args[i].0);
      }
    }
    return None;
  }

  method ReviewArgs(m: Matchers, r: Rule, args: Args) returns (review: Option<string>)
    ensures review == FirstReviewed(m, r.args, args)
  {
    for i := 0 to |r.args|
      invariant FirstReviewed(m, r.args, args) == FirstReviewed(m, r.args[i..], args)
    {
      if Reviewed(m, r.args[i].1, args, r.args[i].0) {
        return Some(r.args[i].0);
      }
    }
    return None;
  }

  method ReadDailyCaps(m: Matchers, r: Rule, args: Args, totals: Totals) returns (over: Result<Option<string>>)
    ensures over == DailyCaps(m, r, args, totals)
  {
    var first: Option<string> := None;
    for i := 0 to |r.args|
      invariant ArgCaps(m, r.args, r.denies, args, totals, None) == ArgCaps(m, r.args[i..], r.denies, args, totals, first)
      invariant r.denies ==> first.None?
    {
      var key, c := r.args[i].0, r.args[i].1;
      assert r.args[i..][1..] == r.args[i + 1..];
      if !Counts(m, c, args, key) {
        continue;
      }
      var total := totals(key);
      if total.None? {
        return Unreadable;
      }
      if first.None? && Over(m, c, args, key, total.value) {
        first := Some(key);
        if r.denies {
          return Ok(first);
        }
      }
    }
    if r.maxCalls.Some? {
      var calls := totals(CALLS);
      if calls.None? {
        return Unreadable;
      }
      if first.None? && calls.value + 1.0 > r.maxCalls.value as real {
        first := Some(CALLS);
      }
    }
    return Ok(first);
  }

  /** evaluateToolPolicy, step by step: a mismatch or a cap can only tighten what the rule would do. */
  method EvaluateToolPolicy(m: Matchers, listed: Option<Rule>, args: Args, d: Definition, totals: Totals)
    returns (v: Result<Verdict>)
    ensures v == Evaluate(m, listed, args, d, totals)
  {
    if listed.None? {
      return Ok(Verdict(Deny, NoWhy, false));
    }
    var r := listed.value;
    var needHuman := r.requireApproval;
    var why := NoWhy;
    var mismatch := NoWhy;
    var bad := MatchArgs(m, r, args);
    if bad.Some? {
      mismatch := BadArgument(bad.value);
    } else if !DefinitionFits(m, r, d) {
      mismatch := BadDefinition;
    }
    if mismatch != NoWhy {
      if r.denies {
        return Ok(Verdict(Deny, mismatch, false));
      }
      needHuman := true;
      why := mismatch;
    } else {
      var over := ReadDailyCaps(m, r, args, totals);
      if over == Unreadable {
        return Unreadable;
      }
      if over.value.Some? {
        if r.denies {
          return Ok(Verdict(Deny, OverCap(over.value.value), false));
        }
        needHuman := true;
        why := OverCap(over.value.value);
      }
    }
    if !needHuman {
      var review := ReviewArgs(m, r, args);
      if review.Some? {
        needHuman := true;
        why := AboveReview(review.value);
      }
    }
    if needHuman {
      return Ok(Verdict(Ask, why, why == NoWhy && Grantable(r)));
    }
    return Ok(Verdict(Allow, NoWhy, false));
  }

  // --- What a verdict means ---

  predicate ArgsFit(m: Matchers, r: Rule, args: Args) {
    forall i :: 0 <= i < |r.args| ==> Fits(m, r.args[i].1, args, r.args[i].0)
  }

  predicate CallFits(m: Matchers, r: Rule, args: Args, d: Definition) {
    ArgsFit(m, r, args) && DefinitionFits(m, r, d)
  }

  predicate NothingReviewed(m: Matchers, r: Rule, args: Args) {
    forall i :: 0 <= i < |r.args| ==> !Reviewed(m, r.args[i].1, args, r.args[i].0)
  }

  predicate Readable(m: Matchers, cs: seq<(string, Constraint)>, args: Args, totals: Totals) {
    forall i :: 0 <= i < |cs| && Counts(m, cs[i].1, args, cs[i].0) ==> totals(cs[i].0).Some?
  }

  predicate UnderCap(m: Matchers, c: Constraint, args: Args, key: string, totals: Totals) {
    Counts(m, c, args, key) ==> totals(key).Some? && !Over(m, c, args, key, totals(key).value)
  }

  /** Every total the call counts toward was read and has room for it. */
  predicate UnderCaps(m: Matchers, r: Rule, args: Args, totals: Totals) {
    && (forall i :: 0 <= i < |r.args| ==> UnderCap(m, r.args[i].1, args, r.args[i].0, totals))
    && (r.maxCalls.Some? ==> totals(CALLS).Some? && totals(CALLS).value + 1.0 <= r.maxCalls.value as real)
  }

  lemma {:induction false} FirstBadMeaning(m: Matchers, cs: seq<(string, Constraint)>, args: Args)
    ensures FirstBad(m, cs, args) == None <==> forall i :: 0 <= i < |cs| ==> Fits(m, cs[i].1, args, cs[i].0)
  {
    if cs != [] {
      FirstBadMeaning(m, cs[1..], args);
      assert forall i :: 1 <= i < |cs| ==> cs[i] == cs[1..][i - 1];
    }
  }

  lemma {:induction false} FirstReviewedMeaning(m: Matchers, cs: seq<(string, Constraint)>, args: Args)
    ensures FirstReviewed(m, cs, args) == None <==> forall i :: 0 <= i < |cs| ==> !Reviewed(m, cs[i].1, args, cs[i].0)
  {
    if cs != [] {
      FirstReviewedMeaning(m, cs[1..], args);
      assert forall i :: 1 <= i < |cs| ==> cs[i] == cs[1..][i - 1];
    }
  }

  lemma {:induction false} ArgCapsMeaning(m: Matchers, cs: seq<(string, Constraint)>, denies: bool, args: Args, totals: Totals,
                                          over: Option<string>)
    ensures ArgCaps(m, cs, denies, args, totals, over) == Ok(None) <==>
            over.None? && forall i :: 0 <= i < |cs| ==> UnderCap(m, cs[i].1, args, cs[i].0, totals)
    ensures Readable(m, cs, args, totals) ==> ArgCaps(m, cs, denies, args, totals, over).Ok?
    ensures !denies && ArgCaps(m, cs, denies, args, totals, over).Ok? ==> Readable(m, cs, args, totals)
  {
    if cs != [] {
      assert forall i :: 1 <= i < |cs| ==> cs[i] == cs[1..][i - 1];
      var key, c := cs[0].0, cs[0].1;
      ArgCapsMeaning(m, cs[1..], denies, args, totals, over);
      ArgCapsMeaning(m, cs[1..], denies, args, totals, Some(key));
    }
  }

  lemma CapsMeaning(m: Matchers, r: Rule, args: Args, totals: Totals)
    ensures DailyCaps(m, r, args, totals) == Ok(None) <==> UnderCaps(m, r, args, totals)
  {
    ArgCapsMeaning(m, r.args, r.denies, args, totals, None);
  }

  lemma MismatchMeaning(m: Matchers, r: Rule, args: Args, d: Definition)
    ensures Mismatch(m, r, args, d) == NoWhy <==> CallFits(m, r, args, d)
  {
    FirstBadMeaning(m, r.args, args);
  }

  /** A call passes on its own exactly when nothing in the rule objects to it. */
  lemma AllowedIff(m: Matchers, listed: Option<Rule>, args: Args, d: Definition, totals: Totals)
    ensures (exists w, g :: Evaluate(m, listed, args, d, totals) == Ok(Verdict(Allow, w, g))) <==>
            && listed.Some? && !listed.value.requireApproval
            && CallFits(m, listed.value, args, d)
            && UnderCaps(m, listed.value, args, totals)
            && NothingReviewed(m, listed.value, args)
  {
    if listed.Some? {
      MismatchMeaning(m, listed.value, args, d);
      CapsMeaning(m, listed.value, args, totals);
      FirstReviewedMeaning(m, listed.value.args, args);
    }
  }

  ghost predicate EverySatisfied(m: Matchers, r: Rule, args: Args, d: Definition) {
    && (forall i :: 0 <= i < |r.args| ==> Satisfies(m, r.args[i].1, args, r.args[i].0))
    && AsPinned(m, r, d)
  }

  lemma CallFitsIff(m: Matchers, r: Rule, args: Args, d: Definition)
    ensures CallFits(m, r, args, d) <==> EverySatisfied(m, r, args, d)
  {
    forall i | 0 <= i < |r.args|
      ensures Fits(m, r.args[i].1, args, r.args[i].0) <==> Satisfies(m, r.args[i].1, args, r.args[i].0)
    {
      FitsIff(m, r.args[i].1, args, r.args[i].0);
    }
  }

  lemma PassesIff(m: Matchers, c: Constraint, args: Args, key: string, totals: Totals)
    ensures PassesAsIs(m, c, args, key, totals) <==> !Reviewed(m, c, args, key) && UnderCap(m, c, args, key, totals)
  {
    if key in args && m.number(args[key]).Some? {
      var n := m.number(args[key]).value;
      assert m.number(args[key]) == Some(n);
      if totals(key).Some? {
        assert totals(key) == Some(totals(key).value);
      }
    }
  }

  /**
   What it takes for a call to pass on its own, in the fields of the rule: the
   tool is listed without require_approval; every argument is there or optional,
   and one that is there is the value or one of the values asked for, matches
   the patterns, is a number where a number is asked for, lies in its range, is
   not above its review threshold and has room under its daily cap; the
   definition is the pinned one; and the day has a call left.
   */
  lemma AllowedMeans(m: Matchers, listed: Option<Rule>, args: Args, d: Definition, totals: Totals)
    ensures (exists w, g :: Evaluate(m, listed, args, d, totals) == Ok(Verdict(Allow, w, g))) <==>
            && listed.Some?
            && var r := listed.value;
               && !r.requireApproval
               && (forall i :: 0 <= i < |r.args| ==> Satisfies(m, r.args[i].1, args, r.args[i].0))
               && (forall i :: 0 <= i < |r.args| ==> PassesAsIs(m, r.args[i].1, args, r.args[i].0, totals))
               && AsPinned(m, r, d)
               && (r.maxCalls.Some? ==> exists calls :: totals(CALLS) == Some(calls) && calls + 1.0 <= r.maxCalls.value as real)
  {
    AllowedIff(m, listed, args, d, totals);
    if listed.Some? {
      var r := listed.value;
      CallFitsIff(m, r, args, d);
      forall i | 0 <= i < |r.args|
        ensures PassesAsIs(m, r.args[i].1, args, r.args[i].0, totals) <==>
                !Reviewed(m, r.args[i].1, args, r.args[i].0) && UnderCap(m, r.args[i].1, args, r.args[i].0, totals)
      {
        PassesIff(m, r.args[i].1, args, r.args[i].0, totals);
      }
    }
  }

  /**
   A call with an argument or a definition that is not as the rule wants it:
   refused or asked about, as the rule says.
   */
  lemma MismatchMeans(m: Matchers, r: Rule, args: Args, d: Definition, totals: Totals)
    requires !EverySatisfied(m, r, args, d)
    ensures var v := Evaluate(m, Some(r), args, d, totals);
            v.Ok? && v.value.decision == (if r.denies then Deny else Ask) && !v.value.grantable
  {
    CallFitsIff(m, r, args, d);
    MismatchMeaning(m, r, args, d);
  }

  /** Every total the call counts toward can be read. */
  predicate AllReadable(m: Matchers, r: Rule, args: Args, totals: Totals) {
    Readable(m, r.args, args, totals) && (r.maxCalls.Some? ==> totals(CALLS).Some?)
  }

  /** Every cap has room for the call. */
  ghost predicate RoomLeft(m: Matchers, r: Rule, args: Args, totals: Totals) {
    && (forall i :: 0 <= i < |r.args| && r.args[i].1.maxPerDay.Some? && r.args[i].0 in args ==>
          forall n :: m.number(args[r.args[i].0]) == Some(n) ==>
            exists total :: totals(r.args[i].0) == Some(total) && total + n <= r.args[i].1.maxPerDay.value)
    && (r.maxCalls.Some? ==> exists calls :: totals(CALLS) == Some(calls) && calls + 1.0 <= r.maxCalls.value as real)
  }

  ghost predicate SomeReviewed(m: Matchers, r: Rule, args: Args) {
    exists i :: 0 <= i < |r.args| && Reviewed(m, r.args[i].1, args, r.args[i].0)
  }

  lemma RoomLeftIff(m: Matchers, r: Rule, args: Args, totals: Totals)
    ensures RoomLeft(m, r, args, totals) <==> UnderCaps(m, r, args, totals)
  {
    forall i | 0 <= i < |r.args|
      ensures UnderCap(m, r.args[i].1, args, r.args[i].0, totals) <==>
              (r.args[i].1.maxPerDay.Some? && r.args[i].0 in args ==>
                 forall n :: m.number(args[r.args[i].0]) == Some(n) ==>
                   exists total :: totals(r.args[i].0) == Some(total) && total + n <= r.args[i].1.maxPerDay.value)
    {
      RoomIff(m, r.args[i].1, args, r.args[i].0, totals);
    }
  }

  lemma RoomIff(m: Matchers, c: Constraint, args: Args, key: string, totals: Totals)
    ensures UnderCap(m, c, args, key, totals) <==>
            (c.maxPerDay.Some? && key in args ==>
               forall n :: m.number(args[key]) == Some(n) ==>
                 exists total :: totals(key) == Some(total) && total + n <= c.maxPerDay.value)
  {
    if c.maxPerDay.Some? && key in args && m.number(args[key]).Some? {
      var n := m.number(args[key]).value;
      assert m.number(args[key]) == Some(n);
      assert (exists total :: totals(key) == Some(total) && total + n <= c.maxPerDay.value)
             <==> totals(key).Some? && totals(key).value + n <= c.maxPerDay.value;
      assert (forall k :: m.number(args[key]) == Some(k) ==>
                exists total :: totals(key) == Some(total) && total + k <= c.maxPerDay.value)
             <==> exists total :: totals(key) == Some(total) && total + n <= c.maxPerDay.value;
    }
  }

  /**
   The answer to any call whose totals can be read: an unlisted tool is refused;
   a mismatch or a cap without room is refused or asked about, as the rule says;
   require_approval or a value above its review threshold is asked about; and
   everything else passes.
   */
  lemma DecisionMeans(m: Matchers, listed: Option<Rule>, args: Args, d: Definition, totals: Totals)
    requires listed.Some? ==> AllReadable(m, listed.value, args, totals)
    ensures var v := Evaluate(m, listed, args, d, totals);
            && v.Ok?
            && v.value.decision ==
               if listed.None? then Deny else
                 var r := listed.value;
                 if !EverySatisfied(m, r, args, d) || !RoomLeft(m, r, args, totals) then (if r.denies then Deny else Ask)
                 else if r.requireApproval || SomeReviewed(m, r, args) then Ask
                 else Allow
  {
    if listed.Some? {
      var r := listed.value;
      CallFitsIff(m, r, args, d);
      RoomLeftIff(m, r, args, totals);
      ArgCapsMeaning(m, r.args, r.denies, args, totals, None);
      StrictnessMeaning(m, r, args, d, totals);
    }
  }

  /** A standing grant may answer exactly the calls that are asked about for require_approval and nothing else. */
  lemma GrantableIff(m: Matchers, listed: Option<Rule>, args: Args, d: Definition, totals: Totals)
    ensures var v := Evaluate(m, listed, args, d, totals);
            (v.Ok? && v.value.grantable) <==>
            && listed.Some? && listed.value.requireApproval && Grantable(listed.value)
            && CallFits(m, listed.value, args, d) && UnderCaps(m, listed.value, args, totals)
    ensures var v := Evaluate(m, listed, args, d, totals);
            v.Ok? && v.value.grantable ==> v.value.decision == Ask && v.value.why == NoWhy
  {
    if listed.Some? {
      MismatchMeaning(m, listed.value, args, d);
      CapsMeaning(m, listed.value, args, totals);
    }
  }

  // --- Tightening a rule ---

  predicate LowerBound(a: Option<real>, b: Option<real>) { a.Some? ==> b.Some? && b.value <= a.value }

  predicate HigherBound(a: Option<real>, b: Option<real>) { a.Some? ==> b.Some? && b.value >= a.value }

  /** b adds conditions to a or narrows them. */
  predicate TighterConstraint(a: Constraint, b: Constraint) {
    && (a.equals.Some? ==> b.equals == a.equals)
    && (a.oneOf != [] ==> b.oneOf != [] && forall s :: s in b.oneOf ==> s in a.oneOf)
    && (a.glob != "" ==> b.glob == a.glob)
    && (a.regex != "" ==> b.regex == a.regex)
    && LowerBound(a.max, b.max) && HigherBound(a.min, b.min)
    && (b.optional ==> a.optional)
    && LowerBound(a.reviewAbove, b.reviewAbove) && LowerBound(a.maxPerDay, b.maxPerDay)
  }

  /** Position of a's constraint i in b. */
  predicate Kept(a: seq<(string, Constraint)>, b: seq<(string, Constraint)>, i: int, j: int)
    requires 0 <= i < |a|
  {
    0 <= j < |b| && b[j].0 == a[i].0 && TighterConstraint(a[i].1, b[j].1)
  }

  ghost predicate KeptSomewhere(a: seq<(string, Constraint)>, b: seq<(string, Constraint)>, i: int)
    requires 0 <= i < |a|
  {
    exists j :: Kept(a, b, i, j)
  }

  ghost predicate TighterArgs(a: seq<(string, Constraint)>, b: seq<(string, Constraint)>) {
    forall i :: 0 <= i < |a| ==> KeptSomewhere(a, b, i)
  }

  /**
   b is a with constraints added or narrowed, a pin or caps added or lowered,
   approval required, or mismatches denied.
   */
  ghost predicate TighterRule(a: Rule, b: Rule) {
    && TighterArgs(a.args, b.args)
    && (a.requireApproval ==> b.requireApproval)
    && (a.denies ==> b.denies)
    && (a.maxCalls.Some? ==> b.maxCalls.Some? && b.maxCalls.value <= a.maxCalls.value)
    && ((a.definitionFile == "" && a.definitionHash == "") ||
        (b.definitionFile == a.definitionFile && b.definitionHash == a.definitionHash && b.pinned == a.pinned))
  }

  /** How strict an answer is. The gate refuses a call whose totals it cannot read. */
  function Strictness(v: Result<Verdict>): int {
    match v
    case Unreadable => 2
    case Ok(v) => match v.decision case Allow => 0 case Ask => 1 case Deny => 2
  }

  lemma TighterCallFits(m: Matchers, a: Rule, b: Rule, args: Args, d: Definition)
    requires TighterRule(a, b) && CallFits(m, b, args, d)
    ensures CallFits(m, a, args, d)
  {
    forall i | 0 <= i < |a.args|
      ensures Fits(m, a.args[i].1, args, a.args[i].0)
    {
      assert KeptSomewhere(a.args, b.args, i);
      var j :| Kept(a.args, b.args, i, j);
      assert Fits(m, b.args[j].1, args, b.args[j].0);
    }
  }

  lemma TighterUnderCaps(m: Matchers, a: Rule, b: Rule, args: Args, totals: Totals)
    requires TighterRule(a, b) && UnderCaps(m, b, args, totals)
    ensures UnderCaps(m, a, args, totals)
  {
    forall i | 0 <= i < |a.args|
      ensures UnderCap(m, a.args[i].1, args, a.args[i].0, totals)
    {
      assert KeptSomewhere(a.args, b.args, i);
      var j :| Kept(a.args, b.args, i, j);
      assert UnderCap(m, b.args[j].1, args, b.args[j].0, totals);
    }
  }

  lemma TighterReviewed(m: Matchers, a: Rule, b: Rule, args: Args)
    requires TighterRule(a, b) && NothingReviewed(m, b, args)
    ensures NothingReviewed(m, a, args)
  {
    forall i | 0 <= i < |a.args|
      ensures !Reviewed(m, a.args[i].1, args, a.args[i].0)
    {
      assert KeptSomewhere(a.args, b.args, i);
      var j :| Kept(a.args, b.args, i, j);
      assert !Reviewed(m, b.args[j].1, args, b.args[j].0);
    }
  }

  /** A tighter rule that does not deny reads every total the looser one reads. */
  lemma TighterReads(m: Matchers, a: Rule, b: Rule, args: Args, totals: Totals)
    requires TighterRule(a, b) && !b.denies && DailyCaps(m, b, args, totals).Ok?
    ensures DailyCaps(m, a, args, totals).Ok?
  {
    ArgCapsMeaning(m, b.args, b.denies, args, totals, None);
    forall i | 0 <= i < |a.args| && Counts(m, a.args[i].1, args, a.args[i].0)
      ensures totals(a.args[i].0).Some?
    {
      assert KeptSomewhere(a.args, b.args, i);
      var j :| Kept(a.args, b.args, i, j);
      assert Counts(m, b.args[j].1, args, b.args[j].0);
    }
    ArgCapsMeaning(m, a.args, a.denies, args, totals, None);
  }

  /**
   The looser rule refused only because a total could not be read, and the
   tighter one no longer reads it: the call now fails a condition, and a failed
   condition is asked about.
   */
  predicate StopsReading(m: Matchers, a: Rule, b: Rule, args: Args, d: Definition, totals: Totals) {
    && CallFits(m, a, args, d) && DailyCaps(m, a, args, totals) == Unreadable
    && !CallFits(m, b, args, d) && !b.denies
  }

  /** The order of the checks. */
  lemma StrictnessMeaning(m: Matchers, r: Rule, args: Args, d: Definition, totals: Totals)
    ensures Strictness(Evaluate(m, Some(r), args, d, totals)) ==
            var caps := DailyCaps(m, r, args, totals);
            if !CallFits(m, r, args, d) then (if r.denies then 2 else 1)
            else if caps == Unreadable then 2
            else if !UnderCaps(m, r, args, totals) then (if r.denies then 2 else 1)
            else if r.requireApproval || !NothingReviewed(m, r, args) then 1
            else 0
  {
    MismatchMeaning(m, r, args, d);
    CapsMeaning(m, r, args, totals);
    FirstReviewedMeaning(m, r.args, args);
  }

  /**
   Tightening a rule never loosens the answer to any call, with one exception:
   a call refused for an unreadable total is asked about instead exactly when
   the tighter rule finds an argument or definition mismatch first.
   */
  lemma TighteningIff(m: Matchers, a: Rule, b: Rule, args: Args, d: Definition, totals: Totals)
    requires TighterRule(a, b)
    ensures Strictness(Evaluate(m, Some(b), args, d, totals)) < Strictness(Evaluate(m, Some(a), args, d, totals)) <==>
            StopsReading(m, a, b, args, d, totals)
  {
    StrictnessMeaning(m, a, args, d, totals);
    StrictnessMeaning(m, b, args, d, totals);
    CapsMeaning(m, a, args, totals);
    CapsMeaning(m, b, args, totals);
    if CallFits(m, b, args, d) {
      TighterCallFits(m, a, b, args, d);
      if DailyCaps(m, b, args, totals).Ok? && !b.denies {
        TighterReads(m, a, b, args, totals);
      }
      if UnderCaps(m, b, args, totals) {
        TighterUnderCaps(m, a, b, args, totals);
        if NothingReviewed(m, b, args) {
          TighterReviewed(m, a, b, args);
        }
      }
    }
  }

  // --- The exception, and require_approval over review_above ---

  function Simple(c: Constraint): Rule {
    Rule(false, [("amount", c)], false, None, true, false, "", "", None)
  }

  function Plain(): Matchers {
    Matchers((p: string, s: string) => p == s, (p: string, s: string) => p == s,
             (s: string) => if s == "50" then Some(50.0) else None, (s: string) => s)
  }

  /**
   With the day's total unreadable, an amount of 50 is refused under a daily cap;
   adding max 40 has it asked about.
   */
  lemma UnreadableThenAsked()
    ensures var capped := Constraint(None, [], "", "", None, None, false, None, Some(1000.0));
            var a, b := Simple(capped), Simple(capped.(max := Some(40.0)));
            && TighterRule(a, b)
            && Evaluate(Plain(), Some(a), map["amount" := "50"], None, _ => None) == Unreadable
            && Evaluate(Plain(), Some(b), map["amount" := "50"], None, _ => None) == Ok(Verdict(Ask, BadArgument("amount"), false))
  {
    var capped := Constraint(None, [], "", "", None, None, false, None, Some(1000.0));
    var a, b := Simple(capped), Simple(capped.(max := Some(40.0)));
    assert Kept(a.args, b.args, 0, 0);
  }

  /**
   review_above is consulted only when nothing else asks. A value above it must
   be seen by a person, until require_approval is set as well: then a standing
   grant may release the call unseen.
   */
  lemma RequireApprovalMakesGrantable(m: Matchers, r: Rule, args: Args, d: Definition, totals: Totals)
    requires CallFits(m, r, args, d) && UnderCaps(m, r, args, totals) && !NothingReviewed(m, r, args)
    ensures var v := Evaluate(m, Some(r.(requireApproval := false)), args, d, totals);
            v.Ok? && v.value.decision == Ask && !v.value.grantable
    ensures var v := Evaluate(m, Some(r.(requireApproval := true)), args, d, totals);
            v.Ok? && (v.value.grantable <==> Grantable(r))
  {
    var off, on := r.(requireApproval := false), r.(requireApproval := true);
    MismatchMeaning(m, off, args, d);
    MismatchMeaning(m, on, args, d);
    CapsMeaning(m, off, args, totals);
    CapsMeaning(m, on, args, totals);
    FirstReviewedMeaning(m, r.args, args);
  }
}
