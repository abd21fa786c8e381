/**
 Daily caps of one tool while calls, operators, consumption and revocation
 interleave (tool_gate.go; internal/state/tool_amounts.go, tool_lifecycle.go).
 A call that is decided on a cap does so under the gate's cap lock; a person
 decides outside it.
 */
module ToolCaps {
  import opened Wrappers
  import opened ToolPolicy

  datatype Status = Pending | Allowed | Denied | Consumed | Expired | Revoked

  datatype By = Nobody | Allowlist | Grant | Policy | Operator | Caller

  /** Where the request's handler is; seen holds the totals it has read. */
  datatype Phase = Waiting | Locked | Reading(seen: map<string, real>) | Passing(how: By) | Refusing | Asking | Done

  /**
   One row of the action table with its recorded amounts, and the handler that
   reserved it. vouched is history: a person allowed it at some time.
   */
  datatype Action = Action(args: Args, d: Definition, expires: int, status: Status, decider: By,
                           day: Option<int>, amounts: map<string, real>, phase: Phase, vouched: bool)

  /** The rule of the tool; actions of other tools never meet these totals. */
  datatype World = World(m: Matchers, rule: Rule)

  datatype System = System(rows: seq<Action>, holder: Option<nat>)

  datatype Event =
    | Reserve(args: Args, d: Definition, expires: int)
    | Lock(id: nat)
    | Record(id: nat, day: int)
    | ReadTotal(id: nat, key: string)
    | Conclude(id: nat, grant: bool)
    | Refuse(id: nat)
    | Finish(id: nat, now: int)
    | PersonDecides(id: nat, allow: bool, now: int)
    | Consume(id: nat, now: int)
    | Revoke(id: nat)
    | Normalize(id: nat, now: int, policyChanged: bool)

  // --- Amounts and totals ---

  /** CappedAmounts over the constraints: the exact value of each argument under max_per_day. */
  function ArgAmounts(m: Matchers, cs: seq<(string, Constraint)>, args: Args): map<string, real> {
    if cs == [] then map[] else
      var front, last := ArgAmounts(m, cs[..|cs| - 1], args), cs[|cs| - 1];
      if Counts(m, last.1, args, last.0) then front[last.0 := m.number(args[last.0]).value] else front
  }

  function CappedAmounts(w: World, args: Args): map<string, real> {
    var amounts := ArgAmounts(w.m, w.rule.args, args);
    if w.rule.maxCalls.Some? then amounts[CALLS := 1.0] else amounts
  }

  method ComputeCappedAmounts(w: World, args: Args) returns (amounts: map<string, real>)
    ensures amounts == CappedAmounts(w, args)
  {
    amounts := map[];
    for i := 0 to |w.rule.args|
      invariant amounts == ArgAmounts(w.m, w.rule.args[..i], args)
    {
      assert w.rule.args[..i + 1][..i] == w.rule.args[..i];
      var key, c := w.rule.args[i].0, w.rule.args[i].1;
      if c.maxPerDay.Some? && key in args {
        var n := w.m.number(args[key]);
        if n.Some? {
          amounts := amounts[key := n.value];
        }
      }
    }
    assert w.rule.args[..|w.rule.args|] == w.rule.args;
    if w.rule.maxCalls.Some? {
      amounts := amounts[CALLS := 1.0];
    }
  }

  /** The decision column is allow. */
  predicate Released(a: Action) { a.status == Allowed || a.status == Consumed }

  predicate Automatic(a: Action) { Released(a) && (a.decider == Allowlist || a.decider == Grant) }

  function Amount(a: Action, key: string, day: int): real {
    if a.day == Some(day) && key in a.amounts then a.amounts[key] else 0.0
  }

  /** ToolArgTotal. */
  function Total(rows: seq<Action>, key: string, day: int): real {
    if rows == [] then 0.0
    else Total(rows[..|rows| - 1], key, day) + (if Released(rows[|rows| - 1]) then Amount(rows[|rows| - 1], key, day) else 0.0)
  }

  /** What the gate released on its own, on the allowlist or a standing grant. */
  function Auto(rows: seq<Action>, key: string, day: int): real {
    if rows == [] then 0.0
    else Auto(rows[..|rows| - 1], key, day) + (if Automatic(rows[|rows| - 1]) then Amount(rows[|rows| - 1], key, day) else 0.0)
  }

  function Deficit(a: Action, key: string, day: int): real {
    if a.vouched && Amount(a, key, day) < 0.0 then -Amount(a, key, day) else 0.0
  }

  /** How far people have ever moved the total down by allowing negative amounts. */
  function Lowered(rows: seq<Action>, key: string, day: int): real {
    if rows == [] then 0.0
    else Lowered(rows[..|rows| - 1], key, day) + Deficit(rows[|rows| - 1], key, day)
  }

  // --- The table's conditional updates ---

  /** DecideToolActionWithReceipt: only a pending row changes, and one past its expiry expires instead. */
  function Decided(a: Action, allow: bool, who: By, now: int): Action {
    if a.status != Pending then a
    else if a.expires <= now then a.(status := Expired)
    else a.(status := if allow then Allowed else Denied, decider := who, vouched := a.vouched || (allow && who == Operator))
  }

  function Spent(a: Action, now: int): Action {
    if a.status == Allowed && a.expires > now then a.(status := Consumed) else a
  }

  function Cancelled(a: Action): Action {
    if a.status == Pending || a.status == Allowed then a.(status := Revoked, decider := Caller) else a
  }

  function Normal(a: Action, now: int, policyChanged: bool): Action {
    if (a.status == Pending || a.status == Allowed) && (policyChanged || a.expires <= now) then a.(status := Expired) else a
  }

  /** RecordToolActionAmounts: a row that has amounts keeps them. */
  function Recorded(a: Action, day: int, amounts: map<string, real>): Action {
    if a.day.Some? then a else a.(day := Some(day), amounts := amounts)
  }

  class Store {
    var rows: seq<Action>

    constructor ()
      ensures rows == []
    {
      rows := [];
    }

    method ReserveAction(a: Action) returns (id: nat)
      modifies this
      ensures rows == old(rows) + [a] && id == |old(rows)|
    {
      id := |rows|;
      rows := rows + [a];
    }

    method RecordAmounts(id: nat, day: int, amounts: map<string, real>)
      requires id < |rows|
      modifies this
      ensures rows == old(rows)[id := Recorded(old(rows)[id], day, amounts)]
    {
      if rows[id].day.None? {
        rows := rows[id := rows[id].(day := Some(day), amounts := amounts)];
      }
    }

    /** Sums one argument over the day's released actions. */
    method ArgTotal(key: string, day: int) returns (total: real)
      ensures total == Total(rows, key, day)
    {
      total := 0.0;
      for i := 0 to |rows|
        invariant total == Total(rows[..i], key, day)
      {
        assert rows[..i + 1][..i] == rows[..i];
        if (rows[i].status == Allowed || rows[i].status == Consumed) && rows[i].day == Some(day) && key in rows[i].amounts {
          total := total + rows[i].amounts[key];
        }
      }
      assert rows[..|rows|] == rows;
    }

    method Decide(id: nat, allow: bool, decider: By, now: int)
      requires id < |rows|
      modifies this
      ensures rows == old(rows)[id := Decided(old(rows)[id], allow, decider, now)]
    {
      if rows[id].status == Pending && rows[id].expires <= now {
        rows := rows[id := rows[id].(status := Expired)];
      }
      if rows[id].status == Pending {
        rows := rows[id := rows[id].(status := if allow then Allowed else Denied, decider := decider)];
        if allow && decider == Operator {
          rows := rows[id := rows[id].(vouched := true)];
        }
      }
    }

    method ConsumePermit(id: nat, now: int) returns (spent: bool)
      requires id < |rows|
      modifies this
      ensures rows == old(rows)[id := Spent(old(rows)[id], now)]
      ensures spent <==> old(rows)[id].status == Allowed && rows[id].status == Consumed
    {
      spent := rows[id].status == Allowed && rows[id].expires > now;
      if spent {
        rows := rows[id := rows[id].(status := Consumed)];
      }
    }

    method Cancel(id: nat)
      requires id < |rows|
      modifies this
      ensures rows == old(rows)[id := Cancelled(old(rows)[id])]
    {
      if rows[id].status == Pending || rows[id].status == Allowed {
        rows := rows[id := rows[id].(status := Revoked, decider := Caller)];
      }
    }

    method NormalizePermit(id: nat, now: int, policyChanged: bool)
      requires id < |rows|
      modifies this
      ensures rows == old(rows)[id := Normal(old(rows)[id], now, policyChanged)]
    {
      if rows[id].status == Pending || rows[id].status == Allowed {
        if policyChanged || rows[id].expires <= now {
          rows := rows[id := rows[id].(status := Expired)];
        }
      }
    }
  }

  // --- Steps ---

  function Start(): System { System([], None) }

  predicate Holds(s: System, id: nat) { s.holder == Some(id) && id < |s.rows| }

  predicate Enabled(s: System, e: Event) {
    match e
    case Reserve(_, _, _) => true
    case Lock(id) => s.holder.None? && id < |s.rows| && s.rows[id].phase == Waiting
    case Record(id, _) => Holds(s, id) && s.rows[id].phase == Locked
    case ReadTotal(id, _) => Holds(s, id) && s.rows[id].phase.Reading? && s.rows[id].day.Some?
    case Conclude(id, _) => Holds(s, id) && s.rows[id].phase.Reading?
    case Refuse(id) => Holds(s, id) && (s.rows[id].phase == Locked || s.rows[id].phase.Reading?)
    case Finish(id, _) => Holds(s, id) && (s.rows[id].phase.Passing? || s.rows[id].phase == Refusing)
    case PersonDecides(id, _, _) => id < |s.rows| && s.rows[id].phase == Asking
    case Consume(id, _) => id < |s.rows|
    case Revoke(id) => id < |s.rows|
    case Normalize(id, _, _) => id < |s.rows|
  }

  function VerdictOf(w: World, a: Action): Result<Verdict>
    requires a.phase.Reading?
  {
    var seen := a.phase.seen;
    Evaluate(w.m, Some(w.rule), a.args, a.d, (key: string) => if key in seen then Some(seen[key]) else None)
  }

  /** What follows from the verdict; a grant may stand in for the operator on a grantable ask. */
  function Next(w: World, a: Action, grant: bool): Phase
    requires a.phase.Reading?
  {
    match VerdictOf(w, a)
    case Unreadable => Refusing
    case Ok(v) =>
      match v.decision
      case Deny => Refusing
      case Allow => Passing(Allowlist)
      case Ask => if v.grantable && grant then Passing(Grant) else Asking
  }

  function Finished(a: Action, now: int): Action {
    match a.phase
    case Passing(how) => Decided(a, true, how, now).(phase := Done)
    case _ => Decided(a, false, Policy, now).(phase := Done)
  }

  predicate IsOutside(e: Event) { e.PersonDecides? || e.Consume? || e.Revoke? || e.Normalize? }

  /** What happens to a row without the lock. */
  function Outside(a: Action, e: Event): Action
    requires IsOutside(e)
  {
    match e
    case PersonDecides(_, allow, now) => Decided(a, allow, Operator, now).(phase := Done)
    case Consume(_, now) => Spent(a, now)
    case Revoke(_) => Cancelled(a)
    case Normalize(_, now, policyChanged) => Normal(a, now, policyChanged)
  }

  function Put(s: System, id: nat, a: Action): System
    requires id < |s.rows|
  {
    s.(rows := s.rows[id := a])
  }

  function Step(w: World, s: System, e: Event): System {
    if !Enabled(s, e) then s else
      match e
      case Reserve(args, d, expires) =>
        s.(rows := s.rows + [Action(args, d, expires, Pending, Nobody, None, map[], Waiting, false)])
      case Lock(id) => Put(s, id, s.rows[id].(phase := Locked)).(holder := Some(id))
      case Record(id, day) => Put(s, id, Recorded(s.rows[id], day, CappedAmounts(w, s.rows[id].args)).(phase := Reading(map[])))
      case ReadTotal(id, key) =>
        var a := s.rows[id];
        Put(s, id, a.(phase := Reading(a.phase.seen[key := Total(s.rows, key, a.day.value)])))
      case Conclude(id, grant) =>
        var next := Next(w, s.rows[id], grant);
        Put(s, id, s.rows[id].(phase := next)).(holder := if next == Asking then None else s.holder)
      case Refuse(id) => Put(s, id, s.rows[id].(phase := Refusing))
      case Finish(id, now) => Put(s, id, Finished(s.rows[id], now)).(holder := None)
      case _ => Put(s, e.id, Outside(s.rows[e.id], e))
  }

  function Run(w: World, events: seq<Event>): System {
    if events == [] then Start() else Step(w, Run(w, events[..|events| - 1]), events[|events| - 1])
  }

  // --- Sums under updates ---

  lemma SumsAppend(rows: seq<Action>, a: Action, key: string, day: int)
    ensures Total(rows + [a], key, day) == Total(rows, key, day) + (if Released(a) then Amount(a, key, day) else 0.0)
    ensures Auto(rows + [a], key, day) == Auto(rows, key, day) + (if Automatic(a) then Amount(a, key, day) else 0.0)
    ensures Lowered(rows + [a], key, day) == Lowered(rows, key, day) + Deficit(a, key, day)
  {
    assert (rows + [a])[..|rows|] == rows;
  }

  function AutoShare(a: Action, key: string, day: int): real { if Automatic(a) then Amount(a, key, day) else 0.0 }

  lemma {:induction false} SumsUpdate(rows: seq<Action>, id: nat, a: Action, key: string, day: int)
    requires id < |rows|
    ensures Auto(rows[id := a], key, day) == Auto(rows, key, day) - AutoShare(rows[id], key, day) + AutoShare(a, key, day)
    ensures Lowered(rows[id := a], key, day) == Lowered(rows, key, day) - Deficit(rows[id], key, day) + Deficit(a, key, day)
  {
    var n := |rows| - 1;
    if id == n {
      assert rows[id := a][..n] == rows[..n];
    } else {
      SumsUpdate(rows[..n], id, a, key, day);
      assert rows[id := a][..n] == rows[..n][id := a];
    }
  }

  /** A row released by a person, or not released, takes nothing from the total that is not in Lowered. */
  predicate Accounted(a: Action) {
    Released(a) ==> Automatic(a) || a.vouched
  }

  lemma {:induction false} AutoAtMost(rows: seq<Action>, key: string, day: int)
    requires forall i :: 0 <= i < |rows| ==> Accounted(rows[i])
    ensures Auto(rows, key, day) <= Total(rows, key, day) + Lowered(rows, key, day)
  {
    if rows != [] {
      var n := |rows| - 1;
      assert forall i :: 0 <= i < n ==> rows[..n][i] == rows[i];
      AutoAtMost(rows[..n], key, day);
      assert Accounted(rows[n]);
    }
  }

  // --- What holds of every row ---

  /** What the configuration check demands: distinct argument names, none of them the call counter, no negative cap. */
  predicate ValidWorld(w: World) {
    && (forall i, j :: 0 <= i < j < |w.rule.args| ==> w.rule.args[i].0 != w.rule.args[j].0)
    && (forall i :: 0 <= i < |w.rule.args| ==> w.rule.args[i].0 != CALLS)
    && (forall i :: 0 <= i < |w.rule.args| && w.rule.args[i].1.maxPerDay.Some? ==> w.rule.args[i].1.maxPerDay.value >= 0.0)
    && (w.rule.maxCalls.Some? ==> w.rule.maxCalls.value >= 1)
  }

  /** The rule caps this argument, or its calls, at cap a day. */
  ghost predicate CapFor(w: World, key: string, cap: real) {
    || (key == CALLS && w.rule.maxCalls.Some? && cap == w.rule.maxCalls.value as real)
    || exists i :: ArgCap(w, i, key, cap)
  }

  predicate ArgCap(w: World, i: int, key: string, cap: real) {
    0 <= i < |w.rule.args| && w.rule.args[i].0 == key && w.rule.args[i].1.maxPerDay == Some(cap)
  }

  lemma {:induction false} ArgAmountsHave(m: Matchers, cs: seq<(string, Constraint)>, args: Args, key: string)
    requires forall i, j :: 0 <= i < j < |cs| ==> cs[i].0 != cs[j].0
    ensures key in ArgAmounts(m, cs, args) <==> exists i :: 0 <= i < |cs| && cs[i].0 == key && Counts(m, cs[i].1, args, key)
    ensures key in ArgAmounts(m, cs, args) ==>
              key in args && m.number(args[key]) == Some(ArgAmounts(m, cs, args)[key])
  {
    if cs != [] {
      var front, last := cs[..|cs| - 1], cs[|cs| - 1];
      ArgAmountsHave(m, front, args, key);
      assert forall i :: 0 <= i < |front| ==> front[i] == cs[i];
    }
  }

  /** The amount recorded under a cap is the one the cap is checked with. */
  lemma CappedAmountIs(w: World, args: Args, key: string, cap: real, i: int)
    requires ValidWorld(w) && ArgCap(w, i, key, cap)
    ensures key in CappedAmounts(w, args) <==> Counts(w.m, w.rule.args[i].1, args, key)
    ensures key in CappedAmounts(w, args) ==> w.m.number(args[key]) == Some(CappedAmounts(w, args)[key])
  {
    ArgAmountsHave(w.m, w.rule.args, args, key);
  }

  lemma FitsNonNegative(w: World, args: Args, key: string, cap: real)
    requires ValidWorld(w) && CapFor(w, key, cap) && ArgsFit(w.m, w.rule, args)
    ensures key in CappedAmounts(w, args) ==> CappedAmounts(w, args)[key] >= 0.0
  {
    if key != CALLS {
      var i :| ArgCap(w, i, key, cap);
      CappedAmountIs(w, args, key, cap, i);
      assert Fits(w.m, w.rule.args[i].1, args, key);
    }
  }

  /** A call the caps let through leaves the total it was checked against within the cap. */
  lemma RoomUnderCap(w: World, args: Args, totals: Totals, key: string, cap: real)
    requires ValidWorld(w) && CapFor(w, key, cap) && UnderCaps(w.m, w.rule, args, totals)
    requires key in CappedAmounts(w, args)
    ensures totals(key).Some? && totals(key).value + CappedAmounts(w, args)[key] <= cap
  {
    if key != CALLS {
      var i :| ArgCap(w, i, key, cap);
      CappedAmountIs(w, args, key, cap, i);
      assert UnderCap(w.m, w.rule.args[i].1, args, key, totals);
    }
  }

  predicate Undecided(p: Phase) { p != Done }

  /** A call the rule releases on its own, on the allowlist or on a grant, once its caps have room for it. */
  predicate PassesAlone(w: World, args: Args, d: Definition) {
    && CallFits(w.m, w.rule, args, d)
    && (if w.rule.requireApproval then Grantable(w.rule) else NothingReviewed(w.m, w.rule, args))
  }

  /** The row and its handler; on_mismatch deny keeps misfits from people. */
  predicate RowOk(w: World, a: Action) {
    && Accounted(a)
    && (a.day.Some? ==> a.amounts == CappedAmounts(w, a.args))
    && (a.phase.Reading? || a.phase.Passing? ==> a.day.Some?)
    && (Undecided(a.phase) ==> !Released(a) && !a.vouched)
    && (a.phase.Passing? ==> a.phase.how == Allowlist || a.phase.how == Grant)
    && (a.phase.Passing? || Automatic(a) ==> PassesAlone(w, a.args, a.d))
    && (w.rule.denies && (a.phase == Asking || a.vouched) ==> ArgsFit(w.m, w.rule, a.args))
  }

  predicate NeedsLock(p: Phase) { p == Locked || p.Reading? || p.Passing? || p == Refusing }

  predicate RowsOk(w: World, s: System) {
    && (forall i :: 0 <= i < |s.rows| ==> RowOk(w, s.rows[i]))
    && (forall i :: 0 <= i < |s.rows| && NeedsLock(s.rows[i].phase) ==> s.holder == Some(i))
    && (s.holder.Some? ==> s.holder.value < |s.rows| && NeedsLock(s.rows[s.holder.value].phase))
  }

  /** What the verdict let pass. */
  lemma NextMeans(w: World, a: Action, grant: bool)
    requires a.phase.Reading?
    ensures var next := Next(w, a, grant);
            && (next == Refusing || next == Asking || next == Passing(Allowlist) || next == Passing(Grant))
            && (next.Passing? ==>
                  var seen := a.phase.seen;
                  && PassesAlone(w, a.args, a.d)
                  && UnderCaps(w.m, w.rule, a.args, (key: string) => if key in seen then Some(seen[key]) else None))
            && (next == Asking && w.rule.denies ==> ArgsFit(w.m, w.rule, a.args))
  {
    var seen := a.phase.seen;
    var totals := (key: string) => if key in seen then Some(seen[key]) else None;
    AllowedIff(w.m, Some(w.rule), a.args, a.d, totals);
    GrantableIff(w.m, Some(w.rule), a.args, a.d, totals);
    MismatchMeaning(w.m, w.rule, a.args, a.d);
  }

  lemma ConcludeKeepsRow(w: World, a: Action, grant: bool)
    requires RowOk(w, a) && a.phase.Reading?
    ensures RowOk(w, a.(phase := Next(w, a, grant)))
  {
    NextMeans(w, a, grant);
  }

  lemma FinishKeepsRow(w: World, a: Action, now: int)
    requires RowOk(w, a) && (a.phase.Passing? || a.phase == Refusing)
    ensures RowOk(w, Finished(a, now))
  {
  }

  lemma OutsideKeepsRow(w: World, a: Action, e: Event)
    requires RowOk(w, a) && IsOutside(e) && (e.PersonDecides? ==> a.phase == Asking)
    ensures RowOk(w, Outside(a, e))
  {
  }

  /** The row the event is about. */
  lemma NewRowOk(w: World, s: System, e: Event)
    requires !e.Reserve? && Enabled(s, e) && RowOk(w, s.rows[e.id])
    ensures RowOk(w, Step(w, s, e).rows[e.id])
  {
    var a := s.rows[e.id];
    if e.Conclude? {
      ConcludeKeepsRow(w, a, e.grant);
    } else if e.Finish? {
      FinishKeepsRow(w, a, e.now);
    } else if IsOutside(e) {
      OutsideKeepsRow(w, a, e);
    }
  }

  /** The event changes its own row and no other, and the lock changes hands with that row's phase. */
  lemma OnlyItsRow(w: World, s: System, e: Event)
    requires !e.Reserve? && Enabled(s, e) && RowsOk(w, s)
    ensures var t := Step(w, s, e);
            && t.rows == s.rows[e.id := t.rows[e.id]]
            && (t.holder == s.holder || (s.holder == None && t.holder == Some(e.id)) || (s.holder == Some(e.id) && t.holder == None))
            && (NeedsLock(t.rows[e.id].phase) <==> t.holder == Some(e.id))
  {
    assert RowOk(w, s.rows[e.id]);
    if e.Conclude? {
      NextMeans(w, s.rows[e.id], e.grant);
    }
  }

  lemma StepKeepsRows(w: World, s: System, e: Event)
    requires RowsOk(w, s)
    ensures RowsOk(w, Step(w, s, e))
  {
    if Enabled(s, e) && !e.Reserve? {
      OnlyItsRow(w, s, e);
      NewRowOk(w, s, e);
    }
  }

  // --- The caps ---

  /** The lock holder's view: what it read is not below what is out, and what it is about to release fits. */
  predicate HolderOk(s: System, key: string, cap: real, day: int) {
    s.holder.Some? && s.holder.value < |s.rows| && s.rows[s.holder.value].day == Some(day) ==>
      var a := s.rows[s.holder.value];
      && (a.phase.Reading? && key in a.phase.seen ==>
            Auto(s.rows, key, day) <= a.phase.seen[key] + Lowered(s.rows, key, day))
      && (a.phase.Passing? ==> Auto(s.rows, key, day) + Amount(a, key, day) <= cap + Lowered(s.rows, key, day))
  }

  predicate CapOk(s: System, key: string, cap: real, day: int) {
    Auto(s.rows, key, day) <= cap + Lowered(s.rows, key, day) && HolderOk(s, key, cap, day)
  }

  /** A change that releases nothing new on its own, and leaves the handler where it was. */
  lemma QuietUpdateKeeps(s: System, id: nat, a: Action, key: string, cap: real, day: int)
    requires id < |s.rows| && CapOk(s, key, cap, day)
    requires AutoShare(a, key, day) <= AutoShare(s.rows[id], key, day) && Deficit(a, key, day) >= Deficit(s.rows[id], key, day)
    requires s.holder == Some(id) ==> a.phase == s.rows[id].phase && a.day == s.rows[id].day && a.amounts == s.rows[id].amounts
    ensures CapOk(Put(s, id, a), key, cap, day)
  {
    SumsUpdate(s.rows, id, a, key, day);
  }

  lemma OutsideIsQuiet(w: World, a: Action, e: Event, key: string, cap: real, day: int)
    requires ValidWorld(w) && CapFor(w, key, cap) && RowOk(w, a) && IsOutside(e) && (e.PersonDecides? ==> a.phase == Asking)
    ensures AutoShare(Outside(a, e), key, day) <= AutoShare(a, key, day)
    ensures Deficit(Outside(a, e), key, day) >= Deficit(a, key, day)
  {
    if Automatic(a) {
      FitsNonNegative(w, a.args, key, cap);
    }
  }

  /** Consumption, revocation, expiry and people's decisions, at any moment. */
  lemma OutsideKeeps(w: World, s: System, e: Event, key: string, cap: real, day: int)
    requires ValidWorld(w) && CapFor(w, key, cap) && RowsOk(w, s) && CapOk(s, key, cap, day)
    requires Enabled(s, e) && IsOutside(e)
    ensures CapOk(Step(w, s, e), key, cap, day)
  {
    var a := s.rows[e.id];
    assert RowOk(w, a);
    OutsideIsQuiet(w, a, e, key, cap, day);
    QuietUpdateKeeps(s, e.id, Outside(a, e), key, cap, day);
  }

  /** The lock holder's own steps. */
  lemma InsideKeeps(w: World, s: System, e: Event, key: string, cap: real, day: int)
    requires RowsOk(w, s) && CapOk(s, key, cap, day) && Enabled(s, e)
    requires e.Lock? || e.Record? || e.ReadTotal? || e.Refuse?
    ensures CapOk(Step(w, s, e), key, cap, day)
  {
    var a := s.rows[e.id];
    assert RowOk(w, a);
    SumsUpdate(s.rows, e.id, Step(w, s, e).rows[e.id], key, day);
    if e.ReadTotal? {
      AutoAtMost(s.rows, key, day);
    }
  }

  lemma ConcludeKeeps(w: World, s: System, id: nat, grant: bool, key: string, cap: real, day: int)
    requires ValidWorld(w) && CapFor(w, key, cap) && RowsOk(w, s) && CapOk(s, key, cap, day) && Enabled(s, Conclude(id, grant))
    ensures CapOk(Step(w, s, Conclude(id, grant)), key, cap, day)
  {
    var a := s.rows[id];
    assert RowOk(w, a);
    NextMeans(w, a, grant);
    SumsUpdate(s.rows, id, a.(phase := Next(w, a, grant)), key, day);
    if Next(w, a, grant).Passing? && key in CappedAmounts(w, a.args) {
      var seen := a.phase.seen;
      RoomUnderCap(w, a.args, (key: string) => if key in seen then Some(seen[key]) else None, key, cap);
    }
  }

  lemma FinishedShare(w: World, a: Action, now: int, key: string, day: int)
    requires RowOk(w, a) && (a.phase.Passing? || a.phase == Refusing)
    ensures AutoShare(a, key, day) == 0.0
    ensures AutoShare(Finished(a, now), key, day) == 0.0 ||
            (a.phase.Passing? && AutoShare(Finished(a, now), key, day) == Amount(a, key, day))
    ensures Deficit(Finished(a, now), key, day) >= Deficit(a, key, day)
  {
  }

  lemma FinishKeeps(w: World, s: System, id: nat, now: int, key: string, cap: real, day: int)
    requires RowsOk(w, s) && CapOk(s, key, cap, day) && Enabled(s, Finish(id, now))
    ensures CapOk(Step(w, s, Finish(id, now)), key, cap, day)
  {
    var a := s.rows[id];
    assert RowOk(w, a);
    FinishedShare(w, a, now, key, day);
    SumsUpdate(s.rows, id, Finished(a, now), key, day);
  }

  lemma StepKeepsCap(w: World, s: System, e: Event, key: string, cap: real, day: int)
    requires ValidWorld(w) && CapFor(w, key, cap) && RowsOk(w, s) && CapOk(s, key, cap, day)
    ensures CapOk(Step(w, s, e), key, cap, day)
  {
    if Enabled(s, e) {
      match e
      case Reserve(args, d, expires) =>
        SumsAppend(s.rows, Action(args, d, expires, Pending, Nobody, None, map[], Waiting, false), key, day);
      case Conclude(id, grant) => ConcludeKeeps(w, s, id, grant, key, cap, day);
      case Finish(id, now) => FinishKeeps(w, s, id, now, key, cap, day);
      case _ =>
        if IsOutside(e) {
          OutsideKeeps(w, s, e, key, cap, day);
        } else {
          InsideKeeps(w, s, e, key, cap, day);
        }
    }
  }

  lemma CapNotNegative(w: World, key: string, cap: real)
    requires ValidWorld(w) && CapFor(w, key, cap)
    ensures cap >= 0.0
  {
    if key != CALLS {
      var i :| ArgCap(w, i, key, cap);
    }
  }

  lemma {:induction false} RunKeepsCap(w: World, events: seq<Event>, key: string, cap: real, day: int)
    requires ValidWorld(w) && CapFor(w, key, cap)
    ensures RowsOk(w, Run(w, events)) && CapOk(Run(w, events), key, cap, day)
  {
    if events == [] {
      CapNotNegative(w, key, cap);
    } else {
      var before, e := events[..|events| - 1], events[|events| - 1];
      RunKeepsCap(w, before, key, cap, day);
      StepKeepsRows(w, Run(w, before), e);
      StepKeepsCap(w, Run(w, before), e, key, cap, day);
    }
  }

  lemma {:induction false} NothingLowered(rows: seq<Action>, key: string, day: int)
    requires forall i :: 0 <= i < |rows| ==> Deficit(rows[i], key, day) == 0.0
    ensures Lowered(rows, key, day) == 0.0
  {
    if rows != [] {
      var front := rows[..|rows| - 1];
      assert forall i :: 0 <= i < |front| ==> front[i] == rows[i];
      NothingLowered(front, key, day);
    }
  }

  /**
   However calls, people, grants, revocations and consumption interleave, what
   the gate released on its own on one day stays within the cap, plus whatever
   people took off the total by allowing negative amounts.
   */
  lemma ReleasedWithinCap(w: World, events: seq<Event>, key: string, cap: real, day: int)
    requires ValidWorld(w) && CapFor(w, key, cap)
    ensures var rows := Run(w, events).rows;
            Auto(rows, key, day) <= cap + Lowered(rows, key, day)
  {
    RunKeepsCap(w, events, key, cap, day);
  }

  /** A call counts as one call and can lower nothing: the number of calls is always within max_calls_per_day. */
  lemma CallsWithinCap(w: World, events: seq<Event>, day: int)
    requires ValidWorld(w) && w.rule.maxCalls.Some?
    ensures Auto(Run(w, events).rows, CALLS, day) <= w.rule.maxCalls.value as real
  {
    var cap := w.rule.maxCalls.value as real;
    RunKeepsCap(w, events, CALLS, cap, day);
    var rows := Run(w, events).rows;
    forall i | 0 <= i < |rows|
      ensures Deficit(rows[i], CALLS, day) == 0.0
    {
      assert RowOk(w, rows[i]);
    }
    NothingLowered(rows, CALLS, day);
  }

  /** A rule that refuses misfits never asks a person about a negative amount, and keeps every cap. */
  lemma DenyingRuleWithinCap(w: World, events: seq<Event>, key: string, cap: real, day: int)
    requires ValidWorld(w) && CapFor(w, key, cap) && w.rule.denies
    ensures Auto(Run(w, events).rows, key, day) <= cap
  {
    RunKeepsCap(w, events, key, cap, day);
    var rows := Run(w, events).rows;
    forall i | 0 <= i < |rows|
      ensures Deficit(rows[i], key, day) == 0.0
    {
      assert RowOk(w, rows[i]);
      if rows[i].vouched {
        FitsNonNegative(w, rows[i].args, key, cap);
      }
    }
    NothingLowered(rows, key, day);
  }

  // --- Permits ---

  lemma RunAppend(w: World, events: seq<Event>, e: Event)
    ensures Run(w, events + [e]) == Step(w, Run(w, events), e)
  {
    assert (events + [e])[..|events|] == events;
  }

  /** Denied, spent, expired or revoked: nothing happens to such an action any more. */
  predicate Over(status: Status) {
    status == Denied || status == Consumed || status == Expired || status == Revoked
  }

  lemma OverStep(w: World, s: System, e: Event, id: nat)
    requires id < |s.rows| && Over(s.rows[id].status)
    ensures id < |Step(w, s, e).rows| && Step(w, s, e).rows[id].status == s.rows[id].status
  {
  }

  lemma {:induction false} OverStays(w: World, events: seq<Event>, more: seq<Event>, id: nat)
    requires id < |Run(w, events).rows| && Over(Run(w, events).rows[id].status)
    ensures id < |Run(w, events + more).rows| && Run(w, events + more).rows[id].status == Run(w, events).rows[id].status
    decreases |more|
  {
    if more == [] {
      assert events + more == events;
    } else {
      var k := |more| - 1;
      OverStays(w, events, more[..k], id);
      var before := events + more[..k];
      RunAppend(w, before, more[k]);
      OverStep(w, Run(w, before), more[k], id);
      assert events + more == before + [more[k]];
    }
  }

  /**
   A revoked action, and one that is normalised past its expiry or under a changed
   policy, is over, and so is never spent after that.
   */
  lemma ClosedIsOver(w: World, events: seq<Event>, e: Event, id: nat)
    requires id < |Run(w, events).rows| && (e == Revoke(id) || (e.Normalize? && e.id == id))
    requires e.Normalize? ==> e.policyChanged || e.now >= Run(w, events).rows[id].expires
    ensures id < |Run(w, events + [e]).rows| && Over(Run(w, events + [e]).rows[id].status)
    ensures Run(w, events + [e]).rows[id].status == Consumed <==> Run(w, events).rows[id].status == Consumed
  {
    RunAppend(w, events, e);
  }

  /**
   A permit is spent at most once, and only while it is live: the action was
   allowed, not past its expiry, and nobody had revoked it.
   */
  lemma SpentWhileLive(w: World, events: seq<Event>, e: Event, id: nat)
    requires id < |Run(w, events).rows|
    ensures var before, after := Run(w, events).rows[id], Run(w, events + [e]).rows;
            id < |after| &&
            (before.status != Consumed && after[id].status == Consumed <==>
               e.Consume? && e.id == id && before.status == Allowed && e.now < before.expires)
  {
    RunAppend(w, events, e);
  }

  /**
   An action is allowed or denied only while it is pending and before it expires:
   by the handler that holds the cap lock, as its verdict was, or by a person it
   was put before, as that person said. Whoever is late finds it expired.
   */
  lemma DecidedInTime(w: World, events: seq<Event>, e: Event, id: nat)
    requires id < |Run(w, events).rows| && Enabled(Run(w, events), e)
    ensures var s, after := Run(w, events), Run(w, events + [e]).rows;
            var before := s.rows[id];
            var decides := (e.PersonDecides? || e.Finish?) && e.id == id && before.status == Pending;
            var allows := if e.PersonDecides? then e.allow else before.phase.Passing?;
            && id < |after|
            && (before.status != Allowed && after[id].status == Allowed <==> decides && allows && e.now < before.expires)
            && (before.status != Denied && after[id].status == Denied <==> decides && !allows && e.now < before.expires)
            && (decides && e.now >= before.expires ==> after[id].status == Expired)
            && (before.status != Allowed && after[id].status == Allowed ==>
                  after[id].decider == if e.PersonDecides? then Operator else before.phase.how)
  {
    RunAppend(w, events, e);
  }

  // --- And exactly when the cap itself is kept ---

  ghost predicate AlwaysWithin(w: World, key: string, cap: real) {
    forall events, day :: Auto(Run(w, events).rows, key, day) <= cap
  }

  /** The rule caps this argument and nothing else. */
  predicate OnlyCap(w: World, key: string) {
    w.rule.maxCalls.None? && forall i :: 0 <= i < |w.rule.args| && w.rule.args[i].1.maxPerDay.Some? ==> w.rule.args[i].0 == key
  }

  predicate Negative(w: World, args: Args, key: string) {
    key in CappedAmounts(w, args) && CappedAmounts(w, args)[key] < 0.0
  }

  predicate Positive(w: World, args: Args, key: string) {
    key in CappedAmounts(w, args) && CappedAmounts(w, args)[key] > 0.0
  }

  /** Some call with a negative amount is put before a person. */
  ghost predicate CanBeLowered(w: World, key: string) {
    !w.rule.denies && exists args :: Negative(w, args, key)
  }

  /** Some call that counts is released on its own. */
  ghost predicate CanBeSpent(w: World, key: string) {
    exists args, d :: PassesAlone(w, args, d) && Positive(w, args, key)
  }

  function Fresh(args: Args, d: Definition): Action {
    Action(args, d, 1, Pending, Nobody, None, map[], Waiting, false)
  }

  /** A request whose amounts are recorded, holding the cap lock. */
  function Reader(w: World, args: Args, d: Definition): Action {
    Fresh(args, d).(day := Some(0), amounts := CappedAmounts(w, args), phase := Reading(map[]))
  }

  /** A request up to the point where its amounts are recorded. */
  function Asks(id: nat, args: Args, d: Definition): seq<Event> {
    [Reserve(args, d, 1), Lock(id), Record(id, 0)]
  }

  lemma AsksRun(w: World, events: seq<Event>, s: System, args: Args, d: Definition)
    requires s == Run(w, events) && s.holder == None
    ensures Run(w, events + Asks(|s.rows|, args, d)) == System(s.rows + [Reader(w, args, d)], Some(|s.rows|))
  {
    var id := |s.rows|;
    RunAppend(w, events, Reserve(args, d, 1));
    RunAppend(w, events + [Reserve(args, d, 1)], Lock(id));
    RunAppend(w, events + [Reserve(args, d, 1)] + [Lock(id)], Record(id, 0));
    assert events + Asks(id, args, d) == events + [Reserve(args, d, 1)] + [Lock(id)] + [Record(id, 0)];
  }

  /** A negative amount never fits its constraint, so a rule that does not deny asks about it. */
  lemma NegativeIsAsked(w: World, key: string, cap: real, a: Action)
    requires ValidWorld(w) && CapFor(w, key, cap) && !w.rule.denies && Negative(w, a.args, key) && a.phase.Reading?
    ensures Next(w, a, false) == Asking
  {
    MismatchMeaning(w.m, w.rule, a.args, a.d);
    if CallFits(w.m, w.rule, a.args, a.d) {
      FitsNonNegative(w, a.args, key, cap);
      assert false;
    }
  }

  /** The row of a call a person allowed. */
  function Vouched(w: World, args: Args): Action {
    Reader(w, args, None).(status := Allowed, decider := Operator, vouched := true, phase := Done)
  }

  /** Someone allows a call with a negative amount. */
  lemma LowerOnce(w: World, key: string, cap: real, args: Args, events: seq<Event>) returns (after: seq<Event>)
    requires ValidWorld(w) && CapFor(w, key, cap) && !w.rule.denies && Negative(w, args, key) && Run(w, events).holder == None
    ensures Run(w, after) == System(Run(w, events).rows + [Vouched(w, args)], None)
  {
    var s := Run(w, events);
    var id, a := |s.rows|, Reader(w, args, None);
    AsksRun(w, events, s, args, None);
    NegativeIsAsked(w, key, cap, a);
    var e0 := events + Asks(id, args, None);
    RunAppend(w, e0, Conclude(id, false));
    var s1 := System(s.rows + [a.(phase := Asking)], None);
    assert (s.rows + [a])[id := a.(phase := Asking)] == s1.rows;
    assert Run(w, e0 + [Conclude(id, false)]) == s1;
    after := e0 + [Conclude(id, false)] + [PersonDecides(id, true, 0)];
    RunAppend(w, e0 + [Conclude(id, false)], PersonDecides(id, true, 0));
    assert s1.rows[id := Vouched(w, args)] == s.rows + [Vouched(w, args)];
  }

  /** A call that passes alone, with the total it was checked against leaving room. */
  lemma RoomPasses(w: World, key: string, cap: real, a: Action, total: real)
    requires ValidWorld(w) && CapFor(w, key, cap) && OnlyCap(w, key) && PassesAlone(w, a.args, a.d)
    requires a.phase == Reading(map[key := total])
    requires key in CappedAmounts(w, a.args) && total + CappedAmounts(w, a.args)[key] <= cap
    ensures Next(w, a, true).Passing?
  {
    var seen := a.phase.seen;
    var totals := (key: string) => if key in seen then Some(seen[key]) else None;
    forall i | 0 <= i < |w.rule.args|
      ensures UnderCap(w.m, w.rule.args[i].1, a.args, w.rule.args[i].0, totals)
    {
      if Counts(w.m, w.rule.args[i].1, a.args, w.rule.args[i].0) {
        var j :| ArgCap(w, j, key, cap);
        CappedAmountIs(w, a.args, key, cap, j);
      }
    }
    StrictnessMeaning(w.m, w.rule, a.args, a.d, totals);
    CapsMeaning(w.m, w.rule, a.args, totals);
    GrantableIff(w.m, Some(w.rule), a.args, a.d, totals);
  }

  lemma ReadsTotal(w: World, rows: seq<Action>, a: Action, key: string)
    requires a.phase == Reading(map[]) && a.day == Some(0) && !Released(a)
    ensures Step(w, System(rows + [a], Some(|rows|)), ReadTotal(|rows|, key)) ==
            System(rows + [a.(phase := Reading(map[key := Total(rows, key, 0)]))], Some(|rows|))
  {
    var id, s, total := |rows|, System(rows + [a], Some(|rows|)), Total(rows, key, 0);
    assert Total(s.rows, key, 0) == total by {
      SumsAppend(rows, a, key, 0);
    }
    var b := a.(phase := Reading(map[key := total]));
    assert Step(w, s, ReadTotal(id, key)) == Put(s, id, b);
    assert s.rows[id := b] == rows + [b];
  }

  /** Concluding and finishing with room. */
  lemma PassesAndFinishes(w: World, rows: seq<Action>, b: Action)
    requires b.phase.Reading? && b.status == Pending && b.expires > 0 && Next(w, b, true).Passing?
    ensures var id, how := |rows|, Next(w, b, true).how;
            Step(w, Step(w, System(rows + [b], Some(id)), Conclude(id, true)), Finish(id, 0)) ==
            System(rows + [b.(status := Allowed, decider := how, phase := Done)], None)
  {
    var id, how := |rows|, Next(w, b, true).how;
    var s, c := System(rows + [b], Some(id)), b.(phase := Passing(how));
    assert s.rows[id] == b && s.rows[id := c] == rows + [c];
    var t := System(rows + [c], Some(id));
    assert Step(w, s, Conclude(id, true)) == t;
    assert t.rows[id] == c && t.rows[id := Finished(c, 0)] == rows + [Finished(c, 0)];
  }

  /** A call with room under the cap is released on its own. */
  lemma PassOnce(w: World, key: string, cap: real, args: Args, d: Definition, events: seq<Event>)
    returns (after: seq<Event>, row: Action)
    requires ValidWorld(w) && CapFor(w, key, cap) && OnlyCap(w, key) && PassesAlone(w, args, d)
    requires key in CappedAmounts(w, args) && Run(w, events).holder == None
    requires Total(Run(w, events).rows, key, 0) + CappedAmounts(w, args)[key] <= cap
    ensures Run(w, after) == System(Run(w, events).rows + [row], None)
    ensures Automatic(row) && Amount(row, key, 0) == CappedAmounts(w, args)[key]
  {
    var s := Run(w, events);
    var id, a, total := |s.rows|, Reader(w, args, d), Total(s.rows, key, 0);
    var b := a.(phase := Reading(map[key := total]));
    AsksRun(w, events, s, args, d);
    var e0 := events + Asks(id, args, d);
    RunAppend(w, e0, ReadTotal(id, key));
    ReadsTotal(w, s.rows, a, key);
    RunAppend(w, e0 + [ReadTotal(id, key)], Conclude(id, true));
    RunAppend(w, e0 + [ReadTotal(id, key)] + [Conclude(id, true)], Finish(id, 0));
    RoomPasses(w, key, cap, b, total);
    ConcludeMeans(w, b);
    PassesAndFinishes(w, s.rows, b);
    row := b.(status := Allowed, decider := Next(w, b, true).how, phase := Done);
    after := e0 + [ReadTotal(id, key)] + [Conclude(id, true)] + [Finish(id, 0)];
  }

  lemma ConcludeMeans(w: World, a: Action)
    requires a.phase.Reading? && Next(w, a, true).Passing?
    ensures Next(w, a, true).how == Allowlist || Next(w, a, true).how == Grant
  {
    NextMeans(w, a, true);
  }

  function Times(n: nat, x: real): real {
    if n == 0 then 0.0 else Times(n - 1, x) + x
  }

  lemma {:induction false} TimesMeaning(n: nat, x: real)
    ensures Times(n, x) == n as real * x && Times(n, -x) == -Times(n, x)
  {
    if n > 0 {
      TimesMeaning(n - 1, x);
      assert (n - 1) as real * x + x == n as real * x;
    }
  }

  /** n people allow the lowering call. */
  lemma {:induction false} LowerOften(w: World, key: string, cap: real, args: Args, n: nat) returns (events: seq<Event>)
    requires ValidWorld(w) && CapFor(w, key, cap) && !w.rule.denies && Negative(w, args, key)
    ensures Run(w, events).holder == None && Auto(Run(w, events).rows, key, 0) == 0.0
    ensures Total(Run(w, events).rows, key, 0) == Times(n, CappedAmounts(w, args)[key])
  {
    events := [];
    if n > 0 {
      var before := LowerOften(w, key, cap, args, n - 1);
      events := LowerOnce(w, key, cap, args, before);
      SumsAppend(Run(w, before).rows, Vouched(w, args), key, 0);
    }
  }

  /** The passing call, m times after that. */
  lemma {:induction false} PassOften(w: World, key: string, cap: real, args: Args, d: Definition, start: seq<Event>, m: nat)
    returns (events: seq<Event>)
    requires ValidWorld(w) && CapFor(w, key, cap) && OnlyCap(w, key) && PassesAlone(w, args, d) && Positive(w, args, key)
    requires Run(w, start).holder == None && Auto(Run(w, start).rows, key, 0) == 0.0
    requires Total(Run(w, start).rows, key, 0) + Times(m, CappedAmounts(w, args)[key]) <= cap
    ensures Run(w, events).holder == None
    ensures Total(Run(w, events).rows, key, 0) == Total(Run(w, start).rows, key, 0) + Times(m, CappedAmounts(w, args)[key])
    ensures Auto(Run(w, events).rows, key, 0) == Times(m, CappedAmounts(w, args)[key])
  {
    events := start;
    if m > 0 {
      var before := PassOften(w, key, cap, args, d, start, m - 1);
      var row;
      events, row := PassOnce(w, key, cap, args, d, before);
      SumsAppend(Run(w, before).rows, row, key, 0);
    }
  }

  /** Enough steps get past any bound. */
  lemma EnoughSteps(step: real, bound: real) returns (n: nat)
    requires step > 0.0
    ensures Times(n, step) > bound
  {
    if bound < 0.0 {
      n := 0;
    } else {
      n := (bound / step).Floor + 1;
      assert n as real > bound / step;
      assert n as real * step > (bound / step) * step;
      TimesMeaning(n, step);
    }
  }

  /** People lower the total often enough, and calls released on their own then pass the cap. */
  lemma PastTheCap(w: World, key: string, cap: real) returns (events: seq<Event>)
    requires ValidWorld(w) && CapFor(w, key, cap) && OnlyCap(w, key) && CanBeLowered(w, key) && CanBeSpent(w, key)
    ensures Auto(Run(w, events).rows, key, 0) > cap
  {
    var low :| Negative(w, low, key);
    var args, d :| PassesAlone(w, args, d) && Positive(w, args, key);
    var x, y := CappedAmounts(w, low)[key], CappedAmounts(w, args)[key];
    var m := EnoughSteps(y, cap);
    var n := EnoughSteps(-x, Times(m, y) - cap);
    TimesMeaning(n, x);
    var lowered := LowerOften(w, key, cap, low, n);
    events := PassOften(w, key, cap, args, d, lowered, m);
  }

  /** No call can take anything off the total. */
  lemma NothingToLower(w: World, events: seq<Event>, key: string, cap: real, day: int)
    requires ValidWorld(w) && CapFor(w, key, cap) && !CanBeLowered(w, key)
    ensures Auto(Run(w, events).rows, key, day) <= cap
  {
    if w.rule.denies {
      DenyingRuleWithinCap(w, events, key, cap, day);
    } else {
      RunKeepsCap(w, events, key, cap, day);
      var rows := Run(w, events).rows;
      forall i | 0 <= i < |rows|
        ensures Deficit(rows[i], key, day) == 0.0
      {
        assert RowOk(w, rows[i]);
        assert !Negative(w, rows[i].args, key);
      }
      NothingLowered(rows, key, day);
    }
  }

  lemma {:induction false} NothingSpent(rows: seq<Action>, key: string, day: int)
    requires forall i :: 0 <= i < |rows| ==> AutoShare(rows[i], key, day) <= 0.0
    ensures Auto(rows, key, day) <= 0.0
  {
    if rows != [] {
      var front := rows[..|rows| - 1];
      assert forall i :: 0 <= i < |front| ==> front[i] == rows[i];
      NothingSpent(front, key, day);
    }
  }

  /** No call released on its own adds anything to it. */
  lemma NothingToSpend(w: World, events: seq<Event>, key: string, cap: real, day: int)
    requires ValidWorld(w) && CapFor(w, key, cap) && !CanBeSpent(w, key)
    ensures Auto(Run(w, events).rows, key, day) <= cap
  {
    RunKeepsCap(w, events, key, cap, day);
    CapNotNegative(w, key, cap);
    var rows := Run(w, events).rows;
    forall i | 0 <= i < |rows|
      ensures AutoShare(rows[i], key, day) <= 0.0
    {
      assert RowOk(w, rows[i]);
      assert Automatic(rows[i]) ==> !Positive(w, rows[i].args, key);
    }
    NothingSpent(rows, key, day);
  }

  /**
   Whatever other conditions the rule has: what passes on its own stays within
   its one cap in every run if and only if no negative amount can reach a person,
   or no positive amount can pass without one.
   */
  lemma CapKeptIff(w: World, key: string, cap: real)
    requires ValidWorld(w) && CapFor(w, key, cap) && OnlyCap(w, key)
    ensures AlwaysWithin(w, key, cap) <==> !CanBeLowered(w, key) || !CanBeSpent(w, key)
  {
    if CanBeLowered(w, key) && CanBeSpent(w, key) {
      var events := PastTheCap(w, key, cap);
      assert Auto(Run(w, events).rows, key, 0) > cap;
    } else {
      forall events, day
        ensures Auto(Run(w, events).rows, key, day) <= cap
      {
        if CanBeLowered(w, key) {
          NothingToSpend(w, events, key, cap, day);
        } else {
          NothingToLower(w, events, key, cap, day);
        }
      }
    }
  }

  const KEY := "amount"

  /** A rule with nothing but a daily cap on one argument. */
  function OnlyCapped(cap: real, denies: bool): Rule {
    Rule(false, [(KEY, Constraint(None, [], "", "", None, None, false, None, Some(cap)))], denies, None, false, false, "", "", None)
  }

  lemma OnlyCappedAmounts(w: World, cap: real, denies: bool, value: string, x: real)
    requires w.rule == OnlyCapped(cap, denies) && w.m.number(value) == Some(x)
    ensures CappedAmounts(w, map[KEY := value]) == map[KEY := x]
  {
    assert w.rule.args[..0] == [];
    assert ArgAmounts(w.m, [], map[KEY := value]) == map[];
  }

  /**
   For a rule that only caps one argument, with numbers of either sign to be
   had: the cap is kept if and only if the rule denies on a mismatch.
   */
  lemma CapKeptIffDenies(w: World, cap: real, denies: bool, minus: string, plus: string)
    requires w.rule == OnlyCapped(cap, denies) && cap >= 0.0
    requires w.m.number(minus).Some? && w.m.number(minus).value < 0.0
    requires w.m.number(plus).Some? && w.m.number(plus).value > 0.0
    ensures AlwaysWithin(w, KEY, cap) <==> denies
  {
    assert ArgCap(w, 0, KEY, cap);
    OnlyCappedAmounts(w, cap, denies, minus, w.m.number(minus).value);
    OnlyCappedAmounts(w, cap, denies, plus, w.m.number(plus).value);
    assert Negative(w, map[KEY := minus], KEY);
    assert PassesAlone(w, map[KEY := plus], None) && Positive(w, map[KEY := plus], KEY);
    CapKeptIff(w, KEY, cap);
  }
}
