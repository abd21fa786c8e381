/**
 The N-of-M approval rule (main.go, quorumReducer) and what it means: the
 reference that the live gates are compared with.
 */
module Quorum {
  datatype Verb = Approve | Skip | Adjust | OtherVerb

  /** One operator action in arrival order. */
  datatype ApprovalEvent = Event(user: int, verb: Verb)

  datatype Outcome =
    | Pending
    | Skipped
    | Adjusted
    | Approved(users: set<int>)

  function AtLeastOne(need: int): int { if need < 1 then 1 else need }

  /** The reducer from the point where the users in approved have approved. */
  function ReduceFrom(events: seq<ApprovalEvent>, need: int, allowed: set<int>, approved: set<int>): Outcome {
    if events == [] then Pending else
      var e, rest := events[0], events[1..];
      if e.user !in allowed then ReduceFrom(rest, need, allowed, approved) else
        match e.verb
        case Skip => Skipped
        case Adjust => Adjusted
        case Approve =>
          var now := approved + {e.user};
          if |now| >= AtLeastOne(need) then Approved(now) else ReduceFrom(rest, need, allowed, now)
        case OtherVerb => ReduceFrom(rest, need, allowed, approved)
  }

  function Reduce(events: seq<ApprovalEvent>, need: int, allowed: set<int>): Outcome {
    ReduceFrom(events, need, allowed, {})
  }

  predicate StrictlyIncreasing(ids: seq<int>) {
    forall i, j :: 0 <= i < j < |ids| ==> ids[i] < ids[j]
  }

  function Members(ids: seq<int>): set<int> {
    set id | id in ids
  }

  lemma SomeMember(ids: set<int>)
    ensures ids == {} || exists id :: id in ids
  {
    if forall id :: id !in ids {
      assert ids == {};
    }
  }

  method Least(ids: set<int>) returns (least: int)
    requires ids != {}
    ensures least in ids && forall x :: x in ids ==> least <= x
  {
    SomeMember(ids);
    least :| least in ids;
    var others := ids - {least};
    while others != {}
      invariant others <= ids && least in ids
      invariant forall x :: x in ids && x !in others ==> least <= x
      decreases others
    {
      SomeMember(others);
      var x :| x in others;
      if x < least {
        least := x;
      }
      others := others - {x};
    }
  }

  /** sortedIDs: the members of the set in increasing order. */
  method SortedIds(ids: set<int>) returns (out: seq<int>)
    ensures StrictlyIncreasing(out)
    ensures Members(out) == ids
  {
    out := [];
    var left := ids;
    while left != {}
      invariant left <= ids
      invariant forall x :: x in ids <==> x in left || x in out
      invariant StrictlyIncreasing(out)
      invariant forall x, i :: x in left && 0 <= i < |out| ==> out[i] < x
      decreases left
    {
      var least := Least(left);
      left := left - {least};
      out := out + [least];
    }
    assert forall x :: x in Members(out) <==> x in ids;
  }

  /** quorumReducer: replays the events in a loop; approvers is set only on approve. */
  method QuorumReducer(events: seq<ApprovalEvent>, need: int, allowed: set<int>)
    returns (outcome: Outcome, approvers: seq<int>)
    ensures outcome == Reduce(events, need, allowed)
    ensures outcome.Approved? ==> StrictlyIncreasing(approvers) && Members(approvers) == outcome.users
    ensures !outcome.Approved? ==> approvers == []
  {
    var need' := need;
    if need' < 1 {
      need' := 1;
    }
    var approved: set<int> := {};
    approvers := [];
    for i := 0 to |events|
      invariant Reduce(events, need, allowed) == ReduceFrom(events[i..], need, allowed, approved)
      invariant approvers == []
    {
      var e := events[i];
      assert events[i..][0] == e && events[i..][1..] == events[i + 1..];
      if e.user !in allowed {
        continue;
      }
      match e.verb
      case Skip =>
        return Skipped, [];
      case Adjust =>
        return Adjusted, [];
      case Approve =>
        approved := approved + {e.user};
        if |approved| >= need' {
          approvers := SortedIds(approved);
          return Approved(approved), approvers;
        }
      case OtherVerb =>
    }
    return Pending, [];
  }

  // --- What an outcome means ---

  /** The distinct permitted users who approved somewhere in the events. */
  function Approvers(events: seq<ApprovalEvent>, allowed: set<int>): set<int> {
    set i | 0 <= i < |events| && events[i].verb == Approve && events[i].user in allowed :: events[i].user
  }

  predicate IsVeto(e: ApprovalEvent, allowed: set<int>) {
    e.user in allowed && (e.verb == Skip || e.verb == Adjust)
  }

  predicate NoVeto(events: seq<ApprovalEvent>, allowed: set<int>) {
    forall i :: 0 <= i < |events| ==> !IsVeto(events[i], allowed)
  }

  /** Nobody stopped the gate and too few distinct permitted users approved. */
  predicate Undecided(events: seq<ApprovalEvent>, need: int, allowed: set<int>) {
    NoVeto(events, allowed) && |Approvers(events, allowed)| < AtLeastOne(need)
  }

  lemma ApproversStep(events: seq<ApprovalEvent>, e: ApprovalEvent, allowed: set<int>)
    ensures Approvers(events + [e], allowed) ==
            Approvers(events, allowed) + (if e.verb == Approve && e.user in allowed then {e.user} else {})
  {
    var s := events + [e];
    forall u | u in Approvers(events, allowed)
      ensures u in Approvers(s, allowed)
    {
      var i :| 0 <= i < |events| && events[i].verb == Approve && events[i].user in allowed && events[i].user == u;
      assert s[i] == events[i];
    }
    if e.verb == Approve && e.user in allowed {
      assert s[|events|] == e;
    }
  }

  lemma ApproversMonotone(events: seq<ApprovalEvent>, k: nat, allowed: set<int>)
    requires k <= |events|
    ensures |Approvers(events[..k], allowed)| <= |Approvers(events, allowed)|
  {
    var part, all := Approvers(events[..k], allowed), Approvers(events, allowed);
    forall u | u in part
      ensures u in all
    {
      var i :| 0 <= i < k && events[..k][i].verb == Approve && events[..k][i].user in allowed && events[..k][i].user == u;
      assert events[i] == events[..k][i];
    }
    Subset(part, all);
  }

  lemma Subset(a: set<int>, b: set<int>)
    requires a <= b
    ensures |a| <= |b|
  {
    assert b == a + (b - a);
  }

  lemma {:induction false} ReduceAppend(events: seq<ApprovalEvent>, e: ApprovalEvent, need: int, allowed: set<int>,
                                        approved: set<int>)
    ensures var before := ReduceFrom(events, need, allowed, approved);
            ReduceFrom(events + [e], need, allowed, approved) ==
            if before != Pending then before
            else ReduceFrom([e], need, allowed, approved + Approvers(events, allowed))
  {
    if events == [] {
      assert events + [e] == [e];
      assert approved + Approvers(events, allowed) == approved;
    } else {
      var head, rest := events[0], events[1..];
      assert (events + [e])[1..] == rest + [e];
      var now := approved + (if head.verb == Approve && head.user in allowed then {head.user} else {});
      ReduceAppend(rest, e, need, allowed, now);
      ApproversHead(events, allowed);
      assert now + Approvers(rest, allowed) == approved + Approvers(events, allowed);
    }
  }

  lemma ApproversHead(events: seq<ApprovalEvent>, allowed: set<int>)
    requires events != []
    ensures Approvers(events, allowed) ==
            (if events[0].verb == Approve && events[0].user in allowed then {events[0].user} else {})
            + Approvers(events[1..], allowed)
  {
    var rest := events[1..];
    forall u | u in Approvers(events, allowed)
      ensures u in Approvers(rest, allowed) || (events[0].verb == Approve && events[0].user == u && u in allowed)
    {
      var i :| 0 <= i < |events| && events[i].verb == Approve && events[i].user in allowed && events[i].user == u;
      if i > 0 {
        assert rest[i - 1] == events[i];
      }
    }
    forall u | u in Approvers(rest, allowed)
      ensures u in Approvers(events, allowed)
    {
      var i :| 0 <= i < |rest| && rest[i].verb == Approve && rest[i].user in allowed && rest[i].user == u;
      assert events[i + 1] == rest[i];
    }
  }

  lemma UndecidedPrefix(events: seq<ApprovalEvent>, k: nat, need: int, allowed: set<int>)
    requires k <= |events| && Undecided(events, need, allowed)
    ensures Undecided(events[..k], need, allowed)
  {
    ApproversMonotone(events, k, allowed);
    assert forall i :: 0 <= i < k ==> events[..k][i] == events[i];
  }

  /** One more event on an undecided stretch. */
  lemma DecidingStep(before: seq<ApprovalEvent>, e: ApprovalEvent, need: int, allowed: set<int>)
    requires Undecided(before, need, allowed)
    ensures var now := ReduceFrom([e], need, allowed, Approvers(before, allowed));
            if now == Pending then Undecided(before + [e], need, allowed)
            else !Undecided(before + [e], need, allowed) && DecidedAt(before + [e], need, allowed, |before|, now)
  {
    var events := before + [e];
    ApproversStep(before, e, allowed);
    assert events[..|before|] == before && events[..|before| + 1] == events && events[|before|] == e;
    assert NoVeto(events, allowed) <==> NoVeto(before, allowed) && !IsVeto(e, allowed) by {
      assert forall i :: 0 <= i < |before| ==> events[i] == before[i];
    }
  }

  /**
   The gate is pending exactly while it is undecided. Once decided, the outcome
   is fixed by the first event that ended the undecided stretch: a veto by that
   event, or an approval that brings the distinct approvers to exactly the
   required number.
   */
  lemma {:induction false} OutcomeMeaning(events: seq<ApprovalEvent>, need: int, allowed: set<int>)
    ensures Reduce(events, need, allowed) == Pending <==> Undecided(events, need, allowed)
    ensures Reduce(events, need, allowed) != Pending ==>
              exists k :: DecidedAt(events, need, allowed, k, Reduce(events, need, allowed))
  {
    if events != [] {
      var k := |events| - 1;
      var before, e := events[..k], events[k];
      assert events == before + [e];
      OutcomeMeaning(before, need, allowed);
      ReduceAppend(before, e, need, allowed, {});
      if Reduce(before, need, allowed) == Pending {
        assert {} + Approvers(before, allowed) == Approvers(before, allowed);
        DecidingStep(before, e, need, allowed);
      } else {
        var j :| DecidedAt(before, need, allowed, j, Reduce(before, need, allowed));
        assert before[..j] == events[..j] && before[..j + 1] == events[..j + 1] && before[j] == events[j];
        assert DecidedAt(events, need, allowed, j, Reduce(events, need, allowed));
        if Undecided(events, need, allowed) {
          UndecidedPrefix(events, k, need, allowed);
        }
      }
    }
  }

  /** Event k ends the undecided stretch, and outcome is what it ends in. */
  ghost predicate DecidedAt(events: seq<ApprovalEvent>, need: int, allowed: set<int>, k: int, outcome: Outcome) {
    && 0 <= k < |events|
    && Undecided(events[..k], need, allowed)
    && events[k].user in allowed
    && match outcome
       case Pending => false
       case Skipped => events[k].verb == Skip
       case Adjusted => events[k].verb == Adjust
       case Approved(users) =>
         && events[k].verb == Approve
         && users == Approvers(events[..k + 1], allowed)
         && |users| == AtLeastOne(need)
  }

  /** What has been decided is not changed by any later event. */
  lemma {:induction false} DecisionIsFinal(events: seq<ApprovalEvent>, more: seq<ApprovalEvent>, need: int, allowed: set<int>)
    requires Reduce(events, need, allowed) != Pending
    ensures Reduce(events + more, need, allowed) == Reduce(events, need, allowed)
    decreases |more|
  {
    if more == [] {
      assert events + more == events;
    } else {
      var k := |more| - 1;
      DecisionIsFinal(events, more[..k], need, allowed);
      assert events + more == (events + more[..k]) + [more[k]];
      ReduceAppend(events + more[..k], more[k], need, allowed, {});
    }
  }
}
