/**
 The Telegram quorum gate (main.go, SendForQuorumApproval of TGBot for a quorum
 of two or more) against the reducer it mirrors.
 */
module TelegramQuorum {
  import opened Wrappers
  import opened Quorum

  datatype Button = ApproveTap | SkipTap | SkipReasonTap | AdjustTap | OtherTap

  /**
   One thing the gate's select receives: a button tap, a text message, the end
   of the wait for a reason, or the end of the approval window. The flags say
   whether the rate limiter lets it through, whether it is aimed at this gate's
   message or chat, and whether a text passes the input checks.
   */
  datatype Update =
    | Tap(user: int, button: Button, rateOk: bool, ours: bool)
    | Text(user: int, text: string, rateOk: bool, ours: bool, clean: bool)
    | ReasonOver
    | WindowOver

  datatype Result =
    | TimedOut
    | SkippedBy(reason: string, decider: int)
    | AdjustedBy(decider: int)
    | ApprovedBy(approvers: set<int>)

  /** vetoBy is 0 until someone chose to skip with a reason; waitsForReason says that a reason timer runs. */
  datatype GateLoop =
    | Open(approved: set<int>, vetoBy: int, waitsForReason: bool)
    | Returned(result: Result)

  const START := Open({}, 0, false)

  /** isApprover: the step's list only narrows the channel's. */
  predicate IsApprover(user: int, allowedUsers: set<int>, approvers: set<int>) {
    user in allowedUsers && (approvers == {} || user in approvers)
  }

  function Permitted(allowedUsers: set<int>, approvers: set<int>): set<int> {
    if approvers == {} then allowedUsers else allowedUsers * approvers
  }

  function TakeTap(g: GateLoop, user: int, button: Button, need: int): GateLoop
    requires g.Open?
  {
    match button
    case SkipTap => Returned(SkippedBy("", user))
    case SkipReasonTap => g.(vetoBy := user, waitsForReason := true)
    case AdjustTap => Returned(AdjustedBy(user))
    case ApproveTap =>
      if user in g.approved then g
      else if |g.approved + {user}| >= need then Returned(ApprovedBy(g.approved + {user}))
      else g.(approved := g.approved + {user})
    case OtherTap => g
  }

  function Receive(g: GateLoop, u: Update, need: int, permitted: set<int>): GateLoop {
    if g.Returned? then g else
      match u
      case ReasonOver => if g.waitsForReason then Returned(SkippedBy("", g.vetoBy)) else g
      case WindowOver => if g.vetoBy != 0 then Returned(SkippedBy("", g.vetoBy)) else Returned(TimedOut)
      case Text(user, text, rateOk, ours, clean) =>
        if g.vetoBy != 0 && text != "" && ours && user == g.vetoBy && rateOk && clean
        then Returned(SkippedBy(text, g.vetoBy)) else g
      case Tap(user, button, rateOk, ours) =>
        if g.vetoBy != 0 || user !in permitted || !rateOk || !ours then g else TakeTap(g, user, button, need)
  }

  function ReceiveAll(updates: seq<Update>, need: int, permitted: set<int>): GateLoop {
    if updates == [] then START
    else Receive(ReceiveAll(updates[..|updates| - 1], need, permitted), updates[|updates| - 1], need, permitted)
  }

  /** The loop itself. It ends Open when the updates run out before the gate returned. */
  method AwaitQuorum(updates: seq<Update>, need: int, allowedUsers: set<int>, approvers: set<int>)
    returns (end: GateLoop)
    ensures end == ReceiveAll(updates, need, Permitted(allowedUsers, approvers))
  {
    var approved: set<int> := {};
    var vetoBy := 0;
    var waitsForReason := false;
    ghost var permitted := Permitted(allowedUsers, approvers);
    for i := 0 to |updates|
      invariant ReceiveAll(updates[..i], need, permitted) == Open(approved, vetoBy, waitsForReason)
    {
      ghost var before := updates[..i];
      assert updates[..i + 1][..i] == before;
      var u := updates[i];
      var result := None;
      match u {
        case ReasonOver =>
          if waitsForReason {
            result := Some(SkippedBy("", vetoBy));
          }
        case WindowOver =>
          if vetoBy != 0 {
            result := Some(SkippedBy("", vetoBy));
          } else {
            result := Some(TimedOut);
          }
        case Text(user, text, rateOk, ours, clean) =>
          if vetoBy != 0 && text != "" && ours && user == vetoBy && rateOk && clean {
            result := Some(SkippedBy(text, vetoBy));
          }
        case Tap(user, button, rateOk, ours) =>
          if vetoBy == 0 && IsApprover(user, allowedUsers, approvers) && rateOk && ours {
            match button {
              case SkipTap =>
                result := Some(SkippedBy("", user));
              case SkipReasonTap =>
                vetoBy := user;
                waitsForReason := true;
              case AdjustTap =>
                result := Some(AdjustedBy(user));
              case ApproveTap =>
                if user !in approved {
                  approved := approved + {user};
                  if |approved| >= need {
                    result := Some(ApprovedBy(approved));
                  }
                }
              case OtherTap =>
            }
          }
      }
      if result.Some? {
        end := Returned(result.value);
        ReturnedStays(updates, i + 1, need, permitted);
        return;
      }
    }
    assert updates[..|updates|] == updates;
    end := Open(approved, vetoBy, waitsForReason);
  }

  /** A gate that returned takes no further update. */
  lemma {:induction false} ReturnedStays(updates: seq<Update>, k: nat, need: int, permitted: set<int>)
    requires k <= |updates| && ReceiveAll(updates[..k], need, permitted).Returned?
    ensures ReceiveAll(updates, need, permitted) == ReceiveAll(updates[..k], need, permitted)
    decreases |updates|
  {
    if k == |updates| {
      assert updates[..k] == updates;
    } else {
      var before := updates[..|updates| - 1];
      assert before[..k] == updates[..k];
      ReturnedStays(before, k, need, permitted);
    }
  }

  // --- Refinement ---

  function VerbOf(b: Button): Verb {
    match b
    case ApproveTap => Approve
    case SkipTap => Skip
    case SkipReasonTap => Skip
    case AdjustTap => Adjust
    case OtherTap => OtherVerb
  }

  /**
   The operator actions among the updates, in arrival order: the taps the limiter
   and the message check let through.
   */
  function Events(updates: seq<Update>): seq<ApprovalEvent> {
    if updates == [] then [] else
      var before, u := Events(updates[..|updates| - 1]), updates[|updates| - 1];
      if u.Tap? && u.rateOk && u.ours then before + [Event(u.user, VerbOf(u.button))] else before
  }

  /** Where the loop stands, in the reducer's words; a skip that still waits for its reason is a skip. */
  ghost predicate Reads(g: GateLoop, outcome: Outcome, events: seq<ApprovalEvent>, permitted: set<int>) {
    match g
    case Open(approved, vetoBy, waits) =>
      if vetoBy != 0 then outcome == Skipped
      else !waits && outcome == Pending && approved == Approvers(events, permitted)
    case Returned(TimedOut) => true
    case Returned(SkippedBy(_, _)) => outcome == Skipped
    case Returned(AdjustedBy(_)) => outcome == Adjusted
    case Returned(ApprovedBy(users)) => outcome == Approved(users)
  }

  /** The reducer, pending so far, with one event more of a permitted user. */
  lemma ReduceTap(events: seq<ApprovalEvent>, e: ApprovalEvent, need: int, permitted: set<int>)
    requires need >= 2 && e.user in permitted && Reduce(events, need, permitted) == Pending
    ensures var users := Approvers(events, permitted) + {e.user};
            Reduce(events + [e], need, permitted) ==
            match e.verb
            case Skip => Skipped
            case Adjust => Adjusted
            case Approve => if |users| >= need then Approved(users) else Pending
            case OtherVerb => Pending
  {
    ReduceAppend(events, e, need, permitted, {});
    assert {} + Approvers(events, permitted) == Approvers(events, permitted);
    assert [e][1..] == [];
  }

  lemma TapStep(g: GateLoop, events: seq<ApprovalEvent>, user: int, button: Button, need: int, permitted: set<int>)
    requires need >= 2 && user in permitted && (button == SkipReasonTap ==> user != 0)
    requires g.Open? && g.vetoBy == 0 && Reads(g, Reduce(events, need, permitted), events, permitted)
    ensures var next := events + [Event(user, VerbOf(button))];
            Reads(TakeTap(g, user, button, need), Reduce(next, need, permitted), next, permitted)
  {
    var e := Event(user, VerbOf(button));
    ReduceTap(events, e, need, permitted);
    ApproversStep(events, e, permitted);
    if user in g.approved {
      assert g.approved + {user} == g.approved;
      OutcomeMeaning(events, need, permitted);
    }
  }

  function EventOf(u: Update): seq<ApprovalEvent> {
    if u.Tap? && u.rateOk && u.ours then [Event(u.user, VerbOf(u.button))] else []
  }

  lemma UpdateStep(g: GateLoop, events: seq<ApprovalEvent>, u: Update, need: int, permitted: set<int>)
    requires need >= 2 && !IsZeroVeto(u)
    requires Reads(g, Reduce(events, need, permitted), events, permitted)
    ensures var next := events + EventOf(u);
            Reads(Receive(g, u, need, permitted), Reduce(next, need, permitted), next, permitted)
  {
    if EventOf(u) == [] {
      assert events + [] == events;
    } else if g.Open? && g.vetoBy == 0 && u.user in permitted {
      TapStep(g, events, u.user, u.button, need, permitted);
    } else {
      var e := Event(u.user, VerbOf(u.button));
      ReduceAppend(events, e, need, permitted, {});
      ApproversStep(events, e, permitted);
    }
  }

  /**
   The loop refines the reducer over the taps it takes, in arrival order: what
   it returns other than a timeout is the reducer's outcome, and while it keeps
   waiting for taps the reducer is pending. Someone whose user id is 0 must not
   skip with a reason; VetoHoldsIffNotZero shows why.
   */
  lemma {:induction false} LoopRefinesReducer(updates: seq<Update>, need: int, permitted: set<int>)
    requires need >= 2
    requires forall i :: 0 <= i < |updates| ==> !IsZeroVeto(updates[i])
    ensures Reads(ReceiveAll(updates, need, permitted), Reduce(Events(updates), need, permitted), Events(updates), permitted)
  {
    if updates != [] {
      var k := |updates| - 1;
      LoopRefinesReducer(updates[..k], need, permitted);
      UpdateStep(ReceiveAll(updates[..k], need, permitted), Events(updates[..k]), updates[k], need, permitted);
      assert Events(updates) == Events(updates[..k]) + EventOf(updates[k]);
    }
  }

  /** A timeout is returned only at the end of the window, and only while the reducer was pending. */
  lemma {:induction false} TimeoutOnlyWhilePending(updates: seq<Update>, need: int, permitted: set<int>)
    requires need >= 2
    requires forall i :: 0 <= i < |updates| ==> !IsZeroVeto(updates[i])
    requires ReceiveAll(updates, need, permitted) == Returned(TimedOut)
    ensures exists k :: 0 <= k < |updates| && updates[k] == WindowOver
                        && Reduce(Events(updates[..k]), need, permitted) == Pending
  {
    var k := |updates| - 1;
    var before := updates[..k];
    if ReceiveAll(before, need, permitted) == Returned(TimedOut) {
      TimeoutOnlyWhilePending(before, need, permitted);
      var j :| 0 <= j < |before| && before[j] == WindowOver && Reduce(Events(before[..j]), need, permitted) == Pending;
      assert updates[..j] == before[..j] && updates[j] == before[j];
    } else {
      LoopRefinesReducer(before, need, permitted);
      assert updates[k] == WindowOver;
    }
  }

  // --- Who decided, with what reason ---

  /** Ends the wait for this person's reason: the time is up, or the reason itself, if it may be used. */
  predicate EndsWait(u: Update, who: int) {
    u == ReasonOver || u == WindowOver || (u.Text? && u == Text(who, u.text, true, true, true) && u.text != "")
  }

  /** Since the tap at k the gate waits for this person's reason. */
  predicate WaitsSince(updates: seq<Update>, permitted: set<int>, who: int, k: int) {
    && 0 <= k < |updates| && who in permitted && updates[k] == Tap(who, SkipReasonTap, true, true)
    && forall i :: k < i < |updates| ==> !EndsWait(updates[i], who)
  }

  /**
   The update at j stopped the gate for this person and reason: a skip by itself,
   or the end of the wait for its reason.
   */
  ghost predicate StoppedAt(updates: seq<Update>, permitted: set<int>, result: Result, j: int) {
    0 <= j < |updates| &&
    match result
    case SkippedBy(reason, who) =>
      || (who in permitted && updates[j] == Tap(who, SkipTap, true, true) && reason == "")
      || (&& EndsWait(updates[j], who) && reason == (if updates[j].Text? then updates[j].text else "")
          && exists k :: WaitsSince(updates[..j], permitted, who, k))
    case AdjustedBy(who) => who in permitted && updates[j] == Tap(who, AdjustTap, true, true)
    case _ => false
  }

  predicate IsStop(r: Result) { r.SkippedBy? || r.AdjustedBy? }

  ghost predicate Explained(updates: seq<Update>, permitted: set<int>, g: GateLoop) {
    match g
    case Open(_, who, waits) => (waits <==> who != 0) && (who != 0 ==> exists k :: WaitsSince(updates, permitted, who, k))
    case Returned(result) => IsStop(result) ==> exists j :: StoppedAt(updates, permitted, result, j)
  }

  lemma WaitGoesOn(before: seq<Update>, u: Update, permitted: set<int>, who: int, k: int)
    requires WaitsSince(before, permitted, who, k) && !EndsWait(u, who)
    ensures WaitsSince(before + [u], permitted, who, k)
  {
  }

  lemma StopStays(before: seq<Update>, u: Update, permitted: set<int>, result: Result, j: int)
    requires StoppedAt(before, permitted, result, j)
    ensures StoppedAt(before + [u], permitted, result, j)
  {
    assert (before + [u])[..j] == before[..j];
  }

  lemma ExplainedStep(before: seq<Update>, u: Update, g: GateLoop, need: int, permitted: set<int>)
    requires Explained(before, permitted, g) && !IsZeroVeto(u)
    ensures Explained(before + [u], permitted, Receive(g, u, need, permitted))
  {
    var all, next, n := before + [u], Receive(g, u, need, permitted), |before|;
    assert all[..n] == before && all[n] == u;
    if g.Returned? {
      if IsStop(g.result) {
        var j :| StoppedAt(before, permitted, g.result, j);
        StopStays(before, u, permitted, g.result, j);
      }
    } else if g.vetoBy != 0 {
      var k :| WaitsSince(before, permitted, g.vetoBy, k);
      if EndsWait(u, g.vetoBy) {
        assert StoppedAt(all, permitted, next.result, n);
      } else {
        WaitGoesOn(before, u, permitted, g.vetoBy, k);
      }
    } else if next.Returned? {
      assert IsStop(next.result) ==> StoppedAt(all, permitted, next.result, n);
    } else if next.vetoBy != 0 {
      assert WaitsSince(all, permitted, next.vetoBy, n);
    }
  }

  /**
   A gate that was stopped names the permitted person whose tap stopped it. A
   skip carries the first usable text of that person, in time, or no reason; and
   a gate that still waits for a reason has had nothing that would end the wait.
   */
  lemma {:induction false} StopMeans(updates: seq<Update>, need: int, permitted: set<int>)
    requires forall i :: 0 <= i < |updates| ==> !IsZeroVeto(updates[i])
    ensures Explained(updates, permitted, ReceiveAll(updates, need, permitted))
  {
    if updates != [] {
      var k := |updates| - 1;
      StopMeans(updates[..k], need, permitted);
      ExplainedStep(updates[..k], updates[k], ReceiveAll(updates[..k], need, permitted), need, permitted);
      assert updates == updates[..k] + [updates[k]];
    }
  }

  /** When the approval window is over, so is the gate. */
  lemma WindowEnds(updates: seq<Update>, k: nat, need: int, permitted: set<int>)
    requires k < |updates| && updates[k] == WindowOver
    ensures ReceiveAll(updates, need, permitted).Returned?
  {
    assert updates[..k + 1][..k] == updates[..k];
    ReturnedStays(updates, k + 1, need, permitted);
  }

  predicate IsZeroVeto(u: Update) {
    u.Tap? && u.user == 0 && u.button == SkipReasonTap
  }

  /**
   From an open gate, a skip with a reason stops every later approval if and only
   if its user id is not 0. Telegram gives nobody that id; the loop itself would
   take it, for 0 is how it says that nobody has skipped.
   */
  lemma VetoHoldsIffNotZero(g: GateLoop, user: int, need: int, permitted: set<int>)
    requires g.Open? && g.vetoBy == 0 && user in permitted
    ensures var vetoed := Receive(g, Tap(user, SkipReasonTap, true, true), need, permitted);
            user != 0 <==> forall u: Update :: u.Tap? ==> Receive(vetoed, u, need, permitted) == vetoed
  {
    var vetoed := Receive(g, Tap(user, SkipReasonTap, true, true), need, permitted);
    if user == 0 {
      assert Receive(vetoed, Tap(0, AdjustTap, true, true), need, permitted) == Returned(AdjustedBy(0));
    }
  }

  /** A veto by user 0 and then two approvals: the gate approves what the reducer skipped. */
  lemma ZeroVetoIsLost()
    ensures var updates := [Tap(0, SkipReasonTap, true, true), Tap(5, ApproveTap, true, true), Tap(6, ApproveTap, true, true)];
            && ReceiveAll(updates, 2, {0, 5, 6}) == Returned(ApprovedBy({5, 6}))
            && Reduce(Events(updates), 2, {0, 5, 6}) == Skipped
  {
    var a, b, c := Tap(0, SkipReasonTap, true, true), Tap(5, ApproveTap, true, true), Tap(6, ApproveTap, true, true);
    var p := {0, 5, 6};
    assert [a, b, c][..2] == [a, b] && [a, b][..1] == [a] && [a][..0] == [];
    assert ReceiveAll([a], 2, p) == Open({}, 0, true);
    assert {} + {5} == {5} && {5} + {6} == {5, 6};
    assert ReceiveAll([a, b], 2, p) == Open({5}, 0, true);
    var e := Event(0, Skip);
    assert Events([a]) == [e];
    assert Events([a, b, c]) == [e] + [Event(5, Approve), Event(6, Approve)];
    assert Reduce([e], 2, p) == Skipped;
    DecisionIsFinal([e], [Event(5, Approve), Event(6, Approve)], 2, p);
  }
}
