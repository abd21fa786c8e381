/**
 The gate side of the approval protocol (relay_channel.go, internal/relay/protocol.go):
 which decisions a dispatched approval accepts, what it answers, and what it
 finally delivers to the run that waits for it.
 */
module RelayGate {
  import opened Wrappers
  import opened Quorum

  type Identity = string

  // --- Operators ---

  datatype Operator = Operator(id: int, identity: Identity)

  function IdentityFor(ops: seq<Operator>, id: int): Identity {
    if ops == [] then "" else if ops[0].id == id then ops[0].identity else IdentityFor(ops[1..], id)
  }

  function OperatorFor(ops: seq<Operator>, identity: Identity): Option<int> {
    if ops == [] then None
    else if ops[0].identity == identity then Some(ops[0].id)
    else OperatorFor(ops[1..], identity)
  }

  /** What the configuration check demands of relay.operators (internal/validate/validate.go). */
  predicate ValidOperators(ops: seq<Operator>) {
    && (forall i :: 0 <= i < |ops| ==> ops[i].identity != "")
    && (forall i, j :: 0 <= i < j < |ops| ==> ops[i].id != ops[j].id)
    && (forall i, j :: 0 <= i < j < |ops| ==> ops[i].identity != ops[j].identity)
  }

  /** With such a list, an identity and an operator id stand for each other. */
  lemma {:induction false} IdentityRoundTrip(ops: seq<Operator>, id: int, identity: Identity)
    requires ValidOperators(ops) && identity != ""
    ensures IdentityFor(ops, id) == identity <==> OperatorFor(ops, identity) == Some(id)
  {
    if ops != [] {
      var rest := ops[1..];
      assert ValidOperators(rest);
      IdentityRoundTrip(rest, id, identity);
      NotFound(rest, ops[0]);
      if IdentityFor(rest, id) == identity {
        FoundAt(rest, id);
      }
      if OperatorFor(rest, identity) == Some(id) {
        FoundFor(rest, identity);
      }
    }
  }

  lemma {:induction false} FoundAt(ops: seq<Operator>, id: int)
    requires IdentityFor(ops, id) != ""
    ensures exists i :: 0 <= i < |ops| && ops[i] == Operator(id, IdentityFor(ops, id))
  {
    if ops[0].id == id {
      assert ops[0] == Operator(id, IdentityFor(ops, id));
    } else {
      FoundAt(ops[1..], id);
      var i :| 0 <= i < |ops[1..]| && ops[1..][i] == Operator(id, IdentityFor(ops, id));
      assert ops[i + 1] == ops[1..][i];
    }
  }

  lemma {:induction false} FoundFor(ops: seq<Operator>, identity: Identity)
    requires OperatorFor(ops, identity).Some?
    ensures exists i :: 0 <= i < |ops| && ops[i] == Operator(OperatorFor(ops, identity).value, identity)
  {
    if ops[0].identity == identity {
      assert ops[0] == Operator(OperatorFor(ops, identity).value, identity);
    } else {
      FoundFor(ops[1..], identity);
      var i :| 0 <= i < |ops[1..]| && ops[1..][i] == Operator(OperatorFor(ops, identity).value, identity);
      assert ops[i + 1] == ops[1..][i];
    }
  }

  lemma {:induction false} NotFound(ops: seq<Operator>, op: Operator)
    requires forall i :: 0 <= i < |ops| ==> ops[i].id != op.id && ops[i].identity != op.identity
    ensures IdentityFor(ops, op.id) == "" && OperatorFor(ops, op.identity) == None
  {
    if ops != [] {
      assert forall i :: 0 <= i < |ops[1..]| ==> ops[1..][i] == ops[i + 1];
      NotFound(ops[1..], op);
    }
  }

  // --- Opening a gate ---

  datatype OpenError = NoIdentities | QuorumUnsatisfiable

  /** The identities that may decide: the permitted operators that have one. */
  method PermittedIdentities(ops: seq<Operator>, ids: seq<int>) returns (permitted: set<Identity>, wire: seq<Identity>)
    ensures permitted == PermittedFor(ops, ids)
    ensures forall identity :: identity in permitted <==> identity in wire
  {
    permitted := {};
    wire := [];
    for i := 0 to |ids|
      invariant permitted == set j | 0 <= j < i && IdentityFor(ops, ids[j]) != "" :: IdentityFor(ops, ids[j])
      invariant forall identity :: identity in permitted <==> identity in wire
    {
      var identity := IdentityFor(ops, ids[i]);
      if identity != "" {
        permitted := permitted + {identity};
        wire := wire + [identity];
      }
    }
  }

  /** Who may decide a step: its approver scope, or every allowed user. */
  function Named(approvers: seq<int>, allowedUsers: seq<int>): seq<int> {
    if approvers == [] then allowedUsers else approvers
  }

  function PermittedFor(ops: seq<Operator>, ids: seq<int>): set<Identity> {
    set i | 0 <= i < |ids| && IdentityFor(ops, ids[i]) != "" :: IdentityFor(ops, ids[i])
  }

  /** The checks before a gate is dispatched: a gate that could never be satisfied is not opened. */
  method OpenGate(ops: seq<Operator>, approvers: seq<int>, allowedUsers: seq<int>, need: int)
    returns (required: int, permitted: set<Identity>, error: Option<OpenError>)
    ensures required == AtLeastOne(need)
    ensures permitted == PermittedFor(ops, Named(approvers, allowedUsers))
    ensures error == if permitted == {} then Some(NoIdentities)
                     else if required > |permitted| then Some(QuorumUnsatisfiable)
                     else None
  {
    required := need;
    if required < 1 {
      required := 1;
    }
    var ids := approvers;
    if |ids| == 0 {
      ids := allowedUsers;
    }
    var wire;
    permitted, wire := PermittedIdentities(ops, ids);
    error := None;
    if |permitted| == 0 {
      error := Some(NoIdentities);
    } else if required > |permitted| {
      error := Some(QuorumUnsatisfiable);
    }
  }

  // --- Verifying a decision ---

  datatype Decision = Decision(protocol: string, approvalID: string, nonce: string, decision: string,
                               payloadHash: string, approver: Identity, adjustText: string, reason: string)

  datatype PendingApproval = PendingApproval(approvalID: string, nonce: string, payloadHash: string,
                                             permitted: set<Identity>, expiresAt: int)

  /** Why a decision was refused; a text the error message quotes is kept. */
  datatype Refusal =
    | BadProtocol(quoted: string)
    | OtherApproval(quoted: string)
    | NonceMismatch
    | HashMismatch
    | GateExpired
    | BadVerb(quoted: string)
    | NoApprover
    | NotPermitted(quoted: string)
    | NoAdjustText
    | ReasonTooLong

  const VERSION := "hitl/v0"
  const MAX_REASON_LEN := 500

  predicate IsSpace(c: char) { c in " \t\n\r\U{000b}\U{000c}" }

  /** strings.TrimSpace. */
  function Trim(s: string): string {
    if s == "" then s
    else if IsSpace(s[0]) then Trim(s[1..])
    else if IsSpace(s[|s| - 1]) then Trim(s[..|s| - 1])
    else s
  }

  predicate Blank(s: string) { forall i :: 0 <= i < |s| ==> IsSpace(s[i]) }

  function VerbOf(s: string): Verb {
    if s == "approve" then Approve
    else if s == "skip" then Skip
    else if s == "adjust" then Adjust
    else OtherVerb
  }

  /** relay.VerifyDecision: the first check that fails, in order. */
  function Verify(d: Decision, p: PendingApproval, now: int): Option<Refusal> {
    if d.protocol != VERSION then Some(BadProtocol(d.protocol))
    else if d.approvalID != p.approvalID then Some(OtherApproval(d.approvalID))
    else if d.nonce != p.nonce then Some(NonceMismatch)
    else if d.payloadHash != p.payloadHash then Some(HashMismatch)
    else if now > p.expiresAt then Some(GateExpired)
    else if VerbOf(d.decision) == OtherVerb then Some(BadVerb(d.decision))
    else if d.approver == "" then Some(NoApprover)
    else if p.permitted != {} && d.approver !in p.permitted then Some(NotPermitted(d.approver))
    else if VerbOf(d.decision) == Adjust && Blank(d.adjustText) then Some(NoAdjustText)
    else if |d.reason| > MAX_REASON_LEN then Some(ReasonTooLong)
    else None
  }

  /** A decision is accepted if and only if it answers this very dispatch, in time, with a verb, by someone who may. */
  lemma VerifyIff(d: Decision, p: PendingApproval, now: int)
    ensures Verify(d, p, now) == None <==>
            && d.protocol == "hitl/v0"
            && d.approvalID == p.approvalID && d.nonce == p.nonce && d.payloadHash == p.payloadHash
            && now <= p.expiresAt
            && d.decision in ["approve", "skip", "adjust"]
            && |d.approver| > 0 && (p.permitted == {} || d.approver in p.permitted)
            && (d.decision == "adjust" ==> exists i :: 0 <= i < |d.adjustText| && !IsSpace(d.adjustText[i]))
            && |d.reason| <= 500
  {
    assert "adjust" != "approve" && "adjust" != "skip";
  }

  predicate Contains(s: string, sub: string) {
    sub <= s || (s != "" && Contains(s[1..], sub))
  }

  /** The handler tells an expired gate by looking for this word in the error text. */
  predicate MentionsExpired(r: Refusal) {
    match r
    case GateExpired => true
    case BadProtocol(q) => Contains(q, "expired")
    case OtherApproval(q) => Contains(q, "expired")
    case BadVerb(q) => Contains(q, "expired")
    case NotPermitted(q) => Contains(q, "expired")
    case _ => false
  }

  predicate SaysExpired(d: Decision, p: PendingApproval, now: int) {
    var refusal := Verify(d, p, now);
    refusal.Some? && MentionsExpired(refusal.value)
  }

  /** The text a decision carries to the run. */
  function TextOf(d: Decision): string {
    if VerbOf(d.decision) == Skip then Trim(d.reason) else d.adjustText
  }

  // --- Collecting decisions ---

  datatype Action = Approved | Skipped | Adjusted

  /** What a gate delivers. */
  datatype QuorumDecision = QuorumDecision(action: Action, text: string, approvers: seq<int>, decider: int)

  datatype GateState = GateState(seen: set<Identity>, approvers: seq<int>, done: Option<QuorumDecision>)

  /** A verified decision of a known operator; text is the skip reason or the adjustment. */
  datatype Accepted = Accepted(verb: Verb, text: string, approver: Identity, op: int)

  const NEW_GATE := GateState({}, [], None)

  function Resolve(g: GateState, d: QuorumDecision): GateState {
    if g.done.Some? then g else g.(done := Some(d))
  }

  /** One accepted decision: the gate after it, and the answer's resolved flag. */
  function Apply(g: GateState, need: int, e: Accepted): (GateState, bool) {
    match e.verb
    case Skip => (Resolve(g, QuorumDecision(Action.Skipped, e.text, [], e.op)), true)
    case Adjust => (Resolve(g, QuorumDecision(Action.Adjusted, e.text, [], e.op)), true)
    case _ =>
      if e.approver in g.seen then (g, false) else
        var counted := g.(seen := g.seen + {e.approver}, approvers := g.approvers + [e.op]);
        if |counted.seen| >= need
        then (Resolve(counted, QuorumDecision(Action.Approved, "", counted.approvers, 0)), true)
        else (counted, false)
  }

  function ApplyAll(need: int, es: seq<Accepted>): GateState {
    if es == [] then NEW_GATE else Apply(ApplyAll(need, es[..|es| - 1]), need, es[|es| - 1]).0
  }

  datatype Answer =
    | Conflict                  // 409
    | Gone                      // 410
    | Forbidden                 // 403
    | Recorded(resolved: bool)  // 200

  /** relayGate. The channel done holds at most one decision and is filled once. */
  class Gate {
    const pending: PendingApproval
    const need: int
    var approvers: seq<int>
    var seen: set<Identity>
    var done: Option<QuorumDecision>

    function State(): GateState
      reads this
    {
      GateState(seen, approvers, done)
    }

    constructor (pending: PendingApproval, need: int)
      ensures this.pending == pending && this.need == need && State() == NEW_GATE
    {
      this.pending := pending;
      this.need := need;
      approvers, seen, done := [], {}, None;
    }

    method ResolveOnce(d: QuorumDecision)
      modifies this`done
      ensures State() == Resolve(old(State()), d)
    {
      if done.None? {
        done := Some(d);
      }
    }

    /** The part of handleDecision under the lock. */
    method Record(e: Accepted) returns (resolved: bool)
      modifies this
      ensures (State(), resolved) == Apply(old(State()), need, e)
    {
      match e.verb
      case Skip =>
        ResolveOnce(QuorumDecision(Action.Skipped, e.text, [], e.op));
        return true;
      case Adjust =>
        ResolveOnce(QuorumDecision(Action.Adjusted, e.text, [], e.op));
        return true;
      case _ =>
        if e.approver in seen {
          return false;
        }
        seen := seen + {e.approver};
        approvers := approvers + [e.op];
        if |seen| >= need {
          ResolveOnce(QuorumDecision(Action.Approved, "", approvers, 0));
          return true;
        }
        return false;
    }
  }

  class Channel {
    const operators: seq<Operator>
    var pending: map<string, Gate>

    constructor (operators: seq<Operator>)
      ensures this.operators == operators && pending == map[]
    {
      this.operators := operators;
      pending := map[];
    }

    /**
     handleDecision after the signature verified, with nothing else running. A
     gate whose clock ran out answers Gone, and so does an open one when the
     first check that fails quotes a text with the word expired in it.
     */
    method HandleDecision(d: Decision, now: int) returns (a: Answer)
      modifies pending.Values
      ensures a == Conflict <==> d.approvalID !in pending
      ensures a == Gone <==> d.approvalID in pending && SaysExpired(d, pending[d.approvalID].pending, now)
      ensures a.Recorded? <==> d.approvalID in pending && Verify(d, pending[d.approvalID].pending, now) == None
                               && OperatorFor(operators, d.approver).Some?
      ensures a.Recorded? ==>
              var g := pending[d.approvalID];
              var e := Accepted(VerbOf(d.decision), TextOf(d), d.approver, OperatorFor(operators, d.approver).value);
              (g.State(), a.resolved) == Apply(old(g.State()), g.need, e)
      ensures forall g :: g in pending.Values && (!a.Recorded? || g != pending[d.approvalID]) ==> unchanged(g)
    {
      if d.approvalID !in pending {
        return Conflict;
      }
      var gate := pending[d.approvalID];
      var refusal := Verify(d, gate.pending, now);
      if refusal.Some? {
        if MentionsExpired(refusal.value) {
          return Gone;
        }
        return Forbidden;
      }
      var op := OperatorFor(operators, d.approver);
      if op.None? {
        return Forbidden;
      }
      var resolved := gate.Record(Accepted(VerbOf(d.decision), TextOf(d), d.approver, op.value));
      return Recorded(resolved);
    }
  }

  // --- What a gate delivers is what the reducer says ---

  function EventsOf(es: seq<Accepted>): seq<ApprovalEvent> {
    seq(|es|, i requires 0 <= i < |es| => Event(es[i].op, es[i].verb))
  }

  function Operators(es: seq<Accepted>): set<int> {
    set i | 0 <= i < |es| :: es[i].op
  }

  /** Each identity names one operator, and each operator has one identity. */
  predicate OneToOne(es: seq<Accepted>) {
    forall i, j :: 0 <= i < |es| && 0 <= j < |es| ==> (es[i].approver == es[j].approver <==> es[i].op == es[j].op)
  }

  predicate OnlyVerbs(es: seq<Accepted>) {
    forall i :: 0 <= i < |es| ==> es[i].verb != OtherVerb
  }

  function Approving(es: seq<Accepted>): set<Identity> {
    set i | 0 <= i < |es| && es[i].verb == Approve :: es[i].approver
  }

  predicate Distinct(ids: seq<int>) {
    forall i, j :: 0 <= i < j < |ids| ==> ids[i] != ids[j]
  }

  /** The decision a gate delivered reads as this outcome of the reducer. */
  ghost predicate Reads(done: Option<QuorumDecision>, outcome: Outcome) {
    match outcome
    case Pending => done == None
    case Skipped => done.Some? && done.value.action == Action.Skipped
    case Adjusted => done.Some? && done.value.action == Action.Adjusted
    case Approved(users) =>
      done.Some? && done.value.action == Action.Approved && Distinct(done.value.approvers)
      && Members(done.value.approvers) == users
  }

  /** While a gate is open it has counted each approving identity, and its operator, once. */
  ghost predicate Counted(g: GateState, es: seq<Accepted>, need: int, allowed: set<int>) {
    && g.done == None
    && g.seen == Approving(es)
    && |g.seen| < need
    && |g.seen| == |Approvers(EventsOf(es), allowed)|
    && Distinct(g.approvers)
    && Members(g.approvers) == Approvers(EventsOf(es), allowed)
  }

  lemma EventsOfAppend(es: seq<Accepted>, e: Accepted)
    ensures EventsOf(es + [e]) == EventsOf(es) + [Event(e.op, e.verb)]
  {
  }

  lemma ApprovingAppend(es: seq<Accepted>, e: Accepted)
    ensures Approving(es + [e]) == Approving(es) + (if e.verb == Approve then {e.approver} else {})
  {
    var all := es + [e];
    forall a | a in Approving(es)
      ensures a in Approving(all)
    {
      var i :| 0 <= i < |es| && es[i].verb == Approve && es[i].approver == a;
      assert all[i] == es[i];
    }
    assert all[|es|] == e;
  }

  /** The gate knows the identity exactly when the reducer knows the operator. */
  lemma SeenIffApproved(es: seq<Accepted>, e: Accepted, allowed: set<int>)
    requires OneToOne(es + [e]) && forall i :: 0 <= i < |es| ==> es[i].op in allowed
    ensures e.approver in Approving(es) <==> e.op in Approvers(EventsOf(es), allowed)
  {
    var all, events := es + [e], EventsOf(es);
    assert all[|es|] == e && forall i :: 0 <= i < |es| ==> all[i] == es[i];
    if e.approver in Approving(es) {
      var i :| 0 <= i < |es| && es[i].verb == Approve && es[i].approver == e.approver;
      assert all[i].approver == all[|es|].approver;
      assert events[i] == Event(e.op, Approve);
    }
    if e.op in Approvers(events, allowed) {
      var i :| 0 <= i < |events| && events[i].verb == Approve && events[i].user in allowed && events[i].user == e.op;
      assert all[i].op == all[|es|].op;
    }
  }

  /** An identity the gate has seen changes nothing, there and in the reducer. */
  lemma CountRepeat(g: GateState, es: seq<Accepted>, e: Accepted, need: int, allowed: set<int>)
    requires Counted(g, es, need, allowed) && e.verb == Approve && e.op in allowed
    requires e.approver in g.seen && e.op in Approvers(EventsOf(es), allowed)
    ensures Counted(g, es + [e], need, allowed)
    ensures ReduceFrom([Event(e.op, e.verb)], need, allowed, Approvers(EventsOf(es), allowed)) == Pending
  {
    EventsOfAppend(es, e);
    ApprovingAppend(es, e);
    ApproversStep(EventsOf(es), Event(e.op, e.verb), allowed);
    assert g.seen + {e.approver} == g.seen;
    assert Approvers(EventsOf(es), allowed) + {e.op} == Approvers(EventsOf(es), allowed);
  }

  lemma MembersAppend(ids: seq<int>, id: int)
    ensures Members(ids + [id]) == Members(ids) + {id}
    ensures Distinct(ids) && id !in Members(ids) ==> Distinct(ids + [id])
  {
    assert forall x :: x in ids + [id] <==> x in ids || x == id;
  }

  lemma OneApproval(op: int, need: int, allowed: set<int>, users: set<int>)
    requires op in allowed
    ensures ReduceFrom([Event(op, Approve)], need, allowed, users) ==
            if |users + {op}| >= AtLeastOne(need) then Outcome.Approved(users + {op}) else Pending
  {
    assert [Event(op, Approve)][1..] == [];
  }

  /** A new identity is a new operator, and both counts grow by one. */
  lemma CountNew(g: GateState, es: seq<Accepted>, e: Accepted, need: int, allowed: set<int>)
    requires Counted(g, es, need, allowed) && e.verb == Approve && e.op in allowed
    requires e.approver !in g.seen && e.op !in Approvers(EventsOf(es), allowed)
    ensures var next := Apply(g, need, e).0;
            var outcome := ReduceFrom([Event(e.op, e.verb)], need, allowed, Approvers(EventsOf(es), allowed));
            Reads(next.done, outcome) && (outcome == Pending ==> Counted(next, es + [e], need, allowed))
  {
    EventsOfAppend(es, e);
    ApprovingAppend(es, e);
    ApproversStep(EventsOf(es), Event(e.op, e.verb), allowed);
    MembersAppend(g.approvers, e.op);
    OneApproval(e.op, need, allowed, Approvers(EventsOf(es), allowed));
    assert |g.seen + {e.approver}| == |Approvers(EventsOf(es), allowed) + {e.op}|;
  }

  /** One decision more. */
  lemma RefinesStep(g: GateState, before: seq<Accepted>, e: Accepted, need: int, allowed: set<int>)
    requires OneToOne(before + [e]) && e.verb != OtherVerb && e.op in allowed
    requires forall i :: 0 <= i < |before| ==> before[i].op in allowed
    requires Counted(g, before, need, allowed)
    ensures var next := Apply(g, need, e).0;
            var outcome := ReduceFrom([Event(e.op, e.verb)], need, allowed, Approvers(EventsOf(before), allowed));
            Reads(next.done, outcome) && (outcome == Pending ==> Counted(next, before + [e], need, allowed))
  {
    if e.verb == Approve {
      SeenIffApproved(before, e, allowed);
      if e.approver in g.seen {
        CountRepeat(g, before, e, need, allowed);
      } else {
        CountNew(g, before, e, need, allowed);
      }
    }
  }

  lemma ApplyAllAppend(es: seq<Accepted>, e: Accepted, need: int)
    ensures ApplyAll(need, es + [e]) == Apply(ApplyAll(need, es), need, e).0
  {
    assert (es + [e])[..|es|] == es;
  }

  /** The reducer with one event more. */
  lemma ReduceMore(es: seq<Accepted>, e: Accepted, need: int, allowed: set<int>)
    ensures var before := Reduce(EventsOf(es), need, allowed);
            Reduce(EventsOf(es + [e]), need, allowed) ==
            if before != Pending then before
            else ReduceFrom([Event(e.op, e.verb)], need, allowed, Approvers(EventsOf(es), allowed))
  {
    EventsOfAppend(es, e);
    ReduceAppend(EventsOf(es), Event(e.op, e.verb), need, allowed, {});
    assert {} + Approvers(EventsOf(es), allowed) == Approvers(EventsOf(es), allowed);
  }

  /**
   The relay gate refines the reducer: on any accepted decisions, in arrival
   order, it has delivered nothing while the reducer is pending, and otherwise
   exactly the reducer's outcome, each approver once.
   */
  lemma {:induction false} GateRefinesReducer(es: seq<Accepted>, need: int, allowed: set<int>)
    requires need >= 1 && OneToOne(es) && OnlyVerbs(es)
    requires forall i :: 0 <= i < |es| ==> es[i].op in allowed
    ensures Reads(ApplyAll(need, es).done, Reduce(EventsOf(es), need, allowed))
    ensures Reduce(EventsOf(es), need, allowed) == Pending ==> Counted(ApplyAll(need, es), es, need, allowed)
  {
    if es == [] {
      assert EventsOf(es) == [];
      assert Approvers([], allowed) == {};
    } else {
      var k := |es| - 1;
      var before, e := es[..k], es[k];
      assert es == before + [e];
      assert forall i :: 0 <= i < k ==> before[i] == es[i];
      GateRefinesReducer(before, need, allowed);
      ApplyAllAppend(before, e, need);
      ReduceMore(before, e, need, allowed);
      if Reduce(EventsOf(before), need, allowed) == Pending {
        RefinesStep(ApplyAll(need, before), before, e, need, allowed);
      } else {
        assert ApplyAll(need, es).done == ApplyAll(need, before).done;
      }
    }
  }

  /** With a valid operator list the decisions a gate accepts are one to one. */
  lemma ValidOperatorsOneToOne(ops: seq<Operator>, es: seq<Accepted>)
    requires ValidOperators(ops)
    requires forall i :: 0 <= i < |es| ==> es[i].approver != "" && OperatorFor(ops, es[i].approver) == Some(es[i].op)
    ensures OneToOne(es)
  {
    forall i | 0 <= i < |es|
      ensures IdentityFor(ops, es[i].op) == es[i].approver
    {
      IdentityRoundTrip(ops, es[i].op, es[i].approver);
    }
  }

  /** A delivered decision is never replaced. */
  lemma {:induction false} DeliveryIsFinal(es: seq<Accepted>, more: seq<Accepted>, need: int)
    requires ApplyAll(need, es).done.Some?
    ensures ApplyAll(need, es + more).done == ApplyAll(need, es).done
    decreases |more|
  {
    if more == [] {
      assert es + more == es;
    } else {
      var k := |more| - 1;
      DeliveryIsFinal(es, more[..k], need);
      assert (es + more)[..|es + more| - 1] == es + more[..k];
    }
  }

  /** What the gate took from one callback. */
  datatype Callback = Callback(d: Decision, now: int)

  /** The callback passes VerifyDecision and comes from a configured operator. */
  predicate IsAccepted(ops: seq<Operator>, p: PendingApproval, c: Callback) {
    Verify(c.d, p, c.now) == None && OperatorFor(ops, c.d.approver).Some?
  }

  predicate AllAccepted(ops: seq<Operator>, p: PendingApproval, cs: seq<Callback>) {
    forall i :: 0 <= i < |cs| ==> IsAccepted(ops, p, cs[i])
  }

  function AcceptedOf(ops: seq<Operator>, p: PendingApproval, c: Callback): Accepted
    requires IsAccepted(ops, p, c)
  {
    Accepted(VerbOf(c.d.decision), TextOf(c.d), c.d.approver, OperatorFor(ops, c.d.approver).value)
  }

  function AcceptedAll(ops: seq<Operator>, p: PendingApproval, cs: seq<Callback>): seq<Accepted>
    requires AllAccepted(ops, p, cs)
  {
    seq(|cs|, i requires 0 <= i < |cs| => AcceptedOf(ops, p, cs[i]))
  }

  /** The operator behind a permitted identity is one of those named for the step. */
  lemma PermittedIsNamed(ops: seq<Operator>, ids: seq<int>, identity: Identity, op: int)
    requires ValidOperators(ops) && identity in PermittedFor(ops, ids) && OperatorFor(ops, identity) == Some(op)
    ensures op in ids
  {
    var i :| 0 <= i < |ids| && IdentityFor(ops, ids[i]) != "" && IdentityFor(ops, ids[i]) == identity;
    IdentityRoundTrip(ops, ids[i], identity);
    assert ids[i] == op;
  }

  /**
   With the operator list the configuration check demands and a gate as OpenGate
   opens it, whatever callbacks the handler accepts, at whatever times: the gate
   has delivered exactly what the reducer says for the operators named for the
   step.
   */
  lemma OpenedGateRefinesReducer(ops: seq<Operator>, ids: seq<int>, need: int, p: PendingApproval, cs: seq<Callback>)
    requires ValidOperators(ops) && p.permitted == PermittedFor(ops, ids) && p.permitted != {}
    requires AllAccepted(ops, p, cs)
    ensures Reads(ApplyAll(AtLeastOne(need), AcceptedAll(ops, p, cs)).done,
                  Reduce(EventsOf(AcceptedAll(ops, p, cs)), need, Members(ids)))
  {
    var es, required := AcceptedAll(ops, p, cs), AtLeastOne(need);
    forall i | 0 <= i < |es|
      ensures es[i].verb != OtherVerb && es[i].approver != "" && es[i].op in Members(ids)
      ensures OperatorFor(ops, es[i].approver) == Some(es[i].op)
    {
      assert IsAccepted(ops, p, cs[i]);
      PermittedIsNamed(ops, ids, es[i].approver, es[i].op);
    }
    ValidOperatorsOneToOne(ops, es);
    GateRefinesReducer(es, required, Members(ids));
    SameNeed(EventsOf(es), need, Members(ids), {});
  }

  lemma {:induction false} SameNeed(events: seq<ApprovalEvent>, need: int, allowed: set<int>, approved: set<int>)
    ensures ReduceFrom(events, AtLeastOne(need), allowed, approved) == ReduceFrom(events, need, allowed, approved)
  {
    if events != [] {
      SameNeed(events[1..], need, allowed, approved);
      SameNeed(events[1..], need, allowed, approved + {events[0].user});
    }
  }

  // --- And exactly when it is ---

  /** No operator answers to two identities. */
  ghost predicate Injective(ops: seq<Operator>) {
    forall a, b :: a != "" && b != "" && OperatorFor(ops, a).Some? && OperatorFor(ops, a) == OperatorFor(ops, b) ==> a == b
  }

  predicate FromOperators(ops: seq<Operator>, es: seq<Accepted>) {
    forall i :: 0 <= i < |es| ==> es[i].approver != "" && OperatorFor(ops, es[i].approver) == Some(es[i].op)
  }

  /** Gate and reducer agree on what these decisions of the list's operators come to. */
  ghost predicate AgreesOn(ops: seq<Operator>, es: seq<Accepted>, need: int, allowed: set<int>) {
    need >= 1 && OnlyVerbs(es) && FromOperators(ops, es) && Operators(es) <= allowed ==>
      Reads(ApplyAll(need, es).done, Reduce(EventsOf(es), need, allowed))
  }

  ghost predicate Agrees(ops: seq<Operator>) {
    forall es, need, allowed :: AgreesOn(ops, es, need, allowed)
  }

  lemma InjectiveAgrees(ops: seq<Operator>, es: seq<Accepted>, need: int, allowed: set<int>)
    requires Injective(ops)
    ensures AgreesOn(ops, es, need, allowed)
  {
    if need >= 1 && OnlyVerbs(es) && FromOperators(ops, es) && Operators(es) <= allowed {
      assert forall i :: 0 <= i < |es| ==> es[i].op in Operators(es);
      GateRefinesReducer(es, need, allowed);
    }
  }

  lemma ReduceSamePerson(op: int)
    ensures Reduce([Event(op, Approve), Event(op, Approve)], 2, {op}) == Pending
  {
    var e := Event(op, Approve);
    assert [e, e][1..] == [e] && [e][1..] == [];
    assert {} + {op} == {op} && {op} + {op} == {op} && |{op}| == 1;
    assert ReduceFrom([e], 2, {op}, {op}) == Pending;
  }

  /**
   Two identities of one operator satisfy a gate that needs two people; the
   reducer, which counts operators, is still pending.
   */
  lemma TwoIdentitiesOneOperator(a: Identity, b: Identity, op: int)
    requires a != b
    ensures var es := [Accepted(Approve, "", a, op), Accepted(Approve, "", b, op)];
            && ApplyAll(2, es).done == Some(QuorumDecision(Action.Approved, "", [op, op], 0))
            && Reduce(EventsOf(es), 2, {op}) == Pending
  {
    var first, second := Accepted(Approve, "", a, op), Accepted(Approve, "", b, op);
    var es := [first, second];
    assert es[..1] == [first] && [first][..0] == [];
    assert ApplyAll(2, [first]) == GateState({a}, [op], None);
    assert |{a} + {b}| == 2;
    assert ApplyAll(2, es) == Apply(GateState({a}, [op], None), 2, second).0;
    assert [op] + [op] == [op, op];
    assert EventsOf(es) == [Event(op, Approve), Event(op, Approve)];
    ReduceSamePerson(op);
  }

  lemma SharedOperatorDiffers(ops: seq<Operator>, a: Identity, b: Identity)
    requires a != "" && b != "" && a != b && OperatorFor(ops, a).Some? && OperatorFor(ops, a) == OperatorFor(ops, b)
    ensures !Agrees(ops)
  {
    var op := OperatorFor(ops, a).value;
    var es := [Accepted(Approve, "", a, op), Accepted(Approve, "", b, op)];
    TwoIdentitiesOneOperator(a, b, op);
    PairFromOperators(ops, a, b, op);
    assert !AgreesOn(ops, es, 2, {op});
  }

  lemma PairFromOperators(ops: seq<Operator>, a: Identity, b: Identity, op: int)
    requires a != "" && b != "" && OperatorFor(ops, a) == OperatorFor(ops, b) == Some(op)
    ensures var es := [Accepted(Approve, "", a, op), Accepted(Approve, "", b, op)];
            FromOperators(ops, es) && OnlyVerbs(es) && Operators(es) <= {op}
  {
  }

  /**
   For any operator list: the gate, which counts identities, agrees with the
   reducer, which counts operators, on all sequences and needs if and only if
   no operator of the list answers to two identities.
   */
  lemma AgreesIffInjective(ops: seq<Operator>)
    ensures Agrees(ops) <==> Injective(ops)
  {
    if Injective(ops) {
      forall es, need, allowed
        ensures AgreesOn(ops, es, need, allowed)
      {
        InjectiveAgrees(ops, es, need, allowed);
      }
    } else {
      var a, b :| a != "" && b != "" && OperatorFor(ops, a).Some? && OperatorFor(ops, a) == OperatorFor(ops, b) && a != b;
      SharedOperatorDiffers(ops, a, b);
    }
  }

  // --- The text a decision carries ---

  /** Without the white space at its two ends, and nothing else gone. */
  ghost predicate TrimmedFrom(s: string, t: string, i: nat) {
    && i + |t| <= |s| && s[i..i + |t|] == t
    && (forall k :: 0 <= k < |s| && (k < i || k >= i + |t|) ==> IsSpace(s[k]))
    && (t != "" ==> !IsSpace(t[0]) && !IsSpace(t[|t| - 1]))
  }

  lemma TrimmedLeft(s: string, t: string, i: nat)
    requires s != "" && IsSpace(s[0]) && TrimmedFrom(s[1..], t, i)
    ensures TrimmedFrom(s, t, i + 1)
  {
    var rest := s[1..];
    assert forall k :: 1 <= k < |s| ==> s[k] == rest[k - 1];
    forall k | 0 <= k < |t|
      ensures s[i + 1..i + 1 + |t|][k] == t[k]
    {
      assert rest[i..i + |t|][k] == t[k];
    }
  }

  lemma TrimmedRight(s: string, t: string, i: nat)
    requires s != "" && IsSpace(s[|s| - 1]) && TrimmedFrom(s[..|s| - 1], t, i)
    ensures TrimmedFrom(s, t, i)
  {
    var front := s[..|s| - 1];
    assert s[i..i + |t|] == front[i..i + |t|];
    assert forall k :: 0 <= k < |front| ==> s[k] == front[k];
  }

  lemma {:induction false} TrimMeans(s: string)
    ensures exists i: nat :: TrimmedFrom(s, Trim(s), i)
    decreases |s|
  {
    if s != "" && IsSpace(s[0]) {
      TrimMeans(s[1..]);
      var i: nat :| TrimmedFrom(s[1..], Trim(s[1..]), i);
      TrimmedLeft(s, Trim(s[1..]), i);
      var next: nat := i + 1;
      assert TrimmedFrom(s, Trim(s), next);
    } else if s != "" && IsSpace(s[|s| - 1]) {
      TrimMeans(s[..|s| - 1]);
      var i: nat :| TrimmedFrom(s[..|s| - 1], Trim(s[..|s| - 1]), i);
      TrimmedRight(s, Trim(s[..|s| - 1]), i);
      assert TrimmedFrom(s, Trim(s), i);
    } else {
      assert Trim(s) == s && s[0..0 + |s|] == s;
      assert TrimmedFrom(s, Trim(s), 0);
    }
  }

  /** The callback that stopped the gate: the first one, with nothing delivered before it. */
  ghost predicate StoppedBy(ops: seq<Operator>, p: PendingApproval, cs: seq<Callback>, need: int, k: int, d: QuorumDecision)
    requires AllAccepted(ops, p, cs)
  {
    && 0 <= k < |cs| && AllAccepted(ops, p, cs[..k])
    && ApplyAll(need, AcceptedAll(ops, p, cs[..k])).done == None
    && d.decider == OperatorFor(ops, cs[k].d.approver).value && d.approvers == []
    && match d.action
       case Skipped => cs[k].d.decision == "skip" && exists i: nat :: TrimmedFrom(cs[k].d.reason, d.text, i)
       case Adjusted => cs[k].d.decision == "adjust" && d.text == cs[k].d.adjustText
       case Approved => false
  }

  lemma AcceptedPrefix(ops: seq<Operator>, p: PendingApproval, cs: seq<Callback>, k: nat)
    requires AllAccepted(ops, p, cs) && k <= |cs|
    ensures AllAccepted(ops, p, cs[..k]) && AcceptedAll(ops, p, cs[..k]) == AcceptedAll(ops, p, cs)[..k]
  {
  }

  lemma StoppedEarlier(ops: seq<Operator>, p: PendingApproval, cs: seq<Callback>, need: int, n: nat, k: int, d: QuorumDecision)
    requires AllAccepted(ops, p, cs) && n <= |cs| && AllAccepted(ops, p, cs[..n]) && StoppedBy(ops, p, cs[..n], need, k, d)
    ensures StoppedBy(ops, p, cs, need, k, d)
  {
    assert cs[..n][..k] == cs[..k] && cs[..n][k] == cs[k];
  }

  /** The last callback stops the gate. */
  lemma StoppingCallback(ops: seq<Operator>, p: PendingApproval, cs: seq<Callback>, need: int)
    requires AllAccepted(ops, p, cs) && cs != []
    requires AllAccepted(ops, p, cs[..|cs| - 1]) && ApplyAll(need, AcceptedAll(ops, p, cs[..|cs| - 1])).done == None
    ensures var done := ApplyAll(need, AcceptedAll(ops, p, cs)).done;
            done.Some? && done.value.action != Action.Approved ==> StoppedBy(ops, p, cs, need, |cs| - 1, done.value)
  {
    var n := |cs| - 1;
    AcceptedPrefix(ops, p, cs, n);
    assert IsAccepted(ops, p, cs[n]);
    TrimMeans(cs[n].d.reason);
  }

  /**
   A skip or an adjustment that was delivered carries its own words: the reason
   without the white space around it, or the adjustment as it was sent, and the
   operator it came from.
   */
  lemma {:induction false} DeliveredText(ops: seq<Operator>, p: PendingApproval, cs: seq<Callback>, need: int)
    requires AllAccepted(ops, p, cs)
    ensures var done := ApplyAll(need, AcceptedAll(ops, p, cs)).done;
            done.Some? && done.value.action != Action.Approved ==> exists k :: StoppedBy(ops, p, cs, need, k, done.value)
    decreases |cs|
  {
    if cs != [] {
      var n := |cs| - 1;
      var es := AcceptedAll(ops, p, cs);
      AcceptedPrefix(ops, p, cs, n);
      DeliveredText(ops, p, cs[..n], need);
      var before, done := ApplyAll(need, es[..n]), ApplyAll(need, es).done;
      assert ApplyAll(need, es) == Apply(before, need, es[n]).0;
      if done.Some? && done.value.action != Action.Approved {
        if before.done.Some? {
          var k :| StoppedBy(ops, p, cs[..n], need, k, done.value);
          StoppedEarlier(ops, p, cs, need, n, k, done.value);
        } else {
          StoppingCallback(ops, p, cs, need);
          assert StoppedBy(ops, p, cs, need, n, done.value);
        }
      }
    }
  }

  // --- What the answers tell the presenter ---

  /** The decision this callback asks the gate to deliver. */
  function Own(g: GateState, e: Accepted): QuorumDecision {
    match e.verb
    case Skip => QuorumDecision(Action.Skipped, e.text, [], e.op)
    case Adjust => QuorumDecision(Action.Adjusted, e.text, [], e.op)
    case _ => QuorumDecision(Action.Approved, "", g.approvers + [e.op], 0)
  }

  /**
   "resolved" in an answer says that a decision has been delivered, but not that
   this one has. A callback that reaches the gate after it resolved and before
   the waiting run removed it is acknowledged in the same words; what it asked
   for is delivered if and only if nothing had been delivered before it (or the
   very same decision had).
   */
  lemma ResolvedAnswer(g: GateState, need: int, e: Accepted)
    requires Apply(g, need, e).1
    ensures Apply(g, need, e).0.done.Some?
    ensures Apply(g, need, e).0.done == Some(Own(g, e)) <==> g.done == None || g.done == Some(Own(g, e))
  {
  }

  /** A veto that comes after the deciding approval is answered as recorded and resolved; the run gets the approval. */
  lemma LateVetoAcknowledged()
    ensures var approve, skip := Accepted(Approve, "", "ann", 1), Accepted(Skip, "stop", "bob", 2);
            var g := ApplyAll(1, [approve]);
            && Apply(g, 1, skip).1
            && Apply(g, 1, skip).0.done.value.action == Action.Approved
  {
    var approve := Accepted(Approve, "", "ann", 1);
    assert [approve][..0] == [];
    assert ApplyAll(1, [approve]) == Apply(NEW_GATE, 1, approve).0;
    assert |{} + {approve.approver}| == 1;
  }

  /**
   The other answer, recorded and not resolved, leaves the gate open unless it
   goes to an approval that arrives after the gate was decided and either
   repeats an identity or still counts too few.
   */
  lemma UnresolvedAnswer(g: GateState, need: int, e: Accepted)
    requires !Apply(g, need, e).1
    ensures Apply(g, need, e).0.done == g.done
    ensures e.approver in Apply(g, need, e).0.seen
    ensures e.approver in g.seen || |g.seen| + 1 < need
  {
  }

  /** A decision bound to an expired gate is always told so. */
  lemma ExpiredGateSaysSo(d: Decision, p: PendingApproval, now: int)
    requires d.protocol == VERSION && d.approvalID == p.approvalID && d.nonce == p.nonce && d.payloadHash == p.payloadHash
    ensures now > p.expiresAt ==> SaysExpired(d, p, now)
  {
  }

  /**
   "Gone" is meant to say that the gate's own clock ran out. While the clock
   runs it is answered all the same, exactly when the first check that fails
   quotes a text with the word expired in it.
   */
  lemma OpenGateSaysExpiredIff(d: Decision, p: PendingApproval, now: int)
    requires now <= p.expiresAt
    ensures SaysExpired(d, p, now) <==> Quotes(d, p)
  {
  }

  /** The first failing check is one whose message quotes the caller, and the quoted text has the word in it. */
  predicate Quotes(d: Decision, p: PendingApproval) {
    if d.protocol != VERSION then Contains(d.protocol, "expired")
    else if d.approvalID != p.approvalID then Contains(d.approvalID, "expired")
    else if d.nonce != p.nonce || d.payloadHash != p.payloadHash then false
    else if VerbOf(d.decision) == OtherVerb then Contains(d.decision, "expired")
    else d.approver != "" && p.permitted != {} && d.approver !in p.permitted && Contains(d.approver, "expired")
  }

  /** Someone who may not decide this step, with the word in the identity, is told that an open gate expired. */
  lemma OpenGateSaidExpired()
    ensures var p := PendingApproval("a1", "n1", "h1", {"ann"}, 100);
            var d := Decision(VERSION, "a1", "n1", "approve", "h1", "expired-account", "", "");
            SaysExpired(d, p, 50)
  {
    var p := PendingApproval("a1", "n1", "h1", {"ann"}, 100);
    var d := Decision(VERSION, "a1", "n1", "approve", "h1", "expired-account", "", "");
    assert |d.approver| != |"ann"|;
    assert "expired-account"[..7] == "expired";
  }
}
