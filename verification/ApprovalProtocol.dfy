/**
 One approval, presented by the Slack relay and collected by the gate, as one
 system. The gate, the relay's click handlers, the network between them, the
 expiry timer and the run that waits for the decision all take their turns in
 any order; a reply may be lost, may arrive without a readable body, or may
 arrive after the handler gave up, and a request may reach the gate long after
 that.
 */
module ApprovalProtocol {
  import opened Wrappers
  import opened Quorum
  import opened SlackRelay
  import Gate = RelayGate

  /** What stays fixed: the relay's configuration, the dispatch, and the gate it was sent for. */
  datatype World = World(identities: map<User, Identity>, operators: seq<Gate.Operator>, d: Dispatch, expires: int,
                         pending: Gate.PendingApproval, need: int)

  /** A click handler: waiting for the reply to its decision, owing a call of expire, or done. */
  datatype Handler = Awaiting(c: Click) | OwesExpire | Finished

  /**
   A decision under way: sent, its gate found among the pending ones, past the
   gate's checks with the operator it names, or answered.
   */
  datatype Travel = Sent | Found | Verified(op: int) | Answered(answer: Gate.Answer)

  datatype Request = Request(c: Click, travel: Travel)

  datatype Delivery = Waiting | TimedOut | Delivered(decision: Gate.QuorumDecision)

  /**
   entry is the relay's entry for this approval. requests outlive their handler.
   clicked and lossy are history: which clicks became decisions, and whether
   the reply of any decision that the gate recorded was lost or unreadable.
   */
  datatype System = System(now: int, entry: Option<Approval>, handlers: map<nat, Handler>,
                           requests: map<nat, Request>, gate: Gate.GateState, live: bool, delivery: Delivery,
                           clicked: set<(User, Verb)>, lossy: bool)

  datatype Event =
    | Tick(seconds: nat)
    | Reserve
    | Posted(channel: string, ts: string)
    | PostRefused
    | Clicked(h: nat, c: Click)
    | GateFinds(h: nat)
    | GateChecks(h: nat)
    | GateRecords(h: nat)
    | ReplyArrives(h: nat, readable: bool)
    | ReplyLost(h: nat)
    | TimerFires
    | ExpireOwed(h: nat)
    | Prune
    | RunTakes(timeout: bool)
    | RunRemoves

  function Start(now: int): System {
    System(now, None, map[], map[], Gate.NEW_GATE, true, Waiting, {}, false)
  }

  // --- Envelopes and answers ---

  function VerbText(v: Verb): string {
    match v
    case Approve => "approve"
    case Skip => "skip"
    case Adjust => "adjust"
    case OtherVerb => ""
  }

  /** buildDecision: bound to the dispatch by approval id, nonce and payload hash. */
  function Envelope(w: World, c: Click): Gate.Decision
    requires c.user in w.identities
  {
    Gate.Decision(Gate.VERSION, w.d.approvalID, w.d.nonce, VerbText(c.verb), w.d.payloadHash, w.identities[c.user],
                  if c.verb == Adjust then c.adjustText else "", "")
  }

  /** The reply as the relay reads it; the flag is lost with an unreadable body. */
  function ReplyOf(a: Gate.Answer, readable: bool): Reply {
    match a
    case Conflict => Status(409, None)
    case Gone => Status(410, None)
    case Forbidden => Status(403, None)
    case Recorded(resolved) => Status(200, if readable then Some(resolved) else None)
  }

  function AcceptedFor(w: World, c: Click, op: int): Gate.Accepted
    requires c.user in w.identities
  {
    Gate.Accepted(c.verb, Gate.TextOf(Envelope(w, c)), w.identities[c.user], op)
  }

  /** The gate's checks between its two critical sections, on the gate it found in the first. */
  function Check(w: World, s: System, c: Click): Travel
    requires c.user in w.identities
  {
    match Gate.Verify(Envelope(w, c), w.pending, s.now)
    case Some(refusal) => Answered(if Gate.MentionsExpired(refusal) then Gate.Gone else Gate.Forbidden)
    case None =>
      match Gate.OperatorFor(w.operators, w.identities[c.user])
      case None => Answered(Gate.Forbidden)
      case Some(op) => Verified(op)
  }

  // --- Steps ---

  predicate Enabled(w: World, s: System, e: Event) {
    match e
    case Tick(_) => true
    case Reserve => s.entry == None && s.now < w.expires
    case Posted(_, _) => s.entry.Some? && s.entry.value.phase == Posting
    case PostRefused => s.entry.Some? && s.entry.value.phase == Posting
    case Clicked(h, c) => h !in s.handlers && h !in s.requests && c.approvalID == w.d.approvalID
    case GateFinds(h) => h in s.requests && s.requests[h].travel == Sent
    case GateChecks(h) => h in s.requests && s.requests[h].c.user in w.identities && s.requests[h].travel == Found
    case GateRecords(h) => h in s.requests && s.requests[h].c.user in w.identities && s.requests[h].travel.Verified?
    case ReplyArrives(h, _) =>
      h in s.handlers && s.handlers[h].Awaiting? && h in s.requests && s.requests[h].travel.Answered? && s.entry.Some?
    case ReplyLost(h) => h in s.handlers && s.handlers[h].Awaiting? && s.entry.Some?
    case TimerFires => s.entry.Some? && s.entry.value.timer == Armed && s.now >= s.entry.value.expires
    case ExpireOwed(h) => h in s.handlers && s.handlers[h] == OwesExpire
    case Prune => s.entry.Some? && Forgotten(s.entry.value, s.now)
    case RunTakes(timeout) => s.delivery == Waiting && (timeout || s.gate.done.Some?)
    case RunRemoves => s.delivery != Waiting
  }

  function AfterClick(w: World, s: System, h: nat, c: Click): System {
    if s.entry.Some? && Decides(s.entry.value, c, w.identities) then
      s.(entry := Some(s.entry.value.(phase := Deciding)), handlers := s.handlers[h := Awaiting(c)],
         requests := s.requests[h := Request(c, Sent)], clicked := s.clicked + {(c.user, c.verb)})
    else s.(handlers := s.handlers[h := Finished])
  }

  function AfterRecord(w: World, s: System, h: nat): System
    requires Enabled(w, s, GateRecords(h))
  {
    var r := s.requests[h];
    var (gate, resolved) := Gate.Apply(s.gate, w.need, AcceptedFor(w, r.c, r.travel.op));
    s.(gate := gate, requests := s.requests[h := r.(travel := Answered(Gate.Recorded(resolved)))],
       lossy := s.lossy || !IsAwaiting(s, h))
  }

  predicate IsAwaiting(s: System, h: nat) {
    h in s.handlers && s.handlers[h].Awaiting?
  }

  /** The gate recorded this decision and answered so. */
  predicate WasRecorded(t: Travel) { t.Answered? && t.answer.Recorded? }

  function AfterHandler(s: System, h: nat, reply: Reply): System
    requires h in s.handlers && s.handlers[h].Awaiting? && s.entry.Some?
  {
    var a := AfterReply(s.entry.value, s.handlers[h].c, reply);
    s.(entry := Some(a), handlers := s.handlers[h := if Lapsed(a, s.now) then OwesExpire else Finished])
  }

  function Step(w: World, s: System, e: Event): System {
    if !Enabled(w, s, e) then s else
      match e
      case Tick(seconds) => s.(now := s.now + seconds)
      case Reserve => s.(entry := Some(Reservation(w.d, w.expires)))
      case Posted(channel, ts) => s.(entry := Some(Live(s.entry.value, channel, ts)))
      case PostRefused => s.(entry := None)
      case Clicked(h, c) => AfterClick(w, s, h, c)
      case GateFinds(h) =>
        s.(requests := s.requests[h := s.requests[h].(travel := if s.live then Found else Answered(Gate.Conflict))])
      case GateChecks(h) =>
        var r := s.requests[h];
        s.(requests := s.requests[h := r.(travel := Check(w, s, r.c))])
      case GateRecords(h) => AfterRecord(w, s, h)
      case ReplyArrives(h, readable) =>
        var answer := s.requests[h].travel.answer;
        AfterHandler(s, h, ReplyOf(answer, readable)).(lossy := s.lossy || (answer.Recorded? && !readable))
      case ReplyLost(h) =>
        AfterHandler(s, h, NoReply).(lossy := s.lossy || (h in s.requests && WasRecorded(s.requests[h].travel)))
      case TimerFires => s.(entry := Some(Expired(s.entry.value).(timer := Fired)))
      case ExpireOwed(h) =>
        s.(entry := if s.entry.Some? then Some(Expired(s.entry.value)) else None, handlers := s.handlers[h := Finished])
      case Prune => s.(entry := None)
      case RunTakes(timeout) => s.(delivery := if timeout then TimedOut else Delivered(s.gate.done.value))
      case RunRemoves => s.(live := false)
  }

  function Run(w: World, now: int, events: seq<Event>): System {
    if events == [] then Start(now)
    else Step(w, Run(w, now, events[..|events| - 1]), events[|events| - 1])
  }

  // --- What holds in every reachable state ---

  predicate Owes(s: System, h: nat) {
    h in s.handlers && s.handlers[h] == OwesExpire
  }

  predicate IsDeciding(s: System) {
    s.entry.Some? && s.entry.value.phase == Deciding
  }

  /** At most one handler waits for a reply, and one does exactly while the entry is being decided. */
  ghost predicate OneInFlight(s: System) {
    && (forall h, k :: IsAwaiting(s, h) && IsAwaiting(s, k) ==> h == k)
    && (IsDeciding(s) <==> exists h :: IsAwaiting(s, h))
  }

  ghost predicate ClickOk(w: World, s: System, c: Click) {
    && c.approvalID == w.d.approvalID
    && c.user in w.identities
    && (w.d.approvers != [] ==> w.identities[c.user] in w.d.approvers)
    && c.verb in w.d.offers
    && (c.user, c.verb) in s.clicked
    && (c.verb == Adjust ==> c.adjustText != "")
  }

  /** The gate may count this identity, and the dispatch shown is the one the gate staged. */
  predicate MayCount(w: World, identity: Identity) {
    && (w.pending.permitted != {} ==> identity in w.pending.permitted)
    && w.d.nonce == w.pending.nonce
    && w.d.payloadHash == w.pending.payloadHash
  }

  /** Every request was a click; an approval that was recorded has its identity among the seen. */
  ghost predicate RequestsOk(w: World, s: System) {
    forall h :: h in s.requests ==> RequestOk(w, s, s.requests[h])
  }

  ghost predicate RequestOk(w: World, s: System, r: Request) {
    && ClickOk(w, s, r.c)
    && (r.travel.Verified? ==> MayCount(w, w.identities[r.c.user]))
    && (WasRecorded(r.travel) && r.c.verb == Approve ==> w.identities[r.c.user] in s.gate.seen)
  }

  /** A waiting handler waits for its own request, and its approval is not counted yet. */
  ghost predicate AwaitingOk(s: System) {
    forall h :: IsAwaiting(s, h) ==>
      && h in s.requests && s.requests[h].c == s.handlers[h].c
      && s.entry.Some?
      && (s.handlers[h].c.verb == Approve ==> s.handlers[h].c.user !in s.entry.value.approved)
  }

  predicate NoDuplicates<T(==)>(xs: seq<T>) {
    forall i, j :: 0 <= i < j < |xs| ==> xs[i] != xs[j]
  }

  /** The recorded approvers are distinct configured Slack users whose identities the gate has seen. */
  ghost predicate ApprovedOk(w: World, s: System) {
    s.entry.Some? ==>
      && s.entry.value.d == w.d && s.entry.value.expires == w.expires
      && NoDuplicates(s.entry.value.approved)
      && forall u :: u in s.entry.value.approved ==> u in w.identities && w.identities[u] in s.gate.seen
  }

  /**
   Once the expiry timer has fired no message keeps its buttons, unless a handler
   still owes the call that takes them.
   */
  ghost predicate TimerOk(w: World, s: System) {
    && (forall h :: Owes(s, h) ==> s.now >= w.expires)
    && (s.entry.Some? ==>
          var a := s.entry.value;
          && (a.phase == Posting ==> a.timer == NoTimer)
          && (a.phase == Open || a.phase == Deciding ==> a.timer == Armed || a.timer == Fired)
          && (a.timer == Fired ==> s.now >= a.expires)
          && (a.timer == Fired && a.phase == Open ==> exists h :: Owes(s, h)))
  }

  ghost predicate ClickedApprove(w: World, s: System, identity: Identity) {
    exists u :: (u, Approve) in s.clicked && u in w.identities && w.identities[u] == identity
  }

  /** Every identity the gate has counted belongs to someone who pressed Approve. */
  ghost predicate GateOk(w: World, s: System) {
    && (forall identity :: identity in s.gate.seen ==> ClickedApprove(w, s, identity) && MayCount(w, identity))
    && (s.gate.done.Some? && s.gate.done.value.action == Gate.Approved ==> |s.gate.seen| >= w.need)
    && (s.delivery.Delivered? ==> s.gate.done == Some(s.delivery.decision))
    && (!s.live ==> s.delivery != Waiting)
  }

  ghost predicate Inv(w: World, s: System) {
    && OneInFlight(s)
    && RequestsOk(w, s)
    && AwaitingOk(s)
    && ApprovedOk(w, s)
    && TimerOk(w, s)
    && GateOk(w, s)
  }

  predicate ValidWorld(w: World) {
    w.need >= 1 && OtherVerb !in w.d.offers
  }

  // --- Each event keeps it ---

  lemma RefusedClickKeeps(w: World, s: System, h: nat, c: Click)
    requires Inv(w, s) && Enabled(w, s, Clicked(h, c))
    requires !(s.entry.Some? && Decides(s.entry.value, c, w.identities))
    ensures Inv(w, Step(w, s, Clicked(h, c)))
  {
    var t := Step(w, s, Clicked(h, c));
    assert forall k :: IsAwaiting(s, k) <==> IsAwaiting(t, k);
    assert forall k :: Owes(s, k) <==> Owes(t, k);
    assert forall identity :: ClickedApprove(w, s, identity) ==> ClickedApprove(w, t, identity);
  }

  lemma DecidingClickKeeps(w: World, s: System, h: nat, c: Click)
    requires Inv(w, s) && Enabled(w, s, Clicked(h, c))
    requires s.entry.Some? && Decides(s.entry.value, c, w.identities)
    ensures Inv(w, Step(w, s, Clicked(h, c)))
  {
    var t := Step(w, s, Clicked(h, c));
    assert forall k :: !IsAwaiting(s, k);
    assert forall k :: k != h ==> (IsAwaiting(t, k) <==> IsAwaiting(s, k));
    assert forall k :: Owes(s, k) <==> Owes(t, k);
    assert IsAwaiting(t, h) && IsDeciding(t);
    assert OneInFlight(t);
    forall k | k in t.requests
      ensures ClickOk(w, t, t.requests[k].c)
    {
      assert k != h ==> t.requests[k] == s.requests[k];
    }
    assert RequestsOk(w, t);
    assert AwaitingOk(t);
    assert TimerOk(w, t);
    forall identity | ClickedApprove(w, s, identity)
      ensures ClickedApprove(w, t, identity)
    {
      var u :| (u, Approve) in s.clicked && u in w.identities && w.identities[u] == identity;
      assert (u, Approve) in t.clicked;
    }
  }

  lemma GateFindsKeeps(w: World, s: System, h: nat)
    requires Inv(w, s) && Enabled(w, s, GateFinds(h))
    ensures Inv(w, Step(w, s, GateFinds(h)))
  {
    var t := Step(w, s, GateFinds(h));
    assert forall k :: IsAwaiting(s, k) <==> IsAwaiting(t, k);
    assert forall k :: Owes(s, k) <==> Owes(t, k);
    assert forall identity :: ClickedApprove(w, s, identity) ==> ClickedApprove(w, t, identity);
  }

  lemma GateChecksKeeps(w: World, s: System, h: nat)
    requires Inv(w, s) && Enabled(w, s, GateChecks(h))
    ensures Inv(w, Step(w, s, GateChecks(h)))
  {
    var t := Step(w, s, GateChecks(h));
    assert forall k :: IsAwaiting(s, k) <==> IsAwaiting(t, k);
    assert forall k :: Owes(s, k) <==> Owes(t, k);
    assert forall identity :: ClickedApprove(w, s, identity) ==> ClickedApprove(w, t, identity);
  }

  lemma GateRecordsKeepsGate(w: World, s: System, h: nat)
    requires ValidWorld(w) && RequestsOk(w, s) && GateOk(w, s) && Enabled(w, s, GateRecords(h))
    ensures RequestsOk(w, AfterRecord(w, s, h)) && GateOk(w, AfterRecord(w, s, h))
  {
    var t := AfterRecord(w, s, h);
    var identity := w.identities[s.requests[h].c.user];
    assert s.gate.seen <= t.gate.seen <= s.gate.seen + {identity};
    assert forall identity :: ClickedApprove(w, s, identity) ==> ClickedApprove(w, t, identity);
  }

  lemma GateRecordsKeeps(w: World, s: System, h: nat)
    requires ValidWorld(w) && Inv(w, s) && Enabled(w, s, GateRecords(h))
    ensures Inv(w, Step(w, s, GateRecords(h)))
  {
    var t := Step(w, s, GateRecords(h));
    GateRecordsKeepsGate(w, s, h);
    assert forall k :: IsAwaiting(s, k) <==> IsAwaiting(t, k);
    assert forall k :: Owes(s, k) <==> Owes(t, k);
  }

  lemma HandlerKeepsApproved(w: World, s: System, h: nat, reply: Reply)
    requires ApprovedOk(w, s) && AwaitingOk(s) && RequestsOk(w, s) && IsAwaiting(s, h)
    requires Accepted2xx(reply) && s.handlers[h].c.verb == Approve ==>
               w.identities[s.handlers[h].c.user] in s.gate.seen
    ensures ApprovedOk(w, AfterHandler(s, h, reply))
  {
    assert ClickOk(w, s, s.requests[h].c);
  }

  lemma HandlerKeepsTimer(w: World, s: System, h: nat, reply: Reply)
    requires TimerOk(w, s) && ApprovedOk(w, s) && IsDeciding(s) && IsAwaiting(s, h)
    ensures TimerOk(w, AfterHandler(s, h, reply))
  {
    var t := AfterHandler(s, h, reply);
    assert forall k :: k != h ==> (Owes(s, k) <==> Owes(t, k));
    if Lapsed(t.entry.value, t.now) {
      assert Owes(t, h);
    }
  }

  lemma HandlerKeeps(w: World, s: System, h: nat, reply: Reply, lossy: bool)
    requires Inv(w, s) && IsAwaiting(s, h)
    requires Accepted2xx(reply) && s.handlers[h].c.verb == Approve ==>
               w.identities[s.handlers[h].c.user] in s.gate.seen
    ensures Inv(w, AfterHandler(s, h, reply).(lossy := lossy))
  {
    var t := AfterHandler(s, h, reply);
    assert IsDeciding(s);
    assert forall k :: IsAwaiting(t, k) ==> IsAwaiting(s, k) && k != h;
    HandlerKeepsApproved(w, s, h, reply);
    HandlerKeepsTimer(w, s, h, reply);
    assert OneInFlight(t) && AwaitingOk(t) && RequestsOk(w, t);
    assert forall identity :: ClickedApprove(w, s, identity) ==> ClickedApprove(w, t, identity);
    assert GateOk(w, t);
    LossyIsHistory(w, t, lossy);
  }

  /** No part of the invariant looks at what was lost. */
  lemma LossyIsHistory(w: World, s: System, lossy: bool)
    requires Inv(w, s)
    ensures Inv(w, s.(lossy := lossy))
  {
    var t := s.(lossy := lossy);
    assert forall k :: IsAwaiting(s, k) <==> IsAwaiting(t, k);
    assert forall k :: Owes(s, k) <==> Owes(t, k);
    assert forall identity :: ClickedApprove(w, s, identity) ==> ClickedApprove(w, t, identity);
  }

  lemma TimerKeeps(w: World, s: System)
    requires Inv(w, s) && Enabled(w, s, TimerFires)
    ensures Inv(w, Step(w, s, TimerFires))
  {
    var t := Step(w, s, TimerFires);
    assert forall k :: IsAwaiting(s, k) <==> IsAwaiting(t, k);
    assert forall k :: Owes(s, k) <==> Owes(t, k);
    assert forall identity :: ClickedApprove(w, s, identity) ==> ClickedApprove(w, t, identity);
  }

  lemma ExpireOwedKeeps(w: World, s: System, h: nat)
    requires Inv(w, s) && Enabled(w, s, ExpireOwed(h))
    ensures Inv(w, Step(w, s, ExpireOwed(h)))
  {
    var t := Step(w, s, ExpireOwed(h));
    assert forall k :: IsAwaiting(s, k) <==> IsAwaiting(t, k);
    assert forall k :: k != h ==> (Owes(s, k) <==> Owes(t, k));
    assert Owes(s, h);
    assert forall identity :: ClickedApprove(w, s, identity) ==> ClickedApprove(w, t, identity);
  }

  lemma NewEntryKeeps(w: World, s: System, e: Event)
    requires Inv(w, s) && Enabled(w, s, e) && (e == Reserve || e.Posted?)
    ensures Inv(w, Step(w, s, e))
  {
    var t := Step(w, s, e);
    assert forall k :: IsAwaiting(s, k) <==> IsAwaiting(t, k);
    assert forall k :: Owes(s, k) <==> Owes(t, k);
    assert forall identity :: ClickedApprove(w, s, identity) ==> ClickedApprove(w, t, identity);
  }

  lemma DroppedEntryKeeps(w: World, s: System, e: Event)
    requires Inv(w, s) && Enabled(w, s, e) && (e == PostRefused || e == Prune)
    ensures Inv(w, Step(w, s, e))
  {
    var t := Step(w, s, e);
    assert forall k :: IsAwaiting(s, k) <==> IsAwaiting(t, k);
    assert forall k :: Owes(s, k) <==> Owes(t, k);
    assert forall identity :: ClickedApprove(w, s, identity) ==> ClickedApprove(w, t, identity);
  }

  lemma TickOrRunKeeps(w: World, s: System, t: System)
    requires Inv(w, s) && t.now >= s.now && t == s.(now := t.now, delivery := t.delivery, live := t.live)
    requires t.delivery.Delivered? ==> t.gate.done == Some(t.delivery.decision)
    requires !t.live ==> t.delivery != Waiting
    ensures Inv(w, t)
  {
    assert forall k :: IsAwaiting(s, k) <==> IsAwaiting(t, k);
    assert forall k :: Owes(s, k) <==> Owes(t, k);
    assert forall identity :: ClickedApprove(w, s, identity) ==> ClickedApprove(w, t, identity);
  }

  lemma StepKeepsInv(w: World, s: System, e: Event)
    requires ValidWorld(w) && Inv(w, s)
    ensures Inv(w, Step(w, s, e))
  {
    if Enabled(w, s, e) {
      match e
      case Clicked(h, c) =>
        if s.entry.Some? && Decides(s.entry.value, c, w.identities) {
          DecidingClickKeeps(w, s, h, c);
        } else {
          RefusedClickKeeps(w, s, h, c);
        }
      case GateFinds(h) => GateFindsKeeps(w, s, h);
      case GateChecks(h) => GateChecksKeeps(w, s, h);
      case GateRecords(h) => GateRecordsKeeps(w, s, h);
      case ReplyArrives(h, readable) =>
        var answer := s.requests[h].travel.answer;
        HandlerKeeps(w, s, h, ReplyOf(answer, readable), s.lossy || (answer.Recorded? && !readable));
      case ReplyLost(h) => HandlerKeeps(w, s, h, NoReply, Step(w, s, e).lossy);
      case TimerFires => TimerKeeps(w, s);
      case ExpireOwed(h) => ExpireOwedKeeps(w, s, h);
      case Tick(_) => TickOrRunKeeps(w, s, Step(w, s, e));
      case RunTakes(_) => TickOrRunKeeps(w, s, Step(w, s, e));
      case RunRemoves => TickOrRunKeeps(w, s, Step(w, s, e));
      case Reserve => NewEntryKeeps(w, s, e);
      case Posted(_, _) => NewEntryKeeps(w, s, e);
      case _ => DroppedEntryKeeps(w, s, e);
    }
  }

  lemma {:induction false} InvHolds(w: World, now: int, events: seq<Event>)
    requires ValidWorld(w)
    ensures Inv(w, Run(w, now, events))
  {
    if events == [] {
      assert forall h :: !IsAwaiting(Start(now), h);
    } else {
      InvHolds(w, now, events[..|events| - 1]);
      StepKeepsInv(w, Run(w, now, events[..|events| - 1]), events[|events| - 1]);
    }
  }

  // --- What follows for every run ---

  lemma {:induction false} Covered(users: set<User>, identities: map<User, Identity>, seen: set<Identity>)
    requires users <= identities.Keys
    requires forall identity :: identity in seen ==> exists u :: u in users && identities[u] == identity
    ensures |seen| <= |users|
    decreases users
  {
    if users != {} {
      var u :| u in users;
      Covered(users - {u}, identities, seen - {identities[u]});
    }
  }

  /** The people who pressed Approve and whose identity the gate may count. */
  function ApprovingPeople(w: World, s: System): set<User> {
    set u | u in w.identities && (u, Approve) in s.clicked && MayCount(w, w.identities[u])
  }

  /**
   A run gets an approval only when at least the required number of different
   people pressed Approve on the very payload the gate staged, each of them
   permitted to decide it.
   */
  lemma DeliveredApproval(w: World, now: int, events: seq<Event>)
    requires ValidWorld(w)
    ensures var s := Run(w, now, events);
            s.delivery.Delivered? && s.delivery.decision.action == Gate.Approved ==>
              |ApprovingPeople(w, s)| >= w.need
  {
    InvHolds(w, now, events);
    var s := Run(w, now, events);
    forall identity | identity in s.gate.seen
      ensures exists u :: u in ApprovingPeople(w, s) && w.identities[u] == identity
    {
      assert ClickedApprove(w, s, identity);
      var u :| (u, Approve) in s.clicked && u in w.identities && w.identities[u] == identity;
      assert u in ApprovingPeople(w, s);
    }
    Covered(ApprovingPeople(w, s), w.identities, s.gate.seen);
  }

  /** When the timer has fired and no handler is busy with the approval, its message has no buttons. */
  lemma QuietAfterExpiry(w: World, now: int, events: seq<Event>)
    requires ValidWorld(w)
    ensures var s := Run(w, now, events);
            s.entry.Some? && s.entry.value.timer == Fired && (forall h :: !IsAwaiting(s, h) && !Owes(s, h)) ==>
              s.entry.value.phase == Closed
  {
    InvHolds(w, now, events);
  }

  /** Closed for good: the same approval, outcome and approvers, until the entry is forgotten after its expiry. */
  predicate StillClosed(w: World, s: System, a: Approval) {
    match s.entry
    case Some(b) => b == a.(timer := b.timer)
    case None => s.now >= w.expires
  }

  lemma ClosedStep(w: World, s: System, e: Event, a: Approval)
    requires OneInFlight(s) && ClosedHere(w, a) && StillClosed(w, s, a)
    ensures StillClosed(w, Step(w, s, e), a)
  {
    if s.entry.Some? {
      assert !IsDeciding(s);
      assert forall h :: !IsAwaiting(s, h);
      match e
      case ReplyArrives(h, _) => assert !IsAwaiting(s, h);
      case ReplyLost(h) => assert !IsAwaiting(s, h);
      case _ =>
    }
  }

  lemma RunAppend(w: World, now: int, events: seq<Event>, e: Event)
    ensures Run(w, now, events + [e]) == Step(w, Run(w, now, events), e)
  {
    assert (events + [e])[..|events|] == events;
  }

  /** A closed entry of this dispatch. */
  predicate ClosedHere(w: World, a: Approval) {
    a.phase == Closed && a.expires == w.expires
  }

  lemma ClosedMore(w: World, now: int, before: seq<Event>, e: Event, a: Approval)
    requires ValidWorld(w) && ClosedHere(w, a) && StillClosed(w, Run(w, now, before), a)
    ensures StillClosed(w, Run(w, now, before + [e]), a)
  {
    InvHolds(w, now, before);
    ClosedStep(w, Run(w, now, before), e, a);
    RunAppend(w, now, before, e);
  }

  lemma {:induction false} ClosedStays(w: World, now: int, events: seq<Event>, more: seq<Event>, a: Approval)
    requires ValidWorld(w) && ClosedHere(w, a) && StillClosed(w, Run(w, now, events), a)
    ensures StillClosed(w, Run(w, now, events + more), a)
    decreases |more|
  {
    if more == [] {
      assert events + more == events;
    } else {
      var k := |more| - 1;
      ClosedStays(w, now, events, more[..k], a);
      ClosedMore(w, now, events + more[..k], more[k], a);
      assert events + more == events + more[..k] + [more[k]];
    }
  }

  /** No later click, reply or timer reopens a closed approval or changes what it shows. */
  lemma ClosedIsAbsorbing(w: World, now: int, events: seq<Event>, more: seq<Event>, a: Approval)
    requires ValidWorld(w)
    requires Run(w, now, events).entry == Some(a) && a.phase == Closed
    ensures StillClosed(w, Run(w, now, events + more), a)
  {
    InvHolds(w, now, events);
    ClosedStays(w, now, events, more, a);
  }

  predicate Follows(s: System, t: System) {
    && (s.delivery != Waiting ==> t.delivery == s.delivery)
    && (s.gate.done.Some? ==> t.gate.done == s.gate.done)
  }

  lemma FollowsStep(w: World, s: System, e: Event)
    ensures Follows(s, Step(w, s, e))
  {
  }

  /** What the run was given never changes, nor what the gate resolved to. */
  lemma {:induction false} DeliveryIsFinal(w: World, now: int, events: seq<Event>, more: seq<Event>)
    ensures Follows(Run(w, now, events), Run(w, now, events + more))
    decreases |more|
  {
    if more == [] {
      assert events + more == events;
    } else {
      var k := |more| - 1;
      var before := events + more[..k];
      DeliveryIsFinal(w, now, events, more[..k]);
      FollowsStep(w, Run(w, now, before), more[k]);
      RunAppend(w, now, before, more[k]);
      assert events + more == before + [more[k]];
    }
  }

  // --- What the message shows is what happened, if no reply of a recorded decision was lost ---

  function IdentitiesOf(w: World, users: seq<User>): set<Identity> {
    set u | u in users && u in w.identities :: w.identities[u]
  }

  predicate Gave(g: Gate.GateState, action: Gate.Action) {
    g.done.Some? && g.done.value.action == action
  }

  predicate Did(g: Gate.GateState, v: Verb) {
    match v
    case Approve => Gave(g, Gate.Approved)
    case Skip => Gave(g, Gate.Skipped)
    case Adjust => Gave(g, Gate.Adjusted)
    case OtherVerb => false
  }

  /** The status line of a closed message, read as a claim about the gate. */
  predicate ShownIsTrue(w: World, s: System, shown: Shown) {
    match shown
    case Nothing => false
    case ShowsApproved(users) => Gave(s.gate, Gate.Approved) && s.gate.seen == IdentitiesOf(w, users)
    case ShowsSkipped(_) => Gave(s.gate, Gate.Skipped)
    case ShowsAdjust(_) => Gave(s.gate, Gate.Adjusted)
    case ShowsAlreadyResolved => s.delivery != Waiting
    case ShowsExpiredAtGate => s.gate.done == None
    case ShowsExpired => s.gate.done == None && s.now >= w.expires
  }

  /** The gate has decided nothing, and counted exactly these people. */
  predicate OpenFor(w: World, g: Gate.GateState, users: seq<User>) {
    g.done == None && g.seen == IdentitiesOf(w, users)
  }

  /** A decision under way: not counted yet, or counted and answered, with the gate as the answer says. */
  predicate RequestTold(w: World, g: Gate.GateState, taken: bool, r: Request, approved: seq<User>) {
    match r.travel
    case Answered(Recorded(resolved)) =>
      && (resolved ==> Did(g, r.c.verb))
      && (!resolved ==> r.c.verb == Approve && g.done == None)
      && g.seen == IdentitiesOf(w, if r.c.verb == Approve then approved + [r.c.user] else approved)
    case Answered(Conflict) => taken && OpenFor(w, g, approved)
    case _ => OpenFor(w, g, approved)
  }

  ghost predicate InFlightTold(w: World, s: System) {
    forall h :: IsAwaiting(s, h) && h in s.requests && s.entry.Some? ==>
      RequestTold(w, s.gate, s.delivery != Waiting, s.requests[h], s.entry.value.approved)
  }

  ghost predicate EntryTold(w: World, s: System) {
    match s.entry
    case None => s.now >= w.expires || OpenFor(w, s.gate, [])
    case Some(a) =>
      match a.phase
      case Posting => a.approved == [] && OpenFor(w, s.gate, [])
      case Open => OpenFor(w, s.gate, a.approved)
      case Deciding => true
      case Closed => ShownIsTrue(w, s, a.outcome)
  }

  ghost predicate Told(w: World, s: System) {
    !s.lossy ==> InFlightTold(w, s) && EntryTold(w, s)
  }

  lemma ClickTold(w: World, s: System, h: nat, c: Click)
    requires Inv(w, s) && Told(w, s) && Enabled(w, s, Clicked(h, c))
    ensures Told(w, Step(w, s, Clicked(h, c)))
  {
    if s.entry.Some? && Decides(s.entry.value, c, w.identities) {
      DecidingClickTold(w, s, h, c);
    } else {
      RefusedClickTold(w, s, h, c);
    }
  }

  lemma RefusedClickTold(w: World, s: System, h: nat, c: Click)
    requires Told(w, s) && Enabled(w, s, Clicked(h, c))
    requires !(s.entry.Some? && Decides(s.entry.value, c, w.identities))
    ensures Told(w, Step(w, s, Clicked(h, c)))
  {
    var t := Step(w, s, Clicked(h, c));
    assert t == s.(handlers := t.handlers);
    assert forall k :: IsAwaiting(s, k) <==> IsAwaiting(t, k);
  }

  lemma DecidingClickTold(w: World, s: System, h: nat, c: Click)
    requires OneInFlight(s) && Told(w, s) && Enabled(w, s, Clicked(h, c))
    requires s.entry.Some? && Decides(s.entry.value, c, w.identities)
    ensures Told(w, Step(w, s, Clicked(h, c)))
  {
    var t := Step(w, s, Clicked(h, c));
    assert !IsDeciding(s) && forall k :: !IsAwaiting(s, k);
    assert forall k :: IsAwaiting(t, k) ==> IsAwaiting(s, k) || k == h;
    assert t.requests[h] == Request(c, Sent);
  }

  lemma GateFindsTold(w: World, s: System, h: nat)
    requires Inv(w, s) && Told(w, s) && Enabled(w, s, GateFinds(h))
    ensures Told(w, Step(w, s, GateFinds(h)))
  {
    var t := Step(w, s, GateFinds(h));
    assert forall k :: IsAwaiting(s, k) <==> IsAwaiting(t, k);
  }

  lemma GateChecksTold(w: World, s: System, h: nat)
    requires Inv(w, s) && Told(w, s) && Enabled(w, s, GateChecks(h))
    ensures Told(w, Step(w, s, GateChecks(h)))
  {
    var t := Step(w, s, GateChecks(h));
    assert forall k :: IsAwaiting(s, k) <==> IsAwaiting(t, k);
  }

  lemma IdentitiesAppend(w: World, users: seq<User>, u: User)
    requires u in w.identities
    ensures IdentitiesOf(w, users + [u]) == IdentitiesOf(w, users) + {w.identities[u]}
  {
    assert forall x :: x in users + [u] <==> x in users || x == u;
  }

  /** The gate records a decision that was not counted yet. */
  lemma RecordingTold(w: World, g: Gate.GateState, taken: bool, c: Click, op: int, approved: seq<User>)
    requires ValidWorld(w) && c.user in w.identities && c.verb != OtherVerb && OpenFor(w, g, approved)
    ensures var (next, resolved) := Gate.Apply(g, w.need, AcceptedFor(w, c, op));
            RequestTold(w, next, taken, Request(c, Answered(Gate.Recorded(resolved))), approved)
  {
    IdentitiesAppend(w, approved, c.user);
  }

  lemma GateRecordsTold(w: World, s: System, h: nat)
    requires ValidWorld(w) && Inv(w, s) && Told(w, s) && Enabled(w, s, GateRecords(h))
    ensures Told(w, Step(w, s, GateRecords(h)))
  {
    var t := Step(w, s, GateRecords(h));
    if !t.lossy {
      assert IsAwaiting(s, h);
      assert IsDeciding(s) && RequestOk(w, s, s.requests[h]);
      assert forall k :: IsAwaiting(t, k) ==> IsAwaiting(s, k);
      assert forall k :: IsAwaiting(s, k) && IsAwaiting(s, h) ==> k == h;
      var r := s.requests[h];
      RecordingTold(w, s.gate, s.delivery != Waiting, r.c, r.travel.op, s.entry.value.approved);
    }
  }

  lemma ReplyTold(w: World, s: System, h: nat, readable: bool)
    requires ValidWorld(w) && Inv(w, s) && Told(w, s) && Enabled(w, s, ReplyArrives(h, readable))
    ensures Told(w, Step(w, s, ReplyArrives(h, readable)))
  {
    var t := Step(w, s, ReplyArrives(h, readable));
    if !t.lossy {
      assert IsAwaiting(s, h);
      assert forall k :: IsAwaiting(t, k) ==> IsAwaiting(s, k) && k != h;
      assert IsDeciding(s);
    }
  }

  lemma LossTold(w: World, s: System, h: nat)
    requires Inv(w, s) && Told(w, s) && Enabled(w, s, ReplyLost(h))
    ensures Told(w, Step(w, s, ReplyLost(h)))
  {
    var t := Step(w, s, ReplyLost(h));
    if !t.lossy {
      assert IsAwaiting(s, h);
      assert forall k :: IsAwaiting(t, k) ==> IsAwaiting(s, k) && k != h;
      assert IsDeciding(s);
    }
  }

  lemma ExpiryTold(w: World, s: System, e: Event)
    requires Inv(w, s) && Told(w, s) && (e == TimerFires || e.ExpireOwed?)
    requires s.entry.Some? ==> s.entry.value.phase != Open || s.now >= w.expires
    ensures Told(w, Step(w, s, e))
  {
    var t := Step(w, s, e);
    assert forall k :: IsAwaiting(s, k) <==> IsAwaiting(t, k);
  }

  lemma EntryEventTold(w: World, s: System, e: Event)
    requires Inv(w, s) && Told(w, s) && Enabled(w, s, e)
    requires e == Reserve || e.Posted? || e == PostRefused || e == Prune
    ensures Told(w, Step(w, s, e))
  {
    var t := Step(w, s, e);
    assert forall k :: IsAwaiting(s, k) <==> IsAwaiting(t, k);
  }

  /** Neither the clock nor the waiting run touches the relay or the gate. */
  lemma TickOrRunTold(w: World, s: System, t: System)
    requires Told(w, s) && (s.delivery != Waiting ==> t.delivery != Waiting) && t.now >= s.now
    requires t == s.(now := t.now, delivery := t.delivery, live := t.live)
    ensures Told(w, t)
  {
    assert forall k :: IsAwaiting(s, k) <==> IsAwaiting(t, k);
  }

  lemma StepKeepsTold(w: World, s: System, e: Event)
    requires ValidWorld(w) && Inv(w, s) && Told(w, s)
    ensures Told(w, Step(w, s, e))
  {
    if Enabled(w, s, e) {
      match e
      case Clicked(h, c) => ClickTold(w, s, h, c);
      case GateFinds(h) => GateFindsTold(w, s, h);
      case GateChecks(h) => GateChecksTold(w, s, h);
      case GateRecords(h) => GateRecordsTold(w, s, h);
      case ReplyArrives(h, readable) => ReplyTold(w, s, h, readable);
      case ReplyLost(h) => LossTold(w, s, h);
      case TimerFires => ExpiryTold(w, s, e);
      case ExpireOwed(h) =>
        assert Owes(s, h);
        ExpiryTold(w, s, e);
      case Tick(_) => TickOrRunTold(w, s, Step(w, s, e));
      case RunTakes(_) => TickOrRunTold(w, s, Step(w, s, e));
      case RunRemoves => TickOrRunTold(w, s, Step(w, s, e));
      case _ => EntryEventTold(w, s, e);
    }
  }

  lemma {:induction false} ToldHolds(w: World, now: int, events: seq<Event>)
    requires ValidWorld(w)
    ensures Told(w, Run(w, now, events))
  {
    if events != [] {
      var before := events[..|events| - 1];
      ToldHolds(w, now, before);
      InvHolds(w, now, before);
      StepKeepsTold(w, Run(w, now, before), events[|events| - 1]);
    }
  }

  /**
   As long as every decision that the gate recorded came back readable, a closed
   message tells the truth, whatever else was lost: it shows the approval, skip
   or adjustment the gate resolved to, with exactly the people it counted, or an
   expiry that the gate does not contradict.
   */
  lemma ShownIsWhatHappened(w: World, now: int, events: seq<Event>)
    requires ValidWorld(w)
    ensures var s := Run(w, now, events);
            !s.lossy && s.entry.Some? && s.entry.value.phase == Closed ==> ShownIsTrue(w, s, s.entry.value.outcome)
  {
    ToldHolds(w, now, events);
  }

  /**
   And it follows the gate: after the reply to a decision the message is closed
   if and only if the gate has resolved, or answered that it is gone or expired;
   an approval that did not resolve it is counted and leaves the message open.
   */
  lemma ReplyFollowsGate(w: World, now: int, events: seq<Event>, h: nat)
    requires ValidWorld(w) && Enabled(w, Run(w, now, events), ReplyArrives(h, true)) && !Run(w, now, events).lossy
    ensures var s := Run(w, now, events);
            var t, answer := Step(w, s, ReplyArrives(h, true)), s.requests[h].travel.answer;
            && t.entry.Some?
            && (t.entry.value.phase == Closed <==> s.gate.done.Some? || answer == Gate.Conflict || answer == Gate.Gone)
            && (t.entry.value.phase != Closed ==> t.entry.value.phase == Open)
            && (answer == Gate.Recorded(false) ==> t.entry.value.approved == s.entry.value.approved + [s.handlers[h].c.user])
            && (answer == Gate.Forbidden ==> t.entry.value.approved == s.entry.value.approved)
  {
    ToldHolds(w, now, events);
    InvHolds(w, now, events);
    var s := Run(w, now, events);
    assert IsAwaiting(s, h);
    assert RequestTold(w, s.gate, s.delivery != Waiting, s.requests[h], s.entry.value.approved);
    assert RequestOk(w, s, s.requests[h]);
  }

  /**
   A click sends a decision if and only if its message is open and nobody else's
   decision is on its way, it comes from that message, by a configured user the
   dispatch names, with a verb it offers, and is neither a second approval nor an
   adjustment without words. Any other click changes nothing.
   */
  lemma ClickDecidesIff(w: World, now: int, events: seq<Event>, h: nat, c: Click)
    requires ValidWorld(w) && Enabled(w, Run(w, now, events), Clicked(h, c))
    ensures var s := Run(w, now, events);
            var t := Step(w, s, Clicked(h, c));
            && (h in t.requests <==>
                  && s.entry.Some? && s.entry.value.phase != Posting && s.entry.value.phase != Closed
                  && (forall k :: !IsAwaiting(s, k))
                  && (c.channel, c.ts) == (s.entry.value.channel, s.entry.value.ts)
                  && c.user in w.identities && (w.d.approvers == [] || w.identities[c.user] in w.d.approvers)
                  && c.verb in w.d.offers
                  && (c.verb == Approve ==> c.user !in s.entry.value.approved)
                  && (c.verb == Adjust ==> |c.adjustText| > 0))
            && (h !in t.requests ==> t.entry == s.entry && t.requests == s.requests && t.gate == s.gate)
  {
    InvHolds(w, now, events);
    var s := Run(w, now, events);
    assert IsDeciding(s) <==> exists k :: IsAwaiting(s, k);
  }

  // --- And what can happen when a reply is lost ---

  /** A click that decides, passes the gate's checks and is recorded, with nothing else in between. */
  function Recorded(w: World, s: System, h: nat, c: Click): System {
    Step(w, Step(w, Step(w, Step(w, s, Clicked(h, c)), GateFinds(h)), GateChecks(h)), GateRecords(h))
  }

  predicate Passes(w: World, s: System, h: nat, c: Click, op: int) {
    && Enabled(w, s, Clicked(h, c)) && s.live
    && s.entry.Some? && Decides(s.entry.value, c, w.identities)
    && Gate.Verify(Envelope(w, c), w.pending, s.now) == None
    && Gate.OperatorFor(w.operators, w.identities[c.user]) == Some(op)
  }

  /** A deciding click whose request has come this far. */
  function Sending(s: System, h: nat, c: Click, travel: Travel): System
    requires s.entry.Some?
  {
    s.(entry := Some(s.entry.value.(phase := Deciding)), handlers := s.handlers[h := Awaiting(c)],
       requests := s.requests[h := Request(c, travel)], clicked := s.clicked + {(c.user, c.verb)})
  }

  lemma SendingFound(w: World, s: System, h: nat, c: Click)
    requires s.entry.Some? && s.live
    ensures Step(w, Sending(s, h, c, Sent), GateFinds(h)) == Sending(s, h, c, Found)
  {
    assert Step(w, Sending(s, h, c, Sent), GateFinds(h)).requests == s.requests[h := Request(c, Found)];
  }

  lemma SendingVerified(w: World, s: System, h: nat, c: Click, op: int)
    requires s.entry.Some? && c.user in w.identities
    requires Gate.Verify(Envelope(w, c), w.pending, s.now) == None
    requires Gate.OperatorFor(w.operators, w.identities[c.user]) == Some(op)
    ensures Step(w, Sending(s, h, c, Found), GateChecks(h)) == Sending(s, h, c, Verified(op))
  {
    var f := Sending(s, h, c, Found);
    assert Check(w, f, c) == Verified(op);
    assert Step(w, f, GateChecks(h)).requests == s.requests[h := Request(c, Verified(op))];
  }

  lemma SendingRecorded(w: World, s: System, h: nat, c: Click, op: int)
    requires s.entry.Some? && c.user in w.identities
    ensures var (gate, resolved) := Gate.Apply(s.gate, w.need, AcceptedFor(w, c, op));
            Step(w, Sending(s, h, c, Verified(op)), GateRecords(h)) ==
            Sending(s, h, c, Answered(Gate.Recorded(resolved))).(gate := gate)
  {
    var v := Sending(s, h, c, Verified(op));
    var (gate, resolved) := Gate.Apply(s.gate, w.need, AcceptedFor(w, c, op));
    assert IsAwaiting(v, h) && v.requests[h] == Request(c, Verified(op));
    assert AfterRecord(w, v, h).requests == s.requests[h := Request(c, Answered(Gate.Recorded(resolved)))];
  }

  lemma RecordedIs(w: World, s: System, h: nat, c: Click, op: int)
    requires Passes(w, s, h, c, op)
    ensures var (gate, resolved) := Gate.Apply(s.gate, w.need, AcceptedFor(w, c, op));
            Recorded(w, s, h, c) == Sending(s, h, c, Answered(Gate.Recorded(resolved))).(gate := gate)
  {
    assert Step(w, s, Clicked(h, c)) == Sending(s, h, c, Sent);
    SendingFound(w, s, h, c);
    SendingVerified(w, s, h, c, op);
    SendingRecorded(w, s, h, c, op);
  }

  /** The handler of a recorded decision after its reply. */
  lemma SendingEnds(w: World, s: System, h: nat, c: Click, gate: Gate.GateState, resolved: bool, last: Event)
    requires s.entry.Some? && (last == ReplyLost(h) || (last.ReplyArrives? && last.h == h))
    ensures var a := s.entry.value.(phase := Deciding);
            var reply := if last.ReplyLost? then NoReply else ReplyOf(Gate.Recorded(resolved), last.readable);
            var b := AfterReply(a, c, reply);
            Step(w, Sending(s, h, c, Answered(Gate.Recorded(resolved))).(gate := gate), last) ==
            s.(entry := Some(b), handlers := s.handlers[h := if Lapsed(b, s.now) then OwesExpire else Finished],
               requests := s.requests[h := Request(c, Answered(Gate.Recorded(resolved)))], gate := gate,
               clicked := s.clicked + {(c.user, c.verb)},
               lossy := s.lossy || last.ReplyLost? || !last.readable)
  {
    var t := Sending(s, h, c, Answered(Gate.Recorded(resolved))).(gate := gate);
    var reply := if last.ReplyLost? then NoReply else ReplyOf(Gate.Recorded(resolved), last.readable);
    var b := AfterReply(t.entry.value, c, reply);
    assert t.handlers[h] == Awaiting(c) && t.requests[h].travel == Answered(Gate.Recorded(resolved));
    assert AfterHandler(t, h, reply).handlers == s.handlers[h := if Lapsed(b, s.now) then OwesExpire else Finished];
  }

  /** An approval whose reply is lost leaves the message open, whatever it did at the gate. */
  lemma LostReplyReopens(w: World, s: System, h: nat, c: Click, op: int)
    requires Passes(w, s, h, c, op)
    ensures var t := Step(w, Recorded(w, s, h, c), ReplyLost(h));
            && t.entry == s.entry && t.lossy
            && t.gate == Gate.Apply(s.gate, w.need, AcceptedFor(w, c, op)).0
            && t.live == s.live && t.now == s.now && t.delivery == s.delivery
            && (forall k :: k != h && k !in s.handlers && k !in s.requests ==> k !in t.handlers && k !in t.requests)
  {
    RecordedIs(w, s, h, c, op);
    var (gate, resolved) := Gate.Apply(s.gate, w.need, AcceptedFor(w, c, op));
    SendingEnds(w, s, h, c, gate, resolved, ReplyLost(h));
  }

  /** A veto that reaches a gate resolved to something else is shown as if it had decided. */
  lemma LateVetoShown(w: World, s: System, h: nat, c: Click, op: int)
    requires Passes(w, s, h, c, op) && c.verb == Skip && s.gate.done.Some?
    ensures var t := Step(w, Recorded(w, s, h, c), ReplyArrives(h, true));
            && t.entry.Some? && t.entry.value.phase == Closed && t.entry.value.outcome == ShowsSkipped(c.user)
            && t.gate == s.gate && t.delivery == s.delivery
  {
    RecordedIs(w, s, h, c, op);
    var (gate, resolved) := Gate.Apply(s.gate, w.need, AcceptedFor(w, c, op));
    SendingEnds(w, s, h, c, gate, resolved, ReplyArrives(h, true));
  }

  // --- A message lies exactly where such a reply can be lost ---

  /** A closed message that claims of the gate what is not so. */
  predicate Misreports(w: World, s: System) {
    s.entry.Some? && s.entry.value.phase == Closed && !ShownIsTrue(w, s, s.entry.value.outcome)
  }

  ghost predicate CanMisreport(w: World) {
    exists now, events :: Misreports(w, Run(w, now, events))
  }

  ghost predicate CanLose(w: World) {
    exists now, events :: Run(w, now, events).lossy
  }

  /** The relay forwards this click and the gate records it, while neither clock has run out. */
  predicate CanDecide(w: World, c: Click) {
    && c.approvalID == w.d.approvalID
    && c.user in w.identities
    && (w.d.approvers != [] ==> w.identities[c.user] in w.d.approvers)
    && c.verb in w.d.offers
    && (c.verb == Adjust ==> c.adjustText != "")
    && Gate.Verify(Envelope(w, c), w.pending, w.pending.expiresAt) == None
    && Gate.OperatorFor(w.operators, w.identities[c.user]).Some?
  }

  predicate PastChecks(t: Travel) { t.Verified? || WasRecorded(t) }

  /** Whatever was recorded, or lost after that, was such a click. */
  ghost predicate Decidable(w: World, s: System) {
    && (forall h :: h in s.requests ==> RequestDecidable(w, s.requests[h]))
    && (s.lossy ==> SomeoneDecides(w))
  }

  predicate RequestDecidable(w: World, r: Request) {
    PastChecks(r.travel) ==> CanDecide(w, r.c)
  }

  ghost predicate SomeoneDecides(w: World) {
    exists c :: CanDecide(w, c)
  }

  lemma CheckedCanDecide(w: World, s: System, h: nat)
    requires RequestsOk(w, s) && Enabled(w, s, GateChecks(h)) && Check(w, s, s.requests[h].c).Verified?
    ensures CanDecide(w, s.requests[h].c)
  {
    assert RequestOk(w, s, s.requests[h]);
  }

  /** A request gets past the gate's checks only by passing them. */
  lemma GateKeepsDecidable(w: World, s: System, h: nat, e: Event)
    requires RequestsOk(w, s) && Decidable(w, s) && Enabled(w, s, e)
    requires e == GateFinds(h) || e == GateChecks(h) || e == GateRecords(h)
    ensures Decidable(w, Step(w, s, e))
  {
    assert RequestDecidable(w, s.requests[h]);
    if e == GateChecks(h) && Check(w, s, s.requests[h].c).Verified? {
      CheckedCanDecide(w, s, h);
    }
    assert RequestDecidable(w, Step(w, s, e).requests[h]);
  }

  lemma RelayKeepsDecidable(w: World, s: System, e: Event)
    requires Decidable(w, s) && Enabled(w, s, e) && !e.GateFinds? && !e.GateChecks? && !e.GateRecords?
    ensures Decidable(w, Step(w, s, e))
  {
    if (e.ReplyArrives? || e.ReplyLost?) && e.h in s.requests {
      assert RequestDecidable(w, s.requests[e.h]);
    }
  }

  lemma StepKeepsDecidable(w: World, s: System, e: Event)
    requires RequestsOk(w, s) && Decidable(w, s)
    ensures Decidable(w, Step(w, s, e))
  {
    if Enabled(w, s, e) {
      if e.GateFinds? || e.GateChecks? || e.GateRecords? {
        GateKeepsDecidable(w, s, e.h, e);
      } else {
        RelayKeepsDecidable(w, s, e);
      }
    }
  }

  lemma {:induction false} DecidableHolds(w: World, now: int, events: seq<Event>)
    requires ValidWorld(w)
    ensures Decidable(w, Run(w, now, events))
  {
    if events != [] {
      var before := events[..|events| - 1];
      DecidableHolds(w, now, before);
      InvHolds(w, now, before);
      StepKeepsDecidable(w, Run(w, now, before), events[|events| - 1]);
    }
  }

  /** An instant at which neither the relay nor the gate has expired the approval. */
  function InTime(w: World): int {
    if w.expires <= w.pending.expiresAt then w.expires - 1 else w.pending.expiresAt
  }

  function Opening(c: Click): seq<Event> { [Reserve, Posted(c.channel, c.ts)] }

  /** The message is open, and the click of such a person is next. */
  lemma OpeningRun(w: World, c: Click) returns (op: int)
    requires CanDecide(w, c)
    ensures Run(w, InTime(w), Opening(c)) ==
            System(InTime(w), Some(Live(Reservation(w.d, w.expires), c.channel, c.ts)), map[], map[], Gate.NEW_GATE, true,
                   Waiting, {}, false)
    ensures Passes(w, Run(w, InTime(w), Opening(c)), 0, c, op)
  {
    op := Gate.OperatorFor(w.operators, w.identities[c.user]).value;
    RunAppend(w, InTime(w), [], Reserve);
    RunAppend(w, InTime(w), [Reserve], Posted(c.channel, c.ts));
    assert [] + [Reserve] == [Reserve] && [Reserve] + [Posted(c.channel, c.ts)] == Opening(c);
  }

  /** The first decision: an approval of several leaves the gate open, any other resolves it. */
  lemma FirstDecision(w: World, c: Click, op: int)
    requires ValidWorld(w) && CanDecide(w, c)
    ensures var (gate, resolved) := Gate.Apply(Gate.NEW_GATE, w.need, AcceptedFor(w, c, op));
            gate.done == None <==> c.verb == Approve && w.need > 1
  {
    assert {} + {w.identities[c.user]} == {w.identities[c.user]};
    assert |{w.identities[c.user]}| == 1;
  }

  /** An approval that does not complete the quorum, acknowledged without a readable body, is shown as complete. */
  lemma UnreadableShowsApproved(w: World, c: Click)
    requires ValidWorld(w) && CanDecide(w, c) && c.verb == Approve && w.need > 1
    ensures var s := Run(w, InTime(w), Opening(c) + Handled(0, c, ReplyArrives(0, false)));
            s.lossy && Misreports(w, s)
  {
    var op := OpeningRun(w, c);
    RunHandled(w, InTime(w), Opening(c), 0, c, ReplyArrives(0, false));
    FirstDecision(w, c, op);
    UnreadableCloses(w, Run(w, InTime(w), Opening(c)), 0, c, op);
  }

  lemma UnreadableCloses(w: World, s: System, h: nat, c: Click, op: int)
    requires Passes(w, s, h, c, op) && c.verb == Approve
    ensures var t := Step(w, Recorded(w, s, h, c), ReplyArrives(h, false));
            && t.lossy && t.gate == Gate.Apply(s.gate, w.need, AcceptedFor(w, c, op)).0
            && t.entry.Some? && t.entry.value.phase == Closed && t.entry.value.outcome.ShowsApproved?
  {
    RecordedIs(w, s, h, c, op);
    var (gate, resolved) := Gate.Apply(s.gate, w.need, AcceptedFor(w, c, op));
    SendingEnds(w, s, h, c, gate, resolved, ReplyArrives(h, false));
  }

  /** The timer closes an open message, and what it then shows is false of a gate that has decided. */
  lemma TimerShows(w: World, now: int, before: seq<Event>, s: System) returns (events: seq<Event>)
    requires s == Run(w, now, before) && s.gate.done.Some?
    requires s.entry.Some? && s.entry.value.phase == Open && s.entry.value.timer == Armed
    requires s.entry.value.expires == w.expires && s.now < w.expires
    ensures Run(w, now, events).lossy == s.lossy && Misreports(w, Run(w, now, events))
  {
    var tick := Tick(w.expires - s.now);
    RunAppend(w, now, before, tick);
    RunAppend(w, now, before + [tick], TimerFires);
    events := before + [tick] + [TimerFires];
    var late := s.(now := w.expires);
    assert Step(w, s, tick) == late;
    assert Step(w, late, TimerFires) == late.(entry := Some(Expired(s.entry.value).(timer := Fired)));
  }

  /** A decision that resolves the gate, its reply lost. */
  lemma LostDecision(w: World, c: Click)
    requires ValidWorld(w) && CanDecide(w, c) && (c.verb != Approve || w.need == 1)
    ensures var s := Run(w, InTime(w), Opening(c) + Handled(0, c, ReplyLost(0)));
            && s.lossy && s.gate.done.Some? && s.now == InTime(w)
            && s.entry == Some(Live(Reservation(w.d, w.expires), c.channel, c.ts))
  {
    var op := OpeningRun(w, c);
    RunHandled(w, InTime(w), Opening(c), 0, c, ReplyLost(0));
    LostReplyReopens(w, Run(w, InTime(w), Opening(c)), 0, c, op);
    FirstDecision(w, c, op);
  }

  /** It is shown as expired when the timer fires. */
  lemma LostShowsExpired(w: World, c: Click) returns (events: seq<Event>)
    requires ValidWorld(w) && CanDecide(w, c) && (c.verb != Approve || w.need == 1)
    ensures Run(w, InTime(w), events).lossy && Misreports(w, Run(w, InTime(w), events))
  {
    var lost := Opening(c) + Handled(0, c, ReplyLost(0));
    LostDecision(w, c);
    events := TimerShows(w, InTime(w), lost, Run(w, InTime(w), lost));
  }

  /**
   For every approval: some run ends with a message that is not true if and only
   if some run loses the reply of a recorded decision, and that is so exactly
   when there is anyone whose decision the relay forwards and the gate records.
   */
  lemma MisreportsIffLossy(w: World)
    requires ValidWorld(w)
    ensures CanMisreport(w) <==> CanLose(w)
    ensures CanLose(w) <==> SomeoneDecides(w)
  {
    if SomeoneDecides(w) {
      var c :| CanDecide(w, c);
      if c.verb == Approve && w.need > 1 {
        UnreadableShowsApproved(w, c);
      } else {
        var events := LostShowsExpired(w, c);
      }
    } else {
      forall now, events
        ensures !Run(w, now, events).lossy && !Misreports(w, Run(w, now, events))
      {
        DecidableHolds(w, now, events);
        ShownIsWhatHappened(w, now, events);
      }
    }
  }

  // --- What a skip can be made to hide ---

  const ANN := Click(Approve, "a1", "U1", "C1", "1.0", "")
  const BOB := Click(Skip, "a1", "U2", "C1", "1.0", "")

  function Pair(): World {
    World(map["U1" := "ann", "U2" := "bob"], [Gate.Operator(1, "ann"), Gate.Operator(2, "bob")],
          Dispatch("a1", "n1", "h1", [], {Approve, Skip}), 100,
          Gate.PendingApproval("a1", "n1", "h1", {"ann", "bob"}, 100), 1)
  }

  /** What one handler does, from the click to the last event. */
  function Handled(h: nat, c: Click, last: Event): seq<Event> {
    [Clicked(h, c), GateFinds(h), GateChecks(h), GateRecords(h), last]
  }

  lemma RunHandled(w: World, now: int, events: seq<Event>, h: nat, c: Click, last: Event)
    ensures Run(w, now, events + Handled(h, c, last)) == Step(w, Recorded(w, Run(w, now, events), h, c), last)
  {
    RunAppend(w, now, events, Clicked(h, c));
    var clicked := events + [Clicked(h, c)];
    RunAppend(w, now, clicked, GateFinds(h));
    RunAppend(w, now, clicked + [GateFinds(h)], GateChecks(h));
    RunAppend(w, now, clicked + [GateFinds(h)] + [GateChecks(h)], GateRecords(h));
    RunAppend(w, now, clicked + [GateFinds(h)] + [GateChecks(h)] + [GateRecords(h)], last);
    assert events + Handled(h, c, last) == clicked + [GateFinds(h)] + [GateChecks(h)] + [GateRecords(h)] + [last];
  }

  lemma Opened(w: World)
    requires w == Pair()
    ensures var s := Step(w, Step(w, Start(0), Reserve), Posted("C1", "1.0"));
            && s == System(0, Some(Live(Reservation(w.d, 100), "C1", "1.0")), map[], map[], Gate.NEW_GATE, true, Waiting, {}, false)
            && Passes(w, s, 0, ANN, 1)
  {
  }

  lemma OpenedRun(w: World)
    requires w == Pair()
    ensures var s := Run(w, 0, [Reserve, Posted("C1", "1.0")]);
            && s == System(0, Some(Live(Reservation(w.d, 100), "C1", "1.0")), map[], map[], Gate.NEW_GATE, true, Waiting, {}, false)
            && Passes(w, s, 0, ANN, 1)
  {
    Opened(w);
    RunAppend(w, 0, [], Reserve);
    RunAppend(w, 0, [Reserve], Posted("C1", "1.0"));
    assert [] + [Reserve] == [Reserve] && [Reserve] + [Posted("C1", "1.0")] == [Reserve, Posted("C1", "1.0")];
  }

  lemma BobPasses(w: World, s: System)
    requires w == Pair() && s.entry == Some(Live(Reservation(w.d, 100), "C1", "1.0"))
    requires s.now == 0 && s.live && 1 !in s.handlers && 1 !in s.requests
    ensures Passes(w, s, 1, BOB, 2)
  {
  }

  lemma AnnDecides(w: World)
    requires w == Pair()
    ensures Gate.Apply(Gate.NEW_GATE, 1, AcceptedFor(w, ANN, 1)).0 ==
            Gate.GateState({"ann"}, [1], Some(Gate.QuorumDecision(Gate.Approved, "", [1], 0)))
  {
    assert {} + {"ann"} == {"ann"} && |{"ann"}| == 1 && [] + [1] == [1];
  }

  lemma AnnLost(w: World, before: seq<Event>)
    requires w == Pair() && before == [Reserve, Posted("C1", "1.0")]
    ensures var s := Run(w, 0, before + Handled(0, ANN, ReplyLost(0)));
            && Passes(w, s, 1, BOB, 2) && s.delivery == Waiting
            && s.gate == Gate.GateState({"ann"}, [1], Some(Gate.QuorumDecision(Gate.Approved, "", [1], 0)))
  {
    OpenedRun(w);
    RunHandled(w, 0, before, 0, ANN, ReplyLost(0));
    LostReplyReopens(w, Run(w, 0, before), 0, ANN, 1);
    AnnDecides(w);
    BobPasses(w, Run(w, 0, before + Handled(0, ANN, ReplyLost(0))));
  }

  lemma Takes(w: World, s: System)
    requires s.delivery == Waiting && s.gate.done.Some?
    ensures Step(w, s, RunTakes(false)) == s.(delivery := Delivered(s.gate.done.value))
  {
  }

  lemma BobShown(w: World, before: seq<Event>, s: System)
    requires s == Run(w, 0, before) && Passes(w, s, 1, BOB, 2) && s.delivery == Waiting
    requires s.gate.done.Some? && s.gate.done.value.action == Gate.Approved
    ensures var t := Run(w, 0, before + Handled(1, BOB, ReplyArrives(1, true)) + [RunTakes(false)]);
            && t.entry.Some? && t.entry.value.phase == Closed && t.entry.value.outcome == ShowsSkipped("U2")
            && t.delivery.Delivered? && t.delivery.decision.action == Gate.Approved
  {
    var shown := before + Handled(1, BOB, ReplyArrives(1, true));
    RunHandled(w, 0, before, 1, BOB, ReplyArrives(1, true));
    LateVetoShown(w, s, 1, BOB, 2);
    RunAppend(w, 0, shown, RunTakes(false));
    Takes(w, Run(w, 0, shown));
  }

  /**
   Ann approves and the reply is lost; Bob presses Skip before the run has taken
   the decision. The relay then shows that Bob stopped it, while the run acts on
   Ann's approval.
   */
  lemma LostReplyShowsSkipped(w: World)
    requires w == Pair()
    ensures var s := Run(w, 0, [Reserve, Posted("C1", "1.0")] + Handled(0, ANN, ReplyLost(0))
                               + Handled(1, BOB, ReplyArrives(1, true)) + [RunTakes(false)]);
            && s.entry.Some? && s.entry.value.phase == Closed && s.entry.value.outcome == ShowsSkipped("U2")
            && s.delivery.Delivered? && s.delivery.decision.action == Gate.Approved
  {
    var before := [Reserve, Posted("C1", "1.0")];
    AnnLost(w, before);
    var lost := before + Handled(0, ANN, ReplyLost(0));
    BobShown(w, lost, Run(w, 0, lost));
  }
}
