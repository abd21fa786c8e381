/**
 The presenter side of the approval protocol (contrib/slack-relay/relay.go): one
 entry per approval, changed by dispatches, clicks, replies and the expiry timer.
 Each function below is one stretch of code that runs under the relay's lock.
 */
module SlackRelay {
  import opened Wrappers
  import opened Quorum

  type User = string
  type Identity = string

  datatype Phase = Posting | Open | Deciding | Closed

  datatype Timer = NoTimer | Armed | Fired | Stopped

  datatype Dispatch = Dispatch(approvalID: string, nonce: string, payloadHash: string,
                               approvers: seq<Identity>, offers: set<Verb>)

  /** The status line of a closed message. */
  datatype Shown =
    | Nothing
    | ShowsApproved(users: seq<User>)
    | ShowsSkipped(user: User)
    | ShowsAdjust(user: User)
    | ShowsAlreadyResolved
    | ShowsExpiredAtGate
    | ShowsExpired

  datatype Approval = Approval(d: Dispatch, channel: string, ts: string, expires: int, phase: Phase,
                               approved: seq<User>, outcome: Shown, timer: Timer)

  datatype Click = Click(verb: Verb, approvalID: string, user: User, channel: string, ts: string, adjustText: string)

  /**
   What comes back for a posted decision: no answer, or a status with the resolved
   flag where the body could be read.
   */
  datatype Reply = NoReply | Status(code: int, resolved: Option<bool>)

  const KEEP_CLOSED: int := 86400

  // --- Dispatch ---

  datatype Reserved = NewlyReserved | Duplicate | Mismatched

  function Reservation(d: Dispatch, expires: int): Approval {
    Approval(d, "", "", expires, Posting, [], Nothing, NoTimer)
  }

  function Pruned(approvals: map<string, Approval>, now: int): map<string, Approval> {
    map id | id in approvals && !Forgotten(approvals[id], now) :: approvals[id]
  }

  predicate Forgotten(a: Approval, now: int) {
    a.phase == Closed && a.expires < now - KEEP_CLOSED
  }

  function Live(a: Approval, channel: string, ts: string): Approval {
    a.(channel := channel, ts := ts, phase := Open, timer := Armed)
  }

  // --- Clicks ---

  /** The click becomes a decision; every other click is answered with a note and changes nothing. */
  predicate Decides(a: Approval, c: Click, identities: map<User, Identity>) {
    && c.user in identities
    && a.phase == Open
    && a.channel == c.channel && a.ts == c.ts
    && (a.d.approvers != [] ==> identities[c.user] in a.d.approvers)
    && c.verb in a.d.offers
    && !(c.verb == Approve && c.user in a.approved)
    && !(c.verb == Adjust && c.adjustText == "")
  }

  function StatusLine(c: Click, approved: seq<User>): Shown {
    match c.verb
    case Approve => ShowsApproved(approved)
    case Skip => ShowsSkipped(c.user)
    case _ => ShowsAdjust(c.user)
  }

  predicate Accepted2xx(reply: Reply) {
    reply.Status? && 200 <= reply.code <= 299
  }

  /** An answer without a readable flag counts as resolved. */
  predicate SaysResolved(reply: Reply) {
    reply.Status? && (reply.resolved == None || reply.resolved == Some(true))
  }

  function Close(a: Approval, approved: seq<User>, outcome: Shown): Approval {
    a.(phase := Closed, approved := approved, outcome := outcome, timer := if a.timer == Armed then Stopped else a.timer)
  }

  /** The entry after the reply to a decision. */
  function AfterReply(a: Approval, c: Click, reply: Reply): Approval {
    var counted := if c.verb == Approve then a.approved + [c.user] else a.approved;
    if Accepted2xx(reply) && !SaysResolved(reply) && c.verb == Approve then a.(phase := Open, approved := counted)
    else if Accepted2xx(reply) then Close(a, counted, StatusLine(c, counted))
    else if reply.Status? && reply.code == 409 then Close(a, a.approved, ShowsAlreadyResolved)
    else if reply.Status? && reply.code == 410 then Close(a, a.approved, ShowsExpiredAtGate)
    else a.(phase := Open)
  }

  /**
   What every reply comes to. The message closes on a 409, a 410 and a 2xx, save
   an approval that is told it did not resolve the gate, and says which it was;
   that approval is counted. On any other status, and without a reply, the
   message opens again as it was.
   */
  lemma ReplyMeans(a: Approval, c: Click, reply: Reply)
    requires a.phase == Deciding
    ensures var b := AfterReply(a, c, reply);
            match reply
            case NoReply => b == a.(phase := Open)
            case Status(code, flag) =>
              if code == 409 || code == 410 then
                && b.phase == Closed && b.approved == a.approved
                && b.outcome == (if code == 409 then ShowsAlreadyResolved else ShowsExpiredAtGate)
              else if code < 200 || code >= 300 then b == a.(phase := Open)
              else if c.verb != Approve then b.phase == Closed && b.approved == a.approved && b.outcome == StatusLine(c, a.approved)
              else
                && b.approved == a.approved + [c.user]
                && (if flag.Some? && !flag.value then b.phase == Open && b.outcome == a.outcome
                    else b.phase == Closed && b.outcome == ShowsApproved(a.approved + [c.user]))
  {
  }

  /** The handler that reopened an entry past its expiry still has to expire it. */
  predicate Lapsed(a: Approval, now: int) {
    a.phase == Open && now >= a.expires
  }

  function Expired(a: Approval): Approval {
    if a.phase == Open then a.(phase := Closed, outcome := ShowsExpired) else a
  }

  /** relayServer: the approvals of one relay. */
  class Relay {
    const identities: map<User, Identity>
    var approvals: map<string, Approval>

    constructor (identities: map<User, Identity>)
      ensures this.identities == identities && approvals == map[]
    {
      this.identities := identities;
      approvals := map[];
    }

    method Prune(now: int)
      modifies this`approvals
      ensures approvals == Pruned(old(approvals), now)
    {
      var ids := approvals.Keys;
      while ids != {}
        invariant ids <= old(approvals).Keys
        invariant approvals == map id | id in old(approvals) && (id in ids || !Forgotten(old(approvals)[id], now))
                                 :: old(approvals)[id]
        decreases ids
      {
        var id :| id in ids;
        if Forgotten(approvals[id], now) {
          approvals := approvals - {id};
        }
        ids := ids - {id};
      }
    }

    /** One message per approval: a repeated dispatch is acknowledged, a different one under the same id refused. */
    method Reserve(d: Dispatch, expires: int, now: int) returns (r: Reserved)
      modifies this`approvals
      ensures var kept := Pruned(old(approvals), now);
              if d.approvalID in kept then
                && approvals == kept
                && (r == Duplicate <==> kept[d.approvalID].d.nonce == d.nonce
                                         && kept[d.approvalID].d.payloadHash == d.payloadHash)
                && r != NewlyReserved
              else r == NewlyReserved && approvals == kept[d.approvalID := Reservation(d, expires)]
    {
      Prune(now);
      if d.approvalID in approvals {
        var prev := approvals[d.approvalID];
        if prev.d.nonce == d.nonce && prev.d.payloadHash == d.payloadHash {
          return Duplicate;
        }
        return Mismatched;
      }
      approvals := approvals[d.approvalID := Approval(d, "", "", expires, Posting, [], Nothing, NoTimer)];
      return NewlyReserved;
    }

    /** After the message was posted or refused; only a reserved entry gets here. */
    method FinishPost(id: string, posted: bool, channel: string, ts: string)
      requires id in approvals && approvals[id].phase == Posting
      modifies this`approvals
      ensures approvals == if posted then old(approvals)[id := Live(old(approvals)[id], channel, ts)]
                           else old(approvals) - {id}
    {
      if !posted {
        approvals := approvals - {id};
        return;
      }
      var a := approvals[id].(channel := channel, ts := ts, phase := Open);
      approvals := approvals[id := a.(timer := Armed)];
    }

    /** The checks of handleClick; decides says that a decision is now on its way. */
    method BeginClick(c: Click) returns (decides: bool)
      modifies this`approvals
      ensures decides <==> c.approvalID in old(approvals) && Decides(old(approvals)[c.approvalID], c, identities)
      ensures approvals == if decides then old(approvals)[c.approvalID := old(approvals)[c.approvalID].(phase := Deciding)]
                           else old(approvals)
    {
      if c.user !in identities {
        return false;
      }
      var identity := identities[c.user];
      if c.approvalID !in approvals || approvals[c.approvalID].phase == Posting {
        return false;
      }
      var a := approvals[c.approvalID];
      if a.channel != c.channel || a.ts != c.ts {
        return false;
      }
      if a.phase == Closed || a.phase == Deciding {
        return false;
      }
      if |a.d.approvers| > 0 && identity !in a.d.approvers {
        return false;
      }
      if c.verb !in a.d.offers {
        return false;
      }
      if c.verb == Approve && c.user in a.approved {
        return false;
      }
      if c.verb == Adjust && c.adjustText == "" {
        return false;
      }
      approvals := approvals[c.approvalID := a.(phase := Deciding)];
      return true;
    }

    /** After the reply; lapsed tells the handler to call Expire when it has updated the message. */
    method EndClick(c: Click, reply: Reply, now: int) returns (lapsed: bool)
      requires c.approvalID in approvals && approvals[c.approvalID].phase == Deciding
      modifies this`approvals
      ensures approvals == old(approvals)[c.approvalID := AfterReply(old(approvals)[c.approvalID], c, reply)]
      ensures lapsed <==> Lapsed(approvals[c.approvalID], now)
    {
      var a := approvals[c.approvalID];
      var note := false;
      match reply {
      case NoReply =>
        a := a.(phase := Open);
        note := true;
      case Status(code, flag) =>
        var accepted := 200 <= code <= 299;
        var resolved := true;
        if flag.Some? {
          resolved := flag.value;
        }
        if accepted && !resolved && c.verb == Approve {
          a := a.(phase := Open, approved := a.approved + [c.user]);
        } else if accepted {
          a := a.(phase := Closed);
          if c.verb == Approve {
            a := a.(approved := a.approved + [c.user]);
          }
          a := a.(outcome := StatusLine(c, a.approved));
        } else if code == 409 {
          a := a.(phase := Closed, outcome := ShowsAlreadyResolved);
        } else if code == 410 {
          a := a.(phase := Closed, outcome := ShowsExpiredAtGate);
        } else {
          a := a.(phase := Open);
          note := true;
        }
      }
      lapsed := a.phase == Open && !(now < a.expires);
      if !note && a.phase != Open && a.timer == Armed {
        a := a.(timer := Stopped);
      }
      approvals := approvals[c.approvalID := a];
    }

    method Expire(id: string)
      modifies this`approvals
      ensures approvals == if id in old(approvals) then old(approvals)[id := Expired(old(approvals)[id])] else old(approvals)
    {
      if id !in approvals || approvals[id].phase != Open {
        return;
      }
      approvals := approvals[id := approvals[id].(phase := Closed, outcome := ShowsExpired)];
    }
  }
}
