/**
 Runs of the scheduler: timers, operators, webhooks, reloads and a shutdown, in
 any order (scheduler.go; the callers in main.go).
 */
module SchedulerRuns {
  import opened Wrappers
  import opened Scheduler

  // --- The callers, one at a time: every path gives its claim back once ---

  datatype Admission = StoreFailed | AlreadyAdmitted | Created

  /** A due pipeline that ClaimDue claimed: run it, unless the configuration no longer has it. */
  method TimerRun(sched: Scheduler, name: string, configured: bool, failed: bool, now: int)
    requires name in sched.pipelines && sched.pipelines[name].running
    modifies sched
    ensures sched.inflight == old(sched.inflight) - 1
    ensures Running(sched.pipelines) == Running(old(sched.pipelines)) - {name}
  {
    if !configured {
      sched.Release(name);
      return;
    }
    var _ := sched.Finish(name, failed, now);
  }

  method ManualRun(sched: Scheduler, name: string, failed: bool, now: int) returns (refusal: Option<Refusal>)
    modifies sched
    ensures refusal == Refused(old(sched.Abs()), name, true)
    ensures sched.inflight == old(sched.inflight) && Running(sched.pipelines) == Running(old(sched.pipelines))
    ensures refusal.Some? ==> sched.Abs() == old(sched.Abs())
  {
    refusal := sched.Claim(name, true);
    if refusal.Some? {
      return;
    }
    var _ := sched.Finish(name, failed, now);
  }

  /** The webhook handler from the claim on; stored says that a state store is attached. */
  method WebhookRun(sched: Scheduler, name: string, signed: bool, signatureFresh: bool, stored: bool, admission: Admission,
                    marked: bool, failed: bool, now: int) returns (started: bool)
    modifies sched
    ensures started ==> Refused(old(sched.Abs()), name, false).None? && (signed ==> signatureFresh)
                        && (stored ==> admission == Created && marked)
    ensures sched.inflight == old(sched.inflight) && Running(sched.pipelines) == Running(old(sched.pipelines))
  {
    var refusal := sched.Claim(name, false);
    if refusal.Some? {
      return false;
    }
    if signed && !signatureFresh {
      sched.Release(name);
      return false;
    }
    if stored {
      if admission == StoreFailed {
        sched.Release(name);
        return false;
      }
      if admission == AlreadyAdmitted {
        sched.Release(name);
        return false;
      }
      if !marked {
        sched.Release(name);
        return false;
      }
    }
    var _ := sched.Finish(name, failed, now);
    return true;
  }

  // --- All of them at once ---

  datatype Origin = ByTimer | ByOperator | ByWebhook

  /** A claim somebody holds, before or during the run it was taken for. */
  datatype Claim = Claim(id: nat, name: string, origin: Origin, started: bool)

  datatype System = System(s: State, claims: set<Claim>)

  datatype Event =
    | Pause(name: string)
    | Resume(name: string, now: int)
    | Reschedule(name: string, spec: string, now: int)
    | Restore(name: string, runs: seq<RunRecord>, now: int)
    | Reload(cs: seq<PipelineConfig>, now: int)
    | BeginDrain
    | Tick(ids: string -> nat, now: int)
    | Request(id: nat, name: string, origin: Origin)
    | RunStarts(c: Claim)
    | GivenUp(c: Claim)
    | RunEnds(c: Claim, failed: bool, now: int)

  predicate FreshId(claims: set<Claim>, id: nat) { forall c :: c in claims ==> c.id != id }

  predicate Enabled(t: System, e: Event) {
    match e
    case Tick(ids, now) => forall name :: name in Claimable(t.s, now) ==> FreshId(t.claims, ids(name))
    case Request(id, _, origin) => FreshId(t.claims, id) && origin != ByTimer
    case RunStarts(c) => c in t.claims && !c.started
    case GivenUp(c) => c in t.claims && !c.started && c.origin != ByOperator
    case RunEnds(c, _, _) => c in t.claims && c.started
    case _ => true
  }

  function TimerClaims(names: set<string>, ids: string -> nat): set<Claim> {
    set name | name in names :: Claim(ids(name), name, ByTimer, false)
  }

  function RestoredState(cal: Calendar, s: State, name: string, runs: seq<RunRecord>, now: int): State {
    if name in s.pipelines && runs != [] then s.(pipelines := s.pipelines[name := Restored(cal, s.pipelines[name], runs, now)])
    else s
  }

  function Step(cal: Calendar, t: System, e: Event): System {
    if !Enabled(t, e) then t else
      match e
      case Pause(name) => t.(s := AfterPause(t.s, name))
      case Resume(name, now) => t.(s := AfterResume(cal, t.s, name, now))
      case Reschedule(name, spec, now) => t.(s := AfterReschedule(cal, t.s, name, spec, now))
      case Restore(name, runs, now) => t.(s := RestoredState(cal, t.s, name, runs, now))
      case Reload(cs, now) => t.(s := AfterSync(cal, t.s, cs, now))
      case BeginDrain => t.(s := t.s.(draining := true))
      case Tick(ids, now) =>
        var names := Claimable(t.s, now);
        System(ClaimedAll(t.s, names), t.claims + TimerClaims(names, ids))
      case Request(id, name, origin) =>
        if Refused(t.s, name, origin == ByOperator).Some? then t
        else System(Claimed(t.s, name), t.claims + {Claim(id, name, origin, false)})
      case RunStarts(c) => t.(claims := t.claims - {c} + {c.(started := true)})
      case GivenUp(c) => System(AfterRelease(t.s, c.name), t.claims - {c})
      case RunEnds(c, failed, now) => System(AfterFinish(cal, t.s, c.name, failed, now), t.claims - {c})
  }

  function Start(): System { System(State(map[], 0, false), {}) }

  function Run(cal: Calendar, t: System, events: seq<Event>): System {
    if events == [] then t else Step(cal, Run(cal, t, events[..|events| - 1]), events[|events| - 1])
  }

  // --- What holds in every reachable state ---

  ghost predicate Held(t: System, name: string) {
    exists c :: c in t.claims && c.name == name
  }

  /** The counter counts the running pipelines, and each of them is held by exactly one claim. */
  ghost predicate Inv(t: System) {
    && t.s.inflight == |Running(t.s.pipelines)|
    && (forall name :: name in Running(t.s.pipelines) <==> Held(t, name))
    && (forall c, d :: c in t.claims && d in t.claims && c.name == d.name ==> c == d)
  }

  lemma {:induction false} SyncKeepsRunning(cal: Calendar, pipelines: map<string, Pipeline>, cs: seq<PipelineConfig>, now: int)
    ensures Running(SyncAll(cal, pipelines, cs, now)) == Running(pipelines)
  {
    if cs != [] {
      SyncKeepsRunning(cal, pipelines, cs[..|cs| - 1], now);
    }
  }

  /** A reload neither starts nor ends a run, whatever it drops or brings back. */
  lemma ReloadKeepsRunning(cal: Calendar, s: State, cs: seq<PipelineConfig>, now: int)
    ensures Running(AfterSync(cal, s, cs, now).pipelines) == Running(s.pipelines)
  {
    SyncKeepsRunning(cal, s.pipelines, cs, now);
    var synced := SyncAll(cal, s.pipelines, cs, now);
    assert Running(Prune(synced, Names(cs))) == Running(synced);
  }

  lemma SettingsKeepRunning(cal: Calendar, t: System, e: Event)
    requires e.Pause? || e.Resume? || e.Reschedule? || e.Restore? || e.Reload? || e.BeginDrain?
    ensures Running(Step(cal, t, e).s.pipelines) == Running(t.s.pipelines)
    ensures Step(cal, t, e).s.inflight == t.s.inflight && Step(cal, t, e).claims == t.claims
  {
    if e.Reload? {
      ReloadKeepsRunning(cal, t.s, e.cs, e.now);
    }
  }

  lemma ClaimsRun(s: State, names: set<string>)
    requires names <= s.pipelines.Keys && names !! Running(s.pipelines)
    ensures Running(ClaimedAll(s, names).pipelines) == Running(s.pipelines) + names
    ensures |Running(s.pipelines) + names| == |Running(s.pipelines)| + |names|
  {
  }

  lemma TickKeepsInv(cal: Calendar, t: System, ids: string -> nat, now: int)
    requires Inv(t) && Enabled(t, Tick(ids, now))
    ensures Inv(Step(cal, t, Tick(ids, now)))
  {
    var names := Claimable(t.s, now);
    var u := Step(cal, t, Tick(ids, now));
    ClaimsRun(t.s, names);
    forall name: string
      ensures name in names ==> Held(u, name)
      ensures Held(t, name) ==> Held(u, name)
      ensures Held(u, name) ==> Held(t, name) || name in names
    {
      if name in names {
        assert Claim(ids(name), name, ByTimer, false) in u.claims;
      }
      if Held(t, name) {
        var c :| c in t.claims && c.name == name;
        assert c in u.claims;
      }
    }
    forall c, d | c in u.claims && d in u.claims && c.name == d.name
      ensures c == d
    {
      assert c in t.claims ==> Held(t, c.name);
      assert d in t.claims ==> Held(t, d.name);
    }
  }

  lemma ClaimRuns(s: State, name: string)
    requires name in s.pipelines && name !in Running(s.pipelines)
    ensures Running(Claimed(s, name).pipelines) == Running(s.pipelines) + {name}
    ensures |Running(s.pipelines) + {name}| == |Running(s.pipelines)| + 1
  {
  }

  lemma RequestKeepsInv(cal: Calendar, t: System, id: nat, name: string, origin: Origin)
    requires Inv(t) && Enabled(t, Request(id, name, origin)) && Refused(t.s, name, origin == ByOperator).None?
    ensures Inv(Step(cal, t, Request(id, name, origin)))
  {
    var u := Step(cal, t, Request(id, name, origin));
    var c := Claim(id, name, origin, false);
    assert name !in Running(t.s.pipelines) && !Held(t, name);
    ClaimRuns(t.s, name);
    assert u.claims == t.claims + {c};
    forall other: string
      ensures Held(u, other) <==> Held(t, other) || other == name
    {
      if Held(t, other) {
        var d :| d in t.claims && d.name == other;
        assert d in u.claims;
      }
      assert other == name ==> c in u.claims && c.name == other;
    }
    forall a, b | a in u.claims && b in u.claims && a.name == b.name
      ensures a == b
    {
      assert a in t.claims ==> Held(t, a.name);
      assert b in t.claims ==> Held(t, b.name);
    }
  }

  /** Whoever holds a claim finds its pipeline running, and ends that run and no other. */
  lemma GivingBackEnds(cal: Calendar, t: System, e: Event)
    requires Inv(t) && (e.GivenUp? || e.RunEnds?) && Enabled(t, e)
    ensures var u := Step(cal, t, e);
            && e.c.name in Running(t.s.pipelines)
            && Running(u.s.pipelines) == Running(t.s.pipelines) - {e.c.name}
            && u.s.inflight == t.s.inflight - 1
  {
    assert Held(t, e.c.name);
  }

  lemma StepKeepsInv(cal: Calendar, t: System, e: Event)
    requires Inv(t)
    ensures Inv(Step(cal, t, e))
  {
    if Enabled(t, e) {
      match e
      case Tick(ids, now) => TickKeepsInv(cal, t, ids, now);
      case Request(id, name, origin) =>
        if Refused(t.s, name, origin == ByOperator).None? {
          RequestKeepsInv(cal, t, id, name, origin);
        }
      case RunStarts(c) =>
      case GivenUp(c) =>
        GivingBackEnds(cal, t, e);
      case RunEnds(c, _, _) =>
        GivingBackEnds(cal, t, e);
      case _ =>
        var u := Step(cal, t, e);
        SettingsKeepRunning(cal, t, e);
        assert forall name :: Held(u, name) <==> Held(t, name);
    }
  }

  lemma {:induction false} InvHolds(cal: Calendar, t: System, events: seq<Event>)
    requires Inv(t)
    ensures Inv(Run(cal, t, events))
  {
    if events != [] {
      InvHolds(cal, t, events[..|events| - 1]);
      StepKeepsInv(cal, Run(cal, t, events[..|events| - 1]), events[|events| - 1]);
    }
  }

  lemma StartKeepsInv()
    ensures Inv(Start())
  {
    assert Running(Start().s.pipelines) == {};
  }

  /**
   While a claim is held no second claim of its pipeline is granted, not even to an
   operator, whatever was reloaded.
   */
  lemma OneRunAtATime(cal: Calendar, events: seq<Event>, c: Claim, manual: bool)
    requires c in Run(cal, Start(), events).claims
    ensures Refused(Run(cal, Start(), events).s, c.name, manual).Some?
  {
    StartKeepsInv();
    InvHolds(cal, Start(), events);
    assert Held(Run(cal, Start(), events), c.name);
  }

  /**
   A claim is granted if and only if the pipeline is configured, nobody holds it,
   it is not paused for this caller, and no shutdown has begun.
   */
  lemma GrantedIff(cal: Calendar, events: seq<Event>, name: string, manual: bool)
    ensures var t := Run(cal, Start(), events);
            Refused(t.s, name, manual) == None <==>
            && name in t.s.pipelines && !t.s.pipelines[name].removed && (manual || !t.s.pipelines[name].paused)
            && !t.s.draining && !Held(t, name)
  {
    StartKeepsInv();
    InvHolds(cal, Start(), events);
    var t := Run(cal, Start(), events);
    assert name in Running(t.s.pipelines) <==> Held(t, name);
  }

  /** The counter is never negative, and when it is zero nobody holds a claim: Wait returns when every run has ended. */
  lemma WaitMeansIdle(cal: Calendar, events: seq<Event>)
    ensures var t := Run(cal, Start(), events);
            && t.s.inflight >= 0
            && (t.s.inflight == 0 <==> t.claims == {})
  {
    StartKeepsInv();
    InvHolds(cal, Start(), events);
    var t := Run(cal, Start(), events);
    if t.claims != {} {
      var c :| c in t.claims;
      assert Held(t, c.name);
    } else {
      assert forall name :: !Held(t, name);
      assert Running(t.s.pipelines) == {};
    }
  }

  /** Who holds what, whether or not the run has started. */
  function Holders(t: System): set<(nat, string)> {
    set c | c in t.claims :: (c.id, c.name)
  }

  lemma DrainStep(cal: Calendar, t: System, e: Event)
    requires Inv(t) && t.s.draining
    ensures var u := Step(cal, t, e);
            u.s.draining && Running(u.s.pipelines) <= Running(t.s.pipelines) && Holders(u) <= Holders(t)
  {
    var u := Step(cal, t, e);
    if Enabled(t, e) {
      if e.GivenUp? || e.RunEnds? {
        GivingBackEnds(cal, t, e);
      } else if e.Tick? {
        assert Claimable(t.s, e.now) == {};
        assert ClaimedAll(t.s, {}).pipelines == t.s.pipelines;
      } else if !e.Request? && !e.RunStarts? {
        SettingsKeepRunning(cal, t, e);
      }
    }
    forall h | h in Holders(u)
      ensures h in Holders(t)
    {
      var c :| c in u.claims && (c.id, c.name) == h;
      if c !in t.claims {
        assert e.RunStarts? && e.c in t.claims && (e.c.id, e.c.name) == h;
      }
    }
  }

  /** After BeginDrain the running set only shrinks, and nobody gets a new claim. */
  lemma {:induction false} DrainOnlyShrinks(cal: Calendar, t: System, events: seq<Event>)
    requires Inv(t) && t.s.draining
    ensures var u := Run(cal, t, events);
            u.s.draining && Running(u.s.pipelines) <= Running(t.s.pipelines) && Holders(u) <= Holders(t)
  {
    if events != [] {
      var before := events[..|events| - 1];
      DrainOnlyShrinks(cal, t, before);
      InvHolds(cal, t, before);
      DrainStep(cal, Run(cal, t, before), events[|events| - 1]);
    }
  }

  // --- What a reload carries over ---

  /** Pause state, failure streak and run history. */
  predicate CarriesOver(p: Pipeline, q: Pipeline) {
    && q.paused == p.paused && q.autoPaused == p.autoPaused && q.failures == p.failures
    && q.lastRun == p.lastRun && q.running == p.running
  }

  function KnownOrNew(pipelines: map<string, Pipeline>, name: string): Pipeline {
    if name in pipelines then pipelines[name] else NEW_PIPELINE
  }

  lemma OneCarries(cal: Calendar, pipelines: map<string, Pipeline>, c: PipelineConfig, now: int)
    ensures CarriesOver(KnownOrNew(pipelines, c.name), SyncOne(cal, pipelines, c, now)[c.name])
    ensures !SyncOne(cal, pipelines, c, now)[c.name].removed
  {
  }

  lemma {:induction false} SyncCarries(cal: Calendar, pipelines: map<string, Pipeline>, cs: seq<PipelineConfig>, now: int,
                                       name: string)
    ensures var synced := SyncAll(cal, pipelines, cs, now);
            && (name in synced <==> name in pipelines || name in Names(cs))
            && (name in synced ==> CarriesOver(KnownOrNew(pipelines, name), synced[name]))
            && (name in Names(cs) ==> !synced[name].removed)
  {
    if cs != [] {
      var front, c := cs[..|cs| - 1], cs[|cs| - 1];
      SyncCarries(cal, pipelines, front, now, name);
      OneCarries(cal, SyncAll(cal, pipelines, front, now), c, now);
      NamesAppend(front, c);
      assert cs == front + [c];
    }
  }

  /**
   A pipeline that the new configuration names, or that is running, keeps all of
   that; one that was dropped while idle starts anew when it comes back. A dropped
   one that still runs has no timer left.
   */
  lemma ReloadCarriesOver(cal: Calendar, s: State, cs: seq<PipelineConfig>, now: int, name: string)
    ensures var after := AfterSync(cal, s, cs, now).pipelines;
            && (name in after <==> name in Names(cs) || (name in s.pipelines && s.pipelines[name].running))
            && (name in after ==> CarriesOver(KnownOrNew(s.pipelines, name), after[name]))
            && (name in after ==> (after[name].removed <==> name !in Names(cs)))
            && (name in after && name !in Names(cs) ==> after[name].timer == None && after[name].nextRun == None)
  {
    SyncCarries(cal, s.pipelines, cs, now, name);
  }

  // --- The failure streak ---

  /** A run of this pipeline ends. */
  predicate Ends(t: System, e: Event, name: string) {
    e.RunEnds? && e.c.name == name && Enabled(t, e)
  }

  /** A success, a resume, or the pipeline's coming into the configuration. */
  predicate Resets(cal: Calendar, t: System, e: Event, name: string) {
    || (Ends(t, e, name) && !e.failed)
    || (e.Resume? && e.name == name)
    || (name !in t.s.pipelines && name in Step(cal, t, e).s.pipelines)
  }

  /** The number of events up to the last one that resets the streak, 0 if none does. */
  function LastReset(cal: Calendar, t: System, events: seq<Event>, name: string): (k: nat)
    ensures k <= |events|
  {
    if events == [] then 0
    else
      var front := events[..|events| - 1];
      if Resets(cal, Run(cal, t, front), events[|events| - 1], name) then |events| else LastReset(cal, t, front, name)
  }

  /** The number of events up to the last successful end. */
  function LastSuccess(cal: Calendar, t: System, events: seq<Event>, name: string): (k: nat)
    ensures k <= |events|
  {
    if events == [] then 0
    else
      var front, e := events[..|events| - 1], events[|events| - 1];
      if Ends(Run(cal, t, front), e, name) && !e.failed then |events| else LastSuccess(cal, t, front, name)
  }

  /** How many runs of the pipeline ended in failure, from event k on. */
  function FailedEnds(cal: Calendar, t: System, events: seq<Event>, k: nat, name: string): nat {
    if |events| <= k then 0
    else
      var front, e := events[..|events| - 1], events[|events| - 1];
      FailedEnds(cal, t, front, k, name) + (if Ends(Run(cal, t, front), e, name) && e.failed then 1 else 0)
  }

  function Failures(s: State, name: string): int {
    if name in s.pipelines then s.pipelines[name].failures else 0
  }

  /** The failures in a row as the engine counts them: since the last reset, or since its start. */
  function Counted(cal: Calendar, t: System, events: seq<Event>, name: string): int {
    var k := LastReset(cal, t, events, name);
    FailedEnds(cal, t, events, k, name) + (if k == 0 then Failures(t.s, name) else 0)
  }

  predicate NoRestore(events: seq<Event>) { forall i :: 0 <= i < |events| ==> !events[i].Restore? }

  /** One event's effect on the count. */
  lemma StepCounts(cal: Calendar, t: System, e: Event, name: string)
    requires !e.Restore?
    ensures var u := Step(cal, t, e);
            name in u.s.pipelines ==>
              if Resets(cal, t, e, name) then u.s.pipelines[name].failures == 0
              else
                && name in t.s.pipelines
                && u.s.pipelines[name].failures ==
                   t.s.pipelines[name].failures + (if Ends(t, e, name) && e.failed then 1 else 0)
  {
    if e.Reload? {
      ReloadCarriesOver(cal, t.s, e.cs, e.now, name);
    }
  }

  /**
   failures is the number of failed ends since the last success, resume or
   arrival of the pipeline, over any run of the engine; runs of every kind count.
   */
  lemma {:induction false} FailuresCounted(cal: Calendar, t: System, events: seq<Event>, name: string)
    requires NoRestore(events) && name in Run(cal, t, events).s.pipelines
    ensures Run(cal, t, events).s.pipelines[name].failures == Counted(cal, t, events, name)
  {
    if events != [] {
      var front, e := events[..|events| - 1], events[|events| - 1];
      StepCounts(cal, Run(cal, t, front), e, name);
      if !Resets(cal, Run(cal, t, front), e, name) {
        FailuresCounted(cal, t, front, name);
      }
    }
  }

  lemma RunAppend(cal: Calendar, t: System, events: seq<Event>, e: Event)
    ensures Run(cal, t, events + [e]) == Step(cal, Run(cal, t, events), e)
  {
    assert (events + [e])[..|events|] == events;
  }

  /**
   A failed end pauses a pipeline that was not paused exactly when a timer drives
   it and the count has come to pause_after_failures.
   */
  lemma StreakPauses(cal: Calendar, t: System, events: seq<Event>, c: Claim, now: int)
    requires NoRestore(events) && Enabled(Run(cal, t, events), RunEnds(c, true, now))
    requires c.name in Run(cal, t, events).s.pipelines
    requires var p := Run(cal, t, events).s.pipelines[c.name]; !p.paused && !p.removed
    ensures var p := Run(cal, t, events).s.pipelines[c.name];
            var after := events + [RunEnds(c, true, now)];
            var q := Run(cal, t, after).s.pipelines;
            && c.name in q
            && (q[c.name].paused <==> p.timer.Some? && 0 < p.pauseAfter <= Counted(cal, t, after, c.name))
  {
    var e := RunEnds(c, true, now);
    var after := events + [e];
    RunAppend(cal, t, events, e);
    assert after[..|events|] == events && after[|events|] == e;
    assert forall i :: 0 <= i < |after| ==> !after[i].Restore?;
    FailuresCounted(cal, t, after, c.name);
  }

  // --- What a restart makes of it ---

  /** The ends the store has recorded, newest first, on top of older ones. */
  function Record(cal: Calendar, t: System, events: seq<Event>, older: seq<RunRecord>, name: string): seq<RunRecord> {
    if events == [] then older
    else
      var front, e := events[..|events| - 1], events[|events| - 1];
      var before := Record(cal, t, front, older, name);
      if Ends(Run(cal, t, front), e, name) then [RunRecord(e.now, e.failed)] + before else before
  }

  /** What the engine reads back at its start: as many runs as pause_after_failures asks for, at least one. */
  function Newest(runs: seq<RunRecord>, pauseAfter: int): seq<RunRecord> {
    var n := if pauseAfter < 1 then 1 else pauseAfter;
    if |runs| <= n then runs else runs[..n]
  }

  /** The failures in a row as the record has them. */
  function OnRecord(cal: Calendar, t: System, events: seq<Event>, older: seq<RunRecord>, name: string): nat {
    var k := LastSuccess(cal, t, events, name);
    FailedEnds(cal, t, events, k, name) + (if k == 0 then Streak(older) else 0)
  }

  lemma {:induction false} RecordStreak(cal: Calendar, t: System, events: seq<Event>, older: seq<RunRecord>, name: string)
    ensures Streak(Record(cal, t, events, older, name)) == OnRecord(cal, t, events, older, name)
  {
    if events != [] {
      var front, e := events[..|events| - 1], events[|events| - 1];
      RecordStreak(cal, t, front, older, name);
      var before := Record(cal, t, front, older, name);
      assert ([RunRecord(0, true)] + before)[1..] == before;
      if Ends(Run(cal, t, front), e, name) {
        assert ([RunRecord(e.now, e.failed)] + before)[1..] == before;
      }
    }
  }

  lemma {:induction false} StreakOfFirst(runs: seq<RunRecord>, n: nat)
    requires n <= |runs|
    ensures Streak(runs[..n]) == if Streak(runs) < n then Streak(runs) else n
  {
    if n > 0 {
      StreakOfFirst(runs[1..], n - 1);
      assert runs[..n][1..] == runs[1..][..n - 1];
    }
  }

  lemma {:induction false} StreakAtMost(runs: seq<RunRecord>)
    ensures Streak(runs) <= |runs|
  {
    if runs != [] {
      StreakAtMost(runs[1..]);
    }
  }

  /**
   After a restart the engine goes on from the count it had exactly when that is
   the recorded streak, or both have come to the number of runs it reads back.
   And the pipeline starts paused exactly when the recorded streak, whatever was
   resumed since, has come to pause_after_failures.
   */
  lemma RestoreContinuesIff(cal: Calendar, t: System, events: seq<Event>, older: seq<RunRecord>, name: string,
                            anew: Pipeline, now: int)
    requires NoRestore(events) && name in Run(cal, t, events).s.pipelines
    requires Record(cal, t, events, older, name) != [] && !anew.paused
    ensures var p := Run(cal, t, events).s.pipelines[name];
            var counted, recorded := Counted(cal, t, events, name), OnRecord(cal, t, events, older, name);
            var n := if anew.pauseAfter < 1 then 1 else anew.pauseAfter;
            var q := Restored(cal, anew, Newest(Record(cal, t, events, older, name), anew.pauseAfter), now);
            && (q.failures == p.failures <==> counted == recorded <= n || counted == n <= recorded)
            && (q.paused <==> anew.timer.Some? && 0 < anew.pauseAfter <= recorded)
  {
    var runs := Record(cal, t, events, older, name);
    var n := if anew.pauseAfter < 1 then 1 else anew.pauseAfter;
    FailuresCounted(cal, t, events, name);
    RecordStreak(cal, t, events, older, name);
    StreakAtMost(runs);
    if |runs| > n {
      StreakOfFirst(runs, n);
    }
  }

  /** From the first start on: the count never exceeds the recorded streak, for a success resets both. */
  lemma {:induction false} CountedAtMostRecorded(cal: Calendar, events: seq<Event>, name: string)
    ensures Counted(cal, Start(), events, name) <= OnRecord(cal, Start(), events, [], name)
    ensures LastSuccess(cal, Start(), events, name) <= LastReset(cal, Start(), events, name)
  {
    if events != [] {
      var front, e := events[..|events| - 1], events[|events| - 1];
      CountedAtMostRecorded(cal, front, name);
    }
  }

  const DAILY := Timer("24h", "", true)

  function EveryDay(): Calendar {
    Calendar((spec: string) => spec == "24h", (spec: string, zone: string) => Some(DAILY), (timer: Timer, at: int) => Some(at + 24))
  }

  /** Paused by its first failure. */
  const STRICT := PipelineConfig("p", "24h", "", false, 1)

  function Strict(failures: int, paused: bool, running: bool, last: Time, next: int): Pipeline {
    Pipeline("24h", paused, running, last, Some(next), failures, paused, Some(DAILY), false, false, 1, "")
  }

  function One(p: Pipeline, inflight: int, claims: set<Claim>): System {
    System(State(map["p" := p], inflight, false), claims)
  }

  const HELD := Claim(0, "p", ByOperator, false)

  lemma StrictStarts()
    ensures Run(EveryDay(), Start(), [Reload([STRICT], 0)]) == One(Strict(0, false, false, None, 24), 0, {})
  {
    var cal := EveryDay();
    RunAppend(cal, Start(), [], Reload([STRICT], 0));
    assert [] + [Reload([STRICT], 0)] == [Reload([STRICT], 0)];
    assert [STRICT][..0] == [] && SyncAll(cal, map[], [], 0) == map[];
    assert Synced(cal, None, STRICT, 0) == Strict(0, false, false, None, 24);
    assert SyncAll(cal, map[], [STRICT], 0) == map["p" := Strict(0, false, false, None, 24)];
    assert Names([STRICT]) == {"p"} by {
      NamesAppend([], STRICT);
      assert [] + [STRICT] == [STRICT] && Names([]) == {};
    }
  }

  lemma StrictFails(cal: Calendar, t: System)
    requires cal == EveryDay() && t == One(Strict(0, false, false, None, 24), 0, {})
    ensures var u := Step(cal, Step(cal, t, Request(0, "p", ByOperator)), RunStarts(HELD));
            && u == One(Strict(0, false, true, None, 24), 1, {HELD.(started := true)})
            && Step(cal, u, RunEnds(HELD.(started := true), true, 1)) == One(Strict(1, true, false, Some(1), 25), 0, {})
            && Step(cal, One(Strict(1, true, false, Some(1), 25), 0, {}), Resume("p", 2)) ==
               One(Strict(0, false, false, Some(1), 26), 0, {})
  {
    assert Step(cal, t, Request(0, "p", ByOperator)) == One(Strict(0, false, true, None, 24), 1, {HELD});
  }

  /** A run of an operator's that fails, and the operator's resume. */
  const INCIDENT := [Reload([STRICT], 0)] + [Request(0, "p", ByOperator)] + [RunStarts(HELD)]
                    + [RunEnds(HELD.(started := true), true, 1)] + [Resume("p", 2)]

  lemma RecordAppend(cal: Calendar, t: System, events: seq<Event>, e: Event, older: seq<RunRecord>, name: string)
    ensures Record(cal, t, events + [e], older, name) ==
            (if Ends(Run(cal, t, events), e, name) then [RunRecord(e.now, e.failed)] else []) + Record(cal, t, events, older, name)
  {
    assert (events + [e])[..|events|] == events;
    assert [] + Record(cal, t, events, older, name) == Record(cal, t, events, older, name);
  }

  lemma IncidentRun()
    ensures Run(EveryDay(), Start(), INCIDENT) == One(Strict(0, false, false, Some(1), 26), 0, {})
    ensures Record(EveryDay(), Start(), INCIDENT, [], "p") == [RunRecord(1, true)]
  {
    var cal := EveryDay();
    var e0, e1 := [Reload([STRICT], 0)], [Reload([STRICT], 0)] + [Request(0, "p", ByOperator)];
    var e2 := e1 + [RunStarts(HELD)];
    var e3 := e2 + [RunEnds(HELD.(started := true), true, 1)];
    StrictStarts();
    StrictFails(cal, Run(cal, Start(), e0));
    RunAppend(cal, Start(), e0, Request(0, "p", ByOperator));
    RunAppend(cal, Start(), e1, RunStarts(HELD));
    RunAppend(cal, Start(), e2, RunEnds(HELD.(started := true), true, 1));
    RunAppend(cal, Start(), e3, Resume("p", 2));
    RecordAppend(cal, Start(), [], Reload([STRICT], 0), [], "p");
    assert [] + [Reload([STRICT], 0)] == e0;
    RecordAppend(cal, Start(), e0, Request(0, "p", ByOperator), [], "p");
    RecordAppend(cal, Start(), e1, RunStarts(HELD), [], "p");
    RecordAppend(cal, Start(), e2, RunEnds(HELD.(started := true), true, 1), [], "p");
    RecordAppend(cal, Start(), e3, Resume("p", 2), [], "p");
  }

  /**
   A pipeline that pauses after one failure fails, and an operator resumes it.
   The next start of the engine pauses it again for the same failure.
   */
  lemma ResumedThenPausedAgain()
    ensures var t := Run(EveryDay(), Start(), INCIDENT);
            && "p" in t.s.pipelines && !t.s.pipelines["p"].paused && t.s.pipelines["p"].failures == 0
            && Newest(Record(EveryDay(), Start(), INCIDENT, [], "p"), 1) == [RunRecord(1, true)]
            && var q := Restored(EveryDay(), Synced(EveryDay(), None, STRICT, 3), [RunRecord(1, true)], 3);
               q.paused && q.failures == 1
  {
    IncidentRun();
    assert [RunRecord(1, true)][1..] == [];
    assert Streak([RunRecord(1, true)]) == 1;
  }

  // --- Intervals ---

  /** The timer fires every d after whatever it is counted from. */
  ghost predicate Every(cal: Calendar, timer: Timer, d: int) {
    timer.interval && d > 0 && forall t :: cal.next(timer, t) == Some(t + d)
  }

  /**
   An interval runs from the end of the previous run: it falls where the
   documentation has it, that long after the run started, if and only if the run
   took no time.
   */
  lemma IntervalRunsFromTheEnd(cal: Calendar, s: State, name: string, failed: bool, started: int, now: int, d: int)
    requires name in s.pipelines && !s.pipelines[name].removed
    requires s.pipelines[name].timer.Some? && Every(cal, s.pipelines[name].timer.value, d)
    ensures var p := AfterFinish(cal, s, name, failed, now).pipelines[name];
            && p.nextRun == Some(now + d)
            && (p.nextRun == Some(started + d) <==> started == now)
  {
  }

  /** After a run a timer pipeline is due again once its interval has passed, unless it is paused. */
  lemma DueAfterInterval(cal: Calendar, s: State, name: string, failed: bool, now: int, d: int, later: int)
    requires name in s.pipelines && !s.pipelines[name].removed
    requires s.pipelines[name].timer.Some? && Every(cal, s.pipelines[name].timer.value, d)
    ensures var after := AfterFinish(cal, s, name, failed, now);
            name in Due(after, later) <==> !after.pipelines[name].paused && later > now + d
  {
  }

  /** A resumed pipeline is due when its interval from now has passed, whatever paused it. */
  lemma DueAfterResume(cal: Calendar, s: State, name: string, now: int, d: int, later: int)
    requires name in s.pipelines && s.pipelines[name].timer.Some? && Every(cal, s.pipelines[name].timer.value, d)
    ensures var after := AfterResume(cal, s, name, now);
            && !after.pipelines[name].autoPaused && after.pipelines[name].failures == 0
            && (name in Due(after, later) <==> !s.pipelines[name].running && later > now + d)
  {
  }

  /** A reload that leaves a schedule as it was leaves the plan as it was; it always takes over the other settings. */
  lemma UnchangedKeepsPlan(cal: Calendar, known: Pipeline, c: PipelineConfig, now: int)
    ensures var p := Synced(cal, Some(known), c, now);
            && (!known.removed && known.schedule == c.schedule && known.timezone == c.timezone ==>
                  p.nextRun == known.nextRun && p.timer == known.timer)
            && p.schedule == c.schedule && p.timezone == c.timezone && p.catchUp == c.catchUp && p.pauseAfter == c.pauseAfter
            && !p.removed
  {
  }

  /**
   A schedule an operator sets is in force at once, planned from now in the
   pipeline's zone; one that does not parse changes nothing.
   */
  lemma ReschedulePlans(cal: Calendar, s: State, name: string, spec: string, now: int)
    requires name in s.pipelines
    ensures var p := s.pipelines[name];
            var timer := cal.parse(spec, p.timezone);
            var q := AfterReschedule(cal, s, name, spec, now).pipelines[name];
            && (cal.isTimer(spec) && timer.None? ==> q == p)
            && (cal.isTimer(spec) && timer.Some? ==>
                  q == p.(schedule := spec, timer := timer, nextRun := cal.next(timer.value, now)))
            && (!cal.isTimer(spec) ==> q == p.(schedule := spec, timer := None, nextRun := None))
  {
  }

  /** A paused pipeline is never due, its timer and its webhook are told so, and an operator can still run it. */
  lemma PausedIsIdle(s: State, name: string, now: int)
    requires name in s.pipelines
    ensures var after := AfterPause(s, name);
            && name !in Claimable(after, now)
            && Refused(after, name, false).Some?
            && Refused(after, name, true) == Refused(s, name, true)
            && after.pipelines[name] == s.pipelines[name].(paused := true)
  {
  }

  /** What is claimed has come due: its planned run is past, and it was neither paused nor running nor dropped. */
  lemma ClaimedIsDue(s: State, now: int, name: string)
    ensures name in Claimable(s, now) <==>
            && !s.draining && name in s.pipelines
            && var p := s.pipelines[name];
               && !p.paused && !p.running && !p.removed && p.timer.Some?
               && exists planned :: p.nextRun == Some(planned) && planned < now
  {
  }

  /**
   A restart and a reload with a changed schedule plan an interval alike: that
   long after the last run ended, or at once if that is past. For a calendar
   schedule they differ exactly when a missed run is caught up after a restart,
   when the planned instant is this very one, or when there is a next run but
   none after the last.
   */
  lemma ReloadPlansAsRestart(cal: Calendar, known: Pipeline, c: PipelineConfig, runs: seq<RunRecord>, now: int)
    requires runs != [] && known.lastRun == Some(runs[0].endedAt)
    requires known.removed || known.schedule != c.schedule || known.timezone != c.timezone
    requires cal.isTimer(c.schedule) && cal.parse(c.schedule, c.timezone).Some?
    requires var timer := cal.parse(c.schedule, c.timezone).value;
             forall t :: cal.next(timer, t).Some? ==> cal.next(timer, t).value > t
    ensures var timer := cal.parse(c.schedule, c.timezone).value;
            var missed := cal.next(timer, runs[0].endedAt);
            var planned := Synced(cal, Some(known), c, now).nextRun;
            var resumed := Restored(cal, Synced(cal, None, c, now), runs, now).nextRun;
            && (forall d :: Every(cal, timer, d) ==>
                  planned == resumed == Some(if runs[0].endedAt + d < now then now else runs[0].endedAt + d))
            && (!timer.interval ==>
                  (planned != resumed <==>
                     || (missed.None? && cal.next(timer, now).Some?)
                     || (missed.Some? && missed.value == now)
                     || (missed.Some? && missed.value < now && c.catchUp)))
  {
  }
}
