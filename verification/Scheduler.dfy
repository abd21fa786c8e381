/**
 The scheduler (scheduler.go): every run of a pipeline is admitted through one
 claim, which keeps a pipeline at one run, is counted for the shutdown, and
 survives a reload that drops the pipeline or brings it back. Time is a number;
 the zero time is None.
 */
module Scheduler {
  import opened Wrappers

  type Time = Option<int>

  predicate Before(t: Time, now: int) { t.None? || t.value < now }

  /** Parsed schedules, and when each fires next. */
  datatype Timer = Timer(spec: string, timezone: string, interval: bool)

  datatype Calendar = Calendar(isTimer: string -> bool, parse: (string, string) -> Option<Timer>,
                               next: (Timer, int) -> Time)

  datatype Pipeline = Pipeline(schedule: string, paused: bool, running: bool, lastRun: Time, nextRun: Time, failures: int,
                               autoPaused: bool, timer: Option<Timer>, removed: bool, catchUp: bool, pauseAfter: int,
                               timezone: string)

  datatype PipelineConfig = PipelineConfig(name: string, schedule: string, timezone: string, catchUp: bool, pauseAfter: int)

  /** A recorded run: when it ended, and whether it failed. */
  datatype RunRecord = RunRecord(endedAt: int, failed: bool)

  datatype State = State(pipelines: map<string, Pipeline>, inflight: int, draining: bool)

  datatype Refusal = UnknownPipeline | ShuttingDown | IsPaused | AlreadyRunning

  const NEW_PIPELINE := Pipeline("", false, false, None, None, 0, false, None, false, false, 0, "")

  function NextFor(cal: Calendar, p: Pipeline, t: int): Time {
    if p.timer.Some? then cal.next(p.timer.value, t) else p.nextRun
  }

  /** setSchedule: a schedule that does not parse never fires. */
  function WithSchedule(cal: Calendar, p: Pipeline, spec: string, now: int): Pipeline {
    var timer := if cal.isTimer(spec) then cal.parse(spec, p.timezone) else None;
    p.(schedule := spec, timer := timer, nextRun := if timer.Some? then cal.next(timer.value, now) else None)
  }

  // --- Claims ---

  function Refused(s: State, name: string, manual: bool): Option<Refusal> {
    if name !in s.pipelines || s.pipelines[name].removed then Some(UnknownPipeline)
    else if s.draining then Some(ShuttingDown)
    else if s.pipelines[name].paused && !manual then Some(IsPaused)
    else if s.pipelines[name].running then Some(AlreadyRunning)
    else None
  }

  function Claimed(s: State, name: string): State
    requires name in s.pipelines
  {
    s.(pipelines := s.pipelines[name := s.pipelines[name].(running := true)], inflight := s.inflight + 1)
  }

  function AfterClaim(s: State, name: string, manual: bool): State {
    if Refused(s, name, manual) == None then Claimed(s, name) else s
  }

  predicate AutoPauses(p: Pipeline) {
    p.timer.Some? && p.pauseAfter > 0 && p.failures >= p.pauseAfter && !p.paused
  }

  function AfterFailure(p: Pipeline): Pipeline {
    var counted := p.(failures := p.failures + 1);
    if AutoPauses(counted) then counted.(paused := true, autoPaused := true) else counted
  }

  function AfterFinish(cal: Calendar, s: State, name: string, failed: bool, now: int): State {
    if name !in s.pipelines then s else
      var p := s.pipelines[name];
      var ended := p.(lastRun := Some(now), nextRun := NextFor(cal, p, now), running := false);
      var inflight := if p.running then s.inflight - 1 else s.inflight;
      if p.removed then s.(pipelines := s.pipelines - {name}, inflight := inflight)
      else s.(pipelines := s.pipelines[name := if failed then AfterFailure(ended) else ended.(failures := 0)], inflight := inflight)
  }

  function AfterRelease(s: State, name: string): State {
    if name !in s.pipelines || !s.pipelines[name].running then s
    else s.(pipelines := s.pipelines[name := s.pipelines[name].(running := false)], inflight := s.inflight - 1)
  }

  // --- Operators ---

  function AfterPause(s: State, name: string): State {
    if name in s.pipelines then s.(pipelines := s.pipelines[name := s.pipelines[name].(paused := true)]) else s
  }

  function AfterResume(cal: Calendar, s: State, name: string, now: int): State {
    if name !in s.pipelines then s else
      var p := s.pipelines[name].(paused := false, autoPaused := false, failures := 0);
      s.(pipelines := s.pipelines[name := p.(nextRun := NextFor(cal, p, now))])
  }

  function AfterReschedule(cal: Calendar, s: State, name: string, spec: string, now: int): State {
    if name !in s.pipelines || (cal.isTimer(spec) && cal.parse(spec, s.pipelines[name].timezone).None?) then s
    else s.(pipelines := s.pipelines[name := WithSchedule(cal, s.pipelines[name], spec, now)])
  }

  /** How many of the newest runs failed in a row. */
  function Streak(runs: seq<RunRecord>): nat {
    if runs == [] || !runs[0].failed then 0 else 1 + Streak(runs[1..])
  }

  function RestoredNext(cal: Calendar, p: Pipeline, last: int, now: int): Time {
    if p.timer.None? then p.nextRun else
      var next := cal.next(p.timer.value, last);
      if p.timer.value.interval then (if Before(next, now) then Some(now) else next)
      else if next.Some? && next.value < now then (if p.catchUp then Some(now) else cal.next(p.timer.value, now))
      else next
  }

  function Restored(cal: Calendar, p: Pipeline, runs: seq<RunRecord>, now: int): Pipeline
    requires runs != []
  {
    var q := p.(lastRun := Some(runs[0].endedAt), nextRun := RestoredNext(cal, p, runs[0].endedAt, now), failures := Streak(runs));
    if q.timer.Some? && q.pauseAfter > 0 && q.failures >= q.pauseAfter then q.(paused := true, autoPaused := true) else q
  }

  // --- Reload ---

  predicate ScheduleChanged(known: Option<Pipeline>, c: PipelineConfig) {
    known.None? || known.value.removed || known.value.schedule != c.schedule || known.value.timezone != c.timezone
  }

  function Replanned(cal: Calendar, p: Pipeline, now: int): Pipeline {
    if p.timer.None? || p.lastRun.None? then p else
      var next := cal.next(p.timer.value, p.lastRun.value);
      if next.None? then p
      else if next.value > now then p.(nextRun := next)
      else if p.timer.value.interval then p.(nextRun := Some(now))
      else p
  }

  /** One pipeline of the new configuration: known settings carry over, a changed schedule is planned anew. */
  function Synced(cal: Calendar, known: Option<Pipeline>, c: PipelineConfig, now: int): Pipeline {
    var before := if known.Some? then known.value else NEW_PIPELINE;
    var p := before.(removed := false, catchUp := c.catchUp, pauseAfter := c.pauseAfter, timezone := c.timezone);
    if ScheduleChanged(known, c) then Replanned(cal, WithSchedule(cal, p, c.schedule, now), now) else p
  }

  function Get(pipelines: map<string, Pipeline>, name: string): Option<Pipeline> {
    if name in pipelines then Some(pipelines[name]) else None
  }

  function SyncOne(cal: Calendar, pipelines: map<string, Pipeline>, c: PipelineConfig, now: int): map<string, Pipeline> {
    pipelines[c.name := Synced(cal, Get(pipelines, c.name), c, now)]
  }

  function SyncAll(cal: Calendar, pipelines: map<string, Pipeline>, cs: seq<PipelineConfig>, now: int): map<string, Pipeline> {
    if cs == [] then pipelines else SyncOne(cal, SyncAll(cal, pipelines, cs[..|cs| - 1], now), cs[|cs| - 1], now)
  }

  function Names(cs: seq<PipelineConfig>): set<string> {
    set i | 0 <= i < |cs| :: cs[i].name
  }

  function Dropped(p: Pipeline): Pipeline {
    p.(removed := true, timer := None, nextRun := None)
  }

  /** What the new configuration does not name goes, but a running pipeline stays until its run ends. */
  function Prune(pipelines: map<string, Pipeline>, names: set<string>): map<string, Pipeline> {
    map name | name in pipelines && (name in names || pipelines[name].running) ::
      if name in names then pipelines[name] else Dropped(pipelines[name])
  }

  function AfterSync(cal: Calendar, s: State, cs: seq<PipelineConfig>, now: int): State {
    s.(pipelines := Prune(SyncAll(cal, s.pipelines, cs, now), Names(cs)))
  }

  // --- Due pipelines ---

  predicate IsDue(p: Pipeline, now: int) {
    !p.paused && !p.running && p.timer.Some? && p.nextRun.Some? && now > p.nextRun.value
  }

  function Due(s: State, now: int): set<string> {
    set name | name in s.pipelines && IsDue(s.pipelines[name], now)
  }

  /** The due pipelines that are claimed: all of them but those a reload has dropped. */
  function Claimable(s: State, now: int): set<string> {
    if s.draining then {} else set name | name in Due(s, now) && !s.pipelines[name].removed
  }

  function ClaimedAll(s: State, names: set<string>): State {
    s.(pipelines := map name | name in s.pipelines ::
                      if name in names then s.pipelines[name].(running := true) else s.pipelines[name],
       inflight := s.inflight + |names|)
  }

  function Running(pipelines: map<string, Pipeline>): set<string> {
    set name | name in pipelines && pipelines[name].running
  }

  class Scheduler {
    const cal: Calendar
    var pipelines: map<string, Pipeline>
    var inflight: int
    var draining: bool

    function Abs(): State
      reads this
    {
      State(pipelines, inflight, draining)
    }

    constructor (cal: Calendar)
      ensures this.cal == cal && Abs() == State(map[], 0, false)
    {
      this.cal := cal;
      pipelines, inflight, draining := map[], 0, false;
    }

    /** claimLocked; TryStart, TryStartManual. */
    method Claim(name: string, manual: bool) returns (refusal: Option<Refusal>)
      modifies this
      ensures refusal == Refused(old(Abs()), name, manual)
      ensures Abs() == AfterClaim(old(Abs()), name, manual)
    {
      if name !in pipelines || pipelines[name].removed {
        return Some(UnknownPipeline);
      }
      if draining {
        return Some(ShuttingDown);
      }
      if pipelines[name].paused && !manual {
        return Some(IsPaused);
      }
      if pipelines[name].running {
        return Some(AlreadyRunning);
      }
      pipelines := pipelines[name := pipelines[name].(running := true)];
      inflight := inflight + 1;
      return None;
    }

    /** Failures and the automatic pause, on the pipeline's record. */
    method CountEnd(p: Pipeline, failed: bool) returns (q: Pipeline, pausedNow: bool)
      ensures q == if failed then AfterFailure(p) else p.(failures := 0)
      ensures pausedNow <==> q.paused && !p.paused
    {
      if !failed {
        return p.(failures := 0), false;
      }
      q := p.(failures := p.failures + 1);
      pausedNow := q.timer.Some? && q.pauseAfter > 0 && q.failures >= q.pauseAfter && !q.paused;
      if pausedNow {
        q := q.(paused := true, autoPaused := true);
      }
    }

    method Finish(name: string, failed: bool, now: int) returns (pausedNow: bool)
      modifies this
      ensures Abs() == AfterFinish(cal, old(Abs()), name, failed, now)
      ensures pausedNow <==> name in pipelines && name in old(pipelines) && pipelines[name].paused && !old(pipelines)[name].paused
    {
      if name !in pipelines {
        return false;
      }
      var p := pipelines[name].(lastRun := Some(now));
      if p.timer.Some? {
        p := p.(nextRun := cal.next(p.timer.value, now));
      }
      if p.running {
        p := p.(running := false);
        inflight := inflight - 1;
      }
      if p.removed {
        pipelines := pipelines - {name};
        return false;
      }
      p, pausedNow := CountEnd(p, failed);
      pipelines := pipelines[name := p];
    }

    method Release(name: string)
      modifies this
      ensures Abs() == AfterRelease(old(Abs()), name)
    {
      if name !in pipelines || !pipelines[name].running {
        return;
      }
      pipelines := pipelines[name := pipelines[name].(running := false)];
      inflight := inflight - 1;
    }

    method Pause(name: string) returns (ok: bool)
      modifies this
      ensures Abs() == AfterPause(old(Abs()), name) && (ok <==> name in old(pipelines))
    {
      if name in pipelines {
        pipelines := pipelines[name := pipelines[name].(paused := true)];
        return true;
      }
      return false;
    }

    method Resume(name: string, now: int) returns (ok: bool)
      modifies this
      ensures Abs() == AfterResume(cal, old(Abs()), name, now) && (ok <==> name in old(pipelines))
    {
      if name in pipelines {
        var p := pipelines[name].(paused := false, autoPaused := false, failures := 0);
        if p.timer.Some? {
          p := p.(nextRun := cal.next(p.timer.value, now));
        }
        pipelines := pipelines[name := p];
        return true;
      }
      return false;
    }

    method Reschedule(name: string, spec: string, now: int) returns (ok: bool)
      modifies this
      ensures Abs() == AfterReschedule(cal, old(Abs()), name, spec, now)
      ensures ok <==> name in old(pipelines)
                      && (cal.isTimer(spec) ==> cal.parse(spec, old(pipelines)[name].timezone).Some?)
      ensures ok ==> pipelines[name].schedule == spec
    {
      if name !in pipelines {
        return false;
      }
      if cal.isTimer(spec) && cal.parse(spec, pipelines[name].timezone).None? {
        return false;
      }
      pipelines := pipelines[name := WithSchedule(cal, pipelines[name], spec, now)];
      return true;
    }

    method Restore(name: string, runs: seq<RunRecord>, now: int) returns (startsPaused: bool)
      modifies this
      ensures Abs() == if name in old(pipelines) && runs != []
                       then old(Abs()).(pipelines := old(pipelines)[name := Restored(cal, old(pipelines)[name], runs, now)])
                       else old(Abs())
      ensures startsPaused <==> name in pipelines && pipelines[name].timer.Some?
                                && 0 < pipelines[name].pauseAfter <= Streak(runs)
      ensures startsPaused ==> pipelines[name].paused && pipelines[name].autoPaused
    {
      if name !in pipelines || |runs| == 0 {
        return false;
      }
      var p := pipelines[name];
      p := p.(lastRun := Some(runs[0].endedAt), nextRun := RestoredNext(cal, p, runs[0].endedAt, now));
      var streak := 0;
      var i := 0;
      while i < |runs| && runs[i].failed
        invariant 0 <= i <= |runs| && streak == i
        invariant Streak(runs) == streak + Streak(runs[i..])
      {
        streak := streak + 1;
        i := i + 1;
      }
      p := p.(failures := streak);
      startsPaused := p.timer.Some? && p.pauseAfter > 0 && streak >= p.pauseAfter;
      if startsPaused {
        p := p.(paused := true, autoPaused := true);
      }
      pipelines := pipelines[name := p];
    }

    /** One turn of the first loop of Sync, on the pipeline's record. */
    method SyncPipeline(known: Option<Pipeline>, c: PipelineConfig, now: int) returns (p: Pipeline)
      ensures p == Synced(cal, known, c, now)
    {
      p := if known.Some? then known.value else NEW_PIPELINE;
      var changed := known.None? || p.removed || p.schedule != c.schedule || p.timezone != c.timezone;
      p := p.(removed := false, catchUp := c.catchUp, pauseAfter := c.pauseAfter, timezone := c.timezone);
      if !changed {
        return;
      }
      p := WithSchedule(cal, p, c.schedule, now);
      if p.timer.Some? && p.lastRun.Some? {
        var next := cal.next(p.timer.value, p.lastRun.value);
        if next.None? {
        } else if next.value > now {
          p := p.(nextRun := next);
        } else if p.timer.value.interval {
          p := p.(nextRun := Some(now));
        }
      }
    }

    method Sync(cs: seq<PipelineConfig>, now: int)
      modifies this
      ensures Abs() == AfterSync(cal, old(Abs()), cs, now)
    {
      var seen: set<string> := {};
      for i := 0 to |cs|
        invariant inflight == old(inflight) && draining == old(draining)
        invariant seen == Names(cs[..i])
        invariant pipelines == SyncAll(cal, old(pipelines), cs[..i], now)
      {
        assert cs[..i + 1][..i] == cs[..i];
        NamesAppend(cs[..i], cs[i]);
        assert cs[..i] + [cs[i]] == cs[..i + 1];
        seen := seen + {cs[i].name};
        var p := SyncPipeline(Get(pipelines, cs[i].name), cs[i], now);
        pipelines := pipelines[cs[i].name := p];
      }
      assert cs[..|cs|] == cs;
      DropUnseen(seen);
    }

    /** The second loop of Sync. */
    method DropUnseen(seen: set<string>)
      modifies this
      ensures pipelines == Prune(old(pipelines), seen) && inflight == old(inflight) && draining == old(draining)
    {
      var left := pipelines.Keys;
      while left != {}
        invariant left <= old(pipelines).Keys
        invariant inflight == old(inflight) && draining == old(draining)
        invariant forall name :: name in pipelines <==>
                    name in old(pipelines) && (name in left || name in seen || old(pipelines)[name].running)
        invariant forall name :: name in pipelines ==>
                    pipelines[name] == if name in left || name in seen then old(pipelines)[name] else Dropped(old(pipelines)[name])
        decreases left
      {
        var name :| name in left;
        left := left - {name};
        if name in seen {
          continue;
        }
        if pipelines[name].running {
          pipelines := pipelines[name := pipelines[name].(removed := true, timer := None, nextRun := None)];
        } else {
          pipelines := pipelines - {name};
        }
      }
    }

    method BeginDrain()
      modifies this
      ensures Abs() == old(Abs()).(draining := true)
    {
      draining := true;
    }

    /** dueLocked, then one claim each, in the same critical section. */
    method ClaimDue(now: int) returns (claimed: set<string>)
      modifies this
      ensures claimed == Claimable(old(Abs()), now)
      ensures Abs() == ClaimedAll(old(Abs()), claimed)
    {
      claimed := {};
      if draining {
        return;
      }
      var due := Due(Abs(), now);
      var left := due;
      while left != {}
        invariant left <= due && due == Due(old(Abs()), now)
        invariant claimed == set name | name in due - left && !old(pipelines)[name].removed
        invariant Abs() == ClaimedAll(old(Abs()), claimed)
        decreases left
      {
        var name :| name in left;
        ClaimNext(old(Abs()), now, claimed, name);
        left := left - {name};
        var refusal := Claim(name, false);
        if refusal.None? {
          claimed := claimed + {name};
        }
      }
    }
  }

  lemma ClaimNext(s: State, now: int, names: set<string>, name: string)
    requires name in Due(s, now) && name !in names && !s.draining
    ensures AfterClaim(ClaimedAll(s, names), name, false) ==
            if s.pipelines[name].removed then ClaimedAll(s, names) else ClaimedAll(s, names + {name})
    ensures Refused(ClaimedAll(s, names), name, false).None? <==> !s.pipelines[name].removed
  {
    var t := ClaimedAll(s, names);
    assert t.pipelines[name] == s.pipelines[name];
    if !s.pipelines[name].removed {
      assert Claimed(t, name).pipelines == ClaimedAll(s, names + {name}).pipelines;
    }
  }

  lemma NamesAppend(cs: seq<PipelineConfig>, c: PipelineConfig)
    ensures Names(cs + [c]) == Names(cs) + {c.name}
  {
    var all := cs + [c];
    assert all[|cs|] == c && forall i :: 0 <= i < |cs| ==> all[i] == cs[i];
  }
}
