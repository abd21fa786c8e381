/**
 Two sliding windows: an agent's denials toward the trip (gate_trip.go), and a
 user's messages toward the rate limit (main.go). Times are nanoseconds of one
 clock that does not run backwards.
 */
module Windows {
  import opened Wrappers

  /** The times that are at most within old. */
  function Recent(times: seq<int>, now: int, within: int): seq<int> {
    if times == [] then []
    else if now - times[|times| - 1] <= within then Recent(times[..|times| - 1], now, within) + [times[|times| - 1]]
    else Recent(times[..|times| - 1], now, within)
  }

  /** The pruning loop both of them run. */
  method Prune(times: seq<int>, now: int, within: int) returns (recent: seq<int>)
    ensures recent == Recent(times, now, within)
  {
    recent := [];
    for i := 0 to |times|
      invariant recent == Recent(times[..i], now, within)
    {
      assert times[..i + 1][..i] == times[..i];
      if now - times[i] <= within {
        recent := recent + [times[i]];
      }
    }
    assert times[..|times|] == times;
  }

  /** Each time that is at most within old is kept as often as it was there, and no other. */
  lemma {:induction false} RecentCounts(times: seq<int>, now: int, within: int, t: int)
    ensures multiset(Recent(times, now, within))[t] == if now - t <= within then multiset(times)[t] else 0
  {
    if times != [] {
      var front, last := times[..|times| - 1], times[|times| - 1];
      RecentCounts(front, now, within, t);
      assert times == front + [last];
    }
  }

  predicate Sorted(times: seq<int>) { forall i, j :: 0 <= i < j < |times| ==> times[i] <= times[j] }

  predicate AtMost(times: seq<int>, t: int) { forall i :: 0 <= i < |times| ==> times[i] <= t }

  /** Pruning earlier never loses what a later look needs. */
  lemma {:induction false} RecentTwice(times: seq<int>, now: int, later: int, within: int)
    requires now <= later
    ensures Recent(Recent(times, now, within), later, within) == Recent(times, later, within)
  {
    if times != [] {
      var front, t := times[..|times| - 1], times[|times| - 1];
      RecentTwice(front, now, later, within);
      if now - t <= within {
      }
    }
  }

  lemma {:induction false} RecentSorted(times: seq<int>, now: int, within: int)
    requires Sorted(times)
    ensures Sorted(Recent(times, now, within))
    ensures forall b :: AtMost(times, b) ==> AtMost(Recent(times, now, within), b)
  {
    if times != [] {
      var front, t := times[..|times| - 1], times[|times| - 1];
      RecentSorted(front, now, within);
      assert AtMost(front, t);
    }
  }

  /** When the newest is too old they all are. */
  lemma {:induction false} NothingRecent(times: seq<int>, now: int, within: int)
    requires Sorted(times) && (times == [] || now - times[|times| - 1] > within)
    ensures Recent(times, now, within) == []
  {
    if times != [] {
      NothingRecent(times[..|times| - 1], now, within);
    }
  }

  // --- The trip ---

  /** Denials needed, and the window they have to fall in. */
  datatype Trip = Trip(denials: int, within: int)

  predicate Fires(c: Trip) { c.denials >= 2 && c.within > 0 }

  datatype Denial = Denial(agent: string, at: int)

  datatype TripState = TripState(trips: map<string, seq<int>>, swept: int)

  function Times(trips: map<string, seq<int>>, agent: string): seq<int> {
    if agent in trips then trips[agent] else []
  }

  predicate Stale(times: seq<int>, now: int, within: int) {
    |times| == 0 || now - times[|times| - 1] > within
  }

  function Swept(s: TripState, now: int, within: int): TripState {
    if now - s.swept > within
    then TripState(map agent | agent in s.trips && !Stale(s.trips[agent], now, within) :: s.trips[agent], now)
    else s
  }

  /** countDenial: the state after one denial, and whether it trips. */
  function AfterDenial(s: TripState, c: Trip, d: Denial): (TripState, bool) {
    if !Fires(c) then (s, false) else
      var swept := Swept(s, d.at, c.within);
      var recent := Recent(Times(swept.trips, d.agent), d.at, c.within) + [d.at];
      if |recent| < c.denials then (swept.(trips := swept.trips[d.agent := recent]), false)
      else (swept.(trips := swept.trips - {d.agent}), true)
  }

  class TripCounter {
    const c: Trip
    var trips: map<string, seq<int>>
    var swept: int

    constructor (c: Trip)
      ensures this.c == c && trips == map[] && swept == 0
    {
      this.c := c;
      trips, swept := map[], 0;
    }

    method Sweep(now: int)
      modifies this
      ensures TripState(trips, swept) == Swept(old(TripState(trips, swept)), now, c.within)
    {
      if now - swept <= c.within {
        return;
      }
      var left := trips.Keys;
      while left != {}
        invariant left <= old(trips).Keys && swept == old(swept)
        invariant trips == map agent | agent in old(trips) && (agent in left || !Stale(old(trips)[agent], now, c.within))
                             :: old(trips)[agent]
        decreases left
      {
        var agent :| agent in left;
        if Stale(trips[agent], now, c.within) {
          trips := trips - {agent};
        }
        left := left - {agent};
      }
      swept := now;
    }

    method CountDenial(agent: string, now: int) returns (tripped: bool)
      modifies this
      ensures (TripState(trips, swept), tripped) == AfterDenial(old(TripState(trips, swept)), c, Denial(agent, now))
    {
      if c.denials < 2 || c.within <= 0 {
        return false;
      }
      Sweep(now);
      var evs := Prune(if agent in trips then trips[agent] else [], now, c.within);
      evs := evs + [now];
      if |evs| < c.denials {
        trips := trips[agent := evs];
        return false;
      }
      trips := trips - {agent};
      return true;
    }
  }

  /** The counter after a history of denials, and whether the last of them tripped. */
  function RunTrip(c: Trip, ds: seq<Denial>): (TripState, bool) {
    if ds == [] then (TripState(map[], 0), false)
    else AfterDenial(RunTrip(c, ds[..|ds| - 1]).0, c, ds[|ds| - 1])
  }

  /** The rule without any pruning or sweeping: the agent's denials since it last tripped. */
  function SinceTrip(c: Trip, ds: seq<Denial>, agent: string): seq<int>
    decreases |ds|, 0
  {
    if ds == [] then [] else
      var front, d := ds[..|ds| - 1], ds[|ds| - 1];
      if d.agent != agent then SinceTrip(c, front, agent)
      else if Trips(c, front, d) then []
      else SinceTrip(c, front, agent) + [d.at]
  }

  /** This denial, with those since the last trip and inside the window, reaches the threshold. */
  predicate Trips(c: Trip, before: seq<Denial>, d: Denial)
    decreases |before|, 1
  {
    Fires(c) && |Recent(SinceTrip(c, before, d.agent), d.at, c.within)| + 1 >= c.denials
  }

  predicate Ordered(ds: seq<Denial>) { forall i, j :: 0 <= i < j < |ds| ==> ds[i].at <= ds[j].at }

  predicate Past(ds: seq<Denial>, now: int) { forall i :: 0 <= i < |ds| ==> ds[i].at <= now }

  lemma {:induction false} SinceTripSorted(c: Trip, ds: seq<Denial>, agent: string)
    requires Ordered(ds)
    ensures Sorted(SinceTrip(c, ds, agent))
    ensures forall now :: Past(ds, now) ==> AtMost(SinceTrip(c, ds, agent), now)
  {
    if ds != [] {
      var front, d := ds[..|ds| - 1], ds[|ds| - 1];
      SinceTripSorted(c, front, agent);
      assert Past(front, d.at);
      forall now | Past(ds, now)
        ensures AtMost(SinceTrip(c, ds, agent), now)
      {
        assert Past(front, now);
      }
    }
  }

  /** From this time on, the agent's list answers like the whole history. */
  ghost predicate Agrees(times: seq<int>, whole: seq<int>, from_: int, within: int) {
    && Sorted(times)
    && AtMost(times, from_)
    && forall later :: from_ <= later ==> Recent(times, later, within) == Recent(whole, later, within)
  }

  lemma SweepAgrees(s: TripState, agent: string, whole: seq<int>, from_: int, now: int, within: int)
    requires from_ <= now && within > 0 && Agrees(Times(s.trips, agent), whole, from_, within)
    ensures Agrees(Times(Swept(s, now, within).trips, agent), whole, now, within)
  {
    var times := Times(s.trips, agent);
    if Times(Swept(s, now, within).trips, agent) != times {
      forall later | now <= later
        ensures Recent([], later, within) == Recent(whole, later, within)
      {
        NothingRecent(times, later, within);
      }
    }
  }

  lemma CountAgrees(times: seq<int>, whole: seq<int>, now: int, within: int)
    requires within > 0 && Agrees(times, whole, now, within)
    ensures Agrees(Recent(times, now, within) + [now], whole + [now], now, within)
  {
    RecentSorted(times, now, within);
    var kept := Recent(times, now, within);
    forall later | now <= later
      ensures Recent(kept + [now], later, within) == Recent(whole + [now], later, within)
    {
      RecentTwice(times, now, later, within);
    }
  }

  /** The agent's own denial. */
  lemma OwnDenialAgrees(s: TripState, c: Trip, d: Denial, whole: seq<int>)
    requires Fires(c) && Agrees(Times(s.trips, d.agent), whole, d.at, c.within)
    ensures var (after, tripped) := AfterDenial(s, c, d);
            && (tripped <==> |Recent(whole, d.at, c.within)| + 1 >= c.denials)
            && Agrees(Times(after.trips, d.agent), if tripped then [] else whole + [d.at], d.at, c.within)
  {
    var times := Times(Swept(s, d.at, c.within).trips, d.agent);
    SweepAgrees(s, d.agent, whole, d.at, d.at, c.within);
    assert Recent(times, d.at, c.within) == Recent(whole, d.at, c.within);
    CountAgrees(times, whole, d.at, c.within);
  }

  /** Another agent's denial. */
  lemma OtherDenialAgrees(s: TripState, c: Trip, d: Denial, agent: string, whole: seq<int>)
    requires Fires(c) && agent != d.agent && Agrees(Times(s.trips, agent), whole, d.at, c.within)
    ensures Agrees(Times(AfterDenial(s, c, d).0.trips, agent), whole, d.at, c.within)
  {
    SweepAgrees(s, agent, whole, d.at, d.at, c.within);
    assert Times(AfterDenial(s, c, d).0.trips, agent) == Times(Swept(s, d.at, c.within).trips, agent);
  }

  /** The agent's counter answers like its whole history, from now on. */
  ghost predicate Follows(c: Trip, ds: seq<Denial>, agent: string, now: int) {
    Agrees(Times(RunTrip(c, ds).0.trips, agent), SinceTrip(c, ds, agent), now, c.within)
  }

  lemma FollowsNext(c: Trip, front: seq<Denial>, d: Denial, ds: seq<Denial>, agent: string)
    requires ds != [] && front == ds[..|ds| - 1] && d == ds[|ds| - 1]
    requires Fires(c) && Follows(c, front, agent, d.at)
    ensures Follows(c, ds, agent, d.at)
  {
    var s, whole := RunTrip(c, front).0, SinceTrip(c, front, agent);
    if agent == d.agent {
      OwnDenialAgrees(s, c, d, whole);
    } else {
      OtherDenialAgrees(s, c, d, agent, whole);
    }
  }

  lemma {:induction false} TripAgrees(c: Trip, ds: seq<Denial>, agent: string, now: int)
    requires Fires(c) && Ordered(ds) && Past(ds, now)
    ensures Follows(c, ds, agent, now)
  {
    if ds != [] {
      var front, d := ds[..|ds| - 1], ds[|ds| - 1];
      TripAgrees(c, front, agent, d.at);
      FollowsNext(c, front, d, ds, agent);
    }
  }

  /**
   An agent trips exactly when its counted denials since its last trip, inside
   the window, reach the threshold: what other agents do and when the counter
   sweeps makes no difference.
   */
  lemma TripRefinesHistory(c: Trip, before: seq<Denial>, d: Denial)
    requires Ordered(before + [d])
    ensures RunTrip(c, before + [d]).1 <==> Trips(c, before, d)
  {
    var ds := before + [d];
    assert ds[..|before|] == before && ds[|before|] == d;
    if Fires(c) {
      assert forall i :: 0 <= i < |before| ==> ds[i] == before[i];
      TripAgrees(c, before, d.agent, d.at);
      OwnDenialAgrees(RunTrip(c, before).0, c, d, SinceTrip(c, before, d.agent));
    }
  }

  // --- The rate limiter ---

  const MINUTE := 60_000_000_000

  /** A time is kept while it is after now minus one minute. */
  const KEEP := MINUTE - 1

  const DEFAULT_LIMIT := 10

  datatype Message = Message(user: int, at: int)

  function Window(windows: map<int, seq<int>>, user: int): seq<int> {
    if user in windows then windows[user] else []
  }

  function AfterMessage(windows: map<int, seq<int>>, limit: int, m: Message): (map<int, seq<int>>, bool) {
    var recent := Recent(Window(windows, m.user), m.at, KEEP);
    if |recent| >= limit then (windows, false) else (windows[m.user := recent + [m.at]], true)
  }

  class RateLimiter {
    const limit: int
    var windows: map<int, seq<int>>

    constructor (limit: int)
      ensures this.limit == (if limit == 0 then DEFAULT_LIMIT else limit) && windows == map[]
    {
      this.limit := if limit == 0 then DEFAULT_LIMIT else limit;
      windows := map[];
    }

    method Allow(user: int, now: int) returns (allowed: bool)
      modifies this
      ensures (windows, allowed) == AfterMessage(old(windows), limit, Message(user, now))
    {
      var recent := Prune(if user in windows then windows[user] else [], now, KEEP);
      if |recent| >= limit {
        return false;
      }
      windows := windows[user := recent + [now]];
      return true;
    }
  }

  function RunLimiter(limit: int, ms: seq<Message>): (map<int, seq<int>>, bool) {
    if ms == [] then (map[], false) else AfterMessage(RunLimiter(limit, ms[..|ms| - 1]).0, limit, ms[|ms| - 1])
  }

  /** When this user's messages were allowed. */
  function AllowedTimes(limit: int, ms: seq<Message>, user: int): seq<int> {
    if ms == [] then []
    else
      var front, m := ms[..|ms| - 1], ms[|ms| - 1];
      if m.user == user && RunLimiter(limit, ms).1 then AllowedTimes(limit, front, user) + [m.at]
      else AllowedTimes(limit, front, user)
  }

  predicate InOrder(ms: seq<Message>) { forall i, j :: 0 <= i < j < |ms| ==> ms[i].at <= ms[j].at }

  predicate Sent(ms: seq<Message>, now: int) { forall i :: 0 <= i < |ms| ==> ms[i].at <= now }

  /** The times in the half-open minute that ends at t. */
  function InMinute(times: seq<int>, t: int): seq<int> {
    if times == [] then []
    else if t - MINUTE < times[|times| - 1] <= t then InMinute(times[..|times| - 1], t) + [times[|times| - 1]]
    else InMinute(times[..|times| - 1], t)
  }

  lemma MessageAgrees(windows: map<int, seq<int>>, limit: int, m: Message, user: int, whole: seq<int>)
    requires Agrees(Window(windows, user), whole, m.at, KEEP)
    ensures var (after, ok) := AfterMessage(windows, limit, m);
            Agrees(Window(after, user), if m.user == user && ok then whole + [m.at] else whole, m.at, KEEP)
  {
    CountAgrees(Window(windows, user), whole, m.at, KEEP);
  }

  lemma {:induction false} LimiterAgrees(limit: int, ms: seq<Message>, user: int, now: int)
    requires InOrder(ms) && Sent(ms, now)
    ensures Agrees(Window(RunLimiter(limit, ms).0, user), AllowedTimes(limit, ms, user), now, KEEP)
  {
    if ms != [] {
      var front, m := ms[..|ms| - 1], ms[|ms| - 1];
      LimiterAgrees(limit, front, user, m.at);
      MessageAgrees(RunLimiter(limit, front).0, limit, m, user, AllowedTimes(limit, front, user));
    }
  }

  lemma {:induction false} AllowedSorted(limit: int, ms: seq<Message>, user: int, now: int)
    requires InOrder(ms) && Sent(ms, now)
    ensures Sorted(AllowedTimes(limit, ms, user)) && AtMost(AllowedTimes(limit, ms, user), now)
  {
    if ms != [] {
      AllowedSorted(limit, ms[..|ms| - 1], user, ms[|ms| - 1].at);
    }
  }

  lemma {:induction false} RecentIsMinute(times: seq<int>, t: int)
    requires AtMost(times, t)
    ensures Recent(times, t, KEEP) == InMinute(times, t)
  {
    if times != [] {
      RecentIsMinute(times[..|times| - 1], t);
    }
  }

  /** A message is allowed exactly when fewer than limit were allowed in the minute before it. */
  lemma AllowedIff(limit: int, before: seq<Message>, m: Message)
    requires InOrder(before + [m])
    ensures RunLimiter(limit, before + [m]).1 <==> |InMinute(AllowedTimes(limit, before, m.user), m.at)| < limit
    ensures InMinute(AllowedTimes(limit, before, m.user), m.at) == Recent(AllowedTimes(limit, before, m.user), m.at, KEEP)
  {
    var ms := before + [m];
    assert ms[..|before|] == before && ms[|before|] == m;
    assert forall i :: 0 <= i < |before| ==> ms[i] == before[i];
    LimiterAgrees(limit, before, m.user, m.at);
    AllowedSorted(limit, before, m.user, m.at);
    RecentIsMinute(AllowedTimes(limit, before, m.user), m.at);
  }

  lemma {:induction false} MinuteInRecent(times: seq<int>, t: int, last: int)
    requires last <= t
    ensures AtMost(times, last) ==> |InMinute(times, t)| <= |Recent(times, last, KEEP)|
  {
    if times != [] {
      MinuteInRecent(times[..|times| - 1], t, last);
    }
  }

  /** No half-open minute, wherever it ends, holds more than limit allowed messages of one user. */
  lemma {:induction false} AtMostLimitPerMinute(limit: int, ms: seq<Message>, user: int, t: int)
    requires InOrder(ms)
    ensures |InMinute(AllowedTimes(limit, ms, user), t)| <= if limit < 0 then 0 else limit
  {
    if ms != [] {
      var front, m := ms[..|ms| - 1], ms[|ms| - 1];
      AtMostLimitPerMinute(limit, front, user, t);
      if m.user == user && RunLimiter(limit, ms).1 && t - MINUTE < m.at <= t {
        assert front + [m] == ms;
        AllowedIff(limit, front, m);
        assert Sent(front, m.at);
        AllowedSorted(limit, front, user, m.at);
        MinuteInRecent(AllowedTimes(limit, front, user), t, m.at);
      }
    }
  }

  // --- A minute with both ends ---

  /** The times at one instant. */
  function AtInstant(times: seq<int>, t: int): seq<int> {
    if times == [] then []
    else if times[|times| - 1] == t then AtInstant(times[..|times| - 1], t) + [t]
    else AtInstant(times[..|times| - 1], t)
  }

  /** The times in the minute that ends at t, both ends counted. */
  function InClosedMinute(times: seq<int>, t: int): seq<int> {
    if times == [] then []
    else if t - MINUTE <= times[|times| - 1] <= t then InClosedMinute(times[..|times| - 1], t) + [times[|times| - 1]]
    else InClosedMinute(times[..|times| - 1], t)
  }

  lemma {:induction false} ClosedIsBoth(times: seq<int>, t: int)
    ensures |InClosedMinute(times, t)| == |AtInstant(times, t - MINUTE)| + |InMinute(times, t)|
  {
    if times != [] {
      ClosedIsBoth(times[..|times| - 1], t);
    }
  }

  lemma {:induction false} InstantInMinute(times: seq<int>, t: int)
    ensures |AtInstant(times, t)| <= |InMinute(times, t)|
  {
    if times != [] {
      InstantInMinute(times[..|times| - 1], t);
    }
  }

  /**
   A minute with both ends holds at most twice the limit: what its opening
   instant holds and what the half-open minute after it does. So it holds more
   than the limit exactly when those two do together.
   */
  lemma ClosedMinuteHolds(limit: int, ms: seq<Message>, user: int, t: int)
    requires limit > 0 && InOrder(ms)
    ensures var times := AllowedTimes(limit, ms, user);
            && |InClosedMinute(times, t)| == |AtInstant(times, t - MINUTE)| + |InMinute(times, t)| <= 2 * limit
            && (|InClosedMinute(times, t)| > limit <==> |AtInstant(times, t - MINUTE)| + |InMinute(times, t)| > limit)
  {
    var times := AllowedTimes(limit, ms, user);
    ClosedIsBoth(times, t);
    InstantInMinute(times, t - MINUTE);
    AtMostLimitPerMinute(limit, ms, user, t - MINUTE);
    AtMostLimitPerMinute(limit, ms, user, t);
  }

  lemma CountsAppend(times: seq<int>, t: int, now: int)
    ensures |Recent(times + [t], now, KEEP)| == |Recent(times, now, KEEP)| + (if now - t <= KEEP then 1 else 0)
    ensures |InClosedMinute(times + [t], now)| == |InClosedMinute(times, now)| + (if now - MINUTE <= t <= now then 1 else 0)
  {
    assert (times + [t])[..|times|] == times;
  }

  /** A message that the limiter has room for. */
  lemma RoomAllows(limit: int, before: seq<Message>, m: Message)
    requires InOrder(before + [m]) && |Recent(AllowedTimes(limit, before, m.user), m.at, KEEP)| < limit
    ensures AllowedTimes(limit, before + [m], m.user) == AllowedTimes(limit, before, m.user) + [m.at]
  {
    assert (before + [m])[..|before|] == before;
    AllowedIff(limit, before, m);
  }

  /** So many messages at one instant, and so many a minute later. */
  function Bursts(user: int, early: nat, late: nat): (ms: seq<Message>)
    ensures InOrder(ms) && forall i :: 0 <= i < |ms| ==> ms[i].at == 0 || (ms[i].at == MINUTE && late > 0)
    decreases early + late
  {
    if late > 0 then Bursts(user, early, late - 1) + [Message(user, MINUTE)]
    else if early > 0 then Bursts(user, early - 1, 0) + [Message(user, 0)]
    else []
  }

  /** The counts, at a later time, of what was allowed, when a message with room is added. */
  lemma RoomCounts(limit: int, before: seq<Message>, m: Message, now: int)
    requires InOrder(before + [m]) && |Recent(AllowedTimes(limit, before, m.user), m.at, KEEP)| < limit
    ensures var old', new' := AllowedTimes(limit, before, m.user), AllowedTimes(limit, before + [m], m.user);
            && |Recent(new', now, KEEP)| == |Recent(old', now, KEEP)| + (if now - m.at <= KEEP then 1 else 0)
            && |InClosedMinute(new', now)| == |InClosedMinute(old', now)| + (if now - MINUTE <= m.at <= now then 1 else 0)
  {
    RoomAllows(limit, before, m);
    CountsAppend(AllowedTimes(limit, before, m.user), m.at, now);
  }

  predicate Tallied(limit: int, user: int, early: nat, late: nat) {
    var times := AllowedTimes(limit, Bursts(user, early, late), user);
    && |InClosedMinute(times, MINUTE)| == early + late
    && |Recent(times, MINUTE, KEEP)| == late
    && (late == 0 ==> |Recent(times, 0, KEEP)| == early)
  }

  lemma NothingTallied(limit: int, user: int)
    ensures Tallied(limit, user, 0, 0)
  {
    assert Bursts(user, 0, 0) == [] && AllowedTimes(limit, [], user) == [];
  }

  lemma EarlyTallied(limit: int, user: int, early: nat)
    requires 0 < early <= limit && Tallied(limit, user, early - 1, 0)
    ensures Tallied(limit, user, early, 0)
  {
    var before, m := Bursts(user, early - 1, 0), Message(user, 0);
    assert before + [m] == Bursts(user, early, 0);
    RoomCounts(limit, before, m, 0);
    RoomCounts(limit, before, m, MINUTE);
  }

  lemma LateTallied(limit: int, user: int, early: nat, late: nat)
    requires 0 < late <= limit && Tallied(limit, user, early, late - 1)
    ensures Tallied(limit, user, early, late)
  {
    var before, m := Bursts(user, early, late - 1), Message(user, MINUTE);
    assert before + [m] == Bursts(user, early, late);
    RoomCounts(limit, before, m, MINUTE);
  }

  lemma {:induction false} BurstsAllowed(limit: int, user: int, early: nat, late: nat)
    requires early <= limit && late <= limit
    ensures Tallied(limit, user, early, late)
    decreases early + late
  {
    if late > 0 {
      BurstsAllowed(limit, user, early, late - 1);
      LateTallied(limit, user, early, late);
    } else if early > 0 {
      BurstsAllowed(limit, user, early - 1, 0);
      EarlyTallied(limit, user, early);
    } else {
      NothingTallied(limit, user);
    }
  }

  /**
   For every limit a closed minute can hold twice as many: limit messages at its
   first instant, and limit at its last.
   */
  lemma ClosedMinuteHoldsMore(limit: int, user: int)
    requires limit > 0
    ensures InOrder(Bursts(user, limit, limit))
    ensures |InClosedMinute(AllowedTimes(limit, Bursts(user, limit, limit), user), MINUTE)| == 2 * limit
  {
    BurstsAllowed(limit, user, limit, limit);
  }
}
