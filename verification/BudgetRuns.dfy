/**
 Runs of the budget ledger: any number of runs asking for model calls, any
 outcome of each call, and the day turning over at any moment, also while a
 call is out (budget.go, provider_call.go).
 */
module BudgetRuns {
  import opened Wrappers
  import opened Budget

  /** A settled model call. */
  datatype Usage = Usage(run: nat, call: Call, tokens: int, cost: real)

  /** The admission gate: free, or held by a run before, during or after its provider call. */
  datatype Holder = Free | Entered(run: nat) | Sent(run: nat, call: Call) | Leaving(run: nat)

  /**
   all and today are history: the calls settled since the start, and those
   settled since the ledger's day last changed. stuck is history as well: some
   call ended with its usage unknown.
   */
  datatype System = System(l: Ledger, runs: map<nat, RunTotals>, gate: Holder,
                           all: seq<Usage>, today: seq<Usage>, stuck: bool)

  datatype Event =
    | Look(day: int)                                     // check, snapshot: refreshes the day
    | NewRun(id: nat, tokenLimit: int)
    | Acquire(run: nat)
    | Admit(cfg: Config, call: Call, day: int)
    | Answered(o: Outcome)
    | Release

  function Start(day: int, dayCostLimit: real, pipelineCostLimit: real): System {
    System(Ledger(false, 0, 0, 0.0, day, dayCostLimit, pipelineCostLimit, map[]), map[0 := RunTotals(false, 0, 0.0, 0, 0.0)],
           Free, [], [], false)
  }

  predicate Enabled(s: System, e: Event) {
    match e
    case Look(_) => true
    case NewRun(id, _) => id !in s.runs
    case Acquire(run) => s.gate == Free && run in s.runs
    case Admit(_, _, _) => s.gate.Entered? && s.gate.run in s.runs
    case Answered(_) => s.gate.Sent? && s.gate.run in s.runs
    case Release => s.gate.Entered? || s.gate.Leaving?
  }

  function KeptToday(s: System, day: int): seq<Usage> {
    if s.l.day != day then [] else s.today
  }

  function AfterAdmission(s: System, cfg: Config, call: Call, day: int): System
    requires Enabled(s, Admit(cfg, call, day))
  {
    var run := s.gate.run;
    var (l, r, refusal) := AfterAdmit(s.l, s.runs[run], cfg, call, day);
    s.(l := l, runs := s.runs[run := r], today := KeptToday(s, day), gate := if refusal.None? then Sent(run, call) else Leaving(run))
  }

  function UsageOf(s: System, o: Outcome): Usage
    requires s.gate.Sent? && o.Response?
  {
    Usage(s.gate.run, s.gate.call, Wrapped(o.inputTokens + o.outputTokens), o.cost)
  }

  predicate Settles(s: System, o: Outcome)
    requires Enabled(s, Answered(o))
  {
    Counts(o) && Recordable(s.l, s.runs[s.gate.run], Wrapped(o.inputTokens + o.outputTokens), o.cost)
  }

  function AfterAnswer(s: System, o: Outcome): System
    requires Enabled(s, Answered(o))
  {
    var run := s.gate.run;
    var (l, r) := AfterFinish(s.l, s.runs[run], s.gate.call.pipeline, o);
    var more := if Settles(s, o) then [UsageOf(s, o)] else [];
    s.(l := l, runs := s.runs[run := r], gate := Leaving(run), all := s.all + more, today := s.today + more,
       stuck := s.stuck || (if o.Failed? then o.uncertain else !ValidUsage(o)))
  }

  function Step(s: System, e: Event): System {
    if !Enabled(s, e) then s else
      match e
      case Look(day) => s.(l := Refreshed(s.l, day), today := KeptToday(s, day))
      case NewRun(id, tokenLimit) => s.(runs := s.runs[id := RunTotals(true, 0, 0.0, tokenLimit, s.l.pipelineCostLimit)])
      case Acquire(run) => s.(gate := Entered(run))
      case Admit(cfg, call, day) => AfterAdmission(s, cfg, call, day)
      case Answered(o) => AfterAnswer(s, o)
      case Release => s.(gate := Free)
  }

  function Run(s: System, events: seq<Event>): System {
    if events == [] then s else Step(Run(s, events[..|events| - 1]), events[|events| - 1])
  }

  // --- Sums over settled calls ---

  function Tokens(us: seq<Usage>): int {
    if us == [] then 0 else Tokens(us[..|us| - 1]) + us[|us| - 1].tokens
  }

  function Cost(us: seq<Usage>): real {
    if us == [] then 0.0 else Cost(us[..|us| - 1]) + us[|us| - 1].cost
  }

  /** The calls with this key, in order. */
  function Part<K(==)>(us: seq<Usage>, key: Usage -> K, k: K): seq<Usage> {
    if us == [] then []
    else if key(us[|us| - 1]) == k then Part(us[..|us| - 1], key, k) + [us[|us| - 1]]
    else Part(us[..|us| - 1], key, k)
  }

  function RunOf(u: Usage): nat { u.run }

  function PipelineOf(u: Usage): string { u.call.pipeline }

  function ByRun(us: seq<Usage>, run: nat): seq<Usage> { Part(us, RunOf, run) }

  function ByPipeline(us: seq<Usage>, pipeline: string): seq<Usage> { Part(us, PipelineOf, pipeline) }

  predicate NonNegative(us: seq<Usage>) {
    forall i :: 0 <= i < |us| ==> us[i].tokens >= 0 && us[i].cost >= 0.0
  }

  lemma {:induction false} PartAtMostWhole(us: seq<Usage>, run: nat, pipeline: string)
    requires NonNegative(us)
    ensures 0 <= Tokens(ByRun(us, run)) <= Tokens(us) && 0.0 <= Cost(ByRun(us, run)) <= Cost(us)
    ensures 0 <= Tokens(ByPipeline(us, pipeline)) <= Tokens(us) && 0.0 <= Cost(ByPipeline(us, pipeline)) <= Cost(us)
  {
    if us != [] {
      var front, u := us[..|us| - 1], us[|us| - 1];
      PartAtMostWhole(front, run, pipeline);
    }
  }

  function ShareIn(us: seq<Usage>, pipeline: string): Share {
    var part := ByPipeline(us, pipeline);
    Share(|part|, Tokens(part), Cost(part))
  }

  // --- Every counter is exactly the sum of the calls it should count ---

  /** The totals of one run are those of its calls. */
  ghost predicate RunExact(runs: map<nat, RunTotals>, all: seq<Usage>, id: nat) {
    if id in runs then runs[id].tokens == Tokens(ByRun(all, id)) <= MAX_INT && runs[id].cost == Cost(ByRun(all, id))
    else ByRun(all, id) == []
  }

  ghost predicate RunsExact(runs: map<nat, RunTotals>, all: seq<Usage>) {
    forall id :: RunExact(runs, all, id)
  }

  ghost predicate PipelinesExact(l: Ledger, today: seq<Usage>) {
    && "" !in l.pipelineUsage
    && (forall p :: p != "" ==> ShareOf(l, p) == ShareIn(today, p))
  }

  ghost predicate DayExact(l: Ledger, today: seq<Usage>) {
    && l.tokensToday == Tokens(today) <= MAX_INT
    && l.costToday == Cost(today)
    && NonNegative(today)
  }

  /** At most one call is unsettled: the one that is out, or the one whose usage is unknown. */
  predicate GateExact(s: System) {
    && (s.gate != Free ==> s.gate.run in s.runs)
    && s.l.unsettled == (if s.gate.Sent? || s.stuck then 1 else 0)
    && (s.gate.Sent? ==> !s.stuck && !s.l.stateErr)
  }

  ghost predicate Exact(s: System) {
    && RunsExact(s.runs, s.all) && NonNegative(s.all)
    && PipelinesExact(s.l, s.today)
    && DayExact(s.l, s.today)
    && GateExact(s)
  }

  /** New limits for a run, or a new run, count nothing. */
  lemma SameTotalsKeep(runs: map<nat, RunTotals>, all: seq<Usage>, id: nat, r: RunTotals)
    requires RunsExact(runs, all)
    requires if id in runs then r.tokens == runs[id].tokens && r.cost == runs[id].cost else r.tokens == 0 && r.cost == 0.0
    ensures RunsExact(runs[id := r], all)
  {
    var after := runs[id := r];
    forall k: nat
      ensures RunExact(after, all, k)
    {
      assert RunExact(runs, all, k);
    }
  }

  lemma AdmitKeeps(s: System, cfg: Config, call: Call, day: int)
    requires Exact(s) && Enabled(s, Admit(cfg, call, day))
    ensures Exact(Step(s, Admit(cfg, call, day)))
  {
    var run := s.gate.run;
    SameTotalsKeep(s.runs, s.all, run, AfterAdmit(s.l, s.runs[run], cfg, call, day).1);
  }

  function CountedIn(r: RunTotals, u: Usage): RunTotals {
    r.(tokens := r.tokens + u.tokens, cost := r.cost + u.cost)
  }

  lemma SettleKeepsRuns(runs: map<nat, RunTotals>, all: seq<Usage>, u: Usage)
    requires RunsExact(runs, all) && u.run in runs && runs[u.run].tokens + u.tokens <= MAX_INT
    ensures RunsExact(runs[u.run := CountedIn(runs[u.run], u)], all + [u])
  {
    var runs' := runs[u.run := CountedIn(runs[u.run], u)];
    forall id: nat
      ensures RunExact(runs', all + [u], id)
    {
      assert RunExact(runs, all, id);
    }
  }

  lemma SettleKeepsShare(l: Ledger, today: seq<Usage>, u: Usage, p: string)
    requires p != "" && ShareOf(l, p) == ShareIn(today, p)
    requires u.call.pipeline == p ==> u.tokens <= MAX_INT - ShareOf(l, p).tokens && ValidCost(ShareOf(l, p).cost + u.cost)
    ensures ShareOf(AfterPipeline(l, u.call.pipeline, u.tokens, u.cost), p) == ShareIn(today + [u], p)
  {
    var q := u.call.pipeline;
    if q == p {
      var before := ShareOf(l, p);
      assert ShareOf(AfterPipeline(l, q, u.tokens, u.cost), p) ==
             Share(before.calls + 1, before.tokens + u.tokens, before.cost + u.cost);
    } else {
      assert ShareOf(AfterPipeline(l, q, u.tokens, u.cost), p) == ShareOf(l, p);
    }
  }

  lemma SettleKeepsPipelines(l: Ledger, today: seq<Usage>, u: Usage)
    requires PipelinesExact(l, today) && u.tokens <= MAX_INT - ShareOf(l, u.call.pipeline).tokens
    requires ValidCost(ShareOf(l, u.call.pipeline).cost + u.cost)
    ensures PipelinesExact(AfterPipeline(l, u.call.pipeline, u.tokens, u.cost), today + [u])
  {
    var l' := AfterPipeline(l, u.call.pipeline, u.tokens, u.cost);
    forall p: string | p != ""
      ensures ShareOf(l', p) == ShareIn(today + [u], p)
    {
      SettleKeepsShare(l, today, u, p);
    }
  }

  function Counted(l: Ledger, u: Usage): Ledger {
    AfterPipeline(l.(tokensToday := l.tokensToday + u.tokens, costToday := l.costToday + u.cost,
                     unsettled := l.unsettled - 1), u.call.pipeline, u.tokens, u.cost)
  }

  /** A settled call is added to the day, to its run and to its pipeline, once each. */
  function WithSettled(s: System, u: Usage): System
    requires u.run in s.runs
  {
    s.(l := Counted(s.l, u), runs := s.runs[u.run := CountedIn(s.runs[u.run], u)], gate := Leaving(u.run),
       all := s.all + [u], today := s.today + [u])
  }

  ghost predicate Fits(s: System, u: Usage) {
    && u.run in s.runs && u.tokens >= 0 && u.cost >= 0.0
    && s.runs[u.run].tokens + u.tokens <= MAX_INT
    && s.l.tokensToday + u.tokens <= MAX_INT
    && u.tokens <= MAX_INT - ShareOf(s.l, u.call.pipeline).tokens
    && ValidCost(ShareOf(s.l, u.call.pipeline).cost + u.cost)
  }

  /** The pipeline's total cannot overflow when the day's did not: that check of the source never fires. */
  lemma SettleFits(s: System, o: Outcome)
    requires Exact(s) && Enabled(s, Answered(o)) && Settles(s, o)
    ensures Fits(s, UsageOf(s, o))
  {
    var p := s.gate.call.pipeline;
    PartAtMostWhole(s.today, 0, p);
    if p != "" {
      assert ShareOf(s.l, p) == ShareIn(s.today, p);
    }
  }

  lemma SettleIs(s: System, o: Outcome)
    requires Exact(s) && Enabled(s, Answered(o)) && Settles(s, o)
    ensures Step(s, Answered(o)) == WithSettled(s, UsageOf(s, o))
  {
    SettleFits(s, o);
  }

  lemma CountedKeepsPipelines(s: System, u: Usage)
    requires PipelinesExact(s.l, s.today) && Fits(s, u)
    ensures PipelinesExact(Counted(s.l, u), s.today + [u])
  {
    var l := s.l.(tokensToday := s.l.tokensToday + u.tokens, costToday := s.l.costToday + u.cost, unsettled := s.l.unsettled - 1);
    SettleKeepsPipelines(l, s.today, u);
  }

  lemma CountedKeepsDay(s: System, u: Usage)
    requires DayExact(s.l, s.today) && Fits(s, u)
    ensures DayExact(Counted(s.l, u), s.today + [u])
  {
  }

  lemma WithSettledKeeps(s: System, u: Usage)
    requires Exact(s) && Fits(s, u) && s.gate.Sent? && s.gate.run == u.run
    ensures Exact(WithSettled(s, u))
  {
    assert RunsExact(WithSettled(s, u).runs, s.all + [u]) by {
      SettleKeepsRuns(s.runs, s.all, u);
    }
    assert PipelinesExact(Counted(s.l, u), s.today + [u]) by {
      CountedKeepsPipelines(s, u);
    }
    assert DayExact(Counted(s.l, u), s.today + [u]) by {
      CountedKeepsDay(s, u);
    }
  }

  lemma SettleKeeps(s: System, o: Outcome)
    requires Exact(s) && Enabled(s, Answered(o)) && Settles(s, o)
    ensures Exact(Step(s, Answered(o)))
  {
    SettleFits(s, o);
    SettleIs(s, o);
    WithSettledKeeps(s, UsageOf(s, o));
  }

  lemma UnsettledKeeps(s: System, o: Outcome)
    requires Exact(s) && Enabled(s, Answered(o)) && !Settles(s, o)
    ensures Exact(Step(s, Answered(o)))
  {
    var run := s.gate.run;
    SameTotalsKeep(s.runs, s.all, run, AfterFinish(s.l, s.runs[run], s.gate.call.pipeline, o).1);
    assert s.all + [] == s.all && s.today + [] == s.today;
  }

  lemma StepKeepsExact(s: System, e: Event)
    requires Exact(s)
    ensures Exact(Step(s, e))
  {
    if Enabled(s, e) {
      match e
      case Look(day) =>
      case NewRun(id, tokenLimit) =>
        SameTotalsKeep(s.runs, s.all, id, RunTotals(true, 0, 0.0, tokenLimit, s.l.pipelineCostLimit));
      case Admit(cfg, call, day) => AdmitKeeps(s, cfg, call, day);
      case Answered(o) =>
        if Settles(s, o) {
          SettleKeeps(s, o);
        } else {
          UnsettledKeeps(s, o);
        }
      case _ =>
    }
  }

  lemma {:induction false} ExactHolds(s: System, events: seq<Event>)
    requires Exact(s)
    ensures Exact(Run(s, events))
  {
    if events != [] {
      ExactHolds(s, events[..|events| - 1]);
      StepKeepsExact(Run(s, events[..|events| - 1]), events[|events| - 1]);
    }
  }

  lemma StartIsExact(day: int, dayCostLimit: real, pipelineCostLimit: real)
    ensures Exact(Start(day, dayCostLimit, pipelineCostLimit))
  {
  }

  // --- Nothing is admitted after an outcome nobody can count ---

  lemma {:induction false} BlockedForever(s: System, events: seq<Event>)
    requires Exact(s) && (s.stuck || s.l.stateErr)
    ensures var t := Run(s, events);
            (t.stuck || t.l.stateErr) && t.all == s.all && !t.gate.Sent?
  {
    if events != [] {
      var before := events[..|events| - 1];
      BlockedForever(s, before);
      ExactHolds(s, before);
    }
  }

  /** After an uncertain failure or an invalid response no call is ever admitted again. */
  lemma {:induction false} UncertainBlocks(s: System, o: Outcome, events: seq<Event>)
    requires Exact(s) && Enabled(s, Answered(o))
    requires if o.Failed? then o.uncertain else !ValidUsage(o)
    ensures var t := Run(Step(s, Answered(o)), events);
            t.all == s.all && !t.gate.Sent? && t.l.unsettled == 1
  {
    var s' := Step(s, Answered(o));
    StepKeepsExact(s, Answered(o));
    assert s'.all == s.all;
    BlockedForever(s', events);
    StaysStuck(s', events);
    ExactHolds(s', events);
  }

  lemma {:induction false} StaysStuck(s: System, events: seq<Event>)
    requires s.stuck
    ensures Run(s, events).stuck
  {
    if events != [] {
      StaysStuck(s, events[..|events| - 1]);
    }
  }

  // --- Conservation ---

  datatype Amount = Amount(tokens: int, cost: real)

  function Plus(a: Amount, b: Amount): Amount {
    Amount(a.tokens + b.tokens, a.cost + b.cost)
  }

  function Of(us: seq<Usage>): Amount {
    Amount(Tokens(us), Cost(us))
  }

  lemma SomeKey<K>(ks: set<K>)
    ensures ks == {} || exists k :: k in ks
  {
    if forall k :: k !in ks {
      assert ks == {};
    }
  }

  ghost function Pick<K>(ks: set<K>): (k: K)
    requires ks != {}
    ensures k in ks
  {
    SomeKey(ks);
    var k :| k in ks;
    k
  }

  ghost function SumOf<K(!new)>(ks: set<K>, f: K -> Amount): Amount {
    if ks == {} then Amount(0, 0.0) else Plus(f(Pick(ks)), SumOf(ks - {Pick(ks)}, f))
  }

  lemma {:induction false} SumWithout<K(!new)>(ks: set<K>, f: K -> Amount, k: K)
    requires k in ks
    ensures SumOf(ks, f) == Plus(f(k), SumOf(ks - {k}, f))
    decreases ks
  {
    var c := Pick(ks);
    if c != k {
      SumWithout(ks - {c}, f, k);
      SumWithout(ks - {k}, f, c);
      assert ks - {c} - {k} == ks - {k} - {c};
    }
  }

  lemma {:induction false} SumSame<K(!new)>(ks: set<K>, f: K -> Amount, g: K -> Amount)
    requires forall k :: k in ks ==> f(k) == g(k)
    ensures SumOf(ks, f) == SumOf(ks, g)
    decreases ks
  {
    if ks != {} {
      SumSame(ks - {Pick(ks)}, f, g);
    }
  }

  /** One more call under one key. */
  lemma SumBump<K(!new)>(ks: set<K>, f: K -> Amount, g: K -> Amount, k: K, a: Amount)
    requires k in ks && g(k) == Plus(f(k), a)
    requires forall x :: x in ks && x != k ==> f(x) == g(x)
    ensures SumOf(ks, g) == Plus(SumOf(ks, f), a)
  {
    SumWithout(ks, f, k);
    SumWithout(ks, g, k);
    SumSame(ks - {k}, f, g);
  }

  lemma {:induction false} SumZero<K(!new)>(ks: set<K>, f: K -> Amount)
    requires forall k :: k in ks ==> f(k) == Amount(0, 0.0)
    ensures SumOf(ks, f) == Amount(0, 0.0)
    decreases ks
  {
    if ks != {} {
      SumZero(ks - {Pick(ks)}, f);
    }
  }

  lemma PartSumsAppend<K>(us: seq<Usage>, u: Usage, key: Usage -> K, k: K)
    ensures Of(Part(us + [u], key, k)) ==
            if key(u) == k then Plus(Of(Part(us, key, k)), Amount(u.tokens, u.cost)) else Of(Part(us, key, k))
  {
    var all, part := us + [u], Part(us, key, k);
    assert all[..|all| - 1] == us && all[|all| - 1] == u;
    if key(u) == k {
      assert Part(all, key, k) == part + [u];
      assert (part + [u])[..|part|] == part;
    } else {
      assert Part(all, key, k) == part;
    }
  }

  ghost function SumOfParts<K(!new)>(us: seq<Usage>, key: Usage -> K, ks: set<K>): Amount {
    SumOf(ks, (k: K) => Of(Part(us, key, k)))
  }

  lemma PartsBump<K(!new)>(us: seq<Usage>, u: Usage, key: Usage -> K, ks: set<K>)
    requires key(u) in ks
    ensures SumOfParts(us + [u], key, ks) == Plus(SumOfParts(us, key, ks), Amount(u.tokens, u.cost))
  {
    var f, g := (k: K) => Of(Part(us, key, k)), (k: K) => Of(Part(us + [u], key, k));
    forall k | k in ks
      ensures g(k) == if k == key(u) then Plus(f(k), Amount(u.tokens, u.cost)) else f(k)
    {
      PartSumsAppend(us, u, key, k);
    }
    SumBump(ks, f, g, key(u), Amount(u.tokens, u.cost));
  }

  /** However the calls are told apart, the parts add up to the whole. */
  lemma {:induction false} PartsCover<K(!new)>(us: seq<Usage>, key: Usage -> K, ks: set<K>)
    requires forall i :: 0 <= i < |us| ==> key(us[i]) in ks
    ensures SumOfParts(us, key, ks) == Of(us)
  {
    if us == [] {
      SumZero(ks, (k: K) => Of(Part(us, key, k)));
    } else {
      var front, u := us[..|us| - 1], us[|us| - 1];
      PartsCover(front, key, ks);
      PartsBump(front, u, key, ks);
      assert us == front + [u];
    }
  }

  function RunAmount(s: System, id: nat): Amount {
    if id in s.runs then Amount(s.runs[id].tokens, s.runs[id].cost) else Amount(0, 0.0)
  }

  function ShareAmount(s: System, p: string): Amount {
    Amount(ShareOf(s.l, p).tokens, ShareOf(s.l, p).cost)
  }

  lemma EveryRunKnown(s: System, i: nat)
    requires RunsExact(s.runs, s.all) && i < |s.all|
    ensures s.all[i].run in s.runs
  {
    ListedIn(s.all, i);
    assert RunExact(s.runs, s.all, s.all[i].run);
  }

  lemma {:induction false} ListedIn(us: seq<Usage>, i: nat)
    requires i < |us|
    ensures ByRun(us, us[i].run) != [] && ByPipeline(us, us[i].call.pipeline) != []
  {
    if i < |us| - 1 {
      ListedIn(us[..|us| - 1], i);
    }
  }

  /** The totals the runs own add up to everything ever settled. */
  lemma RunTotalsAddUp(s: System, events: seq<Event>)
    requires Exact(s)
    ensures var t := Run(s, events);
            SumOf(t.runs.Keys, (id: nat) => RunAmount(t, id)) == Of(t.all)
  {
    var t := Run(s, events);
    ExactHolds(s, events);
    forall i | 0 <= i < |t.all|
      ensures t.all[i].run in t.runs.Keys
    {
      EveryRunKnown(t, i);
    }
    PartsCover(t.all, RunOf, t.runs.Keys);
    forall id | id in t.runs.Keys
      ensures RunAmount(t, id) == Of(Part(t.all, RunOf, id))
    {
      assert RunExact(t.runs, t.all, id);
    }
    SumSame(t.runs.Keys, (id: nat) => RunAmount(t, id), (id: nat) => Of(Part(t.all, RunOf, id)));
  }

  /** The pipelines' totals and the usage no pipeline is charged for add up to today's total. */
  lemma PipelineTotalsAddUp(s: System, events: seq<Event>)
    requires Exact(s)
    ensures var t := Run(s, events);
            Plus(SumOf(t.l.pipelineUsage.Keys, (p: string) => ShareAmount(t, p)), Of(ByPipeline(t.today, ""))) ==
            Amount(t.l.tokensToday, t.l.costToday)
  {
    var t := Run(s, events);
    ExactHolds(s, events);
    var named := t.l.pipelineUsage.Keys;
    var names := named + {""};
    forall i | 0 <= i < |t.today|
      ensures t.today[i].call.pipeline in names
    {
      ListedIn(t.today, i);
      var p := t.today[i].call.pipeline;
      if p != "" {
        assert ShareOf(t.l, p) == ShareIn(t.today, p);
      }
    }
    PartsCover(t.today, PipelineOf, names);
    SumWithout(names, (p: string) => Of(Part(t.today, PipelineOf, p)), "");
    assert names - {""} == named;
    forall p | p in named
      ensures ShareAmount(t, p) == Of(ByPipeline(t.today, p))
    {
      assert p != "";
      assert ShareOf(t.l, p) == ShareIn(t.today, p);
    }
    SumSame(named, (p: string) => ShareAmount(t, p), (p: string) => Of(Part(t.today, PipelineOf, p)));
  }

  // --- Caps, under one configuration ---

  datatype Limit = Limit(tokens: int, cost: real, reserve: bool)

  function DayLimit(cfg: Config): Limit {
    Limit(cfg.perDayTokens, cfg.perDayCost, cfg.reserveMaxCost)
  }

  function RunLimit(r: RunTotals, cfg: Config): Limit {
    Limit(r.tokenLimit, if r.child then cfg.perPipelineCost else 0.0, false)
  }

  function PipelineLimit(cfg: Config, p: string): Limit {
    var caps := PipelineCaps(cfg, p);
    Limit(caps.perDayTokens, caps.perDayCost, caps.reserveMaxCost)
  }

  /** No call cost more than the worst case it was admitted with. */
  predicate Honest(us: seq<Usage>) {
    forall i :: 0 <= i < |us| ==> us[i].cost <= us[i].call.worst
  }

  /** What the last call used beyond what it asked for. */
  function Excess(u: Usage): int {
    if u.tokens > u.call.requested then u.tokens - u.call.requested else 0
  }

  /**
   The limit is kept but for the last of these calls: its tokens beyond what it
   asked for, and its cost unless worst cases are reserved.
   */
  predicate Kept(us: seq<Usage>, limit: Limit) {
    us != [] ==>
      var last := us[|us| - 1];
      && (limit.tokens > 0 ==> Tokens(us) <= limit.tokens + Excess(last))
      && (limit.cost > 0.0 ==> Cost(us) < limit.cost + last.cost)
      && (limit.cost > 0.0 && limit.reserve && Honest(us) ==> Cost(us) <= limit.cost)
  }

  /** There is room for this call. */
  predicate Room(us: seq<Usage>, limit: Limit, a: Call) {
    && (limit.tokens > 0 ==> Tokens(us) + a.requested <= limit.tokens)
    && (limit.cost > 0.0 ==> Cost(us) < limit.cost)
    && (limit.cost > 0.0 && limit.reserve && a.worst > 0.0 ==> Cost(us) + a.worst <= limit.cost)
  }

  lemma RoomKeeps(us: seq<Usage>, limit: Limit, u: Usage)
    requires Room(us, limit, u.call)
    ensures Kept(us + [u], limit)
  {
    assert (us + [u])[|us|] == u;
  }

  lemma RoomOnNewDay(us: seq<Usage>, limit: Limit, a: Call)
    requires Room(us, limit, a) && NonNegative(us)
    ensures Room([], limit, a)
  {
    PartAtMostWhole(us, 0, "");
  }

  lemma {:induction false} PartNonNegative(us: seq<Usage>, p: string)
    requires NonNegative(us)
    ensures NonNegative(ByPipeline(us, p))
  {
    if us != [] {
      PartNonNegative(us[..|us| - 1], p);
    }
  }

  ghost predicate AllKept(s: System, cfg: Config) {
    && Kept(s.today, DayLimit(cfg))
    && (forall id :: id in s.runs ==> Kept(ByRun(s.all, id), RunLimit(s.runs[id], cfg)))
    && (forall p :: Kept(ByPipeline(s.today, p), PipelineLimit(cfg, p)))
  }

  predicate RoomForCall(s: System, cfg: Config) {
    s.gate.Sent? && s.gate.run in s.runs ==>
      var a := s.gate.call;
      && Room(s.today, DayLimit(cfg), a)
      && Room(ByRun(s.all, s.gate.run), RunLimit(s.runs[s.gate.run], cfg), a)
      && Room(ByPipeline(s.today, a.pipeline), PipelineLimit(cfg, a.pipeline), a)
  }

  ghost predicate WithinCaps(s: System, cfg: Config) {
    AllKept(s, cfg) && RoomForCall(s, cfg)
  }

  lemma LookWithinCaps(s: System, cfg: Config, day: int)
    requires Exact(s) && WithinCaps(s, cfg)
    ensures WithinCaps(Step(s, Look(day)), cfg)
  {
    if s.l.day != day && s.gate.Sent? {
      var a := s.gate.call;
      RoomOnNewDay(s.today, DayLimit(cfg), a);
      PartNonNegative(s.today, a.pipeline);
      RoomOnNewDay(ByPipeline(s.today, a.pipeline), PipelineLimit(cfg, a.pipeline), a);
    }
  }

  /** An admitted call has room under every cap. */
  lemma AdmittedHasRoom(s: System, cfg: Config, call: Call, day: int)
    requires Exact(s) && Enabled(s, Admit(cfg, call, day))
    ensures RoomForCall(Step(s, Admit(cfg, call, day)), cfg)
  {
    var t := Step(s, Admit(cfg, call, day));
    AdmitKeeps(s, cfg, call, day);
    assert RunExact(t.runs, t.all, s.gate.run);
    if call.pipeline != "" {
      assert ShareOf(t.l, call.pipeline) == ShareIn(t.today, call.pipeline);
    }
  }

  /** The request and the limits in force for it are numbers the ledger can compare. */
  predicate Usable(cfg: Config, child: bool, a: Call) {
    var caps := PipelineCaps(cfg, a.pipeline);
    && a.requested >= 0 && ValidCost(cfg.perDayCost) && (child ==> ValidCost(cfg.perPipelineCost))
    && (caps.perDayTokens > 0 || caps.perDayCost > 0.0 ==> caps.perDayTokens >= 0 && ValidCost(caps.perDayCost))
  }

  /** What the ledger has counted is never below zero. */
  lemma CountedNonNegative(s: System, day: int)
    requires Exact(s) && s.gate != Free
    ensures 0 <= Tokens(KeptToday(s, day)) && 0.0 <= Cost(KeptToday(s, day))
    ensures 0 <= s.runs[s.gate.run].tokens && 0.0 <= s.runs[s.gate.run].cost
  {
    var run := s.gate.run;
    PartAtMostWhole(KeptToday(s, day), 0, "");
    PartAtMostWhole(s.all, run, "");
    assert RunExact(s.runs, s.all, run);
  }

  /**
   A call is sent if and only if nothing is unresolved, its request and limits
   are usable, and the calls settled so far leave room for it under the day's,
   its run's and its pipeline's limits. A limit of zero leaves room for anything.
   */
  lemma AdmittedIff(s: System, cfg: Config, call: Call, day: int)
    requires Exact(s) && Enabled(s, Admit(cfg, call, day))
    ensures var r, today := s.runs[s.gate.run], KeptToday(s, day);
            Step(s, Admit(cfg, call, day)).gate == Sent(s.gate.run, call) <==>
            && !s.l.stateErr && !s.stuck && Usable(cfg, r.child, call)
            && Room(today, DayLimit(cfg), call)
            && Room(ByRun(s.all, s.gate.run), RunLimit(r, cfg), call)
            && Room(ByPipeline(today, call.pipeline), PipelineLimit(cfg, call.pipeline), call)
  {
    var t := Step(s, Admit(cfg, call, day));
    AdmitKeeps(s, cfg, call, day);
    CountedNonNegative(s, day);
    assert RunExact(s.runs, s.all, s.gate.run);
    if call.pipeline != "" {
      assert ShareOf(t.l, call.pipeline) == ShareIn(t.today, call.pipeline);
    }
  }

  lemma AdmitWithinCaps(s: System, cfg: Config, call: Call, day: int)
    requires Exact(s) && AllKept(s, cfg) && Enabled(s, Admit(cfg, call, day))
    ensures AllKept(Step(s, Admit(cfg, call, day)), cfg)
  {
  }

  /** One more call keeps the limit of every part: its own had room for it, the others are as they were. */
  lemma PartKept<K>(us: seq<Usage>, u: Usage, key: Usage -> K, k: K, limit: Limit)
    requires if key(u) == k then Room(Part(us, key, k), limit, u.call) else Kept(Part(us, key, k), limit)
    ensures Kept(Part(us + [u], key, k), limit)
  {
    assert (us + [u])[..|us|] == us;
    if key(u) == k {
      RoomKeeps(Part(us, key, k), limit, u);
    }
  }

  lemma SettledKept(s: System, cfg: Config, u: Usage)
    requires AllKept(s, cfg) && RoomForCall(s, cfg) && s.gate == Sent(u.run, u.call) && u.run in s.runs
    ensures AllKept(WithSettled(s, u), cfg)
  {
    var t := WithSettled(s, u);
    RoomKeeps(s.today, DayLimit(cfg), u);
    forall id | id in t.runs
      ensures Kept(ByRun(t.all, id), RunLimit(t.runs[id], cfg))
    {
      PartKept(s.all, u, RunOf, id, RunLimit(s.runs[id], cfg));
    }
    forall p: string
      ensures Kept(ByPipeline(t.today, p), PipelineLimit(cfg, p))
    {
      PartKept(s.today, u, PipelineOf, p, PipelineLimit(cfg, p));
    }
  }

  lemma SettleWithinCaps(s: System, cfg: Config, o: Outcome)
    requires Exact(s) && WithinCaps(s, cfg) && Enabled(s, Answered(o)) && Settles(s, o)
    ensures WithinCaps(Step(s, Answered(o)), cfg)
  {
    SettleIs(s, o);
    SettledKept(s, cfg, UsageOf(s, o));
  }

  predicate Uses(e: Event, cfg: Config) {
    e.Admit? ==> e.cfg == cfg
  }

  lemma StepWithinCaps(s: System, cfg: Config, e: Event)
    requires Exact(s) && WithinCaps(s, cfg) && Uses(e, cfg)
    ensures WithinCaps(Step(s, e), cfg)
  {
    if Enabled(s, e) {
      match e
      case Look(day) => LookWithinCaps(s, cfg, day);
      case NewRun(id, _) => assert RunExact(s.runs, s.all, id);
      case Admit(_, call, day) =>
        AdmittedHasRoom(s, cfg, call, day);
        AdmitWithinCaps(s, cfg, call, day);
      case Answered(o) =>
        if Settles(s, o) {
          SettleWithinCaps(s, cfg, o);
        } else {
          assert s.all + [] == s.all && s.today + [] == s.today;
        }
      case _ =>
    }
  }

  /** Every cap, over any run of callers, answers and day changes. */
  lemma {:induction false} CapsHold(s: System, cfg: Config, events: seq<Event>)
    requires Exact(s) && WithinCaps(s, cfg)
    requires forall i :: 0 <= i < |events| ==> Uses(events[i], cfg)
    ensures WithinCaps(Run(s, events), cfg)
  {
    if events != [] {
      CapsHold(s, cfg, events[..|events| - 1]);
      ExactHolds(s, events[..|events| - 1]);
      StepWithinCaps(Run(s, events[..|events| - 1]), cfg, events[|events| - 1]);
    }
  }

  /** From a fresh start: the day's tokens and, with reservation, its cost, in the ledger's own numbers. */
  lemma DayCapsHold(day: int, dayCostLimit: real, pipelineCostLimit: real, cfg: Config, events: seq<Event>)
    requires forall i :: 0 <= i < |events| ==> Uses(events[i], cfg)
    ensures var t := Run(Start(day, dayCostLimit, pipelineCostLimit), events);
            && (cfg.perDayTokens > 0 && t.today != [] ==>
                  t.l.tokensToday <= cfg.perDayTokens + Excess(t.today[|t.today| - 1]))
            && (cfg.perDayCost > 0.0 && t.today != [] ==>
                  t.l.costToday < cfg.perDayCost + t.today[|t.today| - 1].cost)
            && (cfg.perDayCost > 0.0 && cfg.reserveMaxCost && Honest(t.today) ==> t.l.costToday <= cfg.perDayCost)
  {
    var s := Start(day, dayCostLimit, pipelineCostLimit);
    CapsHold(s, cfg, events);
    ExactHolds(s, events);
  }
}
