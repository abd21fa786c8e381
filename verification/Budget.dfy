/**
 The budget ledger without an attached store (budget.go, provider_call.go): one
 shared day ledger, the totals each run owns, and the admission gate that
 lets one model call at a time be admitted, sent and settled.
 */
module Budget {
  import opened Wrappers

  const MAX_INT: int := 0x7fff_ffff_ffff_ffff

  /** A sum of two machine integers. */
  function Wrapped(x: int): int {
    if x > MAX_INT then x - 0x1_0000_0000_0000_0000 else x
  }

  predicate ValidCost(c: real) { c >= 0.0 }

  // --- Configuration ---

  datatype Caps = Caps(perDayTokens: int, perDayCost: real, reserveMaxCost: bool)

  const NO_CAPS := Caps(0, 0.0, false)

  predicate Capped(c: Caps) { c.perDayTokens > 0 || c.perDayCost > 0.0 }

  datatype Config = Config(perDayTokens: int, perDayCost: real, perPipelineCost: real, reserveMaxCost: bool,
                           pipelines: seq<(string, Caps)>)

  function FirstNamed(pipelines: seq<(string, Caps)>, name: string): Caps {
    if pipelines == [] then NO_CAPS
    else if pipelines[0].0 == name then pipelines[0].1
    else FirstNamed(pipelines[1..], name)
  }

  /** PipelineBudget: the caps of the first pipeline with the name, none for calls outside a pipeline. */
  function PipelineCaps(cfg: Config, name: string): Caps {
    if name == "" then NO_CAPS else FirstNamed(cfg.pipelines, name)
  }

  /** The first pipeline of that name in the configuration, and no caps without one. */
  lemma {:induction false} FirstNamedIs(pipelines: seq<(string, Caps)>, name: string, k: nat)
    requires k <= |pipelines| && forall j :: 0 <= j < k ==> pipelines[j].0 != name
    ensures k < |pipelines| && pipelines[k].0 == name ==> FirstNamed(pipelines, name) == pipelines[k].1
    ensures k == |pipelines| ==> FirstNamed(pipelines, name) == NO_CAPS
  {
    if k > 0 {
      FirstNamedIs(pipelines[1..], name, k - 1);
    }
  }

  /** costReservation: what a call holds against a daily cost cap. */
  function Reservation(on: bool, dayCap: real, worst: real): real {
    if !on || dayCap <= 0.0 || worst <= 0.0 then 0.0 else worst
  }

  // --- Prices ---

  datatype Model = Model(costIn: real, costOut: real)

  predicate Priced(m: Model) { m.costIn > 0.0 || m.costOut > 0.0 }

  /** The most one call can cost: an input token for every three bytes of prompt, and a full completion. */
  function WorstCaseCost(m: Model, promptBytes: int, maxTokens: int): real {
    if !Priced(m) || promptBytes < 0 || maxTokens < 0 then 0.0
    else (((promptBytes + 2) / 3) as real * m.costIn + maxTokens as real * m.costOut) / 1000.0
  }

  function CostAtRates(m: Model, inputTokens: int, outputTokens: int): real {
    inputTokens as real / 1000.0 * m.costIn + outputTokens as real / 1000.0 * m.costOut
  }

  /** At the configured rates no call of that size costs more, whatever it used. */
  lemma WorstCaseIsWorst(m: Model, promptBytes: nat, maxTokens: nat, inputTokens: nat, outputTokens: nat)
    requires m.costIn >= 0.0 && m.costOut >= 0.0
    requires 3 * inputTokens <= promptBytes + 2 && outputTokens <= maxTokens
    ensures CostAtRates(m, inputTokens, outputTokens) <= WorstCaseCost(m, promptBytes, maxTokens)
  {
    var a, b, x, y := inputTokens as real, outputTokens as real, ((promptBytes + 2) / 3) as real, maxTokens as real;
    Scaled(a, m.costIn);
    Scaled(b, m.costOut);
    if Priced(m) {
      assert inputTokens <= (promptBytes + 2) / 3;
    }
  }

  /** It is the cost of a call that uses all of it. */
  lemma WorstCaseAttained(m: Model, promptBytes: nat, maxTokens: nat)
    requires m.costIn >= 0.0 && m.costOut >= 0.0
    ensures WorstCaseCost(m, promptBytes, maxTokens) == CostAtRates(m, (promptBytes + 2) / 3, maxTokens)
  {
    var x, y := ((promptBytes + 2) / 3) as real, maxTokens as real;
    Scaled(x, m.costIn);
    Scaled(y, m.costOut);
  }

  lemma Scaled(a: real, c: real)
    ensures a / 1000.0 * c == a * c / 1000.0
    ensures c == 0.0 ==> a * c == 0.0
  {
  }

  // --- State ---

  datatype Share = Share(calls: int, tokens: int, cost: real)

  const NO_SHARE := Share(0, 0, 0.0)

  datatype Ledger = Ledger(stateErr: bool, unsettled: int, tokensToday: int, costToday: real, day: int,
                           dayCostLimit: real, pipelineCostLimit: real, pipelineUsage: map<string, Share>)

  /** What a tracker counts for itself; a child tracker belongs to one run. */
  datatype RunTotals = RunTotals(child: bool, tokens: int, cost: real, tokenLimit: int, costLimit: real)

  datatype Blocked =
    | LedgerUnavailable | Unresolved | InvalidLimits
    | DayTokens | RunTokens | DayCost | RunCost
    | PipelineInvalid | PipelineTokens | PipelineCost | PipelineReserve | DayReserve

  datatype Call = Call(pipeline: string, requested: int, worst: real)

  /** A response with its usage, or an error that may or may not leave the usage unknown. */
  datatype Outcome = Response(inputTokens: int, outputTokens: int, cost: real) | Failed(uncertain: bool)

  datatype Settlement = Settled | NothingSpent | UsageUnknown | InvalidUsage | LedgerBroken
                      | OverDayTokens | OverRunTokens | OverPipelineTokens

  function ShareOf(l: Ledger, pipeline: string): Share {
    if pipeline in l.pipelineUsage then l.pipelineUsage[pipeline] else NO_SHARE
  }

  function Refreshed(l: Ledger, day: int): Ledger {
    if l.day != day then l.(tokensToday := 0, costToday := 0.0, pipelineUsage := map[], day := day) else l
  }

  function Checked(l: Ledger, r: RunTotals, dayLimit: int, requested: int, dayCost: real, runCost: real): Option<Blocked> {
    if l.stateErr then Some(LedgerUnavailable)
    else if l.unsettled > 0 then Some(Unresolved)
    else if requested < 0 || l.tokensToday < 0 || r.tokens < 0 || !ValidCost(l.costToday) || !ValidCost(r.cost)
            || !ValidCost(dayCost) || !ValidCost(runCost) then Some(InvalidLimits)
    else if dayLimit > 0 && requested > dayLimit - l.tokensToday then Some(DayTokens)
    else if r.tokenLimit > 0 && requested > r.tokenLimit - r.tokens then Some(RunTokens)
    else if dayCost > 0.0 && l.costToday >= dayCost then Some(DayCost)
    else if runCost > 0.0 && r.cost >= runCost then Some(RunCost)
    else None
  }

  function PipelineChecked(l: Ledger, caps: Caps, a: Call): Option<Blocked> {
    var used := ShareOf(l, a.pipeline);
    var reserve := Reservation(caps.reserveMaxCost, caps.perDayCost, a.worst);
    if caps.perDayTokens < 0 || !ValidCost(caps.perDayCost) then Some(PipelineInvalid)
    else if caps.perDayTokens > 0 && a.requested > caps.perDayTokens - used.tokens then Some(PipelineTokens)
    else if caps.perDayCost > 0.0 && used.cost >= caps.perDayCost then Some(PipelineCost)
    else if reserve > 0.0 && used.cost + reserve > caps.perDayCost then Some(PipelineReserve)
    else None
  }

  /** Why a call is refused, given the ledger of its day and the limits in force. */
  function Refusal(l: Ledger, r: RunTotals, cfg: Config, a: Call): Option<Blocked> {
    var caps := PipelineCaps(cfg, a.pipeline);
    var reserve := Reservation(cfg.reserveMaxCost, cfg.perDayCost, a.worst);
    var general := Checked(l, r, cfg.perDayTokens, a.requested, cfg.perDayCost, if r.child then cfg.perPipelineCost else 0.0);
    if general.Some? then general
    else if Capped(caps) && PipelineChecked(l, caps, a).Some? then PipelineChecked(l, caps, a)
    else if reserve > 0.0 && l.costToday + reserve > cfg.perDayCost then Some(DayReserve)
    else None
  }

  /** admit: the day is refreshed and the limits are taken over whether or not the call is admitted. */
  function AfterAdmit(l: Ledger, r: RunTotals, cfg: Config, a: Call, day: int): (Ledger, RunTotals, Option<Blocked>) {
    var today := Refreshed(l, day).(dayCostLimit := cfg.perDayCost, pipelineCostLimit := cfg.perPipelineCost);
    var run := if r.child then r.(costLimit := cfg.perPipelineCost) else r;
    var refusal := Refusal(today, run, cfg, a);
    (if refusal.None? then today.(unsettled := today.unsettled + 1) else today, run, refusal)
  }

  predicate Recordable(l: Ledger, r: RunTotals, tokens: int, cost: real) {
    && tokens >= 0 && ValidCost(cost)
    && tokens <= MAX_INT - l.tokensToday && tokens <= MAX_INT - r.tokens
    && ValidCost(l.costToday + cost) && ValidCost(r.cost + cost)
  }

  function AfterRecord(l: Ledger, r: RunTotals, tokens: int, cost: real): (Ledger, RunTotals) {
    if !Recordable(l, r, tokens, cost) then (l.(stateErr := true), r)
    else (l.(tokensToday := l.tokensToday + tokens, costToday := l.costToday + cost),
          r.(tokens := r.tokens + tokens, cost := r.cost + cost))
  }

  function AfterPipeline(l: Ledger, pipeline: string, tokens: int, cost: real): Ledger {
    var u := ShareOf(l, pipeline);
    if pipeline == "" then l
    else if tokens > MAX_INT - u.tokens || !ValidCost(u.cost + cost) then l.(stateErr := true)
    else l.(pipelineUsage := l.pipelineUsage[pipeline := Share(u.calls + 1, u.tokens + tokens, u.cost + cost)])
  }

  /** The provider's numbers can be counted. */
  predicate ValidUsage(o: Outcome)
    requires o.Response?
  {
    o.inputTokens >= 0 && o.outputTokens >= 0 && Wrapped(o.inputTokens + o.outputTokens) >= 0 && ValidCost(o.cost)
  }

  predicate Counts(o: Outcome) {
    o.Response? && ValidUsage(o)
  }

  /** finish: a valid response is counted, a certain failure is released, anything else stays unsettled. */
  function AfterFinish(l: Ledger, r: RunTotals, pipeline: string, o: Outcome): (Ledger, RunTotals) {
    match o
    case Failed(uncertain) => (if uncertain then l else l.(unsettled := l.unsettled - 1), r)
    case Response(_, _, _) =>
      if !ValidUsage(o) then (l, r) else
        var tokens := Wrapped(o.inputTokens + o.outputTokens);
        var (l', r') := AfterRecord(l, r, tokens, o.cost);
        var l'' := l'.(unsettled := l'.unsettled - 1);
        (if l''.stateErr then l'' else AfterPipeline(l'', pipeline, tokens, o.cost), r')
  }

  /** BudgetTracker: the root holds the ledger, a child only its own totals. */
  class BudgetTracker {
    const parent: BudgetTracker?
    const tokenLimit: int
    var gateHeld: bool
    var stateErr: bool
    var unsettled: int
    var tokensToday: int
    var costToday: real
    var day: int
    var dayCostLimit: real
    var pipelineCostLimit: real
    var pipelineUsage: map<string, Share>
    var tokensPipeline: int
    var costPipeline: real
    var runCostLimit: real

    function Root(): BudgetTracker { if parent == null then this else parent }

    /** newRun always hangs a child under the root. */
    predicate Valid() { parent != null ==> parent.parent == null }

    function State(): Ledger
      reads this
    {
      Ledger(stateErr, unsettled, tokensToday, costToday, day, dayCostLimit, pipelineCostLimit, pipelineUsage)
    }

    function Totals(): RunTotals
      reads this
    {
      RunTotals(parent != null, tokensPipeline, costPipeline, tokenLimit, runCostLimit)
    }

    constructor (day: int, dayCostLimit: real, pipelineCostLimit: real)
      ensures parent == null && Valid() && !gateHeld
      ensures State() == Ledger(false, 0, 0, 0.0, day, dayCostLimit, pipelineCostLimit, map[])
      ensures Totals() == RunTotals(false, 0, 0.0, 0, 0.0)
    {
      this.parent, tokenLimit, gateHeld, stateErr, unsettled := null, 0, false, false, 0;
      tokensToday, costToday, this.day, pipelineUsage := 0, 0.0, day, map[];
      this.dayCostLimit, this.pipelineCostLimit := dayCostLimit, pipelineCostLimit;
      tokensPipeline, costPipeline, runCostLimit := 0, 0.0, 0.0;
    }

    constructor Child(root: BudgetTracker, tokenLimit: int)
      requires root.parent == null
      ensures parent == root && Valid()
      ensures Totals() == RunTotals(true, 0, 0.0, tokenLimit, root.pipelineCostLimit)
    {
      this.parent, this.tokenLimit, gateHeld, stateErr, unsettled := root, tokenLimit, false, false, 0;
      tokensToday, costToday, day, pipelineUsage := 0, 0.0, 0, map[];
      dayCostLimit, pipelineCostLimit := root.dayCostLimit, 0.0;
      tokensPipeline, costPipeline, runCostLimit := 0, 0.0, root.pipelineCostLimit;
    }

    method NewRun(tokenLimit: int) returns (run: BudgetTracker)
      requires Valid()
      ensures fresh(run) && run.Valid() && run.Root() == Root()
      ensures run.Totals() == RunTotals(true, 0, 0.0, tokenLimit, Root().pipelineCostLimit)
    {
      run := new BudgetTracker.Child(Root(), tokenLimit);
    }

    method Refresh(now: int)
      requires Valid()
      modifies Root()
      ensures Root().State() == Refreshed(old(Root().State()), now)
      ensures Totals() == old(Totals()) && Root().gateHeld == old(Root().gateHeld)
    {
      var r := Root();
      if r.day != now {
        r.tokensToday := 0;
        r.costToday := 0.0;
        r.pipelineUsage := map[];
        r.day := now;
      }
    }

    method CheckLocked(dayLimit: int, requested: int, dayCost: real, runCost: real) returns (blocked: Option<Blocked>)
      requires Valid()
      ensures blocked == Checked(Root().State(), Totals(), dayLimit, requested, dayCost, runCost)
    {
      var r := Root();
      if r.stateErr {
        return Some(LedgerUnavailable);
      }
      if r.unsettled > 0 {
        return Some(Unresolved);
      }
      if requested < 0 || r.tokensToday < 0 || tokensPipeline < 0 || !ValidCost(r.costToday) || !ValidCost(costPipeline)
         || !ValidCost(dayCost) || !ValidCost(runCost) {
        return Some(InvalidLimits);
      }
      if dayLimit > 0 && requested > dayLimit - r.tokensToday {
        return Some(DayTokens);
      }
      if tokenLimit > 0 && requested > tokenLimit - tokensPipeline {
        return Some(RunTokens);
      }
      if dayCost > 0.0 && r.costToday >= dayCost {
        return Some(DayCost);
      }
      if runCost > 0.0 && costPipeline >= runCost {
        return Some(RunCost);
      }
      return None;
    }

    method CheckPipelineDay(caps: Caps, a: Call) returns (blocked: Option<Blocked>)
      requires Valid()
      ensures blocked == PipelineChecked(Root().State(), caps, a)
    {
      var r := Root();
      if caps.perDayTokens < 0 || !ValidCost(caps.perDayCost) {
        return Some(PipelineInvalid);
      }
      var used := NO_SHARE;
      if a.pipeline in r.pipelineUsage {
        used := r.pipelineUsage[a.pipeline];
      }
      if caps.perDayTokens > 0 && a.requested > caps.perDayTokens - used.tokens {
        return Some(PipelineTokens);
      }
      if caps.perDayCost > 0.0 && used.cost >= caps.perDayCost {
        return Some(PipelineCost);
      }
      var reserve := Reservation(caps.reserveMaxCost, caps.perDayCost, a.worst);
      if reserve > 0.0 && used.cost + reserve > caps.perDayCost {
        return Some(PipelineReserve);
      }
      return None;
    }

    method Admit(cfg: Config, a: Call, now: int) returns (blocked: Option<Blocked>)
      requires Valid()
      modifies this, Root()
      ensures (Root().State(), Totals(), blocked) == AfterAdmit(old(Root().State()), old(Totals()), cfg, a, now)
      ensures Root().gateHeld == old(Root().gateHeld)
    {
      var r := Root();
      Refresh(now);
      r.dayCostLimit := cfg.perDayCost;
      r.pipelineCostLimit := cfg.perPipelineCost;
      var pipelineCost := 0.0;
      if parent != null {
        runCostLimit := cfg.perPipelineCost;
        pipelineCost := runCostLimit;
      }
      blocked := CheckLocked(cfg.perDayTokens, a.requested, r.dayCostLimit, pipelineCost);
      if blocked.Some? {
        return;
      }
      var caps := PipelineCaps(cfg, a.pipeline);
      if Capped(caps) {
        blocked := CheckPipelineDay(caps, a);
        if blocked.Some? {
          return;
        }
      }
      var reserve := Reservation(cfg.reserveMaxCost, r.dayCostLimit, a.worst);
      if reserve > 0.0 {
        if r.costToday + reserve > r.dayCostLimit {
          return Some(DayReserve);
        }
      }
      r.unsettled := r.unsettled + 1;
      return None;
    }

    method RecordUsage(tokens: int, cost: real)
      requires Valid()
      modifies this, Root()
      ensures (Root().State(), Totals()) == AfterRecord(old(Root().State()), old(Totals()), tokens, cost)
      ensures Root().gateHeld == old(Root().gateHeld)
    {
      var r := Root();
      if tokens < 0 || !ValidCost(cost) || tokens > MAX_INT - r.tokensToday || tokens > MAX_INT - tokensPipeline
         || !ValidCost(r.costToday + cost) || !ValidCost(costPipeline + cost) {
        r.stateErr := true;
        return;
      }
      r.tokensToday := r.tokensToday + tokens;
      r.costToday := r.costToday + cost;
      tokensPipeline := tokensPipeline + tokens;
      costPipeline := costPipeline + cost;
    }

    method RecordPipeline(pipeline: string, caps: Caps, tokens: int, cost: real) returns (over: Option<Settlement>)
      requires Valid()
      modifies Root()
      ensures Root().State() == AfterPipeline(old(Root().State()), pipeline, tokens, cost)
      ensures Totals() == old(Totals()) && Root().gateHeld == old(Root().gateHeld)
      ensures !old(Root().stateErr) ==>
                (over == Some(LedgerBroken) <==> Root().stateErr)
                && (over == Some(OverPipelineTokens) <==> !Root().stateErr && pipeline != "" && caps.perDayTokens > 0
                                                          && ShareOf(Root().State(), pipeline).tokens > caps.perDayTokens)
                && (over.None? || over.value in {LedgerBroken, OverPipelineTokens})
    {
      var r := Root();
      if pipeline == "" {
        return None;
      }
      var u := NO_SHARE;
      if pipeline in r.pipelineUsage {
        u := r.pipelineUsage[pipeline];
      }
      if tokens > MAX_INT - u.tokens || !ValidCost(u.cost + cost) {
        r.stateErr := true;
        return Some(LedgerBroken);
      }
      u := Share(u.calls + 1, u.tokens + tokens, u.cost + cost);
      r.pipelineUsage := r.pipelineUsage[pipeline := u];
      if caps.perDayTokens > 0 && u.tokens > caps.perDayTokens {
        return Some(OverPipelineTokens);
      }
      return None;
    }

    method Finish(pipeline: string, o: Outcome, cfg: Config) returns (s: Settlement)
      requires Valid()
      modifies this, Root()
      ensures (Root().State(), Totals()) == AfterFinish(old(Root().State()), old(Totals()), pipeline, o)
      ensures Root().gateHeld == old(Root().gateHeld)
      ensures s == InvalidUsage <==> o.Response? && !ValidUsage(o)
      ensures s == UsageUnknown <==> o.Failed? && o.uncertain
      ensures s == NothingSpent <==> o.Failed? && !o.uncertain
      ensures s == Settled <==>
                && o.Response? && ValidUsage(o) && !Root().stateErr
                && (cfg.perDayTokens > 0 ==> Root().tokensToday <= cfg.perDayTokens)
                && (tokenLimit > 0 ==> tokensPipeline <= tokenLimit)
                && (pipeline != "" && PipelineCaps(cfg, pipeline).perDayTokens > 0 ==>
                      ShareOf(Root().State(), pipeline).tokens <= PipelineCaps(cfg, pipeline).perDayTokens)
    {
      var r := Root();
      match o {
      case Response(inputTokens, outputTokens, cost) =>
        var tokens := Wrapped(inputTokens + outputTokens);
        if inputTokens < 0 || outputTokens < 0 || tokens < 0 || !ValidCost(cost) {
          return InvalidUsage;
        }
        RecordUsage(tokens, cost);
        r.unsettled := r.unsettled - 1;
        if r.stateErr {
          return LedgerBroken;
        }
        var over := RecordPipeline(pipeline, PipelineCaps(cfg, pipeline), tokens, cost);
        if cfg.perDayTokens > 0 && r.tokensToday > cfg.perDayTokens {
          return OverDayTokens;
        }
        if tokenLimit > 0 && tokensPipeline > tokenLimit {
          return OverRunTokens;
        }
        if over.Some? {
          return over.value;
        }
        return Settled;
      case Failed(uncertain) =>
        if !uncertain {
          r.unsettled := r.unsettled - 1;
          return NothingSpent;
        }
        return UsageUnknown;
      }
    }

    /** The bracket of callLLM around one provider call: the gate is free again on every path. */
    method CallProvider(cfg: Config, a: Call, now: int, canceled: bool, canceledLater: bool, o: Outcome)
      returns (blocked: Option<Blocked>, s: Option<Settlement>)
      requires Valid() && !Root().gateHeld
      modifies this, Root()
      ensures !Root().gateHeld
      ensures canceled || canceledLater ==>
                Root().State() == old(Root().State()) && Totals() == old(Totals()) && s.None?
      ensures !canceled && !canceledLater ==>
                var (l, r, refusal) := AfterAdmit(old(Root().State()), old(Totals()), cfg, a, now);
                && blocked == refusal && (s.None? <==> refusal.Some?)
                && (Root().State(), Totals()) == if refusal.Some? then (l, r) else AfterFinish(l, r, a.pipeline, o)
    {
      blocked, s := None, None;
      if canceled {
        return;
      }
      Root().gateHeld := true;
      if canceledLater {
        Root().gateHeld := false;
        return;
      }
      blocked := Admit(cfg, a, now);
      if blocked.Some? {
        Root().gateHeld := false;
        return;
      }
      var settlement := Finish(a.pipeline, o, cfg);
      s := Some(settlement);
      Root().gateHeld := false;
    }
  }
}
