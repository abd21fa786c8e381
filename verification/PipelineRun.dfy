/**
 One pipeline run (main.go, runPipeline; http_action.go): which steps run, what
 a gate must have said before they do, and which outbound requests are sent.
 Operators, models, stores and the network are arbitrary; they answer by the
 moment of the run, the number of events so far.
 */
module PipelineRun {
  import opened Wrappers

  datatype Kind = Approval | HttpRequest | OtherStep

  datatype Risk = Low | Normal | High

  datatype Step = Step(name: string, kind: Kind, risk: Risk, quorum: int)

  type Data = map<string, string>

  /** What is put before an operator, and the digest of the request it shows, if it shows one. */
  datatype Draft = Draft(text: string, digest: Option<string>)

  datatype Answer = Approve | Skip | Adjust(text: string) | GateError | OtherAction

  datatype Effect = Went(data: Data) | EndsRun | FailsRun

  datatype AutoRule = AutoRule(risk: Option<Risk>, pipeline: string, step: string, maxCost: real)

  /** Everything outside the run. A store may be missing: then nothing is kept and nothing fails. */
  datatype World = World(pipeline: string, rules: seq<AutoRule>, stored: bool,
                         answer: nat -> Answer, kept: nat -> bool, cost: nat -> real,
                         draftOf: Data -> string, render: (Step, Data) -> Option<(string, string)>,
                         rewrite: (nat, Data) -> Option<string>, revised: (Data, string) -> Data,
                         effect: (nat, Step, Data) -> Effect, response: nat -> Option<Data>, expired: nat -> bool)

  datatype How = ByOperators | ByPolicy

  datatype ReceiptKind = ApproveReceipt | PolicyReceipt | SkipReceipt | AdjustReceipt | TimeoutReceipt | QuorumFailReceipt

  /** What happened, in order. Passed is the moment a gate lets the run go on. */
  datatype Event =
    | Started(i: nat)
    | Asked(i: nat, draft: Draft)
    | Receipt(i: nat, kind: ReceiptKind, draft: Draft)
    | Passed(i: nat, how: How, draft: Draft)
    | Sent(i: nat, digest: string)

  datatype Outcome = Continues | Halted | Failed

  // --- Policy release ---

  /** AutoApproveRule.Match. */
  predicate Matches(r: AutoRule, pipeline: string, st: Step, cost: real) {
    && st.risk != High
    && r.risk == Some(st.risk)
    && (r.pipeline != "" ==> r.pipeline == pipeline)
    && (r.step != "" ==> r.step == st.name)
    && (r.maxCost > 0.0 ==> cost < r.maxCost)
  }

  /**
   A rule covers a step of its own risk, below high, in its pipeline and step or
   any, while the run cost less than its bound, if it has one.
   */
  lemma MatchesIff(r: AutoRule, pipeline: string, st: Step, cost: real)
    ensures Matches(r, pipeline, st, cost) <==>
            && (r.risk == Some(Low) || r.risk == Some(Normal)) && r.risk.value == st.risk
            && r.pipeline in ["", pipeline] && r.step in ["", st.name]
            && !(0.0 < r.maxCost <= cost)
  {
  }

  /** The first rule that covers the step. */
  function FirstMatch(rules: seq<AutoRule>, pipeline: string, st: Step, cost: real): Option<AutoRule> {
    if rules == [] then None
    else if Matches(rules[0], pipeline, st, cost) then Some(rules[0])
    else FirstMatch(rules[1..], pipeline, st, cost)
  }

  method AutoApproves(rules: seq<AutoRule>, pipeline: string, st: Step, cost: real) returns (rule: Option<AutoRule>)
    ensures rule == FirstMatch(rules, pipeline, st, cost)
    ensures rule.Some? ==> rule.value in rules && Matches(rule.value, pipeline, st, cost)
    ensures rule.None? ==> forall r :: r in rules ==> !Matches(r, pipeline, st, cost)
  {
    for k := 0 to |rules|
      invariant forall j :: 0 <= j < k ==> !Matches(rules[j], pipeline, st, cost)
      invariant FirstMatch(rules, pipeline, st, cost) == FirstMatch(rules[k..], pipeline, st, cost)
    {
      if Matches(rules[k], pipeline, st, cost) {
        return Some(rules[k]);
      }
    }
    return None;
  }

  // --- Which request an approval releases ---

  predicate Between(steps: seq<Step>, i: nat, j: nat) {
    forall k :: i < k < j && k < |steps| ==> steps[k].kind == OtherStep
  }

  function ReleasedFrom(steps: seq<Step>, j: nat): Option<nat>
    decreases |steps| - j
  {
    if j >= |steps| || steps[j].kind == Approval then None
    else if steps[j].kind == HttpRequest then Some(j)
    else ReleasedFrom(steps, j + 1)
  }

  /** releasedHTTPRequest: the next request step, unless another approval step comes first. */
  method ReleasedHTTPRequest(steps: seq<Step>, i: nat) returns (released: Option<nat>)
    requires i < |steps|
    ensures released == ReleasedFrom(steps, i + 1)
    ensures released.Some? ==>
              i < released.value < |steps| && steps[released.value].kind == HttpRequest && Between(steps, i, released.value)
    ensures released.None? ==>
              forall j :: i < j < |steps| && steps[j].kind == HttpRequest ==> exists k :: i < k < j && steps[k].kind == Approval
  {
    var j := i + 1;
    while j < |steps|
      invariant i < j <= |steps| && Between(steps, i, j)
      invariant ReleasedFrom(steps, i + 1) == ReleasedFrom(steps, j)
    {
      if steps[j].kind == Approval {
        return None;
      }
      if steps[j].kind == HttpRequest {
        return Some(j);
      }
      j := j + 1;
    }
    return None;
  }

  /**
   An approval step releases at most the requests up to the next approval step, so
   no request is released by two of them.
   */
  lemma OneReleaser(steps: seq<Step>, i: nat, k: nat, j: nat)
    requires i < j < |steps| && k < j && steps[i].kind == Approval && steps[k].kind == Approval
    requires Between(steps, i, j) && Between(steps, k, j)
    ensures i == k
  {
  }

  // --- What a trace must look like ---

  function MaxAdjust(st: Step): nat { if st.quorum >= 2 then 3 else 1 }

  function Asks(trace: seq<Event>, i: nat): nat {
    if trace == [] then 0
    else Asks(trace[..|trace| - 1], i) + (if trace[|trace| - 1].Asked? && trace[|trace| - 1].i == i then 1 else 0)
  }

  predicate IsAsked(e: Event) { e.Asked? }

  /** The last draft asked about was this one, at q, and the operators' answer was approve. */
  predicate ApprovedAt(w: World, before: seq<Event>, q: int, i: nat, draft: Draft) {
    && 0 <= q < |before| && before[q] == Asked(i, draft) && w.answer(q) == Approve
    && forall r :: q < r < |before| ==> !IsAsked(before[r])
  }

  /**
   The receipt for exactly this decision and draft is the last thing that happened,
   if there is a store to keep it.
   */
  predicate JustKept(w: World, before: seq<Event>, i: nat, kind: ReceiptKind, draft: Draft) {
    w.stored ==> before != [] && before[|before| - 1] == Receipt(i, kind, draft)
  }

  ghost predicate PassedBefore(before: seq<Event>, i: nat) {
    exists q :: 0 <= q < |before| && before[q].Passed? && before[q].i == i
  }

  ghost predicate ReleasedBefore(before: seq<Event>, digest: string) {
    exists q :: 0 <= q < |before| && before[q].Passed? && before[q].draft.digest == Some(digest)
  }

  predicate NotSent(before: seq<Event>, j: nat) {
    forall q :: 0 <= q < |before| ==> !(before[q].Sent? && before[q].i == j)
  }

  /** A person approved the last draft, or the policy covers a step that is not high risk. */
  ghost predicate Justified(w: World, st: Step, before: seq<Event>, i: nat, how: How, draft: Draft) {
    match how
    case ByOperators => JustKept(w, before, i, ApproveReceipt, draft) && exists q :: ApprovedAt(w, before, q, i, draft)
    case ByPolicy =>
      && JustKept(w, before, i, PolicyReceipt, draft)
      && st.risk != High && exists r, cost :: r in w.rules && Matches(r, w.pipeline, st, cost)
  }

  /** What must have happened before an event. */
  ghost predicate EventOk(w: World, steps: seq<Step>, before: seq<Event>, e: Event) {
    && e.i < |steps|
    && match e
       case Started(j) => forall i :: 0 <= i < j && steps[i].kind == Approval ==> PassedBefore(before, i)
       case Asked(i, _) => Asks(before, i) <= MaxAdjust(steps[i])
       case Receipt(_, _, _) => true
       case Passed(i, how, draft) => steps[i].kind == Approval && Justified(w, steps[i], before, i, how, draft)
       case Sent(j, digest) => steps[j].kind == HttpRequest && ReleasedBefore(before, digest) && NotSent(before, j)
  }

  /** Every event was preceded by what it needs. */
  ghost predicate Safe(w: World, steps: seq<Step>, trace: seq<Event>) {
    trace == [] || (Safe(w, steps, trace[..|trace| - 1]) && EventOk(w, steps, trace[..|trace| - 1], trace[|trace| - 1]))
  }

  lemma {:induction false} SafeAt(w: World, steps: seq<Step>, trace: seq<Event>, p: nat)
    requires Safe(w, steps, trace) && p < |trace|
    ensures EventOk(w, steps, trace[..p], trace[p])
  {
    var n := |trace| - 1;
    if p < n {
      SafeAt(w, steps, trace[..n], p);
      assert trace[..n][..p] == trace[..p];
    }
  }

  lemma PassedStays(trace: seq<Event>, e: Event, i: nat)
    requires PassedBefore(trace, i) || (e.Passed? && e.i == i)
    ensures PassedBefore(trace + [e], i)
  {
    if PassedBefore(trace, i) {
      var q :| 0 <= q < |trace| && trace[q].Passed? && trace[q].i == i;
      assert (trace + [e])[q] == trace[q];
    } else {
      assert (trace + [e])[|trace|] == e;
    }
  }

  /**
   What the run knows: its trace is safe, the gates before done have passed, the
   steps from fresh on have asked nobody and sent nothing, and every digest it
   holds was released.
   */
  ghost predicate Known(w: World, steps: seq<Step>, trace: seq<Event>, approved: map<string, string>, done: nat, fresh_: nat) {
    && done <= fresh_ <= |steps|
    && Safe(w, steps, trace)
    && GatesPassed(steps, trace, done)
    && (forall i :: fresh_ <= i < |steps| ==> Asks(trace, i) == 0)
    && (forall p :: 0 <= p < |trace| && trace[p].Sent? ==> trace[p].i < fresh_)
    && AllReleased(trace, approved)
  }

  ghost predicate GatesPassed(steps: seq<Step>, trace: seq<Event>, done: nat)
    requires done <= |steps|
  {
    forall i :: 0 <= i < done && steps[i].kind == Approval ==> PassedBefore(trace, i)
  }

  ghost predicate AllReleased(trace: seq<Event>, approved: map<string, string>) {
    forall name :: name in approved ==> ReleasedBefore(trace, approved[name])
  }

  lemma ReleasedStays(trace: seq<Event>, e: Event, digest: string)
    requires ReleasedBefore(trace, digest) || (e.Passed? && e.draft.digest == Some(digest))
    ensures ReleasedBefore(trace + [e], digest)
  {
    if ReleasedBefore(trace, digest) {
      var q :| 0 <= q < |trace| && trace[q].Passed? && trace[q].draft.digest == Some(digest);
      assert (trace + [e])[q] == trace[q];
    } else {
      assert (trace + [e])[|trace|] == e;
    }
  }

  lemma GatesPassedAppend(steps: seq<Step>, trace: seq<Event>, done: nat, e: Event)
    requires done <= |steps| && GatesPassed(steps, trace, done)
    ensures GatesPassed(steps, trace + [e], done)
    ensures done < |steps| && e.Passed? && e.i == done ==> GatesPassed(steps, trace + [e], done + 1)
  {
    forall i | 0 <= i <= done && i < |steps| && steps[i].kind == Approval && (PassedBefore(trace, i) || (e.Passed? && e.i == i))
      ensures PassedBefore(trace + [e], i)
    {
      PassedStays(trace, e, i);
    }
  }

  lemma AllReleasedAppend(trace: seq<Event>, approved: map<string, string>, e: Event)
    requires AllReleased(trace, approved)
    ensures AllReleased(trace + [e], approved)
  {
    forall name | name in approved
      ensures ReleasedBefore(trace + [e], approved[name])
    {
      ReleasedStays(trace, e, approved[name]);
    }
  }

  lemma KnownAppend(w: World, steps: seq<Step>, trace: seq<Event>, approved: map<string, string>, done: nat, fresh_: nat, e: Event)
    requires Known(w, steps, trace, approved, done, fresh_) && EventOk(w, steps, trace, e) && (e.Asked? || e.Sent? ==> e.i < fresh_)
    ensures Known(w, steps, trace + [e], approved, done, fresh_)
  {
    GatesPassedAppend(steps, trace, done, e);
    AllReleasedAppend(trace, approved, e);
    forall i | fresh_ <= i < |steps|
      ensures Asks(trace + [e], i) == 0
    {
    }
  }

  /** The gate of step i lets the run go on. */
  lemma KnownPassed(w: World, steps: seq<Step>, trace: seq<Event>, approved: map<string, string>, i: nat, how: How, draft: Draft,
                    released: Option<string>)
    requires i < |steps| && Known(w, steps, trace, approved, i, i + 1) && EventOk(w, steps, trace, Passed(i, how, draft))
    requires released.Some? ==> draft.digest.Some?
    ensures var approved' := if released.Some? then approved[released.value := draft.digest.value] else approved;
            Known(w, steps, trace + [Passed(i, how, draft)], approved', i + 1, i + 1)
  {
    var e := Passed(i, how, draft);
    KnownAppend(w, steps, trace, approved, i, i + 1, e);
    GatesPassedAppend(steps, trace, i, e);
    if released.Some? {
      ReleasedStays(trace, e, draft.digest.value);
    }
  }

  // --- The run, as a function of what its surroundings answer ---

  function Persisted(w: World, trace: seq<Event>, i: nat, kind: ReceiptKind, draft: Draft): (seq<Event>, bool) {
    if !w.stored then (trace, true)
    else if !w.kept(|trace|) then (trace, false)
    else (trace + [Receipt(i, kind, draft)], true)
  }

  /** What is shown for the released request, or the model's draft when there is none. */
  function Rendered(w: World, steps: seq<Step>, released: Option<nat>, data: Data, text: string): (d: Option<Draft>)
    requires released.Some? ==> released.value < |steps|
    ensures d.Some? && released.Some? ==> d.value.digest.Some?
  {
    if released.None? then Some(Draft(text, None)) else
      match w.render(steps[released.value], data)
      case None => None
      case Some(shown) => Some(Draft(shown.0, Some(shown.1)))
  }

  function ReceiptFor(answer: Answer): ReceiptKind {
    match answer
    case Approve => ApproveReceipt
    case Skip => SkipReceipt
    case Adjust(_) => AdjustReceipt
    case _ => TimeoutReceipt
  }

  /** One asking: the trace after it, the answer, and whether the store kept up. */
  function OneAsking(w: World, i: nat, draft: Draft, trace: seq<Event>): (seq<Event>, Answer, bool) {
    var asked := trace + [Asked(i, draft)];
    var answer := w.answer(|trace|);
    if w.stored && !w.kept(|trace|) then (trace, OtherAction, false)
    else if w.stored && !w.kept(|asked|) then (asked, answer, false)
    else
      var (after, ok) := Persisted(w, asked, i, ReceiptFor(answer), draft);
      (after, answer, ok)
  }

  function Rewritten(w: World, steps: seq<Step>, released: Option<nat>, now: nat, data: Data): (Option<Draft>, Data)
    requires released.Some? ==> released.value < |steps|
  {
    match w.rewrite(now, data)
    case None => (None, data)
    case Some(text) =>
      var after := if released.Some? then w.revised(data, text) else data;
      (Rendered(w, steps, released, after, text), after)
  }

  datatype Turn = Again(trace: seq<Event>, data: Data, draft: Draft)
                | Ended(trace: seq<Event>, data: Data, draft: Draft, outcome: Outcome)

  /** One turn of the gate's loop, after cycles rewrites. */
  function GateTurn(w: World, steps: seq<Step>, i: nat, released: Option<nat>, draft: Draft, trace: seq<Event>, data: Data, cycles: nat)
    : Turn
    requires i < |steps| && (released.Some? ==> released.value < |steps|)
  {
    var (asked, answer, ok) := OneAsking(w, i, draft, trace);
    if !ok then Ended(asked, data, draft, Failed)
    else if answer == Approve then Ended(asked, data, draft, Continues)
    else if answer == Skip then Ended(asked, data, draft, Halted)
    else if !answer.Adjust? then Ended(asked, data, draft, Failed)
    else if cycles + 1 > MaxAdjust(steps[i]) then
      var (after, ok') := if steps[i].quorum >= 2 then Persisted(w, asked, i, QuorumFailReceipt, draft) else (asked, true);
      Ended(after, data, draft, if ok' then Halted else Failed)
    else
      var (next, after) := Rewritten(w, steps, released, |asked|, data);
      if next.None? then Ended(asked, after, draft, Failed) else Again(asked, after, next.value)
  }

  /** The gate from the point where cycles rewrites have been made. */
  function Gate(w: World, steps: seq<Step>, i: nat, released: Option<nat>, draft: Draft, trace: seq<Event>, data: Data, cycles: nat)
    : (seq<Event>, Data, Draft, Outcome)
    requires i < |steps| && cycles <= MaxAdjust(steps[i]) && (released.Some? ==> released.value < |steps|)
    decreases MaxAdjust(steps[i]) - cycles
  {
    match GateTurn(w, steps, i, released, draft, trace, data, cycles)
    case Ended(after, data', last, outcome) => (after, data', last, outcome)
    case Again(after, data', next) => Gate(w, steps, i, released, next, after, data', cycles + 1)
  }

  function Bound(steps: seq<Step>, released: Option<nat>, approved: map<string, string>, draft: Draft): map<string, string>
    requires released.Some? ==> released.value < |steps|
  {
    if released.Some? && draft.digest.Some? then approved[steps[released.value].name := draft.digest.value] else approved
  }

  lemma ReleasedInRange(steps: seq<Step>, j: nat)
    ensures ReleasedFrom(steps, j).Some? ==> ReleasedFrom(steps, j).value < |steps|
    decreases |steps| - j
  {
  }

  function AfterApproval(w: World, steps: seq<Step>, i: nat, trace: seq<Event>, approved: map<string, string>, data: Data)
    : (seq<Event>, map<string, string>, Data, Outcome)
    requires i < |steps|
  {
    ReleasedInRange(steps, i + 1);
    var released := ReleasedFrom(steps, i + 1);
    match Rendered(w, steps, released, data, w.draftOf(data))
    case None => (trace, approved, data, Failed)
    case Some(draft) =>
      if FirstMatch(w.rules, w.pipeline, steps[i], w.cost(|trace|)).Some? then
        var (after, ok) := Persisted(w, trace, i, PolicyReceipt, draft);
        if !ok then (after, approved, data, Failed)
        else (after + [Passed(i, ByPolicy, draft)], Bound(steps, released, approved, draft), data, Continues)
      else
        var (after, data', last, outcome) := Gate(w, steps, i, released, draft, trace, data, 0);
        if outcome != Continues then (after, approved, data', outcome)
        else (after + [Passed(i, ByOperators, last)], Bound(steps, released, approved, last), data', Continues)
  }

  function AfterRequest(w: World, st: Step, j: nat, trace: seq<Event>, approved: map<string, string>, data: Data)
    : (seq<Event>, Data, Outcome)
  {
    var bound := if st.name in approved then approved[st.name] else "";
    match w.render(st, data)
    case None => (trace, data, Failed)
    case Some(request) =>
      if bound == "" || request.1 != bound then (trace, data, Failed) else
        var sent := trace + [Sent(j, bound)];
        match w.response(|sent|)
        case None => (sent, data, Failed)
        case Some(after) => (sent, after, Continues)
  }

  /** One step of the run. */
  function AfterStep(w: World, steps: seq<Step>, i: nat, trace: seq<Event>, approved: map<string, string>, data: Data)
    : (seq<Event>, map<string, string>, Data, Outcome)
    requires i < |steps|
  {
    var started := trace + [Started(i)];
    if w.expired(|trace|) then (trace, approved, data, Failed) else
      match steps[i].kind
      case Approval => AfterApproval(w, steps, i, started, approved, data)
      case HttpRequest =>
        var (after, data', outcome) := AfterRequest(w, steps[i], i, started, approved, data);
        (after, approved, data', outcome)
      case OtherStep =>
        match w.effect(|started|, steps[i], data)
        case EndsRun => (started, approved, data, Halted)
        case FailsRun => (started, approved, data, Failed)
        case Went(data') => (started, approved, data', Continues)
  }

  /** The run from step i on. */
  function RunFrom(w: World, steps: seq<Step>, i: nat, trace: seq<Event>, approved: map<string, string>, data: Data)
    : (seq<Event>, Outcome)
    requires i <= |steps|
    decreases |steps| - i
  {
    if i == |steps| then (trace, Continues) else
      var (after, approved', data', outcome) := AfterStep(w, steps, i, trace, approved, data);
      if outcome != Continues then (after, outcome) else RunFrom(w, steps, i + 1, after, approved', data')
  }

  // --- What the operators' answers come to ---

  /** The store keeps every receipt, the model rewrites and requests render whenever asked to. */
  ghost predicate Dependable(w: World) {
    && (forall n :: w.kept(n))
    && (forall n, d :: w.rewrite(n, d).Some?)
    && (forall st, d :: w.render(st, d).Some?)
  }

  /**
   The moment of the k-th asking of a gate that starts at start: each asking before
   it left an event, and one for its receipt.
   */
  function AskAt(w: World, start: nat, k: nat): nat { if w.stored then start + 2 * k else start + k }

  function KeptAs(w: World, e: Event): seq<Event> { if w.stored then [e] else [] }

  /** The history with one asking more, and its receipt. */
  function WithAsking(w: World, i: nat, trace: seq<Event>, draft: Draft, kind: ReceiptKind): (after: seq<Event>)
    ensures trace <= after && |after| == AskAt(w, |trace|, 1) && after[|trace|] == Asked(i, draft)
    ensures w.stored ==> after[|trace| + 1] == Receipt(i, kind, draft)
  {
    trace + [Asked(i, draft)] + KeptAs(w, Receipt(i, kind, draft))
  }

  /** The history when the gate gives up: a quorum's failure has a receipt of its own. */
  function GivenUp(w: World, st: Step, i: nat, trace: seq<Event>, draft: Draft): (after: seq<Event>)
    ensures trace <= after
  {
    trace + (if st.quorum >= 2 then KeptAs(w, Receipt(i, QuorumFailReceipt, draft)) else [])
  }

  /** The k-th answer is the first other than Adjust, or there were max + 1 adjustments. */
  ghost predicate FirstOther(w: World, start: nat, max: nat, k: nat) {
    && k <= max + 1
    && (forall j :: 0 <= j < k ==> w.answer(AskAt(w, start, j)).Adjust?)
    && (k <= max ==> !w.answer(AskAt(w, start, k)).Adjust?)
  }

  lemma {:induction false} SomeFirstOther(w: World, start: nat, max: nat, from: nat)
    requires from <= max + 1 && forall j :: 0 <= j < from ==> w.answer(AskAt(w, start, j)).Adjust?
    ensures exists k :: FirstOther(w, start, max, k)
    decreases max + 1 - from
  {
    if from <= max && w.answer(AskAt(w, start, from)).Adjust? {
      SomeFirstOther(w, start, max, from + 1);
    } else {
      assert FirstOther(w, start, max, from);
    }
  }

  /** From start on the gate asked k times, and kept an adjustment after each. */
  predicate AdjustedTo(w: World, i: nat, start: nat, trace: seq<Event>, k: nat) {
    && AskAt(w, start, k) <= |trace|
    && forall j :: 0 <= j < k ==>
         var q := AskAt(w, start, j);
         trace[q].Asked? && trace[q].i == i && (w.stored ==> trace[q + 1] == Receipt(i, AdjustReceipt, trace[q].draft))
  }

  /** The k-th asking was the last, and kind was kept for it; the history is then n long. */
  predicate AnsweredBy(w: World, i: nat, trace: seq<Event>, q: nat, kind: ReceiptKind) {
    && q < |trace| && trace[q].Asked? && trace[q].i == i
    && AskAt(w, q, 1) <= |trace|
    && (w.stored ==> trace[q + 1] == Receipt(i, kind, trace[q].draft))
  }

  /** What one gate comes to, by the first answer other than Adjust. */
  predicate GateComes(w: World, st: Step, i: nat, start: nat, trace: seq<Event>, draft: Draft, outcome: Outcome, k: nat) {
    var q := AskAt(w, start, k);
    && AdjustedTo(w, i, start, trace, k)
    && if k > MaxAdjust(st) then
         outcome == Halted && trace == GivenUp(w, st, i, trace[..q], draft)
       else
         var kind := match w.answer(q) case Approve => ApproveReceipt case Skip => SkipReceipt case _ => TimeoutReceipt;
         && AnsweredBy(w, i, trace, q, kind) && trace[q].draft == draft && |trace| == AskAt(w, q, 1)
         && outcome == match w.answer(q) case Approve => Continues case Skip => Halted case _ => Failed
  }

  /** The run's data after k rewrites of a gate that starts at start. */
  function DataAt(w: World, released: Option<nat>, start: nat, data: Data, k: nat): Data {
    if k == 0 then data else
      var before := DataAt(w, released, start, data, k - 1);
      var text := w.rewrite(AskAt(w, start, k), before);
      if released.Some? && text.Some? then w.revised(before, text.value) else before
  }

  /** The draft of its k-th asking: the first one, or the rewrite, or the request that the rewrite makes. */
  ghost function ShownAt(w: World, steps: seq<Step>, released: Option<nat>, start: nat, first: Draft, data: Data, k: nat): Draft
    requires Dependable(w) && (released.Some? ==> released.value < |steps|)
  {
    if k == 0 then first
    else if released.None? then Draft(w.rewrite(AskAt(w, start, k), DataAt(w, released, start, data, k - 1)).value, None)
    else
      var request := w.render(steps[released.value], DataAt(w, released, start, data, k)).value;
      Draft(request.0, Some(request.1))
  }

  lemma DependableAsking(w: World, i: nat, draft: Draft, trace: seq<Event>)
    requires Dependable(w)
    ensures var answer := w.answer(|trace|);
            OneAsking(w, i, draft, trace) ==
            (WithAsking(w, i, trace, draft, ReceiptFor(answer)), answer, true)
  {
    var asked := trace + [Asked(i, draft)];
    assert asked + [] == asked;
  }

  /** A rewrite, and the draft that is shown next. */
  ghost function NextData(w: World, released: Option<nat>, now: nat, data: Data): Data
    requires Dependable(w)
  {
    if released.Some? then w.revised(data, w.rewrite(now, data).value) else data
  }

  ghost function NextDraft(w: World, steps: seq<Step>, released: Option<nat>, now: nat, data: Data): Draft
    requires Dependable(w) && (released.Some? ==> released.value < |steps|)
  {
    if released.None? then Draft(w.rewrite(now, data).value, None)
    else
      var request := w.render(steps[released.value], NextData(w, released, now, data)).value;
      Draft(request.0, Some(request.1))
  }

  /** One turn of a dependable gate. */
  lemma DependableTurn(w: World, steps: seq<Step>, i: nat, released: Option<nat>, draft: Draft, trace: seq<Event>, data: Data, c: nat)
    requires Dependable(w) && i < |steps| && c <= MaxAdjust(steps[i]) && (released.Some? ==> released.value < |steps|)
    ensures var answer := w.answer(|trace|);
            var asked := WithAsking(w, i, trace, draft, ReceiptFor(answer));
            Gate(w, steps, i, released, draft, trace, data, c) ==
            if !answer.Adjust? then
              (asked, data, draft, if answer == Approve then Continues else if answer == Skip then Halted else Failed)
            else if c == MaxAdjust(steps[i]) then
              (GivenUp(w, steps[i], i, asked, draft), data, draft, Halted)
            else
              Gate(w, steps, i, released, NextDraft(w, steps, released, |asked|, data), asked,
                   NextData(w, released, |asked|, data), c + 1)
  {
    var asked := WithAsking(w, i, trace, draft, ReceiptFor(w.answer(|trace|)));
    DependableAsking(w, i, draft, trace);
    TurnGoesOn(w, steps, i, released, draft, trace, data, c);
    assert asked + [] == asked;
  }

  lemma NextIsShown(w: World, steps: seq<Step>, released: Option<nat>, start: nat, first: Draft, data: Data, c: nat)
    requires Dependable(w) && (released.Some? ==> released.value < |steps|)
    ensures var now, at := DataAt(w, released, start, data, c), AskAt(w, start, c + 1);
            && NextData(w, released, at, now) == DataAt(w, released, start, data, c + 1)
            && NextDraft(w, steps, released, at, now) == ShownAt(w, steps, released, start, first, data, c + 1)
  {
  }

  lemma AdjustedMore(w: World, i: nat, start: nat, trace: seq<Event>, k: nat, draft: Draft)
    requires AdjustedTo(w, i, start, trace, k) && |trace| == AskAt(w, start, k)
    ensures var after := WithAsking(w, i, trace, draft, AdjustReceipt);
            AdjustedTo(w, i, start, after, k + 1) && |after| == AskAt(w, start, k + 1)
  {
    AdjustedStays(w, i, start, trace, WithAsking(w, i, trace, draft, AdjustReceipt), k);
  }

  lemma AdjustedStays(w: World, i: nat, start: nat, trace: seq<Event>, after: seq<Event>, k: nat)
    requires AdjustedTo(w, i, start, trace, k) && trace <= after
    ensures AdjustedTo(w, i, start, after, k)
  {
    forall j | 0 <= j < k
      ensures var q := AskAt(w, start, j);
              after[q].Asked? && after[q].i == i && (w.stored ==> after[q + 1] == Receipt(i, AdjustReceipt, after[q].draft))
    {
      var q := AskAt(w, start, j);
      assert after[q] == trace[q] && (w.stored ==> after[q + 1] == trace[q + 1]);
    }
  }

  /** The k-th answer ends the gate. */
  lemma LastAnswer(w: World, st: Step, i: nat, start: nat, trace: seq<Event>, draft: Draft, k: nat)
    requires AdjustedTo(w, i, start, trace, k) && |trace| == AskAt(w, start, k) && k <= MaxAdjust(st)
    requires !w.answer(|trace|).Adjust?
    ensures var answer := w.answer(|trace|);
            GateComes(w, st, i, start, WithAsking(w, i, trace, draft, ReceiptFor(answer)), draft,
                      if answer == Approve then Continues else if answer == Skip then Halted else Failed, k)
  {
    AdjustedStays(w, i, start, trace, WithAsking(w, i, trace, draft, ReceiptFor(w.answer(|trace|))), k);
  }

  /** One adjustment too many. */
  lemma TooMany(w: World, st: Step, i: nat, start: nat, trace: seq<Event>, draft: Draft, k: nat)
    requires AdjustedTo(w, i, start, trace, k) && |trace| == AskAt(w, start, k) && k > MaxAdjust(st)
    ensures GateComes(w, st, i, start, GivenUp(w, st, i, trace, draft), draft, Halted, k)
  {
    var after := GivenUp(w, st, i, trace, draft);
    AdjustedStays(w, i, start, trace, after, k);
    assert after[..|trace|] == trace;
  }

  lemma TurnGoesOn(w: World, steps: seq<Step>, i: nat, released: Option<nat>, draft: Draft, trace: seq<Event>, data: Data, cycles: nat)
    requires i < |steps| && cycles <= MaxAdjust(steps[i]) && (released.Some? ==> released.value < |steps|)
    ensures var turn := GateTurn(w, steps, i, released, draft, trace, data, cycles);
            && (turn.Again? ==> cycles < MaxAdjust(steps[i]) && Gate(w, steps, i, released, draft, trace, data, cycles) ==
                                  Gate(w, steps, i, released, turn.draft, turn.trace, turn.data, cycles + 1))
            && (turn.Ended? ==> Gate(w, steps, i, released, draft, trace, data, cycles) ==
                                  (turn.trace, turn.data, turn.draft, turn.outcome))
  {
  }

  lemma PrefixOf<T>(a: seq<T>, b: seq<T>, c: seq<T>)
    requires a <= b <= c
    ensures a <= c
  {
  }

  type GateResult = (seq<Event>, Data, Draft, Outcome)

  /** Its last answer ends the gate, or it gives up. */
  lemma LastTurn(w: World, steps: seq<Step>, i: nat, released: Option<nat>, draft: Draft, start: nat, trace: seq<Event>, data: Data,
                 c: nat, k: nat)
    requires Dependable(w) && i < |steps| && (released.Some? ==> released.value < |steps|) && c <= MaxAdjust(steps[i])
    requires AdjustedTo(w, i, start, trace, c) && |trace| == AskAt(w, start, c)
    requires if w.answer(|trace|).Adjust? then c == MaxAdjust(steps[i]) && k == c + 1 else k == c
    ensures var r := Gate(w, steps, i, released, draft, trace, data, c);
            trace <= r.0 && r.1 == data && r.2 == draft && GateComes(w, steps[i], i, start, r.0, r.2, r.3, k)
  {
    var asked := WithAsking(w, i, trace, draft, ReceiptFor(w.answer(|trace|)));
    DependableTurn(w, steps, i, released, draft, trace, data, c);
    if k == c {
      LastAnswer(w, steps[i], i, start, trace, draft, k);
    } else {
      AdjustedMore(w, i, start, trace, c, draft);
      TooMany(w, steps[i], i, start, asked, draft, k);
      PrefixOf(trace, asked, GivenUp(w, steps[i], i, asked, draft));
    }
  }

  /** What the gate gives, from a start with this draft and data: its history, data, draft and outcome. */
  ghost predicate GateGives(w: World, steps: seq<Step>, i: nat, released: Option<nat>, first: Draft, start: nat, data: Data, k: nat,
                            r: GateResult)
    requires Dependable(w) && i < |steps| && (released.Some? ==> released.value < |steps|)
  {
    var asked := if k > MaxAdjust(steps[i]) then MaxAdjust(steps[i]) else k;
    && GateComes(w, steps[i], i, start, r.0, r.2, r.3, k)
    && r.2 == ShownAt(w, steps, released, start, first, data, asked)
    && r.1 == DataAt(w, released, start, data, asked)
  }

  /** A gate that started at start with this draft and data and has been adjusted c times. */
  ghost predicate GateAt(w: World, steps: seq<Step>, i: nat, released: Option<nat>, first: Draft, start: nat, data: Data,
                         trace: seq<Event>, draft: Draft, now: Data, c: nat)
    requires Dependable(w) && i < |steps| && (released.Some? ==> released.value < |steps|)
  {
    && c <= MaxAdjust(steps[i])
    && AdjustedTo(w, i, start, trace, c) && |trace| == AskAt(w, start, c)
    && draft == ShownAt(w, steps, released, start, first, data, c) && now == DataAt(w, released, start, data, c)
  }

  /** The answer ends it. */
  lemma LastGives(w: World, steps: seq<Step>, i: nat, released: Option<nat>, first: Draft, start: nat, data: Data,
                  trace: seq<Event>, draft: Draft, now: Data, c: nat, k: nat)
    requires Dependable(w) && i < |steps| && (released.Some? ==> released.value < |steps|)
    requires GateAt(w, steps, i, released, first, start, data, trace, draft, now, c)
    requires if w.answer(|trace|).Adjust? then c == MaxAdjust(steps[i]) && k == c + 1 else k == c
    ensures var r := Gate(w, steps, i, released, draft, trace, now, c);
            trace <= r.0 && GateGives(w, steps, i, released, first, start, data, k, r)
  {
    LastTurn(w, steps, i, released, draft, start, trace, now, c, k);
  }

  /** An adjustment within the limit asks again. */
  lemma NextTurn(w: World, steps: seq<Step>, i: nat, released: Option<nat>, first: Draft, start: nat, data: Data,
                 trace: seq<Event>, draft: Draft, now: Data, c: nat)
    returns (asked: seq<Event>, draft': Draft, now': Data)
    requires Dependable(w) && i < |steps| && (released.Some? ==> released.value < |steps|)
    requires GateAt(w, steps, i, released, first, start, data, trace, draft, now, c)
    requires c < MaxAdjust(steps[i]) && w.answer(|trace|).Adjust?
    ensures trace <= asked && GateAt(w, steps, i, released, first, start, data, asked, draft', now', c + 1)
    ensures Gate(w, steps, i, released, draft, trace, now, c) == Gate(w, steps, i, released, draft', asked, now', c + 1)
  {
    asked := WithAsking(w, i, trace, draft, AdjustReceipt);
    AdjustedMore(w, i, start, trace, c, draft);
    DependableTurn(w, steps, i, released, draft, trace, now, c);
    NextIsShown(w, steps, released, start, first, data, c);
    draft', now' := NextDraft(w, steps, released, |asked|, now), NextData(w, released, |asked|, now);
  }

  lemma AnswerAt(w: World, start: nat, max: nat, k: nat, c: nat)
    requires FirstOther(w, start, max, k) && c <= k && c <= max
    ensures w.answer(AskAt(w, start, c)).Adjust? <==> c < k
  {
  }

  /** The gate gets to its c-th rewrite when there are that many adjustments. */
  lemma {:induction false} GateReaches(w: World, steps: seq<Step>, i: nat, released: Option<nat>, first: Draft, before: seq<Event>,
                                       data: Data, k: nat, c: nat)
    returns (trace: seq<Event>, draft: Draft, now: Data)
    requires Dependable(w) && i < |steps| && (released.Some? ==> released.value < |steps|)
    requires FirstOther(w, |before|, MaxAdjust(steps[i]), k) && c <= k && c <= MaxAdjust(steps[i])
    ensures before <= trace && GateAt(w, steps, i, released, first, |before|, data, trace, draft, now, c)
    ensures Gate(w, steps, i, released, first, before, data, 0) == Gate(w, steps, i, released, draft, trace, now, c)
    decreases c
  {
    trace, draft, now := before, first, data;
    if c > 0 {
      trace, draft, now := GateReaches(w, steps, i, released, first, before, data, k, c - 1);
      AnswerAt(w, |before|, MaxAdjust(steps[i]), k, c - 1);
      var shorter := trace;
      trace, draft, now := NextTurn(w, steps, i, released, first, |before|, data, trace, draft, now, c - 1);
      PrefixOf(before, shorter, trace);
    }
  }

  /** Every dependable gate, by the first answer other than Adjust. */
  lemma GateAnswers(w: World, steps: seq<Step>, i: nat, released: Option<nat>, first: Draft, before: seq<Event>, data: Data, k: nat)
    requires Dependable(w) && i < |steps| && (released.Some? ==> released.value < |steps|)
    requires FirstOther(w, |before|, MaxAdjust(steps[i]), k)
    ensures var r := Gate(w, steps, i, released, first, before, data, 0);
            before <= r.0 && GateGives(w, steps, i, released, first, |before|, data, k, r)
  {
    var max := MaxAdjust(steps[i]);
    var c := if k <= max then k else max;
    var trace, draft, now := GateReaches(w, steps, i, released, first, before, data, k, c);
    AnswerAt(w, |before|, max, k, c);
    LastGives(w, steps, i, released, first, |before|, data, trace, draft, now, c, k);
    PrefixOf(before, trace, Gate(w, steps, i, released, draft, trace, now, c).0);
  }

  // --- The run's data, read off its history ---

  /** An adjustment that is within the gate's limit, and so is given to the model. */
  predicate Rewrites(w: World, steps: seq<Step>, before: seq<Event>, i: nat) {
    i < |steps| && w.answer(|before|).Adjust? && Asks(before, i) < MaxAdjust(steps[i])
  }

  /** The data after one event more: a step's effect, a response, or a rewrite of the request that a gate shows. */
  function DataMore(w: World, steps: seq<Step>, before: seq<Event>, e: Event, data: Data): Data {
    var now := |before| + 1;
    match e
    case Started(i) =>
      if i < |steps| && steps[i].kind == OtherStep && w.effect(now, steps[i], data).Went?
      then w.effect(now, steps[i], data).data else data
    case Sent(_, _) => if w.response(now).Some? then w.response(now).value else data
    case Asked(i, _) => if Rewrites(w, steps, before, i) then DataAt(w, ReleasedFrom(steps, i + 1), |before|, data, 1) else data
    case _ => data
  }

  function DataAfter(w: World, steps: seq<Step>, seed: Data, trace: seq<Event>): Data {
    if trace == [] then seed else
      var before := trace[..|trace| - 1];
      DataMore(w, steps, before, trace[|trace| - 1], DataAfter(w, steps, seed, before))
  }

  /**
   The request that the gate of step i releases, as it renders from these data, or
   this text when it releases none.
   */
  ghost predicate Shows(w: World, steps: seq<Step>, i: nat, data: Data, text: string, draft: Draft) {
    match ReleasedFrom(steps, i + 1)
    case None => draft == Draft(text, None)
    case Some(j) =>
      j < |steps| && exists request :: w.render(steps[j], data) == Some(request) && draft == Draft(request.0, Some(request.1))
  }

  /** The text of a gate's first asking is the model's draft, and then the model's last rewrite. */
  function TextFor(w: World, before: seq<Event>, i: nat, data: Data): string {
    if Asks(before, i) == 0 then w.draftOf(data)
    else match w.rewrite(|before|, data) case Some(text) => text case None => ""
  }

  /**
   People see and policy releases what the data say at that moment; a request that
   is sent still renders from them.
   */
  ghost predicate EventTold(w: World, steps: seq<Step>, seed: Data, before: seq<Event>, e: Event) {
    var data := DataAfter(w, steps, seed, before);
    match e
    case Asked(i, draft) => Shows(w, steps, i, data, TextFor(w, before, i, data), draft)
    case Passed(i, ByPolicy, draft) => Shows(w, steps, i, data, w.draftOf(data), draft)
    case Sent(j, digest) => j < |steps| && digest != "" && exists text :: w.render(steps[j], data) == Some((text, digest))
    case _ => true
  }

  ghost predicate AllTold(w: World, steps: seq<Step>, seed: Data, trace: seq<Event>) {
    trace == [] || (AllTold(w, steps, seed, trace[..|trace| - 1]) &&
                    EventTold(w, steps, seed, trace[..|trace| - 1], trace[|trace| - 1]))
  }

  lemma {:induction false} ToldAt(w: World, steps: seq<Step>, seed: Data, trace: seq<Event>, p: nat)
    requires AllTold(w, steps, seed, trace) && p < |trace|
    ensures EventTold(w, steps, seed, trace[..p], trace[p])
  {
    var n := |trace| - 1;
    if p < n {
      ToldAt(w, steps, seed, trace[..n], p);
      assert trace[..n][..p] == trace[..p];
    }
  }

  /** The run holds the data its history gives it, and has not asked about any step from fresh on. */
  ghost predicate Holds(w: World, steps: seq<Step>, seed: Data, trace: seq<Event>, data: Data, fresh_: nat) {
    && AllTold(w, steps, seed, trace) && DataAfter(w, steps, seed, trace) == data
    && forall i :: fresh_ <= i ==> Asks(trace, i) == 0
  }

  lemma AsksMore(trace: seq<Event>, e: Event, i: nat)
    ensures Asks(trace + [e], i) == Asks(trace, i) + (if e.Asked? && e.i == i then 1 else 0)
  {
    assert (trace + [e])[..|trace|] == trace;
  }

  lemma ToldMore(w: World, steps: seq<Step>, seed: Data, trace: seq<Event>, e: Event)
    requires AllTold(w, steps, seed, trace) && EventTold(w, steps, seed, trace, e)
    ensures AllTold(w, steps, seed, trace + [e])
    ensures DataAfter(w, steps, seed, trace + [e]) == DataMore(w, steps, trace, e, DataAfter(w, steps, seed, trace))
  {
    var after := trace + [e];
    assert after[..|trace|] == trace && after[|trace|] == e;
  }

  lemma HoldsMore(w: World, steps: seq<Step>, seed: Data, trace: seq<Event>, data: Data, fresh_: nat, e: Event)
    requires Holds(w, steps, seed, trace, data, fresh_) && EventTold(w, steps, seed, trace, e)
    requires e.Asked? ==> e.i < fresh_
    ensures Holds(w, steps, seed, trace + [e], DataMore(w, steps, trace, e, data), fresh_)
    ensures forall i :: Asks(trace + [e], i) == Asks(trace, i) + (if e.Asked? && e.i == i then 1 else 0)
  {
    ToldMore(w, steps, seed, trace, e);
    forall i: nat
      ensures Asks(trace + [e], i) == Asks(trace, i) + (if e.Asked? && e.i == i then 1 else 0)
    {
      AsksMore(trace, e, i);
    }
  }

  /** The gate about to ask for the time after its c-th rewrite. */
  ghost predicate AboutToAsk(w: World, steps: seq<Step>, seed: Data, i: nat, draft: Draft, trace: seq<Event>, data: Data, c: nat) {
    Holds(w, steps, seed, trace, data, i + 1) && Asks(trace, i) == c && EventTold(w, steps, seed, trace, Asked(i, draft))
  }

  /** Asked and answered; the data are those the model's rewrite leaves, if there is one. */
  lemma AskingTold(w: World, steps: seq<Step>, seed: Data, i: nat, draft: Draft, trace: seq<Event>, data: Data, c: nat)
    requires AboutToAsk(w, steps, seed, i, draft, trace, data, c)
    ensures var (asked, answer, ok) := OneAsking(w, i, draft, trace);
            && AllTold(w, steps, seed, asked)
            && (ok ==> answer == w.answer(|trace|) && |asked| == AskAt(w, |trace|, 1) && Asks(asked, i) == c + 1
                       && Holds(w, steps, seed, asked, DataMore(w, steps, trace, Asked(i, draft), data), i + 1))
  {
    var (asked, answer, ok) := OneAsking(w, i, draft, trace);
    var first, now := trace + [Asked(i, draft)], DataMore(w, steps, trace, Asked(i, draft), data);
    HoldsMore(w, steps, seed, trace, data, i + 1, Asked(i, draft));
    HoldsMore(w, steps, seed, first, now, i + 1, Receipt(i, ReceiptFor(answer), draft));
    assert Holds(w, steps, seed, trace, data, i + 1) && Holds(w, steps, seed, first, now, i + 1);
    assert Holds(w, steps, seed, asked, if asked == trace then data else now, i + 1);
  }

  lemma GivingUpTold(w: World, steps: seq<Step>, seed: Data, i: nat, draft: Draft, trace: seq<Event>, data: Data)
    requires Holds(w, steps, seed, trace, data, i + 1)
    ensures Holds(w, steps, seed, Persisted(w, trace, i, QuorumFailReceipt, draft).0, data, i + 1)
  {
    HoldsMore(w, steps, seed, trace, data, i + 1, Receipt(i, QuorumFailReceipt, draft));
  }

  /** What the model made of the adjustment is shown next. */
  lemma RewriteIs(w: World, steps: seq<Step>, i: nat, trace: seq<Event>, draft: Draft, asked: seq<Event>, data: Data)
    requires Rewrites(w, steps, trace, i) && |asked| == AskAt(w, |trace|, 1) && Asks(asked, i) > 0
    ensures (ReleasedInRange(steps, i + 1);
             var (next, after) := Rewritten(w, steps, ReleasedFrom(steps, i + 1), |asked|, data);
             next.Some? ==>
               && DataMore(w, steps, trace, Asked(i, draft), data) == after
               && Shows(w, steps, i, after, TextFor(w, asked, i, after), next.value))
  {
    ReleasedInRange(steps, i + 1);
    assert DataAt(w, ReleasedFrom(steps, i + 1), |trace|, data, 0) == data;
  }

  lemma RewriteTold(w: World, steps: seq<Step>, seed: Data, i: nat, asked: seq<Event>, data: Data, draft: Draft, c: nat)
    requires Holds(w, steps, seed, asked, data, i + 1) && Asks(asked, i) == c
    requires Shows(w, steps, i, data, TextFor(w, asked, i, data), draft)
    ensures AboutToAsk(w, steps, seed, i, draft, asked, data, c)
  {
  }

  /** One turn of the gate's loop. */
  lemma TurnTold(w: World, steps: seq<Step>, seed: Data, i: nat, draft: Draft, trace: seq<Event>, data: Data, c: nat)
    requires i < |steps| && c <= MaxAdjust(steps[i]) && AboutToAsk(w, steps, seed, i, draft, trace, data, c)
    ensures (ReleasedInRange(steps, i + 1);
             var turn := GateTurn(w, steps, i, ReleasedFrom(steps, i + 1), draft, trace, data, c);
             && (turn.Again? ==> AboutToAsk(w, steps, seed, i, turn.draft, turn.trace, turn.data, c + 1))
             && (turn.Ended? ==> AllTold(w, steps, seed, turn.trace))
             && (turn.Ended? && turn.outcome == Continues ==> Holds(w, steps, seed, turn.trace, turn.data, i + 1)))
  {
    ReleasedInRange(steps, i + 1);
    AskingTold(w, steps, seed, i, draft, trace, data, c);
    var (asked, answer, ok) := OneAsking(w, i, draft, trace);
    var (next, after) := Rewritten(w, steps, ReleasedFrom(steps, i + 1), |asked|, data);
    if ok {
      var now := DataMore(w, steps, trace, Asked(i, draft), data);
      GivingUpTold(w, steps, seed, i, draft, asked, now);
      if Rewrites(w, steps, trace, i) {
        RewriteIs(w, steps, i, trace, draft, asked, data);
        if next.Some? {
          RewriteTold(w, steps, seed, i, asked, after, next.value, c + 1);
        }
      } else {
        assert now == data;
      }
    }
  }

  lemma {:induction false} GateTold(w: World, steps: seq<Step>, seed: Data, i: nat, draft: Draft, trace: seq<Event>, data: Data, c: nat)
    requires i < |steps| && c <= MaxAdjust(steps[i]) && AboutToAsk(w, steps, seed, i, draft, trace, data, c)
    ensures (ReleasedInRange(steps, i + 1);
             var r := Gate(w, steps, i, ReleasedFrom(steps, i + 1), draft, trace, data, c);
             && AllTold(w, steps, seed, r.0)
             && (r.3 == Continues ==> Holds(w, steps, seed, r.0, r.1, i + 1)))
    decreases MaxAdjust(steps[i]) - c
  {
    ReleasedInRange(steps, i + 1);
    var released := ReleasedFrom(steps, i + 1);
    var turn := GateTurn(w, steps, i, released, draft, trace, data, c);
    TurnTold(w, steps, seed, i, draft, trace, data, c);
    TurnGoesOn(w, steps, i, released, draft, trace, data, c);
    if turn.Again? {
      GateTold(w, steps, seed, i, turn.draft, turn.trace, turn.data, c + 1);
    }
  }

  /** One approval step. */
  lemma ApprovalTold(w: World, steps: seq<Step>, seed: Data, i: nat, before: seq<Event>, approved: map<string, string>, data: Data)
    requires i < |steps| && Holds(w, steps, seed, before, data, i)
    ensures var (after, _, data', outcome) := AfterApproval(w, steps, i, before, approved, data);
            && AllTold(w, steps, seed, after)
            && (outcome == Continues ==> Holds(w, steps, seed, after, data', i + 1))
  {
    ReleasedInRange(steps, i + 1);
    var released := ReleasedFrom(steps, i + 1);
    var shown := Rendered(w, steps, released, data, w.draftOf(data));
    assert Holds(w, steps, seed, before, data, i + 1);
    if shown.Some? {
      var draft := shown.value;
      assert Shows(w, steps, i, data, w.draftOf(data), draft);
      if FirstMatch(w.rules, w.pipeline, steps[i], w.cost(|before|)).Some? {
        HoldsMore(w, steps, seed, before, data, i + 1, Receipt(i, PolicyReceipt, draft));
        var kept := Persisted(w, before, i, PolicyReceipt, draft).0;
        HoldsMore(w, steps, seed, kept, data, i + 1, Passed(i, ByPolicy, draft));
      } else {
        var r := Gate(w, steps, i, released, draft, before, data, 0);
        GateTold(w, steps, seed, i, draft, before, data, 0);
        if r.3 == Continues {
          HoldsMore(w, steps, seed, r.0, r.1, i + 1, Passed(i, ByOperators, r.2));
        }
      }
    }
  }

  /** One step of the run. */
  lemma StepTold(w: World, steps: seq<Step>, seed: Data, i: nat, before: seq<Event>, approved: map<string, string>, data: Data)
    requires i < |steps| && Holds(w, steps, seed, before, data, i)
    ensures var (after, _, data', outcome) := AfterStep(w, steps, i, before, approved, data);
            && AllTold(w, steps, seed, after)
            && (outcome == Continues ==> Holds(w, steps, seed, after, data', i + 1))
  {
    assert Holds(w, steps, seed, before, data, i + 1);
    if !w.expired(|before|) {
      var started := before + [Started(i)];
      var now := DataMore(w, steps, before, Started(i), data);
      HoldsMore(w, steps, seed, before, data, i, Started(i));
      assert Holds(w, steps, seed, started, now, i + 1);
      match steps[i].kind {
      case Approval => ApprovalTold(w, steps, seed, i, started, approved, data);
      case HttpRequest =>
        var after := AfterRequest(w, steps[i], i, started, approved, data).0;
        if after != started {
          assert w.render(steps[i], data) == Some((w.render(steps[i], data).value.0, approved[steps[i].name]));
          HoldsMore(w, steps, seed, started, data, i + 1, Sent(i, approved[steps[i].name]));
        }
      case OtherStep =>
      }
    }
  }

  // --- What a started step comes to ---

  /** From moment n on the run is at step i: it is over, or out of time, or the step starts. */
  predicate NextBegins(w: World, steps: seq<Step>, trace: seq<Event>, outcome: Outcome, n: nat, i: nat) {
    if i >= |steps| then |trace| == n && outcome == Continues
    else if w.expired(n) then |trace| == n && outcome == Failed
    else n < |trace| && trace[n] == Started(i)
  }

  predicate EndsAt(trace: seq<Event>, outcome: Outcome, n: nat, as': Outcome) { |trace| == n && outcome == as' }

  /**
   A gate that starts at start and is adjusted k times: approved, the next step
   begins; anything else ends the run.
   */
  predicate ApprovalComes(w: World, steps: seq<Step>, trace: seq<Event>, outcome: Outcome, start: nat, i: nat, k: nat)
    requires i < |steps|
  {
    var q := AskAt(w, start, k);
    && AdjustedTo(w, i, start, trace, k)
    && if k > MaxAdjust(steps[i]) then
         if steps[i].quorum >= 2 && w.stored
         then
           && q < |trace| && trace[q].Receipt? && trace[q].i == i && trace[q].kind == QuorumFailReceipt
           && EndsAt(trace, outcome, q + 1, Halted)
         else EndsAt(trace, outcome, q, Halted)
       else
         var n := AskAt(w, start, k + 1);
         match w.answer(q)
         case Approve =>
           && AnsweredBy(w, i, trace, q, ApproveReceipt)
           && n < |trace| && trace[n] == Passed(i, ByOperators, trace[q].draft)
           && NextBegins(w, steps, trace, outcome, n + 1, i + 1)
         case Skip => AnsweredBy(w, i, trace, q, SkipReceipt) && EndsAt(trace, outcome, n, Halted)
         case _ => AnsweredBy(w, i, trace, q, TimeoutReceipt) && EndsAt(trace, outcome, n, Failed)
  }

  ghost predicate OperatorsCome(w: World, steps: seq<Step>, trace: seq<Event>, outcome: Outcome, start: nat, i: nat)
    requires i < |steps|
  {
    forall k :: FirstOther(w, start, MaxAdjust(steps[i]), k) ==> ApprovalComes(w, steps, trace, outcome, start, i, k)
  }

  /** A step that a policy rule covers is released without asking anybody. */
  predicate PolicyComes(w: World, steps: seq<Step>, trace: seq<Event>, outcome: Outcome, start: nat, i: nat) {
    var n := if w.stored then start + 1 else start;
    && n < |trace| && trace[n].Passed? && trace[n].i == i && trace[n].how == ByPolicy
    && (w.stored ==> trace[start] == Receipt(i, PolicyReceipt, trace[n].draft))
    && NextBegins(w, steps, trace, outcome, n + 1, i + 1)
  }

  ghost predicate Covered(w: World, st: Step, cost: real) {
    exists r :: r in w.rules && Matches(r, w.pipeline, st, cost)
  }

  /** The gate that releases request j bound it to this digest. */
  ghost predicate BoundTo(steps: seq<Step>, trace: seq<Event>, p: nat, j: nat, digest: string) {
    exists q :: BoundAt(steps, trace, p, j, digest, q)
  }

  predicate BoundAt(steps: seq<Step>, trace: seq<Event>, p: nat, j: nat, digest: string, q: int) {
    && 0 <= q < p && q < |trace| && trace[q].Passed? && trace[q].draft.digest == Some(digest)
    && trace[q].i < j && trace[q].i < |steps| && steps[trace[q].i].kind == Approval && Between(steps, trace[q].i, j)
  }

  /** A request goes out unless nothing released it or it no longer renders to the digest it was released with. */
  ghost predicate RequestComes(w: World, steps: seq<Step>, trace: seq<Event>, outcome: Outcome, p: nat, j: nat, data: Data)
    requires j < |steps|
  {
    if p + 1 < |trace| && trace[p + 1].Sent? then
      && trace[p + 1].i == j
      && if w.response(p + 2).Some? then NextBegins(w, steps, trace, outcome, p + 2, j + 1) else EndsAt(trace, outcome, p + 2, Failed)
    else
      && EndsAt(trace, outcome, p + 1, Failed)
      && (w.render(steps[j], data).None? || w.render(steps[j], data).value.1 == "" ||
          !BoundTo(steps, trace, p, j, w.render(steps[j], data).value.1))
  }

  /** Any other step goes on, ends the run or fails it, as its effect on the run's data says. */
  predicate EffectComes(w: World, steps: seq<Step>, trace: seq<Event>, outcome: Outcome, n: nat, i: nat, data: Data)
    requires i < |steps|
  {
    match w.effect(n, steps[i], data)
    case Went(_) => NextBegins(w, steps, trace, outcome, n, i + 1)
    case EndsRun => EndsAt(trace, outcome, n, Halted)
    case FailsRun => EndsAt(trace, outcome, n, Failed)
  }

  /** What became of the step that started at p, with the data that the history before it gives the run. */
  ghost predicate StepComes(w: World, steps: seq<Step>, seed: Data, trace: seq<Event>, outcome: Outcome, p: nat)
    requires p < |trace| && trace[p].Started?
  {
    var i, data := trace[p].i, DataAfter(w, steps, seed, trace[..p]);
    && i < |steps|
    && match steps[i].kind
       case Approval =>
         Dependable(w) ==>
           if Covered(w, steps[i], w.cost(p + 1)) then PolicyComes(w, steps, trace, outcome, p + 1, i)
           else OperatorsCome(w, steps, trace, outcome, p + 1, i)
       case HttpRequest => RequestComes(w, steps, trace, outcome, p, i, data)
       case OtherStep => EffectComes(w, steps, trace, outcome, p + 1, i, data)
  }

  // --- Every started step comes to that ---

  /** The latest release of each request still ahead is the one on record. */
  ghost predicate Binding(steps: seq<Step>, trace: seq<Event>, approved: map<string, string>, m: nat) {
    && (forall q :: 0 <= q < |trace| && trace[q].Passed? ==> trace[q].i < m)
    && (forall j, digest, q :: m <= j < |steps| && steps[j].kind == HttpRequest && BoundAt(steps, trace, |trace|, j, digest, q) ==>
          steps[j].name in approved && approved[steps[j].name] == digest)
  }

  lemma {:induction false} ReleasedIs(steps: seq<Step>, from: nat, j: nat)
    requires from <= j < |steps| && steps[j].kind == HttpRequest
    requires forall k :: from <= k < j ==> steps[k].kind == OtherStep
    ensures ReleasedFrom(steps, from) == Some(j)
    decreases j - from
  {
    if from < j {
      ReleasedIs(steps, from + 1, j);
    }
  }

  /** A step that is neither a gate nor a request. */
  lemma OtherKeepsBinding(steps: seq<Step>, trace: seq<Event>, approved: map<string, string>, m: nat)
    requires m < |steps| && Binding(steps, trace, approved, m)
    ensures Binding(steps, trace + [Started(m)], approved, m + 1)
  {
    var after := trace + [Started(m)];
    forall j, digest, q | m + 1 <= j < |steps| && steps[j].kind == HttpRequest && BoundAt(steps, after, |after|, j, digest, q)
      ensures steps[j].name in approved && approved[steps[j].name] == digest
    {
      assert after[q] == trace[q];
      assert BoundAt(steps, trace, |trace|, j, digest, q);
    }
  }

  /** After a gate or a request nothing that was released before it is ahead. */
  lemma BarrierBinding(steps: seq<Step>, trace: seq<Event>, after: seq<Event>, approved: map<string, string>, m: nat)
    requires m < |steps| && steps[m].kind != OtherStep && Binding(steps, trace, approved, m) && trace <= after
    requires forall q :: |trace| <= q < |after| ==> !after[q].Passed?
    ensures Binding(steps, after, approved, m + 1)
    ensures forall j, digest, q :: m + 1 <= j < |steps| ==> !BoundAt(steps, after, |after|, j, digest, q)
  {
    forall j, digest, q | m + 1 <= j < |steps|
      ensures !BoundAt(steps, after, |after|, j, digest, q)
    {
    }
  }

  lemma GateBinding(steps: seq<Step>, before: seq<Event>, approved: map<string, string>, m: nat, how: How, draft: Draft)
    requires m < |steps| && Binding(steps, before, approved, m + 1)
    requires forall j, digest, q :: m + 1 <= j < |steps| ==> !BoundAt(steps, before, |before|, j, digest, q)
    ensures (ReleasedInRange(steps, m + 1);
             Binding(steps, before + [Passed(m, how, draft)], Bound(steps, ReleasedFrom(steps, m + 1), approved, draft), m + 1))
  {
    ReleasedInRange(steps, m + 1);
    var after := before + [Passed(m, how, draft)];
    var approved' := Bound(steps, ReleasedFrom(steps, m + 1), approved, draft);
    forall j, digest, q | m + 1 <= j < |steps| && steps[j].kind == HttpRequest && BoundAt(steps, after, |after|, j, digest, q)
      ensures steps[j].name in approved' && approved'[steps[j].name] == digest
    {
      if q < |before| {
        assert after[q] == before[q];
        assert BoundAt(steps, before, |before|, j, digest, q);
      } else {
        ReleasedIs(steps, m + 1, j);
      }
    }
  }

  /** A gate asks and keeps receipts; it starts nothing, passes nothing and sends nothing. */
  predicate OnlyAsks(trace: seq<Event>, after: seq<Event>) {
    trace <= after && forall q :: |trace| <= q < |after| ==> after[q].Asked? || after[q].Receipt?
  }

  lemma TurnOnlyAsks(w: World, steps: seq<Step>, i: nat, released: Option<nat>, draft: Draft, trace: seq<Event>, data: Data, c: nat)
    requires i < |steps| && (released.Some? ==> released.value < |steps|)
    ensures OnlyAsks(trace, GateTurn(w, steps, i, released, draft, trace, data, c).trace)
  {
  }

  lemma {:induction false} GateOnlyAsks(w: World, steps: seq<Step>, i: nat, released: Option<nat>, draft: Draft, trace: seq<Event>,
                                        data: Data, c: nat)
    requires i < |steps| && c <= MaxAdjust(steps[i]) && (released.Some? ==> released.value < |steps|)
    ensures OnlyAsks(trace, Gate(w, steps, i, released, draft, trace, data, c).0)
    decreases MaxAdjust(steps[i]) - c
  {
    var turn := GateTurn(w, steps, i, released, draft, trace, data, c);
    TurnOnlyAsks(w, steps, i, released, draft, trace, data, c);
    TurnGoesOn(w, steps, i, released, draft, trace, data, c);
    if turn.Again? {
      GateOnlyAsks(w, steps, i, released, turn.draft, turn.trace, turn.data, c + 1);
    }
  }

  /** What follows a step: the next begins, or the run has ended as the step did. */
  predicate Onward(w: World, steps: seq<Step>, i: nat, stepped: seq<Event>, ended: Outcome, trace: seq<Event>, outcome: Outcome) {
    && stepped <= trace
    && (ended == Continues ==> NextBegins(w, steps, trace, outcome, |stepped|, i + 1))
    && (ended != Continues ==> trace == stepped && outcome == ended)
  }

  lemma CoveredIff(w: World, st: Step, cost: real)
    ensures FirstMatch(w.rules, w.pipeline, st, cost).Some? <==> Covered(w, st, cost)
  {
    FirstMatchNone(w.rules, w.pipeline, st, cost);
    FirstMatchCovers(w.rules, w.pipeline, st, cost);
  }

  lemma {:induction false} FirstMatchCovers(rules: seq<AutoRule>, pipeline: string, st: Step, cost: real)
    ensures var r := FirstMatch(rules, pipeline, st, cost);
            r.Some? ==> r.value in rules && Matches(r.value, pipeline, st, cost)
  {
    if rules != [] {
      FirstMatchCovers(rules[1..], pipeline, st, cost);
    }
  }

  lemma {:induction false} FirstMatchNone(rules: seq<AutoRule>, pipeline: string, st: Step, cost: real)
    ensures FirstMatch(rules, pipeline, st, cost).None? ==> forall r :: r in rules ==> !Matches(r, pipeline, st, cost)
  {
    if rules != [] {
      FirstMatchNone(rules[1..], pipeline, st, cost);
    }
  }

  lemma ApprovedComes(w: World, steps: seq<Step>, i: nat, start: nat, gate: seq<Event>, last: Draft, ended: Outcome, k: nat,
                      trace: seq<Event>, outcome: Outcome)
    requires i < |steps| && GateComes(w, steps[i], i, start, gate, last, ended, k)
    requires Onward(w, steps, i, if ended == Continues then gate + [Passed(i, ByOperators, last)] else gate, ended, trace, outcome)
    ensures ApprovalComes(w, steps, trace, outcome, start, i, k)
  {
    assert gate <= trace;
    AdjustedStays(w, i, start, gate, trace, k);
    var q := AskAt(w, start, k);
    if k > MaxAdjust(steps[i]) {
      assert gate == GivenUp(w, steps[i], i, gate[..q], last);
    }
  }

  lemma OperatorsCame(w: World, steps: seq<Step>, i: nat, released: Option<nat>, first: Draft, before: seq<Event>, data: Data,
                      trace: seq<Event>, outcome: Outcome)
    requires Dependable(w) && i < |steps| && (released.Some? ==> released.value < |steps|)
    requires var r := Gate(w, steps, i, released, first, before, data, 0);
             Onward(w, steps, i, if r.3 == Continues then r.0 + [Passed(i, ByOperators, r.2)] else r.0, r.3, trace, outcome)
    ensures OperatorsCome(w, steps, trace, outcome, |before|, i)
  {
    var r := Gate(w, steps, i, released, first, before, data, 0);
    forall k | FirstOther(w, |before|, MaxAdjust(steps[i]), k)
      ensures ApprovalComes(w, steps, trace, outcome, |before|, i, k)
    {
      GateAnswers(w, steps, i, released, first, before, data, k);
      ApprovedComes(w, steps, i, |before|, r.0, r.2, r.3, k, trace, outcome);
    }
  }

  lemma ApprovalCame(w: World, steps: seq<Step>, i: nat, before: seq<Event>, approved: map<string, string>, data: Data,
                     trace: seq<Event>, outcome: Outcome)
    requires Dependable(w) && i < |steps|
    requires var (stepped, _, _, ended) := AfterApproval(w, steps, i, before, approved, data);
             Onward(w, steps, i, stepped, ended, trace, outcome)
    ensures if Covered(w, steps[i], w.cost(|before|)) then PolicyComes(w, steps, trace, outcome, |before|, i)
            else OperatorsCome(w, steps, trace, outcome, |before|, i)
  {
    ReleasedInRange(steps, i + 1);
    var released := ReleasedFrom(steps, i + 1);
    var draft := Rendered(w, steps, released, data, w.draftOf(data)).value;
    CoveredIff(w, steps[i], w.cost(|before|));
    if !Covered(w, steps[i], w.cost(|before|)) {
      OperatorsCame(w, steps, i, released, draft, before, data, trace, outcome);
    }
  }

  lemma RequestIs(w: World, st: Step, j: nat, trace: seq<Event>, approved: map<string, string>, data: Data)
    ensures var after := AfterRequest(w, st, j, trace, approved, data).0;
            after == trace || (st.name in approved && after == trace + [Sent(j, approved[st.name])])
  {
  }

  lemma RunGoesOn(w: World, steps: seq<Step>, i: nat, trace: seq<Event>, approved: map<string, string>, data: Data)
    requires i < |steps|
    ensures var (after, approved', data', outcome) := AfterStep(w, steps, i, trace, approved, data);
            RunFrom(w, steps, i, trace, approved, data) ==
            if outcome == Continues then RunFrom(w, steps, i + 1, after, approved', data') else (after, outcome)
  {
  }

  lemma OnRecord(steps: seq<Step>, before: seq<Event>, trace: seq<Event>, approved: map<string, string>, j: nat, digest: string)
    requires j < |steps| && steps[j].kind == HttpRequest && Binding(steps, before, approved, j) && before <= trace
    requires BoundTo(steps, trace, |before|, j, digest)
    ensures steps[j].name in approved && approved[steps[j].name] == digest
  {
    var q :| BoundAt(steps, trace, |before|, j, digest, q);
    assert before[q] == trace[q];
    assert BoundAt(steps, before, |before|, j, digest, q);
  }

  lemma RequestCame(w: World, steps: seq<Step>, j: nat, p: nat, before: seq<Event>, approved: map<string, string>, data: Data,
                    trace: seq<Event>, outcome: Outcome)
    requires j < |steps| && steps[j].kind == HttpRequest && |before| == p + 1 && before[p] == Started(j)
    requires Binding(steps, before[..p], approved, j)
    requires var (stepped, _, ended) := AfterRequest(w, steps[j], j, before, approved, data);
             Onward(w, steps, j, stepped, ended, trace, outcome)
    ensures RequestComes(w, steps, trace, outcome, p, j, data)
  {
    var (stepped, _, ended) := AfterRequest(w, steps[j], j, before, approved, data);
    assert stepped <= trace;
    if stepped == before {
      forall digest | BoundTo(steps, trace, p, j, digest)
        ensures steps[j].name in approved && approved[steps[j].name] == digest
      {
        PrefixOf(before[..p], before, trace);
        OnRecord(steps, before[..p], trace, approved, j, digest);
      }
      assert w.render(steps[j], data).None? || w.render(steps[j], data).value.1 == "" ||
             !BoundTo(steps, trace, p, j, w.render(steps[j], data).value.1);
    } else {
      assert trace[p + 1] == stepped[p + 1];
    }
  }

  /** The step as it was run, when the gates and requests before it are on record. */
  lemma StepCame(w: World, steps: seq<Step>, seed: Data, i: nat, before: seq<Event>, approved: map<string, string>, data: Data,
                 trace: seq<Event>, outcome: Outcome)
    requires i < |steps| && !w.expired(|before|) && Binding(steps, before, approved, i)
    requires DataAfter(w, steps, seed, before) == data
    requires var (stepped, _, _, ended) := AfterStep(w, steps, i, before, approved, data);
             before + [Started(i)] <= stepped && Onward(w, steps, i, stepped, ended, trace, outcome)
    ensures |before| < |trace| && trace[|before|] == Started(i) && StepComes(w, steps, seed, trace, outcome, |before|)
  {
    var p, started := |before|, before + [Started(i)];
    PrefixOf(started, AfterStep(w, steps, i, before, approved, data).0, trace);
    assert trace[p] == started[p] && started[..p] == before && trace[..p] == before;
    match steps[i].kind {
    case Approval =>
      if Dependable(w) {
        ApprovalCame(w, steps, i, started, approved, data, trace, outcome);
      }
    case HttpRequest => RequestCame(w, steps, i, p, started, approved, data, trace, outcome);
    case OtherStep =>
    }
  }

  /** One step starts itself and no other, and leaves the releases on record. */
  lemma StepBinds(w: World, steps: seq<Step>, i: nat, before: seq<Event>, approved: map<string, string>, data: Data)
    requires i < |steps| && !w.expired(|before|) && Binding(steps, before, approved, i)
    ensures var (stepped, approved', _, ended) := AfterStep(w, steps, i, before, approved, data);
            && before + [Started(i)] <= stepped
            && (forall q :: |before| < q < |stepped| ==> !stepped[q].Started?)
            && (ended == Continues ==> Binding(steps, stepped, approved', i + 1))
  {
    var started := before + [Started(i)];
    match steps[i].kind {
    case Approval => ApprovalBinds(w, steps, i, before, approved, data);
    case HttpRequest =>
      RequestIs(w, steps[i], i, started, approved, data);
      BarrierBinding(steps, before, AfterRequest(w, steps[i], i, started, approved, data).0, approved, i);
    case OtherStep => OtherKeepsBinding(steps, before, approved, i);
    }
  }

  /** The gate of step i passes after asking and keeping receipts. */
  lemma PassedBinds(steps: seq<Step>, i: nat, before: seq<Event>, approved: map<string, string>, asked: seq<Event>,
                    how: How, draft: Draft)
    requires i < |steps| && steps[i].kind == Approval && Binding(steps, before, approved, i)
    requires OnlyAsks(before + [Started(i)], asked)
    ensures var stepped := asked + [Passed(i, how, draft)];
            && before + [Started(i)] <= stepped
            && (forall q :: |before| < q < |stepped| ==> !stepped[q].Started?)
            && (ReleasedInRange(steps, i + 1);
                Binding(steps, stepped, Bound(steps, ReleasedFrom(steps, i + 1), approved, draft), i + 1))
  {
    PrefixOf(before, before + [Started(i)], asked);
    assert asked[|before|] == (before + [Started(i)])[|before|];
    BarrierBinding(steps, before, asked, approved, i);
    GateBinding(steps, asked, approved, i, how, draft);
  }

  lemma ApprovalBinds(w: World, steps: seq<Step>, i: nat, before: seq<Event>, approved: map<string, string>, data: Data)
    requires i < |steps| && steps[i].kind == Approval && Binding(steps, before, approved, i)
    ensures var started := before + [Started(i)];
            var (stepped, approved', _, ended) := AfterApproval(w, steps, i, started, approved, data);
            && started <= stepped
            && (forall q :: |before| < q < |stepped| ==> !stepped[q].Started?)
            && (ended == Continues ==> Binding(steps, stepped, approved', i + 1))
  {
    ReleasedInRange(steps, i + 1);
    var started, released := before + [Started(i)], ReleasedFrom(steps, i + 1);
    var shown := Rendered(w, steps, released, data, w.draftOf(data));
    if shown.Some? {
      var draft := shown.value;
      if FirstMatch(w.rules, w.pipeline, steps[i], w.cost(|started|)).Some? {
        PassedBinds(steps, i, before, approved, Persisted(w, started, i, PolicyReceipt, draft).0, ByPolicy, draft);
      } else {
        var r := Gate(w, steps, i, released, draft, started, data, 0);
        GateOnlyAsks(w, steps, i, released, draft, started, data, 0);
        PassedBinds(steps, i, before, approved, r.0, ByOperators, r.2);
      }
    }
  }

  /** What the run knows before step i. */
  ghost predicate Ready(w: World, steps: seq<Step>, seed: Data, i: nat, before: seq<Event>, approved: map<string, string>, data: Data) {
    i <= |steps| && Binding(steps, before, approved, i) && Holds(w, steps, seed, before, data, i)
  }

  /** Step i is told, comes to what it should whatever follows it, and leaves the run ready for the next. */
  lemma StepLeaves(w: World, steps: seq<Step>, seed: Data, i: nat, before: seq<Event>, approved: map<string, string>, data: Data)
    requires i < |steps| && !w.expired(|before|) && Ready(w, steps, seed, i, before, approved, data)
    ensures var (stepped, approved', data', ended) := AfterStep(w, steps, i, before, approved, data);
            && before <= stepped && |before| < |stepped| && AllTold(w, steps, seed, stepped)
            && (ended == Continues ==> Ready(w, steps, seed, i + 1, stepped, approved', data'))
            && (forall q :: |before| < q < |stepped| ==> !stepped[q].Started?)
            && (forall trace, outcome :: Onward(w, steps, i, stepped, ended, trace, outcome) ==>
                  && |before| < |trace| && trace[|before|] == Started(i)
                  && StepComes(w, steps, seed, trace, outcome, |before|))
  {
    StepBinds(w, steps, i, before, approved, data);
    StepTold(w, steps, seed, i, before, approved, data);
    var (stepped, _, _, ended) := AfterStep(w, steps, i, before, approved, data);
    PrefixOf(before, before + [Started(i)], stepped);
    forall trace, outcome | Onward(w, steps, i, stepped, ended, trace, outcome)
      ensures |before| < |trace| && trace[|before|] == Started(i) && StepComes(w, steps, seed, trace, outcome, |before|)
    {
      StepCame(w, steps, seed, i, before, approved, data, trace, outcome);
    }
  }

  /** From any step on. */
  lemma {:induction false} RunComes(w: World, steps: seq<Step>, seed: Data, i: nat, before: seq<Event>, approved: map<string, string>,
                                    data: Data)
    requires Ready(w, steps, seed, i, before, approved, data)
    ensures var (trace, outcome) := RunFrom(w, steps, i, before, approved, data);
            && before <= trace && NextBegins(w, steps, trace, outcome, |before|, i) && AllTold(w, steps, seed, trace)
            && forall p :: |before| <= p < |trace| && trace[p].Started? ==> StepComes(w, steps, seed, trace, outcome, p)
    decreases |steps| - i
  {
    if i < |steps| && !w.expired(|before|) {
      RunGoesOn(w, steps, i, before, approved, data);
      StepLeaves(w, steps, seed, i, before, approved, data);
      var (stepped, approved', data', ended) := AfterStep(w, steps, i, before, approved, data);
      if ended == Continues {
        RunComes(w, steps, seed, i + 1, stepped, approved', data');
      }
      var (trace, outcome) := RunFrom(w, steps, i, before, approved, data);
      assert Onward(w, steps, i, stepped, ended, trace, outcome);
      PrefixOf(before, stepped, trace);
    }
  }

  /**
   Every run of every pipeline starts its first step, and every step that starts
   comes to what its surroundings answer: an approved gate lets the next step
   start, a skip halts the run, and nothing stops it otherwise. The data a step
   works on, a gate shows and a request is rendered from are those of the history
   before it.
   */
  lemma EveryStepComes(w: World, steps: seq<Step>, seed: Data)
    ensures var (trace, outcome) := RunFrom(w, steps, 0, [], map[], seed);
            && NextBegins(w, steps, trace, outcome, 0, 0) && AllTold(w, steps, seed, trace)
            && forall p :: 0 <= p < |trace| && trace[p].Started? ==> StepComes(w, steps, seed, trace, outcome, p)
  {
    RunComes(w, steps, seed, 0, [], map[], seed);
  }

  // --- The run, step by step ---

  /** persistApprovalReceipt; the receipt is the only thing that happens. */
  method Keep(w: World, trace: seq<Event>, i: nat, kind: ReceiptKind, draft: Draft) returns (after: seq<Event>, ok: bool)
    ensures (after, ok) == Persisted(w, trace, i, kind, draft)
  {
    if !w.stored {
      return trace, true;
    }
    if !w.kept(|trace|) {
      return trace, false;
    }
    return trace + [Receipt(i, kind, draft)], true;
  }

  /** Opens the gate once, waits for its answer and keeps the receipt. */
  method AskOnce(w: World, i: nat, draft: Draft, trace0: seq<Event>) returns (trace: seq<Event>, answer: Answer, ok: bool)
    ensures (trace, answer, ok) == OneAsking(w, i, draft, trace0)
  {
    if w.stored && !w.kept(|trace0|) {
      return trace0, OtherAction, false;
    }
    trace := trace0 + [Asked(i, draft)];
    answer := w.answer(|trace0|);
    if w.stored && !w.kept(|trace|) {
      return trace, answer, false;
    }
    trace, ok := Keep(w, trace, i, ReceiptFor(answer), draft);
  }

  /** The model rewrites the draft; a request is rendered anew from the rewritten output. */
  method Rewrite(w: World, steps: seq<Step>, released: Option<nat>, now: nat, data0: Data)
    returns (draft: Option<Draft>, data: Data)
    requires released.Some? ==> released.value < |steps|
    ensures (draft, data) == Rewritten(w, steps, released, now, data0)
  {
    data := data0;
    var text := w.rewrite(now, data);
    if text.None? {
      return None, data;
    }
    if released.None? {
      return Some(Draft(text.value, None)), data;
    }
    data := w.revised(data, text.value);
    var shown := w.render(steps[released.value], data);
    if shown.None? {
      return None, data;
    }
    return Some(Draft(shown.value.0, Some(shown.value.1))), data;
  }

  /** The gate's loop. */
  method AskOperators(w: World, steps: seq<Step>, i: nat, released: Option<nat>, first: Draft, trace0: seq<Event>, data0: Data)
    returns (trace: seq<Event>, data: Data, draft: Draft, outcome: Outcome)
    requires i < |steps| && (released.Some? ==> released.value < |steps|)
    ensures (trace, data, draft, outcome) == Gate(w, steps, i, released, first, trace0, data0, 0)
    // By the first answer other than Adjust: what was shown and kept, and whether the run goes on.
    ensures Dependable(w) ==>
              forall k :: FirstOther(w, |trace0|, MaxAdjust(steps[i]), k) ==>
                trace0 <= trace && GateGives(w, steps, i, released, first, |trace0|, data0, k, (trace, data, draft, outcome))
  {
    if Dependable(w) {
      forall k | FirstOther(w, |trace0|, MaxAdjust(steps[i]), k)
        ensures var r := Gate(w, steps, i, released, first, trace0, data0, 0);
                trace0 <= r.0 && GateGives(w, steps, i, released, first, |trace0|, data0, k, r)
      {
        GateAnswers(w, steps, i, released, first, trace0, data0, k);
      }
    }
    trace, data, draft := trace0, data0, first;
    var maxAdjust := 1;
    if steps[i].quorum >= 2 {
      maxAdjust := 3;
    }
    var cycles := 0;
    while true
      invariant maxAdjust == MaxAdjust(steps[i]) && cycles <= maxAdjust
      invariant Gate(w, steps, i, released, draft, trace, data, cycles) == Gate(w, steps, i, released, first, trace0, data0, 0)
      decreases maxAdjust - cycles
    {
      ghost var turn := GateTurn(w, steps, i, released, draft, trace, data, cycles);
      var answer, ok;
      trace, answer, ok := AskOnce(w, i, draft, trace);
      if !ok {
        return trace, data, draft, Failed;
      }
      if answer == Approve {
        return trace, data, draft, Continues;
      }
      if answer == Skip {
        return trace, data, draft, Halted;
      }
      if !answer.Adjust? {
        return trace, data, draft, Failed;
      }
      cycles := cycles + 1;
      if cycles > maxAdjust {
        if steps[i].quorum >= 2 {
          trace, ok := Keep(w, trace, i, QuorumFailReceipt, draft);
          if !ok {
            return trace, data, draft, Failed;
          }
        }
        return trace, data, draft, Halted;
      }
      var next;
      next, data := Rewrite(w, steps, released, |trace|, data);
      if next.None? {
        return trace, data, draft, Failed;
      }
      draft := next.value;
      assert turn == Again(trace, data, draft);
    }
  }

  /** One approval step. */
  method RunApproval(w: World, steps: seq<Step>, i: nat, trace0: seq<Event>, approved0: map<string, string>, data0: Data)
    returns (trace: seq<Event>, approved: map<string, string>, data: Data, outcome: Outcome)
    requires i < |steps|
    ensures (trace, approved, data, outcome) == AfterApproval(w, steps, i, trace0, approved0, data0)
  {
    trace, approved, data := trace0, approved0, data0;
    var released := ReleasedHTTPRequest(steps, i);
    var draft := Draft(w.draftOf(data), None);
    if released.Some? {
      var shown := w.render(steps[released.value], data);
      if shown.None? {
        return trace, approved, data, Failed;
      }
      draft := Draft(shown.value.0, Some(shown.value.1));
    }
    var rule := AutoApproves(w.rules, w.pipeline, steps[i], w.cost(|trace|));
    if rule.Some? {
      var ok;
      trace, ok := Keep(w, trace, i, PolicyReceipt, draft);
      if !ok {
        return trace, approved, data, Failed;
      }
      trace := trace + [Passed(i, ByPolicy, draft)];
    } else {
      trace, data, draft, outcome := AskOperators(w, steps, i, released, draft, trace, data);
      if outcome != Continues {
        return;
      }
      trace := trace + [Passed(i, ByOperators, draft)];
    }
    if released.Some? && draft.digest.Some? {
      approved := approved[steps[released.value].name := draft.digest.value];
    }
    outcome := Continues;
  }

  /** runHTTPRequest: sent once, and only with the digest an approval step bound. */
  method RunHTTPRequest(w: World, st: Step, j: nat, trace0: seq<Event>, approved: map<string, string>, data0: Data)
    returns (trace: seq<Event>, data: Data, outcome: Outcome)
    ensures (trace, data, outcome) == AfterRequest(w, st, j, trace0, approved, data0)
    // A request goes out exactly when its digest is the one an approval step bound, and is then the only event.
    ensures trace == trace0 || (st.name in approved && trace == trace0 + [Sent(j, approved[st.name])])
    ensures trace != trace0 <==> st.name in approved && approved[st.name] != ""
                                 && w.render(st, data0).Some? && w.render(st, data0).value.1 == approved[st.name]
  {
    trace, data := trace0, data0;
    var request := w.render(st, data);
    if request.None? {
      return trace, data, Failed;
    }
    var bound := if st.name in approved then approved[st.name] else "";
    if bound == "" {
      return trace, data, Failed;
    }
    if request.value.1 != bound {
      return trace, data, Failed;
    }
    trace := trace + [Sent(j, bound)];
    var response := w.response(|trace|);
    if response.None? {
      return trace, data, Failed;
    }
    return trace, response.value, Continues;
  }

  /** runPipeline. */
  method RunPipeline(w: World, steps: seq<Step>, seed: Data) returns (trace: seq<Event>, outcome: Outcome)
    ensures (trace, outcome) == RunFrom(w, steps, 0, [], map[], seed)
    ensures Safe(w, steps, trace) && (outcome == Continues ==> AllPassed(steps, trace))
    ensures NextBegins(w, steps, trace, outcome, 0, 0) && AllTold(w, steps, seed, trace)
    ensures forall p :: 0 <= p < |trace| && trace[p].Started? ==> StepComes(w, steps, seed, trace, outcome, p)
  {
    EveryRunIsSafe(w, steps, seed);
    EveryStepComes(w, steps, seed);
    trace := [];
    var data := seed;
    var approved: map<string, string> := map[];
    for i := 0 to |steps|
      invariant RunFrom(w, steps, i, trace, approved, data) == RunFrom(w, steps, 0, [], map[], seed)
    {
      ghost var step := AfterStep(w, steps, i, trace, approved, data);
      if w.expired(|trace|) {
        return trace, Failed;
      }
      trace := trace + [Started(i)];
      match steps[i].kind {
      case Approval =>
        trace, approved, data, outcome := RunApproval(w, steps, i, trace, approved, data);
        if outcome != Continues {
          return;
        }
      case HttpRequest =>
        trace, data, outcome := RunHTTPRequest(w, steps[i], i, trace, approved, data);
        if outcome != Continues {
          return;
        }
      case OtherStep =>
        var effect := w.effect(|trace|, steps[i], data);
        match effect {
        case EndsRun => return trace, Halted;
        case FailsRun => return trace, Failed;
        case Went(after) => data := after;
        }
      }
      assert step == (trace, approved, data, Continues);
    }
    outcome := Continues;
  }

  // --- Every run is safe ---

  lemma KeepsKnown(w: World, steps: seq<Step>, trace: seq<Event>, approved: map<string, string>, done: nat, fresh_: nat,
                   i: nat, kind: ReceiptKind, draft: Draft)
    requires Known(w, steps, trace, approved, done, fresh_) && i < |steps|
    ensures Known(w, steps, Persisted(w, trace, i, kind, draft).0, approved, done, fresh_)
    ensures Asks(Persisted(w, trace, i, kind, draft).0, i) == Asks(trace, i)
  {
    KnownAppend(w, steps, trace, approved, done, fresh_, Receipt(i, kind, draft));
  }

  lemma ApprovedNow(w: World, before: seq<Event>, i: nat, draft: Draft)
    requires w.answer(|before|) == Approve && OneAsking(w, i, draft, before).2
    ensures var trace := OneAsking(w, i, draft, before).0;
            JustKept(w, trace, i, ApproveReceipt, draft) && ApprovedAt(w, trace, |before|, i, draft)
  {
  }

  lemma AskingKnown(w: World, steps: seq<Step>, i: nat, draft: Draft, trace: seq<Event>, approved: map<string, string>)
    requires i < |steps| && steps[i].kind == Approval && Known(w, steps, trace, approved, i, i + 1)
    requires Asks(trace, i) <= MaxAdjust(steps[i])
    ensures var (after, answer, ok) := OneAsking(w, i, draft, trace);
            && Known(w, steps, after, approved, i, i + 1)
            && (ok ==> Asks(after, i) == Asks(trace, i) + 1)
            && (ok && answer == Approve ==> Justified(w, steps[i], after, i, ByOperators, draft))
  {
    var asked, answer := trace + [Asked(i, draft)], w.answer(|trace|);
    KnownAppend(w, steps, trace, approved, i, i + 1, Asked(i, draft));
    KeepsKnown(w, steps, asked, approved, i, i + 1, i, ReceiptFor(answer), draft);
    var (after, given, ok) := OneAsking(w, i, draft, trace);
    if ok && answer == Approve {
      ApprovedNow(w, trace, i, draft);
    }
  }

  /** What a turn adds to the asking, and when it goes on or lets the run go on. */
  lemma TurnIs(w: World, steps: seq<Step>, i: nat, released: Option<nat>, draft: Draft, trace: seq<Event>, data: Data,
               cycles: nat)
    requires i < |steps| && (released.Some? ==> released.value < |steps| && draft.digest.Some?)
    ensures var turn := GateTurn(w, steps, i, released, draft, trace, data, cycles);
            var (asked, answer, ok) := OneAsking(w, i, draft, trace);
            && (turn.trace == asked || turn.trace == Persisted(w, asked, i, QuorumFailReceipt, draft).0)
            && (released.Some? ==> turn.draft.digest.Some?)
            && (turn.Again? ==> ok && turn.trace == asked)
            && (turn.Ended? && turn.outcome == Continues ==>
                  ok && answer == Approve && turn.trace == asked && turn.draft == draft)
  {
  }

  /** One turn either ends with its gate justified or asks once more. */
  lemma TurnKnown(w: World, steps: seq<Step>, i: nat, released: Option<nat>, draft: Draft, trace: seq<Event>,
                  data: Data, cycles: nat, approved: map<string, string>)
    requires i < |steps| && steps[i].kind == Approval && cycles <= MaxAdjust(steps[i])
    requires released.Some? ==> released.value < |steps| && draft.digest.Some?
    requires Known(w, steps, trace, approved, i, i + 1) && Asks(trace, i) == cycles
    ensures var turn := GateTurn(w, steps, i, released, draft, trace, data, cycles);
            && Known(w, steps, turn.trace, approved, i, i + 1)
            && (released.Some? ==> turn.draft.digest.Some?)
            && (turn.Again? ==> Asks(turn.trace, i) == cycles + 1)
            && (turn.Ended? && turn.outcome == Continues ==> Justified(w, steps[i], turn.trace, i, ByOperators, turn.draft))
  {
    var asked := OneAsking(w, i, draft, trace).0;
    TurnIs(w, steps, i, released, draft, trace, data, cycles);
    AskingKnown(w, steps, i, draft, trace, approved);
    KeepsKnown(w, steps, asked, approved, i, i + 1, i, QuorumFailReceipt, draft);
  }

  lemma {:induction false} GateKnown(w: World, steps: seq<Step>, i: nat, released: Option<nat>, draft: Draft, trace: seq<Event>,
                                     data: Data, cycles: nat, approved: map<string, string>)
    requires i < |steps| && steps[i].kind == Approval && cycles <= MaxAdjust(steps[i])
    requires released.Some? ==> released.value < |steps| && draft.digest.Some?
    requires Known(w, steps, trace, approved, i, i + 1) && Asks(trace, i) == cycles
    ensures var (after, _, last, outcome) := Gate(w, steps, i, released, draft, trace, data, cycles);
            && Known(w, steps, after, approved, i, i + 1)
            && (outcome == Continues ==> Justified(w, steps[i], after, i, ByOperators, last) && (released.Some? ==> last.digest.Some?))
    decreases MaxAdjust(steps[i]) - cycles
  {
    var turn := GateTurn(w, steps, i, released, draft, trace, data, cycles);
    TurnGoesOn(w, steps, i, released, draft, trace, data, cycles);
    TurnKnown(w, steps, i, released, draft, trace, data, cycles, approved);
    if turn.Again? {
      GateKnown(w, steps, i, released, turn.draft, turn.trace, turn.data, cycles + 1, approved);
    }
  }

  /** What a step leaves: a safe history, and if it lets the run go on, all that the next step needs. */
  ghost predicate Leaves(w: World, steps: seq<Step>, i: nat, r: (seq<Event>, map<string, string>, Data, Outcome))
    requires i < |steps|
  {
    Safe(w, steps, r.0) && (r.3 == Continues ==> Known(w, steps, r.0, r.1, i + 1, i + 1))
  }

  lemma ApprovalKnown(w: World, steps: seq<Step>, i: nat, trace: seq<Event>, approved: map<string, string>, data: Data)
    requires i < |steps| && steps[i].kind == Approval && Known(w, steps, trace, approved, i, i)
    ensures Leaves(w, steps, i, AfterApproval(w, steps, i, trace, approved, data))
  {
    ReleasedInRange(steps, i + 1);
    var released := ReleasedFrom(steps, i + 1);
    var shown := Rendered(w, steps, released, data, w.draftOf(data));
    var name := if released.Some? then Some(steps[released.value].name) else None;
    if shown.Some? {
      var draft, cost := shown.value, w.cost(|trace|);
      var rule := FirstMatch(w.rules, w.pipeline, steps[i], cost);
      if rule.Some? {
        FirstMatchCovers(w.rules, w.pipeline, steps[i], cost);
        KeepsKnown(w, steps, trace, approved, i, i, i, PolicyReceipt, draft);
        var (after, ok) := Persisted(w, trace, i, PolicyReceipt, draft);
        if ok {
          assert Justified(w, steps[i], after, i, ByPolicy, draft);
          KnownPassed(w, steps, after, approved, i, ByPolicy, draft, name);
        }
      } else {
        GateKnown(w, steps, i, released, draft, trace, data, 0, approved);
        var (after, _, last, outcome) := Gate(w, steps, i, released, draft, trace, data, 0);
        if outcome == Continues {
          KnownPassed(w, steps, after, approved, i, ByOperators, last, name);
        }
      }
    }
  }

  lemma RequestKnown(w: World, steps: seq<Step>, j: nat, trace: seq<Event>, approved: map<string, string>, data: Data)
    requires j < |steps| && steps[j].kind == HttpRequest && Known(w, steps, trace, approved, j, j)
    ensures Known(w, steps, AfterRequest(w, steps[j], j, trace, approved, data).0, approved, j + 1, j + 1)
  {
    RequestIs(w, steps[j], j, trace, approved, data);
    if steps[j].name in approved {
      KnownAppend(w, steps, trace, approved, j + 1, j + 1, Sent(j, approved[steps[j].name]));
    }
  }

  lemma RequestStepIs(w: World, steps: seq<Step>, i: nat, trace: seq<Event>, approved: map<string, string>, data: Data)
    requires i < |steps| && steps[i].kind == HttpRequest
    ensures var (after, approved', _, outcome) := AfterStep(w, steps, i, trace, approved, data);
            var requested := AfterRequest(w, steps[i], i, trace + [Started(i)], approved, data).0;
            approved' == approved && (after == requested || (after == trace && outcome == Failed))
  {
  }

  lemma ApprovalStepIs(w: World, steps: seq<Step>, i: nat, trace: seq<Event>, approved: map<string, string>, data: Data)
    requires i < |steps| && steps[i].kind == Approval
    ensures AfterStep(w, steps, i, trace, approved, data) ==
            if w.expired(|trace|) then (trace, approved, data, Failed)
            else AfterApproval(w, steps, i, trace + [Started(i)], approved, data)
  {
  }

  lemma ApprovalStepKnown(w: World, steps: seq<Step>, i: nat, trace: seq<Event>, approved: map<string, string>, data: Data)
    requires i < |steps| && steps[i].kind == Approval && Known(w, steps, trace, approved, i, i)
    ensures Leaves(w, steps, i, AfterStep(w, steps, i, trace, approved, data))
  {
    ApprovalStepIs(w, steps, i, trace, approved, data);
    KnownAppend(w, steps, trace, approved, i, i, Started(i));
    ApprovalKnown(w, steps, i, trace + [Started(i)], approved, data);
  }

  lemma RequestStepKnown(w: World, steps: seq<Step>, i: nat, trace: seq<Event>, approved: map<string, string>, data: Data)
    requires i < |steps| && steps[i].kind == HttpRequest && Known(w, steps, trace, approved, i, i)
    ensures Leaves(w, steps, i, AfterStep(w, steps, i, trace, approved, data))
  {
    RequestStepIs(w, steps, i, trace, approved, data);
    KnownAppend(w, steps, trace, approved, i, i, Started(i));
    RequestKnown(w, steps, i, trace + [Started(i)], approved, data);
  }

  lemma OtherStepIs(w: World, steps: seq<Step>, i: nat, trace: seq<Event>, approved: map<string, string>, data: Data)
    requires i < |steps| && steps[i].kind == OtherStep
    ensures var (after, approved', _, outcome) := AfterStep(w, steps, i, trace, approved, data);
            (after == trace || after == trace + [Started(i)]) && approved' == approved
            && (outcome == Continues ==> after == trace + [Started(i)])
  {
  }

  lemma OtherStepKnown(w: World, steps: seq<Step>, i: nat, trace: seq<Event>, approved: map<string, string>, data: Data)
    requires i < |steps| && steps[i].kind == OtherStep && Known(w, steps, trace, approved, i, i)
    ensures Leaves(w, steps, i, AfterStep(w, steps, i, trace, approved, data))
  {
    OtherStepIs(w, steps, i, trace, approved, data);
    KnownAppend(w, steps, trace, approved, i, i, Started(i));
  }

  lemma StepKnown(w: World, steps: seq<Step>, i: nat, trace: seq<Event>, approved: map<string, string>, data: Data)
    requires i < |steps| && Known(w, steps, trace, approved, i, i)
    ensures Leaves(w, steps, i, AfterStep(w, steps, i, trace, approved, data))
  {
    match steps[i].kind {
    case Approval => ApprovalStepKnown(w, steps, i, trace, approved, data);
    case HttpRequest => RequestStepKnown(w, steps, i, trace, approved, data);
    case OtherStep => OtherStepKnown(w, steps, i, trace, approved, data);
    }
  }

  ghost predicate AllPassed(steps: seq<Step>, trace: seq<Event>) {
    forall k :: 0 <= k < |steps| && steps[k].kind == Approval ==> PassedBefore(trace, k)
  }

  ghost predicate RunSafe(w: World, steps: seq<Step>, r: (seq<Event>, Outcome)) {
    Safe(w, steps, r.0) && (r.1 == Continues ==> AllPassed(steps, r.0))
  }

  lemma {:induction false} RunIsSafe(w: World, steps: seq<Step>, i: nat, trace: seq<Event>, approved: map<string, string>, data: Data)
    requires i <= |steps| && Known(w, steps, trace, approved, i, i)
    ensures RunSafe(w, steps, RunFrom(w, steps, i, trace, approved, data))
    decreases |steps| - i
  {
    if i < |steps| {
      RunGoesOn(w, steps, i, trace, approved, data);
      StepKnown(w, steps, i, trace, approved, data);
      var r := AfterStep(w, steps, i, trace, approved, data);
      if r.3 == Continues {
        RunIsSafe(w, steps, i + 1, r.0, r.1, r.2);
      }
    }
  }

  /** Every run of every pipeline, whatever operators, models, stores and the network answer. */
  lemma EveryRunIsSafe(w: World, steps: seq<Step>, seed: Data)
    ensures var (trace, outcome) := RunFrom(w, steps, 0, [], map[], seed);
            Safe(w, steps, trace) && (outcome == Continues ==> AllPassed(steps, trace))
  {
    RunIsSafe(w, steps, 0, [], map[], seed);
  }

  // --- What a safe trace means ---

  /** Every gate asks at most once, and once after each rewrite: twice, or four times under a quorum. */
  lemma {:induction false} AskedAtMost(w: World, steps: seq<Step>, trace: seq<Event>, i: nat)
    requires Safe(w, steps, trace) && i < |steps|
    ensures Asks(trace, i) <= MaxAdjust(steps[i]) + 1 == if steps[i].quorum >= 2 then 4 else 2
  {
    if trace != [] {
      var front, e := trace[..|trace| - 1], trace[|trace| - 1];
      assert EventOk(w, steps, front, e);
      AskedAtMost(w, steps, front, i);
    }
  }

  /** Approved by the operators who were shown exactly this draft, with the receipt kept before the run went on. */
  ghost predicate ShownAndApproved(w: World, trace: seq<Event>, q: int, i: nat, draft: Draft) {
    && 0 < q <= |trace|
    && (w.stored ==> trace[q - 1] == Receipt(i, ApproveReceipt, draft))
    && exists r :: 0 <= r < q && trace[r] == Asked(i, draft) && w.answer(r) == Approve
  }

  /** Released by the policy, never for a high-risk step, with the receipt kept before the run went on. */
  predicate ReleasedByPolicy(w: World, st: Step, trace: seq<Event>, q: int, i: nat, draft: Draft) {
    && 0 <= q <= |trace|
    && st.risk != High
    && (w.stored ==> q > 0 && trace[q - 1] == Receipt(i, PolicyReceipt, draft))
  }

  ghost predicate GatePassed(w: World, steps: seq<Step>, trace: seq<Event>, q: int, draft: Draft) {
    && 0 <= q < |trace| && trace[q].Passed? && trace[q].i < |steps| && trace[q].draft == draft
    && steps[trace[q].i].kind == Approval
    && (ShownAndApproved(w, trace, q, trace[q].i, draft) || ReleasedByPolicy(w, steps[trace[q].i], trace, q, trace[q].i, draft))
  }

  lemma PassedMeans(w: World, steps: seq<Step>, trace: seq<Event>, q: nat)
    requires Safe(w, steps, trace) && q < |trace| && trace[q].Passed?
    ensures GatePassed(w, steps, trace, q, trace[q].draft)
  {
    var before, e := trace[..q], trace[q];
    SafeAt(w, steps, trace, q);
    if e.how == ByOperators {
      var r :| ApprovedAt(w, before, r, e.i, e.draft);
      assert trace[r] == Asked(e.i, e.draft);
    }
  }

  /** A step runs only after every gate before it was passed, by its operators or by the policy. */
  lemma StepRunsOnlyAfterItsGates(w: World, steps: seq<Step>, trace: seq<Event>, p: nat, i: nat)
    requires Safe(w, steps, trace) && p < |trace| && trace[p].Started?
    requires i < trace[p].i && i < |steps| && steps[i].kind == Approval
    ensures exists q :: 0 <= q < p && trace[q].Passed? && trace[q].i == i && GatePassed(w, steps, trace, q, trace[q].draft)
  {
    SafeAt(w, steps, trace, p);
    assert PassedBefore(trace[..p], i);
    var before := trace[..p];
    var q :| 0 <= q < |before| && before[q].Passed? && before[q].i == i;
    assert before[q] == trace[q];
    PassedMeans(w, steps, trace, q);
  }

  /** No request step sends twice in one run. */
  lemma SentOnce(w: World, steps: seq<Step>, trace: seq<Event>, r: nat, p: nat)
    requires Safe(w, steps, trace) && r < p < |trace| && trace[p].Sent? && trace[r].Sent?
    ensures trace[r].i != trace[p].i
  {
    var before := trace[..p];
    SafeAt(w, steps, trace, p);
    assert before[r] == trace[r];
  }

  /** A request is sent only with the digest of a draft that a gate passed earlier in the same run. */
  lemma SentOnlyAsReleased(w: World, steps: seq<Step>, trace: seq<Event>, p: nat)
    requires Safe(w, steps, trace) && p < |trace| && trace[p].Sent?
    ensures exists q :: 0 <= q < p && trace[q].Passed? && trace[q].draft.digest == Some(trace[p].digest)
                        && GatePassed(w, steps, trace, q, trace[q].draft)
  {
    SafeAt(w, steps, trace, p);
    assert ReleasedBefore(trace[..p], trace[p].digest);
    var before, digest := trace[..p], trace[p].digest;
    var q :| 0 <= q < |before| && before[q].Passed? && before[q].draft.digest == Some(digest);
    assert before[q] == trace[q];
    PassedMeans(w, steps, trace, q);
  }
}
