# Verified model of draftcat's gates

Draftcat stands between AI agents and actions with effects in the world. Its
worth lies in a handful of state machines and tamper-evidence structures. This
project models them in Dafny 4.11 and proves what they promise, over every
input, every run and every interleaving the model allows.
`dafny verify dfyconfig.toml` verifies all of it.

Code that changes state step by step is modelled by classes and methods with
loops. Each such method is proved equal to a function of the inputs or of the
old state, and the promises are proved as lemmas about those functions and
about runs: lists of events, folded by a step function, in any order.

| file | part of the system |
|---|---|
| `Wrappers.dfy` | optional values |
| `ReceiptEncoding.dfy` | canonical bytes of receipts, notes and stored rows |
| `ReceiptAnchor.dfy` | anchors of the receipt chain, and what a check of one answers |
| `ReceiptAnchorJob.dfy` | the scheduled anchor |
| `Quorum.dfy` | the N-of-M approval rule |
| `RelayGate.dfy` | the engine's side of the relay protocol |
| `SlackRelay.dfy` | the relay's side |
| `ApprovalProtocol.dfy` | both sides, the network, the expiry timer and the waiting run as one system |
| `TelegramQuorum.dfy` | the Telegram loop for two or more approvers |
| `Budget.dfy`, `BudgetRuns.dfy` | the budget ledger; its runs |
| `ToolPolicy.dfy` | what the rules decide about one tool call |
| `ToolCaps.dfy` | daily caps while calls, people, grants and revocations interleave |
| `Scheduler.dfy`, `SchedulerRuns.dfy` | the scheduler; its runs and callers |
| `PipelineRun.dfy` | one pipeline run, its gates and its outbound requests |
| `OrderedJson.dfy`, `HookInstall.dfy` | ordered JSON and its codec; the hook installer's edit |
| `DefinitionDiff.dfy` | what changed in a tool definition |
| `Windows.dfy` | the trip window and the rate limiter |
| `YamlNumber.dfy` | YAML decimals as JSON numbers |

Modelling choices that hold throughout. Costs and amounts are reals; a cost that
is not a finite number is represented by a negative one, which the code refuses
in the same place. Machine integers are unbounded except in the budget ledger,
where the 64-bit sum and its wrap-around are explicit. A chain link is a free
term (genesis, or the next link of a link and a row): that is the ideal hash.
Receipt ids and shortened links are arbitrary functions of their argument.
Clocks, operators, models, stores, networks, globs, regular expressions and
digests are parameters that may answer anything.

## Where the code and its documentation differ

The model follows the code. Each of these is a lemma in the project, with the
exact condition where the two can be compared.

- `relay_channel.go:61-62` says that callbacks after a gate resolved get a 409.
  Until the waiting run removes the gate they are answered as recorded and
  resolved. `RelayGate.ResolvedAnswer` says exactly when such an answer means
  that the callback's own decision was delivered.
- A relay that lost the reply to the deciding approval can later show that a
  skip stopped the action while the run acts on the approval
  (`ApprovalProtocol.LostReplyShowsSkipped`). As long as the reply of every
  decision the gate recorded came back readable, what a closed message shows is
  true (`ApprovalProtocol.ShownIsWhatHappened`), and for every approval an untrue
  message is possible exactly where such a reply can be lost
  (`ApprovalProtocol.MisreportsIffLossy`).
- 410 is meant for a gate whose clock ran out. It is chosen by looking for a word
  in the error text, which quotes the caller: an open gate answers 410 exactly
  when the first check that fails quotes a text with that word in it
  (`RelayGate.OpenGateSaysExpiredIff`, `RelayGate.OpenGateSaidExpired`).
- In the Telegram loop a skip with a reason is remembered by the user id, so it
  would not hold for user id 0, which Telegram gives nobody
  (`TelegramQuorum.VetoHoldsIffNotZero`).
- A relay gate counts identities and the reducer counts operators. They agree on
  everything if and only if no operator answers to two identities
  (`RelayGate.AgreesIffInjective`), which the configuration check makes sure of.
- Altering one receipt is always reported as changed, but at a later position
  when the shortened links at its position collide
  (`ReceiptAnchor.AlterationNamed`).
- The rules' header says that a mismatch can only tighten. A call refused because
  a total cannot be read is asked about instead once a tighter rule finds a
  mismatch first; that is the only exception (`ToolPolicy.TighteningIff`).
- A `max_per_day` cap can be passed by calls the gate releases on its own, after
  people allowed negative amounts. It is kept exactly when no negative amount can
  reach a person, or no positive one can pass without one
  (`ToolCaps.CapKeptIff`).
- `internal/schedule` says an interval runs that long after the previous run
  started. It is counted from its end, so it falls where the documentation has it
  if and only if the run took no time (`SchedulerRuns.IntervalRunsFromTheEnd`).
- `Failures` is documented as consecutive failed timer runs. Runs of every kind
  count (`SchedulerRuns.FailuresCounted`, `SchedulerRuns.StreakPauses`).
- `Restore` is said to continue the failure count. It reads the recorded runs,
  which know nothing of an operator's resume, so it can pause a resumed pipeline
  again for failures of before (`SchedulerRuns.ResumedThenPausedAgain`);
  `SchedulerRuns.RestoreContinuesIff` says when it does continue the count.
- The rate limiter allows `limit` messages in a half-open minute; a minute with
  both ends holds up to twice as many, and can (`Windows.ClosedMinuteHolds`,
  `Windows.ClosedMinuteHoldsMore`). A limit of 0 means 10, and a negative limit
  allows nothing.

## Model

| member | source | states |
|---|---|---|
| `ReceiptEncoding.BuildCanonical` | internal/approval/receipt.go:71-90 | the builder loop writes exactly the length-prefixed parts, in order |
| `ReceiptEncoding.DecodeEncodeParts` | internal/approval/receipt.go:71-90 | the exact list of parts is read back, whatever bytes the parts hold |
| `ReceiptEncoding.Canonical` | internal/approval/receipt.go:93-121 | the bytes of a v1, v2 or note receipt or a stored row decode to that very envelope and nonce |
| `ReceiptEncoding.CanonicalInjective` | internal/approval/receipt.go:173-190 | equal bytes mean equal kind, fields and nonce: no encoding of one kind equals one of another |
| `ReceiptEncoding.DecodeCanonical` | internal/state/receipt_chain.go:23-59 | every field comes back from the bytes, delimiters and digits in the fields notwithstanding |
| `ReceiptAnchor.ReceiptChainLinks` | receipt_anchor.go:68-76 | link i of the list is the chain of the first i receipts |
| `ReceiptAnchor.AnchorFromLinks` | receipt_anchor.go:83-94 | the anchor built from the links is that of the whole history |
| `ReceiptAnchor.ClassifyDivergence` | receipt_anchor.go:269-302 | deleted, changed, inserted or reordered by which side knows which id |
| `ReceiptAnchor.CheckReceiptAnchor` | receipt_anchor.go:220-262 | the loops answer as specified for a trail, a missing trail and a bare link |
| `ReceiptAnchor.MatchesIffPrefix` | receipt_anchor.go:220-262 | in all three forms a check matches if and only if the anchored history is a prefix of the store, and appended counts the rest |
| `ReceiptAnchor.DeletionNamed` | receipt_anchor.go:269-302 | one missing receipt is reported as deleted, at its position |
| `ReceiptAnchor.InsertionNamed` | receipt_anchor.go:269-302 | one added receipt before the end is reported as inserted, at its position |
| `ReceiptAnchor.SwapNamed` | receipt_anchor.go:269-302 | two swapped receipts are reported as reordered, at the first of them |
| `ReceiptAnchor.ReplacementNamed` | receipt_anchor.go:269-302 | a receipt replaced by one with another id is reported as deleted, at its position |
| `ReceiptAnchor.AlterationNamed` | receipt_anchor.go:236-246 | an altered receipt is always changed, never earlier than its position, and exactly there if and only if it is the last or its shortened links differ |
| `ReceiptAnchor.NamesDistinctIff` | receipts_cmd.go:40-45 | in a store the names of receipts are distinct if and only if no two carry the same id and none carries the number of a row without one |
| `ReceiptAnchor.CheckAnchorLog` | receipt_anchor.go:205-215 | stops at the first anchor of the log that the store fails |
| `ReceiptAnchor.OldestCoveringAnchor` | receipt_anchor.go:205-215 | for a store that departs from the true history at k, the anchor returned is the oldest one that covers k; the check passes if and only if none does |
| `ReceiptAnchorJob.ChainReaches` | receipt_anchor_job.go:151-158 | finds a link exactly when the chain contains it |
| `ReceiptAnchorJob.Job.Extends` | receipt_anchor_job.go:100-106 | the store extends the history anchored last if and only if that history is still a prefix of it |
| `ReceiptAnchorJob.Job.UpdateFile` | receipt_anchor_job.go:107-124 | a file that does not hold the anchor yet gets exactly one line if the write succeeds, and nothing otherwise; the anchor is recorded exactly when it was written |
| `ReceiptAnchorJob.Job.UpdateChannel` | receipt_anchor_job.go:125-136 | the same for the operator channel |
| `ReceiptAnchorJob.Job.AnchorStore` | receipt_anchor_job.go:107-141 | every destination that was not current gets the anchor of this store, or the attempt is retried and its record stays as it was |
| `ReceiptAnchorJob.Job.Tick` | receipt_anchor_job.go:73-141 | warns exactly when the history anchored last is no longer a prefix, repeats nothing, appends exactly what each due destination accepts, and says anchored only when every destination that was not current got the anchor in this tick |
| `Quorum.SortedIds` | main.go:545-552 | the members of the set, each once, in increasing order |
| `Quorum.QuorumReducer` | main.go:521-543 | the replay loop computes the reduction, with sorted approvers on approve only |
| `Quorum.OutcomeMeaning` | main.go:513-543 | pending if and only if nobody vetoed and too few distinct permitted users approved; otherwise decided by the first event that ended that |
| `Quorum.DecisionIsFinal` | main.go:513-543 | no later event changes what was decided |
| `RelayGate.IdentityRoundTrip` | internal/config/config.go:223-242 | with a valid operator list, id and identity stand for each other |
| `RelayGate.ValidOperatorsOneToOne` | internal/validate/validate.go:691-713 | a valid operator list makes accepted decisions one to one between identities and operators |
| `RelayGate.PermittedIdentities` | relay_channel.go:165-188 | exactly the identities of the named operators that have one |
| `RelayGate.OpenGate` | relay_channel.go:152-188 | the identities that may decide are exactly those of the operators named for the step, and the gate opens if and only if they are enough to satisfy it |
| `RelayGate.VerifyIff` | internal/relay/protocol.go:238-277 | a decision is accepted if and only if it answers this very dispatch, in time, with a verb, by someone who may, and with the words it needs |
| `RelayGate.Gate.ResolveOnce` | relay_channel.go:63-65 | the first decision stays |
| `RelayGate.Gate.Record` | relay_channel.go:346-378 | one accepted decision changes the gate and is answered as specified |
| `RelayGate.Channel.HandleDecision` | relay_channel.go:294-378 | 409, 410, 403 or 200 exactly as gate, verification and operator list say, and no other gate changes |
| `RelayGate.OpenGateSaidExpired` | relay_channel.go:294-378 | an input that does this |
| `RelayGate.GateRefinesReducer` | relay_channel.go:346-378 | the incremental gate has delivered nothing while the reducer is pending and the reducer's outcome otherwise, each approver once |
| `RelayGate.OpenedGateRefinesReducer` | relay_channel.go:294-378 | with the operator list the configuration check demands, a gate opened for a step and any callbacks the handler accepts, at any times, come to what the reducer says for the operators named |
| `RelayGate.DeliveryIsFinal` | relay_channel.go:63-65 | a delivered decision is never replaced |
| `RelayGate.DeliveredText` | relay_channel.go:346-358 | a delivered skip or adjustment carries the words and the operator of the callback that stopped the gate: the reason without the white space around it, the adjustment as sent |
| `RelayGate.TwoIdentitiesOneOperator` | relay_channel.go:365-371 | any two identities of one operator satisfy a gate that needs two people, while the reducer is pending |
| `RelayGate.AgreesIffInjective` | relay_channel.go:365-371 | for any operator list, gate and reducer agree on all sequences and needs if and only if no operator answers to two identities |
| `RelayGate.ResolvedAnswer` | relay_channel.go:61-65 | an answer of resolved means the caller's decision was delivered if and only if nothing, or the same, was delivered before |
| `SlackRelay.Relay.Prune` | contrib/slack-relay/relay.go:231-238 | drops exactly the closed entries whose expiry is a day past |
| `SlackRelay.Relay.Reserve` | contrib/slack-relay/relay.go:109-143 | one entry per approval: a repeat is recognised by nonce and payload hash, anything else under the id refused |
| `SlackRelay.Relay.FinishPost` | contrib/slack-relay/relay.go:145-165 | a posted entry goes live with its timer, a refused one goes |
| `SlackRelay.Relay.BeginClick` | contrib/slack-relay/relay.go:351-412 | a click becomes a decision if and only if every condition holds, and only then changes the entry |
| `SlackRelay.Relay.EndClick` | contrib/slack-relay/relay.go:414-469 | the entry after the reply, and whether its handler still owes the expiry |
| `SlackRelay.ReplyMeans` | contrib/slack-relay/relay.go:414-469 | for every status and body: which replies close the message, with which status line, which count an approval, and which reopen it unchanged |
| `SlackRelay.Relay.Expire` | contrib/slack-relay/relay.go:212-229 | closes an open entry and no other |
| `ApprovalProtocol.StepKeepsInv` | contrib/slack-relay/relay.go:351-469 | every event keeps the invariant: one decision in flight, recorded approvers distinct and seen by the gate, an expired open entry owed an expire call |
| `ApprovalProtocol.InvHolds` | contrib/slack-relay/relay.go:133-229 | the invariant holds after any interleaving of clicks, gate, network, timer and run |
| `ApprovalProtocol.ClosedIsAbsorbing` | contrib/slack-relay/relay.go:376-412 | a closed approval keeps its outcome and approvers until it is forgotten |
| `ApprovalProtocol.QuietAfterExpiry` | contrib/slack-relay/relay.go:434-469 | with the timer fired and no handler busy the message is closed |
| `ApprovalProtocol.ClickDecidesIff` | contrib/slack-relay/relay.go:351-412 | in every reachable state a click sends a decision if and only if its message is open, nobody else's decision is on its way, and user, message, verb and words are as they must be; any other click changes nothing |
| `ApprovalProtocol.DeliveredApproval` | relay_channel.go:360-371 | a run gets an approval only if at least the required number of different permitted people pressed Approve on the staged payload |
| `ApprovalProtocol.DeliveryIsFinal` | relay_channel.go:52-65 | what the run was given, and what the gate resolved to, never changes |
| `ApprovalProtocol.ShownIsWhatHappened` | contrib/slack-relay/relay.go:414-469 | unless the reply of a decision the gate recorded was lost or unreadable, a closed message shows the gate's decision with exactly the people it counted, or an expiry the gate does not contradict |
| `ApprovalProtocol.ReplyFollowsGate` | contrib/slack-relay/relay.go:414-469 | in every run in which no recorded reply was lost, a reply closes the message if and only if the gate has resolved or said that it is gone or expired |
| `ApprovalProtocol.MisreportsIffLossy` | contrib/slack-relay/relay.go:414-469 | for every approval some run shows what is not so if and only if some run loses such a reply, and that is so exactly when there is anyone whose decision the relay forwards and the gate records |
| `ApprovalProtocol.LateVetoShown` | contrib/slack-relay/relay.go:424-433 | a skip that reaches a gate resolved to something else is shown as if it had decided |
| `ApprovalProtocol.LostReplyReopens` | contrib/slack-relay/relay.go:414-423 | a lost reply reopens the entry, whatever the decision did at the gate |
| `ApprovalProtocol.LostReplyShowsSkipped` | contrib/slack-relay/relay.go:414-433 | a run in which the message shows a skip and the gate delivers the approval |
| `TelegramQuorum.AwaitQuorum` | main.go:807-908 | the update loop computes the specified gate |
| `TelegramQuorum.ReturnedStays` | main.go:807-908 | a gate that returned takes no further update |
| `TelegramQuorum.LoopRefinesReducer` | main.go:831-908 | what the loop returns before a timeout is the reducer's outcome on the taps it took, and while it waits the reducer is pending |
| `TelegramQuorum.TimeoutOnlyWhilePending` | main.go:831-848 | a timeout is returned at the end of the window and only while the reducer was pending |
| `TelegramQuorum.StopMeans` | main.go:831-908 | a gate that was stopped names the permitted person whose tap stopped it; a skip carries the first usable text of that person within the wait, or no reason |
| `TelegramQuorum.WindowEnds` | main.go:838-848 | the end of the approval window ends the gate |
| `TelegramQuorum.VetoHoldsIffNotZero` | main.go:832-888 | a skip with a reason stops every later tap if and only if its user id is not 0 |
| `TelegramQuorum.ZeroVetoIsLost` | main.go:832-888 | updates on which the loop approves what the reducer skipped |
| `Budget.WorstCaseIsWorst` | internal/config/config.go:313-319 | at the configured rates no call within the token bounds costs more than the worst case |
| `Budget.WorstCaseAttained` | internal/config/config.go:313-319 | and a call that uses all of it costs just that |
| `Budget.BudgetTracker.NewRun` | budget.go:47-52 | a run starts at zero under the shared root |
| `Budget.BudgetTracker.Refresh` | budget.go:63-86 | a new day clears the day's totals and nothing else |
| `Budget.BudgetTracker.CheckLocked` | budget.go:95-119 | the first of the day's and the run's checks that fails, in the order of the source; BudgetRuns.AdmittedIff says what passing means |
| `Budget.BudgetTracker.CheckPipelineDay` | budget.go:265-290 | the same for a pipeline's daily caps |
| `Budget.BudgetTracker.Admit` | budget.go:219-260 | reserves the call if nothing refuses it, else answers the first refusal and reserves nothing; BudgetRuns.AdmittedIff says which calls those are |
| `Budget.BudgetTracker.RecordUsage` | budget.go:153-166 | adds to the day and the run, or marks the ledger invalid when a counter would wrap |
| `Budget.BudgetTracker.RecordPipeline` | budget.go:302-324 | adds to the pipeline's day and reports when its cap was crossed |
| `Budget.BudgetTracker.Finish` | budget.go:326-366 | the ledger after each outcome, and exactly which of the settlements it is told as |
| `Budget.BudgetTracker.CallProvider` | provider_call.go:95-109 | the gate is free again on every path, and the ledger is that of admission followed by settlement |
| `BudgetRuns.StepKeepsExact` | budget.go:63-366 | every event keeps each counter equal to the sum of the calls it should count |
| `BudgetRuns.ExactHolds` | budget.go:63-366 | so after any run: day, run and pipeline counters are exact, none wraps, and at most one call is unsettled |
| `BudgetRuns.SettleFits` | budget.go:302-312 | a settled call never overflows its pipeline's total when it did not overflow the day's |
| `BudgetRuns.UncertainBlocks` | budget.go:326-366 | after an uncertain failure or an invalid response no call is ever admitted again |
| `BudgetRuns.RunTotalsAddUp` | budget.go:153-166 | the runs' totals add up to all settled usage |
| `BudgetRuns.PipelineTotalsAddUp` | budget.go:302-324 | the pipelines' totals and the unattributed usage add up to today's total |
| `BudgetRuns.AdmittedHasRoom` | budget.go:106-117 | an admitted call has room under the day's, the run's and the pipeline's limits |
| `BudgetRuns.AdmittedIff` | budget.go:95-119 | from any exact state a call is sent if and only if nothing is unresolved, its request and limits are usable, and the settled calls leave room for it under the day's, its run's and its pipeline's limits, where a limit of zero leaves room for anything |
| `BudgetRuns.CapsHold` | budget.go:219-290 | under one configuration every cap holds but for the last call's excess, and every reserved cost cap holds outright when no call beats its worst case, day changes included |
| `BudgetRuns.DayCapsHold` | budget.go:106-117 | the same from a fresh start, in the ledger's own numbers |
| `ToolPolicy.MatchArgs` | internal/config/config.go:1213-1221 | names the first argument in rule order that does not satisfy its constraint, or nothing when all do |
| `ToolPolicy.FitsIff` | internal/config/config.go:1087-1151 | an argument fits if and only if it is there or optional, equals what is asked, is on the list, matches glob and pattern, and is a number within the bounds where one is asked for |
| `ToolPolicy.ReviewArgs` | internal/config/config.go:1225-1233 | the first argument above its review threshold |
| `ToolPolicy.ReadDailyCaps` | internal/config/config.go:1272-1311 | the first cap the call would pass, or that a total could not be read |
| `ToolPolicy.EvaluateToolPolicy` | tool_policy.go:51-117 | the verdict, step by step |
| `ToolPolicy.AllowedIff` | tool_policy.go:51-117 | a call passes on its own if and only if the tool is listed and no condition, cap, review threshold or approval requirement objects |
| `ToolPolicy.AllowedMeans` | tool_policy.go:51-117 | a call is allowed if and only if every argument satisfies its constraint and stays below its review threshold and within its daily total, the definition is as pinned, the calls of the day leave room, and the rule does not ask for approval |
| `ToolPolicy.MismatchMeans` | tool_policy.go:63-93 | a call that does not satisfy the rule is refused or asked about as on_mismatch says, and is never grantable |
| `ToolPolicy.DecisionMeans` | tool_policy.go:51-117 | the decision on every call whose totals can be read, in the rule's own fields |
| `ToolPolicy.GrantableIff` | tool_policy.go:106-116 | a grant may answer a call if and only if it is asked about for require_approval and nothing else, on a tool that allows grants and is not high risk |
| `ToolPolicy.TighteningIff` | tool_policy.go:63-107 | tightening a rule never loosens a decision, except exactly when it stops a failing total from being read |
| `ToolPolicy.UnreadableThenAsked` | tool_policy.go:70-93 | a rule and a call that show the exception |
| `ToolPolicy.RequireApprovalMakesGrantable` | tool_policy.go:108-116 | a value above review_above is never grantable without require_approval, and is with it whenever the rule allows grants |
| `ToolCaps.ComputeCappedAmounts` | internal/config/config.go:1238-1249 | the exact value of each capped argument, and one per call |
| `ToolCaps.Store.RecordAmounts` | internal/state/tool_amounts.go:16-38 | the first amounts of an action stay |
| `ToolCaps.Store.ArgTotal` | internal/state/tool_amounts.go:42-74 | the sum over the day's released actions |
| `ToolCaps.Store.Decide` | internal/state/tool_lifecycle.go:41-78 | only a pending action is decided, and one past its expiry expires |
| `ToolCaps.Store.ConsumePermit` | internal/state/tool_lifecycle.go:82-112 | only a live permit is spent |
| `ToolCaps.Store.Cancel` | internal/state/tool_lifecycle.go:130-140 | a consumed action is not revoked |
| `ToolCaps.Store.NormalizePermit` | internal/state/tool_lifecycle.go:116-125 | an unconsumed permit closes on expiry or a changed policy |
| `ToolCaps.DecidedInTime` | internal/state/tool_lifecycle.go:41-78 | in every run an action is allowed or denied exactly by its lock holder's verdict or by the person it was put before, while pending and before it expires; a late decision finds it expired |
| `ToolCaps.SpentWhileLive` | internal/state/tool_lifecycle.go:82-112 | in every run a permit is spent at most once, and exactly by a consumption of an allowed action before it expires |
| `ToolCaps.ClosedIsOver` | internal/state/tool_lifecycle.go:114-140 | a revoked action, and one normalised past its expiry or under a changed policy, is over, and was spent only if it was spent before |
| `ToolCaps.OverStays` | internal/state/tool_lifecycle.go:82-140 | a denied, spent, expired or revoked action never changes again |
| `ToolCaps.StepKeepsCap` | tool_gate.go:351-437 | every critical section and every outside event keeps the cap's invariant |
| `ToolCaps.ReleasedWithinCap` | tool_gate.go:840-852 | what the gate released on its own in a day is at most the cap plus what people took off the total |
| `ToolCaps.CallsWithinCap` | internal/config/config.go:1299-1309 | the number of calls released on their own is at most max_calls_per_day |
| `ToolCaps.DenyingRuleWithinCap` | internal/config/config.go:1122-1136 | under a rule that denies on a mismatch the amount is at most max_per_day |
| `ToolCaps.CapKeptIff` | internal/config/config.go:1122-1136 | for every rule with one cap, whatever its other conditions: calls released on their own keep it in every run if and only if the rule denies on a mismatch, or no call has a negative amount, or no call it releases on its own has a positive one |
| `ToolCaps.CapKeptIffDenies` | internal/config/config.go:1122-1136 | for a rule with nothing but the cap, and numbers of either sign: if and only if it denies on a mismatch |
| `Scheduler.Scheduler.Claim` | scheduler.go:179-213 | grants or refuses a claim, for the first reason that applies |
| `Scheduler.Scheduler.Finish` | scheduler.go:235-266 | ends the run, drops a removed pipeline, and counts or clears the failure streak |
| `Scheduler.Scheduler.CountEnd` | scheduler.go:252-265 | reports exactly the failure that pauses |
| `Scheduler.Scheduler.Release` | scheduler.go:271-280 | gives back a held claim and changes nothing otherwise |
| `Scheduler.Scheduler.Pause` | scheduler.go:150-158 | pauses a known pipeline |
| `Scheduler.Scheduler.Resume` | scheduler.go:162-175 | clears pause and streak and plans the next run |
| `Scheduler.Scheduler.Reschedule` | scheduler.go:217-230 | replaces the schedule of a known pipeline, and refuses exactly a timer schedule that does not parse in its time zone |
| `Scheduler.Scheduler.Restore` | scheduler.go:95-134 | continues schedule and streak from the recorded runs, and reports exactly whether the recorded streak pauses the pipeline |
| `Scheduler.Scheduler.SyncPipeline` | scheduler.go:329-358 | what one configured pipeline becomes in a reload |
| `Scheduler.Scheduler.Sync` | scheduler.go:324-369 | the reloaded list, with running pipelines kept until they end |
| `Scheduler.Scheduler.DropUnseen` | scheduler.go:359-368 | drops exactly the unnamed pipelines that are not running |
| `Scheduler.Scheduler.ClaimDue` | scheduler.go:289-319 | claims every due pipeline a reload has not dropped, and no other |
| `SchedulerRuns.TimerRun` | main.go:3063-3078 | a due pipeline's claim is given back once, whether or not it is still configured |
| `SchedulerRuns.ManualRun` | main.go:2284-2317 | the operator's run gives its claim back once |
| `SchedulerRuns.WebhookRun` | main.go:3373-3430 | every path of the webhook handler gives its claim back once |
| `SchedulerRuns.ReloadKeepsRunning` | scheduler.go:324-369 | a reload neither starts nor ends a run |
| `SchedulerRuns.GivingBackEnds` | scheduler.go:235-280 | whoever holds a claim finds its pipeline running and ends that run and no other |
| `SchedulerRuns.StepKeepsInv` | scheduler.go:179-369 | every event keeps the counter equal to the running pipelines, each held by exactly one claim |
| `SchedulerRuns.InvHolds` | scheduler.go:179-369 | so it holds after any run |
| `SchedulerRuns.OneRunAtATime` | scheduler.go:179-196 | while a claim is held no second one is granted, reloads or not |
| `SchedulerRuns.GrantedIff` | scheduler.go:179-213 | after any run a claim is granted if and only if the pipeline is configured, nobody holds it, it is not paused for this caller and no shutdown has begun |
| `SchedulerRuns.ClaimedIsDue` | scheduler.go:289-319 | the timer claims exactly the pipelines whose planned run is past and that are neither paused nor running nor dropped |
| `SchedulerRuns.PausedIsIdle` | scheduler.go:150-158 | a paused pipeline is refused to timer and webhook and still granted to an operator |
| `SchedulerRuns.WaitMeansIdle` | scheduler.go:379-401 | the counter is never negative and is zero exactly when nobody holds a claim |
| `SchedulerRuns.DrainOnlyShrinks` | scheduler.go:371-375 | after BeginDrain the running set and the holders only shrink |
| `SchedulerRuns.ReloadCarriesOver` | scheduler.go:320-369 | a reload keeps pause state, streak and history of what it names or finds running, takes the timer from what it drops, and starts anew what comes back from idle |
| `SchedulerRuns.FailuresCounted` | scheduler.go:235-266 | over any run failures is the number of failed ends since the last success, resume or arrival of the pipeline |
| `SchedulerRuns.StreakPauses` | scheduler.go:235-266 | over any run a failed end pauses a pipeline exactly when a timer drives it and that number has come to pause_after_failures |
| `SchedulerRuns.RestoreContinuesIff` | scheduler.go:91-134 | after any run, a restart goes on from the count exactly when it is the recorded streak, or both have come to the runs read back; it pauses exactly by the recorded streak |
| `SchedulerRuns.CountedAtMostRecorded` | scheduler.go:252-265 | the count never exceeds the recorded streak |
| `SchedulerRuns.ResumedThenPausedAgain` | scheduler.go:121-133 | a run in which an operator resumes a pipeline and a restart pauses it again |
| `SchedulerRuns.IntervalRunsFromTheEnd` | scheduler.go:240-244 | the next run of an interval is that long after the end of the last, so where the documentation has it if and only if the run took no time |
| `SchedulerRuns.DueAfterInterval` | scheduler.go:235-266 | after a run an interval pipeline is due again exactly once the interval from its end has passed, unless it is paused |
| `SchedulerRuns.DueAfterResume` | scheduler.go:162-175 | a resumed one exactly once the interval from the resume has passed |
| `SchedulerRuns.ReschedulePlans` | scheduler.go:217-230 | a schedule an operator sets is planned from now in the pipeline's zone, and one that does not parse changes nothing |
| `SchedulerRuns.UnchangedKeepsPlan` | scheduler.go:324-358 | a reload that leaves a schedule alone leaves its plan alone, and takes over the other settings |
| `SchedulerRuns.ReloadPlansAsRestart` | scheduler.go:345-357 | a changed interval is planned as a restart plans it; a calendar schedule differs exactly for a missed run to be caught up, an instant that is now, or none after the last run |
| `PipelineRun.AutoApproves` | internal/config/config.go:685-713 | the first rule that covers the step, and never one of high risk |
| `PipelineRun.MatchesIff` | internal/config/config.go:685-713 | a rule covers exactly the steps of its own risk below high, in its pipeline and step or any, while the run cost less than its bound |
| `PipelineRun.ReleasedHTTPRequest` | http_action.go:33-43 | the next request step, unless an approval step comes first |
| `PipelineRun.OneReleaser` | http_action.go:33-43 | no request is released by two approval steps |
| `PipelineRun.AskOnce` | main.go:1548-1582 | one opening of the gate, its answer and its receipt |
| `PipelineRun.Rewrite` | main.go:1624-1652 | the rewritten draft, rendered anew when it is a request |
| `PipelineRun.AskOperators` | main.go:1546-1653 | by the first answer other than an adjustment: approved with its receipt the gate continues, skipped it halts, anything else fails, one adjustment too many halts; with what was shown each time |
| `PipelineRun.GateAnswers` | main.go:1512-1653 | with a store and a model that keep up, every gate comes to that, whatever its operators answer |
| `PipelineRun.SomeFirstOther` | main.go:1503-1508 | the operators' answers always have such a first one, or one adjustment too many |
| `PipelineRun.RunApproval` | main.go:1390-1653 | an approval step, by policy or by its operators |
| `PipelineRun.RunHTTPRequest` | http_action.go:83-118 | a request is sent if and only if its digest is the bound one |
| `PipelineRun.RunPipeline` | main.go:1087-1666 | the whole run: a safe history, all gates passed when it completes, and every started step coming to what its surroundings answer |
| `PipelineRun.EveryRunIsSafe` | main.go:1087-1666 | every run's history is safe, and one that completes passed all its gates |
| `PipelineRun.EveryStepComes` | main.go:1087-1666 | in every run an approved or released gate is followed by the start of the next step, a skip halts the run, a request goes out unless it no longer renders to the digest it was released with, and the data every step, gate and request works on are those its history gives |
| `PipelineRun.StepRunsOnlyAfterItsGates` | main.go:1512-1653 | a step starts only after every gate before it was approved by the operators who saw the draft, or released by policy below high risk, with the receipt kept first |
| `PipelineRun.SentOnlyAsReleased` | http_action.go:83-93 | a request sent has the digest of a draft that such a gate passed earlier in the run |
| `PipelineRun.SentOnce` | http_action.go:83-118 | no request step sends twice in a run |
| `PipelineRun.AskedAtMost` | main.go:1503-1508 | a gate asks at most once more than its rewrites: two times, or four with a quorum |
| `OrderedJson.GetSet` | gate_install.go:598-608 | reading after setting, and keys stay distinct |
| `OrderedJson.DelSet` | gate_install.go:603-621 | deleting a key that was just added restores the object |
| `OrderedJson.SetOrder` | gate_install.go:603-608 | setting a key keeps the order of the keys, appends a new one, and leaves every other member alone |
| `OrderedJson.JsonObj.GetValue` | gate_install.go:598-601 | the map answers like the ordered members |
| `OrderedJson.JsonObj.SetValue` | gate_install.go:603-608 | replaces in place or appends, with keys and map in step |
| `OrderedJson.JsonObj.Delete` | gate_install.go:610-621 | removes the member, the others keeping their order |
| `OrderedJson.Buffer.Write` | gate_install.go:695-736 | writes exactly the value's tokens |
| `OrderedJson.Decoder.ReadValue` | gate_install.go:642-684 | the cursor reads what the grammar says and stops after the value |
| `OrderedJson.RoundTrip` | gate_install.go:642-736 | what is written is read back, key order and number spelling included, if and only if it nests at most 128 levels |
| `OrderedJson.DecodedIsProper` | gate_install.go:642-684 | whatever is read has distinct keys and at most 128 levels |
| `OrderedJson.ReadWriteRead` | gate_install.go:625-693 | a settings file that was read can be written and read again unchanged |
| `HookInstall.StripEntry` | gate_install.go:379-411 | what stays of one entry |
| `HookInstall.StripEntries` | gate_install.go:375-412 | what stays of the list, and where the first removed entry was |
| `HookInstall.IsHookIff` | gate_install.go:440-450 | a hook is draftcat's if and only if one of its three commands has the marker at some position |
| `HookInstall.EntryIsOwned` | gate_install.go:260-280 | the entry the installer writes is recognised as draftcat's, for every harness, binary path, format and option |
| `HookInstall.UpsertHookEntry` | gate_install.go:354-438 | the edit is the specified install or removal, errors included |
| `HookInstall.GroupIsOwned` | gate_install.go:65-69 | the group the installer writes is recognised as draftcat's |
| `HookInstall.StrippedMeans` | gate_install.go:379-411 | an entry goes if and only if it is draftcat's alone, and else keeps every member but its draftcat hooks, in place |
| `HookInstall.InstallReplaces` | gate_install.go:354-438 | only the last install counts: installing twice is installing once |
| `HookInstall.InstallTwice` | gate_install.go:354-438 | installing any harness's hook over any other install of it leaves only the last |
| `HookInstall.OneEntry` | gate_install.go:375-438 | exactly one entry of draftcat's is left, where the first was or at the end |
| `HookInstall.InstalledOnce` | gate_install.go:375-438 | after an install exactly one entry is draftcat's, and it is the one written |
| `HookInstall.OthersInOrder` | gate_install.go:375-438 | every entry that is not draftcat's alone survives in order, with its other members untouched and its own hooks, in order, in the group that held them |
| `HookInstall.InstalledAmongOthers` | gate_install.go:375-438 | around the installed entry everybody else's entries and hooks survive in order |
| `HookInstall.UnmarkedKept` | gate_install.go:379-411 | a hook without the marker in any of its commands is kept |
| `HookInstall.InstallKeepsOthers` | gate_install.go:354-438 | every other key of the file and every other event keeps its value and its place; hooks and the event keep theirs or come last |
| `HookInstall.RemoveKeepsOthers` | gate_install.go:413-428 | a removal leaves every other key and event what and where it was |
| `HookInstall.RemoveUndoesInstallIff` | gate_install.go:413-428 | removing after installing restores the file if and only if it held no empty hooks object and no empty list for the event |
| `HookInstall.RemoveUndoesEntryIff` | gate_install.go:413-428 | for the entries really written: removing after installing restores the file if and only if it held no empty hooks object and no empty list for the event |
| `HookInstall.RemoveTakesOut` | gate_install.go:413-428 | a removal leaves the event's other entries and none of draftcat's, and a file that has none stays as it is |
| `HookInstall.RefusedIff` | gate_install.go:354-375 | the edit is refused exactly when hooks is not an object or the event not a list |
| `DefinitionDiff.Report.DiffValues` | tool_definition_diff.go:105-128 | appends exactly the differences of two values |
| `DefinitionDiff.Report.DiffObjects` | tool_definition_diff.go:74-101 | of two objects |
| `DefinitionDiff.Report.DiffArrays` | tool_definition_diff.go:133-156 | of two lists |
| `DefinitionDiff.ListMissing` | tool_definition_diff.go:170-191 | the members the other list lacks, each once |
| `DefinitionDiff.MissingMeans` | tool_definition_diff.go:170-191 | as sets, the difference of the two lists |
| `DefinitionDiff.NoEntryIffSame` | tool_definition_diff.go:48-55 | no entry if and only if the definitions are the same JSON value |
| `DefinitionDiff.EveryEntryTold` | tool_definition_diff.go:74-156 | every entry tells truly what happened at its path |
| `DefinitionDiff.EveryDifferenceNamed` | tool_definition_diff.go:74-156 | wherever the definitions differ, an entry is at that path, above it or below it |
| `DefinitionDiff.EntriesAtLeaves` | tool_definition_diff.go:74-156 | an entry stands at a path if and only if the definitions differ there and the comparison goes no deeper |
| `DefinitionDiff.OneEntryPerPath` | tool_definition_diff.go:45-55 | no path is reported twice |
| `DefinitionDiff.ClipMiddleBounds` | tool_definition_diff.go:304-311 | an entry fits its limit, untouched if it did before, else with its beginning and end |
| `Windows.TripCounter.Sweep` | gate_trip.go:131-138 | drops exactly the agents with nothing inside the window |
| `Windows.TripCounter.CountDenial` | gate_trip.go:117-155 | one denial's effect on the counter |
| `Windows.TripRefinesHistory` | gate_trip.go:117-155 | an agent trips if and only if its denials since its last trip, inside the window, reach the threshold |
| `Windows.RecentCounts` | main.go:192-200 | pruning keeps each time inside the window as often as it was there, and no other |
| `Windows.RateLimiter.Allow` | main.go:184-210 | one message's effect on the windows |
| `Windows.AllowedIff` | main.go:184-210 | a message is allowed if and only if fewer than limit were allowed in the half-open minute that ends with it |
| `Windows.AtMostLimitPerMinute` | main.go:184-210 | no half-open minute holds more than limit allowed messages of a user |
| `Windows.ClosedMinuteHolds` | main.go:192-200 | a minute with both ends holds what its opening instant and the half-open minute after it hold, at most twice the limit |
| `Windows.ClosedMinuteHoldsMore` | main.go:192-200 | for every limit twice as many are possible |
| `YamlNumber.MatchesIff` | internal/outputschema/yaml.go:114-114 | taking a token apart succeeds exactly on the texts of YAML decimals |
| `YamlNumber.Rewrite` | internal/outputschema/yaml.go:130-157 | the string edits yield the normal form |
| `YamlNumber.NormalFitsJson` | internal/outputschema/yaml.go:130-157 | the result fits the number grammar of section 6 of RFC 8259 |
| `YamlNumber.NormalKeepsValue` | internal/outputschema/yaml.go:130-157 | it denotes the same rational number |
| `YamlNumber.YamlFloat` | internal/outputschema/yaml.go:116-163 | accepted exactly within the length bounds before and after and the exponent bound |
| `YamlNumber.AcceptedIsSameNumber` | internal/outputschema/schema.go:94-147 | every accepted scalar is a JSON number of the same value |
| `YamlNumber.AcceptedIff` | internal/outputschema/yaml.go:116-163 | a scalar is accepted if and only if without its underscores it is a decimal within the bounds, and only as that decimal |
| `YamlNumber.UnderscoresOnly` | internal/outputschema/yaml.go:116-163 | underscores go wherever they stand, and nothing else does |

## Left out

- HTTP servers and clients, signatures and MACs, Slack and Telegram calls, mail, CRM, telephony and PDF connectors, message texts, logs, metrics, digests, the command line: input and output.
- The HMAC over a receipt and SHA-256: ideal; only what they are computed over is modelled.
- The single-approver Telegram loop, `max_repeats` and the join of identical pending requests.
- A crash between an append and its save, and loading a stored anchor job or saving it.
- The budget ledger with an attached store, its alerts, and the voice totals; `record` and `RecordCost`, which nothing calls.
- Floating-point rounding of costs.
- Matching of globs and regular expressions and the reading of numbers in tool arguments: arbitrary functions.
- Loading and reloading configuration files; the gate's rules are fixed in a run, as they are in the engine until a restart.
- The store's transactions are atomic steps; what SQLite does to make them so is not part of this model.
- The choice among several standing grants and the counting of their uses: a grant may answer any grantable call.
- The freeze a trip causes, and its notice.
- Calendar arithmetic of schedules: when a schedule fires next is an arbitrary function.
- The threshold proofs and homomorphic tallies, which wrap other libraries.
- Lexing of JSON text: the codec works on tokens. Settings trees are values, so sharing between two parts of one tree is not modelled.
- How a diff entry renders values and paths, and the order of its keys: any order that lists each key once.
- A step that names a channel which is not running fails in the engine before anything is shown; here that is one of the ways the surroundings end a run.
- White space outside ASCII in a skip reason.
- ToolCaps.CapKeptIff: is stated for rules with one cap. With several, or with a cap on calls, how far calls can pass one cap depends on the room they leave under the others; ToolCaps.ReleasedWithinCap bounds it for all rules.
- SchedulerRuns.WebhookRun: runs the three callers one at a time, because their interleaving is what SchedulerRuns.InvHolds covers.
