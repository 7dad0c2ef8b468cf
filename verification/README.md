# Verified models of the messaging platform's core

Dafny models of the parts of the platform that must not lose, double or misroute anything, and proofs about them.
Each imperative part of the source is a class or method proved equal to a specification function; the theorems are
about those functions, over every input, every history or every interleaving.

**Session leadership.** `LeaseStore` is the Redis subset (two keys with owner and expiry, SET NX, GET, PEXPIRE,
compare-and-delete) behind a network that may refuse a command or lose its answer. `SessionLeadership` is one API task:
the transition of a tick and of a shutdown, and the class that executes them. `LeadershipRuns` interleaves any number of
tasks, ticks, shutdowns, crashes and clock advances, each tick at one instant. `LeadershipHandover` is about yields,
requests and reclaims, `LeadershipReadiness` about what the balancer sees, `LeadershipDuties` about what a take-over, a
request, a renewal and a shutdown must leave in the store, back-to-back deploys included. `LeadershipAwaits` splits ticks and shutdowns
at every await, with overlapping ticks, shutdowns in the middle of a tick and delayed answers; a tick with nothing in
between is proved to be the atomic one.

**Flows.** `FlowGraph` is the validator over unchecked JSON, `FlowWellFormed` the declarative meaning of its silence.
`FlowEngine` interprets a graph live or dry over oracle answers, `FlowEngineService` is that as the running service,
`FlowWalks` and `FlowSimulation` compare and bound walks, `FlowReadBack` is the smallest flow the simulator gets wrong,
`FlowWitnesses` holds other flows that end unexpectedly, `RoundRobin` is the rotation. `FlowFindings` says what each
finding of the validator means, `FlowMeaning` and `FlowEffects` what executing each node does, in terms of drawn edges,
stored configuration and outside answers. `FlowRegistry` is the flow table
with the engine's per-session cache, over a database that may refuse any write or lose its answer; `FlowsService` runs
it, and `FlowHistory` reads every row off the calls whose writes went through.

**Billing.** `Plans`, `Billing` (Stripe events over an organization row, and the gates read off it), `TokenLedger` (the
two-bucket AI-token meter) and `Quota` (the gates and the meter as they run). `BillingHistory` mixes webhook events of
every kind with metered runs and reads row and ledger off them; `QuotaNumbers` states the gates and allowances in numbers.

**Streams and batches.** `ContactsImport`, `ContactsChunking`, `ContactsReimport` and `ContactsDialog` (bulk import, its
chunks, importing again, and the dialog that posts them), `ContactsMeaning` and `ContactsSheet` (what both do to cells,
rows and sheet rows), `InstagramIngest` (webhook deliveries) and `IngestOutcomes` (the store and logs they leave),
`MessageAcks` (WhatsApp acks), `Timeseries` (the admin chart).

## Where the code and its documentation part

- The engine says a change to routing can never differ between a simulation and a live run. It can: a simulation applies
  no tag, so a later decision on a tag the same walk applied takes the other branch. `SimulatorRoutesLikeTheEngine` is
  the exact condition, `SimulatorMissesTheTag` an accepted flow that shows it.
- One handover request can make the same task yield twice unless the grace period is at least the request's life
  (`OneRequestOneYield`, both directions). The defaults satisfy it.
- A task that extends the lock late, is shut down in the middle of a tick, or has two ticks under way, can lead beside
  another leader (`LateExtensionBreaksExclusion`, `ShutdownMidTickBreaksExclusion`, `OverlappingTicksBreakExclusion`).
  The timer does not wait for the previous tick and a shutdown does not wait for the tick under way. `AtMostOneClaim`
  is the safety theorem with the two conditions these runs violate, and `ExtensionKeepsExactly` and `DropKeepsExactly`
  show that each is exact, at every answered extension and every executed drop.
- A call that throws after one of its writes was stored skips its invalidations: a forced assignment that detaches the
  holder and then fails, or any call whose last answer is lost. `LateThrowLeavesStaleEntry` says exactly when the cache is
  then wrong, its companions read that off each call, and `ForcedAssignServesTheOldFlow` and
  `LostDisableServesTheOldFlow` are the cases.
- The validator reads a missing `data` as empty and accepts a contact-agent node without any; running such a node throws
  when the contact has an agent. `AcceptedWalkThrowsExactly` is the exact condition, `BareContactNodeThrows` an accepted
  flow that shows it.
- Event handling is documented as idempotent. It is for immediate repeats; `EarlierEventAgain` says exactly when a later
  repeat is harmless, `LateRepeatRegresses` shows one that is not.
- A batch looks agents up by the posted id and compares the trimmed one, so an id posted with blanks around it may
  import differently in one batch and in two. `ChunksAgreeExactly` is the exact condition,
  `PaddedAgentIdBreaksChunking` the smallest case. The dialog posts the ids it was given.
- The echo of an own Instagram send is recognized by the row the send stored; an echo that arrives first gets a row of
  its own. `EchoRace` is the exact condition, over every history, and `EchoFirstLeavesTwo` the smallest case.
- Branch keys are meant to be slug strings, but the pattern converts whatever it is given, so a number, a boolean or an
  array that converts to a slug is accepted too (`NumberKeyIsAccepted`). `WellFormed` says so, and the walk theorems
  hold for such graphs.
- A walk that ends by itself on its twentieth node, a handoff included, is still reported as having hit the step limit
  (`StepLimit`, and `HandoffAtTheLimit` for an accepted flow that does).

## Model

| member | source | states |
|---|---|---|
| LeaseStore.RedisStore.ClaimKey | api/src/whatsapp/session-leadership.ts:22-36 | SET NX with expiry under a network that refuses the command or loses its answer: what is stored and what the caller sees |
| LeaseStore.RedisStore.ExtendKey | api/src/whatsapp/session-leadership.ts:31-31 | PEXPIRE moves an unexpired key's expiry whoever owns it |
| LeaseStore.RedisStore.DeleteIfOwned | api/src/whatsapp/session-leadership.ts:40-51 | the delete script removes the key only while its caller owns it unexpired; `LeadershipDuties` proves what that frees: the own request on a take-over, the lock on a shutdown |
| SessionLeadership.LeadershipTask.RestoreSockets | api/src/whatsapp/session-leadership.ts:247-256 | sockets end open, or closed for the next renewal to retry |
| SessionLeadership.LeadershipTask.TakeLead | api/src/whatsapp/session-leadership.ts:230-256 | flags, own request cleared best-effort, sockets restored or left for retry; `LeadClearsOwnRequest` says what is cleared |
| SessionLeadership.LeadershipTask.YieldLead | api/src/whatsapp/session-leadership.ts:258-266 | the yield flags are set before the lock is deleted, whatever the delete does |
| SessionLeadership.LeadershipTask.MayReacquire | api/src/whatsapp/session-leadership.ts:277-287 | a yielded task proceeds only on a free lock after the grace period; a held lock restarts the grace |
| SessionLeadership.LeadershipTask.RenewLease | api/src/whatsapp/session-leadership.ts:174-186 | extension, lead or socket retry, and the answer to another task's request |
| SessionLeadership.LeadershipTask.RunTick | api/src/whatsapp/session-leadership.ts:159-209 | the step-by-step tick computes the transition `Tick`, exceptions at every store call included |
| SessionLeadership.LeadershipTask.Shutdown | api/src/whatsapp/session-leadership.ts:212-228 | a shutdown gives up the lead and drops the lock only if it led |
| LeadershipRuns.FreshLeaderHoldsTheLock | api/src/whatsapp/session-leadership.ts:159-209 | in every reachable state a leader whose last renewal is under one TTL old is the owner stored in the lock, with that renewal's expiry |
| LeadershipRuns.AtMostOneFreshLeader | api/src/whatsapp/session-leadership.ts:159-228 | at most one such leader, whatever ticks, crashes, yields, shutdowns and expiries interleave |
| LeadershipRuns.AtMostOneLeaderThroughoutRun | api/src/whatsapp/session-leadership.ts:159-228 | if live leaders stay under the TTL, at most one live task leads at every moment of the run |
| LeadershipRuns.SilentLeaderBreaksExclusion | api/src/whatsapp/session-leadership.ts:159-209 | for every configuration the renewal bound is needed: a run with two leaders without it |
| LeadershipRuns.LeaseInvStep | api/src/whatsapp/session-leadership.ts:159-270 | every event keeps the lease invariant |
| LeadershipHandover.TickAndTheFlag | api/src/whatsapp/session-leadership.ts:162-205 | a tick yields only by answering another task's live request, un-yields only by a reclaim, and a yielded task writes nothing otherwise |
| LeadershipHandover.YieldsAreBounded | api/src/whatsapp/session-leadership.ts:258-287 | a stretch of any run without a reclaim has at most as many yields as tasks |
| LeadershipHandover.ReclaimNeedsAFreeLockThroughout | api/src/whatsapp/session-leadership.ts:277-287 | a lock seen held by a tick forbids a reclaim for the grace period after it |
| LeadershipHandover.RequestExpiresBeforeReclaim | api/src/whatsapp/session-leadership.ts:258-287 | with a grace period as long as a request lives, the request that caused a yield has expired when its task reclaims |
| LeadershipHandover.OneRequestOneYield | api/src/whatsapp/session-leadership.ts:184-287 | no stored request makes a task yield twice in any run, if and only if the grace period is at least the request's life |
| LeadershipHandover.LoneTaskRecovers | api/src/whatsapp/session-leadership.ts:272-287 | from every reachable state, one tick after TTL plus grace makes a running task owner with open sockets when the others are silent |
| LeadershipHandover.HandoverCompletes | api/src/whatsapp/session-leadership.ts:182-205 | ask, yield, take: three ticks hand the lead, the sockets and the readiness over |
| LeadershipReadiness.ReadyAgainOnlyByReclaim | api/src/whatsapp/session-leadership.ts:137-142 | over every run, a task that yielded reports ready again only after a tick in which it reclaimed |
| LeadershipReadiness.WaiterIsReadyExactlyAfterPatience | api/src/whatsapp/session-leadership.ts:137-142 | over every run, a task that only waits reports ready exactly once its patience has passed since it began to wait |
| LeadershipReadiness.LoserIsReadyExactlyAfterPatience | api/src/whatsapp/session-leadership.ts:137-198 | over every run, a task whose tick lost the lock to another, and which only waits from then on, reports ready exactly once its patience has passed |
| LeadershipReadiness.ReadyLeadersHaveSockets | api/src/whatsapp/session-leadership.ts:137-152 | of the ready tasks at most one leads on a renewal under one TTL old, and it has its sockets |
| LeadershipDuties.LeadClearsOwnRequest | api/src/whatsapp/session-leadership.ts:230-245 | a tick that takes the lead, the clear not refused, leaves no request of its task and leaves another's as it was |
| LeadershipDuties.HandoverLeavesNoRequest | api/src/whatsapp/session-leadership.ts:182-245 | after a handover in three ticks the new leader has no request stored and no third task has moved |
| LeadershipDuties.SecondHandoverCompletes | api/src/whatsapp/session-leadership.ts:182-245 | right after a handover from i to j, one from j to k completes in three more ticks at the same instant, with no assumption on the stored request |
| LeadershipDuties.RenewalHolds | api/src/whatsapp/session-leadership.ts:174-186 | a leader nobody asks keeps the lock, its expiry a full TTL away, and has its sockets open |
| LeadershipDuties.FailedRestoreIsRetried | api/src/whatsapp/session-leadership.ts:247-256 | a take-over whose restore fails leads without sockets, is not ready, and opens them at its next tick |
| LeadershipDuties.RequestLivesItsTime | api/src/whatsapp/session-leadership.ts:188-205 | a waiting task's request is stored for its full life, unless a live one is there, which stays; the lock is untouched |
| LeadershipDuties.DefaultsYieldOnce | api/src/whatsapp/session-leadership.ts:115-118 | with the default times no request makes a task yield twice |
| LeadershipDuties.NewTaskIsReady | api/src/whatsapp/session-leadership.ts:137-142 | a task that has not ticked yet takes traffic and does not lead |
| LeadershipDuties.ShutdownFreesTheLock | api/src/whatsapp/session-leadership.ts:212-228 | a fresh leader that shuts down frees the lock; a task that does not lead leaves the store alone |
| LeadershipDuties.StoppedTaskIsIdle | api/src/whatsapp/session-leadership.ts:159-160 | a task that has shut down never changes anything again |
| LeadershipDuties.SuccessionIsImmediate | api/src/whatsapp/session-leadership.ts:212-245 | the next task to tick after a leader's shutdown leads with its sockets in the same instant |
| LeadershipAwaits.AloneIsAtomic | api/src/whatsapp/session-leadership.ts:159-209 | a tick run await by await with nothing in between is the atomic tick |
| LeadershipAwaits.AloneShutdownIsAtomic | api/src/whatsapp/session-leadership.ts:212-228 | the same for a shutdown |
| LeadershipAwaits.LeaseInvStep | api/src/whatsapp/session-leadership.ts:159-287 | at await grain, a served command or a handled answer keeps the lease invariant when extensions are timely and drops are alone |
| LeadershipAwaits.ExtensionKeepsExactly | api/src/whatsapp/session-leadership.ts:174-177 | from any state that keeps the lease, an answered extension keeps it if and only if it meets the task's own unexpired lock, that is, lands within the TTL |
| LeadershipAwaits.DropKeepsExactly | api/src/whatsapp/session-leadership.ts:212-270 | from any state that keeps the lease, an executed drop keeps it if and only if nothing of the task, under its TTL, counts on the lock |
| LeadershipAwaits.AtMostOneClaim | api/src/whatsapp/session-leadership.ts:159-287 | at await grain, overlapping ticks and shutdowns allowed, at most one task leads or is about to on a renewal under one TTL old, given timely extensions and drops nothing of its own counts on under the TTL |
| LeadershipAwaits.OneByOneDropsAlone | api/src/whatsapp/session-leadership.ts:154-228 | ticks and shutdowns that do not overlap within a task meet the drop condition |
| LeadershipAwaits.OrderlyTasksExclude | api/src/whatsapp/session-leadership.ts:154-228 | so such tasks need only extend in time |
| LeadershipAwaits.LateExtensionBreaksExclusion | api/src/whatsapp/session-leadership.ts:174-177 | GET then unconditional PEXPIRE one TTL later extends the successor's lock: two fresh leaders, for every configuration |
| LeadershipAwaits.ShutdownMidTickBreaksExclusion | api/src/whatsapp/session-leadership.ts:174-228 | a shutdown between a tick's read and its extension: two fresh leaders at one instant |
| LeadershipAwaits.OverlappingTicksBreakExclusion | api/src/whatsapp/session-leadership.ts:154-186 | a yield by one tick while an earlier one is about to extend: two fresh leaders at one instant |
| FlowGraph.CheckBranches | api/src/flows/flow-graph.ts:239-357 | the loop over cases or intents reports what the specification reports, and throws on a null entry |
| FlowGraph.CheckConfig | api/src/flows/flow-graph.ts:217-446 | the switch over a node's type reports its configuration findings, or throws on a null branch |
| FlowGraph.CheckNode | api/src/flows/flow-graph.ts:196-470 | one node's findings: duplicate id, type, position, configuration, shared options |
| FlowGraph.CheckNodes | api/src/flows/flow-graph.ts:189-471 | the node loop's findings, its id set and its id index |
| FlowGraph.CheckEdges | api/src/flows/flow-graph.ts:478-531 | the edge loop's findings, with its remembered outputs |
| FlowGraph.CheckTriggers | api/src/flows/flow-graph.ts:473-476 | the filtered count is checked against one |
| FlowGraph.CheckHosts | api/src/flows/flow-graph.ts:533-549 | every group handoff is reported on a channel that cannot host one |
| FlowGraph.ValidateGraph | api/src/flows/flow-graph.ts:157-552 | the whole validator computes `Validate`, including when it throws |
| FlowWellFormed.BranchListClean | api/src/flows/flow-graph.ts:239-357 | branch findings are empty exactly for well-formed, distinctly keyed lists |
| FlowWellFormed.NodeListClean | api/src/flows/flow-graph.ts:189-471 | node findings are empty exactly for configured nodes with unique ids |
| FlowWellFormed.TriggersCounted | api/src/flows/flow-graph.ts:473-476 | the count is one exactly when one position holds a trigger |
| FlowWellFormed.DupeKeyInjective | api/src/flows/flow-graph.ts:502-512 | the remembered string identifies source and handle, since legal handles have no colon |
| FlowWellFormed.EdgeListClean | api/src/flows/flow-graph.ts:478-531 | edge findings are empty exactly for resolvable edges on legal outputs, one per output name, none from a terminal |
| FlowWellFormed.AcceptedExactlyWellFormed | api/src/flows/flow-graph.ts:157-552 | the validator returns the empty list exactly on the declaratively well-formed graphs |
| FlowWellFormed.NumberKeyIsAccepted | api/src/flows/flow-graph.ts:246-268 | a whole graph that is accepted with a number for its case key |
| FlowFindings.BranchFindingsMean | api/src/flows/flow-graph.ts:239-357 | a code is reported for a branch list exactly when some branch has that fault: no slug, a key taken before, "fallback", no label, no keywords |
| FlowFindings.NodeFindingsMean | api/src/flows/flow-graph.ts:196-470 | a code is reported for a node, under its id, exactly when the node has that fault; the limits are written out kind by kind |
| FlowFindings.ByIdMeans | api/src/flows/flow-graph.ts:189-195 | edges are read against the last node stored under an id |
| FlowFindings.LegalMeans | api/src/flows/flow-graph.ts:554-579 | the outputs an edge may leave by, kind by kind |
| FlowFindings.EdgeFindingsMean | api/src/flows/flow-graph.ts:478-531 | an edge is reported exactly for its shape, an unknown end, an output used before, a terminal source or an output its source has not |
| FlowFindings.FindingsMean | api/src/flows/flow-graph.ts:157-552 | on every graph of 1 to 50 nodes that can be read, a finding is reported if and only if the graph has that fault there |
| FlowFindings.ShapeMeans | api/src/flows/flow-graph.ts:157-187 | no graph, no nodes and more than 50 nodes are each the one finding |
| FlowFindings.ThrowsExactly | api/src/flows/flow-graph.ts:189-531 | the validator throws exactly on a null node, and where it reads branches that are null or not there |
| FlowEngineService.Service.Reply | api/src/whatsapp/connection-manager.service.ts:1436-1523 | the agent reply with its gates, its pause on handoff and its metering |
| FlowEngineService.Service.Assign | api/src/whatsapp/flow-engine.service.ts:711-767 | live and dry assignment: rotation counter, missing people, handoff |
| FlowEngineService.Service.HandOff | api/src/whatsapp/flow-engine.service.ts:786-865 | the conversation is handed off, or nothing changes and it threw |
| FlowEngineService.Service.ContactAgent | api/src/whatsapp/flow-engine.service.ts:510-556 | handoff to the saved contact's own agent, or the fallback output |
| FlowEngineService.Service.Decide | api/src/whatsapp/flow-engine.service.ts:266-372 | the five decision nodes: output taken, tokens metered, exceptions on malformed configuration; `FlowMeaning` says by which edge each leads |
| FlowEngineService.Service.Act | api/src/whatsapp/flow-engine.service.ts:558-699 | the effect nodes: applied live when they succeed, skipped dry, and always followed by "out" |
| FlowEngineService.Service.ExecuteNode | api/src/whatsapp/flow-engine.service.ts:256-704 | one node executed step by step computes `Execute` in both modes |
| FlowEngineService.Service.WalkGraph | api/src/whatsapp/flow-engine.service.ts:152-166 | the bounded loop computes `Walk` |
| FlowEngineService.Service.Simulate | api/src/whatsapp/flow-engine.service.ts:195-233 | the dry run computes `Simulated` |
| FlowEngineService.Service.Run | api/src/whatsapp/flow-engine.service.ts:137-186 | the live run computes `Ran`, its recorded row included |
| FlowMeaning.KeywordMeans | api/src/whatsapp/flow-engine.service.ts:266-276 | on an accepted graph a keyword node leads by the edge drawn from "yes" if a keyword of its list occurs in the message, by that of "no" otherwise |
| FlowMeaning.KeywordCasesMeans | api/src/whatsapp/flow-engine.service.ts:278-292 | the first case with a matching keyword leads by its own output, or by "fallback" when that has no edge |
| FlowMeaning.NoCaseMeans | api/src/whatsapp/flow-engine.service.ts:278-292 | with no matching case the node leads by "fallback" |
| FlowMeaning.AiDecisionMeans | api/src/whatsapp/flow-engine.service.ts:294-310 | the answer yes leads by "yes" and anything else by "no", and the question is metered |
| FlowMeaning.TagDecisionMeans | api/src/whatsapp/flow-engine.service.ts:312-354 | the node leads by "yes" exactly when the lookup succeeds and its tag is stored on the conversation |
| FlowMeaning.IntentMeans | api/src/whatsapp/flow-engine.service.ts:356-372 | a named key the node knows leads by its own output, or "fallback"; anything else by "fallback" |
| FlowMeaning.ReplyMeans | api/src/whatsapp/flow-engine.service.ts:374-453 | asking for a reply is metered whatever comes of it; only a live reply with text is sent; only a live handoff without an edge pauses |
| FlowMeaning.ReplyLeads | api/src/whatsapp/flow-engine.service.ts:374-453 | the walk goes on only on a handoff, by the edge drawn for it; the outcome says what came of the reply |
| FlowEffects.AssignMeans | api/src/whatsapp/flow-engine.service.ts:729-767 | a live assign node hands over to the due candidates on the staff, or to nobody; only a rotation over several moves its counter, by one |
| FlowEffects.FailedAssignMeans | api/src/whatsapp/flow-engine.service.ts:729-767 | a live hand-over that fails ends the run in an exception with only the rotation counter moved |
| FlowEffects.FailedQuestionMeans | api/src/whatsapp/flow-engine.service.ts:294-372 | a question that fails ends the walk in an exception and changes nothing |
| FlowEffects.FailedReplyMeans | api/src/whatsapp/flow-engine.service.ts:374-453 | a live reply that cannot be sent ends the walk in an exception, its cost metered and nothing else |
| FlowEffects.DryAssignMeans | api/src/whatsapp/flow-engine.service.ts:711-727 | a simulated assignment says it would hand over and changes nothing |
| FlowEffects.ContactAgentMeans | api/src/whatsapp/flow-engine.service.ts:510-556 | a sender saved with an agent goes to that agent, anyone else by "fallback"; a failed hand-over ends the walk without one |
| FlowEffects.EffectMeans | api/src/whatsapp/flow-engine.service.ts:558-699 | an effect node leads by "out" and, live and successful, does its one effect; simulated, none |
| FlowEffects.WalkIsRecorded | api/src/whatsapp/flow-engine.service.ts:152-186 | the record lists every executed node, all but a last one that threw or is no step |
| FlowEffects.HandedOffIsLeftAlone | api/src/whatsapp/flow-engine.service.ts:137-150 | a conversation handed off already is not run |
| FlowEffects.RunIsRecorded | api/src/whatsapp/flow-engine.service.ts:137-186 | a live run ends with its own row: its steps and how it ended, an exception and the limit of 20 included |
| FlowEffects.RunStartsAtTheTrigger | api/src/whatsapp/flow-engine.service.ts:137-152 | the first node executed is the one drawn from the trigger |
| FlowWalks.WalkGoesOn | api/src/whatsapp/flow-engine.service.ts:152-166 | a walk visits the node it was led to, and goes on from where that leads unless it throws |
| FlowWalks.StepLimit | api/src/whatsapp/flow-engine.service.ts:152-166 | at most 20 nodes on any graph, and without an exception the limit is reported exactly when 20 were executed |
| FlowWalks.WalkIgnoresStoredOrder | api/src/whatsapp/flow-engine.service.ts:1110-1118 | on an accepted graph runs and simulations do not depend on the order of the node and edge arrays |
| FlowWalks.FollowNeverDangles | api/src/flows/flow-graph.ts:582-590 | on an accepted graph an output leads somewhere exactly when an edge is drawn from it, and then to that edge's target |
| FlowWalks.AcceptedWalkThrowsExactly | api/src/whatsapp/flow-engine.service.ts:510-556 | on an accepted graph, while the outside answers hold, a run or simulation throws if and only if some executed step is a contact-agent node without data for a sender whose contact has an agent |
| FlowWalks.AcceptedWalkNeverThrows | api/src/whatsapp/flow-engine.service.ts:256-704 | so none throws when every contact-agent node has data |
| FlowWalks.AcyclicWalksNeverRepeat | api/src/whatsapp/flow-engine.service.ts:43-43 | on an accepted acyclic graph no node is executed twice, so 19 non-trigger nodes cannot reach the limit |
| FlowSimulation.SimulationStoresNothing | api/src/whatsapp/flow-engine.service.ts:188-233 | on any graph a simulation changes nothing stored but the token meter |
| FlowSimulation.StepAgrees | api/src/whatsapp/flow-engine.service.ts:256-704 | one node in both modes: same next node, except a tag decision that reads a tag only the live state has |
| FlowSimulation.SimulatorRoutesLikeTheEngine | api/src/whatsapp/flow-engine.service.ts:137-233 | on any graph, with the same answers and the reply gates passing, both visit the same nodes if and only if the simulated walk never decides on a tag it applied earlier where the branches differ, and never goes on past an effect node without data |
| FlowSimulation.AcceptedGraphsRouteAlike | api/src/whatsapp/flow-engine.service.ts:137-233 | on accepted graphs reading back such a tag is the only way to part |
| FlowSimulation.SimulatorAgreesWhenDecisionsComeFirst | api/src/whatsapp/flow-engine.service.ts:137-233 | deciding before tagging on the simulated path is enough where effect nodes have data |
| FlowReadBack.SimulatorMissesTheTag | api/src/whatsapp/flow-engine.service.ts:312-354 | an accepted four-node flow whose live run and simulation visit different nodes |
| FlowWitnesses.BareContactNodeThrows | api/src/flows/flow-graph.ts:217-222 | an accepted two-node flow that throws at its first node, live and dry, for a sender saved with an agent |
| FlowWitnesses.HandoffAtTheLimit | api/src/whatsapp/flow-engine.service.ts:157-166 | an accepted flow and answers with which the run hands over at its twentieth node and is recorded as cut short |
| RoundRobin.RotationReadsPositions | api/src/whatsapp/flow-engine.service.ts:741-747 | consecutive assignments read the list at consecutive counter values |
| RoundRobin.RotationIsFair | api/src/whatsapp/flow-engine.service.ts:741-747 | over m assignments each of n positions is chosen floor(m/n) or ceil(m/n) times, from any counter |
| FlowsService.Service.AssignSession | api/src/flows/flows.service.ts:111-171 | detach, validate, attach and invalidate in sequence, with a database failing anywhere |
| FlowsService.Service.CreateFlow | api/src/flows/flows.service.ts:79-104 | a draft row without a session, unless over quota |
| FlowsService.Service.Save | api/src/flows/flows.service.ts:197-210 | a graph is saved unless the flow is live and the graph refused; `TableHoldsWhatWasStored` says the stored row holds it |
| FlowsService.Service.Update | api/src/flows/flows.service.ts:212-240 | a flow goes live only with a session and a graph accepted for it |
| FlowsService.Service.RemoveFlow | api/src/flows/flows.service.ts:333-338 | the row goes and its session's entry is invalidated |
| FlowsService.Service.EnabledFlowFor | api/src/whatsapp/flow-engine.service.ts:105-128 | the unexpired entry, else a fresh read that is cached |
| FlowRegistry.ApplyKeepsInv | api/src/flows/flows.service.ts:79-338 | each session has at most one flow, each live flow has a session and validates against it, after any call however it ends |
| FlowRegistry.HistoryKeepsInv | api/src/flows/flows.service.ts:79-338 | the same over every history, exceptions part-way included |
| FlowRegistry.ApplyKeepsCache | api/src/flows/flows.service.ts:111-338 | a call that returned or wrote nothing keeps every unexpired entry equal to a fresh read |
| FlowRegistry.HistoryKeepsCache | api/src/whatsapp/flow-engine.service.ts:105-133 | over every history without a late throw, a lookup answers what a fresh read would |
| FlowRegistry.LookupIsFresh | api/src/whatsapp/flow-engine.service.ts:105-128 | with an accurate cache a lookup equals a fresh read and keeps the cache accurate |
| FlowRegistry.LateThrowLeavesStaleEntry | api/src/flows/flows.service.ts:79-338 | a call that throws after a stored write leaves the cache untouched, and wrong exactly when an unexpired entry is for a session some row now serves differently |
| FlowRegistry.HalfAssignLeavesStaleEntry | api/src/flows/flows.service.ts:130-171 | for an assignment cut short after detaching the holder: exactly when the cache still serves that session's flow |
| FlowRegistry.WholeAssignLeavesStaleEntry | api/src/flows/flows.service.ts:155-171 | for an assignment whose last answer is lost: exactly when an entry of the session taken or left is about a live flow |
| FlowRegistry.LostAnswerLeavesStaleEntry | api/src/flows/flows.service.ts:197-338 | for every other call whose answer is lost: exactly when its flow's session has an unexpired entry and the flow was live, or was to be |
| FlowRegistry.ForcedAssignServesTheOldFlow | api/src/flows/flows.service.ts:130-171 | in every organization, a forced assignment whose second write fails: the table serves nothing, the cache the old flow |
| FlowRegistry.LostDisableServesTheOldFlow | api/src/flows/flows.service.ts:212-240 | the same after a disabling whose answer is lost |
| FlowHistory.CallWrites | api/src/flows/flows.service.ts:79-338 | a call whose write goes through leaves exactly the named row as asked, detaches the holder if forced, and changes no other row |
| FlowHistory.DoneMeansWritten | api/src/flows/flows.service.ts:79-338 | a call answers normally if and only if its own write went through and its answer arrived |
| FlowHistory.RefusalsMean | api/src/flows/flows.service.ts:79-240 | each refusal is given exactly in its case |
| FlowHistory.TableHoldsWhatWasStored | api/src/flows/flows.service.ts:79-338 | over every history, failures included, each row holds the graph last saved or drafted, the session last assigned and the flag last set, cleared by a forced assignment of another flow; removed rows are gone |
| FlowHistory.CachedForThirtySeconds | api/src/whatsapp/flow-engine.service.ts:105-128 | a lookup that reads the table is served unchanged for thirty seconds and read again after |
| TokenLedger.RunSplits | api/src/billing/quota.service.ts:197-232 | a run splits into free plus paid; free never passes the limit in force; paid is used only once the allowance is spent; the balance stays non-negative |
| TokenLedger.DaysConserve | api/src/billing/quota.service.ts:223-244 | over every history the reporting rows hold every token recorded, one row per agent and day |
| TokenLedger.BucketsConserve | api/src/billing/quota.service.ts:197-321 | over every history the months hold the free parts and the balance the distinct credits less what was drawn |
| TokenLedger.LedgerConserves | api/src/billing/quota.service.ts:197-321 | over every history: daily rows sum to all tokens, per agent and day; months sum the free parts; balance is distinct credits minus what was drawn |
| TokenLedger.PurchasesAreFirstCredits | api/src/billing/quota.service.ts:297-321 | a session id is on file exactly when some entry credited it |
| TokenLedger.ReplayedPurchaseIsIgnored | api/src/billing/quota.service.ts:306-310 | a redelivered checkout changes nothing |
| TokenLedger.Meter.RecordAiTokens | api/src/billing/quota.service.ts:197-245 | increments, decrement and floor compute the split, and the daily row is found or created |
| TokenLedger.Meter.Report | api/src/billing/quota.service.ts:226-243 | the one row of the agent and day is incremented, or created when absent |
| TokenLedger.Meter.CreditAiTokens | api/src/billing/quota.service.ts:297-321 | credits once per checkout session and says whether it did |
| Quota.BudgetMeansCovered | api/src/billing/quota.service.ts:183-187 | the budget gate is open exactly when a run would have a token covered by allowance or purchases |
| Quota.BudgetOverHistory | api/src/billing/quota.service.ts:155-187 | over every history the gate reads: allowance left this month, or credits not yet drawn |
| Quota.QuotaService.ReadLimits | api/src/billing/quota.service.ts:48-102 | plan, trial cap, seats and override written into a copy, in that order; `SendingMeans` and `AllowanceMeans` give the numbers |
| Quota.QuotaService.AssertCanSend | api/src/billing/quota.service.ts:110-132 | the send gate and its three refusals |
| Quota.QuotaService.HasIncludedAiBudget | api/src/billing/quota.service.ts:183-187 | the gate reads allowance first, purchases second |
| Quota.QuotaService.RecordRun | api/src/billing/quota.service.ts:197-245 | a run is metered against the allowance in force |
| QuotaNumbers.AccessMeans | api/src/billing/quota.service.ts:110-132 | who has access and which refusal the others hear, the seven days of a declined card in milliseconds |
| QuotaNumbers.SendingMeans | api/src/billing/quota.service.ts:48-102 | with access, sending is open exactly when usage is under the admin's number; without one under 300 on trial, else under 5000, 20000 or 100000, plus 5000 a seat; sponsored always |
| QuotaNumbers.AllowanceMeans | api/src/billing/plans.ts:43-97 | the token allowance is 1, 5 or 10 million plus a million a seat, on trial or not, the numbers 1, 3 or 10; sponsored has no end |
| QuotaNumbers.BudgetMeans | api/src/billing/quota.service.ts:183-187 | over every history an included run may start exactly while the month is under that allowance or bought tokens remain |
| QuotaNumbers.RunMeans | api/src/billing/quota.service.ts:197-232 | a run within what is left is free; past it the month stops at the allowance and the balance pays, never below zero |
| Plans.PlanForPrice | api/src/billing/plans.ts:224-235 | a plan is found exactly when some plan is sold at the price, and it is the first of the table that is |
| Billing.ItemOrderDoesNotMatter | api/src/billing/billing.service.ts:394-402 | with one tier and one add-on, the row does not depend on the order of the items |
| Billing.HistoryKeepsPlanAndStatus | api/src/billing/billing.service.ts:404-432 | over a history the status is the last event's, and no event makes a plan sponsored or touches the override |
| Billing.SeatsFollowLastEvent | api/src/billing/billing.service.ts:411-413 | the seats are those on the last event's add-on item, none when canceled |
| Billing.FirstPaidIsFirstActive | api/src/billing/billing.service.ts:435-438 | firstPaidAt is the time of the first active event of the history, and there is one exactly when it is set |
| Billing.PastDueSinceIsStretchStart | api/src/billing/billing.service.ts:439-442 | pastDueSince is the start of the unbroken past-due stretch the history ends in |
| Billing.RedeliveryIsANoOp | api/src/billing/billing.service.ts:373-444 | processing the last event again changes nothing |
| Billing.EventsAreIdempotent | api/src/billing/billing.service.ts:320-370 | any event delivered twice in a row counts once, row and ledger alike |
| Billing.EarlierEventAgain | api/src/billing/billing.service.ts:320-444 | an event delivered again after others never moves the first payment, and is harmless if and only if the row still reads as that event left it |
| Billing.LateRepeatRegresses | api/src/billing/billing.service.ts:426-444 | past due, then paid, then the first event again: the row is past due |
| Billing.BlockedAfterGrace | api/src/billing/plans.ts:132-153 | access is blocked exactly when a past-due stretch has lasted seven days |
| Billing.BouncedTrialStaysCapped | api/src/billing/quota.service.ts:383-396 | with no active event and no override, sending is open exactly when trialing or in grace and usage is below the trial cap plus 5000 per seat |
| Billing.BillingService.SyncSubscription | api/src/billing/billing.service.ts:373-444 | the item search and field writes compute `Sync`; a sponsored organization is left alone |
| Billing.BillingService.HandleEvent | api/src/billing/billing.service.ts:321-370 | events are routed to the row, to the ledger or nowhere; `AccountIsItsHistory` says which goes where over every history |
| BillingHistory.AccountIsItsHistory | api/src/billing/billing.service.ts:321-370 | over every mix of webhook events and metered runs the row is that of the subscriptions the events carried, and the ledger that of the token packs and runs |
| BillingHistory.ClocksOfHistory | api/src/billing/billing.service.ts:404-444 | status, first payment and past-due clock over such a history, read off its subscriptions |
| BillingHistory.PlanAndSeatsOfHistory | api/src/billing/billing.service.ts:394-413 | the plan is the one last sold, the seats those of the last subscription's seat item |
| BillingHistory.PlanIsLastSold | api/src/billing/billing.service.ts:394-407 | canceled or not, the plan stays that of the last event with a plan item |
| BillingHistory.EventWrites | api/src/billing/billing.service.ts:394-432 | the other fields follow the first plan item and the first seat item of the event |
| BillingHistory.SponsoredIsLeftAlone | api/src/billing/billing.service.ts:384-392 | no event changes a sponsored organization |
| BillingHistory.PricesMean | api/src/billing/plans.ts:193-235 | which environment variable makes a price a plan's or a seat's |
| BillingHistory.BlockedSevenDaysLater | api/src/billing/plans.ts:132-153 | over such a history access is refused for a declined card exactly from seven days after the past-due stretch began |
| BillingHistory.UnpaidStaysCapped | api/src/billing/quota.service.ts:383-396 | over such a history without an active subscription, sending is open exactly when trialing or in grace and under 300 plus 5000 a seat |
| BillingHistory.LedgerOfHistory | api/src/billing/quota.service.ts:197-321 | over such a history every token run is on a daily row and the balance is what the packs bought, each checkout once, less what was drawn |
| BillingHistory.OtherEventsChangeNothing | api/src/billing/billing.service.ts:328-369 | a failed invoice, a trial's end and unhandled events change neither row nor ledger |
| ContactsImport.PlanImport | api/src/contacts/contacts-import.ts:78-127 | the planner's loop computes the plan, whose numbers, skips, creates and updates `ContactsMeaning` reads off the rows |
| ContactsImport.ContactBook.CreateMany | api/src/contacts/contacts-import.service.ts:84-87 | contacts whose number is taken are passed over one by one |
| ContactsImport.CreatesAreNew | api/src/contacts/contacts-import.ts:111-115 | a plan's creates are of distinct numbers nobody in the book holds |
| ContactsImport.ContactBook.ImportChunk | api/src/contacts/contacts-import.service.ts:30-103 | fetch, plan, cap check, creates and updates apply the whole plan or refuse and change nothing |
| ContactsImport.FetchedPlanIsWholePlan | api/src/contacts/contacts-import.service.ts:49-70 | planning against the fetched numbers is planning against the whole book |
| ContactsImport.PlanAccountsForEveryRow | api/src/contacts/contacts-import.ts:92-124 | every row is counted exactly once, skips in order |
| ContactsImport.PlanNeverDoubles | api/src/contacts/contacts-import.ts:65-127 | no create of a number the book holds or twice, no second update of a contact, no blanked name |
| ContactsImport.NewContactsAreCreated | api/src/contacts/contacts-import.service.ts:82-88 | skipDuplicates skips none of a plan's creates |
| ContactsMeaning.PlainNumberIsItself | api/src/contacts/contacts-import.ts:46-57 | a number of 5 to 20 digits is itself |
| ContactsMeaning.OtherCharactersDoNotCount | api/src/contacts/contacts-import.ts:54-56 | inserting or removing any other character, anywhere, changes nothing |
| ContactsMeaning.NumbersHaveFiveToTwentyDigits | api/src/contacts/contacts-import.ts:54-56 | a cell has a number if and only if 5 to 20 of its characters are digits, and the number is as many digits |
| ContactsMeaning.CleanMeans | api/src/contacts/contacts-import.ts:60-63 | a cell is what is left between its blanks, and nothing when it is all blanks or missing |
| ContactsMeaning.BlanksMean | api/src/contacts/contacts-import.ts:61-61 | the blanks that are trimmed, one by one |
| ContactsMeaning.KnownMeans | api/src/contacts/contacts-import.service.ts:34-45 | an agent is found exactly when some row posts its id as stored |
| ContactsMeaning.ImportMeans | api/src/contacts/contacts-import.service.ts:30-103 | a batch is refused exactly when it adds contacts past 5000, and a row is skipped exactly for a reason of its own: no number, a repeat, an unknown agent |
| ContactsMeaning.KnownContactsFollowRows | api/src/contacts/contacts-import.ts:116-123 | a contact of the book becomes what the counted row of its number describes, its name kept when the row has none; no other is touched |
| ContactsMeaning.NewContactsFollowRows | api/src/contacts/contacts-import.ts:111-115 | the contacts added are exactly those counted rows of unknown numbers describe |
| ContactsChunking.PlanOfBoth | api/src/contacts/contacts-import.ts:78-127 | planning two batches without common numbers is planning both at once, skips shifted |
| ContactsChunking.LaterPlanUnmoved | api/src/contacts/contacts-import.ts:78-127 | planning a chunk does not depend on earlier chunks without common numbers |
| ContactsChunking.AppliedKeepsBook | api/src/contacts/contacts-import.service.ts:72-93 | applying a plan keeps numbers unique and every other contact as it was |
| ContactsChunking.ImportChunksExactly | api/src/contacts/contacts-import.service.ts:30-103 | the chunks leave the book of their own plans side by side, or hit the cap exactly when those together do not fit |
| ContactsChunking.KnowingLess | api/src/contacts/contacts-import.ts:104-108 | a batch that knows fewer agents skips exactly the rows it loses and plans the rest alike |
| ContactsChunking.ChunksAgreeExactly | api/src/contacts/contacts-import.service.ts:34-45 | chunks without common numbers give the one-shot book, counts and skips if and only if no row depends on another chunk to spell its agent's id |
| ContactsChunking.TwoChunksAgreeExactly | api/src/contacts/contacts-import.service.ts:34-45 | the same for two chunks, over every book |
| ContactsChunking.ChunkedImportIsOneShot | web/src/components/contacts-import-dialog.tsx:211-254 | with ids posted as stored, any division into chunks without common numbers is the one-shot import, cap included |
| ContactsChunking.PaddedAgentIdBreaksChunking | api/src/contacts/contacts-import.service.ts:34-45 | on every book, a padded id in one chunk and the id as stored in the other make chunks and one batch differ |
| ContactsReimport.ImportSettles | api/src/contacts/contacts-import.ts:104-123 | after an import the book says about every counted row's number what the row says |
| ContactsReimport.ImportIsIdempotent | api/src/contacts/contacts-import.ts:78-127 | importing the same rows again creates and updates nothing and skips the same rows |
| ContactsDialog.PrepareRows | web/src/components/contacts-import-dialog.tsx:171-209 | the dialog's loop over the sheet computes what is posted and what is rejected |
| ContactsDialog.PreparedRowsAreDistinct | web/src/components/contacts-import-dialog.tsx:171-209 | posted rows have valid, pairwise different numbers, and each sheet row is posted or rejected |
| ContactsDialog.SlicesApart | web/src/components/contacts-import-dialog.tsx:223-224 | the posted slices share no number |
| ContactsDialog.Upload | web/src/components/contacts-import-dialog.tsx:211-254 | slices accepted before it is cut short stay applied and the totals report exactly those the dialog heard of, every skip under its sheet row; a slice applied without a reply is in the book and not in the totals; with ids as stored and every reply arriving it ends as the one-shot import does |
| ContactsSheet.SheetMeans | web/src/components/contacts-import-dialog.tsx:171-209 | the first row of each number is posted, every other rejected for its reason, each under its sheet row |
| ContactsSheet.SlicesMean | web/src/components/contacts-import-dialog.tsx:214-224 | slices are of 500 rows in order, the last of what is left |
| ContactsSheet.ServerSkipsMean | api/src/contacts/contacts-import.ts:104-108 | of the rows posted the server skips exactly those whose agent is not known |
| ContactsSheet.ReportMeans | web/src/components/contacts-import-dialog.tsx:171-254 | a whole upload reports a sheet row as skipped if and only if it has no number, repeats an earlier one or names an unknown agent |
| InstagramIngest.IngestService.Claim | api/src/instagram/instagram-ingest.service.ts:93-102 | the insert is the claim: it wins on a new id only, and answers no on any database error, whether or not the row went in |
| InstagramIngest.IngestService.IngestMessage | api/src/instagram/instagram-ingest.service.ts:262-375 | unknown accounts, echoes, thread, row, dispatch and automation, stopping where it throws; `LogsOfHistory` and `StoreOfHistory` say what that leaves |
| InstagramIngest.IngestService.Handle | api/src/instagram/instagram-ingest.service.ts:105-136 | envelope claim, then message claim, then ingestion |
| InstagramIngest.IngestService.RecordSend | api/src/instagram/instagram-channel.driver.ts:170-218 | an own send touches its thread and stores its row, unread count unchanged |
| InstagramIngest.IngestService.MarkRead | api/src/conversations/conversations.service.ts:530-547 | reading a known thread sets its unread count to zero and changes nothing else |
| InstagramIngest.KeyIsInjective | api/src/instagram/instagram-ingest.service.ts:127-127 | the message key identifies event and platform id |
| InstagramIngest.AtMostOnce | api/src/instagram/instagram-ingest.service.ts:93-136 | over any deliveries and exceptions, a message is ingested, announced and answered at most once |
| InstagramIngest.NoSecondAttempt | api/src/instagram/instagram-ingest.service.ts:127-136 | once started a message is never ingested again, even if its attempt threw |
| InstagramIngest.LedgerHoldsIdsAndKeys | api/src/instagram/instagram-ingest.service.ts:109-128 | with envelope ids unlike message keys the ledger holds exactly the envelope ids and message keys that deliveries left, refused inserts excepted |
| InstagramIngest.IngestedExactlyWhenTaken | api/src/instagram/instagram-ingest.service.ts:109-136 | a delivery changes the store exactly when both its inserts go through and neither its envelope nor its message was left in the ledger before |
| InstagramIngest.FirstDeliveryTakes | api/src/instagram/instagram-ingest.service.ts:109-136 | with one payload per envelope id and no refused insert, that delivery is the message's first |
| InstagramIngest.FirstOccurrencesDecide | api/src/instagram/instagram-ingest.service.ts:105-136 | whatever is repeated and whatever inserts fail, the store is that of the taken deliveries alone |
| InstagramIngest.EchoAddsNothing | api/src/instagram/instagram-ingest.service.ts:279-290 | the echo of a send already recorded leaves store, unread counts and automation as they were |
| InstagramIngest.DeviceRowIsFirst | api/src/instagram/instagram-ingest.service.ts:279-324 | a row taken for one typed in the app is the first of its id in its session |
| InstagramIngest.SendCountsOnce | api/src/instagram/instagram-ingest.service.ts:279-290 | after a send is recorded its echoes add no row, over every history before and after |
| InstagramIngest.HeldExactlyWhenRecorded | api/src/instagram/instagram-ingest.service.ts:262-333 | a row of an id is held exactly when an own send recorded it or a taken delivery of it got past its row |
| InstagramIngest.EchoRace | api/src/instagram/instagram-channel.driver.ts:170-198 | over every history, a send and its echoes leave one row of the id if and only if nothing before the send had recorded one |
| InstagramIngest.EchoFirstLeavesTwo | api/src/instagram/instagram-channel.driver.ts:170-198 | for every send and echo, the echo first leaves two rows of the id |
| InstagramIngest.UnreadCountsRowsSinceRead | api/src/channels/message-store.service.ts:39-88 | a thread's unread count is its number of inbound rows since it was last read, or more only when a row's insert threw since then |
| IngestOutcomes.DeliveryMeans | api/src/instagram/instagram-ingest.service.ts:105-127 | what a delivery needs to be one of a message, and the key it claims |
| IngestOutcomes.IngestedMeans | api/src/instagram/instagram-ingest.service.ts:262-375 | what the one ingestion of a message does to rows, badge and logs, by account, direction, rows held and fault |
| IngestOutcomes.LogsOfHistory | api/src/instagram/instagram-ingest.service.ts:262-375 | over every history a message is automated if and only if a taken delivery of it was for a known account, from a contact and threw nothing; announced if and only if one threw nothing and was from a contact or found no row recorded before |
| IngestOutcomes.StoreOfHistory | api/src/instagram/instagram-ingest.service.ts:262-333 | over every history the rows are exactly those its sends and taken deliveries recorded, in order, and every thread's badge counts the contact's messages since it was read |
| MessageAcks.MessageTable.OnMessageStatusUpdates | api/src/whatsapp/connection-manager.service.ts:358-413 | the loop of conditional writes computes each row's status and error |
| MessageAcks.MessageTable.UpdateMany | api/src/whatsapp/connection-manager.service.ts:378-408 | exactly the outbound rows of the session and id in the given states are written |
| MessageAcks.AcksAreAJoin | api/src/whatsapp/connection-manager.service.ts:358-413 | an outbound row ends at the highest of its status and its acks, and nothing else of it changes |
| MessageAcks.OnlyTheSetOfAcksMatters | api/src/whatsapp/connection-manager.service.ts:391-403 | order and repetition of acks do not show in the status |
| MessageAcks.BatchesConcatenate | api/src/whatsapp/connection-manager.service.ts:365-365 | how updates are grouped into batches does not matter |
| MessageAcks.LastReasonStays | api/src/whatsapp/connection-manager.service.ts:370-386 | the stored reason is the last rejection's |
| MessageAcks.ReceivedRowsOnlyFail | api/src/whatsapp/connection-manager.service.ts:387-403 | a row filed as received answers to rejections only |
| MessageAcks.AcksMean | api/src/whatsapp/connection-manager.service.ts:358-413 | a sent row has failed once a rejection came, else is read once a 4 did, else delivered once a 3 did, for its own id only |
| MessageAcks.OtherRowsStay | api/src/whatsapp/connection-manager.service.ts:366-408 | inbound rows, other sessions' rows and rows no stored update names stay as they are |
| Timeseries.BuildTimeseries | api/src/admin/admin-timeseries.ts:64-112 | exactly `days` consecutive UTC days ending today, each with its rows, and totals equal to the sums of the rows inside the window |
| Timeseries.ClampDays | api/src/admin/admin-timeseries.ts:41-45 | unchanged from 7 to 90, pulled to the nearer end outside, 30 when unusable or not positive |
| Timeseries.WindowMeans | api/src/admin/admin-timeseries.ts:41-45 | 7 to 90 days, 30 when none is asked for |
| Timeseries.DayMeans | api/src/admin/admin-timeseries.ts:51-63 | a day is 86400000 ms from a UTC midnight, before the epoch as after it |
| Timeseries.PointMeans | api/src/admin/admin-timeseries.ts:64-112 | a point shows its day's message row, or zeros, and the tokens of every row of its day |

## Left out

- LeadershipRuns.AtMostOneFreshLeader: a tick and a shutdown take one instant each; LeadershipAwaits drops that assumption.
- LeadershipAwaits.AtMostOneClaim: all tasks and the server read one clock; clocks that drift apart are not modelled.
- Billing.BouncedTrialStaysCapped: assumes the organization row existed and was never billed before the history starts.
- Billing.BillingService.HandleEvent: finding the organization of an event, the emails and the conversion tracking are not modelled; amounts and currencies go to logs only.
- TokenLedger.Meter.RecordAiTokens: calls run one at a time, and a database failure in the middle of one run, which the code logs and drops, is not modelled; nor is the low-balance email.
- InstagramIngest.FirstOccurrencesDecide: needs envelope ids that read like no message key; AtMostOnce needs nothing.
- InstagramIngest.FirstDeliveryTakes: needs one payload per envelope id and a ledger database that refuses nothing; a refused or unanswered insert drops its delivery, as IngestedExactlyWhenTaken says.
- InstagramIngest.IngestService.Handle: what non-message events do after claiming their envelope is not modelled.
- InstagramIngest.IngestService.IngestMessage: read, delivered and reaction events only claim their envelope here; their unguarded status writes, media download and the choice between mirror, flow and agent after a row is stored are not modelled (automation is one log entry).
- MessageAcks.MessageTable.OnMessageStatusUpdates: an ack that arrives before its row is stored finds nothing, as in the code; storing rows is not modelled.
- ContactsChunking.ChunkedImportIsOneShot: agent ids are posted as stored, without blanks around them; ChunksAgreeExactly is the general statement.
- ContactsChunking.ChunksAgreeExactly: the exact condition is for imports the cap lets through in one shot; beyond the cap, chunks that lose rows may fit where the whole does not.
- Quota.QuotaService.ReadLimits: of the plan's limits only messages, AI tokens and numbers are kept; the rest are copied unchanged by the code.
- ContactsImport.ContactBook.ImportChunk: one transaction at a time, contacts identified by their position in the book.
- ContactsDialog.Upload: the final sort of the skip list by row and spreadsheet parsing are not modelled; the server refuses a chunk only by the cap.
- FlowGraph.ValidateGraph: objects whose own `toString` makes conversion throw are read as objects with some text, so they are refused with a finding where the code throws; ids and targets that are neither strings nor missing are read as missing.
- FlowEngineService.Service.Reply: media attached to a reply, the typing delay and the notice to the owner are not modelled.
- FlowEngineService.Service.ExecuteNode: the notes beside recorded steps are not modelled.
- FlowEngineService.Service.Simulate: the text of a simulated reply is not part of the record.
- FlowEngineService.Service.HandOff: opening the group, copying history and the farewell either all succeed or throw before anything is recorded; people with empty names are not modelled.
- FlowSimulation.SimulatorRoutesLikeTheEngine: needs the reply gates (quota, live driver, successful send) to pass and the conversation unpaused, since a simulation has none of them.
- FlowRegistry.HistoryKeepsInv: sessions and referenced ids are fixed during a history, and flows are created as drafts without a session.
- Timeseries.BuildTimeseries: days are numbers since the epoch instead of ISO strings; with several message rows a day the code keeps the last, and the sum is then not claimed.
- The sockets, Redis, database, Stripe, Instagram provider, language models and email are oracles or abstract maps.
- Keyword matching after normalization is an arbitrary predicate on keywords.
- The admin console's own limit calculation, schedules, tags, quick replies, invitations and members would only add easy members.
