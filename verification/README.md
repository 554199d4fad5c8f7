# Verified model of the failover IP operator

The operator moves one IPv4 address between cluster nodes. A controller ranks nodes, persists every decision in
the status of a `FailoverIp` resource, and asks the hosting provider to route the address; an agent on every node
puts the address on its interface or takes it off, and reports into `status.localOwners`. Controller, agents and
provider fail and restart independently. This project models that protocol as one transition system and proves
what holds in every run of it.

## How the model is built

- `Prelude`, `Api`, `Policy`, `Backoff`, `NodeScoring`: the persisted status and its phase table, merge patches,
  windows and thresholds, the doubling loops in `int64`, and node ranking.
- `ReconcilePlan`: what one reconcile run does, as the list of its durable effects (status patches, provider calls,
  the provider reads that matter). A patch carries the copy it is a difference from, so a field that was already
  changed in that copy is not written.
- `Reconciler`: the reconcile method itself as a class that edits its copy of the status statement by statement and
  can stop before any effect. It performs exactly a prefix of the plan.
- `EffectLaw`, `PlanLawful`, `Consequences`: a relation between the stored status before and after each effect, the
  proof that every plan obeys it, and a digest of it by groups of fields. The theorems about runs use only this law.
- `NodeInterface`: the node agent, with the in-place filter it uses. `System`: the transition system. Between any
  two effects of a run the agents, the clock and outside parties may act, and the run may stop.
- `Outcome`: what a run that performs all its effects leaves stored, for every branch of the run, in terms of the
  status before it and its readings. `Counting`: what any number of like runs add up to.
- One module per theorem: `RouteGate`, `SourceHolds`, `OwnerRetention`, `MutationEffect`, `MutationRate`, `Hysteresis`,
  `SuccessCertificate`, `Progress`, `Completion`, `FenceHistory`, `CleanupBudget`, `FailSafe`, `Recovery`, `OwnFence`,
  `Stopping`, `HealthySelecting`, `Standstill`, `AgentConvergence`. `Scenario` builds concrete runs from a fresh
  resource, on which `Handoff`, `OwnerLoss`, `LateCall` and the witnesses in other modules rest.
- `ProbeChecks` and `EventDeduper`: probe thresholds and gates, and event deduplication.

## Assumptions

- One controller run at a time (leader election), reading the status it last wrote.
- One clock reading per run, and clock readings in whole seconds, so that persisted times are exact.
- One snapshot of the nodes per run. Node names are unique and nonempty; server-id annotations are canonical decimal
  numbers, never contradict each other, and where a theorem asks for it no two nodes share one.
- Each agent reads and writes the status atomically. The response to a patch carries the stored `localOwners`.
- The full status update at `internal/controller/failoverip_controller.go:472`, and the last patch of a rollback at
  `internal/controller/recovery.go:119-131`, succeed only if nothing was written since the copy was refreshed: the one
  sends the resource version, and the difference of the other includes it, since the stamp changed it. Either
  therefore writes just what the copy intends.
- A provider call may take effect or not and may report success or not, in any combination; if it takes effect it does
  so at once. Provider operations are asynchronous, and a call whose effect comes later counts as an outside move, so
  theorems that exclude outside moves do not cover it.
- `Outcome` and `Counting` are about runs that nothing cuts short and whose readings of `localOwners` show the list
  stored when the run began; `Counting` lets agents, clock and provider act between any two effects.
- Each gate's answer is that of `ProbeChecks.Passes` on the probe results the gate finds, and those are arbitrary.

## Where the code does not do what one would expect

Each of these is proved: by an exact condition, a reachable witness, or both.

- A retarget is not guarded by the phase. A second one before routing drops the node the provider still points at,
  and that node's agent then removes the address (`OwnerLoss.SecondRetargetDropsTheOwner`). Exactly when a run keeps
  the routed node among source and target: `OwnerRetention.OwnerIsRetainedIff`. A retarget past routing strands the
  transition for as long as the provider is left alone: `Standstill.RetargetStrandsIff`, `Standstill.StrandedForEver`,
  `Standstill.StrandedIsReachable`. So does the manual retry after a completed rollback, while the target stays the best
  node: `Standstill.RetryAfterRollbackStrands`.
- The recovery fence permits the owner change that a rollback makes, but the fence at the start of every run does not.
  While nobody else moves the provider, it refuses a run exactly if a rollback call took effect and its outcome was not
  recorded (`OwnFence.OwnFenceRefusesIff`): the controller stopped after `internal/controller/recovery.go:99`, the call
  took effect but reported an error, the confirming read failed, or an agent wrote before the last patch, which then
  conflicts. From there the provider is never called again, and every manual retry is refused once more
  (`OwnFence.LostRollbackLocks`, and from a fresh resource `OwnFence.LostRollbackIsReachable`).
- A rollback does not check that the source node holds the address, and can route it to a node that never did
  (`SourceHolds.RollbackCanBreak`). The source holds it throughout a run exactly if every retarget waits for its
  outgoing target (`SourceHolds.SourceIsHeldIff`).
- The phase table, and the transition flow at `ARCHITECTURE.md:101-107`, suggest that a new handoff can follow
  `Succeeded`. A commit makes source and target one node, which validation rejects in `Selecting`, and validation runs
  before the manual retry; so the resource becomes Blocked and never calls the provider again
  (`FailSafe.RetiredForEver`, and from a fresh resource `Handoff.HandoffCompletesOnce`). A new handoff can follow exactly
  if source and target differ, as after a retarget during cleanup (`FailSafe.SelectsAnewIff`).
- A healthy resource in `Selecting` whose target is prepared and routed is blocked as "unexpected phase"
  (`HealthySelecting.HealthySelectingBlocksIff`, and from a fresh resource `HealthySelecting.HealthyResourceIsBlocked`).
- An agent that stops between removing the address and reporting it leaves an entry that no later run removes, and
  cleanup then cannot succeed (`AgentConvergence.CleanupConvergesIff`, `AgentConvergence.RerunRepairsCrashIff`).
- Until a target is adopted, agents remove the address even from the node the provider points at
  (`OwnerRetention.UnadoptedOwnerIsStripped`).

## Model

| member | source | states |
|---|---|---|
| RouteGate.AlwaysPrepared | internal/controller/nodeinterface_controller.go:96-141 | in every reachable world a reported source or target really holds the address, and what a run in progress believes about reports is still good enough |
| RouteGate.ForwardRouteIsGated | internal/controller/failoverip_controller.go:346-413 | a forward call happens only in RoutingProvider, to the server of the stored target, while that node's interface holds the address, with the fence passed by this run, its pre-route probes passing as composed, and a durable attempt stamp |
| RouteGate.RollbackIsGated | internal/controller/recovery.go:54-99 | a rollback call happens only under that policy, after post-route probes that do not pass, from the routed target back to the stored source, under its own fence and with a durable stamp |
| SourceHolds.SourceIsHeldIff | internal/controller/recovery.go:54-99 | whoever moves the provider and wherever runs crash, the stored source holds the address throughout a run if and only if every retarget is made while its outgoing target, if any, holds it |
| SourceHolds.RollbackIsMadeBeforeBreak | internal/controller/recovery.go:92-99 | and then a rollback, too, routes only to a node that holds the address |
| SourceHolds.RollbackCanBreak | internal/controller/recovery.go:92-110 | reachable worlds, without crashes or outside moves, about to route and having routed the address from its one holder to a source without it |
| OwnerRetention.RetargetKeepsOwnerIff | internal/controller/failoverip_controller.go:300-316 | a retarget leaves every routed cluster node among source and target if and only if that node is the outgoing or the incoming target |
| OwnerRetention.OwnerIsRetainedIff | internal/controller/failoverip_controller.go:300-475 | without outside moves, the routed cluster node is source or target in every world of a run if and only if every retarget in it is settled so |
| OwnerRetention.OwnerIsRetained | internal/controller/failoverip_controller.go:300-475 | in such runs, moreover, what a run in progress has read of the owner stays true until it calls the provider |
| OwnerRetention.NoAgentStripsTheOwner | internal/controller/nodeinterface_controller.go:96-141 | under the same conditions no agent run ever takes the address from the routed node |
| OwnerRetention.ServedForEver | internal/controller/recovery.go:92-110 | once the routed node is the target or source and holds the address, it keeps holding it through routing, rollback, commit, cleanup and crashes, provided retargets start from the routed target |
| OwnerRetention.UnadoptedOwnerIsStripped | internal/controller/nodeinterface_controller.go:96-122 | before adoption the routed node's own agent removes the address |
| OwnerLoss.SecondRetargetDropsTheOwner | internal/controller/failoverip_controller.go:257-322 | a reachable world, without crashes or outside moves, in which a second retarget has dropped the routed node, and its agent then removes the address |
| MutationEffect.OwnerMovesAreBounded | internal/controller/failoverip_controller.go:384-475 | without outside moves the owner changes at most once to the target and at most once back to the source between two changes of target, for every placement of crashes |
| SuccessCertificate.PathIsPipeline | api/v1/failoverip_state.go:25-39 | in every reachable world a pipeline phase has been reached from Selecting through exactly the phases before it, in order |
| SuccessCertificate.TableIsPipeline | api/v1/failoverip_state.go:25-39 | besides stopping and starting over, the table allows exactly the steps along the pipeline |
| SuccessCertificate.SuccessIsCertified | internal/controller/failoverip_controller.go:477-562 | Succeeded is entered only after the whole pipeline, by a run that read the target's server as provider owner, exactly one reported owner, namely the target, and post-route probes passing as composed or the CommitDegraded policy |
| Progress.RunAdvancesIff | internal/controller/failoverip_controller.go:230-563 | a run that gets past its reads takes the transition to the next phase of the pipeline if and only if the transition is ripe: a condition on the status and the readings, phase by phase, from Selecting to Succeeded |
| Completion.HandoffCompletes | internal/controller/failoverip_controller.go:194-563 | from every world a fresh resource can reach without agent crashes, a resting transition in a phase from PreparingTarget to CleaningStaleOwners, with valid spec and status and a provider owner that the fence accepts for its annotated target, from VerifyingProvider on that of the target, and if cleaning committed, succeeds after one favourable round per phase left, all agents in any order and then one run; the target is then the one holder, the one reported and the routed node |
| Completion.InterruptedCallIsOnTrack | internal/controller/failoverip_controller.go:194-208 | such a world, without outside moves: the controller stopped after a forward call that took effect, and the record still names the old owner |
| Completion.RollbackCompletes | internal/controller/recovery.go:54-110 | under the rollback policy, wherever the end of a run can be reached with the provider at the target and another server as source, whatever owner is on record: one run with failed probes, the cooldown over and the provider cooperating takes the address back to the source and leaves the transition Degraded with a true record |
| Counting.SightingsSelect | internal/controller/failoverip_controller.go:270-299 | in every run of the system, whatever happens between effects: each complete run that sees a better node in Selecting raises the stored failure count by one, and after failureThreshold - failureCount of them the transition is Stabilizing with its candidate timer set |
| Counting.FailoverBegins | internal/controller/failoverip_controller.go:257-322 | and the next run that finds an acceptable candidate once the window is over stores it as target, the old target as source, and PreparingTarget |
| Counting.RecoveriesDrop | internal/controller/failoverip_controller.go:232-255 | likewise each complete run that sees none better while Stabilizing is counted, and after recoveryThreshold - recoveryCount of them the transition is back in Selecting with no timer and both counts zero |
| Counting.FailedChecksDegrade | internal/controller/failoverip_controller.go:524-550 | in every run of the system each due cleanup check with accepted traffic and reports other than the target alone is recorded, and the last of the attempts left makes the transition Degraded |
| Counting.AlwaysBelowRecovery | internal/controller/failoverip_controller.go:232-255 | the stored recovery count is never negative and stays below its threshold |
| Outcome.StartOutcome | internal/controller/failoverip_controller.go:112-124 | a new resource gets its transition id and Selecting |
| Outcome.RefusalOutcome | internal/controller/failoverip_controller.go:125-208 | an invalid spec, a contradictory status, and an owner that is neither the recorded one nor the target's server end in Blocked, with nothing else changed |
| Outcome.RetryOutcome | internal/controller/failoverip_controller.go:140-165 | a blocked or degraded transition resumes in Selecting exactly for a token it has not answered yet |
| Outcome.UnreadOutcome | internal/controller/failoverip_controller.go:166-193 | a run whose reads fail stores nothing |
| Outcome.SightingIsCounted | internal/controller/failoverip_controller.go:270-279 | a sighting short of the threshold leaves the failure count one higher, and nothing else changed but the observation |
| Outcome.SightingSetsTimer | internal/controller/failoverip_controller.go:280-299 | the sighting that reaches the threshold sets the candidate timer to now and moves Selecting to Stabilizing |
| Outcome.SightingRetargets | internal/controller/failoverip_controller.go:300-322 | with the timer set, the target moves exactly if the candidate is acceptable and the window over; otherwise nothing is stored |
| Outcome.SightingReselects | internal/controller/failoverip_controller.go:258-269 | a better node takes a succeeded transition back to Selecting |
| Outcome.RecoveryIsCounted | internal/controller/failoverip_controller.go:232-255 | a recovery short of its threshold is counted, and the one that reaches it drops the candidate and both counts |
| Outcome.NothingToDo | internal/controller/failoverip_controller.go:325-341 | without target, after success, or with the target unannotated or gone, a run stores only what it observed |
| Outcome.WaitingOutcome | internal/controller/failoverip_controller.go:344-411 | so does a run whose target is not reported, whose pre-route gate fails, whose cooldown is not over, or whose provider is elsewhere outside routing |
| Outcome.PreparationOutcome | internal/controller/failoverip_controller.go:346-490 | each phase from PreparingTarget to VerifyingProvider moves to the next one as soon as its condition holds |
| Outcome.ConvergesMeans | internal/controller/failoverip_controller.go:435-459 | polling converges if and only if an answer within the limit is the server and none before it is an error |
| Outcome.RouteOutcome | internal/controller/failoverip_controller.go:388-475 | an attempt is stamped, the provider moves if the call is applied, an error counts a retry, and one of the first fifteen polls showing the server confirms it |
| Outcome.AcceptanceOutcome | internal/controller/failoverip_controller.go:500-523 | accepted traffic moves VerifyingTraffic to Committing and Committing to CleaningStaleOwners with the target as source; any other phase is blocked |
| Outcome.CheckOutcome | internal/controller/failoverip_controller.go:524-563 | a due check succeeds exactly on the report of the target alone; otherwise it is counted, and degrades the transition if it is the last or announces the next |
| Outcome.EarlyCheckOutcome | internal/controller/failoverip_controller.go:524-529 | before the announced time nothing is checked |
| Outcome.HoldOutcome | internal/controller/recovery.go:20-53 | traffic that is not accepted ends in Blocked under ManualIntervention and in Degraded under HoldDualOwnership and the unset policy |
| Outcome.RollbackOutcome | internal/controller/recovery.go:54-110 | a rollback ends in Blocked if there is nowhere to go, Degraded if it is already there or confirmed there, nothing if the cooldown defers it, and otherwise Blocked, with the attempt stamped before a call |
| Outcome.FailedTrafficStops | internal/controller/recovery.go:20-117 | failed traffic checks always stop the transition, under every policy but CommitDegraded, except that the cooldown may defer a rollback |
| Recovery.RecordsAreTrue | internal/controller/failoverip_controller.go:435-464 | without outside moves every change of the recorded owner, in every run, records the provider's owner at that moment |
| Recovery.RollbackRestores | internal/controller/recovery.go:66-110 | in every run without outside moves a rollback on record as done leaves the transition Degraded and the provider at the stored source, which holds the address if retargets waited for theirs |
| Stopping.DegradationIsExplained | internal/controller/recovery.go:35-117 | in every run a transition degrades only when cleanup has spent its budget, or when post-route probes do not pass and the policy is to hold or the record says the source was restored |
| OwnFence.OwnFenceRefusesIff | internal/controller/failoverip_controller.go:194-208 | without outside moves, the fence refuses a run whose target is annotated if and only if a rollback call took effect and no restoring patch has recorded it since |
| OwnFence.LostRollbackLocks | internal/controller/provider_safety.go:61-78 | from there, in every continuation without outside moves, provider, roles and record stay, and runs only refuse, or answer a manual retry that is then refused |
| OwnFence.RefusedForEver | internal/controller/failoverip_controller.go:125-208 | the same from any status whose provider is neither at the recorded owner nor at the target |
| OwnFence.LostRollbackIsReachable | internal/controller/recovery.go:99-110 | a reachable world, without outside moves, locked so, with a routed node that did not hold the address when the call was made |
| Stopping.BlockingIsExplained | internal/controller/failoverip_controller.go:125-208 | in every run a transition blocks only for an invalid spec or status, an owner the fence refuses, which without outside moves takes a lost rollback or a missing annotation of the target, failed probes under a policy that stops or could not roll back, or a phase the end of a run does not know |
| Handoff.HandoffCompletesOnce | internal/controller/failoverip_controller.go:83-573 | a reachable world in which a handoff has succeeded, with the target routed and the one holder and the one reported owner, and from which no continuation ever calls the provider again |
| MutationRate.CallsAreSpaced | internal/controller/failoverip_controller.go:388-413 | each provider call falls between its own durable stamp and the next one, and consecutive stamps are at least one cooldown apart, restarts included |
| MutationRate.CallsInWindow | internal/controller/provider_safety.go:19-32 | calls i to j inside a window of length W satisfy (j-i)*cooldown <= W plus the time call i came after its stamp, and (j-i-1)*cooldown <= W |
| LateCall.ExtraCallCanOccur | internal/controller/failoverip_controller.go:388-413 | a run of the system with two consecutive calls one second apart under a cooldown of a minute, the first made 59 seconds after its stamp |
| Hysteresis.AlwaysDamped | internal/controller/failoverip_controller.go:232-321 | the stored failure count stays below its threshold and below the sightings since its reset, Selecting means no candidate timer and Stabilizing means one, and a timer implies enough sightings and a setting since the last retarget |
| Hysteresis.RetargetIsDamped | internal/controller/selection_policy.go:11-67 | every retarget comes after at least failureThreshold+1 sightings since the reset and a full window after a timer set since then, to a node without issues and away from one that is absent, not a candidate or has an issue |
| FenceHistory.RecordedOwnerIsFenced | internal/controller/failoverip_controller.go:197-228 | whoever moves the provider, the recorded owner changes only on first observation, to the server of the current target, or by a rollback to that of the current source |
| FenceHistory.CallsAreFenced | internal/controller/provider_safety.go:64-78 | a run that calls the provider has seen the recorded owner, the server of its target, or nothing recorded |
| CleanupBudget.ChecksAreBudgeted | internal/controller/failoverip_controller.go:524-550 | the attempt counter is zero in every phase before cleanup, then equals the failed checks so far, which are below the budget and at least the announced delays apart |
| CleanupBudget.TimeoutSpendsTheBudget | internal/controller/failoverip_controller.go:533-537 | cleanup gives up after exactly the configured number of failed checks |
| CleanupBudget.AttemptsAreChecks | internal/controller/failoverip_controller.go:532-540 | in every phase of every run of the system the stored counter is the number of recorded failed checks |
| Policy.Knobs | internal/controller/selection_policy.go:11-44 | the handoff window is the stabilization window plus the healthy window, and every knob of a valid spec has its default where it is 0 |
| FailSafe.PhaseChangesAreFailSafe | internal/controller/failoverip_controller.go:125-161 | every stored phase change is an edge of the table, the first start, or goes to Blocked or Degraded |
| FailSafe.RetiredPlansAreQuiet | api/v1/failoverip_state.go:60-63 | a run on a status with one node as source and target, where that is not allowed or already over, never calls the provider |
| FailSafe.RetiredForEver | internal/controller/failoverip_controller.go:125-161 | and so for every continuation: the target stays, the phase stays or becomes Blocked unless it was Succeeded, and no run has a provider call left |
| FailSafe.CommittedThenSucceededIsRetired | internal/controller/failoverip_controller.go:512-516 | committing and then succeeding leads to such a status |
| FailSafe.SelectsAnewIff | internal/controller/failoverip_controller.go:257-269 | a run on a Succeeded transition selects anew exactly when another node is better, and what it stores is valid if and only if source and target differ, and retired if and only if they do not |
| HealthySelecting.HealthySelectingBlocksIff | internal/controller/failoverip_controller.go:565-572 | a run in Selecting that gets past its reads blocks the resource as unexpected if and only if nothing is better than its target, which is prepared and routed, and the traffic check is accepted |
| HealthySelecting.HealthyResourceIsBlocked | internal/controller/failoverip_controller.go:565-572 | a reachable world, without crashes or outside moves, in which this has happened to a resource whose node is healthy, routed, the one holder and reported |
| Standstill.StrandedPlanIsEmpty | internal/controller/failoverip_controller.go:384-387 | in Selecting or past routing, with the provider elsewhere and nothing better, a run has no effect |
| Standstill.StrandedForEver | internal/controller/failoverip_controller.go:384-387 | and this lasts for ever while the provider is left alone, whatever agents, clock and crashes do |
| Standstill.RetargetStrandsIff | internal/controller/failoverip_controller.go:300-316 | a retarget in such a phase leads there exactly when the provider does not already point at the new target |
| Standstill.StrandedIsReachable | internal/controller/failoverip_controller.go:257-322 | a reachable world, without crashes or outside moves, that is stranded so, and stays it |
| Standstill.RetryAfterRollbackStrands | internal/controller/failoverip_controller.go:140-159 | another such world: a completed rollback and a manual retry, the target still the best node, the provider at the source for good |
| AgentConvergence.ScheduleOutcome | internal/controller/nodeinterface_controller.go:96-141 | who holds and who is reported after any schedule of agents, node by node, in closed form |
| AgentConvergence.OrderDoesNotMatter | internal/controller/nodeinterface_controller.go:96-141 | schedules over the same agents end with the same holders and the same reports, in any order and number of repetitions |
| AgentConvergence.AgentsConverge | internal/controller/nodeinterface_controller.go:96-141 | once all agents have run, exactly source and target hold the address, and the reports say so if and only if none was stale |
| AgentConvergence.RerunRepairsCrashIff | internal/controller/nodeinterface_controller.go:120-141 | running an agent again changes nothing, and makes up for a crash except exactly when it came between a removal and its report |
| AgentConvergence.StaleIsForEver | internal/controller/nodeinterface_controller.go:130-139 | no schedule of agents withdraws a stale report |
| AgentConvergence.AlwaysReported | internal/controller/nodeinterface_controller.go:110-136 | reports never contain a node twice, in any reachable world |
| AgentConvergence.AlwaysTruthful | internal/controller/nodeinterface_controller.go:110-136 | without agent crashes every report is true, in any reachable world |
| AgentConvergence.CommittedAgentsConvergeIff | internal/controller/failoverip_controller.go:515-530 | after a commit, once all agents have run, the report is exactly the target if and only if none was stale |
| AgentConvergence.CleanupConvergesIff | internal/controller/failoverip_controller.go:530-550 | the same from every reachable world, where no report is stale unless an agent crashed |
| NodeInterface.AgentTouchesOnlyItself | internal/controller/nodeinterface_controller.go:96-141 | an agent run changes nobody else's interface or entry, and leaves its own interface as its role demands |
| NodeInterface.RemoveNode | internal/controller/nodeinterface_controller.go:144-152 | the in-place filter keeps exactly the other names, in order |
| NodeInterface.LocalState.EnsureIPAssigned | internal/controller/nodeinterface_controller.go:154-171 | afterwards the node holds the address and nobody else changed |
| NodeInterface.LocalState.EnsureIPRemoved | internal/controller/nodeinterface_controller.go:173-193 | afterwards the node does not hold the address, and the answer says whether it did |
| NodeInterface.LocalState.Reconcile | internal/controller/nodeinterface_controller.go:96-141 | the agent's method does to interfaces and reports what the agent step of the transition system says, with a crash before the report or not |
| Reconciler.Controller.Reconcile | internal/controller/failoverip_controller.go:106-573 | a run performs exactly those effects of its plan that it has time for, in order, from any stored status |
| Reconciler.Controller.ObserveAndChoose | internal/controller/failoverip_controller.go:212-229 | owner and adopted target are written, if they change, before anything is decided on the refreshed copy |
| Reconciler.Controller.ChooseTarget | internal/controller/failoverip_controller.go:230-341 | selection as planned |
| Reconciler.Controller.CountRecovery | internal/controller/failoverip_controller.go:232-255 | recovery of the current node during stabilization as planned, with the count taken into the base of the second patch; Outcome.RecoveryIsCounted says what is stored |
| Reconciler.Controller.ConsiderCandidate | internal/controller/failoverip_controller.go:257-322 | candidate handling as planned, with the failure count stored only by the early patch; Outcome.SightingIsCounted, SightingSetsTimer and SightingRetargets say what is stored |
| Reconciler.Controller.PrepareAndRoute | internal/controller/failoverip_controller.go:344-490 | preparation, gates, routing and verification as planned |
| Reconciler.Controller.RouteProvider | internal/controller/failoverip_controller.go:384-475 | the stamp is sent before the call and the outcome after it, and a stop at any point leaves a prefix |
| Reconciler.Controller.VerifyRoute | internal/controller/failoverip_controller.go:435-459 | the polling loop succeeds if and only if one of the first fifteen answers is the server and none before it is an error |
| Reconciler.Controller.VerifyTraffic | internal/controller/failoverip_controller.go:491-499 | a failed check recovers, and only CommitDegraded goes on to commit |
| Reconciler.Controller.Finish | internal/controller/failoverip_controller.go:500-572 | commit, cleanup or the unexpected phase as planned |
| Reconciler.Controller.CleanUp | internal/controller/failoverip_controller.go:524-563 | one cleanup check as planned; Outcome.CheckOutcome and EarlyCheckOutcome say what is stored |
| Reconciler.Controller.RecoverPostRouteFailure | internal/controller/recovery.go:20-117 | each policy's effects, and whether the caller may go on; Outcome.HoldOutcome and RollbackOutcome say what is stored |
| Reconciler.Controller.RollBackProvider | internal/controller/recovery.go:54-110 | rollback as planned: read, fence, gate, stamp, call, confirm, record |
| Reconciler.Controller.PersistRecoveryState | internal/controller/recovery.go:119-132 | the difference between the given base and the copy with the new phase |
| Reconciler.Controller.Block | internal/controller/failoverip_controller.go:575-586 | one patch that sets Blocked and nothing else |
| Reconciler.Controller.AdvanceCopy | api/v1/failoverip_state.go:88-101 | fails exactly for an uninitialized status or an edge outside the table, and then changes nothing |
| Reconciler.Controller.Retarget | internal/controller/failoverip_controller.go:300-316 | the edited copy is the retargeted status |
| PlanLawful.PlanIsLawful | internal/controller/failoverip_controller.go:106-573 | every effect of every run obeys the law of effects: what must hold of the stored status when it happens and what it may change |
| EffectLaw.MergeCopy | internal/controller/failoverip_controller.go:115-122 | a patch from a copy that agrees with the server but for LocalOwners stores what the copy intends and leaves LocalOwners to the agents |
| EffectLaw.ChainIgnoresOwners | internal/controller/failoverip_controller.go:209-229 | a run stays lawful when agents rewrite LocalOwners between any two of its effects |
| System.RunsAreLawful | internal/controller/failoverip_controller.go:83-573 | in every reachable world the rest of the run in progress is lawful for the status stored at that moment |
| Consequences.PerformLaw | internal/controller/failoverip_controller.go:300-516 | what any single effect may do to roles, phase, stamps, recorded owner, candidate and cleanup fields, and when calls happen |
| NodeScoring.WorseThanIsStrictOrder | internal/controller/node_scoring.go:28-53 | worseThan is irreflexive, transitive, asymmetric, and total on distinct names |
| NodeScoring.ScoreIsSevere | internal/controller/node_scoring.go:55-99 | a node's score weighs its issues in the order of the source, each read off the first condition of its kind, and a node is acceptable exactly without issues and with a first Ready condition that is true |
| NodeScoring.BetterIsLeastSevere | internal/controller/node_scoring.go:28-53 | the answer is the node with the least severe first issue, by name among equals; there is none exactly if the list is empty or the current node is as good as any |
| NodeScoring.BestFromIsMinimum | internal/controller/node_scoring.go:143-152 | the loop ends with a node that every other node of the list is worse than |
| NodeScoring.BetterIsUniqueMinimum | internal/controller/node_scoring.go:139-171 | an answer is the one minimum of the list and never the current node |
| NodeScoring.BetterIgnoresOrder | internal/controller/node_scoring.go:139-171 | the answer is the same for every order of the list |
| NodeScoring.BetterIsStable | internal/controller/node_scoring.go:159-164 | once the answer is current, asking again gives none |
| NodeScoring.FirstMatchDecides | internal/controller/node_scoring.go:79-86 | a condition type has at most one status |
| NodeScoring.AcceptableHasNoIssues | internal/controller/selection_policy.go:69-77 | an acceptable node scores no issue at all |
| NodeScoring.CandidatesAre | internal/controller/node_scoring.go:102-111 | candidates are exactly the nodes with both annotations |
| NodeScoring.AcceptableBetterIsJustified | internal/controller/selection_policy.go:62-67 | moving to an acceptable better node never leaves a candidate without issues |
| NodeScoring.FilterCandidates | internal/controller/node_scoring.go:102-111 | the filtering loop computes the candidates in order |
| NodeScoring.BetterNode | internal/controller/node_scoring.go:139-171 | both loops together compute the answer that BetterIsLeastSevere characterises |
| NodeScoring.NodeForServerID | internal/controller/node_scoring.go:113-121 | the first node with that server id, or none |
| NodeScoring.ServerIDForNode | internal/controller/node_scoring.go:125-132 | the server id of the first node of that name, or none |
| Backoff.DoubledClosedForm | internal/controller/provider_safety.go:46-52 | doubling under a cap is min(cap, base*2^n), and a base at or above the cap stays put |
| Backoff.DoubledMonotone | internal/controller/provider_safety.go:46-52 | it never decreases with the count and never exceeds cap and base |
| Backoff.CleanupDelayIsCappedPower | internal/controller/selection_policy.go:46-58 | the wait is min(60 s, base*2^(n-1)), or the base if that is 60 s or more, at least 1 s and monotone |
| Backoff.RetryCeilingIsCappedPower | internal/controller/provider_safety.go:34-53 | the ceiling is min(cap, base*2^n), between base and cap, and monotone |
| Backoff.CleanupRetryDelay | internal/controller/selection_policy.go:46-58 | the int64 loop computes that wait for every int32 configuration, without overflow |
| Backoff.RetryDelay | internal/controller/provider_safety.go:34-59 | the int64 loop and jitter stay between 1 s and max(1 s, ceiling), without overflow |
| ProbeChecks.ThresholdsClosedForm | internal/controller/probe_checks.go:110-134 | after any history the counters are the trailing runs, and success is reported exactly while the trailing failures are below their threshold and the successes before them reached theirs |
| ProbeChecks.RunIsMaximal | internal/controller/probe_checks.go:118-133 | a trailing run is the longest suffix of equal outcomes |
| ProbeChecks.ApplyThresholds | internal/controller/probe_checks.go:110-134 | the lookup and the counters give the next observation of that probe |
| ProbeChecks.ProbeStatus.Observe | internal/controller/probe_checks.go:173-187 | storing replaces or appends that probe's observation and no other |
| ProbeChecks.Aggregate | internal/probe/executor.go:216-245 | counting decides as the composition says: all, any, or at least the quorum, and no results fail |
| ProbeChecks.EvaluateProbePhase | internal/controller/probe_checks.go:18-108 | the loop passes exactly when the gate does that AllMeans, AnyMeans, QuorumMeans and NamedMeans characterise, and reports a conflict exactly as ConflictMeans says |
| ProbeChecks.AllMeans | internal/controller/probe_checks.go:22-107 | under all, a gate passes if and only if every referenced probe loads, and each of its phase or continuous resolves and succeeds |
| ProbeChecks.AnyMeans | internal/controller/probe_checks.go:22-107 | under any, if and only if all load, those asked answer, and one of them succeeds or none is asked |
| ProbeChecks.QuorumMeans | internal/probe/executor.go:216-245 | under a quorum, if and only if all load, those asked answer, and at least that many of them succeed or none is asked |
| ProbeChecks.NamedMeans | internal/controller/probe_checks.go:50-99 | where the spec names no composition, the probes asked that name one must agree, and the gate is as if the spec had named it, or all if none does |
| ProbeChecks.OtherPhaseHasNoSay | internal/controller/probe_checks.go:37-39 | a loaded probe of the other phase changes no verdict |
| ProbeChecks.ConflictMeans | internal/controller/probe_checks.go:50-99 | a conflict is two probes asked that name different compositions while the spec names none |
| ProbeChecks.VerdictIgnoresOrder | internal/controller/probe_checks.go:22-107 | the verdict is the same for every order of the references |
| ProbeChecks.GateIsMonotone | internal/controller/probe_checks.go:100-107 | a failure turned into a success never turns a pass into a fail |
| EventDeduper.Deduper.constructor | internal/observability/observability.go:191-196 | an empty history and a positive interval, one minute by default |
| EventDeduper.Deduper.Allow | internal/observability/observability.go:199-212 | for nondecreasing times the bounded map answers as the unbounded log does, and afterwards holds only entries younger than the interval |
| EventDeduper.LogIsSpaced | internal/observability/observability.go:198-212 | one key gets through at most once per interval |
| EventDeduper.EveryCallIsCovered | internal/observability/observability.go:198-212 | every call gets through itself or follows, by less than an interval, one with its key that did |

## Left out

- MutationRate.CallsInWindow: allows one call more than 1 + W/cooldown when the first call comes late after its stamp, because the clock may advance between stamp and call; ExtraCallCanOccur shows that it happens.
- OwnerRetention.OwnerIsRetained: asks that retargets are settled, because without it the claim is false, as OwnerIsRetainedIff and SecondRetargetDropsTheOwner show.
- NodeScoring.ServerIDForNode: a malformed annotation counts as none, where the source returns its text; no server id is equal to such a text, and the routing and rollback code rejects it.
- ProbeChecks.EvaluateProbePhase: takes each probe's thresholded result as given and the references without duplicates; sorting by name does not matter to the verdict and is not repeated.
- HTTP, OAuth and JSON of the provider client: the provider is an owner and calls with any outcome.
- netlink, MAC lookup and IP parsing: interfaces are a set of holding nodes, and an interface error is a run that does not happen.
- Probe execution, DNS, CIDR and target templates: outcomes are arbitrary.
- Conditions, LastError, RecoveryAction, RecoveryAttempts, CandidateReason, LastSuccessfulPhase, NextEligibleMutationAt and LastConfirmedProviderMutationAt: written but never read to decide anything.
- Requeue delays, other than the arithmetic of the retry delay: a run may begin at any moment.
- Field-by-field spec validation beyond the numeric knobs and the probe composition, and validation of probe specs: each is one branch.
- Several clock readings within a run, and times finer than the persisted seconds.
- Agents that write a list computed from a stale read: the preparation invariant needs the atomic read and write assumed above.
- Overflow of the int32 counters retryCount and of the probe counters after 2^31 steps.
- Metrics, tracing, logging, redaction, watches, predicates and leader election.
