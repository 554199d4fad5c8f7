/**
 The law of effects: what may be true whenever a reconcile run performs one of its effects, stated as
 a relation between the stored status just before and just after it. The run's plan is shown to obey
 the law step by step; every theorem about whole systems uses only the law.
*/
module EffectLaw {
  import opened Prelude
  import opened Api
  import opened NodeScoring
  import opened Policy
  import opened ReconcilePlan
  import Backoff

  // A run: the spec, the status it read, and its readings.
  datatype Context = Context(spec: Spec, start: Status, env: Env)

  // Begun until the first effect, Open until the attempt stamp is durable, Routed once the provider
  // was called.
  datatype Stage = Begun | Open | Stamped | Routed

  function After(st: Status, e: Effect): Status {
    if e.Patch? then MergePatch(st, e.base, e.updated) else st
  }

  predicate IsStamp(e: Effect) {
    e.Patch? && (e.reason == MutationEligible || e.reason == RollbackEligible)
  }

  predicate IsObservation(e: Effect) { e.Patch? && e.reason == OwnerObserved }

  function NextStage(stage: Stage, e: Effect): Stage {
    if e.Route? then Routed else if IsStamp(e) then Stamped else if stage == Begun then Open else stage
  }

  predicate WellFormedNodes(nodes: seq<Node>) {
    DistinctNames(nodes) && forall n :: n in nodes ==> n.name != ""
  }

  // LocalOwners as the run sees it: refreshed by the response to the observation patch.
  function Known(c: Context): seq<string> {
    if Observed(c.start, c.env) != c.start then c.env.ownersAfterObserve else c.start.localOwners
  }

  // The run got past validation, the manual gate and its reads, and the fence accepted the owner.
  predicate Entered(c: Context) {
    && c.start.transitionId != "" && ValidSpec(c.spec) && ValidStatus(c.start)
    && c.start.phase != Blocked && c.start.phase != Degraded
    && c.env.readsOk && Fenced(c)
  }

  predicate Fenced(c: Context) {
    FenceAccepts(c.start.observed, c.env.owner, ServerOf(c.env.nodes, c.start.target))
  }

  predicate SawBetter(c: Context) {
    Better(Candidates(c.env.nodes), Observed(c.start, c.env).target).Some?
  }

  // The run found the target prepared and the provider pointing at it.
  predicate Arrived(c: Context, st: Status) {
    st.target != "" && ServerOf(c.env.nodes, st.target) == Some(c.env.owner) && st.target in Known(c)
  }

  predicate TrafficAccepted(c: Context) {
    c.env.postRoute || c.spec.recoveryPolicy == RecoveryPolicy.CommitDegraded
  }

  // Phases that lie strictly between a retarget and the traffic check.
  predicate BeforeTraffic(phase: Phase) {
    phase == PreparingTarget || phase == TargetPrepared || phase == RoutingProvider || phase == VerifyingProvider
  }

  // Patches that end their run: a judgement about the candidate, or a commit.
  predicate Closing(e: Effect) {
    e.Patch? && (|| e.reason == FailureSeen || e.reason == CandidateSelected || e.reason == CandidateRecovered
                 || e.reason == WindowElapsed || e.reason == Committed || EndsCall(e.reason) || Restores(e.reason))
  }

  predicate EndsCall(reason: Reason) { reason == RollbackFailed || reason == RollbackSucceeded }

  // Patches that record the provider back at the source.
  predicate Restores(reason: Reason) { reason == RollbackSucceeded || reason == RollbackAlreadyConverged }

  predicate FollowsRoute(e: Effect) {
    e.Read? || (e.Patch? && (|| e.reason == RouteFailed || e.reason == ProviderOwnerConfirmed
                             || e.reason == RollbackFailed || e.reason == RollbackSucceeded))
  }

  predicate Lawful(c: Context, stage: Stage, st: Status, e: Effect) {
    var a, b := Core(st), Core(After(st, e));
    && (stage == Stamped <==> e.Route?)
    && (stage == Routed ==> FollowsRoute(e))
    && (IsObservation(e) ==> stage == Begun)
    && match e
       case Read(_) => true
       case Route(Forward, server, _) => LawfulForward(c, a, server)
       case Route(Rollback, server, _) => LawfulRollback(c, a, server)
       case Patch(reason, base, updated) =>
         && (if reason == WindowElapsed then updated.localOwners == [] && base.localOwners == Known(c)
             else if EndsCall(reason) then updated.localOwners == c.env.ownersAfterStamp
             else updated.localOwners == base.localOwners)
         && (Restores(reason) ==> b.observed == updated.observed)
         && (stage == Begun || stage == Open ==> LawfulPatch(c, a, reason, base.localOwners, b))
         && (stage == Routed ==> LawfulOutcome(c, a, reason, b))
  }

  predicate LawfulForward(c: Context, a: Status, server: int) {
    && Entered(c)
    && a.phase == RoutingProvider && c.env.preRoute
    && a.target != "" && a.target in Known(c)
    && ServerOf(c.env.nodes, a.target) == Some(server) && c.env.owner != server
    && a.lastAttempted == Some(c.env.now)
  }

  predicate LawfulRollback(c: Context, a: Status, server: int) {
    && Entered(c)
    && c.spec.recoveryPolicy == RecoveryPolicy.RollbackProvider && !c.env.postRoute
    && a.source != "" && ServerOf(c.env.nodes, a.source) == Some(server)
    && Arrived(c, a) && !BeforeTraffic(a.phase)
    && c.env.recoveryRead.Some? && c.env.recoveryRead != Some(server)
    && FenceAccepts(a.observed, c.env.recoveryRead.value, Some(server))
    && a.lastAttempted == Some(c.env.now)
  }

  // `read` is LocalOwners as the run read it before this patch.
  predicate LawfulPatch(c: Context, a: Status, reason: Reason, read: seq<string>, b: Status) {
    || LawfulEntry(c, a, reason, b)
    || (Entered(c) && (LawfulSelection(c, a, reason, b) || LawfulRouting(c, a, reason, b)))
    || (Entered(c) && Arrived(c, a) && LawfulArrival(c, a, reason, read, b))
  }

  // Patches of a run that starts, resumes or refuses a transition.
  predicate LawfulEntry(c: Context, a: Status, reason: Reason, b: Status) {
    || (reason == TransitionStarted && Starts(c, a, b))
    || (reason == InvalidSpec && !ValidSpec(c.spec) && Blocks(a, b))
    || (reason == InvalidStatus && !ValidStatus(c.start) && Blocks(a, b))
    || (reason == ManualRetry && Retries(c, a, b))
    || (reason == ProviderOwnershipChanged && !Fenced(c) && Blocks(a, b))
  }

  predicate LawfulSelection(c: Context, a: Status, reason: Reason, b: Status) {
    || (reason == OwnerObserved && Observes(c, a, b))
    || (reason == RecoverySeen && CountsRecovery(c, a, b))
    || (reason == CandidateRecovered && Recovers(c, a, b))
    || (reason == Reselected && Reselects(a, b))
    || (reason == FailureSeen && CountsFailure(c, a, b))
    || (reason == CandidateSelected && SelectsCandidate(c, a, b))
    || (reason == WindowElapsed && Retargets(c, a, b))
  }

  predicate LawfulRouting(c: Context, a: Status, reason: Reason, b: Status) {
    || (reason == NodeReportedOwnership && Advances(a, PreparingTarget, TargetPrepared, b) && a.target in Known(c))
    || (reason == PreRouteFailed && b == a)
    || (reason == RouteReady && Advances(a, TargetPrepared, RoutingProvider, b) && a.target in Known(c)
        && c.env.preRoute)
    || (reason == ProviderCooldown && b == a)
    || (reason == MutationEligible && a.phase == RoutingProvider && StampsAttempt(c, a, b))
  }

  // Patches of a run that found the target prepared and routed.
  predicate LawfulArrival(c: Context, a: Status, reason: Reason, read: seq<string>, b: Status) {
    || (reason == ProviderOwnerConfirmed && Advances(a, RoutingProvider, VerifyingProvider, b))
    || (reason == OwnerVerified && Advances(a, VerifyingProvider, VerifyingTraffic, b))
    || (reason == CommitsDegraded && b == a && c.spec.recoveryPolicy == RecoveryPolicy.CommitDegraded)
    || (!c.env.postRoute && LawfulRecovery(c, a, reason, b))
    || (TrafficAccepted(c) && LawfulSettling(c, a, reason, read, b))
  }

  predicate LawfulRecovery(c: Context, a: Status, reason: Reason, b: Status) {
    || (reason == ManualStop && Follows(c, RecoveryPolicy.ManualIntervention) && Blocks(a, b))
    || (reason == RollbackUnavailable && Follows(c, RecoveryPolicy.RollbackProvider) && Blocks(a, b))
    || (reason == RollbackAlreadyConverged && EndsRollback(c, a, b) && !BeforeTraffic(a.phase))
    || (reason == RollbackDeferred && b == a)
    || (reason == RollbackEligible && Follows(c, RecoveryPolicy.RollbackProvider) && StampsAttempt(c, a, b))
    || (reason == HoldsDualOwnership && Follows(c, RecoveryPolicy.HoldDualOwnership) && b == a.(phase := Degraded))
  }

  // The traffic check failed and this policy applies; the unset policy is HoldDualOwnership.
  predicate Follows(c: Context, policy: RecoveryPolicy) {
    && !c.env.postRoute
    && (c.spec.recoveryPolicy == policy
        || (c.spec.recoveryPolicy == RecoveryPolicy.Unspecified && policy == RecoveryPolicy.HoldDualOwnership))
  }

  predicate LawfulSettling(c: Context, a: Status, reason: Reason, read: seq<string>, b: Status) {
    || (reason == ProbeGatePassed && Advances(a, VerifyingTraffic, Committing, b))
    || (reason == Committed && Commits(a, b))
    || (reason == OwnersPending && PostponesCleanup(c, a, b))
    || (reason == CleanupTimeout && GivesUpCleanup(c, a, b))
    || (reason == SingleOwner && Advances(a, CleaningStaleOwners, Succeeded, b) && read == [a.target])
    || (reason == UnexpectedPhase && Blocks(a, b) && !Expected(a.phase))
  }

  // The patch that follows a route call; `a` is the stored status after the stamp.
  predicate LawfulOutcome(c: Context, a: Status, reason: Reason, b: Status) {
    || (reason == RouteFailed && b == a.(retryCount := a.retryCount + 1))
    || (reason == ProviderOwnerConfirmed && ConfirmsRoute(c, a, b))
    || (reason == RollbackFailed && Follows(c, RecoveryPolicy.RollbackProvider) && Blocks(a, b))
    || (reason == RollbackSucceeded && EndsRollback(c, a, b))
  }

  predicate Blocks(a: Status, b: Status) { b == a.(phase := Blocked) }

  predicate Advances(a: Status, from: Phase, to: Phase, b: Status) { a.phase == from && b == a.(phase := to) }

  predicate Starts(c: Context, a: Status, b: Status) {
    a.transitionId == "" && b == a.(transitionId := c.env.newId, phase := Selecting)
  }

  predicate Retries(c: Context, a: Status, b: Status) {
    && (a.phase == Blocked || a.phase == Degraded) && c.env.token != "" && c.env.token != a.token
    && b == a.(phase := Selecting, token := c.env.token, candidateSince := None)
  }

  predicate Observes(c: Context, a: Status, b: Status) {
    a == Core(c.start) && c.env.ownersAfterObserve == Known(c) && b == Observed(a, c.env)
  }

  predicate CountsRecovery(c: Context, a: Status, b: Status) {
    && a.phase == Stabilizing && a.candidateSince.Some? && a.recoveryCount + 1 < RecoveryThreshold(c.spec)
    && b == a.(recoveryCount := a.recoveryCount + 1)
  }

  predicate Recovers(c: Context, a: Status, b: Status) {
    && a.phase == Stabilizing && a.candidateSince.Some? && a.recoveryCount + 1 >= RecoveryThreshold(c.spec)
    && b == a.(phase := Selecting, candidateSince := None, failureCount := 0, recoveryCount := b.recoveryCount)
    && (a.recoveryCount >= 0 ==> b.recoveryCount == 0)
  }

  predicate Reselects(a: Status, b: Status) {
    a.phase == Succeeded && b == a.(phase := Selecting, candidateSince := None)
  }

  predicate CountsFailure(c: Context, a: Status, b: Status) {
    && SawBetter(c) && a.phase != Succeeded && a.failureCount + 1 < FailureThreshold(c.spec)
    && b == a.(failureCount := a.failureCount + 1)
  }

  predicate SelectsCandidate(c: Context, a: Status, b: Status) {
    && SawBetter(c) && a.phase != Succeeded && a.transitionId != ""
    && a.candidateSince.None? && a.failureCount + 1 >= FailureThreshold(c.spec)
    && b == a.(candidateSince := Some(c.env.now), phase := if a.phase == Selecting then Stabilizing else a.phase)
  }

  predicate Retargets(c: Context, a: Status, b: Status) {
    && SawBetter(c) && a.phase != Succeeded && a.failureCount + 1 >= FailureThreshold(c.spec)
    && a.candidateSince.Some? && c.env.now >= a.candidateSince.value + HandoffWindow(c.spec)
    && JustifiedMove(c.env.nodes, a.target, b.target) && b.target != "" && b.target != a.target
    && b == a.(source := a.target, target := b.target, cleanupAttempts := 0, nextCleanup := None,
               candidateSince := None, failureCount := b.failureCount, recoveryCount := b.recoveryCount,
               phase := if a.phase == Stabilizing then PreparingTarget else a.phase)
    && (a.failureCount >= 0 ==> b.failureCount == 0) && (a.recoveryCount >= 0 ==> b.recoveryCount == 0)
  }

  predicate StampsAttempt(c: Context, a: Status, b: Status) {
    MutationAllowed(a.lastAttempted, Cooldown(c.spec), c.env.now) && b == a.(lastAttempted := Some(c.env.now))
  }

  predicate ConfirmsRoute(c: Context, a: Status, b: Status) {
    && a.phase == RoutingProvider && ServerOf(c.env.nodes, a.target).Some?
    && b == a.(phase := VerifyingProvider, observed := ServerOf(c.env.nodes, a.target))
  }

  predicate EndsRollback(c: Context, a: Status, b: Status) {
    && Follows(c, RecoveryPolicy.RollbackProvider)
    && ServerOf(c.env.nodes, a.source).Some?
    && b == a.(phase := Degraded, observed := ServerOf(c.env.nodes, a.source))
  }

  predicate Commits(a: Status, b: Status) {
    a.phase == Committing && b == a.(source := a.target, phase := CleaningStaleOwners)
  }

  // A cleanup check runs only once the announced time is reached.
  predicate CleanupDue(c: Context, a: Status) {
    a.phase == CleaningStaleOwners && (a.nextCleanup.Some? ==> a.nextCleanup.value <= c.env.now)
  }

  predicate PostponesCleanup(c: Context, a: Status, b: Status) {
    && CleanupDue(c, a) && a.cleanupAttempts + 1 < CleanupMaxAttempts(c.spec)
    && b == a.(cleanupAttempts := a.cleanupAttempts + 1,
               nextCleanup := Some(c.env.now + Backoff.CleanupDelay(c.spec, a.cleanupAttempts + 1)))
  }

  predicate GivesUpCleanup(c: Context, a: Status, b: Status) {
    && CleanupDue(c, a) && a.cleanupAttempts + 1 >= CleanupMaxAttempts(c.spec)
    && b == a.(cleanupAttempts := a.cleanupAttempts + 1, phase := Degraded)
  }

  // Phases from PreparingTarget to Succeeded, which the end of a run knows how to continue.
  predicate Expected(phase: Phase) {
    BeforeTraffic(phase) || phase == VerifyingTraffic || phase == Committing || phase == CleaningStaleOwners ||
    phase == Succeeded
  }

  predicate Chain(c: Context, stage: Stage, st: Status, effects: seq<Effect>)
    decreases |effects|
  {
    effects == [] ||
    (&& Lawful(c, stage, st, effects[0])
     && (Closing(effects[0]) ==> |effects| == 1)
     && Chain(c, NextStage(stage, effects[0]), After(st, effects[0]), effects[1..]))
  }

  // ---- every plan obeys the law ----

  lemma ChainCons(c: Context, stage: Stage, st: Status, e: Effect, rest: seq<Effect>)
    requires Lawful(c, stage, st, e) && (Closing(e) ==> rest == [])
    requires Chain(c, NextStage(stage, e), After(st, e), rest)
    ensures Chain(c, stage, st, [e] + rest)
  {
    assert ([e] + rest)[1..] == rest;
  }

  lemma ChainOne(c: Context, stage: Stage, st: Status, e: Effect)
    requires Lawful(c, stage, st, e)
    ensures Chain(c, stage, st, [e])
  {
    assert [e][1..] == [];
  }

  lemma ChainBegins(c: Context, st: Status, effects: seq<Effect>)
    requires Chain(c, Open, st, effects)
    ensures Chain(c, Begun, st, effects)
  {
  }

  // A copy that agrees with the stored status except for LocalOwners patches it as intended.
  lemma MergeCopy(server: Status, base: Status, updated: Status)
    requires Core(server) == Core(base)
    ensures MergePatch(server, base, updated) ==
            updated.(localOwners := MergeField(server.localOwners, base.localOwners, updated.localOwners))
  {
    assert server == base.(localOwners := server.localOwners);
  }

  // Agents may rewrite LocalOwners at any time without disturbing a run.
  lemma {:induction false} ChainIgnoresOwners(c: Context, stage: Stage, st: Status, other: Status, effects: seq<Effect>)
    requires Chain(c, stage, st, effects) && Core(st) == Core(other)
    ensures Chain(c, stage, other, effects)
    decreases |effects|
  {
    if effects != [] {
      assert Core(After(st, effects[0])) == Core(After(other, effects[0])) by {
        assert other == st.(localOwners := other.localOwners);
      }
      ChainIgnoresOwners(c, NextStage(stage, effects[0]), After(st, effects[0]), After(other, effects[0]),
          effects[1..]);
    }
  }
}
