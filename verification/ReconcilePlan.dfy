/**
 internal/controller/failoverip_controller.go and recovery.go: what one Reconcile run does, as the
 list of its durable effects. A crash, a failed API call or a lost leader ends the run after a prefix
 of this list. The readings a run takes (clock, provider, nodes, probes) are given in advance.
*/
module ReconcilePlan {
  import opened Prelude
  import opened Api
  import opened NodeScoring
  import opened Policy
  import Backoff
  import ProbeChecks

  const VERIFY_ATTEMPTS: nat := 15

  // Why a status patch is written; mostly the condition reasons of the source.
  datatype Reason =
    | TransitionStarted | InvalidSpec | InvalidStatus | ManualRetry
    | ProviderOwnershipChanged | OwnerObserved
    | RecoverySeen | CandidateRecovered | Reselected
    | FailureSeen | CandidateSelected | WindowElapsed
    | NodeReportedOwnership | PreRouteFailed | RouteReady
    | ProviderCooldown | MutationEligible | RouteFailed | ProviderOwnerConfirmed | OwnerVerified
    | CommitsDegraded | ManualStop | RollbackUnavailable | RollbackAlreadyConverged
    | RollbackDeferred | RollbackEligible | RollbackFailed | RollbackSucceeded | HoldsDualOwnership
    | ProbeGatePassed | Committed | OwnersPending | CleanupTimeout | SingleOwner | UnexpectedPhase

  datatype Direction = Forward | Rollback

  // A patch writes the difference between `base` and `updated`. The full Update at :472 succeeds only
  // if nothing changed since the copy was read, so it too writes exactly that difference.
  // A Read is a provider query that returned the given server.
  datatype Effect =
    | Patch(reason: Reason, base: Status, updated: Status)
    | Route(direction: Direction, server: int, applied: bool)
    | Read(server: int)

  datatype Env = Env(
    now: int,                          // the run's clock reading
    newId: string,                     // fresh transition id
    token: string,                     // manual reconcile annotation
    readsOk: bool,                     // secret, provider and node list could be read
    owner: int,                        // provider owner at the first query
    nodes: seq<Node>,
    ownersAfterObserve: seq<string>,   // LocalOwners in the response to the observation patch
    ownersAfterDegrade: seq<string>,   // LocalOwners in the response to the CommitDegraded patch
    ownersAfterStamp: seq<string>,     // LocalOwners in the response to the attempt stamp
    preRouteProbes: seq<ProbeChecks.Probe>,   // the referenced probes as each gate finds them
    postRouteProbes: seq<ProbeChecks.Probe>,
    preRoute: bool,                    // and what the gates answer
    postRoute: bool,
    routeApplied: bool,                // whether a route call takes effect
    routeOk: bool,                     // whether it reports success
    verifyReads: seq<Option<int>>,     // provider queries after routing; None is an error
    recoveryRead: Option<int>,         // provider query before a rollback
    confirmRead: Option<int>)          // provider query after a rollback

  function Advance(st: Status, to: Phase): Status
    requires CanTransition(st.phase, to)
  {
    AdvanceTransition(st, to).value
  }

  // The observed owner, and the adopted target where none was chosen yet.
  function Observed(st: Status, env: Env): Status {
    var seen := st.(observed := Some(env.owner));
    if st.target != "" then seen
    else match NodeForServer(env.nodes, env.owner)
      case Some(n) => seen.(target := n.name)
      case None => seen
  }

  // The copy on which a run decides, after it has recorded what it observed.
  function Refreshed(st: Status, env: Env): Status {
    if Observed(st, env) == st then st else Observed(st, env).(localOwners := env.ownersAfterObserve)
  }

  function Plan(spec: Spec, st: Status, env: Env): seq<Effect> {
    if st.transitionId == "" then [Patch(TransitionStarted, st, StartTransition(st, env.newId))]
    else if !ValidSpec(spec) then [Patch(InvalidSpec, st, st.(phase := Blocked))]
    else if !ValidStatus(st) then [Patch(InvalidStatus, st, st.(phase := Blocked))]
    else if st.phase == Blocked || st.phase == Degraded then
      if env.token != "" && env.token != st.token then
        [Patch(ManualRetry, st, Advance(st, Selecting).(token := env.token, candidateSince := None))]
      else []
    else if !env.readsOk then []
    else if !FenceAccepts(st.observed, env.owner, ServerOf(env.nodes, st.target)) then
      [Patch(ProviderOwnershipChanged, st, st.(phase := Blocked))]
    else if Observed(st, env) != st then
      [Patch(OwnerObserved, st, Observed(st, env))] +
      Decide(spec, Observed(st, env).(localOwners := env.ownersAfterObserve), env)
    else Decide(spec, st, env)
  }

  function Decide(spec: Spec, st: Status, env: Env): seq<Effect> {
    var better := Better(Candidates(env.nodes), st.target);
    if better.None? && st.phase == Stabilizing && st.candidateSince.Some? then
      DecideRecovered(spec, st)
    else if better.Some? && better.value.name != st.target then
      DecideCandidate(spec, st, env, better.value)
    else if st.target == "" || st.phase == Succeeded then []
    else match ServerOf(env.nodes, st.target)
      case Some(server) => DecidePrepared(spec, st, env, server)
      case None => []
  }

  function DecideRecovered(spec: Spec, st: Status): seq<Effect>
    requires st.phase == Stabilizing
  {
    var counted := st.(recoveryCount := st.recoveryCount + 1);
    if counted.recoveryCount < RecoveryThreshold(spec) then [Patch(RecoverySeen, st, counted)]
    else
      [Patch(CandidateRecovered, counted,
             Advance(counted, Selecting).(candidateSince := None, failureCount := 0, recoveryCount := 0))]
  }

  // The incremented failure count reaches the server only in the FailureSeen patch: the later
  // patches take it into their base.
  function DecideCandidate(spec: Spec, st: Status, env: Env, better: Node): seq<Effect> {
    var counted := st.(failureCount := st.failureCount + 1);
    if st.phase == Succeeded || st.phase == Degraded then
      [Patch(Reselected, st, Advance(st, Selecting).(candidateSince := None))]
    else if counted.failureCount < FailureThreshold(spec) then [Patch(FailureSeen, st, counted)]
    else if st.candidateSince.None? then
      var since := counted.(candidateSince := Some(env.now));
      [Patch(CandidateSelected, counted, if st.phase == Selecting then Advance(since, Stabilizing) else since)]
    else if !CandidateReady(spec, st, better, env.now) then []
    else [Patch(WindowElapsed, counted, Retargeted(counted, better.name))]
  }

  predicate CandidateReady(spec: Spec, st: Status, candidate: Node, now: int) {
    Acceptable(candidate) && st.candidateSince.Some? && now >= st.candidateSince.value + HandoffWindow(spec)
  }

  function Retargeted(st: Status, name: string): Status {
    var moved := st.(source := st.target, target := name, localOwners := [], cleanupAttempts := 0,
                     nextCleanup := None, candidateSince := None, failureCount := 0, recoveryCount := 0);
    if st.phase == Stabilizing then Advance(moved, PreparingTarget) else moved
  }

  function DecidePrepared(spec: Spec, st: Status, env: Env, server: int): seq<Effect> {
    if st.target !in st.localOwners then []
    else if st.phase == PreparingTarget then
      [Patch(NodeReportedOwnership, st, Advance(st, TargetPrepared))]
    else if (st.phase == TargetPrepared || st.phase == RoutingProvider) && !env.preRoute then
      [Patch(PreRouteFailed, st, st)]
    else if st.phase == TargetPrepared then
      [Patch(RouteReady, st, Advance(st, RoutingProvider))]
    else if env.owner != server then
      if st.phase == RoutingProvider then DecideRoute(spec, st, env, server) else []
    else if st.phase == RoutingProvider then
      [Patch(ProviderOwnerConfirmed, st, Advance(st, VerifyingProvider))]
    else if st.phase == VerifyingProvider then
      [Patch(OwnerVerified, st, Advance(st, VerifyingTraffic))]
    else if env.postRoute then Settle(spec, st, env)
    else Recover(spec, st, env)
  }

  // Stamp, route, verify, record: the stamp is durable before the provider is called.
  function DecideRoute(spec: Spec, st: Status, env: Env, server: int): seq<Effect>
    requires st.phase == RoutingProvider
  {
    if !MutationAllowed(st.lastAttempted, Cooldown(spec), env.now) then [Patch(ProviderCooldown, st, st)]
    else
      var stamped := st.(lastAttempted := Some(env.now));
      [Patch(MutationEligible, st, stamped)] +
      ([Route(Forward, server, env.routeApplied)] + AfterRoute(stamped, env, server))
  }

  function AfterRoute(st: Status, env: Env, server: int): seq<Effect>
    requires st.phase == RoutingProvider
  {
    if !env.routeOk then [Patch(RouteFailed, st, st.(retryCount := st.retryCount + 1))]
    else if Converges(env.verifyReads, server, VERIFY_ATTEMPTS) then
      [Read(server)] +
      [Patch(ProviderOwnerConfirmed, st, Advance(st.(observed := Some(server)), VerifyingProvider))]
    else []
  }

  // Some query among the first n returns the server and none before it fails.
  predicate Converges(answers: seq<Option<int>>, server: int, n: nat) {
    n > 0 && answers != [] && answers[0].Some? &&
    (answers[0].value == server || Converges(answers[1..], server, n - 1))
  }

  function Settle(spec: Spec, st: Status, env: Env): seq<Effect> {
    if st.phase == VerifyingTraffic then [Patch(ProbeGatePassed, st, Advance(st, Committing))]
    else if st.phase == Committing then
      [Patch(Committed, st, Advance(st.(source := st.target), CleaningStaleOwners))]
    else if st.phase == CleaningStaleOwners then Cleanup(spec, st, env)
    else [Patch(UnexpectedPhase, st, st.(phase := Blocked))]
  }

  function Cleanup(spec: Spec, st: Status, env: Env): seq<Effect>
    requires st.phase == CleaningStaleOwners
  {
    if st.nextCleanup.Some? && env.now < st.nextCleanup.value then []
    else if |st.localOwners| != 1 || st.target !in st.localOwners then
      var counted := st.(cleanupAttempts := st.cleanupAttempts + 1);
      if counted.cleanupAttempts >= CleanupMaxAttempts(spec) then
        [Patch(CleanupTimeout, st, counted.(phase := Degraded))]
      else
        [Patch(OwnersPending, st,
               counted.(nextCleanup := Some(env.now + Backoff.CleanupDelay(spec, counted.cleanupAttempts))))]
    else [Patch(SingleOwner, st, Advance(st, Succeeded))]
  }

  // recoverPostRouteFailure; CommitDegraded alone lets the run go on.
  function Recover(spec: Spec, st: Status, env: Env): seq<Effect> {
    match spec.recoveryPolicy
    case CommitDegraded =>
      [Patch(CommitsDegraded, st, st)] + Settle(spec, st.(localOwners := env.ownersAfterDegrade), env)
    case ManualIntervention => [Patch(ManualStop, st, st.(phase := Blocked))]
    case RollbackProvider => RollBack(spec, st, env)
    case _ => [Patch(HoldsDualOwnership, st, st.(phase := Degraded))]
  }

  function RollBack(spec: Spec, st: Status, env: Env): seq<Effect> {
    if st.source == "" || ServerOf(env.nodes, st.source).None? || env.recoveryRead.None? then
      [Patch(RollbackUnavailable, st, st.(phase := Blocked))]
    else
      var server, seen := ServerOf(env.nodes, st.source).value, env.recoveryRead.value;
      [Read(seen)] +
      if !FenceAccepts(st.observed, seen, Some(server)) then
        [Patch(RollbackUnavailable, st, st.(phase := Blocked))]
      else if seen == server then
        [Patch(RollbackAlreadyConverged, st, st.(observed := Some(seen), phase := Degraded))]
      else if !MutationAllowed(st.lastAttempted, Cooldown(spec), env.now) then
        [Patch(RollbackDeferred, st, st)]
      else
        var stamped := st.(lastAttempted := Some(env.now));
        [Patch(RollbackEligible, st, stamped)] +
        ([Route(Rollback, server, env.routeApplied)] +
         AfterRollback(st, stamped.(localOwners := env.ownersAfterStamp), env, server))
  }

  // The patches after a rollback are differences from the copy taken before the stamp, so they also carry
  // what the stamp's response refreshed: LocalOwners and the resource version.
  function AfterRollback(base: Status, st: Status, env: Env, server: int): seq<Effect> {
    if !env.routeOk || env.confirmRead.None? then
      [Patch(RollbackFailed, base, st.(phase := Blocked))]
    else
      [Read(env.confirmRead.value)] +
      if env.confirmRead.value != server then [Patch(RollbackFailed, base, st.(phase := Blocked))]
      else [Patch(RollbackSucceeded, base, st.(observed := Some(server), phase := Degraded))]
  }
}
