/** api/v1: the persisted status of a FailoverIp, the legal phase table, and status validation. */
module Api {
  import opened Prelude

  // `Unset` is the empty string of a fresh resource; `Unknown` is any string outside the table.
  datatype Phase =
    | Unset | Idle | Selecting | Stabilizing | PreparingTarget | TargetPrepared | RoutingProvider
    | VerifyingProvider | VerifyingTraffic | Committing | CleaningStaleOwners | Succeeded
    | Degraded | Blocked | Unknown

  datatype RecoveryPolicy =
    | Unspecified | HoldDualOwnership | RollbackProvider | CommitDegraded | ManualIntervention

  datatype Composition = NoComposition | All | Any | Quorum | UnsupportedComposition

  datatype Spec = Spec(
    providerCooldownSeconds: int32,
    retryBaseSeconds: int32,
    retryMaxSeconds: int32,
    failureThreshold: int32,
    recoveryThreshold: int32,
    cleanupMaxAttempts: int32,
    cleanupRetrySeconds: int32,
    stabilizationSeconds: int32,
    minHealthySeconds: int32,
    recoveryPolicy: RecoveryPolicy,
    probeComposition: Composition,
    probeQuorum: int32)

  // Node names and tokens are strings and "" means absent, as in the API type.
  datatype Status = Status(
    transitionId: string,
    phase: Phase,
    source: string,
    target: string,
    observed: Option<int>,
    localOwners: seq<string>,
    lastAttempted: Option<int>,
    retryCount: int,
    candidateSince: Option<int>,
    failureCount: int,
    recoveryCount: int,
    cleanupAttempts: int,
    nextCleanup: Option<int>,
    token: string)

  const FRESH: Status :=
    Status("", Unset, "", "", None, [], None, 0, None, 0, 0, 0, None, "")

  // The table of legal phase changes.
  predicate CanTransition(from: Phase, to: Phase) {
    match from
    case Idle => to == Selecting
    case Selecting => to == Stabilizing || to == Blocked
    case Stabilizing => to == PreparingTarget || to == Selecting || to == Blocked
    case PreparingTarget => to == TargetPrepared || to == Blocked
    case TargetPrepared => to == RoutingProvider || to == Blocked
    case RoutingProvider => to == VerifyingProvider || to == Degraded || to == Blocked
    case VerifyingProvider => to == VerifyingTraffic || to == Degraded || to == Blocked
    case VerifyingTraffic => to == Committing || to == Degraded || to == Blocked
    case Committing => to == CleaningStaleOwners || to == Degraded || to == Blocked
    case CleaningStaleOwners => to == Succeeded || to == Degraded || to == Blocked
    case Succeeded => to == Selecting
    case Degraded => to == Selecting || to == Blocked
    case Blocked => to == Selecting
    case Unset => false
    case Unknown => false
  }

  predicate ValidSpec(spec: Spec) {
    && spec.providerCooldownSeconds >= 0 && spec.retryBaseSeconds >= 0 && spec.retryMaxSeconds >= 0
    && spec.failureThreshold >= 0 && spec.recoveryThreshold >= 0
    && spec.cleanupMaxAttempts >= 0 && spec.cleanupRetrySeconds >= 0
    && spec.stabilizationSeconds >= 0 && spec.minHealthySeconds >= 0
    && !(spec.retryBaseSeconds > 0 && spec.retryMaxSeconds > 0 && spec.retryBaseSeconds > spec.retryMaxSeconds)
    && (spec.probeComposition == Quorum ==> spec.probeQuorum >= 1)
    && (spec.probeComposition != Quorum ==> spec.probeQuorum == 0)
    && spec.probeComposition != UnsupportedComposition
  }

  // Phases in which one node may be both source and target.
  predicate AllowsSameNode(phase: Phase) {
    phase == Committing || phase == CleaningStaleOwners || phase == Succeeded || phase == Idle
  }

  predicate ValidStatus(st: Status) {
    st.phase == Unset ||
    (&& st.transitionId != ""
     && st.phase != Unknown
     && (st.target != "" && st.target == st.source ==> AllowsSameNode(st.phase))
     && (st.phase == Succeeded ==> |st.localOwners| == 1 && st.target == st.localOwners[0]))
  }

  function StartTransition(st: Status, newId: string): Status {
    if st.transitionId != "" then st else st.(transitionId := newId, phase := Selecting)
  }

  // None is the error of an uninitialized status or of an edge outside the table.
  function AdvanceTransition(st: Status, to: Phase): Option<Status> {
    if st.phase == Unset || !CanTransition(st.phase, to) then None else Some(st.(phase := to))
  }

  // JSON Merge Patch (section 2 of RFC 7396) of the difference between `base` and `updated`:
  // a field is written only where the two differ.
  function MergeField<T(==)>(server: T, base: T, updated: T): T {
    if updated == base then server else updated
  }

  function MergePatch(server: Status, base: Status, updated: Status): Status {
    Status(
      MergeField(server.transitionId, base.transitionId, updated.transitionId),
      MergeField(server.phase, base.phase, updated.phase),
      MergeField(server.source, base.source, updated.source),
      MergeField(server.target, base.target, updated.target),
      MergeField(server.observed, base.observed, updated.observed),
      MergeField(server.localOwners, base.localOwners, updated.localOwners),
      MergeField(server.lastAttempted, base.lastAttempted, updated.lastAttempted),
      MergeField(server.retryCount, base.retryCount, updated.retryCount),
      MergeField(server.candidateSince, base.candidateSince, updated.candidateSince),
      MergeField(server.failureCount, base.failureCount, updated.failureCount),
      MergeField(server.recoveryCount, base.recoveryCount, updated.recoveryCount),
      MergeField(server.cleanupAttempts, base.cleanupAttempts, updated.cleanupAttempts),
      MergeField(server.nextCleanup, base.nextCleanup, updated.nextCleanup),
      MergeField(server.token, base.token, updated.token))
  }

  // The status without the one field that node agents write.
  function Core(st: Status): Status { st.(localOwners := []) }
}
