/** internal/controller/selection_policy.go and provider_safety.go: windows, thresholds, gates and fences. */
module Policy {
  import opened Prelude
  import opened Api

  function StabilizationWindow(spec: Spec): int { SecondsOr(spec.stabilizationSeconds, 30 * SECOND) }

  function MinHealthyWindow(spec: Spec): int { SecondsOr(spec.minHealthySeconds, 0) }

  // How long a candidate must have been known before a handoff.
  function HandoffWindow(spec: Spec): int { StabilizationWindow(spec) + MinHealthyWindow(spec) }

  function FailureThreshold(spec: Spec): int { CountOr(spec.failureThreshold, 3) }

  function RecoveryThreshold(spec: Spec): int { CountOr(spec.recoveryThreshold, 2) }

  function CleanupMaxAttempts(spec: Spec): int { CountOr(spec.cleanupMaxAttempts, 15) }

  function Cooldown(spec: Spec): int { SecondsOr(spec.providerCooldownSeconds, MINUTE) }

  // A handoff waits for the stabilization window and, on top of it, the healthy window; both count in seconds, and
  // in a valid spec 0 stands for the default.
  lemma Knobs(spec: Spec)
    requires ValidSpec(spec)
    ensures HandoffWindow(spec) ==
            1_000_000_000 * ((if spec.stabilizationSeconds == 0 then 30 else spec.stabilizationSeconds as int)
            + spec.minHealthySeconds as int)
    ensures Cooldown(spec) ==
            1_000_000_000 * if spec.providerCooldownSeconds == 0 then 60 else spec.providerCooldownSeconds as int
    ensures FailureThreshold(spec) == if spec.failureThreshold == 0 then 3 else spec.failureThreshold as int
    ensures RecoveryThreshold(spec) == if spec.recoveryThreshold == 0 then 2 else spec.recoveryThreshold as int
    ensures CleanupMaxAttempts(spec) == if spec.cleanupMaxAttempts == 0 then 15 else spec.cleanupMaxAttempts as int
  {
  }

  predicate MutationAllowed(lastAttempted: Option<int>, cooldown: int, now: int) {
    lastAttempted.Some? ==> now >= lastAttempted.value + cooldown
  }

  // Both fences of the source: the observed owner is the recorded one or the one expected change.
  predicate FenceAccepts(recorded: Option<int>, seen: int, expected: Option<int>) {
    recorded.None? || recorded.value == seen || expected == Some(seen)
  }
}
