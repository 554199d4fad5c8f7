/**
 The reconcile method itself, statement by statement: it edits its own copy of the status and sends patches.
 Each run is shown to perform exactly a prefix of its plan, the whole plan if nothing stops it.
*/
module Reconciler {
  import opened Prelude
  import opened Api
  import opened NodeScoring
  import opened Policy
  import opened ReconcilePlan
  import opened EffectLaw
  import Backoff

  // The stored status after the given effects, as far as the controller's own patches go.
  function Replay(st: Status, effects: seq<Effect>): Status
    decreases |effects|
  {
    if effects == [] then st else After(Replay(st, effects[..|effects| - 1]), effects[|effects| - 1])
  }

  function Cut(effects: seq<Effect>, n: nat): seq<Effect> {
    if n <= |effects| then effects[..n] else effects
  }

  // A run that may perform `n` more effects performs those of `effects` it has time for.
  predicate Performs(log: seq<Effect>, n: nat, log': seq<Effect>, n': nat, effects: seq<Effect>) {
    log' == log + Cut(effects, n) && n' == n - |Cut(effects, n)|
  }

  lemma PerformsCons(log: seq<Effect>, n: nat, log': seq<Effect>, n': nat, e: Effect, rest: seq<Effect>)
    requires n > 0 && Performs(log + [e], n - 1, log', n', rest)
    ensures Performs(log, n, log', n', [e] + rest)
  {
    assert Cut([e] + rest, n) == [e] + Cut(rest, n - 1);
    assert log + ([e] + Cut(rest, n - 1)) == log + [e] + Cut(rest, n - 1);
  }

  lemma PerformsNothing(log: seq<Effect>, n: nat)
    ensures Performs(log, n, log, n, [])
  {
  }

  lemma PerformsNoMore(log: seq<Effect>, effects: seq<Effect>)
    ensures Performs(log, 0, log, 0, effects)
  {
    assert log + Cut(effects, 0) == log;
  }

  class Controller {
    const spec: Spec
    ghost const initial: Status
    var stored: Status        // what the API server holds
    var foip: Status          // the copy that the running reconcile edits
    var log: seq<Effect>      // effects performed so far
    var time: nat             // effects until the process stops or the API server fails

    // The stored status is what the logged patches made of the initial one; LocalOwners belongs to the agents.
    ghost predicate Valid()
      reads this
    {
      Core(stored) == Core(Replay(initial, log))
    }

    ghost predicate Synced()
      reads this
    {
      Valid() && Core(stored) == Core(foip)
    }

    constructor (spec: Spec, st: Status, time: nat)
      ensures Valid() && this.spec == spec && stored == st && initial == st && log == [] && this.time == time
    {
      this.spec, initial, stored, foip, log, this.time := spec, st, st, st, [], time;
    }

    // Writes the difference between `base` and the edited copy; the copy becomes the response.
    // `reported` is what the agents have stored in LocalOwners by then.
    method PatchStatus(reason: Reason, base: Status, reported: seq<string>) returns (ok: bool)
      requires Valid()
      modifies `stored, `foip, `log, `time
      ensures Valid() && ok == (old(time) > 0)
      ensures ok ==> time == old(time) - 1 && log == old(log) + [Effect.Patch(reason, base, old(foip))]
      ensures ok && Core(old(stored)) == Core(base) ==> Synced() && Core(foip) == Core(old(foip))
      ensures ok && Core(old(stored)) == Core(base) && old(foip).localOwners == base.localOwners ==>
                foip == old(foip).(localOwners := reported)
      ensures !ok ==> time == 0 && log == old(log) && stored == old(stored) && foip == old(foip)
    {
      if time == 0 { return false; }
      hide Replay, Api.MergePatch;
      MergeIgnoresOwners(stored.(localOwners := reported), Replay(initial, log), base, foip);
      if Core(stored) == Core(base) { MergeCopy(stored.(localOwners := reported), base, foip); }
      ReplaySnoc(initial, log, Effect.Patch(reason, base, foip));
      log := log + [Effect.Patch(reason, base, foip)];
      stored := MergePatch(stored.(localOwners := reported), base, foip);
      foip := stored;
      time := time - 1;
      return true;
    }

    // A patch after which the run returns.
    method LastPatch(reason: Reason, base: Status)
      requires Valid()
      modifies `stored, `foip, `log, `time
      ensures Valid() && Performs(old(log), old(time), log, time, [Effect.Patch(reason, base, old(foip))])
    {
      var ok := PatchStatus(reason, base, stored.localOwners);
    }

    method CallRoute(direction: Direction, server: int, applied: bool) returns (ok: bool)
      requires Valid()
      modifies `log, `time
      ensures Valid() && ok == (old(time) > 0)
      ensures ok ==> time == old(time) - 1 && log == old(log) + [Route(direction, server, applied)]
      ensures !ok ==> time == 0 && log == old(log)
    {
      if time == 0 { return false; }
      ReplaySnoc(initial, log, Route(direction, server, applied));
      log := log + [Route(direction, server, applied)];
      time := time - 1;
      return true;
    }

    // A provider query that answered `server`.
    method RecordRead(server: int) returns (ok: bool)
      requires Valid()
      modifies `log, `time
      ensures Valid() && ok == (old(time) > 0)
      ensures ok ==> time == old(time) - 1 && log == old(log) + [Read(server)]
      ensures !ok ==> time == 0 && log == old(log)
    {
      if time == 0 { return false; }
      ReplaySnoc(initial, log, Read(server));
      log := log + [Read(server)];
      time := time - 1;
      return true;
    }

    method AdvanceCopy(to: Phase) returns (ok: bool)
      modifies `foip
      ensures ok == AdvanceTransition(old(foip), to).Some?
      ensures foip == if ok then old(foip).(phase := to) else old(foip)
    {
      if foip.phase == Unset { return false; }
      if !CanTransition(foip.phase, to) { return false; }
      foip := foip.(phase := to);
      return true;
    }

    // ---- selection ----

    method CountRecovery()
      requires Synced() && foip.phase == Stabilizing
      modifies `stored, `foip, `log, `time
      ensures Valid() && Performs(old(log), old(time), log, time, DecideRecovered(spec, old(foip)))
    {
      hide Performs, Replay;
      var base := foip;
      foip := foip.(recoveryCount := foip.recoveryCount + 1);
      if foip.recoveryCount < RecoveryThreshold(spec) {
        LastPatch(RecoverySeen, base);
        return;
      }
      base := foip;
      var ok := AdvanceCopy(Selecting);
      assert ok;
      foip := foip.(candidateSince := None);
      foip := foip.(failureCount := 0);
      foip := foip.(recoveryCount := 0);
      LastPatch(CandidateRecovered, base);
    }

    method ConsiderCandidate(env: Env, better: Node)
      requires Synced()
      modifies `stored, `foip, `log, `time
      ensures Valid() && Performs(old(log), old(time), log, time, DecideCandidate(spec, old(foip), env, better))
    {
      hide Performs, Replay, Retargeted;
      PerformsNothing(log, time);
      if foip.phase == Succeeded || foip.phase == Degraded {
        var base := foip;
        var ok := AdvanceCopy(Selecting);
        assert ok;
        foip := foip.(candidateSince := None);
        LastPatch(Reselected, base);
        return;
      }
      var base := foip;
      foip := foip.(failureCount := foip.failureCount + 1);
      if foip.failureCount < FailureThreshold(spec) {
        LastPatch(FailureSeen, base);
        return;
      }
      if foip.candidateSince.None? {
        base := foip;
        foip := foip.(candidateSince := Some(env.now));
        if foip.phase == Selecting {
          var ok := AdvanceCopy(Stabilizing);
          assert ok;
        }
        LastPatch(CandidateSelected, base);
        return;
      }
      if !CandidateReady(spec, foip, better, env.now) { return; }
      base := foip;
      Retarget(better.name);
      LastPatch(WindowElapsed, base);
    }

    method Retarget(name: string)
      modifies `foip
      ensures foip == Retargeted(old(foip), name)
    {
      foip := foip.(source := foip.target);
      foip := foip.(cleanupAttempts := 0, nextCleanup := None);
      foip := foip.(target := name);
      foip := foip.(localOwners := []);
      foip := foip.(candidateSince := None);
      foip := foip.(failureCount := 0, recoveryCount := 0);
      if foip.phase == Stabilizing {
        var ok := AdvanceCopy(PreparingTarget);
        assert ok;
      }
    }

    // ---- routing ----

    // Polls the provider until it reports the server, an error, or the last attempt.
    method VerifyRoute(env: Env, server: int) returns (verified: bool)
      ensures verified == Converges(env.verifyReads, server, VERIFY_ATTEMPTS)
    {
      verified := false;
      for i := 0 to VERIFY_ATTEMPTS
        invariant i <= |env.verifyReads|
        invariant Converges(env.verifyReads, server, VERIFY_ATTEMPTS) ==
                  Converges(env.verifyReads[i..], server, VERIFY_ATTEMPTS - i)
      {
        assert i < |env.verifyReads| ==> env.verifyReads[i..][1..] == env.verifyReads[i + 1..];
        if i == |env.verifyReads| || env.verifyReads[i].None? { return false; }
        if env.verifyReads[i].value == server { return true; }
      }
    }

    method RouteProvider(env: Env, server: int)
      requires Synced() && foip.phase == RoutingProvider
      modifies `stored, `foip, `log, `time
      ensures Valid() && Performs(old(log), old(time), log, time, DecideRoute(spec, old(foip), env, server))
    {
      hide Performs, Replay, ReconcilePlan.AfterRoute;
      PerformsNoMore(log, DecideRoute(spec, foip, env, server));
      var base := foip;
      if !MutationAllowed(foip.lastAttempted, Cooldown(spec), env.now) {
        LastPatch(ProviderCooldown, base);
        return;
      }
      ghost var stamped := foip.(lastAttempted := Some(env.now));
      ghost var stamp := Effect.Patch(MutationEligible, foip, stamped);
      ghost var call := Route(Forward, server, env.routeApplied);
      foip := foip.(lastAttempted := Some(env.now));
      var ok := PatchStatus(MutationEligible, base, foip.localOwners);
      if !ok { return; }
      CallAndFinish(env, server);
      PerformsCons(old(log), old(time), log, time, stamp, [call] + AfterRoute(stamped, env, server));
    }

    method CallAndFinish(env: Env, server: int)
      requires Synced() && foip.phase == RoutingProvider
      modifies `stored, `foip, `log, `time
      ensures Valid()
      ensures Performs(old(log), old(time), log, time,
                       [Route(Forward, server, env.routeApplied)] + AfterRoute(old(foip), env, server))
    {
      hide Performs, Replay, ReconcilePlan.AfterRoute;
      ghost var call, rest := Route(Forward, server, env.routeApplied), AfterRoute(foip, env, server);
      PerformsNoMore(log, [call] + rest);
      var ok := CallRoute(Forward, server, env.routeApplied);
      if !ok { return; }
      FinishRoute(env, server);
      PerformsCons(old(log), old(time), log, time, call, rest);
    }

    method FinishRoute(env: Env, server: int)
      requires Synced() && foip.phase == RoutingProvider
      modifies `stored, `foip, `log, `time
      ensures Valid() && Performs(old(log), old(time), log, time, AfterRoute(old(foip), env, server))
    {
      hide Performs, Replay, ReconcilePlan.Converges;
      PerformsNoMore(log, AfterRoute(foip, env, server));
      PerformsNothing(log, time);
      var base := foip;
      if !env.routeOk {
        foip := foip.(retryCount := foip.retryCount + 1);
        LastPatch(RouteFailed, base);
        return;
      }
      var verified := VerifyRoute(env, server);
      if !verified { return; }
      var ok := RecordRead(server);
      if !ok { return; }
      foip := foip.(observed := Some(server));
      ok := AdvanceCopy(VerifyingProvider);
      assert ok;
      ghost var update := Effect.Patch(ProviderOwnerConfirmed, base, foip);
      LastPatch(ProviderOwnerConfirmed, base);
      PerformsCons(old(log), old(time), log, time, Read(server), [update]);
    }

    // ---- settling ----

    method Finish(env: Env)
      requires Synced()
      modifies `stored, `foip, `log, `time
      ensures Valid() && Performs(old(log), old(time), log, time, Settle(spec, old(foip), env))
    {
      hide Performs, Replay, ReconcilePlan.Cleanup;
      var base := foip;
      if foip.phase == VerifyingTraffic {
        var ok := AdvanceCopy(Committing);
        assert ok;
        LastPatch(ProbeGatePassed, base);
      } else if foip.phase == Committing {
        foip := foip.(source := foip.target);
        var ok := AdvanceCopy(CleaningStaleOwners);
        assert ok;
        LastPatch(Committed, base);
      } else if foip.phase == CleaningStaleOwners {
        CleanUp(env);
      } else {
        foip := foip.(phase := Blocked);
        LastPatch(UnexpectedPhase, base);
      }
    }

    method CleanUp(env: Env)
      requires Synced() && foip.phase == CleaningStaleOwners
      modifies `stored, `foip, `log, `time
      ensures Valid() && Performs(old(log), old(time), log, time, Cleanup(spec, old(foip), env))
    {
      hide Performs, Replay, Backoff.CleanupDelay;
      PerformsNothing(log, time);
      if foip.nextCleanup.Some? && env.now < foip.nextCleanup.value { return; }
      var base := foip;
      if |foip.localOwners| != 1 || foip.target !in foip.localOwners {
        foip := foip.(cleanupAttempts := foip.cleanupAttempts + 1);
        if foip.cleanupAttempts >= CleanupMaxAttempts(spec) {
          foip := foip.(phase := Degraded);
          LastPatch(CleanupTimeout, base);
        } else {
          foip := foip.(nextCleanup := Some(env.now + Backoff.CleanupDelay(spec, foip.cleanupAttempts)));
          LastPatch(OwnersPending, base);
        }
        return;
      }
      var ok := AdvanceCopy(Succeeded);
      assert ok;
      LastPatch(SingleOwner, base);
    }

    // ---- recovery ----

    // After a stamp the difference carries the resource version that the stamp's response brought, so the patch
    // fails, like any other call that ends the run, if anything was written since.
    method PersistRecoveryState(reason: Reason, base: Status, phase: Phase)
      requires Valid()
      modifies `stored, `foip, `log, `time
      ensures Valid()
      ensures Performs(old(log), old(time), log, time, [Effect.Patch(reason, base, old(foip).(phase := phase))])
    {
      hide Performs, Replay;
      foip := foip.(phase := phase);
      LastPatch(reason, base);
    }

    // True means that the caller may go on to commit.
    method RecoverPostRouteFailure(env: Env) returns (commitDegraded: bool)
      requires Synced()
      modifies `stored, `foip, `log, `time
      ensures Valid() && commitDegraded == (spec.recoveryPolicy == RecoveryPolicy.CommitDegraded && old(time) > 0)
      ensures commitDegraded ==>
                && Synced() && foip == old(foip).(localOwners := env.ownersAfterDegrade) && time == old(time) - 1
                && log == old(log) + [Effect.Patch(CommitsDegraded, old(foip), old(foip))]
      ensures !commitDegraded ==> Performs(old(log), old(time), log, time, Recover(spec, old(foip), env))
    {
      hide Performs, Replay, ReconcilePlan.Settle, ReconcilePlan.RollBack;
      PerformsNoMore(log, Recover(spec, foip, env));
      var base := foip;
      match spec.recoveryPolicy
      case CommitDegraded =>
        commitDegraded := PatchStatus(CommitsDegraded, base, env.ownersAfterDegrade);
      case ManualIntervention =>
        foip := foip.(phase := Blocked);
        LastPatch(ManualStop, base);
        return false;
      case RollbackProvider =>
        RollBackProvider(env);
        return false;
      case _ =>
        PersistRecoveryState(HoldsDualOwnership, base, Degraded);
        return false;
    }

    method RollBackProvider(env: Env)
      requires Synced()
      modifies `stored, `foip, `log, `time
      ensures Valid() && Performs(old(log), old(time), log, time, RollBack(spec, old(foip), env))
    {
      hide Performs, Replay, ReconcilePlan.AfterRollback, NodeScoring.ServerOf, Policy.FenceAccepts,
           Policy.MutationAllowed;
      PerformsNoMore(log, RollBack(spec, foip, env));
      var base := foip;
      if foip.source == "" || ServerOf(env.nodes, foip.source).None? || env.recoveryRead.None? {
        PersistRecoveryState(RollbackUnavailable, base, Blocked);
        return;
      }
      var server, seen := ServerOf(env.nodes, foip.source).value, env.recoveryRead.value;
      var ok := RecordRead(seen);
      if !ok { return; }
      ghost var rest := RollBack(spec, foip, env)[1..];
      FenceAndRollBack(env, server, seen);
      PerformsCons(old(log), old(time), log, time, Read(seen), rest);
    }

    method FenceAndRollBack(env: Env, server: int, seen: int)
      requires Synced() && foip.source != "" && ServerOf(env.nodes, foip.source) == Some(server)
               && env.recoveryRead == Some(seen)
      modifies `stored, `foip, `log, `time
      ensures Valid() && Performs(old(log), old(time), log, time, RollBack(spec, old(foip), env)[1..])
    {
      hide Performs, Replay, ReconcilePlan.AfterRollback, NodeScoring.ServerOf, Policy.FenceAccepts;
      PerformsNoMore(log, RollBack(spec, foip, env)[1..]);
      var base := foip;
      if !FenceAccepts(foip.observed, seen, Some(server)) {
        PersistRecoveryState(RollbackUnavailable, base, Blocked);
        return;
      }
      if seen == server {
        foip := foip.(observed := Some(seen));
        PersistRecoveryState(RollbackAlreadyConverged, base, Degraded);
        return;
      }
      if !MutationAllowed(foip.lastAttempted, Cooldown(spec), env.now) {
        LastPatch(RollbackDeferred, base);
        return;
      }
      ghost var stamped := foip.(lastAttempted := Some(env.now));
      ghost var stamp := Effect.Patch(RollbackEligible, foip, stamped);
      ghost var call := Route(Rollback, server, env.routeApplied);
      ghost var end := AfterRollback(foip, stamped.(localOwners := env.ownersAfterStamp), env, server);
      foip := foip.(lastAttempted := Some(env.now));
      var ok := PatchStatus(RollbackEligible, base, env.ownersAfterStamp);
      if !ok { return; }
      CallAndFinishRollback(env, base, server);
      PerformsCons(old(log), old(time), log, time, stamp, [call] + end);
    }

    method CallAndFinishRollback(env: Env, base: Status, server: int)
      requires Valid()
      modifies `stored, `foip, `log, `time
      ensures Valid()
      ensures Performs(old(log), old(time), log, time,
                       [Route(Rollback, server, env.routeApplied)] + AfterRollback(base, old(foip), env, server))
    {
      hide Performs, Replay, ReconcilePlan.AfterRollback;
      ghost var call, end := Route(Rollback, server, env.routeApplied), AfterRollback(base, foip, env, server);
      PerformsNoMore(log, [call] + end);
      var ok := CallRoute(Rollback, server, env.routeApplied);
      if !ok { return; }
      FinishRollback(env, base, server);
      PerformsCons(old(log), old(time), log, time, call, end);
    }

    method FinishRollback(env: Env, base: Status, server: int)
      requires Valid()
      modifies `stored, `foip, `log, `time
      ensures Valid() && Performs(old(log), old(time), log, time, AfterRollback(base, old(foip), env, server))
    {
      hide Performs, Replay;
      PerformsNoMore(log, AfterRollback(base, foip, env, server));
      if !env.routeOk || env.confirmRead.None? {
        PersistRecoveryState(RollbackFailed, base, Blocked);
        return;
      }
      var ok := RecordRead(env.confirmRead.value);
      if !ok { return; }
      ghost var copy := foip;
      if env.confirmRead.value != server {
        PersistRecoveryState(RollbackFailed, base, Blocked);
        PerformsCons(old(log), old(time), log, time, Read(env.confirmRead.value),
                     [Effect.Patch(RollbackFailed, base, copy.(phase := Blocked))]);
        return;
      }
      foip := foip.(observed := Some(server));
      PersistRecoveryState(RollbackSucceeded, base, Degraded);
      PerformsCons(old(log), old(time), log, time, Read(server),
                   [Effect.Patch(RollbackSucceeded, base, copy.(observed := Some(server), phase := Degraded))]);
    }

    // ---- the whole run ----

    method PrepareAndRoute(env: Env, server: int)
      requires Synced()
      modifies `stored, `foip, `log, `time
      ensures Valid() && Performs(old(log), old(time), log, time, DecidePrepared(spec, old(foip), env, server))
    {
      hide Performs, Replay, ReconcilePlan.DecideRoute, ReconcilePlan.Recover, ReconcilePlan.Settle;
      PerformsNothing(log, time);
      if foip.target !in foip.localOwners { return; }
      var base := foip;
      if foip.phase == PreparingTarget {
        var ok := AdvanceCopy(TargetPrepared);
        assert ok;
        LastPatch(NodeReportedOwnership, base);
        return;
      }
      if foip.phase == TargetPrepared || foip.phase == RoutingProvider {
        if !env.preRoute {
          LastPatch(PreRouteFailed, base);
          return;
        }
      }
      if foip.phase == TargetPrepared {
        var ok := AdvanceCopy(RoutingProvider);
        assert ok;
        LastPatch(RouteReady, base);
        return;
      }
      if env.owner != server {
        if foip.phase != RoutingProvider { return; }
        RouteProvider(env, server);
        return;
      }
      if foip.phase == RoutingProvider {
        var ok := AdvanceCopy(VerifyingProvider);
        assert ok;
        LastPatch(ProviderOwnerConfirmed, base);
        return;
      }
      if foip.phase == VerifyingProvider {
        var ok := AdvanceCopy(VerifyingTraffic);
        assert ok;
        LastPatch(OwnerVerified, base);
        return;
      }
      VerifyTraffic(env);
    }

    method VerifyTraffic(env: Env)
      requires Synced()
      modifies `stored, `foip, `log, `time
      ensures Valid()
      ensures Performs(old(log), old(time), log, time,
                       if env.postRoute then Settle(spec, old(foip), env) else Recover(spec, old(foip), env))
    {
      hide Performs, Replay, ReconcilePlan.Settle, ReconcilePlan.RollBack;
      ghost var copy := foip;
      if !env.postRoute {
        var commitDegraded := RecoverPostRouteFailure(env);
        if !commitDegraded { return; }
        Finish(env);
        PerformsCons(old(log), old(time), log, time, Effect.Patch(CommitsDegraded, copy, copy),
                     Settle(spec, copy.(localOwners := env.ownersAfterDegrade), env));
        return;
      }
      Finish(env);
    }

    method ChooseTarget(env: Env)
      requires Synced()
      modifies `stored, `foip, `log, `time
      ensures Valid() && Performs(old(log), old(time), log, time, Decide(spec, old(foip), env))
    {
      hide Performs, Replay, ReconcilePlan.DecideRecovered, ReconcilePlan.DecideCandidate,
           ReconcilePlan.DecidePrepared, NodeScoring.Better, NodeScoring.ServerOf, NodeScoring.Candidates;
      PerformsNothing(log, time);
      var candidates := FilterCandidates(env.nodes);
      var better := BetterNode(candidates, foip.target);
      if better.None? && foip.phase == Stabilizing && foip.candidateSince.Some? {
        CountRecovery();
        return;
      }
      if better.Some? && better.value.name != foip.target {
        ConsiderCandidate(env, better.value);
        return;
      }
      if foip.target == "" { return; }
      if foip.phase == Succeeded { return; }
      var server := ServerIDForNode(env.nodes, foip.target);
      if server.None? { return; }
      PrepareAndRoute(env, server.value);
    }

    // The observed owner and an adopted target are written before anything waits for the agents.
    method ObserveAndChoose(env: Env)
      requires Synced()
      modifies `stored, `foip, `log, `time
      ensures Valid()
      ensures Performs(old(log), old(time), log, time,
                var st, seen := old(foip), Observed(old(foip), env);
                if seen != st then
                  [Effect.Patch(OwnerObserved, st, seen)] +
                      Decide(spec, seen.(localOwners := env.ownersAfterObserve), env)
                else Decide(spec, st, env))
    {
      hide Performs, Replay, ReconcilePlan.Decide, NodeScoring.NodeForServer;
      PerformsNoMore(log, [Effect.Patch(OwnerObserved, foip, Observed(foip, env))] +
                          Decide(spec, Observed(foip, env).(localOwners := env.ownersAfterObserve), env));
      var base := foip;
      foip := foip.(observed := Some(env.owner));
      var adopted := "";
      if foip.target == "" {
        var owner := NodeForServerID(env.nodes, env.owner);
        if owner.Some? {
          foip := foip.(target := owner.value.name);
          adopted := owner.value.name;
        }
      }
      assert foip == Observed(base, env);
      if adopted != "" || base.observed != foip.observed {
        ghost var seen := foip;
        var ok := PatchStatus(OwnerObserved, base, env.ownersAfterObserve);
        if !ok { return; }
        ChooseTarget(env);
        PerformsCons(old(log), old(time), log, time, Effect.Patch(OwnerObserved, base, seen),
                     Decide(spec, seen.(localOwners := env.ownersAfterObserve), env));
        return;
      }
      assert foip == base;
      ChooseTarget(env);
    }

    method Block(reason: Reason)
      requires Synced()
      modifies `stored, `foip, `log, `time
      ensures Valid()
      ensures Performs(old(log), old(time), log, time, [Effect.Patch(reason, old(foip), old(foip).(phase := Blocked))])
    {
      hide Performs, Replay;
      var base := foip;
      foip := foip.(phase := Blocked);
      LastPatch(reason, base);
    }

    method Reconcile(env: Env)
      requires Valid()
      modifies `stored, `foip, `log, `time
      ensures Valid() && Performs(old(log), old(time), log, time, Plan(spec, old(stored), env))
    {
      hide Performs, Replay, ReconcilePlan.Decide, NodeScoring.ServerOf, ReconcilePlan.Observed;
      PerformsNothing(log, time);
      foip := stored;
      var base := foip;
      if foip.transitionId == "" {
        foip := foip.(transitionId := env.newId, phase := Selecting);
        LastPatch(TransitionStarted, base);
        return;
      }
      if !ValidSpec(spec) {
        Block(InvalidSpec);
        return;
      }
      if !ValidStatus(foip) {
        Block(InvalidStatus);
        return;
      }
      if foip.phase == Blocked || foip.phase == Degraded {
        if env.token != "" && env.token != foip.token {
          var ok := AdvanceCopy(Selecting);
          assert ok;
          foip := foip.(token := env.token);
          foip := foip.(candidateSince := None);
          LastPatch(ManualRetry, base);
        }
        return;
      }
      if !env.readsOk { return; }
      var expected := ServerIDForNode(env.nodes, foip.target);
      if !FenceAccepts(foip.observed, env.owner, expected) {
        Block(ProviderOwnershipChanged);
        return;
      }
      ObserveAndChoose(env);
    }
  }

  lemma ReplaySnoc(st: Status, log: seq<Effect>, e: Effect)
    ensures Replay(st, log + [e]) == After(Replay(st, log), e)
  {
    assert (log + [e])[..|log + [e]| - 1] == log;
  }

  lemma MergeIgnoresOwners(a: Status, b: Status, base: Status, updated: Status)
    requires Core(a) == Core(b)
    ensures Core(MergePatch(a, base, updated)) == Core(MergePatch(b, base, updated))
  {
    assert a == b.(localOwners := a.localOwners);
  }
}
