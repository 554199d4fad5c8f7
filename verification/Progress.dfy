/**
 Progress: exactly when a run moves a transition to the next phase of the pipeline. Together with the safety
 theorems this fixes each step from both sides: it happens when it may, and only then.
*/
module Progress {
  import opened Prelude
  import opened Api
  import opened NodeScoring
  import opened Policy
  import opened ReconcilePlan
  import opened EffectLaw
  import opened SuccessCertificate
  import Backoff

  // A patch that takes its copy into the given phase.
  predicate Enters(e: Effect, to: Phase) { e.Patch? && e.updated.phase == to && e.base.phase != to }

  predicate Reaches(effects: seq<Effect>, to: Phase) { exists e :: e in effects && Enters(e, to) }

  lemma ReachesNothing(to: Phase)
    ensures !Reaches([], to)
  {
  }

  lemma ReachesCons(e: Effect, rest: seq<Effect>, to: Phase)
    ensures Reaches([e] + rest, to) <==> Enters(e, to) || Reaches(rest, to)
  {
    assert e in [e] + rest && forall x :: x in rest ==> x in [e] + rest;
  }

  lemma ReachesOne(e: Effect, to: Phase)
    ensures Reaches([e], to) <==> Enters(e, to)
  {
    assert e in [e];
  }

  // Another node than the target is the better one.
  predicate HasBetter(st: Status, env: Env) {
    var better := Better(Candidates(env.nodes), st.target);
    better.Some? && better.value.name != st.target
  }

  predicate CandidateRipe(spec: Spec, st: Status, env: Env) {
    && HasBetter(st, env) && st.failureCount + 1 >= FailureThreshold(spec)
    && (if st.phase == Selecting then st.candidateSince.None?
        else CandidateReady(spec, st, Better(Candidates(env.nodes), st.target).value, env.now))
  }

  // The provider points at the target, or this run may and can make it so.
  predicate RouteRipe(spec: Spec, st: Status, env: Env, server: int) {
    env.owner == server ||
    (MutationAllowed(st.lastAttempted, Cooldown(spec), env.now) && env.routeOk
        && Converges(env.verifyReads, server, VERIFY_ATTEMPTS))
  }

  predicate SettleRipe(spec: Spec, st: Status, env: Env, server: int) {
    && env.owner == server && (env.postRoute || spec.recoveryPolicy == RecoveryPolicy.CommitDegraded)
    && (st.phase == CleaningStaleOwners ==>
          && (st.nextCleanup.Some? ==> env.now >= st.nextCleanup.value)
          && (if env.postRoute then st.localOwners else env.ownersAfterDegrade) == [st.target])
  }

  predicate PreparedRipe(spec: Spec, st: Status, env: Env, server: int) {
    && st.target in st.localOwners
    && (st.phase == TargetPrepared || st.phase == RoutingProvider ==> env.preRoute)
    && (st.phase == RoutingProvider ==> RouteRipe(spec, st, env, server))
    && (st.phase == VerifyingProvider ==> env.owner == server)
    && (st.phase == VerifyingTraffic || st.phase == Committing || st.phase == CleaningStaleOwners ==>
          SettleRipe(spec, st, env, server))
  }

  predicate Ripe(spec: Spec, st: Status, env: Env) {
    if st.phase == Selecting || st.phase == Stabilizing then CandidateRipe(spec, st, env)
    else
      && !HasBetter(st, env) && st.target != "" && ServerOf(env.nodes, st.target).Some?
      && PreparedRipe(spec, st, env, ServerOf(env.nodes, st.target).value)
  }

  lemma CandidateReaches(spec: Spec, st: Status, env: Env, better: Node)
    requires st.phase == Selecting || st.phase == Stabilizing
    ensures Reaches(DecideCandidate(spec, st, env, better),
            if st.phase == Selecting then Stabilizing else PreparingTarget) <==>
            && st.failureCount + 1 >= FailureThreshold(spec)
            && (if st.phase == Selecting then st.candidateSince.None? else CandidateReady(spec, st, better, env.now))
  {
    hide Reaches, NodeScoring.Acceptable;
    var to := if st.phase == Selecting then Stabilizing else PreparingTarget;
    var effects := DecideCandidate(spec, st, env, better);
    ReachesNothing(to);
    if effects != [] { ReachesOne(effects[0], to); }
  }

  lemma SettleReaches(spec: Spec, st: Status, env: Env, to: Phase)
    requires || (st.phase == VerifyingTraffic && to == Committing)
             || (st.phase == Committing && to == CleaningStaleOwners)
             || (st.phase == CleaningStaleOwners && to == Succeeded)
    ensures Reaches(Settle(spec, st, env), to) <==>
            (st.phase == CleaningStaleOwners ==>
               (st.nextCleanup.Some? ==> env.now >= st.nextCleanup.value) && st.localOwners == [st.target])
  {
    hide Reaches, Backoff.CleanupDelay;
    var effects := Settle(spec, st, env);
    ReachesNothing(to);
    if effects != [] { ReachesOne(effects[0], to); }
    assert |st.localOwners| == 1 && st.target in st.localOwners <==> st.localOwners == [st.target];
  }

  // No recovery but CommitDegraded moves the pipeline on.
  lemma RecoverReaches(spec: Spec, st: Status, env: Env, to: Phase)
    requires || (st.phase == VerifyingTraffic && to == Committing)
             || (st.phase == Committing && to == CleaningStaleOwners)
             || (st.phase == CleaningStaleOwners && to == Succeeded)
    ensures Reaches(Recover(spec, st, env), to) <==>
            && spec.recoveryPolicy == RecoveryPolicy.CommitDegraded
            && Reaches(Settle(spec, st.(localOwners := env.ownersAfterDegrade), env), to)
  {
    hide ReconcilePlan.Settle;
    match spec.recoveryPolicy
    case CommitDegraded =>
      ReachesCons(Patch(CommitsDegraded, st, st), Settle(spec, st.(localOwners := env.ownersAfterDegrade), env), to);
    case RollbackProvider => RollBackReachesNothing(spec, st, env, to);
    case _ =>
  }

  lemma RollBackReachesNothing(spec: Spec, st: Status, env: Env, to: Phase)
    requires to != Blocked && to != Degraded && to != st.phase
    ensures !Reaches(RollBack(spec, st, env), to)
  {
    hide Policy.FenceAccepts, Policy.MutationAllowed, NodeScoring.ServerOf;
  }

  lemma RouteReaches(spec: Spec, st: Status, env: Env, server: int)
    requires st.phase == RoutingProvider
    ensures Reaches(DecideRoute(spec, st, env, server), VerifyingProvider) <==>
            && MutationAllowed(st.lastAttempted, Cooldown(spec), env.now) && env.routeOk
            && Converges(env.verifyReads, server, VERIFY_ATTEMPTS)
  {
    hide Reaches, ReconcilePlan.Converges, Policy.MutationAllowed;
    var to := VerifyingProvider;
    ReachesNothing(to);
    if MutationAllowed(st.lastAttempted, Cooldown(spec), env.now) {
      var stamped := st.(lastAttempted := Some(env.now));
      var call, rest := Route(Forward, server, env.routeApplied), AfterRoute(stamped, env, server);
      ReachesCons(Patch(MutationEligible, st, stamped), [call] + rest, to);
      ReachesCons(call, rest, to);
      AfterRouteReaches(stamped, env, server);
    } else {
      ReachesOne(Patch(ProviderCooldown, st, st), to);
    }
  }

  lemma AfterRouteReaches(st: Status, env: Env, server: int)
    requires st.phase == RoutingProvider
    ensures Reaches(AfterRoute(st, env, server), VerifyingProvider) <==>
            env.routeOk && Converges(env.verifyReads, server, VERIFY_ATTEMPTS)
  {
    hide Reaches, ReconcilePlan.Converges;
    var effects := AfterRoute(st, env, server);
    ReachesNothing(VerifyingProvider);
    if !env.routeOk {
      ReachesOne(effects[0], VerifyingProvider);
    } else if Converges(env.verifyReads, server, VERIFY_ATTEMPTS) {
      ReachesCons(effects[0], [effects[1]], VerifyingProvider);
      ReachesOne(effects[1], VerifyingProvider);
    }
  }

  lemma PreparedReaches(spec: Spec, st: Status, env: Env, server: int, k: nat)
    requires 2 <= k < 9 && st.phase == PIPELINE[k]
    ensures Reaches(DecidePrepared(spec, st, env, server), PIPELINE[k + 1]) <==> PreparedRipe(spec, st, env, server)
  {
    hide Reaches, ReconcilePlan.DecideRoute, ReconcilePlan.Settle, ReconcilePlan.Recover, ReconcilePlan.Converges,
         Policy.MutationAllowed;
    var to := PIPELINE[k + 1];
    var effects := DecidePrepared(spec, st, env, server);
    ReachesNothing(to);
    if k == 4 { RouteReaches(spec, st, env, server); }
    if k >= 6 {
      SettleReaches(spec, st, env, to);
      SettleReaches(spec, st.(localOwners := env.ownersAfterDegrade), env, to);
      RecoverReaches(spec, st, env, to);
    }
    if effects != [] { ReachesHead(effects, to); }
  }

  lemma ReachesHead(effects: seq<Effect>, to: Phase)
    requires effects != []
    ensures |effects| == 1 ==> (Reaches(effects, to) <==> Enters(effects[0], to))
  {
    if |effects| == 1 {
      assert effects == [effects[0]];
      ReachesOne(effects[0], to);
    }
  }

  // Outside their two phases, candidates move nothing.
  lemma CandidateStays(spec: Spec, st: Status, env: Env, better: Node, k: nat)
    requires 2 <= k < 9 && st.phase == PIPELINE[k]
    ensures !Reaches(DecideCandidate(spec, st, env, better), PIPELINE[k + 1])
  {
    hide Reaches, CandidateReady;
    var effects := DecideCandidate(spec, st, env, better);
    ReachesNothing(PIPELINE[k + 1]);
    if effects != [] { ReachesHead(effects, PIPELINE[k + 1]); }
  }

  // Without a better node, nothing leaves Selecting or Stabilizing forwards.
  lemma EarlyStays(spec: Spec, st: Status, env: Env, server: int, to: Phase)
    requires (st.phase == Selecting && to == Stabilizing) || (st.phase == Stabilizing && to == PreparingTarget)
    ensures !Reaches(DecidePrepared(spec, st, env, server), to)
  {
    hide Reaches, ReconcilePlan.RollBack;
    var effects := DecidePrepared(spec, st, env, server);
    ReachesNothing(to);
    RollBackReachesNothing(spec, st, env, to);
    if effects != [] { ReachesHead(effects, to); }
    if |effects| > 1 && spec.recoveryPolicy == RecoveryPolicy.CommitDegraded {
      ReachesCons(effects[0], effects[1..], to);
      ReachesHead(effects[1..], to);
      assert effects == [effects[0]] + effects[1..];
    }
  }

  lemma RecoveryStays(spec: Spec, st: Status)
    requires st.phase == Stabilizing
    ensures !Reaches(DecideRecovered(spec, st), PreparingTarget)
  {
  }

  lemma DecisionAdvancesIff(spec: Spec, st: Status, env: Env, k: nat)
    requires k < 9 && st.phase == PIPELINE[k]
    ensures Reaches(Decide(spec, st, env), PIPELINE[k + 1]) <==> Ripe(spec, st, env)
  {
    hide Reaches, ReconcilePlan.DecideCandidate, ReconcilePlan.DecidePrepared, ReconcilePlan.DecideRecovered,
         NodeScoring.Better, NodeScoring.ServerOf, CandidateReady, PreparedRipe;
    var to, better, server := PIPELINE[k + 1], Better(Candidates(env.nodes), st.target), ServerOf(env.nodes, st.target);
    ReachesNothing(to);
    if HasBetter(st, env) {
      if k < 2 {
        CandidateReaches(spec, st, env, better.value);
      } else {
        CandidateStays(spec, st, env, better.value, k);
      }
    } else if k == 1 && better.None? && st.candidateSince.Some? {
      RecoveryStays(spec, st);
    } else if server.Some? {
      if k < 2 {
        EarlyStays(spec, st, env, server.value, to);
      } else {
        PreparedReaches(spec, st, env, server.value, k);
      }
    }
  }

  // A run that gets past its reads advances the pipeline if and only if the transition is ripe.
  lemma RunAdvancesIff(spec: Spec, st: Status, env: Env, k: nat)
    requires Entered(Context(spec, st, env)) && k < 9 && st.phase == PIPELINE[k]
    ensures Reaches(Plan(spec, st, env), PIPELINE[k + 1]) <==> Ripe(spec, Refreshed(st, env), env)
  {
    hide Reaches, Ripe, ReconcilePlan.Decide;
    var seen := Refreshed(st, env);
    DecisionAdvancesIff(spec, seen, env, k);
    if Observed(st, env) != st {
      ReachesCons(Patch(OwnerObserved, st, Observed(st, env)), Decide(spec, seen, env), PIPELINE[k + 1]);
    }
  }
}
