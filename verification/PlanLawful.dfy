/** Every plan of a reconcile run obeys the law of effects, segment by segment. */
module PlanLawful {
  import opened Prelude
  import opened Api
  import opened NodeScoring
  import opened Policy
  import opened ReconcilePlan
  import opened EffectLaw
  import Backoff

  // `st` is the run's copy of the stored status `server`, right after the observation patch.
  predicate Copies(c: Context, server: Status, st: Status) {
    && Entered(c) && WellFormedNodes(c.env.nodes)
    && Core(server) == Core(st) == Core(Observed(c.start, c.env))
    && st.localOwners == Known(c)
  }

  // `st` is a later copy; only LocalOwners may have been refreshed.
  predicate Arrives(c: Context, server: Status, st: Status) {
    && Entered(c) && Core(server) == Core(st) && Arrived(c, Core(st))
    && !BeforeTraffic(st.phase) && st.phase != Succeeded && st.phase != Degraded
    && st.phase != Blocked && st.phase != Phase.Unknown
  }

  // ---- building chains ----

  lemma ChainEmpty(c: Context, stage: Stage, server: Status)
    ensures Chain(c, stage, server, [])
  {
  }

  lemma ChainEntry(c: Context, server: Status, e: Effect)
    requires e.Patch? && !IsObservation(e) && e.reason != WindowElapsed && e.updated.localOwners == e.base.localOwners
    requires LawfulEntry(c, Core(server), e.reason, Core(After(server, e)))
    ensures Chain(c, Open, server, [e])
  {
    ChainOne(c, Open, server, e);
  }

  lemma ChainSelection(c: Context, server: Status, e: Effect)
    requires e.Patch? && !IsObservation(e) && Entered(c)
    requires LawfulSelection(c, Core(server), e.reason, Core(After(server, e)))
    requires if e.reason == WindowElapsed then e.updated.localOwners == [] && e.base.localOwners == Known(c)
             else e.updated.localOwners == e.base.localOwners
    ensures Chain(c, Open, server, [e])
  {
    ChainOne(c, Open, server, e);
  }

  // A patch that leaves LocalOwners alone.
  predicate Plain(e: Effect) {
    && e.Patch? && !IsObservation(e) && e.reason != WindowElapsed && !EndsCall(e.reason)
    && e.updated.localOwners == e.base.localOwners
  }

  lemma ChainRouting(c: Context, server: Status, e: Effect)
    requires Plain(e) && Entered(c) && LawfulRouting(c, Core(server), e.reason, Core(After(server, e)))
    ensures Chain(c, Open, server, [e])
  {
    ChainOne(c, Open, server, e);
  }

  lemma ChainVerification(c: Context, server: Status, e: Effect)
    requires Plain(e) && Entered(c) && Arrived(c, Core(server))
    requires (e.reason == ProviderOwnerConfirmed
             && Advances(Core(server), RoutingProvider, VerifyingProvider, Core(After(server, e))))
          || (e.reason == OwnerVerified
              && Advances(Core(server), VerifyingProvider, VerifyingTraffic, Core(After(server, e))))
    ensures Chain(c, Open, server, [e])
  {
    ChainOne(c, Open, server, e);
  }

  lemma ChainRecovery(c: Context, server: Status, e: Effect)
    requires Plain(e) && Entered(c) && Arrived(c, Core(server)) && !c.env.postRoute
    requires Restores(e.reason) ==> After(server, e).observed == e.updated.observed
    requires LawfulRecovery(c, Core(server), e.reason, Core(After(server, e)))
    ensures Chain(c, Open, server, [e])
  {
    ChainOne(c, Open, server, e);
  }

  lemma ChainSettling(c: Context, server: Status, e: Effect)
    requires Plain(e) && Entered(c) && Arrived(c, Core(server)) && TrafficAccepted(c)
    requires LawfulSettling(c, Core(server), e.reason, e.base.localOwners, Core(After(server, e)))
    ensures Chain(c, Open, server, [e])
  {
    ChainOne(c, Open, server, e);
  }

  lemma ChainOutcome(c: Context, server: Status, e: Effect)
    requires Plain(e) || (e.Patch? && EndsCall(e.reason) && e.updated.localOwners == c.env.ownersAfterStamp)
    requires Restores(e.reason) ==> After(server, e).observed == e.updated.observed
    requires FollowsRoute(e) && LawfulOutcome(c, Core(server), e.reason, Core(After(server, e)))
    ensures Chain(c, Routed, server, [e])
  {
    ChainOne(c, Routed, server, e);
  }

  lemma ChainRead(c: Context, stage: Stage, st: Status, id: int, rest: seq<Effect>)
    requires stage != Stamped && stage != Begun && Chain(c, stage, st, rest)
    ensures Chain(c, stage, st, [Read(id)] + rest)
  {
    ChainCons(c, stage, st, Read(id), rest);
  }

  // A stamp, then the call it covers, then the outcome.
  lemma ChainForward(c: Context, server: Status, stamp: Effect, call: Effect, rest: seq<Effect>)
    requires Plain(stamp) && stamp.reason == MutationEligible && Entered(c)
    requires LawfulRouting(c, Core(server), MutationEligible, Core(After(server, stamp)))
    requires call.Route? && call.direction == Forward && LawfulForward(c, Core(After(server, stamp)), call.server)
    requires Chain(c, Routed, After(server, stamp), rest)
    ensures Chain(c, Open, server, [stamp] + ([call] + rest))
  {
    ChainCons(c, Stamped, After(server, stamp), call, rest);
    ChainCons(c, Open, server, stamp, [call] + rest);
  }

  lemma ChainRollback(c: Context, server: Status, stamp: Effect, call: Effect, rest: seq<Effect>)
    requires Plain(stamp) && stamp.reason == RollbackEligible && Entered(c) && Arrived(c, Core(server))
             && !c.env.postRoute
    requires LawfulRecovery(c, Core(server), RollbackEligible, Core(After(server, stamp)))
    requires call.Route? && call.direction == Rollback && LawfulRollback(c, Core(After(server, stamp)), call.server)
    requires Chain(c, Routed, After(server, stamp), rest)
    ensures Chain(c, Open, server, [stamp] + ([call] + rest))
  {
    ChainCons(c, Stamped, After(server, stamp), call, rest);
    ChainCons(c, Open, server, stamp, [call] + rest);
  }

  // ---- selection ----

  lemma LawfulRecoverySeen(c: Context, server: Status, st: Status)
    requires Copies(c, server, st) && st.phase == Stabilizing && st.candidateSince.Some?
    requires st.recoveryCount + 1 < RecoveryThreshold(c.spec)
    ensures Chain(c, Open, server, [Patch(RecoverySeen, st, st.(recoveryCount := st.recoveryCount + 1))])
  {
    hide EffectLaw.Chain, Api.MergePatch, EffectLaw.Entered, EffectLaw.Known, EffectLaw.Arrived;
    MergeCopy(server, st, st.(recoveryCount := st.recoveryCount + 1));
    ChainSelection(c, server, Patch(RecoverySeen, st, st.(recoveryCount := st.recoveryCount + 1)));
  }

  lemma LawfulCandidateRecovered(c: Context, server: Status, st: Status)
    requires Copies(c, server, st) && st.phase == Stabilizing && st.candidateSince.Some?
    requires st.recoveryCount + 1 >= RecoveryThreshold(c.spec)
    ensures Chain(c, Open, server,
              [Patch(CandidateRecovered, st.(recoveryCount := st.recoveryCount + 1),
                     st.(phase := Selecting, candidateSince := None, failureCount := 0, recoveryCount := 0))])
  {
    hide EffectLaw.Chain, EffectLaw.Entered, EffectLaw.Known, EffectLaw.Arrived;
    ChainSelection(c, server,
      Patch(CandidateRecovered, st.(recoveryCount := st.recoveryCount + 1),
            st.(phase := Selecting, candidateSince := None, failureCount := 0, recoveryCount := 0)));
  }

  lemma LawfulRecovered(c: Context, server: Status, st: Status)
    requires Copies(c, server, st) && st.phase == Stabilizing && st.candidateSince.Some?
    ensures Chain(c, Open, server, DecideRecovered(c.spec, st))
  {
    hide EffectLaw.Chain;
    if st.recoveryCount + 1 < RecoveryThreshold(c.spec) {
      LawfulRecoverySeen(c, server, st);
    } else {
      LawfulCandidateRecovered(c, server, st);
    }
  }

  lemma LawfulWindowElapsed(c: Context, server: Status, st: Status, better: Node)
    requires Copies(c, server, st) && st.phase != Succeeded && SawBetter(c)
    requires Better(Candidates(c.env.nodes), st.target) == Some(better) && better.name != st.target
    requires st.failureCount + 1 >= FailureThreshold(c.spec) && CandidateReady(c.spec, st, better, c.env.now)
    ensures var counted := st.(failureCount := st.failureCount + 1);
            Chain(c, Open, server, [Patch(WindowElapsed, counted, Retargeted(counted, better.name))])
  {
    hide EffectLaw.Chain;
    var counted := st.(failureCount := st.failureCount + 1);
    CandidatesAre(c.env.nodes);
    assert better in c.env.nodes && better.name != "";
    AcceptableBetterIsJustified(c.env.nodes, st.target);
    ChainSelection(c, server, Patch(WindowElapsed, counted, Retargeted(counted, better.name)));
  }

  lemma LawfulFirstSightings(c: Context, server: Status, st: Status)
    requires Copies(c, server, st) && SawBetter(c)
    ensures st.phase == Succeeded ==>
              Chain(c, Open, server, [Patch(Reselected, st, st.(phase := Selecting, candidateSince := None))])
    ensures st.phase != Succeeded && st.failureCount + 1 < FailureThreshold(c.spec) ==>
              Chain(c, Open, server, [Patch(FailureSeen, st, st.(failureCount := st.failureCount + 1))])
  {
    hide EffectLaw.Chain, Api.MergePatch, EffectLaw.Entered, EffectLaw.Known, EffectLaw.Arrived;
    if st.phase == Succeeded {
      var updated := st.(phase := Selecting, candidateSince := None);
      MergeCopy(server, st, updated);
      ChainSelection(c, server, Patch(Reselected, st, updated));
    } else if st.failureCount + 1 < FailureThreshold(c.spec) {
      var updated := st.(failureCount := st.failureCount + 1);
      MergeCopy(server, st, updated);
      ChainSelection(c, server, Patch(FailureSeen, st, updated));
    }
  }

  lemma LawfulCandidateSelected(c: Context, server: Status, st: Status)
    requires Copies(c, server, st) && SawBetter(c) && st.phase != Succeeded
    requires st.failureCount + 1 >= FailureThreshold(c.spec) && st.candidateSince.None?
    ensures var counted := st.(failureCount := st.failureCount + 1);
            var since := counted.(candidateSince := Some(c.env.now));
            Chain(c, Open, server, [Patch(CandidateSelected, counted,
              if st.phase == Selecting then since.(phase := Stabilizing) else since)])
  {
    assert Core(server).transitionId != "";
    hide EffectLaw.Chain, EffectLaw.Entered, EffectLaw.Known, EffectLaw.Arrived;
    var counted := st.(failureCount := st.failureCount + 1);
    var since := counted.(candidateSince := Some(c.env.now));
    ChainSelection(c, server, Patch(CandidateSelected, counted,
                                    if st.phase == Selecting then since.(phase := Stabilizing) else since));
  }

  lemma LawfulLateSighting(c: Context, server: Status, st: Status, better: Node)
    requires Copies(c, server, st) && SawBetter(c) && st.phase != Succeeded && st.phase != Degraded
    requires Better(Candidates(c.env.nodes), st.target) == Some(better) && better.name != st.target
    requires st.failureCount + 1 >= FailureThreshold(c.spec)
    ensures Chain(c, Open, server, DecideCandidate(c.spec, st, c.env, better))
  {
    hide EffectLaw.Chain, EffectLaw.Entered, EffectLaw.Known, NodeScoring.Better, ReconcilePlan.Retargeted,
         ReconcilePlan.CandidateReady;
    if st.candidateSince.None? {
      LawfulCandidateSelected(c, server, st);
    } else if CandidateReady(c.spec, st, better, c.env.now) {
      LawfulWindowElapsed(c, server, st, better);
    } else {
      ChainEmpty(c, Open, server);
    }
  }

  lemma LawfulEarlySighting(c: Context, server: Status, st: Status, better: Node)
    requires Copies(c, server, st) && SawBetter(c) && st.phase != Degraded
    requires st.phase == Succeeded || st.failureCount + 1 < FailureThreshold(c.spec)
    ensures Chain(c, Open, server, DecideCandidate(c.spec, st, c.env, better))
  {
    hide EffectLaw.Chain, EffectLaw.Entered, EffectLaw.Known, ReconcilePlan.Retargeted, ReconcilePlan.CandidateReady;
    LawfulFirstSightings(c, server, st);
  }

  lemma LawfulCandidate(c: Context, server: Status, st: Status, better: Node)
    requires Copies(c, server, st)
    requires Better(Candidates(c.env.nodes), st.target) == Some(better) && better.name != st.target
    ensures Chain(c, Open, server, DecideCandidate(c.spec, st, c.env, better))
  {
    hide EffectLaw.Chain, ReconcilePlan.DecideCandidate;
    if st.phase == Succeeded || st.failureCount + 1 < FailureThreshold(c.spec) {
      LawfulEarlySighting(c, server, st, better);
    } else {
      LawfulLateSighting(c, server, st, better);
    }
  }

  // ---- routing ----

  lemma LawfulConfirmation(c: Context, server: Status, st: Status, id: int)
    requires Core(server) == Core(st) && st.phase == RoutingProvider && ServerOf(c.env.nodes, st.target) == Some(id)
    ensures Chain(c, Routed, server,
              [Read(id)] + [Patch(ProviderOwnerConfirmed, st, st.(observed := Some(id), phase := VerifyingProvider))])
  {
    hide EffectLaw.Chain, Api.MergePatch;
    var updated := st.(observed := Some(id), phase := VerifyingProvider);
    MergeCopy(server, st, updated);
    ChainOutcome(c, server, Patch(ProviderOwnerConfirmed, st, updated));
    ChainRead(c, Routed, server, id, [Patch(ProviderOwnerConfirmed, st, updated)]);
  }

  lemma LawfulAfterRoute(c: Context, server: Status, st: Status, id: int)
    requires Core(server) == Core(st) && st.phase == RoutingProvider && ServerOf(c.env.nodes, st.target) == Some(id)
    ensures Chain(c, Routed, server, AfterRoute(st, c.env, id))
  {
    hide EffectLaw.Chain, Api.MergePatch, ReconcilePlan.Converges;
    if !c.env.routeOk {
      var updated := st.(retryCount := st.retryCount + 1);
      MergeCopy(server, st, updated);
      ChainOutcome(c, server, Patch(RouteFailed, st, updated));
    } else if Converges(c.env.verifyReads, id, VERIFY_ATTEMPTS) {
      LawfulConfirmation(c, server, st, id);
    } else {
      ChainEmpty(c, Routed, server);
    }
  }

  lemma LawfulCall(c: Context, server: Status, st: Status, id: int)
    requires Copies(c, server, st) && st.phase == RoutingProvider && c.env.preRoute
    requires st.target != "" && st.target in st.localOwners
    requires ServerOf(c.env.nodes, st.target) == Some(id) && c.env.owner != id
    requires MutationAllowed(st.lastAttempted, Cooldown(c.spec), c.env.now)
    ensures var stamp := Patch(MutationEligible, st, st.(lastAttempted := Some(c.env.now)));
            && Core(After(server, stamp)) == Core(stamp.updated)
            && LawfulRouting(c, Core(server), MutationEligible, Core(After(server, stamp)))
            && LawfulForward(c, Core(After(server, stamp)), id)
  {
    hide EffectLaw.Entered, EffectLaw.Known, Api.MergePatch;
    MergeCopy(server, st, st.(lastAttempted := Some(c.env.now)));
  }

  lemma LawfulRoute(c: Context, server: Status, st: Status, id: int)
    requires Copies(c, server, st) && st.phase == RoutingProvider && c.env.preRoute
    requires st.target != "" && st.target in st.localOwners
    requires ServerOf(c.env.nodes, st.target) == Some(id) && c.env.owner != id
    ensures Chain(c, Open, server, DecideRoute(c.spec, st, c.env, id))
  {
    hide EffectLaw.Chain, ReconcilePlan.AfterRoute, EffectLaw.LawfulForward, EffectLaw.Entered;
    if !MutationAllowed(st.lastAttempted, Cooldown(c.spec), c.env.now) {
      ChainRouting(c, server, Patch(ProviderCooldown, st, st));
    } else {
      hide EffectLaw.LawfulRouting, EffectLaw.After;
      var stamped := st.(lastAttempted := Some(c.env.now));
      var stamp := Patch(MutationEligible, st, stamped);
      LawfulCall(c, server, st, id);
      LawfulAfterRoute(c, After(server, stamp), stamped, id);
      ChainForward(c, server, stamp, Route(Forward, id, c.env.routeApplied), AfterRoute(stamped, c.env, id));
    }
  }

  // ---- settling ----

  lemma LawfulTimeout(c: Context, server: Status, st: Status)
    requires Arrives(c, server, st) && TrafficAccepted(c) && CleanupDue(c, Core(st))
    requires st.cleanupAttempts + 1 >= CleanupMaxAttempts(c.spec)
    ensures Chain(c, Open, server,
              [Patch(CleanupTimeout, st, st.(cleanupAttempts := st.cleanupAttempts + 1, phase := Degraded))])
  {
    hide EffectLaw.Chain, Api.MergePatch, EffectLaw.Entered, EffectLaw.Known, EffectLaw.Arrived;
    var updated := st.(cleanupAttempts := st.cleanupAttempts + 1, phase := Degraded);
    MergeCopy(server, st, updated);
    ChainSettling(c, server, Patch(CleanupTimeout, st, updated));
  }

  lemma LawfulPending(c: Context, server: Status, st: Status, next: int)
    requires Arrives(c, server, st) && TrafficAccepted(c) && CleanupDue(c, Core(st))
    requires st.cleanupAttempts + 1 < CleanupMaxAttempts(c.spec)
    requires next == c.env.now + Backoff.CleanupDelay(c.spec, st.cleanupAttempts + 1)
    ensures Chain(c, Open, server,
              [Patch(OwnersPending, st, st.(cleanupAttempts := st.cleanupAttempts + 1, nextCleanup := Some(next)))])
  {
    hide EffectLaw.Chain, Api.MergePatch, Backoff.CleanupDelay, EffectLaw.Entered, EffectLaw.Known, EffectLaw.Arrived;
    var updated := st.(cleanupAttempts := st.cleanupAttempts + 1, nextCleanup := Some(next));
    MergeCopy(server, st, updated);
    ChainSettling(c, server, Patch(OwnersPending, st, updated));
  }

  lemma LawfulSingleOwner(c: Context, server: Status, st: Status)
    requires Arrives(c, server, st) && TrafficAccepted(c) && st.phase == CleaningStaleOwners
    requires |st.localOwners| == 1 && st.target in st.localOwners
    ensures Chain(c, Open, server, [Patch(SingleOwner, st, st.(phase := Succeeded))])
  {
    hide EffectLaw.Chain, Api.MergePatch, EffectLaw.Entered, EffectLaw.Known;
    assert st.localOwners == [st.target];
    MergeCopy(server, st, st.(phase := Succeeded));
    ChainSettling(c, server, Patch(SingleOwner, st, st.(phase := Succeeded)));
  }

  lemma LawfulFailedCheck(c: Context, server: Status, st: Status)
    requires Arrives(c, server, st) && TrafficAccepted(c) && CleanupDue(c, Core(st))
    requires |st.localOwners| != 1 || st.target !in st.localOwners
    ensures Chain(c, Open, server, Cleanup(c.spec, st, c.env))
  {
    hide EffectLaw.Chain, Backoff.CleanupDelay, Api.MergePatch, EffectLaw.Entered, EffectLaw.Known, EffectLaw.Arrived;
    if st.cleanupAttempts + 1 >= CleanupMaxAttempts(c.spec) {
      LawfulTimeout(c, server, st);
    } else {
      LawfulPending(c, server, st, c.env.now + Backoff.CleanupDelay(c.spec, st.cleanupAttempts + 1));
    }
  }

  lemma LawfulCleanup(c: Context, server: Status, st: Status)
    requires Arrives(c, server, st) && TrafficAccepted(c) && st.phase == CleaningStaleOwners
    ensures Chain(c, Open, server, Cleanup(c.spec, st, c.env))
  {
    hide EffectLaw.Chain, Backoff.CleanupDelay, Api.MergePatch, EffectLaw.Entered, EffectLaw.Known, EffectLaw.Arrived;
    if st.nextCleanup.Some? && c.env.now < st.nextCleanup.value {
      ChainEmpty(c, Open, server);
    } else if |st.localOwners| == 1 && st.target in st.localOwners {
      LawfulSingleOwner(c, server, st);
    } else {
      LawfulFailedCheck(c, server, st);
    }
  }

  lemma LawfulSettle(c: Context, server: Status, st: Status)
    requires Arrives(c, server, st) && TrafficAccepted(c)
    ensures Chain(c, Open, server, Settle(c.spec, st, c.env))
  {
    hide EffectLaw.Chain, ReconcilePlan.Cleanup, Api.MergePatch, EffectLaw.Entered, EffectLaw.Known, EffectLaw.Arrived;
    if st.phase == VerifyingTraffic {
      MergeCopy(server, st, st.(phase := Committing));
      ChainSettling(c, server, Patch(ProbeGatePassed, st, st.(phase := Committing)));
    } else if st.phase == Committing {
      MergeCopy(server, st, st.(source := st.target, phase := CleaningStaleOwners));
      ChainSettling(c, server, Patch(Committed, st, st.(source := st.target, phase := CleaningStaleOwners)));
    } else if st.phase == CleaningStaleOwners {
      LawfulCleanup(c, server, st);
    } else {
      MergeCopy(server, st, st.(phase := Blocked));
      ChainSettling(c, server, Patch(UnexpectedPhase, st, st.(phase := Blocked)));
    }
  }

  // ---- recovery ----

  lemma LawfulAfterRollback(c: Context, server: Status, base: Status, st: Status, id: int)
    requires Core(server) == Core(st)
             && st == base.(lastAttempted := Some(c.env.now), localOwners := c.env.ownersAfterStamp)
    requires ServerOf(c.env.nodes, st.source) == Some(id) && Follows(c, RecoveryPolicy.RollbackProvider)
    ensures Chain(c, Routed, server, AfterRollback(base, st, c.env, id))
  {
    hide EffectLaw.Chain;
    var effects := AfterRollback(base, st, c.env, id);
    if effects[0].Patch? {
      ChainOutcome(c, server, effects[0]);
    } else {
      ChainOutcome(c, server, effects[1]);
      ChainRead(c, Routed, server, effects[0].server, [effects[1]]);
    }
  }

  lemma LawfulRollbackCall(c: Context, server: Status, st: Status, id: int)
    requires Arrives(c, server, st) && !c.env.postRoute && c.spec.recoveryPolicy == RecoveryPolicy.RollbackProvider
    requires st.source != "" && ServerOf(c.env.nodes, st.source) == Some(id)
    requires c.env.recoveryRead.Some? && c.env.recoveryRead != Some(id)
    requires FenceAccepts(st.observed, c.env.recoveryRead.value, Some(id))
    requires MutationAllowed(st.lastAttempted, Cooldown(c.spec), c.env.now)
    ensures var stamped := st.(lastAttempted := Some(c.env.now));
            Chain(c, Open, server, [Patch(RollbackEligible, st, stamped)] +
              ([Route(Rollback, id, c.env.routeApplied)] +
               AfterRollback(st, stamped.(localOwners := c.env.ownersAfterStamp), c.env, id)))
  {
    hide EffectLaw.Chain, ReconcilePlan.AfterRollback;
    var stamped := st.(lastAttempted := Some(c.env.now));
    var stamp := Patch(RollbackEligible, st, stamped);
    MergeCopy(server, st, stamped);
    var refreshed := stamped.(localOwners := c.env.ownersAfterStamp);
    LawfulAfterRollback(c, After(server, stamp), st, refreshed, id);
    ChainRollback(c, server, stamp, Route(Rollback, id, c.env.routeApplied), AfterRollback(st, refreshed, c.env, id));
  }

  lemma LawfulUnavailable(c: Context, server: Status, st: Status)
    requires Arrives(c, server, st) && Follows(c, RecoveryPolicy.RollbackProvider)
    ensures Chain(c, Open, server, [Patch(RollbackUnavailable, st, st.(phase := Blocked))])
  {
    hide EffectLaw.Chain, EffectLaw.Entered, EffectLaw.Arrived;
    ChainRecovery(c, server, Patch(RollbackUnavailable, st, st.(phase := Blocked)));
  }

  // What a rollback does once it has read the provider.
  lemma LawfulRollbackAnswer(c: Context, server: Status, st: Status, id: int, seen: int)
    requires Arrives(c, server, st) && !c.env.postRoute && c.spec.recoveryPolicy == RecoveryPolicy.RollbackProvider
    requires ServerOf(c.env.nodes, st.source) == Some(id)
    ensures seen == id ==>
              Chain(c, Open, server,
                  [Patch(RollbackAlreadyConverged, st, st.(observed := Some(seen), phase := Degraded))])
    ensures Chain(c, Open, server, [Patch(RollbackDeferred, st, st)])
  {
    hide EffectLaw.Chain, EffectLaw.Entered, EffectLaw.Arrived;
    if seen == id {
      ChainRecovery(c, server, Patch(RollbackAlreadyConverged, st, st.(observed := Some(seen), phase := Degraded)));
    }
    ChainRecovery(c, server, Patch(RollbackDeferred, st, st));
  }

  lemma LawfulRollBack(c: Context, server: Status, st: Status)
    requires Arrives(c, server, st) && !c.env.postRoute && c.spec.recoveryPolicy == RecoveryPolicy.RollbackProvider
    ensures Chain(c, Open, server, RollBack(c.spec, st, c.env))
  {
    hide EffectLaw.Chain, ReconcilePlan.AfterRollback, Arrives;
    if st.source == "" || ServerOf(c.env.nodes, st.source).None? || c.env.recoveryRead.None? {
      LawfulUnavailable(c, server, st);
    } else {
      var id, seen := ServerOf(c.env.nodes, st.source).value, c.env.recoveryRead.value;
      var rest := RollBack(c.spec, st, c.env)[1..];
      LawfulUnavailable(c, server, st);
      LawfulRollbackAnswer(c, server, st, id, seen);
      if FenceAccepts(st.observed, seen, Some(id)) && seen != id
          && MutationAllowed(st.lastAttempted, Cooldown(c.spec), c.env.now) {
        LawfulRollbackCall(c, server, st, id);
      }
      ChainRead(c, Open, server, seen, rest);
    }
  }

  lemma LawfulCommitDegraded(c: Context, server: Status, st: Status)
    requires Arrives(c, server, st) && c.spec.recoveryPolicy == RecoveryPolicy.CommitDegraded
    ensures Chain(c, Open, server, [Patch(CommitsDegraded, st, st)] +
              Settle(c.spec, st.(localOwners := c.env.ownersAfterDegrade), c.env))
  {
    hide ReconcilePlan.Settle, EffectLaw.Entered, EffectLaw.Known, EffectLaw.Arrived;
    var noted := Patch(CommitsDegraded, st, st);
    MergeCopy(server, st, st);
    LawfulSettle(c, After(server, noted), st.(localOwners := c.env.ownersAfterDegrade));
    ChainCons(c, Open, server, noted, Settle(c.spec, st.(localOwners := c.env.ownersAfterDegrade), c.env));
  }

  lemma LawfulRecover(c: Context, server: Status, st: Status)
    requires Arrives(c, server, st) && !c.env.postRoute
    ensures Chain(c, Open, server, Recover(c.spec, st, c.env))
  {
    hide EffectLaw.Chain, ReconcilePlan.Settle, ReconcilePlan.RollBack, EffectLaw.Entered, EffectLaw.Known,
         EffectLaw.Arrived;
    match c.spec.recoveryPolicy
    case CommitDegraded => LawfulCommitDegraded(c, server, st);
    case RollbackProvider => LawfulRollBack(c, server, st);
    case _ => ChainRecovery(c, server, Recover(c.spec, st, c.env)[0]);
  }

  // ---- whole runs ----

  lemma LawfulPreparation(c: Context, server: Status, st: Status)
    requires Copies(c, server, st) && st.target in st.localOwners
    ensures st.phase == PreparingTarget ==>
              Chain(c, Open, server, [Patch(NodeReportedOwnership, st, st.(phase := TargetPrepared))])
    ensures Chain(c, Open, server, [Patch(PreRouteFailed, st, st)])
    ensures st.phase == TargetPrepared && c.env.preRoute ==>
              Chain(c, Open, server, [Patch(RouteReady, st, st.(phase := RoutingProvider))])
  {
    hide EffectLaw.Chain, EffectLaw.Entered, EffectLaw.Arrived;
    if st.phase == PreparingTarget {
      ChainRouting(c, server, Patch(NodeReportedOwnership, st, st.(phase := TargetPrepared)));
    }
    ChainRouting(c, server, Patch(PreRouteFailed, st, st));
    if st.phase == TargetPrepared && c.env.preRoute {
      ChainRouting(c, server, Patch(RouteReady, st, st.(phase := RoutingProvider)));
    }
  }

  lemma LawfulVerification(c: Context, server: Status, st: Status)
    requires Copies(c, server, st) && Arrived(c, Core(st))
    ensures st.phase == RoutingProvider ==>
              Chain(c, Open, server, [Patch(ProviderOwnerConfirmed, st, st.(phase := VerifyingProvider))])
    ensures st.phase == VerifyingProvider ==>
              Chain(c, Open, server, [Patch(OwnerVerified, st, st.(phase := VerifyingTraffic))])
  {
    hide EffectLaw.Chain, Api.MergePatch, EffectLaw.Entered, EffectLaw.Known, EffectLaw.Arrived;
    if st.phase == RoutingProvider {
      MergeCopy(server, st, st.(phase := VerifyingProvider));
      ChainVerification(c, server, Patch(ProviderOwnerConfirmed, st, st.(phase := VerifyingProvider)));
    } else if st.phase == VerifyingProvider {
      MergeCopy(server, st, st.(phase := VerifyingTraffic));
      ChainVerification(c, server, Patch(OwnerVerified, st, st.(phase := VerifyingTraffic)));
    }
  }

  lemma LawfulPrepared(c: Context, server: Status, st: Status, id: int)
    requires Copies(c, server, st) && st.target != "" && ServerOf(c.env.nodes, st.target) == Some(id)
    requires st.phase != Succeeded
    ensures Chain(c, Open, server, DecidePrepared(c.spec, st, c.env, id))
  {
    hide EffectLaw.Chain, ReconcilePlan.DecideRoute, ReconcilePlan.Settle, ReconcilePlan.Recover;
    ChainEmpty(c, Open, server);
    if st.target in st.localOwners {
      LawfulPreparation(c, server, st);
      if c.env.owner != id {
        if st.phase == RoutingProvider && c.env.preRoute { LawfulRoute(c, server, st, id); }
      } else {
        LawfulVerification(c, server, st);
        if !BeforeTraffic(st.phase) {
          if c.env.postRoute { LawfulSettle(c, server, st); } else { LawfulRecover(c, server, st); }
        }
      }
    }
  }

  lemma LawfulDecide(c: Context, server: Status, st: Status)
    requires Copies(c, server, st)
    ensures Chain(c, Open, server, Decide(c.spec, st, c.env))
  {
    hide EffectLaw.Chain, ReconcilePlan.DecideRecovered, ReconcilePlan.DecideCandidate, ReconcilePlan.DecidePrepared;
    ChainEmpty(c, Open, server);
    var better := Better(Candidates(c.env.nodes), st.target);
    if better.None? && st.phase == Stabilizing && st.candidateSince.Some? {
      LawfulRecovered(c, server, st);
    } else if better.Some? && better.value.name != st.target {
      LawfulCandidate(c, server, st, better.value);
    } else if st.target != "" && st.phase != Succeeded && ServerOf(c.env.nodes, st.target).Some? {
      LawfulPrepared(c, server, st, ServerOf(c.env.nodes, st.target).value);
    }
  }

  lemma LawfulObservation(c: Context)
    requires Entered(c) && WellFormedNodes(c.env.nodes) && Observed(c.start, c.env) != c.start
    ensures var seen := Observed(c.start, c.env);
            Chain(c, Begun, c.start, [Patch(OwnerObserved, c.start, seen)] +
              Decide(c.spec, seen.(localOwners := c.env.ownersAfterObserve), c.env))
  {
    hide ReconcilePlan.Decide;
    var seen := Observed(c.start, c.env);
    var observe := Patch(OwnerObserved, c.start, seen);
    var copy := seen.(localOwners := c.env.ownersAfterObserve);
    MergeCopy(c.start, c.start, seen);
    LawfulDecide(c, After(c.start, observe), copy);
    ChainCons(c, Begun, c.start, observe, Decide(c.spec, copy, c.env));
  }

  lemma LawfulRefusal(c: Context)
    requires !Entered(c)
    ensures Chain(c, Open, c.start, Plan(c.spec, c.start, c.env))
  {
    hide EffectLaw.Chain, ReconcilePlan.Decide, Api.MergePatch;
    var effects := Plan(c.spec, c.start, c.env);
    ChainEmpty(c, Open, c.start);
    if effects != [] {
      MergeCopy(c.start, c.start, effects[0].updated);
      ChainEntry(c, c.start, effects[0]);
    }
  }

  lemma PlanIsLawful(c: Context)
    requires WellFormedNodes(c.env.nodes)
    ensures Chain(c, Begun, c.start, Plan(c.spec, c.start, c.env))
  {
    hide EffectLaw.Chain, ReconcilePlan.Decide;
    if !Entered(c) {
      LawfulRefusal(c);
      ChainBegins(c, c.start, Plan(c.spec, c.start, c.env));
    } else if Observed(c.start, c.env) != c.start {
      LawfulObservation(c);
    } else {
      LawfulDecide(c, c.start, c.start);
      ChainBegins(c, c.start, Plan(c.spec, c.start, c.env));
    }
  }
}
