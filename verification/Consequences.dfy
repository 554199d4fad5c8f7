/** What the law of effects says about each group of status fields. */
module Consequences {
  import opened Prelude
  import opened Api
  import opened NodeScoring
  import opened Policy
  import opened ReconcilePlan
  import opened EffectLaw
  import opened System
  import Backoff

  predicate IsRole(st: Status, n: string) { n == st.source || n == st.target }

  predicate Has(e: Effect, reason: Reason) { e.Patch? && e.reason == reason }

  predicate SameRoles(a: Status, b: Status) { b.source == a.source && b.target == a.target }

  // Roles change only by a retarget, by a commit, or by the adoption of the observed owner.
  predicate RolesStep(c: Context, a: Status, reason: Reason, b: Status) {
    if reason == WindowElapsed then b.source == a.target && b.target != "" && b.target != a.target
    else if reason == Committed then b.source == a.target == b.target && Arrived(c, a) && Entered(c)
    else if reason == OwnerObserved && b.target != a.target then
      && a.target == "" && b.source == a.source
      && NodeForServer(c.env.nodes, c.env.owner).Some?
      && NodeForServer(c.env.nodes, c.env.owner).value.name == b.target
    else SameRoles(a, b)
  }

  predicate PhaseStep(a: Status, reason: Reason, b: Status) {
    && (|| b.phase == a.phase || CanTransition(a.phase, b.phase) || b.phase == Blocked || b.phase == Degraded
        || (reason == TransitionStarted && a.transitionId == "" && b.phase == Selecting))
    && (BeforeTraffic(b.phase) && !BeforeTraffic(a.phase) ==>
          reason == WindowElapsed && a.phase == Stabilizing && b.phase == PreparingTarget)
    && (b.phase == Succeeded && a.phase != Succeeded ==> reason == SingleOwner)
  }

  predicate StampStep(c: Context, a: Status, reason: Reason, b: Status) {
    if reason == MutationEligible || reason == RollbackEligible then
      StampsAttempt(c, a, a.(lastAttempted := b.lastAttempted))
    else b.lastAttempted == a.lastAttempted
  }

  // The recorded provider owner changes to what the fence accepted, or to a confirmed route.
  predicate ObservedStep(c: Context, a: Status, reason: Reason, b: Status) {
    || b.observed == a.observed
    || (reason == OwnerObserved && a == Core(c.start) && Fenced(c) && b.observed == Some(c.env.owner))
    || (reason == ProviderOwnerConfirmed && b.observed.Some? && b.observed == ServerOf(c.env.nodes, a.target))
    || (&& (reason == RollbackSucceeded || reason == RollbackAlreadyConverged)
        && b.observed.Some? && b.observed == ServerOf(c.env.nodes, a.source))
  }

  predicate CandidateStep(c: Context, a: Status, reason: Reason, b: Status) {
    if reason == FailureSeen then
      && Entered(c) && SawBetter(c) && a.failureCount + 1 < FailureThreshold(c.spec)
      && b.failureCount == a.failureCount + 1 && b.candidateSince == a.candidateSince && b.phase == a.phase
    else if reason == CandidateSelected then
      && Entered(c) && SawBetter(c) && a.transitionId != "" && a.failureCount + 1 >= FailureThreshold(c.spec)
          && a.candidateSince.None?
      && b.failureCount == a.failureCount && b.candidateSince == Some(c.env.now) && b.phase != Selecting
    else if reason == WindowElapsed then
      && Entered(c) && SawBetter(c) && a.failureCount + 1 >= FailureThreshold(c.spec) && a.candidateSince.Some?
      && c.env.now >= a.candidateSince.value + HandoffWindow(c.spec)
      && JustifiedMove(c.env.nodes, a.target, b.target)
      && b.candidateSince.None? && (a.failureCount >= 0 ==> b.failureCount == 0) && b.phase != Stabilizing
    else
      && b.failureCount == (if reason == CandidateRecovered then 0 else a.failureCount)
      && (if b.phase == Selecting && a.phase != Selecting then
            b.candidateSince.None? || (reason == TransitionStarted && b.candidateSince == a.candidateSince)
          else b.candidateSince == a.candidateSince)
      && (b.phase == Stabilizing ==> a.phase == Stabilizing)
      && (reason == CandidateRecovered ==> b.candidateSince.None?)
  }

  predicate CleanupStep(c: Context, a: Status, reason: Reason, b: Status) {
    if reason == OwnersPending then
      && CleanupDue(c, a) && a.cleanupAttempts + 1 < CleanupMaxAttempts(c.spec) && b.phase == a.phase
      && b.cleanupAttempts == a.cleanupAttempts + 1
      && b.nextCleanup == Some(c.env.now + Backoff.CleanupDelay(c.spec, b.cleanupAttempts))
    else if reason == CleanupTimeout then
      && CleanupDue(c, a) && a.cleanupAttempts + 1 >= CleanupMaxAttempts(c.spec) && b.phase == Degraded
      && b.cleanupAttempts == a.cleanupAttempts + 1 && b.nextCleanup == a.nextCleanup
    else if reason == WindowElapsed then b.cleanupAttempts == 0 && b.nextCleanup.None?
    else
      && b.cleanupAttempts == a.cleanupAttempts && b.nextCleanup == a.nextCleanup
      && (reason == Committed ==> a.phase == Committing)
      && (b.phase == CleaningStaleOwners ==>
            a.phase == CleaningStaleOwners || (reason == Committed && a.phase == Committing))
  }

  // Everything the theorems need to know about one patch.
  predicate Step(c: Context, a: Status, reason: Reason, b: Status) {
    && RolesStep(c, a, reason, b) && PhaseStep(a, reason, b) && StampStep(c, a, reason, b)
    && ObservedStep(c, a, reason, b) && CandidateStep(c, a, reason, b) && CleanupStep(c, a, reason, b)
    && (if reason == TransitionStarted then a.transitionId == "" else b.transitionId == a.transitionId)
  }

  lemma EntryStep(c: Context, a: Status, reason: Reason, b: Status)
    requires LawfulEntry(c, a, reason, b)
    ensures Step(c, a, reason, b)
  {
  }

  lemma RetargetStep(c: Context, a: Status, b: Status)
    requires Retargets(c, a, b) && Entered(c)
    ensures Step(c, a, WindowElapsed, b)
  {
    hide NodeScoring.JustifiedMove, EffectLaw.SawBetter, EffectLaw.Entered;
  }

  lemma SightingStep(c: Context, a: Status, reason: Reason, b: Status)
    requires (reason == FailureSeen && CountsFailure(c, a, b))
             || (reason == CandidateSelected && SelectsCandidate(c, a, b))
    requires Entered(c)
    ensures Step(c, a, reason, b)
  {
    hide EffectLaw.SawBetter, EffectLaw.Entered;
  }

  lemma ObservationStep(c: Context, a: Status, b: Status)
    requires Observes(c, a, b) && Entered(c)
    ensures Step(c, a, OwnerObserved, b)
  {
    assert Fenced(c);
    hide EffectLaw.Entered, EffectLaw.Known, Policy.FenceAccepts;
  }

  lemma UndoStep(c: Context, a: Status, reason: Reason, b: Status)
    requires || (reason == RecoverySeen && CountsRecovery(c, a, b))
             || (reason == CandidateRecovered && Recovers(c, a, b))
             || (reason == Reselected && Reselects(a, b))
    ensures Step(c, a, reason, b)
  {
    hide EffectLaw.Arrived;
  }

  lemma SelectionStep(c: Context, a: Status, reason: Reason, b: Status)
    requires LawfulSelection(c, a, reason, b) && Entered(c)
    ensures Step(c, a, reason, b)
  {
    hide Step, EffectLaw.Retargets, EffectLaw.CountsFailure, EffectLaw.SelectsCandidate;
    if reason == WindowElapsed {
      RetargetStep(c, a, b);
    } else if reason == FailureSeen || reason == CandidateSelected {
      SightingStep(c, a, reason, b);
    } else if reason == OwnerObserved {
      ObservationStep(c, a, b);
    } else {
      UndoStep(c, a, reason, b);
    }
  }

  lemma RoutingStep(c: Context, a: Status, reason: Reason, b: Status)
    requires LawfulRouting(c, a, reason, b)
    ensures Step(c, a, reason, b)
  {
  }

  lemma RecoveryStep(c: Context, a: Status, reason: Reason, b: Status)
    requires LawfulRecovery(c, a, reason, b)
    ensures Step(c, a, reason, b)
  {
  }

  lemma CleanupCheckStep(c: Context, a: Status, reason: Reason, b: Status)
    requires (reason == OwnersPending && PostponesCleanup(c, a, b))
             || (reason == CleanupTimeout && GivesUpCleanup(c, a, b))
    ensures Step(c, a, reason, b)
  {
    hide Backoff.CleanupDelay;
  }

  lemma CommitStep(c: Context, a: Status, b: Status)
    requires Commits(a, b) && Arrived(c, a) && Entered(c)
    ensures Step(c, a, Committed, b)
  {
  }

  lemma AcceptedStep(c: Context, a: Status, reason: Reason, b: Status)
    requires || (reason == ProbeGatePassed && Advances(a, VerifyingTraffic, Committing, b))
             || (reason == SingleOwner && Advances(a, CleaningStaleOwners, Succeeded, b))
             || (reason == UnexpectedPhase && Blocks(a, b))
    ensures Step(c, a, reason, b)
  {
  }

  lemma SettlingStep(c: Context, a: Status, reason: Reason, read: seq<string>, b: Status)
    requires LawfulSettling(c, a, reason, read, b) && Arrived(c, a) && Entered(c)
    ensures Step(c, a, reason, b)
  {
    hide Step, EffectLaw.PostponesCleanup, EffectLaw.GivesUpCleanup, EffectLaw.Commits, EffectLaw.Arrived;
    if reason == OwnersPending || reason == CleanupTimeout {
      CleanupCheckStep(c, a, reason, b);
    } else if reason == Committed {
      CommitStep(c, a, b);
    } else {
      AcceptedStep(c, a, reason, b);
    }
  }

  lemma VerificationStep(c: Context, a: Status, reason: Reason, b: Status)
    requires || (reason == ProviderOwnerConfirmed && Advances(a, RoutingProvider, VerifyingProvider, b))
             || (reason == OwnerVerified && Advances(a, VerifyingProvider, VerifyingTraffic, b))
             || (reason == CommitsDegraded && b == a)
    ensures Step(c, a, reason, b)
  {
  }

  lemma OutcomeStep(c: Context, a: Status, reason: Reason, b: Status)
    requires LawfulOutcome(c, a, reason, b)
    ensures Step(c, a, reason, b)
  {
  }

  lemma PatchStep(c: Context, a: Status, reason: Reason, read: seq<string>, b: Status)
    requires LawfulPatch(c, a, reason, read, b)
    ensures Step(c, a, reason, b)
  {
    hide Step, EffectLaw.LawfulEntry, EffectLaw.LawfulSelection, EffectLaw.LawfulRouting, EffectLaw.LawfulRecovery,
         EffectLaw.LawfulSettling, EffectLaw.Entered, EffectLaw.Arrived;
    if LawfulEntry(c, a, reason, b) {
      EntryStep(c, a, reason, b);
    } else if LawfulSelection(c, a, reason, b) && Entered(c) {
      SelectionStep(c, a, reason, b);
    } else if LawfulRouting(c, a, reason, b) {
      RoutingStep(c, a, reason, b);
    } else if LawfulRecovery(c, a, reason, b) {
      RecoveryStep(c, a, reason, b);
    } else if LawfulSettling(c, a, reason, read, b) && Arrived(c, a) {
      SettlingStep(c, a, reason, read, b);
    } else {
      VerificationStep(c, a, reason, b);
    }
  }

  // The digest of the law for any effect of a run.
  lemma StepLaw(c: Context, stage: Stage, a: Status, e: Effect)
    requires Lawful(c, stage, a, e)
    ensures if e.Patch? then Step(c, Core(a), e.reason, Core(After(a, e))) else After(a, e) == a
  {
    hide Step, EffectLaw.LawfulPatch, EffectLaw.LawfulOutcome, Api.MergePatch;
    if e.Patch? {
      if stage == Routed {
        OutcomeStep(c, Core(a), e.reason, Core(After(a, e)));
      } else {
        PatchStep(c, Core(a), e.reason, e.base.localOwners, Core(After(a, e)));
      }
    }
  }

  // Only a retarget changes LocalOwners; what a rollback writes back is what is stored.
  lemma OwnersLaw(c: Context, stage: Stage, a: Status, e: Effect)
    requires Lawful(c, stage, a, e)
    requires e.Patch? && EndsCall(e.reason) ==> a.localOwners == c.env.ownersAfterStamp
    ensures var b := After(a, e);
            if Has(e, WindowElapsed) then b.localOwners == (if Known(c) == [] then a.localOwners else []) && Entered(c)
            else b.localOwners == a.localOwners
    ensures IsObservation(e) ==> Entered(c) && c.env.ownersAfterObserve == Known(c) && stage == Begun
  {
  }

  // The law for the effect that a world's run performs next.
  ghost predicate PerformFacts(w: World, v: World, c: Context, stage: Stage, e: Effect) {
    && (stage == Stamped <==> e.Route?)
    && (stage == Routed ==> FollowsRoute(e))
    && (Closing(e) ==> v.run == Resting)
    && (v.run.Running? ==> v.run.c == c && v.run.stage == NextStage(stage, e))
    && match e
       case Patch(reason, _, _) => Step(c, Core(w.status), reason, Core(v.status)) && v.owner == w.owner
       case Read(_) => v.status == w.status && v.owner == w.owner
       case Route(Forward, server, _) => v.status == w.status && LawfulForward(c, Core(w.status), server)
       case Route(Rollback, server, _) => v.status == w.status && LawfulRollback(c, Core(w.status), server)
  }

  lemma PerformLaw(site: Site, w: World)
    requires LawfulRun(site, w) && w.run.Running?
    ensures PerformFacts(w, Performed(w, w.run.rest[0]), w.run.c, w.run.stage, w.run.rest[0])
  {
    hide Step, EffectLaw.Lawful, EffectLaw.LawfulForward, EffectLaw.LawfulRollback, EffectLaw.After;
    NextEffectIsLawful(site, w);
    StepLaw(w.run.c, w.run.stage, w.status, w.run.rest[0]);
    CallLaw(w.run.c, w.run.stage, w.status, w.run.rest[0]);
  }

  lemma CallLaw(c: Context, stage: Stage, a: Status, e: Effect)
    requires Lawful(c, stage, a, e)
    ensures stage == Stamped <==> e.Route?
    ensures stage == Routed ==> FollowsRoute(e)
    ensures e.Route? && e.direction == Forward ==> LawfulForward(c, Core(a), e.server)
    ensures e.Route? && e.direction == Rollback ==> LawfulRollback(c, Core(a), e.server)
  {
    hide EffectLaw.LawfulPatch, EffectLaw.LawfulOutcome, EffectLaw.LawfulForward, EffectLaw.LawfulRollback,
         EffectLaw.FollowsRoute;
  }

  // Annotations seen by a run are those of the site.
  lemma ServerOfSite(site: Site, nodes: seq<Node>, name: string)
    requires Consistent(site, nodes) && ServerOf(nodes, name).Some?
    ensures name in site.servers && site.servers[name] == ServerOf(nodes, name).value && name != ""
  {
    var n := FindNode(nodes, name).value;
    assert n in nodes && n.annotation.Id?;
  }

  lemma OwnerNodeOfSite(site: Site, nodes: seq<Node>, server: int)
    requires Consistent(site, nodes) && NodeForServer(nodes, server).Some?
    ensures var n := NodeForServer(nodes, server).value.name;
            n in site.servers && site.servers[n] == server && n != ""
  {
    var n := NodeForServer(nodes, server).value;
    assert n in nodes && n.annotation.Id?;
  }
}
