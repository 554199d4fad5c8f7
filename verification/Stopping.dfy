/**
 Why a transition stops: everything that can take a stored status into Degraded or Blocked, in any run.
*/
module Stopping {
  import opened Prelude
  import opened Api
  import opened NodeScoring
  import opened Policy
  import opened ReconcilePlan
  import opened EffectLaw
  import opened System
  import opened Consequences
  import opened CleanupBudget
  import opened OwnFence
  import Backoff
  import ProbeChecks

  predicate DegradesBecause(c: Context, a: Status, reason: Reason, b: Status) {
    || reason == CleanupTimeout
    || (reason == HoldsDualOwnership && Follows(c, RecoveryPolicy.HoldDualOwnership))
    || (Restores(reason) && EndsRollback(c, a, b))
  }

  predicate BlocksBecause(c: Context, a: Status, reason: Reason) {
    || (reason == InvalidSpec && !ValidSpec(c.spec))
    || (reason == InvalidStatus && !ValidStatus(c.start))
    || (reason == ProviderOwnershipChanged && !Fenced(c))
    || (reason == ManualStop && Follows(c, RecoveryPolicy.ManualIntervention))
    || ((reason == RollbackUnavailable || reason == RollbackFailed) && Follows(c, RecoveryPolicy.RollbackProvider))
    || (reason == UnexpectedPhase && TrafficAccepted(c) && !Expected(a.phase))
  }

  predicate Explained(c: Context, a: Status, reason: Reason, b: Status) {
    && (b.phase == Degraded && a.phase != Degraded ==> DegradesBecause(c, a, reason, b))
    && (b.phase == Blocked && a.phase != Blocked ==> BlocksBecause(c, a, reason))
  }

  lemma EarlyIsExplained(c: Context, a: Status, reason: Reason, b: Status)
    requires LawfulEntry(c, a, reason, b) || LawfulSelection(c, a, reason, b) || LawfulRouting(c, a, reason, b)
    ensures Explained(c, a, reason, b)
  {
    hide NodeScoring.JustifiedMove, EffectLaw.SawBetter, EffectLaw.Known;
  }

  lemma LateIsExplained(c: Context, a: Status, reason: Reason, read: seq<string>, b: Status)
    requires || (!c.env.postRoute && LawfulRecovery(c, a, reason, b))
             || (TrafficAccepted(c) && LawfulSettling(c, a, reason, read, b))
             || LawfulOutcome(c, a, reason, b)
    ensures Explained(c, a, reason, b)
  {
    hide Backoff.CleanupDelay;
  }

  lemma EffectIsExplained(c: Context, stage: Stage, a: Status, e: Effect)
    requires Lawful(c, stage, a, e) && e.Patch?
    ensures Explained(c, Core(a), e.reason, Core(After(a, e)))
  {
    hide EffectLaw.LawfulEntry, EffectLaw.LawfulSelection, EffectLaw.LawfulRouting, EffectLaw.LawfulRecovery,
         EffectLaw.LawfulSettling, EffectLaw.LawfulOutcome, EffectLaw.Entered, EffectLaw.Arrived, Api.MergePatch,
         DegradesBecause, BlocksBecause, EffectLaw.TrafficAccepted;
    var x, y := Core(a), Core(After(a, e));
    if LawfulEntry(c, x, e.reason, y) || LawfulSelection(c, x, e.reason, y) || LawfulRouting(c, x, e.reason, y) {
      EarlyIsExplained(c, x, e.reason, y);
    } else if (|| (!c.env.postRoute && LawfulRecovery(c, x, e.reason, y))
               || (TrafficAccepted(c) && LawfulSettling(c, x, e.reason, e.base.localOwners, y))
               || LawfulOutcome(c, x, e.reason, y)) {
      LateIsExplained(c, x, e.reason, e.base.localOwners, y);
    }
  }

  // In every reachable world, whoever moves the provider: a transition degrades only when cleanup has spent its
  // budget, or when the post-route probes fail and the policy is to hold or a rollback is on record as done.
  lemma DegradationIsExplained(site: Site, w0: World, ls: seq<Label>)
    requires Fresh(w0) && Valid(site, w0, ls + [Perform])
    requires Exec(site, w0, ls).status.phase != Degraded && Exec(site, w0, ls + [Perform]).status.phase == Degraded
    ensures var w, v := Exec(site, w0, ls), Exec(site, w0, ls + [Perform]);
            var failed := !ProbeChecks.Passes(site.spec.probeComposition, site.spec.probeQuorum,
                                              w.run.c.env.postRouteProbes, ProbeChecks.PostRoute);
            || |Checks(site, w0, ls + [Perform])| == CleanupMaxAttempts(site.spec)
            || (failed && (site.spec.recoveryPolicy == RecoveryPolicy.Unspecified
                           || site.spec.recoveryPolicy == RecoveryPolicy.HoldDualOwnership))
            || (&& failed && site.spec.recoveryPolicy == RecoveryPolicy.RollbackProvider
                && v.status.source in site.servers && v.status.observed == Some(site.servers[v.status.source]))
  {
    var w := StoppingEffect(site, w0, ls);
    hide EffectLaw.Chain, EffectLaw.After, EffectLaw.Lawful, Api.MergePatch, ProbeChecks.Passes;
    var c, e := w.run.c, w.run.rest[0];
    if e.reason == CleanupTimeout {
      TimeoutSpendsTheBudget(site, w0, ls);
    } else if ServerOf(c.env.nodes, w.status.source).Some? {
      ServerOfSite(site, c.env.nodes, w.status.source);
    }
  }

  // And it blocks only for an invalid spec or status, an owner that the fence refuses, which without outside moves
  // takes a lost rollback or a target that has lost its annotation, failed post-route probes
  // under a policy that stops or could not roll back, or a phase that the end of a run does not know.
  lemma BlockingIsExplained(site: Site, w0: World, ls: seq<Label>)
    requires Fresh(w0) && Valid(site, w0, ls + [Perform])
    requires Exec(site, w0, ls).status.phase != Blocked && Exec(site, w0, ls + [Perform]).status.phase == Blocked
    ensures var w := Exec(site, w0, ls);
            var c := w.run.c;
            var failed := !ProbeChecks.Passes(site.spec.probeComposition, site.spec.probeQuorum,
                                              c.env.postRouteProbes, ProbeChecks.PostRoute);
            || !ValidSpec(site.spec) || !ValidStatus(c.start)
            || (!Fenced(c) && (NoMoves(ls) && Annotated(c.env.nodes, c.start.target) ==> RollbackLost(site, w0, ls)))
            || (failed && (site.spec.recoveryPolicy == RecoveryPolicy.ManualIntervention
                           || site.spec.recoveryPolicy == RecoveryPolicy.RollbackProvider))
            || ((!failed || site.spec.recoveryPolicy == RecoveryPolicy.CommitDegraded) && !Expected(w.status.phase))
  {
    var w := StoppingEffect(site, w0, ls);
    hide EffectLaw.Chain, EffectLaw.After, EffectLaw.Lawful, Api.MergePatch, ProbeChecks.Passes, EffectLaw.Fenced;
    if w.run.rest[0].reason == ProviderOwnershipChanged && NoMoves(ls) { AlwaysInStep(site, w0, ls); }
  }

  lemma StoppingEffect(site: Site, w0: World, ls: seq<Label>) returns (w: World)
    requires Fresh(w0) && Valid(site, w0, ls + [Perform])
    requires Exec(site, w0, ls).status.phase != Exec(site, w0, ls + [Perform]).status.phase
    ensures w == Exec(site, w0, ls) && w.run.Running? && w.run.rest != [] && w.run.rest[0].Patch?
    ensures Exec(site, w0, ls + [Perform]) == Performed(w, w.run.rest[0])
    ensures w.run.stage == Routed ==> FollowsRoute(w.run.rest[0])
    ensures w.run.c.spec == site.spec && Judged(site.spec, w.run.c.env) && Consistent(site, w.run.c.env.nodes)
    ensures var a, b := Core(w.status), Core(Performed(w, w.run.rest[0]).status);
            && Explained(w.run.c, a, w.run.rest[0].reason, b)
            && a.phase == w.status.phase && b.phase == Performed(w, w.run.rest[0]).status.phase
            && a.source == w.status.source && b.source == Performed(w, w.run.rest[0]).status.source
            && b.observed == Performed(w, w.run.rest[0]).status.observed
  {
    hide EffectLaw.Chain, EffectLaw.Lawful, Api.MergePatch, Explained, System.Judged, System.Consistent;
    w := Exec(site, w0, ls);
    var all := ls + [Perform];
    assert all[..|all| - 1] == ls;
    RunsAreLawful(site, w0, ls);
    RunsAreJudged(site, w0, ls);
    NextEffectIsLawful(site, w);
    assert w.run.rest[0].Patch?;
    EffectIsExplained(w.run.c, w.run.stage, w.status, w.run.rest[0]);
  }
}
