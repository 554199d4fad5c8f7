/**
 Success certificate: Succeeded is entered only at the end of the whole pipeline of phases, by a run that
 found the provider on the target, exactly one reported owner, and accepted traffic.
*/
module SuccessCertificate {
  import opened Api
  import opened NodeScoring
  import opened ReconcilePlan
  import opened EffectLaw
  import opened System
  import opened Consequences
  import ProbeChecks

  const PIPELINE: seq<Phase> :=
    [Selecting, Stabilizing, PreparingTarget, TargetPrepared, RoutingProvider, VerifyingProvider,
     VerifyingTraffic, Committing, CleaningStaleOwners, Succeeded]

  predicate StepsAt(k: nat, from: Phase, to: Phase) { k < 9 && from == PIPELINE[k] && to == PIPELINE[k + 1] }

  ghost predicate IsStep(from: Phase, to: Phase) { exists k :: StepsAt(k, from, to) }

  lemma StepIsLegal(k: nat)
    requires k < 9
    ensures CanTransition(PIPELINE[k], PIPELINE[k + 1])
    ensures PIPELINE[k + 1] != Blocked && PIPELINE[k + 1] != Degraded && PIPELINE[k + 1] != Selecting
  {
    assert PIPELINE[k + 1] == [Stabilizing, PreparingTarget, TargetPrepared, RoutingProvider, VerifyingProvider,
                               VerifyingTraffic, Committing, CleaningStaleOwners, Succeeded][k];
  }

  lemma LegalIsStep(from: Phase, to: Phase)
    requires CanTransition(from, to) && to != Blocked && to != Degraded && to != Selecting
    ensures IsStep(from, to)
  {
    match to
    case Stabilizing => StepAt(from, to, 0);
    case PreparingTarget => StepAt(from, to, 1);
    case TargetPrepared => StepAt(from, to, 2);
    case RoutingProvider => StepAt(from, to, 3);
    case VerifyingProvider => StepAt(from, to, 4);
    case VerifyingTraffic => StepAt(from, to, 5);
    case Committing => StepAt(from, to, 6);
    case CleaningStaleOwners => StepAt(from, to, 7);
    case Succeeded => StepAt(from, to, 8);
  }

  lemma StepAt(from: Phase, to: Phase, k: nat)
    requires StepsAt(k, from, to)
    ensures IsStep(from, to)
  {
  }

  // Besides stopping and starting over, the table allows exactly the steps along the pipeline.
  lemma TableIsPipeline(from: Phase, to: Phase)
    ensures IsStep(from, to) <==> CanTransition(from, to) && to != Blocked && to != Degraded && to != Selecting
  {
    if k :| StepsAt(k, from, to) { StepIsLegal(k); }
    hide IsStep;
    if CanTransition(from, to) && to != Blocked && to != Degraded && to != Selecting { LegalIsStep(from, to); }
  }

  // The phases stored since Selecting was last entered.
  function Path(site: Site, w: World, ls: seq<Label>): seq<Phase>
    decreases |ls|
  {
    if ls == [] then []
    else
      var before := ls[..|ls| - 1];
      Extended(Path(site, w, before), Exec(site, w, before).status.phase, Exec(site, w, ls).status.phase)
  }

  function Extended(path: seq<Phase>, from: Phase, to: Phase): seq<Phase> {
    if to == from then path else if to == Selecting then [to] else path + [to]
  }

  ghost predicate OnPath(phase: Phase, path: seq<Phase>) {
    forall k :: 0 <= k < |PIPELINE| && phase == PIPELINE[k] ==> path == PIPELINE[..k + 1]
  }

  // Only Selecting may be entered from outside; every other pipeline phase comes from the one before.
  predicate LegalChange(from: Phase, to: Phase) {
    to == from || CanTransition(from, to) || to == Blocked || to == Degraded || to == Selecting
  }

  lemma PathExtends(path: seq<Phase>, from: Phase, to: Phase)
    requires OnPath(from, path) && LegalChange(from, to)
    ensures OnPath(to, Extended(path, from, to))
  {
    if to != from && to != Selecting {
      forall k | 0 <= k < |PIPELINE| && to == PIPELINE[k] ensures path + [to] == PIPELINE[..k + 1] {
        assert k > 0 && from == PIPELINE[k - 1];
        assert PIPELINE[..k + 1] == PIPELINE[..k] + [PIPELINE[k]];
      }
    }
  }

  lemma PhasesChangeLegally(site: Site, w: World, l: Label)
    requires LawfulRun(site, w) && Enabled(site, w, l)
    ensures LegalChange(w.status.phase, Next(site, w, l).status.phase)
  {
    hide EffectLaw.Chain, ReconcilePlan.Plan, Api.MergePatch;
    if l.Perform? {
      PerformLaw(site, w);
      hide Consequences.RolesStep, Consequences.StampStep, Consequences.ObservedStep, Consequences.CandidateStep,
           Consequences.CleanupStep;
      assert w.status.phase == Core(w.status).phase;
    }
  }

  lemma {:induction false} PathIsPipeline(site: Site, w0: World, ls: seq<Label>)
    requires Fresh(w0) && Valid(site, w0, ls)
    ensures OnPath(Exec(site, w0, ls).status.phase, Path(site, w0, ls))
    decreases |ls|
  {
    if ls != [] {
      var before := ls[..|ls| - 1];
      PathIsPipeline(site, w0, before);
      RunsAreLawful(site, w0, before);
      var w := Exec(site, w0, before);
      PhasesChangeLegally(site, w, ls[|ls| - 1]);
      PathExtends(Path(site, w0, before), w.status.phase, Exec(site, w0, ls).status.phase);
    }
  }

  lemma SingleOwnerSettles(c: Context, a: Status, read: seq<string>, b: Status)
    ensures !LawfulEntry(c, a, SingleOwner, b) && !LawfulSelection(c, a, SingleOwner, b)
    ensures !LawfulRouting(c, a, SingleOwner, b) && !LawfulRecovery(c, a, SingleOwner, b)
    ensures LawfulSettling(c, a, SingleOwner, read, b) ==> read == [a.target]
  {
  }

  lemma SingleOwnerLaw(c: Context, stage: Stage, a: Status, e: Effect)
    requires Lawful(c, stage, a, e) && Has(e, SingleOwner)
    ensures Arrived(c, Core(a)) && TrafficAccepted(c) && e.base.localOwners == [a.target]
  {
    hide EffectLaw.LawfulEntry, EffectLaw.LawfulSelection, EffectLaw.LawfulRouting, EffectLaw.LawfulRecovery,
         EffectLaw.LawfulSettling, EffectLaw.Arrived, EffectLaw.Entered, Api.MergePatch;
    SingleOwnerSettles(c, Core(a), e.base.localOwners, Core(After(a, e)));
  }

  lemma SuccessIsCertified(site: Site, w0: World, ls: seq<Label>)
    requires Fresh(w0) && Valid(site, w0, ls + [Perform])
    requires Exec(site, w0, ls).status.phase != Succeeded && Exec(site, w0, ls + [Perform]).status.phase == Succeeded
    ensures Path(site, w0, ls + [Perform]) == PIPELINE
    ensures var w := Exec(site, w0, ls);
            && w.run.Running? && w.run.rest != [] && w.run.rest[0].Patch?
            && w.run.rest[0].base.localOwners == [w.status.target]
            && w.status.target in site.servers && site.servers[w.status.target] == w.run.c.env.owner
            && (|| ProbeChecks.Passes(site.spec.probeComposition, site.spec.probeQuorum, w.run.c.env.postRouteProbes,
                ProbeChecks.PostRoute)
                || site.spec.recoveryPolicy == RecoveryPolicy.CommitDegraded)
  {
    hide EffectLaw.Chain, ReconcilePlan.Plan, Api.MergePatch;
    var all := ls + [Perform];
    assert all[..|all| - 1] == ls;
    var w := Exec(site, w0, ls);
    PathIsPipeline(site, w0, all);
    RunsAreJudged(site, w0, ls);
    hide ProbeChecks.Passes;
    assert PIPELINE[9] == Succeeded && PIPELINE[..10] == PIPELINE;
    RunsAreLawful(site, w0, ls);
    PerformLaw(site, w);
    hide Consequences.RolesStep, Consequences.StampStep, Consequences.ObservedStep, Consequences.CandidateStep,
         Consequences.CleanupStep, EffectLaw.Lawful;
    NextEffectIsLawful(site, w);
    assert w.run.rest[0].Patch? && Has(w.run.rest[0], SingleOwner);
    SingleOwnerLaw(w.run.c, w.run.stage, w.status, w.run.rest[0]);
    ServerOfSite(site, w.run.c.env.nodes, w.status.target);
  }
}
