/**
 Fail-safe phases: a stored phase changes only along the table or into Blocked or Degraded, and a status
 whose source and target are one node, outside the phases that allow it, never calls the provider again.
 A commit makes them one node; so another handoff follows a Succeeded transition only if they differ again.
*/
module FailSafe {
  import opened Prelude
  import opened Api
  import opened NodeScoring
  import opened ReconcilePlan
  import opened EffectLaw
  import opened System
  import opened Consequences
  import opened Progress

  lemma PhaseChangesAreFailSafe(site: Site, w0: World, ls: seq<Label>, l: Label)
    requires Fresh(w0) && Valid(site, w0, ls) && Enabled(site, Exec(site, w0, ls), l)
    ensures var a, b := Exec(site, w0, ls).status, Next(site, Exec(site, w0, ls), l).status;
            || b.phase == a.phase || CanTransition(a.phase, b.phase) || b.phase == Blocked || b.phase == Degraded
            || (a.transitionId == "" && b.phase == Selecting)
  {
    hide EffectLaw.Chain, ReconcilePlan.Plan, Api.MergePatch;
    var w := Exec(site, w0, ls);
    RunsAreLawful(site, w0, ls);
    if l.Perform? {
      PerformLaw(site, w);
      hide Consequences.RolesStep, Consequences.StampStep, Consequences.ObservedStep, Consequences.CandidateStep,
           Consequences.CleanupStep;
      assert w.status.phase == Core(w.status).phase && w.status.transitionId == Core(w.status).transitionId;
    }
  }

  // One node is source and target, and the transition is over or not allowed to be so.
  predicate Retired(st: Status) {
    && st.transitionId != "" && st.target != "" && st.source == st.target && st.phase != Unset
    && (st.phase == Succeeded || !AllowsSameNode(st.phase))
  }

  // Effects that leave the provider alone.
  predicate Quiet(e: Effect) {
    e.Patch? && (|| e.reason == InvalidSpec || e.reason == InvalidStatus || e.reason == ProviderOwnershipChanged
                 || e.reason == OwnerObserved || e.reason == Reselected)
  }

  lemma RetiredPlansAreQuiet(spec: Spec, st: Status, env: Env)
    requires Retired(st)
    ensures forall e :: e in Plan(spec, st, env) ==> Quiet(e)
    ensures st.phase != Succeeded ==> forall e :: e in Plan(spec, st, env) ==>
              e.reason == InvalidSpec || e.reason == InvalidStatus
  {
    hide ReconcilePlan.DecideRecovered, ReconcilePlan.DecidePrepared, NodeScoring.Better;
  }

  lemma QuietLaw(c: Context, stage: Stage, a: Status, e: Effect)
    requires Lawful(c, stage, a, e) && Quiet(e) && Retired(a)
    ensures Retired(After(a, e)) && After(a, e).source == a.source
    ensures !(e.reason == OwnerObserved || e.reason == Reselected) ==> After(a, e).phase == Blocked
  {
    hide EffectLaw.LawfulRecovery, EffectLaw.LawfulSettling, EffectLaw.LawfulRouting, Api.MergePatch;
    QuietExcludes(c, Core(a), e.reason, e.base.localOwners, Core(After(a, e)));
    assert Core(After(a, e)).phase == After(a, e).phase && Core(After(a, e)).target == After(a, e).target;
  }

  lemma QuietExcludes(c: Context, a: Status, reason: Reason, read: seq<string>, b: Status)
    requires reason == InvalidSpec || reason == InvalidStatus || reason == ProviderOwnershipChanged
          || reason == OwnerObserved || reason == Reselected
    ensures !LawfulRecovery(c, a, reason, b) && !LawfulSettling(c, a, reason, read, b)
            && !LawfulRouting(c, a, reason, b)
  {
  }

  ghost predicate Silent(w: World, st0: Status) {
    && Retired(w.status) && w.status.target == st0.target
    && (st0.phase != Succeeded ==> w.status.phase == st0.phase || w.status.phase == Blocked)
    && (w.run.Running? ==> forall e :: e in w.run.rest ==>
          Quiet(e) && (st0.phase != Succeeded ==> e.reason == InvalidSpec || e.reason == InvalidStatus))
  }

  lemma SilentStep(site: Site, w: World, st0: Status, l: Label)
    requires Silent(w, st0) && LawfulRun(site, w) && Enabled(site, w, l)
    ensures Silent(Next(site, w, l), st0)
  {
    hide EffectLaw.Chain, EffectLaw.Lawful, ReconcilePlan.Plan;
    match l
    case Begin(env) => RetiredPlansAreQuiet(site.spec, w.status, env);
    case Perform =>
      NextEffectIsLawful(site, w);
      assert w.run.rest[0] in w.run.rest;
      QuietLaw(w.run.c, w.run.stage, w.status, w.run.rest[0]);
    case Agent(node, crash) =>
    case _ =>
  }

  // From a retired status, in every continuation, with outside moves and crashes: the roles stay, no run
  // ever calls the provider, and unless it was Succeeded the phase stays or becomes Blocked.
  lemma {:induction false} RetiredForEver(site: Site, w: World, ls: seq<Label>)
    requires Retired(w.status) && w.run == Resting && Valid(site, w, ls)
    ensures Silent(Exec(site, w, ls), w.status) && LawfulRun(site, Exec(site, w, ls))
    decreases |ls|
  {
    if ls != [] {
      var before := ls[..|ls| - 1];
      RetiredForEver(site, w, before);
      SilentStep(site, Exec(site, w, before), w.status, ls[|ls| - 1]);
      LawfulStep(site, Exec(site, w, before), ls[|ls| - 1]);
    }
  }

  // A Succeeded transition can be followed by another handoff exactly when its source and target differ: a run
  // that finds a better node selects anew, and what it stores is valid in one case and retired in the other.
  // A commit makes them one node; a retarget during cleanup makes them differ again.
  lemma SelectsAnewIff(spec: Spec, st: Status, env: Env)
    requires Entered(Context(spec, st, env)) && st.phase == Succeeded && st.target != ""
    ensures var effects := Plan(spec, st, env);
            var st' := Refreshed(st, env);
            if HasBetter(st', env) then
              var selected := Advance(st', Selecting).(candidateSince := None);
              && effects != [] && effects[|effects| - 1] == Patch(Reselected, st', selected)
              && (ValidStatus(selected) <==> st.source != st.target)
              && (Retired(selected) <==> st.source == st.target)
            else forall e :: e in effects ==> Has(e, OwnerObserved)
  {
    hide NodeScoring.Better, NodeScoring.Candidates, ReconcilePlan.DecidePrepared, ReconcilePlan.DecideRecovered;
    assert Observed(st, env).target == st.target && Observed(st, env).source == st.source;
  }

  lemma CommittedThenSucceededIsRetired(st: Status)
    requires st.transitionId != "" && st.target != "" && st.phase == Committing
    ensures Retired(Advance(Advance(st.(source := st.target), CleaningStaleOwners), Succeeded))
  {
  }
}
