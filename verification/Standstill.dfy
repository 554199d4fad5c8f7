/**
 No unconditional progress: outside RoutingProvider nobody asks the provider to change, so a status that records
 another owner than its target's server waits for it to move by itself. A retarget past routing leads there, and so
 does a manual retry after a rollback. While the provider does not move, no run has any effect.
*/
module Standstill {
  import opened Prelude
  import opened Api
  import opened NodeScoring
  import opened ReconcilePlan
  import opened EffectLaw
  import opened System
  import opened Consequences
  import opened OwnerRetention
  import opened Scenario
  import opened Handoff
  import opened SourceHolds

  // Phases in which a run leaves a provider that points elsewhere alone.
  predicate WaitsForProvider(phase: Phase) {
    || phase == Selecting || phase == VerifyingProvider || phase == VerifyingTraffic || phase == Committing
    || phase == CleaningStaleOwners
  }

  // The provider points elsewhere, nobody will ask it to change, and the fence is content.
  ghost predicate Stranded(site: Site, w: World) {
    && ValidStatus(w.status) && WaitsForProvider(w.status.phase) && w.status.target != ""
    && !RoutedTo(site, w, w.status.target) && w.status.observed == Some(w.owner)
  }

  // Every run that looks finds no node better than the target.
  ghost predicate NothingBetter(ls: seq<Label>, target: string) {
    forall l :: l in ls && l.Begin? ==> Better(Candidates(l.env.nodes), target).None?
  }

  lemma StrandedPlanIsEmpty(site: Site, w: World, env: Env)
    requires Stranded(site, w) && ValidSpec(site.spec) && Enabled(site, w, Begin(env))
    requires Better(Candidates(env.nodes), w.status.target).None?
    ensures Plan(site.spec, w.status, env) == []
  {
    hide NodeScoring.Better, ReconcilePlan.DecideRecovered, ReconcilePlan.DecideCandidate, ReconcilePlan.DecideRoute,
         ReconcilePlan.Settle, ReconcilePlan.Recover;
    if ServerOf(env.nodes, w.status.target).Some? { ServerOfSite(site, env.nodes, w.status.target); }
  }

  // For ever: whatever agents, clock, crashes and restarts do.
  lemma {:induction false} StrandedForEver(site: Site, w: World, ls: seq<Label>)
    requires Stranded(site, w) && ValidSpec(site.spec) && w.run == Resting && Valid(site, w, ls)
    requires NoMoves(ls) && NothingBetter(ls, w.status.target)
    ensures var v := Exec(site, w, ls); Core(v.status) == Core(w.status) && v.owner == w.owner && v.run == Resting
    decreases |ls|
  {
    if ls != [] {
      var before, last := ls[..|ls| - 1], ls[|ls| - 1];
      assert last in ls && forall l :: l in before ==> l in ls;
      StrandedForEver(site, w, before);
      var u := Exec(site, w, before);
      StrandedCore(site, w, u);
      if last.Begin? { StrandedPlanIsEmpty(site, u, last.env); }
    }
  }

  lemma StrandedCore(site: Site, w: World, u: World)
    requires Stranded(site, w) && Core(u.status) == Core(w.status) && u.owner == w.owner
    ensures Stranded(site, u) && u.status.target == w.status.target
  {
    assert u.status == w.status.(localOwners := u.status.localOwners);
  }

  // A retarget in such a phase strands the transition exactly when the provider does not already point at the
  // new target.
  lemma RetargetStrandsIff(site: Site, w: World)
    requires LawfulRun(site, w) && AtRetarget(w)
    requires WaitsForProvider(w.status.phase) && ValidStatus(w.status) && w.status.observed == Some(w.owner)
    ensures var v := Performed(w, w.run.rest[0]);
            v.run == Resting && (Stranded(site, v) <==> !RoutedTo(site, w, v.status.target))
  {
    hide EffectLaw.Chain, Api.MergePatch;
    PerformLaw(site, w);
    NextEffectIsLawful(site, w);
    RetargetLaw(w.run.c, w.run.stage, w.status, w.run.rest[0]);
    hide Consequences.Step, EffectLaw.Lawful, EffectLaw.Retargets;
    var v := Performed(w, w.run.rest[0]);
    assert Core(v.status).phase == v.status.phase && Core(w.status).phase == w.status.phase;
  }

  lemma WindowElapsedSelects(c: Context, a: Status, read: seq<string>, b: Status)
    ensures !LawfulEntry(c, a, WindowElapsed, b) && !LawfulRouting(c, a, WindowElapsed, b)
    ensures !LawfulArrival(c, a, WindowElapsed, read, b)
    ensures LawfulSelection(c, a, WindowElapsed, b) ==> Retargets(c, a, b)
  {
    hide EffectLaw.Retargets;
  }

  lemma RetargetLaw(c: Context, stage: Stage, a: Status, e: Effect)
    requires Lawful(c, stage, a, e) && Has(e, WindowElapsed)
    ensures var b := After(a, e);
            && b.transitionId == a.transitionId && b.observed == a.observed && b.source == a.target
            && b.target != "" && b.target != b.source
            && b.phase == (if a.phase == Stabilizing then PreparingTarget else a.phase)
  {
    hide Api.MergePatch, EffectLaw.LawfulEntry, EffectLaw.LawfulRouting, EffectLaw.LawfulArrival,
         EffectLaw.LawfulSelection, EffectLaw.Entered, NodeScoring.JustifiedMove, EffectLaw.SawBetter;
    var x, y := Core(a), Core(After(a, e));
    WindowElapsedSelects(c, x, e.base.localOwners, y);
    assert Retargets(c, x, y);
    assert y == After(a, e).(localOwners := []) && x == a.(localOwners := []);
  }

  // ---- a reachable stranded world ----

  const DOUBTED: Status := VERIFIED.(candidateSince := Some(SECOND))
  const STRANDED: Status := VERIFIED.(source := "b", target := "c", localOwners := [])

  function Doubting(now: int): Env { EnvAt(now, true).(owner := 2) }

  lemma PlanToDoubt()
    ensures Plan(SPEC, VERIFIED, Doubting(SECOND)) ==
            [Patch(CandidateSelected, VERIFIED.(failureCount := 1), DOUBTED.(failureCount := 1))]
  {
    BetterIs(true);
    Lookups(true);
    hide NodeScoring.Better, NodeScoring.Candidates, NodeScoring.FindNode, NodeScoring.NodeForServer,
         NodeScoring.Acceptable, ReconcilePlan.DecidePrepared, ReconcilePlan.DecideRecovered;
  }

  lemma PlanToStrand()
    ensures Plan(SPEC, DOUBTED, Doubting(2 * SECOND)) == [Patch(WindowElapsed, DOUBTED.(failureCount := 1), STRANDED)]
  {
    BetterIs(true);
    Lookups(true);
    Scores("c", 3, false);
    hide NodeScoring.Better, NodeScoring.Candidates, NodeScoring.FindNode, NodeScoring.NodeForServer,
         NodeScoring.Acceptable, ReconcilePlan.DecidePrepared, ReconcilePlan.DecideRecovered;
  }

  lemma ReachDoubted()
    ensures Reachable(At(DOUBTED, {"a", "b"}, 2).(now := 2 * SECOND))
  {
    hide ReconcilePlan.Plan, Reachable;
    ReachVerified({"a"});
    assert {"a"} + {"b"} == {"a", "b"};
    PlanToDoubt();
    Readable(Doubting(SECOND), true);
    hide System.Consistent, System.Judged;
    ReachRun(At(VERIFIED, {"a", "b"}, 2), Doubting(SECOND),
             Patch(CandidateSelected, VERIFIED.(failureCount := 1), DOUBTED.(failureCount := 1)));
    Reach(At(DOUBTED, {"a", "b"}, 2), Tick(SECOND));
  }

  function Halted(): World { At(STRANDED, {"a", "b"}, 2).(now := 2 * SECOND) }

  lemma ReachStranded()
    ensures Reachable(Halted())
  {
    hide ReconcilePlan.Plan, Reachable;
    ReachDoubted();
    PlanToStrand();
    Readable(Doubting(2 * SECOND), true);
    hide System.Consistent, System.Judged;
    ReachRun(At(DOUBTED, {"a", "b"}, 2).(now := 2 * SECOND), Doubting(2 * SECOND),
             Patch(WindowElapsed, DOUBTED.(failureCount := 1), STRANDED));
  }

  // Node c is healthy and the target, the provider points at b, and nothing will ever change that.
  lemma StrandedIsReachable()
    ensures exists w ::
              && Reachable(w) && Stranded(SITE, w)
              && forall ls :: Valid(SITE, w, ls) && NoMoves(ls) && NothingBetter(ls, w.status.target) ==>
                  Exec(SITE, w, ls).owner == w.owner
  {
    hide Reachable;
    ReachStranded();
    var w := Halted();
    assert Reachable(w) && Stranded(SITE, w);
    forall ls | Valid(SITE, w, ls) && NoMoves(ls) && NothingBetter(ls, w.status.target)
      ensures Exec(SITE, w, ls).owner == w.owner
    {
      StrandedForEver(SITE, w, ls);
    }
  }

  // ---- the retry after a rollback ----

  const RETRIED: Status := ROLLED_BACK.(phase := Selecting, token := "retry")

  function Retrying(): Env { EnvAt(LATER, false).(token := "retry") }

  lemma PlanToRetry()
    ensures Plan(SPEC, ROLLED_BACK, Retrying()) == [Patch(ManualRetry, ROLLED_BACK, RETRIED)]
  {
    hide ReconcilePlan.Decide, NodeScoring.ServerOf;
  }

  lemma ReachRetried()
    ensures Reachable(World(RETRIED, {"b"}, 1, LATER, Resting))
  {
    hide Reachable, ReconcilePlan.Plan;
    ReachRolledBack();
    PlanToRetry();
    Readable(Retrying(), false);
    hide System.Consistent, System.Judged;
    ReachRun(World(ROLLED_BACK, {"b"}, 1, LATER, Resting), Retrying(), Patch(ManualRetry, ROLLED_BACK, RETRIED));
  }

  // After a completed rollback and the manual retry that the operator is asked for, the target is still the best
  // node, and the provider stays at the source for ever.
  lemma RetryAfterRollbackStrands()
    ensures exists w ::
              && Reachable(w) && Stranded(SITE, w) && w.status.phase == Selecting && RoutedTo(SITE, w, w.status.source)
              && Better(Candidates(Nodes(false)), w.status.target).None?
              && forall ls :: Valid(SITE, w, ls) && NoMoves(ls) && NothingBetter(ls, w.status.target) ==>
                                Exec(SITE, w, ls).owner == w.owner
  {
    hide Reachable, NodeScoring.Better, NodeScoring.Candidates;
    ReachRetried();
    NothingBetterThanB();
    var w := World(RETRIED, {"b"}, 1, LATER, Resting);
    assert Stranded(SITE, w) && RoutedTo(SITE, w, "a");
    forall ls | Valid(SITE, w, ls) && NoMoves(ls) && NothingBetter(ls, w.status.target)
      ensures Exec(SITE, w, ls).owner == w.owner
    {
      StrandedForEver(SITE, w, ls);
    }
  }
}
