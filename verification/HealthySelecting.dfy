/**
 A resource that has adopted the provider's owner and found nothing better does not stay in Selecting: once its
 target is prepared and its traffic check accepted, its next run blocks it as an unexpected phase.
*/
module HealthySelecting {
  import opened Prelude
  import opened Api
  import opened NodeScoring
  import opened Policy
  import opened ReconcilePlan
  import opened EffectLaw
  import opened NodeInterface
  import opened System
  import opened Consequences
  import opened OwnerRetention
  import opened Progress
  import opened Scenario

  predicate Unexpected(effects: seq<Effect>) { exists e :: e in effects && Has(e, UnexpectedPhase) }

  lemma RollBackIsExpected(spec: Spec, st: Status, env: Env)
    ensures !Unexpected(RollBack(spec, st, env))
  {
    hide Policy.FenceAccepts, Policy.MutationAllowed, NodeScoring.ServerOf;
  }

  lemma SelectingSettles(spec: Spec, st: Status, env: Env)
    requires st.phase == Selecting
    ensures Unexpected(Settle(spec, st, env))
    ensures Unexpected(Recover(spec, st, env)) <==> spec.recoveryPolicy == RecoveryPolicy.CommitDegraded
  {
    hide ReconcilePlan.RollBack;
    var copy := st.(localOwners := env.ownersAfterDegrade);
    RollBackIsExpected(spec, st, env);
    assert Has(Settle(spec, st, env)[0], UnexpectedPhase);
    if spec.recoveryPolicy == RecoveryPolicy.CommitDegraded {
      var e := Settle(spec, copy, env)[0];
      assert Has(e, UnexpectedPhase) && e == Recover(spec, st, env)[1];
      assert e in Recover(spec, st, env);
    }
  }

  // Nothing is better than the target, which is prepared, routed, and passes its traffic check.
  predicate Healthy(spec: Spec, st: Status, env: Env) {
    && !HasBetter(st, env) && st.target != "" && ServerOf(env.nodes, st.target) == Some(env.owner)
    && st.target in st.localOwners && (env.postRoute || spec.recoveryPolicy == RecoveryPolicy.CommitDegraded)
  }

  lemma SelectingDecides(spec: Spec, st: Status, env: Env)
    requires st.phase == Selecting
    ensures Unexpected(Decide(spec, st, env)) <==> Healthy(spec, st, env)
  {
    hide NodeScoring.Better, NodeScoring.ServerOf, ReconcilePlan.Recover, ReconcilePlan.Settle,
         ReconcilePlan.Retargeted, ReconcilePlan.CandidateReady;
    SelectingSettles(spec, st, env);
  }

  // A run in Selecting that gets past its reads blocks the resource as unexpected if and only if it is healthy.
  lemma HealthySelectingBlocksIff(spec: Spec, st: Status, env: Env)
    requires Entered(Context(spec, st, env)) && st.phase == Selecting
    ensures Unexpected(Plan(spec, st, env)) <==> Healthy(spec, Refreshed(st, env), env)
  {
    hide ReconcilePlan.Decide, Healthy;
    var seen := Refreshed(st, env);
    SelectingDecides(spec, seen, env);
    if Observed(st, env) != st {
      var observe := Patch(OwnerObserved, st, Observed(st, env));
      assert Plan(spec, st, env) == [observe] + Decide(spec, seen, env) && !Has(observe, UnexpectedPhase);
      assert forall e :: e in Decide(spec, seen, env) ==> e in Plan(spec, st, env);
    }
  }

  // ---- a reachable resource that this happens to ----

  // All three nodes are fine.
  function AllWell(): seq<Node> { [NodeAt("a", 1, false), NodeAt("b", 2, false), NodeAt("c", 3, false)] }

  function Well(): Env { EnvAt(0, false).(nodes := AllWell()) }

  lemma NothingBetterThanA()
    ensures Better(Candidates(AllWell()), "a").None?
    ensures ServerOf(AllWell(), "a") == Some(1) && NodeForServer(AllWell(), 1) == Some(AllWell()[0])
  {
    var all := AllWell();
    Scores("a", 1, false);
    Scores("b", 2, false);
    Scores("c", 3, false);
    assert all[1..] == [all[1], all[2]] && all[1..][1..] == [all[2]] && all[1..][1..][1..] == [];
    assert Candidates(all[1..][1..]) == [all[2]];
    assert Candidates(all[1..]) == [all[1], all[2]];
    assert Candidates(all) == all;
    assert Less("a", "b") && Less("a", "c");
    assert BestFrom(all[0], [all[2]]) == all[0];
  }

  const REPORTED: Status := ADOPTED.(localOwners := ["a"])

  lemma PlansWhenWell()
    ensures Plan(SPEC, STARTED, Well()) == [Patch(OwnerObserved, STARTED, ADOPTED)]
    ensures Plan(SPEC, REPORTED, Well()) == [Patch(UnexpectedPhase, REPORTED, REPORTED.(phase := Blocked))]
  {
    NothingBetterThanA();
    hide NodeScoring.Better, NodeScoring.Candidates, NodeScoring.FindNode, NodeScoring.ServerOf,
         NodeScoring.NodeForServer, ReconcilePlan.DecideRoute, ReconcilePlan.DecideRecovered,
         ReconcilePlan.DecideCandidate, ReconcilePlan.Recover;
  }

  lemma WellIsReadable()
    ensures Consistent(SITE, AllWell()) && Judged(SPEC, Well())
  {
    Readable(EnvAt(0, false), false);
  }

  lemma ReachReported()
    ensures Reachable(Standing(REPORTED, 0, {"a"}))
  {
    hide ReconcilePlan.Plan, Reachable;
    ReachStarted({"a"});
    PlansWhenWell();
    WellIsReadable();
    hide System.Consistent, System.Judged;
    ReachRun(Standing(STARTED, 0, {"a"}), Well(), Patch(OwnerObserved, STARTED, ADOPTED));
    Reach(Standing(ADOPTED, 0, {"a"}), Agent("a", false));
    assert {"a"} + {"a"} == {"a"} && ADOPTED.localOwners + ["a"] == ["a"];
    assert Next(SITE, Standing(ADOPTED, 0, {"a"}), Agent("a", false)) == Standing(REPORTED, 0, {"a"});
  }

  // Node a is healthy, routed, holds the address and reports it, all probes pass, and the resource is Blocked.
  lemma HealthyResourceIsBlocked()
    ensures exists w ::
              && Reachable(w) && w.run == Resting && w.status.phase == Blocked && w.status.target == "a"
              && RoutedTo(SITE, w, "a") && w.holders == {"a"} && w.status.localOwners == ["a"]
  {
    hide ReconcilePlan.Plan, Reachable;
    ReachReported();
    PlansWhenWell();
    WellIsReadable();
    hide System.Consistent, System.Judged;
    var blocked := REPORTED.(phase := Blocked);
    ReachRun(Standing(REPORTED, 0, {"a"}), Well(), Patch(UnexpectedPhase, REPORTED, blocked));
    assert RoutedTo(SITE, Standing(blocked, 0, {"a"}), "a");
  }
}
