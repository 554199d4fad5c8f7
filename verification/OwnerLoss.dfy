/**
 A witness that owner retention needs its condition: a run from a fresh resource, without crashes or outside
 moves, in which a second retarget before routing drops the node that the provider still points at, after
 which that node's agent removes the address.
*/
module OwnerLoss {
  import opened Prelude
  import opened Api
  import opened NodeScoring
  import opened ReconcilePlan
  import opened EffectLaw
  import opened NodeInterface
  import opened System
  import opened Consequences
  import opened OwnerRetention
  import opened Scenario

  const RESELECTED: Status := RETARGETED.(candidateSince := Some(SECOND))
  const DROPPED: Status := RETARGETED.(source := "b", target := "c")

  lemma PlanToReselect()
    ensures Plan(SPEC, RETARGETED, EnvAt(SECOND, true)) ==
            [Patch(CandidateSelected, RETARGETED.(failureCount := 1), RESELECTED.(failureCount := 1))]
  {
    BetterIs(true);
    Lookups(true);
    hide NodeScoring.Better, NodeScoring.Candidates, NodeScoring.FindNode, NodeScoring.NodeForServer,
         NodeScoring.Acceptable, ReconcilePlan.DecidePrepared, ReconcilePlan.DecideRecovered;
  }

  lemma PlanToDrop()
    ensures Plan(SPEC, RESELECTED, EnvAt(2 * SECOND, true)) ==
            [Patch(WindowElapsed, RESELECTED.(failureCount := 1), DROPPED)]
  {
    BetterIs(true);
    Lookups(true);
    Scores("c", 3, false);
    hide NodeScoring.Better, NodeScoring.Candidates, NodeScoring.FindNode, NodeScoring.NodeForServer,
         NodeScoring.Acceptable, ReconcilePlan.DecidePrepared, ReconcilePlan.DecideRecovered;
  }

  lemma ReachReselected()
    ensures Reachable(Standing(RESELECTED, 2 * SECOND, {"a"}))
  {
    hide ReconcilePlan.Plan, Reachable;
    ReachRetargeted({"a"});
    PlanToReselect();
    Readable(EnvAt(SECOND, true), true);    hide System.Consistent, System.Judged;
    ReachRun(Standing(RETARGETED, SECOND, {"a"}), EnvAt(SECOND, true),
             Patch(CandidateSelected, RETARGETED.(failureCount := 1), RESELECTED.(failureCount := 1)));
    Reach(Standing(RESELECTED, SECOND, {"a"}), Tick(SECOND));
  }

  lemma ReachDropped()
    ensures Reachable(Standing(DROPPED, 2 * SECOND, {"a"}))
  {
    hide ReconcilePlan.Plan, Reachable;
    ReachReselected();
    PlanToDrop();
    Readable(EnvAt(2 * SECOND, true), true);
    hide System.Consistent, System.Judged;
    ReachRun(Standing(RESELECTED, 2 * SECOND, {"a"}), EnvAt(2 * SECOND, true),
             Patch(WindowElapsed, RESELECTED.(failureCount := 1), DROPPED));
  }

  // The provider still points at node a, which held the address and has just been made to give it up.
  lemma SecondRetargetDropsTheOwner()
    ensures exists w :: Reachable(w) && RoutedTo(SITE, w, "a") && "a" in w.holders && !IsRole(w.status, "a")
              && Reachable(Next(SITE, w, Agent("a", false)))
              && RoutedTo(SITE, Next(SITE, w, Agent("a", false)), "a")
                  && "a" !in Next(SITE, w, Agent("a", false)).holders
  {
    hide Reachable;
    ReachDropped();
    Reach(Standing(DROPPED, 2 * SECOND, {"a"}), Agent("a", false));
  }
}
