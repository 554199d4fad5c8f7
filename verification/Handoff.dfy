/**
 A witness that a handoff can complete, and that it is the last one: a run from a fresh resource, without crashes
 or outside moves, to a Succeeded status from which the provider is never called again, even though its node has
 lost its health and another is fine.
*/
module Handoff {
  import opened Prelude
  import opened Api
  import opened NodeScoring
  import opened ReconcilePlan
  import opened EffectLaw
  import opened NodeInterface
  import opened System
  import opened OwnerRetention
  import opened FailSafe
  import opened Scenario

  const PREPARED: Status := RETARGETED.(localOwners := ["b"])
  const READY: Status := PREPARED.(phase := TargetPrepared)
  const ROUTING: Status := PREPARED.(phase := RoutingProvider)
  const STAMPED: Status := ROUTING.(lastAttempted := Some(SECOND))
  const CONFIRMED: Status := STAMPED.(phase := VerifyingProvider, observed := Some(2))
  const VERIFIED: Status := CONFIRMED.(phase := VerifyingTraffic)
  const ACCEPTED: Status := CONFIRMED.(phase := Committing)
  const COMMITTED: Status := CONFIRMED.(phase := CleaningStaleOwners, source := "b")
  const DONE: Status := COMMITTED.(phase := Succeeded)

  function Before(): Env {
    EnvAt(SECOND, false).(routeApplied := true, routeOk := true, verifyReads := [Some(2)],
                          ownersAfterStamp := ["b"])
  }

  function Afterwards(): Env { EnvAt(SECOND, false).(owner := 2) }

  lemma NothingBetterThanB()
    ensures Better(Candidates(Nodes(false)), "b").None?
  {
    AllAreCandidates(false);
    BestOf(false);
    Lookups(false);
    hide NodeScoring.BestFrom, NodeScoring.ConditionIs, NodeScoring.Candidates, NodeScoring.FindNode;
  }

  lemma PlansBefore()
    ensures Plan(SPEC, PREPARED, Before()) == [Patch(NodeReportedOwnership, PREPARED, READY)]
    ensures Plan(SPEC, READY, Before()) == [Patch(RouteReady, READY, ROUTING)]
  {
    NothingBetterThanB();
    Lookups(false);
    hide NodeScoring.Better, NodeScoring.Candidates, NodeScoring.FindNode, ReconcilePlan.DecideRoute,
         ReconcilePlan.DecideRecovered, ReconcilePlan.DecideCandidate, ReconcilePlan.Settle, ReconcilePlan.Recover;
  }

  lemma PlanToRoute()
    ensures Plan(SPEC, ROUTING, Before()) ==
            [Patch(MutationEligible, ROUTING, STAMPED), Route(Forward, 2, true), Read(2),
             Patch(ProviderOwnerConfirmed, STAMPED, CONFIRMED)]
  {
    NothingBetterThanB();
    Lookups(false);
    hide NodeScoring.Better, NodeScoring.Candidates, NodeScoring.FindNode, ReconcilePlan.DecideRecovered,
         ReconcilePlan.DecideCandidate, ReconcilePlan.Settle, ReconcilePlan.Recover;
    assert Converges([Some(2)], 2, VERIFY_ATTEMPTS);
  }

  lemma PlansToAccept()
    ensures Plan(SPEC, CONFIRMED, Afterwards()) == [Patch(OwnerVerified, CONFIRMED, VERIFIED)]
    ensures Plan(SPEC, VERIFIED, Afterwards()) == [Patch(ProbeGatePassed, VERIFIED, ACCEPTED)]
  {
    NothingBetterThanB();
    Lookups(false);
    hide NodeScoring.Better, NodeScoring.Candidates, NodeScoring.FindNode, ReconcilePlan.DecideRoute,
         ReconcilePlan.DecideRecovered, ReconcilePlan.DecideCandidate, ReconcilePlan.Recover;
  }

  lemma PlansToSucceed()
    ensures Plan(SPEC, ACCEPTED, Afterwards()) == [Patch(Committed, ACCEPTED, COMMITTED)]
    ensures Plan(SPEC, COMMITTED, Afterwards()) == [Patch(SingleOwner, COMMITTED, DONE)]
  {
    NothingBetterThanB();
    Lookups(false);
    hide NodeScoring.Better, NodeScoring.Candidates, NodeScoring.FindNode, ReconcilePlan.DecideRoute,
         ReconcilePlan.DecideRecovered, ReconcilePlan.DecideCandidate, ReconcilePlan.Recover;
  }

  function At(st: Status, holders: set<string>, owner: int): World { World(st, holders, owner, SECOND, Resting) }

  lemma ReachPrepared(holders: set<string>)
    ensures Reachable(At(PREPARED, holders + {"b"}, 1))
  {
    hide ReconcilePlan.Plan, Reachable;
    ReachRetargeted(holders);
    Reach(Standing(RETARGETED, SECOND, holders), Agent("b", false));
    assert Next(SITE, Standing(RETARGETED, SECOND, holders), Agent("b", false)) == At(PREPARED, holders + {"b"}, 1);
  }

  lemma ReachReady(holders: set<string>)
    ensures Reachable(At(READY, holders + {"b"}, 1))
  {
    hide ReconcilePlan.Plan, Reachable;
    ReachPrepared(holders);
    PlansBefore();
    Readable(Before(), false);
    hide System.Consistent, System.Judged;
    ReachRun(At(PREPARED, holders + {"b"}, 1), Before(), Patch(NodeReportedOwnership, PREPARED, READY));
  }

  lemma ReachRouting(holders: set<string>)
    ensures Reachable(At(ROUTING, holders + {"b"}, 1))
  {
    hide ReconcilePlan.Plan, Reachable;
    ReachReady(holders);
    PlansBefore();
    Readable(Before(), false);
    hide System.Consistent, System.Judged;
    ReachRun(At(READY, holders + {"b"}, 1), Before(), Patch(RouteReady, READY, ROUTING));
  }

  // The routing run just after its stamp, and just after the call.
  function Calling(holders: set<string>, owner: int, stage: Stage, rest: seq<Effect>): World {
    At(STAMPED, holders + {"b"}, owner).(run := Running(Context(SPEC, ROUTING, Before()), stage, rest))
  }

  const CONFIRM: Effect := Patch(ProviderOwnerConfirmed, STAMPED, CONFIRMED)

  lemma ReachStamped(holders: set<string>)
    ensures Reachable(Calling(holders, 1, Stamped, [Route(Forward, 2, true), Read(2), CONFIRM]))
  {
    hide ReconcilePlan.Plan, Reachable;
    ReachRouting(holders);
    PlanToRoute();
    Readable(Before(), false);
    hide System.Consistent, System.Judged;
    var w := At(ROUTING, holders + {"b"}, 1);
    Reach(w, Begin(Before()));
    assert [Patch(MutationEligible, ROUTING, STAMPED), Route(Forward, 2, true), Read(2), CONFIRM][1..]
        == [Route(Forward, 2, true), Read(2), CONFIRM];
    Reach(StartRun(SITE, w, Before()), Perform);
  }

  lemma ReachCalled(holders: set<string>)
    ensures Reachable(Calling(holders, 2, Routed, [Read(2), CONFIRM]))
  {
    hide Reachable, System.Consistent, System.Judged;
    ReachStamped(holders);
    assert [Route(Forward, 2, true), Read(2), CONFIRM][1..] == [Read(2), CONFIRM];
    Reach(Calling(holders, 1, Stamped, [Route(Forward, 2, true), Read(2), CONFIRM]), Perform);
  }

  lemma ReachConfirmed(holders: set<string>)
    ensures Reachable(At(CONFIRMED, holders + {"b"}, 2))
  {
    hide Reachable, System.Consistent, System.Judged;
    ReachCalled(holders);
    assert [Read(2), CONFIRM][1..] == [CONFIRM] && [CONFIRM][1..] == [];
    Reach(Calling(holders, 2, Routed, [Read(2), CONFIRM]), Perform);
    Reach(Calling(holders, 2, Routed, [CONFIRM]), Perform);
  }

  lemma ReachVerified(holders: set<string>)
    ensures Reachable(At(VERIFIED, holders + {"b"}, 2))
  {
    hide ReconcilePlan.Plan, Reachable;
    ReachConfirmed(holders);
    PlansToAccept();
    Readable(Afterwards(), false);
    hide System.Consistent, System.Judged;
    ReachRun(At(CONFIRMED, holders + {"b"}, 2), Afterwards(), Patch(OwnerVerified, CONFIRMED, VERIFIED));
  }

  lemma ReachAccepted()
    ensures Reachable(At(ACCEPTED, {"a", "b"}, 2))
  {
    hide ReconcilePlan.Plan, Reachable;
    ReachVerified({"a"});
    assert {"a"} + {"b"} == {"a", "b"};
    PlansToAccept();
    Readable(Afterwards(), false);
    hide System.Consistent, System.Judged;
    ReachRun(At(VERIFIED, {"a", "b"}, 2), Afterwards(), Patch(ProbeGatePassed, VERIFIED, ACCEPTED));
  }

  lemma ReachCommitted()
    ensures Reachable(At(COMMITTED, {"a", "b"}, 2))
  {
    hide ReconcilePlan.Plan, Reachable;
    ReachAccepted();
    PlansToSucceed();
    Readable(Afterwards(), false);
    hide System.Consistent, System.Judged;
    ReachRun(At(ACCEPTED, {"a", "b"}, 2), Afterwards(), Patch(Committed, ACCEPTED, COMMITTED));
  }

  lemma ReachCleaned()
    ensures Reachable(At(COMMITTED, {"b"}, 2))
  {
    hide Reachable;
    ReachCommitted();
    NothingToRemove(["b"], "a");
    assert {"a", "b"} - {"a"} == {"b"};
    Reach(At(COMMITTED, {"a", "b"}, 2), Agent("a", false));
  }

  lemma ReachDone()
    ensures Reachable(At(DONE, {"b"}, 2))
  {
    hide ReconcilePlan.Plan, Reachable;
    ReachCleaned();
    PlansToSucceed();
    Readable(Afterwards(), false);
    hide System.Consistent, System.Judged;
    ReachRun(At(COMMITTED, {"b"}, 2), Afterwards(), Patch(SingleOwner, COMMITTED, DONE));
  }

  // Node b is the one routed and only holder, and from here on no run ever calls the provider, whatever
  // becomes of node b.
  lemma HandoffCompletesOnce()
    ensures exists w ::
              && Reachable(w) && w.status.phase == Succeeded && w.status.localOwners == ["b"]
              && RoutedTo(SITE, w, "b") && w.holders == {"b"}
              && forall ls :: Valid(SITE, w, ls) ==> Silent(Exec(SITE, w, ls), w.status)
  {
    hide Reachable;
    ReachDone();
    var w := At(DONE, {"b"}, 2);
    assert RoutedTo(SITE, w, "b") && Retired(w.status);
    forall ls | Valid(SITE, w, ls) ensures Silent(Exec(SITE, w, ls), w.status) {
      RetiredForEver(SITE, w, ls);
    }
  }
}
