/**
 A rollback does not check that the source node holds the address. It does hold it throughout a run, whatever
 crashes and whoever else moves the provider, exactly if every retarget waits for its outgoing target to hold it.
*/
module SourceHolds {
  import opened Prelude
  import opened Api
  import opened NodeScoring
  import opened ReconcilePlan
  import opened EffectLaw
  import opened NodeInterface
  import opened System
  import opened RouteGate
  import opened OwnerRetention
  import opened Scenario
  import opened Handoff
  import ProbeChecks

  ghost predicate SourceHeld(w: World) { w.status.source != "" ==> w.status.source in w.holders }

  ghost predicate TargetHeld(w: World) { w.status.target != "" ==> w.status.target in w.holders }

  ghost predicate AlwaysHeld(site: Site, w: World, ls: seq<Label>)
    decreases |ls|
  {
    SourceHeld(Exec(site, w, ls)) && (ls != [] ==> AlwaysHeld(site, w, ls[..|ls| - 1]))
  }

  // Every retarget is made while the outgoing target, if there is one, holds the address.
  ghost predicate RetargetsHeld(site: Site, w: World, ls: seq<Label>)
    decreases |ls|
  {
    ls == [] ||
    (var before := Exec(site, w, ls[..|ls| - 1]);
     RetargetsHeld(site, w, ls[..|ls| - 1]) &&
     (ls[|ls| - 1].Perform? && AtRetarget(before) ==> TargetHeld(before)))
  }

  lemma HeldEffect(site: Site, w: World)
    requires SourceHeld(w) && Prepared(w) && LawfulRun(site, w) && w.run.Running?
             && CanPerform(w, w.run.c, w.run.rest[0])
    ensures SourceHeld(Performed(w, w.run.rest[0])) <==> (AtRetarget(w) ==> TargetHeld(w))
  {
    hide EffectLaw.Chain, EffectLaw.After, EffectLaw.Entered, EffectLaw.Known;
    OwnersStepLaw(site, w);
  }

  lemma HeldStep(site: Site, w: World, l: Label)
    requires SourceHeld(w) && Prepared(w) && LawfulRun(site, w) && Enabled(site, w, l)
    ensures SourceHeld(Next(site, w, l)) <==> (l.Perform? && AtRetarget(w) ==> TargetHeld(w))
  {
    hide EffectLaw.Chain, ReconcilePlan.Plan, System.Judged, System.Consistent;
    if l.Perform? { HeldEffect(site, w); }
    if l.Agent? {
      AgentTouchesOnlyItself(l.node, w.status.source, w.status.target, Local(w.status.localOwners, w.holders), l.crash);
    }
  }

  lemma {:induction false} SourceIsHeldIff(site: Site, w0: World, ls: seq<Label>)
    requires Fresh(w0) && Valid(site, w0, ls)
    ensures AlwaysHeld(site, w0, ls) <==> RetargetsHeld(site, w0, ls)
    decreases |ls|
  {
    if ls != [] {
      var before := ls[..|ls| - 1];
      SourceIsHeldIff(site, w0, before);
      AlwaysPrepared(site, w0, before);
      if AlwaysHeld(site, w0, before) { HeldStep(site, Exec(site, w0, before), ls[|ls| - 1]); }
    }
  }

  // Under that condition a rollback, too, only ever routes to a node that holds the address.
  lemma RollbackIsMadeBeforeBreak(site: Site, w0: World, ls: seq<Label>)
    requires Fresh(w0) && Valid(site, w0, ls) && RetargetsHeld(site, w0, ls)
    requires var w := Exec(site, w0, ls);
             w.run.Running? && w.run.rest != [] && w.run.rest[0].Route? && w.run.rest[0].direction == Rollback
    ensures var w := Exec(site, w0, ls);
            && w.status.source in site.servers && w.run.rest[0].server == site.servers[w.status.source]
            && w.status.source in w.holders
  {
    SourceIsHeldIff(site, w0, ls);
    RollbackIsGated(site, w0, ls);
    AlwaysPrepared(site, w0, ls);
    NextEffectIsLawful(site, Exec(site, w0, ls));
  }

  // ---- without the condition ----

  const LATER: int := SECOND + MINUTE

  // The same handoff, but node a never got the address: its agent had not run.
  const RESTAMPED: Status := VERIFIED.(lastAttempted := Some(LATER))
  const ROLLED_BACK: Status := RESTAMPED.(phase := Degraded, observed := Some(1))
  const UNLOADABLE: ProbeChecks.Probe :=
    ProbeChecks.Probe("p", false, false, ProbeChecks.PostRoute, NoComposition, 0, None)

  function Failing(): Env {
    EnvAt(LATER, false).(owner := 2, postRouteProbes := [UNLOADABLE], postRoute := false, ownersAfterStamp := ["b"],
                         routeApplied := true, routeOk := true, recoveryRead := Some(2), confirmRead := Some(1))
  }

  const STAMP: Effect := Patch(RollbackEligible, VERIFIED, RESTAMPED)
  const UNDO: Effect := Route(Rollback, 1, true)
  const RECORD: Effect := Patch(RollbackSucceeded, VERIFIED, ROLLED_BACK)

  lemma PlanToRollBack()
    ensures Plan(SPEC, VERIFIED, Failing()) == [Read(2), STAMP, UNDO, Read(1), RECORD]
  {
    NothingBetterThanB();
    Lookups(false);
    hide NodeScoring.Better, NodeScoring.Candidates, NodeScoring.FindNode, ReconcilePlan.DecideRoute,
         ReconcilePlan.DecideRecovered, ReconcilePlan.DecideCandidate, ReconcilePlan.Settle;
  }

  lemma FailingIsReadable()
    ensures Consistent(SITE, Failing().nodes) && Judged(SPEC, Failing())
  {
    Readable(EnvAt(LATER, false), false);
    assert UNLOADABLE in Failing().postRouteProbes;
  }

  // The rollback run on its way.
  function Undoing(st: Status, owner: int, stage: Stage, rest: seq<Effect>): World {
    World(st, {"b"}, owner, LATER, Running(Context(SPEC, VERIFIED, Failing()), stage, rest))
  }

  lemma ReachUndoing()
    ensures Reachable(Undoing(VERIFIED, 2, Begun, [Read(2), STAMP, UNDO, Read(1), RECORD]))
  {
    hide ReconcilePlan.Plan, Reachable;
    ReachVerified({});
    assert {} + {"b"} == {"b"};
    PlanToRollBack();
    FailingIsReadable();
    hide System.Consistent, System.Judged;
    Reach(At(VERIFIED, {"b"}, 2), Tick(MINUTE));
    Reach(At(VERIFIED, {"b"}, 2).(now := LATER), Begin(Failing()));
  }

  lemma ReachUndoStamp()
    ensures Reachable(Undoing(VERIFIED, 2, Open, [STAMP, UNDO, Read(1), RECORD]))
  {
    hide Reachable, System.Consistent, System.Judged;
    ReachUndoing();
    assert [Read(2), STAMP, UNDO, Read(1), RECORD][1..] == [STAMP, UNDO, Read(1), RECORD];
    Reach(Undoing(VERIFIED, 2, Begun, [Read(2), STAMP, UNDO, Read(1), RECORD]), Perform);
  }

  lemma ReachUndoCall()
    ensures Reachable(Undoing(RESTAMPED, 2, Stamped, [UNDO, Read(1), RECORD]))
  {
    hide Reachable, System.Consistent, System.Judged;
    ReachUndoStamp();
    assert [STAMP, UNDO, Read(1), RECORD][1..] == [UNDO, Read(1), RECORD];
    Reach(Undoing(VERIFIED, 2, Open, [STAMP, UNDO, Read(1), RECORD]), Perform);
  }

  lemma ReachUndone()
    ensures Reachable(Undoing(RESTAMPED, 1, Routed, [RECORD]))
  {
    hide Reachable, System.Consistent, System.Judged;
    ReachUndoCall();
    assert [UNDO, Read(1), RECORD][1..] == [Read(1), RECORD] && [Read(1), RECORD][1..] == [RECORD];
    Reach(Undoing(RESTAMPED, 2, Stamped, [UNDO, Read(1), RECORD]), Perform);
    Reach(Undoing(RESTAMPED, 1, Routed, [Read(1), RECORD]), Perform);
  }

  lemma ReachRolledBack()
    ensures Reachable(World(ROLLED_BACK, {"b"}, 1, LATER, Resting))
  {
    hide Reachable, System.Consistent, System.Judged;
    ReachUndone();
    assert [RECORD][1..] == [];
    Reach(Undoing(RESTAMPED, 1, Routed, [RECORD]), Perform);
  }

  // A reachable world whose next effect routes the address away from its one holder to a node without it, and
  // one in which that rollback has completed.
  lemma RollbackCanBreak()
    ensures exists w ::
              && Reachable(w) && w.run.Running? && w.run.rest != [] && w.run.rest[0] == UNDO
              && RoutedTo(SITE, w, "b") && w.holders == {"b"} && w.status.source == "a"
                  && SITE.servers["a"] == UNDO.server
    ensures exists w ::
              Reachable(w) && w.run == Resting && w.status.phase == Degraded && RoutedTo(SITE, w, "a")
                  && w.holders == {"b"}
  {
    hide Reachable;
    ReachUndoCall();
    ReachRolledBack();
    var calling := Undoing(RESTAMPED, 2, Stamped, [UNDO, Read(1), RECORD]);
    assert RoutedTo(SITE, calling, "b") && Reachable(calling);
    var done := World(ROLLED_BACK, {"b"}, 1, LATER, Resting);
    assert RoutedTo(SITE, done, "a") && Reachable(done);
  }
}
