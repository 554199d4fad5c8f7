/**
 A concrete site of three nodes and runs on it from a fresh resource, without crashes or outside moves, up to
 the first retarget: ground for witnesses.
*/
module Scenario {
  import opened Prelude
  import opened Api
  import opened NodeScoring
  import opened ReconcilePlan
  import opened EffectLaw
  import opened NodeInterface
  import opened System
  import ProbeChecks

  const SPEC: Spec := Spec(0, 0, 0, 1, 0, 0, 0, 1, 0, RecoveryPolicy.RollbackProvider, NoComposition, 0)
  const SITE: Site := Site(SPEC, map["a" := 1, "b" := 2, "c" := 3])

  function NodeAt(name: string, server: int, cordoned: bool): Node {
    Node(name, cordoned, true, Id(server), [Condition(Ready, IsTrue)])
  }

  // Node a is cordoned throughout, node b from some point on, node c never.
  function Nodes(bCordoned: bool): seq<Node> {
    [NodeAt("a", 1, true), NodeAt("b", 2, bCordoned), NodeAt("c", 3, false)]
  }

  function EnvAt(now: int, bCordoned: bool): Env {
    Env(now, "t", "", true, 1, Nodes(bCordoned), [], [], [], [], [], true, true, false, false, [],
        None, None)
  }

  lemma AllAreCandidates(bCordoned: bool)
    ensures Candidates(Nodes(bCordoned)) == Nodes(bCordoned)
  {
    var all := Nodes(bCordoned);
    assert all[1..] == [all[1], all[2]] && all[1..][1..] == [all[2]] && all[1..][1..][1..] == [];
    assert Candidates(all[1..][1..]) == [all[2]];
    assert Candidates(all[1..]) == [all[1], all[2]];
  }

  lemma Scores(name: string, server: int, cordoned: bool)
    ensures ScoreNode(NodeAt(name, server, cordoned)) == Score(false, false, false, cordoned, false, false, false, name)
    ensures Acceptable(NodeAt(name, server, cordoned)) == !cordoned
  {
    var conditions := [Condition(Ready, IsTrue)];
    assert conditions[1..] == [];
  }

  lemma BestOf(bCordoned: bool)
    ensures var all := Nodes(bCordoned); BestFrom(all[0], all[1..]) == if bCordoned then all[2] else all[1]
  {
    var all := Nodes(bCordoned);
    Scores("a", 1, true);
    Scores("b", 2, bCordoned);
    Scores("c", 3, false);
    assert all[1..] == [all[1], all[2]] && all[1..][1..] == [all[2]] && all[1..][1..][1..] == [];
    assert Less("b", "c");
    var second := if bCordoned then BestFrom(all[0], [all[2]]) else BestFrom(all[1], [all[2]]);
  }

  lemma Lookups(bCordoned: bool)
    ensures var all := Nodes(bCordoned);
            && FindNode(all, "a") == Some(all[0]) && FindNode(all, "b") == Some(all[1])
            && NodeForServer(all, 1) == Some(all[0])
  {
    var all := Nodes(bCordoned);
    assert all[1..] == [all[1], all[2]];
  }

  // While a is the target, b is better; once b is cordoned too, c is better than either.
  lemma BetterIs(bCordoned: bool)
    ensures var all := Nodes(bCordoned);
            && Better(Candidates(all), "a") == Some(if bCordoned then all[2] else all[1])
            && (bCordoned ==> Better(Candidates(all), "b") == Some(all[2]))
  {
    AllAreCandidates(bCordoned);
    BestOf(bCordoned);
    Lookups(bCordoned);
    Scores("a", 1, true);
    Scores("b", 2, bCordoned);
    Scores("c", 3, false);
    hide NodeScoring.BestFrom, NodeScoring.ConditionIs, NodeScoring.Candidates, NodeScoring.FindNode;
  }

  const STARTED: Status := FRESH.(transitionId := "t", phase := Selecting)
  const ADOPTED: Status := STARTED.(observed := Some(1), target := "a")
  const SELECTED: Status := ADOPTED.(phase := Stabilizing, candidateSince := Some(0))
  const RETARGETED: Status := ADOPTED.(source := "a", target := "b", phase := PreparingTarget)

  lemma PlanToSelect()
    ensures Plan(SPEC, STARTED, EnvAt(0, false)) ==
            [Patch(OwnerObserved, STARTED, ADOPTED),
             Patch(CandidateSelected, ADOPTED.(failureCount := 1), SELECTED.(failureCount := 1))]
  {
    BetterIs(false);
    Lookups(false);
    hide NodeScoring.Better, NodeScoring.Candidates, NodeScoring.FindNode, NodeScoring.NodeForServer,
         NodeScoring.Acceptable, ReconcilePlan.DecidePrepared, ReconcilePlan.DecideRecovered;
  }

  lemma PlanToRetarget()
    ensures Plan(SPEC, SELECTED, EnvAt(SECOND, false)) ==
            [Patch(WindowElapsed, SELECTED.(failureCount := 1), RETARGETED)]
  {
    BetterIs(false);
    Lookups(false);
    Scores("b", 2, false);
    hide NodeScoring.Better, NodeScoring.Candidates, NodeScoring.FindNode, NodeScoring.NodeForServer,
         NodeScoring.Acceptable, ReconcilePlan.DecidePrepared, ReconcilePlan.DecideRecovered;
  }

  ghost predicate Reachable(w: World) {
    exists w0, ls :: Fresh(w0) && Valid(SITE, w0, ls) && NoMoves(ls) && NoAgentCrashes(ls) && Exec(SITE, w0, ls) == w
  }

  lemma Reach(w: World, l: Label)
    requires Reachable(w) && Enabled(SITE, w, l) && !l.Move? && !(l.Agent? && l.crash)
    ensures Reachable(Next(SITE, w, l))
  {
    var w0, ls :| Fresh(w0) && Valid(SITE, w0, ls) && NoMoves(ls) && NoAgentCrashes(ls) && Exec(SITE, w0, ls) == w;
    var all := ls + [l];
    assert all[..|all| - 1] == ls && all[|all| - 1] == l;
    assert Valid(SITE, w0, all) && Exec(SITE, w0, all) == Next(SITE, w, l);
    assert NoMoves(all) && NoAgentCrashes(all);
  }

  // A run with a single effect.
  lemma ReachRun(w: World, env: Env, e: Effect)
    requires Reachable(w) && Enabled(SITE, w, Begin(env)) && e.Patch? && Plan(SPEC, w.status, env) == [e]
    requires CanPerform(w, Context(SPEC, w.status, env), e)
    ensures Reachable(w.(status := After(w.status, e)))
  {
    hide Reachable, EffectLaw.After, ReconcilePlan.Plan, System.Consistent, System.Judged;
    Reach(w, Begin(env));
    var running := StartRun(SITE, w, env);
    assert [e][1..] == [];
    Reach(running, Perform);
    assert Performed(running, e) == w.(status := After(w.status, e));
  }

  // Without probes both gates pass.
  lemma Readable(env: Env, bCordoned: bool)
    requires env.nodes == Nodes(bCordoned)
    requires env.preRouteProbes == [] && env.postRouteProbes == [] && env.preRoute && env.postRoute
    ensures Consistent(SITE, env.nodes) && Judged(SPEC, env)
  {
    assert ProbeChecks.Results([], ProbeChecks.PreRoute) == [] && ProbeChecks.Results([], ProbeChecks.PostRoute) == [];
  }

  // At first the provider points at node a, whether or not it is among the nodes that hold the address.
  function Standing(st: Status, now: int, holders: set<string>): World { World(st, holders, 1, now, Resting) }

  lemma ReachStarted(holders: set<string>)
    ensures Reachable(Standing(STARTED, 0, holders))
  {
    var w0 := Standing(FRESH, 0, holders);
    assert Reachable(w0) by {
      assert Valid(SITE, w0, []) && Exec(SITE, w0, []) == w0 && NoMoves([]) && NoAgentCrashes([]);
    }
    hide Reachable;
    Readable(EnvAt(0, false), false);
    hide System.Consistent, System.Judged;
    ReachRun(w0, EnvAt(0, false), Patch(TransitionStarted, FRESH, STARTED));
  }

  const CHOOSE: Effect := Patch(CandidateSelected, ADOPTED.(failureCount := 1), SELECTED.(failureCount := 1))

  // The selecting run just after its observation.
  function Choosing(holders: set<string>): World {
    Standing(ADOPTED, 0, holders).(run := Running(Context(SPEC, STARTED, EnvAt(0, false)), Open, [CHOOSE]))
  }

  lemma ReachChoosing(holders: set<string>)
    ensures Reachable(Choosing(holders))
  {
    hide ReconcilePlan.Plan, Reachable;
    PlanToSelect();
    Readable(EnvAt(0, false), false);
    ReachStarted(holders);
    hide System.Consistent, System.Judged;
    var w, observe := Standing(STARTED, 0, holders), Patch(OwnerObserved, STARTED, ADOPTED);
    Reach(w, Begin(EnvAt(0, false)));
    assert [observe, CHOOSE][1..] == [CHOOSE];
    Reach(StartRun(SITE, w, EnvAt(0, false)), Perform);
  }

  lemma ReachSelected(holders: set<string>)
    ensures Reachable(Standing(SELECTED, 0, holders))
  {
    hide Reachable;
    ReachChoosing(holders);
    assert [CHOOSE][1..] == [];
    Reach(Choosing(holders), Perform);
  }

  lemma ReachRetargeted(holders: set<string>)
    ensures Reachable(Standing(RETARGETED, SECOND, holders))
  {
    hide ReconcilePlan.Plan, Reachable;
    ReachSelected(holders);
    PlanToRetarget();
    Readable(EnvAt(SECOND, false), false);
    hide System.Consistent, System.Judged;
    Reach(Standing(SELECTED, 0, holders), Tick(SECOND));
    ReachRun(Standing(SELECTED, SECOND, holders), EnvAt(SECOND, false),
             Patch(WindowElapsed, SELECTED.(failureCount := 1), RETARGETED));
  }
}
