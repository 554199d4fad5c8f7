/**
 A witness that the bound on calls in a window cannot do without the lag of the first call: two calls one second
 apart under a cooldown of a minute, because the first came almost a minute after its stamp.
*/
module LateCall {
  import opened Prelude
  import opened Api
  import opened NodeScoring
  import opened Policy
  import opened ReconcilePlan
  import opened EffectLaw
  import opened System
  import opened MutationRate
  import opened Scenario
  import opened Handoff
  import opened SourceHolds

  // A world reached by a run whose last calls are the given ones.
  ghost predicate ReachedWith(w: World, last: seq<Call>) {
    exists w0, ls ::
      && Fresh(w0) && Valid(SITE, w0, ls) && Exec(SITE, w0, ls) == w
      && |Calls(SITE, w0, ls)| >= |last| && Calls(SITE, w0, ls)[|Calls(SITE, w0, ls)| - |last|..] == last
  }

  function Made(w: World, l: Label): seq<Call> {
    if l.Perform? && w.run.Running? && w.run.rest != [] && w.run.rest[0].Route? then
      [Call(if w.status.lastAttempted.Some? then w.status.lastAttempted.value else 0, w.now)]
    else []
  }

  lemma OneMore(w0: World, ls: seq<Label>, l: Label)
    requires Valid(SITE, w0, ls) && Enabled(SITE, Exec(SITE, w0, ls), l)
    ensures Valid(SITE, w0, ls + [l]) && Exec(SITE, w0, ls + [l]) == Next(SITE, Exec(SITE, w0, ls), l)
    ensures Calls(SITE, w0, ls + [l]) == Calls(SITE, w0, ls) + Made(Exec(SITE, w0, ls), l)
  {
    hide Enabled, Next;
    var all := ls + [l];
    assert all[..|all| - 1] == ls && all[|all| - 1] == l;
  }

  lemma ReachedOn(w: World, last: seq<Call>, l: Label)
    requires ReachedWith(w, last) && Enabled(SITE, w, l)
    ensures ReachedWith(Next(SITE, w, l), last + Made(w, l))
  {
    hide Enabled, Next, Valid, Exec, Calls, Made;
    var w0, ls :|
      && Fresh(w0) && Valid(SITE, w0, ls) && Exec(SITE, w0, ls) == w
      && |Calls(SITE, w0, ls)| >= |last| && Calls(SITE, w0, ls)[|Calls(SITE, w0, ls)| - |last|..] == last;
    OneMore(w0, ls, l);
    var calls := Calls(SITE, w0, ls + [l]);
    assert calls[|calls| - |last + Made(w, l)|..] == last + Made(w, l);
  }

  lemma ReachedAlready(w: World)
    requires Reachable(w)
    ensures ReachedWith(w, [])
  {
    var w0, ls :| Fresh(w0) && Valid(SITE, w0, ls) && NoMoves(ls) && NoAgentCrashes(ls) && Exec(SITE, w0, ls) == w;
    assert Calls(SITE, w0, ls)[|Calls(SITE, w0, ls)|..] == [];
  }

  // Two runs on the routing phase whose calls fail without effect.
  const RETRYING: Status := STAMPED.(retryCount := 1)
  const AGAIN: Status := RETRYING.(lastAttempted := Some(LATER))

  function FailingAt(now: int): Env { EnvAt(now, false).(ownersAfterStamp := ["b"]) }

  const FIRST: Effect := Patch(MutationEligible, ROUTING, STAMPED)
  const FAILED: Effect := Patch(RouteFailed, STAMPED, RETRYING)
  const SECONDLY: Effect := Patch(MutationEligible, RETRYING, AGAIN)
  const FAILED_AGAIN: Effect := Patch(RouteFailed, AGAIN, AGAIN.(retryCount := 2))
  const ATTEMPT: Effect := Route(Forward, 2, false)

  lemma FailingPlans()
    ensures Plan(SPEC, ROUTING, FailingAt(SECOND)) == [FIRST, ATTEMPT, FAILED]
    ensures Plan(SPEC, RETRYING, FailingAt(LATER)) == [SECONDLY, ATTEMPT, FAILED_AGAIN]
  {
    NothingBetterThanB();
    Lookups(false);
    hide NodeScoring.Better, NodeScoring.Candidates, NodeScoring.FindNode, ReconcilePlan.DecideRecovered,
         ReconcilePlan.DecideCandidate, ReconcilePlan.Settle, ReconcilePlan.Recover;
  }

  function Attempting(st: Status, now: int, c: Context, stage: Stage, rest: seq<Effect>): World {
    World(st, {"a", "b"}, 1, now, Running(c, stage, rest))
  }

  lemma ReachFirstRun()
    ensures ReachedWith(
              Attempting(ROUTING, SECOND, Context(SPEC, ROUTING, FailingAt(SECOND)), Begun,
                         [FIRST, ATTEMPT, FAILED]), [])
  {
    hide ReachedWith, Reachable, ReconcilePlan.Plan;
    ReachRouting({"a"});
    assert {"a"} + {"b"} == {"a", "b"};
    ReachedAlready(At(ROUTING, {"a", "b"}, 1));
    FailingPlans();
    Readable(FailingAt(SECOND), false);
    hide System.Consistent, System.Judged;
    var none: seq<Call> := [];
    assert none + none == none;
    ReachedOn(At(ROUTING, {"a", "b"}, 1), none, Begin(FailingAt(SECOND)));
  }

  // The first run stamps, then waits for 59 seconds before its call.
  lemma ReachFirstStamp()
    ensures ReachedWith(
              Attempting(STAMPED, LATER - SECOND, Context(SPEC, ROUTING, FailingAt(SECOND)), Stamped,
                         [ATTEMPT, FAILED]),
              [])
  {
    hide ReachedWith, System.Consistent, System.Judged;
    ReachFirstRun();
    var c := Context(SPEC, ROUTING, FailingAt(SECOND));
    var none: seq<Call> := [];
    assert [FIRST, ATTEMPT, FAILED][1..] == [ATTEMPT, FAILED] && none + none == none;
    ReachedOn(Attempting(ROUTING, SECOND, c, Begun, [FIRST, ATTEMPT, FAILED]), none, Perform);
    ReachedOn(Attempting(STAMPED, SECOND, c, Stamped, [ATTEMPT, FAILED]), none, Tick(59 * SECOND));
  }

  lemma ReachFirstCall()
    ensures ReachedWith(World(RETRYING, {"a", "b"}, 1, LATER, Resting), [Call(SECOND, LATER - SECOND)])
  {
    hide ReachedWith;
    ReachFirstStamp();
    var c, first := Context(SPEC, ROUTING, FailingAt(SECOND)), [Call(SECOND, LATER - SECOND)];
    assert [ATTEMPT, FAILED][1..] == [FAILED] && [FAILED][1..] == [];
    ReachedOn(Attempting(STAMPED, LATER - SECOND, c, Stamped, [ATTEMPT, FAILED]), [], Perform);
    assert [] + first == first && first + [] == first;
    ReachedOn(Attempting(STAMPED, LATER - SECOND, c, Routed, [FAILED]), first, Perform);
    ReachedOn(World(RETRYING, {"a", "b"}, 1, LATER - SECOND, Resting), first, Tick(SECOND));
  }

  lemma ReachSecondRun()
    ensures ReachedWith(
              Attempting(RETRYING, LATER, Context(SPEC, RETRYING, FailingAt(LATER)), Begun,
                         [SECONDLY, ATTEMPT, FAILED_AGAIN]),
              [Call(SECOND, LATER - SECOND)])
  {
    hide ReachedWith, ReconcilePlan.Plan;
    ReachFirstCall();
    FailingPlans();
    Readable(FailingAt(LATER), false);
    hide System.Consistent, System.Judged;
    var first := [Call(SECOND, LATER - SECOND)];
    assert first + [] == first;
    ReachedOn(World(RETRYING, {"a", "b"}, 1, LATER, Resting), first, Begin(FailingAt(LATER)));
  }

  lemma ReachSecondStamp()
    ensures ReachedWith(
              Attempting(AGAIN, LATER, Context(SPEC, RETRYING, FailingAt(LATER)), Stamped, [ATTEMPT, FAILED_AGAIN]),
              [Call(SECOND, LATER - SECOND)])
  {
    hide ReachedWith, System.Consistent, System.Judged;
    ReachSecondRun();
    var c, first := Context(SPEC, RETRYING, FailingAt(LATER)), [Call(SECOND, LATER - SECOND)];
    assert [SECONDLY, ATTEMPT, FAILED_AGAIN][1..] == [ATTEMPT, FAILED_AGAIN] && first + [] == first;
    ReachedOn(Attempting(RETRYING, LATER, c, Begun, [SECONDLY, ATTEMPT, FAILED_AGAIN]), first, Perform);
  }

  // Two consecutive calls within one second, where 1 + window/cooldown is 1.
  lemma ExtraCallCanOccur()
    ensures exists w0, ls ::
              && Fresh(w0) && Valid(SITE, w0, ls) && |Calls(SITE, w0, ls)| >= 2
              && var i := |Calls(SITE, w0, ls)| - 2;
                 Calls(SITE, w0, ls)[i + 1].at - Calls(SITE, w0, ls)[i].at <= SECOND < Cooldown(SITE.spec)
  {
    ReachSecondStamp();
    hide ReachedWith;
    var c, first := Context(SPEC, RETRYING, FailingAt(LATER)), Call(SECOND, LATER - SECOND);
    ReachedOn(Attempting(AGAIN, LATER, c, Stamped, [ATTEMPT, FAILED_AGAIN]), [first], Perform);
    assert [first] + [Call(LATER, LATER)] == [first, Call(LATER, LATER)];
    assert [ATTEMPT, FAILED_AGAIN][1..] == [FAILED_AGAIN];
    LastTwo(Attempting(AGAIN, LATER, c, Routed, [FAILED_AGAIN]), first, Call(LATER, LATER));
  }

  lemma LastTwo(w: World, x: Call, y: Call)
    requires ReachedWith(w, [x, y]) && y.at - x.at <= SECOND < Cooldown(SITE.spec)
    ensures exists w0, ls ::
              && Fresh(w0) && Valid(SITE, w0, ls) && |Calls(SITE, w0, ls)| >= 2
              && var i := |Calls(SITE, w0, ls)| - 2;
                 Calls(SITE, w0, ls)[i + 1].at - Calls(SITE, w0, ls)[i].at <= SECOND < Cooldown(SITE.spec)
  {
    var w0, ls :|
      && Fresh(w0) && Valid(SITE, w0, ls) && Exec(SITE, w0, ls) == w
      && |Calls(SITE, w0, ls)| >= 2 && Calls(SITE, w0, ls)[|Calls(SITE, w0, ls)| - 2..] == [x, y];
    var calls := Calls(SITE, w0, ls);
    assert calls[|calls| - 2] == calls[|calls| - 2..][0] && calls[|calls| - 1] == calls[|calls| - 2..][1];
  }
}
