/**
 Crash-proof mutation effect: while only the controller moves the provider, the owner changes at most
 once to a target and at most once back to its source before the target changes, wherever the runs crash.
*/
module MutationEffect {
  import opened Api
  import opened ReconcilePlan
  import opened EffectLaw
  import opened System
  import opened Consequences
  import opened OwnerRetention

  // Owner changes since the target was last changed.
  datatype Moves = Moves(toTarget: nat, toSource: nat)

  function Count(m: Moves, w: World, v: World): Moves {
    if v.status.target != w.status.target then Moves(0, 0)
    else if v.owner == w.owner then m
    else if w.run.Running? && w.run.rest != [] && w.run.rest[0].Route? && w.run.rest[0].direction == Rollback then
      m.(toSource := m.toSource + 1)
    else m.(toTarget := m.toTarget + 1)
  }

  function OwnerMoves(site: Site, w: World, ls: seq<Label>): Moves
    decreases |ls|
  {
    if ls == [] then Moves(0, 0)
    else Count(OwnerMoves(site, w, ls[..|ls| - 1]), Exec(site, w, ls[..|ls| - 1]), Exec(site, w, ls))
  }

  ghost predicate Bounded(site: Site, w: World, m: Moves) {
    && m.toTarget <= 1 && m.toSource <= 1
    && (m.toTarget == 1 && m.toSource == 0 ==> RoutedTo(site, w, w.status.target))
    && (m.toSource == 1 ==> !RoutedTo(site, w, w.status.target) && !BeforeTraffic(w.status.phase))
  }

  lemma BoundedEffect(site: Site, w: World, m: Moves)
    requires Bounded(site, w, m) && Accurate(w) && LawfulRun(site, w) && w.run.Running?
    ensures var v := Performed(w, w.run.rest[0]); Bounded(site, v, Count(m, w, v))
  {
    hide EffectLaw.Chain, Api.MergePatch;
    PerformLaw(site, w);
    hide Consequences.StampStep, Consequences.ObservedStep, Consequences.CandidateStep, Consequences.CleanupStep,
         EffectLaw.Entered, EffectLaw.Known;
    var c, e, v := w.run.c, w.run.rest[0], Performed(w, w.run.rest[0]);
    match e
    case Read(_) =>
    case Route(Forward, server, _) => ServerOfSite(site, c.env.nodes, w.status.target);
    case Route(Rollback, server, _) =>
      ServerOfSite(site, c.env.nodes, w.status.target);
      ServerOfSite(site, c.env.nodes, w.status.source);
    case Patch(reason, _, _) =>
  }

  lemma BoundedStep(site: Site, w: World, m: Moves, l: Label)
    requires Bounded(site, w, m) && Accurate(w) && LawfulRun(site, w) && Enabled(site, w, l) && !l.Move?
    ensures Bounded(site, Next(site, w, l), Count(m, w, Next(site, w, l)))
    ensures Accurate(Next(site, w, l))
  {
    hide EffectLaw.Chain, ReconcilePlan.Plan;
    if l.Perform? {
      BoundedEffect(site, w, m);
      AccurateEffect(site, w);
    }
  }

  lemma {:induction false} OwnerMovesAreBounded(site: Site, w0: World, ls: seq<Label>)
    requires Fresh(w0) && Valid(site, w0, ls) && NoMoves(ls)
    ensures Bounded(site, Exec(site, w0, ls), OwnerMoves(site, w0, ls)) && Accurate(Exec(site, w0, ls))
    decreases |ls|
  {
    if ls != [] {
      var before, last := ls[..|ls| - 1], ls[|ls| - 1];
      assert NoMoves(before) && !last.Move? by { assert last in ls; }
      OwnerMovesAreBounded(site, w0, before);
      RunsAreLawful(site, w0, before);
      BoundedStep(site, Exec(site, w0, before), OwnerMoves(site, w0, before), last);
    }
  }
}
