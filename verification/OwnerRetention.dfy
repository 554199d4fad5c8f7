/**
 Owner retention: as long as the provider moves only by the controller's calls and retargets happen at
 settled moments, the cluster node the provider routes to is always source or target, so no agent takes
 the address from it; and once that node holds the address, the routed node holds it for ever after.
*/
module OwnerRetention {
  import opened Api
  import opened NodeScoring
  import opened ReconcilePlan
  import opened EffectLaw
  import opened NodeInterface
  import opened System
  import opened Consequences
  import opened RouteGate

  ghost predicate RoutedTo(site: Site, w: World, n: string) {
    n in site.servers && site.servers[n] == w.owner
  }

  // Every cluster node the provider routes to is source or target.
  ghost predicate Retained(site: Site, w: World) {
    w.status.target != "" ==> forall n :: RoutedTo(site, w, n) ==> IsRole(w.status, n)
  }

  // Until a run calls the provider, its first reading of the owner stays true.
  ghost predicate Accurate(w: World) {
    w.run.Running? && w.run.stage != Routed ==> w.owner == w.run.c.env.owner
  }

  // Performing the next effect would be a retarget.
  predicate AtRetarget(w: World) {
    w.run.Running? && w.run.rest != [] && Has(w.run.rest[0], WindowElapsed)
  }

  // The provider points at no cluster node but the outgoing and the incoming target.
  ghost predicate Settled(site: Site, w: World)
    requires AtRetarget(w)
  {
    forall n :: RoutedTo(site, w, n) ==> n == w.status.target || n == Performed(w, w.run.rest[0]).status.target
  }

  ghost predicate RetargetsSettled(site: Site, w: World, ls: seq<Label>)
    decreases |ls|
  {
    ls == [] ||
    (var before := Exec(site, w, ls[..|ls| - 1]);
     RetargetsSettled(site, w, ls[..|ls| - 1]) &&
     (ls[|ls| - 1].Perform? && AtRetarget(before) ==> Settled(site, before)))
  }

  ghost predicate Keeps(site: Site, w: World) { Retained(site, w) && Accurate(w) }

  // The exact condition for one retarget.
  lemma RetargetKeepsOwnerIff(site: Site, w: World)
    requires LawfulRun(site, w) && AtRetarget(w)
    ensures Retained(site, Performed(w, w.run.rest[0])) <==> Settled(site, w)
  {
    hide EffectLaw.Chain, Api.MergePatch;
    PerformLaw(site, w);
    var v := Performed(w, w.run.rest[0]);
    assert v.status.source == w.status.target && v.status.target != "";
    assert forall n :: RoutedTo(site, v, n) <==> RoutedTo(site, w, n);
  }

  // A provider call goes to the server of target or source.
  lemma CallRoutesToRole(site: Site, w: World)
    requires LawfulRun(site, w) && w.run.Running? && w.run.rest[0].Route? && Injective(site.servers)
    ensures var v := Performed(w, w.run.rest[0]);
            v.status == w.status && v.holders == w.holders
    ensures var v := Performed(w, w.run.rest[0]);
            v.owner == w.owner ||
            forall n :: RoutedTo(site, v, n) ==>
                n == (if w.run.rest[0].direction == Forward then w.status.target else w.status.source)
  {
    hide EffectLaw.Chain, EffectLaw.After;
    PerformLaw(site, w);
    hide Consequences.Step, EffectLaw.Entered, EffectLaw.Known;
    match w.run.rest[0]
    case Route(Forward, server, _) => ServerOfSite(site, w.run.c.env.nodes, w.status.target);
    case Route(Rollback, server, _) => ServerOfSite(site, w.run.c.env.nodes, w.status.source);
  }

  lemma KeepsPatch(site: Site, w: World)
    requires Keeps(site, w) && LawfulRun(site, w) && w.run.Running? && w.run.rest[0].Patch? && Injective(site.servers)
    requires CanPerform(w, w.run.c, w.run.rest[0]) && (AtRetarget(w) ==> Settled(site, w))
    ensures Retained(site, Performed(w, w.run.rest[0]))
  {
    hide EffectLaw.Chain, EffectLaw.After, EffectLaw.Entered, EffectLaw.Known;
    OwnersStepLaw(site, w);
    var c, e, v := w.run.c, w.run.rest[0], Performed(w, w.run.rest[0]);
    assert forall n :: RoutedTo(site, v, n) <==> RoutedTo(site, w, n);
    if e.reason == WindowElapsed {
      RetargetKeepsOwnerIff(site, w);
    } else if e.reason == Committed {
      ServerOfSite(site, c.env.nodes, w.status.target);
    } else if e.reason == OwnerObserved && v.status.target != w.status.target {
      OwnerNodeOfSite(site, c.env.nodes, c.env.owner);
    }
  }

  lemma KeepsEffect(site: Site, w: World)
    requires Keeps(site, w) && LawfulRun(site, w) && w.run.Running? && Injective(site.servers)
    requires CanPerform(w, w.run.c, w.run.rest[0]) && (AtRetarget(w) ==> Settled(site, w))
    ensures Keeps(site, Performed(w, w.run.rest[0]))
  {
    hide EffectLaw.Chain, Api.MergePatch;
    AccurateEffect(site, w);
    var v := Performed(w, w.run.rest[0]);
    match w.run.rest[0]
    case Patch(_, _, _) => KeepsPatch(site, w);
    case Route(_, _, _) =>
      CallRoutesToRole(site, w);
      assert v.owner == w.owner ==> forall n :: RoutedTo(site, v, n) ==> RoutedTo(site, w, n);
    case Read(_) => assert forall n :: RoutedTo(site, v, n) ==> RoutedTo(site, w, n);
  }

  lemma AccurateEffect(site: Site, w: World)
    requires Accurate(w) && LawfulRun(site, w) && w.run.Running?
    ensures Accurate(Performed(w, w.run.rest[0]))
  {
    hide EffectLaw.Chain, EffectLaw.After, Consequences.Step, EffectLaw.LawfulForward, EffectLaw.LawfulRollback;
    PerformLaw(site, w);
  }

  lemma KeepsStep(site: Site, w: World, l: Label)
    requires Keeps(site, w) && LawfulRun(site, w) && Enabled(site, w, l) && !l.Move? && Injective(site.servers)
    requires l.Perform? && AtRetarget(w) ==> Settled(site, w)
    ensures Keeps(site, Next(site, w, l))
  {
    hide EffectLaw.Chain, ReconcilePlan.Plan;
    if l.Perform? {
      KeepsEffect(site, w);
    } else {
      assert forall n :: RoutedTo(site, Next(site, w, l), n) <==> RoutedTo(site, w, n);
    }
  }

  lemma {:induction false} OwnerIsRetained(site: Site, w0: World, ls: seq<Label>)
    requires Fresh(w0) && Valid(site, w0, ls) && Injective(site.servers)
    requires NoMoves(ls) && RetargetsSettled(site, w0, ls)
    ensures Keeps(site, Exec(site, w0, ls))
    decreases |ls|
  {
    if ls != [] {
      var before, last := ls[..|ls| - 1], ls[|ls| - 1];
      assert NoMoves(before) && !last.Move? by { assert last in ls; }
      OwnerIsRetained(site, w0, before);
      RunsAreLawful(site, w0, before);
      KeepsStep(site, Exec(site, w0, before), last);
    }
  }

  ghost predicate AlwaysRetained(site: Site, w: World, ls: seq<Label>)
    decreases |ls|
  {
    Retained(site, Exec(site, w, ls)) && (ls != [] ==> AlwaysRetained(site, w, ls[..|ls| - 1]))
  }

  // The exact condition for whole runs: the routed node is source or target in every world of the run if and
  // only if every retarget is settled.
  lemma {:induction false} OwnerIsRetainedIff(site: Site, w0: World, ls: seq<Label>)
    requires Fresh(w0) && Valid(site, w0, ls) && Injective(site.servers) && NoMoves(ls)
    ensures AlwaysRetained(site, w0, ls) <==> RetargetsSettled(site, w0, ls)
    decreases |ls|
  {
    if ls != [] {
      var before, last := ls[..|ls| - 1], ls[|ls| - 1];
      assert NoMoves(before) by { assert forall l :: l in before ==> l in ls; }
      OwnerIsRetainedIff(site, w0, before);
      RunsAreLawful(site, w0, before);
      if last.Perform? && AtRetarget(Exec(site, w0, before)) { RetargetKeepsOwnerIff(site, Exec(site, w0, before)); }
      if RetargetsSettled(site, w0, ls) { OwnerIsRetained(site, w0, ls); }
    }
  }

  // So no agent run ever takes the address from the node the provider routes to.
  lemma NoAgentStripsTheOwner(site: Site, w0: World, ls: seq<Label>, node: string, crash: bool)
    requires Fresh(w0) && Valid(site, w0, ls + [Agent(node, crash)]) && Injective(site.servers)
    requires NoMoves(ls) && RetargetsSettled(site, w0, ls)
    requires Exec(site, w0, ls).status.target != ""
    ensures var w := Exec(site, w0, ls);
            forall n :: RoutedTo(site, w, n) && n in w.holders ==> n in AgentRan(w, node, crash).holders
  {
    var all := ls + [Agent(node, crash)];
    assert all[..|all| - 1] == ls;
    OwnerIsRetained(site, w0, ls);
  }

  // ---- availability ----

  // The routed cluster node holds the address, and so does the recorded source.
  ghost predicate Served(site: Site, w: World) {
    && w.status.target != "" && Retained(site, w)
    && (forall n :: RoutedTo(site, w, n) ==> n in w.holders)
    && (w.status.source != "" ==> w.status.source in w.holders)
  }

  // Every retarget happens while the provider points at the outgoing target.
  ghost predicate RetargetsFromRouted(site: Site, w: World, ls: seq<Label>)
    decreases |ls|
  {
    ls == [] ||
    (var before := Exec(site, w, ls[..|ls| - 1]);
     RetargetsFromRouted(site, w, ls[..|ls| - 1]) &&
     (ls[|ls| - 1].Perform? && AtRetarget(before) ==> RoutedTo(site, before, before.status.target)))
  }

  lemma ServedPatch(site: Site, w: World)
    requires Served(site, w) && Accurate(w) && LawfulRun(site, w) && w.run.Running? && w.run.rest[0].Patch?
    requires Injective(site.servers) && CanPerform(w, w.run.c, w.run.rest[0])
    requires AtRetarget(w) ==> RoutedTo(site, w, w.status.target)
    ensures Served(site, Performed(w, w.run.rest[0]))
  {
    hide EffectLaw.Chain, EffectLaw.After, EffectLaw.Entered, EffectLaw.Known;
    OwnersStepLaw(site, w);
    var v := Performed(w, w.run.rest[0]);
    assert forall n :: RoutedTo(site, v, n) <==> RoutedTo(site, w, n);
    if w.run.rest[0].reason == Committed { ServerOfSite(site, w.run.c.env.nodes, w.status.target); }
  }

  // The node that a call routes to holds the address: the target by the gate, the source by the invariant.
  lemma ServedCall(site: Site, w: World)
    requires Served(site, w) && Prepared(w) && LawfulRun(site, w) && w.run.Running? && w.run.rest[0].Route?
    requires Injective(site.servers)
    ensures Served(site, Performed(w, w.run.rest[0]))
  {
    hide EffectLaw.Chain, EffectLaw.After;
    PerformLaw(site, w);
    hide Consequences.Step, EffectLaw.Entered, EffectLaw.Known;
    CallRoutesToRole(site, w);
    var v := Performed(w, w.run.rest[0]);
    assert v.owner == w.owner ==> forall n :: RoutedTo(site, v, n) ==> RoutedTo(site, w, n);
  }

  lemma ServedEffect(site: Site, w: World)
    requires Served(site, w) && Accurate(w) && Prepared(w) && LawfulRun(site, w) && w.run.Running?
    requires Injective(site.servers) && CanPerform(w, w.run.c, w.run.rest[0])
    requires AtRetarget(w) ==> RoutedTo(site, w, w.status.target)
    ensures Served(site, Performed(w, w.run.rest[0]))
  {
    hide EffectLaw.Chain, Api.MergePatch;
    var v := Performed(w, w.run.rest[0]);
    match w.run.rest[0]
    case Patch(_, _, _) => ServedPatch(site, w);
    case Route(_, _, _) => ServedCall(site, w);
    case Read(_) => assert v.status == w.status && forall n :: RoutedTo(site, v, n) ==> RoutedTo(site, w, n);
  }

  lemma ServedAgent(site: Site, w: World, node: string, crash: bool)
    requires Served(site, w) && node != ""
    ensures Served(site, AgentRan(w, node, crash))
  {
    AgentTouchesOnlyItself(node, w.status.source, w.status.target, Local(w.status.localOwners, w.holders), crash);
    assert forall n :: RoutedTo(site, AgentRan(w, node, crash), n) <==> RoutedTo(site, w, n);
  }

  lemma ServedStep(site: Site, w: World, l: Label)
    requires Served(site, w) && Accurate(w) && Prepared(w) && LawfulRun(site, w)
    requires Enabled(site, w, l) && !l.Move? && Injective(site.servers)
    requires l.Perform? && AtRetarget(w) ==> RoutedTo(site, w, w.status.target)
    ensures Served(site, Next(site, w, l)) && Accurate(Next(site, w, l))
  {
    hide EffectLaw.Chain, ReconcilePlan.Plan;
    if l.Perform? {
      ServedEffect(site, w);
      assert AtRetarget(w) ==> Settled(site, w);
      KeepsEffect(site, w);
    } else if l.Agent? {
      ServedAgent(site, w, l.node, l.crash);
    } else {
      assert forall n :: RoutedTo(site, Next(site, w, l), n) <==> RoutedTo(site, w, n);
    }
  }

  // From any reachable world between runs that is served, every later world is served: through routing,
  // rollback, commit and cleanup, with crashes of the controller and of agents at any point.
  lemma {:induction false} ServedForEver(site: Site, w0: World, past: seq<Label>, ls: seq<Label>)
    requires Fresh(w0) && Valid(site, w0, past) && Injective(site.servers)
    requires var w := Exec(site, w0, past);
             && w.run == Resting && Served(site, w) && Valid(site, w, ls)
             && NoMoves(ls) && RetargetsFromRouted(site, w, ls)
    ensures var v := Exec(site, Exec(site, w0, past), ls);
            Served(site, v) && Accurate(v) && Prepared(v) && LawfulRun(site, v)
    decreases |ls|
  {
    AlwaysPrepared(site, w0, past);
    var w := Exec(site, w0, past);
    if ls != [] {
      var before, last := ls[..|ls| - 1], ls[|ls| - 1];
      assert NoMoves(before) && !last.Move? by { assert last in ls; }
      ServedForEver(site, w0, past, before);
      var u := Exec(site, w, before);
      ServedStep(site, u, last);
      PreparedStep(site, u, last);
      LawfulStep(site, u, last);
    }
  }

  // Not so before the first adoption: then every agent, the routed node's included, removes the address.
  lemma UnadoptedOwnerIsStripped(site: Site, w: World, n: string, crash: bool)
    requires Fresh(w) && RoutedTo(site, w, n) && n != ""
    ensures Enabled(site, w, Agent(n, crash)) && RoutedTo(site, Next(site, w, Agent(n, crash)), n)
    ensures n !in Next(site, w, Agent(n, crash)).holders
  {
  }
}
