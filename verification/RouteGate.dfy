/**
 Make before break: the provider is asked to route the address to the target only while the target's
 interface holds it. Holds in every reachable world, whatever crashes and whoever else moves the provider.
*/
module RouteGate {
  import opened Prelude
  import opened Api
  import opened NodeScoring
  import opened Policy
  import opened ReconcilePlan
  import opened EffectLaw
  import opened NodeInterface
  import opened System
  import opened Consequences
  import ProbeChecks

  // The run has yet to perform its observation patch, which also refreshes its LocalOwners.
  predicate Observing(w: World) {
    w.run.Running? && w.run.rest != [] && w.run.stage == Begun && IsObservation(w.run.rest[0])
  }

  // What the run believes about LocalOwners is still good enough.
  ghost predicate KnownStands(w: World, c: Context) {
    && (w.status.target != "" && w.status.target in Known(c) ==> w.status.target in w.holders)
    && (Known(c) == [] ==> forall n :: n in w.status.localOwners ==> IsRole(w.status, n))
  }

  // A reported source or target really holds the address.
  ghost predicate ReportsStand(w: World) {
    && (forall n :: n in w.status.localOwners ==> n != "")
    && (w.status.target == "" ==> w.status.source == "" && w.status.localOwners == [])
    && (forall n :: n in w.status.localOwners && IsRole(w.status, n) ==> n in w.holders)
  }

  ghost predicate Prepared(w: World) {
    && ReportsStand(w)
    && (w.run.Running? && Entered(w.run.c) && !Observing(w) ==> KnownStands(w, w.run.c))
  }

  lemma EnteredObservesFirst(c: Context)
    requires Entered(c) && Observed(c.start, c.env) != c.start
    ensures var effects := Plan(c.spec, c.start, c.env); effects != [] && IsObservation(effects[0])
  {
    hide ReconcilePlan.Decide;
  }

  lemma PreparedBegin(site: Site, w: World, env: Env)
    requires Prepared(w) && w.run == Resting
    ensures Prepared(StartRun(site, w, env))
  {
    hide ReconcilePlan.Plan, EffectLaw.Entered;
    var c := Context(site.spec, w.status, env);
    if Entered(c) && Observed(w.status, env) != w.status { EnteredObservesFirst(c); }
  }

  lemma PreparedAgent(w: World, node: string, crash: bool)
    requires Prepared(w) && node != ""
    ensures Prepared(AgentRan(w, node, crash))
  {
    hide EffectLaw.Entered, EffectLaw.Known;
    AgentTouchesOnlyItself(node, w.status.source, w.status.target, Local(w.status.localOwners, w.holders), crash);
    WithoutMembers(w.status.localOwners, node);
    var v := AgentRan(w, node, crash);
    assert v.status.localOwners != [] ==> v.status.localOwners[0] in v.status.localOwners;
    if w.status.target == "" && w.status.localOwners == [] { assert Without([], node) == []; }
  }

  // What an effect does to the fields that the invariant mentions.
  ghost predicate OwnersStep(w: World, v: World, c: Context, stage: Stage, e: Effect) {
    && v.holders == w.holders
    && match e
       case Read(_) => v.status == w.status
       case Route(_, _, _) => v.status == w.status
       case Patch(reason, _, _) =>
         && RolesStep(c, Core(w.status), reason, Core(v.status))
         && v.status.localOwners == (if reason == WindowElapsed && Known(c) != [] then [] else w.status.localOwners)
         && (reason == WindowElapsed ==> Entered(c) && stage != Routed)
         && (stage == Routed ==> FollowsRoute(e))
  }

  lemma OwnersStepLaw(site: Site, w: World)
    requires LawfulRun(site, w) && w.run.Running? && CanPerform(w, w.run.c, w.run.rest[0])
    ensures OwnersStep(w, Performed(w, w.run.rest[0]), w.run.c, w.run.stage, w.run.rest[0])
  {
    hide EffectLaw.Chain, EffectLaw.LawfulForward, EffectLaw.LawfulRollback, EffectLaw.Entered, EffectLaw.Known;
    PerformLaw(site, w);
    NextEffectIsLawful(site, w);
    OwnersLaw(w.run.c, w.run.stage, w.status, w.run.rest[0]);
    hide EffectLaw.Lawful, EffectLaw.After, Consequences.PhaseStep, Consequences.StampStep, Consequences.ObservedStep,
         Consequences.CandidateStep, Consequences.CleanupStep, Consequences.RolesStep;
  }

  lemma ReportsAfter(site: Site, w: World)
    requires Prepared(w) && LawfulRun(site, w) && w.run.Running? && CanPerform(w, w.run.c, w.run.rest[0])
    ensures ReportsStand(Performed(w, w.run.rest[0]))
  {
    hide EffectLaw.Chain, EffectLaw.Entered, EffectLaw.Known, EffectLaw.After;
    var c, e, v := w.run.c, w.run.rest[0], Performed(w, w.run.rest[0]);
    OwnersStepLaw(site, w);
    if e.Patch? && e.reason == OwnerObserved && !SameRoles(w.status, v.status) {
      OwnerNodeOfSite(site, c.env.nodes, c.env.owner);
    }
  }

  lemma KnownAfter(site: Site, w: World)
    requires Prepared(w) && LawfulRun(site, w) && w.run.Running? && CanPerform(w, w.run.c, w.run.rest[0])
    ensures var v := Performed(w, w.run.rest[0]);
            v.run.Running? && Entered(v.run.c) && !Observing(v) ==> KnownStands(v, v.run.c)
  {
    var c, e := w.run.c, w.run.rest[0];
    NextEffectIsLawful(site, w);
    StepLaw(c, w.run.stage, w.status, e);
    OwnersLaw(c, w.run.stage, w.status, e);
    hide EffectLaw.Lawful, EffectLaw.Chain, EffectLaw.Entered, EffectLaw.Known, Api.MergePatch, EffectLaw.After,
         Consequences.PhaseStep, Consequences.StampStep, Consequences.ObservedStep, Consequences.CandidateStep,
         Consequences.CleanupStep;
    var v := Performed(w, e);
    assert SameRoles(Core(w.status), Core(v.status)) ==> SameRoles(w.status, v.status);
  }

  lemma PreparedEffect(site: Site, w: World)
    requires Prepared(w) && LawfulRun(site, w) && w.run.Running? && CanPerform(w, w.run.c, w.run.rest[0])
    ensures Prepared(Performed(w, w.run.rest[0]))
  {
    hide LawfulRun, Performed, ReportsStand, KnownStands;
    LawfulRunGoesOn(site, w);
    ReportsAfter(site, w);
    KnownAfter(site, w);
  }

  lemma PreparedStep(site: Site, w: World, l: Label)
    requires Prepared(w) && LawfulRun(site, w) && Enabled(site, w, l)
    ensures Prepared(Next(site, w, l))
  {
    hide EffectLaw.Chain, EffectLaw.Entered, EffectLaw.Known;
    match l
    case Begin(env) => PreparedBegin(site, w, env);
    case Perform => PreparedEffect(site, w);
    case Agent(node, crash) => PreparedAgent(w, node, crash);
    case _ =>
  }

  lemma {:induction false} AlwaysPrepared(site: Site, w: World, ls: seq<Label>)
    requires Fresh(w) && Valid(site, w, ls)
    ensures Prepared(Exec(site, w, ls)) && LawfulRun(site, Exec(site, w, ls))
    decreases |ls|
  {
    if ls != [] {
      var before := ls[..|ls| - 1];
      AlwaysPrepared(site, w, before);
      PreparedStep(site, Exec(site, w, before), ls[|ls| - 1]);
      LawfulStep(site, Exec(site, w, before), ls[|ls| - 1]);
    }
  }

  // The gate on every forward call.
  lemma ForwardRouteIsGated(site: Site, w0: World, ls: seq<Label>)
    requires Fresh(w0) && Valid(site, w0, ls)
    requires var w := Exec(site, w0, ls);
             w.run.Running? && w.run.rest != [] && w.run.rest[0].Route? && w.run.rest[0].direction == Forward
    ensures var w := Exec(site, w0, ls);
            var call, env := w.run.rest[0], w.run.c.env;
            && w.status.phase == RoutingProvider
            && w.status.target in site.servers && call.server == site.servers[w.status.target]
            && w.status.target in w.holders
            && ProbeChecks.Passes(site.spec.probeComposition, site.spec.probeQuorum, env.preRouteProbes,
                ProbeChecks.PreRoute)
            && FenceAccepts(w.run.c.start.observed, env.owner, ServerOf(env.nodes, w.run.c.start.target))
            && w.status.lastAttempted == Some(env.now)
  {
    var w := Exec(site, w0, ls);
    AlwaysPrepared(site, w0, ls);
    RunsAreJudged(site, w0, ls);
    hide ProbeChecks.Passes;
    NextEffectIsLawful(site, w);
    ServerOfSite(site, w.run.c.env.nodes, w.status.target);
  }

  // And on every rollback call: only under that policy, after a failed traffic check, from the routed
  // target back to the recorded source, under the fence and with a durable stamp.
  lemma RollbackIsGated(site: Site, w0: World, ls: seq<Label>)
    requires Fresh(w0) && Valid(site, w0, ls)
    requires var w := Exec(site, w0, ls);
             w.run.Running? && w.run.rest != [] && w.run.rest[0].Route? && w.run.rest[0].direction == Rollback
    ensures var w := Exec(site, w0, ls);
            var call, env := w.run.rest[0], w.run.c.env;
            && site.spec.recoveryPolicy == RecoveryPolicy.RollbackProvider
            && !ProbeChecks.Passes(site.spec.probeComposition, site.spec.probeQuorum, env.postRouteProbes,
                ProbeChecks.PostRoute)
            && w.status.source in site.servers && call.server == site.servers[w.status.source]
            && w.status.target in site.servers && env.owner == site.servers[w.status.target]
            && env.recoveryRead.Some? && FenceAccepts(w.status.observed, env.recoveryRead.value, Some(call.server))
            && w.status.lastAttempted == Some(env.now) && !BeforeTraffic(w.status.phase)
  {
    var w := Exec(site, w0, ls);
    AlwaysPrepared(site, w0, ls);
    RunsAreJudged(site, w0, ls);
    hide ProbeChecks.Passes;
    NextEffectIsLawful(site, w);
    ServerOfSite(site, w.run.c.env.nodes, w.status.source);
    ServerOfSite(site, w.run.c.env.nodes, w.status.target);
  }
}
