/**
 The controller's own fence. While nobody else moves the provider, it refuses a run exactly when a rollback call
 took effect and its outcome was not recorded; and then it refuses every later run, so that no manual retry ever
 brings the transition back.
*/
module OwnFence {
  import opened Prelude
  import opened Api
  import opened NodeScoring
  import opened Policy
  import opened ReconcilePlan
  import opened EffectLaw
  import opened NodeInterface
  import opened System
  import opened Consequences
  import opened RouteGate
  import opened OwnerRetention
  import opened Recovery
  import opened Scenario
  import opened SourceHolds
  import MutationEffect

  // Whether a rollback call that took effect still lacks its record.
  function LostAfter(lost: bool, e: Effect): bool {
    if e.Route? && e.direction == Rollback && e.applied then true
    else if e.Patch? && Restores(e.reason) then false
    else lost
  }

  predicate RollbackLost(site: Site, w: World, ls: seq<Label>)
    decreases |ls|
  {
    ls != [] &&
    var before, lost := Exec(site, w, ls[..|ls| - 1]), RollbackLost(site, w, ls[..|ls| - 1]);
    if ls[|ls| - 1].Perform? && before.run.Running? && before.run.rest != [] then LostAfter(lost, before.run.rest[0])
    else lost
  }

  // How record, provider and target stand to each other.
  ghost predicate Stands(site: Site, w: World, lost: bool) {
    if lost then
      && w.status.target in site.servers && w.status.target != "" && !RoutedTo(site, w, w.status.target)
      && w.status.observed.Some? && w.status.observed != Some(w.owner) && !BeforeTraffic(w.status.phase)
      && (w.run.Running? ==> w.run.stage == Routed || !Entered(w.run.c))
    else
      || w.status.observed.None? || w.status.observed == Some(w.owner)
      || (w.status.target != "" && RoutedTo(site, w, w.status.target))
  }

  // The target has no server id only if there is no target.
  predicate Annotated(nodes: seq<Node>, target: string) { target == "" || ServerOf(nodes, target).Some? }

  // Before it calls the provider, a run that the fence let pass has a true record, and one that it did not
  // let pass faces a lost rollback.
  ghost predicate Abreast(w: World, lost: bool) {
    w.run.Running? && w.run.stage != Routed ==>
      && (Entered(w.run.c) && !Observing(w) ==> w.status.observed == Some(w.run.c.env.owner))
      && (!Fenced(w.run.c) && Annotated(w.run.c.env.nodes, w.run.c.start.target) ==> lost)
  }

  ghost predicate InStep(site: Site, w: World, lost: bool) { Stands(site, w, lost) && Abreast(w, lost) }

  ghost predicate Lawfully(site: Site, w: World) { LawfulRun(site, w) && Accurate(w) && Answered(w) }

  // ---- a run begins ----

  lemma FenceRefusesIff(site: Site, w: World, env: Env, lost: bool)
    requires Stands(site, w, lost) && Consistent(site, env.nodes) && env.owner == w.owner
    requires Annotated(env.nodes, w.status.target)
    ensures !FenceAccepts(w.status.observed, env.owner, ServerOf(env.nodes, w.status.target)) <==> lost
  {
    if w.status.target != "" { ServerOfSite(site, env.nodes, w.status.target); }
  }

  lemma LostIsRefused(site: Site, w: World, env: Env)
    requires Stands(site, w, true) && Consistent(site, env.nodes) && env.owner == w.owner
    ensures !Fenced(Context(site.spec, w.status, env))
  {
    if ServerOf(env.nodes, w.status.target).Some? { ServerOfSite(site, env.nodes, w.status.target); }
  }

  lemma InStepBegin(site: Site, w: World, env: Env, lost: bool)
    requires InStep(site, w, lost) && Enabled(site, w, Begin(env))
    ensures InStep(site, StartRun(site, w, env), lost)
  {
    var c := Context(site.spec, w.status, env);
    if lost { LostIsRefused(site, w, env); }
    if Annotated(env.nodes, w.status.target) { FenceRefusesIff(site, w, env, lost); }
    if Entered(c) && Observed(w.status, env) != w.status { EnteredObservesFirst(c); }
    assert Observed(w.status, env) == w.status ==> w.status.observed == Some(env.owner);
    hide ReconcilePlan.Plan, EffectLaw.Entered, System.Judged, System.Consistent, Policy.FenceAccepts,
         NodeScoring.ServerOf, ReconcilePlan.Observed;
  }

  // ---- a call ----

  lemma InStepCall(site: Site, w: World, lost: bool)
    requires InStep(site, w, lost) && Lawfully(site, w) && w.run.Running? && w.run.rest[0].Route?
    ensures InStep(site, Performed(w, w.run.rest[0]), LostAfter(lost, w.run.rest[0]))
  {
    hide EffectLaw.Chain, EffectLaw.After;
    PerformLaw(site, w);
    LastAnswer(w);
    hide Consequences.Step, EffectLaw.Known, Backed;
    var c := w.run.c;
    match w.run.rest[0]
    case Route(Forward, server, _) => ServerOfSite(site, c.env.nodes, w.status.target);
    case Route(Rollback, server, _) =>
      ServerOfSite(site, c.env.nodes, w.status.target);
      ServerOfSite(site, c.env.nodes, w.status.source);
  }

  lemma LastAnswer(w: World)
    requires Answered(w) && w.run.Running? && w.run.rest != []
    ensures Justified(Some(w.owner), w.run.rest[0])
  {
  }

  // ---- a patch ----

  // A refused run changes neither the record nor the roles, and enters no phase before the traffic check.
  lemma RefusalLaw(c: Context, stage: Stage, a: Status, e: Effect)
    requires Lawful(c, stage, a, e) && e.Patch? && stage != Routed && !Entered(c)
    ensures var b := After(a, e);
            b.observed == a.observed && SameRoles(a, b) && (BeforeTraffic(b.phase) ==> BeforeTraffic(a.phase))
    ensures !Restores(e.reason)
  {
    hide EffectLaw.Entered, Api.MergePatch;
    var x, y := Core(a), Core(After(a, e));
    assert LawfulEntry(c, x, e.reason, y);
    hide EffectLaw.Lawful;
    assert y == After(a, e).(localOwners := []) && x == a.(localOwners := []);
  }

  // After a call the record changes only from RoutingProvider or by restoring the source.
  lemma OutcomeLaw(c: Context, a: Status, e: Effect)
    requires Lawful(c, Routed, a, e) && e.Patch? && !BeforeTraffic(a.phase) && !Restores(e.reason)
    ensures var b := After(a, e); b.observed == a.observed && SameRoles(a, b) && !BeforeTraffic(b.phase)
  {
    hide Api.MergePatch;
    var x, y := Core(a), Core(After(a, e));
    assert LawfulOutcome(c, x, e.reason, y);
    hide EffectLaw.Lawful;
    assert y == After(a, e).(localOwners := []) && x == a.(localOwners := []);
  }

  // What a patch that does not restore the source leaves alone in a run without a true record.
  lemma LostPatchLaw(site: Site, w: World)
    requires Stands(site, w, true) && LawfulRun(site, w) && w.run.Running? && w.run.rest[0].Patch?
    requires !Restores(w.run.rest[0].reason)
    ensures var a, b := w.status, Performed(w, w.run.rest[0]).status;
            b.observed == a.observed && SameRoles(a, b) && !BeforeTraffic(b.phase)
  {
    hide EffectLaw.Chain, EffectLaw.Lawful, EffectLaw.After, EffectLaw.Entered;
    NextEffectIsLawful(site, w);
    if w.run.stage == Routed {
      OutcomeLaw(w.run.c, w.status, w.run.rest[0]);
    } else {
      RefusalLaw(w.run.c, w.run.stage, w.status, w.run.rest[0]);
    }
  }

  lemma PatchGoesOn(site: Site, w: World)
    requires LawfulRun(site, w) && w.run.Running? && w.run.rest[0].Patch?
    ensures var v := Performed(w, w.run.rest[0]);
            && v.owner == w.owner && w.run.stage != Stamped
            && (v.run.Running? ==> v.run.c == w.run.c && (v.run.stage == Routed <==> w.run.stage == Routed))
  {
    hide EffectLaw.Chain, EffectLaw.LawfulPatch, EffectLaw.LawfulOutcome, EffectLaw.After;
    NextEffectIsLawful(site, w);
  }

  lemma LostPatch(site: Site, w: World)
    requires InStep(site, w, true) && LawfulRun(site, w) && w.run.Running? && w.run.rest[0].Patch?
    requires !Restores(w.run.rest[0].reason)
    ensures InStep(site, Performed(w, w.run.rest[0]), true)
  {
    hide EffectLaw.Chain, Performed, EffectLaw.Entered, EffectLaw.Fenced;
    LostPatchLaw(site, w);
    PatchGoesOn(site, w);
    hide LawfulRun;
  }

  lemma RestoringPatch(site: Site, w: World, lost: bool)
    requires InStep(site, w, lost) && Lawfully(site, w) && w.run.Running? && w.run.rest[0].Patch?
    requires Restores(w.run.rest[0].reason)
    ensures InStep(site, Performed(w, w.run.rest[0]), false)
  {
    hide EffectLaw.Chain, EffectLaw.After, Answered;
    RestoringEffect(site, w);
  }

  // The target changes by adoption or by a retarget, and the record is then that of the run.
  lemma TargetLaw(site: Site, w: World)
    requires LawfulRun(site, w) && w.run.Running? && w.run.rest[0].Patch?
    ensures var c, e, v := w.run.c, w.run.rest[0], Performed(w, w.run.rest[0]);
            v.status.target != w.status.target ==>
              w.run.stage != Routed && Entered(c)
                  && (e.reason == OwnerObserved || (e.reason == WindowElapsed && v.run == Resting))
  {
    hide EffectLaw.Chain, EffectLaw.After;
    PerformLaw(site, w);
    hide Consequences.PhaseStep, Consequences.StampStep, Consequences.ObservedStep, Consequences.CleanupStep;
    var c, e, v := w.run.c, w.run.rest[0], Performed(w, w.run.rest[0]);
    assert Core(v.status).target == v.status.target && Core(w.status).target == w.status.target;
    if e.reason == OwnerObserved {
      NextEffectIsLawful(site, w);
      ObservationEnters(c, w.run.stage, w.status, e);
    }
  }

  lemma ObservationEnters(c: Context, stage: Stage, a: Status, e: Effect)
    requires Lawful(c, stage, a, e) && Has(e, OwnerObserved)
    ensures Entered(c) && stage == Begun
  {
    hide EffectLaw.Entered, Api.MergePatch, EffectLaw.LawfulOutcome;
  }

  lemma TruePatchLaw(site: Site, w: World)
    requires Lawfully(site, w) && w.run.Running? && w.run.rest[0].Patch?
    ensures var a, v := w.status, Performed(w, w.run.rest[0]);
            && (v.status.observed != a.observed ==> v.status.observed == Some(v.owner))
            && (w.run.stage != Routed ==> w.owner == w.run.c.env.owner)
            && (Observing(w) ==> v.status.observed == Some(w.run.c.env.owner))
            && (v.status.target != a.target ==>
                  w.run.stage != Routed && Entered(w.run.c) && (Observing(w) || v.run == Resting))
  {
    hide EffectLaw.Chain, EffectLaw.Lawful, EffectLaw.After, EffectLaw.Entered, Backed;
    NextEffectIsLawful(site, w);
    RecordedEffect(site, w);
    PatchGoesOn(site, w);
    TargetLaw(site, w);
    if w.run.rest[0].reason == OwnerObserved {
      ObservationLaw(w.run.c, w.run.stage, w.status, w.run.rest[0]);
    }
  }

  lemma TruePatch(site: Site, w: World)
    requires InStep(site, w, false) && Lawfully(site, w) && w.run.Running? && w.run.rest[0].Patch?
    ensures InStep(site, Performed(w, w.run.rest[0]), false)
  {
    hide EffectLaw.Chain, Performed, EffectLaw.Entered, EffectLaw.Fenced, Backed;
    TruePatchLaw(site, w);
    PatchGoesOn(site, w);
    hide LawfulRun, Accurate, Answered;
  }

  // ---- in every reachable world ----

  function LostNext(w: World, lost: bool, l: Label): bool {
    if l.Perform? && w.run.Running? && w.run.rest != [] then LostAfter(lost, w.run.rest[0]) else lost
  }

  lemma InStepEffect(site: Site, w: World, lost: bool)
    requires InStep(site, w, lost) && Lawfully(site, w) && w.run.Running?
    ensures InStep(site, Performed(w, w.run.rest[0]), LostAfter(lost, w.run.rest[0]))
  {
    hide EffectLaw.Chain, EffectLaw.After, EffectLaw.Entered, EffectLaw.Fenced, InStep, Answered, Accurate;
    match w.run.rest[0]
    case Route(_, _, _) => InStepCall(site, w, lost);
    case Read(_) => InStepRead(site, w, lost);
    case Patch(reason, _, _) =>
      if Restores(reason) {
        RestoringPatch(site, w, lost);
      } else if lost {
        LostPatch(site, w);
      } else {
        TruePatch(site, w);
      }
  }

  lemma InStepRead(site: Site, w: World, lost: bool)
    requires InStep(site, w, lost) && LawfulRun(site, w) && w.run.Running? && w.run.rest[0].Read?
    ensures InStep(site, Performed(w, w.run.rest[0]), lost)
  {
    hide EffectLaw.Chain, EffectLaw.Entered, EffectLaw.Fenced;
  }

  lemma InStepStep(site: Site, w: World, lost: bool, l: Label)
    requires InStep(site, w, lost) && Lawfully(site, w) && Enabled(site, w, l) && !l.Move?
    ensures InStep(site, Next(site, w, l), LostNext(w, lost, l))
  {
    hide EffectLaw.Chain, EffectLaw.Entered, EffectLaw.Fenced, ReconcilePlan.Plan, System.Judged, Performed, StartRun;
    match l
    case Begin(env) => InStepBegin(site, w, env, lost);
    case Perform => InStepEffect(site, w, lost);
    case Agent(node, crash) => assert RoutedTo(site, Next(site, w, l), w.status.target) <==>
        RoutedTo(site, w, w.status.target);
    case _ =>
  }

  lemma {:induction false} AlwaysInStep(site: Site, w0: World, ls: seq<Label>)
    requires Fresh(w0) && Valid(site, w0, ls) && NoMoves(ls)
    ensures InStep(site, Exec(site, w0, ls), RollbackLost(site, w0, ls))
    decreases |ls|
  {
    hide InStep, Answered, Accurate, LawfulRun;
    if ls == [] {
      InStepAtFirst(site, w0);
    } else {
      var before, last := ls[..|ls| - 1], ls[|ls| - 1];
      assert NoMoves(before) && !last.Move? by { assert last in ls; }
      AlwaysInStep(site, w0, before);
      RunsAreLawful(site, w0, before);
      AlwaysAnswered(site, w0, before);
      MutationEffect.OwnerMovesAreBounded(site, w0, before);
      InStepStep(site, Exec(site, w0, before), RollbackLost(site, w0, before), last);
    }
  }

  lemma InStepAtFirst(site: Site, w: World)
    requires Fresh(w)
    ensures InStep(site, w, false)
  {
  }

  // In every run without outside moves, and for every run that begins with its target annotated: the fence refuses
  // it if and only if a rollback call took effect and has not been recorded since.
  lemma OwnFenceRefusesIff(site: Site, w0: World, ls: seq<Label>, env: Env)
    requires Fresh(w0) && Valid(site, w0, ls) && NoMoves(ls) && Enabled(site, Exec(site, w0, ls), Begin(env))
    requires Annotated(env.nodes, Exec(site, w0, ls).status.target)
    ensures var st := Exec(site, w0, ls).status;
            !FenceAccepts(st.observed, env.owner, ServerOf(env.nodes, st.target)) <==> RollbackLost(site, w0, ls)
  {
    hide EffectLaw.Chain, System.Judged, Policy.FenceAccepts;
    AlwaysInStep(site, w0, ls);
    FenceRefusesIff(site, Exec(site, w0, ls), env, RollbackLost(site, w0, ls));
  }

  // ---- for ever ----

  // The provider points neither where the record says nor at the target.
  ghost predicate Refused(site: Site, w: World) {
    && w.status.transitionId != "" && w.status.target != "" && !RoutedTo(site, w, w.status.target)
    && w.status.observed.Some? && w.status.observed != Some(w.owner)
  }

  // Patches that refuse a run or answer a manual retry.
  predicate Vain(e: Effect) {
    e.Patch? && (|| e.reason == InvalidSpec || e.reason == InvalidStatus || e.reason == ManualRetry
                 || e.reason == ProviderOwnershipChanged)
  }

  lemma RefusedPlanIsVain(site: Site, w: World, env: Env)
    requires Refused(site, w) && Enabled(site, w, Begin(env))
    ensures forall e :: e in Plan(site.spec, w.status, env) ==> Vain(e)
  {
    hide ReconcilePlan.Decide, System.Judged;
    if ServerOf(env.nodes, w.status.target).Some? { ServerOfSite(site, env.nodes, w.status.target); }
  }

  lemma VainLaw(c: Context, stage: Stage, a: Status, e: Effect)
    requires Lawful(c, stage, a, e) && Vain(e)
    ensures var b := After(a, e);
            b.observed == a.observed && SameRoles(a, b) && b.transitionId == a.transitionId
  {
    hide Api.MergePatch, EffectLaw.Entered, EffectLaw.LawfulArrival, EffectLaw.LawfulSelection, EffectLaw.LawfulRouting;
    var x, y := Core(a), Core(After(a, e));
    VainExcludes(c, x, e.reason, e.base.localOwners, y);
    assert LawfulEntry(c, x, e.reason, y);
    hide EffectLaw.Lawful;
    assert y == After(a, e).(localOwners := []) && x == a.(localOwners := []);
  }

  lemma VainExcludes(c: Context, a: Status, reason: Reason, read: seq<string>, b: Status)
    requires reason == InvalidSpec || reason == InvalidStatus || reason == ManualRetry
             || reason == ProviderOwnershipChanged
    ensures !LawfulSelection(c, a, reason, b) && !LawfulRouting(c, a, reason, b)
            && !LawfulArrival(c, a, reason, read, b)
  {
  }

  // Provider, roles and record are those of `w0`, and the run in progress changes none of them.
  ghost predicate Locked(site: Site, w0: World, w: World) {
    && Refused(site, w) && w.owner == w0.owner && SameRoles(w0.status, w.status)
        && w.status.observed == w0.status.observed
    && (w.run.Running? ==> forall e :: e in w.run.rest ==> Vain(e))
  }

  lemma LockedStep(site: Site, w0: World, w: World, l: Label)
    requires Locked(site, w0, w) && LawfulRun(site, w) && Enabled(site, w, l) && !l.Move?
    ensures Locked(site, w0, Next(site, w, l))
  {
    hide EffectLaw.Chain, EffectLaw.Lawful, EffectLaw.After, ReconcilePlan.Plan, System.Judged, System.Consistent;
    match l
    case Begin(env) => RefusedPlanIsVain(site, w, env);
    case Perform =>
      NextEffectIsLawful(site, w);
      assert w.run.rest[0] in w.run.rest;
      VainLaw(w.run.c, w.run.stage, w.status, w.run.rest[0]);
    case _ =>
  }

  lemma {:induction false} RefusedForEver(site: Site, w: World, ls: seq<Label>)
    requires Refused(site, w) && w.run == Resting && Valid(site, w, ls) && NoMoves(ls)
    ensures Locked(site, w, Exec(site, w, ls)) && LawfulRun(site, Exec(site, w, ls))
    decreases |ls|
  {
    if ls != [] {
      var before, last := ls[..|ls| - 1], ls[|ls| - 1];
      assert NoMoves(before) && !last.Move? by { assert last in ls; }
      RefusedForEver(site, w, before);
      LockedStep(site, w, Exec(site, w, before), last);
      LawfulStep(site, Exec(site, w, before), last);
    }
  }

  // A status with a target has begun its transition.
  ghost predicate Identified(w: World) {
    && (w.status.target != "" ==> w.status.transitionId != "")
    && (w.run.Running? && Entered(w.run.c) ==> w.status.transitionId != "")
  }

  lemma IdentifiedEffect(site: Site, w: World)
    requires Identified(w) && LawfulRun(site, w) && w.run.Running?
    ensures Identified(Performed(w, w.run.rest[0]))
  {
    hide EffectLaw.Chain, EffectLaw.After, EffectLaw.Entered;
    PerformLaw(site, w);
    hide Consequences.PhaseStep, Consequences.StampStep, Consequences.ObservedStep, Consequences.CleanupStep,
         Consequences.CandidateStep, Consequences.RolesStep, EffectLaw.LawfulForward, EffectLaw.LawfulRollback;
    var v := Performed(w, w.run.rest[0]);
    if w.run.rest[0].Patch? {
      PatchGoesOn(site, w);
      TargetLaw(site, w);
      assert Core(v.status).transitionId == v.status.transitionId
             && Core(w.status).transitionId == w.status.transitionId;
    }
  }

  lemma {:induction false} AlwaysIdentified(site: Site, w0: World, ls: seq<Label>)
    requires Fresh(w0) && Valid(site, w0, ls)
    ensures Identified(Exec(site, w0, ls))
    decreases |ls|
  {
    hide EffectLaw.Chain, ReconcilePlan.Plan, System.Judged, System.Consistent, Performed;
    if ls != [] {
      var before := ls[..|ls| - 1];
      AlwaysIdentified(site, w0, before);
      RunsAreLawful(site, w0, before);
      if ls[|ls| - 1].Perform? { IdentifiedEffect(site, Exec(site, w0, before)); }
    }
  }

  // So once the outcome of an applied rollback is lost, everything is: in every continuation without outside moves
  // the provider stays where it is, no run calls it again, and manual retries are in vain.
  lemma LostRollbackLocks(site: Site, w0: World, ls: seq<Label>, more: seq<Label>)
    requires Fresh(w0) && Valid(site, w0, ls) && NoMoves(ls) && RollbackLost(site, w0, ls)
    requires var w := Exec(site, w0, ls); w.run == Resting && Valid(site, w, more) && NoMoves(more)
    ensures var w := Exec(site, w0, ls); Locked(site, w, Exec(site, w, more))
  {
    AlwaysInStep(site, w0, ls);
    AlwaysIdentified(site, w0, ls);
    RefusedForEver(site, Exec(site, w0, ls), more);
  }

  // ---- a reachable lost rollback ----

  // The controller stops after the call. Node a, which does not hold the address, is routed and stays so.
  lemma LostRollbackIsReachable()
    ensures exists w ::
              && Reachable(w) && w.run == Resting && RoutedTo(SITE, w, "a") && w.holders == {"b"}
              && forall more :: Valid(SITE, w, more) && NoMoves(more) ==> Locked(SITE, w, Exec(SITE, w, more))
  {
    hide Reachable, Locked;
    ReachUndone();
    Reach(Undoing(RESTAMPED, 1, Routed, [RECORD]), Crash);
    var w := World(RESTAMPED, {"b"}, 1, LATER, Resting);
    assert Reachable(w) && RoutedTo(SITE, w, "a") && Refused(SITE, w);
    forall more | Valid(SITE, w, more) && NoMoves(more) ensures Locked(SITE, w, Exec(SITE, w, more)) {
      RefusedForEver(SITE, w, more);
    }
  }
}
