/**
 What recovery leaves behind. The owner that a patch records is the last answer of the provider, so while nobody
 else moves the provider the record is true, and a completed rollback leaves the provider at the source.
*/
module Recovery {
  import opened Prelude
  import opened Api
  import opened NodeScoring
  import opened Policy
  import opened ReconcilePlan
  import opened EffectLaw
  import opened System
  import opened Consequences
  import opened RouteGate
  import opened OwnerRetention
  import opened SourceHolds
  import MutationEffect
  import Backoff

  // Patches that record a provider owner, other than the observation a run starts with.
  predicate Records(e: Effect) {
    e.Patch? && (Restores(e.reason) || (e.updated.observed != e.base.observed && e.reason != OwnerObserved))
  }

  // Each of them records the last answer of the provider, and a rollback is called only after an answer that
  // names another server. Such an answer counts until the next call.
  predicate Justified(last: Option<int>, e: Effect) {
    && (Records(e) ==> last.Some? && e.updated.observed == last)
    && (e.Route? && e.direction == Rollback ==> last.Some? && last.value != e.server)
  }

  function Heard(last: Option<int>, e: Effect): Option<int> {
    if e.Read? then Some(e.server) else if e.Route? then None else last
  }

  predicate Backed(last: Option<int>, effects: seq<Effect>)
    decreases |effects|
  {
    effects == [] || (Justified(last, effects[0]) && Backed(Heard(last, effects[0]), effects[1..]))
  }

  lemma BackedCons(last: Option<int>, e: Effect, rest: seq<Effect>)
    requires Justified(last, e) && Backed(Heard(last, e), rest)
    ensures Backed(last, [e] + rest)
  {
    assert ([e] + rest)[1..] == rest;
  }

  lemma BackedOne(last: Option<int>, e: Effect)
    requires Justified(last, e)
    ensures Backed(last, [e])
  {
    assert [e][1..] == [];
  }

  lemma {:induction false} BackedStill(last: Option<int>, effects: seq<Effect>)
    requires Backed(None, effects)
    ensures Backed(last, effects)
    decreases |effects|
  {
    if effects != [] && effects[0].Patch? { BackedStill(last, effects[1..]); }
  }

  // ---- plans ----

  lemma AfterRouteIsBacked(st: Status, env: Env, server: int)
    requires st.phase == RoutingProvider
    ensures Backed(None, AfterRoute(st, env, server))
  {
    hide Backed, ReconcilePlan.Converges;
    var effects := AfterRoute(st, env, server);
    NothingIsBacked();
    if |effects| == 1 {
      BackedOne(None, effects[0]);
    } else if |effects| > 1 {
      BackedOne(Some(server), effects[1]);
      BackedCons(None, Read(server), [effects[1]]);
    }
  }

  lemma NothingIsBacked()
    ensures Backed(None, [])
  {
  }

  lemma RouteIsBacked(spec: Spec, st: Status, env: Env, server: int)
    requires st.phase == RoutingProvider
    ensures Backed(None, DecideRoute(spec, st, env, server))
  {
    hide Backed, ReconcilePlan.AfterRoute;
    if !MutationAllowed(st.lastAttempted, Cooldown(spec), env.now) {
      BackedOne(None, Patch(ProviderCooldown, st, st));
    } else {
      var stamped := st.(lastAttempted := Some(env.now));
      var call, rest := Route(Forward, server, env.routeApplied), AfterRoute(stamped, env, server);
      AfterRouteIsBacked(stamped, env, server);
      BackedCons(None, call, rest);
      BackedCons(None, Patch(MutationEligible, st, stamped), [call] + rest);
    }
  }

  lemma SettleIsBacked(spec: Spec, st: Status, env: Env)
    ensures Backed(None, Settle(spec, st, env))
  {
    hide Backed, Backoff.CleanupDelay;
    var effects := Settle(spec, st, env);
    NothingIsBacked();
    if effects != [] {
      assert effects == [effects[0]];
      BackedOne(None, effects[0]);
    }
  }

  lemma AfterRollbackIsBacked(base: Status, st: Status, env: Env, server: int)
    requires st.observed == base.observed
    ensures Backed(None, AfterRollback(base, st, env, server))
  {
    hide Backed;
    var effects := AfterRollback(base, st, env, server);
    if |effects| == 1 {
      BackedOne(None, effects[0]);
    } else {
      BackedOne(env.confirmRead, effects[1]);
      BackedCons(None, effects[0], [effects[1]]);
    }
  }

  lemma RollBackIsBacked(spec: Spec, st: Status, env: Env)
    ensures Backed(None, RollBack(spec, st, env))
  {
    hide Backed, ReconcilePlan.AfterRollback, Policy.FenceAccepts, Policy.MutationAllowed, NodeScoring.ServerOf;
    var effects := RollBack(spec, st, env);
    if effects[0].Patch? {
      BackedOne(None, effects[0]);
    } else {
      var server, seen, rest := ServerOf(env.nodes, st.source).value, env.recoveryRead.value, effects[1..];
      if rest[0].reason == RollbackEligible {
        var stamped := st.(lastAttempted := Some(env.now), localOwners := env.ownersAfterStamp);
        var call, end := Route(Rollback, server, env.routeApplied), AfterRollback(st, stamped, env, server);
        AfterRollbackIsBacked(st, stamped, env, server);
        BackedCons(Some(seen), call, end);
        BackedCons(Some(seen), rest[0], [call] + end);
        assert rest == [rest[0]] + ([call] + end);
      } else {
        BackedOne(Some(seen), rest[0]);
        assert rest == [rest[0]];
      }
      BackedCons(None, Read(seen), rest);
    }
  }

  lemma RecoverIsBacked(spec: Spec, st: Status, env: Env)
    ensures Backed(None, Recover(spec, st, env))
  {
    hide Backed, ReconcilePlan.Settle, ReconcilePlan.RollBack;
    match spec.recoveryPolicy
    case CommitDegraded =>
      var copy := st.(localOwners := env.ownersAfterDegrade);
      SettleIsBacked(spec, copy, env);
      BackedCons(None, Patch(CommitsDegraded, st, st), Settle(spec, copy, env));
    case RollbackProvider => RollBackIsBacked(spec, st, env);
    case _ => BackedOne(None, Recover(spec, st, env)[0]);
  }

  lemma DecisionIsBacked(spec: Spec, st: Status, env: Env)
    ensures Backed(None, Decide(spec, st, env))
  {
    hide Backed, ReconcilePlan.DecideRoute, ReconcilePlan.Settle, ReconcilePlan.Recover, NodeScoring.Better,
         NodeScoring.ServerOf, ReconcilePlan.CandidateReady;
    var effects := Decide(spec, st, env);
    NothingIsBacked();
    if st.phase == RoutingProvider && ServerOf(env.nodes, st.target).Some? {
      RouteIsBacked(spec, st, env, ServerOf(env.nodes, st.target).value);
    }
    SettleIsBacked(spec, st, env);
    RecoverIsBacked(spec, st, env);
    if |effects| == 1 && effects[0].Patch? && !Records(effects[0]) {
      assert effects == [effects[0]];
      BackedOne(None, effects[0]);
    }
  }

  lemma PlanIsBacked(spec: Spec, st: Status, env: Env)
    ensures Backed(None, Plan(spec, st, env))
  {
    hide Backed, ReconcilePlan.Decide;
    var effects, seen := Plan(spec, st, env), Refreshed(st, env);
    NothingIsBacked();
    DecisionIsBacked(spec, seen, env);
    if effects == [Patch(OwnerObserved, st, Observed(st, env))] + Decide(spec, seen, env) {
      BackedCons(None, Patch(OwnerObserved, st, Observed(st, env)), Decide(spec, seen, env));
    } else if |effects| == 1 && effects[0].Patch? && !Records(effects[0]) {
      assert effects == [effects[0]];
      BackedOne(None, effects[0]);
    }
  }

  // ---- in every reachable world ----

  // The last answer of a run in progress is still the owner.
  ghost predicate Answered(w: World) { w.run.Running? ==> Backed(Some(w.owner), w.run.rest) }

  lemma AnsweredEffect(w: World)
    requires Answered(w) && w.run.Running? && w.run.rest != [] && CanPerform(w, w.run.c, w.run.rest[0])
    ensures Answered(Performed(w, w.run.rest[0]))
  {
    hide EffectLaw.After;
    var e, rest := w.run.rest[0], w.run.rest[1..];
    if e.Route? { BackedStill(Some(Performed(w, e).owner), rest); }
  }

  lemma AnsweredStep(site: Site, w: World, l: Label)
    requires Answered(w) && Enabled(site, w, l) && !l.Move?
    ensures Answered(Next(site, w, l))
  {
    hide Backed, ReconcilePlan.Plan, EffectLaw.After, System.Judged, System.Consistent;
    match l
    case Begin(env) =>
      PlanIsBacked(site.spec, w.status, env);
      BackedStill(Some(w.owner), Plan(site.spec, w.status, env));
    case Perform => AnsweredEffect(w);
    case _ =>
  }

  lemma {:induction false} AlwaysAnswered(site: Site, w0: World, ls: seq<Label>)
    requires Fresh(w0) && Valid(site, w0, ls) && NoMoves(ls)
    ensures Answered(Exec(site, w0, ls))
    decreases |ls|
  {
    if ls != [] {
      var before, last := ls[..|ls| - 1], ls[|ls| - 1];
      assert NoMoves(before) && !last.Move? by { assert last in ls; }
      AlwaysAnswered(site, w0, before);
      AnsweredStep(site, Exec(site, w0, before), last);
    }
  }

  lemma ChangesAreWritten(a: Status, e: Effect)
    requires e.Patch? && After(a, e).observed != a.observed
    ensures After(a, e).observed == e.updated.observed != e.base.observed
  {
  }

  lemma RecordedEffect(site: Site, w: World)
    requires LawfulRun(site, w) && Answered(w) && Accurate(w) && w.run.Running?
    ensures var v := Performed(w, w.run.rest[0]);
            v.status.observed != w.status.observed ==> v.status.observed == Some(v.owner)
  {
    hide EffectLaw.Chain, EffectLaw.Lawful, Api.MergePatch;
    NextEffectIsLawful(site, w);
    var e, v := w.run.rest[0], Performed(w, w.run.rest[0]);
    if v.status.observed != w.status.observed {
      ChangesAreWritten(w.status, e);
      if e.reason == OwnerObserved { ObservationLaw(w.run.c, w.run.stage, w.status, e); }
    }
  }

  // While only the controller moves the provider, every change of the recorded owner records the truth.
  lemma RecordsAreTrue(site: Site, w0: World, ls: seq<Label>, l: Label)
    requires Fresh(w0) && Valid(site, w0, ls) && NoMoves(ls) && Enabled(site, Exec(site, w0, ls), l) && !l.Move?
    ensures var w := Exec(site, w0, ls);
            var v := Next(site, w, l);
            v.status.observed != w.status.observed ==> v.status.observed == Some(v.owner)
  {
    hide EffectLaw.Chain, EffectLaw.After, ReconcilePlan.Plan, System.Judged, System.Consistent, Answered;
    AlwaysAnswered(site, w0, ls);
    MutationEffect.OwnerMovesAreBounded(site, w0, ls);
    RunsAreLawful(site, w0, ls);
    if l.Perform? { RecordedEffect(site, Exec(site, w0, ls)); }
  }

  // A completed rollback, in every run: the transition is Degraded, the provider is at the stored source, the
  // record says so, and the source holds the address if retargets waited for their outgoing targets.
  lemma RollbackRestores(site: Site, w0: World, ls: seq<Label>)
    requires Fresh(w0) && Valid(site, w0, ls + [Perform]) && NoMoves(ls)
    requires var w := Exec(site, w0, ls);
             w.run.Running? && w.run.rest != [] && w.run.rest[0].Patch? && Restores(w.run.rest[0].reason)
    ensures var v := Exec(site, w0, ls + [Perform]);
            && v.status.phase == Degraded && v.run == Resting
            && RoutedTo(site, v, v.status.source) && v.status.observed == Some(v.owner)
            && (RetargetsHeld(site, w0, ls) ==> v.status.source in v.holders)
  {
    hide EffectLaw.Chain, EffectLaw.After, ReconcilePlan.Plan, System.Judged, System.Consistent;
    var w, all := Exec(site, w0, ls), ls + [Perform];
    assert all[..|all| - 1] == ls;
    AlwaysAnswered(site, w0, ls);
    AlwaysPrepared(site, w0, ls);
    RestoringEffect(site, w);
    SourceIsHeldIff(site, w0, ls);
  }

  lemma AnswerIsRecorded(w: World)
    requires Answered(w) && w.run.Running? && w.run.rest != [] && Records(w.run.rest[0])
    ensures w.run.rest[0].updated.observed == Some(w.owner)
  {
  }

  lemma RestoringEffect(site: Site, w: World)
    requires LawfulRun(site, w) && Answered(w) && w.run.Running? && w.run.rest[0].Patch?
             && Restores(w.run.rest[0].reason)
    ensures var v := Performed(w, w.run.rest[0]);
            && v.status.phase == Degraded && v.run == Resting && v.status.source == w.status.source
                && v.status.source != ""
            && RoutedTo(site, v, v.status.source) && v.status.observed == Some(v.owner)
  {
    hide EffectLaw.Chain, EffectLaw.Lawful, EffectLaw.After, EffectLaw.EndsRollback;
    NextEffectIsLawful(site, w);
    RestoringLaw(w.run.c, w.run.stage, w.status, w.run.rest[0]);
    AnswerIsRecorded(w);
    hide Answered;
    ServerOfSite(site, w.run.c.env.nodes, w.status.source);
  }

  lemma RestoringLaw(c: Context, stage: Stage, a: Status, e: Effect)
    requires Lawful(c, stage, a, e) && e.Patch? && Restores(e.reason)
    ensures EndsRollback(c, Core(a), Core(After(a, e))) && After(a, e).observed == e.updated.observed
    ensures After(a, e).source == a.source && After(a, e).phase == Degraded
    ensures After(a, e).observed == ServerOf(c.env.nodes, a.source) != None
  {
    hide EffectLaw.LawfulEntry, EffectLaw.LawfulSelection, EffectLaw.LawfulRouting, EffectLaw.LawfulSettling,
         EffectLaw.Entered, EffectLaw.Arrived, Api.MergePatch;
    var x, y := Core(a), Core(After(a, e));
    RestoringExcludes(c, x, e.reason, e.base.localOwners, y);
    assert y == After(a, e).(localOwners := []) && x == a.(localOwners := []);
  }

  lemma RestoringExcludes(c: Context, a: Status, reason: Reason, read: seq<string>, b: Status)
    requires Restores(reason)
    ensures !LawfulEntry(c, a, reason, b) && !LawfulSelection(c, a, reason, b) && !LawfulRouting(c, a, reason, b)
    ensures !LawfulSettling(c, a, reason, read, b)
  {
  }

  lemma ObservationLaw(c: Context, stage: Stage, a: Status, e: Effect)
    requires Lawful(c, stage, a, e) && Has(e, OwnerObserved)
    ensures stage == Begun && After(a, e).observed == Some(c.env.owner)
  {
    hide EffectLaw.LawfulOutcome, EffectLaw.Entered, Api.MergePatch;
    assert Core(After(a, e)).observed == After(a, e).observed;
  }
}
