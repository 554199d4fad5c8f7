/**
 What a whole run leaves stored, case by case. The safety theorems say what an effect may do if it happens; these
 say what does happen, in terms of the status before the run and its readings. The runs are those that perform all
 their effects with no agent writing meanwhile; what agents write does not touch any other field.
*/
module Outcome {
  import opened Prelude
  import opened Api
  import opened NodeScoring
  import opened Policy
  import opened ReconcilePlan
  import opened EffectLaw
  import opened System
  import opened Progress
  import opened Completion
  import Backoff

  // Every patch response carries the LocalOwners stored when the run began.
  ghost predicate Alone(site: Site, w: World, env: Env) {
    && Enabled(site, w, Begin(env)) && env.ownersAfterObserve == w.status.localOwners
    && env.ownersAfterDegrade == w.status.localOwners && env.ownersAfterStamp == w.status.localOwners
  }

  ghost predicate Ends(site: Site, w: World, env: Env, v: World) {
    CanRunOut(StartRun(site, w, env)) && RunOut(StartRun(site, w, env)) == v
  }

  // ---- runs that do not get past their reads ----

  lemma EntryEnds(site: Site, w: World, env: Env, updated: Status)
    requires Alone(site, w, env) && updated.localOwners == w.status.localOwners
    requires || Plan(site.spec, w.status, env) == []
             || (&& |Plan(site.spec, w.status, env)| == 1 && Plan(site.spec, w.status, env)[0].Patch?
                 && Plan(site.spec, w.status, env)[0].base == w.status
                 && Plan(site.spec, w.status, env)[0].updated == updated)
    ensures Ends(site, w, env, if Plan(site.spec, w.status, env) == [] then w else w.(status := updated))
  {
    hide ReconcilePlan.Plan, RunOut, CanRunOut, Api.MergePatch, System.Judged, System.Consistent;
    var effects := Plan(site.spec, w.status, env);
    if effects == [] {
      RestingRunsOut(w);
    } else {
      MergeCopy(w.status, w.status, updated);
      assert effects[1..] == [];
      RestingRunsOut(w.(status := updated));
      RunsOutFrom(StartRun(site, w, env), w.(status := updated));
    }
  }

  // A new resource begins its transition.
  lemma StartOutcome(site: Site, w: World, env: Env)
    requires Alone(site, w, env) && w.status.transitionId == ""
    ensures Ends(site, w, env, w.(status := w.status.(transitionId := env.newId, phase := Selecting)))
  {
    hide Ends;
    EntryEnds(site, w, env, w.status.(transitionId := env.newId, phase := Selecting));
  }

  // What the persisted status is rejected for.
  predicate Contradictory(st: Status) {
    && st.phase != Unset
    && (|| st.transitionId == "" || st.phase == Phase.Unknown
        || (&& st.source == st.target && st.target != "" && st.phase != Committing && st.phase != CleaningStaleOwners
            && st.phase != Succeeded && st.phase != Idle)
        || (st.phase == Succeeded && st.localOwners != [st.target]))
  }

  lemma ContradictoryIff(st: Status)
    ensures Contradictory(st) <==> !ValidStatus(st)
  {
    if |st.localOwners| == 1 { assert st.localOwners == [st.localOwners[0]]; }
  }

  // An invalid spec, a contradictory status, and an owner that is neither recorded nor the target's block.
  lemma RefusalOutcome(site: Site, w: World, env: Env)
    requires Alone(site, w, env) && w.status.transitionId != ""
    requires || !ValidSpec(site.spec) || Contradictory(w.status)
             || (&& w.status.phase != Blocked && w.status.phase != Degraded && env.readsOk
                 && w.status.observed.Some? && w.status.observed != Some(w.owner)
                 && ServerOf(env.nodes, w.status.target) != Some(w.owner))
    ensures Ends(site, w, env, w.(status := w.status.(phase := Blocked)))
  {
    hide Ends, ReconcilePlan.Decide, NodeScoring.ServerOf, System.Judged, System.Consistent;
    ContradictoryIff(w.status);
    hide Api.ValidStatus, Contradictory;
    EntryEnds(site, w, env, w.status.(phase := Blocked));
  }

  // A blocked or degraded transition resumes for a token it has not answered, and otherwise stays as it is.
  lemma RetryOutcome(site: Site, w: World, env: Env)
    requires Alone(site, w, env) && w.status.transitionId != "" && ValidSpec(site.spec) && !Contradictory(w.status)
    requires w.status.phase == Blocked || w.status.phase == Degraded
    ensures Ends(site, w, env,
                 if env.token != "" && env.token != w.status.token then
                   w.(status := w.status.(phase := Selecting, token := env.token, candidateSince := None))
                 else w)
  {
    hide Ends, ReconcilePlan.Decide, NodeScoring.ServerOf, System.Judged, System.Consistent;
    ContradictoryIff(w.status);
    hide Api.ValidStatus, Contradictory;
    EntryEnds(site, w, env, w.status.(phase := Selecting, token := env.token, candidateSince := None));
  }

  // A failed read ends the run with nothing stored.
  lemma UnreadOutcome(site: Site, w: World, env: Env)
    requires Alone(site, w, env) && w.status.transitionId != "" && ValidSpec(site.spec) && !Contradictory(w.status)
    requires w.status.phase != Blocked && w.status.phase != Degraded && !env.readsOk
    ensures Ends(site, w, env, w)
  {
    hide Ends, ReconcilePlan.Decide, System.Judged, System.Consistent;
    ContradictoryIff(w.status);
    hide Api.ValidStatus, Contradictory;
    EntryEnds(site, w, env, w.status);
  }

  // ---- runs that do ----

  // The status once the run has recorded the owner and, if it had none, adopted it as target.
  function Seen(w: World, env: Env): Status { Observed(w.status, env) }

  // The owner is recorded; a target is adopted only if there is none, and then it is a node of the owner's server.
  lemma SeenIs(w: World, env: Env)
    ensures var s := Seen(w, env);
            && s == w.status.(observed := Some(env.owner), target := s.target)
            && (w.status.target != "" ==> s.target == w.status.target)
            && (w.status.target == "" ==>
                  if exists n :: n in env.nodes && n.annotation == Id(env.owner)
                  then exists n :: n in env.nodes && n.annotation == Id(env.owner) && s.target == n.name
                  else s.target == "")
  {
  }

  ghost predicate Entering(site: Site, w: World, env: Env) {
    Alone(site, w, env) && Entered(Context(site.spec, w.status, env))
  }

  // Performing these effects, one after the other, ends in v.
  ghost predicate RunsTo(w: World, c: Context, stage: Stage, effects: seq<Effect>, v: World) {
    var u := w.(run := Remaining(c, stage, effects));
    CanRunOut(u) && RunOut(u) == v
  }

  lemma RunsToItself(w: World, c: Context, stage: Stage)
    requires w.run == Resting
    ensures RunsTo(w, c, stage, [], w)
  {
    RestingRunsOut(w);
  }

  lemma RunsToNext(w: World, c: Context, stage: Stage, e: Effect, rest: seq<Effect>, v: World)
    requires w.run == Resting && CanPerform(w, c, e)
    requires RunsTo(w.(status := After(w.status, e), owner := if e.Route? && e.applied then e.server else w.owner),
                    c, NextStage(stage, e), rest, v)
    ensures RunsTo(w, c, stage, [e] + rest, v)
  {
    hide RunOut, CanRunOut, EffectLaw.After;
    assert ([e] + rest)[1..] == rest;
    var u := w.(status := After(w.status, e), owner := if e.Route? && e.applied then e.server else w.owner);
    RunsOutFrom(w.(run := Remaining(c, stage, [e] + rest)), u.(run := Remaining(c, NextStage(stage, e), rest)));
  }

  lemma RunsToPatched(w: World, c: Context, stage: Stage, e: Effect)
    requires w.run == Resting && e.Patch? && CanPerform(w, c, e)
    ensures RunsTo(w, c, stage, [e], w.(status := After(w.status, e)))
  {
    hide RunsTo, EffectLaw.After;
    RunsToItself(w.(status := After(w.status, e)), c, NextStage(stage, e));
    RunsToNext(w, c, stage, e, [], w.(status := After(w.status, e)));
    assert [e] + [] == [e];
  }

  // A patch from the copy as it stands.
  lemma PatchRunsOn(w: World, c: Context, stage: Stage, e: Effect, rest: seq<Effect>, v: World)
    requires w.run == Resting && e.Patch? && e.base == w.status && CanPerform(w, c, e)
    requires e.updated.localOwners == w.status.localOwners
    requires RunsTo(w.(status := e.updated), c, NextStage(stage, e), rest, v)
    ensures RunsTo(w, c, stage, [e] + rest, v)
  {
    hide RunsTo;
    MergeCopy(w.status, w.status, e.updated);
    RunsToNext(w, c, stage, e, rest, v);
  }

  lemma ReadRunsOn(w: World, c: Context, stage: Stage, rest: seq<Effect>, v: World)
    requires w.run == Resting && RunsTo(w, c, NextStage(stage, Read(w.owner)), rest, v)
    ensures RunsTo(w, c, stage, [Read(w.owner)] + rest, v)
  {
    hide RunsTo;
    RunsToNext(w, c, stage, Read(w.owner), rest, v);
  }

  lemma PlainPatchRunsTo(w: World, c: Context, stage: Stage, e: Effect)
    requires w.run == Resting && e.Patch? && e.base == w.status && CanPerform(w, c, e)
    requires e.updated.localOwners == w.status.localOwners
    ensures RunsTo(w, c, stage, [e], w.(status := e.updated))
  {
    hide RunsTo;
    RunsToPatched(w, c, stage, e);
    MergeCopy(w.status, w.status, e.updated);
  }

  function Called(w: World, server: int, applied: bool): World { w.(owner := if applied then server else w.owner) }

  // The attempt is stamped, and then the provider is called.
  lemma CallRunsOn(w: World, c: Context, stage: Stage, reason: Reason, call: Effect, rest: seq<Effect>, v: World)
    requires w.run == Resting && (reason == MutationEligible || reason == RollbackEligible) && call.Route?
    requires c.env.ownersAfterStamp == w.status.localOwners
    requires var stamped := w.status.(lastAttempted := Some(c.env.now));
             RunsTo(Called(w, call.server, call.applied).(status := stamped), c, Routed, rest, v)
    ensures RunsTo(w, c, stage,
                   [Patch(reason, w.status, w.status.(lastAttempted := Some(c.env.now)))] + ([call] + rest), v)
  {
    hide RunsTo;
    var stamped := w.status.(lastAttempted := Some(c.env.now));
    RunsToNext(w.(status := stamped), c, Stamped, call, rest, v);
    PatchRunsOn(w, c, stage, Patch(reason, w.status, stamped), [call] + rest, v);
  }

  function Deciding(w: World, env: Env): World { w.(status := Seen(w, env)) }

  function StageOf(w: World, env: Env): Stage { if Seen(w, env) == w.status then Begun else Open }

  lemma PlanOfEntering(site: Site, w: World, env: Env)
    requires Entering(site, w, env)
    ensures Plan(site.spec, w.status, env) ==
            (if Seen(w, env) == w.status then [] else [Patch(OwnerObserved, w.status, Seen(w, env))]) +
            Decide(site.spec, Seen(w, env), env)
  {
    hide ReconcilePlan.Decide, System.Judged, System.Consistent;
    assert Seen(w, env).(localOwners := w.status.localOwners) == Seen(w, env);
    assert [] + Decide(site.spec, Seen(w, env), env) == Decide(site.spec, Seen(w, env), env);
  }

  lemma DecisionEnds(site: Site, w: World, env: Env, v: World)
    requires Entering(site, w, env)
    requires RunsTo(Deciding(w, env), Context(site.spec, w.status, env), StageOf(w, env),
                    Decide(site.spec, Seen(w, env), env), v)
    ensures Ends(site, w, env, v)
  {
    hide ReconcilePlan.Plan, ReconcilePlan.Decide, Api.MergePatch, System.Judged, System.Consistent, EffectLaw.Entered,
         RunOut, CanRunOut;
    PlanOfEntering(site, w, env);
    var rest := Decide(site.spec, Seen(w, env), env);
    if Seen(w, env) == w.status {
      assert [] + rest == rest;
    } else {
      var observe := Patch(OwnerObserved, w.status, Seen(w, env));
      MergeCopy(w.status, w.status, Seen(w, env));
      RunsToNext(w, Context(site.spec, w.status, env), Begun, observe, rest, v);
    }
  }

  lemma NothingEnds(site: Site, w: World, env: Env)
    requires Entering(site, w, env) && Decide(site.spec, Seen(w, env), env) == []
    ensures Ends(site, w, env, w.(status := Seen(w, env)))
  {
    assert w.run == Resting;
    hide ReconcilePlan.Decide, Ends, Entering, RunsTo;
    RunsToItself(Deciding(w, env), Context(site.spec, w.status, env), StageOf(w, env));
    DecisionEnds(site, w, env, Deciding(w, env));
  }

  lemma PatchEnds(site: Site, w: World, env: Env, e: Effect)
    requires Entering(site, w, env) && Decide(site.spec, Seen(w, env), env) == [e] && e.Patch?
    ensures Ends(site, w, env, w.(status := After(Seen(w, env), e)))
  {
    assert w.run == Resting && CanPerform(Deciding(w, env), Context(site.spec, w.status, env), e);
    hide ReconcilePlan.Decide, EffectLaw.After, Ends, Entering, RunsTo;
    RunsToPatched(Deciding(w, env), Context(site.spec, w.status, env), StageOf(w, env), e);
    DecisionEnds(site, w, env, w.(status := After(Seen(w, env), e)));
  }

  // The usual patch: from the copy as it stands.
  lemma PlainPatchEnds(site: Site, w: World, env: Env, reason: Reason, updated: Status)
    requires Entering(site, w, env) && Decide(site.spec, Seen(w, env), env) == [Patch(reason, Seen(w, env), updated)]
    ensures Ends(site, w, env, w.(status := updated))
  {
    hide ReconcilePlan.Decide, Ends, Entering;
    var s := Seen(w, env);
    PatchEnds(site, w, env, Patch(reason, s, updated));
    MergeCopy(s, s, updated);
  }

  // ---- a better node ----

  predicate Sees(w: World, env: Env, better: Node) {
    Better(Candidates(env.nodes), Seen(w, env).target) == Some(better) && better.name != Seen(w, env).target
  }

  lemma SightingDecides(site: Site, w: World, env: Env, better: Node)
    requires Sees(w, env, better)
    ensures Decide(site.spec, Seen(w, env), env) == DecideCandidate(site.spec, Seen(w, env), env, better)
  {
    hide NodeScoring.Better, NodeScoring.Candidates, ReconcilePlan.DecideCandidate, ReconcilePlan.Observed;
  }

  // A sighting short of the threshold is counted.
  lemma SightingIsCounted(site: Site, w: World, env: Env, better: Node)
    requires Entering(site, w, env) && Sees(w, env, better)
    requires Seen(w, env).phase != Succeeded && Seen(w, env).failureCount + 1 < FailureThreshold(site.spec)
    ensures var s := Seen(w, env); Ends(site, w, env, w.(status := s.(failureCount := s.failureCount + 1)))
  {
    assert Seen(w, env).phase != Degraded;
    hide ReconcilePlan.Decide, Ends, ReconcilePlan.Observed, NodeScoring.Better, Entering;
    var s := Seen(w, env);
    SightingDecides(site, w, env, better);
    PlainPatchEnds(site, w, env, FailureSeen, s.(failureCount := s.failureCount + 1));
  }

  // The one that reaches the threshold sets the timer.
  lemma SightingSetsTimer(site: Site, w: World, env: Env, better: Node)
    requires Entering(site, w, env) && Sees(w, env, better) && Seen(w, env).phase != Succeeded
    requires Seen(w, env).failureCount + 1 >= FailureThreshold(site.spec) && Seen(w, env).candidateSince.None?
    ensures var s := Seen(w, env);
            Ends(site, w, env,
                 w.(status := s.(candidateSince := Some(env.now),
                                 phase := if s.phase == Selecting then Stabilizing else s.phase)))
  {
    assert Seen(w, env).phase != Degraded;
    hide ReconcilePlan.Decide, Ends, ReconcilePlan.Observed, NodeScoring.Better, Entering, EffectLaw.After;
    var s := Seen(w, env);
    SightingDecides(site, w, env, better);
    hide Sees;
    PatchEnds(site, w, env, DecideCandidate(site.spec, s, env, better)[0]);
    TimerPatch(s, env.now, if s.phase == Selecting then Stabilizing else s.phase);
  }

  lemma TimerPatch(s: Status, now: int, to: Phase)
    ensures var counted := s.(failureCount := s.failureCount + 1);
            After(s, Patch(CandidateSelected, counted, counted.(candidateSince := Some(now), phase := to))) ==
            s.(candidateSince := Some(now), phase := to)
  {
  }

  function HandedOver(s: Status, name: string): Status {
    s.(source := s.target, target := name, localOwners := [], cleanupAttempts := 0, nextCleanup := None,
       candidateSince := None, failureCount := 0, recoveryCount := 0,
       phase := if s.phase == Stabilizing then PreparingTarget else s.phase)
  }

  lemma RetargetPatch(s: Status, name: string)
    requires s.failureCount >= 0
    ensures var counted := s.(failureCount := s.failureCount + 1);
            After(s, Patch(WindowElapsed, counted, Retargeted(counted, name))) == HandedOver(s, name)
  {
  }

  lemma RetargetDecides(spec: Spec, s: Status, env: Env, better: Node)
    requires s.phase != Succeeded && s.phase != Degraded
    requires s.failureCount + 1 >= FailureThreshold(spec) && s.candidateSince.Some?
    ensures DecideCandidate(spec, s, env, better) ==
            if Acceptable(better) && env.now >= s.candidateSince.value + HandoffWindow(spec) then
              var counted := s.(failureCount := s.failureCount + 1);
              [Patch(WindowElapsed, counted, Retargeted(counted, better.name))]
            else []
  {
    hide NodeScoring.Acceptable, ReconcilePlan.Retargeted, Policy.HandoffWindow;
  }

  // The target moves exactly if the candidate is acceptable and has been known for the whole window.
  lemma SightingRetargets(site: Site, w: World, env: Env, better: Node)
    requires Entering(site, w, env) && Sees(w, env, better) && Seen(w, env).phase != Succeeded
    requires Seen(w, env).failureCount >= 0 && Seen(w, env).failureCount + 1 >= FailureThreshold(site.spec)
    requires Seen(w, env).candidateSince.Some?
    ensures var s := Seen(w, env);
            Ends(site, w, env,
                 w.(status :=
                      if Acceptable(better) && env.now >= s.candidateSince.value + HandoffWindow(site.spec) then
                        HandedOver(s, better.name)
                      else s))
  {
    assert Seen(w, env).phase != Degraded;
    hide Ends, ReconcilePlan.Observed, NodeScoring.Better, Entering, NodeScoring.Acceptable, ReconcilePlan.Decide,
         ReconcilePlan.DecideCandidate, ReconcilePlan.Retargeted, EffectLaw.After, HandedOver, Policy.HandoffWindow,
         Policy.FailureThreshold;
    var s := Seen(w, env);
    SightingDecides(site, w, env, better);
    RetargetDecides(site.spec, s, env, better);
    hide Sees;
    if Acceptable(better) && env.now >= s.candidateSince.value + HandoffWindow(site.spec) {
      PatchEnds(site, w, env, DecideCandidate(site.spec, s, env, better)[0]);
      RetargetPatch(s, better.name);
    } else {
      NothingEnds(site, w, env);
    }
  }

  // ---- the current node recovers ----

  lemma RecoveryIsCounted(site: Site, w: World, env: Env)
    requires Entering(site, w, env) && Better(Candidates(env.nodes), Seen(w, env).target).None?
    requires Seen(w, env).phase == Stabilizing && Seen(w, env).candidateSince.Some? && Seen(w, env).recoveryCount >= 0
    ensures var s := Seen(w, env);
            Ends(site, w, env,
                 w.(status :=
                      if s.recoveryCount + 1 < RecoveryThreshold(site.spec) then
                        s.(recoveryCount := s.recoveryCount + 1)
                      else s.(phase := Selecting, candidateSince := None, failureCount := 0, recoveryCount := 0)))
  {
    hide Ends, ReconcilePlan.Observed, NodeScoring.Better, Entering, ReconcilePlan.DecidePrepared,
         ReconcilePlan.DecideCandidate;
    PatchEnds(site, w, env, DecideRecovered(site.spec, Seen(w, env))[0]);
  }

  // A succeeded transition starts over.
  lemma SightingReselects(site: Site, w: World, env: Env, better: Node)
    requires Entering(site, w, env) && Sees(w, env, better) && Seen(w, env).phase == Succeeded
    ensures Ends(site, w, env, w.(status := Seen(w, env).(phase := Selecting, candidateSince := None)))
  {
    hide ReconcilePlan.Decide, Ends, ReconcilePlan.Observed, NodeScoring.Better, Entering, EffectLaw.After;
    var s := Seen(w, env);
    SightingDecides(site, w, env, better);
    hide Sees;
    PlainPatchEnds(site, w, env, Reselected, s.(phase := Selecting, candidateSince := None));
  }

  // ---- no better node: the transition itself ----

  // The comparison of nodes does not end the run.
  ghost predicate Undisputed(w: World, env: Env) {
    var s := Seen(w, env);
    && (forall better :: !Sees(w, env, better))
    && (s.phase == Stabilizing && s.candidateSince.Some? ==> Better(Candidates(env.nodes), s.target).Some?)
  }

  // There is nothing to move, or nowhere to move it.
  lemma NothingToDo(site: Site, w: World, env: Env)
    requires Entering(site, w, env) && Undisputed(w, env)
    requires var s := Seen(w, env); s.target == "" || s.phase == Succeeded || ServerOf(env.nodes, s.target).None?
    ensures Ends(site, w, env, w.(status := Seen(w, env)))
  {
    hide Ends, ReconcilePlan.Observed, NodeScoring.Better, Entering, NodeScoring.ServerOf;
    var better := Better(Candidates(env.nodes), Seen(w, env).target);
    assert better.Some? ==> !Sees(w, env, better.value);
    NothingEnds(site, w, env);
  }

  ghost predicate Moving(site: Site, w: World, env: Env, server: int) {
    var s := Seen(w, env);
    && Entering(site, w, env) && Undisputed(w, env)
    && s.target != "" && s.phase != Succeeded && ServerOf(env.nodes, s.target) == Some(server)
  }

  lemma MovingDecides(site: Site, w: World, env: Env, server: int)
    requires Moving(site, w, env, server)
    ensures Decide(site.spec, Seen(w, env), env) == DecidePrepared(site.spec, Seen(w, env), env, server)
    ensures env.owner == w.owner && env.now == w.now && w.run == Resting && Seen(w, env).observed == Some(w.owner)
    ensures Seen(w, env).localOwners == w.status.localOwners == env.ownersAfterDegrade == env.ownersAfterStamp
    ensures Seen(w, env).phase != Blocked && Seen(w, env).phase != Degraded && Seen(w, env).phase != Succeeded
  {
    hide NodeScoring.Better, NodeScoring.ServerOf, ReconcilePlan.DecidePrepared, System.Judged, System.Consistent;
    var better := Better(Candidates(env.nodes), Seen(w, env).target);
    assert better.Some? ==> !Sees(w, env, better.value);
  }

  predicate GatedBefore(phase: Phase) { phase == TargetPrepared || phase == RoutingProvider }

  // What a run waits for: the target's agent, the gate before the route, the cooldown, the provider, the next
  // cleanup check.
  predicate Waits(site: Site, w: World, s: Status, env: Env, server: int) {
    || s.target !in s.localOwners
    || (GatedBefore(s.phase) && !env.preRoute)
    || (s.phase == RoutingProvider && w.owner != server
        && !(s.lastAttempted.None? || w.now >= s.lastAttempted.value + Cooldown(site.spec)))
    || (s.phase != PreparingTarget && !GatedBefore(s.phase) && w.owner != server)
  }

  lemma WaitingOutcome(site: Site, w: World, env: Env, server: int)
    requires Moving(site, w, env, server) && Waits(site, w, Seen(w, env), env, server)
    ensures Ends(site, w, env, w.(status := Seen(w, env)))
  {
    MovingDecides(site, w, env, server);
    assert Entering(site, w, env);
    hide Ends, Entering, Moving, ReconcilePlan.Decide, ReconcilePlan.Observed, ReconcilePlan.Settle,
         ReconcilePlan.Recover;
    var s := Seen(w, env);
    if Decide(site.spec, s, env) == [] {
      NothingEnds(site, w, env);
    } else {
      PlainPatchEnds(site, w, env, Decide(site.spec, s, env)[0].reason, s);
    }
  }

  // The steps before traffic is checked.
  lemma PreparationOutcome(site: Site, w: World, env: Env, server: int)
    requires Moving(site, w, env, server) && Seen(w, env).target in Seen(w, env).localOwners
    requires GatedBefore(Seen(w, env).phase) ==> env.preRoute
    ensures var s := Seen(w, env);
            && (s.phase == PreparingTarget ==> Ends(site, w, env, w.(status := s.(phase := TargetPrepared))))
            && (s.phase == TargetPrepared ==> Ends(site, w, env, w.(status := s.(phase := RoutingProvider))))
            && (s.phase == RoutingProvider && w.owner == server ==>
                  Ends(site, w, env, w.(status := s.(phase := VerifyingProvider))))
            && (s.phase == VerifyingProvider && w.owner == server ==>
                  Ends(site, w, env, w.(status := s.(phase := VerifyingTraffic))))
  {
    MovingDecides(site, w, env, server);
    assert Entering(site, w, env);
    hide Ends, Entering, Moving, ReconcilePlan.Decide, ReconcilePlan.Observed, ReconcilePlan.Settle,
         ReconcilePlan.Recover, ReconcilePlan.DecideRoute, EffectLaw.After;
    var s := Seen(w, env);
    if s.phase == PreparingTarget {
      PlainPatchEnds(site, w, env, NodeReportedOwnership, s.(phase := TargetPrepared));
    } else if s.phase == TargetPrepared {
      PlainPatchEnds(site, w, env, RouteReady, s.(phase := RoutingProvider));
    } else if s.phase == RoutingProvider && w.owner == server {
      PlainPatchEnds(site, w, env, ProviderOwnerConfirmed, s.(phase := VerifyingProvider));
    } else if s.phase == VerifyingProvider && w.owner == server {
      PlainPatchEnds(site, w, env, OwnerVerified, s.(phase := VerifyingTraffic));
    }
  }

  // Some query succeeds and returns the server, and so does none of the fourteen or fewer before it fail.
  lemma {:induction false} ConvergesMeans(answers: seq<Option<int>>, server: int, n: nat)
    ensures Converges(answers, server, n) <==>
            exists i :: 0 <= i < n && i < |answers| && answers[i] == Some(server)
                        && forall j :: 0 <= j < i ==> answers[j].Some?
    decreases n
  {
    if n > 0 && answers != [] && answers[0].Some? && answers[0].value != server {
      ConvergesMeans(answers[1..], server, n - 1);
      assert forall i :: 0 <= i < |answers| - 1 ==> answers[1..][i] == answers[i + 1];
      if i :| 0 <= i < n && i < |answers| && answers[i] == Some(server) && forall j :: 0 <= j < i ==> answers[j].Some? {
        assert answers[1..][i - 1] == Some(server);
      }
      if i :| 0 <= i < n - 1 && i < |answers[1..]| && answers[1..][i] == Some(server)
              && forall j :: 0 <= j < i ==> answers[1..][j].Some? {
        assert answers[i + 1] == Some(server);
        assert forall j :: 0 < j < i + 1 ==> answers[j] == answers[1..][j - 1];
      }
    }
  }

  // One of the first fifteen polls shows the server, and those before it succeed.
  predicate Polled(answers: seq<Option<int>>, server: int) {
    exists i :: 0 <= i < 15 && i < |answers| && answers[i] == Some(server)
                && forall j :: 0 <= j < i ==> answers[j].Some?
  }

  // What is recorded of a route call: an error counts a retry, and a poll that shows the new owner confirms it.
  function Recorded(stamped: Status, env: Env, server: int): Status {
    if !env.routeOk then stamped.(retryCount := stamped.retryCount + 1)
    else if Polled(env.verifyReads, server) then stamped.(observed := Some(server), phase := VerifyingProvider)
    else stamped
  }

  lemma AfterRouteRunsTo(w: World, c: Context, stage: Stage, server: int)
    requires w.run == Resting && w.status.phase == RoutingProvider
    requires c.env.routeOk && Polled(c.env.verifyReads, server) ==> w.owner == server
    ensures RunsTo(w, c, stage, AfterRoute(w.status, c.env, server), w.(status := Recorded(w.status, c.env, server)))
  {
    ConvergesMeans(c.env.verifyReads, server, 15);
    assert Polled(c.env.verifyReads, server) <==> Converges(c.env.verifyReads, server, VERIFY_ATTEMPTS);
    hide RunsTo, EffectLaw.After, ReconcilePlan.Converges, Polled;
    var effects := AfterRoute(w.status, c.env, server);
    if effects == [] {
      RunsToItself(w, c, stage);
    } else if !c.env.routeOk {
      PlainPatchRunsTo(w, c, stage, effects[0]);
    } else {
      PlainPatchRunsTo(w, c, NextStage(stage, Read(server)), effects[1]);
      ReadRunsOn(w, c, stage, [effects[1]], w.(status := effects[1].updated));
    }
  }

  lemma RouteRunsTo(w: World, c: Context, stage: Stage, server: int)
    requires w.run == Resting && w.status.phase == RoutingProvider && c.env.now == w.now
    requires MutationAllowed(w.status.lastAttempted, Cooldown(c.spec), w.now)
    requires c.env.ownersAfterStamp == w.status.localOwners
    requires c.env.routeOk && Polled(c.env.verifyReads, server) ==> c.env.routeApplied
    ensures RunsTo(w, c, stage, DecideRoute(c.spec, w.status, c.env, server),
                   Called(w, server, c.env.routeApplied).(
                     status := Recorded(w.status.(lastAttempted := Some(w.now)), c.env, server)))
  {
    hide RunsTo, Polled, ReconcilePlan.AfterRoute, Recorded, Policy.MutationAllowed;
    var stamped := w.status.(lastAttempted := Some(w.now));
    var u, call := Called(w, server, c.env.routeApplied), Route(Forward, server, c.env.routeApplied);
    var v := u.(status := Recorded(stamped, c.env, server));
    AfterRouteRunsTo(u.(status := stamped), c, Routed, server);
    CallRunsOn(w, c, stage, MutationEligible, call, AfterRoute(stamped, c.env, server), v);
  }

  // The attempt is stamped, and the provider moves if the call is applied.
  lemma RouteOutcome(site: Site, w: World, env: Env, server: int)
    requires Moving(site, w, env, server) && Seen(w, env).target in Seen(w, env).localOwners
    requires Seen(w, env).phase == RoutingProvider && env.preRoute && w.owner != server
    requires var last := Seen(w, env).lastAttempted; last.None? || w.now >= last.value + Cooldown(site.spec)
    requires env.routeOk && Polled(env.verifyReads, server) ==> env.routeApplied
    ensures Ends(site, w, env,
                 Called(w, server, env.routeApplied).(
                   status := Recorded(Seen(w, env).(lastAttempted := Some(w.now)), env, server)))
  {
    MovingDecides(site, w, env, server);
    assert Entering(site, w, env);
    hide Ends, Entering, Moving, ReconcilePlan.Decide, ReconcilePlan.Observed, RunsTo, Polled, Recorded,
         ReconcilePlan.DecideRoute, ReconcilePlan.Settle, ReconcilePlan.Recover;
    RouteRunsTo(Deciding(w, env), Context(site.spec, w.status, env), StageOf(w, env), server);
    DecisionEnds(site, w, env,
        Called(w, server, env.routeApplied).(
          status := Recorded(Seen(w, env).(lastAttempted := Some(w.now)), env, server)));
  }

  // ---- after the route ----

  predicate PastVerification(phase: Phase) {
    && phase != PreparingTarget && phase != TargetPrepared && phase != RoutingProvider && phase != VerifyingProvider
    && phase != Succeeded
  }

  // The run finds the target prepared and routed, and goes on to check traffic.
  ghost predicate Arriving(site: Site, w: World, env: Env, server: int) {
    && Moving(site, w, env, server) && Seen(w, env).target in Seen(w, env).localOwners && w.owner == server
    && PastVerification(Seen(w, env).phase)
  }

  lemma SettledEnds(site: Site, w: World, env: Env, server: int, updated: Status)
    requires Arriving(site, w, env, server)
    requires env.postRoute || site.spec.recoveryPolicy == RecoveryPolicy.CommitDegraded
    requires updated.localOwners == Seen(w, env).localOwners
    requires var effects := Settle(site.spec, Seen(w, env), env);
             if effects == [] then updated == Seen(w, env)
             else |effects| == 1 && Settles(effects[0], Seen(w, env), updated)
    ensures Ends(site, w, env, w.(status := updated))
  {
    MovingDecides(site, w, env, server);
    assert Entering(site, w, env);
    var s, c, stage := Seen(w, env), Context(site.spec, w.status, env), StageOf(w, env);
    var u, v, effects := Deciding(w, env), w.(status := updated), Settle(site.spec, Seen(w, env), env);
    hide Ends, Entering, Moving, ReconcilePlan.Decide, ReconcilePlan.Observed, ReconcilePlan.Settle, RunsTo;
    assert effects == [] || effects == [effects[0]];
    assert s.(localOwners := env.ownersAfterDegrade) == s;
    forall any: Stage ensures RunsTo(u, c, any, effects, v) {
      if effects == [] { RunsToItself(u, c, any); } else { PlainPatchRunsTo(u, c, any, effects[0]); }
    }
    if !env.postRoute { PatchRunsOn(u, c, stage, Patch(CommitsDegraded, s, s), effects, v); }
    DecisionEnds(site, w, env, v);
  }

  predicate Settles(e: Effect, s: Status, updated: Status) {
    && e.Patch? && e.base == s && e.updated == updated
    && (e.reason == ProbeGatePassed || e.reason == Committed || e.reason == OwnersPending || e.reason == CleanupTimeout
        || e.reason == SingleOwner || e.reason == UnexpectedPhase)
  }

  // Accepted traffic: the next phase, and with the commit the target becomes the source as well.
  lemma AcceptanceOutcome(site: Site, w: World, env: Env, server: int)
    requires Arriving(site, w, env, server) && Seen(w, env).phase != CleaningStaleOwners
    requires env.postRoute || site.spec.recoveryPolicy == RecoveryPolicy.CommitDegraded
    ensures var s := Seen(w, env);
            Ends(site, w, env,
                 w.(status := if s.phase == VerifyingTraffic then s.(phase := Committing)
                              else if s.phase == Committing then s.(source := s.target, phase := CleaningStaleOwners)
                              else s.(phase := Blocked)))
  {
    var s := Seen(w, env);
    var updated := if s.phase == VerifyingTraffic then s.(phase := Committing)
                   else if s.phase == Committing then s.(source := s.target, phase := CleaningStaleOwners)
                   else s.(phase := Blocked);
    hide Ends, Arriving, ReconcilePlan.Observed;
    SettledEnds(site, w, env, server, updated);
  }

  // A cleanup check that is due succeeds on the report [target], and otherwise is counted: the last of the
  // attempts degrades the transition, every other one announces the next.
  function Checked(spec: Spec, s: Status, now: int): Status {
    var counted := s.(cleanupAttempts := s.cleanupAttempts + 1);
    if s.localOwners == [s.target] then s.(phase := Succeeded)
    else if counted.cleanupAttempts >= CleanupMaxAttempts(spec) then counted.(phase := Degraded)
    else counted.(nextCleanup := Some(now + Backoff.CleanupDelay(spec, counted.cleanupAttempts)))
  }

  lemma CheckSettles(spec: Spec, s: Status, env: Env)
    requires s.phase == CleaningStaleOwners && (s.nextCleanup.None? || s.nextCleanup.value <= env.now)
    ensures |Settle(spec, s, env)| == 1 && Settles(Settle(spec, s, env)[0], s, Checked(spec, s, env.now))
  {
    hide Backoff.CleanupDelay, Policy.CleanupMaxAttempts;
    assert |s.localOwners| == 1 && s.target in s.localOwners <==> s.localOwners == [s.target];
  }

  lemma CheckOutcome(site: Site, w: World, env: Env, server: int)
    requires Arriving(site, w, env, server) && Seen(w, env).phase == CleaningStaleOwners
    requires env.postRoute || site.spec.recoveryPolicy == RecoveryPolicy.CommitDegraded
    requires Seen(w, env).nextCleanup.None? || Seen(w, env).nextCleanup.value <= w.now
    ensures Ends(site, w, env, w.(status := Checked(site.spec, Seen(w, env), w.now)))
  {
    MovingDecides(site, w, env, server);
    CheckSettles(site.spec, Seen(w, env), env);
    assert Checked(site.spec, Seen(w, env), w.now).localOwners == Seen(w, env).localOwners;
    hide Ends, Arriving, ReconcilePlan.Observed, ReconcilePlan.Decide, Settles, Checked, ReconcilePlan.Settle;
    SettledEnds(site, w, env, server, Checked(site.spec, Seen(w, env), w.now));
  }

  lemma EarlyCheckOutcome(site: Site, w: World, env: Env, server: int)
    requires Arriving(site, w, env, server) && Seen(w, env).phase == CleaningStaleOwners
    requires env.postRoute || site.spec.recoveryPolicy == RecoveryPolicy.CommitDegraded
    requires Seen(w, env).nextCleanup.Some? && Seen(w, env).nextCleanup.value > w.now
    ensures Ends(site, w, env, w.(status := Seen(w, env)))
  {
    MovingDecides(site, w, env, server);
    hide Ends, Arriving, ReconcilePlan.Observed, ReconcilePlan.Decide, ReconcilePlan.DecidePrepared, Moving, Entering;
    SettledEnds(site, w, env, server, Seen(w, env));
  }

  // ---- traffic is not accepted ----

  // Neither of these policies calls the provider.
  lemma HoldOutcome(site: Site, w: World, env: Env, server: int)
    requires Arriving(site, w, env, server) && !env.postRoute
    requires var policy := site.spec.recoveryPolicy;
             policy != RecoveryPolicy.RollbackProvider && policy != RecoveryPolicy.CommitDegraded
    ensures var stop := if site.spec.recoveryPolicy == RecoveryPolicy.ManualIntervention then Blocked else Degraded;
            Ends(site, w, env, w.(status := Seen(w, env).(phase := stop)))
  {
    MovingDecides(site, w, env, server);
    assert Entering(site, w, env);
    hide Ends, Moving, ReconcilePlan.Observed, ReconcilePlan.Decide, Entering;
    var s := Seen(w, env);
    PlainPatchEnds(site, w, env, Recover(site.spec, s, env)[0].reason, Recover(site.spec, s, env)[0].updated);
  }

  // How a rollback ends, given the source's server: nothing to roll back to, already there, deferred by the
  // cooldown, or called; and a call that is not confirmed blocks the transition.
  function RolledBack(spec: Spec, w: World, s: Status, env: Env, home: Option<int>): World {
    var stamped := s.(lastAttempted := Some(w.now));
    if home.None? || env.recoveryRead.None? then w.(status := s.(phase := Blocked))
    else if w.owner == home.value then w.(status := s.(phase := Degraded))
    else if s.lastAttempted.Some? && w.now < s.lastAttempted.value + Cooldown(spec) then w.(status := s)
    else
      Called(w, home.value, env.routeApplied).(
        status :=
          if env.routeOk && env.confirmRead == home then stamped.(observed := home, phase := Degraded)
          else stamped.(phase := Blocked))
  }

  function Home(s: Status, env: Env): Option<int> { if s.source == "" then None else ServerOf(env.nodes, s.source) }

  // The readings of a rollback are those of the provider.
  predicate TruthfulReadings(w: World, s: Status, env: Env) {
    && (env.recoveryRead.Some? ==> env.recoveryRead.value == w.owner)
    && (env.confirmRead.Some? && Home(s, env).Some? ==>
          env.confirmRead.value == Called(w, Home(s, env).value, env.routeApplied).owner)
  }

  lemma AfterRollbackRunsTo(w: World, c: Context, base: Status, server: int)
    requires w.run == Resting && c.env.ownersAfterStamp == w.status.localOwners == base.localOwners
    requires w.status == base.(lastAttempted := w.status.lastAttempted)
    requires c.env.confirmRead.Some? ==> c.env.confirmRead.value == w.owner
    ensures RunsTo(w, c, Routed, AfterRollback(base, w.status, c.env, server),
                   w.(status := if c.env.routeOk && c.env.confirmRead == Some(server) then
                                  w.status.(observed := Some(server), phase := Degraded)
                                else w.status.(phase := Blocked)))
  {
    hide RunsTo;
    var effects := AfterRollback(base, w.status, c.env, server);
    var last := effects[|effects| - 1];
    RunsToPatched(w, c, Routed, last);
    if |effects| == 2 { ReadRunsOn(w, c, Routed, [last], w.(status := After(w.status, last))); }
  }

  lemma RollbackOutcome(site: Site, w: World, env: Env, server: int)
    requires Arriving(site, w, env, server) && !env.postRoute
    requires site.spec.recoveryPolicy == RecoveryPolicy.RollbackProvider && TruthfulReadings(w, Seen(w, env), env)
    ensures var s := Seen(w, env); Ends(site, w, env, RolledBack(site.spec, w, s, env, Home(s, env)))
  {
    MovingDecides(site, w, env, server);
    assert Entering(site, w, env);
    hide Ends, Moving, ReconcilePlan.Observed, ReconcilePlan.Decide, Entering, NodeScoring.ServerOf, RunsTo;
    var s, c, stage := Seen(w, env), Context(site.spec, w.status, env), StageOf(w, env);
    assert Decide(site.spec, s, env) == RollBack(site.spec, s, env);
    hide ReconcilePlan.DecidePrepared, ReconcilePlan.Settle, ReconcilePlan.DecideRoute;
    RollBackRunsTo(Deciding(w, env), c, stage);
    DecisionEnds(site, w, env, RolledBack(site.spec, w, s, env, Home(s, env)));
  }

  lemma RollBackRunsTo(w: World, c: Context, stage: Stage)
    requires w.run == Resting && w.status.observed == Some(w.owner) && c.env.now == w.now
    requires c.env.ownersAfterStamp == w.status.localOwners && TruthfulReadings(w, w.status, c.env)
    ensures RunsTo(w, c, stage, RollBack(c.spec, w.status, c.env),
                   RolledBack(c.spec, w, w.status, c.env, Home(w.status, c.env)))
  {
    hide RunsTo, ReconcilePlan.AfterRollback, NodeScoring.ServerOf;
    var s, home := w.status, Home(w.status, c.env);
    var v := RolledBack(c.spec, w, s, c.env, home);
    if home.None? || c.env.recoveryRead.None? {
      PlainPatchRunsTo(w, c, stage, Patch(RollbackUnavailable, s, s.(phase := Blocked)));
    } else {
      var open := NextStage(stage, Read(w.owner));
      var rest := RollBack(c.spec, s, c.env)[1..];
      if w.owner == home.value || !MutationAllowed(s.lastAttempted, Cooldown(c.spec), w.now) {
        assert rest == [rest[0]];
        PlainPatchRunsTo(w, c, open, rest[0]);
      } else {
        var stamped := s.(lastAttempted := Some(w.now));
        var u, call := Called(w, home.value, c.env.routeApplied), Route(Rollback, home.value, c.env.routeApplied);
        AfterRollbackRunsTo(u.(status := stamped), c, s, home.value);
        assert stamped.(localOwners := c.env.ownersAfterStamp) == stamped;
        CallRunsOn(w, c, open, RollbackEligible, call, AfterRollback(s, stamped, c.env, home.value), v);
      }
      ReadRunsOn(w, c, stage, rest, v);
    }
  }

  // Failed traffic checks never pass without a trace: every policy but CommitDegraded stops the transition, except
  // that the cooldown may put a rollback off.
  lemma FailedTrafficStops(site: Site, w: World, env: Env, server: int, v: World)
    requires Arriving(site, w, env, server) && !env.postRoute && TruthfulReadings(w, Seen(w, env), env)
    requires site.spec.recoveryPolicy != RecoveryPolicy.CommitDegraded && Ends(site, w, env, v)
    ensures match site.spec.recoveryPolicy
      case ManualIntervention => v.status.phase == Blocked
      case RollbackProvider =>
        || v.status.phase == Blocked || v.status.phase == Degraded
        || (v == w.(status := Seen(w, env)) && Seen(w, env).lastAttempted.Some?
            && w.now < Seen(w, env).lastAttempted.value + Cooldown(site.spec))
      case _ => v.status.phase == Degraded
  {
    if site.spec.recoveryPolicy == RecoveryPolicy.RollbackProvider {
      RollbackOutcome(site, w, env, server);
    } else {
      HoldOutcome(site, w, env, server);
    }
  }
}
