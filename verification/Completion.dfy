/**
 Conditional completion: while nobody interferes and the readings are favourable, every transition that has chosen
 its target completes. Each round all agents run, in any order, and then one reconcile run; one round per phase.
*/
module Completion {
  import opened Prelude
  import opened Api
  import opened NodeScoring
  import opened Policy
  import opened ReconcilePlan
  import opened EffectLaw
  import opened NodeInterface
  import opened System
  import opened Consequences
  import opened SuccessCertificate
  import opened AgentConvergence
  import opened Scenario
  import opened Handoff

  // ---- runs that are not cut short ----

  function RunOut(w: World): World
    decreases if w.run.Running? then |w.run.rest| else 0
  {
    if w.run.Running? && w.run.rest != [] then RunOut(Performed(w, w.run.rest[0])) else w
  }

  // Each effect of the run can be performed when its turn comes.
  ghost predicate CanRunOut(w: World)
    decreases if w.run.Running? then |w.run.rest| else 0
  {
    w.run.Running? && w.run.rest != [] ==>
      CanPerform(w, w.run.c, w.run.rest[0]) && CanRunOut(Performed(w, w.run.rest[0]))
  }

  ghost predicate Leads(site: Site, w: World, v: World) {
    exists ls :: Valid(site, w, ls) && NoMoves(ls) && NoAgentCrashes(ls) && Exec(site, w, ls) == v
  }

  lemma {:induction false} ExecSplits(site: Site, w: World, a: seq<Label>, b: seq<Label>)
    ensures Exec(site, w, a + b) == Exec(site, Exec(site, w, a), b)
    ensures Valid(site, w, a) && Valid(site, Exec(site, w, a), b) ==> Valid(site, w, a + b)
    decreases |b|
  {
    hide Next, Enabled;
    if b == [] {
      assert a + b == a;
    } else {
      var all := a + b;
      assert all[..|all| - 1] == a + b[..|b| - 1];
      ExecSplits(site, w, a, b[..|b| - 1]);
    }
  }

  lemma LeadsOn(site: Site, u: World, v: World, w: World)
    requires Leads(site, u, v) && Leads(site, v, w)
    ensures Leads(site, u, w)
  {
    var a :| Valid(site, u, a) && NoMoves(a) && NoAgentCrashes(a) && Exec(site, u, a) == v;
    var b :| Valid(site, v, b) && NoMoves(b) && NoAgentCrashes(b) && Exec(site, v, b) == w;
    ExecSplits(site, u, a, b);
    assert NoMoves(a + b) && NoAgentCrashes(a + b);
  }

  lemma LeadsByOne(site: Site, w: World, l: Label)
    requires Enabled(site, w, l) && !l.Move? && !(l.Agent? && l.crash)
    ensures Leads(site, w, Next(site, w, l))
  {
    assert [l][..0] == [];
    assert Exec(site, w, [l]) == Next(site, Exec(site, w, []), l);
    assert Valid(site, w, []) && Valid(site, w, [l]) && NoMoves([l]) && NoAgentCrashes([l]);
  }

  lemma LeadsNowhere(site: Site, w: World)
    ensures Leads(site, w, w)
  {
    assert Valid(site, w, []) && Exec(site, w, []) == w && NoMoves([]) && NoAgentCrashes([]);
  }

  lemma {:induction false} RunsOut(site: Site, w: World)
    requires CanRunOut(w)
    ensures Leads(site, w, RunOut(w))
    decreases if w.run.Running? then |w.run.rest| else 0
  {
    hide Leads, Performed;
    if w.run.Running? && w.run.rest != [] {
      LeadsByOne(site, w, Perform);
      RunsOutOnce(site, w);
    } else {
      LeadsNowhere(site, w);
    }
  }

  lemma RunsOutOnce(site: Site, w: World)
    requires CanRunOut(w) && w.run.Running? && w.run.rest != [] && Leads(site, w, Next(site, w, Perform))
    ensures Leads(site, w, RunOut(w))
    decreases |w.run.rest|, 0
  {
    hide Leads, EffectLaw.After;
    var v := Performed(w, w.run.rest[0]);
    RunsOut(site, v);
    LeadsOn(site, w, v, RunOut(w));
  }

  // ---- one reconcile run ----

  // A transition that has chosen its target and whose provider owner the fence accepts: it is the recorded one,
  // or that of the target, as after a call whose record was lost.
  ghost predicate OnTrack(site: Site, w: World, k: nat) {
    && 2 <= k < 9 && w.run == Resting && w.status.phase == PIPELINE[k]
    && ValidSpec(site.spec) && ValidStatus(w.status)
    && w.status.target in site.servers && w.status.target != ""
    && FenceAccepts(w.status.observed, w.owner, Some(site.servers[w.status.target]))
    && (k >= 5 ==> w.owner == site.servers[w.status.target])
    && (k == 8 ==> w.status.source == w.status.target)
  }

  // Readings under which nothing stands in the way: the target is still the best node, the gates of the phase pass,
  // an announced cleanup time has come, and a provider that points elsewhere does and reports what it is asked to,
  // once the cooldown allows to ask.
  ghost predicate Favourable(site: Site, w: World, env: Env)
    requires w.status.target in site.servers
  {
    && Enabled(site, w, Begin(env)) && env.readsOk && env.ownersAfterObserve == w.status.localOwners
    && Better(Candidates(env.nodes), w.status.target).None?
    && ServerOf(env.nodes, w.status.target) == Some(site.servers[w.status.target])
    && (w.status.phase == TargetPrepared || w.status.phase == RoutingProvider ==> env.preRoute)
    && (w.status.phase == RoutingProvider && w.owner != site.servers[w.status.target] ==>
          CallFavoured(site, w, env, site.servers[w.status.target]))
    && (w.status.phase == VerifyingTraffic || w.status.phase == Committing || w.status.phase == CleaningStaleOwners ==>
          env.postRoute)
    && (w.status.phase == CleaningStaleOwners && w.status.nextCleanup.Some? ==> w.status.nextCleanup.value <= env.now)
  }

  predicate CallFavoured(site: Site, w: World, env: Env, server: int) {
    && MutationAllowed(w.status.lastAttempted, Cooldown(site.spec), env.now)
    && env.routeApplied && env.routeOk && env.ownersAfterStamp == w.status.localOwners
    && Converges(env.verifyReads, server, VERIFY_ATTEMPTS)
  }

  // The status once the run has recorded the owner it observed, and the stage it is then in.
  function Noted(w: World): Status { w.status.(observed := Some(w.owner)) }

  function Underway(w: World, c: Context, rest: seq<Effect>): World {
    w.(status := Noted(w), run := Running(c, if Noted(w) == w.status then Begun else Open, rest))
  }

  predicate PlansAfterNoting(w: World, effects: seq<Effect>, rest: seq<Effect>) {
    effects == if Noted(w) == w.status then rest else [Patch(OwnerObserved, w.status, Noted(w))] + rest
  }

  lemma NotesFirst(site: Site, w: World, env: Env, rest: seq<Effect>)
    requires w.run == Resting && rest != [] && env.ownersAfterObserve == w.status.localOwners
    requires PlansAfterNoting(w, Plan(site.spec, w.status, env), rest)
    requires var u := Underway(w, Context(site.spec, w.status, env), rest); CanRunOut(u)
    ensures var u := Underway(w, Context(site.spec, w.status, env), rest);
            CanRunOut(StartRun(site, w, env)) && RunOut(StartRun(site, w, env)) == RunOut(u)
  {
    hide ReconcilePlan.Plan, RunOut, CanRunOut, Api.MergePatch;
    var u := Underway(w, Context(site.spec, w.status, env), rest);
    if Noted(w) == w.status {
      assert StartRun(site, w, env) == u;
    } else {
      var observe := Patch(OwnerObserved, w.status, Noted(w));
      assert ([observe] + rest)[1..] == rest;
      MergeCopy(w.status, w.status, Noted(w));
      RunsOutFrom(StartRun(site, w, env), u);
    }
  }

  lemma OneEffect(w: World, c: Context, stage: Stage, e: Effect)
    requires w.run == Resting && e.Patch? && e.base == w.status && e.updated.localOwners == w.status.localOwners
    requires Undisturbed(e.reason)
    ensures var u := w.(run := Running(c, stage, [e])); CanRunOut(u) && RunOut(u) == w.(status := e.updated)
  {
    hide RunOut, CanRunOut, Api.MergePatch;
    MergeCopy(w.status, e.base, e.updated);
    assert [e][1..] == [];
    RestingRunsOut(w.(status := e.updated));
    RunsOutFrom(w.(run := Running(c, stage, [e])), w.(status := e.updated));
  }

  // What a run on track does, phase by phase.
  lemma PlanPrepares(site: Site, w: World, env: Env, k: nat)
    requires OnTrack(site, w, k) && Favourable(site, w, env)
    ensures PlansAfterNoting(w, Plan(site.spec, w.status, env),
                             DecidePrepared(site.spec, Noted(w), env, site.servers[w.status.target]))
    ensures env.owner == w.owner && env.ownersAfterObserve == w.status.localOwners
    ensures (k == 3 || k == 4 ==> env.preRoute) && (k >= 6 ==> env.postRoute)
    ensures k == 4 && w.owner != site.servers[w.status.target] ==>
            CallFavoured(site, w, env, site.servers[w.status.target])
    ensures k == 8 && w.status.nextCleanup.Some? ==> w.status.nextCleanup.value <= env.now
  {
    hide NodeScoring.Better, NodeScoring.Candidates, NodeScoring.ServerOf, ReconcilePlan.DecidePrepared, CallFavoured,
         ReconcilePlan.DecideRecovered, ReconcilePlan.DecideCandidate, System.Judged, System.Consistent;
    assert Observed(w.status, env) == Noted(w);
    assert Noted(w).(localOwners := w.status.localOwners) == Noted(w);
  }

  // The one patch of such a run.
  predicate TakesStep(effects: seq<Effect>, st: Status, k: nat)
    requires k < 9
  {
    && |effects| == 1 && effects[0].Patch? && effects[0].base == st
    && effects[0].updated == st.(phase := PIPELINE[k + 1], source := if k == 7 then st.target else st.source)
    && Undisturbed(effects[0].reason)
  }

  // Patches that do not depend on what agents store meanwhile.
  predicate Undisturbed(reason: Reason) {
    && reason != OwnerObserved && reason != CommitsDegraded && reason != MutationEligible && reason != RollbackEligible
    && !EndsCall(reason)
  }

  lemma SettlingMoves(spec: Spec, st: Status, env: Env, k: nat)
    requires 6 <= k < 9 && st.phase == PIPELINE[k]
    requires k == 8 ==> st.localOwners == [st.target] && (st.nextCleanup.Some? ==> st.nextCleanup.value <= env.now)
    ensures TakesStep(Settle(spec, st, env), st, k)
  {
  }

  lemma PreparationMoves(spec: Spec, st: Status, env: Env, server: int, k: nat)
    requires 2 <= k < 6 && st.phase == PIPELINE[k] && st.target in st.localOwners
    requires k == 3 || k == 4 ==> env.preRoute
    requires k >= 4 ==> env.owner == server
    ensures TakesStep(DecidePrepared(spec, st, env, server), st, k)
  {
    hide TakesStep, ReconcilePlan.DecideRoute, ReconcilePlan.Recover, ReconcilePlan.Settle;
    var effects := DecidePrepared(spec, st, env, server);
    if k == 2 {
      PhaseMoves(effects, st, NodeReportedOwnership, k);
    } else if k == 3 {
      PhaseMoves(effects, st, RouteReady, k);
    } else if k == 4 {
      PhaseMoves(effects, st, ProviderOwnerConfirmed, k);
    } else {
      PhaseMoves(effects, st, OwnerVerified, k);
    }
  }

  lemma PhaseMoves(effects: seq<Effect>, st: Status, reason: Reason, k: nat)
    requires k < 7 && effects == [Patch(reason, st, st.(phase := PIPELINE[k + 1]))] && Undisturbed(reason)
    ensures TakesStep(effects, st, k)
  {
  }

  lemma SimpleStep(spec: Spec, st: Status, env: Env, server: int, k: nat)
    requires 2 <= k < 9 && st.phase == PIPELINE[k] && st.target in st.localOwners
    requires (k == 3 || k == 4 ==> env.preRoute) && (k >= 6 ==> env.postRoute)
    requires k >= 4 ==> env.owner == server
    requires k == 8 ==> st.localOwners == [st.target] && (st.nextCleanup.Some? ==> st.nextCleanup.value <= env.now)
    ensures TakesStep(DecidePrepared(spec, st, env, server), st, k)
  {
    hide TakesStep, ReconcilePlan.DecideRoute, ReconcilePlan.Recover, ReconcilePlan.Settle;
    if k < 6 {
      PreparationMoves(spec, st, env, server, k);
    } else {
      assert DecidePrepared(spec, st, env, server) == Settle(spec, st, env);
      SettlingMoves(spec, st, env, k);
    }
  }

  lemma RoutingStep(spec: Spec, st: Status, env: Env, server: int)
    requires st.phase == RoutingProvider && st.target in st.localOwners && env.preRoute && env.owner != server
    requires MutationAllowed(st.lastAttempted, Cooldown(spec), env.now) && env.routeApplied && env.routeOk
    requires Converges(env.verifyReads, server, VERIFY_ATTEMPTS)
    ensures var stamped := st.(lastAttempted := Some(env.now));
            DecidePrepared(spec, st, env, server) ==
            [Patch(MutationEligible, st, stamped), Route(Forward, server, true), Read(server),
             Patch(ProviderOwnerConfirmed, stamped, stamped.(observed := Some(server), phase := VerifyingProvider))]
  {
    hide ReconcilePlan.Settle, ReconcilePlan.Recover, ReconcilePlan.Converges, Policy.MutationAllowed;
  }

  lemma RouteRunsOut(w: World, c: Context, stage: Stage, server: int)
    requires w.run == Resting && c.env.ownersAfterStamp == w.status.localOwners
    ensures var stamped := w.status.(lastAttempted := Some(c.env.now));
            var confirmed := stamped.(observed := Some(server), phase := VerifyingProvider);
            var u := w.(run := Running(c, stage,
                      [Patch(MutationEligible, w.status, stamped), Route(Forward, server, true), Read(server),
                       Patch(ProviderOwnerConfirmed, stamped, confirmed)]));
            CanRunOut(u) && RunOut(u) == w.(owner := server, status := confirmed)
  {
    hide Api.MergePatch, RunOut, CanRunOut;
    var stamped := w.status.(lastAttempted := Some(c.env.now));
    var confirmed := stamped.(observed := Some(server), phase := VerifyingProvider);
    var stamp, call, query, record :=
      Patch(MutationEligible, w.status, stamped), Route(Forward, server, true), Read(server),
      Patch(ProviderOwnerConfirmed, stamped, confirmed);
    MergeCopy(w.status, w.status, stamped);
    MergeCopy(stamped, stamped, confirmed);
    assert [stamp, call, query, record][1..] == [call, query, record] && [call, query, record][1..] == [query, record];
    assert [query, record][1..] == [record] && [record][1..] == [];
    var u := w.(status := stamped, owner := server);
    RestingRunsOut(w.(owner := server, status := confirmed));
    RunsOutFrom(u.(run := Running(c, Routed, [record])), w.(owner := server, status := confirmed));
    RunsOutFrom(u.(run := Running(c, Routed, [query, record])), u.(run := Running(c, Routed, [record])));
    RunsOutFrom(w.(status := stamped, run := Running(c, Stamped, [call, query, record])),
                u.(run := Running(c, Routed, [query, record])));
    RunsOutFrom(w.(run := Running(c, stage, [stamp, call, query, record])),
                w.(status := stamped, run := Running(c, Stamped, [call, query, record])));
  }

  lemma RestingRunsOut(w: World)
    requires w.run == Resting
    ensures CanRunOut(w) && RunOut(w) == w
  {
  }

  lemma RunsOutFrom(w: World, v: World)
    requires w.run.Running? && w.run.rest != [] && CanPerform(w, w.run.c, w.run.rest[0])
    requires Performed(w, w.run.rest[0]) == v && CanRunOut(v)
    ensures CanRunOut(w) && RunOut(w) == RunOut(v)
  {
  }

  // Where one favourable run ends.
  function Advanced(w: World, env: Env, server: int, k: nat): World
    requires k < 9
  {
    if k == 4 && w.owner != server then
      w.(owner := server,
         status := Noted(w).(lastAttempted := Some(env.now), observed := Some(server), phase := VerifyingProvider))
    else
      w.(status := Noted(w).(phase := PIPELINE[k + 1], source := if k == 7 then w.status.target else w.status.source))
  }

  lemma RunReaches(site: Site, w: World, env: Env, k: nat)
    requires OnTrack(site, w, k) && Favourable(site, w, env) && w.status.target in w.status.localOwners
    requires k == 8 ==> w.status.localOwners == [w.status.target]
    ensures CanRunOut(StartRun(site, w, env))
    ensures RunOut(StartRun(site, w, env)) == Advanced(w, env, site.servers[w.status.target], k)
  {
    hide ReconcilePlan.Plan, RunOut, CanRunOut, Favourable, Policy.FenceAccepts, Api.ValidStatus, Api.ValidSpec;
    var server, c := site.servers[w.status.target], Context(site.spec, w.status, env);
    var noted, rest := w.(status := Noted(w)), DecidePrepared(site.spec, Noted(w), env, site.servers[w.status.target]);
    PlanPrepares(site, w, env, k);
    if k == 4 && w.owner != server {
      RoutingStep(site.spec, Noted(w), env, server);
      RouteRunsOut(noted, c, Underway(w, c, rest).run.stage, server);
    } else {
      SimpleStep(site.spec, Noted(w), env, server, k);
      hide ReconcilePlan.DecidePrepared;
      assert rest == [rest[0]];
      OneEffect(noted, c, Underway(w, c, rest).run.stage, rest[0]);
    }
    NotesFirst(site, w, env, rest);
  }

  lemma AdvancedIsOnTrack(site: Site, w: World, env: Env, k: nat)
    requires OnTrack(site, w, k) && k < 8
    ensures OnTrack(site, Advanced(w, env, site.servers[w.status.target], k), k + 1)
  {
    assert PIPELINE[k + 1] == [TargetPrepared, RoutingProvider, VerifyingProvider, VerifyingTraffic, Committing,
                               CleaningStaleOwners][k - 2];
    var v := Advanced(w, env, site.servers[w.status.target], k);
    assert ValidStatus(v.status);
    hide Api.ValidStatus, Api.ValidSpec;
  }

  // One favourable run takes a transition on track to the next phase and keeps it on track.
  lemma RunAdvances(site: Site, w: World, env: Env, k: nat)
    requires OnTrack(site, w, k) && Favourable(site, w, env) && w.status.target in w.status.localOwners
    requires k == 8 ==> w.status.localOwners == [w.status.target]
    ensures CanRunOut(StartRun(site, w, env))
    ensures var v := RunOut(StartRun(site, w, env));
            && v.status.phase == PIPELINE[k + 1] && (k < 8 ==> OnTrack(site, v, k + 1))
            && v.run == Resting && v.holders == w.holders && v.status.localOwners == w.status.localOwners
            && v.status.target == w.status.target
            && (v.status.source == if k == 7 then w.status.target else w.status.source)
            && v.owner == (if k == 4 then site.servers[w.status.target] else w.owner)
  {
    RunReaches(site, w, env, k);
    if k < 8 { AdvancedIsOnTrack(site, w, env, k); }
    OwnerAlong(site, w, k);
    hide RunOut, CanRunOut, StartRun, Favourable, OnTrack;
  }

  lemma OwnerAlong(site: Site, w: World, k: nat)
    requires OnTrack(site, w, k)
    ensures k < 9 && w.run == Resting && w.status.target in site.servers
    ensures k >= 5 ==> w.owner == site.servers[w.status.target]
  {
  }

  // ---- rounds ----

  // Some time passes, the scheduled agents run, then one reconcile run.
  datatype Round = Round(elapsed: nat, schedule: seq<string>, env: Env)

  function Tended(site: Site, w: World, r: Round): World {
    Exec(site, w.(now := w.now + r.elapsed), AgentLabels(r.schedule))
  }

  function AfterRound(site: Site, w: World, r: Round): World { RunOut(StartRun(site, Tended(site, w, r), r.env)) }

  function AfterRounds(site: Site, w: World, rounds: seq<Round>): World
    decreases |rounds|
  {
    if rounds == [] then w else AfterRounds(site, AfterRound(site, w, rounds[0]), rounds[1..])
  }

  // In every round all agents concerned run, and the run's readings are favourable.
  ghost predicate AllFavourable(site: Site, w: World, rounds: seq<Round>)
    decreases |rounds|
  {
    rounds == [] ||
    (&& CoversAgents(rounds[0].schedule, w.status.source, w.status.target, LocalOf(w))
     && Tended(site, w, rounds[0]).status.target in site.servers
     && Favourable(site, Tended(site, w, rounds[0]), rounds[0].env)
     && AllFavourable(site, AfterRound(site, w, rounds[0]), rounds[1..]))
  }

  // On track, with reports that agents can put right.
  ghost predicate Sound(site: Site, w: World, k: nat) {
    && OnTrack(site, w, k) && Distinct(w.status.localOwners)
    && NoneStale(LocalOf(w), w.status.source, w.status.target)
  }

  lemma AgentsTend(site: Site, w: World, r: Round, k: nat)
    requires Sound(site, w, k) && CoversAgents(r.schedule, w.status.source, w.status.target, LocalOf(w))
    ensures var v := Tended(site, w, r);
            && Leads(site, w, v) && OnTrack(site, v, k) && Distinct(v.status.localOwners)
            && Core(v.status) == Core(w.status) && v.owner == w.owner
            && v.holders == Roles(w.status.source, w.status.target) && Entries(v.status.localOwners) == v.holders
            && w.status.target in v.status.localOwners
            && (k == 8 ==> v.status.localOwners == [w.status.target])
  {
    hide Leads, RunAll, Exec, Valid, OnTrack;
    var u := w.(now := w.now + r.elapsed);
    var v := Tended(site, w, r);
    TickLeads(site, w, r.elapsed);
    ExecAgents(site, u, r.schedule);
    AgentsLead(site, u, r.schedule);
    LeadsOn(site, w, u, v);
    AgentsConverge(r.schedule, w.status.source, w.status.target, LocalOf(w));
    ScheduleKeepsDistinct(r.schedule, w.status.source, w.status.target, LocalOf(w));
    StaysOnTrack(site, w, v, k);
    assert w.status.target in Roles(w.status.source, w.status.target);
    assert w.status.target in Entries(v.status.localOwners);
    if k == 8 { SingleEntry(v.status.localOwners, w.status.target); }
  }

  lemma TickLeads(site: Site, w: World, elapsed: nat)
    ensures Leads(site, w, w.(now := w.now + elapsed))
  {
    hide Leads;
    LeadsByOne(site, w, Tick(elapsed));
  }

  lemma AgentsLead(site: Site, w: World, schedule: seq<string>)
    requires "" !in schedule
    ensures Leads(site, w, Exec(site, w, AgentLabels(schedule)))
  {
    hide Exec, Valid;
    ExecAgents(site, w, schedule);
    assert NoMoves(AgentLabels(schedule)) && NoAgentCrashes(AgentLabels(schedule));
  }

  lemma StaysOnTrack(site: Site, w: World, v: World, k: nat)
    requires OnTrack(site, w, k) && Core(v.status) == Core(w.status) && v.owner == w.owner && v.run == w.run
    ensures OnTrack(site, v, k) && w.status.target != "" && (k == 8 ==> w.status.source == w.status.target)
  {
    assert v.status == w.status.(localOwners := v.status.localOwners);
  }

  // One round takes a sound transition to the next phase.
  lemma RoundAdvances(site: Site, w: World, r: Round, k: nat)
    requires Sound(site, w, k) && CoversAgents(r.schedule, w.status.source, w.status.target, LocalOf(w))
    requires Tended(site, w, r).status.target in site.servers && Favourable(site, Tended(site, w, r), r.env)
    ensures var v := AfterRound(site, w, r);
            && Leads(site, w, v) && v.run == Resting && v.status.phase == PIPELINE[k + 1]
                && (k < 8 ==> Sound(site, v, k + 1))
            && v.status.target == w.status.target && Entries(v.status.localOwners) == v.holders
            && (k == 8 ==>
                  v.holders == {w.status.target} && v.status.localOwners == [w.status.target] && v.owner == w.owner)
  {
    hide Leads, Favourable, RunOut, CanRunOut, ReconcilePlan.Plan, CoversAgents;
    var u := Tended(site, w, r);
    AgentsTend(site, w, r, k);
    assert u.status.target == w.status.target && u.status.source == w.status.source by {
      assert Core(u.status).target == u.status.target && Core(u.status).source == u.status.source;
    }
    RunAdvances(site, u, r.env, k);
    BeginLeads(site, u, r.env);
    RunsOut(site, StartRun(site, u, r.env));
    LeadsOn(site, u, StartRun(site, u, r.env), AfterRound(site, w, r));
    LeadsOn(site, w, u, AfterRound(site, w, r));
    var v := AfterRound(site, w, r);
    assert forall n :: n in v.status.localOwners ==> n in Entries(v.status.localOwners);
  }

  lemma BeginLeads(site: Site, w: World, env: Env)
    requires w.status.target in site.servers && Favourable(site, w, env)
    ensures Leads(site, w, StartRun(site, w, env))
  {
    hide Leads, ReconcilePlan.Plan;
    LeadsByOne(site, w, Begin(env));
  }

  lemma {:induction false} RoundsComplete(site: Site, w: World, rounds: seq<Round>, k: nat)
    requires Sound(site, w, k) && |rounds| == 9 - k && AllFavourable(site, w, rounds)
    ensures var v := AfterRounds(site, w, rounds);
            && Leads(site, w, v) && v.run == Resting && v.status.phase == Succeeded
            && v.status.target == w.status.target && v.status.localOwners == [w.status.target]
                && v.holders == {w.status.target}
            && v.owner == site.servers[w.status.target]
    decreases |rounds|
  {
    hide Leads, AfterRound, Tended, Favourable, CoversAgents;
    var v := AfterRound(site, w, rounds[0]);
    RoundAdvances(site, w, rounds[0], k);
    if k < 8 {
      RoundsComplete(site, v, rounds[1..], k + 1);
      LeadsOn(site, w, v, AfterRounds(site, w, rounds));
    } else {
      assert rounds[1..] == [];
    }
  }

  // From every world that a fresh resource can reach without agent crashes, restarts after an applied and unrecorded
  // call included: a transition on track succeeds after one favourable round per phase left. Then the target is the
  // one node that holds the address, that is reported, and that the provider routes to.
  lemma HandoffCompletes(site: Site, w0: World, ls: seq<Label>, rounds: seq<Round>, k: nat)
    requires Fresh(w0) && Valid(site, w0, ls) && NoAgentCrashes(ls)
    requires OnTrack(site, Exec(site, w0, ls), k) && |rounds| == 9 - k
             && AllFavourable(site, Exec(site, w0, ls), rounds)
    ensures var w := Exec(site, w0, ls);
            var v := AfterRounds(site, w, rounds);
            && Leads(site, w, v) && v.run == Resting && v.status.phase == Succeeded
            && v.status.target == w.status.target && v.status.localOwners == [w.status.target]
            && v.holders == {w.status.target} && v.owner == site.servers[w.status.target]
  {
    hide AfterRounds, AllFavourable, Leads, OnTrack;
    AlwaysReported(site, w0, ls);
    AlwaysTruthful(site, w0, ls);
    RoundsComplete(site, Exec(site, w0, ls), rounds, k);
  }

  // That covers the restart for which the fence makes its exception: the call took effect, its record was lost.
  lemma InterruptedCallIsOnTrack()
    ensures exists w :: Reachable(w) && OnTrack(SITE, w, 4) && w.status.observed != Some(w.owner)
  {
    hide Reachable;
    ReachCalled({"a"});
    Reach(Calling({"a"}, 2, Routed, [Read(2), CONFIRM]), Crash);
    var w := At(STAMPED, {"a"} + {"b"}, 2);
    assert Reachable(w) && OnTrack(SITE, w, 4);
  }

  // ---- a rollback that nothing prevents ----

  // The end of a run is reached with the provider at the target and another node as source. A Stabilizing run does
  // not get there: it judges its candidate instead.
  ghost predicate AtRecovery(site: Site, w: World) {
    && w.run == Resting && ValidSpec(site.spec) && ValidStatus(w.status) && w.status.transitionId != ""
    && !BeforeTraffic(w.status.phase) && w.status.phase != Stabilizing && w.status.phase != Succeeded
    && w.status.phase != Blocked && w.status.phase != Degraded
    && w.status.target in site.servers && w.status.target != "" && w.owner == site.servers[w.status.target]
    && w.status.target in w.status.localOwners
    && w.status.source in site.servers && w.status.source != "" && site.servers[w.status.source] != w.owner
  }

  // The probes fail, and the provider does and reports what it is asked to.
  ghost predicate RollbackFavoured(site: Site, w: World, env: Env)
    requires AtRecovery(site, w)
  {
    && Enabled(site, w, Begin(env)) && env.readsOk && !env.postRoute
    && env.ownersAfterObserve == w.status.localOwners && env.ownersAfterStamp == w.status.localOwners
    && Better(Candidates(env.nodes), w.status.target).None?
    && ServerOf(env.nodes, w.status.target) == Some(site.servers[w.status.target])
    && ServerOf(env.nodes, w.status.source) == Some(site.servers[w.status.source])
    && MutationAllowed(w.status.lastAttempted, Cooldown(site.spec), env.now) && env.routeApplied && env.routeOk
    && env.recoveryRead == Some(w.owner) && env.confirmRead == Some(site.servers[w.status.source])
  }

  lemma RecoveryIsReached(spec: Spec, st: Status, env: Env, server: int)
    requires !BeforeTraffic(st.phase) && st.target in st.localOwners && env.owner == server && !env.postRoute
    requires spec.recoveryPolicy == RecoveryPolicy.RollbackProvider
    ensures DecidePrepared(spec, st, env, server) == RollBack(spec, st, env)
  {
    hide ReconcilePlan.RollBack;
  }

  lemma PlanRollsBack(site: Site, w: World, env: Env)
    requires AtRecovery(site, w) && RollbackFavoured(site, w, env)
    requires site.spec.recoveryPolicy == RecoveryPolicy.RollbackProvider
    ensures PlansAfterNoting(w, Plan(site.spec, w.status, env), RollBack(site.spec, Noted(w), env))
  {
    hide NodeScoring.Better, NodeScoring.Candidates, NodeScoring.ServerOf, ReconcilePlan.RollBack,
         Policy.MutationAllowed, ReconcilePlan.DecidePrepared, ReconcilePlan.DecideRecovered,
         ReconcilePlan.DecideCandidate, System.Judged, System.Consistent;
    RecoveryIsReached(site.spec, Noted(w), env, w.owner);
    assert Observed(w.status, env) == Noted(w);
    assert Noted(w).(localOwners := w.status.localOwners) == Noted(w);
  }

  lemma RollbackEffects(spec: Spec, st: Status, env: Env, server: int, owner: int)
    requires st.source != "" && ServerOf(env.nodes, st.source) == Some(server) && st.observed == Some(owner)
    requires env.recoveryRead == Some(owner) && owner != server && env.routeApplied && env.routeOk
             && env.confirmRead == Some(server)
    requires MutationAllowed(st.lastAttempted, Cooldown(spec), env.now) && env.ownersAfterStamp == st.localOwners
    ensures var stamped := st.(lastAttempted := Some(env.now));
            RollBack(spec, st, env) ==
            [Read(owner), Patch(RollbackEligible, st, stamped), Route(Rollback, server, true), Read(server),
             Patch(RollbackSucceeded, st, stamped.(observed := Some(server), phase := Degraded))]
  {
    hide NodeScoring.ServerOf, Policy.MutationAllowed;
  }

  lemma RollbackRunsOut(w: World, c: Context, stage: Stage, server: int)
    requires w.run == Resting && c.env.ownersAfterStamp == w.status.localOwners
    ensures var stamped := w.status.(lastAttempted := Some(c.env.now));
            var undone := stamped.(observed := Some(server), phase := Degraded);
            var u := w.(run := Running(c, stage,
                      [Read(w.owner), Patch(RollbackEligible, w.status, stamped), Route(Rollback, server, true),
                       Read(server), Patch(RollbackSucceeded, w.status, undone)]));
            CanRunOut(u) && RunOut(u) == w.(owner := server, status := undone)
  {
    hide Api.MergePatch, RunOut, CanRunOut;
    var stamped := w.status.(lastAttempted := Some(c.env.now));
    var undone := stamped.(observed := Some(server), phase := Degraded);
    var look, stamp, call, query, record :=
      Read(w.owner), Patch(RollbackEligible, w.status, stamped), Route(Rollback, server, true), Read(server),
      Patch(RollbackSucceeded, w.status, undone);
    MergeCopy(w.status, w.status, stamped);
    MergeStamped(w.status, c.env.now, undone);
    assert [look, stamp, call, query, record][1..] == [stamp, call, query, record];
    assert [stamp, call, query, record][1..] == [call, query, record] && [call, query, record][1..] == [query, record];
    assert [query, record][1..] == [record] && [record][1..] == [];
    var u, open := w.(status := stamped, owner := server), if stage == Begun then Open else stage;
    RestingRunsOut(w.(owner := server, status := undone));
    RunsOutFrom(u.(run := Running(c, Routed, [record])), w.(owner := server, status := undone));
    RunsOutFrom(u.(run := Running(c, Routed, [query, record])), u.(run := Running(c, Routed, [record])));
    RunsOutFrom(w.(status := stamped, run := Running(c, Stamped, [call, query, record])),
                u.(run := Running(c, Routed, [query, record])));
    RunsOutFrom(w.(run := Running(c, open, [stamp, call, query, record])),
                w.(status := stamped, run := Running(c, Stamped, [call, query, record])));
    RunsOutFrom(w.(run := Running(c, stage, [look, stamp, call, query, record])),
                w.(run := Running(c, open, [stamp, call, query, record])));
  }

  // The difference from the copy before the stamp, applied after it.
  lemma MergeStamped(st: Status, now: int, updated: Status)
    requires updated == st.(lastAttempted := Some(now), observed := updated.observed, phase := updated.phase)
    ensures MergePatch(st.(lastAttempted := Some(now)), st, updated) == updated
  {
  }

  // A failed traffic check under the rollback policy: if the cooldown is over and the provider cooperates, one run
  // takes the address back to the source and leaves the transition Degraded and its record true.
  lemma RollbackCompletes(site: Site, w: World, env: Env)
    requires AtRecovery(site, w) && RollbackFavoured(site, w, env)
    requires site.spec.recoveryPolicy == RecoveryPolicy.RollbackProvider
    ensures var v := RunOut(StartRun(site, w, env));
            && Leads(site, w, v) && v.run == Resting && v.status.phase == Degraded
            && v.owner == site.servers[w.status.source] && v.status.observed == Some(v.owner)
            && SameRoles(w.status, v.status) && v.holders == w.holders && v.status.localOwners == w.status.localOwners
  {
    hide ReconcilePlan.Plan, ReconcilePlan.RollBack, NodeScoring.Better, NodeScoring.ServerOf, RunOut, CanRunOut,
         Leads, System.Judged, System.Consistent;
    var server, c := site.servers[w.status.source], Context(site.spec, w.status, env);
    var rest := RollBack(site.spec, Noted(w), env);
    PlanRollsBack(site, w, env);
    RollbackEffects(site.spec, Noted(w), env, server, w.owner);
    RollbackRunsOut(w.(status := Noted(w)), c, Underway(w, c, rest).run.stage, server);
    NotesFirst(site, w, env, rest);
    LeadsByOne(site, w, Begin(env));
    RunsOut(site, StartRun(site, w, env));
    LeadsOn(site, w, StartRun(site, w, env), RunOut(StartRun(site, w, env)));
  }
}
