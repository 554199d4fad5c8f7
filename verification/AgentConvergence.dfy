/**
 Agent convergence: while source and target stay put, any schedule in which every agent runs, however often
 and in whatever order, ends with exactly source and target holding the address; and the reports agree with
 that if and only if no report was stale to begin with.
*/
module AgentConvergence {
  import opened Api
  import opened ReconcilePlan
  import opened EffectLaw
  import opened NodeInterface
  import opened System
  import opened Consequences
  import opened RouteGate

  // The agents run to completion one after another.
  function RunAll(schedule: seq<string>, source: string, target: string, l: Local): Local
    decreases |schedule|
  {
    if schedule == [] then l
    else
      AgentRun(schedule[|schedule| - 1], source, target,
               RunAll(schedule[..|schedule| - 1], source, target, l), false)
  }

  function Roles(source: string, target: string): set<string> { {source, target} - {""} }

  function Entries(nodes: seq<string>): set<string> { set n | n in nodes }

  predicate Distinct(nodes: seq<string>) {
    forall i, j :: 0 <= i < j < |nodes| ==> nodes[i] != nodes[j]
  }

  // Every reported node that should not hold the address still does, so its agent will notice.
  predicate NoneStale(l: Local, source: string, target: string) {
    forall n :: n in l.owners && n !in Roles(source, target) ==> n in l.holders
  }

  // Closed form, node by node: it does not matter in which order or how often the agents ran.
  lemma {:induction false} ScheduleOutcome(schedule: seq<string>, source: string, target: string, l: Local, n: string)
    requires "" !in schedule
    ensures var r := RunAll(schedule, source, target, l);
            && (n in r.holders <==> if n in schedule then n in Roles(source, target) else n in l.holders)
            && (n in r.owners <==>
                if n in schedule then n in Roles(source, target) || (n in l.owners && n !in l.holders)
                else n in l.owners)
    decreases |schedule|
  {
    if schedule != [] {
      var before, last := schedule[..|schedule| - 1], schedule[|schedule| - 1];
      assert schedule == before + [last];
      ScheduleOutcome(before, source, target, l, n);
      var m := RunAll(before, source, target, l);
      AgentTouchesOnlyItself(last, source, target, m, false);
      WithoutMembers(m.owners, last);
    }
  }

  // Schedules over the same agents agree.
  lemma OrderDoesNotMatter(a: seq<string>, b: seq<string>, source: string, target: string, l: Local)
    requires "" !in a && "" !in b && Entries(a) == Entries(b)
    ensures var x, y := RunAll(a, source, target, l), RunAll(b, source, target, l);
            x.holders == y.holders && Entries(x.owners) == Entries(y.owners)
  {
    var x, y := RunAll(a, source, target, l), RunAll(b, source, target, l);
    forall n ensures (n in x.holders <==> n in y.holders) && (n in x.owners <==> n in y.owners) {
      assert n in a <==> n in b by { assert n in Entries(a) <==> n in Entries(b); }
      ScheduleOutcome(a, source, target, l, n);
      ScheduleOutcome(b, source, target, l, n);
    }
  }

  lemma {:induction false} WithoutKeepsDistinct(nodes: seq<string>, name: string)
    requires Distinct(nodes)
    ensures Distinct(Without(nodes, name))
  {
    if nodes != [] {
      var rest := nodes[1..];
      WithoutKeepsDistinct(rest, name);
      WithoutMembers(rest, name);
      assert nodes[0] !in rest;
      assert nodes[0] !in Without(rest, name);
    }
  }

  lemma AgentKeepsDistinct(name: string, source: string, target: string, l: Local, crash: bool)
    requires Distinct(l.owners)
    ensures Distinct(AgentRun(name, source, target, l, crash).owners)
  {
    WithoutKeepsDistinct(l.owners, name);
  }

  lemma {:induction false} ScheduleKeepsDistinct(schedule: seq<string>, source: string, target: string, l: Local)
    requires Distinct(l.owners)
    ensures Distinct(RunAll(schedule, source, target, l).owners)
    decreases |schedule|
  {
    if schedule != [] {
      var before := schedule[..|schedule| - 1];
      ScheduleKeepsDistinct(before, source, target, l);
      AgentKeepsDistinct(schedule[|schedule| - 1], source, target, RunAll(before, source, target, l), false);
    }
  }

  // The agents of all nodes that hold or should hold the address run at least once.
  predicate CoversAgents(schedule: seq<string>, source: string, target: string, l: Local) {
    "" !in schedule && l.holders + Roles(source, target) <= Entries(schedule)
  }

  lemma AgentsConverge(schedule: seq<string>, source: string, target: string, l: Local)
    requires CoversAgents(schedule, source, target, l)
    ensures RunAll(schedule, source, target, l).holders == Roles(source, target)
    ensures Entries(RunAll(schedule, source, target, l).owners) == Roles(source, target) <==>
            NoneStale(l, source, target)
  {
    var r := RunAll(schedule, source, target, l);
    forall n
      ensures n in r.holders <==> n in Roles(source, target)
      ensures n in r.owners <==> n in Roles(source, target) || (n in l.owners && n !in l.holders)
    {
      assert n in l.holders || n in Roles(source, target) ==> n in Entries(schedule);
      ScheduleOutcome(schedule, source, target, l, n);
    }
    if !NoneStale(l, source, target) {
      var n :| n in l.owners && n !in Roles(source, target) && n !in l.holders;
      assert n in Entries(r.owners);
    }
  }

  // A stale report is never withdrawn by any agent run.
  lemma StaleIsForEver(schedule: seq<string>, source: string, target: string, l: Local, n: string)
    requires "" !in schedule && n in l.owners && n !in l.holders && n !in Roles(source, target)
    ensures n in RunAll(schedule, source, target, l).owners
  {
    ScheduleOutcome(schedule, source, target, l, n);
  }

  // Running an agent again changes nothing; after a crash it makes up for what was lost, except exactly when
  // the crash came between a removal and its report.
  lemma RerunRepairsCrashIff(name: string, source: string, target: string, l: Local)
    ensures var done := AgentRun(name, source, target, l, false);
            && AgentRun(name, source, target, done, false) == done
            && (AgentRun(name, source, target, AgentRun(name, source, target, l, true), false) == done <==>
                name == source || name == target || name !in l.holders || name !in l.owners)
  {
    WithoutMembers(l.owners, name);
    if name !in l.owners { NothingToRemove(l.owners, name); }
    assert (l.holders - {name}) - {name} == l.holders - {name} && l.holders + {name} + {name} == l.holders + {name};
  }

  lemma SingleEntry(nodes: seq<string>, name: string)
    requires Distinct(nodes) && Entries(nodes) == {name}
    ensures nodes == [name]
  {
    assert |nodes| > 1 ==> nodes[0] != nodes[1];
    assert nodes != [] by { assert name in Entries(nodes); }
    forall i | 0 <= i < |nodes| ensures nodes[i] == name { assert nodes[i] in Entries(nodes); }
  }

  // What cleanup waits for.
  predicate OneOwner(st: Status) { |st.localOwners| == 1 && st.target in st.localOwners }

  // After a commit, the check of cleanup passes exactly when no report was stale.
  lemma CommittedAgentsConvergeIff(schedule: seq<string>, target: string, l: Local)
    requires CoversAgents(schedule, target, target, l) && Distinct(l.owners) && target != ""
    ensures RunAll(schedule, target, target, l).owners == [target] <==> NoneStale(l, target, target)
  {
    AgentsConverge(schedule, target, target, l);
    ScheduleKeepsDistinct(schedule, target, target, l);
    var owners := RunAll(schedule, target, target, l).owners;
    assert Roles(target, target) == {target};
    if Entries(owners) == {target} { SingleEntry(owners, target); }
  }

  // ---- in every reachable world ----

  ghost predicate Reported(w: World) { Distinct(w.status.localOwners) }

  lemma ReportedStep(site: Site, w: World, l: Label)
    requires Reported(w) && LawfulRun(site, w) && Enabled(site, w, l)
    ensures Reported(Next(site, w, l))
  {
    hide EffectLaw.Chain, ReconcilePlan.Plan, EffectLaw.After, EffectLaw.LawfulForward, EffectLaw.LawfulRollback,
         EffectLaw.Known;
    if l.Perform? {
      OwnersStepLaw(site, w);
      PerformLaw(site, w);
      hide Consequences.Step, Consequences.RolesStep;
    } else if l.Agent? {
      AgentKeepsDistinct(l.node, w.status.source, w.status.target, Local(w.status.localOwners, w.holders), l.crash);
    }
  }

  lemma {:induction false} AlwaysReported(site: Site, w0: World, ls: seq<Label>)
    requires Fresh(w0) && Valid(site, w0, ls)
    ensures Reported(Exec(site, w0, ls))
    decreases |ls|
  {
    if ls != [] {
      var before := ls[..|ls| - 1];
      AlwaysReported(site, w0, before);
      RunsAreLawful(site, w0, before);
      ReportedStep(site, Exec(site, w0, before), ls[|ls| - 1]);
    }
  }

  // Every report is true.
  ghost predicate Truthful(w: World) {
    forall n :: n in w.status.localOwners ==> n in w.holders
  }

  lemma TruthfulEffect(site: Site, w: World)
    requires Truthful(w) && LawfulRun(site, w) && w.run.Running? && CanPerform(w, w.run.c, w.run.rest[0])
    ensures Truthful(Performed(w, w.run.rest[0]))
  {
    hide EffectLaw.Chain, EffectLaw.After, EffectLaw.Known;
    OwnersStepLaw(site, w);
    hide Consequences.RolesStep, Performed;
  }

  lemma TruthfulAgent(w: World, node: string)
    requires Truthful(w)
    ensures Truthful(AgentRan(w, node, false))
  {
    AgentTouchesOnlyItself(node, w.status.source, w.status.target, Local(w.status.localOwners, w.holders), false);
    WithoutMembers(w.status.localOwners, node);
  }

  lemma TruthfulStep(site: Site, w: World, l: Label)
    requires Truthful(w) && LawfulRun(site, w) && Enabled(site, w, l) && !(l.Agent? && l.crash)
    ensures Truthful(Next(site, w, l))
  {
    hide EffectLaw.Chain, ReconcilePlan.Plan, Performed;
    match l
    case Begin(env) => assert StartRun(site, w, env).status == w.status;
    case Perform => TruthfulEffect(site, w);
    case Agent(node, crash) => TruthfulAgent(w, node);
    case _ =>
  }

  // Without agent crashes every report is true, in every reachable world.
  lemma {:induction false} AlwaysTruthful(site: Site, w0: World, ls: seq<Label>)
    requires Fresh(w0) && Valid(site, w0, ls) && NoAgentCrashes(ls)
    ensures Truthful(Exec(site, w0, ls))
    decreases |ls|
  {
    if ls != [] {
      var before, last := ls[..|ls| - 1], ls[|ls| - 1];
      assert NoAgentCrashes(before) && !(last.Agent? && last.crash) by { assert last in ls; }
      AlwaysTruthful(site, w0, before);
      RunsAreLawful(site, w0, before);
      TruthfulStep(site, Exec(site, w0, before), last);
    }
  }

  function AgentLabels(schedule: seq<string>): seq<Label> {
    seq(|schedule|, i requires 0 <= i < |schedule| => Agent(schedule[i], false))
  }

  function LocalOf(w: World): Local { Local(w.status.localOwners, w.holders) }

  lemma {:induction false} ExecAgents(site: Site, w: World, schedule: seq<string>)
    requires "" !in schedule
    ensures var v := Exec(site, w, AgentLabels(schedule));
            && LocalOf(v) == RunAll(schedule, w.status.source, w.status.target, LocalOf(w))
            && Core(v.status) == Core(w.status) && v.owner == w.owner && v.run == w.run && v.now == w.now
            && Valid(site, w, AgentLabels(schedule))
    decreases |schedule|
  {
    if schedule != [] {
      var before, labels := schedule[..|schedule| - 1], AgentLabels(schedule);
      assert labels[..|labels| - 1] == AgentLabels(before);
      ExecAgents(site, w, before);
      var u := Exec(site, w, AgentLabels(before));
      assert Core(u.status) == Core(w.status) ==> SameRoles(u.status, w.status);
    }
  }

  // In any world reached from a fresh one, however it got there: once all agents have run, exactly source and
  // target hold the address; and after a commit the check of cleanup passes exactly when no report was stale.
  lemma CleanupConvergesIff(site: Site, w0: World, ls: seq<Label>, schedule: seq<string>)
    requires Fresh(w0) && Valid(site, w0, ls)
    requires var w := Exec(site, w0, ls); CoversAgents(schedule, w.status.source, w.status.target, LocalOf(w))
    ensures var w := Exec(site, w0, ls);
            var v := Exec(site, w, AgentLabels(schedule));
            && v.holders == Roles(w.status.source, w.status.target)
            && (Entries(v.status.localOwners) == v.holders <==> NoneStale(LocalOf(w), w.status.source, w.status.target))
            && (w.status.source == w.status.target != "" ==>
                  (OneOwner(v.status) <==> NoneStale(LocalOf(w), w.status.source, w.status.target)))
            && (NoAgentCrashes(ls) ==>
                  NoneStale(LocalOf(w), w.status.source, w.status.target))
  {
    hide RunAll, Exec;
    var w := Exec(site, w0, ls);
    var v := Exec(site, w, AgentLabels(schedule));
    var source, target := w.status.source, w.status.target;
    ExecAgents(site, w, schedule);
    AlwaysReported(site, w0, ls);
    AgentsConverge(schedule, source, target, LocalOf(w));
    assert SameRoles(v.status, w.status) by { assert Core(v.status) == Core(w.status); }
    if source == target && target != "" {
      CommittedAgentsConvergeIff(schedule, target, LocalOf(w));
      OneOwnerIff(v.status);
    }
    if NoAgentCrashes(ls) {
      AlwaysTruthful(site, w0, ls);
    }
  }

  lemma OneOwnerIff(st: Status)
    ensures OneOwner(st) <==> st.localOwners == [st.target]
  {
  }
}
