/**
 The whole system as a labelled transition system: one controller whose runs perform their effects one
 at a time, the node agents, the provider and the clock. Between any two effects of a run the agents,
 the clock and (where allowed) outside parties may act, and a run may stop at any point.
*/
module System {
  import opened Api
  import opened NodeScoring
  import opened ReconcilePlan
  import opened EffectLaw
  import opened PlanLawful
  import opened NodeInterface
  import ProbeChecks

  // Fixed for a whole run of the system; `servers` are the server-id annotations.
  datatype Site = Site(spec: Spec, servers: map<string, int>)

  datatype Progress = Resting | Running(c: Context, stage: Stage, rest: seq<Effect>)

  datatype World = World(
    status: Status,          // what the API server stores
    holders: set<string>,    // nodes whose interface holds the address
    owner: int,              // server the provider routes the address to
    now: int,
    run: Progress)

  datatype Label =
    | Begin(env: Env)                        // a reconcile run reads its inputs
    | Perform                                // and performs its next effect
    | Crash                                  // or ends early
    | Agent(node: string, crash: bool)
    | Tick(elapsed: nat)
    | Move(server: int)                      // an out-of-band change at the provider

  ghost predicate Injective(servers: map<string, int>) {
    forall m, n :: m in servers && n in servers && servers[m] == servers[n] ==> m == n
  }

  // Annotations may come and go, but never contradict the site.
  ghost predicate Consistent(site: Site, nodes: seq<Node>) {
    && WellFormedNodes(nodes)
    && forall n :: n in nodes && n.annotation.Id? ==>
         n.name in site.servers && site.servers[n.name] == n.annotation.server
  }

  // The gates answer as their probes say.
  ghost predicate Judged(spec: Spec, env: Env) {
    && (env.preRoute <==>
        ProbeChecks.Passes(spec.probeComposition, spec.probeQuorum, env.preRouteProbes, ProbeChecks.PreRoute))
    && (env.postRoute <==>
        ProbeChecks.Passes(spec.probeComposition, spec.probeQuorum, env.postRouteProbes, ProbeChecks.PostRoute))
  }

  // Reads return the provider's owner; a patch response carries the stored LocalOwners. The last patch of a
  // rollback is a difference across the stamp's response, so it carries the resource version of that response
  // and is refused if anything was written since.
  predicate CanPerform(w: World, c: Context, e: Effect) {
    match e
    case Read(server) => w.owner == server
    case Route(_, _, _) => true
    case Patch(reason, _, _) =>
      && (reason == OwnerObserved ==> w.status.localOwners == c.env.ownersAfterObserve)
      && (reason == CommitsDegraded ==> w.status.localOwners == c.env.ownersAfterDegrade)
      && (IsStamp(e) || EndsCall(reason) ==> w.status.localOwners == c.env.ownersAfterStamp)
  }

  ghost predicate Enabled(site: Site, w: World, l: Label) {
    match l
    case Begin(env) =>
      && w.run.Resting? && env.now == w.now && env.owner == w.owner && Consistent(site, env.nodes) && env.newId != ""
      && Judged(site.spec, env)
    case Perform => w.run.Running? && w.run.rest != [] && CanPerform(w, w.run.c, w.run.rest[0])
    case Crash => w.run.Running?
    case Agent(node, _) => node != ""
    case Tick(_) => true
    case Move(_) => true
  }

  function Remaining(c: Context, stage: Stage, rest: seq<Effect>): Progress {
    if rest == [] then Resting else Running(c, stage, rest)
  }

  function Performed(w: World, e: Effect): World
    requires w.run.Running? && w.run.rest != []
  {
    w.(status := After(w.status, e),
       owner := if e.Route? && e.applied then e.server else w.owner,
       run := Remaining(w.run.c, NextStage(w.run.stage, e), w.run.rest[1..]))
  }

  function AgentRan(w: World, node: string, crash: bool): World {
    var l := AgentRun(node, w.status.source, w.status.target, Local(w.status.localOwners, w.holders), crash);
    w.(status := w.status.(localOwners := l.owners), holders := l.holders)
  }

  function StartRun(site: Site, w: World, env: Env): World {
    w.(run := Remaining(Context(site.spec, w.status, env), Begun, Plan(site.spec, w.status, env)))
  }

  function Next(site: Site, w: World, l: Label): World {
    match l
    case Begin(env) => StartRun(site, w, env)
    case Perform => if w.run.Running? && w.run.rest != [] then Performed(w, w.run.rest[0]) else w
    case Crash => w.(run := Resting)
    case Agent(node, crash) => AgentRan(w, node, crash)
    case Tick(elapsed) => w.(now := w.now + elapsed)
    case Move(server) => w.(owner := server)
  }

  function Exec(site: Site, w: World, ls: seq<Label>): World
    decreases |ls|
  {
    if ls == [] then w else Next(site, Exec(site, w, ls[..|ls| - 1]), ls[|ls| - 1])
  }

  ghost predicate Valid(site: Site, w: World, ls: seq<Label>)
    decreases |ls|
  {
    ls == [] ||
    (Valid(site, w, ls[..|ls| - 1]) && Enabled(site, Exec(site, w, ls[..|ls| - 1]), ls[|ls| - 1]))
  }

  // A new resource: no status yet, no run in progress; interfaces and provider are arbitrary.
  predicate Fresh(w: World) { w.status == FRESH && w.run == Resting }

  // The provider changes only through the controller's calls.
  ghost predicate NoMoves(ls: seq<Label>) { forall l :: l in ls ==> !l.Move? }

  ghost predicate NoAgentCrashes(ls: seq<Label>) { forall l :: l in ls ==> !(l.Agent? && l.crash) }

  // ---- a run in progress always obeys the law of effects ----

  ghost predicate LawfulRun(site: Site, w: World) {
    w.run.Running? ==>
      && w.run.rest != [] && w.run.c.spec == site.spec
      && Consistent(site, w.run.c.env.nodes) && w.run.c.env.newId != "" && w.run.c.env.now <= w.now
      && Chain(w.run.c, w.run.stage, w.status, w.run.rest)
  }

  lemma BeginIsLawful(site: Site, w: World, env: Env)
    requires Enabled(site, w, Begin(env))
    ensures LawfulRun(site, StartRun(site, w, env))
  {
    hide EffectLaw.Chain, ReconcilePlan.Plan;
    PlanIsLawful(Context(site.spec, w.status, env));
  }

  lemma LawfulStep(site: Site, w: World, l: Label)
    requires LawfulRun(site, w) && Enabled(site, w, l)
    ensures LawfulRun(site, Next(site, w, l))
  {
    match l
    case Begin(env) => BeginIsLawful(site, w, env);
    case Agent(node, crash) =>
      if w.run.Running? {
        ChainIgnoresOwners(w.run.c, w.run.stage, w.status, AgentRan(w, node, crash).status, w.run.rest);
      }
    case _ =>
  }

  lemma {:induction false} RunsAreLawful(site: Site, w: World, ls: seq<Label>)
    requires LawfulRun(site, w) && Valid(site, w, ls)
    ensures LawfulRun(site, Exec(site, w, ls))
    decreases |ls|
  {
    if ls != [] {
      RunsAreLawful(site, w, ls[..|ls| - 1]);
      LawfulStep(site, Exec(site, w, ls[..|ls| - 1]), ls[|ls| - 1]);
    }
  }

  lemma {:induction false} RunsAreJudged(site: Site, w: World, ls: seq<Label>)
    requires w.run == Resting && Valid(site, w, ls)
    ensures var v := Exec(site, w, ls); v.run.Running? ==> Judged(site.spec, v.run.c.env)
    decreases |ls|
  {
    hide Judged, ReconcilePlan.Plan, EffectLaw.After;
    if ls != [] { RunsAreJudged(site, w, ls[..|ls| - 1]); }
  }

  lemma LawfulRunGoesOn(site: Site, w: World)
    requires LawfulRun(site, w) && w.run.Running?
    ensures w.run.rest != []
  {
    hide EffectLaw.Chain;
  }

  // The law for the effect a lawful run performs next.
  lemma NextEffectIsLawful(site: Site, w: World)
    requires LawfulRun(site, w) && w.run.Running?
    ensures Lawful(w.run.c, w.run.stage, w.status, w.run.rest[0])
    ensures Closing(w.run.rest[0]) ==> Performed(w, w.run.rest[0]).run == Resting
  {
  }
}
