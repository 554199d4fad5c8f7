/**
 Hysteresis over whole runs: a retarget needs a better node to be seen by more than failureThreshold runs
 since the failure counter was last reset, and a candidate timer set since then that has run its window.
*/
module Hysteresis {
  import opened Prelude
  import opened Api
  import opened NodeScoring
  import opened Policy
  import opened ReconcilePlan
  import opened EffectLaw
  import opened System
  import opened Consequences
  import opened OwnerRetention

  // Since the counter was last reset: how many runs saw a better node, and when the timer was set.
  datatype Watch = Watch(seen: nat, setAt: seq<int>)

  // The run gets as far as comparing nodes, and another node is better.
  predicate Sees(c: Context) { Entered(c) && SawBetter(c) }

  function Watched(site: Site, m: Watch, w: World, l: Label): Watch {
    match l
    case Begin(env) => if Sees(Context(site.spec, w.status, env)) then m.(seen := m.seen + 1) else m
    case Perform =>
      if w.run.Running? && w.run.rest != [] && w.run.rest[0].Patch? then
        WatchedPatch(m, w.run.rest[0].reason, w.run.c.env.now)
      else m
    case _ => m
  }

  function WatchedPatch(m: Watch, reason: Reason, now: int): Watch {
    if reason == CandidateSelected then m.(setAt := m.setAt + [now])
    else if reason == WindowElapsed || reason == CandidateRecovered then Watch(0, [])
    else m
  }

  function WatchOf(site: Site, w: World, ls: seq<Label>): Watch
    decreases |ls|
  {
    if ls == [] then Watch(0, [])
    else
      var before := ls[..|ls| - 1];
      Watched(site, WatchOf(site, w, before), Exec(site, w, before), ls[|ls| - 1])
  }

  predicate Counted(spec: Spec, st: Status, m: Watch) {
    && 0 <= st.failureCount < FailureThreshold(spec) && st.failureCount <= m.seen
    && (st.phase == Selecting || st.transitionId == "" ==> st.candidateSince.None?)
    && (st.phase == Stabilizing ==> st.candidateSince.Some?)
    && (st.candidateSince.Some? ==> m.seen >= FailureThreshold(spec) && st.candidateSince.value in m.setAt)
  }

  // A run under way that saw a better node has already been counted.
  predicate Ahead(spec: Spec, w: World, m: Watch) {
    w.run.Running? && Sees(w.run.c) ==>
      && m.seen > w.status.failureCount
      && (w.status.candidateSince.Some? ==> m.seen > FailureThreshold(spec))
  }

  predicate Damped(spec: Spec, w: World, m: Watch) { Counted(spec, w.status, m) && Ahead(spec, w, m) }

  lemma CountedPatch(c: Context, a: Status, reason: Reason, b: Status, m: Watch)
    requires Counted(c.spec, a, m) && CandidateStep(c, a, reason, b)
    requires if reason == TransitionStarted then a.transitionId == "" else b.transitionId == a.transitionId
    requires Sees(c) ==> m.seen > a.failureCount && (a.candidateSince.Some? ==> m.seen > FailureThreshold(c.spec))
    ensures Counted(c.spec, b, WatchedPatch(m, reason, c.env.now))
  {
    hide EffectLaw.Entered, EffectLaw.SawBetter, NodeScoring.JustifiedMove;
    var n := WatchedPatch(m, reason, c.env.now);
    if reason == CandidateSelected { assert c.env.now in n.setAt; }
  }

  // Only patches that end their run touch the counter or set the timer.
  lemma AheadPatch(c: Context, a: Status, reason: Reason, b: Status)
    requires CandidateStep(c, a, reason, b)
    requires reason != FailureSeen && reason != CandidateSelected && reason != CandidateRecovered
             && reason != WindowElapsed
    ensures b.failureCount == a.failureCount && (b.candidateSince.Some? ==> b.candidateSince == a.candidateSince)
  {
  }

  lemma DampedEffect(site: Site, w: World, m: Watch)
    requires Damped(site.spec, w, m) && LawfulRun(site, w) && w.run.Running?
    ensures Damped(site.spec, Performed(w, w.run.rest[0]), Watched(site, m, w, Perform))
  {
    hide EffectLaw.Chain, EffectLaw.After, Counted, CandidateStep, Sees, PhaseStep, RolesStep, StampStep,
         ObservedStep, CleanupStep, EffectLaw.LawfulForward, EffectLaw.LawfulRollback;
    var c, e, v := w.run.c, w.run.rest[0], Performed(w, w.run.rest[0]);
    assert w.run.c.spec == site.spec && w.run.rest != [];
    PerformLaw(site, w);
    if e.Patch? {
      CountedCore(c.spec, w.status, m);
      CountedPatch(c, Core(w.status), e.reason, Core(v.status), m);
      CountedCore(c.spec, v.status, WatchedPatch(m, e.reason, c.env.now));
      if v.run.Running? { AheadPatch(c, Core(w.status), e.reason, Core(v.status)); }
    }
  }

  lemma CountedCore(spec: Spec, st: Status, m: Watch)
    ensures Counted(spec, st, m) <==> Counted(spec, Core(st), m)
  {
  }

  lemma DampedStep(site: Site, w: World, m: Watch, l: Label)
    requires Damped(site.spec, w, m) && LawfulRun(site, w) && Enabled(site, w, l)
    ensures Damped(site.spec, Next(site, w, l), Watched(site, m, w, l))
  {
    hide EffectLaw.Chain, ReconcilePlan.Plan, EffectLaw.Entered, EffectLaw.SawBetter;
    if l.Perform? { DampedEffect(site, w, m); }
    if l.Agent? { CountedCore(site.spec, w.status, m); CountedCore(site.spec, Next(site, w, l).status, m); }
  }

  lemma {:induction false} AlwaysDamped(site: Site, w0: World, ls: seq<Label>)
    requires Fresh(w0) && Valid(site, w0, ls)
    ensures Damped(site.spec, Exec(site, w0, ls), WatchOf(site, w0, ls))
    decreases |ls|
  {
    if ls != [] {
      var before := ls[..|ls| - 1];
      AlwaysDamped(site, w0, before);
      RunsAreLawful(site, w0, before);
      DampedStep(site, Exec(site, w0, before), WatchOf(site, w0, before), ls[|ls| - 1]);
    }
  }

  // Every retarget, in every run of the system: seen often enough, waited long enough, and justified by
  // the node healths of the run that performs it.
  lemma RetargetIsDamped(site: Site, w0: World, ls: seq<Label>)
    requires Fresh(w0) && Valid(site, w0, ls) && AtRetarget(Exec(site, w0, ls))
    ensures var w, m := Exec(site, w0, ls), WatchOf(site, w0, ls);
            var v := Performed(w, w.run.rest[0]);
            && m.seen >= FailureThreshold(site.spec) + 1
            && w.status.candidateSince.Some? && w.status.candidateSince.value in m.setAt
            && w.run.c.env.now >= w.status.candidateSince.value + HandoffWindow(site.spec)
            && JustifiedMove(w.run.c.env.nodes, w.status.target, v.status.target)
  {
    hide EffectLaw.Chain, Api.MergePatch;
    var w := Exec(site, w0, ls);
    AlwaysDamped(site, w0, ls);
    RunsAreLawful(site, w0, ls);
    PerformLaw(site, w);
    hide Consequences.RolesStep, Consequences.StampStep, Consequences.ObservedStep, Consequences.CleanupStep,
         EffectLaw.Entered, EffectLaw.Known, EffectLaw.SawBetter;
  }
}
