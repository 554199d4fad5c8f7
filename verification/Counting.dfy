/**
 What is counted adds up. A run of the system may contain any number of reconcile runs; as long as they are alike,
 their number alone decides where the counters stand, whatever agents, clock and provider do between their effects.
*/
module Counting {
  import opened Prelude
  import opened Api
  import opened NodeScoring
  import opened Policy
  import opened ReconcilePlan
  import opened EffectLaw
  import opened System
  import opened Consequences
  import opened Completion
  import opened Outcome
  import Hysteresis
  import opened CleanupBudget
  import Backoff

  // ---- where the run in progress leads ----

  // The status, but for LocalOwners, once the run in progress has performed its remaining effects.
  function Bound(w: World): Status { Core(RunOut(w).status) }

  lemma AfterIgnoresOwners(a: Status, b: Status, e: Effect)
    requires Core(a) == Core(b)
    ensures Core(After(a, e)) == Core(After(b, e))
  {
    assert b == a.(localOwners := b.localOwners);
  }

  lemma {:induction false} BoundIgnoresOwners(w: World, v: World)
    requires Core(w.status) == Core(v.status) && w.run == v.run
    ensures Bound(w) == Bound(v)
    decreases if w.run.Running? then |w.run.rest| else 0
  {
    hide EffectLaw.After;
    if w.run.Running? && w.run.rest != [] {
      AfterIgnoresOwners(w.status, v.status, w.run.rest[0]);
      BoundIgnoresOwners(Performed(w, w.run.rest[0]), Performed(v, w.run.rest[0]));
    }
  }

  lemma BoundStays(site: Site, w: World, l: Label)
    requires Enabled(site, w, l) && !l.Begin? && !l.Crash?
    ensures Bound(Next(site, w, l)) == Bound(w)
  {
    hide EffectLaw.After;
    if !l.Perform? { BoundIgnoresOwners(Next(site, w, l), w); }
  }

  // ---- runs that are alike ----

  // A run that sees a better node, one that sees none, and a due cleanup check that other reports than the target's
  // make fail.
  datatype Kind = Sighting | Recovery | FailedCheck

  ghost predicate IsRun(kind: Kind, site: Site, w: World, env: Env) {
    match kind
    case Sighting => Entering(site, w, env) && exists better :: Sees(w, env, better)
    case Recovery => Entering(site, w, env) && Better(Candidates(env.nodes), Seen(w, env).target).None?
    case FailedCheck => exists server :: FailsCheck(site, w, env, server)
  }

  ghost predicate FailsCheck(site: Site, w: World, env: Env, server: int) {
    && Arriving(site, w, env, server) && Seen(w, env).localOwners != [Seen(w, env).target]
    && (env.postRoute || site.spec.recoveryPolicy == RecoveryPolicy.CommitDegraded)
    && (Seen(w, env).nextCleanup.None? || Seen(w, env).nextCleanup.value <= w.now)
  }

  // Every reconcile run is of that kind, and none is cut short.
  ghost predicate AllRuns(kind: Kind, site: Site, w: World, ls: seq<Label>)
    decreases |ls|
  {
    ls == [] ||
    (var before, last := ls[..|ls| - 1], ls[|ls| - 1];
     && AllRuns(kind, site, w, before) && !last.Crash?
     && (last.Begin? ==> IsRun(kind, site, Exec(site, w, before), last.env)))
  }

  function Runs(ls: seq<Label>): nat
    decreases |ls|
  {
    if ls == [] then 0 else Runs(ls[..|ls| - 1]) + if ls[|ls| - 1].Begin? then 1 else 0
  }

  lemma BeginIsBound(site: Site, w: World, env: Env, v: World)
    requires Ends(site, w, env, v)
    ensures Bound(StartRun(site, w, env)) == Core(v.status)
  {
  }

  lemma AtRest(w: World)
    requires w.run == Resting
    ensures Bound(w) == Core(w.status)
  {
  }

  lemma BeginsAtRest(site: Site, w: World, env: Env)
    requires Enabled(site, w, Begin(env))
    ensures Bound(w) == Core(w.status)
  {
    AtRest(w);
  }

  // ---- sightings ----

  // n sightings after the status st, in Selecting with no timer set.
  predicate Sighted(spec: Spec, st: Status, n: nat, b: Status) {
    var needed := FailureThreshold(spec) - st.failureCount;
    if n < needed then b.phase == Selecting && b.candidateSince.None? && b.failureCount == st.failureCount + n
    else b.phase == Stabilizing && b.candidateSince.Some? && b.failureCount == FailureThreshold(spec) - 1
  }

  lemma SightingCounts(site: Site, w: World, env: Env, better: Node)
    requires Entering(site, w, env) && Sees(w, env, better) && w.status.phase == Selecting
    requires w.status.failureCount + 1 < FailureThreshold(site.spec)
    ensures var b := Bound(StartRun(site, w, env));
            && b.phase == Selecting && b.candidateSince == w.status.candidateSince
            && b.failureCount == w.status.failureCount + 1
  {
    var s := Seen(w, env);
    assert s.phase == Selecting && s.candidateSince == w.status.candidateSince;
    assert s.failureCount == w.status.failureCount;
    hide Ends, Bound, Entering, StartRun, Seen, Sees;
    SightingIsCounted(site, w, env, better);
    BeginIsBound(site, w, env, w.(status := s.(failureCount := s.failureCount + 1)));
  }

  lemma SightingSelects(site: Site, w: World, env: Env, better: Node)
    requires Entering(site, w, env) && Sees(w, env, better) && w.status.phase == Selecting
    requires w.status.failureCount + 1 >= FailureThreshold(site.spec) && w.status.candidateSince.None?
    ensures var b := Bound(StartRun(site, w, env));
            && b.phase == Stabilizing && b.candidateSince == Some(w.now) && b.failureCount == w.status.failureCount
  {
    var s := Seen(w, env);
    assert s.phase == Selecting && s.candidateSince == w.status.candidateSince && env.now == w.now;
    assert s.failureCount == w.status.failureCount;
    hide Ends, Bound, Entering, StartRun, Seen, Sees;
    SightingSetsTimer(site, w, env, better);
    BeginIsBound(site, w, env, w.(status := s.(candidateSince := Some(env.now), phase := Stabilizing)));
  }

  lemma SightingAdds(site: Site, w: World, env: Env, st: Status, n: nat)
    requires Enabled(site, w, Begin(env)) && IsRun(Sighting, site, w, env)
    requires Sighted(site.spec, st, n, Core(w.status)) && n < FailureThreshold(site.spec) - st.failureCount
    ensures Sighted(site.spec, st, n + 1, Bound(Next(site, w, Begin(env))))
  {
    assert Core(w.status).phase == Selecting && Core(w.status).candidateSince.None?;
    hide Bound, Entering, Enabled, StartRun, Seen, Sees;
    var better :| Sees(w, env, better);
    if w.status.failureCount + 1 < FailureThreshold(site.spec) {
      SightingCounts(site, w, env, better);
    } else {
      SightingSelects(site, w, env, better);
    }
  }

  // Each sighting is counted, and the one that reaches the threshold sets the timer.
  lemma {:induction false} SightingsAdd(site: Site, w: World, ls: seq<Label>)
    requires w.run == Resting && w.status.phase == Selecting && w.status.candidateSince.None?
    requires Valid(site, w, ls) && AllRuns(Sighting, site, w, ls)
    requires w.status.failureCount < FailureThreshold(site.spec)
    requires Runs(ls) <= FailureThreshold(site.spec) - w.status.failureCount
    ensures Sighted(site.spec, w.status, Runs(ls), Bound(Exec(site, w, ls)))
    decreases |ls|
  {
    if ls == [] {
      AtRest(w);
    } else {
      hide Next, Enabled, IsRun, Bound, Sighted;
      var before, last := ls[..|ls| - 1], ls[|ls| - 1];
      var u := Exec(site, w, before);
      SightingsAdd(site, w, before);
      if last.Begin? {
        BeginsAtRest(site, u, last.env);
        SightingAdds(site, u, last.env, w.status, Runs(before));
      } else {
        BoundStays(site, u, last);
      }
    }
  }

  // In every run of the system: a resource that looks for a candidate has selected one as soon as the runs that saw
  // a better node are as many as the threshold still asks for.
  lemma SightingsSelect(site: Site, w0: World, history: seq<Label>, ls: seq<Label>)
    requires Fresh(w0) && Valid(site, w0, history)
    requires var w := Exec(site, w0, history);
             && w.run == Resting && w.status.phase == Selecting && Valid(site, w, ls) && AllRuns(Sighting, site, w, ls)
             && Exec(site, w, ls).run == Resting
             && Runs(ls) <= FailureThreshold(site.spec) - w.status.failureCount
    ensures var w, v := Exec(site, w0, history), Exec(site, Exec(site, w0, history), ls);
            if Runs(ls) < FailureThreshold(site.spec) - w.status.failureCount then
              v.status.phase == Selecting && v.status.failureCount == w.status.failureCount + Runs(ls)
            else
              && v.status.phase == Stabilizing && v.status.candidateSince.Some?
              && v.status.failureCount == FailureThreshold(site.spec) - 1 >= 0
  {
    var w := Exec(site, w0, history);
    Hysteresis.AlwaysDamped(site, w0, history);
    hide Valid, Exec, AllRuns;
    SightingsAdd(site, w, ls);
    AtRest(Exec(site, w, ls));
  }

  // And then the next run that finds an acceptable candidate after the window begins the handoff to it.
  lemma FailoverBegins(site: Site, w0: World, history: seq<Label>, ls: seq<Label>, env: Env, better: Node)
    requires Fresh(w0) && Valid(site, w0, history)
    requires var w, v := Exec(site, w0, history), Exec(site, Exec(site, w0, history), ls);
             && w.run == Resting && w.status.phase == Selecting && Valid(site, w, ls) && AllRuns(Sighting, site, w, ls)
             && v.run == Resting && Runs(ls) == FailureThreshold(site.spec) - w.status.failureCount
             && Entering(site, v, env) && Sees(v, env, better) && Acceptable(better)
             && (v.status.candidateSince.Some? ==>
                   env.now >= v.status.candidateSince.value + HandoffWindow(site.spec))
    ensures var v := Exec(site, Exec(site, w0, history), ls);
            && Ends(site, v, env, v.(status := HandedOver(Seen(v, env), better.name)))
            && HandedOver(Seen(v, env), better.name).phase == PreparingTarget
  {
    SightingsSelect(site, w0, history, ls);
    var v := Exec(site, Exec(site, w0, history), ls);
    hide Valid, Exec, AllRuns, Ends, Sees, NodeScoring.Acceptable, Entering;
    SightingRetargets(site, v, env, better);
  }

  // ---- recoveries ----

  predicate Recovered(spec: Spec, st: Status, n: nat, b: Status) {
    var needed := RecoveryThreshold(spec) - st.recoveryCount;
    if n < needed then b.phase == Stabilizing && b.candidateSince.Some? && b.recoveryCount == st.recoveryCount + n
    else b.phase == Selecting && b.candidateSince.None? && b.recoveryCount == 0 && b.failureCount == 0
  }

  lemma RecoveryAdds(site: Site, w: World, env: Env, st: Status, n: nat)
    requires Enabled(site, w, Begin(env)) && IsRun(Recovery, site, w, env) && st.recoveryCount >= 0
    requires Recovered(site.spec, st, n, Core(w.status)) && n < RecoveryThreshold(site.spec) - st.recoveryCount
    ensures Recovered(site.spec, st, n + 1, Bound(Next(site, w, Begin(env))))
  {
    var s := Seen(w, env);
    assert s.phase == Stabilizing && s.candidateSince.Some? && s.recoveryCount == st.recoveryCount + n;
    hide Ends, Bound, Entering, Enabled, StartRun, Seen, NodeScoring.Better;
    RecoveryIsCounted(site, w, env);
    BeginIsBound(site, w, env,
        w.(status :=
             if s.recoveryCount + 1 < RecoveryThreshold(site.spec) then s.(recoveryCount := s.recoveryCount + 1)
             else s.(phase := Selecting, candidateSince := None, failureCount := 0, recoveryCount := 0)));
  }

  // Each run that finds the current node best again is counted, and the one that reaches the threshold drops the
  // candidate.
  lemma {:induction false} RecoveriesAdd(site: Site, w: World, ls: seq<Label>)
    requires w.run == Resting && w.status.phase == Stabilizing && w.status.candidateSince.Some?
    requires Valid(site, w, ls) && AllRuns(Recovery, site, w, ls)
    requires 0 <= w.status.recoveryCount < RecoveryThreshold(site.spec)
    requires Runs(ls) <= RecoveryThreshold(site.spec) - w.status.recoveryCount
    ensures Recovered(site.spec, w.status, Runs(ls), Bound(Exec(site, w, ls)))
    decreases |ls|
  {
    if ls == [] {
      AtRest(w);
    } else {
      hide Next, Enabled, IsRun, Bound, Recovered;
      var before, last := ls[..|ls| - 1], ls[|ls| - 1];
      var u := Exec(site, w, before);
      RecoveriesAdd(site, w, before);
      if last.Begin? {
        BeginsAtRest(site, u, last.env);
        RecoveryAdds(site, u, last.env, w.status, Runs(before));
      } else {
        BoundStays(site, u, last);
      }
    }
  }

  // ---- the recovery counter stays below its threshold ----

  predicate BelowRecovery(spec: Spec, st: Status) { 0 <= st.recoveryCount < RecoveryThreshold(spec) }

  lemma SelectionKeepsBelow(c: Context, a: Status, reason: Reason, b: Status)
    requires LawfulSelection(c, a, reason, b) && BelowRecovery(c.spec, a)
    ensures BelowRecovery(c.spec, b)
  {
    hide EffectLaw.SawBetter, NodeScoring.JustifiedMove, EffectLaw.Known;
  }

  lemma OthersKeepBelow(c: Context, a: Status, reason: Reason, b: Status)
    requires LawfulEntry(c, a, reason, b) || LawfulRouting(c, a, reason, b) || LawfulOutcome(c, a, reason, b)
    requires BelowRecovery(c.spec, a)
    ensures BelowRecovery(c.spec, b)
  {
    hide EffectLaw.Entered, NodeScoring.ServerOf;
  }

  lemma ArrivalKeepsBelow(c: Context, a: Status, reason: Reason, read: seq<string>, b: Status)
    requires LawfulArrival(c, a, reason, read, b) && BelowRecovery(c.spec, a)
    ensures BelowRecovery(c.spec, b)
  {
    hide NodeScoring.ServerOf, Backoff.CleanupDelay;
  }

  lemma RecoveryCountLaw(c: Context, stage: Stage, a: Status, e: Effect)
    requires Lawful(c, stage, a, e) && BelowRecovery(c.spec, a)
    ensures BelowRecovery(c.spec, After(a, e))
  {
    hide EffectLaw.LawfulEntry, EffectLaw.LawfulSelection, EffectLaw.LawfulRouting, EffectLaw.LawfulArrival,
         EffectLaw.LawfulOutcome, EffectLaw.LawfulForward, EffectLaw.LawfulRollback, Api.MergePatch, EffectLaw.Entered,
         EffectLaw.Arrived;
    if e.Patch? {
      var from, to, reason := Core(a), Core(After(a, e)), e.reason;
      assert BelowRecovery(c.spec, from);
      if LawfulSelection(c, from, reason, to) {
        SelectionKeepsBelow(c, from, reason, to);
      } else if LawfulArrival(c, from, reason, e.base.localOwners, to) {
        ArrivalKeepsBelow(c, from, reason, e.base.localOwners, to);
      } else {
        OthersKeepBelow(c, from, reason, to);
      }
    }
  }

  lemma {:induction false} AlwaysBelowRecovery(site: Site, w0: World, ls: seq<Label>)
    requires Fresh(w0) && Valid(site, w0, ls)
    ensures BelowRecovery(site.spec, Exec(site, w0, ls).status)
    decreases |ls|
  {
    hide EffectLaw.Lawful, EffectLaw.Chain, EffectLaw.After, ReconcilePlan.Plan;
    if ls != [] {
      var before := ls[..|ls| - 1];
      var w := Exec(site, w0, before);
      AlwaysBelowRecovery(site, w0, before);
      RunsAreLawful(site, w0, before);
      if ls[|ls| - 1].Perform? {
        NextEffectIsLawful(site, w);
        RecoveryCountLaw(w.run.c, w.run.stage, w.status, w.run.rest[0]);
      }
    }
  }

  // In every run of the system: a candidate is dropped as soon as the runs that found the current node best again are
  // as many as the recovery threshold still asks for.
  lemma RecoveriesDrop(site: Site, w0: World, history: seq<Label>, ls: seq<Label>)
    requires Fresh(w0) && Valid(site, w0, history)
    requires var w := Exec(site, w0, history);
             && w.run == Resting && w.status.phase == Stabilizing && Valid(site, w, ls)
             && AllRuns(Recovery, site, w, ls) && Exec(site, w, ls).run == Resting
             && Runs(ls) <= RecoveryThreshold(site.spec) - w.status.recoveryCount
    ensures var w, v := Exec(site, w0, history), Exec(site, Exec(site, w0, history), ls);
            if Runs(ls) < RecoveryThreshold(site.spec) - w.status.recoveryCount then
              v.status.phase == Stabilizing && v.status.recoveryCount == w.status.recoveryCount + Runs(ls)
            else
              && v.status.phase == Selecting && v.status.candidateSince.None?
              && v.status.failureCount == v.status.recoveryCount == 0
  {
    var w := Exec(site, w0, history);
    Hysteresis.AlwaysDamped(site, w0, history);
    AlwaysBelowRecovery(site, w0, history);
    hide Valid, Exec, AllRuns;
    RecoveriesAdd(site, w, ls);
    AtRest(Exec(site, w, ls));
  }

  // ---- cleanup checks ----

  predicate FailedChecks(spec: Spec, st: Status, n: nat, b: Status) {
    && b.cleanupAttempts == st.cleanupAttempts + n
    && b.phase == if n < CleanupMaxAttempts(spec) - st.cleanupAttempts then CleaningStaleOwners else Degraded
  }

  lemma FailedCheckAdds(site: Site, w: World, env: Env, st: Status, n: nat)
    requires Enabled(site, w, Begin(env)) && IsRun(FailedCheck, site, w, env)
    requires FailedChecks(site.spec, st, n, Core(w.status)) && n < CleanupMaxAttempts(site.spec) - st.cleanupAttempts
    ensures FailedChecks(site.spec, st, n + 1, Bound(Next(site, w, Begin(env))))
  {
    var s := Seen(w, env);
    assert s.phase == CleaningStaleOwners && s.cleanupAttempts == st.cleanupAttempts + n;
    hide Ends, Bound, Arriving, Enabled, StartRun, Seen, Backoff.CleanupDelay;
    var server :| FailsCheck(site, w, env, server);
    CheckOutcome(site, w, env, server);
    BeginIsBound(site, w, env, w.(status := Checked(site.spec, s, w.now)));
  }

  lemma {:induction false} FailedChecksAdd(site: Site, w: World, ls: seq<Label>)
    requires w.run == Resting && w.status.phase == CleaningStaleOwners
    requires Valid(site, w, ls) && AllRuns(FailedCheck, site, w, ls)
    requires w.status.cleanupAttempts < CleanupMaxAttempts(site.spec)
    requires Runs(ls) <= CleanupMaxAttempts(site.spec) - w.status.cleanupAttempts
    ensures FailedChecks(site.spec, w.status, Runs(ls), Bound(Exec(site, w, ls)))
    decreases |ls|
  {
    if ls == [] {
      AtRest(w);
    } else {
      hide Next, Enabled, IsRun, Bound, FailedChecks;
      var before, last := ls[..|ls| - 1], ls[|ls| - 1];
      var u := Exec(site, w, before);
      FailedChecksAdd(site, w, before);
      if last.Begin? {
        BeginsAtRest(site, u, last.env);
        FailedCheckAdds(site, u, last.env, w.status, Runs(before));
      } else {
        BoundStays(site, u, last);
      }
    }
  }

  // In every run of the system: each due check that fails is recorded, and as many of them as the budget has left
  // end cleanup.
  lemma FailedChecksDegrade(site: Site, w0: World, history: seq<Label>, ls: seq<Label>)
    requires Fresh(w0) && Valid(site, w0, history)
    requires var w := Exec(site, w0, history);
             && w.run == Resting && w.status.phase == CleaningStaleOwners && Valid(site, w, ls)
             && AllRuns(FailedCheck, site, w, ls) && Exec(site, w, ls).run == Resting
             && Runs(ls) <= CleanupMaxAttempts(site.spec) - w.status.cleanupAttempts
    ensures var w, v := Exec(site, w0, history), Exec(site, Exec(site, w0, history), ls);
            && |Checks(site, w0, history + ls)| == |Checks(site, w0, history)| + Runs(ls)
            && v.status.cleanupAttempts == w.status.cleanupAttempts + Runs(ls)
            && v.status.phase == if Runs(ls) < CleanupMaxAttempts(site.spec) - w.status.cleanupAttempts
                                 then CleaningStaleOwners else Degraded
  {
    var w := Exec(site, w0, history);
    ChecksAreBudgeted(site, w0, history);
    AttemptsAreChecks(site, w0, history);
    ExecSplits(site, w0, history, ls);
    AttemptsAreChecks(site, w0, history + ls);
    hide Valid, Exec, AllRuns, Checks, Delayed;
    FailedChecksAdd(site, w, ls);
    AtRest(Exec(site, w, ls));
  }
}
