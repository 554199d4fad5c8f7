/**
 Cleanup budget: the attempt counter is a termination measure. It is zero until cleanup starts, every failed
 check raises it by one, checks are at least the announced delay apart, and the last one degrades.
*/
module CleanupBudget {
  import opened Prelude
  import opened Api
  import opened Policy
  import opened ReconcilePlan
  import opened EffectLaw
  import opened System
  import opened Consequences
  import Backoff

  // Times of the failed checks since cleanup was entered or the target changed.
  function CheckedPatch(checks: seq<int>, reason: Reason, now: int): seq<int> {
    if reason == OwnersPending || reason == CleanupTimeout then checks + [now]
    else if reason == Committed || reason == WindowElapsed then []
    else checks
  }

  function Checks(site: Site, w: World, ls: seq<Label>): seq<int>
    decreases |ls|
  {
    if ls == [] then []
    else
      var before := ls[..|ls| - 1];
      var u := Exec(site, w, before);
      if ls[|ls| - 1].Perform? && u.run.Running? && u.run.rest != [] && u.run.rest[0].Patch? then
        CheckedPatch(Checks(site, w, before), u.run.rest[0].reason, u.run.c.env.now)
      else Checks(site, w, before)
  }

  predicate Delayed(spec: Spec, checks: seq<int>) {
    forall i :: 0 < i < |checks| ==> checks[i] >= checks[i - 1] + Backoff.CleanupDelay(spec, i)
  }

  predicate BeforeCleanup(phase: Phase) {
    BeforeTraffic(phase) || phase == VerifyingTraffic || phase == Committing
  }

  predicate Budgeted(spec: Spec, st: Status, checks: seq<int>) {
    && (BeforeCleanup(st.phase) ==> st.cleanupAttempts == 0 && st.nextCleanup.None?)
    && Delayed(spec, checks) && |checks| <= CleanupMaxAttempts(spec)
    && (st.phase == CleaningStaleOwners ==>
          && |checks| == st.cleanupAttempts < CleanupMaxAttempts(spec)
          && st.nextCleanup ==
             if checks == [] then None else Some(checks[|checks| - 1] + Backoff.CleanupDelay(spec, |checks|)))
  }

  lemma FailedCheck(c: Context, a: Status, reason: Reason, b: Status, checks: seq<int>)
    requires Budgeted(c.spec, a, checks) && CleanupStep(c, a, reason, b)
    requires reason == OwnersPending || reason == CleanupTimeout
    ensures Budgeted(c.spec, b, checks + [c.env.now])
    ensures reason == CleanupTimeout ==> |checks| + 1 == CleanupMaxAttempts(c.spec)
  {
    hide Backoff.CleanupDelay;
    var all := checks + [c.env.now];
    assert all[|all| - 1] == c.env.now;
    assert checks != [] ==> all[|all| - 2] == checks[|checks| - 1];
  }

  // No other patch enters a phase before cleanup except from one, or by a retarget.
  lemma CleanupComesLast(c: Context, a: Status, reason: Reason, b: Status)
    requires PhaseStep(a, reason, b) && BeforeCleanup(b.phase) && reason != WindowElapsed
    ensures BeforeCleanup(a.phase)
  {
  }

  lemma NothingChecked(spec: Spec, st: Status)
    requires st.cleanupAttempts == 0 && st.nextCleanup.None?
    ensures Budgeted(spec, st, [])
  {
  }

  lemma ChecksCarryOver(spec: Spec, a: Status, b: Status, checks: seq<int>)
    requires Budgeted(spec, a, checks) && b.cleanupAttempts == a.cleanupAttempts && b.nextCleanup == a.nextCleanup
    requires BeforeCleanup(b.phase) ==> BeforeCleanup(a.phase)
    requires b.phase == CleaningStaleOwners ==> a.phase == CleaningStaleOwners
    ensures Budgeted(spec, b, checks)
  {
    hide Delayed, Backoff.CleanupDelay;
  }

  lemma NoCheck(c: Context, a: Status, reason: Reason, b: Status, checks: seq<int>)
    requires Budgeted(c.spec, a, checks) && CleanupStep(c, a, reason, b) && PhaseStep(a, reason, b)
    requires reason != OwnersPending && reason != CleanupTimeout
    ensures Budgeted(c.spec, b, CheckedPatch(checks, reason, c.env.now))
  {
    hide Delayed, Backoff.CleanupDelay, EffectLaw.CleanupDue, Policy.CleanupMaxAttempts;
    assert reason == Committed ==> a.cleanupAttempts == 0 && a.nextCleanup.None?;
    if BeforeCleanup(b.phase) && reason != WindowElapsed { CleanupComesLast(c, a, reason, b); }
    hide Budgeted, PhaseStep;
    if reason == WindowElapsed || reason == Committed {
      NothingChecked(c.spec, b);
    } else {
      ChecksCarryOver(c.spec, a, b, checks);
    }
  }

  lemma BudgetedCore(spec: Spec, st: Status, checks: seq<int>)
    ensures Budgeted(spec, st, checks) <==> Budgeted(spec, Core(st), checks)
  {
  }

  lemma BudgetedStep(site: Site, w: World, checks: seq<int>, l: Label)
    requires Budgeted(site.spec, w.status, checks) && LawfulRun(site, w) && Enabled(site, w, l)
    ensures Budgeted(site.spec, Next(site, w, l).status,
              if l.Perform? && w.run.rest[0].Patch? then CheckedPatch(checks, w.run.rest[0].reason, w.run.c.env.now)
              else checks)
    ensures l.Perform? && Has(w.run.rest[0], CleanupTimeout) ==> |checks| + 1 == CleanupMaxAttempts(site.spec)
  {
    hide EffectLaw.Chain, EffectLaw.After, ReconcilePlan.Plan, Budgeted, CleanupStep, PhaseStep, RolesStep, StampStep,
         ObservedStep, CandidateStep, EffectLaw.LawfulForward, EffectLaw.LawfulRollback;
    BudgetedCore(site.spec, w.status, checks);
    if l.Perform? {
      PerformLaw(site, w);
      var c, e, v := w.run.c, w.run.rest[0], Performed(w, w.run.rest[0]);
      if e.Patch? {
        if e.reason == OwnersPending || e.reason == CleanupTimeout {
          FailedCheck(c, Core(w.status), e.reason, Core(v.status), checks);
        } else {
          NoCheck(c, Core(w.status), e.reason, Core(v.status), checks);
        }
        BudgetedCore(site.spec, v.status, CheckedPatch(checks, e.reason, c.env.now));
      }
    } else {
      assert Core(Next(site, w, l).status) == Core(w.status);
      BudgetedCore(site.spec, Next(site, w, l).status, checks);
    }
  }

  // In every run of the system: the checks since cleanup began are counted, spaced and bounded.
  lemma {:induction false} ChecksAreBudgeted(site: Site, w0: World, ls: seq<Label>)
    requires Fresh(w0) && Valid(site, w0, ls)
    ensures Budgeted(site.spec, Exec(site, w0, ls).status, Checks(site, w0, ls))
    decreases |ls|
  {
    if ls != [] {
      var before := ls[..|ls| - 1];
      ChecksAreBudgeted(site, w0, before);
      RunsAreLawful(site, w0, before);
      BudgetedStep(site, Exec(site, w0, before), Checks(site, w0, before), ls[|ls| - 1]);
    }
  }

  // In every phase the stored counter is the number of recorded checks.
  lemma {:induction false} AttemptsAreChecks(site: Site, w0: World, ls: seq<Label>)
    requires Fresh(w0) && Valid(site, w0, ls)
    ensures Exec(site, w0, ls).status.cleanupAttempts == |Checks(site, w0, ls)|
    decreases |ls|
  {
    hide EffectLaw.Chain, EffectLaw.After, ReconcilePlan.Plan, PhaseStep, RolesStep, StampStep, ObservedStep,
         CandidateStep, EffectLaw.LawfulForward, EffectLaw.LawfulRollback, Delayed, Backoff.CleanupDelay;
    if ls != [] {
      var before := ls[..|ls| - 1];
      var w := Exec(site, w0, before);
      AttemptsAreChecks(site, w0, before);
      ChecksAreBudgeted(site, w0, before);
      RunsAreLawful(site, w0, before);
      if ls[|ls| - 1].Perform? { PerformLaw(site, w); }
    }
  }

  // Cleanup gives up exactly at the configured number of failed checks.
  lemma TimeoutSpendsTheBudget(site: Site, w0: World, ls: seq<Label>)
    requires Fresh(w0) && Valid(site, w0, ls + [Perform])
    requires Exec(site, w0, ls).run.Running? && Has(Exec(site, w0, ls).run.rest[0], CleanupTimeout)
    ensures |Checks(site, w0, ls + [Perform])| == CleanupMaxAttempts(site.spec)
    ensures Delayed(site.spec, Checks(site, w0, ls + [Perform]))
  {
    var all := ls + [Perform];
    assert all[..|all| - 1] == ls;
    ChecksAreBudgeted(site, w0, ls);
    ChecksAreBudgeted(site, w0, all);
    RunsAreLawful(site, w0, ls);
    BudgetedStep(site, Exec(site, w0, ls), Checks(site, w0, ls), Perform);
  }
}
