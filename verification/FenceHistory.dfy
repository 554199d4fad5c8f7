/**
 Fence history: whoever moves the provider, the recorded owner changes only by first observation or to the
 server of the current target or (by rollback) source, and no run calls the provider past an alien owner.
*/
module FenceHistory {
  import opened Prelude
  import opened Api
  import opened NodeScoring
  import opened ReconcilePlan
  import opened EffectLaw
  import opened System
  import opened Consequences

  ghost predicate IsServerOf(site: Site, name: string, owner: Option<int>) {
    name in site.servers && owner == Some(site.servers[name])
  }

  lemma RecordedOwnerIsFenced(site: Site, w0: World, ls: seq<Label>, l: Label)
    requires Fresh(w0) && Valid(site, w0, ls) && Enabled(site, Exec(site, w0, ls), l)
    ensures var w := Exec(site, w0, ls);
            var v := Next(site, w, l);
            v.status.observed != w.status.observed ==>
              && l.Perform? && v.status.observed.Some?
              && (|| w.status.observed.None?
                  || IsServerOf(site, w.status.target, v.status.observed)
                  || (&& (Has(w.run.rest[0], RollbackSucceeded) || Has(w.run.rest[0], RollbackAlreadyConverged))
                      && IsServerOf(site, w.status.source, v.status.observed)))
  {
    hide EffectLaw.Chain, ReconcilePlan.Plan, Api.MergePatch;
    var w := Exec(site, w0, ls);
    RunsAreLawful(site, w0, ls);
    if l.Perform? {
      PerformLaw(site, w);
      hide Consequences.RolesStep, Consequences.PhaseStep, Consequences.StampStep, Consequences.CandidateStep,
           Consequences.CleanupStep, EffectLaw.LawfulForward, EffectLaw.LawfulRollback;
      var c := w.run.c;
      assert Core(w.status).observed == w.status.observed;
      if ServerOf(c.env.nodes, w.status.target).Some? { ServerOfSite(site, c.env.nodes, w.status.target); }
      if ServerOf(c.env.nodes, w.status.source).Some? { ServerOfSite(site, c.env.nodes, w.status.source); }
      assert IsObservation(w.run.rest[0]) && w.status.observed.Some?
             && Next(site, w, l).status.observed != w.status.observed
        ==> c.start.target == w.status.target;
    }
  }

  // The owner a calling run has seen: nothing was recorded before, or it is the recorded owner, or the
  // server of the target that the run started with.
  lemma CallsAreFenced(site: Site, w0: World, ls: seq<Label>)
    requires Fresh(w0) && Valid(site, w0, ls)
    requires var w := Exec(site, w0, ls); w.run.Running? && w.run.rest != [] && w.run.rest[0].Route?
    ensures var c := Exec(site, w0, ls).run.c;
            || c.start.observed.None? || c.start.observed == Some(c.env.owner)
            || IsServerOf(site, c.start.target, Some(c.env.owner))
  {
    hide EffectLaw.Chain;
    var w := Exec(site, w0, ls);
    RunsAreLawful(site, w0, ls);
    PerformLaw(site, w);
    hide Consequences.Step;
    var c := w.run.c;
    assert Fenced(c);
    if ServerOf(c.env.nodes, c.start.target).Some? { ServerOfSite(site, c.env.nodes, c.start.target); }
  }
}
