/**
 Mutation rate: every provider call is covered by its own durable attempt stamp, and stamps are at least
 one cooldown apart, over any run of the system with restarts at any point.
*/
module MutationRate {
  import opened Prelude
  import opened Api
  import opened Policy
  import opened ReconcilePlan
  import opened EffectLaw
  import opened System
  import opened Consequences

  // A provider call: the stamp that covers it and the time it was made.
  datatype Call = Call(stamp: int, at: int)

  function Calls(site: Site, w: World, ls: seq<Label>): seq<Call>
    decreases |ls|
  {
    if ls == [] then []
    else
      var before := Exec(site, w, ls[..|ls| - 1]);
      Calls(site, w, ls[..|ls| - 1]) +
      if ls[|ls| - 1].Perform? && before.run.Running? && before.run.rest != [] && before.run.rest[0].Route? then
        [Call(if before.status.lastAttempted.Some? then before.status.lastAttempted.value else 0, before.now)]
      else []
  }

  // Consecutive calls: the stamps are a cooldown apart and each call falls between its stamp and the next.
  predicate Spaced(calls: seq<Call>, cooldown: int) {
    && (forall i :: 0 <= i < |calls| ==> calls[i].stamp <= calls[i].at)
    && (forall i :: 0 < i < |calls| ==>
          calls[i - 1].at <= calls[i].stamp && calls[i - 1].stamp + cooldown <= calls[i].stamp)
  }

  predicate LastCovered(w: World, calls: seq<Call>, cooldown: int) {
    calls != [] ==>
      var last := calls[|calls| - 1];
      && w.status.lastAttempted.Some? && last.stamp <= w.status.lastAttempted.value && last.at <= w.now
      && (w.run.Running? && w.run.stage != Routed ==> last.at <= w.run.c.env.now)
      && (w.run.Running? && w.run.stage == Stamped ==> last.stamp + cooldown <= w.run.c.env.now)
  }

  ghost predicate Rated(site: Site, w: World, calls: seq<Call>) {
    Spaced(calls, Cooldown(site.spec)) && LastCovered(w, calls, Cooldown(site.spec))
  }

  // The law of effects, as far as stamps and calls go.
  lemma StampLaw(site: Site, w: World)
    requires LawfulRun(site, w) && w.run.Running?
    ensures var e, v, c := w.run.rest[0], Performed(w, w.run.rest[0]), w.run.c;
            && c.spec == site.spec && c.env.now <= w.now && v.now == w.now
            && (e.Route? <==> w.run.stage == Stamped)
            && (e.Route? ==> w.status.lastAttempted == Some(c.env.now))
            && (if IsStamp(e) then
                  w.run.stage != Routed && v.status.lastAttempted == Some(c.env.now)
                  && MutationAllowed(w.status.lastAttempted, Cooldown(site.spec), c.env.now)
                else v.status.lastAttempted == w.status.lastAttempted)
            && (v.run.Running? ==> v.run.c == c && v.run.stage == NextStage(w.run.stage, e))
  {
    hide EffectLaw.Chain, Api.MergePatch, Cooldown;
    PerformLaw(site, w);
    hide Consequences.RolesStep, Consequences.PhaseStep, Consequences.ObservedStep, Consequences.CandidateStep,
         Consequences.CleanupStep, EffectLaw.Entered, EffectLaw.Known;
  }

  lemma RatedCall(site: Site, w: World, calls: seq<Call>)
    requires Rated(site, w, calls) && LawfulRun(site, w) && w.run.Running? && w.run.rest[0].Route?
    ensures w.status.lastAttempted.Some?
    ensures Rated(site, Performed(w, w.run.rest[0]), calls + [Call(w.status.lastAttempted.value, w.now)])
  {
    hide LawfulRun, Performed, Cooldown;
    StampLaw(site, w);
    var all := calls + [Call(w.status.lastAttempted.value, w.now)];
    assert calls != [] ==> all[|all| - 2] == calls[|calls| - 1];
  }

  lemma RatedPatch(site: Site, w: World, calls: seq<Call>)
    requires Rated(site, w, calls) && LawfulRun(site, w) && w.run.Running? && !w.run.rest[0].Route?
    ensures Rated(site, Performed(w, w.run.rest[0]), calls)
  {
    hide LawfulRun, Performed, Spaced;
    StampLaw(site, w);
  }

  // Nothing but the run itself touches the stamp, and the clock never goes back.
  lemma RatedOtherwise(site: Site, w: World, calls: seq<Call>, l: Label)
    requires Rated(site, w, calls) && Enabled(site, w, l) && !l.Perform?
    ensures Rated(site, Next(site, w, l), calls)
  {
    hide ReconcilePlan.Plan, Cooldown;
  }

  lemma RatedPerform(site: Site, w0: World, before: seq<Label>)
    requires var w := Exec(site, w0, before);
             LawfulRun(site, w) && w.run.Running? && Rated(site, w, Calls(site, w0, before))
    ensures var ls := before + [Perform]; Rated(site, Exec(site, w0, ls), Calls(site, w0, ls))
  {
    hide LawfulRun, Performed, Rated, Cooldown;
    var w, ls := Exec(site, w0, before), before + [Perform];
    assert ls[..|ls| - 1] == before;
    LawfulRunGoesOn(site, w);
    if w.run.rest[0].Route? {
      RatedCall(site, w, Calls(site, w0, before));
    } else {
      RatedPatch(site, w, Calls(site, w0, before));
      assert Calls(site, w0, ls) == Calls(site, w0, before);
    }
  }

  lemma {:induction false} CallsAreSpaced(site: Site, w0: World, ls: seq<Label>)
    requires Fresh(w0) && Valid(site, w0, ls)
    ensures Rated(site, Exec(site, w0, ls), Calls(site, w0, ls))
    decreases |ls|
  {
    hide LawfulRun, Performed, Rated, Cooldown;
    if ls == [] {
      RatedAtFirst(site, w0);
    } else {
      var before, last := ls[..|ls| - 1], ls[|ls| - 1];
      CallsAreSpaced(site, w0, before);
      RunsAreLawful(site, w0, before);
      if last.Perform? {
        assert ls == before + [Perform];
        RatedPerform(site, w0, before);
      } else {
        RatedOtherwise(site, Exec(site, w0, before), Calls(site, w0, before), last);
        assert Calls(site, w0, ls) == Calls(site, w0, before);
      }
    }
  }

  lemma RatedAtFirst(site: Site, w: World)
    ensures Rated(site, w, [])
  {
  }

  lemma {:induction false} StampsGrow(calls: seq<Call>, cooldown: int, i: nat, j: nat)
    requires Spaced(calls, cooldown) && i <= j < |calls|
    ensures calls[j].stamp - calls[i].stamp >= (j - i) * cooldown
    decreases j
  {
    if i < j {
      StampsGrow(calls, cooldown, i, j - 1);
      assert (j - i) * cooldown == (j - 1 - i) * cooldown + cooldown;
    }
  }

  // Calls number i..j made within a window of length `window`: 1 + window/cooldown of them, but for the time that
  // the first one came after its stamp; and in any case no more than 2 + window/cooldown.
  lemma CallsInWindow(site: Site, w0: World, ls: seq<Label>, i: nat, j: nat, window: int)
    requires Fresh(w0) && Valid(site, w0, ls)
    requires i <= j < |Calls(site, w0, ls)|
    requires Calls(site, w0, ls)[j].at - Calls(site, w0, ls)[i].at <= window
    ensures var first := Calls(site, w0, ls)[i]; (j - i) * Cooldown(site.spec) <= window + (first.at - first.stamp)
    ensures (j - i - 1) * Cooldown(site.spec) <= window
  {
    var calls, cooldown := Calls(site, w0, ls), Cooldown(site.spec);
    CallsAreSpaced(site, w0, ls);
    StampsGrow(calls, cooldown, i, j);
    if i < j {
      StampsGrow(calls, cooldown, i + 1, j);
    }
  }
}
