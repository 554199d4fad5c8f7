/**
 internal/controller/probe_checks.go and Aggregate of internal/probe/executor.go: thresholds over the history
 of a probe, and the composition of several probes into one gate.
*/
module ProbeChecks {
  import opened Prelude
  import opened Api

  // ---- thresholds ----

  // The stored observation of one probe: its reported verdict and the two counters.
  datatype Observation = Observation(success: bool, successes: int, failures: int)

  const UNOBSERVED := Observation(false, 0, 0)

  datatype Thresholds = Thresholds(success: int32, failure: int32) {
    function Successes(): int { if success as int > 1 then success as int else 1 }
    function Failures(): int { if failure as int > 1 then failure as int else 1 }
  }

  function Applied(t: Thresholds, previous: Observation, raw: bool): Observation {
    if raw then
      Observation(previous.successes + 1 >= t.Successes(), previous.successes + 1, 0)
    else
      Observation(previous.failures + 1 < t.Failures() && previous.success, 0, previous.failures + 1)
  }

  // The observation stored after the given raw outcomes, oldest first.
  function ObservedAfter(t: Thresholds, history: seq<bool>): Observation
    decreases |history|
  {
    if history == [] then UNOBSERVED
    else Applied(t, ObservedAfter(t, history[..|history| - 1]), history[|history| - 1])
  }

  // How many of the last outcomes in a row are `outcome`.
  function Run(history: seq<bool>, outcome: bool): (n: nat)
    ensures n <= |history|
    decreases |history|
  {
    if history == [] || history[|history| - 1] != outcome then 0
    else Run(history[..|history| - 1], outcome) + 1
  }

  lemma {:induction false} RunIsMaximal(history: seq<bool>, outcome: bool)
    ensures var n := Run(history, outcome);
            && (forall i :: |history| - n <= i < |history| ==> history[i] == outcome)
            && (n < |history| ==> history[|history| - n - 1] != outcome)
    decreases |history|
  {
    if history != [] && history[|history| - 1] == outcome { RunIsMaximal(history[..|history| - 1], outcome); }
  }

  // Closed form: the counters are the trailing runs, and success is reported exactly while the trailing run of
  // failures is short of its threshold and the run of successes before it reached the other one.
  lemma {:induction false} ThresholdsClosedForm(t: Thresholds, history: seq<bool>)
    ensures var o, failed := ObservedAfter(t, history), Run(history, false);
            && o.successes == Run(history, true) && o.failures == failed
            && (o.success <==>
                  && (failed == 0 || failed < t.failure as int)
                  && var passed := Run(history[..|history| - failed], true); passed >= 1 && passed >= t.success as int)
    decreases |history|
  {
    if history != [] {
      var before := history[..|history| - 1];
      ThresholdsClosedForm(t, before);
      if history[|history| - 1] {
        assert history[..|history| - 0] == history;
      } else {
        var failed := Run(history, false);
        assert before[..|before| - (failed - 1)] == history[..|history| - failed];
      }
    }
  }

  // ---- the list of stored observations ----

  datatype Entry = Entry(name: string, observation: Observation)

  function Lookup(entries: seq<Entry>, name: string): Observation {
    if entries == [] then UNOBSERVED
    else if entries[0].name == name then entries[0].observation
    else Lookup(entries[1..], name)
  }

  lemma {:induction false} LookupAt(entries: seq<Entry>, name: string, k: nat)
    requires k <= |entries| && forall i :: 0 <= i < k ==> entries[i].name != name
    requires k < |entries| ==> entries[k].name == name
    ensures Lookup(entries, name) == if k < |entries| then entries[k].observation else UNOBSERVED
  {
    if k > 0 { LookupAt(entries[1..], name, k - 1); }
  }

  lemma {:induction false} LookupElsewhere(entries: seq<Entry>, k: nat, e: Entry, name: string)
    requires k < |entries| && entries[k].name == e.name && e.name != name
    ensures Lookup(entries[k := e], name) == Lookup(entries, name)
  {
    if k > 0 {
      assert entries[k := e][1..] == entries[1..][k - 1 := e];
      LookupElsewhere(entries[1..], k - 1, e, name);
    } else {
      assert entries[k := e][1..] == entries[1..];
    }
  }

  lemma {:induction false} LookupAppended(entries: seq<Entry>, e: Entry, name: string)
    requires e.name != name
    ensures Lookup(entries + [e], name) == Lookup(entries, name)
  {
    if entries == [] {
      assert [e][1..] == [];
    } else {
      assert (entries + [e])[1..] == entries[1..] + [e];
      LookupAppended(entries[1..], e, name);
    }
  }

  method Previous(entries: seq<Entry>, name: string) returns (previous: Observation)
    ensures previous == Lookup(entries, name)
  {
    previous := UNOBSERVED;
    for i := 0 to |entries|
      invariant forall j :: 0 <= j < i ==> entries[j].name != name
    {
      if entries[i].name == name {
        LookupAt(entries, name, i);
        return entries[i].observation;
      }
    }
    LookupAt(entries, name, |entries|);
  }

  method ApplyThresholds(t: Thresholds, entries: seq<Entry>, name: string, raw: bool) returns (o: Observation)
    ensures o == Applied(t, Lookup(entries, name), raw)
  {
    var previous := Previous(entries, name);
    if raw {
      previous := previous.(successes := previous.successes + 1, failures := 0);
      return previous.(success := previous.successes >= t.Successes());
    }
    previous := previous.(failures := previous.failures + 1, successes := 0);
    if previous.failures < t.Failures() && previous.success { return previous.(success := true); }
    return previous.(success := false);
  }

  class ProbeStatus {
    var entries: seq<Entry>

    constructor ()
      ensures entries == []
    {
      entries := [];
    }

    // One evaluation: apply the thresholds, then store the observation in place or append it.
    method Observe(t: Thresholds, name: string, raw: bool) returns (o: Observation)
      modifies this
      ensures o == Applied(t, Lookup(old(entries), name), raw)
      ensures Lookup(entries, name) == o
      ensures forall other :: other != name ==> Lookup(entries, other) == Lookup(old(entries), other)
    {
      o := ApplyThresholds(t, entries, name, raw);
      var e := Entry(name, o);
      for i := 0 to |entries|
        invariant entries == old(entries) && forall j :: 0 <= j < i ==> entries[j].name != name
      {
        if entries[i].name == name {
          forall other | other != name ensures Lookup(entries[i := e], other) == Lookup(entries, other) {
            LookupElsewhere(entries, i, e, other);
          }
          entries := entries[i := e];
          LookupAt(entries, name, i);
          return;
        }
      }
      forall other | other != name ensures Lookup(entries + [e], other) == Lookup(entries, other) {
        LookupAppended(entries, e, other);
      }
      entries := entries + [e];
      LookupAt(entries, name, |entries| - 1);
    }
  }

  // ---- composition ----

  // What the composition asks of the probe results.
  predicate Holds(composition: Composition, quorum: int32, results: seq<bool>) {
    match composition
    case NoComposition => false !in results
    case All => false !in results
    case Any => true in results
    case Quorum => multiset(results)[true] >= quorum as int
    case UnsupportedComposition => false
  }

  lemma {:induction false} TrueAndFalse(results: seq<bool>)
    ensures multiset(results)[true] + multiset(results)[false] == |results|
  {
    if results != [] {
      var before := results[..|results| - 1];
      TrueAndFalse(before);
      var last := results[|results| - 1];
      assert results == before + [last];
      assert multiset(results) == multiset(before) + multiset{last};
    }
  }

  method Aggregate(composition: Composition, quorum: int32, results: seq<bool>) returns (ok: bool)
    ensures ok == (results != [] && Holds(composition, quorum, results))
  {
    if |results| == 0 { return false; }
    var successes := 0;
    for i := 0 to |results|
      invariant successes == multiset(results[..i])[true]
    {
      assert results[..i + 1] == results[..i] + [results[i]];
      if results[i] { successes := successes + 1; }
    }
    assert results[..|results|] == results;
    TrueAndFalse(results);
    match composition
    case NoComposition => return successes == |results|;
    case All => return successes == |results|;
    case Any => return successes > 0;
    case Quorum => return successes >= quorum as int;
    case UnsupportedComposition => return false;
  }

  datatype ProbePhase = PreRoute | PostRoute | Continuous

  // A referenced probe: whether it could be loaded and its target resolved, what it declares, and its
  // thresholded result, if it could be executed and recorded.
  datatype Probe = Probe(
    name: string, loaded: bool, resolved: bool, phase: ProbePhase,
    composition: Composition, quorum: int32, result: Option<bool>)

  predicate Participates(p: Probe, phase: ProbePhase) { p.phase == phase || p.phase == Continuous }

  predicate Usable(p: Probe, phase: ProbePhase) {
    p.loaded && (Participates(p, phase) ==> p.resolved && p.result.Some?)
  }

  predicate AllUsable(probes: seq<Probe>, phase: ProbePhase) { forall p :: p in probes ==> Usable(p, phase) }

  // The nonempty compositions that participating probes name, with their quorums.
  function Named(probes: seq<Probe>, phase: ProbePhase): set<(Composition, int32)> {
    set p | p in probes && Participates(p, phase) && p.composition != NoComposition :: (p.composition, p.quorum)
  }

  function Results(probes: seq<Probe>, phase: ProbePhase): seq<bool>
    requires AllUsable(probes, phase)
  {
    if probes == [] then []
    else
      assert Usable(probes[0], phase) && forall p :: p in probes[1..] ==> p in probes;
      if Participates(probes[0], phase) then [probes[0].result.value] + Results(probes[1..], phase)
      else Results(probes[1..], phase)
  }

  // Two participating probes disagree and the spec does not decide.
  ghost predicate Conflicting(composition: Composition, probes: seq<Probe>, phase: ProbePhase) {
    composition == NoComposition && exists x, y :: x in Named(probes, phase) && y in Named(probes, phase) && x != y
  }

  // The composition in force: the spec's, else the one that probes name, else all of them.
  ghost predicate InForce(composition: Composition, quorum: int32, named: set<(Composition, int32)>,
          pair: (Composition, int32)) {
    if composition != NoComposition then pair == (composition, quorum)
    else if named == {} then pair == (All, quorum)
    else pair in named
  }

  ghost predicate Passes(composition: Composition, quorum: int32, probes: seq<Probe>, phase: ProbePhase) {
    && AllUsable(probes, phase) && !Conflicting(composition, probes, phase)
    && (Results(probes, phase) == [] ||
        exists pair :: InForce(composition, quorum, Named(probes, phase), pair)
            && Holds(pair.0, pair.1, Results(probes, phase)))
  }

  datatype Verdict = Passed | GateFailed | Conflict | CannotEvaluate

  lemma {:induction false} ResultsSnoc(probes: seq<Probe>, p: Probe, phase: ProbePhase)
    requires AllUsable(probes, phase) && Usable(p, phase)
    ensures AllUsable(probes + [p], phase)
    ensures Results(probes + [p], phase) ==
            Results(probes, phase) + if Participates(p, phase) then [p.result.value] else []
  {
    if probes == [] {
      assert [p][1..] == [];
    } else {
      assert forall q :: q in probes[1..] ==> q in probes;
      assert (probes + [p])[1..] == probes[1..] + [p];
      ResultsSnoc(probes[1..], p, phase);
    }
  }

  lemma NamedSnoc(probes: seq<Probe>, p: Probe, phase: ProbePhase)
    ensures Named(probes + [p], phase) ==
            Named(probes, phase) +
            if Participates(p, phase) && p.composition != NoComposition then {(p.composition, p.quorum)} else {}
  {
    var all, more := Named(probes + [p], phase), Named(probes, phase);
    assert forall q :: q in probes + [p] <==> q in probes || q == p;
  }

  // Once two names differ, they stay different.
  lemma NamedGrows(probes: seq<Probe>, k: nat, phase: ProbePhase)
    requires k <= |probes|
    ensures Named(probes[..k], phase) <= Named(probes, phase)
  {
    assert forall q :: q in probes[..k] ==> q in probes;
  }

  lemma UnusableProbe(composition: Composition, quorum: int32, probes: seq<Probe>, p: Probe, phase: ProbePhase)
    requires p in probes && !Usable(p, phase)
    ensures !AllUsable(probes, phase) && !Passes(composition, quorum, probes, phase)
  {
  }

  lemma Disagreement(quorum: int32, probes: seq<Probe>, x: (Composition, int32), y: (Composition, int32),
          phase: ProbePhase)
    requires x in Named(probes, phase) && y in Named(probes, phase) && x != y
    ensures Conflicting(NoComposition, probes, phase) && !Passes(NoComposition, quorum, probes, phase)
  {
  }

  // The composition that the loop arrives at when no two names differ.
  predicate Concluded(composition: Composition, quorum: int32, named: set<(Composition, int32)>,
          pair: (Composition, int32)) {
    if composition != NoComposition then pair == (composition, quorum)
    else if pair.0 != NoComposition && named == {pair} then true
    else named == {} && pair == (All, quorum)
  }

  lemma ConcludedDecides(composition: Composition, quorum: int32, probes: seq<Probe>, pair: (Composition, int32),
          phase: ProbePhase)
    requires AllUsable(probes, phase) && Concluded(composition, quorum, Named(probes, phase), pair)
    ensures !Conflicting(composition, probes, phase)
    ensures Passes(composition, quorum, probes, phase) <==>
            Results(probes, phase) == [] || Holds(pair.0, pair.1, Results(probes, phase))
  {
    hide Holds, Results;
    assert InForce(composition, quorum, Named(probes, phase), pair);
    assert forall other :: InForce(composition, quorum, Named(probes, phase), other) ==> other == pair;
  }

  // The loop of the source over the referenced probes.
  method EvaluateProbePhase(specComposition: Composition, specQuorum: int32, probes: seq<Probe>, phase: ProbePhase)
    returns (verdict: Verdict)
    ensures verdict == Passed <==> Passes(specComposition, specQuorum, probes, phase)
    ensures AllUsable(probes, phase) ==> (verdict == Conflict <==> Conflicting(specComposition, probes, phase))
  {
    hide Passes, Conflicting, Holds, InForce, Named;
    var results: seq<bool> := [];
    var composition := if specComposition == NoComposition then All else specComposition;
    var quorum := specQuorum;
    var referenced, referencedQuorum: int32 := NoComposition, 0;
    NamedEmpty(phase);
    for i := 0 to |probes|
      invariant AllUsable(probes[..i], phase) && results == Results(probes[..i], phase)
      invariant specComposition == NoComposition && referenced == NoComposition ==> Named(probes[..i], phase) == {}
      invariant specComposition == NoComposition && referenced != NoComposition ==>
                  Named(probes[..i], phase) == {(referenced, referencedQuorum)}
                      && (composition, quorum) == (referenced, referencedQuorum)
      invariant Concluded(specComposition, specQuorum, Named(probes[..i], phase), (composition, quorum))
    {
      var p := probes[i];
      assert probes[..i + 1] == probes[..i] + [p] && p in probes;
      NamedSnoc(probes[..i], p, phase);
      NamedGrows(probes, i + 1, phase);
      if !Usable(p, phase) { UnusableProbe(specComposition, specQuorum, probes, p, phase); }
      if !p.loaded { return CannotEvaluate; }
      if Participates(p, phase) {
        if !p.resolved { return CannotEvaluate; }
        if specComposition == NoComposition && p.composition != NoComposition {
          if referenced != NoComposition && (referenced != p.composition || referencedQuorum != p.quorum) {
            Disagreement(specQuorum, probes, (referenced, referencedQuorum), (p.composition, p.quorum), phase);
            return Conflict;
          }
          referenced, referencedQuorum := p.composition, p.quorum;
          composition, quorum := p.composition, p.quorum;
        }
        if p.result.None? { return CannotEvaluate; }
        results := results + [p.result.value];
      }
      ResultsSnoc(probes[..i], p, phase);
    }
    assert probes[..|probes|] == probes;
    ConcludedDecides(specComposition, specQuorum, probes, (composition, quorum), phase);
    if |results| == 0 { return Passed; }
    var ok := Aggregate(composition, quorum, results);
    return if ok then Passed else GateFailed;
  }

  lemma NamedEmpty(phase: ProbePhase)
    ensures Named([], phase) == {}
  {
  }

  // ---- properties of the gate ----

  function Contribution(p: Probe, phase: ProbePhase): multiset<bool>
    requires Usable(p, phase)
  {
    if Participates(p, phase) then multiset{p.result.value} else multiset{}
  }

  lemma ResultsCons(probes: seq<Probe>, phase: ProbePhase)
    requires AllUsable(probes, phase) && probes != []
    ensures Usable(probes[0], phase) && AllUsable(probes[1..], phase)
    ensures multiset(Results(probes, phase)) == Contribution(probes[0], phase) + multiset(Results(probes[1..], phase))
  {
    assert probes[0] in probes && forall p :: p in probes[1..] ==> p in probes;
  }

  lemma {:induction false} ResultsRemove(probes: seq<Probe>, k: nat, phase: ProbePhase)
    requires AllUsable(probes, phase) && k < |probes| && Usable(probes[k], phase)
    ensures AllUsable(probes[..k] + probes[k + 1..], phase)
    ensures multiset(Results(probes, phase)) ==
            multiset(Results(probes[..k] + probes[k + 1..], phase)) + Contribution(probes[k], phase)
  {
    hide Results, Contribution, Usable;
    ResultsCons(probes, phase);
    var left := probes[..k] + probes[k + 1..];
    assert forall p :: p in left ==> p in probes;
    if k == 0 {
      assert left == probes[1..];
    } else {
      var rest := probes[1..];
      assert left[0] == probes[0] && left[1..] == rest[..k - 1] + rest[k..];
      ResultsRemove(rest, k - 1, phase);
      ResultsCons(left, phase);
    }
  }

  lemma Removed(probes: seq<Probe>, k: nat)
    requires k < |probes|
    ensures multiset(probes[..k] + probes[k + 1..]) == multiset(probes) - multiset{probes[k]}
  {
    assert probes == probes[..k] + [probes[k]] + probes[k + 1..];
  }

  lemma RemovedFirst(probes: seq<Probe>)
    requires probes != []
    ensures multiset(probes[1..]) == multiset(probes) - multiset{probes[0]}
  {
    assert probes == [probes[0]] + probes[1..];
  }

  lemma FindFirst(a: seq<Probe>, b: seq<Probe>) returns (k: nat)
    requires a != [] && multiset(a) == multiset(b)
    ensures k < |b| && b[k] == a[0]
  {
    assert a[0] in multiset(a);
    assert a[0] in b;
    k :| 0 <= k < |b| && b[k] == a[0];
  }

  lemma {:induction false} ResultsIgnoreOrder(a: seq<Probe>, b: seq<Probe>, phase: ProbePhase)
    requires AllUsable(a, phase) && AllUsable(b, phase) && multiset(a) == multiset(b)
    ensures multiset(Results(a, phase)) == multiset(Results(b, phase))
    decreases |a|
  {
    if a == [] {
      assert |b| == |multiset(b)| == 0;
    } else {
      hide Results, Contribution, Usable;
      var k := FindFirst(a, b);
      RemovedFirst(a);
      Removed(b, k);
      ResultsCons(a, phase);
      ResultsRemove(b, k, phase);
      ResultsIgnoreOrder(a[1..], b[..k] + b[k + 1..], phase);
    }
  }

  lemma HoldsIgnoresOrder(composition: Composition, quorum: int32, a: seq<bool>, b: seq<bool>)
    requires multiset(a) == multiset(b)
    ensures Holds(composition, quorum, a) == Holds(composition, quorum, b)
  {
    assert forall x :: x in a <==> x in multiset(a);
    assert forall x :: x in b <==> x in multiset(b);
  }

  lemma OneWayOrder(composition: Composition, quorum: int32, a: seq<Probe>, b: seq<Probe>, phase: ProbePhase)
    requires multiset(a) == multiset(b) && Passes(composition, quorum, a, phase)
    ensures Passes(composition, quorum, b, phase)
  {
    assert forall p :: p in a <==> p in multiset(a);
    assert forall p :: p in b <==> p in multiset(b);
    assert Named(a, phase) == Named(b, phase);
    ResultsIgnoreOrder(a, b, phase);
    var x, y := Results(a, phase), Results(b, phase);
    assert |x| == |multiset(x)| && |y| == |multiset(y)|;
    if x != [] {
      var pair :| InForce(composition, quorum, Named(a, phase), pair) && Holds(pair.0, pair.1, x);
      HoldsIgnoresOrder(pair.0, pair.1, x, y);
    }
  }

  // The verdict does not depend on the order of the references.
  lemma VerdictIgnoresOrder(composition: Composition, quorum: int32, a: seq<Probe>, b: seq<Probe>, phase: ProbePhase)
    requires multiset(a) == multiset(b)
    ensures Passes(composition, quorum, a, phase) == Passes(composition, quorum, b, phase)
  {
    if Passes(composition, quorum, a, phase) { OneWayOrder(composition, quorum, a, b, phase); }
    if Passes(composition, quorum, b, phase) { OneWayOrder(composition, quorum, b, a, phase); }
  }

  // `b` is `a` with some failed results turned into successes.
  predicate NoWorse(a: seq<Probe>, b: seq<Probe>) {
    |a| == |b| && forall i :: 0 <= i < |a| ==>
      b[i] == a[i] || (a[i].result.Some? && b[i] == a[i].(result := Some(true)))
  }

  lemma {:induction false} ResultsNoWorse(a: seq<Probe>, b: seq<Probe>, phase: ProbePhase)
    requires NoWorse(a, b) && AllUsable(a, phase) && AllUsable(b, phase)
    ensures var x, y := Results(a, phase), Results(b, phase);
            && |x| == |y| && (false in y ==> false in x) && (true in x ==> true in y)
            && multiset(x)[true] <= multiset(y)[true]
  {
    if a != [] {
      assert forall p :: p in a[1..] ==> p in a;
      assert forall p :: p in b[1..] ==> p in b;
      ResultsNoWorse(a[1..], b[1..], phase);
      assert Participates(a[0], phase) == Participates(b[0], phase);
    }
  }

  lemma NoWorseDeclares(a: seq<Probe>, b: seq<Probe>, phase: ProbePhase)
    requires NoWorse(a, b)
    ensures Named(a, phase) == Named(b, phase)
    ensures AllUsable(a, phase) ==> AllUsable(b, phase)
  {
    forall p | p in a && Participates(p, phase) && p.composition != NoComposition
      ensures (p.composition, p.quorum) in Named(b, phase)
    {
      var i :| 0 <= i < |a| && a[i] == p;
      assert b[i] in b;
    }
    forall p | p in b && Participates(p, phase) && p.composition != NoComposition
      ensures (p.composition, p.quorum) in Named(a, phase)
    {
      var i :| 0 <= i < |b| && b[i] == p;
      assert a[i] in a;
    }
    if AllUsable(a, phase) {
      forall p | p in b ensures Usable(p, phase) {
        var i :| 0 <= i < |b| && b[i] == p;
        assert a[i] in a;
      }
    }
  }

  // A failure turned into a success never turns a pass into a fail.
  lemma GateIsMonotone(composition: Composition, quorum: int32, a: seq<Probe>, b: seq<Probe>, phase: ProbePhase)
    requires NoWorse(a, b) && Passes(composition, quorum, a, phase)
    ensures Passes(composition, quorum, b, phase)
  {
    NoWorseDeclares(a, b, phase);
    ResultsNoWorse(a, b, phase);
    if Results(a, phase) != [] {
      var pair :| InForce(composition, quorum, Named(a, phase), pair) && Holds(pair.0, pair.1, Results(a, phase));
      assert Holds(pair.0, pair.1, Results(b, phase));
    }
  }

  // ---- what a passing gate means ----

  // Each gate asks the probes of its own phase and the continuous ones. Of those, the ones with this result.
  function Votes(probes: seq<Probe>, phase: ProbePhase, result: bool): set<int> {
    set i | 0 <= i < |probes| && (probes[i].phase == phase || probes[i].phase == Continuous)
            && probes[i].result == Some(result)
  }

  // Every probe can be loaded, and every probe asked has a result.
  predicate Answered(probes: seq<Probe>, phase: ProbePhase) {
    forall p :: p in probes ==>
      p.loaded && (p.phase == phase || p.phase == Continuous ==> p.resolved && p.result.Some?)
  }

  predicate NobodyAsked(probes: seq<Probe>, phase: ProbePhase) {
    forall p :: p in probes ==> p.phase != phase && p.phase != Continuous
  }

  lemma VotesSnoc(probes: seq<Probe>, p: Probe, phase: ProbePhase, result: bool)
    ensures |Votes(probes + [p], phase, result)| ==
            |Votes(probes, phase, result)| +
            if (p.phase == phase || p.phase == Continuous) && p.result == Some(result) then 1 else 0
  {
    var all, before := Votes(probes + [p], phase, result), Votes(probes, phase, result);
    var asked := (p.phase == phase || p.phase == Continuous) && p.result == Some(result);
    forall i ensures i in all <==> i in before || (i == |probes| && asked) {
      if 0 <= i < |probes| { assert (probes + [p])[i] == probes[i]; }
    }
    hide Votes;
    assert all == before + if asked then {|probes|} else {};
    assert |probes| !in before by { VotesAreIndices(probes, phase, result); }
  }

  lemma VotesAreIndices(probes: seq<Probe>, phase: ProbePhase, result: bool)
    ensures forall i :: i in Votes(probes, phase, result) ==> 0 <= i < |probes|
  {
  }

  lemma {:induction false} ResultsAreVotes(probes: seq<Probe>, phase: ProbePhase)
    requires AllUsable(probes, phase)
    ensures multiset(Results(probes, phase))[true] == |Votes(probes, phase, true)|
    ensures multiset(Results(probes, phase))[false] == |Votes(probes, phase, false)|
    decreases |probes|
  {
    if probes == [] {
      assert Votes(probes, phase, true) == {} && Votes(probes, phase, false) == {};
    } else {
      var before, p := probes[..|probes| - 1], probes[|probes| - 1];
      assert probes == before + [p] && p in probes && forall q :: q in before ==> q in probes;
      ResultsAreVotes(before, phase);
      ResultsSnoc(before, p, phase);
      VotesSnoc(before, p, phase, true);
      VotesSnoc(before, p, phase, false);
      hide Results, Votes;
    }
  }

  lemma NoVotesIff(probes: seq<Probe>, phase: ProbePhase, result: bool)
    ensures |Votes(probes, phase, result)| == 0 <==>
            forall p :: p in probes && (p.phase == phase || p.phase == Continuous) ==> p.result != Some(result)
  {
    var votes := Votes(probes, phase, result);
    if |votes| == 0 {
      forall p | p in probes && (p.phase == phase || p.phase == Continuous) ensures p.result != Some(result) {
        var i :| 0 <= i < |probes| && probes[i] == p;
        assert i !in votes;
      }
    } else {
      var i :| i in votes;
      assert probes[i] in probes;
    }
  }

  lemma NoResultsIff(probes: seq<Probe>, phase: ProbePhase)
    requires AllUsable(probes, phase)
    ensures Results(probes, phase) == [] <==> NobodyAsked(probes, phase)
  {
    ResultsAreVotes(probes, phase);
    TrueAndFalse(Results(probes, phase));
    NoVotesIff(probes, phase, true);
    NoVotesIff(probes, phase, false);
    hide Results, Votes;
    assert forall p :: p in probes ==> Usable(p, phase);
  }

  // A composition of the spec's own, or that of the probes, settled for all of them.
  lemma RuleMeans(composition: Composition, quorum: int32, probes: seq<Probe>, phase: ProbePhase)
    requires AllUsable(probes, phase)
    ensures false in Results(probes, phase) <==> |Votes(probes, phase, false)| != 0
    ensures true in Results(probes, phase) <==> |Votes(probes, phase, true)| != 0
    ensures Holds(Quorum, quorum, Results(probes, phase)) <==> |Votes(probes, phase, true)| >= quorum as int
  {
    ResultsAreVotes(probes, phase);
    assert forall b :: b in Results(probes, phase) <==> b in multiset(Results(probes, phase));
    hide Results, Votes;
  }

  lemma NobodyDissents(quorum: int32, probes: seq<Probe>, phase: ProbePhase)
    ensures Passes(All, quorum, probes, phase) <==> Answered(probes, phase) && |Votes(probes, phase, false)| == 0
  {
    hide Results, Votes, Named;
    NoVotesIff(probes, phase, false);
    if AllUsable(probes, phase) {
      NoResultsIff(probes, phase);
      RuleMeans(All, quorum, probes, phase);
      assert InForce(All, quorum, Named(probes, phase), (All, quorum));
      assert forall p :: p in probes ==> Usable(p, phase);
    } else {
      assert !Answered(probes, phase);
    }
  }

  // The spec asks for all: every probe asked must succeed.
  lemma AllMeans(quorum: int32, probes: seq<Probe>, phase: ProbePhase)
    ensures Passes(All, quorum, probes, phase) <==>
            forall p :: p in probes ==>
              p.loaded && (p.phase == phase || p.phase == Continuous ==> p.resolved && p.result == Some(true))
  {
    hide Results, Votes, Named, Passes;
    NobodyDissents(quorum, probes, phase);
    NoVotesIff(probes, phase, false);
    forall p | p in probes && p.result.Some? ensures p.result == Some(true) || p.result == Some(false) {
      assert p.result.value || !p.result.value;
    }
  }

  // The spec asks for any: one success among the probes asked is enough, and so is nobody to ask.
  lemma AnyMeans(quorum: int32, probes: seq<Probe>, phase: ProbePhase)
    ensures Passes(Any, quorum, probes, phase) <==>
            Answered(probes, phase) &&
            (NobodyAsked(probes, phase) ||
             exists p :: p in probes && (p.phase == phase || p.phase == Continuous) && p.result == Some(true))
  {
    hide Results, Votes, Named;
    if AllUsable(probes, phase) {
      NoResultsIff(probes, phase);
      RuleMeans(Any, quorum, probes, phase);
      NoVotesIff(probes, phase, true);
      assert InForce(Any, quorum, Named(probes, phase), (Any, quorum));
      assert forall p :: p in probes ==> Usable(p, phase);
    } else {
      assert !Answered(probes, phase);
    }
  }

  // The spec asks for a quorum: that many of the probes asked must succeed.
  lemma QuorumMeans(quorum: int32, probes: seq<Probe>, phase: ProbePhase)
    ensures Passes(Quorum, quorum, probes, phase) <==>
            Answered(probes, phase) && (NobodyAsked(probes, phase) || |Votes(probes, phase, true)| >= quorum as int)
  {
    hide Results, Votes, Named;
    if AllUsable(probes, phase) {
      NoResultsIff(probes, phase);
      RuleMeans(Quorum, quorum, probes, phase);
      assert InForce(Quorum, quorum, Named(probes, phase), (Quorum, quorum));
      assert forall p :: p in probes ==> Usable(p, phase);
    } else {
      assert !Answered(probes, phase);
    }
  }

  predicate AllName(composition: Composition, quorum: int32, probes: seq<Probe>, phase: ProbePhase) {
    forall q :: q in probes && (q.phase == phase || q.phase == Continuous) && q.composition != NoComposition ==>
      q.composition == composition && q.quorum == quorum
  }

  // The spec leaves it to the probes: those asked that name a composition must agree, and the gate is as if the
  // spec had asked for theirs, or for all if none is named.
  lemma NamedMeans(quorum: int32, probes: seq<Probe>, phase: ProbePhase)
    ensures (forall p :: p in probes && (p.phase == phase || p.phase == Continuous) ==>
               p.composition == NoComposition) ==>
              (Passes(NoComposition, quorum, probes, phase) <==> Passes(All, quorum, probes, phase))
    ensures forall p :: p in probes && (p.phase == phase || p.phase == Continuous) && p.composition != NoComposition ==>
              (Passes(NoComposition, quorum, probes, phase) <==>
               && Passes(p.composition, p.quorum, probes, phase)
               && AllName(p.composition, p.quorum, probes, phase))
  {
    hide Results, Holds;
    var named := Named(probes, phase);
    assert InForce(NoComposition, quorum, {}, (All, quorum)) && InForce(All, quorum, named, (All, quorum));
    forall p | p in probes && (p.phase == phase || p.phase == Continuous) && p.composition != NoComposition
      ensures Passes(NoComposition, quorum, probes, phase) <==>
              && Passes(p.composition, p.quorum, probes, phase)
              && AllName(p.composition, p.quorum, probes, phase)
    {
      NamedByOne(quorum, probes, p, phase);
    }
  }

  lemma NamedByOne(quorum: int32, probes: seq<Probe>, p: Probe, phase: ProbePhase)
    requires p in probes && (p.phase == phase || p.phase == Continuous) && p.composition != NoComposition
    ensures Passes(NoComposition, quorum, probes, phase) <==>
            && Passes(p.composition, p.quorum, probes, phase)
            && AllName(p.composition, p.quorum, probes, phase)
  {
    hide Results, Holds;
    var named, pair := Named(probes, phase), (p.composition, p.quorum);
    assert Participates(p, phase) && pair in named;
    assert InForce(p.composition, p.quorum, named, pair) && InForce(NoComposition, quorum, named, pair);
    assert forall q :: q in probes && Participates(q, phase) && q.composition != NoComposition ==>
             (q.composition, q.quorum) in named;
  }

  // A loaded probe of the other phase has no say.
  lemma OtherPhaseHasNoSay(composition: Composition, quorum: int32, probes: seq<Probe>, p: Probe, phase: ProbePhase)
    requires p.loaded && p.phase != phase && p.phase != Continuous
    ensures Passes(composition, quorum, probes + [p], phase) <==> Passes(composition, quorum, probes, phase)
  {
    hide Results, Holds;
    assert p in probes + [p] && forall q :: q in probes + [p] <==> q in probes || q == p;
    NamedSnoc(probes, p, phase);
    if AllUsable(probes, phase) {
      ResultsSnoc(probes, p, phase);
      assert Results(probes, phase) + [] == Results(probes, phase);
      assert Named(probes + [p], phase) == Named(probes, phase);
    } else {
      assert !AllUsable(probes + [p], phase);
    }
  }

  // A conflict is two probes asked that name different compositions, while the spec names none.
  lemma ConflictMeans(composition: Composition, probes: seq<Probe>, phase: ProbePhase)
    ensures Conflicting(composition, probes, phase) <==>
            composition == NoComposition &&
            exists p, q ::
              && p in probes && (p.phase == phase || p.phase == Continuous) && p.composition != NoComposition
              && q in probes && (q.phase == phase || q.phase == Continuous) && q.composition != NoComposition
              && (p.composition, p.quorum) != (q.composition, q.quorum)
  {
    var named := Named(probes, phase);
    assert forall p :: p in probes && Participates(p, phase) && p.composition != NoComposition ==>
             (p.composition, p.quorum) in named;
    if Conflicting(composition, probes, phase) {
      var x, y :| x in named && y in named && x != y;
      var p :| && p in probes && Participates(p, phase) && p.composition != NoComposition
               && x == (p.composition, p.quorum);
      var q :| && q in probes && Participates(q, phase) && q.composition != NoComposition
               && y == (q.composition, q.quorum);
      assert (p.composition, p.quorum) != (q.composition, q.quorum);
    }
  }
}
