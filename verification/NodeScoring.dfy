/** internal/controller/node_scoring.go: ranking annotated nodes by health. */
module NodeScoring {
  import opened Prelude

  datatype ConditionType = NetworkUnavailable | Ready | PIDPressure | MemoryPressure | DiskPressure | OtherCondition
  datatype ConditionStatus = IsTrue | IsFalse | IsUnknown
  datatype Condition = Condition(kind: ConditionType, status: ConditionStatus)

  // The server-id annotation: absent, not a number, or a canonical decimal.
  datatype ServerAnnotation = Missing | Malformed | Id(server: int)

  datatype Node = Node(
    name: string,
    unschedulable: bool,
    hasMac: bool,
    annotation: ServerAnnotation,
    conditions: seq<Condition>)

  datatype Score = Score(
    networkUnavailable: bool,
    readyFalse: bool,
    readyUnknown: bool,
    unschedulable: bool,
    pidPressure: bool,
    memoryPressure: bool,
    diskPressure: bool,
    name: string)

  // Go's string order.
  predicate Less(a: string, b: string) {
    if b == "" then false
    else if a == "" then true
    else a[0] < b[0] || (a[0] == b[0] && Less(a[1..], b[1..]))
  }

  predicate WorseThan(s: Score, other: Score) {
    if s.networkUnavailable != other.networkUnavailable then s.networkUnavailable
    else if s.readyFalse != other.readyFalse then s.readyFalse
    else if s.readyUnknown != other.readyUnknown then s.readyUnknown
    else if s.unschedulable != other.unschedulable then s.unschedulable
    else if s.pidPressure != other.pidPressure then s.pidPressure
    else if s.memoryPressure != other.memoryPressure then s.memoryPressure
    else if s.diskPressure != other.diskPressure then s.diskPressure
    else Less(other.name, s.name)
  }

  predicate SameIssues(s: Score, other: Score) {
    s.(name := "") == other.(name := "")
  }

  predicate NoIssues(s: Score) {
    s == Score(false, false, false, false, false, false, false, s.name)
  }

  // The status of the first condition of the given kind decides.
  predicate ConditionIs(conditions: seq<Condition>, kind: ConditionType, status: ConditionStatus) {
    conditions != [] &&
    if conditions[0].kind == kind then conditions[0].status == status
    else ConditionIs(conditions[1..], kind, status)
  }

  function ScoreNode(n: Node): Score {
    Score(
      ConditionIs(n.conditions, NetworkUnavailable, IsTrue),
      ConditionIs(n.conditions, Ready, IsFalse),
      ConditionIs(n.conditions, Ready, IsUnknown),
      n.unschedulable,
      ConditionIs(n.conditions, PIDPressure, IsTrue),
      ConditionIs(n.conditions, MemoryPressure, IsTrue),
      ConditionIs(n.conditions, DiskPressure, IsTrue),
      n.name)
  }

  predicate Acceptable(n: Node) {
    && !n.unschedulable
    && !ConditionIs(n.conditions, NetworkUnavailable, IsTrue)
    && !ConditionIs(n.conditions, PIDPressure, IsTrue)
    && !ConditionIs(n.conditions, MemoryPressure, IsTrue)
    && !ConditionIs(n.conditions, DiskPressure, IsTrue)
    && ConditionIs(n.conditions, Ready, IsTrue)
  }

  predicate IsCandidate(n: Node) {
    n.hasMac && n.annotation != Missing
  }

  function Candidates(nodes: seq<Node>): seq<Node> {
    if nodes == [] then []
    else if IsCandidate(nodes[0]) then [nodes[0]] + Candidates(nodes[1..])
    else Candidates(nodes[1..])
  }

  function FindNode(nodes: seq<Node>, name: string): (r: Option<Node>)
    ensures r.Some? ==> r.value in nodes && r.value.name == name
    ensures r.None? ==> forall n :: n in nodes ==> n.name != name
  {
    if nodes == [] then None
    else if nodes[0].name == name then Some(nodes[0])
    else FindNode(nodes[1..], name)
  }

  function ServerOf(nodes: seq<Node>, name: string): Option<int> {
    match FindNode(nodes, name)
    case Some(n) => if n.annotation.Id? then Some(n.annotation.server) else None
    case None => None
  }

  function NodeForServer(nodes: seq<Node>, server: int): (r: Option<Node>)
    ensures r.Some? ==> r.value in nodes && r.value.annotation == Id(server)
    ensures r.None? ==> forall n :: n in nodes ==> n.annotation != Id(server)
  {
    if nodes == [] then None
    else if nodes[0].annotation == Id(server) then Some(nodes[0])
    else NodeForServer(nodes[1..], server)
  }

  predicate DistinctNames(nodes: seq<Node>) {
    forall i, j :: 0 <= i < j < |nodes| ==> nodes[i].name != nodes[j].name
  }

  // The healthiest of `best` and the remaining nodes, in list order.
  function BestFrom(best: Node, rest: seq<Node>): (r: Node)
    ensures r == best || r in rest
    decreases |rest|
  {
    if rest == [] then best
    else if WorseThan(ScoreNode(rest[0]), ScoreNode(best)) then BestFrom(best, rest[1..])
    else if WorseThan(ScoreNode(best), ScoreNode(rest[0])) then BestFrom(rest[0], rest[1..])
    else BestFrom(best, rest[1..])
  }

  function Better(nodes: seq<Node>, current: string): (r: Option<Node>)
    ensures r.Some? ==> r.value in nodes
  {
    if nodes == [] then None
    else
      var best := BestFrom(nodes[0], nodes[1..]);
      if current == "" then Some(best)
      else match FindNode(nodes, current)
        case Some(n) => if SameIssues(ScoreNode(best), ScoreNode(n)) then None else Some(best)
        case None => Some(best)
  }

  // ---- the strict total order behind worseThan ----

  lemma {:induction false} LessIrreflexive(a: string)
    ensures !Less(a, a)
  {
    if a != "" { LessIrreflexive(a[1..]); }
  }

  lemma {:induction false} LessTransitive(a: string, b: string, c: string)
    requires Less(a, b) && Less(b, c)
    ensures Less(a, c)
  {
    if a != "" && a[0] == b[0] && b[0] == c[0] { LessTransitive(a[1..], b[1..], c[1..]); }
  }

  lemma {:induction false} LessTotal(a: string, b: string)
    ensures a == b || Less(a, b) || Less(b, a)
  {
    if a != "" && b != "" && a[0] == b[0] {
      LessTotal(a[1..], b[1..]);
      assert a == [a[0]] + a[1..] && b == [b[0]] + b[1..];
    }
  }

  lemma WorseThanIsStrictOrder(a: Score, b: Score, c: Score)
    ensures !WorseThan(a, a)
    ensures WorseThan(a, b) && WorseThan(b, c) ==> WorseThan(a, c)
    ensures a.name != b.name ==> WorseThan(a, b) || WorseThan(b, a)
    ensures !(WorseThan(a, b) && WorseThan(b, a))
  {
    LessIrreflexive(a.name);
    LessTotal(a.name, b.name);
    if Less(b.name, a.name) && Less(c.name, b.name) { LessTransitive(c.name, b.name, a.name); }
    if Less(b.name, a.name) && Less(a.name, b.name) { LessTransitive(a.name, b.name, a.name); }
  }

  // `best` is not worse than any node of the list.
  predicate IsMinimum(best: Node, nodes: seq<Node>) {
    best in nodes && forall n :: n in nodes && n != best ==> WorseThan(ScoreNode(n), ScoreNode(best))
  }

  lemma {:induction false} BestFromIsMinimum(best: Node, rest: seq<Node>)
    requires DistinctNames([best] + rest)
    ensures IsMinimum(BestFrom(best, rest), [best] + rest)
    decreases |rest|
  {
    hide WorseThan, ConditionIs;
    if rest != [] {
      var n := rest[0];
      assert forall i :: 0 <= i < |rest| ==> ([best] + rest)[i + 1] == rest[i];
      var winner := if WorseThan(ScoreNode(n), ScoreNode(best)) then best else n;
      var loser := if winner == best then n else best;
      WorseThanIsStrictOrder(ScoreNode(n), ScoreNode(best), ScoreNode(best));
      assert ([best] + rest)[0] != ([best] + rest)[1];
      BestFromIsMinimum(winner, rest[1..]);
      var r := BestFrom(winner, rest[1..]);
      WorseThanIsStrictOrder(ScoreNode(loser), ScoreNode(winner), ScoreNode(r));
    }
  }

  lemma BetterIsUniqueMinimum(nodes: seq<Node>, current: string)
    requires DistinctNames(nodes) && Better(nodes, current).Some?
    ensures IsMinimum(Better(nodes, current).value, nodes)
    ensures forall n :: IsMinimum(n, nodes) ==> n == Better(nodes, current).value
    ensures Better(nodes, current).value.name != current || current == ""
  {
    var best := Better(nodes, current).value;
    assert nodes == [nodes[0]] + nodes[1..];
    BestFromIsMinimum(nodes[0], nodes[1..]);
    forall n | IsMinimum(n, nodes) ensures n == best {
      WorseThanIsStrictOrder(ScoreNode(n), ScoreNode(best), ScoreNode(n));
    }
    match FindNode(nodes, current)
    case Some(n) => if best.name == n.name { SameName(nodes, best, n); }
    case None =>
  }

  lemma SameName(nodes: seq<Node>, a: Node, b: Node)
    requires DistinctNames(nodes) && a in nodes && b in nodes && a.name == b.name
    ensures a == b
  {
    var i :| 0 <= i < |nodes| && nodes[i] == a;
    var j :| 0 <= j < |nodes| && nodes[j] == b;
    assert i == j;
  }

  ghost predicate SameNodes(a: seq<Node>, b: seq<Node>) {
    forall n :: n in a <==> n in b
  }

  lemma SameNodesNonempty(a: seq<Node>, b: seq<Node>)
    requires SameNodes(a, b)
    ensures a != [] ==> b != []
  {
    if a != [] { assert a[0] in b; }
  }

  // The answer does not depend on the order of the node list.
  lemma BetterIgnoresOrder(a: seq<Node>, b: seq<Node>, current: string)
    requires DistinctNames(a) && DistinctNames(b) && SameNodes(a, b)
    ensures Better(a, current) == Better(b, current)
  {
    hide WorseThan, ConditionIs;
    SameNodesNonempty(a, b);
    SameNodesNonempty(b, a);
    if a != [] {
      assert a == [a[0]] + a[1..] && b == [b[0]] + b[1..];
      BestFromIsMinimum(a[0], a[1..]);
      BestFromIsMinimum(b[0], b[1..]);
      var x, y := BestFrom(a[0], a[1..]), BestFrom(b[0], b[1..]);
      WorseThanIsStrictOrder(ScoreNode(x), ScoreNode(y), ScoreNode(x));
      if FindNode(a, current).Some? && FindNode(b, current).Some? {
        SameName(b, FindNode(a, current).value, FindNode(b, current).value);
      }
    }
  }

  // Once the answer is adopted as current, asking again changes nothing.
  lemma BetterIsStable(nodes: seq<Node>, current: string)
    requires DistinctNames(nodes) && Better(nodes, current).Some?
    ensures Better(nodes, current).value.name != "" ==> Better(nodes, Better(nodes, current).value.name).None?
  {
    var best := Better(nodes, current).value;
    SameName(nodes, best, FindNode(nodes, best.name).value);
  }

  lemma {:induction false} FirstMatchDecides(conditions: seq<Condition>, kind: ConditionType, a: ConditionStatus,
          b: ConditionStatus)
    requires ConditionIs(conditions, kind, a) && ConditionIs(conditions, kind, b)
    ensures a == b
  {
    if conditions[0].kind != kind { FirstMatchDecides(conditions[1..], kind, a, b); }
  }

  lemma AcceptableHasNoIssues(n: Node)
    requires Acceptable(n)
    ensures NoIssues(ScoreNode(n))
  {
    if ConditionIs(n.conditions, Ready, IsFalse) { FirstMatchDecides(n.conditions, Ready, IsTrue, IsFalse); }
    if ConditionIs(n.conditions, Ready, IsUnknown) { FirstMatchDecides(n.conditions, Ready, IsTrue, IsUnknown); }
  }

  // What a handoff may do: move to a node without issues, away from a node that is absent, is not a
  // candidate, or has an issue.
  predicate JustifiedMove(nodes: seq<Node>, from: string, to: string) {
    && (exists n :: n in Candidates(nodes) && n.name == to && NoIssues(ScoreNode(n)))
    && (from != "" ==> forall n :: n in Candidates(nodes) && n.name == from ==> !NoIssues(ScoreNode(n)))
  }

  lemma {:induction false} CandidatesAre(nodes: seq<Node>)
    ensures forall n :: n in Candidates(nodes) <==> n in nodes && n.hasMac && n.annotation != Missing
  {
    if nodes != [] {
      CandidatesAre(nodes[1..]);
      assert nodes == [nodes[0]] + nodes[1..];
    }
  }

  lemma {:induction false} CandidatesDistinct(nodes: seq<Node>)
    requires DistinctNames(nodes)
    ensures DistinctNames(Candidates(nodes))
  {
    if nodes != [] {
      CandidatesDistinct(nodes[1..]);
      CandidatesAre(nodes[1..]);
      if IsCandidate(nodes[0]) {
        var tail := Candidates(nodes[1..]);
        forall j | 0 <= j < |tail| ensures tail[j].name != nodes[0].name {
          assert tail[j] in nodes[1..];
          var k :| 0 <= k < |nodes[1..]| && nodes[1..][k] == tail[j];
          assert nodes[k + 1] == tail[j];
        }
      }
    }
  }

  lemma AcceptableBetterIsJustified(nodes: seq<Node>, current: string)
    requires DistinctNames(nodes)
    requires Better(Candidates(nodes), current).Some? && Acceptable(Better(Candidates(nodes), current).value)
    ensures JustifiedMove(nodes, current, Better(Candidates(nodes), current).value.name)
  {
    var c := Candidates(nodes);
    var best := Better(c, current).value;
    AcceptableHasNoIssues(best);
    CandidatesDistinct(nodes);
    forall n | n in c && n.name == current && current != "" ensures !NoIssues(ScoreNode(n)) {
      SameName(c, n, FindNode(c, current).value);
    }
  }

  // ---- the ranking on its own terms ----

  // The first condition of this kind has this status.
  ghost predicate FirstIs(n: Node, kind: ConditionType, status: ConditionStatus) {
    exists i ::
      0 <= i < |n.conditions| && n.conditions[i] == Condition(kind, status) && NoneBefore(n.conditions, i, kind)
  }

  predicate NoneBefore(conditions: seq<Condition>, i: nat, kind: ConditionType)
    requires i <= |conditions|
  {
    forall j :: 0 <= j < i ==> conditions[j].kind != kind
  }

  lemma {:induction false} FirstConditionDecides(
    conditions: seq<Condition>, kind: ConditionType, status: ConditionStatus, i: nat)
    requires i <= |conditions| && NoneBefore(conditions, i, kind)
    requires i < |conditions| ==> conditions[i].kind == kind
    ensures ConditionIs(conditions, kind, status) <==> i < |conditions| && conditions[i].status == status
  {
    if i > 0 {
      assert forall j :: 0 <= j < i - 1 ==> conditions[1..][j] == conditions[j + 1];
      FirstConditionDecides(conditions[1..], kind, status, i - 1);
    }
  }

  lemma {:induction false} SomeFirst(conditions: seq<Condition>, kind: ConditionType) returns (i: nat)
    ensures i <= |conditions| && NoneBefore(conditions, i, kind) && (i < |conditions| ==> conditions[i].kind == kind)
  {
    i := 0;
    while i < |conditions| && conditions[i].kind != kind
      invariant i <= |conditions| && NoneBefore(conditions, i, kind)
    {
      i := i + 1;
    }
  }

  lemma ConditionIsFirst(n: Node, kind: ConditionType, status: ConditionStatus)
    ensures ConditionIs(n.conditions, kind, status) <==> FirstIs(n, kind, status)
  {
    var i := SomeFirst(n.conditions, kind);
    FirstConditionDecides(n.conditions, kind, status, i);
    assert i < |n.conditions| && n.conditions[i].status == status ==> n.conditions[i] == Condition(kind, status);
    if FirstIs(n, kind, status) {
      var k :| && 0 <= k < |n.conditions| && n.conditions[k] == Condition(kind, status)
               && NoneBefore(n.conditions, k, kind);
      FirstConditionDecides(n.conditions, kind, status, k);
    }
  }

  // The issues from worst to least, as binary digits.
  ghost function Severity(n: Node): nat {
    (if FirstIs(n, NetworkUnavailable, IsTrue) then 64 else 0) +
    (if FirstIs(n, Ready, IsFalse) then 32 else 0) +
    (if FirstIs(n, Ready, IsUnknown) then 16 else 0) +
    (if n.unschedulable then 8 else 0) +
    (if FirstIs(n, PIDPressure, IsTrue) then 4 else 0) +
    (if FirstIs(n, MemoryPressure, IsTrue) then 2 else 0) +
    (if FirstIs(n, DiskPressure, IsTrue) then 1 else 0)
  }

  // Severity as the score has it.
  function Weight(s: Score): nat {
    (if s.networkUnavailable then 64 else 0) + (if s.readyFalse then 32 else 0) + (if s.readyUnknown then 16 else 0) +
    (if s.unschedulable then 8 else 0) + (if s.pidPressure then 4 else 0) + (if s.memoryPressure then 2 else 0) +
    (if s.diskPressure then 1 else 0)
  }

  lemma ScoreIsSevere(n: Node)
    ensures Weight(ScoreNode(n)) == Severity(n) && ScoreNode(n).name == n.name
    ensures Acceptable(n) <==> Severity(n) == 0 && FirstIs(n, Ready, IsTrue)
  {
    ConditionIsFirst(n, NetworkUnavailable, IsTrue);
    ConditionIsFirst(n, Ready, IsTrue);
    ConditionIsFirst(n, Ready, IsFalse);
    ConditionIsFirst(n, Ready, IsUnknown);
    ConditionIsFirst(n, PIDPressure, IsTrue);
    ConditionIsFirst(n, MemoryPressure, IsTrue);
    ConditionIsFirst(n, DiskPressure, IsTrue);
    if Acceptable(n) { AcceptableHasNoIssues(n); }
    hide FirstIs, ConditionIs;
  }

  lemma WorseIsHeavier(s: Score, t: Score)
    ensures WorseThan(s, t) <==> Weight(s) > Weight(t) || (Weight(s) == Weight(t) && Less(t.name, s.name))
    ensures SameIssues(s, t) <==> Weight(s) == Weight(t)
  {
    hide Less;
  }

  // Go's string order: at the first difference the smaller byte, or the end, comes first.
  lemma {:induction false} LessIs(a: string, b: string)
    ensures Less(a, b) <==> exists k: nat :: k <= |a| && k < |b| && a[..k] == b[..k] && (k == |a| || a[k] < b[k])
  {
    if b == "" {
    } else if a == "" {
      assert a[..0] == b[..0];
    } else if a[0] == b[0] {
      LessIs(a[1..], b[1..]);
      if Less(a, b) {
        var k: nat :| && k <= |a[1..]| && k < |b[1..]| && a[1..][..k] == b[1..][..k]
                      && (k == |a[1..]| || a[1..][k] < b[1..][k]);
        assert a[..k + 1] == [a[0]] + a[1..][..k] && b[..k + 1] == [b[0]] + b[1..][..k];
      }
      if k: nat :| k <= |a| && k < |b| && a[..k] == b[..k] && (k == |a| || a[k] < b[k]) {
        assert a[1..][..k - 1] == a[..k][1..] && b[1..][..k - 1] == b[..k][1..];
      }
    } else {
      assert a[..0] == b[..0];
      assert forall k: nat :: 0 < k <= |a| && k < |b| && a[..k] == b[..k] ==> a[..k][0] == b[..k][0];
    }
  }

  // An answer is the least severe node, the first by name among equals; and there is none exactly if the list is
  // empty or the current node is in it and as good as any.
  lemma BetterIsLeastSevere(nodes: seq<Node>, current: string)
    requires DistinctNames(nodes)
    ensures Better(nodes, current).None? <==>
            || nodes == []
            || (&& current != ""
                && exists n :: n in nodes && n.name == current && forall m :: m in nodes ==> Severity(n) <= Severity(m))
    ensures Better(nodes, current).Some? ==>
              var r := Better(nodes, current).value;
              r in nodes && forall n :: n in nodes && n != r ==>
                Severity(r) < Severity(n) || (Severity(r) == Severity(n) && Less(r.name, n.name))
  {
    hide WorseThan, ConditionIs, Severity, Weight, Less, ScoreNode, SameIssues;
    if nodes != [] {
      assert nodes == [nodes[0]] + nodes[1..];
      BestFromIsMinimum(nodes[0], nodes[1..]);
      var best := BestFrom(nodes[0], nodes[1..]);
      forall n | n in nodes
        ensures n != best ==> Severity(best) < Severity(n) || (Severity(best) == Severity(n) && Less(best.name, n.name))
        ensures SameIssues(ScoreNode(best), ScoreNode(n)) <==> Severity(best) == Severity(n)
      {
        ScoreIsSevere(n);
        ScoreIsSevere(best);
        WorseIsHeavier(ScoreNode(n), ScoreNode(best));
        WorseIsHeavier(ScoreNode(best), ScoreNode(n));
      }
      forall n | n in nodes && n.name == current ensures FindNode(nodes, current) == Some(n) {
        SameName(nodes, n, FindNode(nodes, current).value);
      }
    }
  }

  // ---- the loops of the source ----

  method FilterCandidates(nodes: seq<Node>) returns (out: seq<Node>)
    ensures out == Candidates(nodes)
  {
    out := [];
    for i := 0 to |nodes|
      invariant out + Candidates(nodes[i..]) == Candidates(nodes)
    {
      assert nodes[i..][1..] == nodes[i + 1..];
      if IsCandidate(nodes[i]) {
        assert out + ([nodes[i]] + Candidates(nodes[i + 1..])) == out + [nodes[i]] + Candidates(nodes[i + 1..]);
        out := out + [nodes[i]];
      }
    }
  }

  method NodeForServerID(nodes: seq<Node>, server: int) returns (r: Option<Node>)
    ensures r == NodeForServer(nodes, server)
  {
    for i := 0 to |nodes|
      invariant NodeForServer(nodes[i..], server) == NodeForServer(nodes, server)
    {
      assert nodes[i..][1..] == nodes[i + 1..];
      if nodes[i].annotation == Id(server) { return Some(nodes[i]); }
    }
    return None;
  }

  // A missing or malformed annotation names no server.
  method ServerIDForNode(nodes: seq<Node>, name: string) returns (r: Option<int>)
    ensures r == ServerOf(nodes, name)
  {
    for i := 0 to |nodes|
      invariant FindNode(nodes[i..], name) == FindNode(nodes, name)
    {
      assert nodes[i..][1..] == nodes[i + 1..];
      if nodes[i].name == name {
        return if nodes[i].annotation.Id? then Some(nodes[i].annotation.server) else None;
      }
    }
    return None;
  }

  method BetterNode(nodes: seq<Node>, current: string) returns (r: Option<Node>)
    ensures r == Better(nodes, current)
  {
    if |nodes| == 0 { return None; }
    var best := nodes[0];
    for i := 1 to |nodes|
      invariant BestFrom(best, nodes[i..]) == BestFrom(nodes[0], nodes[1..])
    {
      assert nodes[i..][1..] == nodes[i + 1..];
      if WorseThan(ScoreNode(nodes[i]), ScoreNode(best)) {
      } else if WorseThan(ScoreNode(best), ScoreNode(nodes[i])) {
        best := nodes[i];
      }
    }
    if current == "" { return Some(best); }
    for i := 0 to |nodes|
      invariant FindNode(nodes[i..], current) == FindNode(nodes, current)
    {
      assert nodes[i..][1..] == nodes[i + 1..];
      if nodes[i].name == current {
        if SameIssues(ScoreNode(best), ScoreNode(nodes[i])) { return None; }
        return Some(best);
      }
    }
    return Some(best);
  }
}
