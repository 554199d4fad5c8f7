/** internal/controller/nodeinterface_controller.go: the per-node agent that assigns, removes and reports. */
module NodeInterface {

  // What the agents change: the reported owners and the nodes whose interface holds the address.
  datatype Local = Local(owners: seq<string>, holders: set<string>)

  function Without(nodes: seq<string>, name: string): seq<string> {
    if nodes == [] then []
    else if nodes[0] == name then Without(nodes[1..], name)
    else [nodes[0]] + Without(nodes[1..], name)
  }

  // One agent run on node `name`; with `crash` it stops after changing the interface.
  function AgentRun(name: string, source: string, target: string, l: Local, crash: bool): Local {
    if name == target || name == source then
      Local(if crash || name in l.owners then l.owners else l.owners + [name], l.holders + {name})
    else if name in l.holders then
      Local(if crash then l.owners else Without(l.owners, name), l.holders - {name})
    else l
  }

  lemma {:induction false} WithoutMembers(nodes: seq<string>, name: string)
    ensures forall n :: n in Without(nodes, name) <==> n in nodes && n != name
  {
    if nodes != [] {
      WithoutMembers(nodes[1..], name);
      assert nodes == [nodes[0]] + nodes[1..];
    }
  }

  // What a run of one agent can do to anyone: only its own entry and its own interface change.
  lemma AgentTouchesOnlyItself(name: string, source: string, target: string, l: Local, crash: bool)
    ensures var r := AgentRun(name, source, target, l, crash);
            forall n :: n != name ==> (n in r.owners <==> n in l.owners) && (n in r.holders <==> n in l.holders)
    ensures var r := AgentRun(name, source, target, l, crash);
            && (name == source || name == target ==> name in r.holders && (name in l.owners ==> name in r.owners))
            && (name != source && name != target ==> name !in r.holders && (name in r.owners ==> name in l.owners))
  {
    WithoutMembers(l.owners, name);
  }

  // ---- the agent of the source ----

  lemma {:induction false} WithoutSnoc(nodes: seq<string>, last: string, name: string)
    ensures Without(nodes + [last], name) == Without(nodes, name) + if last == name then [] else [last]
  {
    if nodes == [] {
      assert [last][1..] == [];
    } else {
      assert (nodes + [last])[1..] == nodes[1..] + [last];
      WithoutSnoc(nodes[1..], last, name);
    }
  }

  // Filters in place: the first n elements are the result, in order.
  method RemoveNode(nodes: array<string>, name: string) returns (n: nat)
    modifies nodes
    ensures n <= nodes.Length && nodes[..n] == Without(old(nodes[..]), name)
  {
    n := 0;
    ghost var was := nodes[..];
    for i := 0 to nodes.Length
      invariant n <= i && nodes[i..] == was[i..] && nodes[..n] == Without(was[..i], name)
    {
      assert nodes[i] == was[i] && was[..i + 1] == was[..i] + [was[i]];
      WithoutSnoc(was[..i], was[i], name);
      if nodes[i] != name {
        nodes[n] := nodes[i];
        n := n + 1;
      }
      assert nodes[i + 1..] == was[i + 1..];
    }
    assert was[..nodes.Length] == was;
  }

  // The stored list of owners and the interfaces of all nodes, as one agent run reads and writes them.
  class LocalState {
    var owners: seq<string>
    var holders: set<string>

    constructor (l: Local)
      ensures View() == l
    {
      owners, holders := l.owners, l.holders;
    }

    ghost function View(): Local
      reads this
    {
      Local(owners, holders)
    }

    method EnsureIPAssigned(name: string)
      modifies `holders
      ensures holders == old(holders) + {name}
    {
      if name in holders { return; }
      holders := holders + {name};
    }

    method EnsureIPRemoved(name: string) returns (removed: bool)
      modifies `holders
      ensures holders == old(holders) - {name} && removed == (name in old(holders))
    {
      removed := name in holders;
      if removed { holders := holders - {name}; }
    }

    // `crash` ends the run between the change of the interface and its report.
    method Reconcile(name: string, source: string, target: string, crash: bool)
      modifies this
      ensures View() == AgentRun(name, source, target, old(View()), crash)
    {
      if name == target || name == source {
        EnsureIPAssigned(name);
        if crash { return; }
        if name !in owners { owners := owners + [name]; }
        return;
      }
      var removed := EnsureIPRemoved(name);
      if removed && !crash && name in owners {
        var nodes := new string[|owners|](i requires 0 <= i < |owners| reads this => owners[i]);
        assert nodes[..] == owners;
        var n := RemoveNode(nodes, name);
        owners := nodes[..n];
      } else if removed && !crash {
        NothingToRemove(owners, name);
      }
    }
  }

  lemma {:induction false} NothingToRemove(nodes: seq<string>, name: string)
    requires name !in nodes
    ensures Without(nodes, name) == nodes
  {
    if nodes != [] {
      NothingToRemove(nodes[1..], name);
      assert nodes == [nodes[0]] + nodes[1..];
    }
  }
}
