// DeviceTree: which device hangs under which, as a list of nodes in insertion order.
module DeviceTrees {
  import opened Wrappers

  type DeviceId = int

  datatype Node = Node(parent: DeviceId, device: DeviceId)

  function Parent(nodes: seq<Node>, d: DeviceId): (p: Option<DeviceId>)
    ensures p.None? <==> forall i :: 0 <= i < |nodes| ==> nodes[i].device != d
    ensures p.Some? ==> Node(p.value, d) in nodes
  {
    if nodes == [] then None
    else if nodes[0].device == d then Some(nodes[0].parent)
    else Parent(nodes[1..], d)
  }

  function Children(nodes: seq<Node>, p: DeviceId): seq<DeviceId> {
    if nodes == [] then []
    else (if nodes[0].parent == p then [nodes[0].device] else []) + Children(nodes[1..], p)
  }

  predicate UniqueDevices(nodes: seq<Node>) {
    forall i, j :: 0 <= i < j < |nodes| ==> nodes[i].device != nodes[j].device
  }

  // ---- Queries ----

  lemma {:induction false} ChildrenAreNodes(nodes: seq<Node>, p: DeviceId, d: DeviceId)
    ensures d in Children(nodes, p) <==> Node(p, d) in nodes
  {
    if nodes != [] {
      ChildrenAreNodes(nodes[1..], p, d);
      assert nodes == [nodes[0]] + nodes[1..];
    }
  }

  // The two queries agree: one parent each, and under it exactly its children.
  lemma ParentIffChild(nodes: seq<Node>, p: DeviceId, d: DeviceId)
    requires UniqueDevices(nodes)
    ensures Parent(nodes, d) == Some(p) <==> d in Children(nodes, p)
  {
    ChildrenAreNodes(nodes, p, d);
    if Node(p, d) in nodes {
      var i :| 0 <= i < |nodes| && nodes[i] == Node(p, d);
      var q := Parent(nodes, d).value;
      var j :| 0 <= j < |nodes| && nodes[j] == Node(q, d);
      assert i == j;
    }
  }

  lemma {:induction false} ChildrenAppend(a: seq<Node>, b: seq<Node>, p: DeviceId)
    ensures Children(a + b, p) == Children(a, p) + Children(b, p)
  {
    if a == [] {
      assert a + b == b;
    } else {
      var c, rest := a + b, a[1..] + b;
      assert c[0] == a[0] && c[1..] == rest;
      ChildrenAppend(a[1..], b, p);
      var first := if a[0].parent == p then [a[0].device] else [];
      Regroup(first, Children(a[1..], p), Children(b, p));
      assert Children(c, p) == first + Children(rest, p);
    }
  }

  // ---- Updates ----

  function Without(nodes: seq<Node>, p: DeviceId): seq<Node> {
    if nodes == [] then []
    else (if nodes[0].parent == p then [] else [nodes[0]]) + Without(nodes[1..], p)
  }

  lemma {:induction false} WithoutIsFilter(nodes: seq<Node>, p: DeviceId, n: Node)
    ensures n in Without(nodes, p) <==> n in nodes && n.parent != p
  {
    if nodes != [] {
      WithoutIsFilter(nodes[1..], p, n);
      assert nodes == [nodes[0]] + nodes[1..];
    }
  }

  // Removing a parent deletes its direct children and nothing else.
  lemma {:induction false} RemoveChildren(nodes: seq<Node>, p: DeviceId, q: DeviceId)
    ensures Children(Without(nodes, p), q) == if q == p then [] else Children(nodes, q)
  {
    if nodes != [] {
      var first := if nodes[0].parent == p then [] else [nodes[0]];
      RemoveChildren(nodes[1..], p, q);
      ChildrenAppend(first, Without(nodes[1..], p), q);
    }
  }

  lemma {:induction false} RemoveKeepsUnique(nodes: seq<Node>, p: DeviceId)
    requires UniqueDevices(nodes)
    ensures UniqueDevices(Without(nodes, p))
  {
    if nodes != [] {
      assert UniqueDevices(nodes[1..]);
      RemoveKeepsUnique(nodes[1..], p);
      var rest := Without(nodes[1..], p);
      forall i | 0 <= i < |rest|
        ensures rest[i].device != nodes[0].device
      {
        assert rest[i] in rest;
        WithoutIsFilter(nodes[1..], p, rest[i]);
      }
    }
  }

  // A refused or repeated add changes nothing; any other appends the child to its parent's list.
  function Added(nodes: seq<Node>, p: DeviceId, d: DeviceId): seq<Node> {
    if Parent(nodes, d).Some? then nodes else nodes + [Node(p, d)]
  }

  lemma AddEffect(nodes: seq<Node>, p: DeviceId, d: DeviceId, q: DeviceId)
    requires UniqueDevices(nodes)
    ensures UniqueDevices(Added(nodes, p, d))
    ensures Children(Added(nodes, p, d), q) ==
      Children(nodes, q) + if Parent(nodes, d).None? && p == q then [d] else []
  {
    ChildrenAppend(nodes, [Node(p, d)], q);
    assert Children([Node(p, d)], q) == if p == q then [d] else [];
  }

  lemma {:induction false} ParentAppend(a: seq<Node>, b: seq<Node>, d: DeviceId)
    ensures Parent(a + b, d) == if Parent(a, d).Some? then Parent(a, d) else Parent(b, d)
  {
    if a == [] {
      assert a + b == b;
    } else {
      ParentAppend(a[1..], b, d);
      assert (a + b)[0] == a[0] && (a + b)[1..] == a[1..] + b;
    }
  }

  function Dropped(nodes: seq<Node>, i: nat): seq<Node>
    requires i < |nodes|
  {
    nodes[..i] + nodes[i + 1..]
  }

  lemma DropKeepsUnique(nodes: seq<Node>, i: nat)
    requires UniqueDevices(nodes) && i < |nodes|
    ensures UniqueDevices(Dropped(nodes, i))
    ensures forall n :: n in Dropped(nodes, i) ==> n.device != nodes[i].device
  {
    var us := Dropped(nodes, i);
    forall j, k | 0 <= j < k < |us|
      ensures us[j].device != us[k].device
    {
      assert us[j] == nodes[if j < i then j else j + 1] && us[k] == nodes[if k < i then k else k + 1];
    }
    forall j | 0 <= j < |us|
      ensures us[j].device != nodes[i].device
    {
      assert us[j] == nodes[if j < i then j else j + 1];
    }
  }

  // Removing one child takes it out of its parent's list, in place, and out of no other.
  lemma DropEffect(nodes: seq<Node>, i: nat, q: DeviceId)
    requires i < |nodes|
    ensures var before, after := Children(nodes[..i], q), Children(nodes[i + 1..], q);
      && Children(nodes, q) == before + (if nodes[i].parent == q then [nodes[i].device] else []) + after
      && Children(Dropped(nodes, i), q) == before + after
  {
    var front, one, back := nodes[..i], [nodes[i]], nodes[i + 1..];
    assert nodes == front + (one + back);
    ChildrenAppend(front, one + back, q);
    ChildrenAppend(one, back, q);
    assert Children(one, q) == if nodes[i].parent == q then [nodes[i].device] else [];
    ChildrenAppend(front, back, q);
  }

  lemma {:induction false} NodeCount(nodes: seq<Node>, p: DeviceId)
    ensures |Without(nodes, p)| + |Children(nodes, p)| == |nodes|
  {
    if nodes != [] { NodeCount(nodes[1..], p); }
  }

  // Every node is either kept or was a child of p, never both, and nothing is counted twice.
  lemma NoneLost(nodes: seq<Node>, p: DeviceId)
    ensures forall n :: n in Without(nodes, p) <==> n in nodes && n.parent != p
    ensures forall d :: d in Children(nodes, p) <==> Node(p, d) in nodes
    ensures |Without(nodes, p)| + |Children(nodes, p)| == |nodes|
  {
    NodeCount(nodes, p);
    forall n
      ensures n in Without(nodes, p) <==> n in nodes && n.parent != p
    {
      WithoutIsFilter(nodes, p, n);
    }
    forall d
      ensures d in Children(nodes, p) <==> Node(p, d) in nodes
    {
      ChildrenAreNodes(nodes, p, d);
    }
  }

  class DeviceTree {
    var nodes: seq<Node>

    ghost predicate Valid()
      reads this
    {
      UniqueDevices(nodes)
    }

    constructor ()
      ensures Valid() && nodes == []
    {
      nodes := [];
    }

    // The first node from `from` on whose device is d, or |nodes|.
    method FindDevice(d: DeviceId) returns (i: nat)
      ensures i <= |nodes|
      ensures i < |nodes| ==> nodes[i].device == d && Parent(nodes, d) == Some(nodes[i].parent)
      ensures i == |nodes| ==> Parent(nodes, d).None?
    {
      i := 0;
      while i < |nodes| && nodes[i].device != d
        invariant i <= |nodes|
        invariant Parent(nodes[i..], d) == Parent(nodes, d)
      {
        assert nodes[i..][1..] == nodes[i + 1..];
        i := i + 1;
      }
      assert i < |nodes| ==> nodes[i..][0] == nodes[i];
    }

    method GetParent(d: DeviceId) returns (p: Option<DeviceId>)
      ensures p == Parent(nodes, d)
    {
      var i := FindDevice(d);
      p := if i < |nodes| then Some(nodes[i].parent) else None;
    }

    method AllChildren(p: DeviceId) returns (children: seq<DeviceId>)
      ensures children == Children(nodes, p)
    {
      children := [];
      for i := 0 to |nodes|
        invariant children + Children(nodes[i..], p) == Children(nodes, p)
      {
        assert nodes[i..][0] == nodes[i] && nodes[i..][1..] == nodes[i + 1..];
        if nodes[i].parent == p { children := children + [nodes[i].device]; }
      }
      assert nodes[|nodes|..] == [];
    }

    method AddChild(p: DeviceId, d: DeviceId) returns (ok: bool)
      requires Valid()
      modifies this
      ensures Valid() && nodes == Added(old(nodes), p, d)
      ensures ok <==> Parent(nodes, d) == Some(p)
    {
      AddEffect(nodes, p, d, p);
      var i := FindDevice(d);
      if i < |nodes| { return nodes[i].parent == p; }
      ParentAppend(nodes, [Node(p, d)], d);
      nodes := nodes + [Node(p, d)];
      return true;
    }

    method RemoveChild(p: DeviceId, d: DeviceId) returns (ok: bool)
      requires Valid()
      modifies this
      ensures Valid()
      ensures ok <==> Parent(old(nodes), d) == Some(p)
      ensures !ok ==> nodes == old(nodes)
      ensures ok ==> exists i :: 0 <= i < |old(nodes)| && old(nodes)[i] == Node(p, d) && nodes == Dropped(old(nodes), i)
    {
      ParentIffChild(nodes, p, d);
      ChildrenAreNodes(nodes, p, d);
      var i := 0;
      while i < |nodes| && !(nodes[i].parent == p && nodes[i].device == d)
        invariant i <= |nodes|
        invariant Node(p, d) !in nodes[..i]
      {
        i := i + 1;
      }
      if i == |nodes| { return false; }
      DropKeepsUnique(nodes, i);
      nodes := Dropped(nodes, i);
      return true;
    }

    method Remove(p: DeviceId) returns (ok: bool)
      requires Valid()
      modifies this
      ensures Valid() && nodes == Without(old(nodes), p)
      ensures ok <==> Children(old(nodes), p) != []
    {
      RemoveKeepsUnique(nodes, p);
      NodeCount(nodes, p);
      ghost var before := nodes;
      var kept := [];
      for i := 0 to |nodes|
        invariant nodes == before
        invariant kept + Without(nodes[i..], p) == Without(nodes, p)
      {
        assert nodes[i..][0] == nodes[i] && nodes[i..][1..] == nodes[i + 1..];
        if nodes[i].parent != p {
          Regroup(kept, [nodes[i]], Without(nodes[i + 1..], p));
          kept := kept + [nodes[i]];
        }
      }
      assert nodes[|nodes|..] == [];
      assert kept + [] == kept;
      ok := |kept| != |nodes|;
      nodes := kept;
    }
  }

  // ---- Any sequence of operations ----

  datatype Op = Add(p: DeviceId, d: DeviceId) | Drop(p: DeviceId, d: DeviceId) | Clear(p: DeviceId)

  function IndexOf(nodes: seq<Node>, n: Node): (i: nat)
    ensures i <= |nodes| && (i < |nodes| ==> nodes[i] == n)
  {
    if nodes == [] || nodes[0] == n then 0 else 1 + IndexOf(nodes[1..], n)
  }

  function Apply(nodes: seq<Node>, op: Op): seq<Node> {
    match op
    case Add(p, d) => Added(nodes, p, d)
    case Drop(p, d) => var i := IndexOf(nodes, Node(p, d)); if i < |nodes| then Dropped(nodes, i) else nodes
    case Clear(p) => Without(nodes, p)
  }

  function ApplyAll(nodes: seq<Node>, ops: seq<Op>): seq<Node>
    decreases |ops|
  {
    if ops == [] then nodes else ApplyAll(Apply(nodes, ops[0]), ops[1..])
  }

  lemma {:induction false} ApplyAllKeepsUnique(nodes: seq<Node>, ops: seq<Op>)
    requires UniqueDevices(nodes)
    ensures UniqueDevices(ApplyAll(nodes, ops))
    decreases |ops|
  {
    if ops != [] {
      match ops[0] {
        case Add(p, d) => AddEffect(nodes, p, d, p);
        case Drop(p, d) =>
          var i := IndexOf(nodes, Node(p, d));
          if i < |nodes| { DropKeepsUnique(nodes, i); }
        case Clear(p) => RemoveKeepsUnique(nodes, p);
      }
      ApplyAllKeepsUnique(Apply(nodes, ops[0]), ops[1..]);
    }
  }

  // After any sequence of operations on an empty tree, device ids are unique and the two
  // queries agree, so the children lists partition the nodes.
  lemma TreeStaysConsistent(ops: seq<Op>, p: DeviceId, d: DeviceId)
    ensures UniqueDevices(ApplyAll([], ops))
    ensures Parent(ApplyAll([], ops), d) == Some(p) <==> d in Children(ApplyAll([], ops), p)
  {
    ApplyAllKeepsUnique([], ops);
    ParentIffChild(ApplyAll([], ops), p, d);
  }
}
