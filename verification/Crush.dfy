/**
 * Counting failure domains and device classes in the CRUSH tree
 * (pkg/controller/health/cluster_details.go).
 */
module Crush {
  import opened Wrappers

  datatype Node = Node(id: int, kind: string, children: seq<int>, status: string, reweight: real, weight: real,
                       deviceClass: string)

  /** Position of the first node with this id, or -1. */
  function Find(nodes: seq<Node>, id: int): (i: int)
    ensures -1 <= i < |nodes|
    ensures i >= 0 ==> nodes[i].id == id
  {
    if nodes == [] then -1
    else
      var i := Find(nodes[..|nodes| - 1], id);
      if i >= 0 then i else if nodes[|nodes| - 1].id == id then |nodes| - 1 else -1
  }

  /** It is the first such node, and there is one if any. */
  lemma {:induction false} FindFirst(nodes: seq<Node>, id: int)
    ensures forall j :: 0 <= j < (if Find(nodes, id) >= 0 then Find(nodes, id) else |nodes|) ==> nodes[j].id != id
  {
    if nodes != [] { FindFirst(nodes[..|nodes| - 1], id); }
  }

  predicate Exists(nodes: seq<Node>, id: int) {
    Find(nodes, id) >= 0
  }

  function At(nodes: seq<Node>, id: int): Node
    requires Exists(nodes, id)
  {
    nodes[Find(nodes, id)]
  }

  /** An OSD that is up, in, weighted and has a class. */
  predicate Eligible(n: Node) {
    n.kind == "osd" && n.status == "up" && n.reweight != 0.0 && n.weight != 0.0 && n.deviceClass != ""
  }

  /** The ids below a node; OSDs are leaves. */
  function Kids(nodes: seq<Node>, id: int): seq<int> {
    if Exists(nodes, id) && At(nodes, id).kind != "osd" then At(nodes, id).children else []
  }

  /** `rank` falls along every edge. */
  ghost predicate Acyclic(nodes: seq<Node>, rank: int -> nat) {
    forall id, k :: 0 <= k < |Kids(nodes, id)| ==> rank(Kids(nodes, id)[k]) < rank(id)
  }

  /** The nodes at and below `id`. */
  ghost function Below(nodes: seq<Node>, rank: int -> nat, id: int): set<int>
    requires Acyclic(nodes, rank)
    decreases rank(id), 1, 0
  {
    if Exists(nodes, id) then {id} + BelowAll(nodes, rank, Kids(nodes, id), rank(id)) else {}
  }

  ghost function BelowAll(nodes: seq<Node>, rank: int -> nat, ids: seq<int>, bound: nat): set<int>
    requires Acyclic(nodes, rank) && forall k :: 0 <= k < |ids| ==> rank(ids[k]) < bound
    decreases bound, 0, |ids|
  {
    if ids == [] then {}
    else BelowAll(nodes, rank, ids[..|ids| - 1], bound) + Below(nodes, rank, ids[|ids| - 1])
  }

  /** No node is reached twice. */
  ghost predicate IsTree(nodes: seq<Node>, rank: int -> nat) {
    && Acyclic(nodes, rank)
    && forall id, i, j :: 0 <= i < j < |Kids(nodes, id)| ==>
         Below(nodes, rank, Kids(nodes, id)[i]) !! Below(nodes, rank, Kids(nodes, id)[j])
  }

  /** An eligible OSD of the class lies at or below the node. */
  ghost predicate Serves(nodes: seq<Node>, rank: int -> nat, id: int, cls: string)
    requires Acyclic(nodes, rank)
  {
    exists o :: o in Below(nodes, rank, id) && Exists(nodes, o) && Eligible(At(nodes, o)) && At(nodes, o).deviceClass == cls
  }

  /** The nodes of a kind within a set that serve the class. */
  ghost function Domains(nodes: seq<Node>, rank: int -> nat, ids: set<int>, cls: string, kind: string): set<int>
    requires Acyclic(nodes, rank)
  {
    set b | b in ids && Exists(nodes, b) && At(nodes, b).kind == kind && Serves(nodes, rank, b, cls)
  }

  /** The declarative count: how many nodes of the kind, at or below `id`, serve the class. */
  ghost function Count(nodes: seq<Node>, rank: int -> nat, id: int, cls: string, kind: string): nat
    requires Acyclic(nodes, rank)
  {
    |Domains(nodes, rank, Below(nodes, rank, id), cls, kind)|
  }

  ghost function CountAll(nodes: seq<Node>, rank: int -> nat, ids: seq<int>, bound: nat, cls: string, kind: string): nat
    requires Acyclic(nodes, rank) && forall k :: 0 <= k < |ids| ==> rank(ids[k]) < bound
  {
    |Domains(nodes, rank, BelowAll(nodes, rank, ids, bound), cls, kind)|
  }

  type Mapping = map<string, map<string, int>>

  function Get(m: Mapping, cls: string, kind: string): int {
    if cls in m && kind in m[cls] then m[cls][kind] else 0
  }

  function Incremented(m: Mapping, cls: string, kind: string): (m': Mapping)
    ensures forall c, k :: Get(m', c, k) == Get(m, c, k) + if c == cls && k == kind then 1 else 0
    ensures m'.Keys == m.Keys + {cls}
  {
    if cls in m then m[cls := m[cls][kind := Get(m, cls, kind) + 1]] else m[cls := map[kind := 1]]
  }

  // ------------------------------------------------------------- facts about trees

  lemma {:induction false} BelowRank(nodes: seq<Node>, rank: int -> nat, id: int, x: int)
    requires Acyclic(nodes, rank) && x in Below(nodes, rank, id)
    ensures Exists(nodes, x) && rank(x) <= rank(id) && (x == id || rank(x) < rank(id))
    decreases rank(id), 1, 0
  {
    if x != id { BelowAllRank(nodes, rank, Kids(nodes, id), rank(id), x); }
  }

  lemma {:induction false} BelowAllRank(nodes: seq<Node>, rank: int -> nat, ids: seq<int>, bound: nat, x: int)
    requires Acyclic(nodes, rank) && (forall k :: 0 <= k < |ids| ==> rank(ids[k]) < bound) && x in BelowAll(nodes, rank, ids, bound)
    ensures Exists(nodes, x) && rank(x) < bound
    decreases bound, 0, |ids|
  {
    var last := |ids| - 1;
    if x in Below(nodes, rank, ids[last]) {
      BelowRank(nodes, rank, ids[last], x);
    } else {
      BelowAllRank(nodes, rank, ids[..last], bound, x);
    }
  }

  /** Every node below some of the ids is below one of them. */
  lemma {:induction false} BelowAllMember(nodes: seq<Node>, rank: int -> nat, ids: seq<int>, bound: nat, x: int)
    requires Acyclic(nodes, rank) && forall k :: 0 <= k < |ids| ==> rank(ids[k]) < bound
    ensures x in BelowAll(nodes, rank, ids, bound) <==> exists k :: 0 <= k < |ids| && x in Below(nodes, rank, ids[k])
  {
    if ids != [] {
      var last := |ids| - 1;
      BelowAllMember(nodes, rank, ids[..last], bound, x);
      assert forall k :: 0 <= k < last ==> ids[..last][k] == ids[k];
    }
  }

  /** A class is served by a bucket exactly if one of its children serves it. */
  lemma {:induction false} ServesKids(nodes: seq<Node>, rank: int -> nat, id: int, cls: string)
    requires Acyclic(nodes, rank) && Exists(nodes, id) && At(nodes, id).kind != "osd"
    ensures Serves(nodes, rank, id, cls) <==>
      exists k :: 0 <= k < |Kids(nodes, id)| && Serves(nodes, rank, Kids(nodes, id)[k], cls)
  {
    var kids := Kids(nodes, id);
    if Serves(nodes, rank, id, cls) {
      var o :| o in Below(nodes, rank, id) && Exists(nodes, o) && Eligible(At(nodes, o)) && At(nodes, o).deviceClass == cls;
      BelowAllMember(nodes, rank, kids, rank(id), o);
      var k :| 0 <= k < |kids| && o in Below(nodes, rank, kids[k]);
      assert Serves(nodes, rank, kids[k], cls);
    }
    if k :| 0 <= k < |kids| && Serves(nodes, rank, kids[k], cls) {
      var o :| o in Below(nodes, rank, kids[k]) && Exists(nodes, o) && Eligible(At(nodes, o)) && At(nodes, o).deviceClass == cls;
      BelowAllMember(nodes, rank, kids, rank(id), o);
      assert o in Below(nodes, rank, id);
    }
  }

  lemma {:induction false} CountUnion(nodes: seq<Node>, rank: int -> nat, a: set<int>, b: set<int>, cls: string, kind: string)
    requires Acyclic(nodes, rank) && a !! b
    ensures |Domains(nodes, rank, a + b, cls, kind)| == |Domains(nodes, rank, a, cls, kind)| + |Domains(nodes, rank, b, cls, kind)|
  {
    var x, y := Domains(nodes, rank, a, cls, kind), Domains(nodes, rank, b, cls, kind);
    assert x !! y;
    assert Domains(nodes, rank, a + b, cls, kind) == x + y;
  }

  /** Counts of children add up. */
  lemma {:induction false} CountSnoc(nodes: seq<Node>, rank: int -> nat, id: int, n: nat, cls: string, kind: string)
    requires IsTree(nodes, rank) && n < |Kids(nodes, id)|
    ensures var kids := Kids(nodes, id);
      CountAll(nodes, rank, kids[..n + 1], rank(id), cls, kind)
        == CountAll(nodes, rank, kids[..n], rank(id), cls, kind) + Count(nodes, rank, kids[n], cls, kind)
  {
    var kids := Kids(nodes, id);
    assert kids[..n + 1][..n] == kids[..n];
    var before, more := BelowAll(nodes, rank, kids[..n], rank(id)), Below(nodes, rank, kids[n]);
    forall x | x in before ensures x !in more {
      BelowAllMember(nodes, rank, kids[..n], rank(id), x);
      var k :| 0 <= k < n && x in Below(nodes, rank, kids[..n][k]);
      assert Below(nodes, rank, kids[k]) !! Below(nodes, rank, kids[n]);
    }
    CountUnion(nodes, rank, before, more, cls, kind);
  }

  /** A bucket adds itself, if it serves the class, to the counts of its children. */
  lemma {:induction false} CountNode(nodes: seq<Node>, rank: int -> nat, id: int, cls: string, kind: string)
    requires IsTree(nodes, rank) && Exists(nodes, id)
    ensures Count(nodes, rank, id, cls, kind) == CountAll(nodes, rank, Kids(nodes, id), rank(id), cls, kind)
      + if At(nodes, id).kind == kind && Serves(nodes, rank, id, cls) then 1 else 0
  {
    var below := BelowAll(nodes, rank, Kids(nodes, id), rank(id));
    if id in below { BelowAllRank(nodes, rank, Kids(nodes, id), rank(id), id); }
    CountUnion(nodes, rank, {id}, below, cls, kind);
    var self := Domains(nodes, rank, {id}, cls, kind);
    if At(nodes, id).kind == kind && Serves(nodes, rank, id, cls) {
      assert self == {id};
    } else {
      assert self == {};
    }
  }

  lemma {:induction false} ServesOsd(nodes: seq<Node>, rank: int -> nat, id: int, cls: string)
    requires Acyclic(nodes, rank) && (Exists(nodes, id) ==> At(nodes, id).kind == "osd")
    ensures Serves(nodes, rank, id, cls) <==> Exists(nodes, id) && Eligible(At(nodes, id)) && At(nodes, id).deviceClass == cls
  {
    if Exists(nodes, id) {
      assert Below(nodes, rank, id) == {id};
    }
  }

  lemma {:induction false} MissingNode(nodes: seq<Node>, rank: int -> nat, id: int, cls: string, kind: string)
    requires Acyclic(nodes, rank) && !Exists(nodes, id)
    ensures Count(nodes, rank, id, cls, kind) == 0 && !Serves(nodes, rank, id, cls)
  {
    assert Below(nodes, rank, id) == {};
  }

  lemma {:induction false} CountNone(nodes: seq<Node>, rank: int -> nat, bound: nat, cls: string, kind: string)
    requires Acyclic(nodes, rank)
    ensures CountAll(nodes, rank, [], bound, cls, kind) == 0
  {
    assert Domains(nodes, rank, {}, cls, kind) == {};
  }

  lemma {:induction false} OsdNode(nodes: seq<Node>, rank: int -> nat, id: int, cls: string, kind: string)
    requires IsTree(nodes, rank) && Exists(nodes, id) && At(nodes, id).kind == "osd"
    ensures Count(nodes, rank, id, cls, kind) == (if kind == "osd" && Serves(nodes, rank, id, cls) then 1 else 0)
    ensures Serves(nodes, rank, id, cls) <==> Eligible(At(nodes, id)) && At(nodes, id).deviceClass == cls
  {
    ServesOsd(nodes, rank, id, cls);
    CountNode(nodes, rank, id, cls, kind);
    CountNone(nodes, rank, rank(id), cls, kind);
  }

  // ------------------------------------------------------------------ the accumulator

  class Counter {
    var mapping: Mapping

    constructor ()
      ensures mapping == map[]
    {
      mapping := map[];
    }

    /** Adds the counts at and below `lookup` to the mapping and returns the classes found there. */
    method CountDomainsAndClasses(nodes: seq<Node>, lookup: int, ghost rank: int -> nat) returns (classes: seq<string>)
      requires IsTree(nodes, rank)
      modifies this
      ensures forall c :: c in classes <==> Serves(nodes, rank, lookup, c)
      ensures NoDuplicates(classes)
      ensures forall c, k :: Get(mapping, c, k) == Get(old(mapping), c, k) + Count(nodes, rank, lookup, c, k)
      ensures forall c :: c in mapping <==> c in old(mapping) || c in classes
      decreases rank(lookup), 1
    {
      hide Count, CountAll, Domains, Below, BelowAll, Serves, Get, Incremented;
      var i := Find(nodes, lookup);
      if i < 0 {
        forall c, k ensures Count(nodes, rank, lookup, c, k) == 0 { MissingNode(nodes, rank, lookup, c, k); }
        forall c ensures !Serves(nodes, rank, lookup, c) { ServesOsd(nodes, rank, lookup, c); }
        return [];
      }
      var node := nodes[i];
      if node.kind == "osd" {
        forall c, k
          ensures Count(nodes, rank, lookup, c, k) == (if k == "osd" && Serves(nodes, rank, lookup, c) then 1 else 0)
        {
          OsdNode(nodes, rank, lookup, c, k);
        }
        forall c ensures Serves(nodes, rank, lookup, c) <==> Eligible(node) && node.deviceClass == c {
          ServesOsd(nodes, rank, lookup, c);
        }
        if node.status == "up" && node.reweight != 0.0 && node.weight != 0.0 {
          if node.deviceClass == "" { return []; }
          mapping := Incremented(mapping, node.deviceClass, "osd");
          return [node.deviceClass];
        }
        return [];
      }
      var found := CountChildren(nodes, lookup, rank);
      forall c, k
        ensures Count(nodes, rank, lookup, c, k) ==
          CountAll(nodes, rank, Kids(nodes, lookup), rank(lookup), c, k) + if node.kind == k && Serves(nodes, rank, lookup, c) then 1 else 0
      {
        CountNode(nodes, rank, lookup, c, k);
      }
      classes := RecordBucket(node.kind, found);
    }

    method CountChildren(nodes: seq<Node>, lookup: int, ghost rank: int -> nat) returns (found: set<string>)
      requires IsTree(nodes, rank) && Exists(nodes, lookup) && At(nodes, lookup).kind != "osd"
      modifies this
      ensures forall c :: c in found <==> Serves(nodes, rank, lookup, c)
      ensures forall c, k ::
        Get(mapping, c, k) == Get(old(mapping), c, k) + CountAll(nodes, rank, Kids(nodes, lookup), rank(lookup), c, k)
      ensures forall c :: c in mapping <==> c in old(mapping) || c in found
      decreases rank(lookup), 0
    {
      hide Count, CountAll, Domains, Below, BelowAll, Serves, Get;
      var children := At(nodes, lookup).children;
      assert children == Kids(nodes, lookup);
      found := {};
      forall c, k ensures CountAll(nodes, rank, children[..0], rank(lookup), c, k) == 0 { CountNone(nodes, rank, rank(lookup), c, k); }
      for n := 0 to |children|
        invariant forall c :: c in found <==> exists k :: 0 <= k < n && Serves(nodes, rank, children[k], c)
        invariant forall c, k ::
          Get(mapping, c, k) == Get(old(mapping), c, k) + CountAll(nodes, rank, children[..n], rank(lookup), c, k)
        invariant forall c :: c in mapping <==> c in old(mapping) || c in found
      {
        forall c, k
          ensures CountAll(nodes, rank, children[..n + 1], rank(lookup), c, k)
            == CountAll(nodes, rank, children[..n], rank(lookup), c, k) + Count(nodes, rank, children[n], c, k)
        {
          CountSnoc(nodes, rank, lookup, n, c, k);
        }
        var fromChild := CountDomainsAndClasses(nodes, children[n], rank);
        found := found + (set c | c in fromChild);
      }
      assert children[..|children|] == children;
      forall c ensures c in found <==> Serves(nodes, rank, lookup, c) { ServesKids(nodes, rank, lookup, c); }
    }

    /** Counts a bucket once for every class found below it. */
    method RecordBucket(kind: string, found: set<string>) returns (classes: seq<string>)
      modifies this
      ensures forall c :: c in classes <==> c in found
      ensures NoDuplicates(classes)
      ensures forall c, k :: Get(mapping, c, k) == Get(old(mapping), c, k) + if c in found && k == kind then 1 else 0
      ensures forall c :: c in mapping <==> c in old(mapping) || c in found
    {
      classes := [];
      var left := found;
      while left != {}
        invariant left <= found
        invariant forall c :: c in classes <==> c in found && c !in left
        invariant NoDuplicates(classes)
        invariant forall c, k :: Get(mapping, c, k) == Get(old(mapping), c, k) + if c in found && c !in left && k == kind then 1 else 0
        invariant forall c :: c in mapping <==> c in old(mapping) || (c in found && c !in left)
        decreases |left|
      {
        var c :| c in left;
        left := left - {c};
        mapping := Incremented(mapping, c, kind);
        classes := classes + [c];
      }
    }
  }

  // -------------------------------------------------------------------- the bound

  /** No node of the kind lies below another one. */
  ghost predicate NeverNested(nodes: seq<Node>, rank: int -> nat, kind: string)
    requires Acyclic(nodes, rank)
  {
    forall a, b :: Exists(nodes, a) && At(nodes, a).kind == kind && b in Below(nodes, rank, a) && b != a ==>
      Exists(nodes, b) && At(nodes, b).kind != kind
  }

  lemma {:induction false} CountWithin(nodes: seq<Node>, rank: int -> nat, id: int, cls: string, kind: string)
    requires IsTree(nodes, rank) && NeverNested(nodes, rank, kind)
    ensures Count(nodes, rank, id, cls, kind) <= Count(nodes, rank, id, cls, "osd")
    decreases rank(id), 1, 0
  {
    if !Exists(nodes, id) {
      assert Below(nodes, rank, id) == {};
    } else {
      CountNode(nodes, rank, id, cls, kind);
      CountNode(nodes, rank, id, cls, "osd");
      if At(nodes, id).kind == kind {
        var below := BelowAll(nodes, rank, Kids(nodes, id), rank(id));
        forall b | b in below ensures Exists(nodes, b) && At(nodes, b).kind != kind {
          BelowAllRank(nodes, rank, Kids(nodes, id), rank(id), b);
          assert b in Below(nodes, rank, id);
        }
        assert Domains(nodes, rank, below, cls, kind) == {};
        if Serves(nodes, rank, id, cls) {
          OsdCounted(nodes, rank, id, cls);
        }
      } else {
        CountAllWithin(nodes, rank, id, |Kids(nodes, id)|, cls, kind);
        assert Kids(nodes, id)[..|Kids(nodes, id)|] == Kids(nodes, id);
      }
    }
  }

  lemma {:induction false} CountAllWithin(nodes: seq<Node>, rank: int -> nat, id: int, n: nat, cls: string, kind: string)
    requires IsTree(nodes, rank) && NeverNested(nodes, rank, kind) && n <= |Kids(nodes, id)|
    ensures CountAll(nodes, rank, Kids(nodes, id)[..n], rank(id), cls, kind)
         <= CountAll(nodes, rank, Kids(nodes, id)[..n], rank(id), cls, "osd")
    decreases rank(id), 0, n
  {
    hide Below, BelowAll, Domains, Count, CountAll, NeverNested;
    if n == 0 {
      CountNone(nodes, rank, rank(id), cls, kind);
    } else {
      CountAllWithin(nodes, rank, id, n - 1, cls, kind);
      CountSnoc(nodes, rank, id, n - 1, cls, kind);
      CountSnoc(nodes, rank, id, n - 1, cls, "osd");
      CountWithin(nodes, rank, Kids(nodes, id)[n - 1], cls, kind);
    }
  }

  lemma {:induction false} OsdCounted(nodes: seq<Node>, rank: int -> nat, id: int, cls: string)
    requires Acyclic(nodes, rank) && Serves(nodes, rank, id, cls)
    ensures Count(nodes, rank, id, cls, "osd") >= 1
  {
    var o :| o in Below(nodes, rank, id) && Exists(nodes, o) && Eligible(At(nodes, o)) && At(nodes, o).deviceClass == cls;
    ServesOsd(nodes, rank, o, cls);
    assert o in Domains(nodes, rank, Below(nodes, rank, id), cls, "osd");
  }

  // ------------------------------------------------------------------- the caller

  /** Position of the first root, or the number of nodes. */
  function FirstRoot(nodes: seq<Node>): (i: nat)
    ensures i <= |nodes| && (i < |nodes| ==> nodes[i].kind == "root")
    ensures forall j :: 0 <= j < i ==> nodes[j].kind != "root"
  {
    if nodes == [] || nodes[0].kind == "root" then 0 else 1 + FirstRoot(nodes[1..])
  }

  /**
   * The mapping used to size pools: built from nothing under the first root. A kind never
   * nested in itself is counted at most as often as OSDs are.
   */
  method CountCluster(nodes: seq<Node>, ghost rank: int -> nat) returns (mapping: Mapping)
    requires IsTree(nodes, rank)
    ensures FirstRoot(nodes) == |nodes| ==> mapping == map[]
    ensures FirstRoot(nodes) < |nodes| ==> forall c, k ::
      Get(mapping, c, k) == Count(nodes, rank, nodes[FirstRoot(nodes)].id, c, k)
    ensures FirstRoot(nodes) < |nodes| ==> forall c :: c in mapping <==> Serves(nodes, rank, nodes[FirstRoot(nodes)].id, c)
    ensures forall c, k :: NeverNested(nodes, rank, k) ==> Get(mapping, c, k) <= Get(mapping, c, "osd")
  {
    hide Count, Serves, NeverNested, Get;
    var counter := new Counter();
    forall c, k ensures Get(map[], c, k) == 0 { EmptyCounts(c, k); }
    var i := FirstRoot(nodes);
    if i < |nodes| {
      var _ := counter.CountDomainsAndClasses(nodes, nodes[i].id, rank);
      forall c, k | NeverNested(nodes, rank, k)
        ensures Count(nodes, rank, nodes[i].id, c, k) <= Count(nodes, rank, nodes[i].id, c, "osd")
      {
        CountWithin(nodes, rank, nodes[i].id, c, k);
      }
    }
    mapping := counter.mapping;
  }

  lemma {:induction false} EmptyCounts(cls: string, kind: string)
    ensures Get(map[], cls, kind) == 0
  {
  }
}
