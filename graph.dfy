/**
  The IR graph as an arena: live nodes addressed by stable ids. Every node keeps
  its ordered `inputs` and `outputs` adjacency lists, as IR nodes do. The three
  graph operations the fusion handlers use are modelled: creating an operator
  node, linking two nodes, and the safe bulk removal that also erases every
  reference to a removed node from the survivors' adjacency lists.
 */
module Graphs {
  import opened OpDescs

  type NodeId = nat

  datatype NodeKind =
    | OpNode(desc: OpDesc)
    | VarNode(name: string, shape: seq<int>)

  datatype Node = Node(kind: NodeKind, inputs: seq<NodeId>, outputs: seq<NodeId>)

  /** A node's name: the operator type for an operator node, the variable name otherwise. */
  function Name(n: Node): string {
    match n.kind
    case OpNode(d) => d.opType
    case VarNode(v, _) => v
  }

  predicate AdjacencyIn(n: Node, live: set<NodeId>) {
    && (forall j | j in n.inputs :: j in live)
    && (forall j | j in n.outputs :: j in live)
  }

  /** No dangling edges: every id in an adjacency list is a live node. */
  predicate EdgesLive(nodes: map<NodeId, Node>) {
    forall id | id in nodes :: AdjacencyIn(nodes[id], nodes.Keys)
  }

  /** `s` with every id in `rm` erased, order kept. */
  function Without(s: seq<NodeId>, rm: set<NodeId>): (r: seq<NodeId>)
    ensures forall j :: j in r <==> j in s && j !in rm
    ensures |r| <= |s|
  {
    if s == [] then []
    else (if s[0] in rm then [] else [s[0]]) + Without(s[1..], rm)
  }

  lemma {:induction false} WithoutAppend(s: seq<NodeId>, t: seq<NodeId>, rm: set<NodeId>)
    ensures Without(s + t, rm) == Without(s, rm) + Without(t, rm)
  {
    if s == [] {
      assert s + t == t;
    } else {
      assert (s + t)[0] == s[0];
      assert (s + t)[1..] == s[1..] + t;
      WithoutAppend(s[1..], t, rm);
    }
  }

  /** Erasing ids that are not in the list leaves the list as it is. */
  lemma {:induction false} WithoutNoneOf(s: seq<NodeId>, rm: set<NodeId>)
    requires forall j | j in s :: j !in rm
    ensures Without(s, rm) == s
  {
    if s != [] {
      assert s[0] in s;
      forall j | j in s[1..] ensures j !in rm {
        assert j in s;
      }
      WithoutNoneOf(s[1..], rm);
      assert [s[0]] + s[1..] == s;
    }
  }

  /** A node with every reference to a removed node erased from its adjacency lists. */
  function Strip(n: Node, rm: set<NodeId>): Node {
    n.(inputs := Without(n.inputs, rm), outputs := Without(n.outputs, rm))
  }

  /** Adds the edge a -> b: b is appended to a's outputs and a to b's inputs. */
  function Linked(nodes: map<NodeId, Node>, a: NodeId, b: NodeId): (r: map<NodeId, Node>)
    requires a in nodes && b in nodes
    ensures r.Keys == nodes.Keys
    ensures a != b ==> r[a] == nodes[a].(outputs := nodes[a].outputs + [b])
    ensures a != b ==> r[b] == nodes[b].(inputs := nodes[b].inputs + [a])
    ensures a == b ==> r[a] == nodes[a].(inputs := nodes[a].inputs + [a], outputs := nodes[a].outputs + [a])
    ensures forall k | k in nodes && k != a && k != b :: r[k] == nodes[k]
  {
    var withOut := nodes[a := nodes[a].(outputs := nodes[a].outputs + [b])];
    withOut[b := withOut[b].(inputs := withOut[b].inputs + [a])]
  }

  lemma LinkedKeepsEdgesLive(nodes: map<NodeId, Node>, a: NodeId, b: NodeId)
    requires EdgesLive(nodes) && a in nodes && b in nodes
    ensures EdgesLive(Linked(nodes, a, b))
  {
    var r := Linked(nodes, a, b);
    forall id | id in r ensures AdjacencyIn(r[id], r.Keys) {
      assert AdjacencyIn(nodes[id], nodes.Keys);
    }
  }

  /** The graph after removing the nodes `rm` and every edge touching them. */
  function SafeRemoved(nodes: map<NodeId, Node>, rm: set<NodeId>): (r: map<NodeId, Node>)
    ensures r.Keys == nodes.Keys - rm
    ensures forall k | k in r :: r[k] == Strip(nodes[k], rm)
  {
    map k | k in nodes && k !in rm :: Strip(nodes[k], rm)
  }

  lemma SafeRemovedKeepsEdgesLive(nodes: map<NodeId, Node>, rm: set<NodeId>)
    requires EdgesLive(nodes)
    ensures EdgesLive(SafeRemoved(nodes, rm))
  {
    var r := SafeRemoved(nodes, rm);
    forall id | id in r ensures AdjacencyIn(r[id], r.Keys) {
      assert AdjacencyIn(nodes[id], nodes.Keys);
    }
  }

  /** A new operator node `id` reading `x` and `y` and writing `out`, linked in that order. */
  function Wired(nodes: map<NodeId, Node>, id: NodeId, desc: OpDesc,
                 x: NodeId, y: NodeId, out: NodeId): map<NodeId, Node>
    requires x in nodes && y in nodes && out in nodes && id !in nodes
  {
    var created := nodes[id := Node(OpNode(desc), [], [])];
    var withX := Linked(created, x, id);
    var withY := Linked(withX, y, id);
    Linked(withY, id, out)
  }

  /** Adding a node with no edges leaves no edge dangling. */
  lemma IsolatedKeepsEdgesLive(nodes: map<NodeId, Node>, id: NodeId, kind: NodeKind)
    requires EdgesLive(nodes)
    ensures EdgesLive(nodes[id := Node(kind, [], [])])
  {
    var created := nodes[id := Node(kind, [], [])];
    forall k | k in created ensures AdjacencyIn(created[k], created.Keys) {
      if k != id {
        assert AdjacencyIn(nodes[k], nodes.Keys);
      }
    }
  }

  lemma WiredShape(nodes: map<NodeId, Node>, id: NodeId, desc: OpDesc,
                   x: NodeId, y: NodeId, out: NodeId)
    requires EdgesLive(nodes)
    requires x in nodes && y in nodes && out in nodes && id !in nodes
    requires x != y && x != out && y != out
    ensures var w := Wired(nodes, id, desc, x, y, out);
      && w.Keys == nodes.Keys + {id}
      && w[id] == Node(OpNode(desc), [x, y], [out])
      && w[x] == nodes[x].(outputs := nodes[x].outputs + [id])
      && w[y] == nodes[y].(outputs := nodes[y].outputs + [id])
      && w[out] == nodes[out].(inputs := nodes[out].inputs + [id])
      && (forall k | k in nodes && k != x && k != y && k != out :: w[k] == nodes[k])
      && EdgesLive(w)
  {
    var created := nodes[id := Node(OpNode(desc), [], [])];
    IsolatedKeepsEdgesLive(nodes, id, OpNode(desc));
    var withX := Linked(created, x, id);
    LinkedKeepsEdgesLive(created, x, id);
    var withY := Linked(withX, y, id);
    LinkedKeepsEdgesLive(withX, y, id);
    LinkedKeepsEdgesLive(withY, id, out);
  }

  /**
    The splice every handler performs: the new operator node wired in, then the
    obsolete nodes `rm` removed in one call.
   */
  function Spliced(nodes: map<NodeId, Node>, id: NodeId, desc: OpDesc,
                   x: NodeId, y: NodeId, out: NodeId, rm: set<NodeId>): map<NodeId, Node>
    requires x in nodes && y in nodes && out in nodes && id !in nodes
  {
    SafeRemoved(Wired(nodes, id, desc, x, y, out), rm)
  }

  /** A splice removes exactly `rm`, adds exactly the new node and leaves no dangling edge. */
  lemma SplicedNodes(nodes: map<NodeId, Node>, id: NodeId, desc: OpDesc,
                     x: NodeId, y: NodeId, out: NodeId, rm: set<NodeId>)
    requires EdgesLive(nodes)
    requires x in nodes && y in nodes && out in nodes && id !in nodes
    requires x != y && x != out && y != out
    requires id !in rm
    ensures var r := Spliced(nodes, id, desc, x, y, out, rm);
      && r.Keys == nodes.Keys - rm + {id}
      && EdgesLive(r)
  {
    var w := Wired(nodes, id, desc, x, y, out);
    WiredShape(nodes, id, desc, x, y, out);
    SafeRemovedKeepsEdgesLive(w, rm);
    var r := SafeRemoved(w, rm);
    assert r.Keys == w.Keys - rm;
    assert (nodes.Keys + {id}) - rm == nodes.Keys - rm + {id};
  }

  /**
    After a splice the new node reads `x` and `y` and writes `out`, and each
    boundary variable gains exactly the one edge to or from it.
   */
  lemma SplicedWiring(nodes: map<NodeId, Node>, id: NodeId, desc: OpDesc,
                      x: NodeId, y: NodeId, out: NodeId, rm: set<NodeId>)
    requires EdgesLive(nodes)
    requires x in nodes && y in nodes && out in nodes && id !in nodes
    requires x != y && x != out && y != out
    requires x !in rm && y !in rm && out !in rm && id !in rm
    ensures var r := Spliced(nodes, id, desc, x, y, out, rm);
      && id in r && x in r && y in r && out in r
      && r[id] == Node(OpNode(desc), [x, y], [out])
      && r[x] == Node(nodes[x].kind, Without(nodes[x].inputs, rm), Without(nodes[x].outputs, rm) + [id])
      && r[y] == Node(nodes[y].kind, Without(nodes[y].inputs, rm), Without(nodes[y].outputs, rm) + [id])
      && r[out] == Node(nodes[out].kind, Without(nodes[out].inputs, rm) + [id], Without(nodes[out].outputs, rm))
  {
    var w := Wired(nodes, id, desc, x, y, out);
    WiredShape(nodes, id, desc, x, y, out);
    WithoutNoneOf([x, y], rm);
    WithoutNoneOf([out], rm);
    WithoutNoneOf([id], rm);
    WithoutAppend(nodes[x].outputs, [id], rm);
    WithoutAppend(nodes[y].outputs, [id], rm);
    WithoutAppend(nodes[out].inputs, [id], rm);
  }

  /** Every other survivor of a splice keeps its kind and only loses edges to removed nodes. */
  lemma SplicedSurvivors(nodes: map<NodeId, Node>, id: NodeId, desc: OpDesc,
                         x: NodeId, y: NodeId, out: NodeId, rm: set<NodeId>)
    requires EdgesLive(nodes)
    requires x in nodes && y in nodes && out in nodes && id !in nodes
    requires x != y && x != out && y != out
    ensures var r := Spliced(nodes, id, desc, x, y, out, rm);
      forall k | k in r && k != id && k != x && k != y && k != out :: r[k] == Strip(nodes[k], rm)
  {
    WiredShape(nodes, id, desc, x, y, out);
  }

  /** Every live id is below the next id the graph hands out. */
  predicate FreshFrom(nodes: map<NodeId, Node>, nextId: NodeId) {
    forall id | id in nodes :: id < nextId
  }

  /** Every node outside `rm` survives with its kind. */
  predicate KeepsKinds(before: map<NodeId, Node>, after: map<NodeId, Node>, rm: set<NodeId>) {
    forall k | k in before && k !in rm :: k in after && after[k].kind == before[k].kind
  }

  /** A splice keeps every node it does not remove, with its kind. */
  lemma SplicedKeepsKinds(nodes: map<NodeId, Node>, id: NodeId, desc: OpDesc,
                          x: NodeId, y: NodeId, out: NodeId, rm: set<NodeId>)
    requires EdgesLive(nodes)
    requires x in nodes && y in nodes && out in nodes && id !in nodes
    requires x != y && x != out && y != out
    ensures KeepsKinds(nodes, Spliced(nodes, id, desc, x, y, out, rm), rm)
  {
    var w := Wired(nodes, id, desc, x, y, out);
    WiredShape(nodes, id, desc, x, y, out);
    var r := SafeRemoved(w, rm);
    forall k | k in nodes && k !in rm ensures k in r && r[k].kind == nodes[k].kind {
      assert k in w.Keys - rm;
      assert w[k].kind == nodes[k].kind;
    }
  }

  /** A graph object the handlers mutate in place. */
  class Graph {
    var nodes: map<NodeId, Node>
    var nextId: NodeId

    ghost predicate Valid()
      reads this
    {
      && FreshFrom(nodes, nextId)
      && EdgesLive(nodes)
    }

    /** A graph over the given nodes, handing out ids from `start` on. */
    constructor(init: map<NodeId, Node>, start: NodeId)
      requires EdgesLive(init) && FreshFrom(init, start)
      ensures Valid()
      ensures nodes == init && nextId == start
    {
      nodes := init;
      nextId := start;
    }

    method CreateOpNode(desc: OpDesc) returns (id: NodeId)
      requires Valid()
      modifies this
      ensures Valid()
      ensures id == old(nextId) && id !in old(nodes)
      ensures nodes == old(nodes)[id := Node(OpNode(desc), [], [])]
      ensures nextId == old(nextId) + 1
    {
      id := nextId;
      assert EdgesLive(nodes[id := Node(OpNode(desc), [], [])]) by {
        var r := nodes[id := Node(OpNode(desc), [], [])];
        forall k | k in r ensures AdjacencyIn(r[k], r.Keys) {
          if k != id {
            assert AdjacencyIn(nodes[k], nodes.Keys);
          }
        }
      }
      nodes := nodes[id := Node(OpNode(desc), [], [])];
      nextId := nextId + 1;
    }

    method LinkTo(a: NodeId, b: NodeId)
      requires Valid() && a in nodes && b in nodes
      modifies this
      ensures Valid()
      ensures nodes == Linked(old(nodes), a, b) && nextId == old(nextId)
    {
      LinkedKeepsEdgesLive(nodes, a, b);
      nodes := Linked(nodes, a, b);
    }

    method SafeRemoveNodes(rm: set<NodeId>)
      requires Valid()
      modifies this
      ensures Valid()
      ensures nodes == SafeRemoved(old(nodes), rm) && nextId == old(nextId)
    {
      SafeRemovedKeepsEdgesLive(nodes, rm);
      nodes := SafeRemoved(nodes, rm);
    }
  }
}
