/**
 The shared flow-graph structure and its traversal (internal/flowgraph/flowgraph.go).

 `GraphData` is the stored graph. The reference meaning of traversal is a scan of the
 plain lists: `FindNode` and `Resolve`. Class `Graph` builds the lookup indexes in place
 and answers from them; its methods are proved to agree with the scans.
 */
module FlowGraph {
  import opened Wrappers

  datatype Edge = Edge(from: string, to: string, condition: string)

  datatype Node<+T> = Node(id: string, kind: T, caption: string)

  datatype GraphData<+T> = GraphData(version: int, nodes: seq<Node<T>>, edges: seq<Edge>, entry: string)

  const DEFAULT := "default"

  // ----- Reference: scans of the stored lists -----

  /** The last node carrying `id`. */
  function FindNode<T>(nodes: seq<Node<T>>, id: string): Option<Node<T>> {
    if nodes == [] then None
    else if nodes[|nodes| - 1].id == id then Some(nodes[|nodes| - 1])
    else FindNode(nodes[..|nodes| - 1], id)
  }

  /** The first edge out of `from` whose condition is exactly `outcome`. */
  function FirstExact(edges: seq<Edge>, from: string, outcome: string): Option<string> {
    if edges == [] then None
    else if edges[0].from == from && edges[0].condition == outcome then Some(edges[0].to)
    else FirstExact(edges[1..], from, outcome)
  }

  /** The last "default" edge out of `from`. */
  function LastDefault(edges: seq<Edge>, from: string): Option<string> {
    if edges == [] then None
    else
      var last := edges[|edges| - 1];
      if last.from == from && last.condition == DEFAULT then Some(last.to)
      else LastDefault(edges[..|edges| - 1], from)
  }

  /** Exact match, else default, else "" for a terminal node. */
  function Resolve(edges: seq<Edge>, from: string, outcome: string): string {
    match FirstExact(edges, from, outcome)
    case Some(to) => to
    case None => Target(LastDefault(edges, from))
  }

  function Target(t: Option<string>): string { match t case Some(to) => to case None => "" }

  /** The edges out of `from`, in list order. */
  function OutOf(edges: seq<Edge>, from: string): seq<Edge> {
    if edges == [] then []
    else
      var before := OutOf(edges[..|edges| - 1], from);
      if edges[|edges| - 1].from == from then before + [edges[|edges| - 1]] else before
  }

  predicate Matches(e: Edge, from: string, condition: string) { e.from == from && e.condition == condition }

  /** Edge `k` leads out of `from` under `condition`, and none before it does. */
  predicate IsFirst(edges: seq<Edge>, from: string, condition: string, k: int) {
    0 <= k < |edges| && Matches(edges[k], from, condition) && forall j :: 0 <= j < k ==> !Matches(edges[j], from, condition)
  }

  predicate IsLast(edges: seq<Edge>, from: string, condition: string, k: int) {
    0 <= k < |edges| && Matches(edges[k], from, condition) && forall j :: k < j < |edges| ==> !Matches(edges[j], from, condition)
  }

  predicate NoMatch(edges: seq<Edge>, from: string, condition: string) {
    forall j :: 0 <= j < |edges| ==> !Matches(edges[j], from, condition)
  }

  lemma {:induction false} FirstExactAt(edges: seq<Edge>, from: string, outcome: string)
    ensures if FirstExact(edges, from, outcome).None? then NoMatch(edges, from, outcome)
            else exists k :: IsFirst(edges, from, outcome, k) && FirstExact(edges, from, outcome).value == edges[k].to
  {
    if edges != [] {
      if Matches(edges[0], from, outcome) {
        assert IsFirst(edges, from, outcome, 0);
      } else {
        FirstExactAt(edges[1..], from, outcome);
        if FirstExact(edges[1..], from, outcome).Some? {
          var k :| IsFirst(edges[1..], from, outcome, k) && FirstExact(edges[1..], from, outcome).value == edges[1..][k].to;
          assert forall j :: 0 < j < k + 1 ==> edges[j] == edges[1..][j - 1];
          assert IsFirst(edges, from, outcome, k + 1);
        } else {
          assert forall j :: 0 < j < |edges| ==> edges[j] == edges[1..][j - 1];
        }
      }
    }
  }

  lemma {:induction false} LastDefaultAt(edges: seq<Edge>, from: string)
    ensures if LastDefault(edges, from).None? then NoMatch(edges, from, "default")
            else exists k :: IsLast(edges, from, "default", k) && LastDefault(edges, from).value == edges[k].to
  {
    if edges != [] {
      var n := |edges| - 1;
      if Matches(edges[n], from, "default") {
        assert IsLast(edges, from, "default", n);
      } else {
        LastDefaultAt(edges[..n], from);
        if LastDefault(edges[..n], from).Some? {
          var k :| IsLast(edges[..n], from, "default", k) && LastDefault(edges[..n], from).value == edges[..n][k].to;
          assert IsLast(edges, from, "default", k);
        }
      }
    }
  }

  /**
   Which edge is taken: the first that matches the outcome exactly; without one, the last that
   says "default"; without either, none.
   */
  lemma ResolvePicks(edges: seq<Edge>, from: string, outcome: string)
    ensures forall k :: IsFirst(edges, from, outcome, k) ==> Resolve(edges, from, outcome) == edges[k].to
    ensures NoMatch(edges, from, outcome) ==>
              forall k :: IsLast(edges, from, "default", k) ==> Resolve(edges, from, outcome) == edges[k].to
    ensures NoMatch(edges, from, outcome) && NoMatch(edges, from, "default") ==> Resolve(edges, from, outcome) == ""
  {
    FirstExactAt(edges, from, outcome);
    LastDefaultAt(edges, from);
    hide FirstExact, LastDefault;
    forall j, k | IsFirst(edges, from, outcome, j) && IsFirst(edges, from, outcome, k) ensures j == k {
      assert Matches(edges[j], from, outcome) && Matches(edges[k], from, outcome);
    }
    forall j, k | IsLast(edges, from, "default", j) && IsLast(edges, from, "default", k) ensures j == k {
      assert Matches(edges[j], from, "default") && Matches(edges[k], from, "default");
    }
  }

  /** The node found is the last one with that id. */
  lemma {:induction false} FindNodeLast<T>(nodes: seq<Node<T>>, id: string, k: nat)
    requires k < |nodes| && nodes[k].id == id && forall j :: k < j < |nodes| ==> nodes[j].id != id
    ensures FindNode(nodes, id) == Some(nodes[k])
  {
    if k < |nodes| - 1 { FindNodeLast(nodes[..|nodes| - 1], id, k); }
  }

  lemma {:induction false} FirstExactConcat(a: seq<Edge>, b: seq<Edge>, from: string, outcome: string)
    ensures FirstExact(a + b, from, outcome)
         == if FirstExact(a, from, outcome).Some? then FirstExact(a, from, outcome) else FirstExact(b, from, outcome)
  {
    if a == [] {
      assert a + b == b;
    } else {
      assert (a + b)[1..] == a[1..] + b;
      FirstExactConcat(a[1..], b, from, outcome);
    }
  }

  lemma LastDefaultSnoc(edges: seq<Edge>, e: Edge, from: string)
    ensures LastDefault(edges + [e], from)
         == if e.from == from && e.condition == DEFAULT then Some(e.to) else LastDefault(edges, from)
  {
    assert (edges + [e])[..|edges|] == edges;
  }

  lemma OutOfSnoc(edges: seq<Edge>, e: Edge, from: string)
    ensures OutOf(edges + [e], from) == if e.from == from then OutOf(edges, from) + [e] else OutOf(edges, from)
  {
    assert (edges + [e])[..|edges|] == edges;
  }

  lemma {:induction false} OutOfConcat(a: seq<Edge>, b: seq<Edge>, from: string)
    ensures OutOf(a + b, from) == OutOf(a, from) + OutOf(b, from)
    decreases |b|
  {
    if b == [] {
      assert a + b == a;
    } else {
      var n := |b| - 1;
      assert a + b == (a + b[..n]) + [b[n]];
      OutOfSnoc(a + b[..n], b[n], from);
      OutOfConcat(a, b[..n], from);
    }
  }

  /** Only the edges out of the node matter. */
  lemma {:induction false} ResolveLocal(edges: seq<Edge>, from: string, outcome: string)
    ensures FirstExact(OutOf(edges, from), from, outcome) == FirstExact(edges, from, outcome)
    ensures LastDefault(OutOf(edges, from), from) == LastDefault(edges, from)
    ensures Resolve(OutOf(edges, from), from, outcome) == Resolve(edges, from, outcome)
  {
    if edges != [] {
      var n := |edges| - 1;
      ResolveLocal(edges[..n], from, outcome);
      assert edges == edges[..n] + [edges[n]];
      FirstExactConcat(edges[..n], [edges[n]], from, outcome);
      LastDefaultSnoc(edges[..n], edges[n], from);
      if edges[n].from == from {
        FirstExactConcat(OutOf(edges[..n], from), [edges[n]], from, outcome);
        LastDefaultSnoc(OutOf(edges[..n], from), edges[n], from);
      }
    }
  }

  lemma {:induction false} OutOfFrom(edges: seq<Edge>, from: string)
    ensures forall e :: e in OutOf(edges, from) ==> e.from == from && e in edges
  {
    if edges != [] { OutOfFrom(edges[..|edges| - 1], from); }
  }

  lemma {:induction false} FindNodeIff<T>(nodes: seq<Node<T>>, id: string)
    ensures FindNode(nodes, id).Some? <==> exists i :: 0 <= i < |nodes| && nodes[i].id == id
    ensures FindNode(nodes, id).Some? ==> FindNode(nodes, id).value in nodes && FindNode(nodes, id).value.id == id
  {
    if nodes != [] {
      var n := |nodes| - 1;
      FindNodeIff(nodes[..n], id);
      if FindNode(nodes[..n], id).Some? {
        var i :| 0 <= i < n && nodes[..n][i].id == id;
        assert nodes[i].id == id;
      }
      if i :| 0 <= i < |nodes| && nodes[i].id == id {
        assert i < n ==> nodes[..n][i].id == id;
      }
    }
  }

  lemma FindNodeSnoc<T>(nodes: seq<Node<T>>, n: Node<T>, id: string)
    ensures FindNode(nodes + [n], id) == if n.id == id then Some(n) else FindNode(nodes, id)
  {
    assert (nodes + [n])[..|nodes|] == nodes;
  }

  /** A resolved target is the target of some edge out of the node. */
  lemma {:induction false} FirstExactIsEdge(edges: seq<Edge>, from: string, outcome: string)
    ensures var r := FirstExact(edges, from, outcome);
            r.Some? ==> exists e :: e in edges && e.from == from && e.to == r.value
  {
    if edges != [] && !(edges[0].from == from && edges[0].condition == outcome) {
      FirstExactIsEdge(edges[1..], from, outcome);
    }
  }

  lemma {:induction false} LastDefaultIsEdge(edges: seq<Edge>, from: string)
    ensures var r := LastDefault(edges, from);
            r.Some? ==> exists e :: e in edges && e.from == from && e.to == r.value
  {
    if edges != [] {
      var last := edges[|edges| - 1];
      if !(last.from == from && last.condition == DEFAULT) {
        LastDefaultIsEdge(edges[..|edges| - 1], from);
      } else {
        assert last in edges;
      }
    }
  }

  /** Every edge leads to a node. */
  predicate EdgesClosed<T(==)>(g: GraphData<T>) {
    forall e :: e in g.edges ==> FindNode(g.nodes, e.to).Some?
  }

  lemma ResolveStaysInside<T>(g: GraphData<T>, from: string, outcome: string)
    requires EdgesClosed(g)
    ensures Resolve(g.edges, from, outcome) == "" || FindNode(g.nodes, Resolve(g.edges, from, outcome)).Some?
  {
    FirstExactIsEdge(g.edges, from, outcome);
    LastDefaultIsEdge(g.edges, from);
  }

  /** chatbot_graph_types.go, parseChatGraph, on a decoded value. */
  predicate ParserAccepts<T>(g: GraphData<T>) {
    g.version == 2 && g.entry != "" && FindNode(g.nodes, g.entry).Some?
  }

  // ----- The indexed graph as code -----

  class Graph<T> {
    const data: GraphData<T>
    var nodeMap: map<string, nat>
    var edgeMap: map<string, seq<Edge>>

    constructor (data: GraphData<T>)
      ensures this.data == data
    {
      this.data := data;
      nodeMap, edgeMap := map[], map[];
    }

    /** Both indexes answer as the scans do. */
    ghost predicate Indexed()
      reads this
    {
      && NodesIndexed(|data.nodes|)
      && EdgesIndexed(|data.edges|)
    }

    ghost predicate NodesIndexed(n: nat)
      reads this
      requires n <= |data.nodes|
    {
      forall id: string ::
        && (id in nodeMap ==> nodeMap[id] < |data.nodes|)
        && FindNode(data.nodes[..n], id) == if id in nodeMap then Some(data.nodes[nodeMap[id]]) else None
    }

    ghost predicate EdgesIndexed(n: nat)
      reads this
      requires n <= |data.edges|
    {
      forall from: string ::
        OutOf(data.edges[..n], from) == if from in edgeMap then edgeMap[from] else []
    }

    method BuildMaps()
      modifies this
      ensures Indexed()
    {
      IndexNodes();
      IndexEdges();
    }

    /** flowgraph.go:46-50 */
    method IndexNodes()
      modifies this`nodeMap
      ensures NodesIndexed(|data.nodes|)
    {
      nodeMap := map[];
      for i := 0 to |data.nodes|
        invariant NodesIndexed(i)
      {
        ghost var before := nodeMap;
        assert data.nodes[..i + 1] == data.nodes[..i] + [data.nodes[i]];
        nodeMap := nodeMap[data.nodes[i].id := i];
        forall id: string
          ensures id in nodeMap ==> nodeMap[id] < |data.nodes|
          ensures FindNode(data.nodes[..i + 1], id)
               == if id in nodeMap then Some(data.nodes[nodeMap[id]]) else None
        {
          FindNodeSnoc(data.nodes[..i], data.nodes[i], id);
          assert id != data.nodes[i].id ==> (id in nodeMap <==> id in before);
        }
      }
    }

    /** flowgraph.go:47 and 51-53 */
    method IndexEdges()
      modifies this`edgeMap
      ensures EdgesIndexed(|data.edges|)
    {
      edgeMap := map[];
      for i := 0 to |data.edges|
        invariant EdgesIndexed(i)
      {
        var e := data.edges[i];
        ghost var before := edgeMap;
        edgeMap := edgeMap[e.from := (if e.from in edgeMap then edgeMap[e.from] else []) + [e]];
        assert data.edges[..i + 1] == data.edges[..i] + [e];
        forall from: string
          ensures OutOf(data.edges[..i + 1], from) == if from in edgeMap then edgeMap[from] else []
        {
          OutOfSnoc(data.edges[..i], e, from);
          assert from != e.from ==> (from in edgeMap <==> from in before);
        }
      }
    }

    method NodeById(id: string) returns (r: Option<Node<T>>)
      requires Indexed()
      ensures r == FindNode(data.nodes, id)
    {
      assert data.nodes[..|data.nodes|] == data.nodes;
      if id in nodeMap { r := Some(data.nodes[nodeMap[id]]); } else { r := None; }
    }

    method OutgoingEdges(from: string) returns (r: seq<Edge>)
      requires Indexed()
      ensures r == OutOf(data.edges, from)
    {
      assert data.edges[..|data.edges|] == data.edges;
      r := if from in edgeMap then edgeMap[from] else [];
    }

    /** The early-returning loop over the node's own edges equals the scan of all edges. */
    method ResolveEdge(from: string, outcome: string) returns (r: string)
      requires Indexed()
      ensures r == Resolve(data.edges, from, outcome)
    {
      var out := OutgoingEdges(from);
      OutOfFrom(data.edges, from);
      ResolveLocal(data.edges, from, outcome);
      r := "";
      for i := 0 to |out|
        invariant FirstExact(out[..i], from, outcome) == None
        invariant r == Target(LastDefault(out[..i], from))
      {
        ScanStep(out, i, from, outcome);
        if out[i].condition == outcome {
          return out[i].to;
        }
        if out[i].condition == DEFAULT {
          r := out[i].to;
        }
      }
      assert out[..|out|] == out;
    }
  }

  /** One more edge of a node's own list. */
  lemma ScanStep(out: seq<Edge>, i: nat, from: string, outcome: string)
    requires i < |out| && forall e :: e in out ==> e.from == from
    requires FirstExact(out[..i], from, outcome) == None
    ensures out[i].condition == outcome ==> Resolve(out, from, outcome) == out[i].to
    ensures out[i].condition != outcome ==> FirstExact(out[..i + 1], from, outcome) == None
    ensures LastDefault(out[..i + 1], from)
         == if out[i].condition == DEFAULT then Some(out[i].to) else LastDefault(out[..i], from)
  {
    assert out[..i + 1] == out[..i] + [out[i]];
    assert out[i] in out;
    FirstExactConcat(out[..i], [out[i]], from, outcome);
    LastDefaultSnoc(out[..i], out[i], from);
    assert out == out[..i + 1] + out[i + 1..];
    FirstExactConcat(out[..i + 1], out[i + 1..], from, outcome);
  }
}
