/**
 * The reachability multigraph: nodes are (x, y) positions, and every jump
 * result with both positions known becomes one directed edge from its
 * takeoff to its landing. Parallel edges between the same two nodes are told
 * apart by a key, the number of such edges already present.
 */
module ReachGraph {
  import opened Wrappers
  import opened Seqs

  type Point = (real, real)

  /** A result record read as a dictionary: the position fields may be missing. */
  datatype Entry = Entry(nivelInicial: Option<int>, xInicial: Option<real>, yInicial: Option<real>,
                         carga: int, direcao: string,
                         nivelFinal: Option<int>, xFinal: Option<real>, yFinal: Option<real>)

  /** Neither takeoff nor landing coordinate is missing. */
  predicate Complete(e: Entry)
  {
    e.xInicial.Some? && e.yInicial.Some? && e.xFinal.Some? && e.yFinal.Some?
  }

  function Takeoff(e: Entry): Point
    requires Complete(e)
  {
    (e.xInicial.value, e.yInicial.value)
  }

  function Touchdown(e: Entry): Point
    requires Complete(e)
  {
    (e.xFinal.value, e.yFinal.value)
  }

  datatype Edge = Edge(source: Point, target: Point, key: nat, carga: int, direcao: string, dados: Entry)

  /** The number of edges from u to v. */
  function Parallel(edges: seq<Edge>, u: Point, v: Point): nat
    decreases |edges|
  {
    if edges == [] then 0
    else
      var e := edges[|edges| - 1];
      Parallel(edges[..|edges| - 1], u, v) + (if e.source == u && e.target == v then 1 else 0)
  }

  /** Each edge's key is the number of parallel edges added before it. */
  predicate KeysCount(edges: seq<Edge>)
  {
    forall i :: 0 <= i < |edges| ==> edges[i].key == Parallel(edges[..i], edges[i].source, edges[i].target)
  }

  /** The node sequence after adding n: unchanged when n is already a node, n last otherwise. */
  function WithNode(nodes: seq<Point>, n: Point): (r: seq<Point>)
    ensures n in r && forall m :: m in r <==> m in nodes || m == n
  {
    if n in nodes then nodes else nodes + [n]
  }

  lemma WithNodeDistinct(nodes: seq<Point>, n: Point)
    requires Distinct(nodes)
    ensures Distinct(WithNode(nodes, n))
  {
  }

  lemma {:induction false} ParallelPrefix(edges: seq<Edge>, i: int, j: int, u: Point, v: Point)
    requires 0 <= i <= j <= |edges|
    ensures Parallel(edges[..i], u, v) <= Parallel(edges[..j], u, v)
    decreases j - i
  {
    if i < j {
      ParallelPrefix(edges, i, j - 1, u, v);
      assert edges[..j][..j - 1] == edges[..j - 1];
    }
  }

  /** Parallel edges carry pairwise distinct keys, increasing in the order they were added. */
  lemma ParallelKeysDistinct(edges: seq<Edge>)
    requires KeysCount(edges)
    ensures forall i, j ::
      0 <= i < j < |edges| && edges[i].source == edges[j].source && edges[i].target == edges[j].target ==>
        edges[i].key < edges[j].key
  {
    forall i, j | 0 <= i < j < |edges| && edges[i].source == edges[j].source && edges[i].target == edges[j].target
      ensures edges[i].key < edges[j].key
    {
      var u, v := edges[i].source, edges[i].target;
      assert edges[..i + 1][..i] == edges[..i];
      assert Parallel(edges[..i + 1], u, v) == Parallel(edges[..i], u, v) + 1;
      ParallelPrefix(edges, i + 1, j, u, v);
    }
  }

  /** The nodes the graph holds after adding the entries in turn. */
  function GraphNodes(entries: seq<Entry>): seq<Point>
    decreases |entries|
  {
    if entries == [] then []
    else
      var e := entries[|entries| - 1];
      var front := GraphNodes(entries[..|entries| - 1]);
      if Complete(e) then WithNode(WithNode(front, Takeoff(e)), Touchdown(e)) else front
  }

  /** The edges the graph holds after adding the entries in turn. */
  function GraphEdges(entries: seq<Entry>): seq<Edge>
    decreases |entries|
  {
    if entries == [] then []
    else
      var e := entries[|entries| - 1];
      var front := GraphEdges(entries[..|entries| - 1]);
      if Complete(e) then front + [Edge(Takeoff(e), Touchdown(e), Parallel(front, Takeoff(e), Touchdown(e)), e.carga, e.direcao, e)]
      else front
  }

  /** The entries that become edges, in order. */
  function Kept(entries: seq<Entry>): (r: seq<Entry>)
    ensures forall e :: e in r ==> Complete(e)
    decreases |entries|
  {
    if entries == [] then []
    else Kept(entries[..|entries| - 1]) + (if Complete(entries[|entries| - 1]) then [entries[|entries| - 1]] else [])
  }

  lemma {:induction false} KeptMember(entries: seq<Entry>, e: Entry)
    ensures e in Kept(entries) <==> e in entries && Complete(e)
    decreases |entries|
  {
    if entries != [] {
      var n := |entries|;
      KeptMember(entries[..n - 1], e);
      if e in entries && e != entries[n - 1] {
        var i :| 0 <= i < n && entries[i] == e;
        assert entries[..n - 1][i] == e;
      }
    }
  }

  /** Edge i goes from the takeoff to the landing of entry i and carries its charge, direction and the entry. */
  predicate EdgesFrom(edges: seq<Edge>, kept: seq<Entry>)
    requires forall e :: e in kept ==> Complete(e)
  {
    |edges| == |kept| &&
    forall i :: 0 <= i < |edges| ==>
      edges[i].source == Takeoff(kept[i]) && edges[i].target == Touchdown(kept[i]) &&
      edges[i].carga == kept[i].carga && edges[i].direcao == kept[i].direcao && edges[i].dados == kept[i]
  }

  /**
   * Incomplete entries are skipped; every other entry gives exactly one edge, in
   * order, from its takeoff to its landing, carrying its charge, direction and
   * the entry itself; each key counts the parallel edges before it.
   */
  lemma {:induction false} GraphEdgesSpec(entries: seq<Entry>)
    ensures var edges := GraphEdges(entries); var kept := Kept(entries);
      |edges| == |kept| &&
      (forall i :: 0 <= i < |edges| ==>
        edges[i].source == Takeoff(kept[i]) && edges[i].target == Touchdown(kept[i]) &&
        edges[i].carga == kept[i].carga && edges[i].direcao == kept[i].direcao && edges[i].dados == kept[i]) &&
      KeysCount(edges)
    decreases |entries|
  {
    assert EdgesFrom(GraphEdges(entries), Kept(entries)) && KeysCount(GraphEdges(entries)) by {
      GraphEdgesFrom(entries);
    }
  }

  lemma {:induction false} GraphEdgesFrom(entries: seq<Entry>)
    ensures EdgesFrom(GraphEdges(entries), Kept(entries)) && KeysCount(GraphEdges(entries))
    decreases |entries|
  {
    if entries != [] {
      var n := |entries|;
      var fe := entries[..n - 1];
      GraphEdgesFrom(fe);
      var e := entries[n - 1];
      if Complete(e) {
        assert Kept(entries) == Kept(fe) + [e];
        EdgeStep(GraphEdges(fe), Kept(fe), e);
      } else {
        assert Kept(entries) == Kept(fe);
      }
    }
  }

  /** One more complete entry adds one matching edge whose key counts the parallel edges before it. */
  lemma EdgeStep(front: seq<Edge>, kf: seq<Entry>, e: Entry)
    requires forall d :: d in kf ==> Complete(d)
    requires Complete(e) && EdgesFrom(front, kf) && KeysCount(front)
    ensures forall d :: d in kf + [e] ==> Complete(d)
    ensures var edges := front + [Edge(Takeoff(e), Touchdown(e), Parallel(front, Takeoff(e), Touchdown(e)), e.carga, e.direcao, e)];
      EdgesFrom(edges, kf + [e]) && KeysCount(edges)
  {
    var x := Edge(Takeoff(e), Touchdown(e), Parallel(front, Takeoff(e), Touchdown(e)), e.carga, e.direcao, e);
    EdgesFromSnoc(front, kf, x, e);
    KeysCountSnoc(front, x);
  }

  lemma EdgesFromSnoc(front: seq<Edge>, kf: seq<Entry>, x: Edge, e: Entry)
    requires forall d :: d in kf ==> Complete(d)
    requires Complete(e) && EdgesFrom(front, kf)
    requires x.source == Takeoff(e) && x.target == Touchdown(e) && x.carga == e.carga && x.direcao == e.direcao && x.dados == e
    ensures forall d :: d in kf + [e] ==> Complete(d)
    ensures EdgesFrom(front + [x], kf + [e])
  {
    var edges, kept := front + [x], kf + [e];
    assert forall i :: 0 <= i < |front| ==> edges[i] == front[i] && kept[i] == kf[i];
  }

  lemma KeysCountSnoc(front: seq<Edge>, x: Edge)
    requires KeysCount(front) && x.key == Parallel(front, x.source, x.target)
    ensures KeysCount(front + [x])
  {
    var edges := front + [x];
    assert edges[..|front|] == front;
    forall i | 0 <= i < |front| ensures edges[i] == front[i] && edges[..i] == front[..i] {
    }
  }

  lemma EndsInNodes(edges: seq<Edge>, x: Edge, nodes: seq<Point>)
    requires forall i :: 0 <= i < |edges| ==> edges[i].source in nodes && edges[i].target in nodes
    requires x.source in nodes && x.target in nodes
    ensures forall i :: 0 <= i < |edges + [x]| ==> (edges + [x])[i].source in nodes && (edges + [x])[i].target in nodes
  {
    var es := edges + [x];
    assert forall i :: 0 <= i < |edges| ==> es[i] == edges[i];
  }

  /** p is a takeoff or landing of a complete entry. */
  ghost predicate Endpoint(entries: seq<Entry>, p: Point)
  {
    exists e :: e in entries && Complete(e) && (p == Takeoff(e) || p == Touchdown(e))
  }

  /**
   * The nodes are exactly the takeoff and landing positions of the complete
   * entries, each listed once.
   */
  lemma {:induction false} GraphNodesSpec(entries: seq<Entry>)
    ensures Distinct(GraphNodes(entries))
    ensures forall p :: p in GraphNodes(entries) <==>
      exists e :: e in entries && Complete(e) && (p == Takeoff(e) || p == Touchdown(e))
    decreases |entries|
  {
    GraphNodesOf(entries);
    forall p ensures p in GraphNodes(entries) <==> Endpoint(entries, p) {
    }
  }

  lemma {:induction false} GraphNodesOf(entries: seq<Entry>)
    ensures Distinct(GraphNodes(entries))
    ensures forall p :: p in GraphNodes(entries) <==> Endpoint(entries, p)
    decreases |entries|
  {
    if entries != [] {
      var n := |entries|;
      var front := entries[..n - 1];
      GraphNodesOf(front);
      var e := entries[n - 1];
      assert entries == front + [e];
      if Complete(e) {
        WithNodeDistinct(GraphNodes(front), Takeoff(e));
        WithNodeDistinct(WithNode(GraphNodes(front), Takeoff(e)), Touchdown(e));
      }
      forall p ensures p in GraphNodes(entries) <==> Endpoint(entries, p) {
        EndpointSnoc(front, e, p);
      }
    }
  }

  lemma EndpointSnoc(front: seq<Entry>, e: Entry, p: Point)
    ensures Endpoint(front + [e], p) <==> Endpoint(front, p) || (Complete(e) && (p == Takeoff(e) || p == Touchdown(e)))
  {
    var entries := front + [e];
    if Endpoint(entries, p) {
      var d :| d in entries && Complete(d) && (p == Takeoff(d) || p == Touchdown(d));
      if d != e {
        assert d in front;
      }
    }
    if Endpoint(front, p) {
      var d :| d in front && Complete(d) && (p == Takeoff(d) || p == Touchdown(d));
      assert d in entries;
    }
    if Complete(e) && (p == Takeoff(e) || p == Touchdown(e)) {
      assert e in entries;
    }
  }

  /** A directed multigraph with insertion-ordered nodes and edges. */
  class MultiDiGraph {
    var nodes: seq<Point>
    var edges: seq<Edge>

    predicate Valid()
      reads this
    {
      Distinct(nodes) &&
      (forall i :: 0 <= i < |edges| ==> edges[i].source in nodes && edges[i].target in nodes) &&
      KeysCount(edges)
    }

    constructor ()
      ensures Valid() && nodes == [] && edges == []
    {
      nodes := [];
      edges := [];
    }

    /** Adds n as a node unless it already is one. */
    method AddNode(n: Point)
      requires Valid()
      modifies this
      ensures Valid()
      ensures nodes == WithNode(old(nodes), n) && edges == old(edges)
    {
      if n !in nodes {
        nodes := nodes + [n];
      }
    }

    /**
     * The key of a new edge from u to v: the number of edges from u to v
     * already present, which no existing edge from u to v carries.
     */
    method NewEdgeKey(u: Point, v: Point) returns (key: nat)
      requires Valid()
      ensures key == Parallel(edges, u, v)
      ensures forall i :: 0 <= i < |edges| && edges[i].source == u && edges[i].target == v ==> edges[i].key != key
    {
      key := 0;
      for i := 0 to |edges|
        invariant key == Parallel(edges[..i], u, v)
      {
        assert edges[..i + 1][..i] == edges[..i];
        if edges[i].source == u && edges[i].target == v {
          key := key + 1;
        }
      }
      assert edges[..|edges|] == edges;
      forall i | 0 <= i < |edges| && edges[i].source == u && edges[i].target == v ensures edges[i].key != key {
        assert edges[..i + 1][..i] == edges[..i];
        assert Parallel(edges[..i + 1], u, v) == edges[i].key + 1;
        ParallelPrefix(edges, i + 1, |edges|, u, v);
      }
    }

    /** Adds an edge from u to v with the given attributes, adding u and v as nodes first. */
    method AddEdge(u: Point, v: Point, carga: int, direcao: string, dados: Entry)
      requires Valid()
      modifies this
      ensures Valid()
      ensures nodes == WithNode(WithNode(old(nodes), u), v)
      ensures edges == old(edges) + [Edge(u, v, Parallel(old(edges), u, v), carga, direcao, dados)]
    {
      AddNode(u);
      AddNode(v);
      var key := NewEdgeKey(u, v);
      var x := Edge(u, v, key, carga, direcao, dados);
      KeysCountSnoc(edges, x);
      EndsInNodes(edges, x, nodes);
      edges := edges + [x];
    }
  }
}
