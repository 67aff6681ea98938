/**
 * The canonical graph both readers build and the measures facade wraps: networkx's
 * `Graph` / `DiGraph` seen as a value. Nodes keep their insertion order (networkx
 * iterates them in that order); an edge is keyed by an ordered pair in a directed
 * graph and by an unordered pair in an undirected one, and carries either no
 * attribute or a `weight`.
 */
module Graphs {
  import opened Wrappers

  /** A decoded entry value: the pattern flag, or an integer, float or complex weight. */
  datatype Value = Flag(b: bool) | IntValue(i: int) | FloatValue(r: real) | ComplexValue(re: real, im: real)

  datatype EdgeKey = Arc(source: string, target: string) | Link(ends: set<string>)

  function Ends(k: EdgeKey): set<string> {
    match k
    case Arc(s, t) => {s, t}
    case Link(e) => e
  }

  /** The key networkx files the edge (u, v) under. */
  function Key(directed: bool, u: string, v: string): (k: EdgeKey)
    ensures Ends(k) == {u, v}
  {
    if directed then Arc(u, v) else Link({u, v})
  }

  /** `weight` is the edge's weight attribute; None when the edge has no attributes. */
  datatype Graph = Graph(name: string, directed: bool, nodes: seq<string>, edges: map<EdgeKey, Option<Value>>)

  predicate Distinct(ns: seq<string>) {
    forall i, j :: 0 <= i < j < |ns| ==> ns[i] != ns[j]
  }

  predicate KeyFits(directed: bool, k: EdgeKey) {
    if directed then k.Arc? else k.Link? && 1 <= |k.ends| <= 2
  }

  /** Nodes are listed once, and every edge joins listed nodes with a key of the graph's kind. */
  ghost predicate WellFormed(g: Graph) {
    && Distinct(g.nodes)
    && forall k :: k in g.edges ==> KeyFits(g.directed, k) && forall n :: n in Ends(k) ==> n in g.nodes
  }

  /** `Graph()` / `DiGraph()`: no nodes, no edges, empty name. */
  function Empty(directed: bool): (g: Graph)
    ensures WellFormed(g)
  {
    Graph("", directed, [], map[])
  }

  /** `G.has_edge(u, v)`. */
  predicate HasEdge(g: Graph, u: string, v: string) {
    Key(g.directed, u, v) in g.edges
  }

  /** Appends `u` to the node order unless it is already there. */
  function AddNode(ns: seq<string>, u: string): seq<string> {
    if u in ns then ns else ns + [u]
  }

  /** Adding a node keeps the order of the nodes already present and lists every node once. */
  lemma AddNodeProperties(ns: seq<string>, u: string)
    ensures u in AddNode(ns, u) && forall n :: n in AddNode(ns, u) <==> n in ns || n == u
    ensures Distinct(ns) ==> Distinct(AddNode(ns, u))
    ensures |ns| <= |AddNode(ns, u)| && AddNode(ns, u)[..|ns|] == ns
  {
  }

  /**
   * `G.add_edge(u, v, **attr)`: adds missing endpoints at the end of the node order
   * and updates the edge's attribute dictionary with `attr`, so an edge added again
   * without a weight keeps the weight it had.
   */
  function AddEdge(g: Graph, u: string, v: string, w: Option<Value>): (h: Graph)
    ensures h.name == g.name && h.directed == g.directed
  {
    var k := Key(g.directed, u, v);
    var old_w := if k in g.edges then g.edges[k] else None;
    g.(nodes := AddNode(AddNode(g.nodes, u), v), edges := g.edges[k := if w.Some? then w else old_w])
  }

  /** The key of any pair fits the graph's kind: an arc, or a link with one or two ends. */
  lemma KeyFitsKey(directed: bool, u: string, v: string)
    ensures KeyFits(directed, Key(directed, u, v))
  {
    if !directed {
      if u == v { assert {u, v} == {u}; } else { assert {u, v} == {u} + {v}; }
    }
  }

  /** Adding an edge keeps a graph well formed, makes the edge present and leaves every other edge alone. */
  lemma AddEdgeProperties(g: Graph, u: string, v: string, w: Option<Value>)
    requires WellFormed(g)
    ensures WellFormed(AddEdge(g, u, v, w))
    ensures HasEdge(AddEdge(g, u, v, w), u, v)
    ensures AddEdge(g, u, v, w).edges.Keys == g.edges.Keys + {Key(g.directed, u, v)}
    ensures forall k :: k in g.edges && k != Key(g.directed, u, v) ==> AddEdge(g, u, v, w).edges[k] == g.edges[k]
    ensures forall n :: n in AddEdge(g, u, v, w).nodes <==> n in g.nodes || n == u || n == v
  {
    var h := AddEdge(g, u, v, w);
    var k := Key(g.directed, u, v);
    AddNodeProperties(g.nodes, u);
    AddNodeProperties(AddNode(g.nodes, u), v);
    forall k' | k' in h.edges
      ensures KeyFits(h.directed, k') && forall n :: n in Ends(k') ==> n in h.nodes
    {
      if k' == k {
        KeyFitsKey(g.directed, u, v);
      }
    }
  }

  /** An undirected graph has (u, v) exactly when it has (v, u); a directed one keeps the two apart. */
  lemma HasEdgeSymmetry(g: Graph, u: string, v: string)
    ensures !g.directed ==> (HasEdge(g, u, v) <==> HasEdge(g, v, u))
    ensures g.directed && u != v ==> Key(g.directed, u, v) != Key(g.directed, v, u)
  {
    assert {u, v} == {v, u};
  }

  /**
   * networkx's `is_weighted(G)`: the graph has at least one edge and every edge
   * carries a `weight` attribute.
   */
  predicate IsWeighted(g: Graph) {
    |g.edges| > 0 && forall k :: k in g.edges ==> g.edges[k].Some?
  }

  // ---- degrees, in node order ----

  /** Undirected degree: incident edges, a self-loop counted twice. */
  function Degree(g: Graph, n: string): nat {
    |set k | k in g.edges && n in Ends(k)| + (if Link({n}) in g.edges then 1 else 0)
  }

  function InDegree(g: Graph, n: string): nat {
    |set k | k in g.edges && k.Arc? && k.target == n|
  }

  function OutDegree(g: Graph, n: string): nat {
    |set k | k in g.edges && k.Arc? && k.source == n|
  }

  /** `[d for _, d in G.degree()]`. */
  function Degrees(g: Graph): (ds: seq<int>)
    ensures |ds| == |g.nodes|
  {
    seq(|g.nodes|, i requires 0 <= i < |g.nodes| => Degree(g, g.nodes[i]))
  }

  function InDegrees(g: Graph): (ds: seq<int>)
    ensures |ds| == |g.nodes|
  {
    seq(|g.nodes|, i requires 0 <= i < |g.nodes| => InDegree(g, g.nodes[i]))
  }

  function OutDegrees(g: Graph): (ds: seq<int>)
    ensures |ds| == |g.nodes|
  {
    seq(|g.nodes|, i requires 0 <= i < |g.nodes| => OutDegree(g, g.nodes[i]))
  }

  // ---- induced subgraphs ----

  /** The nodes of `ns` that lie in `s`, in the order of `ns`. */
  function FilterNodes(ns: seq<string>, s: set<string>): (r: seq<string>)
    ensures forall n :: n in r <==> n in ns && n in s
    ensures Distinct(ns) ==> Distinct(r)
  {
    if ns == [] then []
    else if ns[0] in s then [ns[0]] + FilterNodes(ns[1..], s)
    else FilterNodes(ns[1..], s)
  }

  /**
   * `G.subgraph(s).copy()`: the nodes of `g` that lie in `s`, and every edge of `g`
   * whose endpoints both lie in `s`, with its attribute.
   */
  function Subgraph(g: Graph, s: set<string>): (h: Graph)
    ensures h.name == g.name && h.directed == g.directed
    ensures forall n :: n in h.nodes <==> n in g.nodes && n in s
    ensures forall k :: k in h.edges <==> k in g.edges && Ends(k) <= s
    ensures forall k :: k in h.edges ==> h.edges[k] == g.edges[k]
    ensures WellFormed(g) ==> WellFormed(h)
  {
    g.(nodes := FilterNodes(g.nodes, s), edges := map k | k in g.edges && Ends(k) <= s :: g.edges[k])
  }
}
