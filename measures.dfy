/**
 * The measures facade (`GraphMeasures`): one graph and one cache slot per measure.
 * Each accessor computes its measure on first use, stores it, and afterwards
 * returns what it stored. The networkx algorithms it calls are parameters
 * (`Algorithms`); the selection and aggregation around them is modelled exactly.
 */
module Measures {
  import opened Wrappers
  import opened Graphs
  import opened Ranking

  /** `all_pairs_shortest_path_length`: per source, its (target, distance) pairs. */
  type Distances = seq<(string, seq<(string, nat)>)>

  /** The networkx functions the facade calls, as functions of the graph. */
  datatype Algorithms = Algorithms(
    isConnected: Graph -> bool,
    isWeaklyConnected: Graph -> bool,
    numberConnectedComponents: Graph -> nat,
    numberStronglyConnectedComponents: Graph -> nat,
    connectedComponents: Graph -> seq<set<string>>,
    stronglyConnectedComponents: Graph -> seq<set<string>>,
    weaklyConnectedComponents: Graph -> seq<set<string>>,
    averageShortestPathLength: Graph -> real,
    diameter: Graph -> int,
    eccentricity: Graph -> seq<int>,
    globalEfficiency: Graph -> real,
    allPairsShortestPathLength: Graph -> Distances,
    transitivity: Graph -> real,
    averageClustering: Graph -> real,
    degreeAssortativity: Graph -> real,
    degreeCentrality: Graph -> seq<Scored>,
    betweennessCentrality: Graph -> seq<Scored>,
    closenessCentrality: Graph -> seq<Scored>,
    strengths: Graph -> seq<real>,
    inStrengths: Graph -> seq<real>,
    outStrengths: Graph -> seq<real>)

  /**
   * What an accessor raises: `MeasureError` (an `AttributeError`) when the measure
   * does not apply, `ValueError` from `max` of nothing, `StatisticsError` from `mean`
   * of nothing.
   */
  datatype MeasureFailure = MeasureError(message: string) | EmptySequence | NoData

  const CONNECTED_MESSAGE: string :=
    "Directed graphs cannot be plainly connected, use 'weakly_connected' or 'strongly_connected' instead."
  const WEAKLY_MESSAGE: string := "Undirected graphs cannot be weakly connected, use 'connected' instead."
  const STRONGLY_MESSAGE: string := "Undirected graphs cannot be strongly connected, use 'connected' instead."
  const STRENGTH_MESSAGE: string := "Unweighted graphs cannot have strength."

  /** A measure of an undirected graph, or the (in, out) pair of a directed one. */
  datatype PerDirection<T> = Whole(value: T) | InOut(inValue: T, outValue: T)

  // ---- global_efficiency_directional ----

  /** The sum of 1/d over the pairs of one row with d > 0. */
  function RowEfficiency(targets: seq<(string, nat)>): real {
    if targets == [] then 0.0
    else
      var d := targets[|targets| - 1].1;
      RowEfficiency(targets[..|targets| - 1]) + (if d > 0 then 1.0 / d as real else 0.0)
  }

  function EfficiencySum(lengths: Distances): real {
    if lengths == [] then 0.0
    else EfficiencySum(lengths[..|lengths| - 1]) + RowEfficiency(lengths[|lengths| - 1].1)
  }

  /** The number of pairs at a positive distance. */
  function PositivePairs(lengths: Distances): nat {
    if lengths == [] then 0
    else
      var targets := lengths[|lengths| - 1].1;
      PositivePairs(lengths[..|lengths| - 1]) + |set j | 0 <= j < |targets| && targets[j].1 > 0|
  }

  /** Efficiency of an `n`-node graph: 0 when n(n-1) is 0, else the sum of 1/d over n(n-1). */
  function Efficiency(n: nat, lengths: Distances): real {
    var denom := n * (n - 1);
    if denom != 0 then EfficiencySum(lengths) / denom as real else 0.0
  }

  lemma {:induction false} RowEfficiencyBounds(targets: seq<(string, nat)>)
    ensures 0.0 <= RowEfficiency(targets) <= |set j | 0 <= j < |targets| && targets[j].1 > 0| as real
  {
    if targets != [] {
      var init := targets[..|targets| - 1];
      RowEfficiencyBounds(init);
      var last := |targets| - 1;
      var before := set j | 0 <= j < |init| && init[j].1 > 0;
      var after := set j | 0 <= j < |targets| && targets[j].1 > 0;
      assert before == set j | 0 <= j < last && targets[j].1 > 0;
      if targets[last].1 > 0 {
        assert after == before + {last};
        assert 1.0 / targets[last].1 as real <= 1.0;
      } else {
        assert after == before;
      }
    }
  }

  lemma {:induction false} EfficiencySumBounds(lengths: Distances)
    ensures 0.0 <= EfficiencySum(lengths) <= PositivePairs(lengths) as real
  {
    if lengths != [] {
      EfficiencySumBounds(lengths[..|lengths| - 1]);
      RowEfficiencyBounds(lengths[|lengths| - 1].1);
    }
  }

  /**
   * The efficiency is never negative, is 0 for fewer than two nodes, and is at most
   * the share of the n(n-1) ordered pairs that lie at a positive distance.
   */
  lemma EfficiencyBounds(n: nat, lengths: Distances)
    ensures Efficiency(n, lengths) >= 0.0
    ensures n < 2 ==> Efficiency(n, lengths) == 0.0
    ensures n >= 2 ==> Efficiency(n, lengths) * (n * (n - 1)) as real <= PositivePairs(lengths) as real
  {
    EfficiencySumBounds(lengths);
    if n >= 2 {
      assert n * (n - 1) > 0 by {
        assert n - 1 >= 1;
      }
    }
  }

  /**
   * `global_efficiency_directional(graph)`: the double loop over the distance map,
   * adding 1/d for every positive distance, then the division by n(n-1).
   */
  method GlobalEfficiencyDirectional(algs: Algorithms, graph: Graph) returns (gEff: real)
    ensures gEff == Efficiency(|graph.nodes|, algs.allPairsShortestPathLength(graph))
  {
    var n := |graph.nodes|;
    var denom := n * (n - 1);
    if denom != 0 {
      var lengths := algs.allPairsShortestPathLength(graph);
      gEff := 0.0;
      var i := 0;
      while i < |lengths|
        invariant 0 <= i <= |lengths|
        invariant gEff == EfficiencySum(lengths[..i])
      {
        var targets := lengths[i].1;
        var j := 0;
        while j < |targets|
          invariant 0 <= j <= |targets|
          invariant gEff == EfficiencySum(lengths[..i]) + RowEfficiency(targets[..j])
        {
          var distance := targets[j].1;
          if distance > 0 {
            gEff := gEff + 1.0 / distance as real;
          }
          assert targets[..j + 1][..j] == targets[..j];
          j := j + 1;
        }
        assert targets[..j] == targets;
        assert lengths[..i + 1][..i] == lengths[..i];
        i := i + 1;
      }
      assert lengths[..i] == lengths;
      gEff := gEff / denom as real;
    } else {
      gEff := 0.0;
    }
  }

  // ---- selections ----

  /** `max(components, key=len)`: the first component of greatest size; None when there is none. */
  function LargestIndex(cs: seq<set<string>>): (r: Option<nat>)
    ensures r.None? <==> cs == []
    ensures r.Some? ==> r.value < |cs| && forall j :: 0 <= j < |cs| ==> |cs[j]| <= |cs[r.value]|
    ensures r.Some? ==> forall j :: 0 <= j < r.value ==> |cs[j]| < |cs[r.value]|
  {
    if cs == [] then None
    else
      var best := LargestIndex(cs[..|cs| - 1]);
      if best.None? || |cs[|cs| - 1]| > |cs[best.value]| then Some(|cs| - 1) else best
  }

  /** `max(values)` over integers; None when there are none. */
  function MaxOf(xs: seq<int>): (r: Option<int>)
    ensures r.None? <==> xs == []
    ensures r.Some? ==> r.value in xs && forall j :: 0 <= j < |xs| ==> xs[j] <= r.value
  {
    if xs == [] then None
    else
      var m := MaxOf(xs[..|xs| - 1]);
      if m.None? || xs[|xs| - 1] > m.value then Some(xs[|xs| - 1]) else m
  }

  /** `G.subgraph(max(components, key=len)).copy()`. */
  function LargestOf(g: Graph, cs: seq<set<string>>): Result<Graph, MeasureFailure> {
    match LargestIndex(cs)
    case None => Failure(EmptySequence)
    case Some(i) => Success(Subgraph(g, cs[i]))
  }

  function Reals(xs: seq<int>): (r: seq<real>)
    ensures |r| == |xs|
  {
    seq(|xs|, i requires 0 <= i < |xs| => xs[i] as real)
  }

  function Scores(items: seq<Scored>): (r: seq<real>)
    ensures |r| == |items|
  {
    seq(|items|, i requires 0 <= i < |items| => items[i].1)
  }

  function MeanOf(xs: seq<real>): Result<real, MeasureFailure> {
    match Mean(xs)
    case None => Failure(NoData)
    case Some(m) => Success(m)
  }

  // ---- what each accessor computes ----

  function ConnectedOf(algs: Algorithms, g: Graph): Result<bool, MeasureFailure> {
    if !g.directed then Success(algs.isConnected(g)) else Failure(MeasureError(CONNECTED_MESSAGE))
  }

  function WeaklyConnectedOf(algs: Algorithms, g: Graph): Result<bool, MeasureFailure> {
    if g.directed then Success(algs.isWeaklyConnected(g)) else Failure(MeasureError(WEAKLY_MESSAGE))
  }

  /** As written, strong connectivity is computed with `is_weakly_connected`. */
  function StronglyConnectedOf(algs: Algorithms, g: Graph): Result<bool, MeasureFailure> {
    if g.directed then Success(algs.isWeaklyConnected(g)) else Failure(MeasureError(STRONGLY_MESSAGE))
  }

  /**
   * `len(G.in_edges)` when directed, `G.number_of_edges()` otherwise: both count the
   * edges, so the directed branch is an int too.
   */
  function EdgeCountOf(g: Graph): nat {
    |g.edges|
  }

  function AvgEdgeCountOf(g: Graph): Result<PerDirection<real>, MeasureFailure> {
    if g.directed then
      var i :- MeanOf(Reals(InDegrees(g)));
      var o :- MeanOf(Reals(OutDegrees(g)));
      Success(InOut(i, o))
    else
      var m :- MeanOf(Reals(Degrees(g)));
      Success(Whole(m))
  }

  function AvgStrengthOf(algs: Algorithms, g: Graph): Result<PerDirection<real>, MeasureFailure> {
    if !IsWeighted(g) then Failure(MeasureError(STRENGTH_MESSAGE))
    else if g.directed then
      var i :- MeanOf(algs.inStrengths(g));
      var o :- MeanOf(algs.outStrengths(g));
      Success(InOut(i, o))
    else
      var m :- MeanOf(algs.strengths(g));
      Success(Whole(m))
  }

  function ComponentCountOf(algs: Algorithms, g: Graph): nat {
    if g.directed then algs.numberStronglyConnectedComponents(g) else algs.numberConnectedComponents(g)
  }

  /**
   * `largest_component_measures` before wrapping: None when the graph is connected
   * (the facade then answers with itself), else the subgraph on the largest
   * strongly connected (directed) or connected (undirected) component.
   */
  function LargestComponentOf(algs: Algorithms, g: Graph): Result<Option<Graph>, MeasureFailure> {
    if g.directed then
      if algs.isWeaklyConnected(g) then Success(None)
      else
        var h :- LargestOf(g, algs.stronglyConnectedComponents(g));
        Success(Some(h))
    else
      if algs.isConnected(g) then Success(None)
      else
        var h :- LargestOf(g, algs.connectedComponents(g));
        Success(Some(h))
  }

  /** Shortest paths are measured on the largest weakly connected component of a directed graph. */
  function PathComponentOf(algs: Algorithms, g: Graph): Result<Graph, MeasureFailure> {
    LargestOf(g, if g.directed then algs.weaklyConnectedComponents(g) else algs.connectedComponents(g))
  }

  /** Diameter and eccentricity are measured on the largest strongly connected component of a directed graph. */
  function CoreComponentOf(algs: Algorithms, g: Graph): Result<Graph, MeasureFailure> {
    LargestOf(g, if g.directed then algs.stronglyConnectedComponents(g) else algs.connectedComponents(g))
  }

  function ShortestPathLengthOf(algs: Algorithms, g: Graph): Result<real, MeasureFailure> {
    var h :- PathComponentOf(algs, g);
    Success(algs.averageShortestPathLength(h))
  }

  function DiameterOf(algs: Algorithms, g: Graph): Result<int, MeasureFailure> {
    var h :- CoreComponentOf(algs, g);
    Success(algs.diameter(h))
  }

  function EccentricityOf(algs: Algorithms, g: Graph): Result<int, MeasureFailure> {
    var h :- CoreComponentOf(algs, g);
    match MaxOf(algs.eccentricity(h))
    case None => Failure(EmptySequence)
    case Some(e) => Success(e)
  }

  function GlobalEfficiencyOf(algs: Algorithms, g: Graph): real {
    if g.directed then Efficiency(|g.nodes|, algs.allPairsShortestPathLength(g)) else algs.globalEfficiency(g)
  }

  function DegreeDistributionOf(g: Graph): PerDirection<Tally> {
    if g.directed then InOut(Distribution(InDegrees(g)), Distribution(OutDegrees(g)))
    else Whole(Distribution(Degrees(g)))
  }

  const TOP: nat := 10

  // ---- properties of the measures ----

  /**
   * `connected` fails exactly on directed graphs, `weakly_connected` and
   * `strongly_connected` exactly on undirected ones, each with a `MeasureError`;
   * on a directed graph the strong answer is always the weak one.
   */
  lemma ConnectivityGating(algs: Algorithms, g: Graph)
    ensures ConnectedOf(algs, g).Failure? <==> g.directed
    ensures WeaklyConnectedOf(algs, g).Failure? <==> !g.directed
    ensures StronglyConnectedOf(algs, g).Failure? <==> !g.directed
    ensures ConnectedOf(algs, g).Failure? ==> ConnectedOf(algs, g).error.MeasureError?
    ensures WeaklyConnectedOf(algs, g).Failure? ==> WeaklyConnectedOf(algs, g).error.MeasureError?
    ensures StronglyConnectedOf(algs, g).Failure? ==> StronglyConnectedOf(algs, g).error.MeasureError?
    ensures g.directed ==> StronglyConnectedOf(algs, g) == WeaklyConnectedOf(algs, g)
  {
  }

  /**
   * The average degree exists exactly when the graph has a node, comes as an
   * (in, out) pair exactly for a directed graph, and is never negative.
   */
  lemma {:induction false} AvgEdgeCountShape(g: Graph)
    ensures AvgEdgeCountOf(g).Success? <==> |g.nodes| > 0
    ensures AvgEdgeCountOf(g).Failure? ==> AvgEdgeCountOf(g).error == NoData
    ensures AvgEdgeCountOf(g).Success? ==> (AvgEdgeCountOf(g).value.InOut? <==> g.directed)
  {
  }

  /**
   * `avg_strength` raises `MeasureError` exactly when the graph is not weighted; a
   * weighted graph gets an (in, out) pair exactly when it is directed.
   */
  lemma AvgStrengthGating(algs: Algorithms, g: Graph)
    ensures AvgStrengthOf(algs, g) == Failure(MeasureError(STRENGTH_MESSAGE)) <==> !IsWeighted(g)
    ensures AvgStrengthOf(algs, g).Success? ==> IsWeighted(g) && (AvgStrengthOf(algs, g).value.InOut? <==> g.directed)
  {
  }

  /**
   * A connected graph (strongly connected, as the facade computes it, when directed)
   * is its own largest component; otherwise the largest component is the subgraph
   * on a component no other component outnumbers, the first such in networkx's
   * order, and it keeps the graph's direction and well-formedness.
   */
  lemma LargestComponentShape(algs: Algorithms, g: Graph)
    ensures g.directed && algs.isWeaklyConnected(g) ==> LargestComponentOf(algs, g) == Success(None)
    ensures !g.directed && algs.isConnected(g) ==> LargestComponentOf(algs, g) == Success(None)
    ensures LargestComponentOf(algs, g).Success? && LargestComponentOf(algs, g).value.Some? ==>
      var cs := if g.directed then algs.stronglyConnectedComponents(g) else algs.connectedComponents(g);
      var h := LargestComponentOf(algs, g).value.value;
      exists i :: 0 <= i < |cs| && h == Subgraph(g, cs[i])
                  && (forall j :: 0 <= j < |cs| ==> |cs[j]| <= |cs[i]|)
                  && (forall j :: 0 <= j < i ==> |cs[j]| < |cs[i]|)
    ensures LargestComponentOf(algs, g).Success? && LargestComponentOf(algs, g).value.Some? ==>
      LargestComponentOf(algs, g).value.value.directed == g.directed
      && (WellFormed(g) ==> WellFormed(LargestComponentOf(algs, g).value.value))
  {
    if LargestComponentOf(algs, g).Success? && LargestComponentOf(algs, g).value.Some? {
      var cs := if g.directed then algs.stronglyConnectedComponents(g) else algs.connectedComponents(g);
      var i := LargestIndex(cs).value;
      assert LargestComponentOf(algs, g).value.value == Subgraph(g, cs[i]);
    }
  }

  /**
   * Component choice: when the graph is not connected, `diameter` and `eccentricity`
   * are computed on the very graph `largest_component_measures` wraps, while on a
   * directed graph `shortest_path_length` uses the largest weakly connected one.
   */
  lemma ComponentChoice(algs: Algorithms, g: Graph)
    ensures LargestComponentOf(algs, g).Success? && LargestComponentOf(algs, g).value.Some? ==>
      DiameterOf(algs, g) == Success(algs.diameter(LargestComponentOf(algs, g).value.value))
      && CoreComponentOf(algs, g) == Success(LargestComponentOf(algs, g).value.value)
    ensures g.directed ==> PathComponentOf(algs, g) == LargestOf(g, algs.weaklyConnectedComponents(g))
    ensures CoreComponentOf(algs, g).Failure? <==> DiameterOf(algs, g).Failure?
  {
  }

  /**
   * The degree distribution is a pair exactly for a directed graph; each of its
   * dicts has strictly ascending keys, positive counts adding up to the node count,
   * and counts each degree as often as a node has it.
   */
  lemma DegreeDistributionProperties(g: Graph)
    ensures DegreeDistributionOf(g).InOut? <==> g.directed
    ensures DegreeDistributionOf(g).Whole? ==>
      var d := DegreeDistributionOf(g).value;
      StrictlyAscendingKeys(d) && PositiveCounts(d) && Total(d) == |g.nodes|
      && forall k :: CountOf(d, k) == multiset(Degrees(g))[k]
    ensures DegreeDistributionOf(g).InOut? ==>
      var (i, o) := (DegreeDistributionOf(g).inValue, DegreeDistributionOf(g).outValue);
      StrictlyAscendingKeys(i) && PositiveCounts(i) && Total(i) == |g.nodes|
      && StrictlyAscendingKeys(o) && PositiveCounts(o) && Total(o) == |g.nodes|
      && (forall k :: CountOf(i, k) == multiset(InDegrees(g))[k])
      && (forall k :: CountOf(o, k) == multiset(OutDegrees(g))[k])
  {
    DistributionProperties(Degrees(g));
    DistributionProperties(InDegrees(g));
    DistributionProperties(OutDegrees(g));
  }

  /**
   * The facade: `graph` and `algs` are fixed at construction; every other field is
   * the cache slot of one accessor, None until that accessor first succeeds.
   */
  class GraphMeasures {
    const graph: Graph
    const algs: Algorithms
    var directedSlot: Option<bool>
    var weightedSlot: Option<bool>
    var connectedSlot: Option<bool>
    var weaklyConnectedSlot: Option<bool>
    var stronglyConnectedSlot: Option<bool>
    var nodeCountSlot: Option<nat>
    var edgeCountSlot: Option<nat>
    var avgEdgeCountSlot: Option<PerDirection<real>>
    var avgStrengthSlot: Option<PerDirection<real>>
    var componentCountSlot: Option<nat>
    var largestComponentSlot: Option<GraphMeasures>
    var shortestPathLengthSlot: Option<real>
    var diameterSlot: Option<int>
    var eccentricitySlot: Option<int>
    var globalEfficiencySlot: Option<real>
    var globalClusteringSlot: Option<real>
    var avgClusteringSlot: Option<real>
    var degreeAssortativitySlot: Option<real>
    var degreeDistributionSlot: Option<PerDirection<Tally>>
    var top10DegreeSlot: Option<seq<Scored>>
    var top10BetweennessSlot: Option<seq<Scored>>
    var top10ClosenessSlot: Option<seq<Scored>>
    var avgClosenessSlot: Option<real>
    var avgBetweennessSlot: Option<real>

    // ---- one predicate per slot: a filled slot holds what its accessor computes ----

    ghost predicate DirectedOk()
      reads this`directedSlot
    {
      directedSlot.Some? ==> directedSlot.value == graph.directed
    }

    ghost predicate WeightedOk()
      reads this`weightedSlot
    {
      weightedSlot.Some? ==> weightedSlot.value == IsWeighted(graph)
    }

    ghost predicate ConnectedOk()
      reads this`connectedSlot
    {
      connectedSlot.Some? ==> ConnectedOf(algs, graph) == Success(connectedSlot.value)
    }

    ghost predicate WeaklyConnectedOk()
      reads this`weaklyConnectedSlot
    {
      weaklyConnectedSlot.Some? ==> WeaklyConnectedOf(algs, graph) == Success(weaklyConnectedSlot.value)
    }

    ghost predicate StronglyConnectedOk()
      reads this`stronglyConnectedSlot
    {
      stronglyConnectedSlot.Some? ==> StronglyConnectedOf(algs, graph) == Success(stronglyConnectedSlot.value)
    }

    ghost predicate NodeCountOk()
      reads this`nodeCountSlot
    {
      nodeCountSlot.Some? ==> nodeCountSlot.value == |graph.nodes|
    }

    ghost predicate EdgeCountOk()
      reads this`edgeCountSlot
    {
      edgeCountSlot.Some? ==> edgeCountSlot.value == EdgeCountOf(graph)
    }

    ghost predicate AvgEdgeCountOk()
      reads this`avgEdgeCountSlot
    {
      avgEdgeCountSlot.Some? ==> AvgEdgeCountOf(graph) == Success(avgEdgeCountSlot.value)
    }

    ghost predicate AvgStrengthOk()
      reads this`avgStrengthSlot
    {
      avgStrengthSlot.Some? ==> AvgStrengthOf(algs, graph) == Success(avgStrengthSlot.value)
    }

    ghost predicate ComponentCountOk()
      reads this`componentCountSlot
    {
      componentCountSlot.Some? ==> componentCountSlot.value == ComponentCountOf(algs, graph)
    }

    ghost predicate LargestComponentOk()
      reads this`largestComponentSlot
    {
      largestComponentSlot.Some? ==> LargestComponentOf(algs, graph) == Success(Some(largestComponentSlot.value.graph)) && largestComponentSlot.value.algs == algs
    }

    ghost predicate ShortestPathLengthOk()
      reads this`shortestPathLengthSlot
    {
      shortestPathLengthSlot.Some? ==> ShortestPathLengthOf(algs, graph) == Success(shortestPathLengthSlot.value)
    }

    ghost predicate DiameterOk()
      reads this`diameterSlot
    {
      diameterSlot.Some? ==> DiameterOf(algs, graph) == Success(diameterSlot.value)
    }

    ghost predicate EccentricityOk()
      reads this`eccentricitySlot
    {
      eccentricitySlot.Some? ==> EccentricityOf(algs, graph) == Success(eccentricitySlot.value)
    }

    ghost predicate GlobalEfficiencyOk()
      reads this`globalEfficiencySlot
    {
      globalEfficiencySlot.Some? ==> globalEfficiencySlot.value == GlobalEfficiencyOf(algs, graph)
    }

    ghost predicate GlobalClusteringOk()
      reads this`globalClusteringSlot
    {
      globalClusteringSlot.Some? ==> globalClusteringSlot.value == algs.transitivity(graph)
    }

    ghost predicate AvgClusteringOk()
      reads this`avgClusteringSlot
    {
      avgClusteringSlot.Some? ==> avgClusteringSlot.value == algs.averageClustering(graph)
    }

    ghost predicate DegreeAssortativityOk()
      reads this`degreeAssortativitySlot
    {
      degreeAssortativitySlot.Some? ==> degreeAssortativitySlot.value == algs.degreeAssortativity(graph)
    }

    ghost predicate DegreeDistributionOk()
      reads this`degreeDistributionSlot
    {
      degreeDistributionSlot.Some? ==> degreeDistributionSlot.value == DegreeDistributionOf(graph)
    }

    ghost predicate Top10DegreeOk()
      reads this`top10DegreeSlot
    {
      top10DegreeSlot.Some? ==> top10DegreeSlot.value == NLargest(TOP, algs.degreeCentrality(graph))
    }

    ghost predicate Top10BetweennessOk()
      reads this`top10BetweennessSlot
    {
      top10BetweennessSlot.Some? ==> top10BetweennessSlot.value == NLargest(TOP, algs.betweennessCentrality(graph))
    }

    ghost predicate Top10ClosenessOk()
      reads this`top10ClosenessSlot
    {
      top10ClosenessSlot.Some? ==> top10ClosenessSlot.value == NLargest(TOP, algs.closenessCentrality(graph))
    }

    ghost predicate AvgClosenessOk()
      reads this`avgClosenessSlot
    {
      avgClosenessSlot.Some? ==> MeanOf(Scores(algs.closenessCentrality(graph))) == Success(avgClosenessSlot.value)
    }

    ghost predicate AvgBetweennessOk()
      reads this`avgBetweennessSlot
    {
      avgBetweennessSlot.Some? ==> MeanOf(Scores(algs.betweennessCentrality(graph))) == Success(avgBetweennessSlot.value)
    }

    /** Every filled slot holds what its accessor computes from the graph. */
    ghost predicate Valid()
      reads this
    {
      && DirectedOk()
      && WeightedOk()
      && ConnectedOk()
      && WeaklyConnectedOk()
      && StronglyConnectedOk()
      && NodeCountOk()
      && EdgeCountOk()
      && AvgEdgeCountOk()
      && AvgStrengthOk()
      && ComponentCountOk()
      && LargestComponentOk()
      && ShortestPathLengthOk()
      && DiameterOk()
      && EccentricityOk()
      && GlobalEfficiencyOk()
      && GlobalClusteringOk()
      && AvgClusteringOk()
      && DegreeAssortativityOk()
      && DegreeDistributionOk()
      && Top10DegreeOk()
      && Top10BetweennessOk()
      && Top10ClosenessOk()
      && AvgClosenessOk()
      && AvgBetweennessOk()
    }

    /** No slot is filled yet. */
    ghost predicate Pristine()
      reads this
    {
      && directedSlot.None? && weightedSlot.None? && connectedSlot.None? && weaklyConnectedSlot.None?
      && stronglyConnectedSlot.None? && nodeCountSlot.None? && edgeCountSlot.None? && avgEdgeCountSlot.None?
      && avgStrengthSlot.None? && componentCountSlot.None? && largestComponentSlot.None?
      && shortestPathLengthSlot.None? && diameterSlot.None? && eccentricitySlot.None?
      && globalEfficiencySlot.None? && globalClusteringSlot.None? && avgClusteringSlot.None?
      && degreeAssortativitySlot.None? && degreeDistributionSlot.None? && top10DegreeSlot.None?
      && top10BetweennessSlot.None? && top10ClosenessSlot.None? && avgClosenessSlot.None?
      && avgBetweennessSlot.None?
    }

    constructor (graph: Graph, algs: Algorithms)
      ensures this.graph == graph && this.algs == algs
      ensures Pristine() && Valid()
    {
      this.graph := graph;
      this.algs := algs;
      directedSlot, weightedSlot, connectedSlot, weaklyConnectedSlot, stronglyConnectedSlot := None, None, None, None, None;
      nodeCountSlot, edgeCountSlot, avgEdgeCountSlot, avgStrengthSlot, componentCountSlot := None, None, None, None, None;
      largestComponentSlot, shortestPathLengthSlot, diameterSlot, eccentricitySlot := None, None, None, None;
      globalEfficiencySlot, globalClusteringSlot, avgClusteringSlot, degreeAssortativitySlot := None, None, None, None;
      degreeDistributionSlot, top10DegreeSlot, top10BetweennessSlot, top10ClosenessSlot := None, None, None, None;
      avgClosenessSlot, avgBetweennessSlot := None, None;
    }

    /** `directed`: `is_directed(graph)`, cached. */
    method Directed() returns (r: bool)
      requires Valid()
      modifies this`directedSlot
      ensures Valid()
      ensures r == graph.directed && directedSlot == Some(r)
      ensures old(directedSlot).Some? ==> r == old(directedSlot).value
    {
      if directedSlot.None? {
        directedSlot := Some(graph.directed);
      }
      r := directedSlot.value;
    }

    /** `weighted`: `is_weighted(graph)`, cached. */
    method Weighted() returns (r: bool)
      requires Valid()
      modifies this`weightedSlot
      ensures Valid()
      ensures r == IsWeighted(graph) && weightedSlot == Some(r)
      ensures old(weightedSlot).Some? ==> r == old(weightedSlot).value
    {
      if weightedSlot.None? {
        weightedSlot := Some(IsWeighted(graph));
      }
      r := weightedSlot.value;
    }

    /** `connected`: consults `directed`, and on a directed graph raises and leaves the slot empty. */
    method Connected() returns (r: Result<bool, MeasureFailure>)
      requires Valid()
      modifies this`connectedSlot, this`directedSlot
      ensures Valid()
      ensures r == ConnectedOf(algs, graph)
      ensures old(connectedSlot).Some? ==> r == Success(old(connectedSlot).value) && unchanged(this)
      ensures old(connectedSlot).None? ==>
        directedSlot == Some(graph.directed) && connectedSlot == (if r.Success? then Some(r.value) else None)
    {
      if connectedSlot.None? {
        var directed := Directed();
        if !directed {
          connectedSlot := Some(algs.isConnected(graph));
        } else {
          return Failure(MeasureError(CONNECTED_MESSAGE));
        }
      }
      r := Success(connectedSlot.value);
    }

    /** `weakly_connected`: raises on an undirected graph, leaving the slot empty. */
    method WeaklyConnected() returns (r: Result<bool, MeasureFailure>)
      requires Valid()
      modifies this`weaklyConnectedSlot, this`directedSlot
      ensures Valid()
      ensures r == WeaklyConnectedOf(algs, graph)
      ensures old(weaklyConnectedSlot).Some? ==> r == Success(old(weaklyConnectedSlot).value) && unchanged(this)
      ensures old(weaklyConnectedSlot).None? ==>
        directedSlot == Some(graph.directed) && weaklyConnectedSlot == (if r.Success? then Some(r.value) else None)
    {
      if weaklyConnectedSlot.None? {
        var directed := Directed();
        if directed {
          weaklyConnectedSlot := Some(algs.isWeaklyConnected(graph));
        } else {
          return Failure(MeasureError(WEAKLY_MESSAGE));
        }
      }
      r := Success(weaklyConnectedSlot.value);
    }

    /** `strongly_connected`: computed, as written, with `is_weakly_connected`. */
    method StronglyConnected() returns (r: Result<bool, MeasureFailure>)
      requires Valid()
      modifies this`stronglyConnectedSlot, this`directedSlot
      ensures Valid()
      ensures r == StronglyConnectedOf(algs, graph)
      ensures old(stronglyConnectedSlot).Some? ==> r == Success(old(stronglyConnectedSlot).value) && unchanged(this)
      ensures old(stronglyConnectedSlot).None? ==>
        directedSlot == Some(graph.directed) && stronglyConnectedSlot == (if r.Success? then Some(r.value) else None)
    {
      if stronglyConnectedSlot.None? {
        var directed := Directed();
        if directed {
          stronglyConnectedSlot := Some(algs.isWeaklyConnected(graph));
        } else {
          return Failure(MeasureError(STRONGLY_MESSAGE));
        }
      }
      r := Success(stronglyConnectedSlot.value);
    }

    /** `node_count`: `graph.number_of_nodes()`, cached. */
    method NodeCount() returns (r: nat)
      requires Valid()
      modifies this`nodeCountSlot
      ensures Valid()
      ensures r == |graph.nodes| && nodeCountSlot == Some(r)
      ensures old(nodeCountSlot).Some? ==> r == old(nodeCountSlot).value
    {
      if nodeCountSlot.None? {
        nodeCountSlot := Some(|graph.nodes|);
      }
      r := nodeCountSlot.value;
    }

    /** `edge_count`: a single number for either kind of graph. */
    method EdgeCount() returns (r: nat)
      requires Valid()
      modifies this`edgeCountSlot, this`directedSlot
      ensures Valid()
      ensures r == EdgeCountOf(graph) && edgeCountSlot == Some(r)
      ensures old(edgeCountSlot).Some? ==> r == old(edgeCountSlot).value && unchanged(this)
      ensures old(edgeCountSlot).None? ==> directedSlot == Some(graph.directed)
    {
      if edgeCountSlot.None? {
        var directed := Directed();
        if directed {
          edgeCountSlot := Some(|graph.edges.Keys|);
        } else {
          edgeCountSlot := Some(|graph.edges|);
        }
      }
      r := edgeCountSlot.value;
    }

    /** `avg_edge_count`: the mean degree, or the means of in- and out-degrees. */
    method AvgEdgeCount() returns (r: Result<PerDirection<real>, MeasureFailure>)
      requires Valid()
      modifies this`avgEdgeCountSlot, this`directedSlot
      ensures Valid()
      ensures r == AvgEdgeCountOf(graph)
      ensures old(avgEdgeCountSlot).Some? ==> r == Success(old(avgEdgeCountSlot).value) && unchanged(this)
      ensures old(avgEdgeCountSlot).None? ==>
        directedSlot == Some(graph.directed) && avgEdgeCountSlot == (if r.Success? then Some(r.value) else None)
    {
      if avgEdgeCountSlot.None? {
        var directed := Directed();
        var value: PerDirection<real>;
        if directed {
          var i :- MeanOf(Reals(InDegrees(graph)));
          var o :- MeanOf(Reals(OutDegrees(graph)));
          value := InOut(i, o);
        } else {
          var m :- MeanOf(Reals(Degrees(graph)));
          value := Whole(m);
        }
        avgEdgeCountSlot := Some(value);
      }
      r := Success(avgEdgeCountSlot.value);
    }

    /** `avg_strength`: consults `weighted` first, and `directed` only for a weighted graph. */
    method AvgStrength() returns (r: Result<PerDirection<real>, MeasureFailure>)
      requires Valid()
      modifies this`avgStrengthSlot, this`weightedSlot, this`directedSlot
      ensures Valid()
      ensures r == AvgStrengthOf(algs, graph)
      ensures old(avgStrengthSlot).Some? ==> r == Success(old(avgStrengthSlot).value) && unchanged(this)
      ensures old(avgStrengthSlot).None? ==>
        && weightedSlot == Some(IsWeighted(graph))
        && directedSlot == (if IsWeighted(graph) then Some(graph.directed) else old(directedSlot))
        && avgStrengthSlot == (if r.Success? then Some(r.value) else None)
    {
      if avgStrengthSlot.None? {
        var weighted := Weighted();
        if weighted {
          var directed := Directed();
          var value: PerDirection<real>;
          if directed {
            var i :- MeanOf(algs.inStrengths(graph));
            var o :- MeanOf(algs.outStrengths(graph));
            value := InOut(i, o);
          } else {
            var m :- MeanOf(algs.strengths(graph));
            value := Whole(m);
          }
          avgStrengthSlot := Some(value);
        } else {
          return Failure(MeasureError(STRENGTH_MESSAGE));
        }
      }
      r := Success(avgStrengthSlot.value);
    }

    /** `component_count`: strongly connected components when directed, connected ones otherwise. */
    method ComponentCount() returns (r: nat)
      requires Valid()
      modifies this`componentCountSlot, this`directedSlot
      ensures Valid()
      ensures r == ComponentCountOf(algs, graph) && componentCountSlot == Some(r)
      ensures old(componentCountSlot).Some? ==> r == old(componentCountSlot).value && unchanged(this)
      ensures old(componentCountSlot).None? ==> directedSlot == Some(graph.directed)
    {
      if componentCountSlot.None? {
        var directed := Directed();
        if directed {
          componentCountSlot := Some(algs.numberStronglyConnectedComponents(graph));
        } else {
          componentCountSlot := Some(algs.numberConnectedComponents(graph));
        }
      }
      r := componentCountSlot.value;
    }

    /**
     * `largest_component_measures`: itself, uncached, when the graph is connected
     * (`strongly_connected` when directed); otherwise a new facade over the largest
     * component, which is cached and returned from then on.
     */
    method LargestComponentMeasures() returns (r: Result<GraphMeasures, MeasureFailure>)
      requires Valid()
      modifies this`largestComponentSlot, this`directedSlot, this`connectedSlot, this`stronglyConnectedSlot
      ensures Valid()
      ensures old(largestComponentSlot).Some? ==> r == Success(old(largestComponentSlot).value) && unchanged(this)
      ensures old(largestComponentSlot).None? ==>
        var l := LargestComponentOf(algs, graph);
        && (l.Failure? ==> r == Failure(l.error) && largestComponentSlot.None?)
        && (l == Success(None) ==> r == Success(this) && largestComponentSlot.None?)
        && (l.Success? && l.value.Some? ==>
              && r.Success? && fresh(r.value) && largestComponentSlot == Some(r.value)
              && r.value.graph == l.value.value && r.value.algs == algs && r.value.Pristine())
      ensures old(largestComponentSlot).None? ==> directedSlot == Some(graph.directed)
      ensures old(largestComponentSlot).None? && graph.directed ==>
        stronglyConnectedSlot == Some(algs.isWeaklyConnected(graph)) && connectedSlot == old(connectedSlot)
      ensures old(largestComponentSlot).None? && !graph.directed ==>
        connectedSlot == Some(algs.isConnected(graph)) && stronglyConnectedSlot == old(stronglyConnectedSlot)
    {
      if largestComponentSlot.Some? {
        return Success(largestComponentSlot.value);
      }
      var directed := Directed();
      if directed {
        var strongly := StronglyConnected();
        if strongly.value {
          return Success(this);
        }
        r := CacheLargest(algs.stronglyConnectedComponents(graph));
      } else {
        var connected := Connected();
        if connected.value {
          return Success(this);
        }
        r := CacheLargest(algs.connectedComponents(graph));
      }
    }

    /** The tail of `largest_component_measures`: wrap the largest of `components` and cache it. */
    method CacheLargest(components: seq<set<string>>) returns (r: Result<GraphMeasures, MeasureFailure>)
      requires Valid() && largestComponentSlot.None?
      requires var l := LargestOf(graph, components);
        LargestComponentOf(algs, graph) == if l.Success? then Success(Some(l.value)) else Failure(l.error)
      modifies this`largestComponentSlot
      ensures Valid()
      ensures var l := LargestOf(graph, components);
        && (l.Failure? ==> r == Failure(l.error) && largestComponentSlot.None?)
        && (l.Success? ==>
              && r.Success? && fresh(r.value) && largestComponentSlot == Some(r.value)
              && r.value.graph == l.value && r.value.algs == algs && r.value.Pristine())
    {
      match LargestIndex(components)
      case None =>
        r := Failure(EmptySequence);
      case Some(i) =>
        var m := new GraphMeasures(Subgraph(graph, components[i]), algs);
        largestComponentSlot := Some(m);
        r := Success(m);
    }

    /** `shortest_path_length`: the average over the largest (weakly, when directed) connected component. */
    method ShortestPathLength() returns (r: Result<real, MeasureFailure>)
      requires Valid()
      modifies this`shortestPathLengthSlot, this`directedSlot
      ensures Valid()
      ensures r == ShortestPathLengthOf(algs, graph)
      ensures old(shortestPathLengthSlot).Some? ==> r == Success(old(shortestPathLengthSlot).value) && unchanged(this)
      ensures old(shortestPathLengthSlot).None? ==>
        directedSlot == Some(graph.directed) && shortestPathLengthSlot == (if r.Success? then Some(r.value) else None)
    {
      if shortestPathLengthSlot.None? {
        var directed := Directed();
        var component: Graph;
        if directed {
          component :- LargestOf(graph, algs.weaklyConnectedComponents(graph));
        } else {
          component :- LargestOf(graph, algs.connectedComponents(graph));
        }
        shortestPathLengthSlot := Some(algs.averageShortestPathLength(component));
      }
      r := Success(shortestPathLengthSlot.value);
    }

    /** `diameter`: of the largest strongly connected (directed) or connected component. */
    method Diameter() returns (r: Result<int, MeasureFailure>)
      requires Valid()
      modifies this`diameterSlot, this`directedSlot
      ensures Valid()
      ensures r == DiameterOf(algs, graph)
      ensures old(diameterSlot).Some? ==> r == Success(old(diameterSlot).value) && unchanged(this)
      ensures old(diameterSlot).None? ==>
        directedSlot == Some(graph.directed) && diameterSlot == (if r.Success? then Some(r.value) else None)
    {
      if diameterSlot.None? {
        var directed := Directed();
        var component: Graph;
        if directed {
          component :- LargestOf(graph, algs.stronglyConnectedComponents(graph));
        } else {
          component :- LargestOf(graph, algs.connectedComponents(graph));
        }
        diameterSlot := Some(algs.diameter(component));
      }
      r := Success(diameterSlot.value);
    }

    /** `eccentricity`: the largest eccentricity in the same component `diameter` uses. */
    method Eccentricity() returns (r: Result<int, MeasureFailure>)
      requires Valid()
      modifies this`eccentricitySlot, this`directedSlot
      ensures Valid()
      ensures r == EccentricityOf(algs, graph)
      ensures old(eccentricitySlot).Some? ==> r == Success(old(eccentricitySlot).value) && unchanged(this)
      ensures old(eccentricitySlot).None? ==>
        directedSlot == Some(graph.directed) && eccentricitySlot == (if r.Success? then Some(r.value) else None)
    {
      if eccentricitySlot.None? {
        var directed := Directed();
        var component: Graph;
        if directed {
          component :- LargestOf(graph, algs.stronglyConnectedComponents(graph));
        } else {
          component :- LargestOf(graph, algs.connectedComponents(graph));
        }
        match MaxOf(algs.eccentricity(component))
        case None =>
          return Failure(EmptySequence);
        case Some(e) =>
          eccentricitySlot := Some(e);
      }
      r := Success(eccentricitySlot.value);
    }

    /** `global_efficiency`: the directional variant for a directed graph, networkx's otherwise. */
    method GlobalEfficiency() returns (r: real)
      requires Valid()
      modifies this`globalEfficiencySlot, this`directedSlot
      ensures Valid()
      ensures r == GlobalEfficiencyOf(algs, graph) && globalEfficiencySlot == Some(r)
      ensures old(globalEfficiencySlot).Some? ==> r == old(globalEfficiencySlot).value && unchanged(this)
      ensures old(globalEfficiencySlot).None? ==> directedSlot == Some(graph.directed)
    {
      if globalEfficiencySlot.None? {
        var directed := Directed();
        if directed {
          var e := GlobalEfficiencyDirectional(algs, graph);
          globalEfficiencySlot := Some(e);
        } else {
          globalEfficiencySlot := Some(algs.globalEfficiency(graph));
        }
      }
      r := globalEfficiencySlot.value;
    }

    /** `global_clustering_coefficient`: `transitivity(graph)`, cached. */
    method GlobalClusteringCoefficient() returns (r: real)
      requires Valid()
      modifies this`globalClusteringSlot
      ensures Valid()
      ensures r == algs.transitivity(graph) && globalClusteringSlot == Some(r)
      ensures old(globalClusteringSlot).Some? ==> r == old(globalClusteringSlot).value
    {
      if globalClusteringSlot.None? {
        globalClusteringSlot := Some(algs.transitivity(graph));
      }
      r := globalClusteringSlot.value;
    }

    /** `avg_clustering_coefficient`: `average_clustering(graph)`, cached. */
    method AvgClusteringCoefficient() returns (r: real)
      requires Valid()
      modifies this`avgClusteringSlot
      ensures Valid()
      ensures r == algs.averageClustering(graph) && avgClusteringSlot == Some(r)
      ensures old(avgClusteringSlot).Some? ==> r == old(avgClusteringSlot).value
    {
      if avgClusteringSlot.None? {
        avgClusteringSlot := Some(algs.averageClustering(graph));
      }
      r := avgClusteringSlot.value;
    }

    /** `degree_assortativity`: `degree_assortativity_coefficient(graph)`, cached. */
    method DegreeAssortativity() returns (r: real)
      requires Valid()
      modifies this`degreeAssortativitySlot
      ensures Valid()
      ensures r == algs.degreeAssortativity(graph) && degreeAssortativitySlot == Some(r)
      ensures old(degreeAssortativitySlot).Some? ==> r == old(degreeAssortativitySlot).value
    {
      if degreeAssortativitySlot.None? {
        degreeAssortativitySlot := Some(algs.degreeAssortativity(graph));
      }
      r := degreeAssortativitySlot.value;
    }

    /** `degree_distribution`: `dict(Counter(sorted(degrees)))`, per direction when directed. */
    method DegreeDistribution() returns (r: PerDirection<Tally>)
      requires Valid()
      modifies this`degreeDistributionSlot, this`directedSlot
      ensures Valid()
      ensures r == DegreeDistributionOf(graph) && degreeDistributionSlot == Some(r)
      ensures old(degreeDistributionSlot).Some? ==> r == old(degreeDistributionSlot).value && unchanged(this)
      ensures old(degreeDistributionSlot).None? ==> directedSlot == Some(graph.directed)
    {
      if degreeDistributionSlot.None? {
        var directed := Directed();
        var distribution: PerDirection<Tally>;
        if directed {
          distribution := InOut(Distribution(InDegrees(graph)), Distribution(OutDegrees(graph)));
        } else {
          distribution := Whole(Distribution(Degrees(graph)));
        }
        degreeDistributionSlot := Some(distribution);
      }
      r := degreeDistributionSlot.value;
    }

    /** `top10_central_degree`: `nlargest(10, degree_centrality(graph).items(), key=itemgetter(1))`. */
    method Top10CentralDegree() returns (r: seq<Scored>)
      requires Valid()
      modifies this`top10DegreeSlot
      ensures Valid()
      ensures r == NLargest(TOP, algs.degreeCentrality(graph)) && top10DegreeSlot == Some(r)
      ensures old(top10DegreeSlot).Some? ==> r == old(top10DegreeSlot).value
    {
      if top10DegreeSlot.None? {
        top10DegreeSlot := Some(NLargest(TOP, algs.degreeCentrality(graph)));
      }
      r := top10DegreeSlot.value;
    }

    /** `top10_central_betweenness`: the ten best betweenness scores. */
    method Top10CentralBetweenness() returns (r: seq<Scored>)
      requires Valid()
      modifies this`top10BetweennessSlot
      ensures Valid()
      ensures r == NLargest(TOP, algs.betweennessCentrality(graph)) && top10BetweennessSlot == Some(r)
      ensures old(top10BetweennessSlot).Some? ==> r == old(top10BetweennessSlot).value
    {
      if top10BetweennessSlot.None? {
        top10BetweennessSlot := Some(NLargest(TOP, algs.betweennessCentrality(graph)));
      }
      r := top10BetweennessSlot.value;
    }

    /** `top10_central_closeness`: the ten best closeness scores. */
    method Top10CentralCloseness() returns (r: seq<Scored>)
      requires Valid()
      modifies this`top10ClosenessSlot
      ensures Valid()
      ensures r == NLargest(TOP, algs.closenessCentrality(graph)) && top10ClosenessSlot == Some(r)
      ensures old(top10ClosenessSlot).Some? ==> r == old(top10ClosenessSlot).value
    {
      if top10ClosenessSlot.None? {
        top10ClosenessSlot := Some(NLargest(TOP, algs.closenessCentrality(graph)));
      }
      r := top10ClosenessSlot.value;
    }

    /** `avg_closeness_centrality`: the mean closeness score. */
    method AvgClosenessCentrality() returns (r: Result<real, MeasureFailure>)
      requires Valid()
      modifies this`avgClosenessSlot
      ensures Valid()
      ensures r == MeanOf(Scores(algs.closenessCentrality(graph)))
      ensures old(avgClosenessSlot).Some? ==> r == Success(old(avgClosenessSlot).value) && unchanged(this)
      ensures old(avgClosenessSlot).None? ==> avgClosenessSlot == (if r.Success? then Some(r.value) else None)
    {
      if avgClosenessSlot.None? {
        var m :- MeanOf(Scores(algs.closenessCentrality(graph)));
        avgClosenessSlot := Some(m);
      }
      r := Success(avgClosenessSlot.value);
    }

    /** `avg_betweenness_centrality`: the mean betweenness score. */
    method AvgBetweennessCentrality() returns (r: Result<real, MeasureFailure>)
      requires Valid()
      modifies this`avgBetweennessSlot
      ensures Valid()
      ensures r == MeanOf(Scores(algs.betweennessCentrality(graph)))
      ensures old(avgBetweennessSlot).Some? ==> r == Success(old(avgBetweennessSlot).value) && unchanged(this)
      ensures old(avgBetweennessSlot).None? ==> avgBetweennessSlot == (if r.Success? then Some(r.value) else None)
    {
      if avgBetweennessSlot.None? {
        var m :- MeanOf(Scores(algs.betweennessCentrality(graph)));
        avgBetweennessSlot := Some(m);
      }
      r := Success(avgBetweennessSlot.value);
    }
  }
}
