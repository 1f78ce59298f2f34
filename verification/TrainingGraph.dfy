/** The training execution graph: forward chain, gradient hop, mirrored backward
    chain and aggregation. */
module TrainingGraph {
  import opened Prelude
  import opened PartitionModels
  import opened Scoring

  const FORWARD_SUFFIX := ":forward"
  const BACKWARD_SUFFIX := ":backward"
  const AGGREGATION := "aggregation"

  function Backward(e: GraphEdge): GraphEdge {
    GraphEdge(e.target + BACKWARD_SUFFIX, e.source + BACKWARD_SUFFIX, e.transferBytes, e.transferMs, BackwardEdge)
  }

  function ForwardEdges(edges: seq<GraphEdge>): (r: seq<GraphEdge>)
    ensures |r| == |edges|
  {
    seq(|edges|, i requires 0 <= i < |edges| =>
      GraphEdge(edges[i].source + FORWARD_SUFFIX, edges[i].target + FORWARD_SUFFIX,
                edges[i].transferBytes, edges[i].transferMs, ForwardEdge))
  }

  /** The mirrored edges in the order of `reversed(forward_edges)`. */
  function BackwardEdges(edges: seq<GraphEdge>): (r: seq<GraphEdge>)
    ensures |r| == |edges|
  {
    seq(|edges|, i requires 0 <= i < |edges| => Backward(edges[|edges| - 1 - i]))
  }

  function GradientHop(partitions: seq<LogicalPartition>, bytes: nat): GraphEdge
    requires partitions != []
  {
    var last := partitions[|partitions| - 1].partitionId;
    GraphEdge(last + FORWARD_SUFFIX, last + BACKWARD_SUFFIX, bytes, 0.0, GradientEdge)
  }

  function AggregationHop(partitions: seq<LogicalPartition>, bytes: nat): GraphEdge
    requires partitions != []
  {
    GraphEdge(partitions[0].partitionId + BACKWARD_SUFFIX, AGGREGATION, bytes, 0.0, AggregationEdge)
  }

  function TrainingEdges(partitions: seq<LogicalPartition>, edges: seq<GraphEdge>, bytes: nat): seq<GraphEdge>
    requires partitions != []
  {
    ForwardEdges(edges) + [GradientHop(partitions, bytes)] + BackwardEdges(edges)
    + [AggregationHop(partitions, bytes)]
  }

  function TrainingNodes(partitions: seq<LogicalPartition>): (r: seq<GraphNode>)
    requires partitions != []
    ensures |r| == 2 * |partitions| + 1
  {
    var k := |partitions|;
    seq(k, i requires 0 <= i < k => GraphNode(partitions[i].partitionId + FORWARD_SUFFIX, partitions[i].deviceId))
    + seq(k, i requires 0 <= i < k =>
        GraphNode(partitions[k - 1 - i].partitionId + BACKWARD_SUFFIX, partitions[k - 1 - i].deviceId))
    + [GraphNode(AGGREGATION, partitions[0].deviceId)]
  }

  datatype Graph = Graph(
    nodes: seq<GraphNode>, edges: seq<GraphEdge>, transferMs: real, transferBytes: nat,
    stepTimeMs: real, gradientBytes: nat, imbalance: real)

  function TrainingGraphOf(partitions: seq<LogicalPartition>, forwardEdges: seq<GraphEdge>,
                           computeMs: seq<real>, forwardMs: real, forwardBytes: nat): Graph
    requires partitions != []
  {
    Graph(TrainingNodes(partitions),
          TrainingEdges(partitions, forwardEdges, forwardBytes),
          2.0 * forwardMs,
          3 * forwardBytes,
          2.0 * (SumReals(computeMs) + forwardMs),
          forwardBytes,
          LoadImbalance(computeMs))
  }

  /** `_build_training_graph`. */
  method BuildTrainingGraph(partitions: seq<LogicalPartition>, forwardEdges: seq<GraphEdge>,
                            computeMs: seq<real>, forwardMs: real, forwardBytes: nat)
    returns (g: Graph)
    requires partitions != []
    ensures g == TrainingGraphOf(partitions, forwardEdges, computeMs, forwardMs, forwardBytes)
  {
    var edges := ForwardEdges(forwardEdges);
    var gradientBytes := forwardBytes;
    edges := edges + [GradientHop(partitions, gradientBytes)];
    var n := |forwardEdges|;
    while n > 0
      invariant 0 <= n <= |forwardEdges|
      invariant edges == ForwardEdges(forwardEdges) + [GradientHop(partitions, forwardBytes)]
                         + BackwardEdges(forwardEdges)[..|forwardEdges| - n]
    {
      n := n - 1;
      edges := edges + [Backward(forwardEdges[n])];
    }
    var aggregationBytes := gradientBytes;
    edges := edges + [AggregationHop(partitions, aggregationBytes)];
    var transferMs := forwardMs * 2.0;
    var transferBytes := forwardBytes * 2 + aggregationBytes;
    var stepTimeMs := SumReals(computeMs) * 2.0 + transferMs;
    g := Graph(TrainingNodes(partitions), edges, transferMs, transferBytes, stepTimeMs, gradientBytes,
               LoadImbalance(computeMs));
  }

  // ----- the shape of the graph -----

  /** The edges, in list order, walk the nodes in list order, and no node repeats. */
  predicate SimplePath(nodes: seq<GraphNode>, edges: seq<GraphEdge>) {
    && |nodes| == |edges| + 1
    && (forall i, j :: 0 <= i < j < |nodes| ==> nodes[i].nodeId != nodes[j].nodeId)
    && (forall i :: 0 <= i < |edges| ==>
          edges[i].source == nodes[i].nodeId && edges[i].target == nodes[i + 1].nodeId)
  }

  predicate Joined(edges: seq<GraphEdge>, a: string, b: string) {
    exists e :: 0 <= e < |edges| && edges[e].source == a && edges[e].target == b
  }

  predicate Walk(edges: seq<GraphEdge>, stops: seq<string>) {
    forall i :: 0 <= i < |stops| - 1 ==> Joined(edges, stops[i], stops[i + 1])
  }

  lemma JoinedAdvances(nodes: seq<GraphNode>, edges: seq<GraphEdge>, a: string, b: string) returns (at: nat)
    requires SimplePath(nodes, edges) && Joined(edges, a, b)
    ensures at + 1 < |nodes| && nodes[at].nodeId == a && nodes[at + 1].nodeId == b
  {
    at :| 0 <= at < |edges| && edges[at].source == a && edges[at].target == b;
  }

  /** A walk along a simple path moves one place forward with each step. */
  lemma {:induction false} WalkAdvances(nodes: seq<GraphNode>, edges: seq<GraphEdge>, stops: seq<string>)
    returns (at: nat)
    requires SimplePath(nodes, edges) && Walk(edges, stops) && |stops| >= 2
    ensures at + |stops| - 1 < |nodes| && nodes[at].nodeId == stops[0]
    ensures nodes[at + |stops| - 1].nodeId == stops[|stops| - 1]
    decreases |stops|
  {
    at := JoinedAdvances(nodes, edges, stops[0], stops[0 + 1]);
    if |stops| > 2 {
      assert Walk(edges, stops[1..]) by {
        forall i | 0 <= i < |stops[1..]| - 1 ensures Joined(edges, stops[1..][i], stops[1..][i + 1]) {
          assert Joined(edges, stops[i + 1], stops[i + 1 + 1]);
        }
      }
      var next := WalkAdvances(nodes, edges, stops[1..]);
      assert next == at + 1;
    }
  }

  /** A simple path has no cycle: no walk along its edges returns to its start. */
  lemma SimplePathIsAcyclic(nodes: seq<GraphNode>, edges: seq<GraphEdge>, stops: seq<string>)
    requires SimplePath(nodes, edges) && Walk(edges, stops) && |stops| >= 2
    ensures stops[0] != stops[|stops| - 1]
  {
    var at := WalkAdvances(nodes, edges, stops);
  }

  /** Partitions named and chained as the candidate builder does when no link is missing. */
  predicate ChainedPartitions(partitions: seq<LogicalPartition>, edges: seq<GraphEdge>) {
    && partitions != [] && |edges| == |partitions| - 1
    && (forall i :: 0 <= i < |partitions| ==> partitions[i].partitionId == PartitionId(i))
    && (forall i :: 0 <= i < |edges| ==>
          edges[i].source == PartitionId(i) && edges[i].target == PartitionId(i + 1))
  }

  lemma SuffixesDiffer(p: string, q: string)
    ensures p + FORWARD_SUFFIX != q + BACKWARD_SUFFIX
    ensures p + FORWARD_SUFFIX != AGGREGATION && q + BACKWARD_SUFFIX != AGGREGATION
  {
    var f, b := p + FORWARD_SUFFIX, q + BACKWARD_SUFFIX;
    assert f[|f| - 5] == 'r' && b[|b| - 5] == 'k';
    assert f[|f| - 1] == 'd' && b[|b| - 1] == 'd' && AGGREGATION[|AGGREGATION| - 1] == 'n';
  }

  lemma SuffixInjective(p: string, q: string, suffix: string)
    requires p + suffix == q + suffix
    ensures p == q
  {
    assert p == (p + suffix)[..|p + suffix| - |suffix|];
    assert q == (q + suffix)[..|q + suffix| - |suffix|];
  }

  lemma TrainingNodesDistinct(partitions: seq<LogicalPartition>, i: nat, j: nat)
    requires partitions != []
    requires forall n :: 0 <= n < |partitions| ==> partitions[n].partitionId == PartitionId(n)
    requires i < j < |TrainingNodes(partitions)|
    ensures TrainingNodes(partitions)[i].nodeId != TrainingNodes(partitions)[j].nodeId
  {
    var k := |partitions|;
    var p := if i < k then i else 2 * k - 1 - i;
    var q := if j < k then j else if j < 2 * k then 2 * k - 1 - j else 0;
    SuffixesDiffer(PartitionId(p), PartitionId(q));
    SuffixesDiffer(PartitionId(p), PartitionId(p));
    var suffix := if j < k then FORWARD_SUFFIX else BACKWARD_SUFFIX;
    if PartitionId(p) + suffix == PartitionId(q) + suffix {
      SuffixInjective(PartitionId(p), PartitionId(q), suffix);
      PartitionIdInjective(p, q);
    }
  }

  /** The i-th edge leads from the i-th node to the next. */
  lemma HopJoins(partitions: seq<LogicalPartition>, edges: seq<GraphEdge>, bytes: nat, i: nat)
    requires ChainedPartitions(partitions, edges) && i < 2 * |partitions|
    ensures |TrainingNodes(partitions)| == 2 * |partitions| + 1
    ensures |TrainingEdges(partitions, edges, bytes)| == 2 * |partitions|
    ensures TrainingEdges(partitions, edges, bytes)[i].source == TrainingNodes(partitions)[i].nodeId
    ensures TrainingEdges(partitions, edges, bytes)[i].target == TrainingNodes(partitions)[i + 1].nodeId
  {
    var k := |partitions|;
    var nodes, all := TrainingNodes(partitions), TrainingEdges(partitions, edges, bytes);
    if i < k - 1 {
      assert all[i] == ForwardEdges(edges)[i];
      assert nodes[i].nodeId == PartitionId(i) + FORWARD_SUFFIX;
    } else if i == k - 1 {
      assert all[i] == GradientHop(partitions, bytes);
    } else if i < 2 * k - 1 {
      assert all[i] == BackwardEdges(edges)[i - k] == Backward(edges[2 * k - 2 - i]);
      assert nodes[i].nodeId == PartitionId(2 * k - 1 - i) + BACKWARD_SUFFIX;
      assert nodes[i + 1].nodeId == PartitionId(2 * k - 2 - i) + BACKWARD_SUFFIX;
    } else {
      assert all[i] == AggregationHop(partitions, bytes);
    }
  }

  /** Over k partitions the graph is one simple path of 2k+1 nodes and 2k edges,
      with the gradient hop in the middle and the aggregation at the end. */
  lemma TrainingGraphIsOnePath(partitions: seq<LogicalPartition>, edges: seq<GraphEdge>, bytes: nat)
    requires ChainedPartitions(partitions, edges)
    ensures |TrainingNodes(partitions)| == 2 * |partitions| + 1
    ensures |TrainingEdges(partitions, edges, bytes)| == 2 * |partitions|
    ensures SimplePath(TrainingNodes(partitions), TrainingEdges(partitions, edges, bytes))
    ensures TrainingEdges(partitions, edges, bytes)[|partitions| - 1].edgeType == GradientEdge
    ensures TrainingNodes(partitions)[|partitions| - 1].deviceId == TrainingNodes(partitions)[|partitions|].deviceId
    ensures TrainingNodes(partitions)[2 * |partitions|].nodeId == AGGREGATION
  {
    var k := |partitions|;
    var nodes, all := TrainingNodes(partitions), TrainingEdges(partitions, edges, bytes);
    forall i, j | 0 <= i < j < |nodes| ensures nodes[i].nodeId != nodes[j].nodeId {
      TrainingNodesDistinct(partitions, i, j);
    }
    forall i | 0 <= i < |all|
      ensures all[i].source == nodes[i].nodeId && all[i].target == nodes[i + 1].nodeId
    {
      HopJoins(partitions, edges, bytes, i);
    }
    assert all[k - 1] == GradientHop(partitions, bytes);
  }

  /** Each partition has a forward and a backward node on its own device, mirrored around the middle;
      the aggregation sits with the first partition. */
  lemma NodesSitWithPartitions(partitions: seq<LogicalPartition>, i: nat)
    requires i < |partitions|
    ensures var k, nodes := |partitions|, TrainingNodes(partitions);
            && nodes[i] == GraphNode(partitions[i].partitionId + ":forward", partitions[i].deviceId)
            && nodes[2 * k - 1 - i] == GraphNode(partitions[i].partitionId + ":backward", partitions[i].deviceId)
            && nodes[2 * k] == GraphNode("aggregation", partitions[0].deviceId)
  {
  }

  /** Each forward edge and its mirror in the backward pass carry the same bytes in the same time; the
      gradient stays on the last device and, like the aggregation, moves all the forward bytes in no
      time of its own. */
  lemma EdgesCarry(partitions: seq<LogicalPartition>, edges: seq<GraphEdge>, bytes: nat, i: nat)
    requires ChainedPartitions(partitions, edges) && i < |edges|
    ensures var k, all := |partitions|, TrainingEdges(partitions, edges, bytes);
            && |all| == 2 * k
            && all[i].transferBytes == all[2 * k - 2 - i].transferBytes == edges[i].transferBytes
            && all[i].transferMs == all[2 * k - 2 - i].transferMs == edges[i].transferMs
            && all[i].edgeType == ForwardEdge && all[2 * k - 2 - i].edgeType == BackwardEdge
            && all[k - 1].edgeType == GradientEdge && all[k - 1].transferBytes == bytes && all[k - 1].transferMs == 0.0
            && all[2 * k - 1].edgeType == AggregationEdge && all[2 * k - 1].transferBytes == bytes
            && all[2 * k - 1].transferMs == 0.0
  {
    var k, all := |partitions|, TrainingEdges(partitions, edges, bytes);
    assert all[i] == ForwardEdges(edges)[i];
    assert all[2 * k - 2 - i] == BackwardEdges(edges)[k - 2 - i] == Backward(edges[i]);
    assert all[k - 1] == GradientHop(partitions, bytes);
    assert all[2 * k - 1] == AggregationHop(partitions, bytes);
  }

  // ----- transfer accounting -----

  function SumBytes(edges: seq<GraphEdge>): nat {
    if edges == [] then 0 else SumBytes(edges[..|edges| - 1]) + edges[|edges| - 1].transferBytes
  }

  /** The bytes that cross the network: every edge but the on-device gradient hop. */
  function NetworkBytes(edges: seq<GraphEdge>): nat {
    if edges == [] then 0
    else NetworkBytes(edges[..|edges| - 1])
         + if edges[|edges| - 1].edgeType == GradientEdge then 0 else edges[|edges| - 1].transferBytes
  }

  lemma {:induction false} NetworkBytesConcat(a: seq<GraphEdge>, b: seq<GraphEdge>)
    ensures NetworkBytes(a + b) == NetworkBytes(a) + NetworkBytes(b)
  {
    if b == [] {
      assert a + b == a;
    } else {
      NetworkBytesConcat(a, b[..|b| - 1]);
      assert (a + b)[..|a + b| - 1] == a + b[..|b| - 1];
    }
  }

  lemma {:induction false} SumBytesPrepend(e: GraphEdge, edges: seq<GraphEdge>)
    ensures SumBytes([e] + edges) == e.transferBytes + SumBytes(edges)
  {
    if edges == [] {
      assert [e] + edges == [e] && [e][..0] == [];
    } else {
      SumBytesPrepend(e, edges[..|edges| - 1]);
      assert ([e] + edges)[..|edges|] == [e] + edges[..|edges| - 1];
    }
  }

  lemma {:induction false} PhaseBytes(edges: seq<GraphEdge>)
    ensures NetworkBytes(ForwardEdges(edges)) == SumBytes(edges)
    ensures NetworkBytes(BackwardEdges(edges)) == SumBytes(edges)
    decreases |edges|
  {
    if edges != [] {
      var front, tail := edges[..|edges| - 1], edges[1..];
      PhaseBytes(front);
      assert ForwardEdges(edges)[..|edges| - 1] == ForwardEdges(front);
      PhaseBytes(tail);
      var mirrored := BackwardEdges(edges);
      assert mirrored[..|edges| - 1] == BackwardEdges(tail);
      assert mirrored[|edges| - 1] == Backward(edges[0]);
      assert edges == [edges[0]] + tail;
      SumBytesPrepend(edges[0], tail);
    }
  }

  lemma OneEdgeBytes(e: GraphEdge)
    ensures NetworkBytes([e]) == if e.edgeType == GradientEdge then 0 else e.transferBytes
  {
    assert [e][..0] == [];
  }

  /** The reported total, three times the forward bytes, is what the graph's network
      edges carry. */
  lemma ReportedBytesAreNetworkBytes(partitions: seq<LogicalPartition>, edges: seq<GraphEdge>,
                                     computeMs: seq<real>, forwardMs: real)
    requires partitions != []
    ensures var g := TrainingGraphOf(partitions, edges, computeMs, forwardMs, SumBytes(edges));
            g.transferBytes == NetworkBytes(g.edges) == 3 * SumBytes(edges)
  {
    var f := SumBytes(edges);
    var first, second := ForwardEdges(edges), [GradientHop(partitions, f)];
    var third, fourth := BackwardEdges(edges), [AggregationHop(partitions, f)];
    PhaseBytes(edges);
    OneEdgeBytes(GradientHop(partitions, f));
    OneEdgeBytes(AggregationHop(partitions, f));
    NetworkBytesConcat(first, second);
    NetworkBytesConcat(first + second, third);
    NetworkBytesConcat(first + second + third, fourth);
  }
}
