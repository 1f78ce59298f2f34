/** Building one candidate from one cut of the layers over the participants. */
module CandidateBuilder {
  import opened Prelude
  import opened Combinations
  import opened PartitionModels
  import opened Scoring
  import opened TrainingGraph

  /** What a training strategy contributes; inference candidates are built without one. */
  datatype TrainingIntent = TrainingIntent(weights: TrainingWeights, forbiddenBoundaries: set<nat>)

  datatype CutInput = CutInput(
    plan: RoundPlan,
    participants: seq<string>,
    splits: seq<nat>,
    excludedLinks: set<Pair>,
    memoryLimits: map<string, int>,
    intent: Option<TrainingIntent>,
    policy: Policy)

  /** What the planner guarantees when it builds a candidate: parsed values, a device for
      every participant, and one non-empty run per participant. */
  predicate Buildable(c: CutInput) {
    && ParsedPlan(c.plan) && SoundPolicy(c.policy)
    && c.plan.layers != [] && IsCut(c.splits, 1, |c.plan.layers|)
    && |c.participants| == |c.splits| + 1
    && (forall p :: p in c.participants ==> p in DeviceMap(c.plan.devices))
  }

  // ----- layer sums -----

  function ParameterBytes(layers: seq<ModelLayer>): nat {
    if layers == [] then 0 else layers[0].parameterBytes + ParameterBytes(layers[1..])
  }

  function WorkingBytes(layers: seq<ModelLayer>): nat {
    if layers == [] then 0 else layers[0].workingMemoryBytes + WorkingBytes(layers[1..])
  }

  function ComputeUnits(layers: seq<ModelLayer>): real {
    if layers == [] then 0.0 else layers[0].computeUnits + ComputeUnits(layers[1..])
  }

  function PeakActivation(layers: seq<ModelLayer>): nat {
    if layers == [] then 0
    else
      var rest := PeakActivation(layers[1..]);
      if layers[0].activationBytes >= rest then layers[0].activationBytes else rest
  }

  function LayerNames(layers: seq<ModelLayer>): (r: seq<string>)
    ensures |r| == |layers|
  {
    seq(|layers|, i requires 0 <= i < |layers| => layers[i].name)
  }

  function Demand(layers: seq<ModelLayer>): nat {
    ParameterBytes(layers) + WorkingBytes(layers) + PeakActivation(layers)
  }

  /** What a run of layers needs: its parameters and working memory together, and on top of them the
      largest activation of any of its layers. */
  lemma {:induction false} DemandIs(layers: seq<ModelLayer>)
    ensures forall l :: l in layers ==>
              Demand(layers) >= ParameterBytes(layers) + WorkingBytes(layers) + l.activationBytes
    ensures layers == [] ==> Demand(layers) == 0
    ensures layers != [] ==>
              exists l :: l in layers
                          && Demand(layers) == ParameterBytes(layers) + WorkingBytes(layers) + l.activationBytes
  {
    PeakIsLargest(layers);
  }

  lemma {:induction false} PeakIsLargest(layers: seq<ModelLayer>)
    ensures forall l :: l in layers ==> l.activationBytes <= PeakActivation(layers)
    ensures layers != [] ==> exists l :: l in layers && l.activationBytes == PeakActivation(layers)
  {
    if layers != [] {
      PeakIsLargest(layers[1..]);
      assert layers == [layers[0]] + layers[1..];
      if layers[0].activationBytes >= PeakActivation(layers[1..]) {
        assert layers[0] in layers;
      } else {
        var l :| l in layers[1..] && l.activationBytes == PeakActivation(layers[1..]);
        assert l in layers;
      }
    }
  }

  // ----- per participant -----

  function DeviceAt(c: CutInput, i: nat): ResourceDevice
    requires Buildable(c) && i < |c.participants|
  {
    DeviceMap(c.plan.devices)[c.participants[i]]
  }

  function LayersAt(c: CutInput, i: nat): (r: seq<ModelLayer>)
    requires Buildable(c) && i < |c.participants|
    ensures r != []
  {
    Run(c.plan.layers, c.splits, i)
  }

  function PartitionAt(c: CutInput, i: nat): LogicalPartition
    requires Buildable(c) && i < |c.participants|
  {
    var layers := LayersAt(c, i);
    LogicalPartition(PartitionId(i), c.participants[i], LayerNames(layers), ComputeUnits(layers), Demand(layers))
  }

  function ComputeMsAt(c: CutInput, i: nat): real
    requires Buildable(c) && i < |c.participants|
  {
    DeviceMapEntries(c.plan.devices);
    Ratio(ComputeUnits(LayersAt(c, i)), DeviceAt(c, i).computeUnitsPerSecond) * 1000.0
  }

  function PressureAt(c: CutInput, i: nat): real
    requires Buildable(c) && i < |c.participants|
  {
    var available := DeviceAt(c, i).memoryAvailableBytes;
    Ratio(Demand(LayersAt(c, i)) as real, (if available > 1 then available else 1) as real)
  }

  /** `int(available * (1.0 - headroom))`. */
  function AllowedMemory(c: CutInput, i: nat): int
    requires Buildable(c) && i < |c.participants|
  {
    (DeviceAt(c, i).memoryAvailableBytes as real * (1.0 - c.plan.constraints.minimumMemoryHeadroomRatio)).Floor
  }

  function MemoryReasonsAt(c: CutInput, i: nat): seq<Reason>
    requires Buildable(c) && i < |c.participants|
  {
    var device := c.participants[i];
    var demand := Demand(LayersAt(c, i));
    (if demand > AllowedMemory(c, i) then [MemoryCapacityExceeded(device)] else [])
    + (if device in c.memoryLimits && demand > c.memoryLimits[device]
       then [MemoryReplanNotImproved(device)] else [])
  }

  function MemoryReasons(c: CutInput, n: nat): seq<Reason>
    requires Buildable(c) && n <= |c.participants|
  {
    if n == 0 then [] else MemoryReasons(c, n - 1) + MemoryReasonsAt(c, n - 1)
  }

  function PartitionsUpTo(c: CutInput, n: nat): (r: seq<LogicalPartition>)
    requires Buildable(c) && n <= |c.participants|
    ensures |r| == n
  {
    seq(n, i requires 0 <= i < n => PartitionAt(c, i))
  }

  function ComputeMsUpTo(c: CutInput, n: nat): (r: seq<real>)
    requires Buildable(c) && n <= |c.participants|
    ensures |r| == n
  {
    seq(n, i requires 0 <= i < n => ComputeMsAt(c, i))
  }

  function PressuresUpTo(c: CutInput, n: nat): (r: seq<real>)
    requires Buildable(c) && n <= |c.participants|
    ensures |r| == n
  {
    seq(n, i requires 0 <= i < n => PressureAt(c, i))
  }

  // ----- per link between neighbours -----

  function PairAt(c: CutInput, i: nat): Pair
    requires Buildable(c) && i < |c.splits|
  {
    (c.participants[i], c.participants[i + 1])
  }

  predicate LinkUsable(c: CutInput, i: nat)
    requires Buildable(c) && i < |c.splits|
  {
    PairAt(c, i) !in c.excludedLinks && PairAt(c, i) in LinkMap(c.plan.networkLinks)
  }

  function LinkReasonsAt(c: CutInput, i: nat): seq<Reason>
    requires Buildable(c) && i < |c.splits|
  {
    var (source, target) := PairAt(c, i);
    if (source, target) in c.excludedLinks then [FailedNetworkLink(source, target)]
    else if (source, target) !in LinkMap(c.plan.networkLinks) then [MissingNetworkLink(source, target)]
    else []
  }

  function LinkReasons(c: CutInput, n: nat): seq<Reason>
    requires Buildable(c) && n <= |c.splits|
  {
    if n == 0 then [] else LinkReasons(c, n - 1) + LinkReasonsAt(c, n - 1)
  }

  /** The activation of the last layer before the boundary. */
  function EdgeBytesAt(c: CutInput, i: nat): nat
    requires Buildable(c) && i < |c.splits|
  {
    c.plan.layers[c.splits[i] - 1].activationBytes
  }

  function EdgeMsAt(c: CutInput, i: nat): real
    requires Buildable(c) && i < |c.splits| && LinkUsable(c, i)
  {
    LinkMapEntries(c.plan.networkLinks);
    var link := LinkMap(c.plan.networkLinks)[PairAt(c, i)];
    link.latencyMs + Ratio(EdgeBytesAt(c, i) as real, link.bandwidthBytesPerSecond) * 1000.0
  }

  function EdgeAt(c: CutInput, i: nat): GraphEdge
    requires Buildable(c) && i < |c.splits| && LinkUsable(c, i)
  {
    GraphEdge(PartitionId(i), PartitionId(i + 1), EdgeBytesAt(c, i), Round6(EdgeMsAt(c, i)), ForwardEdge)
  }

  function EdgesUpTo(c: CutInput, n: nat): seq<GraphEdge>
    requires Buildable(c) && n <= |c.splits|
  {
    if n == 0 then []
    else EdgesUpTo(c, n - 1) + if LinkUsable(c, n - 1) then [EdgeAt(c, n - 1)] else []
  }

  function TransferMs(c: CutInput, n: nat): real
    requires Buildable(c) && n <= |c.splits|
  {
    if n == 0 then 0.0
    else TransferMs(c, n - 1) + if LinkUsable(c, n - 1) then EdgeMsAt(c, n - 1) else 0.0
  }

  // ----- the candidate -----

  function OptionalReason(condition: bool, reason: Reason): seq<Reason> {
    if condition then [reason] else []
  }

  function CapReasons(k: Constraints, transferBytes: nat, latencyMs: real): seq<Reason> {
    OptionalReason(k.maxTransferBytes.Some? && transferBytes > k.maxTransferBytes.value, MaxTransferBytesExceeded)
    + OptionalReason(k.maxEndToEndLatencyMs.Some? && latencyMs > k.maxEndToEndLatencyMs.value, LatencySloExceeded)
  }

  /** A candidate before the caps are checked and the numbers rounded. */
  datatype Draft = Draft(
    partitions: seq<LogicalPartition>, computeMs: seq<real>, pressures: seq<real>,
    nodes: seq<GraphNode>, edges: seq<GraphEdge>, transferMs: real, transferBytes: nat,
    stepTimeMs: real, gradientBytes: nat, imbalance: real, risk: real, reasons: seq<Reason>)

  function ForwardNodes(partitions: seq<LogicalPartition>): (r: seq<GraphNode>)
    ensures |r| == |partitions|
  {
    seq(|partitions|, i requires 0 <= i < |partitions| => GraphNode(partitions[i].partitionId, partitions[i].deviceId))
  }

  function InferenceDraft(c: CutInput): Draft
    requires Buildable(c)
  {
    var k := |c.participants|;
    var edges := EdgesUpTo(c, k - 1);
    Draft(PartitionsUpTo(c, k), ComputeMsUpTo(c, k), PressuresUpTo(c, k),
          ForwardNodes(PartitionsUpTo(c, k)),
          edges, TransferMs(c, k - 1), SumBytes(edges), 0.0, 0, 0.0, 0.0,
          MemoryReasons(c, k) + LinkReasons(c, k - 1))
  }

  function DraftOf(c: CutInput): Draft
    requires Buildable(c)
  {
    var d := InferenceDraft(c);
    if c.intent.None? then d else WithTrainingGraph(d)
  }

  function WithTrainingGraph(d: Draft): Draft
    requires d.partitions != []
  {
    var g := TrainingGraphOf(d.partitions, d.edges, d.computeMs, d.transferMs, d.transferBytes);
    d.(nodes := g.nodes, edges := g.edges, transferMs := g.transferMs, transferBytes := g.transferBytes,
       stepTimeMs := g.stepTimeMs, gradientBytes := g.gradientBytes, imbalance := g.imbalance,
       risk := ResilienceRisk(d.computeMs, |d.partitions|))
  }

  function TotalLatency(c: CutInput, d: Draft): real {
    if c.intent.Some? then d.stepTimeMs else SumReals(d.computeMs) + d.transferMs
  }

  function Finish(c: CutInput, d: Draft): Candidate
    requires SoundPolicy(c.policy)
  {
    var latency := TotalLatency(c, d);
    var pressure := MaxReals(d.pressures);
    var reasons := d.reasons + CapReasons(c.plan.constraints, d.transferBytes, latency);
    Candidate(c.splits, d.partitions, d.nodes, d.edges, Round6(SumReals(d.computeMs)), Round6(d.transferMs),
              Round6(latency), d.transferBytes, Round6(pressure), reasons == [], reasons,
              if c.intent.Some? then
                ScoreTraining(c.policy, c.intent.value.weights, d.stepTimeMs, d.imbalance, pressure,
                              d.transferBytes, d.risk)
              else Score(c.policy, latency, pressure, d.transferBytes),
              Round6(d.stepTimeMs), d.gradientBytes, Round6(d.imbalance), Round6(d.risk))
  }

  function CandidateOf(c: CutInput): Candidate
    requires Buildable(c)
  {
    Finish(c, DraftOf(c))
  }

  /** The bytes that a candidate reports: the forward bytes, three times over in training. */
  function ReportedBytes(c: CutInput): nat
    requires Buildable(c)
  {
    (if c.intent.Some? then 3 else 1) * SumBytes(EdgesUpTo(c, |c.splits|))
  }

  /** The latency that the constraint is checked against: one forward pass, or the
      training step of twice that. */
  function ReportedLatency(c: CutInput): real
    requires Buildable(c)
  {
    (if c.intent.Some? then 2.0 else 1.0)
    * (SumReals(ComputeMsUpTo(c, |c.participants|)) + TransferMs(c, |c.splits|))
  }

  lemma Reported(c: CutInput)
    requires Buildable(c)
    ensures CandidateOf(c).totalTransferBytes == ReportedBytes(c)
    ensures DraftOf(c).transferBytes == ReportedBytes(c)
    ensures TotalLatency(c, DraftOf(c)) == ReportedLatency(c)
    ensures CandidateOf(c).estimatedTotalLatencyMs == Round6(ReportedLatency(c))
  {
  }

  lemma OneMorePartition(c: CutInput, n: nat)
    requires Buildable(c) && n < |c.participants|
    ensures PartitionsUpTo(c, n + 1) == PartitionsUpTo(c, n) + [PartitionAt(c, n)]
  {
  }

  lemma OneMorePressure(c: CutInput, n: nat)
    requires Buildable(c) && n < |c.participants|
    ensures PressuresUpTo(c, n + 1) == PressuresUpTo(c, n) + [PressureAt(c, n)]
  {
  }

  lemma OneMoreParticipant(c: CutInput, n: nat)
    requires Buildable(c) && n < |c.participants|
    ensures PartitionsUpTo(c, n + 1) == PartitionsUpTo(c, n) + [PartitionAt(c, n)]
    ensures ComputeMsUpTo(c, n + 1) == ComputeMsUpTo(c, n) + [ComputeMsAt(c, n)]
    ensures SumReals(ComputeMsUpTo(c, n + 1)) == SumReals(ComputeMsUpTo(c, n)) + ComputeMsAt(c, n)
    ensures PressuresUpTo(c, n + 1) == PressuresUpTo(c, n) + [PressureAt(c, n)]
  {
    OneMorePartition(c, n);
    OneMoreComputeMs(c, n);
    OneMorePressure(c, n);
  }

  lemma OneMoreComputeMs(c: CutInput, n: nat)
    requires Buildable(c) && n < |c.participants|
    ensures ComputeMsUpTo(c, n + 1) == ComputeMsUpTo(c, n) + [ComputeMsAt(c, n)]
    ensures SumReals(ComputeMsUpTo(c, n + 1)) == SumReals(ComputeMsUpTo(c, n)) + ComputeMsAt(c, n)
  {
    SumRealsSnoc(ComputeMsUpTo(c, n), ComputeMsAt(c, n));
    assert ComputeMsUpTo(c, n + 1) == ComputeMsUpTo(c, n) + [ComputeMsAt(c, n)];
  }

  lemma SumRealsSnoc(xs: seq<real>, x: real)
    ensures SumReals(xs + [x]) == SumReals(xs) + x
  {
    assert (xs + [x])[..|xs|] == xs;
  }

  /** The memory checks of one loop iteration. */
  method CheckMemory(c: CutInput, index: nat, demand: nat) returns (found: seq<Reason>)
    requires Buildable(c) && index < |c.participants| && demand == Demand(LayersAt(c, index))
    ensures found == MemoryReasonsAt(c, index)
  {
    var deviceId := c.participants[index];
    var available := DeviceAt(c, index).memoryAvailableBytes;
    var allowed := (available as real * (1.0 - c.plan.constraints.minimumMemoryHeadroomRatio)).Floor;
    found := [];
    if demand > allowed {
      found := found + [MemoryCapacityExceeded(deviceId)];
    }
    if deviceId in c.memoryLimits && demand > c.memoryLimits[deviceId] {
      found := found + [MemoryReplanNotImproved(deviceId)];
    }
  }

  /** One iteration of the pass over the participants. */
  method PlacePartition(c: CutInput, index: nat)
    returns (partition: LogicalPartition, computeMs: real, pressure: real, reasons: seq<Reason>)
    requires Buildable(c) && index < |c.participants|
    ensures partition == PartitionAt(c, index)
    ensures computeMs == ComputeMsAt(c, index)
    ensures pressure == PressureAt(c, index)
    ensures reasons == MemoryReasonsAt(c, index)
  {
    var boundaries := Boundaries(c.splits, |c.plan.layers|);
    BoundariesIncrease(c.splits, |c.plan.layers|, index);
    var layers := c.plan.layers[boundaries[index]..boundaries[index + 1]];
    assert layers == LayersAt(c, index);
    var deviceId := c.participants[index];
    var device := DeviceMap(c.plan.devices)[deviceId];
    DeviceMapEntries(c.plan.devices);
    partition := LogicalPartition(PartitionId(index), deviceId, LayerNames(layers), ComputeUnits(layers),
                                  Demand(layers));
    computeMs := Ratio(partition.computeUnits, device.computeUnitsPerSecond) * 1000.0;
    var available := device.memoryAvailableBytes;
    pressure := Ratio(partition.memoryDemandBytes as real, (if available > 1 then available else 1) as real);
    reasons := CheckMemory(c, index, partition.memoryDemandBytes);
  }

  /** What the pass over the first `n` participants has gathered. */
  predicate Placed(c: CutInput, n: nat, partitions: seq<LogicalPartition>, times: seq<real>, computeMs: real,
                   pressures: seq<real>, reasons: seq<Reason>)
    requires Buildable(c) && n <= |c.participants|
  {
    && partitions == PartitionsUpTo(c, n) && times == ComputeMsUpTo(c, n) && computeMs == SumReals(times)
    && pressures == PressuresUpTo(c, n) && reasons == MemoryReasons(c, n)
  }

  lemma OneMorePlaced(c: CutInput, n: nat, partitions: seq<LogicalPartition>, times: seq<real>, computeMs: real,
                      pressures: seq<real>, reasons: seq<Reason>)
    requires Buildable(c) && n < |c.participants| && Placed(c, n, partitions, times, computeMs, pressures, reasons)
    ensures Placed(c, n + 1, partitions + [PartitionAt(c, n)], times + [ComputeMsAt(c, n)],
                   computeMs + ComputeMsAt(c, n), pressures + [PressureAt(c, n)], reasons + MemoryReasonsAt(c, n))
  {
    OneMoreParticipant(c, n);
  }

  /** The pass of `_build_candidate` over the participants. */
  method PartitionPass(c: CutInput)
    returns (partitions: seq<LogicalPartition>, partitionComputeMs: seq<real>, computeMs: real,
             pressures: seq<real>, reasons: seq<Reason>)
    requires Buildable(c)
    ensures partitions == PartitionsUpTo(c, |c.participants|)
    ensures partitionComputeMs == ComputeMsUpTo(c, |c.participants|)
    ensures computeMs == SumReals(partitionComputeMs)
    ensures pressures == PressuresUpTo(c, |c.participants|)
    ensures reasons == MemoryReasons(c, |c.participants|)
  {
    partitions, partitionComputeMs, computeMs, pressures, reasons := [], [], 0.0, [], [];
    var index := 0;
    while index < |c.participants|
      invariant 0 <= index <= |c.participants|
      invariant Placed(c, index, partitions, partitionComputeMs, computeMs, pressures, reasons)
    {
      var partition, partitionCompute, pressure, found := PlacePartition(c, index);
      OneMorePlaced(c, index, partitions, partitionComputeMs, computeMs, pressures, reasons);
      partitions := partitions + [partition];
      computeMs := computeMs + partitionCompute;
      partitionComputeMs := partitionComputeMs + [partitionCompute];
      pressures := pressures + [pressure];
      reasons := reasons + found;
      index := index + 1;
    }
  }

  /** What one neighbouring pair contributes: an edge with its time, or the reason there is none. */
  method ForwardLink(c: CutInput, index: nat, source: LogicalPartition, target: LogicalPartition)
    returns (edge: Option<GraphEdge>, edgeMs: real, reasons: seq<Reason>)
    requires Buildable(c) && index < |c.splits|
    requires source == PartitionAt(c, index) && target == PartitionAt(c, index + 1)
    ensures edge == if LinkUsable(c, index) then Some(EdgeAt(c, index)) else None
    ensures LinkUsable(c, index) ==> edgeMs == EdgeMsAt(c, index)
    ensures reasons == LinkReasonsAt(c, index)
  {
    var links := LinkMap(c.plan.networkLinks);
    LinkMapEntries(c.plan.networkLinks);
    var pair := (c.participants[index], c.participants[index + 1]);
    if pair in c.excludedLinks {
      return None, 0.0, [FailedNetworkLink(pair.0, pair.1)];
    }
    if pair !in links {
      return None, 0.0, [MissingNetworkLink(pair.0, pair.1)];
    }
    var link := links[pair];
    var edgeBytes := c.plan.layers[c.splits[index] - 1].activationBytes;
    edgeMs := link.latencyMs + Ratio(edgeBytes as real, link.bandwidthBytesPerSecond) * 1000.0;
    edge := Some(GraphEdge(source.partitionId, target.partitionId, edgeBytes, Round6(edgeMs), ForwardEdge));
    reasons := [];
  }

  lemma SumBytesSnoc(edges: seq<GraphEdge>, e: GraphEdge)
    ensures SumBytes(edges + [e]) == SumBytes(edges) + e.transferBytes
  {
    assert (edges + [e])[..|edges|] == edges;
  }

  /** What the pass over the first `n` neighbouring pairs has gathered. */
  predicate Linked(c: CutInput, n: nat, edges: seq<GraphEdge>, transferMs: real, transferBytes: nat,
                   reasons: seq<Reason>)
    requires Buildable(c) && n <= |c.splits|
  {
    && edges == EdgesUpTo(c, n) && transferMs == TransferMs(c, n) && transferBytes == SumBytes(edges)
    && reasons == LinkReasons(c, n)
  }

  lemma OneMoreLinked(c: CutInput, n: nat, edges: seq<GraphEdge>, transferMs: real, transferBytes: nat,
                      reasons: seq<Reason>)
    requires Buildable(c) && n < |c.splits| && Linked(c, n, edges, transferMs, transferBytes, reasons)
    ensures LinkUsable(c, n) ==>
              var edge := EdgeAt(c, n);
              Linked(c, n + 1, edges + [edge], transferMs + EdgeMsAt(c, n), transferBytes + edge.transferBytes,
                     reasons + LinkReasonsAt(c, n))
    ensures !LinkUsable(c, n) ==> Linked(c, n + 1, edges, transferMs, transferBytes, reasons + LinkReasonsAt(c, n))
  {
    if LinkUsable(c, n) { SumBytesSnoc(edges, EdgeAt(c, n)); }
  }

  /** The pass of `_build_candidate` over the neighbouring pairs. */
  method LinkPass(c: CutInput, partitions: seq<LogicalPartition>)
    returns (edges: seq<GraphEdge>, transferMs: real, transferBytes: nat, reasons: seq<Reason>)
    requires Buildable(c) && partitions == PartitionsUpTo(c, |c.participants|)
    ensures edges == EdgesUpTo(c, |c.splits|)
    ensures transferMs == TransferMs(c, |c.splits|)
    ensures transferBytes == SumBytes(edges)
    ensures reasons == LinkReasons(c, |c.splits|)
  {
    edges, transferMs, transferBytes, reasons := [], 0.0, 0, [];
    var index := 0;
    while index < |c.participants| - 1
      invariant 0 <= index <= |c.splits| && Linked(c, index, edges, transferMs, transferBytes, reasons)
    {
      OneMoreLinked(c, index, edges, transferMs, transferBytes, reasons);
      var edge, edgeMs, found := ForwardLink(c, index, partitions[index], partitions[index + 1]);
      reasons := reasons + found;
      if edge.Some? {
        transferBytes := transferBytes + edge.value.transferBytes;
        transferMs := transferMs + edgeMs;
        edges := edges + [edge.value];
      }
      index := index + 1;
    }
  }

  /** Both passes of `_build_candidate`. */
  method ForwardDraft(c: CutInput) returns (d: Draft)
    requires Buildable(c)
    ensures d == InferenceDraft(c)
  {
    var partitions, partitionComputeMs, _, pressures, reasons := PartitionPass(c);
    var edges, transferMs, transferBytes, linkReasons := LinkPass(c, partitions);
    d := Draft(partitions, partitionComputeMs, pressures, ForwardNodes(partitions), edges, transferMs, transferBytes,
               0.0, 0, 0.0, 0.0, reasons + linkReasons);
  }

  /** The training branch of `_build_candidate`. */
  method AddTrainingGraph(d: Draft) returns (r: Draft)
    requires d.partitions != []
    ensures r == WithTrainingGraph(d)
  {
    var g := BuildTrainingGraph(d.partitions, d.edges, d.computeMs, d.transferMs, d.transferBytes);
    var risk := ResilienceRisk(d.computeMs, |d.partitions|);
    r := Draft(d.partitions, d.computeMs, d.pressures, g.nodes, g.edges, g.transferMs, g.transferBytes,
               g.stepTimeMs, g.gradientBytes, g.imbalance, risk, d.reasons);
  }

  /** `_build_candidate`: both passes, the training graph if one is wanted, then the caps, the score
      and the rounding. */
  method BuildCandidate(c: CutInput) returns (r: Candidate)
    requires Buildable(c)
    ensures r == CandidateOf(c)
  {
    var draft := ForwardDraft(c);
    if c.intent.Some? {
      draft := AddTrainingGraph(draft);
    }
    r := Finish(c, draft);
  }

  // ----- when a candidate is valid -----

  predicate LinksUsable(c: CutInput)
    requires Buildable(c)
  {
    forall i :: 0 <= i < |c.splits| ==> LinkUsable(c, i)
  }

  predicate WithinCaps(c: CutInput)
    requires Buildable(c)
  {
    && (c.plan.constraints.maxTransferBytes.Some? ==> ReportedBytes(c) <= c.plan.constraints.maxTransferBytes.value)
    && (c.plan.constraints.maxEndToEndLatencyMs.Some? ==>
          ReportedLatency(c) <= c.plan.constraints.maxEndToEndLatencyMs.value)
  }

  predicate FitsDevice(c: CutInput, i: nat)
    requires Buildable(c) && i < |c.participants|
  {
    var demand, device := Demand(LayersAt(c, i)), c.participants[i];
    && demand as real
       <= DeviceAt(c, i).memoryAvailableBytes as real * (1.0 - c.plan.constraints.minimumMemoryHeadroomRatio)
    && (device in c.memoryLimits ==> demand <= c.memoryLimits[device])
  }

  predicate FitsMemory(c: CutInput)
    requires Buildable(c)
  {
    forall i :: 0 <= i < |c.participants| ==> FitsDevice(c, i)
  }

  lemma MemoryReasonsAtEmpty(c: CutInput, i: nat)
    requires Buildable(c) && i < |c.participants|
    ensures MemoryReasonsAt(c, i) == [] <==> FitsDevice(c, i)
  {
    var room := DeviceAt(c, i).memoryAvailableBytes as real * (1.0 - c.plan.constraints.minimumMemoryHeadroomRatio);
    assert Demand(LayersAt(c, i)) <= room.Floor <==> Demand(LayersAt(c, i)) as real <= room;
  }

  lemma NeitherIff(a: seq<Reason>, b: seq<Reason>)
    ensures a + b == [] <==> a == [] && b == []
  {
  }

  /** `fits` says which partitions have no memory reason against them. */
  lemma {:induction false} NoMemoryReasonIff(c: CutInput, n: nat, fits: nat -> bool)
    requires Buildable(c) && n <= |c.participants|
    requires forall i: nat {:trigger MemoryReasonsAt(c, i)} ::
               i < |c.participants| ==> (fits(i) <==> MemoryReasonsAt(c, i) == [])
    ensures MemoryReasons(c, n) == [] <==> forall i: nat :: i < n ==> fits(i)
    decreases n
  {
    if n > 0 {
      NoMemoryReasonIff(c, n - 1, fits);
      NeitherIff(MemoryReasons(c, n - 1), MemoryReasonsAt(c, n - 1));
    }
  }

  lemma MemoryReasonsEmpty(c: CutInput)
    requires Buildable(c)
    ensures MemoryReasons(c, |c.participants|) == [] <==> FitsMemory(c)
  {
    MemoryReasonsFit(c, (i: nat) => i < |c.participants| && FitsDevice(c, i));
  }

  lemma MemoryReasonsFit(c: CutInput, fits: nat -> bool)
    requires Buildable(c)
    requires forall i: nat {:trigger fits(i)} {:trigger FitsDevice(c, i)} ::
               i < |c.participants| ==> (fits(i) <==> FitsDevice(c, i))
    ensures MemoryReasons(c, |c.participants|) == [] <==> FitsMemory(c)
  {
    forall i: nat | i < |c.participants| ensures fits(i) <==> MemoryReasonsAt(c, i) == [] {
      MemoryReasonsAtEmpty(c, i);
    }
    NoMemoryReasonIff(c, |c.participants|, fits);
  }

  lemma LinkReasonsAtEmpty(c: CutInput, i: nat)
    requires Buildable(c) && i < |c.splits|
    ensures LinkReasonsAt(c, i) == [] <==> LinkUsable(c, i)
  {
  }

  lemma {:induction false} LinkReasonsEmpty(c: CutInput, n: nat)
    requires Buildable(c) && n <= |c.splits|
    ensures LinkReasons(c, n) == [] <==> forall i :: 0 <= i < n ==> LinkUsable(c, i)
    decreases n
  {
    if n > 0 {
      LinkReasonsEmpty(c, n - 1);
      LinkReasonsAtEmpty(c, n - 1);
      NeitherIff(LinkReasons(c, n - 1), LinkReasonsAt(c, n - 1));
    }
  }

  /** A candidate is valid exactly when every partition fits its device, every hop has a
      link that is not excluded, and both caps hold. */
  lemma ValidIff(c: CutInput)
    requires Buildable(c)
    ensures CandidateOf(c).valid <==> FitsMemory(c) && LinksUsable(c) && WithinCaps(c)
  {
    var memory, links := MemoryReasons(c, |c.participants|), LinkReasons(c, |c.splits|);
    var caps := CapReasons(c.plan.constraints, ReportedBytes(c), ReportedLatency(c));
    Reported(c);
    assert CandidateOf(c).valid <==> memory + links + caps == [];
    assert memory + links + caps == [] <==> memory == [] && links == [] && caps == [];
    MemoryReasonsEmpty(c);
    LinkReasonsEmpty(c, |c.splits|);
  }

  // ----- what the candidate reports -----

  lemma {:induction false} EdgesComplete(c: CutInput, n: nat)
    requires Buildable(c) && n <= |c.splits| && forall i :: 0 <= i < n ==> LinkUsable(c, i)
    ensures |EdgesUpTo(c, n)| == n
    ensures forall i :: 0 <= i < n ==> EdgesUpTo(c, n)[i] == EdgeAt(c, i)
  {
    if n > 0 { EdgesComplete(c, n - 1); }
  }

  lemma ValidForwardChain(c: CutInput)
    requires Buildable(c) && CandidateOf(c).valid
    ensures |EdgesUpTo(c, |c.splits|)| == |c.splits|
    ensures ChainedPartitions(PartitionsUpTo(c, |c.participants|), EdgesUpTo(c, |c.splits|))
  {
    ValidIff(c);
    CompleteChain(c);
  }

  lemma CompleteChain(c: CutInput)
    requires Buildable(c) && LinksUsable(c)
    ensures |EdgesUpTo(c, |c.splits|)| == |c.splits|
    ensures ChainedPartitions(PartitionsUpTo(c, |c.participants|), EdgesUpTo(c, |c.splits|))
  {
    EdgesComplete(c, |c.splits|);
  }

  /** What holds of any candidate with a training graph over a forward chain. */
  lemma ChainedTrainingGraph(r: Candidate, partitions: seq<LogicalPartition>, edges: seq<GraphEdge>,
                             computeMs: seq<real>, transferMs: real)
    requires ChainedPartitions(partitions, edges)
    requires r.graphNodes == TrainingNodes(partitions)
    requires r.graphEdges == TrainingEdges(partitions, edges, SumBytes(edges))
    ensures |r.graphNodes| == 2 * |partitions| + 1 && |r.graphEdges| == 2 * |partitions|
    ensures SimplePath(r.graphNodes, r.graphEdges)
    ensures NetworkBytes(r.graphEdges) == 3 * SumBytes(edges)
  {
    TrainingGraphIsOnePath(partitions, edges, SumBytes(edges));
    ReportedBytesAreNetworkBytes(partitions, edges, computeMs, transferMs);
  }

  lemma TrainingCandidateGraph(c: CutInput)
    requires Buildable(c) && c.intent.Some?
    ensures var k, edges := |c.participants|, EdgesUpTo(c, |c.splits|);
            && CandidateOf(c).graphNodes == TrainingNodes(PartitionsUpTo(c, k))
            && CandidateOf(c).graphEdges == TrainingEdges(PartitionsUpTo(c, k), edges, SumBytes(edges))
            && CandidateOf(c).estimatedStepTimeMs == Round6(ReportedLatency(c))
  {
    Reported(c);
  }

  /** A valid training candidate over k participants is one simple path of 2k+1 nodes and
      2k edges whose network edges carry the reported bytes, three times the forward
      bytes; its step time is twice the compute plus the forward transfer. */
  lemma ValidTrainingCandidate(c: CutInput)
    requires Buildable(c) && c.intent.Some? && CandidateOf(c).valid
    ensures |CandidateOf(c).graphNodes| == 2 * |c.participants| + 1
    ensures |CandidateOf(c).graphEdges| == 2 * |c.participants|
    ensures SimplePath(CandidateOf(c).graphNodes, CandidateOf(c).graphEdges)
    ensures CandidateOf(c).totalTransferBytes == NetworkBytes(CandidateOf(c).graphEdges)
    ensures CandidateOf(c).totalTransferBytes == 3 * SumBytes(EdgesUpTo(c, |c.splits|))
    ensures |EdgesUpTo(c, |c.splits|)| == |c.splits|
    ensures CandidateOf(c).estimatedStepTimeMs
            == Round6(2.0 * (SumReals(ComputeMsUpTo(c, |c.participants|)) + TransferMs(c, |c.splits|)))
  {
    ValidTrainingGraph(c, CandidateOf(c));
    TrainingTotals(c, CandidateOf(c));
  }

  lemma ValidTrainingGraph(c: CutInput, r: Candidate)
    requires Buildable(c) && c.intent.Some? && r == CandidateOf(c) && r.valid
    ensures |EdgesUpTo(c, |c.splits|)| == |c.splits|
    ensures |r.graphNodes| == 2 * |c.participants| + 1 && |r.graphEdges| == 2 * |c.participants|
    ensures SimplePath(r.graphNodes, r.graphEdges)
    ensures NetworkBytes(r.graphEdges) == 3 * SumBytes(EdgesUpTo(c, |c.splits|))
  {
    var k := |c.participants|;
    ValidForwardChain(c);
    TrainingCandidateGraph(c);
    ChainedTrainingGraph(r, PartitionsUpTo(c, k), EdgesUpTo(c, |c.splits|), ComputeMsUpTo(c, k),
                         TransferMs(c, |c.splits|));
  }

  lemma TrainingTotals(c: CutInput, r: Candidate)
    requires Buildable(c) && c.intent.Some? && r == CandidateOf(c)
    ensures r.totalTransferBytes == 3 * SumBytes(EdgesUpTo(c, |c.splits|))
    ensures r.estimatedStepTimeMs
            == Round6(2.0 * (SumReals(ComputeMsUpTo(c, |c.participants|)) + TransferMs(c, |c.splits|)))
  {
    Reported(c);
    TrainingCandidateGraph(c);
    assert ReportedLatency(c) == 2.0 * (SumReals(ComputeMsUpTo(c, |c.participants|)) + TransferMs(c, |c.splits|));
  }

  /** Hence its graph is acyclic. */
  lemma ValidTrainingCandidateAcyclic(c: CutInput, stops: seq<string>)
    requires Buildable(c) && c.intent.Some? && CandidateOf(c).valid
    requires |stops| >= 2 && Walk(CandidateOf(c).graphEdges, stops)
    ensures stops[0] != stops[|stops| - 1]
  {
    ValidTrainingCandidate(c);
    SimplePathIsAcyclic(CandidateOf(c).graphNodes, CandidateOf(c).graphEdges, stops);
  }

  lemma {:induction false} UnitsPositive(layers: seq<ModelLayer>)
    requires forall l :: l in layers ==> l.computeUnits > 0.0
    ensures ComputeUnits(layers) >= 0.0
  {
    if layers != [] { UnitsPositive(layers[1..]); }
  }

  lemma ComputeMsNonNegative(c: CutInput, n: nat)
    requires Buildable(c) && n <= |c.participants|
    ensures NonNegative(ComputeMsUpTo(c, n))
  {
    forall i | 0 <= i < n ensures ComputeMsAt(c, i) >= 0.0 {
      DeviceMapEntries(c.plan.devices);
      BoundariesIncrease(c.splits, |c.plan.layers|, i);
      UnitsPositive(LayersAt(c, i));
      RatioMonotone(0.0, ComputeUnits(LayersAt(c, i)), DeviceAt(c, i).computeUnitsPerSecond);
    }
  }

  lemma {:induction false} TransferMsNonNegative(c: CutInput, n: nat)
    requires Buildable(c) && n <= |c.splits|
    ensures TransferMs(c, n) >= 0.0
  {
    if n > 0 {
      TransferMsNonNegative(c, n - 1);
      if LinkUsable(c, n - 1) {
        LinkMapEntries(c.plan.networkLinks);
        var link := LinkMap(c.plan.networkLinks)[PairAt(c, n - 1)];
        RatioMonotone(0.0, EdgeBytesAt(c, n - 1) as real, link.bandwidthBytesPerSecond);
      }
    }
  }

  /** The score of every candidate, valid or not, is in [0, 1]. */
  lemma CandidateScoreUnit(c: CutInput)
    requires Buildable(c) && (c.intent.Some? ==> SoundWeights(c.intent.value.weights))
    ensures 0.0 <= CandidateOf(c).score <= 1.0
    ensures ReportedLatency(c) >= 0.0
  {
    var k := |c.participants|;
    ComputeMsNonNegative(c, k);
    RealFolds(ComputeMsUpTo(c, k));
    TransferMsNonNegative(c, k - 1);
    var pressures := PressuresUpTo(c, k);
    forall i | 0 <= i < k ensures pressures[i] >= 0.0 {
      var available := DeviceAt(c, i).memoryAvailableBytes;
      RatioMonotone(0.0, Demand(LayersAt(c, i)) as real, (if available > 1 then available else 1) as real);
    }
    RealFolds(pressures);
    Reported(c);
    if c.intent.Some? {
      ScoreTrainingUnit(c.policy, c.intent.value.weights, ReportedLatency(c), ComputeMsUpTo(c, k),
                        MaxReals(pressures), ReportedBytes(c), k);
    } else {
      ScoreUnit(c.policy, ReportedLatency(c), MaxReals(pressures), ReportedBytes(c));
    }
  }

  // ----- conservation over a cut -----

  function SumOverRuns(runs: seq<seq<ModelLayer>>): (int, real) {
    if runs == [] then (0, 0.0)
    else
      var (bytes, units) := SumOverRuns(runs[1..]);
      (ParameterBytes(runs[0]) + WorkingBytes(runs[0]) + bytes, ComputeUnits(runs[0]) + units)
  }

  lemma {:induction false} LayerSumsConcat(a: seq<ModelLayer>, b: seq<ModelLayer>)
    ensures ParameterBytes(a + b) == ParameterBytes(a) + ParameterBytes(b)
    ensures WorkingBytes(a + b) == WorkingBytes(a) + WorkingBytes(b)
    ensures ComputeUnits(a + b) == ComputeUnits(a) + ComputeUnits(b)
  {
    if a == [] {
      assert a + b == b;
    } else {
      LayerSumsConcat(a[1..], b);
      assert (a + b)[1..] == a[1..] + b;
    }
  }

  lemma OneLayerSums(layer: ModelLayer)
    ensures ParameterBytes([layer]) == layer.parameterBytes && WorkingBytes([layer]) == layer.workingMemoryBytes
    ensures ComputeUnits([layer]) == layer.computeUnits
  {
    assert [layer][1..] == [];
  }

  /** However the layers are cut, the runs' parameter and working bytes and their compute
      units add up to those of the whole list. */
  lemma {:induction false} CutConserves(runs: seq<seq<ModelLayer>>)
    ensures SumOverRuns(runs)
            == (ParameterBytes(Flatten(runs)) + WorkingBytes(Flatten(runs)), ComputeUnits(Flatten(runs)))
  {
    if runs != [] {
      CutConserves(runs[1..]);
      LayerSumsConcat(runs[0], Flatten(runs[1..]));
    }
  }
}
