/** The planning inputs and the candidate that the planner builds from them. */
module PartitionModels {
  import opened Prelude

  datatype ModelLayer = ModelLayer(
    name: string, computeUnits: real, parameterBytes: nat, activationBytes: nat, workingMemoryBytes: nat)

  datatype ResourceDevice = ResourceDevice(
    deviceId: string, computeUnitsPerSecond: real, memoryAvailableBytes: nat)

  datatype NetworkLink = NetworkLink(
    sourceDevice: string, targetDevice: string, bandwidthBytesPerSecond: real, latencyMs: real)

  datatype Constraints = Constraints(
    maxEndToEndLatencyMs: Option<real>, maxTransferBytes: Option<nat>, minimumMemoryHeadroomRatio: real)

  datatype RoundPlan = RoundPlan(
    layers: seq<ModelLayer>,
    participants: seq<string>,
    devices: seq<ResourceDevice>,
    networkLinks: seq<NetworkLink>,
    constraints: Constraints)

  type Pair = (string, string)

  /** `{device.device_id: device for device in devices}`: the last entry for an id wins. */
  function DeviceMap(devices: seq<ResourceDevice>): map<string, ResourceDevice> {
    if devices == [] then map[]
    else
      var last := devices[|devices| - 1];
      DeviceMap(devices[..|devices| - 1])[last.deviceId := last]
  }

  function LinkMap(links: seq<NetworkLink>): map<Pair, NetworkLink> {
    if links == [] then map[]
    else
      var last := links[|links| - 1];
      LinkMap(links[..|links| - 1])[(last.sourceDevice, last.targetDevice) := last]
  }

  /** What the request parsers guarantee of devices, links and constraints. */
  predicate ParsedPlan(plan: RoundPlan) {
    && (forall d :: d in plan.devices ==> d.computeUnitsPerSecond > 0.0)
    && (forall l :: l in plan.networkLinks ==> l.bandwidthBytesPerSecond > 0.0 && l.latencyMs >= 0.0)
    && (forall l :: l in plan.layers ==> l.computeUnits > 0.0)
    && 0.0 <= plan.constraints.minimumMemoryHeadroomRatio < 1.0
    && (plan.constraints.maxEndToEndLatencyMs.Some? ==> plan.constraints.maxEndToEndLatencyMs.value > 0.0)
  }

  lemma {:induction false} DeviceMapEntries(devices: seq<ResourceDevice>)
    ensures forall id :: id in DeviceMap(devices) ==>
              DeviceMap(devices)[id] in devices && DeviceMap(devices)[id].deviceId == id
    ensures forall d :: d in devices ==> d.deviceId in DeviceMap(devices)
  {
    if devices != [] {
      var front := devices[..|devices| - 1];
      DeviceMapEntries(front);
      assert devices == front + [devices[|devices| - 1]];
    }
  }

  lemma {:induction false} LinkMapEntries(links: seq<NetworkLink>)
    ensures forall pair :: pair in LinkMap(links) ==>
              LinkMap(links)[pair] in links
              && pair == (LinkMap(links)[pair].sourceDevice, LinkMap(links)[pair].targetDevice)
    ensures forall l :: l in links ==> (l.sourceDevice, l.targetDevice) in LinkMap(links)
  {
    if links != [] {
      var front := links[..|links| - 1];
      LinkMapEntries(front);
      assert links == front + [links[|links| - 1]];
    }
  }

  datatype LogicalPartition = LogicalPartition(
    partitionId: string, deviceId: string, layerNames: seq<string>, computeUnits: real, memoryDemandBytes: nat)

  datatype GraphNode = GraphNode(nodeId: string, deviceId: string)

  datatype EdgeType = ForwardEdge | BackwardEdge | GradientEdge | AggregationEdge

  datatype GraphEdge = GraphEdge(
    source: string, target: string, transferBytes: nat, transferMs: real, edgeType: EdgeType)

  datatype Reason =
    | MemoryCapacityExceeded(device: string)
    | MemoryReplanNotImproved(device: string)
    | FailedNetworkLink(source: string, target: string)
    | MissingNetworkLink(source: string, target: string)
    | MaxTransferBytesExceeded
    | LatencySloExceeded

  datatype Candidate = Candidate(
    splitPoints: seq<nat>,
    partitions: seq<LogicalPartition>,
    graphNodes: seq<GraphNode>,
    graphEdges: seq<GraphEdge>,
    estimatedComputeMs: real,
    estimatedTransferMs: real,
    estimatedTotalLatencyMs: real,
    totalTransferBytes: nat,
    maximumMemoryPressure: real,
    valid: bool,
    rejectionReasons: seq<Reason>,
    score: real,
    estimatedStepTimeMs: real,
    gradientTransferBytes: nat,
    maximumLoadImbalance: real,
    predictedResilienceRisk: real)

  /** The devices of a candidate in partition order: its assignment. */
  function Assignment(c: Candidate): (r: seq<string>)
    ensures |r| == |c.partitions|
  {
    seq(|c.partitions|, i requires 0 <= i < |c.partitions| => c.partitions[i].deviceId)
  }

  // ----- partition names -----

  function Digit(d: nat): char
    requires d < 10
  {
    '0' + d as char
  }

  function Decimal(n: nat): string {
    if n < 10 then [Digit(n)] else Decimal(n / 10) + [Digit(n % 10)]
  }

  /** Reads back what `Decimal` writes. */
  function ParseDecimal(s: string): int {
    if s == [] then 0 else 10 * ParseDecimal(s[..|s| - 1]) + (s[|s| - 1] as int - '0' as int)
  }

  lemma {:induction false} DecimalRoundTrip(n: nat)
    ensures ParseDecimal(Decimal(n)) == n
    decreases n
  {
    if n < 10 {
      assert Decimal(n)[..0] == [];
    } else {
      DecimalRoundTrip(n / 10);
      assert Decimal(n)[..|Decimal(n)| - 1] == Decimal(n / 10);
    }
  }

  /** `f"partition-{index + 1}"`. */
  function PartitionId(index: nat): string { "partition-" + Decimal(index + 1) }

  lemma PartitionIdInjective(i: nat, j: nat)
    requires PartitionId(i) == PartitionId(j)
    ensures i == j
  {
    assert PartitionId(i)[10..] == Decimal(i + 1) && PartitionId(j)[10..] == Decimal(j + 1);
    DecimalRoundTrip(i + 1);
    DecimalRoundTrip(j + 1);
  }
}
