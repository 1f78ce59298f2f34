/** The federated candidate: one full-model replica per participant, with updates sent to
    the first participant. */
module FederatedBuilder {
  import opened Prelude
  import opened PartitionModels
  import opened Scoring
  import opened CandidateBuilder
  import opened TrainingGraph

  datatype FullModelInput = FullModelInput(
    plan: RoundPlan,
    participants: seq<string>,
    excludedLinks: set<Pair>,
    memoryLimits: map<string, int>,
    weights: TrainingWeights,
    policy: Policy)

  predicate FullModelBuildable(f: FullModelInput) {
    && ParsedPlan(f.plan) && SoundPolicy(f.policy)
    && f.plan.layers != [] && |f.participants| >= 2
    && (forall p :: p in f.participants ==> p in DeviceMap(f.plan.devices))
  }

  function ReplicaAt(f: FullModelInput, i: nat): LogicalPartition
    requires i < |f.participants|
  {
    LogicalPartition(PartitionId(i), f.participants[i], LayerNames(f.plan.layers), ComputeUnits(f.plan.layers),
                     Demand(f.plan.layers))
  }

  function ReplicaMsAt(f: FullModelInput, i: nat): real
    requires FullModelBuildable(f) && i < |f.participants|
  {
    DeviceMapEntries(f.plan.devices);
    Ratio(ComputeUnits(f.plan.layers), DeviceMap(f.plan.devices)[f.participants[i]].computeUnitsPerSecond) * 1000.0
  }

  function ReplicaPressureAt(f: FullModelInput, i: nat): real
    requires FullModelBuildable(f) && i < |f.participants|
  {
    var available := DeviceMap(f.plan.devices)[f.participants[i]].memoryAvailableBytes;
    Ratio(Demand(f.plan.layers) as real, (if available > 1 then available else 1) as real)
  }

  function ReplicaRoom(f: FullModelInput, i: nat): int
    requires FullModelBuildable(f) && i < |f.participants|
  {
    (DeviceMap(f.plan.devices)[f.participants[i]].memoryAvailableBytes as real
     * (1.0 - f.plan.constraints.minimumMemoryHeadroomRatio)).Floor
  }

  function ReplicaReasonsAt(f: FullModelInput, i: nat): seq<Reason>
    requires FullModelBuildable(f) && i < |f.participants|
  {
    var device := f.participants[i];
    (if Demand(f.plan.layers) > ReplicaRoom(f, i) then [MemoryCapacityExceeded(device)] else [])
    + (if device in f.memoryLimits && Demand(f.plan.layers) > f.memoryLimits[device]
       then [MemoryReplanNotImproved(device)] else [])
  }

  function ReplicaReasons(f: FullModelInput, n: nat): seq<Reason>
    requires FullModelBuildable(f) && n <= |f.participants|
  {
    if n == 0 then [] else ReplicaReasons(f, n - 1) + ReplicaReasonsAt(f, n - 1)
  }

  /** The upload of participant i goes to participant 0. */
  function UploadPair(f: FullModelInput, i: nat): Pair
    requires 0 < i < |f.participants|
  {
    (f.participants[i], f.participants[0])
  }

  predicate UploadUsable(f: FullModelInput, i: nat)
    requires 0 < i < |f.participants|
  {
    UploadPair(f, i) !in f.excludedLinks && UploadPair(f, i) in LinkMap(f.plan.networkLinks)
  }

  function UploadMs(f: FullModelInput, i: nat): real
    requires FullModelBuildable(f) && 0 < i < |f.participants| && UploadUsable(f, i)
  {
    LinkMapEntries(f.plan.networkLinks);
    var link := LinkMap(f.plan.networkLinks)[UploadPair(f, i)];
    link.latencyMs + Ratio(ParameterBytes(f.plan.layers) as real, link.bandwidthBytesPerSecond) * 1000.0
  }

  function UploadReasonsAt(f: FullModelInput, i: nat): seq<Reason>
    requires 0 < i < |f.participants|
  {
    var (source, target) := UploadPair(f, i);
    if (source, target) in f.excludedLinks then [FailedNetworkLink(source, target)]
    else if (source, target) !in LinkMap(f.plan.networkLinks) then [MissingNetworkLink(source, target)]
    else []
  }

  /** Uploads of participants 1..n-1: reasons, times and edges. */
  function UploadReasons(f: FullModelInput, n: nat): seq<Reason>
    requires n <= |f.participants|
  {
    if n <= 1 then [] else UploadReasons(f, n - 1) + UploadReasonsAt(f, n - 1)
  }

  function UploadTimes(f: FullModelInput, n: nat): seq<real>
    requires FullModelBuildable(f) && n <= |f.participants|
  {
    if n <= 1 then []
    else UploadTimes(f, n - 1) + if UploadUsable(f, n - 1) then [UploadMs(f, n - 1)] else []
  }

  function UploadEdges(f: FullModelInput, n: nat): seq<GraphEdge>
    requires FullModelBuildable(f) && n <= |f.participants|
  {
    if n <= 1 then []
    else
      UploadEdges(f, n - 1)
      + if UploadUsable(f, n - 1) then
          [GraphEdge(PartitionId(n - 1), AGGREGATION, ParameterBytes(f.plan.layers),
                     Round6(UploadMs(f, n - 1)), AggregationEdge)]
        else []
  }

  function Replicas(f: FullModelInput, n: nat): (r: seq<LogicalPartition>)
    requires n <= |f.participants|
    ensures |r| == n
  {
    seq(n, i requires 0 <= i < n => ReplicaAt(f, i))
  }

  function ReplicaTimes(f: FullModelInput, n: nat): (r: seq<real>)
    requires FullModelBuildable(f) && n <= |f.participants|
    ensures |r| == n
  {
    seq(n, i requires 0 <= i < n => ReplicaMsAt(f, i))
  }

  function ReplicaPressures(f: FullModelInput, n: nat): (r: seq<real>)
    requires FullModelBuildable(f) && n <= |f.participants|
    ensures |r| == n
  {
    seq(n, i requires 0 <= i < n => ReplicaPressureAt(f, i))
  }

  function FinishFullModel(f: FullModelInput, replicas: seq<LogicalPartition>, times: seq<real>,
                           pressures: seq<real>, reasons: seq<Reason>, uploadTimes: seq<real>,
                           edges: seq<GraphEdge>): Candidate
    requires SoundPolicy(f.policy) && replicas != []
  {
    var stepMs := MaxReals(times) + MaxReals(uploadTimes);
    var bytes := SumBytes(edges);
    var imbalance, risk := LoadImbalance(times), ResilienceRisk(times, |f.participants|);
    var all := reasons + CapReasons(f.plan.constraints, bytes, stepMs);
    Candidate([], replicas,
              ForwardNodes(replicas) + [GraphNode(AGGREGATION, replicas[0].deviceId)],
              edges, Round6(MaxReals(times)), Round6(MaxReals(uploadTimes)), Round6(stepMs), bytes,
              Round6(MaxReals(pressures)), all == [], all,
              ScoreTraining(f.policy, f.weights, stepMs, imbalance, MaxReals(pressures), bytes, risk),
              Round6(stepMs), bytes, Round6(imbalance), Round6(risk))
  }

  function FullModelCandidateOf(f: FullModelInput): Candidate
    requires FullModelBuildable(f)
  {
    var k := |f.participants|;
    FinishFullModel(f, Replicas(f, k), ReplicaTimes(f, k), ReplicaPressures(f, k),
                    ReplicaReasons(f, k) + UploadReasons(f, k), UploadTimes(f, k), UploadEdges(f, k))
  }

  /** `_build_federated_full_model_candidate`. */
  method BuildFullModelCandidate(f: FullModelInput) returns (r: Candidate)
    requires FullModelBuildable(f)
    ensures r == FullModelCandidateOf(f)
  {
    var replicas, times, pressures, reasons := ReplicaPass(f);
    var uploadTimes, edges, uploadReasons := UploadPass(f, replicas);
    r := FinishFullModel(f, replicas, times, pressures, reasons + uploadReasons, uploadTimes, edges);
  }

  /** The uploads of participants 1, 2, ... to participant 0. */
  method UploadPass(f: FullModelInput, replicas: seq<LogicalPartition>)
    returns (uploadTimes: seq<real>, edges: seq<GraphEdge>, uploadReasons: seq<Reason>)
    requires FullModelBuildable(f) && replicas == Replicas(f, |f.participants|)
    ensures edges == UploadEdges(f, |f.participants|)
    ensures uploadTimes == UploadTimes(f, |f.participants|)
    ensures uploadReasons == UploadReasons(f, |f.participants|)
  {
    edges, uploadTimes, uploadReasons := [], [], [];
    var index := 1;
    while index < |f.participants|
      invariant 1 <= index <= |f.participants|
      invariant edges == UploadEdges(f, index)
      invariant uploadTimes == UploadTimes(f, index)
      invariant uploadReasons == UploadReasons(f, index)
    {
      var pair := (f.participants[index], f.participants[0]);
      if pair in f.excludedLinks {
        uploadReasons := uploadReasons + [FailedNetworkLink(pair.0, pair.1)];
      } else if pair !in LinkMap(f.plan.networkLinks) {
        uploadReasons := uploadReasons + [MissingNetworkLink(pair.0, pair.1)];
      } else {
        var transferMs := UploadMs(f, index);
        uploadTimes := uploadTimes + [transferMs];
        edges := edges + [GraphEdge(replicas[index].partitionId, AGGREGATION, ParameterBytes(f.plan.layers),
                                    Round6(transferMs), AggregationEdge)];
      }
      index := index + 1;
    }
  }

  method ReplicaPass(f: FullModelInput)
    returns (replicas: seq<LogicalPartition>, times: seq<real>, pressures: seq<real>, reasons: seq<Reason>)
    requires FullModelBuildable(f)
    ensures replicas == Replicas(f, |f.participants|)
    ensures times == ReplicaTimes(f, |f.participants|)
    ensures pressures == ReplicaPressures(f, |f.participants|)
    ensures reasons == ReplicaReasons(f, |f.participants|)
  {
    replicas, times, pressures, reasons := [], [], [], [];
    var memoryDemand := Demand(f.plan.layers);
    var index := 0;
    while index < |f.participants|
      invariant 0 <= index <= |f.participants|
      invariant replicas == Replicas(f, index)
      invariant times == ReplicaTimes(f, index)
      invariant pressures == ReplicaPressures(f, index)
      invariant reasons == ReplicaReasons(f, index)
    {
      var device := f.participants[index];
      replicas := replicas + [ReplicaAt(f, index)];
      times := times + [ReplicaMsAt(f, index)];
      pressures := pressures + [ReplicaPressureAt(f, index)];
      var found: seq<Reason> := [];
      if memoryDemand > ReplicaRoom(f, index) {
        found := found + [MemoryCapacityExceeded(device)];
      }
      if device in f.memoryLimits && memoryDemand > f.memoryLimits[device] {
        found := found + [MemoryReplanNotImproved(device)];
      }
      reasons := reasons + found;
      index := index + 1;
    }
  }

  // ----- when the candidate is valid -----

  predicate ReplicaFits(f: FullModelInput, i: nat)
    requires FullModelBuildable(f) && i < |f.participants|
  {
    && Demand(f.plan.layers) <= ReplicaRoom(f, i)
    && (f.participants[i] in f.memoryLimits ==> Demand(f.plan.layers) <= f.memoryLimits[f.participants[i]])
  }

  lemma {:induction false} ReplicaReasonsEmpty(f: FullModelInput, n: nat)
    requires FullModelBuildable(f) && n <= |f.participants|
    ensures ReplicaReasons(f, n) == [] <==> forall i :: 0 <= i < n ==> ReplicaFits(f, i)
  {
    if n > 0 {
      ReplicaReasonsEmpty(f, n - 1);
      assert ReplicaReasonsAt(f, n - 1) == [] <==> ReplicaFits(f, n - 1);
    }
  }

  lemma {:induction false} UploadReasonsEmpty(f: FullModelInput, n: nat)
    requires n <= |f.participants|
    ensures UploadReasons(f, n) == [] <==> forall i :: 0 < i < n ==> UploadUsable(f, i)
  {
    if n > 1 {
      UploadReasonsEmpty(f, n - 1);
      assert UploadReasonsAt(f, n - 1) == [] <==> UploadUsable(f, n - 1);
    }
  }

  /** Participants 1, 2, ... can each upload to participant 0. */
  predicate UploadsUsable(f: FullModelInput) { forall i :: 0 < i < |f.participants| ==> UploadUsable(f, i) }

  predicate ReplicasFit(f: FullModelInput)
    requires FullModelBuildable(f)
  {
    forall i :: 0 <= i < |f.participants| ==> ReplicaFits(f, i)
  }

  /** One full parameter upload per remote participant. */
  function StarBytes(f: FullModelInput): nat
    requires |f.participants| >= 1
  {
    (|f.participants| - 1) * ParameterBytes(f.plan.layers)
  }

  /** The slowest replica, then the slowest upload. */
  function StarLatency(f: FullModelInput): real
    requires FullModelBuildable(f)
  {
    MaxReals(ReplicaTimes(f, |f.participants|)) + MaxReals(UploadTimes(f, |f.participants|))
  }

  predicate StarWithinCaps(f: FullModelInput)
    requires FullModelBuildable(f)
  {
    && (f.plan.constraints.maxTransferBytes.Some? ==> StarBytes(f) <= f.plan.constraints.maxTransferBytes.value)
    && (f.plan.constraints.maxEndToEndLatencyMs.Some? ==>
          StarLatency(f) <= f.plan.constraints.maxEndToEndLatencyMs.value)
  }

  lemma FullModelReasons(f: FullModelInput)
    requires FullModelBuildable(f)
    ensures var k, c := |f.participants|, FullModelCandidateOf(f);
            && c.totalTransferBytes == SumBytes(UploadEdges(f, k))
            && (c.valid <==> (ReplicaReasons(f, k) + UploadReasons(f, k))
                             + CapReasons(f.plan.constraints, c.totalTransferBytes, StarLatency(f)) == [])
  {
  }

  lemma OneMoreUpload(n: nat, bytes: nat)
    requires n > 0
    ensures (n - 1) * bytes + bytes == n * bytes
  {
  }

  lemma {:induction false} EqualTransfers(edges: seq<GraphEdge>, bytes: nat)
    requires forall i :: 0 <= i < |edges| ==> edges[i].transferBytes == bytes
    ensures SumBytes(edges) == |edges| * bytes
  {
    if edges != [] {
      EqualTransfers(edges[..|edges| - 1], bytes);
      OneMoreUpload(|edges|, bytes);
    }
  }

  lemma {:induction false} UploadEdgesEqual(f: FullModelInput, n: nat)
    requires FullModelBuildable(f) && 1 <= n <= |f.participants|
    requires forall i :: 0 < i < n ==> UploadUsable(f, i)
    ensures |UploadEdges(f, n)| == n - 1
    ensures forall i :: 0 <= i < n - 1 ==> UploadEdges(f, n)[i].transferBytes == ParameterBytes(f.plan.layers)
  {
    if n > 1 {
      UploadEdgesEqual(f, n - 1);
      assert UploadUsable(f, n - 1);
    }
  }

  lemma UsableStarBytes(f: FullModelInput)
    requires FullModelBuildable(f) && UploadsUsable(f)
    ensures SumBytes(UploadEdges(f, |f.participants|)) == StarBytes(f)
  {
    UploadEdgesEqual(f, |f.participants|);
    EqualTransfers(UploadEdges(f, |f.participants|), ParameterBytes(f.plan.layers));
  }

  lemma CapReasonsEmpty(k: Constraints, bytes: nat, latency: real)
    ensures CapReasons(k, bytes, latency) == [] <==>
            && (k.maxTransferBytes.Some? ==> bytes <= k.maxTransferBytes.value)
            && (k.maxEndToEndLatencyMs.Some? ==> latency <= k.maxEndToEndLatencyMs.value)
  {
  }

  /** A full-model candidate is valid exactly when every replica fits its device and limit, every
      remote participant has a usable link to participant 0, and one parameter upload each and
      the slowest replica and upload keep within the caps. */
  lemma FullModelValidIff(f: FullModelInput)
    requires FullModelBuildable(f)
    ensures FullModelCandidateOf(f).valid <==> ReplicasFit(f) && UploadsUsable(f) && StarWithinCaps(f)
  {
    var k, bytes := |f.participants|, FullModelCandidateOf(f).totalTransferBytes;
    var memory, uploads := ReplicaReasons(f, k), UploadReasons(f, k);
    var caps := CapReasons(f.plan.constraints, bytes, StarLatency(f));
    FullModelReasons(f);
    NeitherIff(memory + uploads, caps);
    NeitherIff(memory, uploads);
    ReplicaReasonsEmpty(f, k);
    UploadReasonsEmpty(f, k);
    CapReasonsEmpty(f.plan.constraints, bytes, StarLatency(f));
    if UploadsUsable(f) { UsableStarBytes(f); }
  }

  /** A valid full-model candidate reports one full parameter upload per remote participant. */
  lemma FullModelTransfer(f: FullModelInput)
    requires FullModelBuildable(f) && FullModelCandidateOf(f).valid
    ensures FullModelCandidateOf(f).totalTransferBytes == StarBytes(f)
  {
    FullModelReasons(f);
    FullModelValidIff(f);
    UsableStarBytes(f);
  }

  /** With every upload usable, no link is missing and only replicas and caps decide. */
  lemma UsableFullModel(f: FullModelInput)
    requires FullModelBuildable(f) && UploadsUsable(f)
    ensures UploadReasons(f, |f.participants|) == []
    ensures FullModelCandidateOf(f).totalTransferBytes == StarBytes(f)
    ensures FullModelCandidateOf(f).valid <==> ReplicasFit(f) && StarWithinCaps(f)
  {
    UploadReasonsEmpty(f, |f.participants|);
    FullModelReasons(f);
    UsableStarBytes(f);
    FullModelValidIff(f);
  }

  // ----- its score -----

  lemma ReplicaTimesNonNegative(f: FullModelInput, n: nat)
    requires FullModelBuildable(f) && n <= |f.participants|
    ensures NonNegative(ReplicaTimes(f, n)) && NonNegative(ReplicaPressures(f, n))
  {
    forall i | 0 <= i < n ensures ReplicaMsAt(f, i) >= 0.0 && ReplicaPressureAt(f, i) >= 0.0 {
      DeviceMapEntries(f.plan.devices);
      UnitsPositive(f.plan.layers);
      var device := DeviceMap(f.plan.devices)[f.participants[i]];
      RatioMonotone(0.0, ComputeUnits(f.plan.layers), device.computeUnitsPerSecond);
      var available := device.memoryAvailableBytes;
      RatioMonotone(0.0, Demand(f.plan.layers) as real, (if available > 1 then available else 1) as real);
    }
  }

  lemma {:induction false} UploadTimesNonNegative(f: FullModelInput, n: nat)
    requires FullModelBuildable(f) && n <= |f.participants|
    ensures NonNegative(UploadTimes(f, n))
  {
    if n > 1 {
      UploadTimesNonNegative(f, n - 1);
      if UploadUsable(f, n - 1) {
        LinkMapEntries(f.plan.networkLinks);
        var link := LinkMap(f.plan.networkLinks)[UploadPair(f, n - 1)];
        RatioMonotone(0.0, ParameterBytes(f.plan.layers) as real, link.bandwidthBytesPerSecond);
        assert UploadMs(f, n - 1) >= 0.0;
      }
    }
  }

  lemma FullModelScore(f: FullModelInput)
    requires FullModelBuildable(f)
    ensures var k := |f.participants|;
            FullModelCandidateOf(f).score
            == ScoreTraining(f.policy, f.weights, StarLatency(f), LoadImbalance(ReplicaTimes(f, k)),
                             MaxReals(ReplicaPressures(f, k)), SumBytes(UploadEdges(f, k)),
                             ResilienceRisk(ReplicaTimes(f, k), k))
  {
  }

  lemma StarFoldsNonNegative(f: FullModelInput)
    requires FullModelBuildable(f)
    ensures StarLatency(f) >= 0.0 && MaxReals(ReplicaPressures(f, |f.participants|)) >= 0.0
  {
    var k := |f.participants|;
    ReplicaTimesNonNegative(f, k);
    UploadTimesNonNegative(f, k);
    RealFolds(ReplicaTimes(f, k));
    RealFolds(UploadTimes(f, k));
    RealFolds(ReplicaPressures(f, k));
  }

  /** The score of every full-model candidate, valid or not, is in [0, 1]. */
  lemma FullModelScoreUnit(f: FullModelInput)
    requires FullModelBuildable(f) && SoundWeights(f.weights)
    ensures 0.0 <= FullModelCandidateOf(f).score <= 1.0
  {
    var k := |f.participants|;
    FullModelScore(f);
    ReplicaTimesNonNegative(f, k);
    StarFoldsNonNegative(f);
    ScoreTrainingUnit(f.policy, f.weights, StarLatency(f), ReplicaTimes(f, k), MaxReals(ReplicaPressures(f, k)),
                      SumBytes(UploadEdges(f, k)), k);
  }
}
