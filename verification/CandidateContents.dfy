/** What a candidate says, in terms of the layers, devices and links it was built from. */
module CandidateContents {
  import opened Prelude
  import opened Combinations
  import opened PartitionModels
  import opened Scoring
  import opened TrainingGraph
  import opened CandidateBuilder
  import opened FederatedBuilder

  // ----- the split candidates -----

  /** Where the n-th run starts and where it stops. */
  ghost function RunStart(splits: seq<nat>, n: nat): nat
    requires n <= |splits|
  {
    if n == 0 then 0 else splits[n - 1]
  }

  ghost function RunStop(splits: seq<nat>, count: nat, n: nat): nat
    requires n <= |splits|
  {
    if n == |splits| then count else splits[n]
  }

  /** The n-th run of layers. */
  ghost function Part(c: CutInput, n: nat): seq<ModelLayer>
    requires Buildable(c) && n < |c.participants|
  {
    BoundariesIncrease(c.splits, |c.plan.layers|, n);
    c.plan.layers[RunStart(c.splits, n)..RunStop(c.splits, |c.plan.layers|, n)]
  }

  lemma PartIsRun(c: CutInput, n: nat)
    requires Buildable(c) && n < |c.participants|
    ensures Part(c, n) == LayersAt(c, n) && Part(c, n) != []
  {
  }

  /** The n-th partition is named after its position, sits on the n-th participant, and lists the
      names, the compute and the memory need of the n-th run: parameters and working memory together
      and the largest activation of its layers on top. */
  lemma PartitionIs(c: CutInput, n: nat)
    requires Buildable(c) && n < |c.participants|
    ensures |CandidateOf(c).partitions| == |c.participants|
    ensures var p, part := CandidateOf(c).partitions[n], Part(c, n);
            && p.partitionId == "partition-" + Decimal(n + 1) && p.deviceId == c.participants[n]
            && |p.layerNames| == |part| && (forall i :: 0 <= i < |part| ==> p.layerNames[i] == part[i].name)
            && p.computeUnits == ComputeUnits(part)
            && (forall l :: l in part ==>
                  p.memoryDemandBytes >= ParameterBytes(part) + WorkingBytes(part) + l.activationBytes)
            && (exists l :: l in part
                  && p.memoryDemandBytes == ParameterBytes(part) + WorkingBytes(part) + l.activationBytes)
  {
    PartIsRun(c, n);
    BuiltPartitions(c);
    DemandIs(Part(c, n));
  }

  lemma BuiltPartitions(c: CutInput)
    requires Buildable(c)
    ensures CandidateOf(c).partitions == PartitionsUpTo(c, |c.participants|)
    ensures c.intent.None? ==> CandidateOf(c).graphNodes == ForwardNodes(CandidateOf(c).partitions)
    ensures c.intent.None? ==> CandidateOf(c).graphEdges == EdgesUpTo(c, |c.splits|)
  {
  }

  /** An inference graph has one node per partition, on its device, and its edges are the hops. */
  lemma InferenceGraphIs(c: CutInput, n: nat)
    requires Buildable(c) && c.intent.None? && n < |c.participants|
    ensures |CandidateOf(c).graphNodes| == |c.participants|
    ensures CandidateOf(c).graphNodes[n] == GraphNode("partition-" + Decimal(n + 1), c.participants[n])
    ensures CandidateOf(c).graphEdges == EdgesUpTo(c, |c.splits|)
  {
    BuiltPartitions(c);
  }

  /** `time` is what the n-th participant's device takes for the n-th run, in milliseconds. */
  ghost predicate Computes(c: CutInput, n: nat, time: real)
    requires Buildable(c) && n < |c.participants|
  {
    time * DeviceMap(c.plan.devices)[c.participants[n]].computeUnitsPerSecond == ComputeUnits(Part(c, n)) * 1000.0
  }

  ghost predicate ComputeTimes(c: CutInput, times: seq<real>)
    requires Buildable(c)
  {
    |times| == |c.participants| && forall n :: 0 <= n < |times| ==> Computes(c, n, times[n])
  }

  /** `pressure` is the n-th run's need as a share of what its device has available. */
  ghost predicate Presses(c: CutInput, n: nat, pressure: real)
    requires Buildable(c) && n < |c.participants|
  {
    var available := DeviceMap(c.plan.devices)[c.participants[n]].memoryAvailableBytes;
    pressure * (if available > 1 then available else 1) as real == Demand(Part(c, n)) as real
  }

  ghost predicate MemoryPressures(c: CutInput, pressures: seq<real>)
    requires Buildable(c)
  {
    |pressures| == |c.participants| && forall n :: 0 <= n < |pressures| ==> Presses(c, n, pressures[n])
  }

  /** What crosses the n-th boundary: the activation of the last layer before it. */
  ghost function BoundaryBytes(c: CutInput, n: nat): nat
    requires Buildable(c) && n < |c.splits|
  {
    var part := Part(c, n);
    PartIsRun(c, n);
    part[|part| - 1].activationBytes
  }

  /** The n-th time is what the n-th link takes for that: its latency and the bytes over its bandwidth. */
  ghost predicate TransferTimes(c: CutInput, times: seq<real>)
    requires Buildable(c) && LinksUsable(c)
  {
    && |times| == |c.splits|
    && forall n :: 0 <= n < |times| ==>
         LinkUsable(c, n)
         && var link := LinkMap(c.plan.networkLinks)[(c.participants[n], c.participants[n + 1])];
            (times[n] - link.latencyMs) * link.bandwidthBytesPerSecond == BoundaryBytes(c, n) as real * 1000.0
  }

  ghost function BytesUpTo(c: CutInput, n: nat): nat
    requires Buildable(c) && n <= |c.splits|
  {
    if n == 0 then 0 else BytesUpTo(c, n - 1) + BoundaryBytes(c, n - 1)
  }

  lemma SameTime(x: real, rate: real, t: real)
    requires rate > 0.0 && t * rate == x * 1000.0
    ensures t == Ratio(x, rate) * 1000.0
  {
    var q := x / rate;
    assert q * rate == x;
    assert q * 1000.0 * rate == x * 1000.0;
    Cancels(t, q * 1000.0, rate);
  }

  lemma ComputeTimesAre(c: CutInput, times: seq<real>)
    requires Buildable(c) && ComputeTimes(c, times)
    ensures times == ComputeMsUpTo(c, |c.participants|)
  {
    forall n | 0 <= n < |times| ensures times[n] == ComputeMsAt(c, n) {
      ComputeTimeIs(c, n, times[n]);
    }
  }

  lemma ComputeTimeIs(c: CutInput, n: nat, time: real)
    requires Buildable(c) && n < |c.participants|
    requires Computes(c, n, time)
    ensures time == ComputeMsAt(c, n)
  {
    PartIsRun(c, n);
    DeviceMapEntries(c.plan.devices);
    SameTime(ComputeUnits(Part(c, n)), DeviceAt(c, n).computeUnitsPerSecond, time);
  }

  lemma PressuresAre(c: CutInput, pressures: seq<real>)
    requires Buildable(c) && MemoryPressures(c, pressures)
    ensures pressures == PressuresUpTo(c, |c.participants|)
  {
    forall n | 0 <= n < |pressures| ensures pressures[n] == PressureAt(c, n) {
      PressureIs(c, n, pressures[n]);
    }
  }

  lemma PressureOfPart(c: CutInput, n: nat, pressure: real)
    requires Buildable(c) && n < |c.participants|
    requires Presses(c, n, pressure)
    ensures var available := DeviceAt(c, n).memoryAvailableBytes;
            pressure == Ratio(Demand(Part(c, n)) as real, (if available > 1 then available else 1) as real)
  {
    ShareOfAvailable(Demand(Part(c, n)), DeviceAt(c, n).memoryAvailableBytes, pressure);
  }

  lemma PressureIs(c: CutInput, n: nat, pressure: real)
    requires Buildable(c) && n < |c.participants|
    requires Presses(c, n, pressure)
    ensures pressure == PressureAt(c, n)
  {
    PartNeeds(c, n);
    PressureOfPart(c, n, pressure);
  }

  lemma PartNeeds(c: CutInput, n: nat)
    requires Buildable(c) && n < |c.participants|
    ensures Demand(Part(c, n)) == Demand(LayersAt(c, n))
  {
    PartIsRun(c, n);
  }

  lemma ShareOfAvailable(demand: nat, available: nat, pressure: real)
    requires pressure * (if available > 1 then available else 1) as real == demand as real
    ensures pressure == Ratio(demand as real, (if available > 1 then available else 1) as real)
  {
    QuotientIs(demand as real, (if available > 1 then available else 1) as real, pressure);
  }

  lemma BoundaryIs(c: CutInput, n: nat)
    requires Buildable(c) && n < |c.splits|
    ensures BoundaryBytes(c, n) == EdgeBytesAt(c, n)
  {
    PartIsRun(c, n);
  }

  lemma TransferTimesAre(c: CutInput, times: seq<real>, n: nat)
    requires Buildable(c) && LinksUsable(c) && TransferTimes(c, times) && n < |c.splits|
    ensures LinkUsable(c, n) && times[n] == EdgeMsAt(c, n)
  {
    BoundaryIs(c, n);
    LinkMapEntries(c.plan.networkLinks);
    assert LinkUsable(c, n);
    var link := LinkMap(c.plan.networkLinks)[(c.participants[n], c.participants[n + 1])];
    SameTime(BoundaryBytes(c, n) as real, link.bandwidthBytesPerSecond, times[n] - link.latencyMs);
  }

  lemma {:induction false} TransferSum(c: CutInput, times: seq<real>, n: nat)
    requires Buildable(c) && LinksUsable(c) && TransferTimes(c, times) && n <= |c.splits|
    ensures TransferMs(c, n) == SumReals(times[..n])
    decreases n
  {
    if n > 0 {
      TransferSum(c, times, n - 1);
      TransferTimesAre(c, times, n - 1);
      assert times[..n] == times[..n - 1] + [times[n - 1]];
      SumRealsSnoc(times[..n - 1], times[n - 1]);
    }
  }

  lemma {:induction false} BytesSum(c: CutInput, n: nat)
    requires Buildable(c) && LinksUsable(c) && n <= |c.splits|
    ensures SumBytes(EdgesUpTo(c, n)) == BytesUpTo(c, n)
    decreases n
  {
    if n > 0 {
      BytesSum(c, n - 1);
      assert LinkUsable(c, n - 1);
      BoundaryIs(c, n - 1);
      SumBytesSnoc(EdgesUpTo(c, n - 1), EdgeAt(c, n - 1));
    }
  }

  /** With all its links usable the n-th edge of a candidate carries what crosses the n-th boundary,
      from the n-th partition to the next, in the time its link takes. */
  lemma ForwardEdgeIs(c: CutInput, times: seq<real>, n: nat)
    requires Buildable(c) && LinksUsable(c) && TransferTimes(c, times) && n < |c.splits|
    ensures |EdgesUpTo(c, |c.splits|)| == |c.splits|
    ensures EdgesUpTo(c, |c.splits|)[n]
            == GraphEdge("partition-" + Decimal(n + 1), "partition-" + Decimal(n + 2), BoundaryBytes(c, n),
                         Round6(times[n]), ForwardEdge)
  {
    EdgesComplete(c, |c.splits|);
    TransferTimesAre(c, times, n);
    BoundaryIs(c, n);
  }

  /** An inference candidate's report: compute and transfer times added up, their sum as latency, the
      largest pressure, the bytes, and the score of these. */
  ghost predicate ReportsInference(p: Policy, r: Candidate, compute: seq<real>, transferMs: real,
                                   pressures: seq<real>, bytes: nat)
    requires SoundPolicy(p)
  {
    && r.estimatedComputeMs == Round6(SumReals(compute))
    && r.estimatedTransferMs == Round6(transferMs)
    && r.estimatedTotalLatencyMs == Round6(SumReals(compute) + transferMs)
    && r.maximumMemoryPressure == Round6(MaxReals(pressures)) && r.totalTransferBytes == bytes
    && r.score == Score(p, SumReals(compute) + transferMs, MaxReals(pressures), bytes)
    && r.gradientTransferBytes == 0 && r.estimatedStepTimeMs == 0.0
    && r.maximumLoadImbalance == 0.0 && r.predictedResilienceRisk == 0.0
  }

  /** A training candidate's report: the step takes twice the forward compute and transfer, moves
      three times the forward bytes, and is scored with the imbalance and risk of its compute times. */
  ghost predicate ReportsTraining(p: Policy, w: TrainingWeights, r: Candidate, compute: seq<real>, transferMs: real,
                                  pressures: seq<real>, bytes: nat)
    requires SoundPolicy(p)
  {
    var step, imbalance, risk := 2.0 * (SumReals(compute) + transferMs), LoadImbalance(compute),
                                 ResilienceRisk(compute, |compute|);
    && r.estimatedComputeMs == Round6(SumReals(compute))
    && r.estimatedTransferMs == Round6(2.0 * transferMs)
    && r.estimatedTotalLatencyMs == r.estimatedStepTimeMs == Round6(step)
    && r.maximumMemoryPressure == Round6(MaxReals(pressures))
    && r.totalTransferBytes == 3 * bytes && r.gradientTransferBytes == bytes
    && r.maximumLoadImbalance == Round6(imbalance) && r.predictedResilienceRisk == Round6(risk)
    && r.score == ScoreTraining(p, w, step, imbalance, MaxReals(pressures), 3 * bytes, risk)
  }

  lemma InferenceFields(c: CutInput)
    requires Buildable(c) && c.intent.None?
    ensures ReportsInference(c.policy, CandidateOf(c), ComputeMsUpTo(c, |c.participants|),
                             TransferMs(c, |c.splits|), PressuresUpTo(c, |c.participants|),
                             SumBytes(EdgesUpTo(c, |c.splits|)))
  {
    Round6Fixes(0);
  }

  lemma TrainingFields(c: CutInput)
    requires Buildable(c) && c.intent.Some?
    ensures ReportsTraining(c.policy, c.intent.value.weights, CandidateOf(c), ComputeMsUpTo(c, |c.participants|),
                            TransferMs(c, |c.splits|), PressuresUpTo(c, |c.participants|),
                            SumBytes(EdgesUpTo(c, |c.splits|)))
  {
    FinishedTraining(c, InferenceDraft(c));
  }

  lemma FinishedTraining(c: CutInput, d: Draft)
    requires SoundPolicy(c.policy) && c.intent.Some? && d.partitions != [] && |d.computeMs| == |d.partitions|
    ensures ReportsTraining(c.policy, c.intent.value.weights, Finish(c, WithTrainingGraph(d)), d.computeMs,
                            d.transferMs, d.pressures, d.transferBytes)
  {
  }

  lemma FoldsAre(c: CutInput, compute: seq<real>, transfer: seq<real>, pressures: seq<real>)
    requires Buildable(c) && LinksUsable(c)
    requires ComputeTimes(c, compute) && TransferTimes(c, transfer) && MemoryPressures(c, pressures)
    ensures compute == ComputeMsUpTo(c, |c.participants|) && pressures == PressuresUpTo(c, |c.participants|)
    ensures SumReals(transfer) == TransferMs(c, |c.splits|)
    ensures BytesUpTo(c, |c.splits|) == SumBytes(EdgesUpTo(c, |c.splits|))
  {
    ComputeTimesAre(c, compute);
    PressuresAre(c, pressures);
    TransferSum(c, transfer, |c.splits|);
    assert transfer[..|c.splits|] == transfer;
    BytesSum(c, |c.splits|);
  }

  /** What a candidate with usable links reports follows from the times its devices and links take, the
      pressures on its devices and the bytes over its boundaries. */
  lemma CandidateReports(c: CutInput, compute: seq<real>, transfer: seq<real>, pressures: seq<real>)
    requires Buildable(c) && LinksUsable(c)
    requires ComputeTimes(c, compute) && TransferTimes(c, transfer) && MemoryPressures(c, pressures)
    ensures c.intent.None? ==>
              ReportsInference(c.policy, CandidateOf(c), compute, SumReals(transfer), pressures,
                               BytesUpTo(c, |c.splits|))
    ensures c.intent.Some? ==>
              ReportsTraining(c.policy, c.intent.value.weights, CandidateOf(c), compute, SumReals(transfer),
                              pressures, BytesUpTo(c, |c.splits|))
  {
    FoldsAre(c, compute, transfer, pressures);
    if c.intent.None? { InferenceFields(c); } else { TrainingFields(c); }
  }

  // ----- why a split candidate is rejected -----

  lemma {:induction false} LinkReasonMembers(c: CutInput, n: nat, r: Reason)
    requires Buildable(c) && n <= |c.splits|
    ensures r in LinkReasons(c, n) <==> exists i :: 0 <= i < n && r in LinkReasonsAt(c, i)
    decreases n
  {
    if n > 0 { LinkReasonMembers(c, n - 1, r); }
  }

  /** The n-th run needs more than its device may give: all its memory but the headroom. */
  ghost predicate Overfull(c: CutInput, n: nat)
    requires Buildable(c) && n < |c.participants|
  {
    Demand(Part(c, n)) as real
    > DeviceMap(c.plan.devices)[c.participants[n]].memoryAvailableBytes as real
      * (1.0 - c.plan.constraints.minimumMemoryHeadroomRatio)
  }

  /** The n-th run needs more than a memory limit on its device allows. */
  ghost predicate OverLimit(c: CutInput, n: nat)
    requires Buildable(c) && n < |c.participants|
  {
    c.participants[n] in c.memoryLimits && Demand(Part(c, n)) > c.memoryLimits[c.participants[n]]
  }

  lemma MemoryReasonsAtAre(c: CutInput, n: nat)
    requires Buildable(c) && n < |c.participants|
    ensures MemoryReasonsAt(c, n)
            == (if Overfull(c, n) then [MemoryCapacityExceeded(c.participants[n])] else [])
               + (if OverLimit(c, n) then [MemoryReplanNotImproved(c.participants[n])] else [])
  {
    PartIsRun(c, n);
    var room := DeviceAt(c, n).memoryAvailableBytes as real * (1.0 - c.plan.constraints.minimumMemoryHeadroomRatio);
    assert Demand(Part(c, n)) > room.Floor <==> Demand(Part(c, n)) as real > room;
  }

  lemma {:induction false} FlattenSnoc<T>(parts: seq<seq<T>>, last: seq<T>)
    ensures Flatten(parts + [last]) == Flatten(parts) + last
  {
    if parts == [] {
      assert [] + [last] == [last] && [last][1..] == [];
    } else {
      FlattenSnoc(parts[1..], last);
      assert (parts + [last])[1..] == parts[1..] + [last];
    }
  }

  lemma {:induction false} FlattenMembers<T>(parts: seq<seq<T>>, x: T)
    ensures x in Flatten(parts) <==> exists i :: 0 <= i < |parts| && x in parts[i]
  {
    if parts != [] {
      FlattenMembers(parts[1..], x);
      if i :| 0 <= i < |parts| && x in parts[i] {
        if i > 0 { assert x in parts[1..][i - 1]; }
      }
      if i :| 0 <= i < |parts| - 1 && x in parts[1..][i] { assert x in parts[i + 1]; }
    }
  }

  lemma {:induction false} MemoryReasonsFlat(c: CutInput, n: nat, parts: seq<seq<Reason>>)
    requires Buildable(c) && n <= |c.participants| == |parts|
    requires forall i :: 0 <= i < |parts| ==> parts[i] == MemoryReasonsAt(c, i)
    ensures MemoryReasons(c, n) == Flatten(parts[..n])
    decreases n
  {
    if n > 0 {
      MemoryReasonsFlat(c, n - 1, parts);
      FlattenSnoc(parts[..n - 1], parts[n - 1]);
      assert parts[..n] == parts[..n - 1] + [parts[n - 1]];
    }
  }

  /** The reasons at each position, by whether each of the two checks fails there. */
  ghost function ReasonParts(participants: seq<string>, over: seq<bool>, overLimit: seq<bool>)
    : (parts: seq<seq<Reason>>)
    requires |participants| == |over| == |overLimit|
    ensures |parts| == |participants|
  {
    seq(|participants|, i requires 0 <= i < |participants| =>
      (if over[i] then [MemoryCapacityExceeded(participants[i])] else [])
      + (if overLimit[i] then [MemoryReplanNotImproved(participants[i])] else []))
  }

  lemma PartsName(participants: seq<string>, over: seq<bool>, overLimit: seq<bool>, device: string)
    requires |participants| == |over| == |overLimit|
    ensures MemoryCapacityExceeded(device) in Flatten(ReasonParts(participants, over, overLimit))
            <==> exists i :: 0 <= i < |over| && over[i] && participants[i] == device
    ensures MemoryReplanNotImproved(device) in Flatten(ReasonParts(participants, over, overLimit))
            <==> exists i :: 0 <= i < |over| && overLimit[i] && participants[i] == device
  {
    var parts := ReasonParts(participants, over, overLimit);
    FlattenMembers(parts, MemoryCapacityExceeded(device));
    FlattenMembers(parts, MemoryReplanNotImproved(device));
    forall i | 0 <= i < |over|
      ensures MemoryCapacityExceeded(device) in parts[i] <==> over[i] && participants[i] == device
      ensures MemoryReplanNotImproved(device) in parts[i] <==> overLimit[i] && participants[i] == device
    {
    }
  }

  lemma MemoryReasonsAre(c: CutInput, over: seq<bool>, overLimit: seq<bool>)
    requires Buildable(c) && |c.participants| == |over| == |overLimit|
    requires forall i :: 0 <= i < |over| ==> over[i] == Overfull(c, i)
    requires forall i :: 0 <= i < |over| ==> overLimit[i] == OverLimit(c, i)
    ensures MemoryReasons(c, |c.participants|) == Flatten(ReasonParts(c.participants, over, overLimit))
  {
    var parts := ReasonParts(c.participants, over, overLimit);
    forall i | 0 <= i < |parts| ensures parts[i] == MemoryReasonsAt(c, i) {
      MemoryReasonsAtAre(c, i);
    }
    MemoryReasonsFlat(c, |parts|, parts);
    assert parts[..|parts|] == parts;
  }

  lemma MemoryReasonsIff(c: CutInput, device: string)
    requires Buildable(c)
    ensures MemoryCapacityExceeded(device) in MemoryReasons(c, |c.participants|)
            <==> exists n :: 0 <= n < |c.participants| && c.participants[n] == device && Overfull(c, n)
    ensures MemoryReplanNotImproved(device) in MemoryReasons(c, |c.participants|)
            <==> exists n :: 0 <= n < |c.participants| && c.participants[n] == device && OverLimit(c, n)
  {
    var over := seq(|c.participants|, n requires 0 <= n < |c.participants| => Overfull(c, n));
    var overLimit := seq(|c.participants|, n requires 0 <= n < |c.participants| => OverLimit(c, n));
    MemoryReasonsAre(c, over, overLimit);
    PartsName(c.participants, over, overLimit, device);
    assert forall n :: 0 <= n < |over| ==> over[n] == Overfull(c, n) && overLimit[n] == OverLimit(c, n);
  }

  lemma {:induction false} MemoryReasonKinds(c: CutInput, n: nat)
    requires Buildable(c) && n <= |c.participants|
    ensures forall r :: r in MemoryReasons(c, n) ==> r.MemoryCapacityExceeded? || r.MemoryReplanNotImproved?
    decreases n
  {
    if n > 0 { MemoryReasonKinds(c, n - 1); }
  }

  lemma {:induction false} LinkReasonKinds(c: CutInput, n: nat)
    requires Buildable(c) && n <= |c.splits|
    ensures forall r :: r in LinkReasons(c, n) ==> r.FailedNetworkLink? || r.MissingNetworkLink?
    decreases n
  {
    if n > 0 { LinkReasonKinds(c, n - 1); }
  }

  lemma RejectionReasonsAre(c: CutInput)
    requires Buildable(c)
    ensures CandidateOf(c).rejectionReasons
            == MemoryReasons(c, |c.participants|) + LinkReasons(c, |c.splits|)
               + CapReasons(c.plan.constraints, ReportedBytes(c), ReportedLatency(c))
    ensures CandidateOf(c).valid <==> CandidateOf(c).rejectionReasons == []
  {
    Reported(c);
  }

  /** Which reasons come from which check. */
  lemma Rejected(c: CutInput, r: Reason)
    requires Buildable(c)
    ensures r.MemoryCapacityExceeded? || r.MemoryReplanNotImproved? ==>
              (r in CandidateOf(c).rejectionReasons <==> r in MemoryReasons(c, |c.participants|))
    ensures r.FailedNetworkLink? || r.MissingNetworkLink? ==>
              (r in CandidateOf(c).rejectionReasons <==> r in LinkReasons(c, |c.splits|))
    ensures r.MaxTransferBytesExceeded? || r.LatencySloExceeded? ==>
              (r in CandidateOf(c).rejectionReasons
               <==> r in CapReasons(c.plan.constraints, ReportedBytes(c), ReportedLatency(c)))
  {
    RejectionReasonsAre(c);
    MemoryReasonKinds(c, |c.participants|);
    LinkReasonKinds(c, |c.splits|);
    var caps := CapReasons(c.plan.constraints, ReportedBytes(c), ReportedLatency(c));
    CapReasonKinds(c.plan.constraints, ReportedBytes(c), ReportedLatency(c));
    KindsTellApart(MemoryReasons(c, |c.participants|), LinkReasons(c, |c.splits|), caps, r);
  }

  lemma CapReasonKinds(k: Constraints, bytes: nat, latency: real)
    ensures forall r :: r in CapReasons(k, bytes, latency) ==> r.MaxTransferBytesExceeded? || r.LatencySloExceeded?
  {
  }

  lemma KindsTellApart(memory: seq<Reason>, links: seq<Reason>, caps: seq<Reason>, r: Reason)
    requires forall x :: x in memory ==> x.MemoryCapacityExceeded? || x.MemoryReplanNotImproved?
    requires forall x :: x in links ==> x.FailedNetworkLink? || x.MissingNetworkLink?
    requires forall x :: x in caps ==> x.MaxTransferBytesExceeded? || x.LatencySloExceeded?
    ensures r.MemoryCapacityExceeded? || r.MemoryReplanNotImproved? ==> (r in memory + links + caps <==> r in memory)
    ensures r.FailedNetworkLink? || r.MissingNetworkLink? ==> (r in memory + links + caps <==> r in links)
    ensures r.MaxTransferBytesExceeded? || r.LatencySloExceeded? ==> (r in memory + links + caps <==> r in caps)
  {
  }

  /** A candidate names a device for memory exactly when a run on it needs more than the device may
      give, or more than a limit from earlier feedback allows. */
  lemma RejectedForMemory(c: CutInput, device: string)
    requires Buildable(c)
    ensures MemoryCapacityExceeded(device) in CandidateOf(c).rejectionReasons
            <==> exists n :: 0 <= n < |c.participants| && c.participants[n] == device && Overfull(c, n)
    ensures MemoryReplanNotImproved(device) in CandidateOf(c).rejectionReasons
            <==> exists n :: 0 <= n < |c.participants| && c.participants[n] == device && OverLimit(c, n)
  {
    Rejected(c, MemoryCapacityExceeded(device));
    Rejected(c, MemoryReplanNotImproved(device));
    MemoryReasonsIff(c, device);
  }

  /** The n-th participant and the next are this pair. */
  ghost predicate Adjacent(c: CutInput, n: nat, source: string, target: string) {
    n + 1 < |c.participants| && c.participants[n] == source && c.participants[n + 1] == target
  }

  lemma LinkReasonIff(c: CutInput, source: string, target: string)
    requires Buildable(c)
    ensures FailedNetworkLink(source, target) in LinkReasons(c, |c.splits|)
            <==> (source, target) in c.excludedLinks && exists n :: 0 <= n && Adjacent(c, n, source, target)
    ensures MissingNetworkLink(source, target) in LinkReasons(c, |c.splits|)
            <==> (source, target) !in c.excludedLinks && (source, target) !in LinkMap(c.plan.networkLinks)
                 && exists n :: 0 <= n && Adjacent(c, n, source, target)
  {
    var r, r' := FailedNetworkLink(source, target), MissingNetworkLink(source, target);
    LinkReasonMembers(c, |c.splits|, r);
    LinkReasonMembers(c, |c.splits|, r');
    if i :| 0 <= i < |c.splits| && (r in LinkReasonsAt(c, i) || r' in LinkReasonsAt(c, i)) {
      assert Adjacent(c, i, source, target);
    }
    if n :| 0 <= n && Adjacent(c, n, source, target) {
      assert PairAt(c, n) == (source, target);
      assert (source, target) in c.excludedLinks ==> r in LinkReasonsAt(c, n);
      assert (source, target) !in c.excludedLinks && (source, target) !in LinkMap(c.plan.networkLinks) ==>
          r' in LinkReasonsAt(c, n);
    }
  }

  /** It names a pair of neighbours exactly when feedback excluded their link, or else there is none. */
  lemma RejectedForLinks(c: CutInput, source: string, target: string)
    requires Buildable(c)
    ensures FailedNetworkLink(source, target) in CandidateOf(c).rejectionReasons
            <==> (source, target) in c.excludedLinks && exists n :: 0 <= n && Adjacent(c, n, source, target)
    ensures MissingNetworkLink(source, target) in CandidateOf(c).rejectionReasons
            <==> (source, target) !in c.excludedLinks && (source, target) !in LinkMap(c.plan.networkLinks)
                 && exists n :: 0 <= n && Adjacent(c, n, source, target)
  {
    Rejected(c, FailedNetworkLink(source, target));
    Rejected(c, MissingNetworkLink(source, target));
    LinkReasonIff(c, source, target);
  }

  /** And it names a cap exactly when its bytes or its latency are over that cap. */
  lemma RejectedForCaps(c: CutInput)
    requires Buildable(c)
    ensures MaxTransferBytesExceeded in CandidateOf(c).rejectionReasons
            <==> c.plan.constraints.maxTransferBytes.Some?
                 && ReportedBytes(c) > c.plan.constraints.maxTransferBytes.value
    ensures LatencySloExceeded in CandidateOf(c).rejectionReasons
            <==> c.plan.constraints.maxEndToEndLatencyMs.Some?
                 && ReportedLatency(c) > c.plan.constraints.maxEndToEndLatencyMs.value
  {
    Rejected(c, MaxTransferBytesExceeded);
    Rejected(c, LatencySloExceeded);
  }

  // ----- the full-model candidates -----

  lemma BuiltReplicas(f: FullModelInput)
    requires FullModelBuildable(f)
    ensures var k, r := |f.participants|, FullModelCandidateOf(f);
            && r.partitions == Replicas(f, k) && r.splitPoints == [] && r.graphEdges == UploadEdges(f, k)
            && r.graphNodes == ForwardNodes(r.partitions) + [GraphNode(AGGREGATION, f.participants[0])]
  {
  }

  /** Every participant holds a replica of the whole model: all names, all compute, and the memory for
      all parameters and working memory and the largest activation on top. */
  lemma ReplicaIs(f: FullModelInput, n: nat)
    requires FullModelBuildable(f) && n < |f.participants|
    ensures var layers, r := f.plan.layers, FullModelCandidateOf(f);
            && |r.partitions| == |f.participants|
            && r.partitions[n].partitionId == "partition-" + Decimal(n + 1)
            && r.partitions[n].deviceId == f.participants[n]
            && |r.partitions[n].layerNames| == |layers|
            && (forall i :: 0 <= i < |layers| ==> r.partitions[n].layerNames[i] == layers[i].name)
            && r.partitions[n].computeUnits == ComputeUnits(layers)
            && (forall l :: l in layers ==>
                  r.partitions[n].memoryDemandBytes
                  >= ParameterBytes(layers) + WorkingBytes(layers) + l.activationBytes)
            && (exists l :: l in layers
                  && r.partitions[n].memoryDemandBytes
                     == ParameterBytes(layers) + WorkingBytes(layers) + l.activationBytes)
  {
    BuiltReplicas(f);
    DemandIs(f.plan.layers);
  }

  /** The star's nodes are the replicas, each on its device, and an aggregation on the first. */
  lemma StarGraphIs(f: FullModelInput, n: nat)
    requires FullModelBuildable(f) && n < |f.participants|
    ensures var r := FullModelCandidateOf(f);
            && |r.graphNodes| == |f.participants| + 1
            && r.graphNodes[n] == GraphNode("partition-" + Decimal(n + 1), f.participants[n])
            && r.graphNodes[|f.participants|] == GraphNode("aggregation", f.participants[0])
  {
    BuiltReplicas(f);
  }

  /** A replica fits exactly when the whole model needs no more than the device may give, all its
      memory but the headroom, and no more than a limit from earlier feedback allows. */
  lemma ReplicaFitsIff(f: FullModelInput, n: nat)
    requires FullModelBuildable(f) && n < |f.participants|
    ensures ReplicaFits(f, n) <==>
              var device, demand := f.participants[n], Demand(f.plan.layers);
              && demand as real <= DeviceMap(f.plan.devices)[device].memoryAvailableBytes as real
                                   * (1.0 - f.plan.constraints.minimumMemoryHeadroomRatio)
              && (device in f.memoryLimits ==> demand <= f.memoryLimits[device])
  {
    var room := DeviceMap(f.plan.devices)[f.participants[n]].memoryAvailableBytes as real
                * (1.0 - f.plan.constraints.minimumMemoryHeadroomRatio);
    assert Demand(f.plan.layers) <= room.Floor <==> Demand(f.plan.layers) as real <= room;
  }

  /** The n-th time is what the n-th device takes for the whole model. */
  ghost predicate ReplicaTakes(f: FullModelInput, times: seq<real>)
    requires FullModelBuildable(f)
  {
    && |times| == |f.participants|
    && forall n :: 0 <= n < |times| ==>
         times[n] * DeviceMap(f.plan.devices)[f.participants[n]].computeUnitsPerSecond
         == ComputeUnits(f.plan.layers) * 1000.0
  }

  ghost predicate ReplicaPresses(f: FullModelInput, pressures: seq<real>)
    requires FullModelBuildable(f)
  {
    && |pressures| == |f.participants|
    && forall n :: 0 <= n < |pressures| ==>
         var available := DeviceMap(f.plan.devices)[f.participants[n]].memoryAvailableBytes;
         pressures[n] * (if available > 1 then available else 1) as real == Demand(f.plan.layers) as real
  }

  /** The n-th time is what participant n + 1 takes to send all parameters to participant 0. */
  ghost predicate UploadTakes(f: FullModelInput, times: seq<real>)
    requires FullModelBuildable(f) && UploadsUsable(f)
  {
    && |times| == |f.participants| - 1
    && forall n :: 0 <= n < |times| ==>
         UploadUsable(f, n + 1)
         && var link := LinkMap(f.plan.networkLinks)[(f.participants[n + 1], f.participants[0])];
            (times[n] - link.latencyMs) * link.bandwidthBytesPerSecond
            == ParameterBytes(f.plan.layers) as real * 1000.0
  }

  lemma ReplicaTimesAre(f: FullModelInput, times: seq<real>)
    requires FullModelBuildable(f) && ReplicaTakes(f, times)
    ensures times == ReplicaTimes(f, |f.participants|)
  {
    forall n | 0 <= n < |times| ensures times[n] == ReplicaMsAt(f, n) {
      DeviceMapEntries(f.plan.devices);
      SameTime(ComputeUnits(f.plan.layers), DeviceMap(f.plan.devices)[f.participants[n]].computeUnitsPerSecond,
               times[n]);
    }
  }

  lemma ReplicaPressuresAre(f: FullModelInput, pressures: seq<real>)
    requires FullModelBuildable(f) && ReplicaPresses(f, pressures)
    ensures pressures == ReplicaPressures(f, |f.participants|)
  {
    forall n | 0 <= n < |pressures| ensures pressures[n] == ReplicaPressureAt(f, n) {
      ShareOfAvailable(Demand(f.plan.layers), DeviceMap(f.plan.devices)[f.participants[n]].memoryAvailableBytes,
                       pressures[n]);
    }
  }

  lemma UploadTimeIs(f: FullModelInput, times: seq<real>, n: nat)
    requires FullModelBuildable(f) && UploadsUsable(f) && UploadTakes(f, times) && n < |f.participants| - 1
    ensures UploadUsable(f, n + 1) && times[n] == UploadMs(f, n + 1)
  {
    LinkMapEntries(f.plan.networkLinks);
    assert UploadUsable(f, n + 1);
    var link := LinkMap(f.plan.networkLinks)[(f.participants[n + 1], f.participants[0])];
    SameTime(ParameterBytes(f.plan.layers) as real, link.bandwidthBytesPerSecond, times[n] - link.latencyMs);
  }

  lemma {:induction false} UploadTimesAre(f: FullModelInput, times: seq<real>, n: nat)
    requires FullModelBuildable(f) && UploadsUsable(f) && UploadTakes(f, times) && 1 <= n <= |f.participants|
    ensures UploadTimes(f, n) == times[..n - 1] && |UploadEdges(f, n)| == n - 1
    ensures forall i :: 0 <= i < n - 1 ==>
              UploadEdges(f, n)[i] == GraphEdge("partition-" + Decimal(i + 2), "aggregation",
                                                ParameterBytes(f.plan.layers), Round6(times[i]), AggregationEdge)
    decreases n
  {
    if n > 1 {
      UploadTimesAre(f, times, n - 1);
      UploadTimeIs(f, times, n - 2);
      assert times[..n - 1] == times[..n - 2] + [times[n - 2]];
    }
  }

  /** With its uploads usable, every edge of the star sends all parameters from a remote replica to the
      aggregation, in the time its link takes. */
  lemma UploadEdgeIs(f: FullModelInput, times: seq<real>, n: nat)
    requires FullModelBuildable(f) && UploadsUsable(f) && UploadTakes(f, times) && n < |f.participants| - 1
    ensures |FullModelCandidateOf(f).graphEdges| == |f.participants| - 1
    ensures FullModelCandidateOf(f).graphEdges[n]
            == GraphEdge("partition-" + Decimal(n + 2), "aggregation", ParameterBytes(f.plan.layers),
                         Round6(times[n]), AggregationEdge)
  {
    UploadTimesAre(f, times, |f.participants|);
    BuiltReplicas(f);
  }

  /** A full-model candidate's report: replicas work side by side, and so do the uploads, so the step
      takes the slowest of each; the score is that of the step, the bytes, and the imbalance and risk of
      the replicas' times. */
  ghost predicate ReportsFullModel(p: Policy, w: TrainingWeights, r: Candidate, compute: seq<real>,
                                   uploads: seq<real>, pressures: seq<real>, bytes: nat)
    requires SoundPolicy(p)
  {
    var step, imbalance, risk := MaxReals(compute) + MaxReals(uploads), LoadImbalance(compute),
                                 ResilienceRisk(compute, |compute|);
    && r.estimatedComputeMs == Round6(MaxReals(compute)) && r.estimatedTransferMs == Round6(MaxReals(uploads))
    && r.estimatedTotalLatencyMs == r.estimatedStepTimeMs == Round6(step)
    && r.maximumMemoryPressure == Round6(MaxReals(pressures))
    && r.totalTransferBytes == r.gradientTransferBytes == bytes
    && r.maximumLoadImbalance == Round6(imbalance) && r.predictedResilienceRisk == Round6(risk)
    && r.score == ScoreTraining(p, w, step, imbalance, MaxReals(pressures), bytes, risk)
  }

  lemma FinishedFullModel(f: FullModelInput, replicas: seq<LogicalPartition>, times: seq<real>, pressures: seq<real>,
                          reasons: seq<Reason>, uploadTimes: seq<real>, edges: seq<GraphEdge>)
    requires SoundPolicy(f.policy) && replicas != [] && |times| == |f.participants|
    ensures ReportsFullModel(f.policy, f.weights,
                             FinishFullModel(f, replicas, times, pressures, reasons, uploadTimes, edges),
                             times, uploadTimes, pressures, SumBytes(edges))
  {
  }

  lemma FullModelReports(f: FullModelInput, compute: seq<real>, uploads: seq<real>, pressures: seq<real>)
    requires FullModelBuildable(f) && UploadsUsable(f)
    requires ReplicaTakes(f, compute) && UploadTakes(f, uploads) && ReplicaPresses(f, pressures)
    ensures ReportsFullModel(f.policy, f.weights, FullModelCandidateOf(f), compute, uploads, pressures, StarBytes(f))
  {
    var k := |f.participants|;
    ReplicaTimesAre(f, compute);
    ReplicaPressuresAre(f, pressures);
    UploadTimesAre(f, uploads, k);
    assert uploads[..k - 1] == uploads;
    UsableStarBytes(f);
    FinishedFullModel(f, Replicas(f, k), compute, pressures, ReplicaReasons(f, k) + UploadReasons(f, k), uploads,
                      UploadEdges(f, k));
  }

  // ----- why a full-model candidate is rejected -----

  ghost predicate ReplicaOverfull(f: FullModelInput, n: nat)
    requires FullModelBuildable(f) && n < |f.participants|
  {
    Demand(f.plan.layers) as real
    > DeviceMap(f.plan.devices)[f.participants[n]].memoryAvailableBytes as real
      * (1.0 - f.plan.constraints.minimumMemoryHeadroomRatio)
  }

  ghost predicate ReplicaOverLimit(f: FullModelInput, n: nat)
    requires n < |f.participants|
  {
    f.participants[n] in f.memoryLimits && Demand(f.plan.layers) > f.memoryLimits[f.participants[n]]
  }

  lemma ReplicaReasonsAtAre(f: FullModelInput, n: nat)
    requires FullModelBuildable(f) && n < |f.participants|
    ensures ReplicaReasonsAt(f, n)
            == (if ReplicaOverfull(f, n) then [MemoryCapacityExceeded(f.participants[n])] else [])
               + (if ReplicaOverLimit(f, n) then [MemoryReplanNotImproved(f.participants[n])] else [])
  {
    var room := DeviceMap(f.plan.devices)[f.participants[n]].memoryAvailableBytes as real
                * (1.0 - f.plan.constraints.minimumMemoryHeadroomRatio);
    assert Demand(f.plan.layers) > room.Floor <==> Demand(f.plan.layers) as real > room;
  }

  lemma {:induction false} ReplicaReasonsFlat(f: FullModelInput, n: nat, parts: seq<seq<Reason>>)
    requires FullModelBuildable(f) && n <= |f.participants| == |parts|
    requires forall i :: 0 <= i < |parts| ==> parts[i] == ReplicaReasonsAt(f, i)
    ensures ReplicaReasons(f, n) == Flatten(parts[..n])
    decreases n
  {
    if n > 0 {
      ReplicaReasonsFlat(f, n - 1, parts);
      FlattenSnoc(parts[..n - 1], parts[n - 1]);
      assert parts[..n] == parts[..n - 1] + [parts[n - 1]];
    }
  }

  lemma ReplicaReasonsAre(f: FullModelInput, over: seq<bool>, overLimit: seq<bool>)
    requires FullModelBuildable(f) && |f.participants| == |over| == |overLimit|
    requires forall i :: 0 <= i < |over| ==> over[i] == ReplicaOverfull(f, i)
    requires forall i :: 0 <= i < |over| ==> overLimit[i] == ReplicaOverLimit(f, i)
    ensures ReplicaReasons(f, |f.participants|) == Flatten(ReasonParts(f.participants, over, overLimit))
  {
    var parts := ReasonParts(f.participants, over, overLimit);
    forall i | 0 <= i < |parts| ensures parts[i] == ReplicaReasonsAt(f, i) {
      ReplicaReasonsAtAre(f, i);
    }
    ReplicaReasonsFlat(f, |parts|, parts);
    assert parts[..|parts|] == parts;
  }

  lemma ReplicaReasonsIff(f: FullModelInput, device: string)
    requires FullModelBuildable(f)
    ensures MemoryCapacityExceeded(device) in ReplicaReasons(f, |f.participants|)
            <==> exists n :: 0 <= n < |f.participants| && f.participants[n] == device && ReplicaOverfull(f, n)
    ensures MemoryReplanNotImproved(device) in ReplicaReasons(f, |f.participants|)
            <==> exists n :: 0 <= n < |f.participants| && f.participants[n] == device && ReplicaOverLimit(f, n)
  {
    var over := seq(|f.participants|, n requires 0 <= n < |f.participants| => ReplicaOverfull(f, n));
    var overLimit := seq(|f.participants|, n requires 0 <= n < |f.participants| => ReplicaOverLimit(f, n));
    ReplicaReasonsAre(f, over, overLimit);
    PartsName(f.participants, over, overLimit, device);
    assert forall n :: 0 <= n < |over| ==> over[n] == ReplicaOverfull(f, n) && overLimit[n] == ReplicaOverLimit(f, n);
  }

  lemma {:induction false} UploadReasonMembers(f: FullModelInput, n: nat, r: Reason)
    requires n <= |f.participants|
    ensures r in UploadReasons(f, n) <==> exists i :: 0 < i < n && r in UploadReasonsAt(f, i)
    decreases n
  {
    if n > 1 { UploadReasonMembers(f, n - 1, r); }
  }

  lemma {:induction false} ReplicaReasonKinds(f: FullModelInput, n: nat)
    requires FullModelBuildable(f) && n <= |f.participants|
    ensures forall r :: r in ReplicaReasons(f, n) ==> r.MemoryCapacityExceeded? || r.MemoryReplanNotImproved?
    decreases n
  {
    if n > 0 { ReplicaReasonKinds(f, n - 1); }
  }

  lemma {:induction false} UploadReasonKinds(f: FullModelInput, n: nat)
    requires n <= |f.participants|
    ensures forall r :: r in UploadReasons(f, n) ==> r.FailedNetworkLink? || r.MissingNetworkLink?
    decreases n
  {
    if n > 1 { UploadReasonKinds(f, n - 1); }
  }

  lemma StarRejected(f: FullModelInput, r: Reason)
    requires FullModelBuildable(f)
    ensures var k, caps := |f.participants|, CapReasons(f.plan.constraints, SumBytes(UploadEdges(f, |f.participants|)),
                                                        StarLatency(f));
            && FullModelCandidateOf(f).rejectionReasons == ReplicaReasons(f, k) + UploadReasons(f, k) + caps
            && (r.MemoryCapacityExceeded? || r.MemoryReplanNotImproved? ==>
                  (r in FullModelCandidateOf(f).rejectionReasons <==> r in ReplicaReasons(f, k)))
            && (r.FailedNetworkLink? || r.MissingNetworkLink? ==>
                  (r in FullModelCandidateOf(f).rejectionReasons <==> r in UploadReasons(f, k)))
            && (r.MaxTransferBytesExceeded? || r.LatencySloExceeded? ==>
                  (r in FullModelCandidateOf(f).rejectionReasons <==> r in caps))
  {
    var k, bytes := |f.participants|, SumBytes(UploadEdges(f, |f.participants|));
    ReplicaReasonKinds(f, k);
    UploadReasonKinds(f, k);
    CapReasonKinds(f.plan.constraints, bytes, StarLatency(f));
    KindsTellApart(ReplicaReasons(f, k), UploadReasons(f, k), CapReasons(f.plan.constraints, bytes, StarLatency(f)), r);
  }

  /** A full-model candidate names its reasons as a split candidate does: devices that the replica does
      not fit, and participants whose link to the first is excluded or missing. */
  lemma StarRejectedFor(f: FullModelInput, device: string)
    requires FullModelBuildable(f)
    ensures MemoryCapacityExceeded(device) in FullModelCandidateOf(f).rejectionReasons
            <==> exists n :: 0 <= n < |f.participants| && f.participants[n] == device && ReplicaOverfull(f, n)
    ensures MemoryReplanNotImproved(device) in FullModelCandidateOf(f).rejectionReasons
            <==> exists n :: 0 <= n < |f.participants| && f.participants[n] == device && ReplicaOverLimit(f, n)
    ensures FailedNetworkLink(device, f.participants[0]) in FullModelCandidateOf(f).rejectionReasons
            <==> (device, f.participants[0]) in f.excludedLinks && device in f.participants[1..]
    ensures MissingNetworkLink(device, f.participants[0]) in FullModelCandidateOf(f).rejectionReasons
            <==> (device, f.participants[0]) !in f.excludedLinks && device in f.participants[1..]
                 && (device, f.participants[0]) !in LinkMap(f.plan.networkLinks)
  {
    StarRejected(f, MemoryCapacityExceeded(device));
    StarRejected(f, MemoryReplanNotImproved(device));
    StarRejected(f, FailedNetworkLink(device, f.participants[0]));
    StarRejected(f, MissingNetworkLink(device, f.participants[0]));
    ReplicaReasonsIff(f, device);
    UploadReasonsIff(f, device);
  }

  lemma UploadReasonsIff(f: FullModelInput, device: string)
    requires |f.participants| >= 1
    ensures FailedNetworkLink(device, f.participants[0]) in UploadReasons(f, |f.participants|)
            <==> (device, f.participants[0]) in f.excludedLinks && device in f.participants[1..]
    ensures MissingNetworkLink(device, f.participants[0]) in UploadReasons(f, |f.participants|)
            <==> (device, f.participants[0]) !in f.excludedLinks && device in f.participants[1..]
                 && (device, f.participants[0]) !in LinkMap(f.plan.networkLinks)
  {
    var r, r' := FailedNetworkLink(device, f.participants[0]), MissingNetworkLink(device, f.participants[0]);
    UploadReasonMembers(f, |f.participants|, r);
    UploadReasonMembers(f, |f.participants|, r');
    if i :| 0 < i < |f.participants| && (r in UploadReasonsAt(f, i) || r' in UploadReasonsAt(f, i)) {
      assert f.participants[1..][i - 1] == device;
    }
    if device in f.participants[1..] {
      var i :| 0 <= i < |f.participants| - 1 && f.participants[1..][i] == device;
      assert UploadPair(f, i + 1) == (device, f.participants[0]);
      assert (device, f.participants[0]) in f.excludedLinks ==> r in UploadReasonsAt(f, i + 1);
      assert (device, f.participants[0]) !in f.excludedLinks
             && (device, f.participants[0]) !in LinkMap(f.plan.networkLinks) ==>
          r' in UploadReasonsAt(f, i + 1);
    }
  }
}
