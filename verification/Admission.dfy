/** Admission of a coordination plan: participant order, the adapter's and the common
    processor's evidence checks, and the layers derived from a model profile. */
module Admission {
  import opened Prelude
  import opened Combinations
  import opened PartitionModels
  import opened Scoring
  import opened CandidateBuilder
  import opened FederatedBuilder
  import opened Planner

  // ----- participant order -----

  datatype Participant = Participant(clientId: string, priority: nat)

  function InsertByPriority(p: Participant, ordered: seq<Participant>): (r: seq<Participant>)
    ensures multiset(r) == multiset([p]) + multiset(ordered)
  {
    if ordered == [] then [p]
    else if p.priority < ordered[0].priority then [p] + ordered
    else
      assert ordered == [ordered[0]] + ordered[1..];
      [ordered[0]] + InsertByPriority(p, ordered[1..])
  }

  /** `sorted(participants, key=(priority, client_id))`; the parser has already required
      distinct priorities, so the second key never decides. */
  function ByPriority(participants: seq<Participant>): (r: seq<Participant>)
    ensures multiset(r) == multiset(participants)
  {
    if participants == [] then []
    else
      assert participants == [participants[0]] + participants[1..];
      InsertByPriority(participants[0], ByPriority(participants[1..]))
  }

  predicate Ascending(s: seq<Participant>) {
    forall a, b :: 0 <= a < b < |s| ==> s[a].priority < s[b].priority
  }

  predicate DistinctPriorities(s: seq<Participant>) {
    forall a, b :: 0 <= a < b < |s| ==> s[a].priority != s[b].priority
  }

  lemma AscendingFrom(first: Participant, rest: seq<Participant>)
    requires Ascending(rest) && forall b :: 0 <= b < |rest| ==> first.priority < rest[b].priority
    ensures Ascending([first] + rest)
  {
  }

  lemma {:induction false} InsertAscending(p: Participant, ordered: seq<Participant>)
    requires Ascending(ordered) && forall q :: q in ordered ==> q.priority != p.priority
    ensures Ascending(InsertByPriority(p, ordered))
  {
    if ordered != [] && p.priority >= ordered[0].priority {
      var rest := InsertByPriority(p, ordered[1..]);
      InsertAscending(p, ordered[1..]);
      assert ordered[0] in ordered;
      forall b | 0 <= b < |rest| ensures ordered[0].priority < rest[b].priority {
        InsertMember(p, ordered[1..], rest[b]);
      }
      AscendingFrom(ordered[0], rest);
    }
  }

  lemma InsertMember(p: Participant, ordered: seq<Participant>, q: Participant)
    requires q in InsertByPriority(p, ordered)
    ensures q == p || q in ordered
  {
    assert q in multiset(InsertByPriority(p, ordered));
  }

  /** The order of the participants depends only on their priorities: ascending, and the
      first, which is the aggregator of a federated plan, has the least. */
  lemma {:induction false} PriorityOrder(participants: seq<Participant>)
    requires DistinctPriorities(participants)
    ensures Ascending(ByPriority(participants))
    ensures participants != [] ==>
              forall q :: q in participants ==> ByPriority(participants)[0].priority <= q.priority
  {
    if participants != [] {
      var rest := ByPriority(participants[1..]);
      PriorityOrder(participants[1..]);
      forall q | q in rest ensures q.priority != participants[0].priority {
        assert q in multiset(rest);
        assert q in participants[1..];
      }
      InsertAscending(participants[0], rest);
      var ordered := ByPriority(participants);
      forall q | q in participants ensures ordered[0].priority <= q.priority {
        assert q in multiset(ordered);
        assert q in ordered;
      }
    }
  }

  // ----- evidence checks -----

  /** The three pairs of task type and selected mode that the parser accepts. */
  datatype CoordinationMode = FederatedFL | FederatedSL | DistributedPartitioned

  /** `MODE_MAPPING`, followed by the strategy that the registry resolves it to. */
  function StrategyOf(mode: CoordinationMode): Strategy {
    match mode
    case FederatedFL => FullModel
    case FederatedSL => TrainingSplit
    case DistributedPartitioned => InferenceSplit
  }

  function Neighbours(participants: seq<string>, n: nat): Pair
    requires n + 1 < |participants|
  {
    (participants[n], participants[n + 1])
  }

  function ToFirst(participants: seq<string>, n: nat): Pair
    requires n < |participants|
  {
    (participants[n], participants[0])
  }

  /** `_validate_participant_context`: the pairs that need a link. */
  function AdapterPairs(mode: CoordinationMode, participants: seq<string>): set<Pair>
    requires participants != []
  {
    if mode == FederatedFL then
      set n | 1 <= n < |participants| && participants[n] != participants[0] :: ToFirst(participants, n)
    else
      set n | 0 <= n < |participants| - 1 :: Neighbours(participants, n)
  }

  predicate AdapterAccepts(mode: CoordinationMode, plan: RoundPlan)
    requires plan.participants != []
  {
    && (forall p :: p in plan.participants ==> p in DeviceMap(plan.devices))
    && (forall pair :: pair in AdapterPairs(mode, plan.participants) ==> pair in LinkMap(plan.networkLinks))
  }

  datatype FeasibilityError = TooFewParticipantsOrLayers | MissingDevice | MissingLink

  /** `required_pairs` of `_validate_feasibility`. */
  function RequiredPairs(federated: bool, participants: seq<string>): seq<Pair>
    requires participants != []
  {
    seq(|participants| - 1, n requires 0 <= n < |participants| - 1 =>
      if federated then ToFirst(participants, n + 1) else Neighbours(participants, n))
  }

  /** `_validate_feasibility`. */
  function CheckFeasibility(federated: bool, plan: RoundPlan): (r: Option<FeasibilityError>)
    ensures r.None? ==> |plan.participants| >= 2 && plan.layers != []
  {
    if |plan.participants| < 2 || plan.layers == [] || (!federated && |plan.layers| < |plan.participants|) then
      Some(TooFewParticipantsOrLayers)
    else if exists p :: p in plan.participants && p !in DeviceMap(plan.devices) then Some(MissingDevice)
    else if exists n :: 0 <= n < |plan.participants| - 1
                        && RequiredPairs(federated, plan.participants)[n] !in LinkMap(plan.networkLinks) then
      Some(MissingLink)
    else None
  }

  /** A request is refused first for too few participants or layers, then for a participant without a
      device, then for a required pair without a link. */
  lemma RefusedFor(federated: bool, plan: RoundPlan)
    ensures var few := |plan.participants| < 2 || plan.layers == []
                       || (!federated && |plan.layers| < |plan.participants|);
            var unknown := exists p :: p in plan.participants && p !in DeviceMap(plan.devices);
            && (CheckFeasibility(federated, plan) == Some(TooFewParticipantsOrLayers) <==> few)
            && (CheckFeasibility(federated, plan) == Some(MissingDevice) <==> !few && unknown)
            && (CheckFeasibility(federated, plan) == Some(MissingLink) <==>
                  !few && !unknown
                  && exists pair :: pair in RequiredPairs(federated, plan.participants)
                                    && pair !in LinkMap(plan.networkLinks))
  {
    if |plan.participants| >= 2 {
      var required := RequiredPairs(federated, plan.participants);
      assert forall n :: 0 <= n < |required| ==> required[n] in required;
    }
  }

  /** Federated learning is planned as a star, federated split learning as a cut with its training
      intent, and distributed inference as a cut without. */
  lemma ModesPlanAs(mode: CoordinationMode, i: PlanningInput, ex: Exclusions, splits: seq<nat>)
    requires i.strategy == StrategyOf(mode)
    ensures i.strategy.FullModel? <==> mode == FederatedFL
    ensures CutOf(i, ex, splits).intent == if mode == FederatedSL then Some(i.intent) else None
  {
  }

  /** The pairs whose links the candidate builders need when nothing is excluded. */
  function PlannerPairs(i: PlanningInput): set<Pair> {
    if i.strategy.FullModel? then
      set n | 1 <= n < |i.plan.participants| :: ToFirst(i.plan.participants, n)
    else
      set n | 0 <= n < |i.plan.participants| - 1 :: Neighbours(i.plan.participants, n)
  }

  predicate PairsLinked(i: PlanningInput) {
    forall pair :: pair in PlannerPairs(i) ==> pair in LinkMap(i.plan.networkLinks)
  }

  predicate Distinct(s: seq<string>) {
    forall a, b :: 0 <= a < b < |s| ==> s[a] != s[b]
  }

  /** The three components demand the same pairs: a chain for the split modes, a star into
      participant 0 for federated learning. */
  lemma SamePairs(mode: CoordinationMode, i: PlanningInput)
    requires i.strategy == StrategyOf(mode) && i.plan.participants != [] && Distinct(i.plan.participants)
    ensures AdapterPairs(mode, i.plan.participants) == PlannerPairs(i)
    ensures forall pair :: pair in RequiredPairs(mode == FederatedFL, i.plan.participants) <==> pair in PlannerPairs(i)
  {
    var required := RequiredPairs(mode == FederatedFL, i.plan.participants);
    forall pair ensures pair in required <==> pair in PlannerPairs(i) {
      if pair in required {
        var n :| 0 <= n < |required| && required[n] == pair;
      }
      if pair in PlannerPairs(i) {
        if mode == FederatedFL {
          var n :| 1 <= n < |i.plan.participants| && pair == ToFirst(i.plan.participants, n);
          assert required[n - 1] == pair;
        } else {
          var n :| 0 <= n < |i.plan.participants| - 1 && pair == Neighbours(i.plan.participants, n);
          assert required[n] == pair;
        }
      }
    }
  }

  /** So whatever the adapter accepts, the common check can reject only for want of layers. */
  lemma AdapterImpliesFeasible(mode: CoordinationMode, i: PlanningInput)
    requires i.strategy == StrategyOf(mode) && |i.plan.participants| >= 2 && Distinct(i.plan.participants)
    requires AdapterAccepts(mode, i.plan)
    ensures CheckFeasibility(mode == FederatedFL, i.plan).None?
            <==> i.plan.layers != [] && (mode == FederatedFL || |i.plan.participants| <= |i.plan.layers|)
  {
    SamePairs(mode, i);
    var required := RequiredPairs(mode == FederatedFL, i.plan.participants);
    forall n | 0 <= n < |i.plan.participants| - 1 ensures required[n] in LinkMap(i.plan.networkLinks) {
      assert required[n] in required;
    }
  }

  lemma {:induction false} NothingRemoved(participants: seq<string>)
    ensures Remaining(participants, {}) == participants
  {
    if participants != [] {
      NothingRemoved(participants[1..]);
      assert participants == [participants[0]] + participants[1..];
    }
  }

  /** The split builder finds every link usable exactly when these pairs are linked. */
  lemma SplitBuilderNeedsPairs(i: PlanningInput, splits: seq<nat>)
    requires !i.strategy.FullModel? && Buildable(CutOf(i, NO_EXCLUSIONS, splits))
    ensures LinksUsable(CutOf(i, NO_EXCLUSIONS, splits)) <==> PairsLinked(i)
  {
    NothingRemoved(i.plan.participants);
    var c := CutOf(i, NO_EXCLUSIONS, splits);
    assert forall n :: 0 <= n < |splits| ==> PairAt(c, n) == Neighbours(i.plan.participants, n);
    if LinksUsable(c) {
      forall pair | pair in PlannerPairs(i) ensures pair in LinkMap(i.plan.networkLinks) {
        var n :| 0 <= n < |i.plan.participants| - 1 && pair == Neighbours(i.plan.participants, n);
        assert LinkUsable(c, n);
      }
    }
    if PairsLinked(i) {
      forall n | 0 <= n < |splits| ensures LinkUsable(c, n) {
        assert Neighbours(i.plan.participants, n) in PlannerPairs(i);
      }
    }
  }

  /** And so does the full-model builder. */
  lemma StarBuilderNeedsPairs(i: PlanningInput)
    requires i.strategy.FullModel?
    ensures UploadsUsable(FullModelOf(i, NO_EXCLUSIONS)) <==> PairsLinked(i)
  {
    NothingRemoved(i.plan.participants);
    var f := FullModelOf(i, NO_EXCLUSIONS);
    if UploadsUsable(f) {
      forall pair | pair in PlannerPairs(i) ensures pair in LinkMap(i.plan.networkLinks) {
        var n :| 1 <= n < |i.plan.participants| && pair == ToFirst(i.plan.participants, n);
        assert UploadUsable(f, n);
      }
    }
    if PairsLinked(i) {
      forall n | 0 < n < |f.participants| ensures UploadUsable(f, n) {
        assert ToFirst(i.plan.participants, n) in PlannerPairs(i);
      }
    }
  }

  lemma AdmittedSplitInput(i: PlanningInput, splits: seq<nat>)
    requires ParsedPlan(i.plan) && SoundPolicy(i.policy) && CheckFeasibility(false, i.plan).None?
    requires IsCut(splits, 1, |i.plan.layers|) && |splits| + 1 == |i.plan.participants|
    ensures Admitted(i) && EnoughParticipants(i, NO_EXCLUSIONS)
    ensures Buildable(CutOf(i, NO_EXCLUSIONS, splits))
    ensures CutOf(i, NO_EXCLUSIONS, splits).participants == i.plan.participants
  {
    NothingRemoved(i.plan.participants);
    CutBuildable(i, NO_EXCLUSIONS, splits);
  }

  lemma AdmittedLinks(c: CutInput)
    requires Buildable(c) && c.participants == c.plan.participants && c.excludedLinks == {}
    requires CheckFeasibility(false, c.plan).None?
    ensures LinksUsable(c) && LinkReasons(c, |c.splits|) == []
  {
    forall n | 0 <= n < |c.splits| ensures LinkUsable(c, n) {
      assert RequiredPairs(false, c.plan.participants)[n] == PairAt(c, n);
    }
    LinkReasonsEmpty(c, |c.splits|);
  }

  /** On an admitted split request with nothing excluded, building a candidate never misses
      a device or a link, and the candidate is valid exactly when memory headroom, transfer
      cap and latency limit hold. */
  lemma AdmittedSplitCandidates(i: PlanningInput, splits: seq<nat>)
    requires ParsedPlan(i.plan) && SoundPolicy(i.policy) && !i.strategy.FullModel?
    requires CheckFeasibility(false, i.plan).None?
    requires IsCut(splits, 1, |i.plan.layers|) && |splits| + 1 == |i.plan.participants|
    ensures Admitted(i) && EnoughParticipants(i, NO_EXCLUSIONS)
    ensures Buildable(CutOf(i, NO_EXCLUSIONS, splits))
    ensures LinkReasons(CutOf(i, NO_EXCLUSIONS, splits), |splits|) == []
    ensures CandidateOf(CutOf(i, NO_EXCLUSIONS, splits)).valid
            <==> FitsMemory(CutOf(i, NO_EXCLUSIONS, splits)) && WithinCaps(CutOf(i, NO_EXCLUSIONS, splits))
  {
    AdmittedSplitInput(i, splits);
    AdmittedLinks(CutOf(i, NO_EXCLUSIONS, splits));
    ValidIff(CutOf(i, NO_EXCLUSIONS, splits));
  }

  lemma AdmittedFullModelInput(i: PlanningInput)
    requires ParsedPlan(i.plan) && SoundPolicy(i.policy) && i.strategy.FullModel?
    requires CheckFeasibility(true, i.plan).None?
    ensures Admitted(i) && FullModelBuildable(FullModelOf(i, NO_EXCLUSIONS))
    ensures FullModelOf(i, NO_EXCLUSIONS).participants == i.plan.participants
    ensures UploadsUsable(FullModelOf(i, NO_EXCLUSIONS))
  {
    NothingRemoved(i.plan.participants);
    var f := FullModelOf(i, NO_EXCLUSIONS);
    forall n | 0 < n < |f.participants| ensures UploadUsable(f, n) {
      assert RequiredPairs(true, i.plan.participants)[n - 1] == ToFirst(i.plan.participants, n - 1 + 1);
    }
  }

  /** The same for the federated candidate and its star: it misses no device or link, and it is
      valid exactly when the replicas fit and one upload per remote participant keeps within
      the caps. */
  lemma AdmittedFullModelCandidate(i: PlanningInput)
    requires ParsedPlan(i.plan) && SoundPolicy(i.policy) && i.strategy.FullModel?
    requires CheckFeasibility(true, i.plan).None?
    ensures Admitted(i) && FullModelBuildable(FullModelOf(i, NO_EXCLUSIONS))
    ensures FullModelOf(i, NO_EXCLUSIONS).participants == i.plan.participants
    ensures UploadReasons(FullModelOf(i, NO_EXCLUSIONS), |i.plan.participants|) == []
    ensures FullModelCandidateOf(FullModelOf(i, NO_EXCLUSIONS)).totalTransferBytes
            == StarBytes(FullModelOf(i, NO_EXCLUSIONS))
    ensures FullModelCandidateOf(FullModelOf(i, NO_EXCLUSIONS)).valid
            <==> ReplicasFit(FullModelOf(i, NO_EXCLUSIONS)) && StarWithinCaps(FullModelOf(i, NO_EXCLUSIONS))
  {
    AdmittedFullModelInput(i);
    UsableFullModel(FullModelOf(i, NO_EXCLUSIONS));
  }

  // ----- layers from a model profile -----

  datatype ModelBlock = ModelBlock(
    layerNames: seq<string>, parameterBytes: nat, activationBytes: nat, workingMemoryBytes: nat)

  function LayerOf(block: ModelBlock, n: nat): ModelLayer
    requires n < |block.layerNames|
  {
    var count := |block.layerNames|;
    ModelLayer(block.layerNames[n], 1.0, block.parameterBytes / count, block.activationBytes,
               block.workingMemoryBytes / count)
  }

  function BlockLayers(block: ModelBlock, n: nat): (r: seq<ModelLayer>)
    requires n <= |block.layerNames|
    ensures |r| == n
  {
    if n == 0 then [] else BlockLayers(block, n - 1) + [LayerOf(block, n - 1)]
  }

  function ProfileLayers(blocks: seq<ModelBlock>): seq<ModelLayer> {
    if blocks == [] then []
    else
      var last := blocks[|blocks| - 1];
      ProfileLayers(blocks[..|blocks| - 1]) + BlockLayers(last, |last.layerNames|)
  }

  lemma ProfileLayersSnoc(blocks: seq<ModelBlock>, b: nat)
    requires b < |blocks|
    ensures ProfileLayers(blocks[..b + 1])
            == ProfileLayers(blocks[..b]) + BlockLayers(blocks[b], |blocks[b].layerNames|)
  {
    assert blocks[..b + 1][..b] == blocks[..b];
  }

  /** `_layers_from_profile`. */
  method LayersFromProfile(blocks: seq<ModelBlock>) returns (layers: seq<ModelLayer>)
    ensures layers == ProfileLayers(blocks)
  {
    layers := [];
    var b := 0;
    while b < |blocks|
      invariant 0 <= b <= |blocks|
      invariant layers == ProfileLayers(blocks[..b])
    {
      var block := blocks[b];
      var layerCount := |block.layerNames|;
      ghost var before := layers;
      var n := 0;
      while n < layerCount
        invariant 0 <= n <= layerCount
        invariant layers == before + BlockLayers(block, n)
      {
        assert BlockLayers(block, n + 1) == BlockLayers(block, n) + [LayerOf(block, n)];
        layers := layers + [ModelLayer(block.layerNames[n], 1.0, block.parameterBytes / layerCount,
                                       block.activationBytes, block.workingMemoryBytes / layerCount)];
        n := n + 1;
      }
      ProfileLayersSnoc(blocks, b);
      b := b + 1;
    }
    assert blocks[..b] == blocks;
  }

  /** Every layer of a block keeps its own name, counts as one compute unit, may produce the block's whole
      activation, and takes an equal share of its parameters and working memory, rounded down. */
  lemma {:induction false} BlockLayerIs(block: ModelBlock, count: nat, n: nat)
    requires n < count <= |block.layerNames|
    ensures var layer := BlockLayers(block, count)[n];
            && layer.name == block.layerNames[n] && layer.computeUnits == 1.0
            && layer.activationBytes == block.activationBytes
            && layer.parameterBytes == block.parameterBytes / |block.layerNames|
            && layer.workingMemoryBytes == block.workingMemoryBytes / |block.layerNames|
    decreases count
  {
    if n < count - 1 { BlockLayerIs(block, count - 1, n); }
  }

  function ProfileBytes(blocks: seq<ModelBlock>): nat {
    if blocks == [] then 0
    else
      var last := blocks[|blocks| - 1];
      ProfileBytes(blocks[..|blocks| - 1]) + last.parameterBytes + last.workingMemoryBytes
  }

  lemma {:induction false} BlockLayersSums(block: ModelBlock, n: nat)
    requires n <= |block.layerNames|
    ensures var layers := BlockLayers(block, n);
            && ParameterBytes(layers) == Times(n, if n == 0 then 0 else block.parameterBytes / |block.layerNames|)
            && WorkingBytes(layers) == Times(n, if n == 0 then 0 else block.workingMemoryBytes / |block.layerNames|)
            && ComputeUnits(layers) == n as real
  {
    if n > 0 {
      BlockLayersSums(block, n - 1);
      LayerSumsConcat(BlockLayers(block, n - 1), [LayerOf(block, n - 1)]);
      OneLayerSums(LayerOf(block, n - 1));
      TimesMore(n, block.parameterBytes / |block.layerNames|);
      TimesMore(n, block.workingMemoryBytes / |block.layerNames|);
    }
  }

  function Times(n: nat, x: nat): nat { n * x }

  lemma TimesMore(n: nat, x: nat)
    requires n > 0
    ensures Times(n, x) == Times(n - 1, x) + x
    ensures n == 1 ==> Times(n, x) == x && Times(0, 0) == 0
  {
    assert n * x == (n - 1) * x + x;
  }

  lemma FloorShortfall(total: nat, count: nat)
    requires count > 0
    ensures total - count < count * (total / count) <= total
  {
    assert total == count * (total / count) + total % count;
  }

  /** The integer division of each block over its layers never invents bytes, and loses
      fewer than two per layer; compute units are one per layer. */
  lemma {:induction false} ProfileAccounting(blocks: seq<ModelBlock>)
    requires forall b :: b in blocks ==> b.layerNames != []
    ensures var layers := ProfileLayers(blocks);
            && ParameterBytes(layers) + WorkingBytes(layers) <= ProfileBytes(blocks)
            && (blocks != [] ==>
                  ProfileBytes(blocks) - (ParameterBytes(layers) + WorkingBytes(layers)) < 2 * |layers|)
            && ComputeUnits(layers) == |layers| as real
  {
    if blocks != [] {
      var front, last := blocks[..|blocks| - 1], blocks[|blocks| - 1];
      assert last in blocks && last.layerNames != [];
      var n := |last.layerNames|;
      ProfileAccounting(front);
      BlockLayersSums(last, n);
      LayerSumsConcat(ProfileLayers(front), BlockLayers(last, n));
      FloorShortfall(last.parameterBytes, n);
      FloorShortfall(last.workingMemoryBytes, n);
    }
  }

  /** Over all blocks and any cut: the partitions' parameter and working bytes stay within
      the profile total and fall short of it by less than twice the layer count, and their
      compute units add up to exactly the number of layers. */
  lemma ProfileToPartitions(blocks: seq<ModelBlock>, splits: seq<nat>)
    requires blocks != [] && forall b :: b in blocks ==> b.layerNames != []
    requires ProfileLayers(blocks) != [] && IsCut(splits, 1, |ProfileLayers(blocks)|)
    ensures var layers := ProfileLayers(blocks);
            var (bytes, units) := SumOverRuns(Runs(layers, splits));
            && bytes <= ProfileBytes(blocks) < bytes + 2 * |layers|
            && units == |layers| as real
  {
    ProfileAccounting(blocks);
    CutToRuns(ProfileLayers(blocks), splits);
    CutConserves(Runs(ProfileLayers(blocks), splits));
  }
}
