# Verified model of the AIOps Kubernetes control plane

This project models three components of the control plane and proves what they promise.

- **Model-partition planning and replanning** (`Combinations`, `Scoring`, `PartitionModels`,
  `TrainingGraph`, `CandidateBuilder`, `FederatedBuilder`, `CandidateContents`, `Planner`,
  `Repartition`, `Admission`).
  A request is admitted, every contiguous cut of its layers over the participants is enumerated,
  a candidate with its execution graph is built, checked and scored for each, the best valid one
  is selected, and runtime feedback replans under accumulating exclusions.
- **Mutual supervision** (`SupervisionModels`, `Consensus`, `Negotiation`, `Supervision`,
  `SupervisionEnds`, `DeterministicAgents`). A proposed recovery action is peer-reviewed, perhaps
  revised, resolved by a consensus strategy, gated, executed, assessed and perhaps replanned. The
  adapters are arbitrary for the safety results and the four deterministic ones for convergence.
- **Experiment lifecycle** (`OperationLock`, `FaultLifecycle`, `JobRunner`, `JobLifecycle`,
  `EventLog`, `SessionStore`, `RequestCodec`, over the generic step machines of `Runs`). Fault
  injection and cleanup, the target lock, jobs under concurrent callers, the event log and its
  readers, the bounded session store, and the stored form of requests.

`Prelude` and `Text` hold shared vocabulary. The loops of the modelled operations are methods here,
proved equal to a function of their inputs, and the results are proved about that function.

## How the outside world appears

Adapters, executors, evidence, clocks, subprocesses and the event sink are inputs: fields of
`Negotiation.Peers`, `Supervision.World`, `FaultLifecycle.World` and `JobRunner.JobWorld` that may
answer or fail at any call. Concurrency is a step machine: a run of `OperationLock`, `JobLifecycle`
or `EventLog` is any interleaving of its events, one file-system call, store call or lock scope
each. Floats are reals, and `round(x, 6)` rounds half to even on them. Fresh identifiers and digests
are injective; text is ASCII.

## Where the code does not do what one would expect

- The federated full-model branch is handed no excluded splits, so a latency violation or a rejected
  placement selects the same candidate again: `Repartition.FullModelReselectsIff` for one replan,
  `Repartition.StarChainRepeatsIff` for a whole chain, with an input in `Repartition.FederatedStall`.
- Clearing a lock of unknown owner can remove a file that another process has just created and is
  still writing, because the token re-check finds no token in either. `OperationLock.RunKeepsIff` says
  that this is exactly when a live owner's file does not stay in place; two processes can then come to
  hold the lock, as they do in the run of `OperationLock.ExclusionFails`.
- The runtime takes only a mapping for a cleanup verdict (`FaultLifecycle.CleanupErrorIff`), and the
  fault adapter returns a dataclass, so with it every run that applied a fault and returns reports a
  cleanup error, successful deletes included: `FaultLifecycle.AdapterCleanupAlwaysFails`.
- If recording the cleanup event raises, neither the cleanup nor the release of the lock happens:
  exactly then by `FaultLifecycle.CleansUpIff`, with an input in `FaultLifecycle.FaultLeftBehind`.
- `request_cancel` reads and writes in two lock scopes, so a job that completes in between becomes
  non-terminal for good: `JobLifecycle.CompletedJobRevived`, exactly then by `JobLifecycle.RunKeepsIff`.
- An attempt that ends interrupted leaves its job completed: `JobRunner.VerdictIff`.
- A failed append uses up its sequence number: `EventLog.GaplessIff`.
- The event stream can end without the job's last event, when that is stored between the last read
  and the status check: `EventLog.StreamMissesLastEvent` is a run in which it does, and
  `EventLog.StopsCompleteIff` says that a run ends complete exactly when every stored entry was
  followed by a read.

## Model

| member | source | states |
|---|---|---|
| Combinations.ChooseExact | src/aiops_k8s_agents/model_partition_agent.py:332-340 | the enumerated split tuples are exactly the k-point cuts of the layer list, each once |
| Combinations.ChooseOrdered | src/aiops_k8s_agents/model_partition_agent.py:332-340 | they come in strictly increasing tuple order |
| Combinations.CutToRuns | src/aiops_k8s_agents/model_partition_agent.py:599-607 | reading a cut gives non-empty contiguous runs that concatenate back to the layers, and the cut is recovered from them |
| Combinations.RunsToCut | src/aiops_k8s_agents/model_partition_agent.py:599-607 | every division of the layers into non-empty contiguous runs is the reading of a cut |
| Combinations.AllCutsCount | src/aiops_k8s_agents/model_partition_agent.py:332-340 | there are at most 2^(layers-1) cuts of any size |
| Scoring.LoadPolicy | src/aiops_k8s_agents/model_partition_agent.py:63-122 | a policy loads exactly when it has a version, non-negative weights that sum to one within the tolerance, positive references and at least one replan attempt |
| Scoring.ScoreUnit | src/aiops_k8s_agents/model_partition_agent.py:964-980 | inference scores stay in [0, 1] after rounding, despite the weight tolerance |
| Scoring.ScoreTrainingUnit | src/aiops_k8s_agents/model_partition_agent.py:982-1006 | so do training scores |
| Scoring.RiskIsComputeShare | src/aiops_k8s_agents/model_partition_agent.py:1008-1027 | with a partition on every eligible device the predicted risk is the largest share of the compute |
| Scoring.ScoreMonotone | src/aiops_k8s_agents/model_partition_agent.py:964-980 | more latency, pressure or transfer never lowers the score |
| Scoring.LatencyWeighs | src/aiops_k8s_agents/model_partition_agent.py:964-980 | other things equal the unrounded score differs by the latency weight times the difference of the latency's share of its reference |
| Scoring.PressureWeighs | src/aiops_k8s_agents/model_partition_agent.py:964-980 | by the memory weight times the difference of the pressure, capped at 1 |
| Scoring.TransferWeighs | src/aiops_k8s_agents/model_partition_agent.py:964-980 | by the communication weight times the difference of the transfer's share of its reference |
| Scoring.ScoreOfOne | src/aiops_k8s_agents/model_partition_agent.py:964-980 | a weight of one makes the score that share, rounded to six places |
| Scoring.StepTimeWeighs | src/aiops_k8s_agents/model_partition_agent.py:982-1006 | the training score weighs the step time's share by its own weight |
| Scoring.ImbalanceWeighs | src/aiops_k8s_agents/model_partition_agent.py:982-1006 | the load imbalance by the load-balance weight |
| Scoring.TrainingPressureWeighs | src/aiops_k8s_agents/model_partition_agent.py:982-1006 | the capped pressure by the memory-pressure weight |
| Scoring.TrainingTransferWeighs | src/aiops_k8s_agents/model_partition_agent.py:982-1006 | the transfer's share by the communication weight |
| Scoring.RiskWeighs | src/aiops_k8s_agents/model_partition_agent.py:982-1006 | the predicted risk by the resilience weight |
| Scoring.ImbalanceIs | src/aiops_k8s_agents/model_partition_agent.py:691-704 | the load imbalance is the shortfall of the least busy partition as a share of the busiest |
| Scoring.RiskIs | src/aiops_k8s_agents/model_partition_agent.py:1008-1027 | the risk is the larger of the busiest partition's share of the compute and the unused share of the eligible devices |
| Scoring.RiskOfIdle | src/aiops_k8s_agents/model_partition_agent.py:1008-1027 | without compute only the unused devices count, and without devices nothing |
| Scoring.RewardBounds | src/aiops_k8s_agents/partition_evaluator.py:159-176 | the reported reward is in [-1, 1] and not positive for an invalid plan |
| Scoring.RewardIs | src/aiops_k8s_agents/partition_evaluator.py:159-176 | within the bounds the reported reward is the reward, rounded, and nothing positive for an invalid plan |
| Scoring.InferenceRewardIs | src/aiops_k8s_agents/partition_evaluator.py:183-225 | the inference reward weighs the latency component, what pressure leaves of 1 and the transfer's efficiency, by the strategy's weights or by 0.25, 0.20 and 0.15 on top of 0.40 for or against |
| Scoring.LatencyEfficiencyIs | src/aiops_k8s_agents/partition_evaluator.py:183-225 | under a limit the latency component is what is left of it, and otherwise what the reference makes up of reference and latency |
| Scoring.TrainingRewardIs | src/aiops_k8s_agents/partition_evaluator.py:227-268 | the training reward weighs the efficiency of step time and transfer and what imbalance, pressure and risk leave of 1, each by its own weight |
| Scoring.EvidenceIs | src/aiops_k8s_agents/partition_evaluator.py:104-158 | runtime evidence goes before the plan's estimates, and those before the references |
| Scoring.InferenceRewardAntitone | src/aiops_k8s_agents/partition_evaluator.py:183-225 | more latency, pressure or transfer never raises the reward, under strategy or legacy weights |
| Scoring.DominanceAgreement | src/aiops_k8s_agents/partition_evaluator.py:139-225 | planner and evaluator agree: a valid inference plan that is no worse in latency, pressure and transfer scores no higher and is rewarded no lower |
| Scoring.TrainingDominanceAgreement | src/aiops_k8s_agents/partition_evaluator.py:139-268 | the same for training plans, over step time, imbalance, pressure, transfer and risk: unrounded estimates in the score, rounded ones in the reported reward |
| Scoring.ValidPlansFirst | src/aiops_k8s_agents/partition_evaluator.py:104-176 | a valid plan is never rewarded below an invalid or missing one, whatever evidence is used for either |
| PartitionModels.PartitionIdInjective | src/aiops_k8s_agents/model_partition_agent.py:609-630 | generated partition ids are distinct (the decimal rendering is inverted) |
| TrainingGraph.BuildTrainingGraph | src/aiops_k8s_agents/model_partition_agent.py:877-962 | the loops build the specified nodes, edges and totals |
| TrainingGraph.TrainingGraphIsOnePath | src/aiops_k8s_agents/model_partition_agent.py:877-962 | over k chained partitions the graph is one simple path of 2k+1 distinct nodes and 2k edges, gradient hop on one device in the middle, aggregation last |
| TrainingGraph.NodesSitWithPartitions | src/aiops_k8s_agents/model_partition_agent.py:877-962 | each forward and backward node sits on its partition's device, the aggregation on the first |
| TrainingGraph.EdgesCarry | src/aiops_k8s_agents/model_partition_agent.py:877-962 | the backward edges mirror bytes and times of the forward ones; the hop and the aggregation take no time |
| TrainingGraph.SimplePathIsAcyclic | src/aiops_k8s_agents/model_partition_agent.py:877-962 | no walk in such a graph returns to where it started |
| TrainingGraph.ReportedBytesAreNetworkBytes | src/aiops_k8s_agents/model_partition_agent.py:877-962 | the reported transfer is three times the forward bytes, which is what all edges but the gradient hop carry |
| CandidateBuilder.BuildCandidate | src/aiops_k8s_agents/model_partition_agent.py:584-737 | the two passes and the tail compute the specified candidate |
| CandidateBuilder.PartitionPass | src/aiops_k8s_agents/model_partition_agent.py:599-635 | the participant loop: partitions, times, pressures and memory reasons in participant order |
| CandidateBuilder.LinkPass | src/aiops_k8s_agents/model_partition_agent.py:641-665 | the neighbour loop: edges, transfer totals and link reasons |
| CandidateBuilder.ValidIff | src/aiops_k8s_agents/model_partition_agent.py:584-737 | a candidate is valid exactly when every partition fits its device and its limit, every hop has a link that is not excluded, and the transfer cap and latency limit hold |
| CandidateBuilder.ValidForwardChain | src/aiops_k8s_agents/model_partition_agent.py:641-665 | a valid candidate has one forward edge per neighbouring pair, chaining the partitions |
| CandidateBuilder.ValidTrainingCandidate | src/aiops_k8s_agents/model_partition_agent.py:638-687 | a valid training candidate's graph is one simple path; it reports three times the forward bytes and twice compute plus forward transfer as step time |
| CandidateBuilder.ValidTrainingCandidateAcyclic | src/aiops_k8s_agents/model_partition_agent.py:876-962 | its graph is acyclic |
| CandidateBuilder.CandidateScoreUnit | src/aiops_k8s_agents/model_partition_agent.py:691-737 | every candidate's score is in [0, 1], valid or not |
| CandidateBuilder.CutConserves | src/aiops_k8s_agents/model_partition_agent.py:606-621 | over any cut the runs' parameter and working bytes and compute units add up to those of all layers |
| CandidateBuilder.DemandIs | src/aiops_k8s_agents/model_partition_agent.py:609-613 | a run needs its parameter and working bytes plus the largest activation of any of its layers |
| CandidateContents.PartitionIs | src/aiops_k8s_agents/model_partition_agent.py:608-630 | the n-th partition sits on the n-th participant, lists the names and compute of the n-th run, and reports that need |
| CandidateContents.InferenceGraphIs | src/aiops_k8s_agents/model_partition_agent.py:636-665 | an inference graph has one node per partition on its device, and the hops as edges |
| CandidateContents.ForwardEdgeIs | src/aiops_k8s_agents/model_partition_agent.py:641-665 | the n-th edge carries the bytes that cross the n-th boundary, in the time that latency and bandwidth of its link take |
| CandidateContents.CandidateReports | src/aiops_k8s_agents/model_partition_agent.py:666-737 | latency, bytes, imbalance, pressure, risk and score are those of the times its devices and links take, the pressures on the devices and the bytes over the boundaries |
| CandidateContents.RejectedForMemory | src/aiops_k8s_agents/model_partition_agent.py:631-635 | a candidate names a device for memory exactly if a run on it needs more than its memory less the headroom, or more than an earlier limit allows |
| CandidateContents.RejectedForLinks | src/aiops_k8s_agents/model_partition_agent.py:641-652 | it names neighbours exactly if their link is excluded or missing |
| CandidateContents.RejectedForCaps | src/aiops_k8s_agents/model_partition_agent.py:705-714 | it names a cap exactly if its bytes or latency exceed it |
| FederatedBuilder.BuildFullModelCandidate | src/aiops_k8s_agents/model_partition_agent.py:739-875 | the replica and upload loops compute the specified candidate |
| FederatedBuilder.FullModelValidIff | src/aiops_k8s_agents/model_partition_agent.py:739-875 | it is valid exactly when every replica fits its device and its limit, every upload to participant 0 has a usable link, and one parameter upload per remote participant, with the slowest replica and upload, keeps within both caps |
| FederatedBuilder.FullModelTransfer | src/aiops_k8s_agents/model_partition_agent.py:739-875 | a valid one reports one full parameter upload per remote participant |
| FederatedBuilder.FullModelScoreUnit | src/aiops_k8s_agents/model_partition_agent.py:739-875 | every one scores in [0, 1], valid or not |
| CandidateContents.ReplicaIs | src/aiops_k8s_agents/model_partition_agent.py:758-793 | every replica lists all layers and reports all parameters and working memory and the largest activation as its need |
| CandidateContents.ReplicaFitsIff | src/aiops_k8s_agents/model_partition_agent.py:758-793 | it fits exactly if that is at most the device's memory less the headroom, and at most an earlier limit |
| CandidateContents.StarGraphIs | src/aiops_k8s_agents/model_partition_agent.py:794-825 | the nodes are the replicas on their devices and an aggregation on the first |
| CandidateContents.UploadEdgeIs | src/aiops_k8s_agents/model_partition_agent.py:795-825 | each upload carries one set of parameters in the time its link takes |
| CandidateContents.FullModelReports | src/aiops_k8s_agents/model_partition_agent.py:826-875 | step time, bytes, imbalance, pressure, risk and score follow from the replicas' times and pressures and the uploads |
| CandidateContents.StarRejectedFor | src/aiops_k8s_agents/model_partition_agent.py:784-812 | it names a device or an upload exactly for the memory or link reason that holds of it |
| Planner.SelectionIsBest | src/aiops_k8s_agents/partition_ranking.py:107-124 | the selector returns a valid candidate that no valid one outranks, and none exactly when none is valid |
| Planner.SelectedPlanIsACut | src/aiops_k8s_agents/model_partition_agent.py:298-406 | a selected split plan is the candidate of an admissible cut over the remaining participants |
| Planner.SelectedPlanIsOptimal | src/aiops_k8s_agents/model_partition_agent.py:332-358 | over every admissible division into contiguous runs, no valid one scores lower than the selected plan, and equal scores fall to the first split points |
| Planner.PlanningSucceedsIff | src/aiops_k8s_agents/model_partition_agent.py:298-406 | planning succeeds exactly when some admissible division is valid |
| Planner.PlanEnds | src/aiops_k8s_agents/model_partition_agent.py:327-406 | a plan keeps every other candidate as an alternative; a failure lists all of them in rank order, or none where participants are too few |
| Planner.StarPlanEnds | src/aiops_k8s_agents/model_partition_agent.py:318-326 | the federated branch plans exactly the one star over the remaining participants if that is valid |
| Repartition.MergeTightens | src/aiops_k8s_agents/partition_feedback.py:177-193 | merging feedback about a candidate only adds exclusions and only lowers memory limits, strictly for the device of a memory signal |
| Repartition.MergeRejects | src/aiops_k8s_agents/partition_feedback.py:147-246 | after feedback that names something the candidate uses, the candidate no longer passes |
| Repartition.FeedbackExcludes | src/aiops_k8s_agents/partition_feedback.py:147-193 | each kind of feedback adds exactly its device, link, split or candidate, or limits its device to less than its partition needed |
| Repartition.AnalysedIff | src/aiops_k8s_agents/partition_feedback.py:210-246 | feedback is analysed exactly if it names the plan and its version, and split feedback only with a candidate |
| Repartition.ReplansIff | src/aiops_k8s_agents/model_partition_agent.py:250-296 | a replan plans exactly within the allowed attempts, on a directive without errors, for a plan with a candidate, when planning under its exclusions succeeds |
| Repartition.ExcludedStaysOut | src/aiops_k8s_agents/model_partition_agent.py:250-358 | along a replan chain no excluded device, link or split reappears, and memory limits only fall |
| Repartition.NoCandidateTwice | src/aiops_k8s_agents/model_partition_agent.py:250-358 | no candidate, as assignment and cut, is selected twice along a chain |
| Repartition.ChainBounded | src/aiops_k8s_agents/model_partition_agent.py:250-358 | device, link and split signals number at most participants + links + 2^(layers-1), memory signals at most what the limits can fall |
| Repartition.ServiceChainBounded | src/aiops_k8s_agents/partition_service.py:303-376 | as each replan is attempted under the version of the plan it replaces and carries the next, a lineage is numbered 1, 2, 3, ... and holds no more replans than the policy allows attempts |
| Repartition.ServiceChainIsChain | src/aiops_k8s_agents/partition_service.py:303-376 | a lineage whose feedback names what its plans use is a replan chain, so the results on chains hold of it |
| Repartition.FullModelReselectsIff | src/aiops_k8s_agents/model_partition_agent.py:318-326 | the federated branch selects the same candidate again exactly for a latency violation or a rejected placement |
| Repartition.StarChainRepeatsIff | src/aiops_k8s_agents/model_partition_agent.py:250-326 | along a federated chain two plans are the same exactly when all feedback in between is latency violations and rejected placements |
| Repartition.FederatedStall | src/aiops_k8s_agents/model_partition_agent.py:408-465 | a concrete round, accepted by the service's parser, in which it does |
| Admission.PriorityOrder | src/aiops_k8s_agents/federated_coordination_adapter.py:125-219 | participants are ordered by priority and the first, the aggregator, has the least |
| Admission.SamePairs | src/aiops_k8s_agents/federated_coordination_adapter.py:477-503 | adapter check, feasibility check and planner demand the same pairs: a chain, or a star into participant 0 |
| Admission.RefusedFor | src/aiops_k8s_agents/partition_common.py:155-193 | a request is refused first for too few participants or layers, then for a missing device, then for a missing link |
| Admission.ModesPlanAs | src/aiops_k8s_agents/partition_common.py:122-136 | federated learning plans a star, federated split learning a cut with training intent, distributed inference one without |
| Admission.SplitBuilderNeedsPairs | src/aiops_k8s_agents/model_partition_agent.py:641-665 | those are the planner's pairs: without exclusions a split candidate has all its links exactly when each of them is linked |
| Admission.StarBuilderNeedsPairs | src/aiops_k8s_agents/model_partition_agent.py:795-825 | and a full-model candidate all its uploads |
| Admission.AdapterImpliesFeasible | src/aiops_k8s_agents/partition_common.py:155-193 | what the adapter accepts, the common check rejects only for want of layers |
| Admission.AdmittedSplitCandidates | src/aiops_k8s_agents/partition_common.py:154-193 | on an admitted request without exclusions a candidate never misses a device or link, and is valid exactly when memory headroom, transfer cap and latency limit hold |
| Admission.AdmittedFullModelCandidate | src/aiops_k8s_agents/partition_common.py:154-193 | the same for the federated star: no missing device or link, one parameter upload per remote participant, and valid exactly when the replicas fit and the caps hold |
| Admission.LayersFromProfile | src/aiops_k8s_agents/partition_common.py:138-153 | the nested loops produce the layers of every block in order |
| Admission.BlockLayerIs | src/aiops_k8s_agents/partition_common.py:138-153 | each layer keeps its name, counts one compute unit, may produce the whole activation and takes an equal share of the rest, rounded down |
| Admission.ProfileToPartitions | src/aiops_k8s_agents/partition_common.py:137-152 | from block profile to partitions of any cut no byte is invented, fewer than two per layer are lost, and compute units are conserved |
| Consensus.ApprovedIff | src/aiops_k8s_agents/consensus.py:28-163 | approval in terms of the unordered reviews, for each strategy: no blocking veto, no enabled veto, or at least half of a positive weight; scores in [0, 1] |
| Consensus.OrderIndependence | src/aiops_k8s_agents/consensus.py:180-193 | permuting the reviews changes no approval, and with distinct keys no field of the outcome |
| Consensus.OnlyEnabledCount | src/aiops_k8s_agents/consensus.py:165-171 | disabled and unknown reviewers have no part in the outcome |
| Consensus.ApproveNeverRevokes | src/aiops_k8s_agents/consensus.py:65-163 | adding an approval never revokes approval, under any strategy |
| Consensus.UnanimousImpliesRoleBased | src/aiops_k8s_agents/consensus.py:65-128 | unanimous approval implies role-based approval for every scope |
| Consensus.RoleBasedVetoPartition | src/aiops_k8s_agents/consensus.py:65-103 | every enabled veto is in exactly one of the blocking and non-blocking lists |
| Consensus.BindingDecides | src/aiops_k8s_agents/consensus.py:165-178 | a reviewer counts exactly if its binding is enabled, with the binding's weight and scopes |
| Consensus.BlockersAre | src/aiops_k8s_agents/consensus.py:65-163 | who is listed as blocking: enabled vetoes of a matching scope, or all enabled ones, or none, by strategy |
| Consensus.ObjectorsAre | src/aiops_k8s_agents/consensus.py:65-163 | and the vetoes that count without blocking are listed as objections |
| Consensus.RevisionsAre | src/aiops_k8s_agents/consensus.py:28-163 | the revisions are what enabled reviewers ask for |
| Consensus.MajorityScoreIs | src/aiops_k8s_agents/consensus.py:130-163 | by majority the score is the approving part of the weight |
| Consensus.ConsideredInOrder | src/aiops_k8s_agents/consensus.py:180-193 | reviews are considered in the profile's order of agents, then of ids |
| Negotiation.ReviewDecision | src/aiops_k8s_agents/mutual_supervision.py:921-966 | the collection loop gathers each reviewer's normalised answer in matrix order and stops at the first bad one |
| Negotiation.CollectedTargetDecision | src/aiops_k8s_agents/mutual_supervision.py:1344-1402 | every collected review targets the decision under review and comes from a listed adapter that may review |
| Negotiation.AnswerIs | src/aiops_k8s_agents/mutual_supervision.py:1344-1402 | which reviews are taken, which make the collection fail, and who gives no answer |
| Negotiation.CollectedIff | src/aiops_k8s_agents/mutual_supervision.py:921-966 | collecting succeeds exactly if no answer is bad, and then holds every good answer once, in matrix order |
| Negotiation.RoundEnds | src/aiops_k8s_agents/mutual_supervision.py:760-873 | a round is rejected exactly without consent, approved exactly with consent and no enabled reviewer asking for a revision, and aborted exactly for a bad answer; consent is read off the reviews, the bindings and the kinds of action each veto scope bears on |
| Negotiation.RoleVetoRejects | src/aiops_k8s_agents/mutual_supervision.py:1601-1623 | with the veto scopes of the shipped four-agent profile, a round is rejected exactly for an enabled veto of the application agent, of the availability agent unless it scales out, or of the infrastructure or cost agent if it does |
| Negotiation.RevisionIs | src/aiops_k8s_agents/mutual_supervision.py:1558-1598 | a scale-out takes the least suggested replicas, another action the first suggestion, and another kind or missing replicas are refused |
| Negotiation.RevisedRoundEnds | src/aiops_k8s_agents/mutual_supervision.py:789-850 | a round goes on exactly with a revision that makes sense for the run |
| Negotiation.RoundRecords | src/aiops_k8s_agents/mutual_supervision.py:760-873 | its record lists the reviews, who abstained and what blocked |
| Negotiation.HoldRound | src/aiops_k8s_agents/mutual_supervision.py:721-873 | one round: decision, reviews, consensus, revision, and their records |
| Negotiation.Negotiate | src/aiops_k8s_agents/mutual_supervision.py:699-877 | the round loop computes the specified negotiation and its trace |
| Negotiation.NegotiationTrace | src/aiops_k8s_agents/mutual_supervision.py:721-877 | rounds are numbered on from the offset with one decision each, within the allowed number; only the last can be approved, exactly when an action is settled |
| Negotiation.NegotiationRounds | src/aiops_k8s_agents/mutual_supervision.py:721-877 | the rounds are held one after the other on the candidate and its revisions, until one asks for none or the profile allows no more |
| Negotiation.SettledActionReviewed | src/aiops_k8s_agents/mutual_supervision.py:721-877 | a settled action was itself proposed and reviewed in a last round that approved it and asked for no revision |
| Supervision.PostExecutionReviews | src/aiops_k8s_agents/mutual_supervision.py:879-919 | the loop reports whether every post-review was proper and whether all approve |
| Supervision.SensibleProposals | src/aiops_k8s_agents/mutual_supervision.py:309-342 | the candidates are the proposals without a semantic error, in order |
| Supervision.NegotiationProjects | src/aiops_k8s_agents/mutual_supervision.py:699-877 | a negotiation's records are exactly its decisions and rounds, and it dispatches nothing |
| Supervision.ExecutionFits | src/aiops_k8s_agents/mutual_supervision.py:458-664 | an execution dispatches exactly unless the target is locked by another, and its end fits what was dispatched, measured and reviewed |
| Supervision.ExecutionSucceedsIff | src/aiops_k8s_agents/mutual_supervision.py:458-664 | it ends the run with success exactly when it finished valid and uninterrupted and, but for a dry run, was measured as recovered and confirmed by every post-reviewer |
| Supervision.TriedKeeps | src/aiops_k8s_agents/mutual_supervision.py:364-667 | one candidate keeps the trace gated and numbered and dispatches at most once, as its end says |
| Supervision.RunIsSafe | src/aiops_k8s_agents/mutual_supervision.py:198-697 | for arbitrary adapters and every exit: each dispatched action targets the run's deployment, lies in the action space, raises the replicas if it scales out, has valid and allow-listed names, carries replicas exactly if it scales out and then within the limits, and was itself approved; rounds are numbered over the run; dispatches are bounded by the attempts; `valid` holds exactly for the three successful statuses, and no action is required only where the diagnosis says so |
| Supervision.Run | src/aiops_k8s_agents/mutual_supervision.py:198-697 | the run and its loop come to exactly the specified outcome and trace, in which candidates are tried in order until one raises or settles the run, and which is safe |
| Supervision.AcceptsIff | src/aiops_k8s_agents/validator.py:35-84 | the validator accepts exactly what the allow lists, the name pattern and the replica limits permit |
| SupervisionEnds.SettledIsDispatched | src/aiops_k8s_agents/mutual_supervision.py:364-664 | the converse for every run: whenever a candidate's turn comes, the action settled on is dispatched if it makes sense and is permitted, unless a checkpoint raises or the target is locked; and otherwise the run ends as it should or leaves the turn to the next candidate |
| SupervisionEnds.DispatchedUnopposed | src/aiops_k8s_agents/mutual_supervision.py:364-664 | on every exit each dispatched action follows reviews that consent to it by the strategy, no enabled reviewer asking for a revision |
| SupervisionEnds.DispatchedIff | src/aiops_k8s_agents/mutual_supervision.py:412-520 | a settled action is dispatched exactly if it passes both gates and the lock, right after its validation |
| SupervisionEnds.SettledEnds | src/aiops_k8s_agents/mutual_supervision.py:412-664 | which end its attempt comes to, in terms of gates, lock, executor, measurement and post-reviews |
| SupervisionEnds.EarlyEnds | src/aiops_k8s_agents/mutual_supervision.py:198-307 | before any candidate: no action is required exactly if the one diagnosing adapter declines with the metric at hand; the run goes on exactly if it approves and the one proposing adapter proposes; and when it raises |
| SupervisionEnds.CandidatesAre | src/aiops_k8s_agents/mutual_supervision.py:309-364 | the candidates are the sensible proposals, cut to the allowed attempts |
| SupervisionEnds.NothingHelped | src/aiops_k8s_agents/mutual_supervision.py:669-697 | when no candidate ends the run, it reports a safe failure |
| DeterministicAgents.NegotiationConverges | src/aiops_k8s_agents/mutual_supervision.py:721-877 | among the deterministic agents, under any strategy, a negotiation never fails and takes at most two rounds; it ends without verdict exactly when one round is allowed and asks for a revision |
| DeterministicAgents.OpinionsAre | src/aiops_k8s_agents/agent_adapters.py:127-464 | what each of the four agents makes of an action, and the revision the cost agent suggests |
| DeterministicAgents.TargetReplicasIs | src/aiops_k8s_agents/application_agent.py:80-154 | the proposed replicas are one more than desired or what is recommended if that is more, at most five |
| DeterministicAgents.PostApprovalsAre | src/aiops_k8s_agents/agent_adapters.py:166-491 | what each agent asks for after execution |
| DeterministicAgents.TeamRound | src/aiops_k8s_agents/agent_adapters.py:418-464 | a round of the four agents revises only as the cost agent does |
| DeterministicAgents.ApprovalWithinCost | src/aiops_k8s_agents/agent_adapters.py:418-464 | an approval without revisions that the cost agent reviewed to blocking effect respects its maximum |
| DeterministicAgents.ApprovedReplicasBounded | src/aiops_k8s_agents/agent_adapters.py:334-464 | then the approved replicas exceed the desired ones and neither the proposal nor the cost maximum |
| DeterministicAgents.ProposalNegotiated | src/aiops_k8s_agents/application_agent.py:80-154 | the application agent's scale-out survives the check exactly when fewer than five replicas are desired, and is approved only within five and the cost maximum |
| DeterministicAgents.ConfirmationIsMeasured | src/aiops_k8s_agents/agent_adapters.py:166-491 | whether the four agents confirm a settled action after execution depends only on what was measured |
| OperationLock.StepKeepsIff | src/aiops_k8s_agents/operation_lock.py:38-133 | a step breaks the owners' files exactly when it clears an unfinished file of a live process |
| OperationLock.RunKeepsIff | src/aiops_k8s_agents/operation_lock.py:38-133 | over any interleaving ownership holds throughout exactly when no such step occurs |
| OperationLock.MutualExclusion | src/aiops_k8s_agents/operation_lock.py:38-133 | where ownership holds at most one live process owns the lock |
| OperationLock.OnlyOwnerRemoves | src/aiops_k8s_agents/operation_lock.py:84-133 | only its owner makes a live owner's file disappear |
| OperationLock.PromptRunsExclude | src/aiops_k8s_agents/operation_lock.py:96-133 | if no unreadable file is ever judged expired, ownership holds throughout every run, with dead owners' files cleared meanwhile |
| OperationLock.TwoHolders | src/aiops_k8s_agents/operation_lock.py:123-133 | two live processes that judged an unreadable file expired can both come to hold |
| OperationLock.ExclusionFails | src/aiops_k8s_agents/operation_lock.py:38-133 | a run from the start in which they do |
| OperationLock.SoloRun | src/aiops_k8s_agents/operation_lock.py:38-133 | alone, a process obtains the lock exactly when no file is there, its owner is dead, or it is unreadable and old |
| OperationLock.SoloExit | src/aiops_k8s_agents/operation_lock.py:84-94 | alone, a holder on its way out removes the file that carries its token and no other |
| OperationLock.LockPath.ClearStale | src/aiops_k8s_agents/operation_lock.py:96-133 | clears exactly a file whose owner is dead, or that is unreadable and old |
| OperationLock.LockPath.Enter | src/aiops_k8s_agents/operation_lock.py:38-82 | the two-attempt loop acquires exactly in those cases and otherwise leaves the file |
| OperationLock.LockPath.Exit | src/aiops_k8s_agents/operation_lock.py:84-94 | removes only its own token's file |
| FaultLifecycle.AppliesIff | src/aiops_k8s_agents/experiment_runtime.py:346-400 | a run applies a fault exactly if it is a real chaos run that is admitted, has the lock, finds the installation ready and the manifest safe, and no record or checkpoint before raises |
| FaultLifecycle.ActsAre | src/aiops_k8s_agents/chaos_adapter.py:180-212 | when it takes the lock, and that it waits for the fault exactly after an apply that succeeded and settled |
| FaultLifecycle.CleansUpIff | src/aiops_k8s_agents/experiment_runtime.py:433-447 | an applied fault is deleted and the lock released exactly unless recording the cleanup event raises |
| FaultLifecycle.AppliesAreBracketed | src/aiops_k8s_agents/experiment_runtime.py:330-451 | then an apply is followed by exactly one delete, with the lock held from before the apply until after it |
| FaultLifecycle.EscapesIff | src/aiops_k8s_agents/experiment_runtime.py:330-506 | an exception leaves the run exactly when recording its last event raised |
| FaultLifecycle.CleanupErrorIff | src/aiops_k8s_agents/experiment_runtime.py:437-449 | a run that returns reports a cleanup error exactly when it applied a fault and the cleanup did not answer with a mapping that says valid |
| FaultLifecycle.AdapterCleanupAlwaysFails | src/aiops_k8s_agents/chaos_adapter.py:214-226 | with the Chaos Mesh adapter it does so exactly when it applied a fault, whether or not the delete succeeded |
| FaultLifecycle.CoordinatorStatusStands | src/aiops_k8s_agents/experiment_runtime.py:400-451 | a coordinator status is reported only if lock and fault were in effect |
| FaultLifecycle.StatusIs | src/aiops_k8s_agents/experiment_runtime.py:330-451 | a run that returns reports the first thing that stopped it, with the failure of admission, lock, checkpoint or coordinator, blocked for an unready chaos installation, failed for a raising record, unsafe manifest or failed injection, and the coordinator's status otherwise |
| FaultLifecycle.StagesAre | src/aiops_k8s_agents/experiment_runtime.py:330-506 | the stages of a run that nothing stops, in order |
| FaultLifecycle.StagesReached | src/aiops_k8s_agents/experiment_runtime.py:330-506 | how far a run got shows in its stages |
| FaultLifecycle.RecordsBelongTo | src/aiops_k8s_agents/experiment_runtime.py:198-231 | the stage of each kind of coordinator record |
| FaultLifecycle.FaultLeftBehind | src/aiops_k8s_agents/experiment_runtime.py:433-447 | a run that leaves fault and lock behind |
| FaultLifecycle.Experiment.Emit | src/aiops_k8s_agents/experiment_runtime.py:215-252 | events are appended with the next number whether or not the sink raises |
| FaultLifecycle.Experiment.Inject | src/aiops_k8s_agents/chaos_adapter.py:180-212 | once an apply was attempted an application is returned, whatever fails |
| FaultLifecycle.Experiment.Settle | src/aiops_k8s_agents/experiment_runtime.py:433-447 | the `finally` records, cleans up and releases in this order, and stops short when recording raises |
| FaultLifecycle.Experiment.RunExperiment | src/aiops_k8s_agents/experiment_runtime.py:330-506 | over every failure point, the run performs exactly the specified actions, records the specified events in order and returns or escapes as specified |
| JobRunner.VerdictIff | src/aiops_k8s_agents/experiment_job_runner.py:157-165 | the verdict is completion exactly when no attempt was cancelled, blocked or failed, and otherwise the last that was |
| JobRunner.RunJob | src/aiops_k8s_agents/experiment_job_runner.py:114-200 | the exact stored status, attempts and counts; completion exactly when every repetition ended harmlessly and the flag was never seen, the final check included |
| JobRunner.AttemptsAccountedFor | src/aiops_k8s_agents/experiment_job_runner.py:176-190 | the counts cover every attempt but the cancelled and interrupted ones |
| JobRunner.CountsAsCompleted | src/aiops_k8s_agents/experiment_job_runner.py:252-261 | which runtime statuses count as completed, however spaced and capitalised |
| JobRunner.CountsAsBlocked | src/aiops_k8s_agents/experiment_job_runner.py:264-271 | which as blocked |
| JobRunner.CountsAsCancelled | src/aiops_k8s_agents/experiment_job_runner.py:262-263 | which as cancelled |
| JobRunner.CountsAsFailed | src/aiops_k8s_agents/experiment_job_runner.py:252-274 | and everything unknown as failed |
| JobLifecycle.StepKeepsIff | src/aiops_k8s_agents/experiment_jobs.py:223-270 | one step breaks the store invariant exactly when it writes a cancellation on a terminal row |
| JobLifecycle.RunKeepsIff | src/aiops_k8s_agents/experiment_jobs.py:256-270 | over any interleaving, restarts included, it holds throughout exactly when that never happens |
| JobLifecycle.InvMeaning | src/aiops_k8s_agents/experiment_job_runner.py:43-67 | a non-terminal job has a registered thread once submit returned, and a completed job had no cancelled, blocked or failed attempt |
| JobLifecycle.TerminalForever | src/aiops_k8s_agents/experiment_jobs.py:134-168 | a terminal job's row never changes again |
| JobLifecycle.FlagRulesOutCompletion | src/aiops_k8s_agents/experiment_job_runner.py:166-175 | a flag set before the final check rules out completion for good |
| JobLifecycle.LoopLeft | src/aiops_k8s_agents/experiment_job_runner.py:114-200 | a thread that leaves its loop stores its attempts with the status of `_run_job`: cancelled for a seen flag or a cancelled attempt, failed or cancelled for an exception, and otherwise the verdict, which the flag turns from completed to cancelled |
| JobLifecycle.AttemptsMade | src/aiops_k8s_agents/experiment_job_runner.py:126-165 | running through attempts a thread comes to the verdict on all of them |
| JobLifecycle.CancelAlone | src/aiops_k8s_agents/experiment_jobs.py:256-270 | a cancellation that nobody interferes with leaves a terminal row, turns another to cancelling and sets the flag of the registered thread |
| JobLifecycle.CompletedJobRevived | src/aiops_k8s_agents/experiment_jobs.py:256-270 | a run in which a job with a completed attempt is stored as completed and then becomes non-terminal with no thread left |
| EventLog.GaplessIff | src/aiops_k8s_agents/experiment_job_runner.py:207-237 | the log is numbered 1, 2, 3, ... exactly when no event is stored after one that failed |
| EventLog.PersistentSink.Emit | src/aiops_k8s_agents/experiment_job_runner.py:220-237 | each event is stored under the next number with its attempt, and its key is always new |
| EventLog.ReadsTheRest | src/aiops_k8s_agents/experiment_jobs.py:204-221 | reading from the cursor yields exactly what the reader lacks |
| EventLog.ReaderHasPrefix | src/aiops_k8s_agents/experiment_job_runner.py:74-89 | at every moment of every run a reader holds an exact, ordered, repetition-free prefix of the log |
| EventLog.ReadAfterTerminalCompletes | src/aiops_k8s_agents/experiment_job_runner.py:74-89 | a read that starts after the job is terminal completes the reader |
| EventLog.CompleteIff | src/aiops_k8s_agents/experiment_job_runner.py:74-89 | after any run the reader holds the whole log exactly when every stored entry was followed by a read |
| EventLog.StopsCompleteIff | src/aiops_k8s_agents/control_plane_web.py:939-959 | a stream that ended gave the whole log exactly when every stored entry was followed by a read: none came between its last read and its last status check |
| EventLog.StreamMissesLastEvent | src/aiops_k8s_agents/control_plane_web.py:939-959 | a run in which it ends one event short |
| SessionStore.LatestIff | src/aiops_k8s_agents/experiment_session.py:60-84 | the view of a history holds exactly the last value of every id, each id once |
| SessionStore.LatestByRecency | src/aiops_k8s_agents/experiment_session.py:82-84 | it is ordered newest first |
| SessionStore.PutCommutes | src/aiops_k8s_agents/experiment_session.py:68-76 | putting into the bounded view is the bounded view of putting into the full history |
| SessionStore.InMemorySessionStore.Put | src/aiops_k8s_agents/experiment_session.py:68-76 | after every put the store equals the bounded view of its history, with distinct ids |
| SessionStore.InMemorySessionStore.Get | src/aiops_k8s_agents/experiment_session.py:78-80 | a found session is the last put under its id |
| SessionStore.InMemorySessionStore.List | src/aiops_k8s_agents/experiment_session.py:82-84 | lists the most recent distinct ids, newest first |
| RequestCodec.ReloadLists | src/aiops_k8s_agents/experiment_runtime_models.py:217-260 | by structural induction, reloading a stored value succeeds and gives it back with its sets as tuples |
| RequestCodec.ListedStoresSame | src/aiops_k8s_agents/experiment_runtime_models.py:241-260 | turning sets into tuples changes no stored form, and no value exactly when it holds no set |
| RequestCodec.ConstructNormalises | src/aiops_k8s_agents/experiment_runtime_models.py:58-103 | every accepted request is fixed by normalising again |
| RequestCodec.AcceptedIff | src/aiops_k8s_agents/experiment_runtime_models.py:58-103 | a request is accepted exactly if its texts are filled, its choices known, a benchmark named where needed, its context storable, its repetitions positive and its threshold a finite number; and it holds the trimmed and folded texts, the choices and the numbers it was given |
| RequestCodec.StorableIff | src/aiops_k8s_agents/experiment_runtime_models.py:217-239 | freezing accepts exactly finite JSON-like values, texts, enum members and sets without mappings in them |
| RequestCodec.EveryJsonReloads | src/aiops_k8s_agents/experiment_runtime_models.py:217-260 | every JSON value loads, freezes and is stored as it was |
| RequestCodec.RoundTrip | src/aiops_k8s_agents/experiment_jobs.py:383-399 | every accepted request reloads from its stored form, is stored the same again, and equals the original exactly when its context holds no set |
| RequestCodec.OldRowsReload | src/aiops_k8s_agents/experiment_jobs.py:383-399 | a row stored before the last five keys existed reloads with their defaults |

## Left out

- Learned ranking, feature vectors, model artefacts and the learned-guarded selector mode: only the deterministic ranker is modelled.
- Plan metadata (`_with_replan_metadata`, `_with_v2_metadata`): identifiers, signatures and hand-off status; replanning keeps only the plan version.
- Throughput and availability evidence of the evaluator: reported beside the reward, not part of it.
- Dispatch of requests to planning strategies and the parsers of requests, devices and links: taken as what `PartitionModels.ParsedPlan` and `Planner.Admitted` state.
- Supervision.Run: does not state `human_review_required` or the report's other fields, and takes the record store as never failing.
- The agent registry, contribution counts and rewards (with the loop that collects them), and the conversation-backed adapters: adapters are arbitrary answers behind the output checks.
- OperationLock.Advance: the token re-check and the unlink of clearing are one step, as are creation and its existence check; process ids are not reused, and hosts are not distinguished.
- FaultLifecycle.Experiment.RunExperiment: the preflight entry point, session recording and the evaluation of the recovery are not modelled, and releasing the lock does not fail.
- JobLifecycle.Next: deleting terminal jobs is not an event, and a restart ends the old threads and interrupts their jobs in one step.
- SQLite, kubectl, Prometheus, JSON text and the file system: their calls are steps with free results.
- RequestCodec.Freeze: keys of a mapping are text already, and the order of a frozen set is a parameter.
- The HTTP API beyond the end of the event stream, the command line, the user interface and the document builders.
- The sibling runners and stores for detection benchmarks and recovery comparisons: near-duplicates of the job runner and store.
