/** Actions, reviews and protocol profiles of the mutual-supervision protocol. */
module SupervisionModels {
  import opened Prelude

  datatype ActionKind = ObserveOnly | RolloutRestart | ScaleOut

  datatype RecoveryAction = RecoveryAction(
    namespace: string, deployment: string, kind: ActionKind, replicas: Option<int>, reason: string)

  datatype Verdict = Approve | Revise | Veto | Abstain

  datatype PeerReview = PeerReview(
    reviewId: string,
    roundIndex: nat,
    reviewer: string,
    targetAgent: string,
    targetDecisionId: string,
    verdict: Verdict,
    reason: string,
    suggestedAction: Option<RecoveryAction>,
    confidence: real)

  datatype Binding = Binding(name: string, enabled: bool, vetoScopes: seq<string>, consensusWeight: real)

  datatype ConsensusStrategy = RoleBasedVeto | UnanimousVeto | WeightedMajority

  datatype Profile = Profile(
    agents: seq<Binding>,
    reviewMatrix: map<string, seq<string>>,
    strategy: ConsensusStrategy,
    maxNegotiationRounds: nat,
    maxReplanAttempts: nat,
    actionSpace: set<ActionKind>)

  /** The parts of `validate_semantics` that the protocol relies on. */
  predicate SoundProfile(p: Profile) {
    && (forall a, b :: 0 <= a < b < |p.agents| ==> p.agents[a].name != p.agents[b].name)
    && (forall a :: 0 <= a < |p.agents| ==> p.agents[a].consensusWeight >= 0.0)
    && p.maxNegotiationRounds >= 1
    && (forall t :: t in p.reviewMatrix ==>
          && (forall a, b :: 0 <= a < b < |p.reviewMatrix[t]| ==> p.reviewMatrix[t][a] != p.reviewMatrix[t][b])
          && t !in p.reviewMatrix[t])
  }
}
