/** The four deterministic agents as peers: how their negotiations converge. */
module DeterministicAgents {
  import opened Prelude
  import opened Text
  import opened SupervisionModels
  import opened Consensus
  import opened Negotiation

  const HA_AGENT := "AIServiceHASupportAgent"
  const APPLICATION_AGENT := "AIApplicationManagementAgent"
  const INFRA_AGENT := "AISemiconductorInfraOpsAgent"
  const COST_AGENT := "CostOptimizationAgent"

  /** The agents' limits, and what the availability agent makes of the diagnosis. */
  datatype Team = Team(
    infraMax: int, costMax: int, justified: bool, confidence: real, reason: (string, Verdict) -> string)

  /** The diagnosis carries a confidence, and the reasons are fixed sentences. */
  ghost predicate SoundTeam(t: Team) {
    0.0 <= t.confidence <= 1.0 && forall reviewer, verdict :: !Blank(t.reason(reviewer, verdict))
  }

  // ----- the review rules -----

  /** The infrastructure and cost agents reject a scale-out without a target or above the limit. */
  predicate Exceeds(a: RecoveryAction, limit: int) {
    a.kind == ScaleOut && (a.replicas.None? || a.replicas.value > limit)
  }

  /** When the cost agent proposes its own maximum instead of vetoing. */
  predicate Revisable(t: Team, ev: Evidence, a: RecoveryAction) {
    && a.kind == ScaleOut && a.replicas.Some?
    && t.costMax >= 1 && t.costMax > ev.desiredReplicas && a.replicas.value > t.costMax
  }

  const REVISION_NOTE := "; revised to satisfy cost replica policy"

  function CostRevision(t: Team, a: RecoveryAction): RecoveryAction {
    a.(replicas := Some(t.costMax), reason := a.reason + REVISION_NOTE)
  }

  datatype Opinion = Opinion(verdict: Verdict, suggested: Option<RecoveryAction>, confidence: real)

  function Opine(t: Team, ev: Evidence, a: RecoveryAction, reviewer: string): Option<Opinion> {
    if reviewer == HA_AGENT then
      Some(Opinion(if t.justified then Approve else Abstain, None, t.confidence))
    else if reviewer == APPLICATION_AGENT then
      Some(Opinion(if a.namespace == ev.namespace && a.deployment == ev.deployment then Approve else Veto, None, 0.95))
    else if reviewer == INFRA_AGENT then
      Some(if Exceeds(a, t.infraMax) then Opinion(Veto, None, 0.98) else Opinion(Approve, None, 0.92))
    else if reviewer == COST_AGENT then
      Some(if !Exceeds(a, t.costMax) then Opinion(Approve, None, 0.91)
           else if Revisable(t, ev, a) then Opinion(Revise, Some(CostRevision(t, a)), 0.91)
           else Opinion(Veto, None, 0.91))
    else None
  }

  /** What each agent makes of an action. The availability agent approves what it finds justified and abstains
      otherwise; the application agent vetoes another target; the infrastructure agent vetoes a scale-out
      without replicas or above its maximum; and the cost agent lowers a scale-out above its maximum to it
      where that still raises the replicas, and otherwise vetoes it. */
  lemma OpinionsAre(t: Team, ev: Evidence, a: RecoveryAction)
    ensures Opine(t, ev, a, "AIServiceHASupportAgent")
            == Some(Opinion(if t.justified then Approve else Abstain, None, t.confidence))
    ensures Opine(t, ev, a, "AIApplicationManagementAgent")
            == Some(Opinion(if a.namespace != ev.namespace || a.deployment != ev.deployment then Veto else Approve,
                            None, 0.95))
    ensures Opine(t, ev, a, "AISemiconductorInfraOpsAgent")
            == if a.kind == ScaleOut && (a.replicas == None || a.replicas.value > t.infraMax)
               then Some(Opinion(Veto, None, 0.98)) else Some(Opinion(Approve, None, 0.92))
    ensures var cost := Opine(t, ev, a, "CostOptimizationAgent");
            && cost.Some? && cost.value.confidence == 0.91
            && (cost.value.verdict == Approve <==>
                  a.kind != ScaleOut || (a.replicas.Some? && a.replicas.value <= t.costMax))
            && (cost.value.verdict == Revise <==>
                  a.kind == ScaleOut && a.replicas.Some? && a.replicas.value > t.costMax
                  && t.costMax > ev.desiredReplicas && t.costMax >= 1)
            && cost.value.verdict != Abstain
            && (cost.value.verdict == Revise ==>
                  cost.value.suggested
                  == Some(RecoveryAction(a.namespace, a.deployment, a.kind, Some(t.costMax),
                                         a.reason + "; revised to satisfy cost replica policy")))
            && (cost.value.verdict != Revise ==> cost.value.suggested == None)
    ensures forall reviewer :: reviewer !in {"AIServiceHASupportAgent", "AIApplicationManagementAgent",
                                             "AISemiconductorInfraOpsAgent", "CostOptimizationAgent"} ==>
              Opine(t, ev, a, reviewer) == None
  {
  }

  function TeamReview(t: Team, ev: Evidence, d: Decision, reviewer: string): Reply {
    match Opine(t, ev, d.action, reviewer)
    case None => Silent
    case Some(o) =>
      Replies(PeerReview(d.decisionId + ":" + reviewer, d.roundIndex, reviewer, d.agent, d.decisionId,
                         o.verdict, t.reason(reviewer, o.verdict), o.suggested, o.confidence))
  }

  /** The peers review as this team does. */
  ghost predicate Staffed(e: Peers, t: Team, ev: Evidence) {
    forall d, reviewer :: e.review(d, reviewer) == TeamReview(t, ev, d, reviewer)
  }

  predicate NamesTarget(a: RecoveryAction) { !Blank(a.namespace) && !Blank(a.deployment) }

  // ----- collecting from the team -----

  /** A staffed reviewer either has no answer or gives its opinion; it never fails. */
  lemma AskTeam(e: Peers, t: Team, ev: Evidence, d: Decision, reviewer: string)
    requires Staffed(e, t, ev) && SoundTeam(t) && NamesTarget(d.action)
    ensures var answer, o := Ask(e, d, reviewer), Opine(t, ev, d.action, reviewer);
            && !answer.BadAnswer?
            && (answer.GoodAnswer? <==> MayReview(e, reviewer) && o.Some?)
            && (answer.GoodAnswer? ==>
                  && answer.review.reviewer == reviewer
                  && answer.review.verdict == o.value.verdict && answer.review.suggestedAction == o.value.suggested)
  {
    assert e.review(d, reviewer) == TeamReview(t, ev, d, reviewer);
  }

  /** A review is the opinion of its reviewer. */
  predicate IsOpinion(t: Team, ev: Evidence, a: RecoveryAction, r: PeerReview) {
    var o := Opine(t, ev, a, r.reviewer);
    o.Some? && r.verdict == o.value.verdict && r.suggestedAction == o.value.suggested
  }

  /** When every reviewer asked answers properly or not at all, the collection succeeds; what
      holds of every answer holds of every review. */
  lemma {:induction false} CollectGood(e: Peers, d: Decision, n: nat, fits: PeerReview -> bool)
    requires n <= |ReviewersOf(e, d.agent)|
    requires forall k :: 0 <= k < n ==> !Ask(e, d, ReviewersOf(e, d.agent)[k]).BadAnswer?
    requires forall k :: 0 <= k < n && Ask(e, d, ReviewersOf(e, d.agent)[k]).GoodAnswer? ==>
               fits(Ask(e, d, ReviewersOf(e, d.agent)[k]).review)
    ensures Collect(e, d, n).Collected? && forall r :: r in Collect(e, d, n).reviews ==> fits(r)
  {
    if n > 0 { CollectGood(e, d, n - 1, fits); }
  }

  /** Every proper answer is collected. */
  lemma {:induction false} CollectCovers(e: Peers, d: Decision, n: nat, k: nat)
    requires k < n <= |ReviewersOf(e, d.agent)| && Collect(e, d, n).Collected?
    requires Ask(e, d, ReviewersOf(e, d.agent)[k]).GoodAnswer?
    ensures Ask(e, d, ReviewersOf(e, d.agent)[k]).review in Collect(e, d, n).reviews
  {
    if k < n - 1 {
      CollectCovers(e, d, n - 1, k);
    } else {
      var c := Collect(e, d, n);
      assert c.reviews[|c.reviews| - 1] == Ask(e, d, ReviewersOf(e, d.agent)[k]).review;
    }
  }

  lemma CollectTeam(e: Peers, t: Team, ev: Evidence, d: Decision)
    requires Staffed(e, t, ev) && SoundTeam(t) && NamesTarget(d.action)
    ensures CollectAll(e, d).Collected? && TeamReviews(t, ev, d.action, CollectAll(e, d).reviews)
  {
    var reviewers := ReviewersOf(e, d.agent);
    forall k | 0 <= k < |reviewers|
      ensures !Ask(e, d, reviewers[k]).BadAnswer?
      ensures Ask(e, d, reviewers[k]).GoodAnswer? ==> IsOpinion(t, ev, d.action, Ask(e, d, reviewers[k]).review)
    {
      AskTeam(e, t, ev, d, reviewers[k]);
    }
    CollectGood(e, d, |reviewers|, (r: PeerReview) => IsOpinion(t, ev, d.action, r));
  }

  // ----- one round -----

  /** The reviews of a decision on `a`, as the team gives them. */
  ghost predicate TeamReviews(t: Team, ev: Evidence, a: RecoveryAction, reviews: seq<PeerReview>) {
    forall r :: r in reviews ==> IsOpinion(t, ev, a, r)
  }

  lemma {:induction false} AllSuggest(reviews: seq<PeerReview>, a: RecoveryAction)
    requires forall r :: r in reviews ==> r.suggestedAction == Some(a)
    ensures |Suggestions(reviews)| == |reviews|
    ensures forall s :: s in Suggestions(reviews) ==> s == a
    decreases |reviews|
  {
    if reviews != [] {
      assert reviews[0] in reviews && forall r :: r in reviews[1..] ==> r in reviews;
      AllSuggest(reviews[1..], a);
    }
  }

  lemma OnlyCostRevises(t: Team, ev: Evidence, a: RecoveryAction, r: PeerReview)
    requires IsOpinion(t, ev, a, r) && r.verdict == Revise
    ensures r.suggestedAction == Some(CostRevision(t, a))
  {
  }

  lemma SuggestionsOf(t: Team, ev: Evidence, a: RecoveryAction, reviews: seq<PeerReview>)
    requires TeamReviews(t, ev, a, reviews)
    requires forall r :: r in reviews ==> r.verdict == Revise
    ensures |Suggestions(reviews)| == |reviews|
    ensures forall s :: s in Suggestions(reviews) ==> s == CostRevision(t, a)
  {
    forall r | r in reviews ensures r.suggestedAction == Some(CostRevision(t, a)) {
      OnlyCostRevises(t, ev, a, r);
    }
    AllSuggest(reviews, CostRevision(t, a));
  }

  lemma {:induction false} MinOfEqual(suggestions: seq<RecoveryAction>, a: RecoveryAction)
    requires suggestions != [] && forall s :: s in suggestions ==> s == a
    requires a.replicas.Some?
    ensures MinReplicas(suggestions) == a.replicas.value
  {
    assert suggestions[0] in suggestions;
    if |suggestions| > 1 {
      assert forall s :: s in suggestions[1..] ==> s in suggestions;
      MinOfEqual(suggestions[1..], a);
    }
  }

  /** Revising by the team's revisions gives the cost agent's maximum. */
  lemma RevisionIsCosts(t: Team, ev: Evidence, a: RecoveryAction, revisions: seq<PeerReview>)
    requires TeamReviews(t, ev, a, revisions) && revisions != []
    requires forall r :: r in revisions ==> r.verdict == Revise
    ensures Revisable(t, ev, a)
    ensures ApplyRevisions(a, revisions).NewAction? && ApplyRevisions(a, revisions).action == CostRevision(t, a)
  {
    assert revisions[0] in revisions && IsOpinion(t, ev, a, revisions[0]);
    SuggestionsOf(t, ev, a, revisions);
    var suggestions := Suggestions(revisions);
    assert suggestions[0] in suggestions;
    MinOfEqual(suggestions, CostRevision(t, a));
  }

  /** How a round among the team ends. */
  predicate TeamStep(t: Team, ev: Evidence, a: RecoveryAction, s: Step) {
    && !s.Abort? && s.round.status != RevisionRejected
    && (s.Again? ==> Revisable(t, ev, a) && s.revised == CostRevision(t, a))
  }

  lemma ConcludedByTeam(e: Peers, t: Team, ev: Evidence, d: Decision, reviews: seq<PeerReview>, o: Outcome)
    requires NamesTarget(d.action)
    requires Sensible(e.profile, d.action, ev.desiredReplicas, ev.namespace, ev.deployment)
    requires TeamReviews(t, ev, d.action, o.revisions) && forall r :: r in o.revisions ==> r.verdict == Revise
    ensures TeamStep(t, ev, d.action, Conclude(e, ev, d, reviews, o))
  {
    if o.approved && o.revisions != [] {
      RevisionIsCosts(t, ev, d.action, o.revisions);
    }
  }

  lemma TeamRound(e: Peers, t: Team, ev: Evidence, a: RecoveryAction, index: nat)
    requires Staffed(e, t, ev) && SoundTeam(t) && NamesTarget(a)
    requires Sensible(e.profile, a, ev.desiredReplicas, ev.namespace, ev.deployment)
    ensures TeamStep(t, ev, a, PlayRound(e, ev, a, index))
  {
    var d := DecisionFor(e, a, index);
    CollectTeam(e, t, ev, d);
    var reviews := CollectAll(e, d).reviews;
    var o := Resolve(e.profile, reviews, DecisionScopes(a.kind));
    forall r | r in o.revisions ensures r.verdict == Revise && IsOpinion(t, ev, a, r) {
      RevisionsAre(e.profile, reviews, DecisionScopes(a.kind), r);
    }
    ConcludedByTeam(e, t, ev, d, reviews, o);
  }

  // ----- the negotiation -----

  lemma RevisedStaysSensible(p: Profile, t: Team, ev: Evidence, a: RecoveryAction)
    requires Sensible(p, a, ev.desiredReplicas, ev.namespace, ev.deployment) && NamesTarget(a) && Revisable(t, ev, a)
    ensures Sensible(p, CostRevision(t, a), ev.desiredReplicas, ev.namespace, ev.deployment)
    ensures NamesTarget(CostRevision(t, a)) && !Revisable(t, ev, CostRevision(t, a))
  {
  }

  lemma TwoRounds(play: (RecoveryAction, nat) -> Step, maxRounds: nat, p: Profile, t: Team, ev: Evidence,
                  a: RecoveryAction, offset: nat)
    requires forall x, index :: NamesTarget(x) && Sensible(p, x, ev.desiredReplicas, ev.namespace, ev.deployment) ==>
               TeamStep(t, ev, x, play(x, index))
    requires forall x, index :: StepShape(play(x, index), x, index)
    requires maxRounds >= 1 && NamesTarget(a) && Sensible(p, a, ev.desiredReplicas, ev.namespace, ev.deployment)
    ensures var r := NegotiateFrom(play, maxRounds, a, 1, offset);
            && !r.failed && 1 <= |r.rounds| <= 2
            && (r.action.Some? ==> r.action.value == a || (r.action.value == CostRevision(t, a) && Revisable(t, ev, a)))
            && (r.rounds[|r.rounds| - 1].status == RevisionRequired <==> maxRounds == 1 && play(a, offset + 1).Again?)
  {
    var first := play(a, offset + 1);
    assert TeamStep(t, ev, a, first) && StepShape(first, a, offset + 1);
    if first.Again? {
      RevisedStaysSensible(p, t, ev, a);
      if maxRounds >= 2 {
        var second := play(first.revised, offset + 2);
        assert TeamStep(t, ev, first.revised, second) && StepShape(second, first.revised, offset + 2);
        assert AfterStep(play, maxRounds, first.revised, second, 2, offset) == Verdicted(first.revised, second);
        var rest := NegotiateFrom(play, maxRounds, first.revised, 2, offset);
        assert rest.rounds == [second.round];
        var r := NegotiateFrom(play, maxRounds, a, 1, offset);
        assert r.rounds == [first.round, second.round];
      } else {
        assert NegotiateFrom(play, maxRounds, first.revised, 2, offset) == Result(false, None, [], [], []);
        assert NegotiateFrom(play, maxRounds, a, 1, offset).rounds == [first.round];
      }
    } else {
      assert NegotiateFrom(play, maxRounds, a, 1, offset).rounds == [first.round];
    }
  }

  lemma TeamPlays(e: Peers, t: Team, ev: Evidence)
    requires Staffed(e, t, ev) && SoundTeam(t)
    ensures forall x, index :: StepShape(Playing(e, ev)(x, index), x, index)
    ensures forall x, index ::
              NamesTarget(x) && Sensible(e.profile, x, ev.desiredReplicas, ev.namespace, ev.deployment) ==>
              TeamStep(t, ev, x, Playing(e, ev)(x, index))
  {
    PlayingShape(e, ev);
    forall x, index | NamesTarget(x) && Sensible(e.profile, x, ev.desiredReplicas, ev.namespace, ev.deployment)
      ensures TeamStep(t, ev, x, Playing(e, ev)(x, index))
    {
      TeamRound(e, t, ev, x, index);
    }
  }

  /** Under any consensus strategy, a negotiation among the team about a candidate that passed
      the coordinator's check takes at most two rounds and never fails. It runs out of rounds
      without a verdict exactly when only one round is allowed and that round asks for a
      revision. What it settles on is the proposal or the cost agent's revision of it. */
  lemma NegotiationConverges(e: Peers, t: Team, ev: Evidence, a: RecoveryAction, offset: nat)
    requires Staffed(e, t, ev) && SoundTeam(t) && e.profile.maxNegotiationRounds >= 1
    requires NamesTarget(a) && Sensible(e.profile, a, ev.desiredReplicas, ev.namespace, ev.deployment)
    ensures var r := NegotiationOf(e, ev, a, offset);
            && !r.failed && 1 <= |r.rounds| <= 2
            && (r.action.Some? ==> r.action.value == a || (r.action.value == CostRevision(t, a) && Revisable(t, ev, a)))
            && (r.rounds[|r.rounds| - 1].status == RevisionRequired
                <==> e.profile.maxNegotiationRounds == 1 && PlayRound(e, ev, a, offset + 1).Again?)
  {
    TeamPlays(e, t, ev);
    TwoRounds(Playing(e, ev), e.profile.maxNegotiationRounds, e.profile, t, ev, a, offset);
  }

  // ----- the cost limit -----

  /** The cost agent is among the proposer's reviewers, able and enabled to review, and its
      veto blocks a scale-out. */
  predicate CostBlocks(e: Peers) {
    && COST_AGENT in ReviewersOf(e, e.proposer) && MayReview(e, COST_AGENT)
    && var n := IndexOf(e.profile.agents, COST_AGENT);
       && n < |e.profile.agents| && e.profile.agents[n].enabled
       && (e.profile.strategy == UnanimousVeto
           || (e.profile.strategy == RoleBasedVeto
               && exists s :: s in e.profile.agents[n].vetoScopes && ScaleOut in KindsBlockedBy(s)))
  }

  /** An approval without revisions of a scale-out that the cost agent reviewed respects its
      maximum: otherwise the agent would have revised or vetoed. */
  lemma ApprovalWithinCost(e: Peers, t: Team, ev: Evidence, d: Decision, reviews: seq<PeerReview>)
    requires Staffed(e, t, ev) && SoundTeam(t) && NamesTarget(d.action) && SoundProfile(e.profile)
    requires CostBlocks(e) && d.agent == e.proposer && d.action.kind == ScaleOut
    requires ApprovedWithoutRevision(e, d, reviews)
    ensures !Exceeds(d.action, t.costMax)
  {
    CollectTeam(e, t, ev, d);
    var k :| 0 <= k < |ReviewersOf(e, d.agent)| && ReviewersOf(e, d.agent)[k] == COST_AGENT;
    AskTeam(e, t, ev, d, COST_AGENT);
    CollectCovers(e, d, |ReviewersOf(e, d.agent)|, k);
    var r := Ask(e, d, COST_AGENT).review;
    var scopes := DecisionScopes(ScaleOut);
    ApprovedIff(e.profile, reviews, scopes);
    RevisionsAre(e.profile, reviews, scopes, r);
    assert IsEnabled(e.profile, r);
    forall s ensures s in scopes <==> ScaleOut in KindsBlockedBy(s) {
      ScopesOfKind(ScaleOut, s);
    }
    if r.verdict == Veto {
      assert e.profile.strategy == RoleBasedVeto ==> BlockingVeto(e.profile, r, scopes);
    }
  }

  /** With the cost agent reviewing to blocking effect, an approved scale-out raises the
      replicas, but above neither the proposal nor the cost agent's maximum. */
  lemma ApprovedReplicasBounded(e: Peers, t: Team, ev: Evidence, a: RecoveryAction, offset: nat)
    requires Staffed(e, t, ev) && SoundTeam(t) && SoundProfile(e.profile) && CostBlocks(e)
    requires NamesTarget(a) && Sensible(e.profile, a, ev.desiredReplicas, ev.namespace, ev.deployment)
    requires a.kind == ScaleOut
    ensures var r := NegotiationOf(e, ev, a, offset);
            r.action.Some? ==>
              && r.action.value.kind == ScaleOut && r.action.value.replicas.Some?
              && ev.desiredReplicas < r.action.value.replicas.value
              && r.action.value.replicas.value <= a.replicas.value
              && r.action.value.replicas.value <= t.costMax
  {
    var r := NegotiationOf(e, ev, a, offset);
    if r.action.Some? {
      NegotiationConverges(e, t, ev, a, offset);
      SettledActionReviewed(e, ev, a, offset);
      LastApprovalWithinCost(e, t, ev, r);
    }
  }

  lemma LastApprovalWithinCost(e: Peers, t: Team, ev: Evidence, r: Result)
    requires Staffed(e, t, ev) && SoundTeam(t) && SoundProfile(e.profile) && CostBlocks(e)
    requires r.action.Some? && SettledWell(e, r) && NamesTarget(r.action.value) && r.action.value.kind == ScaleOut
    ensures !Exceeds(r.action.value, t.costMax)
  {
    var a := r.action.value;
    var actionId := r.rounds[|r.rounds| - 1].selectedActionId.value;
    var d, reviews, round :|
      ApprovalRecords(e, d, reviews, round, a, actionId)
      && EndsWith(r.events, [DecisionMade(d)] + Given(reviews) + [RoundClosed(round)]);
    ApprovalWithinCost(e, t, ev, d, reviews);
  }

  // ----- the application agent's proposal -----

  /** `target_replicas` of `generate_recovery_candidates`. */
  function TargetReplicas(desired: int, recommended: int): int {
    var baseline := if desired >= 1 then desired else 1;
    var wanted := if baseline + 1 >= recommended then baseline + 1 else recommended;
    if wanted <= 5 then wanted else 5
  }

  /** The proposed target is one more than what is desired, or what the policy recommends if that is more, but
      never above five. */
  lemma TargetReplicasIs(desired: int, recommended: int)
    ensures var target, more := TargetReplicas(desired, recommended), if desired <= 0 then 2 else desired + 1;
            && target <= 5 && (target < 5 ==> target == more || target == recommended)
            && (target < 5 ==> target >= more && target >= recommended)
            && (target == 5 ==> more >= 5 || recommended >= 5)
  {
  }

  function ScaleOutProposal(ev: Evidence, recommended: int, reason: string): RecoveryAction {
    RecoveryAction(ev.namespace, ev.deployment, ScaleOut, Some(TargetReplicas(ev.desiredReplicas, recommended)), reason)
  }

  /** The proposed scale-out survives the coordinator's check exactly when fewer than five
      replicas are desired, whatever the policy recommends; and when the cost agent blocks,
      what is approved of it stays within five and the cost agent's maximum, so nothing is
      approved once that many replicas are desired. */
  lemma ProposalNegotiated(e: Peers, t: Team, ev: Evidence, recommended: int, reason: string, offset: nat)
    requires Staffed(e, t, ev) && SoundTeam(t) && SoundProfile(e.profile) && CostBlocks(e)
    requires !Blank(ev.namespace) && !Blank(ev.deployment) && ScaleOut in e.profile.actionSpace
    ensures var a := ScaleOutProposal(ev, recommended, reason);
            var r := NegotiationOf(e, ev, a, offset);
            && (SemanticError(e.profile, a, ev.desiredReplicas, ev.namespace, ev.deployment).None?
                <==> ev.desiredReplicas < 5)
            && (ev.desiredReplicas < 5 && r.action.Some? ==>
                  && r.action.value.replicas.Some? && ev.desiredReplicas < r.action.value.replicas.value
                  && r.action.value.replicas.value <= 5 && r.action.value.replicas.value <= t.costMax)
  {
    if ev.desiredReplicas < 5 {
      ApprovedReplicasBounded(e, t, ev, ScaleOutProposal(ev, recommended, reason), offset);
    }
  }

  // ----- after execution -----

  /** What the agents see after execution: the measured recovery and the state of the target. */
  datatype Measured = Measured(recovered: bool, namespace: string, deployment: string, desired: int, available: int)

  /** The `post_review` rules. */
  predicate PostApproves(t: Team, a: RecoveryAction, m: Measured, agent: string) {
    if agent == HA_AGENT then m.recovered
    else if agent == APPLICATION_AGENT then
      m.recovered && m.available >= m.desired && a.namespace == m.namespace && a.deployment == m.deployment
    else if agent == INFRA_AGENT then m.desired <= t.infraMax
    else agent == COST_AGENT
         && (a.kind != ScaleOut || (if a.replicas.Some? then a.replicas.value else 0) <= t.costMax)
  }

  /** What each agent asks for after execution: recovery, recovery with all desired replicas available on the
      very target, no more replicas than its maximum, and no scale-out above its maximum. */
  lemma PostApprovalsAre(t: Team, a: RecoveryAction, m: Measured)
    ensures PostApproves(t, a, m, "AIServiceHASupportAgent") <==> m.recovered
    ensures PostApproves(t, a, m, "AIApplicationManagementAgent") <==>
              m.recovered && m.desired <= m.available && m.namespace == a.namespace && m.deployment == a.deployment
    ensures PostApproves(t, a, m, "AISemiconductorInfraOpsAgent") <==> m.desired <= t.infraMax
    ensures PostApproves(t, a, m, "CostOptimizationAgent") <==>
              (a.kind == ScaleOut ==> (if a.replicas == None then 0 else a.replicas.value) <= t.costMax)
  {
  }

  /** When the cost agent blocks, it never rejects afterwards what it let pass before: whether all
      four agents confirm a settled action depends only on what was measured. */
  lemma ConfirmationIsMeasured(e: Peers, t: Team, ev: Evidence, a: RecoveryAction, offset: nat, m: Measured)
    requires Staffed(e, t, ev) && SoundTeam(t) && SoundProfile(e.profile) && CostBlocks(e)
    requires NamesTarget(a) && Sensible(e.profile, a, ev.desiredReplicas, ev.namespace, ev.deployment)
    requires NegotiationOf(e, ev, a, offset).action.Some?
    ensures var settled := NegotiationOf(e, ev, a, offset).action.value;
            (forall agent :: agent in [HA_AGENT, APPLICATION_AGENT, INFRA_AGENT, COST_AGENT] ==>
               PostApproves(t, settled, m, agent))
            <==> m.recovered && m.available >= m.desired && m.desired <= t.infraMax
                 && m.namespace == ev.namespace && m.deployment == ev.deployment
  {
    var settled := NegotiationOf(e, ev, a, offset).action.value;
    NegotiationConverges(e, t, ev, a, offset);
    if a.kind == ScaleOut { ApprovedReplicasBounded(e, t, ev, a, offset); }
    AllFourApprove(t, settled, m);
  }

  lemma AllFourApprove(t: Team, a: RecoveryAction, m: Measured)
    requires a.kind == ScaleOut ==> a.replicas.Some? && a.replicas.value <= t.costMax
    ensures (forall agent :: agent in [HA_AGENT, APPLICATION_AGENT, INFRA_AGENT, COST_AGENT] ==>
               PostApproves(t, a, m, agent))
            <==> m.recovered && m.available >= m.desired && m.desired <= t.infraMax
                 && m.namespace == a.namespace && m.deployment == a.deployment
  {
    assert PostApproves(t, a, m, COST_AGENT);
    var agents := [HA_AGENT, APPLICATION_AGENT, INFRA_AGENT, COST_AGENT];
    assert agents[0] == HA_AGENT && agents[1] == APPLICATION_AGENT && agents[2] == INFRA_AGENT;
    assert HA_AGENT in agents && APPLICATION_AGENT in agents && INFRA_AGENT in agents;
    assert PostApproves(t, a, m, INFRA_AGENT) <==> m.desired <= t.infraMax;
  }
}
