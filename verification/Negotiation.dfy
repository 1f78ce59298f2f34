/** One negotiation: propose, collect peer reviews, resolve, revise, repeat. */
module Negotiation {
  import opened Prelude
  import opened Text
  import opened SupervisionModels
  import opened Consensus

  datatype Capability = CanDiagnose | CanPropose | CanReview | CanPostReview

  datatype Adapter = Adapter(name: string, capabilities: set<Capability>)

  datatype Evidence = Evidence(namespace: string, deployment: string, desiredReplicas: int)

  datatype Decision = Decision(decisionId: string, roundIndex: nat, agent: string, action: RecoveryAction)

  datatype RoundStatus = Rejected | RevisionRejected | RevisionRequired | Approved

  datatype RevisionNote =
    | ReplicasRevised(before: Option<int>, after: int)
    | ReviewerRevision(kind: ActionKind)
    | RevisionRefused

  datatype Round = Round(
    roundIndex: nat,
    decisionId: string,
    reviewIds: seq<string>,
    revisions: seq<RevisionNote>,
    remainingVetoes: seq<string>,
    remainingAbstentions: seq<string>,
    status: RoundStatus,
    selectedActionId: Option<string>)

  /** The records that the coordinator appends to the event streams. */
  datatype Event =
    | DecisionMade(decision: Decision)
    | ReviewGiven(review: PeerReview)
    | RoundClosed(round: Round)
    | SafetyValidated(valid: bool)
    | ExecutionDispatched(actionId: string, action: RecoveryAction)
    | ExecutionCompleted(completedId: string, succeeded: bool)

  /** What calling an adapter's `review` can do. */
  datatype Reply = Raises | Silent | Replies(review: PeerReview)

  /** The coordinator's surroundings during one negotiation. The adapters are arbitrary: as a
      decision carries its round index and a reviewer is asked once per round, a function of
      decision and reviewer is every possible behaviour of stateful adapters in one run. */
  datatype Peers = Peers(
    profile: Profile,
    adapters: seq<Adapter>,
    proposer: string,
    review: (Decision, string) -> Reply,
    freshId: (string, nat, string) -> string)

  // ----- the semantic gate -----

  datatype ActionError = TargetMismatch | OutsideActionSpace | ReplicasMissing | ReplicasNotAboveDesired

  /** `_action_semantic_error`. */
  function SemanticError(p: Profile, a: RecoveryAction, desired: int, namespace: string, deployment: string)
    : Option<ActionError>
  {
    if a.namespace != namespace || a.deployment != deployment then Some(TargetMismatch)
    else if a.kind !in p.actionSpace then Some(OutsideActionSpace)
    else if a.kind == ScaleOut && a.replicas.None? then Some(ReplicasMissing)
    else if a.kind == ScaleOut && a.replicas.value <= desired then Some(ReplicasNotAboveDesired)
    else None
  }

  /** What an action without a semantic error is. */
  predicate Sensible(p: Profile, a: RecoveryAction, desired: int, namespace: string, deployment: string) {
    && a.namespace == namespace && a.deployment == deployment && a.kind in p.actionSpace
    && (a.kind == ScaleOut ==> a.replicas.Some? && desired < a.replicas.value)
  }

  /** `_decision_scopes`. */
  function DecisionScopes(kind: ActionKind): seq<string> {
    match kind
    case ObserveOnly => ["action_validity", "target_alignment", "availability"]
    case RolloutRestart => ["action_validity", "target_alignment", "availability", "recovery", "executability"]
    case ScaleOut =>
      ["action_validity", "target_alignment", "capacity", "resource_safety", "budget", "cost_efficiency"]
  }

  // ----- collecting the reviews of one decision -----

  datatype Answer = NoAnswer | BadAnswer | GoodAnswer(review: PeerReview)

  predicate MayReview(e: Peers, name: string) {
    exists n :: 0 <= n < |e.adapters| && e.adapters[n].name == name && CanReview in e.adapters[n].capabilities
  }

  predicate WellFormedReview(r: PeerReview, reviewer: string, d: Decision) {
    && r.reviewer == reviewer
    && r.targetAgent == d.agent && r.targetDecisionId == d.decisionId
    && (r.suggestedAction.Some? ==>
          !Blank(r.suggestedAction.value.namespace) && !Blank(r.suggestedAction.value.deployment))
    && !Blank(r.reason)
    && 0.0 <= r.confidence <= 1.0
  }

  /** One reviewer's answer, normalised or refused by `_normalize_peer_review_output`. */
  function Ask(e: Peers, d: Decision, reviewer: string): Answer {
    if !MayReview(e, reviewer) then NoAnswer
    else
      match e.review(d, reviewer)
      case Raises => BadAnswer
      case Silent => NoAnswer
      case Replies(r) =>
        if WellFormedReview(r, reviewer, d) then
          GoodAnswer(r.(reviewId := e.freshId("review", d.roundIndex, reviewer), roundIndex := d.roundIndex))
        else BadAnswer
  }

  function ReviewersOf(e: Peers, agent: string): seq<string> {
    if agent in e.profile.reviewMatrix then e.profile.reviewMatrix[agent] else []
  }

  datatype Collection = Collected(reviews: seq<PeerReview>) | CollectionFailed(reviews: seq<PeerReview>)

  function Collect(e: Peers, d: Decision, n: nat): Collection
    requires n <= |ReviewersOf(e, d.agent)|
  {
    if n == 0 then Collected([])
    else
      var before := Collect(e, d, n - 1);
      if before.CollectionFailed? then before
      else
        match Ask(e, d, ReviewersOf(e, d.agent)[n - 1])
        case NoAnswer => before
        case BadAnswer => CollectionFailed(before.reviews)
        case GoodAnswer(r) => Collected(before.reviews + [r])
  }

  function CollectAll(e: Peers, d: Decision): Collection { Collect(e, d, |ReviewersOf(e, d.agent)|) }

  function Given(reviews: seq<PeerReview>): (r: seq<Event>)
    ensures |r| == |reviews|
  {
    seq(|reviews|, i requires 0 <= i < |reviews| => ReviewGiven(reviews[i]))
  }

  /** `_review_application_action`. */
  method ReviewDecision(e: Peers, d: Decision) returns (c: Collection, events: seq<Event>)
    ensures c == CollectAll(e, d)
    ensures events == Given(c.reviews)
  {
    var reviewers := ReviewersOf(e, d.agent);
    var reviews: seq<PeerReview> := [];
    events := [];
    var n := 0;
    while n < |reviewers|
      invariant 0 <= n <= |reviewers|
      invariant Collect(e, d, n) == Collected(reviews)
      invariant events == Given(reviews)
    {
      var answer := Ask(e, d, reviewers[n]);
      if answer.BadAnswer? {
        FailureSticks(e, d, n + 1, |reviewers|);
        c := CollectionFailed(reviews);
        return;
      }
      if answer.GoodAnswer? {
        reviews := reviews + [answer.review];
        events := events + [ReviewGiven(answer.review)];
      }
      n := n + 1;
    }
    c := Collected(reviews);
  }

  lemma {:induction false} FailureSticks(e: Peers, d: Decision, n: nat, m: nat)
    requires n <= m <= |ReviewersOf(e, d.agent)| && Collect(e, d, n).CollectionFailed?
    ensures Collect(e, d, m) == Collect(e, d, n)
    decreases m
  {
    if n < m { FailureSticks(e, d, n, m - 1); }
  }

  /** Every collected review comes from an adapter that may review, names it, and targets
      this very decision. */
  lemma {:induction false} CollectedTargetDecision(e: Peers, d: Decision, n: nat)
    requires n <= |ReviewersOf(e, d.agent)|
    ensures forall r :: r in Collect(e, d, n).reviews ==>
              && r.targetDecisionId == d.decisionId && r.targetAgent == d.agent && r.roundIndex == d.roundIndex
              && r.reviewer in ReviewersOf(e, d.agent)[..n] && MayReview(e, r.reviewer)
  {
    if n > 0 {
      CollectedTargetDecision(e, d, n - 1);
      assert ReviewersOf(e, d.agent)[..n] == ReviewersOf(e, d.agent)[..n - 1] + [ReviewersOf(e, d.agent)[n - 1]];
    }
  }

  /** `at` tells, for each of the reviews, which answer it is: they are in the order of the answers, and no
      good answer is left out or taken twice. */
  predicate Picks(answers: seq<Answer>, reviews: seq<PeerReview>, at: seq<nat>) {
    && |at| == |reviews|
    && (forall i :: 0 <= i < |at| ==> at[i] < |answers| && answers[at[i]] == GoodAnswer(reviews[i]))
    && (forall i, j :: 0 <= i < j < |at| ==> at[i] < at[j])
    && (forall k :: 0 <= k < |answers| && answers[k].GoodAnswer? ==> k in at)
  }

  predicate NoneBad(answers: seq<Answer>) { forall k :: 0 <= k < |answers| ==> !answers[k].BadAnswer? }

  lemma PicksMore(answers: seq<Answer>, reviews: seq<PeerReview>, at: seq<nat>, answer: Answer)
    requires Picks(answers, reviews, at)
    ensures if answer.GoodAnswer? then Picks(answers + [answer], reviews + [answer.review], at + [|answers|])
            else Picks(answers + [answer], reviews, at)
  {
  }

  /** What becomes of one more answer. */
  function After(c: Collection, answer: Answer): Collection {
    if c.CollectionFailed? then c
    else
      match answer
      case NoAnswer => c
      case BadAnswer => CollectionFailed(c.reviews)
      case GoodAnswer(r) => Collected(c.reviews + [r])
  }

  /** The collection succeeds exactly if no answer is bad, and then holds every good answer once, in order. */
  ghost predicate Gathers(c: Collection, answers: seq<Answer>) {
    && (c.Collected? <==> NoneBad(answers))
    && (c.Collected? ==> exists at: seq<nat> :: Picks(answers, c.reviews, at))
  }

  lemma GathersMore(c: Collection, answers: seq<Answer>, answer: Answer)
    requires Gathers(c, answers)
    ensures Gathers(After(c, answer), answers + [answer])
  {
    var all := answers + [answer];
    assert all[|answers|] == answer && forall k :: 0 <= k < |answers| ==> all[k] == answers[k];
    if c.Collected? {
      var at: seq<nat> :| Picks(answers, c.reviews, at);
      PicksMore(answers, c.reviews, at, answer);
    }
  }

  /** The answers of the first `n` reviewers of the matrix. */
  function AnswersTo(e: Peers, d: Decision, n: nat): (answers: seq<Answer>)
    requires n <= |ReviewersOf(e, d.agent)|
    ensures |answers| == n
  {
    seq(n, k requires 0 <= k < n => Ask(e, d, ReviewersOf(e, d.agent)[k]))
  }

  /** Collecting succeeds exactly if no reviewer gives a bad answer, and then yields every good answer once,
      in the order of the matrix. */
  lemma {:induction false} CollectedIff(e: Peers, d: Decision, n: nat)
    requires n <= |ReviewersOf(e, d.agent)|
    ensures Gathers(Collect(e, d, n), AnswersTo(e, d, n))
  {
    if n == 0 {
      assert Picks(AnswersTo(e, d, 0), [], []);
    } else {
      CollectedIff(e, d, n - 1);
      var answer := Ask(e, d, ReviewersOf(e, d.agent)[n - 1]);
      GathersMore(Collect(e, d, n - 1), AnswersTo(e, d, n - 1), answer);
      assert Collect(e, d, n) == After(Collect(e, d, n - 1), answer);
      assert AnswersTo(e, d, n) == AnswersTo(e, d, n - 1) + [answer];
    }
  }

  /** What becomes of a reviewer that is asked. One without an adapter that may review, or that stays
      silent, gives no answer. An exception, or a review that is not the reviewer's own of this very
      decision, gives no reason, has a confidence outside [0, 1] or suggests an action without a target,
      is a bad answer. Any other review is taken under a fresh id in this round. */
  lemma AnswerIs(e: Peers, d: Decision, reviewer: string)
    ensures var asked := exists n :: 0 <= n < |e.adapters| && e.adapters[n].name == reviewer
                                     && CanReview in e.adapters[n].capabilities;
            var reply := e.review(d, reviewer);
            var proper := reply.Replies?
                          && reply.review.reviewer == reviewer && reply.review.targetAgent == d.agent
                          && reply.review.targetDecisionId == d.decisionId && !Blank(reply.review.reason)
                          && 0.0 <= reply.review.confidence <= 1.0
                          && (reply.review.suggestedAction.Some? ==>
                                !Blank(reply.review.suggestedAction.value.namespace)
                                && !Blank(reply.review.suggestedAction.value.deployment));
            && (Ask(e, d, reviewer).NoAnswer? <==> !asked || reply.Silent?)
            && (Ask(e, d, reviewer).BadAnswer? <==> asked && !reply.Silent? && !proper)
            && (asked && proper ==>
                  Ask(e, d, reviewer) == GoodAnswer(reply.review.(
                    reviewId := e.freshId("review", d.roundIndex, reviewer), roundIndex := d.roundIndex)))
  {
  }

  // ----- revisions -----

  function Suggestions(reviews: seq<PeerReview>): seq<RecoveryAction> {
    if reviews == [] then []
    else (if reviews[0].suggestedAction.Some? then [reviews[0].suggestedAction.value] else [])
         + Suggestions(reviews[1..])
  }

  function MinReplicas(suggestions: seq<RecoveryAction>): int
    requires suggestions != [] && forall s :: s in suggestions ==> s.replicas.Some?
  {
    var first := suggestions[0].replicas.value;
    if |suggestions| == 1 then first
    else
      var rest := MinReplicas(suggestions[1..]);
      if first <= rest then first else rest
  }

  datatype Revision = NewAction(action: RecoveryAction, notes: seq<RevisionNote>) | CrossKind | MissingReplicas

  /** `_apply_revisions`. */
  function ApplyRevisions(a: RecoveryAction, reviews: seq<PeerReview>): Revision {
    var suggestions := Suggestions(reviews);
    if suggestions == [] then NewAction(a, [])
    else if exists s :: s in suggestions && s.kind != a.kind then CrossKind
    else if a.kind == ScaleOut then
      if exists s :: s in suggestions && s.replicas.None? then MissingReplicas
      else
        var replicas := MinReplicas(suggestions);
        NewAction(a.(replicas := Some(replicas), reason := suggestions[0].reason),
                  [ReplicasRevised(a.replicas, replicas)])
    else NewAction(suggestions[0], [ReviewerRevision(a.kind)])
  }

  // ----- one round -----

  /** The suggestions are the suggested actions of the reviews, in order. */
  lemma {:induction false} SuggestionsAre(reviews: seq<PeerReview>, more: seq<PeerReview>)
    ensures Suggestions(reviews + more) == Suggestions(reviews) + Suggestions(more)
  {
    if reviews == [] {
      assert reviews + more == more;
    } else {
      var rest := reviews[1..];
      SuggestionsAre(rest, more);
      var head := if reviews[0].suggestedAction.Some? then [reviews[0].suggestedAction.value] else [];
      assert (reviews + more)[1..] == rest + more && (reviews + more)[0] == reviews[0];
      assert Suggestions(reviews + more) == head + (Suggestions(rest) + Suggestions(more));
      assert Suggestions(reviews) == head + Suggestions(rest);
      ConcatAssociates(head, Suggestions(rest), Suggestions(more));
    }
  }

  lemma OneSuggestion(r: PeerReview)
    ensures Suggestions([r]) == if r.suggestedAction.Some? then [r.suggestedAction.value] else []
  {
    assert [r][1..] == [];
  }

  lemma {:induction false} MinReplicasIs(suggestions: seq<RecoveryAction>)
    requires suggestions != [] && forall s :: s in suggestions ==> s.replicas.Some?
    ensures forall s :: s in suggestions ==> MinReplicas(suggestions) <= s.replicas.value
    ensures exists s :: s in suggestions && MinReplicas(suggestions) == s.replicas.value
  {
    assert suggestions == [suggestions[0]] + suggestions[1..];
    if |suggestions| > 1 {
      MinReplicasIs(suggestions[1..]);
      var s :| s in suggestions[1..] && MinReplicas(suggestions[1..]) == s.replicas.value;
      assert suggestions[0] in suggestions && s in suggestions;
    } else {
      assert suggestions[0] in suggestions;
    }
  }

  /** Suggestions of another kind are refused. A scale-out takes the least of the suggested replicas, each of
      which must name some, and the first suggestion's reason; any other action is replaced by the
      first suggestion; and without suggestions the action stays as it is. */
  lemma RevisionIs(a: RecoveryAction, reviews: seq<PeerReview>)
    ensures var suggestions, r := Suggestions(reviews), ApplyRevisions(a, reviews);
            && (suggestions == [] ==> r == NewAction(a, []))
            && (r.CrossKind? <==> exists s :: s in suggestions && s.kind != a.kind)
            && (suggestions != [] && !r.CrossKind? && a.kind != ScaleOut ==>
                  r == NewAction(suggestions[0], [ReviewerRevision(a.kind)]))
            && (r.MissingReplicas? <==>
                  !r.CrossKind? && a.kind == ScaleOut && exists s :: s in suggestions && s.replicas.None?)
            && (suggestions != [] && r.NewAction? && a.kind == ScaleOut ==>
                  && r.action.kind == ScaleOut && r.action.namespace == a.namespace
                  && r.action.deployment == a.deployment && r.action.reason == suggestions[0].reason
                  && r.action.replicas.Some?
                  && (forall s :: s in suggestions ==> r.action.replicas.value <= s.replicas.value)
                  && (exists s :: s in suggestions && r.action.replicas == s.replicas)
                  && r.notes == [ReplicasRevised(a.replicas, r.action.replicas.value)])
  {
    var suggestions := Suggestions(reviews);
    if suggestions != [] && a.kind == ScaleOut && forall s :: s in suggestions ==> s.replicas.Some? {
      MinReplicasIs(suggestions);
      var least :| least in suggestions && MinReplicas(suggestions) == least.replicas.value;
      assert least.replicas == Some(MinReplicas(suggestions));
    }
  }

  function DecisionFor(e: Peers, a: RecoveryAction, index: nat): Decision {
    Decision(e.freshId("decision", index, e.proposer), index, e.proposer, a)
  }

  function ReviewIds(reviews: seq<PeerReview>): (r: seq<string>)
    ensures |r| == |reviews|
  {
    seq(|reviews|, i requires 0 <= i < |reviews| => reviews[i].reviewId)
  }

  function RoundOf(d: Decision, reviews: seq<PeerReview>, o: Outcome, notes: seq<RevisionNote>,
                   status: RoundStatus, actionId: Option<string>): Round
  {
    Round(d.roundIndex, d.decisionId, ReviewIds(reviews), notes, o.blockingVetoes,
          Reviewers(WithVerdict(reviews, Abstain)), status, actionId)
  }

  /** How a round ends: aborted while collecting (no round is recorded), or with a round that
      is final or asks for another one on the revised action. */
  datatype Step =
    | Abort(decision: Decision, reviews: seq<PeerReview>)
    | Close(decision: Decision, reviews: seq<PeerReview>, round: Round)
    | Again(decision: Decision, reviews: seq<PeerReview>, round: Round, revised: RecoveryAction)

  /** How the round on decision `d` ends, once its reviews resolved to `o`. */
  function Conclude(e: Peers, ev: Evidence, d: Decision, reviews: seq<PeerReview>, o: Outcome): Step {
    if !o.approved then Close(d, reviews, RoundOf(d, reviews, o, [], Rejected, None))
    else if o.revisions == [] then
      Close(d, reviews, RoundOf(d, reviews, o, [], Approved, Some(e.freshId("action", d.roundIndex, ""))))
    else
      var revision := ApplyRevisions(d.action, o.revisions);
      if revision.NewAction?
         && SemanticError(e.profile, revision.action, ev.desiredReplicas, ev.namespace, ev.deployment).None? then
        Again(d, reviews, RoundOf(d, reviews, o, revision.notes, RevisionRequired, None), revision.action)
      else Close(d, reviews, RoundOf(d, reviews, o, [RevisionRefused], RevisionRejected, None))
  }

  function PlayRound(e: Peers, ev: Evidence, a: RecoveryAction, index: nat): Step {
    var d := DecisionFor(e, a, index);
    var c := CollectAll(e, d);
    if c.CollectionFailed? then Abort(d, c.reviews)
    else Conclude(e, ev, d, c.reviews, Resolve(e.profile, c.reviews, DecisionScopes(a.kind)))
  }

  function StepEvents(s: Step): seq<Event> {
    [DecisionMade(s.decision)] + Given(s.reviews) + (if s.Abort? then [] else [RoundClosed(s.round)])
  }

  function StepRounds(s: Step): seq<Round> { if s.Abort? then [] else [s.round] }

  // ----- the negotiation -----

  /** The action, if the negotiation settled on one, and the trace either way; `failed` is the
      negotiation-failure exception, which carries the trace. */
  datatype Result = Result(
    failed: bool, action: Option<RecoveryAction>,
    decisions: seq<Decision>, rounds: seq<Round>, events: seq<Event>)

  function Prepend(decisions: seq<Decision>, rounds: seq<Round>, events: seq<Event>, r: Result): Result {
    r.(decisions := decisions + r.decisions, rounds := rounds + r.rounds, events := events + r.events)
  }

  /** What the last round of a negotiation makes of the action it was about. */
  function Verdicted(a: RecoveryAction, s: Step): Result
    requires !s.Again?
  {
    if s.Abort? then Result(true, None, [], [], [])
    else Result(s.round.status == RevisionRejected, if s.round.status == Approved then Some(a) else None, [], [], [])
  }

  /** The rounds from `localRound` on; `play` plays one round on an action at an index. */
  function NegotiateFrom(play: (RecoveryAction, nat) -> Step, maxRounds: nat, a: RecoveryAction, localRound: nat,
                         offset: nat)
    : Result
    decreases maxRounds + 1 - localRound, 1
  {
    if localRound > maxRounds then Result(false, None, [], [], [])
    else
      var s := play(a, offset + localRound);
      Prepend([s.decision], StepRounds(s), StepEvents(s), AfterStep(play, maxRounds, a, s, localRound, offset))
  }

  function AfterStep(play: (RecoveryAction, nat) -> Step, maxRounds: nat, a: RecoveryAction, s: Step,
                     localRound: nat, offset: nat)
    : Result
    requires localRound <= maxRounds
    decreases maxRounds + 1 - localRound, 0
  {
    if s.Again? then NegotiateFrom(play, maxRounds, s.revised, localRound + 1, offset) else Verdicted(a, s)
  }

  /** Playing rounds among the peers `e` on the evidence `ev`. */
  function Playing(e: Peers, ev: Evidence): (RecoveryAction, nat) -> Step {
    (a: RecoveryAction, index: nat) => PlayRound(e, ev, a, index)
  }

  function NegotiationOf(e: Peers, ev: Evidence, a: RecoveryAction, offset: nat): Result {
    NegotiateFrom(Playing(e, ev), e.profile.maxNegotiationRounds, a, 1, offset)
  }

  lemma PrependTwice(d: seq<Decision>, r: seq<Round>, v: seq<Event>,
                     d': seq<Decision>, r': seq<Round>, v': seq<Event>, x: Result)
    ensures Prepend(d, r, v, Prepend(d', r', v', x)) == Prepend(d + d', r + r', v + v', x)
  {
    assert d + (d' + x.decisions) == d + d' + x.decisions;
    assert r + (r' + x.rounds) == r + r' + x.rounds;
    assert v + (v' + x.events) == v + v' + x.events;
  }

  /** `play` describes the rounds that the peers play. */
  ghost predicate Describes(play: (RecoveryAction, nat) -> Step, e: Peers, ev: Evidence) {
    forall a, index {:trigger PlayRound(e, ev, a, index)} :: play(a, index) == PlayRound(e, ev, a, index)
  }

  /** The body of the loop of `_negotiate`: one decision, its reviews, the outcome. */
  method HoldRound(e: Peers, ev: Evidence, action: RecoveryAction, index: nat,
                   ghost play: (RecoveryAction, nat) -> Step)
    returns (s: Step, events: seq<Event>)
    requires Describes(play, e, ev)
    ensures s == play(action, index)
    ensures events == StepEvents(s)
  {
    ghost var expected := PlayRound(e, ev, action, index);
    var decision := DecisionFor(e, action, index);
    var collection, given := ReviewDecision(e, decision);
    events := [DecisionMade(decision)] + given;
    var reviews := collection.reviews;
    if collection.CollectionFailed? {
      return Abort(decision, reviews), events;
    }
    var outcome := Resolve(e.profile, reviews, DecisionScopes(action.kind));
    if !outcome.approved {
      s := Close(decision, reviews, RoundOf(decision, reviews, outcome, [], Rejected, None));
    } else if outcome.revisions == [] {
      s := Close(decision, reviews,
                 RoundOf(decision, reviews, outcome, [], Approved, Some(e.freshId("action", index, ""))));
    } else {
      var revision := ApplyRevisions(action, outcome.revisions);
      if revision.NewAction?
         && SemanticError(e.profile, revision.action, ev.desiredReplicas, ev.namespace, ev.deployment).None? {
        s := Again(decision, reviews, RoundOf(decision, reviews, outcome, revision.notes, RevisionRequired, None),
                   revision.action);
      } else {
        s := Close(decision, reviews, RoundOf(decision, reviews, outcome, [RevisionRefused], RevisionRejected, None));
      }
    }
    events := events + [RoundClosed(s.round)];
  }

  /** A trace so far, followed by one more step and what comes after it. */
  lemma OneStepMore(play: (RecoveryAction, nat) -> Step, maxRounds: nat, a: RecoveryAction, localRound: nat,
                    offset: nat, sofar: Result)
    requires localRound <= maxRounds
    ensures var s := play(a, offset + localRound);
            Prepend(sofar.decisions, sofar.rounds, sofar.events, NegotiateFrom(play, maxRounds, a, localRound, offset))
            == Prepend(sofar.decisions + [s.decision], sofar.rounds + StepRounds(s), sofar.events + StepEvents(s),
                       AfterStep(play, maxRounds, a, s, localRound, offset))
  {
    var s := play(a, offset + localRound);
    PrependTwice(sofar.decisions, sofar.rounds, sofar.events, [s.decision], StepRounds(s), StepEvents(s),
                 AfterStep(play, maxRounds, a, s, localRound, offset));
  }

  lemma PrependEnd(sofar: Result, last: Result)
    requires last.decisions == [] && last.rounds == [] && last.events == []
    ensures Prepend(sofar.decisions, sofar.rounds, sofar.events, last)
            == sofar.(failed := last.failed, action := last.action)
  {
  }

  /** The loop of `_negotiate`, for whatever function `play` describes the rounds. */
  method NegotiateRounds(e: Peers, ev: Evidence, candidate: RecoveryAction, offset: nat,
                         ghost play: (RecoveryAction, nat) -> Step)
    returns (r: Result)
    requires Describes(play, e, ev)
    ensures r == NegotiateFrom(play, e.profile.maxNegotiationRounds, candidate, 1, offset)
  {
    var maxRounds := e.profile.maxNegotiationRounds;
    var action := candidate;
    r := Result(false, None, [], [], []);
    var localRound := 1;
    while localRound <= maxRounds
      invariant 1 <= localRound <= maxRounds + 1
      invariant !r.failed && r.action == None
      invariant Prepend(r.decisions, r.rounds, r.events, NegotiateFrom(play, maxRounds, action, localRound, offset))
                == NegotiateFrom(play, maxRounds, candidate, 1, offset)
    {
      OneStepMore(play, maxRounds, action, localRound, offset, r);
      var s, given := HoldRound(e, ev, action, offset + localRound, play);
      r := r.(decisions := r.decisions + [s.decision], rounds := r.rounds + StepRounds(s), events := r.events + given);
      if !s.Again? {
        var last := Verdicted(action, s);
        PrependEnd(r, last);
        return r.(failed := last.failed, action := last.action);
      }
      action := s.revised;
      localRound := localRound + 1;
    }
    PrependEnd(r, Result(false, None, [], [], []));
  }

  /** `_negotiate`. */
  method Negotiate(e: Peers, ev: Evidence, candidate: RecoveryAction, offset: nat) returns (r: Result)
    ensures r == NegotiationOf(e, ev, candidate, offset)
  {
    r := NegotiateRounds(e, ev, candidate, offset, Playing(e, ev));
  }

  // ----- the trace of a negotiation -----

  /** Rounds and decisions numbered from `first`, one decision per round, and every round but
      the last asking for a revision. */
  predicate WellNumbered(r: Result, first: nat) {
    && |r.rounds| <= |r.decisions| <= |r.rounds| + 1
    && (forall n :: 0 <= n < |r.decisions| ==> r.decisions[n].roundIndex == first + n)
    && (forall n :: 0 <= n < |r.rounds| ==>
          r.rounds[n].roundIndex == first + n && r.rounds[n].decisionId == r.decisions[n].decisionId)
    && (forall n :: 0 <= n < |r.rounds| - 1 ==> r.rounds[n].status == RevisionRequired)
    && (|r.decisions| > |r.rounds| ==>
          r.failed && forall n :: 0 <= n < |r.rounds| ==> r.rounds[n].status == RevisionRequired)
  }

  /** How the last round and the verdict of the negotiation go together. */
  predicate VerdictMatches(r: Result) {
    && (r.action.Some? <==> r.rounds != [] && r.rounds[|r.rounds| - 1].status == Approved)
    && (r.failed <==> |r.decisions| > |r.rounds|
                      || (r.rounds != [] && r.rounds[|r.rounds| - 1].status == RevisionRejected))
    && (r.action.Some? ==> !r.failed && r.decisions != [] && r.decisions[|r.decisions| - 1].action == r.action.value)
  }

  /** The shape of a step, whatever the reviewers answered. */
  predicate StepShape(s: Step, a: RecoveryAction, index: nat) {
    && s.decision.roundIndex == index && s.decision.action == a
    && (!s.Abort? ==>
          && s.round.roundIndex == index && s.round.decisionId == s.decision.decisionId
          && (s.Again? <==> s.round.status == RevisionRequired))
  }

  lemma ConcludedShape(e: Peers, ev: Evidence, d: Decision, reviews: seq<PeerReview>, o: Outcome)
    ensures StepShape(Conclude(e, ev, d, reviews, o), d.action, d.roundIndex)
  {
  }

  lemma PlayRoundShape(e: Peers, ev: Evidence, a: RecoveryAction, index: nat)
    ensures StepShape(PlayRound(e, ev, a, index), a, index)
  {
    var d := DecisionFor(e, a, index);
    var c := CollectAll(e, d);
    if c.Collected? {
      ConcludedShape(e, ev, d, c.reviews, Resolve(e.profile, c.reviews, DecisionScopes(a.kind)));
    }
  }

  predicate WellTraced(r: Result, first: nat, allowed: nat) {
    WellNumbered(r, first) && VerdictMatches(r) && |r.decisions| <= allowed
  }

  lemma LastStepTraced(s: Step, a: RecoveryAction, first: nat, allowed: nat)
    requires StepShape(s, a, first) && !s.Again? && allowed >= 1
    ensures WellTraced(Prepend([s.decision], StepRounds(s), StepEvents(s), Verdicted(a, s)), first, allowed)
  {
  }

  lemma EarlierStepTraced(s: Step, a: RecoveryAction, rest: Result, first: nat, allowed: nat)
    requires StepShape(s, a, first) && s.Again? && WellTraced(rest, first + 1, allowed)
    ensures WellTraced(Prepend([s.decision], StepRounds(s), StepEvents(s), rest), first, allowed + 1)
  {
    var r := Prepend([s.decision], StepRounds(s), StepEvents(s), rest);
    assert forall n :: 0 < n < |r.decisions| ==> r.decisions[n] == rest.decisions[n - 1];
    assert forall n :: 0 < n < |r.rounds| ==> r.rounds[n] == rest.rounds[n - 1];
  }

  lemma NoRoundsTraced(first: nat, allowed: nat)
    ensures WellTraced(Result(false, None, [], [], []), first, allowed)
  {
  }

  lemma GoingOn(play: (RecoveryAction, nat) -> Step, maxRounds: nat, a: RecoveryAction, localRound: nat, offset: nat)
    requires localRound <= maxRounds && play(a, offset + localRound).Again?
    ensures var s := play(a, offset + localRound);
            NegotiateFrom(play, maxRounds, a, localRound, offset)
            == Prepend([s.decision], StepRounds(s), StepEvents(s),
                       NegotiateFrom(play, maxRounds, s.revised, localRound + 1, offset))
  {
  }

  lemma {:induction false} NegotiateFromTrace(
    play: (RecoveryAction, nat) -> Step, maxRounds: nat, a: RecoveryAction, localRound: nat, offset: nat)
    requires forall a, index :: StepShape(play(a, index), a, index)
    requires 1 <= localRound <= maxRounds + 1
    ensures WellTraced(NegotiateFrom(play, maxRounds, a, localRound, offset),
                       offset + localRound, maxRounds + 1 - localRound)
    decreases maxRounds + 1 - localRound
  {
    if localRound <= maxRounds {
      var first, left := offset + localRound, maxRounds - localRound;
      var s := play(a, first);
      if s.Again? {
        NegotiateFromTrace(play, maxRounds, s.revised, localRound + 1, offset);
        var rest := NegotiateFrom(play, maxRounds, s.revised, localRound + 1, offset);
        assert WellTraced(rest, first + 1, left);
        EarlierStepTraced(s, a, rest, first, left);
        GoingOn(play, maxRounds, a, localRound, offset);
      } else {
        LastStepTraced(s, a, first, left + 1);
        assert NegotiateFrom(play, maxRounds, a, localRound, offset)
            == Prepend([s.decision], StepRounds(s), StepEvents(s), Verdicted(a, s));
      }
    } else {
      NoRoundsTraced(offset + localRound, maxRounds + 1 - localRound);
    }
  }

  lemma PlayingShape(e: Peers, ev: Evidence)
    ensures forall a, index :: StepShape(Playing(e, ev)(a, index), a, index)
  {
    forall a, index ensures StepShape(Playing(e, ev)(a, index), a, index) {
      PlayRoundShape(e, ev, a, index);
    }
  }

  /** The trace of a negotiation is well-formed: rounds are numbered offset+1, offset+2, ...
      with one decision each, at most the allowed number; only the last can be approved, and
      it is exactly when the negotiation settles on an action, which is then the action that
      the last decision proposed. */
  lemma NegotiationTrace(e: Peers, ev: Evidence, a: RecoveryAction, offset: nat)
    ensures WellNumbered(NegotiationOf(e, ev, a, offset), offset + 1)
    ensures VerdictMatches(NegotiationOf(e, ev, a, offset))
    ensures |NegotiationOf(e, ev, a, offset).decisions| <= e.profile.maxNegotiationRounds
  {
    PlayingShape(e, ev);
    NegotiateFromTrace(Playing(e, ev), e.profile.maxNegotiationRounds, a, 1, offset);
  }

  /** The rounds from `first` on: the n-th is about the n-th action, each further action is the revision that
      the round before asked for, and the last one asks for none unless it has the `last` index allowed. */
  ghost predicate PlayedFrom(play: (RecoveryAction, nat) -> Step, a: RecoveryAction, first: nat, last: int, r: Result,
                             actions: seq<RecoveryAction>)
  {
    && |actions| == |r.decisions| && first + |actions| <= last + 1
    && (first <= last ==> actions != [] && actions[0] == a)
    && (forall n: nat :: n < |actions| ==> r.decisions[n] == play(actions[n], first + n).decision)
    && (forall n: nat :: n + 1 < |actions| ==>
          play(actions[n], first + n).Again? && actions[n + 1] == play(actions[n], first + n).revised)
    && (actions != [] && first + |actions| <= last ==>
          !play(actions[|actions| - 1], first + (|actions| - 1)).Again?)
    && (forall n: nat :: n < |actions| && !play(actions[n], first + n).Abort? ==>
          n < |r.rounds| && r.rounds[n] == play(actions[n], first + n).round)
  }

  lemma PlayedNever(play: (RecoveryAction, nat) -> Step, a: RecoveryAction, first: nat, last: int)
    requires first == last + 1
    ensures PlayedFrom(play, a, first, last, Result(false, None, [], [], []), [])
  {
  }

  lemma PlayedOnce(play: (RecoveryAction, nat) -> Step, a: RecoveryAction, first: nat, last: int, verdict: Result)
    requires first <= last && !play(a, first).Again? && verdict.decisions == [] && verdict.rounds == []
    ensures var s := play(a, first);
            PlayedFrom(play, a, first, last, Prepend([s.decision], StepRounds(s), StepEvents(s), verdict), [a])
  {
  }

  lemma PlayedBefore(play: (RecoveryAction, nat) -> Step, a: RecoveryAction, first: nat, last: int, rest: Result,
                     actions: seq<RecoveryAction>)
    requires first <= last && play(a, first).Again?
    requires PlayedFrom(play, play(a, first).revised, first + 1, last, rest, actions)
    ensures var s := play(a, first);
            PlayedFrom(play, a, first, last, Prepend([s.decision], StepRounds(s), StepEvents(s), rest), [a] + actions)
  {
    var s := play(a, first);
    var r, all := Prepend([s.decision], StepRounds(s), StepEvents(s), rest), [a] + actions;
    forall n: nat | n < |all| ensures r.decisions[n] == play(all[n], first + n).decision {
      if n > 0 { assert all[n] == actions[n - 1] && r.decisions[n] == rest.decisions[n - 1]; }
    }
    forall n: nat | n + 1 < |all|
      ensures play(all[n], first + n).Again? && all[n + 1] == play(all[n], first + n).revised
    {
      if n > 0 { assert all[n] == actions[n - 1]; }
    }
    forall n: nat | n < |all| && !play(all[n], first + n).Abort?
      ensures n < |r.rounds| && r.rounds[n] == play(all[n], first + n).round
    {
      if n > 0 { assert all[n] == actions[n - 1] && first + n == first + 1 + (n - 1); }
    }
    if actions != [] { assert all[|all| - 1] == actions[|actions| - 1]; }
  }

  lemma PlaysLast(play: (RecoveryAction, nat) -> Step, maxRounds: nat, a: RecoveryAction, localRound: nat, offset: nat)
    requires localRound <= maxRounds && !play(a, offset + localRound).Again?
    ensures PlayedFrom(play, a, offset + localRound, offset + maxRounds,
                       NegotiateFrom(play, maxRounds, a, localRound, offset), [a])
  {
    PlayedOnce(play, a, offset + localRound, offset + maxRounds, Verdicted(a, play(a, offset + localRound)));
  }

  lemma PlaysOn(play: (RecoveryAction, nat) -> Step, maxRounds: nat, a: RecoveryAction, localRound: nat, offset: nat,
                rest: Result, actions: seq<RecoveryAction>)
    requires localRound <= maxRounds && play(a, offset + localRound).Again?
    requires rest == NegotiateFrom(play, maxRounds, play(a, offset + localRound).revised, localRound + 1, offset)
    requires PlayedFrom(play, play(a, offset + localRound).revised, offset + localRound + 1, offset + maxRounds, rest,
                        actions)
    ensures PlayedFrom(play, a, offset + localRound, offset + maxRounds,
                       NegotiateFrom(play, maxRounds, a, localRound, offset), [a] + actions)
  {
    GoingOn(play, maxRounds, a, localRound, offset);
    PlayedBefore(play, a, offset + localRound, offset + maxRounds, rest, actions);
  }

  lemma {:induction false} NegotiatePlays(
    play: (RecoveryAction, nat) -> Step, maxRounds: nat, a: RecoveryAction, localRound: nat, offset: nat)
    returns (actions: seq<RecoveryAction>)
    requires localRound <= maxRounds + 1
    ensures PlayedFrom(play, a, offset + localRound, offset + maxRounds,
                       NegotiateFrom(play, maxRounds, a, localRound, offset), actions)
    decreases maxRounds + 1 - localRound
  {
    if localRound > maxRounds {
      actions := [];
      PlayedNever(play, a, offset + localRound, offset + maxRounds);
    } else if play(a, offset + localRound).Again? {
      var next := play(a, offset + localRound).revised;
      actions := NegotiatePlays(play, maxRounds, next, localRound + 1, offset);
      PlaysOn(play, maxRounds, a, localRound, offset,
              NegotiateFrom(play, maxRounds, next, localRound + 1, offset), actions);
      actions := [a] + actions;
    } else {
      PlaysLast(play, maxRounds, a, localRound, offset);
      actions := [a];
    }
  }

  /** A negotiation holds its rounds one after the other on the candidate and its revisions, until a round
      asks for none or the profile allows no more. */
  lemma NegotiationRounds(e: Peers, ev: Evidence, a: RecoveryAction, offset: nat) returns (actions: seq<RecoveryAction>)
    ensures PlayedFrom(Playing(e, ev), a, offset + 1, offset + e.profile.maxNegotiationRounds,
                       NegotiationOf(e, ev, a, offset), actions)
  {
    actions := NegotiatePlays(Playing(e, ev), e.profile.maxNegotiationRounds, a, 1, offset);
  }

  // ----- the settled action was itself reviewed -----

  /** The decision's own reviews, all of them, resolve to approval without revisions. */
  predicate ApprovedWithoutRevision(e: Peers, d: Decision, reviews: seq<PeerReview>) {
    && CollectAll(e, d) == Collected(reviews)
    && Resolve(e.profile, reviews, DecisionScopes(d.action.kind)).approved
    && Resolve(e.profile, reviews, DecisionScopes(d.action.kind)).revisions == []
  }

  /** The records that end with the approval of `a` under `actionId`. */
  ghost predicate EndsWithApproval(e: Peers, events: seq<Event>, a: RecoveryAction, actionId: string) {
    exists d, reviews, round ::
      ApprovalRecords(e, d, reviews, round, a, actionId)
      && EndsWith(events, [DecisionMade(d)] + Given(reviews) + [RoundClosed(round)])
  }

  predicate ApprovalRecords(e: Peers, d: Decision, reviews: seq<PeerReview>, round: Round, a: RecoveryAction,
                            actionId: string)
  {
    && d.agent == e.proposer && d.action == a && ApprovedWithoutRevision(e, d, reviews)
    && round.roundIndex == d.roundIndex && round.decisionId == d.decisionId
    && round.reviewIds == ReviewIds(reviews)
    && round.status == Approved && round.revisions == [] && round.selectedActionId == Some(actionId)
  }

  predicate EndsWith(events: seq<Event>, tail: seq<Event>) {
    |tail| <= |events| && events[|events| - |tail|..] == tail
  }

  lemma EndsWithMore(head: seq<Event>, events: seq<Event>, tail: seq<Event>)
    requires EndsWith(events, tail)
    ensures EndsWith(head + events, tail)
  {
    assert (head + events)[|head + events| - |tail|..] == events[|events| - |tail|..];
  }

  lemma EndsWithApprovalMore(e: Peers, head: seq<Event>, events: seq<Event>, a: RecoveryAction, actionId: string)
    requires EndsWithApproval(e, events, a, actionId)
    ensures EndsWithApproval(e, head + events, a, actionId)
  {
    var d, reviews, round :|
      ApprovalRecords(e, d, reviews, round, a, actionId)
      && EndsWith(events, [DecisionMade(d)] + Given(reviews) + [RoundClosed(round)]);
    EndsWithMore(head, events, [DecisionMade(d)] + Given(reviews) + [RoundClosed(round)]);
  }

  /** How a settled negotiation ends. */
  ghost predicate SettledWell(e: Peers, r: Result) {
    r.action.Some? ==>
      && r.rounds != [] && r.rounds[|r.rounds| - 1].selectedActionId.Some?
      && EndsWithApproval(e, r.events, r.action.value, r.rounds[|r.rounds| - 1].selectedActionId.value)
  }

  /** An approving step records the approval of the very action it was played on. */
  predicate ApprovesItsAction(e: Peers, s: Step, a: RecoveryAction) {
    s.Close? && s.round.status == Approved ==>
      && s.round.selectedActionId.Some?
      && ApprovalRecords(e, s.decision, s.reviews, s.round, a, s.round.selectedActionId.value)
  }

  lemma ConcludedApproval(e: Peers, ev: Evidence, d: Decision, reviews: seq<PeerReview>, o: Outcome)
    ensures var s := Conclude(e, ev, d, reviews, o);
            s.Close? && s.round.status == Approved ==>
              && o.approved && o.revisions == [] && s.decision == d && s.reviews == reviews
              && s.round == RoundOf(d, reviews, o, [], Approved, s.round.selectedActionId)
              && s.round.selectedActionId.Some?
  {
  }

  lemma ApprovedStepRecords(e: Peers, ev: Evidence, a: RecoveryAction, index: nat)
    ensures ApprovesItsAction(e, PlayRound(e, ev, a, index), a)
  {
    var d := DecisionFor(e, a, index);
    var c := CollectAll(e, d);
    if c.Collected? {
      ConcludedApproval(e, ev, d, c.reviews, Resolve(e.profile, c.reviews, DecisionScopes(a.kind)));
    }
  }

  lemma LastStepSettles(e: Peers, s: Step, a: RecoveryAction)
    requires !s.Again? && ApprovesItsAction(e, s, a)
    ensures SettledWell(e, Prepend([s.decision], StepRounds(s), StepEvents(s), Verdicted(a, s)))
  {
    var r := Prepend([s.decision], StepRounds(s), StepEvents(s), Verdicted(a, s));
    assert r.events == StepEvents(s);
    if r.action.Some? {
      assert EndsWith(r.events, [DecisionMade(s.decision)] + Given(s.reviews) + [RoundClosed(s.round)]);
    }
  }

  lemma PrependLast(decisions: seq<Decision>, rounds: seq<Round>, events: seq<Event>, rest: Result)
    ensures var r := Prepend(decisions, rounds, events, rest);
            && r.action == rest.action && r.events == events + rest.events
            && (rest.rounds != [] ==> r.rounds != [] && r.rounds[|r.rounds| - 1] == rest.rounds[|rest.rounds| - 1])
  {
  }

  lemma EarlierStepSettles(e: Peers, s: Step, rest: Result)
    requires SettledWell(e, rest)
    ensures SettledWell(e, Prepend([s.decision], StepRounds(s), StepEvents(s), rest))
  {
    PrependLast([s.decision], StepRounds(s), StepEvents(s), rest);
    if rest.action.Some? {
      EndsWithApprovalMore(e, StepEvents(s), rest.events, rest.action.value,
                           rest.rounds[|rest.rounds| - 1].selectedActionId.value);
    }
  }

  lemma {:induction false} SettledActionReviewedFrom(
    e: Peers, play: (RecoveryAction, nat) -> Step, maxRounds: nat, a: RecoveryAction, localRound: nat, offset: nat)
    requires forall a, index :: ApprovesItsAction(e, play(a, index), a)
    ensures SettledWell(e, NegotiateFrom(play, maxRounds, a, localRound, offset))
    decreases maxRounds + 1 - localRound
  {
    if localRound <= maxRounds {
      var s := play(a, offset + localRound);
      if s.Again? {
        SettledActionReviewedFrom(e, play, maxRounds, s.revised, localRound + 1, offset);
        EarlierStepSettles(e, s, NegotiateFrom(play, maxRounds, s.revised, localRound + 1, offset));
      } else {
        LastStepSettles(e, s, a);
      }
    }
  }

  /** A settled action was itself proposed and reviewed, not an ancestor of it: the records of
      the negotiation end with the decision for that very action, the full set of its reviews,
      which approve it and ask for nothing, and the approved round. */
  lemma SettledActionReviewed(e: Peers, ev: Evidence, a: RecoveryAction, offset: nat)
    ensures SettledWell(e, NegotiationOf(e, ev, a, offset))
  {
    forall a, index ensures ApprovesItsAction(e, Playing(e, ev)(a, index), a) {
      ApprovedStepRecords(e, ev, a, index);
    }
    SettledActionReviewedFrom(e, Playing(e, ev), e.profile.maxNegotiationRounds, a, 1, offset);
  }

  // ----- what a round decides -----

  /** Which kinds of action a veto of this scope bears on. */
  function KindsBlockedBy(scope: string): set<ActionKind> {
    if scope in {"action_validity", "target_alignment"} then {ObserveOnly, RolloutRestart, ScaleOut}
    else if scope == "availability" then {ObserveOnly, RolloutRestart}
    else if scope in {"recovery", "executability"} then {RolloutRestart}
    else if scope in {"capacity", "resource_safety", "budget", "cost_efficiency"} then {ScaleOut}
    else {}
  }

  lemma ScopesOfKind(kind: ActionKind, scope: string)
    ensures scope in DecisionScopes(kind) <==> kind in KindsBlockedBy(scope)
  {
  }

  /** The n-th agent of the profile, which is enabled, gave the review. */
  ghost predicate GivenBy(p: Profile, n: nat, r: PeerReview) {
    n < |p.agents| && p.agents[n].name == r.reviewer && p.agents[n].enabled
  }

  /** The n-th agent's review is a veto of scopes that bear on the kind. */
  ghost predicate Blocks(p: Profile, n: nat, r: PeerReview, kind: ActionKind) {
    GivenBy(p, n, r) && r.verdict == Veto
    && exists scope :: scope in p.agents[n].vetoScopes && kind in KindsBlockedBy(scope)
  }

  /** The reviews let an action of this kind pass: role-based veto asks that none blocks it, unanimous veto
      that no enabled agent vetoes, and a majority that half of a positive weight approves. */
  ghost predicate Consent(p: Profile, reviews: seq<PeerReview>, kind: ActionKind) {
    match p.strategy
    case RoleBasedVeto => forall r, n: nat :: r in reviews ==> !Blocks(p, n, r, kind)
    case UnanimousVeto => forall r, n: nat :: r in reviews && GivenBy(p, n, r) ==> r.verdict != Veto
    case WeightedMajority => Weight(p, reviews) > 0.0 && 2.0 * ApprovalWeight(p, reviews) >= Weight(p, reviews)
  }

  lemma EnabledIff(p: Profile, r: PeerReview)
    requires DistinctNames(p)
    ensures IsEnabled(p, r) <==> exists n: nat :: GivenBy(p, n, r)
  {
    if n: nat :| GivenBy(p, n, r) { BindingDecides(p, r, [], n); }
    if IsEnabled(p, r) { assert GivenBy(p, IndexOf(p.agents, r.reviewer), r); }
  }

  lemma BlocksIff(p: Profile, r: PeerReview, kind: ActionKind)
    requires DistinctNames(p)
    ensures BlockingVeto(p, r, DecisionScopes(kind)) <==> exists n: nat :: Blocks(p, n, r, kind)
  {
    forall scope ensures scope in DecisionScopes(kind) <==> kind in KindsBlockedBy(scope) {
      ScopesOfKind(kind, scope);
    }
    if n: nat :| Blocks(p, n, r, kind) { BindingDecides(p, r, DecisionScopes(kind), n); }
    if BlockingVeto(p, r, DecisionScopes(kind)) { assert Blocks(p, IndexOf(p.agents, r.reviewer), r, kind); }
  }

  lemma ConsentIff(p: Profile, reviews: seq<PeerReview>, kind: ActionKind)
    requires SoundProfile(p)
    ensures Resolve(p, reviews, DecisionScopes(kind)).approved <==> Consent(p, reviews, kind)
  {
    ApprovedIff(p, reviews, DecisionScopes(kind));
    forall r ensures BlockingVeto(p, r, DecisionScopes(kind)) <==> exists n: nat :: Blocks(p, n, r, kind) {
      BlocksIff(p, r, kind);
    }
    forall r ensures IsEnabled(p, r) <==> exists n: nat :: GivenBy(p, n, r) {
      EnabledIff(p, r);
    }
  }

  lemma RevisionsWanted(p: Profile, reviews: seq<PeerReview>, kind: ActionKind)
    requires SoundProfile(p)
    ensures Resolve(p, reviews, DecisionScopes(kind)).revisions == []
            <==> forall r, n: nat :: r in reviews && GivenBy(p, n, r) ==> r.verdict != Revise
  {
    var revisions := Resolve(p, reviews, DecisionScopes(kind)).revisions;
    forall r ensures r in revisions <==> r in reviews && r.verdict == Revise && exists n: nat :: GivenBy(p, n, r) {
      RevisionsAre(p, reviews, DecisionScopes(kind), r);
      EnabledIff(p, r);
    }
    EmptyIff(revisions);
  }

  /** How a round ends: it aborts on a bad answer, rejects without consent, approves with consent and no
      enabled reviewer asking for a revision, and otherwise goes on with the revised action if that
      makes sense, or refuses it. */
  lemma RoundEnds(e: Peers, ev: Evidence, a: RecoveryAction, index: nat)
    requires SoundProfile(e.profile)
    ensures var s, c := PlayRound(e, ev, a, index), CollectAll(e, DecisionFor(e, a, index));
            var consent := Consent(e.profile, c.reviews, a.kind);
            var wanted := exists r, n: nat :: r in c.reviews && GivenBy(e.profile, n, r) && r.verdict == Revise;
            && s.decision == DecisionFor(e, a, index) && s.reviews == c.reviews
            && (s.Abort? <==> c.CollectionFailed?)
            && (c.Collected? ==>
                  && (s.round.status == Rejected <==> !consent)
                  && (s.round.status == Approved <==> consent && !wanted)
                  && (s.round.status in {RevisionRequired, RevisionRejected} <==> consent && wanted)
                  && (s.Again? <==> s.round.status == RevisionRequired)
                  && (s.round.selectedActionId.Some? <==> s.round.status == Approved))
  {
    var c := CollectAll(e, DecisionFor(e, a, index));
    ConsentIff(e.profile, c.reviews, a.kind);
    RevisionsWanted(e.profile, c.reviews, a.kind);
  }

  /** How a concluded round goes on: it does exactly if what its reviewers ask for is a revision that makes
      sense, and then with that action. */
  ghost predicate GoesOn(p: Profile, ev: Evidence, s: Step, revision: Revision) {
    && (s.Again? ==>
          && revision.NewAction? && s.revised == revision.action && s.round.revisions == revision.notes
          && Sensible(p, s.revised, ev.desiredReplicas, ev.namespace, ev.deployment))
    && (s.Close? && s.round.status == RevisionRejected ==>
          !(revision.NewAction? && Sensible(p, revision.action, ev.desiredReplicas, ev.namespace, ev.deployment)))
  }

  lemma ConcludedGoesOn(e: Peers, ev: Evidence, d: Decision, reviews: seq<PeerReview>, o: Outcome)
    ensures GoesOn(e.profile, ev, Conclude(e, ev, d, reviews, o), ApplyRevisions(d.action, o.revisions))
  {
  }

  /** A round goes on exactly if what its reviewers ask for is a revision that targets the run's deployment,
      stays in the action space and, scaling out, raises the replicas; it goes on with that action. */
  lemma RevisedRoundEnds(e: Peers, ev: Evidence, a: RecoveryAction, index: nat)
    ensures var reviews := CollectAll(e, DecisionFor(e, a, index)).reviews;
            GoesOn(e.profile, ev, PlayRound(e, ev, a, index),
                   ApplyRevisions(a, Resolve(e.profile, reviews, DecisionScopes(a.kind)).revisions))
  {
    var d := DecisionFor(e, a, index);
    var reviews := CollectAll(e, d).reviews;
    ConcludedGoesOn(e, ev, d, reviews, Resolve(e.profile, reviews, DecisionScopes(a.kind)));
  }

  lemma RecordOf(d: Decision, reviews: seq<PeerReview>, o: Outcome, notes: seq<RevisionNote>, status: RoundStatus,
                 actionId: Option<string>, name: string)
    ensures var round := RoundOf(d, reviews, o, notes, status, actionId);
            && |round.reviewIds| == |reviews|
            && (forall i :: 0 <= i < |reviews| ==> round.reviewIds[i] == reviews[i].reviewId)
            && (name in round.remainingAbstentions <==>
                  exists r :: r in reviews && r.reviewer == name && r.verdict == Abstain)
            && round.remainingVetoes == o.blockingVetoes
  {
    InReviewers(WithVerdict(reviews, Abstain), name);
    forall r ensures r in WithVerdict(reviews, Abstain) <==> r in reviews && r.verdict == Abstain {
      FilterMembers(reviews, (q: PeerReview) => q.verdict == Abstain, r);
    }
  }

  lemma ConcludedRecord(e: Peers, ev: Evidence, d: Decision, reviews: seq<PeerReview>, o: Outcome, name: string)
    ensures var s := Conclude(e, ev, d, reviews, o);
            && s.reviews == reviews && |s.round.reviewIds| == |reviews|
            && (forall i :: 0 <= i < |reviews| ==> s.round.reviewIds[i] == reviews[i].reviewId)
            && (name in s.round.remainingAbstentions <==>
                  exists r :: r in reviews && r.reviewer == name && r.verdict == Abstain)
            && s.round.remainingVetoes == o.blockingVetoes
  {
    var round := Conclude(e, ev, d, reviews, o).round;
    assert round == RoundOf(d, reviews, o, round.revisions, round.status, round.selectedActionId);
    RecordOf(d, reviews, o, round.revisions, round.status, round.selectedActionId, name);
  }

  /** A round's record lists the reviews, who abstained, and the vetoes that blocked. */
  lemma RoundRecords(e: Peers, ev: Evidence, a: RecoveryAction, index: nat, name: string)
    requires !PlayRound(e, ev, a, index).Abort?
    ensures var s := PlayRound(e, ev, a, index);
            && |s.round.reviewIds| == |s.reviews|
            && (forall i :: 0 <= i < |s.reviews| ==> s.round.reviewIds[i] == s.reviews[i].reviewId)
            && (name in s.round.remainingAbstentions <==>
                  exists r :: r in s.reviews && r.reviewer == name && r.verdict == Abstain)
            && s.round.remainingVetoes
               == Resolve(e.profile, s.reviews, DecisionScopes(a.kind)).blockingVetoes
  {
    var d := DecisionFor(e, a, index);
    var reviews := CollectAll(e, d).reviews;
    ConcludedRecord(e, ev, d, reviews, Resolve(e.profile, reviews, DecisionScopes(a.kind)), name);
  }

  /** The veto scopes of the deterministic role-based profile. */
  ghost predicate RoleVetoScopes(p: Profile) {
    && p.strategy == RoleBasedVeto && |p.agents| == 4
    && p.agents[0].name == "AIServiceHASupportAgent" && p.agents[0].vetoScopes == ["availability", "recovery"]
    && p.agents[1].name == "AIApplicationManagementAgent"
    && p.agents[1].vetoScopes == ["action_validity", "target_alignment"]
    && p.agents[2].name == "AISemiconductorInfraOpsAgent" && p.agents[2].vetoScopes == ["capacity", "resource_safety"]
    && p.agents[3].name == "CostOptimizationAgent" && p.agents[3].vetoScopes == ["budget", "cost_efficiency"]
  }

  /** Under that profile a round is rejected exactly for an enabled veto of the application agent, of the
      availability agent on anything but a scale-out, or of the infrastructure or cost agent on a
      scale-out. */
  lemma RoleVetoRejects(e: Peers, ev: Evidence, a: RecoveryAction, index: nat)
    requires SoundProfile(e.profile) && RoleVetoScopes(e.profile)
    requires CollectAll(e, DecisionFor(e, a, index)).Collected?
    ensures PlayRound(e, ev, a, index).round.status == Rejected <==>
              exists r, n: nat ::
                r in PlayRound(e, ev, a, index).reviews && GivenBy(e.profile, n, r) && r.verdict == Veto
                && (r.reviewer == "AIApplicationManagementAgent"
                    || (r.reviewer == "AIServiceHASupportAgent" && a.kind != ScaleOut)
                    || (r.reviewer in {"AISemiconductorInfraOpsAgent", "CostOptimizationAgent"} && a.kind == ScaleOut))
  {
    var p, reviews := e.profile, CollectAll(e, DecisionFor(e, a, index)).reviews;
    RoundEnds(e, ev, a, index);
    forall r, n: nat
      ensures Blocks(p, n, r, a.kind) <==>
                && GivenBy(p, n, r) && r.verdict == Veto
                && (r.reviewer == "AIApplicationManagementAgent"
                    || (r.reviewer == "AIServiceHASupportAgent" && a.kind != ScaleOut)
                    || (r.reviewer in {"AISemiconductorInfraOpsAgent", "CostOptimizationAgent"} && a.kind == ScaleOut))
    {
      RoleBlocks(p, n, r, a.kind);
    }
  }

  lemma RoleBlocks(p: Profile, n: nat, r: PeerReview, kind: ActionKind)
    requires RoleVetoScopes(p)
    ensures Blocks(p, n, r, kind) <==>
              && GivenBy(p, n, r) && r.verdict == Veto
              && (r.reviewer == "AIApplicationManagementAgent"
                  || (r.reviewer == "AIServiceHASupportAgent" && kind != ScaleOut)
                  || (r.reviewer in {"AISemiconductorInfraOpsAgent", "CostOptimizationAgent"} && kind == ScaleOut))
  {
    if GivenBy(p, n, r) {
      var scopes := p.agents[n].vetoScopes;
      assert scopes[0] in scopes && scopes[1] in scopes;
      assert forall s :: s in scopes ==> s == scopes[0] || s == scopes[1];
    }
  }
}
