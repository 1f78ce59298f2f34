/** One mutual-supervision run: diagnose, propose, negotiate, gate, execute, assess, replan. */
module Supervision {
  import opened Prelude
  import opened SupervisionModels
  import opened Negotiation

  datatype Mode = Mock | DryRun | Real

  datatype Validator = Validator(
    allowedNamespaces: set<string>, allowedDeployments: set<string>, minReplicas: int, maxReplicas: int)

  predicate NameChar(c: char) { 'a' <= c <= 'z' || '0' <= c <= '9' || c == '-' }

  /** `K8S_NAME_PATTERN`: 1 to 63 name characters, no hyphen at either end. */
  predicate KubernetesName(s: string) {
    1 <= |s| <= 63 && s[0] != '-' && s[|s| - 1] != '-' && forall i :: 0 <= i < |s| ==> NameChar(s[i])
  }

  /** `CommandValidator.validate_recovery_action` accepts. */
  predicate Accepts(v: Validator, a: RecoveryAction) {
    && KubernetesName(a.namespace) && KubernetesName(a.deployment)
    && a.namespace in v.allowedNamespaces && a.deployment in v.allowedDeployments
    && (a.kind == ScaleOut <==> a.replicas.Some?)
    && (a.replicas.Some? ==> v.minReplicas <= a.replicas.value <= v.maxReplicas)
  }

  predicate Alphanumeric(c: char) { 'a' <= c <= 'z' || '0' <= c <= '9' }

  /** A name as the pattern reads: an alphanumeric character, or two with at most 61 alphanumeric
      characters and hyphens between them. */
  ghost predicate ValidName(s: string) {
    && s != [] && Alphanumeric(s[0])
    && (|s| > 1 ==>
          && |s| - 2 <= 61 && Alphanumeric(s[|s| - 1])
          && forall i :: 0 < i < |s| - 1 ==> Alphanumeric(s[i]) || s[i] == '-')
  }

  /** What the validator is for: the target has valid names that are allow-listed, and the action
      carries replicas exactly if it scales out, no fewer than the minimum and no more than the maximum. */
  ghost predicate Permitted(v: Validator, a: RecoveryAction) {
    && ValidName(a.namespace) && ValidName(a.deployment)
    && a.namespace in v.allowedNamespaces && a.deployment in v.allowedDeployments
    && match a.replicas
       case Some(r) => a.kind == ScaleOut && v.minReplicas <= r && r <= v.maxReplicas
       case None => a.kind != ScaleOut
  }

  lemma ValidNameIff(s: string)
    ensures KubernetesName(s) <==> ValidName(s)
  {
    if |s| > 1 && ValidName(s) {
      forall i | 0 <= i < |s| ensures NameChar(s[i]) {
        assert i == 0 || i == |s| - 1 || 0 < i < |s| - 1;
      }
    }
  }

  lemma AcceptsIff(v: Validator, a: RecoveryAction)
    ensures Accepts(v, a) <==> Permitted(v, a)
  {
    ValidNameIff(a.namespace);
    ValidNameIff(a.deployment);
  }

  datatype Diagnosis = DiagnosisFails | Diagnosed(approved: bool, missingMetric: bool)

  datatype Execution = ExecutionRaises | Executed(valid: bool)

  datatype Assessment = AssessmentRaises | Assessed(recovered: bool)

  datatype PostReply = NoPostReview | BadPostReview | PostReviewed(approved: bool)

  /** Everything around one run that the coordinator does not decide: adapters, evidence,
      executor and cancellation, each free to fail at any point. `checkRaises(n)` says whether
      the n-th cancellation checkpoint of the run raises; `Option` evidence and proposals are
      None when the call raises; the other answers are indexed by the candidate at hand. */
  datatype World = World(
    peers: Peers,
    mode: Mode,
    validator: Validator,
    checkRaises: nat -> bool,
    evidence: Option<Evidence>,
    diagnosis: Diagnosis,
    proposals: Option<seq<RecoveryAction>>,
    lockFree: nat -> bool,
    execute: (nat, RecoveryAction) -> Execution,
    assess: nat -> Assessment,
    postReview: (nat, string) -> PostReply)

  datatype FinalStatus =
    | SafeStopped | NoActionRequired | SafeFailure | Recovered | RecoveredAfterReplan | DryRunValidated

  /** A report, or an exception that leaves `run`. */
  datatype Outcome = Raised | Reported(status: FinalStatus, valid: bool)

  // ----- projections of the event trace -----

  function RoundsIn(events: seq<Event>): seq<Round> {
    if events == [] then []
    else
      var last := events[|events| - 1];
      RoundsIn(events[..|events| - 1]) + (if last.RoundClosed? then [last.round] else [])
  }

  function DecisionsIn(events: seq<Event>): seq<Decision> {
    if events == [] then []
    else
      var last := events[|events| - 1];
      DecisionsIn(events[..|events| - 1]) + (if last.DecisionMade? then [last.decision] else [])
  }

  function Dispatches(events: seq<Event>): nat {
    if events == [] then 0
    else Dispatches(events[..|events| - 1]) + (if events[|events| - 1].ExecutionDispatched? then 1 else 0)
  }

  lemma {:induction false} ProjectionsConcat(s: seq<Event>, t: seq<Event>)
    ensures RoundsIn(s + t) == RoundsIn(s) + RoundsIn(t)
    ensures DecisionsIn(s + t) == DecisionsIn(s) + DecisionsIn(t)
    ensures Dispatches(s + t) == Dispatches(s) + Dispatches(t)
  {
    if t == [] {
      assert s + t == s;
    } else {
      var front := t[..|t| - 1];
      ProjectionsConcat(s, front);
      assert (s + t)[..|s + t| - 1] == s + front && (s + t)[|s + t| - 1] == t[|t| - 1];
    }
  }

  lemma ProjectionsSnoc(s: seq<Event>, x: Event)
    ensures RoundsIn(s + [x]) == RoundsIn(s) + (if x.RoundClosed? then [x.round] else [])
    ensures DecisionsIn(s + [x]) == DecisionsIn(s) + (if x.DecisionMade? then [x.decision] else [])
    ensures Dispatches(s + [x]) == Dispatches(s) + (if x.ExecutionDispatched? then 1 else 0)
  {
    assert (s + [x])[..|s + [x]| - 1] == s;
  }

  predicate Quiet(events: seq<Event>) { forall i :: 0 <= i < |events| ==> !events[i].ExecutionDispatched? }

  lemma {:induction false} GivenProjects(reviews: seq<PeerReview>)
    ensures RoundsIn(Given(reviews)) == [] && DecisionsIn(Given(reviews)) == [] && Dispatches(Given(reviews)) == 0
  {
    if reviews != [] {
      var front := reviews[..|reviews| - 1];
      GivenProjects(front);
      assert Given(reviews) == Given(front) + [ReviewGiven(reviews[|reviews| - 1])];
      ProjectionsSnoc(Given(front), ReviewGiven(reviews[|reviews| - 1]));
    }
  }

  lemma HeadProjects(d: Decision, reviews: seq<PeerReview>)
    ensures var head := [DecisionMade(d)] + Given(reviews);
            RoundsIn(head) == [] && DecisionsIn(head) == [d] && Dispatches(head) == 0
  {
    ProjectionsSnoc([], DecisionMade(d));
    assert [] + [DecisionMade(d)] == [DecisionMade(d)];
    ProjectionsConcat([DecisionMade(d)], Given(reviews));
    GivenProjects(reviews);
  }

  lemma StepProjects(s: Step)
    ensures RoundsIn(StepEvents(s)) == StepRounds(s) && DecisionsIn(StepEvents(s)) == [s.decision]
    ensures Dispatches(StepEvents(s)) == 0 && Quiet(StepEvents(s))
  {
    var head := [DecisionMade(s.decision)] + Given(s.reviews);
    HeadProjects(s.decision, s.reviews);
    if s.Abort? {
      assert StepEvents(s) == head;
    } else {
      assert StepEvents(s) == head + [RoundClosed(s.round)];
      ProjectionsSnoc(head, RoundClosed(s.round));
    }
  }

  predicate Projects(r: Result) {
    && RoundsIn(r.events) == r.rounds && DecisionsIn(r.events) == r.decisions
    && Dispatches(r.events) == 0 && Quiet(r.events)
  }

  /** The records of a negotiation are its decisions and rounds; it dispatches nothing. */
  lemma {:induction false} NegotiationProjects(
    play: (RecoveryAction, nat) -> Step, maxRounds: nat, a: RecoveryAction, localRound: nat, offset: nat)
    ensures Projects(NegotiateFrom(play, maxRounds, a, localRound, offset))
    decreases maxRounds + 1 - localRound
  {
    if localRound <= maxRounds {
      var s := play(a, offset + localRound);
      var rest := AfterStep(play, maxRounds, a, s, localRound, offset);
      assert Projects(rest) by {
        if s.Again? { NegotiationProjects(play, maxRounds, s.revised, localRound + 1, offset); }
      }
      StepProjects(s);
      ProjectionsConcat(StepEvents(s), rest.events);
    }
  }

  // ----- what holds of every trace -----

  /** The i-th round and the i-th decision have index i + 1, whichever candidate they belong
      to, and each round closes the decision of the same index. */
  predicate Numbered(events: seq<Event>) {
    var rounds, decisions := RoundsIn(events), DecisionsIn(events);
    && |rounds| <= |decisions| <= |rounds| + 1
    && (forall n :: 0 <= n < |decisions| ==> decisions[n].roundIndex == n + 1)
    && (forall n :: 0 <= n < |rounds| ==>
          rounds[n].roundIndex == n + 1 && rounds[n].decisionId == decisions[n].decisionId)
  }

  /** What must be true of an action, and of the trace before its last validation, for it to be
      handed to the executor: it targets the run's deployment, lies in the action space, raises
      the replicas if it scales out, is permitted by the allow lists and limits, and was itself
      approved in the round that ends the trace. */
  ghost predicate ReadyToDispatch(w: World, namespace: string, deployment: string,
                                  before: seq<Event>, a: RecoveryAction, actionId: string)
  {
    && w.evidence.Some?
    && Sensible(w.peers.profile, a, w.evidence.value.desiredReplicas, namespace, deployment)
    && Permitted(w.validator, a)
    && EndsWithApproval(w.peers, before, a, actionId)
  }

  type Gate = (seq<Event>, RecoveryAction, string) -> bool

  /** Every dispatch follows a successful safety validation, of an action that was ready. */
  ghost predicate Gated(ready: Gate, events: seq<Event>) {
    forall i :: 0 <= i < |events| && events[i].ExecutionDispatched? ==>
      && i >= 1 && events[i - 1] == SafetyValidated(true)
      && ready(events[..i - 1], events[i].action, events[i].actionId)
  }

  ghost function ReadyFor(w: World, namespace: string, deployment: string): Gate {
    (before: seq<Event>, a: RecoveryAction, actionId: string) =>
      ReadyToDispatch(w, namespace, deployment, before, a, actionId)
  }

  ghost predicate Safe(w: World, namespace: string, deployment: string, events: seq<Event>) {
    Gated(ReadyFor(w, namespace, deployment), events)
  }

  ghost function ApprovedBy(e: Peers): Gate {
    (before: seq<Event>, a: RecoveryAction, actionId: string) => EndsWithApproval(e, before, a, actionId)
  }

  /** `approved` says which traces end with the approval of an action. */
  ghost predicate Approves(approved: Gate, e: Peers) {
    forall before, a, actionId {:trigger EndsWithApproval(e, before, a, actionId)} ::
      approved(before, a, actionId) == EndsWithApproval(e, before, a, actionId)
  }

  /** `ready` says when the run may dispatch, given which traces end with an approval. */
  ghost predicate Justifies(ready: Gate, approved: Gate, w: World, namespace: string, deployment: string) {
    forall before, a, actionId {:trigger ready(before, a, actionId)} ::
      ready(before, a, actionId) ==
      (&& w.evidence.Some?
       && Sensible(w.peers.profile, a, w.evidence.value.desiredReplicas, namespace, deployment)
       && Permitted(w.validator, a)
       && approved(before, a, actionId))
  }

  lemma GatedThenQuiet(ready: Gate, events: seq<Event>, more: seq<Event>)
    requires Gated(ready, events) && Quiet(more)
    ensures Gated(ready, events + more)
  {
    var all := events + more;
    assert forall j :: |events| <= j < |all| ==> all[j] == more[j - |events|];
    forall i | 0 <= i < |all| && all[i].ExecutionDispatched?
      ensures i >= 1 && all[i - 1] == SafetyValidated(true) && ready(all[..i - 1], all[i].action, all[i].actionId)
    {
      assert all[i] == events[i];
      assert all[..i - 1] == events[..i - 1];
    }
  }

  /** Validating a ready action and dispatching it keeps the trace gated. */
  lemma GatedThenDispatch(ready: Gate, events: seq<Event>, a: RecoveryAction, actionId: string)
    requires Gated(ready, events) && ready(events, a, actionId)
    ensures Gated(ready, events + [SafetyValidated(true)] + [ExecutionDispatched(actionId, a)])
  {
    var gated := events + [SafetyValidated(true)];
    var all := gated + [ExecutionDispatched(actionId, a)];
    GatedThenQuiet(ready, events, [SafetyValidated(true)]);
    forall i | 0 <= i < |all| && all[i].ExecutionDispatched?
      ensures i >= 1 && all[i - 1] == SafetyValidated(true) && ready(all[..i - 1], all[i].action, all[i].actionId)
    {
      if i < |gated| {
        assert all[i] == gated[i];
        assert all[..i - 1] == gated[..i - 1];
      } else {
        assert all[..i - 1] == events;
      }
    }
  }

  // ----- after execution -----

  /** The adapters that post-review, before position `n`, all answered properly. */
  predicate PostReviewsGood(w: World, index: nat, n: nat)
    requires n <= |w.peers.adapters|
  {
    forall k :: 0 <= k < n && CanPostReview in w.peers.adapters[k].capabilities ==>
      !w.postReview(index, w.peers.adapters[k].name).BadPostReview?
  }

  predicate PostReviewsApprove(w: World, index: nat, n: nat)
    requires n <= |w.peers.adapters|
  {
    forall k :: 0 <= k < n && CanPostReview in w.peers.adapters[k].capabilities ==>
      var reply := w.postReview(index, w.peers.adapters[k].name);
      reply.PostReviewed? ==> reply.approved
  }

  /** `_post_execution_reviews`. */
  method PostExecutionReviews(w: World, index: nat) returns (good: bool, approved: bool)
    ensures good <==> PostReviewsGood(w, index, |w.peers.adapters|)
    ensures good ==> (approved <==> PostReviewsApprove(w, index, |w.peers.adapters|))
  {
    approved := true;
    var k := 0;
    while k < |w.peers.adapters|
      invariant 0 <= k <= |w.peers.adapters|
      invariant PostReviewsGood(w, index, k)
      invariant approved <==> PostReviewsApprove(w, index, k)
    {
      if CanPostReview in w.peers.adapters[k].capabilities {
        var reply := w.postReview(index, w.peers.adapters[k].name);
        if reply.BadPostReview? {
          return false, false;
        }
        approved := approved && (reply.PostReviewed? ==> reply.approved);
      }
      k := k + 1;
    }
    good := true;
  }

  /** The recovery by the candidate at `index` was executed, measured and confirmed by every
      post-execution reviewer. */
  predicate Confirmed(w: World, index: nat) {
    && w.assess(index) == Assessed(true)
    && PostReviewsGood(w, index, |w.peers.adapters|) && PostReviewsApprove(w, index, |w.peers.adapters|)
  }

  // ----- one candidate -----

  datatype Attempt = AttemptRaises | Final(status: FinalStatus, valid: bool) | NextCandidate

  /** An attempt, the records it adds to the trace, and the checkpoints passed by its end. */
  datatype Tried = Tried(attempt: Attempt, records: seq<Event>, checks: nat)

  /** How an attempt may end, given the mode, the candidate's index and how many actions the
      attempt dispatched (and whether that execution succeeded). */
  predicate AttemptFits(w: World, index: nat, attempt: Attempt, dispatched: nat) {
    match attempt
    case AttemptRaises => dispatched <= 1
    case NextCandidate => dispatched <= 1
    case Final(status, valid) =>
      && (valid <==> status in {Recovered, RecoveredAfterReplan, DryRunValidated})
      && status != NoActionRequired
      && (status == SafeStopped ==> dispatched == 0)
      && (status == SafeFailure ==> dispatched == 1 && w.mode != DryRun)
      && (valid ==> dispatched == 1 && (status == DryRunValidated <==> w.mode == DryRun))
      && (status == Recovered ==> index == 0 && Confirmed(w, index))
      && (status == RecoveredAfterReplan ==> index > 0 && Confirmed(w, index))
  }

  /** A trace and its extension by one attempt. */
  ghost predicate AttemptKeeps(ready: Gate, past: seq<Event>, events: seq<Event>, attempt: Attempt) {
    && past <= events && Gated(ready, events) && Numbered(events)
    && (attempt.NextCandidate? ==> |DecisionsIn(events)| == |RoundsIn(events)|)
    && Dispatches(past) <= Dispatches(events)
  }

  /** A trace between two negotiations. */
  ghost predicate Between(ready: Gate, past: seq<Event>) {
    Gated(ready, past) && Numbered(past) && |DecisionsIn(past)| == |RoundsIn(past)|
  }

  /** An attempt extends the trace safely, and its end fits what it dispatched. */
  ghost predicate AttemptSafe(w: World, ready: Gate, index: nat, past: seq<Event>, events: seq<Event>,
                              attempt: Attempt)
  {
    && AttemptKeeps(ready, past, events, attempt)
    && AttemptFits(w, index, attempt, Dispatches(events) - Dispatches(past))
  }

  /** The trace after a negotiation: still gated and numbered, and when the negotiation settled
      on an action it ends with that action's approval. */
  ghost predicate Negotiated(ready: Gate, approved: Gate, past: seq<Event>, r: Result, events: seq<Event>) {
    && past <= events && Gated(ready, events) && Numbered(events)
    && Dispatches(events) == Dispatches(past)
    && (!r.failed ==> |DecisionsIn(events)| == |RoundsIn(events)|)
    && (r.action.Some? ==>
          && r.rounds != [] && r.rounds[|r.rounds| - 1].selectedActionId.Some?
          && approved(events, r.action.value, r.rounds[|r.rounds| - 1].selectedActionId.value))
  }

  /** A negotiation's numbering continues that of the trace before it. */
  lemma NumberedThen(past: seq<Event>, r: Result)
    requires Numbered(past) && |DecisionsIn(past)| == |RoundsIn(past)|
    requires Projects(r) && WellNumbered(r, |RoundsIn(past)| + 1) && VerdictMatches(r)
    ensures Numbered(past + r.events) && Dispatches(past + r.events) == Dispatches(past)
    ensures !r.failed ==> |DecisionsIn(past + r.events)| == |RoundsIn(past + r.events)|
  {
    ProjectionsConcat(past, r.events);
    var rounds, decisions := RoundsIn(past + r.events), DecisionsIn(past + r.events);
    var n := |RoundsIn(past)|;
    assert forall k :: n <= k < |decisions| ==> decisions[k] == r.decisions[k - n];
    assert forall k :: n <= k < |rounds| ==> rounds[k] == r.rounds[k - n];
  }

  lemma ExtendedTrace(ready: Gate, approved: Gate, e: Peers, past: seq<Event>, r: Result)
    requires Between(ready, past)
    requires Projects(r) && WellNumbered(r, |RoundsIn(past)| + 1) && VerdictMatches(r) && SettledWell(e, r)
    requires Approves(approved, e)
    ensures Negotiated(ready, approved, past, r, past + r.events)
  {
    NumberedThen(past, r);
    GatedThenQuiet(ready, past, r.events);
    if r.action.Some? { SettledStaysApproved(approved, e, past, r); }
  }

  lemma SettledStaysApproved(approved: Gate, e: Peers, past: seq<Event>, r: Result)
    requires r.action.Some? && SettledWell(e, r) && Approves(approved, e)
    ensures r.rounds != [] && r.rounds[|r.rounds| - 1].selectedActionId.Some?
    ensures approved(past + r.events, r.action.value, r.rounds[|r.rounds| - 1].selectedActionId.value)
  {
    EndsWithApprovalMore(e, past, r.events, r.action.value, r.rounds[|r.rounds| - 1].selectedActionId.value);
  }

  type Negotiator = (RecoveryAction, nat) -> Result

  /** `negotiate` is the negotiation among these peers on this evidence. */
  ghost predicate Negotiates(negotiate: Negotiator, e: Peers, ev: Evidence) {
    forall a, offset {:trigger NegotiationOf(e, ev, a, offset)} ::
      negotiate(a, offset) == NegotiationOf(e, ev, a, offset)
  }

  /** A negotiation on top of the trace so far. */
  lemma NegotiationKeeps(negotiate: Negotiator, e: Peers, ev: Evidence, candidate: RecoveryAction, past: seq<Event>,
                         ready: Gate, approved: Gate)
    requires Between(ready, past) && Approves(approved, e) && Negotiates(negotiate, e, ev)
    ensures var r := negotiate(candidate, |RoundsIn(past)|);
            Negotiated(ready, approved, past, r, past + r.events)
  {
    var offset := |RoundsIn(past)|;
    assert negotiate(candidate, offset) == NegotiationOf(e, ev, candidate, offset);
    NegotiationProjects(Playing(e, ev), e.profile.maxNegotiationRounds, candidate, 1, offset);
    NegotiationTrace(e, ev, candidate, offset);
    SettledActionReviewed(e, ev, candidate, offset);
    ExtendedTrace(ready, approved, e, past, negotiate(candidate, offset));
  }

  lemma AppendQuiet(ready: Gate, events: seq<Event>, x: Event)
    requires Gated(ready, events) && Numbered(events)
    requires x.SafetyValidated? || x.ExecutionCompleted?
    ensures var all := events + [x];
            && Gated(ready, all) && Numbered(all) && Dispatches(all) == Dispatches(events)
            && DecisionsIn(all) == DecisionsIn(events) && RoundsIn(all) == RoundsIn(events)
  {
    GatedThenQuiet(ready, events, [x]);
    ProjectionsSnoc(events, x);
  }

  /** What a finished execution comes to. */
  function ExecutionVerdict(w: World, index: nat, valid: bool): Attempt {
    if w.mode == DryRun then if valid then Final(DryRunValidated, true) else NextCandidate
    else if w.assess(index).AssessmentRaises? then AttemptRaises
    else if !PostReviewsGood(w, index, |w.peers.adapters|) then Final(SafeFailure, false)
    else if valid && Confirmed(w, index) then Final(if index == 0 then Recovered else RecoveredAfterReplan, true)
    else NextCandidate
  }

  /** The execution block: nothing is dispatched while the target is locked by another. */
  function ExecutionOf(w: World, index: nat, selected: RecoveryAction, actionId: string, checks: nat): Tried {
    var execution := w.execute(index, selected);
    var dispatched := ExecutionDispatched(actionId, selected);
    if w.mode == Real && !w.lockFree(index) then Tried(Final(SafeStopped, false), [], checks)
    else if execution.ExecutionRaises? || w.checkRaises(checks) then Tried(AttemptRaises, [dispatched], checks)
    else Tried(ExecutionVerdict(w, index, execution.valid),
               [dispatched, ExecutionCompleted(actionId, execution.valid)], checks + 1)
  }

  /** Dispatch under the target lock, and the verdict on the execution. */
  method ExecuteSelected(w: World, index: nat, selected: RecoveryAction, actionId: string, checks: nat)
    returns (t: Tried)
    ensures t == ExecutionOf(w, index, selected, actionId, checks)
  {
    if w.mode == Real && !w.lockFree(index) { return Tried(Final(SafeStopped, false), [], checks); }
    var records := [ExecutionDispatched(actionId, selected)];
    var execution := w.execute(index, selected);
    if execution.ExecutionRaises? || w.checkRaises(checks) { return Tried(AttemptRaises, records, checks); }
    records := records + [ExecutionCompleted(actionId, execution.valid)];
    if w.mode == DryRun {
      return Tried(if execution.valid then Final(DryRunValidated, true) else NextCandidate, records, checks + 1);
    }
    var assessment := w.assess(index);
    if assessment.AssessmentRaises? { return Tried(AttemptRaises, records, checks + 1); }
    var good, approved := PostExecutionReviews(w, index);
    if !good { return Tried(Final(SafeFailure, false), records, checks + 1); }
    if execution.valid && assessment.recovered && approved {
      return Tried(Final(if index == 0 then Recovered else RecoveredAfterReplan, true), records, checks + 1);
    }
    return Tried(NextCandidate, records, checks + 1);
  }

  /** The records of an execution: nothing, or its dispatch, perhaps followed by its completion. */
  predicate ExecutionRecords(records: seq<Event>, actionId: string, a: RecoveryAction) {
    && |records| <= 2
    && (|records| >= 1 ==> records[0] == ExecutionDispatched(actionId, a))
    && (|records| == 2 ==> records[1].ExecutionCompleted?)
  }

  /** Nothing was dispatched exactly when the target was locked by another, and how the execution
      ends fits what was dispatched. */
  lemma ExecutionFits(w: World, index: nat, selected: RecoveryAction, actionId: string, checks: nat)
    ensures var t := ExecutionOf(w, index, selected, actionId, checks);
            && ExecutionRecords(t.records, actionId, selected)
            && (t.records == [] <==> w.mode == Real && !w.lockFree(index))
            && AttemptFits(w, index, t.attempt, if t.records == [] then 0 else 1)
  {
  }

  /** Which executions end the run with success: dispatched, finished without interruption and valid,
      and then, except in a dry run, measured as recovered and confirmed by every post-reviewer. */
  lemma ExecutionSucceedsIff(w: World, index: nat, selected: RecoveryAction, actionId: string, checks: nat)
    ensures var t := ExecutionOf(w, index, selected, actionId, checks);
            t.attempt.Final? && t.attempt.valid <==>
              && (w.mode == Real ==> w.lockFree(index))
              && w.execute(index, selected) == Executed(true) && !w.checkRaises(checks)
              && (w.mode == DryRun || Confirmed(w, index))
  {
  }

  lemma AppendRecords(ready: Gate, gated: seq<Event>, records: seq<Event>, actionId: string, a: RecoveryAction)
    requires Gated(ready, gated) && Numbered(gated)
    requires Gated(ready, gated + [ExecutionDispatched(actionId, a)])
    requires ExecutionRecords(records, actionId, a)
    ensures var all := gated + records;
            && Gated(ready, all) && Numbered(all)
            && Dispatches(all) == Dispatches(gated) + (if records == [] then 0 else 1)
            && DecisionsIn(all) == DecisionsIn(gated) && RoundsIn(all) == RoundsIn(gated)
  {
    if records == [] {
      assert gated + records == gated;
    } else {
      var dispatched := gated + [ExecutionDispatched(actionId, a)];
      AppendDispatch(gated, actionId, a);
      if |records| == 1 {
        assert gated + records == dispatched;
      } else {
        AppendQuiet(ready, dispatched, records[1]);
        assert gated + records == dispatched + [records[1]];
      }
    }
  }

  lemma AppendDispatch(gated: seq<Event>, actionId: string, a: RecoveryAction)
    requires Numbered(gated)
    ensures var all := gated + [ExecutionDispatched(actionId, a)];
            && Numbered(all) && Dispatches(all) == Dispatches(gated) + 1
            && DecisionsIn(all) == DecisionsIn(gated) && RoundsIn(all) == RoundsIn(gated)
  {
    ProjectionsSnoc(gated, ExecutionDispatched(actionId, a));
  }

  /** A settled action that passes both gates is ready to dispatch. */
  lemma GatesMakeReady(ready: Gate, approved: Gate, w: World, namespace: string, deployment: string,
                       settled: seq<Event>, a: RecoveryAction, actionId: string)
    requires Justifies(ready, approved, w, namespace, deployment) && w.evidence.Some?
    requires SemanticError(w.peers.profile, a, w.evidence.value.desiredReplicas, namespace, deployment).None?
    requires Accepts(w.validator, a) && approved(settled, a, actionId)
    ensures ready(settled, a, actionId)
  {
    AcceptsIff(w.validator, a);
  }

  /** A ready action, validated and then dispatched with its records, extends the trace safely. */
  lemma DispatchKeeps(ready: Gate, settled: seq<Event>, records: seq<Event>, actionId: string, a: RecoveryAction,
                      attempt: Attempt)
    requires Between(ready, settled) && ready(settled, a, actionId)
    requires ExecutionRecords(records, actionId, a)
    ensures var all := settled + [SafetyValidated(true)] + records;
            && AttemptKeeps(ready, settled, all, attempt)
            && Dispatches(all) - Dispatches(settled) == (if records == [] then 0 else 1)
  {
    AppendQuiet(ready, settled, SafetyValidated(true));
    GatedThenDispatch(ready, settled, a, actionId);
    AppendRecords(ready, settled + [SafetyValidated(true)], records, actionId, a);
  }

  /** The two gates of a settled action, each followed by a checkpoint, and its execution. */
  function GatedOf(w: World, namespace: string, deployment: string, ev: Evidence, selected: RecoveryAction,
                   actionId: string, index: nat, checks: nat): Tried
  {
    var accepted := Accepts(w.validator, selected);
    if SemanticError(w.peers.profile, selected, ev.desiredReplicas, namespace, deployment).Some? then
      Tried(NextCandidate, [SafetyValidated(false)], checks)
    else if w.checkRaises(checks) then Tried(AttemptRaises, [SafetyValidated(accepted)], checks)
    else if !accepted then Tried(Final(SafeStopped, false), [SafetyValidated(false)], checks + 1)
    else if w.checkRaises(checks + 1) then Tried(AttemptRaises, [SafetyValidated(true)], checks + 1)
    else
      var executed := ExecutionOf(w, index, selected, actionId, checks + 2);
      executed.(records := [SafetyValidated(true)] + executed.records)
  }

  /** The gates and the execution of the action that a negotiation settled on. */
  method GateAndExecute(w: World, namespace: string, deployment: string, ev: Evidence, selected: RecoveryAction,
                        actionId: string, index: nat, checks: nat)
    returns (t: Tried)
    ensures t == GatedOf(w, namespace, deployment, ev, selected, actionId, index, checks)
  {
    if SemanticError(w.peers.profile, selected, ev.desiredReplicas, namespace, deployment).Some? {
      return Tried(NextCandidate, [SafetyValidated(false)], checks);
    }
    var accepted := Accepts(w.validator, selected);
    var records := [SafetyValidated(accepted)];
    if w.checkRaises(checks) { return Tried(AttemptRaises, records, checks); }
    if !accepted { return Tried(Final(SafeStopped, false), records, checks + 1); }
    if w.checkRaises(checks + 1) { return Tried(AttemptRaises, records, checks + 1); }
    t := ExecuteSelected(w, index, selected, actionId, checks + 2);
    t := t.(records := records + t.records);
  }

  /** An attempt that goes no further than the gates. */
  lemma ValidatedSafe(w: World, ready: Gate, index: nat, settled: seq<Event>, x: Event, attempt: Attempt)
    requires Between(ready, settled) && x.SafetyValidated?
    requires attempt in {AttemptRaises, NextCandidate, Final(SafeStopped, false)}
    ensures AttemptSafe(w, ready, index, settled, settled + [x], attempt)
  {
    AppendQuiet(ready, settled, x);
  }

  lemma ExecutedSafe(w: World, ready: Gate, index: nat, settled: seq<Event>, a: RecoveryAction, actionId: string,
                     checks: nat)
    requires Between(ready, settled) && ready(settled, a, actionId)
    ensures var t := ExecutionOf(w, index, a, actionId, checks);
            AttemptSafe(w, ready, index, settled, settled + ([SafetyValidated(true)] + t.records), t.attempt)
  {
    var t := ExecutionOf(w, index, a, actionId, checks);
    ExecutionFits(w, index, a, actionId, checks);
    DispatchKeeps(ready, settled, t.records, actionId, a, t.attempt);
    assert settled + ([SafetyValidated(true)] + t.records) == settled + [SafetyValidated(true)] + t.records;
  }

  /** Gating and executing an action whose approval ends the trace extends the trace safely. */
  lemma GatedKeeps(w: World, namespace: string, deployment: string, ev: Evidence, selected: RecoveryAction,
                   actionId: string, index: nat, settled: seq<Event>, checks: nat, ready: Gate, approved: Gate)
    requires w.evidence == Some(ev) && Between(ready, settled)
    requires Justifies(ready, approved, w, namespace, deployment) && approved(settled, selected, actionId)
    ensures var t := GatedOf(w, namespace, deployment, ev, selected, actionId, index, checks);
            AttemptSafe(w, ready, index, settled, settled + t.records, t.attempt)
  {
    var t := GatedOf(w, namespace, deployment, ev, selected, actionId, index, checks);
    if SemanticError(w.peers.profile, selected, ev.desiredReplicas, namespace, deployment).Some?
       || w.checkRaises(checks) || !Accepts(w.validator, selected) || w.checkRaises(checks + 1)
    {
      ValidatedSafe(w, ready, index, settled, t.records[0], t.attempt);
    } else {
      GatesMakeReady(ready, approved, w, namespace, deployment, settled, selected, actionId);
      ExecutedSafe(w, ready, index, settled, selected, actionId, checks + 2);
    }
  }

  function LastActionId(rounds: seq<Round>): string {
    if rounds == [] || rounds[|rounds| - 1].selectedActionId.None? then ""
    else rounds[|rounds| - 1].selectedActionId.value
  }

  type Execute = (RecoveryAction, string, nat, nat) -> Tried

  /** `execute` gates and executes settled actions. */
  ghost predicate Executes(execute: Execute, w: World, namespace: string, deployment: string, ev: Evidence) {
    forall a, actionId, index, checks
      {:trigger GatedOf(w, namespace, deployment, ev, a, actionId, index, checks)} ::
      execute(a, actionId, index, checks) == GatedOf(w, namespace, deployment, ev, a, actionId, index, checks)
  }

  /** One candidate: its negotiation, a checkpoint, then gates and execution of the action that
      was settled on. `offset` rounds were held before. */
  function TriedOf(negotiate: Negotiator, execute: Execute, checkRaises: nat -> bool,
                   candidate: RecoveryAction, index: nat, offset: nat, checks: nat): Tried
  {
    var r := negotiate(candidate, offset);
    if r.failed then Tried(Final(SafeStopped, false), r.events, checks)
    else if checkRaises(checks) then Tried(AttemptRaises, r.events, checks)
    else if r.action.None? then Tried(Final(SafeStopped, false), r.events, checks + 1)
    else
      var executed := execute(r.action.value, LastActionId(r.rounds), index, checks + 1);
      executed.(records := r.events + executed.records)
  }

  /** Negotiation, gates and execution for the candidate at `index`: the body of the loop of
      `run`. `offset` rounds were held before; `checks` counts checkpoints. */
  method TryCandidate(w: World, namespace: string, deployment: string, ev: Evidence, candidate: RecoveryAction,
                      index: nat, offset: nat, checks: nat, ghost negotiate: Negotiator, ghost execute: Execute)
    returns (t: Tried)
    requires Negotiates(negotiate, w.peers, ev) && Executes(execute, w, namespace, deployment, ev)
    ensures t == TriedOf(negotiate, execute, w.checkRaises, candidate, index, offset, checks)
  {
    var r := Negotiate(w.peers, ev, candidate, offset);
    assert r == negotiate(candidate, offset);
    if r.failed { return Tried(Final(SafeStopped, false), r.events, checks); }
    if w.checkRaises(checks) { return Tried(AttemptRaises, r.events, checks); }
    if r.action.None? { return Tried(Final(SafeStopped, false), r.events, checks + 1); }
    t := GateAndExecute(w, namespace, deployment, ev, r.action.value, LastActionId(r.rounds), index, checks + 1);
    t := t.(records := r.events + t.records);
  }

  /** Executing what a negotiation settled on keeps the trace gated and numbered. */
  lemma SettledKeeps(w: World, namespace: string, deployment: string, ev: Evidence, r: Result, index: nat,
                     past: seq<Event>, checks: nat, ready: Gate, approved: Gate, execute: Execute)
    requires w.evidence == Some(ev) && Between(ready, past) && Executes(execute, w, namespace, deployment, ev)
    requires Justifies(ready, approved, w, namespace, deployment)
    requires Negotiated(ready, approved, past, r, past + r.events) && r.action.Some? && !r.failed
    ensures var t := execute(r.action.value, LastActionId(r.rounds), index, checks);
            AttemptSafe(w, ready, index, past, past + (r.events + t.records), t.attempt)
  {
    var actionId := LastActionId(r.rounds);
    assert execute(r.action.value, actionId, index, checks)
        == GatedOf(w, namespace, deployment, ev, r.action.value, actionId, index, checks);
    GatedKeeps(w, namespace, deployment, ev, r.action.value, actionId, index, past + r.events, checks, ready, approved);
    var t := execute(r.action.value, actionId, index, checks);
    SafeOnTop(w, ready, index, past, r.events, t.records, t.attempt);
  }

  /** Records that dispatch nothing may come before those of an attempt. */
  lemma SafeAfterQuiet(w: World, ready: Gate, index: nat, past: seq<Event>, settled: seq<Event>, events: seq<Event>,
                       attempt: Attempt)
    requires past <= settled && Dispatches(settled) == Dispatches(past)
    requires AttemptSafe(w, ready, index, settled, events, attempt)
    ensures AttemptSafe(w, ready, index, past, events, attempt)
  {
  }

  lemma SafeOnTop(w: World, ready: Gate, index: nat, past: seq<Event>, quiet: seq<Event>, records: seq<Event>,
                  attempt: Attempt)
    requires Dispatches(past + quiet) == Dispatches(past)
    requires AttemptSafe(w, ready, index, past + quiet, past + quiet + records, attempt)
    ensures AttemptSafe(w, ready, index, past, past + (quiet + records), attempt)
  {
    assert past + (quiet + records) == past + quiet + records;
    SafeAfterQuiet(w, ready, index, past, past + quiet, past + quiet + records, attempt);
  }

  /** An attempt that ends with its negotiation. */
  lemma EndsNegotiated(w: World, ready: Gate, approved: Gate, index: nat, past: seq<Event>, r: Result, attempt: Attempt)
    requires Negotiated(ready, approved, past, r, past + r.events)
    requires attempt in {AttemptRaises, Final(SafeStopped, false)}
    ensures AttemptSafe(w, ready, index, past, past + r.events, attempt)
  {
  }

  /** One candidate extends the trace safely: it stays gated and numbered, and at most one more
      action is dispatched, exactly as the attempt's end says. */
  lemma TriedKeeps(w: World, namespace: string, deployment: string, ev: Evidence, candidate: RecoveryAction,
                   index: nat, past: seq<Event>, checks: nat, ready: Gate, approved: Gate,
                   negotiate: Negotiator, execute: Execute)
    requires w.evidence == Some(ev) && Between(ready, past)
    requires Justifies(ready, approved, w, namespace, deployment) && Approves(approved, w.peers)
    requires Negotiates(negotiate, w.peers, ev) && Executes(execute, w, namespace, deployment, ev)
    ensures var t := TriedOf(negotiate, execute, w.checkRaises, candidate, index, |RoundsIn(past)|, checks);
            AttemptSafe(w, ready, index, past, past + t.records, t.attempt)
  {
    var r := negotiate(candidate, |RoundsIn(past)|);
    NegotiationKeeps(negotiate, w.peers, ev, candidate, past, ready, approved);
    if r.failed || r.action.None? {
      EndsNegotiated(w, ready, approved, index, past, r, Final(SafeStopped, false));
    }
    if w.checkRaises(checks) {
      EndsNegotiated(w, ready, approved, index, past, r, AttemptRaises);
    } else if !r.failed && r.action.Some? {
      SettledKeeps(w, namespace, deployment, ev, r, index, past, checks + 1, ready, approved, execute);
    }
  }

  // ----- the run -----

  function WithCapability(adapters: seq<Adapter>, c: Capability): (names: seq<string>)
    ensures |names| <= |adapters|
  {
    if adapters == [] then []
    else (if c in adapters[0].capabilities then [adapters[0].name] else []) + WithCapability(adapters[1..], c)
  }

  /** `_required_capability_errors` is empty. */
  predicate Configured(adapters: seq<Adapter>) {
    |WithCapability(adapters, CanDiagnose)| == 1 && |WithCapability(adapters, CanPropose)| == 1
  }

  /** The actions without a semantic error. */
  function Sensibly(w: World, namespace: string, deployment: string, ev: Evidence): RecoveryAction -> bool {
    (a: RecoveryAction) => SemanticError(w.peers.profile, a, ev.desiredReplicas, namespace, deployment).None?
  }

  /** The proposals without a semantic error, in order. */
  method SensibleProposals(w: World, namespace: string, deployment: string, ev: Evidence,
                           proposals: seq<RecoveryAction>)
    returns (candidates: seq<RecoveryAction>)
    ensures candidates == Filter(proposals, Sensibly(w, namespace, deployment, ev))
  {
    candidates := [];
    ghost var keep := Sensibly(w, namespace, deployment, ev);
    var n := 0;
    while n < |proposals|
      invariant 0 <= n <= |proposals|
      invariant candidates == Filter(proposals[..n], keep)
    {
      assert proposals[..n + 1] == proposals[..n] + [proposals[n]];
      FilterSnoc(proposals[..n], proposals[n], keep);
      if SemanticError(w.peers.profile, proposals[n], ev.desiredReplicas, namespace, deployment).None? {
        candidates := candidates + [proposals[n]];
      }
      n := n + 1;
    }
    assert proposals[..|proposals|] == proposals;
  }

  /** The outcome of a run that ends before any candidate is negotiated. A checkpoint that raises
      inside the diagnosis or proposal guard is reported as a failure of that step. */
  function EarlyOutcome(w: World): Option<Outcome> {
    if w.checkRaises(0) then Some(Raised)
    else if !Configured(w.peers.adapters) then Some(Reported(SafeStopped, false))
    else if w.checkRaises(1) || w.evidence.None? || w.checkRaises(2) then Some(Raised)
    else if w.diagnosis.DiagnosisFails? || w.checkRaises(3) then Some(Reported(SafeStopped, false))
    else if w.checkRaises(4) then Some(Raised)
    else if !w.diagnosis.approved then
      Some(Reported(if w.diagnosis.missingMetric then SafeStopped else NoActionRequired, false))
    else if w.proposals.None? || w.checkRaises(5) then Some(Reported(SafeStopped, false))
    else None
  }

  /** What a report may say, given the run's trace. */
  predicate ReportFits(w: World, events: seq<Event>, o: Outcome) {
    o.Reported? ==>
      && (o.valid <==> o.status in {Recovered, RecoveredAfterReplan, DryRunValidated})
      && (o.status == NoActionRequired ==> events == [])
      && (o.valid ==> Dispatches(events) >= 1 && (o.status == DryRunValidated <==> w.mode == DryRun))
      && (o.status == Recovered ==> Dispatches(events) == 1 && Confirmed(w, 0))
      && (o.status == RecoveredAfterReplan ==>
            exists index :: 0 < index <= w.peers.profile.maxReplanAttempts && Confirmed(w, index))
  }

  function Negotiating(e: Peers, ev: Evidence): Negotiator {
    (a: RecoveryAction, offset: nat) => NegotiationOf(e, ev, a, offset)
  }

  function Executing(w: World, namespace: string, deployment: string, ev: Evidence): Execute {
    (a: RecoveryAction, actionId: string, index: nat, checks: nat) =>
      GatedOf(w, namespace, deployment, ev, a, actionId, index, checks)
  }

  type Trial = (RecoveryAction, nat, nat, nat) -> Tried

  function Trying(negotiate: Negotiator, execute: Execute, checkRaises: nat -> bool): Trial {
    (candidate: RecoveryAction, index: nat, offset: nat, checks: nat) =>
      TriedOf(negotiate, execute, checkRaises, candidate, index, offset, checks)
  }

  /** The candidates from position `index` on, tried in order until an attempt raises or settles
      the run, on top of the trace so far. */
  function RunFrom(try: Trial, candidates: seq<RecoveryAction>, index: nat, past: seq<Event>, checks: nat)
    : (Outcome, seq<Event>)
    decreases |candidates| - index
  {
    if index >= |candidates| then (Reported(SafeFailure, false), past)
    else
      var t := try(candidates[index], index, |RoundsIn(past)|, checks);
      match t.attempt
      case AttemptRaises => (Raised, past + t.records)
      case Final(status, valid) => (Reported(status, valid), past + t.records)
      case NextCandidate => RunFrom(try, candidates, index + 1, past + t.records, t.checks)
  }

  /** The proposals worth negotiating, no more than the profile allows attempts. */
  function Candidates(w: World, namespace: string, deployment: string, ev: Evidence, proposals: seq<RecoveryAction>)
    : seq<RecoveryAction>
  {
    var sensible := Filter(proposals, Sensibly(w, namespace, deployment, ev));
    if |sensible| <= w.peers.profile.maxReplanAttempts then sensible
    else sensible[..w.peers.profile.maxReplanAttempts + 1]
  }

  function ProposalsOf(w: World, namespace: string, deployment: string, ev: Evidence, proposals: seq<RecoveryAction>)
    : (Outcome, seq<Event>)
  {
    RunFrom(Trying(Negotiating(w.peers, ev), Executing(w, namespace, deployment, ev), w.checkRaises),
            Candidates(w, namespace, deployment, ev, proposals), 0, [], 6)
  }

  /** The outcome and the trace of a run. */
  function RunOf(w: World, namespace: string, deployment: string): (Outcome, seq<Event>) {
    if EarlyOutcome(w).Some? then (EarlyOutcome(w).value, [])
    else ProposalsOf(w, namespace, deployment, w.evidence.value, w.proposals.value)
  }

  /** `try` is the attempt at one candidate. */
  ghost predicate Tries(try: Trial, negotiate: Negotiator, execute: Execute, checkRaises: nat -> bool) {
    forall candidate, index, offset, checks
      {:trigger TriedOf(negotiate, execute, checkRaises, candidate, index, offset, checks)} ::
      try(candidate, index, offset, checks)
      == TriedOf(negotiate, execute, checkRaises, candidate, index, offset, checks)
  }

  lemma PartsFit(w: World, namespace: string, deployment: string, ev: Evidence)
    ensures Justifies(ReadyFor(w, namespace, deployment), ApprovedBy(w.peers), w, namespace, deployment)
    ensures Approves(ApprovedBy(w.peers), w.peers)
    ensures var negotiate, execute := Negotiating(w.peers, ev), Executing(w, namespace, deployment, ev);
            && Negotiates(negotiate, w.peers, ev) && Executes(execute, w, namespace, deployment, ev)
            && Tries(Trying(negotiate, execute, w.checkRaises), negotiate, execute, w.checkRaises)
  {
  }

  /** What holds of a run's outcome and trace, however it ends. */
  ghost predicate RunKeeps(w: World, ready: Gate, o: Outcome, events: seq<Event>) {
    && Gated(ready, events) && Numbered(events)
    && Dispatches(events) <= w.peers.profile.maxReplanAttempts + 1
    && ReportFits(w, events, o)
  }

  /** What a safe attempt leaves, as it ends the run or lets it go on. */
  lemma AttemptLeaves(w: World, ready: Gate, index: nat, past: seq<Event>, events: seq<Event>, attempt: Attempt)
    requires index <= w.peers.profile.maxReplanAttempts && Dispatches(past) <= index
    requires AttemptSafe(w, ready, index, past, events, attempt)
    ensures attempt.NextCandidate? ==> Between(ready, events) && Dispatches(events) <= index + 1
    ensures attempt.AttemptRaises? ==> RunKeeps(w, ready, Raised, events)
    ensures attempt.Final? ==>
              RunKeeps(w, ready, Reported(attempt.status, attempt.valid), events) && attempt.status != NoActionRequired
  {
  }

  /** Every attempt is safe, wherever in the run it comes. */
  ghost predicate AlwaysSafe(try: Trial, w: World, ready: Gate) {
    forall candidate, index, past, checks {:trigger try(candidate, index, |RoundsIn(past)|, checks)} ::
      Between(ready, past) ==>
        var t := try(candidate, index, |RoundsIn(past)|, checks);
        AttemptSafe(w, ready, index, past, past + t.records, t.attempt)
  }

  lemma TryingIsSafe(w: World, namespace: string, deployment: string, ev: Evidence, ready: Gate, approved: Gate,
                     negotiate: Negotiator, execute: Execute, try: Trial)
    requires w.evidence == Some(ev)
    requires Justifies(ready, approved, w, namespace, deployment) && Approves(approved, w.peers)
    requires Negotiates(negotiate, w.peers, ev) && Executes(execute, w, namespace, deployment, ev)
    requires Tries(try, negotiate, execute, w.checkRaises)
    ensures AlwaysSafe(try, w, ready)
  {
    forall candidate, index, past, checks | Between(ready, past)
      ensures var t := try(candidate, index, |RoundsIn(past)|, checks);
              AttemptSafe(w, ready, index, past, past + t.records, t.attempt)
    {
      TriedKeeps(w, namespace, deployment, ev, candidate, index, past, checks, ready, approved, negotiate, execute);
    }
  }

  /** However many candidates were tried, the run ends with a safe trace and a fitting report. */
  lemma {:induction false} RunFromKeeps(try: Trial, w: World, ready: Gate, candidates: seq<RecoveryAction>,
                                        index: nat, past: seq<Event>, checks: nat)
    requires AlwaysSafe(try, w, ready) && |candidates| <= w.peers.profile.maxReplanAttempts + 1
    requires index <= |candidates| && Between(ready, past) && Dispatches(past) <= index
    ensures var (o, events) := RunFrom(try, candidates, index, past, checks);
            RunKeeps(w, ready, o, events) && (o.Reported? ==> o.status != NoActionRequired)
    decreases |candidates| - index
  {
    if index < |candidates| {
      var t := try(candidates[index], index, |RoundsIn(past)|, checks);
      AttemptLeaves(w, ready, index, past, past + t.records, t.attempt);
      if t.attempt.NextCandidate? {
        RunFromKeeps(try, w, ready, candidates, index + 1, past + t.records, t.checks);
      }
    }
  }

  /** The loop of `run` over the candidates. */
  method TryCandidates(w: World, namespace: string, deployment: string, ev: Evidence, candidates: seq<RecoveryAction>,
                       ghost negotiate: Negotiator, ghost execute: Execute, ghost try: Trial)
    returns (o: Outcome, events: seq<Event>)
    requires Negotiates(negotiate, w.peers, ev) && Executes(execute, w, namespace, deployment, ev)
    requires Tries(try, negotiate, execute, w.checkRaises)
    ensures (o, events) == RunFrom(try, candidates, 0, [], 6)
  {
    events := [];
    var checks, index := 6, 0;
    while index < |candidates|
      invariant 0 <= index <= |candidates|
      invariant RunFrom(try, candidates, 0, [], 6) == RunFrom(try, candidates, index, events, checks)
    {
      var t := TryCandidate(w, namespace, deployment, ev, candidates[index], index, |RoundsIn(events)|, checks,
                            negotiate, execute);
      events, checks := events + t.records, t.checks;
      if t.attempt.AttemptRaises? { return Raised, events; }
      if t.attempt.Final? { return Reported(t.attempt.status, t.attempt.valid), events; }
      index := index + 1;
    }
    return Reported(SafeFailure, false), events;
  }

  /** The rest of `run`, with evidence, an approved diagnosis and proposals at hand. */
  method TryProposals(w: World, namespace: string, deployment: string, ev: Evidence, proposals: seq<RecoveryAction>)
    returns (o: Outcome, events: seq<Event>)
    ensures (o, events) == ProposalsOf(w, namespace, deployment, ev, proposals)
  {
    var candidates := SensibleProposals(w, namespace, deployment, ev, proposals);
    if |candidates| > w.peers.profile.maxReplanAttempts {
      candidates := candidates[..w.peers.profile.maxReplanAttempts + 1];
    }
    ghost var negotiate, execute := Negotiating(w.peers, ev), Executing(w, namespace, deployment, ev);
    PartsFit(w, namespace, deployment, ev);
    o, events := TryCandidates(w, namespace, deployment, ev, candidates, negotiate, execute,
                               Trying(negotiate, execute, w.checkRaises));
  }

  lemma CandidatesKeep(w: World, namespace: string, deployment: string, ev: Evidence, ready: Gate, approved: Gate,
                       negotiate: Negotiator, execute: Execute, try: Trial, candidates: seq<RecoveryAction>)
    requires w.evidence == Some(ev) && |candidates| <= w.peers.profile.maxReplanAttempts + 1
    requires Justifies(ready, approved, w, namespace, deployment) && Approves(approved, w.peers)
    requires Negotiates(negotiate, w.peers, ev) && Executes(execute, w, namespace, deployment, ev)
    requires Tries(try, negotiate, execute, w.checkRaises)
    ensures var (o, events) := RunFrom(try, candidates, 0, [], 6);
            RunKeeps(w, ready, o, events) && (o.Reported? ==> o.status != NoActionRequired)
  {
    TryingIsSafe(w, namespace, deployment, ev, ready, approved, negotiate, execute, try);
    RunFromKeeps(try, w, ready, candidates, 0, [], 6);
  }

  lemma ProposalsKeep(w: World, namespace: string, deployment: string, ev: Evidence, proposals: seq<RecoveryAction>)
    requires w.evidence == Some(ev)
    ensures var (o, events) := ProposalsOf(w, namespace, deployment, ev, proposals);
            RunKeeps(w, ReadyFor(w, namespace, deployment), o, events) && (o.Reported? ==> o.status != NoActionRequired)
  {
    var negotiate, execute := Negotiating(w.peers, ev), Executing(w, namespace, deployment, ev);
    PartsFit(w, namespace, deployment, ev);
    CandidatesKeep(w, namespace, deployment, ev, ReadyFor(w, namespace, deployment), ApprovedBy(w.peers), negotiate,
                   execute, Trying(negotiate, execute, w.checkRaises),
                   Candidates(w, namespace, deployment, ev, proposals));
  }

  /** On every exit, exceptions included, each dispatched action was safe to dispatch, rounds and
      decisions are numbered over the whole run, no more actions were dispatched than one per
      allowed attempt, and the report says what the trace and the measurements bear out. */
  lemma RunIsSafe(w: World, namespace: string, deployment: string)
    ensures var (o, events) := RunOf(w, namespace, deployment);
            && Safe(w, namespace, deployment, events) && Numbered(events)
            && Dispatches(events) <= w.peers.profile.maxReplanAttempts + 1
            && ReportFits(w, events, o)
            && (o.Reported? && o.status == NoActionRequired ==> EarlyOutcome(w) == Some(o))
  {
    if EarlyOutcome(w).None? { ProposalsKeep(w, namespace, deployment, w.evidence.value, w.proposals.value); }
  }

  /** `MutualSupervisionCoordinator.run`. */
  method Run(w: World, namespace: string, deployment: string) returns (o: Outcome, events: seq<Event>)
    ensures (o, events) == RunOf(w, namespace, deployment)
    ensures Safe(w, namespace, deployment, events) && Numbered(events)
    ensures Dispatches(events) <= w.peers.profile.maxReplanAttempts + 1
    ensures ReportFits(w, events, o)
  {
    RunIsSafe(w, namespace, deployment);
    events := [];
    if w.checkRaises(0) { return Raised, events; }
    if !Configured(w.peers.adapters) { return Reported(SafeStopped, false), events; }
    if w.checkRaises(1) || w.evidence.None? || w.checkRaises(2) { return Raised, events; }
    var ev := w.evidence.value;
    if w.diagnosis.DiagnosisFails? || w.checkRaises(3) { return Reported(SafeStopped, false), events; }
    if w.checkRaises(4) { return Raised, events; }
    if !w.diagnosis.approved {
      return Reported(if w.diagnosis.missingMetric then SafeStopped else NoActionRequired, false), events;
    }
    if w.proposals.None? || w.checkRaises(5) { return Reported(SafeStopped, false), events; }
    o, events := TryProposals(w, namespace, deployment, ev, w.proposals.value);
  }
}
