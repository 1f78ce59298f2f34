/** When a run dispatches what its peers settled on, and which end each run comes to. */
module SupervisionEnds {
  import opened Prelude
  import opened SupervisionModels
  import opened Negotiation
  import opened Supervision

  // ----- before any candidate -----

  /** The k-th adapter, and no other, has the capability. */
  ghost predicate Only(adapters: seq<Adapter>, c: Capability, k: nat) {
    && k < |adapters| && c in adapters[k].capabilities
    && forall j :: 0 <= j < |adapters| && c in adapters[j].capabilities ==> j == k
  }

  ghost predicate HasOne(adapters: seq<Adapter>, c: Capability) { exists k: nat :: Only(adapters, c, k) }

  lemma {:induction false} NoneIff(adapters: seq<Adapter>, c: Capability)
    ensures WithCapability(adapters, c) == [] <==>
              forall j :: 0 <= j < |adapters| ==> c !in adapters[j].capabilities
  {
    if adapters != [] {
      NoneIff(adapters[1..], c);
      assert forall j :: 1 <= j < |adapters| ==> adapters[j] == adapters[1..][j - 1];
    }
  }

  lemma OnlyFirst(adapters: seq<Adapter>, c: Capability)
    requires adapters != [] && c in adapters[0].capabilities
    ensures HasOne(adapters, c) <==> WithCapability(adapters[1..], c) == []
  {
    var rest := adapters[1..];
    NoneIff(rest, c);
    assert forall j :: 1 <= j < |adapters| ==> adapters[j] == rest[j - 1];
    if WithCapability(rest, c) == [] { assert Only(adapters, c, 0); }
    if k: nat :| Only(adapters, c, k) {
      assert k == 0;
      forall j | 0 <= j < |rest| ensures c !in rest[j].capabilities { assert rest[j] == adapters[j + 1]; }
    }
  }

  lemma OnlyLater(adapters: seq<Adapter>, c: Capability)
    requires adapters != [] && c !in adapters[0].capabilities
    ensures HasOne(adapters, c) <==> HasOne(adapters[1..], c)
  {
    var rest := adapters[1..];
    forall k: nat ensures Only(rest, c, k) <==> Only(adapters, c, k + 1) {
      assert forall j :: 0 <= j < |rest| ==> rest[j] == adapters[j + 1];
      assert forall j :: 1 <= j < |adapters| ==> adapters[j] == rest[j - 1];
    }
    if k: nat :| Only(adapters, c, k) { assert Only(rest, c, k - 1); }
    if k: nat :| Only(rest, c, k) { assert Only(adapters, c, k + 1); }
  }

  lemma {:induction false} OneIff(adapters: seq<Adapter>, c: Capability)
    ensures |WithCapability(adapters, c)| == 1 <==> HasOne(adapters, c)
  {
    if adapters != [] {
      if c in adapters[0].capabilities {
        OnlyFirst(adapters, c);
      } else {
        OnlyLater(adapters, c);
        OneIff(adapters[1..], c);
      }
    }
  }

  /** No checkpoint before the n-th raises. */
  ghost predicate Clear(w: World, n: nat) { forall k: nat :: k < n ==> !w.checkRaises(k) }

  /** Before any candidate a run ends without a need for action exactly if its one diagnosing adapter
      declines with the metric at hand, and goes on to the candidates exactly if that adapter approves and
      the one proposing adapter proposes, no checkpoint raising on the way. */
  lemma EarlyEnds(w: World)
    ensures var ready := HasOne(w.peers.adapters, CanDiagnose) && HasOne(w.peers.adapters, CanPropose);
            && (EarlyOutcome(w) == Some(Reported(NoActionRequired, false)) <==>
                  ready && w.evidence.Some? && w.diagnosis == Diagnosed(false, false) && Clear(w, 5))
            && (EarlyOutcome(w).None? <==>
                  && ready && w.evidence.Some? && w.diagnosis.Diagnosed? && w.diagnosis.approved
                  && w.proposals.Some? && Clear(w, 6))
            && (EarlyOutcome(w) == Some(Raised) <==>
                  || w.checkRaises(0)
                  || (ready && (w.checkRaises(1) || w.evidence.None? || w.checkRaises(2)))
                  || (ready && w.diagnosis.Diagnosed? && !w.checkRaises(3) && w.checkRaises(4)))
            && (EarlyOutcome(w).Some? ==>
                  EarlyOutcome(w).value in {Raised, Reported(SafeStopped, false), Reported(NoActionRequired, false)})
  {
    OneIff(w.peers.adapters, CanDiagnose);
    OneIff(w.peers.adapters, CanPropose);
  }

  /** The candidates are the proposals that make sense for the run, the first of them if there are more
      than the attempts that the profile allows. */
  lemma CandidatesAre(w: World, namespace: string, deployment: string, ev: Evidence, proposals: seq<RecoveryAction>)
    ensures var candidates := Candidates(w, namespace, deployment, ev, proposals);
            var sensible := Filter(proposals, Sensibly(w, namespace, deployment, ev));
            && candidates <= sensible
            && (candidates == sensible || |candidates| == w.peers.profile.maxReplanAttempts + 1)
            && |candidates| <= w.peers.profile.maxReplanAttempts + 1
            && (forall a :: a in sensible <==>
                  a in proposals && Sensible(w.peers.profile, a, ev.desiredReplicas, namespace, deployment))
  {
    var keep := Sensibly(w, namespace, deployment, ev);
    forall a
      ensures a in Filter(proposals, keep) <==>
                a in proposals && Sensible(w.peers.profile, a, ev.desiredReplicas, namespace, deployment)
    {
      FilterMembers(proposals, keep, a);
    }
  }

  // ----- one settled action -----

  /** Nothing keeps a settled action from the executor: it makes sense for the run, is permitted, neither
      gate's checkpoint raises and, in real mode, nobody else holds the target. */
  ghost predicate Passes(w: World, namespace: string, deployment: string, ev: Evidence, a: RecoveryAction,
                         index: nat, checks: nat)
  {
    && Sensible(w.peers.profile, a, ev.desiredReplicas, namespace, deployment) && Permitted(w.validator, a)
    && !w.checkRaises(checks) && !w.checkRaises(checks + 1) && (w.mode == Real ==> w.lockFree(index))
  }

  lemma {:induction false} FirstDispatched(records: seq<Event>, i: nat)
    requires i < |records| && records[i].ExecutionDispatched?
    ensures Dispatches(records) > 0
    decreases |records|
  {
    if i < |records| - 1 { FirstDispatched(records[..|records| - 1], i); }
  }

  lemma NotDispatched(w: World, namespace: string, deployment: string, ev: Evidence, a: RecoveryAction,
                      actionId: string, index: nat, checks: nat)
    requires !Passes(w, namespace, deployment, ev, a, index, checks)
    ensures GatedOf(w, namespace, deployment, ev, a, actionId, index, checks).records
            == [SafetyValidated(Sensible(w.peers.profile, a, ev.desiredReplicas, namespace, deployment)
                                && Permitted(w.validator, a))]
  {
    AcceptsIff(w.validator, a);
  }

  lemma DispatchedFirst(w: World, namespace: string, deployment: string, ev: Evidence, a: RecoveryAction,
                        actionId: string, index: nat, checks: nat)
    requires Passes(w, namespace, deployment, ev, a, index, checks)
    ensures [SafetyValidated(true), ExecutionDispatched(actionId, a)]
            <= GatedOf(w, namespace, deployment, ev, a, actionId, index, checks).records
  {
    AcceptsIff(w.validator, a);
  }

  /** An action is dispatched exactly if it passes, and then right after its validation, which says whether
      it makes sense and is permitted. */
  lemma DispatchedIff(w: World, namespace: string, deployment: string, ev: Evidence, a: RecoveryAction,
                      actionId: string, index: nat, checks: nat)
    ensures var records := GatedOf(w, namespace, deployment, ev, a, actionId, index, checks).records;
            var passes := Passes(w, namespace, deployment, ev, a, index, checks);
            && (passes <==> Dispatches(records) > 0)
            && (passes ==> [SafetyValidated(true), ExecutionDispatched(actionId, a)] <= records)
            && (!passes ==>
                  records == [SafetyValidated(
                    Sensible(w.peers.profile, a, ev.desiredReplicas, namespace, deployment)
                    && Permitted(w.validator, a))])
  {
    var records := GatedOf(w, namespace, deployment, ev, a, actionId, index, checks).records;
    if Passes(w, namespace, deployment, ev, a, index, checks) {
      DispatchedFirst(w, namespace, deployment, ev, a, actionId, index, checks);
      FirstDispatched(records, 1);
    } else {
      NotDispatched(w, namespace, deployment, ev, a, actionId, index, checks);
      ProjectionsSnoc([], records[0]);
      assert records == [] + [records[0]];
    }
  }

  /** The executor answered for a dispatched action, and no checkpoint raised after it. */
  ghost predicate Completes(w: World, namespace: string, deployment: string, ev: Evidence, a: RecoveryAction,
                            index: nat, checks: nat)
  {
    && Passes(w, namespace, deployment, ev, a, index, checks)
    && w.execute(index, a).Executed? && !w.checkRaises(checks + 2)
  }

  /** Every post-execution reviewer answered properly. */
  ghost predicate ReviewedAfter(w: World, index: nat) {
    forall x :: x in w.peers.adapters && CanPostReview in x.capabilities ==>
      !w.postReview(index, x.name).BadPostReview?
  }

  /** The recovery was measured, and every adapter that reviewed it after execution approved. */
  ghost predicate Restored(w: World, index: nat) {
    && w.assess(index) == Assessed(true)
    && forall x :: x in w.peers.adapters && CanPostReview in x.capabilities ==>
         w.postReview(index, x.name) in {NoPostReview, PostReviewed(true)}
  }

  lemma AfterwardsIff(w: World, index: nat)
    ensures ReviewedAfter(w, index) <==> PostReviewsGood(w, index, |w.peers.adapters|)
    ensures Restored(w, index) <==> Confirmed(w, index)
  {
  }

  /** How the attempt ends that settled on an action. It stops safely if validation or the lock forbids the
      dispatch, ends in failure if a post-execution reviewer misbehaves, succeeds if the action was executed
      and, outside a dry run, the service restored; it raises for a checkpoint, the executor or the
      measurement; and for an action that makes no sense or did not help, the next candidate is tried,
      three checkpoints on if the action was executed. */
  lemma SettledEnds(w: World, namespace: string, deployment: string, ev: Evidence, a: RecoveryAction,
                    actionId: string, index: nat, checks: nat)
    ensures var attempt := GatedOf(w, namespace, deployment, ev, a, actionId, index, checks).attempt;
            var sensible := Sensible(w.peers.profile, a, ev.desiredReplicas, namespace, deployment);
            var permitted := Permitted(w.validator, a);
            var passes := Passes(w, namespace, deployment, ev, a, index, checks);
            var completes := Completes(w, namespace, deployment, ev, a, index, checks);
            && (attempt == Final(SafeStopped, false) <==>
                  && sensible && !w.checkRaises(checks)
                  && (!permitted || (!w.checkRaises(checks + 1) && w.mode == Real && !w.lockFree(index))))
            && (attempt == Final(SafeFailure, false) <==>
                  completes && w.mode != DryRun && w.assess(index).Assessed? && !ReviewedAfter(w, index))
            && (attempt.Final? && attempt.valid <==>
                  completes && w.execute(index, a).valid && (w.mode == DryRun || Restored(w, index)))
            && (attempt.Final? && attempt.valid ==>
                  attempt.status == if w.mode == DryRun then DryRunValidated
                                    else if index == 0 then Recovered else RecoveredAfterReplan)
            && (attempt.AttemptRaises? <==>
                  || (sensible && (w.checkRaises(checks) || (permitted && w.checkRaises(checks + 1))))
                  || (passes && !completes)
                  || (completes && w.mode != DryRun && w.assess(index).AssessmentRaises?))
            && (attempt.NextCandidate? ==>
                  && (!sensible || completes)
                  && GatedOf(w, namespace, deployment, ev, a, actionId, index, checks).checks
                     == (if sensible then checks + 3 else checks))
  {
    AcceptsIff(w.validator, a);
    AfterwardsIff(w, index);
  }

  // ----- the run -----

  /** The trace and the number of checkpoints passed when the n-th candidate's turn comes, if it does. */
  ghost function Reached(try: Trial, candidates: seq<RecoveryAction>, n: nat): (seq<Event>, nat)
    requires n <= |candidates|
  {
    if n == 0 then ([], 6)
    else
      var (past, checks) := Reached(try, candidates, n - 1);
      var t := try(candidates[n - 1], n - 1, |RoundsIn(past)|, checks);
      (past + t.records, t.checks)
  }

  ghost function Turn(try: Trial, candidates: seq<RecoveryAction>, n: nat): Tried
    requires n < |candidates|
  {
    var (past, checks) := Reached(try, candidates, n);
    try(candidates[n], n, |RoundsIn(past)|, checks)
  }

  /** The n-th candidate's turn comes: no attempt before it ended the run. */
  ghost predicate ComesTo(try: Trial, candidates: seq<RecoveryAction>, n: nat)
    requires n <= |candidates|
  {
    forall k :: 0 <= k < n ==> Turn(try, candidates, k).attempt.NextCandidate?
  }

  lemma {:induction false} RunFromReached(try: Trial, candidates: seq<RecoveryAction>, n: nat)
    requires n <= |candidates| && ComesTo(try, candidates, n)
    ensures var (past, checks) := Reached(try, candidates, n);
            RunFrom(try, candidates, 0, [], 6) == RunFrom(try, candidates, n, past, checks)
  {
    if n > 0 {
      RunFromReached(try, candidates, n - 1);
      assert Turn(try, candidates, n - 1).attempt.NextCandidate?;
    }
  }

  lemma {:induction false} RunFromExtends(try: Trial, candidates: seq<RecoveryAction>, index: nat,
                                          past: seq<Event>, checks: nat)
    ensures past <= RunFrom(try, candidates, index, past, checks).1
    decreases |candidates| - index
  {
    if index < |candidates| {
      var t := try(candidates[index], index, |RoundsIn(past)|, checks);
      if t.attempt.NextCandidate? { RunFromExtends(try, candidates, index + 1, past + t.records, t.checks); }
    }
  }

  /** The turn `t` of a candidate ended the run with `o` and `events`, or let it go on to them. */
  ghost predicate Leaves(past: seq<Event>, t: Tried, o: Supervision.Outcome, events: seq<Event>) {
    && past + t.records <= events
    && (t.attempt.AttemptRaises? ==> o == Raised && events == past + t.records)
    && (t.attempt.Final? ==> o == Reported(t.attempt.status, t.attempt.valid) && events == past + t.records)
  }

  /** What the turn of a candidate means for the run: its records follow the trace so far, and if it ends
      the run, the run ends with them and as it does. */
  lemma TurnTaken(try: Trial, candidates: seq<RecoveryAction>, n: nat)
    requires n < |candidates| && ComesTo(try, candidates, n)
    ensures var (o, events) := RunFrom(try, candidates, 0, [], 6);
            var past, t := Reached(try, candidates, n).0, Turn(try, candidates, n);
            Leaves(past, t, o, events)
  {
    var (past, checks) := Reached(try, candidates, n);
    var t := Turn(try, candidates, n);
    RunFromReached(try, candidates, n);
    RunFromExtends(try, candidates, n + 1, past + t.records, t.checks);
  }

  /** How a run goes on after the negotiation `r` for the candidate at `index`. A failed negotiation or one
      that settles on nothing stops it safely. A settled action is validated, and dispatched if it passes;
      if it makes sense but does not pass, the run ends there: for want of permission or of the lock it
      stops safely, otherwise a checkpoint raised. */
  ghost predicate GoesOnFrom(w: World, namespace: string, deployment: string, ev: Evidence, r: Result, index: nat,
                             checks: nat, settled: seq<Event>, o: Supervision.Outcome, events: seq<Event>)
  {
    if r.failed then o == Reported(SafeStopped, false) && events == settled
    else if w.checkRaises(checks) then o == Raised && events == settled
    else if r.action.None? then o == Reported(SafeStopped, false) && events == settled
    else
      var a := r.action.value;
      var sensible := Sensible(w.peers.profile, a, ev.desiredReplicas, namespace, deployment);
      var permitted := Permitted(w.validator, a);
      if Passes(w, namespace, deployment, ev, a, index, checks + 1) then
        settled + [SafetyValidated(true), ExecutionDispatched(LastActionId(r.rounds), a)] <= events
      else
        && settled + [SafetyValidated(sensible && permitted)] <= events
        && (sensible ==> events == settled + [SafetyValidated(permitted)])
        && (sensible ==>
              o == if w.checkRaises(checks + 1) || (permitted && w.checkRaises(checks + 2)) then Raised
                   else Reported(SafeStopped, false))
  }

  lemma PassedGoesOn(w: World, namespace: string, deployment: string, ev: Evidence, r: Result, index: nat,
                     checks: nat, settled: seq<Event>, t: Tried, o: Supervision.Outcome, events: seq<Event>)
    requires !r.failed && !w.checkRaises(checks) && r.action.Some?
    requires Passes(w, namespace, deployment, ev, r.action.value, index, checks + 1)
    requires [SafetyValidated(true), ExecutionDispatched(LastActionId(r.rounds), r.action.value)] <= t.records
    requires Leaves(settled, t, o, events)
    ensures GoesOnFrom(w, namespace, deployment, ev, r, index, checks, settled, o, events)
  {
    var head := [SafetyValidated(true), ExecutionDispatched(LastActionId(r.rounds), r.action.value)];
    assert t.records == head + t.records[2..];
    assert settled + t.records == settled + head + t.records[2..];
  }

  lemma GatedGoesOn(w: World, namespace: string, deployment: string, ev: Evidence, r: Result, index: nat,
                    checks: nat, settled: seq<Event>, t: Tried, o: Supervision.Outcome, events: seq<Event>)
    requires !r.failed && !w.checkRaises(checks) && r.action.Some?
    requires t == GatedOf(w, namespace, deployment, ev, r.action.value, LastActionId(r.rounds), index, checks + 1)
    requires Leaves(settled, t, o, events)
    ensures GoesOnFrom(w, namespace, deployment, ev, r, index, checks, settled, o, events)
  {
    var a, actionId := r.action.value, LastActionId(r.rounds);
    DispatchedIff(w, namespace, deployment, ev, a, actionId, index, checks + 1);
    if Passes(w, namespace, deployment, ev, a, index, checks + 1) {
      PassedGoesOn(w, namespace, deployment, ev, r, index, checks, settled, t, o, events);
    } else {
      SettledEnds(w, namespace, deployment, ev, a, actionId, index, checks + 1);
    }
  }

  lemma SettledGoesOn(w: World, namespace: string, deployment: string, ev: Evidence, r: Result, index: nat,
                      checks: nat, past: seq<Event>, t: Tried, o: Supervision.Outcome, events: seq<Event>)
    requires !r.failed && !w.checkRaises(checks) && r.action.Some?
    requires t == GatedOf(w, namespace, deployment, ev, r.action.value, LastActionId(r.rounds), index, checks + 1)
    requires Leaves(past, t.(records := r.events + t.records), o, events)
    ensures GoesOnFrom(w, namespace, deployment, ev, r, index, checks, past + r.events, o, events)
  {
    assert past + (r.events + t.records) == past + r.events + t.records;
    GatedGoesOn(w, namespace, deployment, ev, r, index, checks, past + r.events, t, o, events);
  }

  lemma TriedGoesOn(negotiate: Negotiator, execute: Execute, w: World, namespace: string, deployment: string,
                    ev: Evidence, candidate: RecoveryAction, index: nat, offset: nat, checks: nat,
                    past: seq<Event>, o: Supervision.Outcome, events: seq<Event>)
    requires Executes(execute, w, namespace, deployment, ev)
    requires Leaves(past, TriedOf(negotiate, execute, w.checkRaises, candidate, index, offset, checks), o, events)
    ensures var r := negotiate(candidate, offset);
            GoesOnFrom(w, namespace, deployment, ev, r, index, checks, past + r.events, o, events)
  {
    var r := negotiate(candidate, offset);
    if !r.failed && !w.checkRaises(checks) && r.action.Some? {
      var t := execute(r.action.value, LastActionId(r.rounds), index, checks + 1);
      assert t == GatedOf(w, namespace, deployment, ev, r.action.value, LastActionId(r.rounds), index, checks + 1);
      SettledGoesOn(w, namespace, deployment, ev, r, index, checks, past, t, o, events);
    }
  }

  lemma TurnGoesOn(try: Trial, negotiate: Negotiator, execute: Execute, w: World, namespace: string,
                   deployment: string, ev: Evidence, candidates: seq<RecoveryAction>, n: nat)
    requires Executes(execute, w, namespace, deployment, ev) && Tries(try, negotiate, execute, w.checkRaises)
    requires n < |candidates| && ComesTo(try, candidates, n)
    ensures var (o, events) := RunFrom(try, candidates, 0, [], 6);
            var (past, checks) := Reached(try, candidates, n);
            var r := negotiate(candidates[n], |RoundsIn(past)|);
            GoesOnFrom(w, namespace, deployment, ev, r, n, checks, past + r.events, o, events)
  {
    var (o, events) := RunFrom(try, candidates, 0, [], 6);
    var (past, checks) := Reached(try, candidates, n);
    TurnTaken(try, candidates, n);
    assert Turn(try, candidates, n)
        == TriedOf(negotiate, execute, w.checkRaises, candidates[n], n, |RoundsIn(past)|, checks);
    TriedGoesOn(negotiate, execute, w, namespace, deployment, ev, candidates[n], n, |RoundsIn(past)|, checks, past, o,
                events);
  }

  /** The attempts of a run at its candidates. */
  function AttemptsOf(w: World, namespace: string, deployment: string, ev: Evidence): Trial {
    Trying(Negotiating(w.peers, ev), Executing(w, namespace, deployment, ev), w.checkRaises)
  }

  /** Whenever a candidate's turn comes, what its negotiation settled on is dispatched exactly if it makes
      sense and is permitted, unless a checkpoint raises or the target is locked by another; and what is
      not dispatched ends the run as it should, or leaves the turn to the next candidate. */
  lemma SettledIsDispatched(w: World, namespace: string, deployment: string, ev: Evidence,
                            candidates: seq<RecoveryAction>, n: nat)
    requires EarlyOutcome(w).None? && w.evidence == Some(ev)
    requires candidates == Candidates(w, namespace, deployment, ev, w.proposals.value)
    requires n < |candidates| && ComesTo(AttemptsOf(w, namespace, deployment, ev), candidates, n)
    ensures var (o, events) := RunOf(w, namespace, deployment);
            var (past, checks) := Reached(AttemptsOf(w, namespace, deployment, ev), candidates, n);
            var r := NegotiationOf(w.peers, ev, candidates[n], |RoundsIn(past)|);
            GoesOnFrom(w, namespace, deployment, ev, r, n, checks, past + r.events, o, events)
  {
    var negotiate, execute := Negotiating(w.peers, ev), Executing(w, namespace, deployment, ev);
    PartsFit(w, namespace, deployment, ev);
    TurnGoesOn(AttemptsOf(w, namespace, deployment, ev), negotiate, execute, w, namespace, deployment, ev, candidates,
               n);
  }

  /** A run whose candidates all had their turn without ending it reports a failure. */
  lemma NothingHelped(w: World, namespace: string, deployment: string, ev: Evidence,
                      candidates: seq<RecoveryAction>)
    requires EarlyOutcome(w).None? && w.evidence == Some(ev)
    requires candidates == Candidates(w, namespace, deployment, ev, w.proposals.value)
    requires ComesTo(AttemptsOf(w, namespace, deployment, ev), candidates, |candidates|)
    ensures RunOf(w, namespace, deployment).0 == Reported(SafeFailure, false)
  {
    RunFromReached(AttemptsOf(w, namespace, deployment, ev), candidates, |candidates|);
  }

  /** The trace ends with a closed round about `a` whose reviews consent to it, no enabled reviewer asking
      for a revision. */
  ghost predicate EndsUnopposed(p: Profile, events: seq<Event>, a: RecoveryAction) {
    exists d, reviews, round ::
      EndsWith(events, [DecisionMade(d)] + Given(reviews) + [RoundClosed(round)]) && d.action == a
      && Consent(p, reviews, a.kind)
      && (forall r, n: nat :: r in reviews && GivenBy(p, n, r) ==> r.verdict != Revise)
  }

  lemma ApprovalIsConsent(e: Peers, events: seq<Event>, a: RecoveryAction, actionId: string)
    requires SoundProfile(e.profile) && EndsWithApproval(e, events, a, actionId)
    ensures EndsUnopposed(e.profile, events, a)
  {
    var d, reviews, round :| ApprovalRecords(e, d, reviews, round, a, actionId)
                             && EndsWith(events, [DecisionMade(d)] + Given(reviews) + [RoundClosed(round)]);
    ConsentIff(e.profile, reviews, a.kind);
    RevisionsWanted(e.profile, reviews, a.kind);
  }

  /** On every exit of a run with a sound profile, each dispatched action follows reviews that consent to it
      by the strategy and ask for no revision. */
  lemma DispatchedUnopposed(w: World, namespace: string, deployment: string)
    requires SoundProfile(w.peers.profile)
    ensures var events := RunOf(w, namespace, deployment).1;
            forall i :: 0 <= i < |events| && events[i].ExecutionDispatched? ==>
              i >= 1 && EndsUnopposed(w.peers.profile, events[..i - 1], events[i].action)
  {
    var events := RunOf(w, namespace, deployment).1;
    RunIsSafe(w, namespace, deployment);
    forall i | 0 <= i < |events| && events[i].ExecutionDispatched?
      ensures i >= 1 && EndsUnopposed(w.peers.profile, events[..i - 1], events[i].action)
    {
      assert ReadyToDispatch(w, namespace, deployment, events[..i - 1], events[i].action, events[i].actionId);
      ApprovalIsConsent(w.peers, events[..i - 1], events[i].action, events[i].actionId);
    }
  }
}
