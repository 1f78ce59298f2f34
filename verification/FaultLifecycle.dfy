/** One experiment run: lock the target, inject a registered fault, run the coordinator, clean
    up, release; with a failure possible at every call. */
module FaultLifecycle {
  import opened Prelude

  datatype Mode = Mock | DryRun | Real

  datatype Source = ChaosMesh | AiopsLab

  datatype Stage =
    | Preflight | InjectingFault | CollectingEvidence | AgentReasoning | Negotiating
    | Validating | Executing | ObservingRecovery | Analyzing | CleaningUp | Completed

  /** The coordinator's record streams that become runtime events. */
  datatype Stream =
    | EvidenceRecord | InitialDecision | PeerReview | NegotiationRound | SafetyValidation | ExecutedAction | PostReview

  /** `STREAM_STAGE`. */
  function StageOf(stream: Stream): Stage {
    match stream
    case EvidenceRecord => CollectingEvidence
    case InitialDecision => AgentReasoning
    case PeerReview => Negotiating
    case NegotiationRound => Negotiating
    case SafetyValidation => Validating
    case ExecutedAction => Executing
    case PostReview => ObservingRecovery
  }

  /** The `except` branches of `run`. */
  datatype Failure = Blocked | Cancelled | Interrupted | Failed

  datatype Status = Ended(failure: Failure) | Finished(status: string)

  datatype RuntimeEvent = RuntimeEvent(sequence: nat, stage: Stage)

  /** What the run does to the cluster and to the lock path. */
  datatype Act = TakeLock | Apply | Wait | Delete | ReleaseLock

  datatype CoordinatorAnswer =
    | Raises(failure: Failure)
    | Reports(status: string, validated: bool, executed: bool, observed: bool)

  /** What asking for the cleanup can yield: a record with its verdict, a mapping with what it
      holds under "valid" if that is a truth value, or an exception. */
  datatype CleanupAnswer = Record(succeeded: bool) | MappingOf(valid: Option<bool>) | CleanupRaises

  /** The answers of everything around the run. `checks(n)` is the n-th cancellation
      checkpoint, `sinkRaises(n)` whether recording the n-th event raises; Some(f) is an
      exception that ends in branch f. `manifestSafe` covers the registered scenario, the
      manifest's location and its kind. */
  datatype World = World(
    mode: Mode,
    source: Source,
    admission: Option<Failure>,
    lock: Option<Failure>,
    checks: nat -> Option<Failure>,
    sinkRaises: nat -> bool,
    chaosReady: bool,
    manifestSafe: bool,
    applySucceeds: bool,
    settlingRaises: bool,
    waitSucceeds: bool,
    research: seq<Stream>,
    coordinator: CoordinatorAnswer,
    cleanup: CleanupAnswer)

  /** What `ChaosMeshAdapter.inject` returns, if anything. */
  datatype Injection = InjectionRaises | Injected(valid: bool)

  /** The result of `run`, or an exception that leaves it. */
  datatype Outcome = Escapes | Returns(status: Status, cleanupError: bool)

  // ----- what the run does, as a function of its world -----

  predicate Locks(w: World) { w.admission.None? && w.checks(0).None? && w.mode == Real && w.lock.None? }

  predicate ReachesInjection(w: World) {
    && Locks(w) && w.source == ChaosMesh && !w.sinkRaises(0)
    && w.checks(1).None? && w.chaosReady && w.checks(2).None? && !w.sinkRaises(1) && w.checks(3).None?
  }

  /** The run asks for the fault to be applied. */
  predicate Applies(w: World) { ReachesInjection(w) && w.manifestSafe }

  function InjectionOf(w: World): Injection {
    if !w.manifestSafe then InjectionRaises
    else Injected(w.applySucceeds && !w.settlingRaises && w.waitSucceeds)
  }

  function InjectionActs(w: World): seq<Act> {
    if !w.manifestSafe then [] else if !w.applySucceeds || w.settlingRaises then [Apply] else [Apply, Wait]
  }

  /** The first exception on the way to the coordinator, if there is one. */
  function PreparationFault(w: World): Option<Failure> {
    if w.admission.Some? then w.admission
    else if w.checks(0).Some? then w.checks(0)
    else if w.mode == Real && w.lock.Some? then w.lock
    else if w.sinkRaises(0) then Some(Failed)
    else if w.mode != Real || w.source != ChaosMesh then w.checks(5)
    else if w.checks(1).Some? then w.checks(1)
    else if !w.chaosReady then Some(Blocked)
    else if w.checks(2).Some? then w.checks(2)
    else if w.sinkRaises(1) then Some(Failed)
    else if w.checks(3).Some? then w.checks(3)
    else if InjectionOf(w) != Injected(true) then Some(Failed)
    else if w.checks(4).Some? then w.checks(4)
    else w.checks(5)
  }

  function PreparationStages(w: World): seq<Stage> {
    if w.admission.Some? || w.checks(0).Some? || (w.mode == Real && w.lock.Some?) then []
    else if w.sinkRaises(0) || w.mode != Real || w.source != ChaosMesh then [Preflight]
    else if w.checks(1).Some? || !w.chaosReady || w.checks(2).Some? then [Preflight]
    else [Preflight, InjectingFault]
  }

  /** Recording `stages` in turn, the first as event `base`, up to the first that raises. */
  function Recorded(w: World, base: nat, stages: seq<Stage>): (seq<Stage>, bool)
    decreases |stages|
  {
    if stages == [] then ([], false)
    else if w.sinkRaises(base) then ([stages[0]], true)
    else
      var (rest, raised) := Recorded(w, base + 1, stages[1..]);
      ([stages[0]] + rest, raised)
  }

  function ResearchStages(w: World): (stages: seq<Stage>)
    ensures |stages| == |w.research|
  {
    seq(|w.research|, n requires 0 <= n < |w.research| => StageOf(w.research[n]))
  }

  /** The stages that a coordinator's report calls for. */
  function ReportStages(a: CoordinatorAnswer): seq<Stage>
    requires a.Reports?
  {
    (if a.validated then [Validating] else []) + (if a.executed then [Executing] else [])
    + (if a.observed && a.status != "dry_run_validated" then [ObservingRecovery] else [])
  }

  /** The coordinator's part of the run, from event `base` on. */
  function Coordination(w: World, base: nat): (seq<Stage>, Status) {
    var (opening, raised) := Recorded(w, base, [CollectingEvidence, AgentReasoning]);
    if raised then (opening, Ended(Failed))
    else
      var reached := opening + ResearchStages(w);
      if w.coordinator.Raises? then (reached, Ended(w.coordinator.failure))
      else if w.checks(6).Some? then (reached, Ended(w.checks(6).value))
      else
        var (closing, raised') := Recorded(w, base + |reached|, ReportStages(w.coordinator));
        (reached + closing, if raised' then Ended(Failed) else Finished(w.coordinator.status))
  }

  /** The `try` of `run`: the stages it records and the status it arrives at. */
  function Tried(w: World): (seq<Stage>, Status) {
    if PreparationFault(w).Some? then (PreparationStages(w), Ended(PreparationFault(w).value))
    else
      var (stages, status) := Coordination(w, |PreparationStages(w)|);
      (PreparationStages(w) + stages, status)
  }

  /** Recording the cleanup event raises, after the fault was applied. */
  predicate CleanupRecordRaises(w: World) { Applies(w) && w.sinkRaises(|Tried(w).0|) }

  function FinishStages(w: World): seq<Stage> { if w.source == ChaosMesh then [Analyzing, Completed] else [Completed] }

  /** The stages recorded when `_finish` begins. */
  function SettledStages(w: World): seq<Stage> { Tried(w).0 + (if Applies(w) then [CleaningUp] else []) }

  function RunStages(w: World): seq<Stage> {
    if CleanupRecordRaises(w) then SettledStages(w)
    else SettledStages(w) + Recorded(w, |SettledStages(w)|, FinishStages(w)).0
  }

  function RunActs(w: World): seq<Act> {
    if !Locks(w) then []
    else
      [TakeLock] + (if ReachesInjection(w) then InjectionActs(w) else [])
      + (if CleanupRecordRaises(w) then [] else (if Applies(w) then [Delete] else []) + [ReleaseLock])
  }

  /** `_mapping(value).get("valid")`: anything but a mapping reads as invalid. */
  function ValidOf(a: CleanupAnswer): Option<bool>
    requires !a.CleanupRaises?
  {
    match a
    case Record(_) => Some(false)
    case MappingOf(valid) => valid
  }

  /** The cleanup is reported as failed. */
  predicate CleanupFails(a: CleanupAnswer) { a.CleanupRaises? || ValidOf(a) != Some(true) }

  function RunOutcome(w: World): Outcome {
    if CleanupRecordRaises(w) || Recorded(w, |SettledStages(w)|, FinishStages(w)).1 then Escapes
    else Returns(Tried(w).1, Applies(w) && CleanupFails(w.cleanup))
  }

  // ----- what is true of every run -----

  /** A run applies a fault exactly if it is a real chaos run that is admitted, has the lock, finds the
      installation ready and the manifest safe, and no record or checkpoint before raises. */
  lemma AppliesIff(w: World)
    ensures Apply in RunActs(w) <==> Applies(w)
    ensures Apply in RunActs(w) <==>
              && w.mode == Real && w.source == ChaosMesh
              && w.admission.None? && w.lock.None? && w.chaosReady && w.manifestSafe
              && !w.sinkRaises(0) && !w.sinkRaises(1) && forall n: nat :: n <= 3 ==> w.checks(n).None?
  {
    if Applies(w) {
      assert RunActs(w)[1] == Apply;
      forall n: nat | n <= 3 ensures w.checks(n).None? {
        assert n == 0 || n == 1 || n == 2 || n == 3;
      }
    }
  }

  /** It takes the lock exactly if it is real, admitted, not cancelled before, and the lock is free; and it
      waits for the fault exactly after an apply that succeeded and settled. */
  lemma ActsAre(w: World)
    ensures TakeLock in RunActs(w) <==>
              w.mode == Real && w.admission.None? && w.checks(0).None? && w.lock.None?
    ensures Wait in RunActs(w) <==> Apply in RunActs(w) && w.applySucceeds && !w.settlingRaises
  {
    var acts := RunActs(w);
    if Locks(w) { assert acts[0] == TakeLock; }
    if Applies(w) {
      assert acts[1] == Apply;
      if w.applySucceeds && !w.settlingRaises { assert acts[2] == Wait; }
    }
  }

  /** A delete follows an apply, and the lock is released, exactly unless recording the cleanup
      event raises. */
  lemma CleansUpIff(w: World)
    ensures Applies(w) ==> (Delete in RunActs(w) <==> !CleanupRecordRaises(w))
    ensures !Applies(w) ==> Delete !in RunActs(w)
    ensures Locks(w) ==> (ReleaseLock in RunActs(w) <==> !CleanupRecordRaises(w))
    ensures CleanupRecordRaises(w) ==> RunOutcome(w).Escapes?
  {
    var acts := RunActs(w);
    if Locks(w) && !CleanupRecordRaises(w) {
      assert acts[|acts| - 1] == ReleaseLock;
      if Applies(w) { assert acts[|acts| - 2] == Delete; }
    }
  }

  lemma {:induction false} RecordedRaises(w: World, base: nat, stages: seq<Stage>)
    requires stages != []
    ensures var (reached, raised) := Recorded(w, base, stages);
            reached != [] && (raised <==> w.sinkRaises(base + |reached| - 1))
    decreases |stages|
  {
    if !w.sinkRaises(base) && |stages| > 1 { RecordedRaises(w, base + 1, stages[1..]); }
  }

  /** An exception leaves the run exactly when recording the run's last event raised; every other
      failure ends in a report. */
  lemma EscapesIff(w: World)
    ensures RunStages(w) != []
    ensures RunOutcome(w).Escapes? <==> w.sinkRaises(|RunStages(w)| - 1)
  {
    var settled := SettledStages(w);
    RecordedRaises(w, |settled|, FinishStages(w));
  }

  predicate HeldAt(acts: seq<Act>, k: nat) {
    exists i :: 0 <= i < k <= |acts| && acts[i] == TakeLock && forall j :: i < j < k ==> acts[j] != ReleaseLock
  }

  /** Unless recording the cleanup event raises, an apply is followed by exactly one delete, and
      the lock is held from before the apply until after that delete, when it is released. */
  lemma AppliesAreBracketed(w: World, k: nat)
    requires k < |RunActs(w)| && RunActs(w)[k] == Apply && !CleanupRecordRaises(w)
    ensures var acts := RunActs(w);
            && (forall j :: 0 <= j < |acts| && acts[j] == Apply ==> j == k)
            && k < |acts| - 2 && acts[|acts| - 2] == Delete && acts[|acts| - 1] == ReleaseLock
            && (forall j :: 0 <= j < |acts| && acts[j] == Delete ==> j == |acts| - 2)
            && (forall j :: k <= j < |acts| ==> HeldAt(acts, j))
  {
    AppliesIff(w);
    var acts := RunActs(w);
    assert acts == [TakeLock, Apply, Delete, ReleaseLock] || acts == [TakeLock, Apply, Wait, Delete, ReleaseLock];
    forall j | k <= j < |acts| ensures HeldAt(acts, j) {
      assert acts[0] == TakeLock;
    }
  }

  /** A run that returns reports a cleanup error exactly when it applied a fault and the cleanup did
      not answer with a mapping that says valid. */
  lemma CleanupErrorIff(w: World)
    requires RunOutcome(w).Returns?
    ensures RunOutcome(w).cleanupError <==> Applies(w) && w.cleanup != MappingOf(Some(true))
  {
  }

  /** `ChaosMeshAdapter.cleanup` answers with a record, whether or not the delete succeeded. */
  function AdapterCleanup(deleteSucceeds: bool): CleanupAnswer { Record(deleteSucceeds) }

  /** So with that adapter every run that applied a fault and returns reports a cleanup error, also
      when the delete succeeded. */
  lemma AdapterCleanupAlwaysFails(w: World, deleteSucceeds: bool)
    requires w.cleanup == AdapterCleanup(deleteSucceeds) && RunOutcome(w).Returns?
    ensures RunOutcome(w).cleanupError <==> Apply in RunActs(w)
  {
    CleanupErrorIff(w);
    AppliesIff(w);
  }

  /** The coordinator's status is reported only if the run held the lock and, for a real fault, the
      fault took effect. */
  lemma CoordinatorStatusStands(w: World)
    requires RunOutcome(w).Returns? && RunOutcome(w).status.Finished?
    ensures w.coordinator.Reports? && RunOutcome(w).status.status == w.coordinator.status
    ensures w.mode == Real ==> Locks(w)
    ensures w.mode == Real && w.source == ChaosMesh ==> Applies(w) && InjectionOf(w) == Injected(true)
  {
  }

  // ----- which failure a run reports -----

  ghost function FailedIf(condition: bool): Option<Failure> { if condition then Some(Failed) else None }

  /** What can stop a run before it decides whether to inject, in the order in which it is met: each entry
      is the failure to report if that is what stops the run. */
  ghost function OpeningObstacles(w: World): seq<Option<Failure>> {
    [w.admission, w.checks(0), if w.mode == Real then w.lock else None, FailedIf(w.sinkRaises(0))]
  }

  /** What can stop a fault from taking effect. */
  ghost function InjectionObstacles(w: World): seq<Option<Failure>> {
    [w.checks(1), if w.chaosReady then None else Some(Blocked), w.checks(2), FailedIf(w.sinkRaises(1))]
    + [w.checks(3), FailedIf(!w.manifestSafe),
       FailedIf(!w.applySucceeds || w.settlingRaises || !w.waitSucceeds), w.checks(4)]
  }

  /** What can stop the coordinator or the records around it, of which event `opening` is the first. */
  ghost function CoordinatorObstacles(w: World, opening: nat): seq<Option<Failure>> {
    [FailedIf(w.sinkRaises(opening)), FailedIf(w.sinkRaises(opening + 1)),
     if w.coordinator.Raises? then Some(w.coordinator.failure) else None, w.checks(6)]
    + [FailedIf(exists k :: opening + 2 + |w.research| <= k < opening + 2 + |w.research| + ReportedStages(w)
                            && w.sinkRaises(k))]
  }

  /** How many stages the coordinator's report is recorded as. */
  ghost function ReportedStages(w: World): nat {
    if w.coordinator.Raises? then 0
    else (if w.coordinator.validated then 1 else 0) + (if w.coordinator.executed then 1 else 0)
         + (if w.coordinator.observed && w.coordinator.status != "dry_run_validated" then 1 else 0)
  }

  /** Everything that can stop a run, in order; only a real chaos run injects. */
  ghost function Obstacles(w: World): seq<Option<Failure>> {
    if w.mode == Real && w.source == ChaosMesh then
      OpeningObstacles(w) + InjectionObstacles(w) + [w.checks(5)] + CoordinatorObstacles(w, 2)
    else
      OpeningObstacles(w) + [w.checks(5)] + CoordinatorObstacles(w, 1)
  }

  ghost function First(obstacles: seq<Option<Failure>>): Option<Failure> {
    if obstacles == [] then None else if obstacles[0].Some? then obstacles[0] else First(obstacles[1..])
  }

  lemma {:induction false} FirstIs(obstacles: seq<Option<Failure>>, k: nat)
    requires k <= |obstacles| && forall j :: 0 <= j < k ==> obstacles[j].None?
    ensures k == |obstacles| ==> First(obstacles).None?
    ensures k < |obstacles| && obstacles[k].Some? ==> First(obstacles) == obstacles[k]
  {
    if k > 0 { FirstIs(obstacles[1..], k - 1); }
  }

  lemma {:induction false} FirstConcat(a: seq<Option<Failure>>, b: seq<Option<Failure>>)
    ensures First(a + b) == if First(a).Some? then First(a) else First(b)
  {
    if a == [] {
      assert a + b == b;
    } else {
      FirstConcat(a[1..], b);
      assert (a + b)[1..] == a[1..] + b;
    }
  }

  lemma FirstOfFour(a: Option<Failure>, b: Option<Failure>, c: Option<Failure>, d: Option<Failure>)
    ensures First([a, b, c, d]) == if a.Some? then a else if b.Some? then b else if c.Some? then c else d
    ensures First([a]) == a
  {
    assert forall x: Option<Failure> :: [x][1..] == [] && First([x]) == x;
    assert [c, d][1..] == [d] && First([c, d]) == if c.Some? then c else d;
    assert [b, c, d][1..] == [c, d] && [a, b, c, d][1..] == [b, c, d];
  }

  lemma InjectionStops(w: World)
    ensures First(InjectionObstacles(w))
            == if w.checks(1).Some? then w.checks(1)
               else if !w.chaosReady then Some(Blocked)
               else if w.checks(2).Some? then w.checks(2)
               else if w.sinkRaises(1) then Some(Failed)
               else if w.checks(3).Some? then w.checks(3)
               else if InjectionOf(w) != Injected(true) then Some(Failed)
               else w.checks(4)
  {
    var ready := if w.chaosReady then None else Some(Blocked);
    var applied := FailedIf(!w.applySucceeds || w.settlingRaises || !w.waitSucceeds);
    FirstOfFour(w.checks(1), ready, w.checks(2), FailedIf(w.sinkRaises(1)));
    FirstOfFour(w.checks(3), FailedIf(!w.manifestSafe), applied, w.checks(4));
    FirstConcat([w.checks(1), ready, w.checks(2), FailedIf(w.sinkRaises(1))],
                [w.checks(3), FailedIf(!w.manifestSafe), applied, w.checks(4)]);
  }

  lemma PreparationStops(w: World)
    ensures PreparationFault(w)
            == First(OpeningObstacles(w)
                     + (if w.mode == Real && w.source == ChaosMesh then InjectionObstacles(w) else [])
                     + [w.checks(5)])
  {
    var injection := if w.mode == Real && w.source == ChaosMesh then InjectionObstacles(w) else [];
    FirstOfFour(w.admission, w.checks(0), if w.mode == Real then w.lock else None, FailedIf(w.sinkRaises(0)));
    FirstOfFour(w.checks(5), None, None, None);
    InjectionStops(w);
    FirstConcat(OpeningObstacles(w) + injection, [w.checks(5)]);
    FirstConcat(OpeningObstacles(w), injection);
  }

  lemma {:induction false} RecordedRaisesIff(w: World, base: nat, stages: seq<Stage>)
    ensures Recorded(w, base, stages).1 <==> exists k :: base <= k < base + |stages| && w.sinkRaises(k)
    ensures !Recorded(w, base, stages).1 ==> Recorded(w, base, stages).0 == stages
    decreases |stages|
  {
    if stages != [] {
      RecordedRaisesIff(w, base + 1, stages[1..]);
      assert stages == [stages[0]] + stages[1..];
    }
  }

  lemma CoordinatorStops(w: World, opening: nat)
    ensures Coordination(w, opening).1
            == match First(CoordinatorObstacles(w, opening))
               case Some(f) => Ended(f)
               case None => if w.coordinator.Reports? then Finished(w.coordinator.status) else Ended(Failed)
  {
    var raised := if w.coordinator.Raises? then Some(w.coordinator.failure) else None;
    var closing := opening + 2 + |w.research|;
    var closed := FailedIf(exists k :: closing <= k < closing + ReportedStages(w) && w.sinkRaises(k));
    FirstOfFour(FailedIf(w.sinkRaises(opening)), FailedIf(w.sinkRaises(opening + 1)), raised, w.checks(6));
    FirstOfFour(closed, None, None, None);
    FirstConcat([FailedIf(w.sinkRaises(opening)), FailedIf(w.sinkRaises(opening + 1)), raised, w.checks(6)], [closed]);
    RecordedRaisesIff(w, opening, [CollectingEvidence, AgentReasoning]);
    if w.coordinator.Reports? { RecordedRaisesIff(w, closing, ReportStages(w.coordinator)); }
  }

  lemma PreparedStages(w: World)
    requires PreparationFault(w).None?
    ensures |PreparationStages(w)| == if w.mode == Real && w.source == ChaosMesh then 2 else 1
  {
  }

  /** A run that returns reports the first thing that stopped it: a refused admission, lock or checkpoint
      and a coordinator that raised report their own failure, an unready chaos installation reports
      blocked, and a record that raised, an unsafe manifest or a failed injection reports failed. A
      run that nothing stopped reports the coordinator's status. */
  lemma StatusIs(w: World)
    requires RunOutcome(w).Returns?
    ensures First(Obstacles(w)).Some? ==> RunOutcome(w).status == Ended(First(Obstacles(w)).value)
    ensures First(Obstacles(w)).None? ==>
              w.coordinator.Reports? && RunOutcome(w).status == Finished(w.coordinator.status)
  {
    var chaos := w.mode == Real && w.source == ChaosMesh;
    var before := OpeningObstacles(w) + (if chaos then InjectionObstacles(w) else []) + [w.checks(5)];
    var after := CoordinatorObstacles(w, if chaos then 2 else 1);
    PreparationStops(w);
    FirstConcat(before, after);
    assert Obstacles(w) == before + after;
    if PreparationFault(w).None? {
      PreparedStages(w);
      CoordinatorStops(w, if chaos then 2 else 1);
      CoordinatorRaisesStops(w, if chaos then 2 else 1);
    }
  }

  lemma CoordinatorRaisesStops(w: World, opening: nat)
    ensures First(CoordinatorObstacles(w, opening)).None? ==> w.coordinator.Reports?
  {
    if w.coordinator.Raises? {
      var raised := Some(w.coordinator.failure);
      var four := [FailedIf(w.sinkRaises(opening)), FailedIf(w.sinkRaises(opening + 1)), raised, w.checks(6)];
      FirstOfFour(four[0], four[1], four[2], four[3]);
      FirstConcat(four, CoordinatorObstacles(w, opening)[4..]);
      assert CoordinatorObstacles(w, opening) == four + CoordinatorObstacles(w, opening)[4..];
    }
  }

  // ----- which stages a run records -----

  /** A run that nothing stops records these stages, in this order: only a real chaos run injects and cleans
      up, the coordinator's own records and report come in between, and chaos experiments are analysed. */
  lemma StagesAre(w: World)
    requires First(Obstacles(w)).None? && forall k :: !w.sinkRaises(k)
    ensures w.coordinator.Reports?
    ensures RunStages(w)
            == [Preflight] + (if w.mode == Real && w.source == ChaosMesh then [InjectingFault] else [])
               + [CollectingEvidence, AgentReasoning] + ResearchStages(w)
               + ((if w.coordinator.validated then [Validating] else [])
                  + (if w.coordinator.executed then [Executing] else [])
                  + (if w.coordinator.observed && w.coordinator.status != "dry_run_validated"
                     then [ObservingRecovery] else []))
               + (if w.mode == Real && w.source == ChaosMesh then [CleaningUp] else [])
               + (if w.source == ChaosMesh then [Analyzing, Completed] else [Completed])
  {
    var chaos := w.mode == Real && w.source == ChaosMesh;
    var before := OpeningObstacles(w) + (if chaos then InjectionObstacles(w) else []) + [w.checks(5)];
    var after := CoordinatorObstacles(w, if chaos then 2 else 1);
    PreparationStops(w);
    FirstConcat(before, after);
    assert Obstacles(w) == before + after;
    CoordinatorRaisesStops(w, if chaos then 2 else 1);
    UnstoppedTry(w);
    AppliesUnlessStopped(w);
    RecordedRaisesIff(w, |SettledStages(w)|, FinishStages(w));
  }

  lemma AppliesUnlessStopped(w: World)
    requires PreparationFault(w).None?
    ensures Applies(w) <==> w.mode == Real && w.source == ChaosMesh
  {
  }

  lemma UnstoppedTry(w: World)
    requires PreparationFault(w).None? && w.coordinator.Reports? && forall k :: !w.sinkRaises(k)
    requires First(CoordinatorObstacles(w, if w.mode == Real && w.source == ChaosMesh then 2 else 1)).None?
    ensures Tried(w).0
            == [Preflight] + (if w.mode == Real && w.source == ChaosMesh then [InjectingFault] else [])
               + [CollectingEvidence, AgentReasoning] + ResearchStages(w) + ReportStages(w.coordinator)
  {
    var opening := if w.mode == Real && w.source == ChaosMesh then 2 else 1;
    PreparedStages(w);
    CoordinatorStops(w, opening);
    RecordedRaisesIff(w, opening, [CollectingEvidence, AgentReasoning]);
    RecordedRaisesIff(w, opening + 2 + |w.research|, ReportStages(w.coordinator));
    assert w.checks(6).None? by {
      var raised: Option<Failure> := None;
      FirstOfFour(None, None, raised, w.checks(6));
      FirstConcat([None, None, raised, w.checks(6)], CoordinatorObstacles(w, opening)[4..]);
      assert CoordinatorObstacles(w, opening)
          == [None, None, raised, w.checks(6)] + CoordinatorObstacles(w, opening)[4..];
    }
  }

  /** The stage that each kind of record belongs to. */
  lemma RecordsBelongTo(w: World)
    requires w.research == [EvidenceRecord, InitialDecision, PeerReview, NegotiationRound, SafetyValidation,
                            ExecutedAction, PostReview]
    ensures ResearchStages(w)
            == [CollectingEvidence, AgentReasoning, Negotiating, Negotiating, Validating, Executing,
                ObservingRecovery]
  {
  }

  /** How far a run got shows in its stages: preflight once it was admitted and has the lock, injection once
      a chaos run is ready for it, cleanup after an apply, and completion unless recording the cleanup
      or the analysis raised. */
  lemma StagesReached(w: World)
    ensures Preflight in RunStages(w) <==>
              w.admission.None? && w.checks(0).None? && (w.mode == Real ==> w.lock.None?)
    ensures InjectingFault in RunStages(w) <==>
              && w.admission.None? && w.checks(0).None? && w.lock.None? && !w.sinkRaises(0)
              && w.mode == Real && w.source == ChaosMesh
              && w.checks(1).None? && w.chaosReady && w.checks(2).None?
    ensures CleaningUp in RunStages(w) <==> Apply in RunActs(w)
    ensures Analyzing in RunStages(w) <==> w.source == ChaosMesh && !CleanupRecordRaises(w)
    ensures Completed in RunStages(w) <==>
              !CleanupRecordRaises(w) && !(w.source == ChaosMesh && w.sinkRaises(|SettledStages(w)|))
  {
    AppliesIff(w);
    FinishKinds(w, |SettledStages(w)|);
    StageIn(w, Preflight);
    StageIn(w, InjectingFault);
    StageIn(w, CleaningUp);
    StageIn(w, Analyzing);
    StageIn(w, Completed);
  }

  lemma StageIn(w: World, x: Stage)
    requires !Middle(x)
    ensures x in RunStages(w) <==>
              || x in PreparationStages(w) || (x == CleaningUp && Applies(w))
              || (!CleanupRecordRaises(w) && x in Recorded(w, |SettledStages(w)|, FinishStages(w)).0)
  {
    TriedKinds(w);
    assert x in SettledStages(w) <==> x in Tried(w).0 || (x == CleaningUp && Applies(w));
  }

  predicate Middle(x: Stage) {
    x in {CollectingEvidence, AgentReasoning, Negotiating, Validating, Executing, ObservingRecovery}
  }

  lemma {:induction false} RecordedMembers(w: World, base: nat, stages: seq<Stage>, x: Stage)
    ensures x in Recorded(w, base, stages).0 ==> x in stages
    decreases |stages|
  {
    if stages != [] { RecordedMembers(w, base + 1, stages[1..], x); }
  }

  lemma CoordinationKinds(w: World, base: nat)
    ensures forall x :: x in Coordination(w, base).0 ==> Middle(x)
  {
    forall x | x in Coordination(w, base).0 ensures Middle(x) {
      RecordedMembers(w, base, [CollectingEvidence, AgentReasoning], x);
      var reached := Recorded(w, base, [CollectingEvidence, AgentReasoning]).0 + ResearchStages(w);
      if w.coordinator.Reports? { RecordedMembers(w, base + |reached|, ReportStages(w.coordinator), x); }
    }
  }

  lemma TriedKinds(w: World)
    ensures forall x :: x in Tried(w).0 ==> x in PreparationStages(w) || Middle(x)
    ensures forall x :: x in PreparationStages(w) ==> x in Tried(w).0
  {
    CoordinationKinds(w, |PreparationStages(w)|);
  }

  lemma FinishKinds(w: World, base: nat)
    ensures var finish := Recorded(w, base, FinishStages(w)).0;
            && (Analyzing in finish <==> w.source == ChaosMesh)
            && (Completed in finish <==> !(w.source == ChaosMesh && w.sinkRaises(base)))
            && forall x :: x in finish ==> x == Analyzing || x == Completed
  {
    assert [Analyzing, Completed][1..] == [Completed] && [Completed][1..] == [];
  }

  /** A real run whose fault took effect, with a sink that stops working once it is injected. */
  const SINK_FAILS := World(
    Real, ChaosMesh, None, None, (n: nat) => None, (n: nat) => n >= 2, true, true, true, false, true, [],
    Reports("recovered", true, true, true), AdapterCleanup(true))

  /** The fault stays in the cluster and the lock file in place. */
  lemma FaultLeftBehind(w: World)
    requires w == SINK_FAILS
    ensures RunActs(w) == [TakeLock, Apply, Wait] && RunOutcome(w) == Escapes
  {
    assert Tried(w) == ([Preflight, InjectingFault] + [CollectingEvidence], Ended(Failed));
    assert CleanupRecordRaises(w);
  }

  // ----- the run -----

  function StagesOf(events: seq<RuntimeEvent>): (stages: seq<Stage>)
    ensures |stages| == |events| && forall n :: 0 <= n < |events| ==> stages[n] == events[n].stage
  {
    seq(|events|, n requires 0 <= n < |events| => events[n].stage)
  }

  /** The run in progress: what it did, and the events it recorded (`RuntimeResearchEventBridge`). */
  class Experiment {
    const w: World
    var acts: seq<Act>
    var sequence: nat
    var events: seq<RuntimeEvent>

    constructor (w: World)
      ensures this.w == w && acts == [] && Numbered() && events == []
    {
      this.w := w;
      acts, sequence, events := [], 0, [];
    }

    /** The events are numbered 1, 2, ..., in order, whether or not recording them raised. */
    ghost predicate Numbered()
      reads this
    {
      sequence == |events| && forall n :: 0 <= n < |events| ==> events[n].sequence == n + 1
    }

    /** `emit` of the bridge. */
    method Emit(stage: Stage) returns (raised: bool)
      requires Numbered()
      modifies this`sequence, this`events
      ensures Numbered() && events == old(events) + [RuntimeEvent(|old(events)| + 1, stage)]
      ensures StagesOf(events) == old(StagesOf(events)) + [stage]
      ensures raised == w.sinkRaises(|old(events)|)
    {
      raised := w.sinkRaises(|events|);
      sequence := sequence + 1;
      events := events + [RuntimeEvent(sequence, stage)];
    }

    /** Events recorded one after the other, as long as recording them works. */
    method EmitAll(stages: seq<Stage>) returns (raised: bool)
      requires Numbered()
      modifies this`sequence, this`events
      ensures Numbered()
      ensures StagesOf(events) == old(StagesOf(events)) + Recorded(w, |old(events)|, stages).0
      ensures raised == Recorded(w, |old(events)|, stages).1
    {
      ghost var before, base := StagesOf(events), |events|;
      var n := 0;
      while n < |stages|
        invariant 0 <= n <= |stages| && Numbered() && |events| == base + n
        invariant before + Recorded(w, base, stages).0 == StagesOf(events) + Recorded(w, base + n, stages[n..]).0
        invariant Recorded(w, base, stages).1 == Recorded(w, base + n, stages[n..]).1
      {
        assert stages[n..][1..] == stages[n + 1..];
        raised := Emit(stages[n]);
        if raised { return; }
        n := n + 1;
      }
      raised := false;
    }

    /** `ChaosMeshAdapter.inject`: once an apply was attempted it returns an application, whatever
        fails. */
    method Inject() returns (r: Injection)
      modifies this`acts
      ensures acts == old(acts) + InjectionActs(w) && r == InjectionOf(w)
    {
      if !w.manifestSafe {
        return InjectionRaises;
      }
      acts := acts + [Apply];
      if !w.applySucceeds || w.settlingRaises {
        return Injected(false);
      }
      acts := acts + [Wait];
      return Injected(w.waitSucceeds);
    }

    /** The request to clean up: one delete, and the answer about it. */
    method CleanUp() returns (answer: CleanupAnswer)
      modifies this`acts
      ensures acts == old(acts) + [Delete] && answer == w.cleanup
    {
      acts := acts + [Delete];
      return w.cleanup;
    }

    /** From the lock to the fault: the part of the `try` before the coordinator runs. `fault` is
        the exception raised on the way; `application` whether injection returned one. */
    method Prepare() returns (fault: Option<Failure>, locked: bool, application: bool)
      requires Numbered() && acts == [] && events == []
      modifies this
      ensures Numbered() && StagesOf(events) == PreparationStages(w)
      ensures fault == PreparationFault(w) && locked == Locks(w) && application == Applies(w)
      ensures acts == (if Locks(w) then [TakeLock] else []) + (if ReachesInjection(w) then InjectionActs(w) else [])
    {
      locked, application := false, false;
      if w.admission.Some? { return w.admission, locked, application; }
      if w.checks(0).Some? { return w.checks(0), locked, application; }
      if w.mode == Real {
        if w.lock.Some? { return w.lock, locked, application; }
        acts := acts + [TakeLock];
        locked := true;
      }
      var raised := Emit(Preflight);
      if raised { return Some(Failed), locked, application; }
      if w.mode == Real && w.source == ChaosMesh {
        if w.checks(1).Some? { return w.checks(1), locked, application; }
        if !w.chaosReady { return Some(Blocked), locked, application; }
        if w.checks(2).Some? { return w.checks(2), locked, application; }
        raised := Emit(InjectingFault);
        if raised { return Some(Failed), locked, application; }
        if w.checks(3).Some? { return w.checks(3), locked, application; }
        var injected := Inject();
        if injected.InjectionRaises? { return Some(Failed), locked, application; }
        application := true;
        if !injected.valid { return Some(Failed), locked, application; }
        if w.checks(4).Some? { return w.checks(4), locked, application; }
      }
      fault := w.checks(5);
    }

    /** The coordinator's own records, passed on as they come. One that cannot be stored raises in
        the coordinator, whose answer is free. */
    method RelayResearch()
      requires Numbered()
      modifies this`sequence, this`events
      ensures Numbered() && StagesOf(events) == old(StagesOf(events)) + ResearchStages(w)
    {
      var n := 0;
      while n < |w.research|
        invariant 0 <= n <= |w.research| && Numbered()
        invariant StagesOf(events) == old(StagesOf(events)) + ResearchStages(w)[..n]
      {
        var _ := Emit(StageOf(w.research[n]));
        n := n + 1;
      }
    }

    /** The rest of the `try`: the coordinator's run and the stages of its report. */
    method Coordinate() returns (status: Status)
      requires Numbered()
      modifies this`sequence, this`events
      ensures Numbered()
      ensures StagesOf(events) == old(StagesOf(events)) + Coordination(w, |old(events)|).0
      ensures status == Coordination(w, |old(events)|).1
    {
      var raised := EmitAll([CollectingEvidence, AgentReasoning]);
      if raised { return Ended(Failed); }
      RelayResearch();
      match w.coordinator {
        case Raises(failure) => return Ended(failure);
        case Reports(final, validated, executed, observed) =>
          if w.checks(6).Some? { return Ended(w.checks(6).value); }
          raised := EmitAll(ReportStages(w.coordinator));
          status := if raised then Ended(Failed) else Finished(final);
      }
    }

    /** The `finally` of `run`: clean up what was applied, then release the lock. */
    method Settle(application: bool, locked: bool) returns (escapes: bool, cleanupError: bool)
      requires Numbered() && application == Applies(w) && locked == Locks(w) && StagesOf(events) == Tried(w).0
      requires acts == (if Locks(w) then [TakeLock] else []) + (if ReachesInjection(w) then InjectionActs(w) else [])
      modifies this
      ensures Numbered() && StagesOf(events) == SettledStages(w) && acts == RunActs(w)
      ensures escapes == CleanupRecordRaises(w)
      ensures !escapes ==> cleanupError == (Applies(w) && CleanupFails(w.cleanup))
    {
      escapes, cleanupError := false, false;
      if application {
        escapes := Emit(CleaningUp);
        if escapes { return; }
        var answer := CleanUp();
        cleanupError := answer.CleanupRaises? || ValidOf(answer) != Some(true);
      }
      if locked {
        acts := acts + [ReleaseLock];
      }
    }

    /** `ExperimentRuntime.run`: what it did, what it recorded and how it ended are the functions of
        its world above, and the events are numbered throughout. */
    method RunExperiment() returns (o: Outcome)
      requires Numbered() && acts == [] && events == []
      modifies this
      ensures Numbered() && StagesOf(events) == RunStages(w)
      ensures acts == RunActs(w)
      ensures o == RunOutcome(w)
    {
      var fault, locked, application := Prepare();
      var status := Ended(Failed);
      if fault.Some? {
        status := Ended(fault.value);
      } else {
        status := Coordinate();
      }
      var escapes, cleanupError := Settle(application, locked);
      if escapes { return Escapes; }
      escapes := EmitAll(FinishStages(w));
      o := if escapes then Escapes else Returns(status, cleanupError);
    }
  }
}
