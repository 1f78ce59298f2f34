/** Runtime feedback, accumulated exclusions and bounded replanning. */
module Repartition {
  import opened Prelude
  import opened Combinations
  import opened PartitionModels
  import opened Scoring
  import opened CandidateBuilder
  import opened FederatedBuilder
  import opened Planner

  /** The four runtime feedback signals, and the memory signal of the failure interface. */
  datatype Signal =
    | DeviceUnavailable(device: string)
    | TransferFailure(source: string, target: string)
    | LatencySloViolation
    | PlacementRejected
    | MemoryExceeded(failedDevice: string)

  datatype ExclusionType =
    | NoExclusion | DeviceExclusion | LinkExclusion | SplitExclusion | CandidateExclusion | MemoryExclusion

  /** The tuples of the directive are sorted and duplicate-free, so they are sets here;
      the memory limits are one limit per device. */
  datatype Directive = Directive(
    exclusionType: ExclusionType,
    devices: set<string>,
    links: set<Pair>,
    splits: set<seq<nat>>,
    candidateSplits: set<seq<nat>>,
    memoryLimits: map<string, int>,
    errors: set<string>)

  const EMPTY := Directive(NoExclusion, {}, {}, {}, {}, map[], {})

  function Merge(older: Directive, newer: Directive): Directive {
    Directive(newer.exclusionType,
              older.devices + newer.devices,
              older.links + newer.links,
              older.splits + newer.splits,
              older.candidateSplits + newer.candidateSplits,
              older.memoryLimits + newer.memoryLimits,
              older.errors + newer.errors)
  }

  datatype PlanRecord = PlanRecord(planId: string, version: nat, selected: Option<Candidate>)

  datatype Analysis =
    | Directed(directive: Directive)
    | FeedbackPlanMismatch
    | FeedbackPlanHasNoCandidate
    | UnsupportedSignal

  /** `PartitionFeedbackAnalyzer.analyze`. */
  function Analyze(planId: string, version: nat, signal: Signal, previous: PlanRecord): Analysis {
    if signal.MemoryExceeded? then UnsupportedSignal
    else if planId != previous.planId || version != previous.version then FeedbackPlanMismatch
    else if signal.DeviceUnavailable? then
      Directed(EMPTY.(exclusionType := DeviceExclusion, devices := {signal.device}))
    else if signal.TransferFailure? then
      Directed(EMPTY.(exclusionType := LinkExclusion, links := {(signal.source, signal.target)}))
    else if previous.selected.None? then FeedbackPlanHasNoCandidate
    else if signal.LatencySloViolation? then
      Directed(EMPTY.(exclusionType := SplitExclusion, splits := {previous.selected.value.splitPoints}))
    else
      Directed(EMPTY.(exclusionType := CandidateExclusion, candidateSplits := {previous.selected.value.splitPoints}))
  }

  function FirstOn(partitions: seq<LogicalPartition>, device: string): (r: Option<LogicalPartition>)
    ensures r.Some? <==> exists n :: 0 <= n < |partitions| && partitions[n].deviceId == device
    ensures r.Some? ==> r.value in partitions && r.value.deviceId == device
  {
    if partitions == [] then None
    else if partitions[0].deviceId == device then Some(partitions[0])
    else
      assert partitions == [partitions[0]] + partitions[1..];
      FirstOn(partitions[1..], device)
  }

  /** `RepartitionDirective.from_partition_failure`. */
  function FromPartitionFailure(signal: Signal, selected: Option<Candidate>): Directive {
    match signal
    case DeviceUnavailable(d) => EMPTY.(exclusionType := DeviceExclusion, devices := {d})
    case TransferFailure(s, t) => EMPTY.(exclusionType := LinkExclusion, links := {(s, t)})
    case LatencySloViolation =>
      if selected.None? then EMPTY
      else EMPTY.(exclusionType := SplitExclusion, splits := {selected.value.splitPoints})
    case MemoryExceeded(d) =>
      if selected.None? then EMPTY
      else
        (match FirstOn(selected.value.partitions, d)
         case Some(p) => EMPTY.(exclusionType := MemoryExclusion, memoryLimits := map[d := p.memoryDemandBytes - 1])
         case None => EMPTY.(exclusionType := MemoryExclusion, errors := {"failed_device_not_in_previous_plan"}))
    case PlacementRejected => EMPTY
  }

  function ExclusionsOf(d: Directive): Exclusions {
    Exclusions(d.devices, d.links, d.splits + d.candidateSplits, d.memoryLimits)
  }

  /** `_replan`: the guards, then a plan under everything excluded so far. */
  function Replan(i: PlanningInput, previous: PlanRecord, d: Directive, attempt: nat): PlanOutcome
    requires Admitted(i)
  {
    if attempt > i.policy.maxReplanAttempts then SafeFailure(ReplanAttemptsExhausted, [])
    else if d.errors != {} then SafeFailure(DirectiveErrors(d.errors), [])
    else if previous.selected.None? then SafeFailure(PreviousPlanHasNoCandidate, [])
    else Plan(i, ExclusionsOf(d))
  }

  // ----- one step -----

  /** The directive for a signal about the current candidate: the analyser's for the runtime
      signals, the failure interface's for memory. */
  function DirectiveFor(signal: Signal, c: Candidate): Directive {
    if signal.MemoryExceeded? then FromPartitionFailure(signal, Some(c))
    else Analyze("", 1, signal, PlanRecord("", 1, Some(c))).directive
  }

  /** What feedback about a candidate adds to the exclusions: the device, the link or the split points it
      names, or a memory limit of one byte less than the device's partition needs. */
  lemma FeedbackExcludes(d: Directive, signal: Signal, c: Candidate)
    ensures var e := Merge(d, DirectiveFor(signal, c));
            && e.devices == d.devices + (if signal.DeviceUnavailable? then {signal.device} else {})
            && e.links == d.links + (if signal.TransferFailure? then {(signal.source, signal.target)} else {})
            && e.splits == d.splits + (if signal.LatencySloViolation? then {c.splitPoints} else {})
            && e.candidateSplits == d.candidateSplits + (if signal.PlacementRejected? then {c.splitPoints} else {})
            && (!signal.MemoryExceeded? ==> e.memoryLimits == d.memoryLimits && e.errors == d.errors)
            && (signal.MemoryExceeded? ==>
                  match FirstOn(c.partitions, signal.failedDevice)
                  case Some(p) =>
                    && e.memoryLimits == d.memoryLimits[signal.failedDevice := p.memoryDemandBytes - 1]
                    && e.errors == d.errors
                  case None =>
                    e.memoryLimits == d.memoryLimits && e.errors == d.errors + {"failed_device_not_in_previous_plan"})
  {
  }

  /** Feedback is analysed only if it names the plan and its version, and only split feedback needs a
      selected candidate. */
  lemma AnalysedIff(planId: string, version: nat, signal: Signal, previous: PlanRecord)
    requires !signal.MemoryExceeded?
    ensures Analyze(planId, version, signal, previous).Directed? <==>
              && planId == previous.planId && version == previous.version
              && (signal.LatencySloViolation? || signal.PlacementRejected? ==> previous.selected.Some?)
    ensures Analyze(planId, version, signal, previous).FeedbackPlanMismatch? <==>
              planId != previous.planId || version != previous.version
  {
  }

  /** A replan plans exactly within the allowed attempts, on a directive without errors, for a plan that
      had a candidate, when planning under the exclusions succeeds. */
  lemma ReplansIff(i: PlanningInput, previous: PlanRecord, d: Directive, attempt: nat)
    requires Admitted(i)
    ensures Replan(i, previous, d, attempt).Planned? <==>
              && attempt <= i.policy.maxReplanAttempts && d.errors == {} && previous.selected.Some?
              && Plan(i, Exclusions(d.devices, d.links, d.splits + d.candidateSplits, d.memoryLimits)).Planned?
    ensures attempt > i.policy.maxReplanAttempts ==>
              Replan(i, previous, d, attempt) == SafeFailure(ReplanAttemptsExhausted, [])
    ensures attempt <= i.policy.maxReplanAttempts && d.errors != {} ==>
              Replan(i, previous, d, attempt) == SafeFailure(DirectiveErrors(d.errors), [])
    ensures attempt <= i.policy.maxReplanAttempts && d.errors == {} && previous.selected.None? ==>
              Replan(i, previous, d, attempt) == SafeFailure(PreviousPlanHasNoCandidate, [])
  {
  }

  predicate UsesPair(c: Candidate, pair: Pair) {
    exists n :: 0 <= n < |c.partitions| - 1
                && (c.partitions[n].deviceId, c.partitions[n + 1].deviceId) == pair
  }

  predicate UsesDevice(c: Candidate, device: string) {
    exists n :: 0 <= n < |c.partitions| && c.partitions[n].deviceId == device
  }

  /** The feedback names a device, a link or the split that the plan uses. */
  predicate Names(c: Candidate, signal: Signal) {
    match signal
    case DeviceUnavailable(d) => UsesDevice(c, d)
    case TransferFailure(s, t) => UsesPair(c, (s, t))
    case MemoryExceeded(d) => UsesDevice(c, d)
    case _ => true
  }

  /** Nothing that the directive excludes occurs in the candidate. */
  predicate Respects(d: Directive, splits: seq<nat>, partitions: seq<LogicalPartition>) {
    && (forall n :: 0 <= n < |partitions| ==> partitions[n].deviceId !in d.devices)
    && (forall n :: 0 <= n < |partitions| - 1 ==>
          (partitions[n].deviceId, partitions[n + 1].deviceId) !in d.links)
    && splits !in d.splits && splits !in d.candidateSplits
    && (forall n :: 0 <= n < |partitions| && partitions[n].deviceId in d.memoryLimits ==>
          partitions[n].memoryDemandBytes <= d.memoryLimits[partitions[n].deviceId])
  }

  /** `e` excludes at least what `d` excludes, and its memory limits are no higher. */
  predicate Tightens(d: Directive, e: Directive) {
    && d.devices <= e.devices && d.links <= e.links
    && d.splits <= e.splits && d.candidateSplits <= e.candidateSplits
    && (forall p :: p in d.memoryLimits ==> p in e.memoryLimits && e.memoryLimits[p] <= d.memoryLimits[p])
  }

  /** What selection under a directive guarantees of a split candidate. */
  predicate FitsUnder(plan: RoundPlan, d: Directive, c: Candidate) {
    && plan.layers != [] && IsCut(c.splitPoints, 1, |plan.layers|)
    && |c.partitions| == |c.splitPoints| + 1
    && Respects(d, c.splitPoints, c.partitions)
    && (forall n :: 0 <= n < |c.partitions| ==>
          && c.partitions[n].deviceId in plan.participants
          && c.partitions[n].memoryDemandBytes == Demand(Run(plan.layers, c.splitPoints, n)))
    && (forall n :: 0 <= n < |c.partitions| - 1 ==>
          (c.partitions[n].deviceId, c.partitions[n + 1].deviceId) in LinkMap(plan.networkLinks))
  }

  lemma BuiltFitsAs(cut: CutInput, d: Directive, c: Candidate)
    requires Buildable(cut) && FitsMemory(cut) && LinksUsable(cut)
    requires c.splitPoints == cut.splits && c.partitions == PartitionsUpTo(cut, |cut.participants|)
    requires cut.excludedLinks == d.links && cut.memoryLimits == d.memoryLimits
    requires cut.splits !in d.splits && cut.splits !in d.candidateSplits
    requires forall p :: p in cut.participants ==> p in cut.plan.participants && p !in d.devices
    ensures FitsUnder(cut.plan, d, c)
  {
    forall n | 0 <= n < |c.partitions|
      ensures c.partitions[n].deviceId in d.memoryLimits ==>
                c.partitions[n].memoryDemandBytes <= d.memoryLimits[c.partitions[n].deviceId]
    {
      assert FitsDevice(cut, n);
    }
    forall n | 0 <= n < |c.partitions| - 1
      ensures (c.partitions[n].deviceId, c.partitions[n + 1].deviceId) !in d.links
      ensures (c.partitions[n].deviceId, c.partitions[n + 1].deviceId) in LinkMap(cut.plan.networkLinks)
    {
      assert LinkUsable(cut, n);
    }
  }

  lemma BuiltFits(cut: CutInput, d: Directive)
    requires Buildable(cut) && CandidateOf(cut).valid
    requires cut.excludedLinks == d.links && cut.memoryLimits == d.memoryLimits
    requires cut.splits !in d.splits && cut.splits !in d.candidateSplits
    requires forall p :: p in cut.participants ==> p in cut.plan.participants && p !in d.devices
    ensures FitsUnder(cut.plan, d, CandidateOf(cut))
  {
    ValidIff(cut);
    CandidatePartitions(cut);
    BuiltFitsAs(cut, d, CandidateOf(cut));
  }

  lemma SelectedFits(i: PlanningInput, d: Directive)
    requires Admitted(i) && !i.strategy.FullModel? && Plan(i, ExclusionsOf(d)).Planned?
    ensures FitsUnder(i.plan, d, Plan(i, ExclusionsOf(d)).selected)
  {
    var ex := ExclusionsOf(d);
    SelectedPlanIsACut(i, ex);
    var cut := CutOf(i, ex, Plan(i, ex).selected.splitPoints);
    CutToRuns(i.plan.layers, cut.splits);
    BuiltFits(cut, d);
  }

  lemma MergeTightens(d: Directive, c: Candidate, signal: Signal)
    requires Respects(d, c.splitPoints, c.partitions) && Names(c, signal)
    ensures Tightens(d, Merge(d, DirectiveFor(signal, c)))
    ensures signal.MemoryExceeded? ==>
              var e := Merge(d, DirectiveFor(signal, c));
              && signal.failedDevice in e.memoryLimits
              && (signal.failedDevice in d.memoryLimits ==>
                    e.memoryLimits[signal.failedDevice] < d.memoryLimits[signal.failedDevice])
              && (exists n :: 0 <= n < |c.partitions| && c.partitions[n].deviceId == signal.failedDevice
                              && e.memoryLimits
                                 == d.memoryLimits[signal.failedDevice := c.partitions[n].memoryDemandBytes - 1])
    ensures !signal.MemoryExceeded? ==> Merge(d, DirectiveFor(signal, c)).memoryLimits == d.memoryLimits
  {
    if signal.MemoryExceeded? {
      var p := FirstOn(c.partitions, signal.failedDevice).value;
      var n :| 0 <= n < |c.partitions| && c.partitions[n] == p;
      assert DirectiveFor(signal, c).memoryLimits == map[signal.failedDevice := p.memoryDemandBytes - 1];
    }
  }

  /** After feedback about it, the candidate no longer passes. */
  lemma MergeRejects(d: Directive, c: Candidate, signal: Signal)
    requires Names(c, signal)
    ensures !Respects(Merge(d, DirectiveFor(signal, c)), c.splitPoints, c.partitions)
  {
    var e := Merge(d, DirectiveFor(signal, c));
    match signal
    case DeviceUnavailable(x) =>
      assert x in e.devices;
    case TransferFailure(s, t) =>
      assert (s, t) in e.links;
    case MemoryExceeded(x) =>
      var p := FirstOn(c.partitions, x).value;
      var n :| 0 <= n < |c.partitions| && c.partitions[n] == p;
      assert e.memoryLimits[x] == p.memoryDemandBytes - 1;
    case LatencySloViolation =>
      assert c.splitPoints in e.splits;
    case PlacementRejected =>
      assert c.splitPoints in e.candidateSplits;
  }

  lemma RespectsAntitone(d: Directive, e: Directive, splits: seq<nat>, partitions: seq<LogicalPartition>)
    requires Tightens(d, e) && Respects(e, splits, partitions)
    ensures Respects(d, splits, partitions)
  {
  }

  // ----- chains of replans -----

  /** The candidate is the one selected under the directive. */
  predicate PlannedUnder(i: PlanningInput, d: Directive, c: Candidate)
    requires Admitted(i)
  {
    Plan(i, ExclusionsOf(d)).Planned? && Plan(i, ExclusionsOf(d)).selected == c
  }

  predicate AllPlanned(i: PlanningInput, plans: seq<Candidate>, directives: seq<Directive>)
    requires Admitted(i)
  {
    forall n :: 0 <= n < |plans| && n < |directives| ==> PlannedUnder(i, directives[n], plans[n])
  }

  /** A chain: each directive is the last one merged with the feedback about the plan chosen
      under it, and each plan is the one selected under its directive. */
  predicate Chain(i: PlanningInput, plans: seq<Candidate>, directives: seq<Directive>, signals: seq<Signal>)
    requires Admitted(i)
  {
    AllPlanned(i, plans, directives) && Accumulates(plans, directives, signals)
  }

  predicate Accumulates(plans: seq<Candidate>, directives: seq<Directive>, signals: seq<Signal>) {
    && |plans| == |directives| == |signals| + 1
    && (forall n :: 0 <= n < |signals| ==>
          Names(plans[n], signals[n])
          && directives[n + 1] == Merge(directives[n], DirectiveFor(signals[n], plans[n])))
  }

  /** The chain, reduced to what selection guarantees of each plan. */
  predicate FittingChain(plan: RoundPlan, plans: seq<Candidate>, directives: seq<Directive>, signals: seq<Signal>) {
    && Accumulates(plans, directives, signals)
    && (forall n :: 0 <= n < |plans| ==> FitsUnder(plan, directives[n], plans[n]))
  }

  lemma ChainFits(i: PlanningInput, plans: seq<Candidate>, directives: seq<Directive>, signals: seq<Signal>)
    requires Admitted(i) && !i.strategy.FullModel? && Chain(i, plans, directives, signals)
    ensures FittingChain(i.plan, plans, directives, signals)
  {
    forall n | 0 <= n < |plans| ensures FitsUnder(i.plan, directives[n], plans[n]) {
      SelectedFits(i, directives[n]);
    }
  }

  predicate StepsTighten(directives: seq<Directive>) {
    forall n :: 0 <= n < |directives| - 1 ==> Tightens(directives[n], directives[n + 1])
  }

  lemma TightensTransitive(d: Directive, e: Directive, f: Directive)
    requires Tightens(d, e) && Tightens(e, f)
    ensures Tightens(d, f)
  {
  }

  lemma {:induction false} TightensAlong(directives: seq<Directive>, n: nat, m: nat)
    requires StepsTighten(directives) && n <= m < |directives|
    ensures Tightens(directives[n], directives[m])
    decreases m
  {
    if n < m {
      TightensAlong(directives, n, m - 1);
      assert Tightens(directives[m - 1], directives[m - 1 + 1]);
      TightensTransitive(directives[n], directives[m - 1], directives[m]);
    }
  }

  lemma ChainTightens(plan: RoundPlan, plans: seq<Candidate>, directives: seq<Directive>,
                      signals: seq<Signal>, n: nat, m: nat)
    requires FittingChain(plan, plans, directives, signals)
    requires n <= m < |directives|
    ensures Tightens(directives[n], directives[m])
  {
    forall k | 0 <= k < |directives| - 1 ensures Tightens(directives[k], directives[k + 1]) {
      MergeTightens(directives[k], plans[k], signals[k]);
    }
    TightensAlong(directives, n, m);
  }

  /** The directive that step n leaves behind rejects the plan of step n, and so does every
      later one; every later plan passes its own. */
  lemma RejectedForGood(plan: RoundPlan, plans: seq<Candidate>, directives: seq<Directive>,
                        signals: seq<Signal>, n: nat, m: nat)
    requires FittingChain(plan, plans, directives, signals) && n < m < |plans|
    ensures !Respects(directives[m], plans[n].splitPoints, plans[n].partitions)
    ensures Respects(directives[n + 1], plans[m].splitPoints, plans[m].partitions)
    ensures Tightens(directives[n + 1], directives[m])
  {
    MergeRejects(directives[n], plans[n], signals[n]);
    ChainTightens(plan, plans, directives, signals, n + 1, m);
    RespectsAntitone(directives[n + 1], directives[m], plans[m].splitPoints, plans[m].partitions);
    if Respects(directives[m], plans[n].splitPoints, plans[n].partitions) {
      RespectsAntitone(directives[n + 1], directives[m], plans[n].splitPoints, plans[n].partitions);
    }
  }

  /** What one plan's feedback rules out is absent from a plan that respects the outcome. */
  lemma RespectingAvoids(d: Directive, c: Candidate, signal: Signal, later: Candidate)
    requires Names(c, signal)
    requires Respects(Merge(d, DirectiveFor(signal, c)), later.splitPoints, later.partitions)
    ensures signal.DeviceUnavailable? ==> !UsesDevice(later, signal.device)
    ensures signal.TransferFailure? ==> !UsesPair(later, (signal.source, signal.target))
    ensures signal.LatencySloViolation? || signal.PlacementRejected? ==> later.splitPoints != c.splitPoints
  {
    var e := Merge(d, DirectiveFor(signal, c));
    if signal.DeviceUnavailable? { assert signal.device in e.devices; }
    if signal.TransferFailure? { assert (signal.source, signal.target) in e.links; }
    if signal.LatencySloViolation? { assert c.splitPoints in e.splits; }
    if signal.PlacementRejected? { assert c.splitPoints in e.candidateSplits; }
  }

  /** What the feedback of step n rules out stays ruled out for every later plan, and memory
      limits only fall. */
  lemma ExcludedStaysOut(i: PlanningInput, plans: seq<Candidate>, directives: seq<Directive>,
                         signals: seq<Signal>, n: nat, m: nat)
    requires Admitted(i) && !i.strategy.FullModel? && Chain(i, plans, directives, signals)
    requires n < m < |plans|
    ensures signals[n].DeviceUnavailable? ==> !UsesDevice(plans[m], signals[n].device)
    ensures signals[n].TransferFailure? ==> !UsesPair(plans[m], (signals[n].source, signals[n].target))
    ensures signals[n].LatencySloViolation? || signals[n].PlacementRejected? ==>
              plans[m].splitPoints != plans[n].splitPoints
    ensures forall p :: p in directives[n].memoryLimits ==>
              p in directives[m].memoryLimits
              && directives[m].memoryLimits[p] <= directives[n].memoryLimits[p]
              && (signals[n].MemoryExceeded? && signals[n].failedDevice == p ==>
                    directives[m].memoryLimits[p] < directives[n].memoryLimits[p])
  {
    ChainFits(i, plans, directives, signals);
    RejectedForGood(i.plan, plans, directives, signals, n, m);
    RespectingAvoids(directives[n], plans[n], signals[n], plans[m]);
    MergeTightens(directives[n], plans[n], signals[n]);
  }

  lemma SamePartsSameRespect(plan: RoundPlan, d: Directive, e: Directive, f: Directive, c: Candidate, c': Candidate)
    requires FitsUnder(plan, d, c) && FitsUnder(plan, e, c')
    requires Assignment(c) == Assignment(c') && c.splitPoints == c'.splitPoints
    ensures Respects(f, c.splitPoints, c.partitions) <==> Respects(f, c'.splitPoints, c'.partitions)
  {
    forall n | 0 <= n < |c.partitions|
      ensures c.partitions[n].deviceId == c'.partitions[n].deviceId
      ensures c.partitions[n].memoryDemandBytes == c'.partitions[n].memoryDemandBytes
    {
      assert Assignment(c)[n] == Assignment(c')[n];
    }
  }

  /** No candidate, as assignment and cut, is selected twice along a chain. */
  lemma NoCandidateTwice(i: PlanningInput, plans: seq<Candidate>, directives: seq<Directive>,
                         signals: seq<Signal>, n: nat, m: nat)
    requires Admitted(i) && !i.strategy.FullModel? && Chain(i, plans, directives, signals)
    requires n < m < |plans|
    ensures (Assignment(plans[n]), plans[n].splitPoints) != (Assignment(plans[m]), plans[m].splitPoints)
  {
    ChainFits(i, plans, directives, signals);
    RejectedForGood(i.plan, plans, directives, signals, n, m);
    if Assignment(plans[n]) == Assignment(plans[m]) && plans[n].splitPoints == plans[m].splitPoints {
      SamePartsSameRespect(i.plan, directives[n], directives[m], directives[m], plans[n], plans[m]);
    }
  }

  // ----- how long a chain can be -----

  ghost function Members(s: seq<string>): set<string> { set p | p in s }

  /** The devices, links and splits of the request that are already excluded. */
  ghost function Spent(plan: RoundPlan, d: Directive): nat {
    |d.devices * Members(plan.participants)|
    + |d.links * LinkMap(plan.networkLinks).Keys|
    + |(d.splits + d.candidateSplits) * AllCuts(1, |plan.layers|)|
  }

  lemma GrowsByOne<T>(S: set<T>, S': set<T>, U: set<T>, x: T)
    requires S' == S + {x} && x !in S && x in U
    ensures |S' * U| == |S * U| + 1
  {
    assert S' * U == (S * U) + {x};
  }

  lemma SpentBound(plan: RoundPlan, d: Directive)
    requires plan.layers != []
    ensures Spent(plan, d) <= HardBudget(plan)
  {
    AllCutsCount(1, |plan.layers|);
    MeetSize(d.devices, Members(plan.participants));
    MeetSize(d.links, LinkMap(plan.networkLinks).Keys);
    MeetSize(d.splits + d.candidateSplits, AllCuts(1, |plan.layers|));
    MembersSize(plan.participants);
    LinkMapSize(plan.networkLinks);
  }

  lemma MeetSize<T>(A: set<T>, B: set<T>)
    ensures |A * B| <= |B|
  {
    SubsetSize(A * B, B);
  }

  lemma SubsetSize<T>(A: set<T>, B: set<T>)
    requires A <= B
    ensures |A| <= |B|
  {
    assert B == A + (B - A);
  }

  lemma {:induction false} MembersSize(s: seq<string>)
    ensures |Members(s)| <= |s|
  {
    if s != [] {
      MembersSize(s[1..]);
      assert s == [s[0]] + s[1..];
      assert Members(s) == {s[0]} + Members(s[1..]);
    }
  }

  lemma {:induction false} LinkMapSize(links: seq<NetworkLink>)
    ensures |LinkMap(links).Keys| <= |links|
  {
    if links != [] {
      var front, last := links[..|links| - 1], links[|links| - 1];
      LinkMapSize(front);
      assert LinkMap(links).Keys == LinkMap(front).Keys + {(last.sourceDevice, last.targetDevice)};
    }
  }

  /** What merging the feedback about `c` adds to the excluded devices, links and splits. */
  lemma MergeAdds(d: Directive, c: Candidate, signal: Signal)
    requires Names(c, signal)
    ensures var e := Merge(d, DirectiveFor(signal, c));
            && e.devices == d.devices + (if signal.DeviceUnavailable? then {signal.device} else {})
            && e.links == d.links + (if signal.TransferFailure? then {(signal.source, signal.target)} else {})
            && e.splits + e.candidateSplits
               == d.splits + d.candidateSplits
                  + (if signal.LatencySloViolation? || signal.PlacementRejected? then {c.splitPoints} else {})
  {
    var n := DirectiveFor(signal, c);
    var e := Merge(d, n);
    assert e.splits + e.candidateSplits == d.splits + d.candidateSplits + (n.splits + n.candidateSplits);
  }

  /** Any signal but memory uses up a device, link or split of the request for good. */
  lemma HardSignalSpends(plan: RoundPlan, d: Directive, c: Candidate, signal: Signal)
    requires FitsUnder(plan, d, c) && Names(c, signal)
    ensures Spent(plan, Merge(d, DirectiveFor(signal, c)))
            == Spent(plan, d) + if signal.MemoryExceeded? then 0 else 1
  {
    var e := Merge(d, DirectiveFor(signal, c));
    MergeAdds(d, c, signal);
    if signal.DeviceUnavailable? {
      GrowsByOne(d.devices, e.devices, Members(plan.participants), signal.device);
    } else if signal.TransferFailure? {
      GrowsByOne(d.links, e.links, LinkMap(plan.networkLinks).Keys, (signal.source, signal.target));
    } else if !signal.MemoryExceeded? {
      AllCutsComplete(1, |plan.layers|, c.splitPoints);
      GrowsByOne(d.splits + d.candidateSplits, e.splits + e.candidateSplits, AllCuts(1, |plan.layers|), c.splitPoints);
    }
  }

  /** How far the memory limit of one device can still fall, when no run demands more than `total`. */
  function Slack(d: Directive, device: string, total: nat): nat {
    if device in d.memoryLimits then
      if d.memoryLimits[device] + 1 < 0 then 0
      else if d.memoryLimits[device] >= total then total + 1
      else d.memoryLimits[device] + 1
    else total + 1
  }

  function TotalSlack(d: Directive, participants: seq<string>, total: nat): nat {
    if participants == [] then 0
    else Slack(d, participants[0], total) + TotalSlack(d, participants[1..], total)
  }

  lemma {:induction false} TotalSlackBound(d: Directive, participants: seq<string>, total: nat)
    ensures TotalSlack(d, participants, total) <= |participants| * (total + 1)
  {
    if participants != [] {
      TotalSlackBound(d, participants[1..], total);
      assert |participants| * (total + 1) == (|participants| - 1) * (total + 1) + (total + 1);
    }
  }

  lemma {:induction false} TotalSlackFalls(d: Directive, e: Directive, participants: seq<string>, total: nat,
                                           device: string)
    requires forall p :: p in participants ==> Slack(e, p, total) <= Slack(d, p, total)
    requires Slack(e, device, total) < Slack(d, device, total)
    ensures TotalSlack(e, participants, total) <= TotalSlack(d, participants, total)
    ensures device in participants ==> TotalSlack(e, participants, total) < TotalSlack(d, participants, total)
  {
    if participants != [] {
      assert participants == [participants[0]] + participants[1..];
      TotalSlackFalls(d, e, participants[1..], total, device);
    }
  }

  lemma {:induction false} PeakOfConcat(a: seq<ModelLayer>, b: seq<ModelLayer>)
    ensures PeakActivation(a) <= PeakActivation(a + b) && PeakActivation(b) <= PeakActivation(a + b)
  {
    if a == [] {
      assert a + b == b;
    } else {
      PeakOfConcat(a[1..], b);
      assert (a + b)[1..] == a[1..] + b;
    }
  }

  /** No run demands more memory than all layers together. */
  lemma DemandOfSlice(layers: seq<ModelLayer>, lo: nat, hi: nat)
    requires lo <= hi <= |layers|
    ensures Demand(layers[lo..hi]) <= Demand(layers)
  {
    var head, mid, tail := layers[..lo], layers[lo..hi], layers[hi..];
    assert layers == head + (mid + tail);
    LayerSumsConcat(mid, tail);
    LayerSumsConcat(head, mid + tail);
    PeakOfConcat(mid, tail);
    PeakOfConcat(head, mid + tail);
  }

  lemma RunDemand(plan: RoundPlan, d: Directive, c: Candidate, n: nat)
    requires FitsUnder(plan, d, c) && n < |c.partitions|
    ensures c.partitions[n].memoryDemandBytes <= Demand(plan.layers)
  {
    BoundariesIncrease(c.splitPoints, |plan.layers|, n);
    var b := Boundaries(c.splitPoints, |plan.layers|);
    DemandOfSlice(plan.layers, b[n], b[n + 1]);
  }

  lemma SlackFalls(d: Directive, e: Directive, c: Candidate, n: nat, total: nat)
    requires n < |c.partitions| && c.partitions[n].memoryDemandBytes <= total
    requires var device, demand := c.partitions[n].deviceId, c.partitions[n].memoryDemandBytes;
             && e.memoryLimits == d.memoryLimits[device := demand - 1]
             && (device in d.memoryLimits ==> demand <= d.memoryLimits[device])
    ensures Slack(e, c.partitions[n].deviceId, total) < Slack(d, c.partitions[n].deviceId, total)
    ensures forall p :: Slack(e, p, total) <= Slack(d, p, total)
  {
  }

  /** A memory signal lowers a limit, and no other signal raises one. */
  lemma MemorySignalSpends(plan: RoundPlan, d: Directive, c: Candidate, signal: Signal)
    requires FitsUnder(plan, d, c) && Names(c, signal)
    ensures TotalSlack(Merge(d, DirectiveFor(signal, c)), plan.participants, Demand(plan.layers))
            + (if signal.MemoryExceeded? then 1 else 0)
            <= TotalSlack(d, plan.participants, Demand(plan.layers))
  {
    var e := Merge(d, DirectiveFor(signal, c));
    var total := Demand(plan.layers);
    MergeTightens(d, c, signal);
    if signal.MemoryExceeded? {
      var n :| 0 <= n < |c.partitions| && c.partitions[n].deviceId == signal.failedDevice
               && e.memoryLimits == d.memoryLimits[signal.failedDevice := c.partitions[n].memoryDemandBytes - 1];
      RunDemand(plan, d, c, n);
      SlackFalls(d, e, c, n, total);
      assert signal.failedDevice in plan.participants;
      TotalSlackFalls(d, e, plan.participants, total, signal.failedDevice);
    } else {
      SameLimitsSameSlack(d, e, plan.participants, total);
    }
  }

  lemma {:induction false} SameLimitsSameSlack(d: Directive, e: Directive, participants: seq<string>, total: nat)
    requires d.memoryLimits == e.memoryLimits
    ensures TotalSlack(d, participants, total) == TotalSlack(e, participants, total)
  {
    if participants != [] { SameLimitsSameSlack(d, e, participants[1..], total); }
  }

  function MemorySignals(signals: seq<Signal>): nat {
    if signals == [] then 0
    else MemorySignals(signals[..|signals| - 1]) + if signals[|signals| - 1].MemoryExceeded? then 1 else 0
  }

  /** The two budgets after each step, as a step of the chain changes them. */
  predicate Spends(spent: seq<nat>, slack: seq<nat>, signals: seq<Signal>) {
    && |spent| == |slack| == |signals| + 1
    && (forall n :: 0 <= n < |signals| ==>
          && spent[n + 1] == spent[n] + (if signals[n].MemoryExceeded? then 0 else 1)
          && slack[n + 1] + (if signals[n].MemoryExceeded? then 1 else 0) <= slack[n])
  }

  lemma {:induction false} SpendsAlong(spent: seq<nat>, slack: seq<nat>, signals: seq<Signal>)
    requires Spends(spent, slack, signals)
    ensures MemorySignals(signals) <= |signals|
    ensures spent[|signals|] == spent[0] + |signals| - MemorySignals(signals)
    ensures slack[|signals|] + MemorySignals(signals) <= slack[0]
    decreases |signals|
  {
    if signals != [] {
      var n := |signals| - 1;
      SpendsAlong(spent[..n + 1], slack[..n + 1], signals[..n]);
    }
  }

  lemma StepSpends(plan: RoundPlan, plans: seq<Candidate>, directives: seq<Directive>, signals: seq<Signal>, n: nat)
    requires FittingChain(plan, plans, directives, signals) && n < |signals|
    ensures Spent(plan, directives[n + 1]) == Spent(plan, directives[n]) + (if signals[n].MemoryExceeded? then 0 else 1)
    ensures TotalSlack(directives[n + 1], plan.participants, Demand(plan.layers))
            + (if signals[n].MemoryExceeded? then 1 else 0)
            <= TotalSlack(directives[n], plan.participants, Demand(plan.layers))
  {
    HardSignalSpends(plan, directives[n], plans[n], signals[n]);
    MemorySignalSpends(plan, directives[n], plans[n], signals[n]);
  }

  lemma ChainSpends(plan: RoundPlan, plans: seq<Candidate>, directives: seq<Directive>, signals: seq<Signal>)
    requires FittingChain(plan, plans, directives, signals)
    ensures MemorySignals(signals) <= |signals|
    ensures |signals| - MemorySignals(signals) <= Spent(plan, directives[|signals|])
    ensures MemorySignals(signals) <= TotalSlack(directives[0], plan.participants, Demand(plan.layers))
  {
    var total := Demand(plan.layers);
    var spent := seq(|directives|, n requires 0 <= n < |directives| => Spent(plan, directives[n]));
    var slack := seq(|directives|, n requires 0 <= n < |directives| =>
      TotalSlack(directives[n], plan.participants, total));
    forall n | 0 <= n < |signals|
      ensures spent[n + 1] == spent[n] + (if signals[n].MemoryExceeded? then 0 else 1)
      ensures slack[n + 1] + (if signals[n].MemoryExceeded? then 1 else 0) <= slack[n]
    {
      StepSpends(plan, plans, directives, signals, n);
    }
    SpendsAlong(spent, slack, signals);
  }

  function HardBudget(plan: RoundPlan): nat
    requires plan.layers != []
  {
    |plan.participants| + |plan.networkLinks| + Pow2(|plan.layers| - 1)
  }

  function MemoryBudget(plan: RoundPlan): nat { |plan.participants| * (Demand(plan.layers) + 1) }

  predicate WithinBounds(plan: RoundPlan, signals: seq<Signal>) {
    && plan.layers != []
    && |signals| - MemorySignals(signals) <= HardBudget(plan)
    && MemorySignals(signals) <= MemoryBudget(plan)
  }

  lemma NonEmptyLayers(plan: RoundPlan, d: Directive, c: Candidate)
    requires FitsUnder(plan, d, c)
    ensures plan.layers != []
  {
  }

  lemma FittingChainBounded(plan: RoundPlan, plans: seq<Candidate>, directives: seq<Directive>, signals: seq<Signal>)
    requires FittingChain(plan, plans, directives, signals)
    ensures WithinBounds(plan, signals)
  {
    NonEmptyLayers(plan, directives[0], plans[0]);
    ChainSpends(plan, plans, directives, signals);
    BudgetsBound(plan, directives[0], directives[|signals|], |signals|, MemorySignals(signals));
  }

  lemma BudgetsBound(plan: RoundPlan, first: Directive, last: Directive, length: nat, memory: nat)
    requires plan.layers != [] && length - memory <= Spent(plan, last)
    requires memory <= TotalSlack(first, plan.participants, Demand(plan.layers))
    ensures length - memory <= HardBudget(plan) && memory <= MemoryBudget(plan)
  {
    SpentBound(plan, last);
    TotalSlackBound(first, plan.participants, Demand(plan.layers));
  }

  /** The chain bound: device, link and split signals number at most
      participants + links + 2^(layers-1), memory signals at most what the limits can fall. */
  lemma ChainBounded(i: PlanningInput, plans: seq<Candidate>, directives: seq<Directive>, signals: seq<Signal>)
    requires Admitted(i) && !i.strategy.FullModel? && Chain(i, plans, directives, signals)
    ensures WithinBounds(i.plan, signals)
  {
    ChainFits(i, plans, directives, signals);
    FittingChainBounded(i.plan, plans, directives, signals);
  }

  // ----- the feedback service -----

  /** `process_feedback` and `_with_replan_metadata`: the version of the plan being replanned is the
      attempt, and the next plan, planned or not, carries the next version. */
  function Served(i: PlanningInput, previous: PlanRecord, d: Directive, planId: string): PlanRecord
    requires Admitted(i)
  {
    var outcome := Replan(i, previous, d, previous.version);
    PlanRecord(planId, previous.version + 1, if outcome.Planned? then Some(outcome.selected) else None)
  }

  /** Feedback about `previous` is analysed, merged into the exclusions inherited so far, and the
      plan replanned under the outcome. */
  predicate ServiceStep(i: PlanningInput, previous: PlanRecord, next: PlanRecord, d: Directive, e: Directive,
                        signal: Signal)
    requires Admitted(i)
  {
    var analysis := Analyze(previous.planId, previous.version, signal, previous);
    && analysis.Directed? && e == Merge(d, analysis.directive)
    && next == Served(i, previous, e, next.planId)
  }

  predicate ServiceStepAt(i: PlanningInput, records: seq<PlanRecord>, directives: seq<Directive>,
                          signals: seq<Signal>, n: nat)
    requires Admitted(i) && |records| == |directives| == |signals| + 1 && n < |signals|
  {
    ServiceStep(i, records[n], records[n + 1], directives[n], directives[n + 1], signals[n])
  }

  /** A lineage of served plans, all of them planned, from a first plan of version 1. */
  predicate ServiceChain(i: PlanningInput, records: seq<PlanRecord>, directives: seq<Directive>, signals: seq<Signal>)
    requires Admitted(i)
  {
    && |records| == |directives| == |signals| + 1
    && (forall n :: 0 <= n < |records| ==> records[n].selected.Some?)
    && records[0].version == 1
    && forall n :: 0 <= n < |signals| ==> ServiceStepAt(i, records, directives, signals, n)
  }

  function SelectedOf(records: seq<PlanRecord>): (plans: seq<Candidate>)
    requires forall n :: 0 <= n < |records| ==> records[n].selected.Some?
    ensures |plans| == |records| && forall n :: 0 <= n < |plans| ==> plans[n] == records[n].selected.value
  {
    seq(|records|, n requires 0 <= n < |records| => records[n].selected.value)
  }

  lemma ServiceStepCounts(i: PlanningInput, previous: PlanRecord, next: PlanRecord, d: Directive, e: Directive,
                          signal: Signal)
    requires Admitted(i) && next.selected.Some? && ServiceStep(i, previous, next, d, e, signal)
    ensures next.version == previous.version + 1 && previous.version <= i.policy.maxReplanAttempts
  {
    assert Replan(i, previous, e, previous.version).Planned?;
  }

  /** The analysis of feedback about a plan is the directive that the feedback stands for. */
  lemma AnalysedAs(previous: PlanRecord, signal: Signal)
    requires previous.selected.Some?
    requires Analyze(previous.planId, previous.version, signal, previous).Directed?
    ensures Analyze(previous.planId, previous.version, signal, previous).directive
            == DirectiveFor(signal, previous.selected.value)
  {
  }

  lemma ServedPlans(i: PlanningInput, previous: PlanRecord, e: Directive, planId: string)
    requires Admitted(i) && Served(i, previous, e, planId).selected.Some?
    ensures PlannedUnder(i, e, Served(i, previous, e, planId).selected.value)
  {
  }

  lemma ServiceStepPlans(i: PlanningInput, previous: PlanRecord, next: PlanRecord, d: Directive, e: Directive,
                         signal: Signal)
    requires Admitted(i) && previous.selected.Some? && next.selected.Some?
    requires ServiceStep(i, previous, next, d, e, signal)
    ensures e == Merge(d, DirectiveFor(signal, previous.selected.value))
    ensures PlannedUnder(i, e, next.selected.value)
  {
    AnalysedAs(previous, signal);
    ServedPlans(i, previous, e, next.planId);
  }

  lemma ServiceChainCounts(i: PlanningInput, records: seq<PlanRecord>, directives: seq<Directive>,
                           signals: seq<Signal>, n: nat)
    requires Admitted(i) && ServiceChain(i, records, directives, signals) && n < |signals|
    ensures records[n + 1].version == records[n].version + 1 && records[n].version <= i.policy.maxReplanAttempts
  {
    assert ServiceStepAt(i, records, directives, signals, n);
    ServiceStepCounts(i, records[n], records[n + 1], directives[n], directives[n + 1], signals[n]);
  }

  lemma ServiceChainMerges(i: PlanningInput, records: seq<PlanRecord>, directives: seq<Directive>,
                           signals: seq<Signal>, n: nat)
    requires Admitted(i) && ServiceChain(i, records, directives, signals) && n < |signals|
    ensures directives[n + 1] == Merge(directives[n], DirectiveFor(signals[n], SelectedOf(records)[n]))
  {
    assert ServiceStepAt(i, records, directives, signals, n);
    ServiceStepPlans(i, records[n], records[n + 1], directives[n], directives[n + 1], signals[n]);
  }

  lemma ServiceChainPlans(i: PlanningInput, records: seq<PlanRecord>, directives: seq<Directive>,
                          signals: seq<Signal>, n: nat, planned: (Directive, Candidate) -> bool)
    requires Admitted(i) && ServiceChain(i, records, directives, signals) && 0 < n < |records|
    requires forall d, c {:trigger PlannedUnder(i, d, c)} :: planned(d, c) == PlannedUnder(i, d, c)
    ensures planned(directives[n], SelectedOf(records)[n])
  {
    assert ServiceStepAt(i, records, directives, signals, n - 1);
    ServiceStepPlans(i, records[n - 1], records[n], directives[n - 1], directives[n], signals[n - 1]);
  }

  /** Versions that count up from 1 are positions. */
  lemma {:induction false} CountsUp(versions: seq<nat>, n: nat)
    requires n < |versions| && versions[0] == 1
    requires forall k {:trigger versions[k]} :: 0 < k < |versions| ==> versions[k] == versions[k - 1] + 1
    ensures versions[n] == n + 1
  {
    if n > 0 { CountsUp(versions, n - 1); }
  }

  function VersionsOf(records: seq<PlanRecord>): (versions: seq<nat>)
    ensures |versions| == |records| && forall n :: 0 <= n < |versions| ==> versions[n] == records[n].version
  {
    seq(|records|, n requires 0 <= n < |records| => records[n].version)
  }

  lemma ServiceVersions(i: PlanningInput, records: seq<PlanRecord>, directives: seq<Directive>, signals: seq<Signal>)
    requires Admitted(i) && ServiceChain(i, records, directives, signals)
    ensures var versions := VersionsOf(records);
            && versions[0] == 1
            && forall k {:trigger versions[k]} :: 0 < k < |versions| ==> versions[k] == versions[k - 1] + 1
  {
    forall k | 0 < k < |records| ensures records[k].version == records[k - 1].version + 1 {
      ServiceChainCounts(i, records, directives, signals, k - 1);
    }
  }

  /** As versions count up from the first plan's and each is the next attempt, a lineage holds no
      more successful replans than the policy allows attempts. */
  lemma ServiceChainBounded(i: PlanningInput, records: seq<PlanRecord>, directives: seq<Directive>,
                            signals: seq<Signal>)
    requires Admitted(i) && ServiceChain(i, records, directives, signals)
    ensures forall n :: 0 <= n < |records| ==> records[n].version == n + 1
    ensures |signals| <= i.policy.maxReplanAttempts
  {
    ServiceVersions(i, records, directives, signals);
    forall n | 0 <= n < |records| ensures records[n].version == n + 1 {
      CountsUp(VersionsOf(records), n);
    }
    if |signals| > 0 { ServiceChainCounts(i, records, directives, signals, |signals| - 1); }
  }

  /** When its first plan was selected under its first directive and its feedback names what the
      plans use, a served lineage is a replan chain, and keeps what chains keep. */
  lemma ServiceChainIsChain(i: PlanningInput, records: seq<PlanRecord>, directives: seq<Directive>,
                            signals: seq<Signal>)
    requires Admitted(i) && ServiceChain(i, records, directives, signals)
    requires PlannedUnder(i, directives[0], records[0].selected.value)
    requires forall n :: 0 <= n < |signals| ==> Names(SelectedOf(records)[n], signals[n])
    ensures Chain(i, SelectedOf(records), directives, signals)
  {
    ServiceChainPlanned(i, records, directives, signals, (d: Directive, c: Candidate) => PlannedUnder(i, d, c));
    ServiceChainAccumulates(i, records, directives, signals);
  }

  /** `planned` says which candidates are selected under which directives. */
  lemma ServiceChainPlanned(i: PlanningInput, records: seq<PlanRecord>, directives: seq<Directive>,
                            signals: seq<Signal>, planned: (Directive, Candidate) -> bool)
    requires Admitted(i) && ServiceChain(i, records, directives, signals)
    requires forall d, c {:trigger PlannedUnder(i, d, c)} :: planned(d, c) == PlannedUnder(i, d, c)
    requires planned(directives[0], SelectedOf(records)[0])
    ensures forall n :: 0 <= n < |records| ==> planned(directives[n], SelectedOf(records)[n])
  {
    forall n | 0 < n < |records| ensures planned(directives[n], SelectedOf(records)[n]) {
      ServiceChainPlans(i, records, directives, signals, n, planned);
    }
  }

  lemma ServiceChainAccumulates(i: PlanningInput, records: seq<PlanRecord>, directives: seq<Directive>,
                                signals: seq<Signal>)
    requires Admitted(i) && ServiceChain(i, records, directives, signals)
    requires forall n :: 0 <= n < |signals| ==> Names(SelectedOf(records)[n], signals[n])
    ensures Accumulates(SelectedOf(records), directives, signals)
  {
    forall n | 0 <= n < |signals|
      ensures directives[n + 1] == Merge(directives[n], DirectiveFor(signals[n], SelectedOf(records)[n]))
    {
      ServiceChainMerges(i, records, directives, signals, n);
    }
  }

  // ----- the federated strategy -----

  /** In the star, the link of participant n goes to participant 0. */
  predicate NamesInStar(c: Candidate, signal: Signal) {
    match signal
    case TransferFailure(s, t) =>
      exists n :: 0 < n < |c.partitions| && (c.partitions[n].deviceId, c.partitions[0].deviceId) == (s, t)
    case _ => Names(c, signal)
  }

  /** Nothing that the directive excludes occurs in the star; splits do not occur in one. */
  predicate StarRespects(d: Directive, partitions: seq<LogicalPartition>) {
    && (forall n :: 0 <= n < |partitions| ==> partitions[n].deviceId !in d.devices)
    && (forall n :: 0 < n < |partitions| ==> (partitions[n].deviceId, partitions[0].deviceId) !in d.links)
    && (forall n :: 0 <= n < |partitions| && partitions[n].deviceId in d.memoryLimits ==>
          partitions[n].memoryDemandBytes <= d.memoryLimits[partitions[n].deviceId])
  }

  /** Feedback that the star strategy has no use for: it excludes splits only. */
  predicate Soft(signal: Signal) { signal.LatencySloViolation? || signal.PlacementRejected? }

  lemma ValidStarRespects(f: FullModelInput, d: Directive)
    requires FullModelBuildable(f) && ReplicasFit(f) && UploadsUsable(f)
    requires f.excludedLinks == d.links && f.memoryLimits == d.memoryLimits
    requires forall p :: p in f.participants ==> p !in d.devices
    ensures StarRespects(d, Replicas(f, |f.participants|))
  {
    forall n | 0 <= n < |f.participants|
      ensures n > 0 ==> (f.participants[n], f.participants[0]) !in d.links
      ensures f.participants[n] in d.memoryLimits ==> Demand(f.plan.layers) <= d.memoryLimits[f.participants[n]]
    {
      assert ReplicaFits(f, n);
      assert n > 0 ==> UploadUsable(f, n);
    }
  }

  /** A selected star respects the directive it was selected under. */
  lemma StarSelectedRespects(i: PlanningInput, d: Directive)
    requires Admitted(i) && i.strategy.FullModel? && Plan(i, ExclusionsOf(d)).Planned?
    ensures StarRespects(d, Plan(i, ExclusionsOf(d)).selected.partitions)
  {
    var f := FullModelOf(i, ExclusionsOf(d));
    FullModelPlanned(i, ExclusionsOf(d));
    FullModelValidIff(f);
    ValidStarRespects(f, d);
  }

  lemma FullModelPlanned(i: PlanningInput, ex: Exclusions)
    requires Admitted(i) && i.strategy.FullModel? && Plan(i, ex).Planned?
    ensures var f := FullModelOf(i, ex);
            && FullModelBuildable(f) && FullModelCandidateOf(f).valid
            && Plan(i, ex).selected == FullModelCandidateOf(f)
            && Plan(i, ex).selected.partitions == Replicas(f, |f.participants|)
  {
    assert Plan(i, ex) == PlanFullModel(i, ex);
  }

  lemma StarMergeTightens(d: Directive, c: Candidate, signal: Signal)
    requires StarRespects(d, c.partitions) && NamesInStar(c, signal)
    ensures Tightens(d, Merge(d, DirectiveFor(signal, c)))
  {
    if signal.MemoryExceeded? {
      var p := FirstOn(c.partitions, signal.failedDevice).value;
      var n :| 0 <= n < |c.partitions| && c.partitions[n] == p;
      assert DirectiveFor(signal, c).memoryLimits == map[signal.failedDevice := p.memoryDemandBytes - 1];
    }
  }

  /** After any but soft feedback about it, the star no longer passes. */
  lemma StarMergeRejects(d: Directive, c: Candidate, signal: Signal)
    requires NamesInStar(c, signal) && !Soft(signal)
    ensures !StarRespects(Merge(d, DirectiveFor(signal, c)), c.partitions)
  {
    var e := Merge(d, DirectiveFor(signal, c));
    if signal.DeviceUnavailable? {
      assert signal.device in e.devices;
    } else if signal.TransferFailure? {
      assert (signal.source, signal.target) in e.links;
    } else {
      var p := FirstOn(c.partitions, signal.failedDevice).value;
      var n :| 0 <= n < |c.partitions| && c.partitions[n] == p;
      assert e.memoryLimits[signal.failedDevice] == p.memoryDemandBytes - 1;
    }
  }

  lemma StarRespectsAntitone(d: Directive, e: Directive, partitions: seq<LogicalPartition>)
    requires Tightens(d, e) && StarRespects(e, partitions)
    ensures StarRespects(d, partitions)
  {
  }

  /** Soft feedback leaves the star's input, and so its plan, as it was. */
  lemma SoftKeepsPlan(i: PlanningInput, d: Directive, c: Candidate, signal: Signal)
    requires Admitted(i) && i.strategy.FullModel? && Soft(signal)
    ensures Plan(i, ExclusionsOf(Merge(d, DirectiveFor(signal, c)))) == Plan(i, ExclusionsOf(d))
  {
    var ex, ex' := ExclusionsOf(d), ExclusionsOf(Merge(d, DirectiveFor(signal, c)));
    assert ex'.devices == ex.devices && ex'.links == ex.links && ex'.memoryLimits == ex.memoryLimits;
    SameStarSamePlan(i, ex, ex');
  }

  lemma SameStarSamePlan(i: PlanningInput, ex: Exclusions, ex': Exclusions)
    requires Admitted(i) && i.strategy.FullModel?
    requires ex.devices == ex'.devices && ex.links == ex'.links && ex.memoryLimits == ex'.memoryLimits
    ensures Plan(i, ex) == Plan(i, ex')
  {
    assert FullModelOf(i, ex) == FullModelOf(i, ex');
  }

  /** The planner, told of `signal` about its plan, selects the same candidate again. */
  predicate Reselects(i: PlanningInput, d: Directive, signal: Signal)
    requires Admitted(i)
  {
    && Plan(i, ExclusionsOf(d)).Planned?
    && var c := Plan(i, ExclusionsOf(d)).selected;
       var next := Plan(i, ExclusionsOf(Merge(d, DirectiveFor(signal, c))));
       next.Planned? && next.selected == c
  }

  lemma StarMovesOn(i: PlanningInput, d: Directive, signal: Signal)
    requires Admitted(i) && i.strategy.FullModel? && Reselects(i, d, signal)
    requires NamesInStar(Plan(i, ExclusionsOf(d)).selected, signal)
    ensures Soft(signal)
  {
    var c := Plan(i, ExclusionsOf(d)).selected;
    StarSelectedRespects(i, Merge(d, DirectiveFor(signal, c)));
    if !Soft(signal) { StarMergeRejects(d, c, signal); }
  }

  /** The full-model branch is handed no excluded splits: feedback reselects the very
      candidate it was about exactly when the signal is a latency violation or a rejected
      placement. */
  lemma FullModelReselectsIff(i: PlanningInput, d: Directive, signal: Signal)
    requires Admitted(i) && i.strategy.FullModel? && Plan(i, ExclusionsOf(d)).Planned?
    requires NamesInStar(Plan(i, ExclusionsOf(d)).selected, signal)
    ensures Reselects(i, d, signal) <==> Soft(signal)
  {
    if Soft(signal) { SoftKeepsPlan(i, d, Plan(i, ExclusionsOf(d)).selected, signal); }
    if Reselects(i, d, signal) { StarMovesOn(i, d, signal); }
  }

  /** A chain of federated replans. */
  predicate StarChain(i: PlanningInput, plans: seq<Candidate>, directives: seq<Directive>, signals: seq<Signal>)
    requires Admitted(i)
  {
    && |plans| == |directives| == |signals| + 1
    && (forall n :: 0 <= n < |plans| ==> PlannedUnder(i, directives[n], plans[n]))
    && (forall n :: 0 <= n < |signals| ==>
          NamesInStar(plans[n], signals[n])
          && directives[n + 1] == Merge(directives[n], DirectiveFor(signals[n], plans[n])))
  }

  predicate AllSoft(signals: seq<Signal>, n: nat, m: nat)
    requires m <= |signals|
  {
    forall k :: n <= k < m ==> Soft(signals[k])
  }

  lemma SoftStepKeepsPlan(i: PlanningInput, plans: seq<Candidate>, directives: seq<Directive>,
                          signals: seq<Signal>, k: nat)
    requires Admitted(i) && i.strategy.FullModel? && StarChain(i, plans, directives, signals)
    requires k < |signals| && Soft(signals[k])
    ensures plans[k + 1] == plans[k]
  {
    SoftKeepsPlan(i, directives[k], plans[k], signals[k]);
  }

  lemma {:induction false} ConstantStretch(plans: seq<Candidate>, n: nat, m: nat)
    requires n <= m < |plans| && forall k :: n <= k < m ==> plans[k + 1] == plans[k]
    ensures plans[m] == plans[n]
    decreases m
  {
    if n < m {
      ConstantStretch(plans, n, m - 1);
      assert plans[m - 1 + 1] == plans[m - 1];
    }
  }

  lemma SoftStretchKeepsPlan(i: PlanningInput, plans: seq<Candidate>, directives: seq<Directive>,
                             signals: seq<Signal>, n: nat, m: nat)
    requires Admitted(i) && i.strategy.FullModel? && StarChain(i, plans, directives, signals)
    requires n <= m < |plans| && AllSoft(signals, n, m)
    ensures plans[m] == plans[n]
  {
    forall k | n <= k < m ensures plans[k + 1] == plans[k] {
      SoftStepKeepsPlan(i, plans, directives, signals, k);
    }
    ConstantStretch(plans, n, m);
  }

  lemma StarChainTightens(i: PlanningInput, plans: seq<Candidate>, directives: seq<Directive>,
                          signals: seq<Signal>, n: nat, m: nat)
    requires Admitted(i) && i.strategy.FullModel? && StarChain(i, plans, directives, signals)
    requires n <= m < |directives|
    ensures Tightens(directives[n], directives[m])
  {
    forall k | 0 <= k < |directives| - 1 ensures Tightens(directives[k], directives[k + 1]) {
      StarSelectedRespects(i, directives[k]);
      StarMergeTightens(directives[k], plans[k], signals[k]);
    }
    TightensAlong(directives, n, m);
  }

  /** After feedback that is not soft, no later plan of the chain is the plan it was about. */
  lemma HardFeedbackMovesOn(i: PlanningInput, plans: seq<Candidate>, directives: seq<Directive>,
                            signals: seq<Signal>, k: nat, m: nat)
    requires Admitted(i) && i.strategy.FullModel? && StarChain(i, plans, directives, signals)
    requires k < m < |plans| && !Soft(signals[k])
    ensures plans[m] != plans[k]
  {
    StarMergeRejects(directives[k], plans[k], signals[k]);
    StarChainTightens(i, plans, directives, signals, k + 1, m);
    StarSelectedRespects(i, directives[m]);
    StarRespectsAntitone(directives[k + 1], directives[m], plans[m].partitions);
  }

  lemma FirstHard(signals: seq<Signal>, n: nat, m: nat) returns (k: nat)
    requires n <= m <= |signals| && !AllSoft(signals, n, m)
    ensures n <= k < m && !Soft(signals[k]) && AllSoft(signals, n, k)
  {
    k := n;
    while Soft(signals[k])
      invariant n <= k < m && AllSoft(signals, n, k) && !AllSoft(signals, k, m)
      decreases m - k
    {
      k := k + 1;
    }
  }

  /** Along a federated chain two plans are the same candidate exactly when all the feedback in
      between is latency violations and rejected placements. */
  lemma StarChainRepeatsIff(i: PlanningInput, plans: seq<Candidate>, directives: seq<Directive>,
                            signals: seq<Signal>, n: nat, m: nat)
    requires Admitted(i) && i.strategy.FullModel? && StarChain(i, plans, directives, signals)
    requires n < m < |plans|
    ensures plans[n] == plans[m] <==> AllSoft(signals, n, m)
  {
    if AllSoft(signals, n, m) {
      SoftStretchKeepsPlan(i, plans, directives, signals, n, m);
    } else {
      var k := FirstHard(signals, n, m);
      SoftStretchKeepsPlan(i, plans, directives, signals, n, k);
      HardFeedbackMovesOn(i, plans, directives, signals, k, m);
    }
  }

  // ----- the federated stall, concretely -----

  predicate Unique<T(==)>(s: seq<T>) { forall i, j :: 0 <= i < j < |s| ==> s[i] != s[j] }

  /** What `FederatedRoundPlan.from_dict` requires of a round; the feedback service parses every
      round anew before it replans. */
  predicate AcceptedRound(plan: RoundPlan) {
    && |plan.layers| >= 2 && |plan.participants| >= 2 && |plan.layers| >= |plan.participants|
    && Unique(plan.participants)
    && (forall i, j :: 0 <= i < j < |plan.layers| ==> plan.layers[i].name != plan.layers[j].name)
    && (forall i, j :: 0 <= i < j < |plan.devices| ==> plan.devices[i].deviceId != plan.devices[j].deviceId)
    && (forall i, j :: 0 <= i < j < |plan.networkLinks| ==>
          (plan.networkLinks[i].sourceDevice, plan.networkLinks[i].targetDevice)
          != (plan.networkLinks[j].sourceDevice, plan.networkLinks[j].targetDevice))
    && (forall p :: p in plan.participants ==> p in DeviceMap(plan.devices))
    && (forall l :: l in plan.networkLinks ==>
          l.sourceDevice in DeviceMap(plan.devices) && l.targetDevice in DeviceMap(plan.devices))
    && (forall n :: 0 <= n < |plan.participants| - 1 ==>
          (plan.participants[n], plan.participants[n + 1]) in LinkMap(plan.networkLinks))
    && ParsedPlan(plan)
  }

  lemma StarOfTwoValid(f: FullModelInput, a: string, b: string)
    requires FullModelBuildable(f) && f.participants == [a, b]
    requires (b, a) in LinkMap(f.plan.networkLinks) && f.excludedLinks == {} && f.memoryLimits == map[]
    requires f.plan.constraints == Constraints(None, None, 0.0)
    requires forall p :: p in {a, b} ==> Demand(f.plan.layers) <= DeviceMap(f.plan.devices)[p].memoryAvailableBytes
    ensures FullModelCandidateOf(f).valid
  {
    forall n | 0 <= n < 2 ensures ReplicaFits(f, n) {
      assert f.participants[n] in {a, b};
    }
    assert UploadUsable(f, 1);
    UncappedStarValid(f);
  }

  lemma UncappedStarValid(f: FullModelInput)
    requires FullModelBuildable(f) && f.plan.constraints == Constraints(None, None, 0.0)
    requires forall n :: 0 <= n < |f.participants| ==> ReplicaFits(f, n)
    requires forall n :: 0 < n < |f.participants| ==> UploadUsable(f, n)
    ensures FullModelCandidateOf(f).valid
  {
    FullModelValidIff(f);
  }

  /** Two participants that can each hold the model, one link and no caps suffice for a star. */
  lemma StarOfTwoPlans(i: PlanningInput, a: string, b: string)
    requires Admitted(i) && i.strategy.FullModel? && i.plan.layers != []
    requires i.plan.participants == [a, b] && (b, a) in LinkMap(i.plan.networkLinks)
    requires i.plan.constraints == Constraints(None, None, 0.0)
    requires forall p :: p in {a, b} ==> Demand(i.plan.layers) <= DeviceMap(i.plan.devices)[p].memoryAvailableBytes
    ensures Plan(i, ExclusionsOf(EMPTY)).Planned?
  {
    var ex := ExclusionsOf(EMPTY);
    assert Remaining([b], ex.devices) == [b] by { assert [b][1..] == []; }
    assert Remaining([a, b], ex.devices) == [a, b] by { assert [a, b][1..] == [b]; }
    StarOfTwoValid(FullModelOf(i, ex), a, b);
    assert Plan(i, ex) == PlanFullModel(i, ex);
  }

  const STALLED_PLAN := RoundPlan(
    [ModelLayer("first", 1.0, 1, 0, 0), ModelLayer("second", 1.0, 1, 0, 0)], ["a", "b"],
    [ResourceDevice("a", 1.0, 100), ResourceDevice("b", 1.0, 100)],
    [NetworkLink("a", "b", 1.0, 0.0), NetworkLink("b", "a", 1.0, 0.0)],
    Constraints(None, None, 0.0))

  lemma StalledDevices()
    ensures DeviceMap(STALLED_PLAN.devices).Keys == {"a", "b"}
    ensures forall p :: p in {"a", "b"} ==> DeviceMap(STALLED_PLAN.devices)[p].memoryAvailableBytes == 100
  {
    var first, second := ResourceDevice("a", 1.0, 100), ResourceDevice("b", 1.0, 100);
    assert [first][..0] == [] && [first, second][..1] == [first];
    assert DeviceMap([first]) == map["a" := first];
    assert DeviceMap([first, second]) == map["a" := first]["b" := second];
  }

  lemma StalledLinks()
    ensures LinkMap(STALLED_PLAN.networkLinks).Keys == {("a", "b"), ("b", "a")}
  {
    var there, back := NetworkLink("a", "b", 1.0, 0.0), NetworkLink("b", "a", 1.0, 0.0);
    assert [there][..0] == [] && [there, back][..1] == [there];
    assert LinkMap([there]) == map[("a", "b") := there];
    assert LinkMap([there, back]) == map[("a", "b") := there][("b", "a") := back];
  }

  lemma StalledDemand()
    ensures Demand(STALLED_PLAN.layers) == 2
  {
    var layers := STALLED_PLAN.layers;
    assert layers[1..] == [layers[1]] && [layers[1]][1..] == [];
    assert ParameterBytes([layers[1]]) == 1 && WorkingBytes([layers[1]]) == 0 && PeakActivation([layers[1]]) == 0;
  }

  /** The service's parser accepts the round. */
  lemma StalledAccepted(plan: RoundPlan)
    requires plan == STALLED_PLAN
    ensures AcceptedRound(plan)
  {
    StalledDevices();
    StalledLinks();
  }

  lemma StalledPlans(i: PlanningInput)
    requires i.plan == STALLED_PLAN && i.strategy.FullModel? && SoundPolicy(i.policy)
    ensures AcceptedRound(i.plan) && Admitted(i) && Plan(i, ExclusionsOf(EMPTY)).Planned?
  {
    StalledAccepted(i.plan);
    StalledDevices();
    StalledLinks();
    StalledDemand();
    StarOfTwoPlans(i, "a", "b");
  }

  /** A round that the service accepts, whose two participants can each hold the model: under any
      policy, after a latency violation the planner selects the very candidate that violated it. */
  lemma FederatedStall(i: PlanningInput)
    requires i.plan == STALLED_PLAN && i.strategy.FullModel? && SoundPolicy(i.policy)
    ensures AcceptedRound(i.plan) && Admitted(i) && Reselects(i, EMPTY, LatencySloViolation)
  {
    StalledPlans(i);
    FullModelReselectsIff(i, EMPTY, LatencySloViolation);
  }
}
