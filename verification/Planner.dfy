/** Choosing a plan: enumerate the admissible cuts, build and rank the candidates, take the
    first valid one. */
module Planner {
  import opened Prelude
  import opened Combinations
  import opened PartitionModels
  import opened Scoring
  import opened CandidateBuilder
  import opened FederatedBuilder

  // ----- ranking -----

  /** The sort key `(not valid, score, split_points)`, strictly below. */
  predicate RanksBefore(a: Candidate, b: Candidate) {
    || (a.valid && !b.valid)
    || (a.valid == b.valid
        && (a.score < b.score || (a.score == b.score && LexLess(a.splitPoints, b.splitPoints))))
  }

  function InsertRanked(c: Candidate, ordered: seq<Candidate>): (r: seq<Candidate>)
    ensures multiset(r) == multiset([c]) + multiset(ordered)
  {
    if ordered == [] then [c]
    else if RanksBefore(c, ordered[0]) then [c] + ordered
    else
      assert ordered == [ordered[0]] + ordered[1..];
      [ordered[0]] + InsertRanked(c, ordered[1..])
  }

  /** `sorted(candidates, key=...)`, stable. */
  function Ranked(candidates: seq<Candidate>): (r: seq<Candidate>)
    ensures multiset(r) == multiset(candidates)
  {
    if candidates == [] then []
    else
      var n := |candidates| - 1;
      assert candidates == candidates[..n] + [candidates[n]];
      InsertRanked(candidates[n], Ranked(candidates[..n]))
  }

  predicate InRankOrder(s: seq<Candidate>) {
    forall i, j :: 0 <= i < j < |s| ==> !RanksBefore(s[j], s[i])
  }

  lemma RanksBeforeTransitive(a: Candidate, b: Candidate, c: Candidate)
    requires !RanksBefore(b, a) && !RanksBefore(c, b)
    ensures !RanksBefore(c, a)
  {
    if RanksBefore(c, a) {
      LexLessTotal(a.splitPoints, b.splitPoints);
      LexLessTotal(b.splitPoints, c.splitPoints);
      if LexLess(a.splitPoints, b.splitPoints) && LexLess(b.splitPoints, c.splitPoints) {
        LexLessTransitive(a.splitPoints, b.splitPoints, c.splitPoints);
      }
      if LexLess(c.splitPoints, a.splitPoints) && LexLess(a.splitPoints, c.splitPoints) {
        LexLessTransitive(a.splitPoints, c.splitPoints, a.splitPoints);
      }
      LexLessIrreflexive(a.splitPoints);
      LexLessIrreflexive(b.splitPoints);
    }
  }

  lemma RanksBeforeAsymmetric(a: Candidate, b: Candidate)
    requires RanksBefore(a, b)
    ensures !RanksBefore(b, a)
  {
    if LexLess(a.splitPoints, b.splitPoints) && LexLess(b.splitPoints, a.splitPoints) {
      LexLessTransitive(a.splitPoints, b.splitPoints, a.splitPoints);
      LexLessIrreflexive(a.splitPoints);
    }
  }

  lemma {:induction false} InsertKeepsOrder(c: Candidate, ordered: seq<Candidate>)
    requires InRankOrder(ordered)
    ensures InRankOrder(InsertRanked(c, ordered))
  {
    if ordered != [] {
      var r := InsertRanked(c, ordered);
      if RanksBefore(c, ordered[0]) {
        forall j | 1 <= j < |r| ensures !RanksBefore(r[j], r[0]) {
          RanksBeforeAsymmetric(c, ordered[0]);
          if j > 1 { RanksBeforeTransitive(c, ordered[0], r[j]); }
        }
      } else {
        InsertKeepsOrder(c, ordered[1..]);
        forall j | 1 <= j < |r| ensures !RanksBefore(r[j], r[0]) {
          assert r[j] in multiset(InsertRanked(c, ordered[1..]));
          assert r[j] == c || r[j] in ordered[1..];
        }
      }
    }
  }

  lemma {:induction false} RankedOrder(candidates: seq<Candidate>)
    ensures InRankOrder(Ranked(candidates))
  {
    if candidates != [] {
      RankedOrder(candidates[..|candidates| - 1]);
      InsertKeepsOrder(candidates[|candidates| - 1], Ranked(candidates[..|candidates| - 1]));
    }
  }

  /** `next((item for item in ordered if item.valid), None)`. */
  function FirstValid(ordered: seq<Candidate>): (r: Option<Candidate>)
    ensures r.None? <==> forall c :: c in ordered ==> !c.valid
    ensures r.Some? ==> r.value in ordered && r.value.valid
  {
    if ordered == [] then None
    else if ordered[0].valid then Some(ordered[0])
    else
      assert ordered == [ordered[0]] + ordered[1..];
      FirstValid(ordered[1..])
  }

  lemma FirstValidIsFirst(ordered: seq<Candidate>, c: Candidate)
    requires InRankOrder(ordered) && c in ordered && c.valid
    ensures FirstValid(ordered).Some? && !RanksBefore(c, FirstValid(ordered).value)
  {
    var i :| 0 <= i < |ordered| && ordered[i] == c;
    if RanksBefore(c, c) { RanksBeforeAsymmetric(c, c); }
  }

  /** The selector returns a valid candidate that no valid candidate outranks, and nothing
      exactly when no candidate is valid. */
  lemma SelectionIsBest(candidates: seq<Candidate>)
    ensures FirstValid(Ranked(candidates)).None? <==> forall c :: c in candidates ==> !c.valid
    ensures FirstValid(Ranked(candidates)).Some? ==>
              var best := FirstValid(Ranked(candidates)).value;
              && best in candidates && best.valid
              && (forall c :: c in candidates && c.valid ==> !RanksBefore(c, best))
  {
    RankedOrder(candidates);
    assert forall c :: c in candidates <==> c in multiset(candidates);
    assert forall c :: c in Ranked(candidates) <==> c in multiset(Ranked(candidates));
    forall c | c in candidates && c.valid
      ensures FirstValid(Ranked(candidates)).Some? && !RanksBefore(c, FirstValid(Ranked(candidates)).value)
    {
      FirstValidIsFirst(Ranked(candidates), c);
    }
  }

  // ----- planning -----

  datatype Strategy = InferenceSplit | TrainingSplit | FullModel

  /** A normalised request together with the policy and intent it is planned under. */
  datatype PlanningInput = PlanningInput(
    plan: RoundPlan, strategy: Strategy, intent: TrainingIntent, policy: Policy)

  datatype Exclusions = Exclusions(
    devices: set<string>, links: set<Pair>, splits: set<seq<nat>>, memoryLimits: map<string, int>)

  const NO_EXCLUSIONS := Exclusions({}, {}, {}, map[])

  datatype PlanError =
    | InsufficientParticipants
    | NoFeasiblePartition
    | ReplanAttemptsExhausted
    | PreviousPlanHasNoCandidate
    | DirectiveErrors(errors: set<string>)

  datatype PlanOutcome =
    | Planned(selected: Candidate, alternatives: seq<Candidate>)
    | SafeFailure(error: PlanError, alternatives: seq<Candidate>)

  /** What `PartitionCommonProcessor` and the parsers guarantee before planning starts. */
  predicate Admitted(i: PlanningInput) {
    && ParsedPlan(i.plan) && SoundPolicy(i.policy)
    && (forall p :: p in i.plan.participants ==> p in DeviceMap(i.plan.devices))
  }

  function Remaining(participants: seq<string>, excluded: set<string>): (r: seq<string>)
    ensures forall p :: p in r <==> p in participants && p !in excluded
    ensures |r| <= |participants|
  {
    if participants == [] then []
    else
      (if participants[0] in excluded then [] else [participants[0]]) + Remaining(participants[1..], excluded)
  }

  /** Excluded participants drop out; the others keep their order. */
  lemma {:induction false} RemainingInOrder(participants: seq<string>, excluded: set<string>)
    ensures Remaining(participants, excluded) == Filter(participants, (p: string) => p !in excluded)
  {
    if participants != [] { RemainingInOrder(participants[1..], excluded); }
  }

  predicate AdmissibleSplits(i: PlanningInput, ex: Exclusions, splits: seq<nat>) {
    && splits !in ex.splits
    && (i.strategy.TrainingSplit? ==>
          forall b :: b in splits ==> b !in i.intent.forbiddenBoundaries)
  }

  function FilterSplits(i: PlanningInput, ex: Exclusions, options: seq<seq<nat>>): (r: seq<seq<nat>>)
    ensures forall s :: s in r <==> s in options && AdmissibleSplits(i, ex, s)
  {
    if options == [] then []
    else
      assert options == [options[0]] + options[1..];
      (if AdmissibleSplits(i, ex, options[0]) then [options[0]] else []) + FilterSplits(i, ex, options[1..])
  }

  function CutOf(i: PlanningInput, ex: Exclusions, splits: seq<nat>): CutInput {
    CutInput(i.plan, Remaining(i.plan.participants, ex.devices), splits, ex.links, ex.memoryLimits,
             if i.strategy.TrainingSplit? then Some(i.intent) else None, i.policy)
  }

  predicate EnoughParticipants(i: PlanningInput, ex: Exclusions) {
    2 <= |Remaining(i.plan.participants, ex.devices)| <= |i.plan.layers|
  }

  lemma CutBuildable(i: PlanningInput, ex: Exclusions, splits: seq<nat>)
    requires Admitted(i) && EnoughParticipants(i, ex)
    requires IsCut(splits, 1, |i.plan.layers|)
    requires |splits| + 1 == |Remaining(i.plan.participants, ex.devices)|
    ensures Buildable(CutOf(i, ex, splits))
  {
  }

  /** The cuts that the planner builds, in enumeration order. */
  function CandidateSplits(i: PlanningInput, ex: Exclusions): (r: seq<seq<nat>>)
    requires Admitted(i) && EnoughParticipants(i, ex)
    ensures forall s :: s in r <==>
              && |s| + 1 == |Remaining(i.plan.participants, ex.devices)|
              && IsCut(s, 1, |i.plan.layers|) && AdmissibleSplits(i, ex, s)
  {
    var count := |Remaining(i.plan.participants, ex.devices)| - 1;
    ChooseExact(1, |i.plan.layers|, count);
    FilterSplits(i, ex, Choose(1, |i.plan.layers|, count))
  }

  function Candidates(i: PlanningInput, ex: Exclusions): (r: seq<Candidate>)
    requires Admitted(i) && EnoughParticipants(i, ex)
    ensures |r| == |CandidateSplits(i, ex)|
    ensures forall n :: 0 <= n < |r| ==>
              && Buildable(CutOf(i, ex, CandidateSplits(i, ex)[n]))
              && r[n] == CandidateOf(CutOf(i, ex, CandidateSplits(i, ex)[n]))
  {
    var splits := CandidateSplits(i, ex);
    seq(|splits|, n requires 0 <= n < |splits| =>
      assert splits[n] in splits;
      CutBuildable(i, ex, splits[n]);
      CandidateOf(CutOf(i, ex, splits[n])))
  }

  function Without(ordered: seq<Candidate>, c: Candidate): seq<Candidate> {
    if ordered == [] then []
    else (if ordered[0] == c then [] else [ordered[0]]) + Without(ordered[1..], c)
  }

  function FullModelOf(i: PlanningInput, ex: Exclusions): FullModelInput {
    FullModelInput(i.plan, Remaining(i.plan.participants, ex.devices), ex.links, ex.memoryLimits,
                   i.intent.weights, i.policy)
  }

  /** `_plan_federated_full_model`; it is handed no excluded splits. */
  function PlanFullModel(i: PlanningInput, ex: Exclusions): PlanOutcome
    requires Admitted(i)
  {
    if |Remaining(i.plan.participants, ex.devices)| < 2 || i.plan.layers == [] then
      SafeFailure(InsufficientParticipants, [])
    else
      var c := FullModelCandidateOf(FullModelOf(i, ex));
      if c.valid then Planned(c, []) else SafeFailure(NoFeasiblePartition, [c])
  }

  /** `_plan` with the deterministic selector. */
  function Plan(i: PlanningInput, ex: Exclusions): PlanOutcome
    requires Admitted(i)
  {
    if i.strategy.FullModel? then PlanFullModel(i, ex)
    else if !EnoughParticipants(i, ex) then SafeFailure(InsufficientParticipants, [])
    else
      var ordered := Ranked(Candidates(i, ex));
      match FirstValid(ordered)
      case None => SafeFailure(NoFeasiblePartition, ordered)
      case Some(selected) => Planned(selected, Without(ordered, selected))
  }

  lemma {:induction false} WithoutMembers(ordered: seq<Candidate>, c: Candidate, x: Candidate)
    ensures x in Without(ordered, c) <==> x in ordered && x != c
  {
    if ordered != [] {
      WithoutMembers(ordered[1..], c, x);
      assert ordered == [ordered[0]] + ordered[1..];
    }
  }

  /** How planning of a split request ends: it needs two participants or more and a layer for each; with
      them it selects one of the candidates and keeps the others as alternatives, or fails with all
      of them, best first. */
  lemma PlanEnds(i: PlanningInput, ex: Exclusions, x: Candidate)
    requires Admitted(i) && !i.strategy.FullModel?
    ensures |Remaining(i.plan.participants, ex.devices)| < 2
            || |i.plan.layers| < |Remaining(i.plan.participants, ex.devices)| ==>
              Plan(i, ex) == SafeFailure(InsufficientParticipants, [])
    ensures Plan(i, ex) == SafeFailure(InsufficientParticipants, []) ==>
              |Remaining(i.plan.participants, ex.devices)| < 2
              || |i.plan.layers| < |Remaining(i.plan.participants, ex.devices)|
    ensures EnoughParticipants(i, ex) && Plan(i, ex).Planned? ==>
              && Plan(i, ex).selected in Candidates(i, ex)
              && (x in Plan(i, ex).alternatives <==> x in Candidates(i, ex) && x != Plan(i, ex).selected)
    ensures EnoughParticipants(i, ex) && !Plan(i, ex).Planned? ==>
              && Plan(i, ex).error == NoFeasiblePartition && InRankOrder(Plan(i, ex).alternatives)
              && multiset(Plan(i, ex).alternatives) == multiset(Candidates(i, ex))
  {
    if EnoughParticipants(i, ex) {
      RankedEnds(Candidates(i, ex), x);
    }
  }

  lemma RankedEnds(candidates: seq<Candidate>, x: Candidate)
    ensures InRankOrder(Ranked(candidates))
    ensures x in Ranked(candidates) <==> x in candidates
    ensures FirstValid(Ranked(candidates)).Some? ==>
              var best := FirstValid(Ranked(candidates)).value;
              best in candidates && (x in Without(Ranked(candidates), best) <==> x in candidates && x != best)
  {
    RankedOrder(candidates);
    assert x in Ranked(candidates) <==> x in multiset(Ranked(candidates));
    assert x in candidates <==> x in multiset(candidates);
    if FirstValid(Ranked(candidates)).Some? {
      var best := FirstValid(Ranked(candidates)).value;
      assert best in multiset(Ranked(candidates));
      WithoutMembers(Ranked(candidates), best, x);
    }
  }

  /** The federated star needs two participants and a layer, is selected when it is valid, and otherwise
      is the one alternative of the failure. */
  lemma StarPlanEnds(i: PlanningInput, ex: Exclusions)
    requires Admitted(i) && i.strategy.FullModel?
    ensures |Remaining(i.plan.participants, ex.devices)| < 2 || i.plan.layers == [] ==>
              Plan(i, ex) == SafeFailure(InsufficientParticipants, [])
    ensures |Remaining(i.plan.participants, ex.devices)| >= 2 && i.plan.layers != [] ==>
              var star := FullModelCandidateOf(FullModelOf(i, ex));
              Plan(i, ex) == if star.valid then Planned(star, []) else SafeFailure(NoFeasiblePartition, [star])
  {
  }

  /** `runs` is a way to cut the layers over the remaining participants that the planner
      may choose: feedback has not excluded its cut, and a training cut avoids the forbidden boundaries. */
  predicate AdmissibleRuns(i: PlanningInput, ex: Exclusions, runs: seq<seq<ModelLayer>>) {
    && NonEmptyRuns(runs) && Flatten(runs) == i.plan.layers
    && |runs| == |Remaining(i.plan.participants, ex.devices)|
    && SplitsOf(runs) !in ex.splits
    && (i.strategy.TrainingSplit? ==>
          forall n :: 0 <= n < |SplitsOf(runs)| ==> SplitsOf(runs)[n] !in i.intent.forbiddenBoundaries)
  }

  lemma RunsAreCandidates(i: PlanningInput, ex: Exclusions, runs: seq<seq<ModelLayer>>)
    requires Admitted(i) && EnoughParticipants(i, ex) && AdmissibleRuns(i, ex, runs)
    ensures Buildable(CutOf(i, ex, SplitsOf(runs)))
    ensures CandidateOf(CutOf(i, ex, SplitsOf(runs))) in Candidates(i, ex)
    ensures Runs(i.plan.layers, SplitsOf(runs)) == runs
  {
    RunsToCut(i.plan.layers, runs);
    var splits := CandidateSplits(i, ex);
    assert SplitsOf(runs) in splits;
    var n :| 0 <= n < |splits| && splits[n] == SplitsOf(runs);
    assert Candidates(i, ex)[n] == CandidateOf(CutOf(i, ex, SplitsOf(runs)));
  }

  lemma SelectedIsCandidate(i: PlanningInput, ex: Exclusions) returns (splits: seq<nat>)
    requires Admitted(i) && !i.strategy.FullModel? && Plan(i, ex).Planned?
    ensures EnoughParticipants(i, ex)
    ensures splits in CandidateSplits(i, ex)
    ensures Buildable(CutOf(i, ex, splits))
    ensures Plan(i, ex).selected == CandidateOf(CutOf(i, ex, splits)) && Plan(i, ex).selected.valid
  {
    var all := Candidates(i, ex);
    SelectionIsBest(all);
    var n :| 0 <= n < |all| && all[n] == Plan(i, ex).selected;
    splits := CandidateSplits(i, ex)[n];
  }

  lemma CandidatePartitions(c: CutInput)
    requires Buildable(c)
    ensures CandidateOf(c).splitPoints == c.splits
    ensures CandidateOf(c).partitions == PartitionsUpTo(c, |c.participants|)
  {
  }

  lemma PartitionPlaces(c: CutInput, candidate: Candidate)
    requires Buildable(c) && candidate.partitions == PartitionsUpTo(c, |c.participants|)
    ensures Assignment(candidate) == c.participants
    ensures forall n :: 0 <= n < |c.participants| ==>
              candidate.partitions[n].memoryDemandBytes == Demand(LayersAt(c, n))
  {
  }

  lemma CandidateOfCut(c: CutInput)
    requires Buildable(c)
    ensures CandidateOf(c).splitPoints == c.splits
    ensures Assignment(CandidateOf(c)) == c.participants
    ensures |CandidateOf(c).partitions| == |c.participants|
    ensures forall n :: 0 <= n < |c.participants| ==>
              CandidateOf(c).partitions[n].memoryDemandBytes == Demand(LayersAt(c, n))
  {
    CandidatePartitions(c);
    PartitionPlaces(c, CandidateOf(c));
  }

  lemma CutAdmissible(i: PlanningInput, ex: Exclusions, splits: seq<nat>)
    requires Admitted(i) && EnoughParticipants(i, ex) && splits in CandidateSplits(i, ex)
    ensures AdmissibleRuns(i, ex, Runs(i.plan.layers, splits))
  {
    CutToRuns(i.plan.layers, splits);
    assert AdmissibleSplits(i, ex, splits);
  }

  /** A selected plan gives each remaining participant, in order, one non-empty contiguous
      run of the layers, and is the candidate of that cut. */
  lemma SelectedPlanIsACut(i: PlanningInput, ex: Exclusions)
    requires Admitted(i) && !i.strategy.FullModel? && Plan(i, ex).Planned?
    ensures EnoughParticipants(i, ex) && IsCut(Plan(i, ex).selected.splitPoints, 1, |i.plan.layers|)
    ensures AdmissibleRuns(i, ex, Runs(i.plan.layers, Plan(i, ex).selected.splitPoints))
    ensures Buildable(CutOf(i, ex, Plan(i, ex).selected.splitPoints))
    ensures Plan(i, ex).selected == CandidateOf(CutOf(i, ex, Plan(i, ex).selected.splitPoints))
    ensures Plan(i, ex).selected.valid
    ensures Assignment(Plan(i, ex).selected) == Remaining(i.plan.participants, ex.devices)
  {
    var splits := SelectedIsCandidate(i, ex);
    CandidateOfCut(CutOf(i, ex, splits));
    CutAdmissible(i, ex, splits);
  }

  /** Optimality: over every admissible way to cut the layers into non-empty contiguous
      runs, none that is valid scores lower than the selected plan, and among equal scores
      the selected split points come first; planning fails exactly when every admissible
      way is invalid. */
  lemma SelectedPlanIsOptimal(i: PlanningInput, ex: Exclusions, runs: seq<seq<ModelLayer>>)
    requires Admitted(i) && !i.strategy.FullModel? && EnoughParticipants(i, ex)
    requires AdmissibleRuns(i, ex, runs)
    ensures Buildable(CutOf(i, ex, SplitsOf(runs)))
    ensures CandidateOf(CutOf(i, ex, SplitsOf(runs))).valid ==>
              var other := CandidateOf(CutOf(i, ex, SplitsOf(runs)));
              && Plan(i, ex).Planned?
              && Plan(i, ex).selected.score <= other.score
              && (Plan(i, ex).selected.score == other.score ==>
                    !LexLess(other.splitPoints, Plan(i, ex).selected.splitPoints))
  {
    RunsAreCandidates(i, ex, runs);
    SelectionIsBest(Candidates(i, ex));
  }

  predicate ValidRuns(i: PlanningInput, ex: Exclusions, runs: seq<seq<ModelLayer>>) {
    && AdmissibleRuns(i, ex, runs)
    && Buildable(CutOf(i, ex, SplitsOf(runs))) && CandidateOf(CutOf(i, ex, SplitsOf(runs))).valid
  }

  /** Planning succeeds exactly when some admissible way to cut the layers is valid. */
  lemma PlanningSucceedsIff(i: PlanningInput, ex: Exclusions)
    requires Admitted(i) && !i.strategy.FullModel? && EnoughParticipants(i, ex)
    ensures Plan(i, ex).Planned? <==> exists runs :: ValidRuns(i, ex, runs)
  {
    if Plan(i, ex).Planned? {
      SelectedPlanIsACut(i, ex);
      var splits := Plan(i, ex).selected.splitPoints;
      CutToRuns(i.plan.layers, splits);
      assert ValidRuns(i, ex, Runs(i.plan.layers, splits));
    }
    if runs :| ValidRuns(i, ex, runs) {
      SelectedPlanIsOptimal(i, ex, runs);
    }
  }
}
