/** Planner scores and evaluator rewards. */
module Scoring {
  import opened Prelude

  // ----- the planner policy -----

  datatype Policy = Policy(
    version: string,
    latencyWeight: real,
    memoryPressureWeight: real,
    communicationWeight: real,
    latencyReferenceMs: real,
    transferReferenceBytes: int,
    maxReplanAttempts: int)

  datatype PolicyResult = Loaded(policy: Policy) | InvalidPolicy(reason: string)

  function Abs(x: real): real { if x < 0.0 then -x else x }

  const WEIGHT_TOLERANCE := 0.000000001

  function WeightSum(p: Policy): real {
    p.latencyWeight + p.memoryPressureWeight + p.communicationWeight
  }

  predicate SoundPolicy(p: Policy) {
    && p.latencyWeight >= 0.0 && p.memoryPressureWeight >= 0.0 && p.communicationWeight >= 0.0
    && 1.0 - WEIGHT_TOLERANCE <= WeightSum(p) <= 1.0 + WEIGHT_TOLERANCE
    && p.latencyReferenceMs > 0.0 && p.transferReferenceBytes > 0
    && p.maxReplanAttempts >= 1
  }

  /** The checks of `ModelPartitionPolicy.from_dict`, in their order; `p` holds the
      parsed fields, with the version already stripped. */
  function LoadPolicy(p: Policy): (r: PolicyResult)
    ensures r.Loaded? <==> p.version != "" && SoundPolicy(p)
    ensures r.Loaded? ==> r.policy == p
  {
    if p.version == "" then InvalidPolicy("version is required")
    else if p.latencyWeight < 0.0 || p.memoryPressureWeight < 0.0 || p.communicationWeight < 0.0
            || Abs(WeightSum(p) - 1.0) > WEIGHT_TOLERANCE then
      InvalidPolicy("score weights must be non-negative and sum to 1.0")
    else if p.latencyReferenceMs <= 0.0 || p.transferReferenceBytes <= 0 then
      InvalidPolicy("normalization references must be positive")
    else if p.maxReplanAttempts < 1 then
      InvalidPolicy("max_replan_attempts must be at least 1")
    else Loaded(p)
  }

  /** A policy loads exactly when it has a version, no negative weight, weights that sum to one within
      a billionth, positive references and at least one replan attempt. */
  lemma LoadsIff(p: Policy)
    ensures LoadPolicy(p).Loaded? <==>
              && p.version != ""
              && p.latencyWeight >= 0.0 && p.memoryPressureWeight >= 0.0 && p.communicationWeight >= 0.0
              && 0.999999999 <= p.latencyWeight + p.memoryPressureWeight + p.communicationWeight <= 1.000000001
              && p.latencyReferenceMs > 0.0 && p.transferReferenceBytes > 0 && p.maxReplanAttempts >= 1
  {
  }

  /** The objective weights of the training strategies. */
  datatype TrainingWeights = TrainingWeights(
    stepTime: real, loadBalance: real, memoryPressure: real, communication: real, resilience: real)

  predicate SoundWeights(w: TrainingWeights) {
    && w.stepTime >= 0.0 && w.loadBalance >= 0.0 && w.memoryPressure >= 0.0
    && w.communication >= 0.0 && w.resilience >= 0.0
    && 1.0 - WEIGHT_TOLERANCE
       <= w.stepTime + w.loadBalance + w.memoryPressure + w.communication + w.resilience
       <= 1.0 + WEIGHT_TOLERANCE
  }

  // ----- weighted sums and quotients -----

  function Ratio(x: real, reference: real): real
    requires reference > 0.0
  {
    x / reference
  }

  lemma RatioMonotone(x: real, y: real, reference: real)
    requires x <= y && reference > 0.0
    ensures Ratio(x, reference) <= Ratio(y, reference)
  {
  }

  lemma RatioUnit(x: real, reference: real)
    requires 0.0 <= x <= reference && reference > 0.0
    ensures 0.0 <= Ratio(x, reference) <= 1.0
  {
    RatioMonotone(0.0, x, reference);
    RatioMonotone(x, reference, reference);
  }

  lemma ProductMonotone(w: real, a: real, b: real)
    requires w >= 0.0 && a <= b
    ensures w * a <= w * b
  {
  }

  lemma ProductStrict(w: real, a: real, b: real)
    requires w > 0.0 && a < b
    ensures w * a < w * b
  {
  }

  function Weigh3(a: real, x: real, b: real, y: real, c: real, z: real): real {
    a * x + b * y + c * z
  }

  lemma Weigh3Monotone(a: real, x: real, x': real, b: real, y: real, y': real, c: real, z: real, z': real)
    requires a >= 0.0 && b >= 0.0 && c >= 0.0 && x <= x' && y <= y' && z <= z'
    ensures Weigh3(a, x, b, y, c, z) <= Weigh3(a, x', b, y', c, z')
  {
    ProductMonotone(a, x, x');
    ProductMonotone(b, y, y');
    ProductMonotone(c, z, z');
  }

  function Weigh5(a: real, v: real, b: real, w: real, c: real, x: real, d: real, y: real, e: real, z: real): real {
    Weigh3(a, v, b, w, c, x) + d * y + e * z
  }

  lemma Weigh5Monotone(a: real, v: real, v': real, b: real, w: real, w': real, c: real, x: real, x': real,
                       d: real, y: real, y': real, e: real, z: real, z': real)
    requires a >= 0.0 && b >= 0.0 && c >= 0.0 && d >= 0.0 && e >= 0.0
    requires v <= v' && w <= w' && x <= x' && y <= y' && z <= z'
    ensures Weigh5(a, v, b, w, c, x, d, y, e, z) <= Weigh5(a, v', b, w', c, x', d, y', e, z')
  {
    Weigh3Monotone(a, v, v', b, w, w', c, x, x');
    ProductMonotone(d, y, y');
    ProductMonotone(e, z, z');
  }

  /** A fraction of the reference, capped at 1. */
  function Capped(x: real, reference: real): real
    requires reference > 0.0
  {
    Min(Ratio(x, reference), 1.0)
  }

  lemma CappedMonotone(x: real, y: real, reference: real)
    requires x <= y && reference > 0.0
    ensures Capped(x, reference) <= Capped(y, reference) <= 1.0
    ensures x >= 0.0 ==> 0.0 <= Capped(x, reference)
  {
    RatioMonotone(x, y, reference);
    if x >= 0.0 { RatioMonotone(0.0, x, reference); }
  }

  // ----- planner scores -----

  /** The inference score before rounding. */
  function RawScore(p: Policy, latencyMs: real, pressure: real, bytes: int): real
    requires SoundPolicy(p)
  {
    Weigh3(p.latencyWeight, Capped(latencyMs, p.latencyReferenceMs),
           p.memoryPressureWeight, Min(pressure, 1.0),
           p.communicationWeight, Capped(bytes as real, p.transferReferenceBytes as real))
  }

  function Score(p: Policy, latencyMs: real, pressure: real, bytes: int): real
    requires SoundPolicy(p)
  {
    Round6(RawScore(p, latencyMs, pressure, bytes))
  }

  /** The training score before rounding. */
  function RawScoreTraining(p: Policy, w: TrainingWeights, stepMs: real, imbalance: real,
                            pressure: real, bytes: int, risk: real): real
    requires SoundPolicy(p)
  {
    Weigh5(w.stepTime, Capped(stepMs, p.latencyReferenceMs),
           w.loadBalance, imbalance,
           w.memoryPressure, Min(pressure, 1.0),
           w.communication, Capped(bytes as real, p.transferReferenceBytes as real),
           w.resilience, risk)
  }

  function ScoreTraining(p: Policy, w: TrainingWeights, stepMs: real, imbalance: real,
                         pressure: real, bytes: int, risk: real): real
    requires SoundPolicy(p)
  {
    Round6(RawScoreTraining(p, w, stepMs, imbalance, pressure, bytes, risk))
  }

  /** `_predicted_resilience_risk`. */
  function ResilienceRisk(computeMs: seq<real>, eligible: int): real {
    if computeMs == [] || eligible <= 0 then 0.0
    else
      var total := SumReals(computeMs);
      var workload := if total <= 0.0 then 0.0 else MaxReals(computeMs) / total;
      var used := if |computeMs| < eligible then |computeMs| else eligible;
      var device := 1.0 - used as real / eligible as real;
      Min(Max(Max(workload, device), 0.0), 1.0)
  }

  /** `(max - min) / max`, the load imbalance of both training builders. */
  function LoadImbalance(computeMs: seq<real>): real {
    var maximum := MaxReals(computeMs);
    if maximum == 0.0 then 0.0 else (maximum - MinReals(computeMs)) / maximum
  }

  lemma ImbalanceUnit(computeMs: seq<real>)
    requires NonNegative(computeMs)
    ensures 0.0 <= LoadImbalance(computeMs) <= 1.0
  {
    RealFolds(computeMs);
    var maximum := MaxReals(computeMs);
    if maximum != 0.0 { RatioUnit(maximum - MinReals(computeMs), maximum); }
  }

  lemma RiskUnit(computeMs: seq<real>, eligible: int)
    ensures 0.0 <= ResilienceRisk(computeMs, eligible) <= 1.0
  {
  }

  /** With one partition per eligible device the device term vanishes: the risk is the
      largest compute share. */
  lemma RiskIsComputeShare(computeMs: seq<real>)
    requires NonNegative(computeMs) && computeMs != [] && SumReals(computeMs) > 0.0
    ensures ResilienceRisk(computeMs, |computeMs|) == Ratio(MaxReals(computeMs), SumReals(computeMs))
  {
    RealFolds(computeMs);
    WholeShare(|computeMs|);
    RatioUnit(MaxReals(computeMs), SumReals(computeMs));
    RiskOfShare(computeMs, Ratio(MaxReals(computeMs), SumReals(computeMs)));
  }

  lemma WholeShare(n: int)
    requires n > 0
    ensures n as real / n as real == 1.0
  {
    var x := n as real;
    assert x / x * x == x;
  }

  lemma RiskOfShare(computeMs: seq<real>, share: real)
    requires computeMs != [] && SumReals(computeMs) > 0.0 && 0.0 <= share <= 1.0
    requires share == MaxReals(computeMs) / SumReals(computeMs)
    requires |computeMs| as real / |computeMs| as real == 1.0
    ensures ResilienceRisk(computeMs, |computeMs|) == share
  {
  }

  lemma Weigh3Unit(a: real, x: real, b: real, y: real, c: real, z: real)
    requires a >= 0.0 && b >= 0.0 && c >= 0.0
    requires 0.0 <= x <= 1.0 && 0.0 <= y <= 1.0 && 0.0 <= z <= 1.0
    ensures 0.0 <= Weigh3(a, x, b, y, c, z) <= a + b + c
  {
    Weigh3Monotone(a, 0.0, x, b, 0.0, y, c, 0.0, z);
    Weigh3Monotone(a, x, 1.0, b, y, 1.0, c, z, 1.0);
  }

  /** Scores stay in [0, 1] after rounding, whatever slack the weight check left. */
  lemma ScoreUnit(p: Policy, latencyMs: real, pressure: real, bytes: int)
    requires SoundPolicy(p) && latencyMs >= 0.0 && pressure >= 0.0 && bytes >= 0
    ensures 0.0 <= Score(p, latencyMs, pressure, bytes) <= 1.0
  {
    var l := Capped(latencyMs, p.latencyReferenceMs);
    var c := Capped(bytes as real, p.transferReferenceBytes as real);
    CappedMonotone(latencyMs, latencyMs, p.latencyReferenceMs);
    CappedMonotone(bytes as real, bytes as real, p.transferReferenceBytes as real);
    Weigh3Unit(p.latencyWeight, l, p.memoryPressureWeight, Min(pressure, 1.0), p.communicationWeight, c);
    Round6Unit(Weigh3(p.latencyWeight, l, p.memoryPressureWeight, Min(pressure, 1.0), p.communicationWeight, c));
  }

  lemma Weigh5Unit(a: real, v: real, b: real, w: real, c: real, x: real, d: real, y: real, e: real, z: real)
    requires a >= 0.0 && b >= 0.0 && c >= 0.0 && d >= 0.0 && e >= 0.0
    requires 0.0 <= v <= 1.0 && 0.0 <= w <= 1.0 && 0.0 <= x <= 1.0 && 0.0 <= y <= 1.0 && 0.0 <= z <= 1.0
    ensures 0.0 <= Weigh5(a, v, b, w, c, x, d, y, e, z) <= a + b + c + d + e
  {
    Weigh5Monotone(a, 0.0, v, b, 0.0, w, c, 0.0, x, d, 0.0, y, e, 0.0, z);
    Weigh5Monotone(a, v, 1.0, b, w, 1.0, c, x, 1.0, d, y, 1.0, e, z, 1.0);
  }

  lemma ScoreTrainingUnit(p: Policy, w: TrainingWeights, stepMs: real, computeMs: seq<real>,
                          pressure: real, bytes: int, eligible: int)
    requires SoundPolicy(p) && SoundWeights(w) && NonNegative(computeMs)
    requires stepMs >= 0.0 && pressure >= 0.0 && bytes >= 0
    ensures 0.0 <= ScoreTraining(p, w, stepMs, LoadImbalance(computeMs), pressure, bytes,
                                 ResilienceRisk(computeMs, eligible)) <= 1.0
  {
    ImbalanceUnit(computeMs);
    RiskUnit(computeMs, eligible);
    CappedMonotone(stepMs, stepMs, p.latencyReferenceMs);
    CappedMonotone(bytes as real, bytes as real, p.transferReferenceBytes as real);
    var s := Capped(stepMs, p.latencyReferenceMs);
    var c := Capped(bytes as real, p.transferReferenceBytes as real);
    var i, k := LoadImbalance(computeMs), ResilienceRisk(computeMs, eligible);
    Weigh5Unit(w.stepTime, s, w.loadBalance, i, w.memoryPressure, Min(pressure, 1.0),
               w.communication, c, w.resilience, k);
    Round6Unit(Weigh5(w.stepTime, s, w.loadBalance, i, w.memoryPressure, Min(pressure, 1.0),
                      w.communication, c, w.resilience, k));
  }

  lemma ScoreMonotone(p: Policy, l: real, m: real, b: int, l': real, m': real, b': int)
    requires SoundPolicy(p) && l <= l' && m <= m' && b <= b'
    ensures Score(p, l, m, b) <= Score(p, l', m', b')
  {
    var lr, tr := p.latencyReferenceMs, p.transferReferenceBytes as real;
    CappedMonotone(l, l', lr);
    CappedMonotone(b as real, b' as real, tr);
    Weigh3Monotone(p.latencyWeight, Capped(l, lr), Capped(l', lr),
                   p.memoryPressureWeight, Min(m, 1.0), Min(m', 1.0),
                   p.communicationWeight, Capped(b as real, tr), Capped(b' as real, tr));
    Round6Monotone(Weigh3(p.latencyWeight, Capped(l, lr), p.memoryPressureWeight, Min(m, 1.0),
                          p.communicationWeight, Capped(b as real, tr)),
                   Weigh3(p.latencyWeight, Capped(l', lr), p.memoryPressureWeight, Min(m', 1.0),
                          p.communicationWeight, Capped(b' as real, tr)));
  }

  // ----- what the weights weigh -----

  /** How much of a reference a value takes up, all of it at most. */
  ghost function ShareOf(x: real, reference: real): real
    requires reference > 0.0
  {
    if x <= reference then x / reference else 1.0
  }

  lemma CappedIsShare(x: real, reference: real)
    requires reference > 0.0
    ensures Capped(x, reference) == ShareOf(x, reference)
  {
    var q := x / reference;
    assert q * reference == x;
    if x <= reference {
      RatioMonotone(x, reference, reference);
      assert reference / reference * reference == reference;
    } else {
      RatioMonotone(reference, x, reference);
      assert reference / reference * reference == reference;
    }
  }

  lemma Distributes(w: real, x: real, x': real)
    ensures w * x' - w * x == w * (x' - x)
  {
  }

  lemma Weigh3Differs(a: real, x: real, x': real, b: real, y: real, y': real, c: real, z: real, z': real)
    ensures Weigh3(a, x', b, y, c, z) - Weigh3(a, x, b, y, c, z) == a * (x' - x)
    ensures Weigh3(a, x, b, y', c, z) - Weigh3(a, x, b, y, c, z) == b * (y' - y)
    ensures Weigh3(a, x, b, y, c, z') - Weigh3(a, x, b, y, c, z) == c * (z' - z)
  {
    Distributes(a, x, x');
    Distributes(b, y, y');
    Distributes(c, z, z');
  }

  lemma Weigh5Differs(a: real, v: real, v': real, b: real, w: real, w': real, c: real, x: real, x': real,
                      d: real, y: real, y': real, e: real, z: real, z': real)
    ensures Weigh5(a, v', b, w, c, x, d, y, e, z) - Weigh5(a, v, b, w, c, x, d, y, e, z) == a * (v' - v)
    ensures Weigh5(a, v, b, w', c, x, d, y, e, z) - Weigh5(a, v, b, w, c, x, d, y, e, z) == b * (w' - w)
    ensures Weigh5(a, v, b, w, c, x', d, y, e, z) - Weigh5(a, v, b, w, c, x, d, y, e, z) == c * (x' - x)
    ensures Weigh5(a, v, b, w, c, x, d, y', e, z) - Weigh5(a, v, b, w, c, x, d, y, e, z) == d * (y' - y)
    ensures Weigh5(a, v, b, w, c, x, d, y, e, z') - Weigh5(a, v, b, w, c, x, d, y, e, z) == e * (z' - z)
  {
    Weigh3Differs(a, v, v', b, w, w', c, x, x');
    Distributes(d, y, y');
    Distributes(e, z, z');
  }

  /** How much of one pressure takes up, all of it at most. */
  ghost function PressureShare(m: real): real { if m <= 1.0 then m else 1.0 }

  lemma SameProduct(w: real, a: real, a': real, x: real, x': real)
    requires a == x && a' == x'
    ensures w * (a' - a) == w * (x' - x)
  {
  }

  lemma NothingCapped(reference: real)
    requires reference > 0.0
    ensures Capped(0.0, reference) == 0.0
  {
    assert 0.0 / reference * reference == 0.0;
  }

  lemma Weigh3Zero(a: real, b: real, c: real)
    ensures Weigh3(a, 0.0, b, 0.0, c, 0.0) == 0.0
  {
  }

  lemma Weigh5Zero(a: real, b: real, c: real, d: real, e: real)
    ensures Weigh5(a, 0.0, b, 0.0, c, 0.0, d, 0.0, e, 0.0) == 0.0
  {
  }

  /** Where only the latency differs, the unrounded score differs by the latency weight times the
      difference of its share of the reference. */
  lemma LatencyWeighs(p: Policy, l: real, l': real, m: real, b: int)
    requires SoundPolicy(p)
    ensures RawScore(p, l', m, b) - RawScore(p, l, m, b)
            == p.latencyWeight * (ShareOf(l', p.latencyReferenceMs) - ShareOf(l, p.latencyReferenceMs))
  {
    var x, x' := Capped(l, p.latencyReferenceMs), Capped(l', p.latencyReferenceMs);
    var y, z := Min(m, 1.0), Capped(b as real, p.transferReferenceBytes as real);
    Weigh3Differs(p.latencyWeight, x, x', p.memoryPressureWeight, y, y, p.communicationWeight, z, z);
    CappedIsShare(l, p.latencyReferenceMs);
    CappedIsShare(l', p.latencyReferenceMs);
    SameProduct(p.latencyWeight, x, x', ShareOf(l, p.latencyReferenceMs), ShareOf(l', p.latencyReferenceMs));
  }

  /** The pressure is weighed by the memory weight, up to a pressure of 1. */
  lemma PressureWeighs(p: Policy, l: real, m: real, m': real, b: int)
    requires SoundPolicy(p)
    ensures RawScore(p, l, m', b) - RawScore(p, l, m, b)
            == p.memoryPressureWeight * (PressureShare(m') - PressureShare(m))
  {
    var x, z := Capped(l, p.latencyReferenceMs), Capped(b as real, p.transferReferenceBytes as real);
    Weigh3Differs(p.latencyWeight, x, x, p.memoryPressureWeight, Min(m, 1.0), Min(m', 1.0),
                  p.communicationWeight, z, z);
    SameProduct(p.memoryPressureWeight, Min(m, 1.0), Min(m', 1.0), PressureShare(m), PressureShare(m'));
  }

  /** The transfer is weighed by the communication weight, up to its reference. */
  lemma TransferWeighs(p: Policy, l: real, m: real, b: int, b': int)
    requires SoundPolicy(p)
    ensures RawScore(p, l, m, b') - RawScore(p, l, m, b)
            == p.communicationWeight * (ShareOf(b' as real, p.transferReferenceBytes as real)
                                        - ShareOf(b as real, p.transferReferenceBytes as real))
  {
    var tr := p.transferReferenceBytes as real;
    var x, z, z' := Capped(l, p.latencyReferenceMs), Capped(b as real, tr), Capped(b' as real, tr);
    Weigh3Differs(p.latencyWeight, x, x, p.memoryPressureWeight, Min(m, 1.0), Min(m, 1.0),
                  p.communicationWeight, z, z');
    CappedIsShare(b as real, tr);
    CappedIsShare(b' as real, tr);
    SameProduct(p.communicationWeight, z, z', ShareOf(b as real, tr), ShareOf(b' as real, tr));
  }

  /** Nothing used scores nothing, so the three differences make up every score. */
  lemma NothingScoresZero(p: Policy)
    requires SoundPolicy(p)
    ensures RawScore(p, 0.0, 0.0, 0) == 0.0
  {
    NothingCapped(p.latencyReferenceMs);
    NothingCapped(p.transferReferenceBytes as real);
    Weigh3Zero(p.latencyWeight, p.memoryPressureWeight, p.communicationWeight);
  }

  /** A weight of one makes the score that component's share, rounded. */
  lemma ScoreOfOne(p: Policy, l: real, m: real, b: int)
    requires SoundPolicy(p)
    ensures p.latencyWeight == 1.0 && p.memoryPressureWeight == 0.0 && p.communicationWeight == 0.0 ==>
              Score(p, l, m, b) == Round6(ShareOf(l, p.latencyReferenceMs))
    ensures p.memoryPressureWeight == 1.0 && p.latencyWeight == 0.0 && p.communicationWeight == 0.0 ==>
              Score(p, l, m, b) == Round6(PressureShare(m))
    ensures p.communicationWeight == 1.0 && p.latencyWeight == 0.0 && p.memoryPressureWeight == 0.0 ==>
              Score(p, l, m, b) == Round6(ShareOf(b as real, p.transferReferenceBytes as real))
  {
    CappedIsShare(l, p.latencyReferenceMs);
    CappedIsShare(b as real, p.transferReferenceBytes as real);
  }

  /** The training score weighs the step time by its weight, up to the latency reference, */
  lemma StepTimeWeighs(p: Policy, w: TrainingWeights, s: real, s': real, i: real, m: real, b: int, k: real)
    requires SoundPolicy(p)
    ensures RawScoreTraining(p, w, s', i, m, b, k) - RawScoreTraining(p, w, s, i, m, b, k)
            == w.stepTime * (ShareOf(s', p.latencyReferenceMs) - ShareOf(s, p.latencyReferenceMs))
  {
    var lr, tr := p.latencyReferenceMs, p.transferReferenceBytes as real;
    var v, x, y := Capped(s, lr), Min(m, 1.0), Capped(b as real, tr);
    Weigh5Differs(w.stepTime, v, Capped(s', lr), w.loadBalance, i, i, w.memoryPressure, x, x, w.communication, y, y,
                  w.resilience, k, k);
    CappedIsShare(s, lr);
    CappedIsShare(s', lr);
    SameProduct(w.stepTime, v, Capped(s', lr), ShareOf(s, lr), ShareOf(s', lr));
  }

  /** the load imbalance by the load-balance weight, */
  lemma ImbalanceWeighs(p: Policy, w: TrainingWeights, s: real, i: real, i': real, m: real, b: int, k: real)
    requires SoundPolicy(p)
    ensures RawScoreTraining(p, w, s, i', m, b, k) - RawScoreTraining(p, w, s, i, m, b, k)
            == w.loadBalance * (i' - i)
  {
    var lr, tr := p.latencyReferenceMs, p.transferReferenceBytes as real;
    var v, x, y := Capped(s, lr), Min(m, 1.0), Capped(b as real, tr);
    Weigh5Differs(w.stepTime, v, v, w.loadBalance, i, i', w.memoryPressure, x, x, w.communication, y, y,
                  w.resilience, k, k);
  }

  /** the pressure by the memory weight, up to a pressure of 1, */
  lemma TrainingPressureWeighs(p: Policy, w: TrainingWeights, s: real, i: real, m: real, m': real, b: int, k: real)
    requires SoundPolicy(p)
    ensures RawScoreTraining(p, w, s, i, m', b, k) - RawScoreTraining(p, w, s, i, m, b, k)
            == w.memoryPressure * (PressureShare(m') - PressureShare(m))
  {
    var lr, tr := p.latencyReferenceMs, p.transferReferenceBytes as real;
    var v, x, y := Capped(s, lr), Min(m, 1.0), Capped(b as real, tr);
    Weigh5Differs(w.stepTime, v, v, w.loadBalance, i, i, w.memoryPressure, x, Min(m', 1.0), w.communication, y, y,
                  w.resilience, k, k);
    SameProduct(w.memoryPressure, x, Min(m', 1.0), PressureShare(m), PressureShare(m'));
  }

  /** the transfer by the communication weight, up to its reference, */
  lemma TrainingTransferWeighs(p: Policy, w: TrainingWeights, s: real, i: real, m: real, b: int, b': int, k: real)
    requires SoundPolicy(p)
    ensures RawScoreTraining(p, w, s, i, m, b', k) - RawScoreTraining(p, w, s, i, m, b, k)
            == w.communication * (ShareOf(b' as real, p.transferReferenceBytes as real)
                                - ShareOf(b as real, p.transferReferenceBytes as real))
  {
    var lr, tr := p.latencyReferenceMs, p.transferReferenceBytes as real;
    var v, x, y := Capped(s, lr), Min(m, 1.0), Capped(b as real, tr);
    Weigh5Differs(w.stepTime, v, v, w.loadBalance, i, i, w.memoryPressure, x, x, w.communication, y,
                  Capped(b' as real, tr), w.resilience, k, k);
    CappedIsShare(b as real, tr);
    CappedIsShare(b' as real, tr);
    SameProduct(w.communication, y, Capped(b' as real, tr), ShareOf(b as real, tr), ShareOf(b' as real, tr));
  }

  /** and the risk by the resilience weight. */
  lemma RiskWeighs(p: Policy, w: TrainingWeights, s: real, i: real, m: real, b: int, k: real, k': real)
    requires SoundPolicy(p)
    ensures RawScoreTraining(p, w, s, i, m, b, k') - RawScoreTraining(p, w, s, i, m, b, k)
            == w.resilience * (k' - k)
  {
    var lr, tr := p.latencyReferenceMs, p.transferReferenceBytes as real;
    var v, x, y := Capped(s, lr), Min(m, 1.0), Capped(b as real, tr);
    Weigh5Differs(w.stepTime, v, v, w.loadBalance, i, i, w.memoryPressure, x, x, w.communication, y, y,
                  w.resilience, k, k');
  }

  lemma NothingTrainsForZero(p: Policy, w: TrainingWeights)
    requires SoundPolicy(p)
    ensures RawScoreTraining(p, w, 0.0, 0.0, 0.0, 0, 0.0) == 0.0
  {
    NothingCapped(p.latencyReferenceMs);
    NothingCapped(p.transferReferenceBytes as real);
    Weigh5Zero(w.stepTime, w.loadBalance, w.memoryPressure, w.communication, w.resilience);
  }

  /** The load imbalance is how far the least busy partition stays below the busiest, as a share of
      the busiest. */
  lemma ImbalanceIs(computeMs: seq<real>, least: real, most: real)
    requires NonNegative(computeMs) && least in computeMs && most in computeMs
    requires forall x :: x in computeMs ==> least <= x <= most
    ensures LoadImbalance(computeMs) * most == most - least
    ensures most == 0.0 ==> LoadImbalance(computeMs) == 0.0
  {
    LeastAndGreatest(computeMs);
    assert most >= 0.0 && least >= 0.0;
    if most != 0.0 {
      var q := (most - least) / most;
      assert q * most == most - least;
    }
  }

  lemma Cancels(a: real, b: real, whole: real)
    requires whole > 0.0 && a * whole == b * whole
    ensures a == b
  {
    assert (a - b) * whole == 0.0;
  }

  lemma QuotientIs(x: real, whole: real, q: real)
    requires whole > 0.0 && q * whole == x
    ensures x / whole == q
  {
    assert x / whole * whole == x;
    assert (x / whole - q) * whole == 0.0;
  }

  lemma BusiestShare(computeMs: seq<real>, most: real, busiest: real)
    requires NonNegative(computeMs) && SumReals(computeMs) > 0.0
    requires most in computeMs && forall x :: x in computeMs ==> x <= most
    requires busiest * SumReals(computeMs) == most
    ensures computeMs != [] && busiest == MaxReals(computeMs) / SumReals(computeMs) && 0.0 <= busiest <= 1.0
  {
    LeastAndGreatest(computeMs);
    RealFolds(computeMs);
    QuotientIs(most, SumReals(computeMs), busiest);
    RatioUnit(most, SumReals(computeMs));
  }

  lemma UnusedShare(used: int, eligible: int, unused: real)
    requires 0 <= used <= eligible && eligible > 0 && unused * eligible as real == (eligible - used) as real
    ensures used as real / eligible as real == 1.0 - unused && 0.0 <= unused <= 1.0
  {
    assert (1.0 - unused) * eligible as real == used as real;
    QuotientIs(used as real, eligible as real, 1.0 - unused);
    RatioUnit(used as real, eligible as real);
  }

  lemma RiskOfShares(computeMs: seq<real>, eligible: int, busiest: real, unused: real)
    requires computeMs != [] && SumReals(computeMs) > 0.0 && eligible > 0
    requires busiest == MaxReals(computeMs) / SumReals(computeMs) && 0.0 <= busiest <= 1.0 && 0.0 <= unused <= 1.0
    requires 1.0 - unused == (if |computeMs| < eligible then |computeMs| else eligible) as real / eligible as real
    ensures ResilienceRisk(computeMs, eligible) == if busiest >= unused then busiest else unused
  {
  }

  /** The predicted risk is the larger of the busiest partition's share of the compute and the share
      of the eligible devices that no partition uses. */
  lemma RiskIs(computeMs: seq<real>, eligible: int, most: real, busiest: real, unused: real)
    requires NonNegative(computeMs) && SumReals(computeMs) > 0.0 && eligible > 0
    requires most in computeMs && forall x :: x in computeMs ==> x <= most
    requires busiest * SumReals(computeMs) == most
    requires unused * eligible as real == (if |computeMs| < eligible then eligible - |computeMs| else 0) as real
    ensures ResilienceRisk(computeMs, eligible) == if busiest >= unused then busiest else unused
  {
    BusiestShare(computeMs, most, busiest);
    UnusedShare(if |computeMs| < eligible then |computeMs| else eligible, eligible, unused);
    RiskOfShares(computeMs, eligible, busiest, unused);
  }

  /** Without compute to concentrate only the unused devices count, and without devices nothing does. */
  lemma RiskOfIdle(computeMs: seq<real>, eligible: int, unused: real)
    requires SumReals(computeMs) <= 0.0
    requires eligible > 0 ==>
               unused * eligible as real == (if |computeMs| < eligible then eligible - |computeMs| else 0) as real
    ensures ResilienceRisk(computeMs, eligible) == if computeMs == [] || eligible <= 0 then 0.0 else unused
  {
    if computeMs == [] || eligible <= 0 { return; }
    UnusedShare(if |computeMs| < eligible then |computeMs| else eligible, eligible, unused);
  }

  // ----- evaluator rewards -----

  datatype RewardWeights =
    | StrategyWeights(latency: real, memoryPressure: real, communication: real)
    | LegacyWeights

  predicate SoundRewardWeights(w: RewardWeights) {
    w.StrategyWeights? ==>
      w.latency >= 0.0 && w.memoryPressure >= 0.0 && w.communication >= 0.0
  }

  function Efficiency(x: real, reference: real): real
    requires x >= 0.0 && reference > 0.0
  {
    RatioMonotone(0.0, x, reference);
    Ratio(1.0, 1.0 + Ratio(x, reference))
  }

  function LatencyEfficiency(p: Policy, limit: Option<real>, latencyMs: real): real
    requires SoundPolicy(p) && latencyMs >= 0.0 && (limit.Some? ==> limit.value > 0.0)
  {
    match limit
    case Some(max) => Clamp01(1.0 - Ratio(latencyMs, max))
    case None => Efficiency(latencyMs, p.latencyReferenceMs)
  }

  /** The reward of `_evaluate_inference` before the clamp of `evaluate`. */
  function InferenceReward(p: Policy, w: RewardWeights, limit: Option<real>, satisfied: bool,
                           latencyMs: real, pressure: real, bytes: int): real
    requires SoundPolicy(p) && latencyMs >= 0.0 && bytes >= 0 && (limit.Some? ==> limit.value > 0.0)
  {
    var latency := LatencyEfficiency(p, limit, latencyMs);
    var memory := Clamp01(1.0 - pressure);
    var communication := Efficiency(bytes as real, p.transferReferenceBytes as real);
    match w
    case StrategyWeights(wl, wm, wc) => Weigh3(wl, latency, wm, memory, wc, communication)
    case LegacyWeights =>
      0.40 * (if satisfied then 1.0 else -1.0) + Weigh3(0.25, latency, 0.20, memory, 0.15, communication)
  }

  /** The reward of `_evaluate_training` for a plan with a selected candidate. */
  function TrainingReward(p: Policy, w: TrainingWeights, stepMs: real, imbalance: real,
                          pressure: real, bytes: int, risk: real): real
    requires SoundPolicy(p) && stepMs >= 0.0 && bytes >= 0
  {
    Weigh5(w.stepTime, Efficiency(stepMs, p.latencyReferenceMs),
           w.loadBalance, Clamp01(1.0 - imbalance),
           w.memoryPressure, Clamp01(1.0 - pressure),
           w.communication, Efficiency(bytes as real, p.transferReferenceBytes as real),
           w.resilience, Clamp01(1.0 - risk))
  }

  /** The tail of `evaluate`: invalid plans are capped at 0, then clamp and round. */
  function FinalReward(reward: real, satisfied: bool): real {
    var capped := if satisfied then reward else Min(0.0, reward);
    Round6(Max(-1.0, Min(1.0, capped)))
  }

  /** Whatever the components, the reported reward is in [-1, 1], and not positive
      for a plan that is invalid or fails validation. */
  lemma RewardBounds(reward: real, satisfied: bool)
    ensures -1.0 <= FinalReward(reward, satisfied) <= 1.0
    ensures !satisfied ==> FinalReward(reward, satisfied) <= 0.0
  {
    var capped := if satisfied then reward else Min(0.0, reward);
    var clamped := Max(-1.0, Min(1.0, capped));
    Round6Fixes(-1); Round6Fixes(0); Round6Fixes(1);
    Round6Monotone(-1.0, clamped);
    Round6Monotone(clamped, 1.0);
    if !satisfied { Round6Monotone(clamped, 0.0); }
  }

  /** Within the bounds the reported reward is the reward, rounded, and nothing positive for a plan
      that is invalid. */
  lemma RewardIs(reward: real, satisfied: bool)
    requires -1.0 <= reward <= 1.0
    ensures satisfied || reward <= 0.0 ==> FinalReward(reward, satisfied) == Round6(reward)
    ensures !satisfied && reward >= 0.0 ==> FinalReward(reward, satisfied) == 0.0
  {
    Round6Fixes(0);
  }

  /** Efficiency halves at the reference: it is what the reference makes up of value and reference. */
  lemma EfficiencyIs(x: real, reference: real)
    requires x >= 0.0 && reference > 0.0
    ensures Efficiency(x, reference) * (reference + x) == reference
  {
    var q := x / reference;
    assert q * reference == x;
    var e := 1.0 / (1.0 + q);
    RatioMonotone(0.0, x, reference);
    assert e * (1.0 + q) == 1.0;
    assert (reference + x) == (1.0 + q) * reference;
    assert e * ((1.0 + q) * reference) == e * (1.0 + q) * reference;
  }

  /** Under a latency limit the latency component is what is left of the limit. */
  lemma LatencyEfficiencyIs(p: Policy, limit: real, l: real)
    requires SoundPolicy(p) && l >= 0.0 && limit > 0.0
    ensures l <= limit ==> LatencyEfficiency(p, Some(limit), l) * limit == limit - l
    ensures l >= limit ==> LatencyEfficiency(p, Some(limit), l) == 0.0
    ensures LatencyEfficiency(p, None, l) * (p.latencyReferenceMs + l) == p.latencyReferenceMs
  {
    EfficiencyIs(l, p.latencyReferenceMs);
    var q := l / limit;
    assert q * limit == l;
    RatioMonotone(0.0, l, limit);
    if l <= limit {
      RatioUnit(l, limit);
      assert (1.0 - q) * limit == limit - l;
    } else {
      RatioMonotone(limit, l, limit);
      assert limit / limit * limit == limit;
    }
  }

  /** What the pressure leaves of 1. */
  ghost function Relief(pressure: real): real {
    if pressure <= 0.0 then 1.0 else if pressure >= 1.0 then 0.0 else 1.0 - pressure
  }

  /** The inference reward weighs the latency component, what pressure leaves, and the transfer's
      efficiency, by the strategy's weights or by 0.25, 0.20 and 0.15; legacy weights add 0.40 for a
      plan that satisfies its constraints and take it off for one that does not. */
  lemma InferenceRewardIs(p: Policy, limit: Option<real>, satisfied: bool, l: real, m: real, b: int,
                          wl: real, wm: real, wc: real)
    requires SoundPolicy(p) && l >= 0.0 && b >= 0 && (limit.Some? ==> limit.value > 0.0)
    ensures var latency, transfer := LatencyEfficiency(p, limit, l),
                                     Efficiency(b as real, p.transferReferenceBytes as real);
            && InferenceReward(p, StrategyWeights(wl, wm, wc), limit, satisfied, l, m, b)
               == wl * latency + wm * Relief(m) + wc * transfer
            && InferenceReward(p, LegacyWeights, limit, satisfied, l, m, b)
               == (if satisfied then 0.40 else -0.40) + 0.25 * latency + 0.20 * Relief(m) + 0.15 * transfer
  {
  }

  /** The training reward weighs the step time's and the transfer's efficiency and what imbalance,
      pressure and risk leave of 1, each by its own weight. */
  lemma TrainingRewardIs(p: Policy, w: TrainingWeights, s: real, i: real, m: real, b: int, k: real)
    requires SoundPolicy(p) && s >= 0.0 && b >= 0
    ensures TrainingReward(p, w, s, i, m, b, k)
            == w.stepTime * Efficiency(s, p.latencyReferenceMs) + w.loadBalance * Relief(i)
               + w.memoryPressure * Relief(m)
               + w.communication * Efficiency(b as real, p.transferReferenceBytes as real)
               + w.resilience * Relief(k)
  {
  }

  lemma ReciprocalAntitone(a: real, b: real)
    requires 0.0 < a <= b
    ensures 0.0 <= Ratio(1.0, b) <= Ratio(1.0, a)
  {
    var x, y := Ratio(1.0, a), Ratio(1.0, b);
    assert x * a == 1.0 && y * b == 1.0;
    assert y > 0.0 && x > 0.0;
    ProductMonotone(y, a, b);
    assert a * y <= 1.0 && a * x == 1.0;
    if y > x { ProductStrict(a, x, y); }
  }

  lemma EfficiencyAntitone(x: real, y: real, reference: real)
    requires 0.0 <= x <= y && reference > 0.0
    ensures 0.0 <= Efficiency(y, reference) <= Efficiency(x, reference) <= 1.0
  {
    RatioMonotone(0.0, x, reference);
    RatioMonotone(x, y, reference);
    ReciprocalAntitone(1.0 + Ratio(x, reference), 1.0 + Ratio(y, reference));
    ReciprocalAntitone(1.0, 1.0 + Ratio(x, reference));
  }

  lemma LatencyEfficiencyAntitone(p: Policy, limit: Option<real>, x: real, y: real)
    requires SoundPolicy(p) && 0.0 <= x <= y && (limit.Some? ==> limit.value > 0.0)
    ensures 0.0 <= LatencyEfficiency(p, limit, y) <= LatencyEfficiency(p, limit, x) <= 1.0
  {
    match limit
    case Some(max) => RatioMonotone(x, y, max);
    case None => EfficiencyAntitone(x, y, p.latencyReferenceMs);
  }

  lemma InferenceRewardAntitone(p: Policy, w: RewardWeights, limit: Option<real>, satisfied: bool,
                                l: real, m: real, b: int, l': real, m': real, b': int)
    requires SoundPolicy(p) && SoundRewardWeights(w) && (limit.Some? ==> limit.value > 0.0)
    requires 0.0 <= l <= l' && m <= m' && 0 <= b <= b'
    ensures InferenceReward(p, w, limit, satisfied, l', m', b')
            <= InferenceReward(p, w, limit, satisfied, l, m, b)
  {
    LatencyEfficiencyAntitone(p, limit, l, l');
    var tr := p.transferReferenceBytes as real;
    EfficiencyAntitone(b as real, b' as real, tr);
    var (wl, wm, wc) := if w.StrategyWeights? then (w.latency, w.memoryPressure, w.communication)
                        else (0.25, 0.20, 0.15);
    Weigh3Monotone(wl, LatencyEfficiency(p, limit, l'), LatencyEfficiency(p, limit, l),
                   wm, Clamp01(1.0 - m'), Clamp01(1.0 - m),
                   wc, Efficiency(b' as real, tr), Efficiency(b as real, tr));
  }

  lemma FinalRewardMonotone(r: real, r': real, satisfied: bool)
    requires r <= r'
    ensures FinalReward(r, satisfied) <= FinalReward(r', satisfied)
  {
    var c := if satisfied then r else Min(0.0, r);
    var c' := if satisfied then r' else Min(0.0, r');
    Round6Monotone(Max(-1.0, Min(1.0, c)), Max(-1.0, Min(1.0, c')));
  }

  /** Planner and evaluator agree on dominance: the planner scores the unrounded
      estimates, the evaluator the rounded ones, and a plan that is no worse in
      latency, memory pressure and transfer never loses in either. */
  lemma DominanceAgreement(p: Policy, w: RewardWeights, limit: Option<real>,
                           l: real, m: real, b: int, l': real, m': real, b': int)
    requires SoundPolicy(p) && SoundRewardWeights(w) && (limit.Some? ==> limit.value > 0.0)
    requires 0.0 <= l <= l' && 0.0 <= m <= m' && 0 <= b <= b'
    ensures Score(p, l, m, b) <= Score(p, l', m', b')
    ensures 0.0 <= Round6(l) <= Round6(l')
    ensures FinalReward(InferenceReward(p, w, limit, true, Round6(l'), Round6(m'), b'), true)
            <= FinalReward(InferenceReward(p, w, limit, true, Round6(l), Round6(m), b), true)
  {
    ScoreMonotone(p, l, m, b, l', m', b');
    Round6Fixes(0);
    Round6Monotone(0.0, l);
    Round6Monotone(l, l');
    Round6Monotone(m, m');
    InferenceRewardAntitone(p, w, limit, true, Round6(l), Round6(m), b, Round6(l'), Round6(m'), b');
    FinalRewardMonotone(InferenceReward(p, w, limit, true, Round6(l'), Round6(m'), b'),
                        InferenceReward(p, w, limit, true, Round6(l), Round6(m), b), true);
  }

  lemma TrainingRewardAntitone(p: Policy, w: TrainingWeights,
                               s: real, i: real, m: real, b: int, k: real,
                               s': real, i': real, m': real, b': int, k': real)
    requires SoundPolicy(p) && SoundWeights(w)
    requires 0.0 <= s <= s' && i <= i' && m <= m' && 0 <= b <= b' && k <= k'
    ensures TrainingReward(p, w, s', i', m', b', k') <= TrainingReward(p, w, s, i, m, b, k)
  {
    var lr, tr := p.latencyReferenceMs, p.transferReferenceBytes as real;
    EfficiencyAntitone(s, s', lr);
    EfficiencyAntitone(b as real, b' as real, tr);
    Weigh5Monotone(w.stepTime, Efficiency(s', lr), Efficiency(s, lr),
                   w.loadBalance, Clamp01(1.0 - i'), Clamp01(1.0 - i),
                   w.memoryPressure, Clamp01(1.0 - m'), Clamp01(1.0 - m),
                   w.communication, Efficiency(b' as real, tr), Efficiency(b as real, tr),
                   w.resilience, Clamp01(1.0 - k'), Clamp01(1.0 - k));
  }

  lemma ScoreTrainingMonotone(p: Policy, w: TrainingWeights,
                              s: real, i: real, m: real, b: int, k: real,
                              s': real, i': real, m': real, b': int, k': real)
    requires SoundPolicy(p) && SoundWeights(w)
    requires 0.0 <= s <= s' && i <= i' && m <= m' && 0 <= b <= b' && k <= k'
    ensures ScoreTraining(p, w, s, i, m, b, k) <= ScoreTraining(p, w, s', i', m', b', k')
  {
    var lr, tr := p.latencyReferenceMs, p.transferReferenceBytes as real;
    CappedMonotone(s, s', lr);
    CappedMonotone(b as real, b' as real, tr);
    Weigh5Monotone(w.stepTime, Capped(s, lr), Capped(s', lr), w.loadBalance, i, i',
                   w.memoryPressure, Min(m, 1.0), Min(m', 1.0),
                   w.communication, Capped(b as real, tr), Capped(b' as real, tr), w.resilience, k, k');
    Round6Monotone(Weigh5(w.stepTime, Capped(s, lr), w.loadBalance, i, w.memoryPressure, Min(m, 1.0),
                          w.communication, Capped(b as real, tr), w.resilience, k),
                   Weigh5(w.stepTime, Capped(s', lr), w.loadBalance, i', w.memoryPressure, Min(m', 1.0),
                          w.communication, Capped(b' as real, tr), w.resilience, k'));
  }

  /** The same for training plans, over step time, imbalance, pressure, transfer and risk: the
      planner scores the unrounded estimates, the evaluator rewards the rounded ones. */
  lemma TrainingDominanceAgreement(p: Policy, w: TrainingWeights,
                                   s: real, i: real, m: real, b: int, k: real,
                                   s': real, i': real, m': real, b': int, k': real)
    requires SoundPolicy(p) && SoundWeights(w)
    requires 0.0 <= s <= s' && i <= i' && m <= m' && 0 <= b <= b' && k <= k'
    ensures ScoreTraining(p, w, s, i, m, b, k) <= ScoreTraining(p, w, s', i', m', b', k')
    ensures 0.0 <= Round6(s) <= Round6(s')
    ensures FinalReward(TrainingReward(p, w, Round6(s'), Round6(i'), Round6(m'), b', Round6(k')), true)
            <= FinalReward(TrainingReward(p, w, Round6(s), Round6(i), Round6(m), b, Round6(k)), true)
  {
    ScoreTrainingMonotone(p, w, s, i, m, b, k, s', i', m', b', k');
    Round6Fixes(0);
    Round6Monotone(0.0, s);
    Round6Monotone(s, s');
    Round6Monotone(i, i');
    Round6Monotone(m, m');
    Round6Monotone(k, k');
    TrainingRewardAntitone(p, w, Round6(s), Round6(i), Round6(m), b, Round6(k),
                           Round6(s'), Round6(i'), Round6(m'), b', Round6(k'));
    FinalRewardMonotone(TrainingReward(p, w, Round6(s'), Round6(i'), Round6(m'), b', Round6(k')),
                        TrainingReward(p, w, Round6(s), Round6(i), Round6(m), b, Round6(k)), true);
  }

  // ----- which evidence is evaluated -----

  datatype Evidence = Evidence(latencyMs: real, memoryPressure: real, transferBytes: int)

  predicate SoundEvidence(e: Evidence) { e.latencyMs >= 0.0 && e.memoryPressure >= 0.0 && e.transferBytes >= 0 }

  /** The choice of `evaluate`: complete runtime evidence, clamped at zero, before the selected
      candidate's estimates, before the references. */
  function EvidenceUsed(p: Policy, runtime: Option<Evidence>, selected: Option<Evidence>): (e: Evidence)
    requires SoundPolicy(p) && (selected.Some? ==> SoundEvidence(selected.value))
    ensures SoundEvidence(e)
  {
    if runtime.Some? then
      Evidence(Max(0.0, runtime.value.latencyMs), Max(0.0, runtime.value.memoryPressure),
               if runtime.value.transferBytes >= 0 then runtime.value.transferBytes else 0)
    else if selected.Some? then selected.value
    else Evidence(p.latencyReferenceMs, 1.0, p.transferReferenceBytes)
  }

  /** The reported reward of an inference plan. */
  function EvaluateInference(p: Policy, w: RewardWeights, limit: Option<real>, valid: bool,
                             runtime: Option<Evidence>, selected: Option<Evidence>): real
    requires SoundPolicy(p) && (limit.Some? ==> limit.value > 0.0)
    requires selected.Some? ==> SoundEvidence(selected.value)
  {
    var e := EvidenceUsed(p, runtime, selected);
    FinalReward(InferenceReward(p, w, limit, valid, e.latencyMs, e.memoryPressure, e.transferBytes), valid)
  }

  /** Runtime evidence is taken where there is some, what is negative in it as nothing; without it
      the selected candidate's estimates count, and without a candidate the references. */
  lemma EvidenceIs(p: Policy, runtime: Option<Evidence>, selected: Option<Evidence>)
    requires SoundPolicy(p) && (selected.Some? ==> SoundEvidence(selected.value))
    ensures runtime.Some? && SoundEvidence(runtime.value) ==> EvidenceUsed(p, runtime, selected) == runtime.value
    ensures runtime.Some? ==>
              var e, r := EvidenceUsed(p, runtime, selected), runtime.value;
              && (r.latencyMs < 0.0 ==> e.latencyMs == 0.0) && (r.latencyMs >= 0.0 ==> e.latencyMs == r.latencyMs)
              && (r.memoryPressure < 0.0 ==> e.memoryPressure == 0.0)
              && (r.memoryPressure >= 0.0 ==> e.memoryPressure == r.memoryPressure)
              && (r.transferBytes < 0 ==> e.transferBytes == 0)
              && (r.transferBytes >= 0 ==> e.transferBytes == r.transferBytes)
    ensures runtime.None? && selected.Some? ==> EvidenceUsed(p, runtime, selected) == selected.value
    ensures runtime.None? && selected.None? ==>
              EvidenceUsed(p, runtime, selected)
              == Evidence(p.latencyReferenceMs, 1.0, p.transferReferenceBytes)
  {
  }

  /** A valid plan is never rewarded below an invalid or missing one, whatever was observed of
      either and whichever weights apply. */
  lemma ValidPlansFirst(p: Policy, w: RewardWeights, limit: Option<real>,
                        runtime: Option<Evidence>, selected: Option<Evidence>,
                        runtime': Option<Evidence>, selected': Option<Evidence>)
    requires SoundPolicy(p) && SoundRewardWeights(w) && (limit.Some? ==> limit.value > 0.0)
    requires selected.Some? ==> SoundEvidence(selected.value)
    requires selected'.Some? ==> SoundEvidence(selected'.value)
    ensures EvaluateInference(p, w, limit, false, runtime', selected') <= 0.0
            <= EvaluateInference(p, w, limit, true, runtime, selected)
  {
    var e, e' := EvidenceUsed(p, runtime, selected), EvidenceUsed(p, runtime', selected');
    RewardBounds(InferenceReward(p, w, limit, false, e'.latencyMs, e'.memoryPressure, e'.transferBytes), false);
    LatencyEfficiencyAntitone(p, limit, e.latencyMs, e.latencyMs);
    var tr := p.transferReferenceBytes as real;
    EfficiencyAntitone(e.transferBytes as real, e.transferBytes as real, tr);
    var (wl, wm, wc) :=
      if w.StrategyWeights? then (w.latency, w.memoryPressure, w.communication) else (0.25, 0.20, 0.15);
    Weigh3Monotone(wl, 0.0, LatencyEfficiency(p, limit, e.latencyMs), wm, 0.0, Clamp01(1.0 - e.memoryPressure),
                   wc, 0.0, Efficiency(e.transferBytes as real, tr));
    Weigh3Zero(wl, wm, wc);
    Round6Fixes(0);
    FinalRewardMonotone(0.0, InferenceReward(p, w, limit, true, e.latencyMs, e.memoryPressure, e.transferBytes), true);
  }
}
