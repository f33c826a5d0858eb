/**
 What the numbers of a rollup mean: the peak is the largest step score, the score the largest of
 peak, velocity and frequency, the level the band it lies in, and the velocity of a burst the
 sum of its scores.
 */
module RiskEpisodes {
  import opened Wrappers
  import opened RiskScoring
  import opened RiskTemperature

  // ---------- Peak, score and level ----------

  /** The largest step score, and zero when there is none above it. */
  predicate IsPeak(peak: real, steps: seq<Step>) {
    && peak >= 0.0 && (forall s | s in steps :: s.score <= peak)
    && (peak == 0.0 || exists s :: s in steps && s.score == peak)
  }

  predicate InBand(score: real, level: Level, b: Bands) {
    match level
    case NoRisk => score < b.low
    case Low => b.low <= score < b.medium
    case Medium => b.medium <= score < b.high
    case High => b.high <= score < b.critical
    case Critical => b.critical <= score
  }

  /** No score lies in two bands of a sound policy. */
  lemma OneBand(score: real, level: Level, level': Level, p: RiskPolicy)
    requires SoundPolicy(p) && InBand(score, level, p.bands) && InBand(score, level', p.bands)
    ensures level == level'
  {
  }

  /** A rollup sums up its steps: no step, velocity or frequency score is above its score, which is one of them. */
  predicate SumsUp(r: Rollup, steps: seq<Step>, p: RiskPolicy) {
    && r.stepCount == |steps| && IsPeak(r.peak, steps)
    && (forall s | s in steps :: Clamp01(Round4(s.score)) <= r.score)
    && r.velocityScore <= r.score && (r.frequencyScore.Some? ==> r.frequencyScore.value <= r.score)
    && (r.score == Clamp01(Round4(r.peak)) || r.score == r.velocityScore || r.frequencyScore == Some(r.score))
    && InBand(r.score, r.level, p.bands)
    && (r.frequencyScore.Some? <==> p.frequencyRules != [])
  }

  lemma {:induction false} PeakIsLargest(ordered: seq<Step>, n: nat, p: RiskPolicy)
    requires n <= |ordered| && p.windowSeconds > 0.0
    ensures IsPeak(MomentumOf(ordered, n, p).peak, ordered[..n])
    decreases n
  {
    hide Carry, DecayBefore;
    if n > 0 {
      PeakIsLargest(ordered, n - 1, p);
      assert ordered[..n] == ordered[..n - 1] + [ordered[n - 1]];
    }
  }

  lemma RoundedOnce(v: real)
    ensures Clamp01(Round4(Clamp01(Round4(v)))) == Clamp01(Round4(v))
  {
    Round4Exact((v * 10000.0 + 0.5).Floor);
    Round4Exact(0);
    Round4Exact(10000);
  }

  /** A score of four decimals is left as it is between zero and one, and clamped outside. */
  lemma ScoreClamps(n: int)
    ensures var score := Clamp01(Round4(n as real / 10000.0));
            if n < 0 then score == 0.0 else if n > 10000 then score == 1.0 else score == n as real / 10000.0
  {
    hide Round4;
    Round4Exact(n);
  }

  lemma HighestIsOne(peak: real, velocity: real, frequency: Option<real>)
    requires Clamp01(Round4(velocity)) == velocity && (frequency.Some? ==> Clamp01(Round4(frequency.value)) == frequency.value)
    ensures var highest := match frequency case None => Max(peak, velocity) case Some(f) => Max(Max(peak, velocity), f);
            var score := Clamp01(Round4(highest));
            && Clamp01(Round4(peak)) <= score && velocity <= score && (frequency.Some? ==> frequency.value <= score)
            && (score == Clamp01(Round4(peak)) || score == velocity || frequency == Some(score))
  {
    hide Round4, Clamp01;
    var highest := match frequency case None => Max(peak, velocity) case Some(f) => Max(Max(peak, velocity), f);
    ScoreMono(peak, highest);
    ScoreMono(velocity, highest);
    if frequency.Some? { ScoreMono(frequency.value, highest); }
  }

  lemma NoScoreAbovePeak(peak: real, steps: seq<Step>)
    requires IsPeak(peak, steps)
    ensures forall s | s in steps :: Clamp01(Round4(s.score)) <= Clamp01(Round4(peak))
  {
    hide Round4, Clamp01;
    forall s | s in steps ensures Clamp01(Round4(s.score)) <= Clamp01(Round4(peak)) {
      ScoreMono(s.score, peak);
    }
  }

  lemma {:induction false} NothingFires(rules: seq<FrequencyRule>)
    requires ValidRules(rules)
    ensures FiredBoosts(rules, []) == 0.0
    decreases |rules|
  {
    if rules != [] {
      var r := rules[|rules| - 1];
      assert ValidRule(r);
      NothingFires(rules[..|rules| - 1]);
      assert Matching([], r) == [];
      NothingReaches([], r.windowSeconds * 1000.0, r.threshold);
    }
  }

  lemma NothingReaches(times: seq<int>, width: real, threshold: int)
    requires times == [] && threshold >= 1
    ensures !SomeWindowReaches(times, width, threshold)
  {
  }

  lemma SameSteps(a: seq<Step>, b: seq<Step>)
    requires multiset(a) == multiset(b)
    ensures |a| == |b| && forall s :: s in a <==> s in b
  {
    assert |multiset(a)| == |a| && |multiset(b)| == |b|;
    assert forall s :: s in a <==> s in multiset(a);
    assert forall s :: s in b <==> s in multiset(b);
  }

  /** Every rollup sums up its episode. */
  lemma RollupSumsUp(steps: seq<Step>, p: RiskPolicy)
    requires p.windowSeconds > 0.0 && p.velocityNormalizer > 0.0
    requires multiset(ByTime(steps)) == multiset(steps)
    ensures RollupOf(steps, p).Some? <==> ValidRules(p.frequencyRules)
    ensures RollupOf(steps, p).Some? ==> SumsUp(RollupOf(steps, p).value, steps, p)
  {
    hide Round4, Clamp01, MomentumOf, ByTime, FiredBoosts, ValidRule, IsPeak;
    if !ValidRules(p.frequencyRules) { return; }
    var ordered := ByTime(steps);
    SameSteps(ordered, steps);
    RoundedOnce(FiredBoosts(p.frequencyRules, ordered));
    if steps == [] {
      NothingRolled(p, ordered);
    } else {
      PeakIsLargest(ordered, |ordered|, p);
      assert ordered[..|ordered|] == ordered;
      var m := MomentumOf(ordered, |ordered|, p);
      SamePeak(m.peak, ordered, steps);
      NoScoreAbovePeak(m.peak, steps);
      RoundedOnce(m.highest / p.velocityNormalizer);
      var frequency := if p.frequencyRules == [] then None else Some(FrequencyScore(p.frequencyRules, ordered));
      HighestIsOne(m.peak, VelocityScore(ordered, p), frequency);
    }
  }

  lemma NothingRolled(p: RiskPolicy, ordered: seq<Step>)
    requires ValidRules(p.frequencyRules) && ordered == []
    ensures FrequencyScore(p.frequencyRules, ordered) == 0.0 && Clamp01(Round4(0.0)) == 0.0 && IsPeak(0.0, [])
  {
    hide ValidRule, FiredBoosts;
    NothingFires(p.frequencyRules);
  }

  lemma SamePeak(peak: real, a: seq<Step>, b: seq<Step>)
    requires IsPeak(peak, a) && forall s :: s in a <==> s in b
    ensures IsPeak(peak, b)
  {
  }

  // ---------- Velocity ----------

  predicate HasFourDecimals(v: real) {
    (v * 10000.0).Floor as real == v * 10000.0
  }

  lemma FourDecimalsStay(v: real)
    requires HasFourDecimals(v)
    ensures Round4(v) == v
  {
    Round4Exact((v * 10000.0).Floor);
  }

  lemma FourDecimalsAdd(a: real, b: real)
    requires HasFourDecimals(a) && HasFourDecimals(b)
    ensures HasFourDecimals(a + b)
  {
    var n := (a * 10000.0).Floor + (b * 10000.0).Floor;
    assert (a + b) * 10000.0 == n as real;
  }

  function TotalScore(steps: seq<Step>): real {
    if steps == [] then 0.0 else TotalScore(steps[..|steps| - 1]) + steps[|steps| - 1].score
  }

  /** Each step comes no earlier than the one before it. */
  predicate InOrder(steps: seq<Step>) {
    forall i | 0 < i < |steps| :: steps[i - 1].at <= steps[i].at
  }

  /** Each step follows the one before it in less than a window. */
  predicate InOneBurst(steps: seq<Step>, windowSeconds: real) {
    forall i | 0 < i < |steps| :: (steps[i].at - steps[i - 1].at) as real / 1000.0 < windowSeconds
  }

  /** Sorting leaves steps alone that are in order already. */
  lemma {:induction false} InOrderStays(steps: seq<Step>)
    requires InOrder(steps)
    ensures ByTime(steps) == steps
    decreases |steps|
  {
    if steps != [] {
      var front := steps[..|steps| - 1];
      InOrderStays(front);
      assert steps == front + [steps[|steps| - 1]];
      assert front != [] ==> front[|front| - 1] == steps[|steps| - 2];
    }
  }

  lemma WindowsBetween(from: int, to: int, windowSeconds: real, k: nat)
    requires windowSeconds > 0.0 && from <= to
    requires k as real * windowSeconds <= (to - from) as real / 1000.0 < (k + 1) as real * windowSeconds
    ensures Windows(from, to, windowSeconds) == k
  {
    hide Windows;
    var gap := (to - from) as real / 1000.0;
    QuotientBetween(gap, windowSeconds, k as real);
    QuotientFloor(from, to, windowSeconds, k);
  }

  lemma QuotientBetween(gap: real, width: real, k: real)
    requires width > 0.0 && k * width <= gap < (k + 1.0) * width
    ensures k <= gap / width < k + 1.0
  {
    var q := gap / width;
    assert q * width == gap;
    if q < k { ProductPositive(k - q, width); }
    if q >= k + 1.0 { ProductNonnegative(q - (k + 1.0), width); }
  }

  lemma QuotientFloor(from: int, to: int, windowSeconds: real, k: nat)
    requires windowSeconds > 0.0 && from <= to
    requires k as real <= (to - from) as real / 1000.0 / windowSeconds < (k + 1) as real
    ensures Windows(from, to, windowSeconds) == k
  {
  }

  /** Within a burst nothing decays: the momentum is the sum of the scores so far. */
  lemma {:induction false} BurstMomentum(ordered: seq<Step>, n: nat, p: RiskPolicy)
    requires n <= |ordered| && p.windowSeconds > 0.0 && InOrder(ordered) && InOneBurst(ordered, p.windowSeconds)
    requires forall i | 0 <= i < |ordered| :: ordered[i].score >= 0.0 && HasFourDecimals(ordered[i].score)
    ensures var m := MomentumOf(ordered, n, p);
            m.momentum == m.highest == TotalScore(ordered[..n]) && m.highest >= 0.0 && HasFourDecimals(m.highest)
    decreases n
  {
    hide Round4, Windows, HasFourDecimals;
    if n == 0 {
      ZeroHasFourDecimals();
    } else {
      var i := n - 1;
      BurstMomentum(ordered, i, p);
      var m := MomentumOf(ordered, i, p);
      assert ordered[..n][..i] == ordered[..i];
      if i > 0 {
        assert 0.0 <= (ordered[i].at - ordered[i - 1].at) as real / 1000.0 < p.windowSeconds;
        WindowsBetween(ordered[i - 1].at, ordered[i].at, p.windowSeconds, 0);
      }
      assert DecayBefore(ordered, i, p) == 1.0;
      FourDecimalsAdd(ordered[i].score, m.momentum);
      FourDecimalsStay(ordered[i].score + m.momentum);
    }
  }

  lemma ZeroHasFourDecimals()
    ensures HasFourDecimals(0.0)
  {
  }

  /** The velocity of a burst is the sum of its scores over the normalizer. */
  lemma BurstVelocity(steps: seq<Step>, p: RiskPolicy)
    requires p.windowSeconds > 0.0 && p.velocityNormalizer > 0.0 && ValidRules(p.frequencyRules)
    requires steps != [] && InOrder(steps) && InOneBurst(steps, p.windowSeconds)
    requires forall i | 0 <= i < |steps| :: steps[i].score >= 0.0 && HasFourDecimals(steps[i].score)
    ensures RollupOf(steps, p).Some?
         && RollupOf(steps, p).value.velocityScore == Clamp01(Round4(TotalScore(steps) / p.velocityNormalizer))
  {
    hide Round4, Clamp01, ByTime, FiredBoosts, HasFourDecimals, InOrder, InOneBurst, ValidRule, MomentumOf;
    InOrderStays(steps);
    BurstMomentum(steps, |steps|, p);
    assert steps[..|steps|] == steps;
  }

  /** An episode of one step scores the step, or its velocity when the normalizer is below one. */
  lemma OneStepEpisode(s: Step, p: RiskPolicy)
    requires p.windowSeconds > 0.0 && p.velocityNormalizer > 0.0 && p.frequencyRules == []
    requires 0.0 <= s.score <= 1.0 && HasFourDecimals(s.score)
    ensures RollupOf([s], p).Some?
    ensures var r := RollupOf([s], p).value;
            && r.peak == s.score && r.velocityScore == Clamp01(Round4(s.score / p.velocityNormalizer))
            && r.score == Max(s.score, Clamp01(Round4(s.score / p.velocityNormalizer)))
            && InBand(r.score, r.level, p.bands)
  {
    hide Round4, ByTime, FiredBoosts, MomentumOf, HasFourDecimals;
    BurstVelocity([s], p);
    InOrderStays([s]);
    assert TotalScore([s]) == s.score by { assert [s][..0] == []; }
    RollupSumsUp([s], p);
    var r := RollupOf([s], p).value;
    assert s in [s];
    FourDecimalsStay(s.score);
  }

  /** What a gap of `k` whole windows leaves of the first step's momentum. */
  lemma TwoStepVelocity(a: Step, b: Step, k: nat, left: real, p: RiskPolicy)
    requires p.windowSeconds > 0.0 && p.velocityNormalizer > 0.0 && ValidRules(p.frequencyRules) && a.at <= b.at
    requires k as real * p.windowSeconds <= (b.at - a.at) as real / 1000.0 < (k + 1) as real * p.windowSeconds
    requires a.score >= 0.0 && HasFourDecimals(a.score) && left == b.score + a.score * Power(p.decayPerWindow, k)
    ensures RollupOf([a, b], p).Some?
    ensures RollupOf([a, b], p).value.velocityScore == Clamp01(Round4(Max(a.score, Round4(left)) / p.velocityNormalizer))
  {
    hide Round4, Clamp01, ByTime, FiredBoosts, Windows, HasFourDecimals, ValidRule, MomentumOf, Carry, Max, InOrder, RollupOf;
    WindowsBetween(a.at, b.at, p.windowSeconds, k);
    assert DecayBefore([a, b], 1, p) == Power(p.decayPerWindow, k);
    FourDecimalsStay(a.score);
    TwoStepsLeave(a, b, Power(p.decayPerWindow, k), left, p);
  }

  lemma TwoStepsLeave(a: Step, b: Step, decay: real, left: real, p: RiskPolicy)
    requires p.windowSeconds > 0.0 && p.velocityNormalizer > 0.0 && ValidRules(p.frequencyRules) && a.at <= b.at
    requires a.score >= 0.0 && Round4(a.score) == a.score && DecayBefore([a, b], 1, p) == decay && left == b.score + a.score * decay
    ensures RollupOf([a, b], p).Some?
    ensures RollupOf([a, b], p).value.velocityScore == Clamp01(Round4(Max(a.score, Round4(left)) / p.velocityNormalizer))
  {
    hide Round4, Clamp01, ByTime, FiredBoosts, DecayBefore, ValidRule, MomentumOf, Carry, Max, InOrder, RollupOf;
    TwoMomenta(a, b, p);
    CarryIs(b.score, a.score, decay, left);
    TwoInOrder(a, b);
    assert |[a, b]| == 2;
    VelocityIs([a, b], p, Max(a.score, Round4(left)));
  }

  lemma TwoInOrder(a: Step, b: Step)
    requires a.at <= b.at
    ensures InOrder([a, b])
  {
  }

  lemma TwoMomenta(a: Step, b: Step, p: RiskPolicy)
    requires p.windowSeconds > 0.0 && a.score >= 0.0 && Round4(a.score) == a.score
    ensures MomentumOf([a, b], 2, p).highest == Max(a.score, Carry(b.score, a.score, DecayBefore([a, b], 1, p)))
  {
    hide Round4, DecayBefore, Carry, MomentumOf;
    MomentumAfter([a, b], 1, p);
    MomentumAfter([a, b], 2, p);
    NoMomentum([a, b], p);
    CarryIs(a.score, 0.0, 1.0, a.score);
  }

  lemma VelocityIs(steps: seq<Step>, p: RiskPolicy, highest: real)
    requires p.windowSeconds > 0.0 && p.velocityNormalizer > 0.0 && ValidRules(p.frequencyRules) && steps != [] && InOrder(steps)
    requires MomentumOf(steps, |steps|, p).highest == highest
    ensures RollupOf(steps, p).Some?
         && RollupOf(steps, p).value.velocityScore == Clamp01(Round4(highest / p.velocityNormalizer))
  {
    hide Round4, Clamp01, ByTime, FiredBoosts, InOrder, ValidRule, MomentumOf;
    InOrderStays(steps);
  }

  lemma NoMomentum(ordered: seq<Step>, p: RiskPolicy)
    requires ordered != [] && p.windowSeconds > 0.0
    ensures MomentumOf(ordered, 0, p) == Momentum(0.0, 0.0, 0.0) && DecayBefore(ordered, 0, p) == 1.0
  {
  }

  lemma MomentumAfter(ordered: seq<Step>, n: nat, p: RiskPolicy)
    requires 0 < n <= |ordered| && p.windowSeconds > 0.0
    ensures var m, s := MomentumOf(ordered, n - 1, p), ordered[n - 1].score;
            var momentum := Carry(s, m.momentum, DecayBefore(ordered, n - 1, p));
            MomentumOf(ordered, n, p) == Momentum(Max(s, m.peak), momentum, Max(momentum, m.highest))
  {
    hide Carry, DecayBefore;
  }

  lemma CarryIs(score: real, momentum: real, decay: real, sum: real)
    requires sum == score + momentum * decay
    ensures Carry(score, momentum, decay) == Round4(sum)
  {
  }

  // ---------- Step scores ----------

  /** Without magnitudes a step scores its base times its factors. */
  lemma PlainStepScore(s: Signals, p: RiskPolicy, base: real, reversibility: real, criticality: real)
    requires PositiveK(p) && s.dataVolume == s.fanOut == s.referenceCount == 0
    requires base == match s.operation
                     case ReadOp => p.operationBase.read
                     case CreateOp => p.operationBase.create
                     case UpdateOp => p.operationBase.update
                     case ConfigOp => p.operationBase.config
                     case BulkOp => p.operationBase.bulk
                     case PermissionOp => p.operationBase.permission
                     case DeleteOp => p.operationBase.delete
                     case DestructiveOp => p.operationBase.destructive
    requires reversibility == match s.reversibility case Reversible => 0.6 case Recoverable => 1.0 case Irreversible => p.irreversible
    requires criticality == match s.criticality case Sandbox => 0.4 case Development => 0.6 case Staging => 0.8 case Production => p.production
    ensures ScoreSignals(s, p) == Clamp01(Round4(base * reversibility * criticality))
  {
    hide Round4, Boost;
    NoBoost(p, p.weights.dataVolume, p.k.dataVolume);
    NoBoost(p, p.weights.fanOut, p.k.fanOut);
    NoBoost(p, p.weights.referenceCount, p.k.referenceCount);
    assert Additive(s, p) == BaseOf(p.operationBase, s.operation) == base;
    assert ReversibilityFactor(p, s.reversibility) == reversibility && CriticalityFactor(p, s.criticality) == criticality;
    assert RawScore(s, p) == base * reversibility * criticality;
  }

  lemma NoBoost(p: RiskPolicy, weight: real, k: real)
    requires k > 0.0
    ensures Boost(p, weight, 0, k) == 0.0
  {
    assert RawBoost(p, weight, 0, k) == 0.0;
    Round4Zero();
  }

  /** A magnitude of `k` gives half of its weight's boost, and no magnitude gives more than all of it. */
  lemma BoostSaturates(p: RiskPolicy, weight: real, value: nat, k: real)
    requires k > 0.0 && weight >= 0.0 && p.maxBoost >= 0.0
    ensures Boost(p, weight, value, k) <= Round4(p.maxBoost * weight)
    ensures value as real == k ==> Boost(p, weight, value, k) == Round4(p.maxBoost * weight / 2.0)
  {
    hide Round4, Sat;
    var share, whole := Sat(value as real, k), p.maxBoost * weight;
    SatAtMostOne(value as real, k);
    ProductNonnegative(p.maxBoost, weight);
    ProductNonnegative(whole, 1.0 - share);
    assert whole * (1.0 - share) == whole - whole * share;
    Round4Mono(whole * share, whole);
    assert RawBoost(p, weight, value, k) == whole * share;
    if value as real == k {
      assert whole * share == whole / 2.0;
    }
  }

  lemma SatAtMostOne(value: real, k: real)
    requires value >= 0.0 && k > 0.0
    ensures 0.0 <= Sat(value, k) <= 1.0 && (value == k ==> Sat(value, k) == 0.5)
  {
    ShareAtMostOne(value, value + k);
    if value == k { HalfOfTwice(k); }
  }

  lemma ShareAtMostOne(value: real, whole: real)
    requires 0.0 <= value <= whole && whole > 0.0
    ensures 0.0 <= value / whole <= 1.0
  {
    var share := value / whole;
    assert share * whole == value;
    if share > 1.0 { ProductPositive(share - 1.0, whole); }
    if share < 0.0 { ProductPositive(-share, whole); }
  }

  lemma HalfOfTwice(k: real)
    requires k > 0.0
    ensures k / (k + k) == 0.5
  {
    var y := k + k;
    assert k == 0.5 * y;
    assert (0.5 * y) / y == 0.5;
  }
}
