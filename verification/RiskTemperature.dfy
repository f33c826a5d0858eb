/**
 The temperature knob end to end: a stricter temperature never lowers a step score, a velocity
 score, an episode score or a level, and every temperature gives a policy that passes the
 structural check. Frequency rules never lower an episode score either.
 */
module RiskTemperature {
  import opened Wrappers
  import opened RiskScoring

  // ---------- Arithmetic ----------

  lemma FloorMono(a: real, b: real)
    requires a <= b
    ensures a.Floor <= b.Floor
  {
  }

  lemma Round4Mono(a: real, b: real)
    requires a <= b
    ensures Round4(a) <= Round4(b)
  {
    FloorMono(a * 10000.0 + 0.5, b * 10000.0 + 0.5);
  }

  lemma Round4Near(v: real)
    ensures v - 0.00005 <= Round4(v) <= v + 0.00005
  {
    var n := (v * 10000.0 + 0.5).Floor as real;
    assert n <= v * 10000.0 + 0.5 < n + 1.0;
  }

  lemma Round4Keeps(v: real, least: real)
    requires v >= least && Round4(least) == least
    ensures Round4(v) >= least
  {
    hide Round4;
    Round4Mono(least, v);
  }

  lemma Round4Zero()
    ensures Round4(0.0) == 0.0
  {
  }

  lemma ScoreMono(a: real, b: real)
    requires a <= b
    ensures Clamp01(Round4(a)) <= Clamp01(Round4(b))
  {
    hide Round4;
    Round4Mono(a, b);
  }

  lemma ProductMono(a: real, b: real, c: real, d: real)
    requires 0.0 <= a <= b && 0.0 <= c <= d
    ensures 0.0 <= a * c <= b * d
  {
    assert a * c <= b * c <= b * d;
  }

  lemma ProductNonnegative(x: real, y: real)
    requires x >= 0.0 && y >= 0.0
    ensures x * y >= 0.0
  {
  }

  lemma FactorNonnegative(x: real, d: real)
    requires d > 0.0 && x * d >= 0.0
    ensures x >= 0.0
  {
    assert x == (x * d) / d;
  }

  lemma QuotientMono(a: real, b: real, c: real, d: real)
    requires 0.0 <= a <= b && 0.0 < d <= c
    ensures a / c <= b / d
  {
    var q, r := a / c, b / d;
    assert q * c == a && r * d == b && q >= 0.0;
    ProductNonnegative(q, c - d);
    assert (r - q) * d == b - a + q * (c - d);
    FactorNonnegative(r - q, d);
  }

  lemma {:induction false} PowerMono(a: real, b: real, n: nat)
    requires 0.0 <= a <= b
    ensures 0.0 <= Power(a, n) <= Power(b, n)
  {
    if n > 0 {
      PowerMono(a, b, n - 1);
      ProductMono(Power(a, n - 1), Power(b, n - 1), a, b);
    }
  }

  // ---------- The knob ----------

  /** Interpolation before rounding. */
  function RawLerp(lenient: real, reference: real, strict: real, t: real): real {
    if t <= 0.5 then Mix(lenient, reference, t / 0.5) else Mix(reference, strict, (t - 0.5) / 0.5)
  }

  lemma LerpRounds(lenient: real, reference: real, strict: real, t: real)
    ensures Lerp(lenient, reference, strict, t) == Round4(RawLerp(lenient, reference, strict, t))
  {
    hide Round4, Mix;
  }

  lemma MixRises(from: real, to: real, x: real, y: real)
    requires from <= to && 0.0 <= x <= y <= 1.0
    ensures from <= Mix(from, to, x) <= Mix(from, to, y) <= to
  {
    ProductNonnegative(to - from, x);
    ProductNonnegative(to - from, y - x);
    ProductNonnegative(to - from, 1.0 - y);
  }

  lemma RawLerpRises(lenient: real, reference: real, strict: real, t: real, u: real)
    requires lenient <= reference <= strict && 0.0 <= t <= u <= 1.0
    ensures lenient <= RawLerp(lenient, reference, strict, t) <= RawLerp(lenient, reference, strict, u) <= strict
  {
    hide Mix;
    if u <= 0.5 {
      MixRises(lenient, reference, t / 0.5, u / 0.5);
    } else if t > 0.5 {
      MixRises(reference, strict, (t - 0.5) / 0.5, (u - 0.5) / 0.5);
    } else {
      MixRises(lenient, reference, t / 0.5, 1.0);
      MixRises(reference, strict, 0.0, (u - 0.5) / 0.5);
    }
  }

  /** A knob whose strict end is higher rises with the temperature. */
  lemma LerpRises(lenient: real, reference: real, strict: real, t: real, u: real)
    requires lenient <= reference <= strict && 0.0 <= t <= u <= 1.0
    ensures Lerp(lenient, reference, strict, t) <= Lerp(lenient, reference, strict, u)
    ensures lenient - 0.00005 <= Lerp(lenient, reference, strict, t) && Lerp(lenient, reference, strict, u) <= strict + 0.00005
  {
    hide Round4, RawLerp;
    LerpRounds(lenient, reference, strict, t);
    LerpRounds(lenient, reference, strict, u);
    RawLerpRises(lenient, reference, strict, t, u);
    Round4Mono(RawLerp(lenient, reference, strict, t), RawLerp(lenient, reference, strict, u));
    Round4Near(RawLerp(lenient, reference, strict, t));
    Round4Near(RawLerp(lenient, reference, strict, u));
  }

  lemma RawLerpFalls(lenient: real, reference: real, strict: real, t: real, u: real)
    requires lenient >= reference >= strict && 0.0 <= t <= u <= 1.0
    ensures lenient >= RawLerp(lenient, reference, strict, t) >= RawLerp(lenient, reference, strict, u) >= strict
  {
    RawLerpRises(-lenient, -reference, -strict, t, u);
    RawLerpNegates(lenient, reference, strict, t);
    RawLerpNegates(lenient, reference, strict, u);
  }

  lemma MixNegates(from: real, to: real, x: real)
    ensures Mix(-from, -to, x) == -Mix(from, to, x)
  {
    assert (-to - -from) * x == -((to - from) * x);
  }

  lemma RawLerpNegates(lenient: real, reference: real, strict: real, t: real)
    ensures RawLerp(-lenient, -reference, -strict, t) == -RawLerp(lenient, reference, strict, t)
  {
    hide Mix;
    MixNegates(lenient, reference, t / 0.5);
    MixNegates(reference, strict, (t - 0.5) / 0.5);
  }

  /** A knob whose strict end is lower falls with the temperature. */
  lemma LerpFalls(lenient: real, reference: real, strict: real, t: real, u: real)
    requires lenient >= reference >= strict && 0.0 <= t <= u <= 1.0
    ensures Lerp(lenient, reference, strict, t) >= Lerp(lenient, reference, strict, u)
    ensures lenient + 0.00005 >= Lerp(lenient, reference, strict, t) && Lerp(lenient, reference, strict, u) >= strict - 0.00005
  {
    hide Round4, RawLerp;
    LerpRounds(lenient, reference, strict, t);
    LerpRounds(lenient, reference, strict, u);
    RawLerpFalls(lenient, reference, strict, t, u);
    Round4Mono(RawLerp(lenient, reference, strict, u), RawLerp(lenient, reference, strict, t));
    Round4Near(RawLerp(lenient, reference, strict, t));
    Round4Near(RawLerp(lenient, reference, strict, u));
  }

  /** `q` is at least as strict as `p` in every knob. */
  predicate Stricter(p: RiskPolicy, q: RiskPolicy) {
    && q == p.(temperature := q.temperature, bands := q.bands, decayPerWindow := q.decayPerWindow,
               velocityNormalizer := q.velocityNormalizer, maxBoost := q.maxBoost, irreversible := q.irreversible,
               production := q.production)
    && q.bands.low <= p.bands.low && q.bands.medium <= p.bands.medium
    && q.bands.high <= p.bands.high && q.bands.critical <= p.bands.critical
    && 0.0 <= p.decayPerWindow <= q.decayPerWindow
    && 0.0 < q.velocityNormalizer <= p.velocityNormalizer
    && 0.0 <= p.maxBoost <= q.maxBoost
    && 0.0 < p.irreversible <= q.irreversible
    && 0.0 < p.production <= q.production
  }

  lemma DerivedStricter(t: real, u: real, g: int, h: int)
    requires 0.0 <= t <= u <= 1.0
    ensures Stricter(Derived(t, g), Derived(u, h))
  {
    hide Lerp;
    LerpFalls(0.1, 0.05, 0.02, t, u);
    LerpFalls(0.35, 0.25, 0.18, t, u);
    LerpFalls(0.6, 0.5, 0.4, t, u);
    LerpFalls(0.85, 0.75, 0.65, t, u);
    LerpRises(0.3, 0.5, 0.7, t, u);
    LerpFalls(4.0, 3.0, 2.0, t, u);
    LerpRises(0.25, 0.4, 0.6, t, u);
    LerpRises(1.15, 1.3, 1.6, t, u);
    LerpRises(0.9, 1.0, 1.2, t, u);
  }

  /** Bands stay strictly ascending after rounding: the raw knobs are further apart than it moves them. */
  lemma BandsApart(a: real, b: real, c: real, d: real, e: real, f: real, t: real)
    requires 0.0 <= t <= 1.0 && a + 0.001 <= d && b + 0.001 <= e && c + 0.001 <= f
    ensures Lerp(a, b, c, t) < Lerp(d, e, f, t)
  {
    hide Round4, Mix;
    LerpRounds(a, b, c, t);
    LerpRounds(d, e, f, t);
    if t <= 0.5 {
      MixApart(a, b, d, e, t / 0.5);
    } else {
      MixApart(b, c, e, f, (t - 0.5) / 0.5);
    }
    Round4Near(RawLerp(a, b, c, t));
    Round4Near(RawLerp(d, e, f, t));
  }

  lemma MixApart(a: real, b: real, d: real, e: real, x: real)
    requires 0.0 <= x <= 1.0 && a + 0.001 <= d && b + 0.001 <= e
    ensures Mix(a, b, x) + 0.001 <= Mix(d, e, x)
  {
    var p, q := d - a - 0.001, e - b - 0.001;
    ProductNonnegative(p, 1.0 - x);
    ProductNonnegative(q, x);
    assert Mix(d, e, x) - Mix(a, b, x) - 0.001 == p * (1.0 - x) + q * x;
  }

  lemma Round4Exact(n: int)
    ensures Round4(n as real / 10000.0) == n as real / 10000.0
  {
    FloorOfHalf(n, (n as real / 10000.0) * 10000.0 + 0.5);
  }

  lemma FloorOfHalf(n: int, x: real)
    requires x == n as real + 0.5
    ensures x.Floor == n
  {
  }

  /** In the middle of its range a knob is exactly its reference value, when that has four decimals. */
  lemma LerpAtHalf(lenient: real, reference: real, strict: real, n: int)
    requires reference == n as real / 10000.0
    ensures Lerp(lenient, reference, strict, 0.5) == reference
  {
    hide Round4;
    Round4Exact(n);
    assert Mix(lenient, reference, 1.0) == reference;
  }

  /** The middle temperature is the reference policy. */
  lemma HalfIsReference(h: int)
    ensures Derived(0.5, h) == ReferencePolicy().(temperature := Some(h))
  {
    hide Lerp;
    LerpAtHalf(0.1, 0.05, 0.02, 500);
    LerpAtHalf(0.35, 0.25, 0.18, 2500);
    LerpAtHalf(0.6, 0.5, 0.4, 5000);
    LerpAtHalf(0.85, 0.75, 0.65, 7500);
    LerpAtHalf(0.3, 0.5, 0.7, 5000);
    LerpAtHalf(4.0, 3.0, 2.0, 30000);
    LerpAtHalf(0.25, 0.4, 0.6, 4000);
    LerpAtHalf(1.15, 1.3, 1.6, 13000);
    LerpAtHalf(0.9, 1.0, 1.2, 10000);
  }

  /** Every temperature the knob accepts, and no temperature at all, gives a sound policy. */
  lemma TemperaturePoliciesAreSound(t: real, h: int)
    requires 0.0 <= t <= 1.0
    ensures SoundPolicy(Derived(t, h)) && SoundPolicy(ReferencePolicy())
    ensures PositiveK(Derived(t, h))
  {
    hide Lerp;
    DerivedStricter(t, t, h, h);
    BandsApart(0.1, 0.05, 0.02, 0.35, 0.25, 0.18, t);
    BandsApart(0.35, 0.25, 0.18, 0.6, 0.5, 0.4, t);
    BandsApart(0.6, 0.5, 0.4, 0.85, 0.75, 0.65, t);
  }

  /** Derives a policy by rescaling the knobs of a copy of the reference policy. */
  method DerivePolicy(t: Option<real>) returns (p: Option<RiskPolicy>)
    ensures p == TemperaturePolicy(t)
    ensures p.Some? ==> SoundPolicy(p.value) && PositiveK(p.value)
  {
    hide Lerp;
    var derived := ReferencePolicy();
    if t.Some? {
      var hundredths := Hundredths(t.value);
      if hundredths.None? { return None; }
      TemperaturePoliciesAreSound(t.value, hundredths.value);
      derived := derived.(temperature := hundredths);
      derived := derived.(bands := Bands(
        Lerp(0.1, 0.05, 0.02, t.value), Lerp(0.35, 0.25, 0.18, t.value),
        Lerp(0.6, 0.5, 0.4, t.value), Lerp(0.85, 0.75, 0.65, t.value)));
      derived := derived.(decayPerWindow := Lerp(0.3, 0.5, 0.7, t.value));
      derived := derived.(velocityNormalizer := Lerp(4.0, 3.0, 2.0, t.value));
      derived := derived.(maxBoost := Lerp(0.25, 0.4, 0.6, t.value));
      derived := derived.(irreversible := Lerp(1.15, 1.3, 1.6, t.value));
      derived := derived.(production := Lerp(0.9, 1.0, 1.2, t.value));
    }
    if !SoundPolicy(derived) { return None; }
    return Some(derived);
  }

  /** The knob refuses exactly the temperatures that are no hundredth in range. */
  lemma KnobAcceptsHundredths(t: real)
    ensures TemperaturePolicy(Some(t)).Some? <==> Hundredths(t).Some?
  {
    hide SoundPolicy, Derived, ReferencePolicy;
    if Hundredths(t).Some? {
      TemperaturePoliciesAreSound(t, Hundredths(t).value);
    }
  }

  // ---------- Steps ----------

  lemma BandsRise(score: real, score': real, b: Bands, b': Bands)
    requires score <= score' && b'.low <= b.low && b'.medium <= b.medium && b'.high <= b.high && b'.critical <= b.critical
    requires b.low < b.medium < b.high < b.critical && b'.low < b'.medium < b'.high < b'.critical
    ensures Rank(BandOf(score, b)) <= Rank(BandOf(score', b'))
  {
  }

  lemma RawBoostRises(p: RiskPolicy, q: RiskPolicy, weight: real, value: nat, k: real)
    requires 0.0 <= p.maxBoost <= q.maxBoost && weight >= 0.0 && k > 0.0
    ensures 0.0 <= RawBoost(p, weight, value, k) <= RawBoost(q, weight, value, k)
  {
    hide Sat;
    SatNonnegative(value, k);
    var s := Sat(value as real, k);
    ProductMono(p.maxBoost, q.maxBoost, weight, weight);
    ProductMono(p.maxBoost * weight, q.maxBoost * weight, s, s);
  }

  lemma BoostRises(p: RiskPolicy, q: RiskPolicy, weight: real, value: nat, k: real)
    requires 0.0 <= p.maxBoost <= q.maxBoost && weight >= 0.0 && k > 0.0
    ensures 0.0 <= Boost(p, weight, value, k) <= Boost(q, weight, value, k)
  {
    hide Round4, RawBoost;
    RawBoostRises(p, q, weight, value, k);
    Round4Mono(RawBoost(p, weight, value, k), RawBoost(q, weight, value, k));
    Round4Zero();
    Round4Keeps(RawBoost(p, weight, value, k), 0.0);
  }

  lemma SatNonnegative(value: nat, k: real)
    requires k > 0.0
    ensures 0.0 <= Sat(value as real, k)
  {
  }

  predicate Scorable(p: RiskPolicy) {
    && PositiveK(p) && p.weights.dataVolume >= 0.0 && p.weights.fanOut >= 0.0 && p.weights.referenceCount >= 0.0
    && forall op :: BaseOf(p.operationBase, op) >= 0.0
  }

  lemma FactorsRise(p: RiskPolicy, q: RiskPolicy, r: Reversibility, c: Criticality)
    requires Stricter(p, q)
    ensures 0.0 <= ReversibilityFactor(p, r) <= ReversibilityFactor(q, r)
    ensures 0.0 <= CriticalityFactor(p, c) <= CriticalityFactor(q, c)
  {
  }

  lemma AdditiveRises(s: Signals, p: RiskPolicy, q: RiskPolicy)
    requires Stricter(p, q) && Scorable(p)
    ensures 0.0 <= Additive(s, p) <= Additive(s, q)
  {
    hide Boost;
    BoostRises(p, q, p.weights.dataVolume, s.dataVolume, p.k.dataVolume);
    BoostRises(p, q, p.weights.fanOut, s.fanOut, p.k.fanOut);
    BoostRises(p, q, p.weights.referenceCount, s.referenceCount, p.k.referenceCount);
    assert BaseOf(p.operationBase, s.operation) >= 0.0;
  }

  lemma RawScoreRises(s: Signals, p: RiskPolicy, q: RiskPolicy)
    requires Stricter(p, q) && Scorable(p)
    ensures RawScore(s, p) <= RawScore(s, q)
  {
    hide Additive, ReversibilityFactor, CriticalityFactor;
    AdditiveRises(s, p, q);
    FactorsRise(p, q, s.reversibility, s.criticality);
    var a, b, f, g := Additive(s, p), Additive(s, q), ReversibilityFactor(p, s.reversibility), ReversibilityFactor(q, s.reversibility);
    ProductMono(a, b, f, g);
    ProductMono(a * f, b * g, CriticalityFactor(p, s.criticality), CriticalityFactor(q, s.criticality));
  }

  /** A stricter policy never scores a step lower. */
  lemma StepScoreRises(s: Signals, p: RiskPolicy, q: RiskPolicy)
    requires Stricter(p, q) && Scorable(p)
    ensures 0.0 <= ScoreSignals(s, p) <= ScoreSignals(s, q)
  {
    hide Round4, RawScore;
    RawScoreRises(s, p, q);
    ScoreMono(RawScore(s, p), RawScore(s, q));
  }

  lemma SatMono(x: real, y: real, k: real)
    requires 0.0 <= x <= y && k > 0.0
    ensures 0.0 <= Sat(x, k) <= Sat(y, k)
  {
    var p, q, a, b := x / (x + k), y / (y + k), x + k, y + k;
    assert p * a == x && q * b == y;
    ProductNonnegative(k, y - x);
    SameDifference(p, q, a, b);
    assert (q - p) * (a * b) == y * a - x * b == k * (y - x);
    ProductPositive(a, b);
    FactorNonnegative(q - p, a * b);
  }

  lemma SameDifference(p: real, q: real, a: real, b: real)
    ensures (q - p) * (a * b) == (q * b) * a - (p * a) * b
  {
  }

  lemma ProductPositive(x: real, y: real)
    requires x > 0.0 && y > 0.0
    ensures x * y > 0.0
  {
  }

  lemma BoostGrows(p: RiskPolicy, weight: real, value: nat, more: nat, k: real)
    requires 0.0 <= p.maxBoost && weight >= 0.0 && k > 0.0 && value <= more
    ensures 0.0 <= Boost(p, weight, value, k) <= Boost(p, weight, more, k)
  {
    hide Round4, Sat;
    SatMono(value as real, more as real, k);
    ProductNonnegative(p.maxBoost, weight);
    ProductMono(p.maxBoost * weight, p.maxBoost * weight, Sat(value as real, k), Sat(more as real, k));
    Round4Mono(RawBoost(p, weight, value, k), RawBoost(p, weight, more, k));
    Round4Zero();
    Round4Keeps(RawBoost(p, weight, value, k), 0.0);
  }

  /** Larger magnitudes never lower a step score. */
  lemma MagnitudesRaise(s: Signals, t: Signals, p: RiskPolicy)
    requires Scorable(p) && p.maxBoost >= 0.0 && p.irreversible >= 0.0 && p.production >= 0.0
    requires t == s.(dataVolume := t.dataVolume, fanOut := t.fanOut, referenceCount := t.referenceCount)
    requires s.dataVolume <= t.dataVolume && s.fanOut <= t.fanOut && s.referenceCount <= t.referenceCount
    ensures 0.0 <= ScoreSignals(s, p) <= ScoreSignals(t, p) <= 1.0
  {
    hide Round4, Boost;
    BoostGrows(p, p.weights.dataVolume, s.dataVolume, t.dataVolume, p.k.dataVolume);
    BoostGrows(p, p.weights.fanOut, s.fanOut, t.fanOut, p.k.fanOut);
    BoostGrows(p, p.weights.referenceCount, s.referenceCount, t.referenceCount, p.k.referenceCount);
    assert BaseOf(p.operationBase, s.operation) >= 0.0;
    var a, b, f, g := Additive(s, p), Additive(t, p), ReversibilityFactor(p, s.reversibility), CriticalityFactor(p, s.criticality);
    assert 0.0 <= a <= b && f >= 0.0 && g >= 0.0;
    ProductMono(a, b, f, f);
    ProductMono(a * f, b * f, g, g);
    ScoreMono(RawScore(s, p), RawScore(t, p));
  }

  // ---------- Episodes ----------

  /** An episode of signals, scored by a policy. */
  datatype Observed = Observed(at: int, signals: Signals, action: string)

  function Scored(episode: seq<Observed>, p: RiskPolicy): seq<Step>
    requires PositiveK(p)
  {
    seq(|episode|, i requires 0 <= i < |episode| => Step(episode[i].at, ScoreSignals(episode[i].signals, p), episode[i].action))
  }

  predicate ScoresNoLower(a: Step, b: Step) {
    a.at == b.at && a.action == b.action && 0.0 <= a.score <= b.score
  }

  /** The same steps at the same times, scored no lower. */
  predicate NoLower(a: seq<Step>, b: seq<Step>) {
    |a| == |b| && forall i | 0 <= i < |a| :: ScoresNoLower(a[i], b[i])
  }

  lemma {:induction false} PlaceNoLower(a: seq<Step>, b: seq<Step>, s: Step, t: Step)
    requires NoLower(a, b) && ScoresNoLower(s, t)
    ensures NoLower(Place(a, s), Place(b, t))
    decreases |a|
  {
    if a != [] {
      var n := |a| - 1;
      assert ScoresNoLower(a[n], b[n]);
      if a[n].at > s.at {
        assert NoLower(a[..n], b[..n]);
        PlaceNoLower(a[..n], b[..n], s, t);
      }
    }
  }

  lemma {:induction false} SortNoLower(a: seq<Step>, b: seq<Step>)
    requires NoLower(a, b)
    ensures NoLower(ByTime(a), ByTime(b)) && |ByTime(a)| == |a|
    decreases |a|
  {
    if a != [] {
      var n := |a| - 1;
      SortNoLower(a[..n], b[..n]);
      PlaceNoLower(ByTime(a[..n]), ByTime(b[..n]), a[n], b[n]);
      PlaceAddsOne(ByTime(a[..n]), a[n]);
    }
  }

  lemma {:induction false} PlaceAddsOne(ordered: seq<Step>, s: Step)
    ensures |Place(ordered, s)| == |ordered| + 1
    decreases |ordered|
  {
    if ordered != [] && ordered[|ordered| - 1].at > s.at {
      PlaceAddsOne(ordered[..|ordered| - 1], s);
    }
  }

  lemma DecayRises(a: seq<Step>, b: seq<Step>, i: nat, p: RiskPolicy, q: RiskPolicy)
    requires NoLower(a, b) && i < |a| && Stricter(p, q) && p.windowSeconds > 0.0
    ensures 0.0 <= DecayBefore(a, i, p) <= DecayBefore(b, i, q)
  {
    hide Windows, Power;
    assert ScoresNoLower(a[i], b[i]);
    if i > 0 {
      assert ScoresNoLower(a[i - 1], b[i - 1]);
      PowerMono(p.decayPerWindow, q.decayPerWindow, Windows(a[i - 1].at, a[i].at, p.windowSeconds));
    }
  }

  lemma CarryRises(s: real, t: real, m: real, n: real, d: real, e: real)
    requires 0.0 <= s <= t && 0.0 <= m <= n && 0.0 <= d <= e
    ensures 0.0 <= Carry(s, m, d) <= Carry(t, n, e)
  {
    hide Round4;
    ProductMono(m, n, d, e);
    Round4Mono(s + m * d, t + n * e);
    Round4Zero();
    Round4Keeps(s + m * d, 0.0);
  }

  lemma {:induction false} MomentumRises(a: seq<Step>, b: seq<Step>, n: nat, p: RiskPolicy, q: RiskPolicy)
    requires NoLower(a, b) && n <= |a| && Stricter(p, q) && p.windowSeconds > 0.0
    ensures var x, y := MomentumOf(a, n, p), MomentumOf(b, n, q);
            && 0.0 <= x.peak <= y.peak && 0.0 <= x.momentum <= y.momentum && 0.0 <= x.highest <= y.highest
    decreases n
  {
    hide Carry, DecayBefore;
    if n > 0 {
      MomentumRises(a, b, n - 1, p, q);
      assert ScoresNoLower(a[n - 1], b[n - 1]);
      DecayRises(a, b, n - 1, p, q);
      CarryRises(a[n - 1].score, b[n - 1].score, MomentumOf(a, n - 1, p).momentum, MomentumOf(b, n - 1, q).momentum,
                 DecayBefore(a, n - 1, p), DecayBefore(b, n - 1, q));
    }
  }

  lemma {:induction false} MatchingSame(a: seq<Step>, b: seq<Step>, r: FrequencyRule)
    requires NoLower(a, b)
    ensures Matching(a, r) == Matching(b, r)
    decreases |a|
  {
    if a != [] {
      var n := |a| - 1;
      assert ScoresNoLower(a[n], b[n]);
      MatchingSame(a[..n], b[..n], r);
    }
  }

  lemma {:induction false} BoostsSame(a: seq<Step>, b: seq<Step>, rules: seq<FrequencyRule>)
    requires NoLower(a, b)
    ensures FiredBoosts(rules, a) == FiredBoosts(rules, b)
    decreases |rules|
  {
    hide SomeWindowReaches, NoLower, Matching;
    if rules != [] {
      BoostsSame(a, b, rules[..|rules| - 1]);
      MatchingSame(a, b, rules[|rules| - 1]);
    }
  }

  lemma VelocityRises(a: seq<Step>, b: seq<Step>, p: RiskPolicy, q: RiskPolicy)
    requires NoLower(a, b) && Stricter(p, q) && p.windowSeconds > 0.0
    ensures VelocityScore(a, p) <= VelocityScore(b, q)
  {
    hide Round4, MomentumOf;
    MomentumRises(a, b, |a|, p, q);
    var x, y := MomentumOf(a, |a|, p).highest, MomentumOf(b, |b|, q).highest;
    QuotientMono(x, y, p.velocityNormalizer, q.velocityNormalizer);
    ScoreMono(x / p.velocityNormalizer, y / q.velocityNormalizer);
  }

  predicate RollupNoLower(r: Rollup, s: Rollup) {
    && r.peak <= s.peak && r.velocityScore <= s.velocityScore && r.score <= s.score
    && Rank(r.level) <= Rank(s.level)
  }

  lemma RollupRises(a: seq<Step>, b: seq<Step>, p: RiskPolicy, q: RiskPolicy)
    requires NoLower(a, b) && Stricter(p, q) && SoundPolicy(p) && SoundPolicy(q)
    ensures RollupOf(a, p).Some? <==> RollupOf(b, q).Some?
    ensures RollupOf(a, p).Some? ==> RollupNoLower(RollupOf(a, p).value, RollupOf(b, q).value)
  {
    hide Round4, MomentumOf, VelocityScore, ByTime, FiredBoosts, NoLower, ValidRule;
    SortNoLower(a, b);
    SameLength(a, b);
    var x, y := ByTime(a), ByTime(b);
    SameLength(x, y);
    MomentumRises(x, y, |x|, p, q);
    VelocityRises(x, y, p, q);
    BoostsSame(x, y, p.frequencyRules);
    if RollupOf(a, p).Some? && a != [] {
      RollupScoreRises(MomentumOf(x, |x|, p).peak, MomentumOf(y, |y|, q).peak, VelocityScore(x, p), VelocityScore(y, q),
                       FrequencyScore(p.frequencyRules, x));
      BandsRise(RollupOf(a, p).value.score, RollupOf(b, q).value.score, p.bands, q.bands);
    } else {
      BandsRise(0.0, 0.0, p.bands, q.bands);
    }
  }

  lemma SameLength(a: seq<Step>, b: seq<Step>)
    requires NoLower(a, b)
    ensures |a| == |b|
  {
  }

  lemma RollupScoreRises(peak: real, peak': real, velocity: real, velocity': real, frequency: real)
    requires peak <= peak' && velocity <= velocity'
    ensures Clamp01(Round4(Max(peak, velocity))) <= Clamp01(Round4(Max(peak', velocity')))
    ensures Clamp01(Round4(Max(Max(peak, velocity), frequency))) <= Clamp01(Round4(Max(Max(peak', velocity'), frequency)))
  {
    hide Round4;
    ScoreMono(Max(peak, velocity), Max(peak', velocity'));
    ScoreMono(Max(Max(peak, velocity), frequency), Max(Max(peak', velocity'), frequency));
  }

  lemma DerivedScorable(t: real, h: int)
    ensures Scorable(Derived(t, h))
  {
    hide Lerp;
    forall op ensures BaseOf(Derived(t, h).operationBase, op) >= 0.0 {
      match op
      case _ =>
    }
  }

  /**
   Turning the temperature up never lowers the score of a step, nor the velocity, peak, score or
   level of an episode.
   */
  lemma HotterIsStricter(episode: seq<Observed>, t: real, u: real, p: RiskPolicy, q: RiskPolicy)
    requires t <= u && TemperaturePolicy(Some(t)) == Some(p) && TemperaturePolicy(Some(u)) == Some(q)
    ensures SoundPolicy(p) && SoundPolicy(q) && PositiveK(p) && PositiveK(q)
    ensures NoLower(Scored(episode, p), Scored(episode, q))
    ensures RollupOf(Scored(episode, p), p).Some? && RollupOf(Scored(episode, q), q).Some?
    ensures RollupNoLower(RollupOf(Scored(episode, p), p).value, RollupOf(Scored(episode, q), q).value)
  {
    hide Derived, SoundPolicy, Stricter, Scorable, ScoreSignals, RollupNoLower;
    var g, h := Hundredths(t).value, Hundredths(u).value;
    TemperaturePoliciesAreSound(t, g);
    TemperaturePoliciesAreSound(u, h);
    DerivedStricter(t, u, g, h);
    DerivedScorable(t, g);
    EpisodeScoresRise(episode, p, q);
    NoRulesByDefault(t, g);
    RollupRises(Scored(episode, p), Scored(episode, q), p, q);
  }

  lemma NoRulesByDefault(t: real, h: int)
    ensures Derived(t, h).frequencyRules == []
  {
  }

  lemma EpisodeScoresRise(episode: seq<Observed>, p: RiskPolicy, q: RiskPolicy)
    requires Stricter(p, q) && Scorable(p) && PositiveK(q)
    ensures PositiveK(p) && NoLower(Scored(episode, p), Scored(episode, q))
  {
    hide Stricter, ScoreSignals;
    var a, b := Scored(episode, p), Scored(episode, q);
    forall i | 0 <= i < |a| ensures ScoresNoLower(a[i], b[i]) {
      StepScoreRises(episode[i].signals, p, q);
    }
  }

  // ---------- Frequency rules only raise ----------

  lemma {:induction false} BoostsOfMore(rules: seq<FrequencyRule>, more: seq<FrequencyRule>, ordered: seq<Step>)
    requires ValidRules(rules + more)
    ensures 0.0 <= FiredBoosts(rules, ordered) <= FiredBoosts(rules + more, ordered)
    decreases |rules| + |more|
  {
    hide Fires;
    var all := rules + more;
    if more != [] {
      assert all[..|all| - 1] == rules + more[..|more| - 1];
      assert ValidRule(all[|all| - 1]);
      assert ValidRules(all[..|all| - 1]);
      BoostsOfMore(rules, more[..|more| - 1], ordered);
    } else if rules != [] {
      assert all == rules;
      assert ValidRule(rules[|rules| - 1]);
      var front := rules[..|rules| - 1];
      assert front + [] == front;
      BoostsOfMore(front, [], ordered);
    } else {
      assert all == [];
    }
  }

  /** Adding frequency rules to a policy never lowers an episode's score or level. */
  lemma RulesOnlyRaise(steps: seq<Step>, p: RiskPolicy, more: seq<FrequencyRule>)
    requires SoundPolicy(p) && ValidRules(p.frequencyRules + more)
    ensures var q := p.(frequencyRules := p.frequencyRules + more);
            && RollupOf(steps, p).Some? && RollupOf(steps, q).Some?
            && RollupOf(steps, p).value.score <= RollupOf(steps, q).value.score
            && Rank(RollupOf(steps, p).value.level) <= Rank(RollupOf(steps, q).value.level)
  {
    hide Round4, MomentumOf, ByTime, FiredBoosts, ValidRule;
    var q, ordered := p.(frequencyRules := p.frequencyRules + more), ByTime(steps);
    BoostsOfMore(p.frequencyRules, more, ordered);
    ScoreMono(FiredBoosts(p.frequencyRules, ordered), FiredBoosts(q.frequencyRules, ordered));
    assert ValidRules(p.frequencyRules) by {
      forall i | 0 <= i < |p.frequencyRules| ensures ValidRule(p.frequencyRules[i]) {
        assert (p.frequencyRules + more)[i] == p.frequencyRules[i];
      }
    }
    SameMomentum(ordered, |ordered|, p, q);
    if steps != [] {
      var peak, velocity := MomentumOf(ordered, |ordered|, p).peak, VelocityScore(ordered, p);
      var f, g := FrequencyScore(p.frequencyRules, ordered), FrequencyScore(q.frequencyRules, ordered);
      ScoreMono(Max(Max(peak, velocity), f), Max(Max(peak, velocity), g));
      ScoreMono(Max(peak, velocity), Max(Max(peak, velocity), g));
      BandsRise(RollupOf(steps, p).value.score, RollupOf(steps, q).value.score, p.bands, p.bands);
    }
  }

  lemma {:induction false} SameMomentum(ordered: seq<Step>, n: nat, p: RiskPolicy, q: RiskPolicy)
    requires n <= |ordered| && p.windowSeconds > 0.0 && q == p.(frequencyRules := q.frequencyRules)
    ensures MomentumOf(ordered, n, p) == MomentumOf(ordered, n, q)
    decreases n
  {
    hide Carry, Windows, Power;
    if n > 0 {
      SameMomentum(ordered, n - 1, p, q);
    }
  }
}
