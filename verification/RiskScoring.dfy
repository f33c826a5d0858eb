/**
 Risk scores over the reals: single steps, episodes with momentum and frequency rules, and the
 temperature knob that derives a policy.
 */
module RiskScoring {
  import opened Wrappers

  datatype OperationType = ReadOp | CreateOp | UpdateOp | ConfigOp | BulkOp | PermissionOp | DeleteOp | DestructiveOp
  datatype Reversibility = Reversible | Recoverable | Irreversible
  datatype Criticality = Sandbox | Development | Staging | Production

  /** Normalized signals: enumerations in range and integer magnitudes. */
  datatype Signals = Signals(operation: OperationType, reversibility: Reversibility, criticality: Criticality,
                             dataVolume: nat, fanOut: nat, referenceCount: nat)

  datatype Components = Components(dataVolume: real, fanOut: real, referenceCount: real)

  datatype Bands = Bands(low: real, medium: real, high: real, critical: real)

  datatype FrequencyRule = FrequencyRule(actions: seq<string>, windowSeconds: real, threshold: int, boost: real)

  datatype OperationBases = OperationBases(
    read: real, create: real, update: real, config: real, bulk: real, permission: real, delete: real, destructive: real)

  datatype RiskPolicy = RiskPolicy(
    temperature: Option<int>,
    operationBase: OperationBases,
    irreversible: real,
    production: real,
    maxBoost: real,
    weights: Components,
    k: Components,
    bands: Bands,
    windowSeconds: real,
    decayPerWindow: real,
    velocityNormalizer: real,
    frequencyRules: seq<FrequencyRule>)

  datatype Level = NoRisk | Low | Medium | High | Critical

  // ---------- Arithmetic ----------

  function Clamp01(v: real): real {
    if v < 0.0 then 0.0 else if v > 1.0 then 1.0 else v
  }

  /** Rounds half up to four decimals. */
  function Round4(v: real): real {
    (v * 10000.0 + 0.5).Floor as real / 10000.0
  }

  function Sat(value: real, k: real): real
    requires value + k != 0.0
  {
    value / (value + k)
  }

  function Max(a: real, b: real): real {
    if a > b then a else b
  }

  function BandOf(score: real, b: Bands): Level {
    if score < b.low then NoRisk
    else if score < b.medium then Low
    else if score < b.high then Medium
    else if score < b.critical then High
    else Critical
  }

  function Rank(l: Level): nat {
    match l case NoRisk => 0 case Low => 1 case Medium => 2 case High => 3 case Critical => 4
  }

  // ---------- Policies ----------

  function BaseOf(b: OperationBases, op: OperationType): real {
    match op
    case ReadOp => b.read
    case CreateOp => b.create
    case UpdateOp => b.update
    case ConfigOp => b.config
    case BulkOp => b.bulk
    case PermissionOp => b.permission
    case DeleteOp => b.delete
    case DestructiveOp => b.destructive
  }

  function ReversibilityFactor(p: RiskPolicy, r: Reversibility): real {
    match r case Reversible => 0.6 case Recoverable => 1.0 case Irreversible => p.irreversible
  }

  function CriticalityFactor(p: RiskPolicy, c: Criticality): real {
    match c case Sandbox => 0.4 case Development => 0.6 case Staging => 0.8 case Production => p.production
  }

  function ReferencePolicy(): RiskPolicy {
    RiskPolicy(None, OperationBases(0.05, 0.20, 0.30, 0.45, 0.55, 0.60, 0.70, 0.85), 1.3, 1.0, 0.40, Components(0.5, 0.3, 0.2), Components(100.0, 25.0, 50.0),
               Bands(0.05, 0.25, 0.50, 0.75), 60.0, 0.5, 3.0, [])
  }

  /** The point a share `x` of the way from one knob value to another. */
  function Mix(from: real, to: real, x: real): real {
    from + (to - from) * x
  }

  /** Lenient to reference on the first half, reference to strict on the second. */
  function Lerp(lenient: real, reference: real, strict: real, t: real): real {
    if t <= 0.5 then Round4(Mix(lenient, reference, t / 0.5))
    else Round4(Mix(reference, strict, (t - 0.5) / 0.5))
  }

  /** A temperature in [0, 1] that is a multiple of a hundredth, as hundredths. */
  function Hundredths(t: real): Option<int> {
    if t < 0.0 || t > 1.0 then None
    else
      var h := (t * 100.0 + 0.5).Floor;
      var off := t * 100.0 - h as real;
      if (if off < 0.0 then -off else off) > 0.000000001 then None else Some(h)
  }

  function Derived(t: real, h: int): RiskPolicy {
    ReferencePolicy().(
      temperature := Some(h),
      bands := Bands(Lerp(0.1, 0.05, 0.02, t), Lerp(0.35, 0.25, 0.18, t), Lerp(0.6, 0.5, 0.4, t), Lerp(0.85, 0.75, 0.65, t)),
      decayPerWindow := Lerp(0.3, 0.5, 0.7, t),
      velocityNormalizer := Lerp(4.0, 3.0, 2.0, t),
      maxBoost := Lerp(0.25, 0.4, 0.6, t),
      irreversible := Lerp(1.15, 1.3, 1.6, t),
      production := Lerp(0.9, 1.0, 1.2, t))
  }

  /** The structural check on a final policy. */
  predicate SoundPolicy(p: RiskPolicy) {
    && p.bands.low < p.bands.medium < p.bands.high < p.bands.critical
    && p.irreversible > 0.0 && p.production > 0.0
    && p.windowSeconds > 0.0 && p.velocityNormalizer > 0.0
  }

  /** The policy of a temperature, or of none. */
  function TemperaturePolicy(t: Option<real>): Option<RiskPolicy> {
    match t
    case None => if SoundPolicy(ReferencePolicy()) then Some(ReferencePolicy()) else None
    case Some(v) =>
      match Hundredths(v)
      case None => None
      case Some(h) => if SoundPolicy(Derived(v, h)) then Some(Derived(v, h)) else None
  }

  // ---------- One step ----------

  function RawBoost(p: RiskPolicy, weight: real, value: nat, k: real): real
    requires value as real + k != 0.0
  {
    p.maxBoost * weight * Sat(value as real, k)
  }

  function Boost(p: RiskPolicy, weight: real, value: nat, k: real): real
    requires value as real + k != 0.0
  {
    Round4(RawBoost(p, weight, value, k))
  }

  predicate PositiveK(p: RiskPolicy) {
    p.k.dataVolume > 0.0 && p.k.fanOut > 0.0 && p.k.referenceCount > 0.0
  }

  /** Base and boosts. */
  function Additive(s: Signals, p: RiskPolicy): real
    requires PositiveK(p)
  {
    BaseOf(p.operationBase, s.operation)
    + Boost(p, p.weights.dataVolume, s.dataVolume, p.k.dataVolume)
    + Boost(p, p.weights.fanOut, s.fanOut, p.k.fanOut)
    + Boost(p, p.weights.referenceCount, s.referenceCount, p.k.referenceCount)
  }

  function RawScore(s: Signals, p: RiskPolicy): real
    requires PositiveK(p)
  {
    Additive(s, p) * ReversibilityFactor(p, s.reversibility) * CriticalityFactor(p, s.criticality)
  }

  function ScoreSignals(s: Signals, p: RiskPolicy): real
    requires PositiveK(p)
  {
    Clamp01(Round4(RawScore(s, p)))
  }

  // ---------- Episodes ----------

  /** A scored step; `at` is in milliseconds. */
  datatype Step = Step(at: int, score: real, action: string)

  /** Stable sort by time: a step goes behind every earlier step of the same time. */
  function Place(ordered: seq<Step>, s: Step): seq<Step> {
    if ordered == [] || ordered[|ordered| - 1].at <= s.at then ordered + [s]
    else Place(ordered[..|ordered| - 1], s) + [ordered[|ordered| - 1]]
  }

  function ByTime(steps: seq<Step>): seq<Step> {
    if steps == [] then [] else Place(ByTime(steps[..|steps| - 1]), steps[|steps| - 1])
  }

  function Power(base: real, n: nat): real {
    if n == 0 then 1.0 else Power(base, n - 1) * base
  }

  /** Whole windows between two steps; a negative gap counts as none. */
  function Windows(from: int, to: int, windowSeconds: real): nat
    requires windowSeconds > 0.0
  {
    if to <= from then 0
    else
      var gap := (to - from) as real / 1000.0;
      assert gap / windowSeconds >= 0.0;
      (gap / windowSeconds).Floor
  }

  /** Momentum after a step: what is left of it, and the step's own score. */
  function Carry(score: real, momentum: real, decay: real): real {
    Round4(score + momentum * decay)
  }

  function DecayBefore(ordered: seq<Step>, i: nat, p: RiskPolicy): real
    requires i < |ordered| && p.windowSeconds > 0.0
  {
    if i == 0 then 1.0 else Power(p.decayPerWindow, Windows(ordered[i - 1].at, ordered[i].at, p.windowSeconds))
  }

  datatype Momentum = Momentum(peak: real, momentum: real, highest: real)

  /** The loop's variables after the first `n` ordered steps. */
  function MomentumOf(ordered: seq<Step>, n: nat, p: RiskPolicy): Momentum
    requires n <= |ordered| && p.windowSeconds > 0.0
  {
    if n == 0 then Momentum(0.0, 0.0, 0.0)
    else
      var m := MomentumOf(ordered, n - 1, p);
      var momentum := Carry(ordered[n - 1].score, m.momentum, DecayBefore(ordered, n - 1, p));
      Momentum(Max(ordered[n - 1].score, m.peak), momentum, Max(momentum, m.highest))
  }

  function VelocityScore(ordered: seq<Step>, p: RiskPolicy): real
    requires p.windowSeconds > 0.0 && p.velocityNormalizer > 0.0
  {
    Clamp01(Round4(MomentumOf(ordered, |ordered|, p).highest / p.velocityNormalizer))
  }

  // ---------- Frequency rules ----------

  predicate ValidRule(r: FrequencyRule) {
    && r.actions != [] && (forall i | 0 <= i < |r.actions| :: r.actions[i] != [])
    && r.windowSeconds > 0.0 && r.threshold >= 1 && r.boost >= 0.0
  }

  predicate ValidRules(rules: seq<FrequencyRule>) {
    forall i | 0 <= i < |rules| :: ValidRule(rules[i])
  }

  /** Times of the steps a rule matches. */
  function Matching(ordered: seq<Step>, r: FrequencyRule): seq<int> {
    if ordered == [] then []
    else
      var last := ordered[|ordered| - 1];
      Matching(ordered[..|ordered| - 1], r) + if last.action != [] && last.action in r.actions then [last.at] else []
  }

  /** Matching steps in the inclusive window of `width` milliseconds that starts at `x`. */
  function InWindow(times: seq<int>, x: real, width: real): nat {
    if times == [] then 0
    else
      var t := times[|times| - 1] as real;
      InWindow(times[..|times| - 1], x, width) + if x <= t <= x + width then 1 else 0
  }

  /** `count` is the most matching steps any window of the width holds. */
  ghost predicate IsMaxCount(times: seq<int>, width: real, count: nat) {
    && (forall x: real :: InWindow(times, x, width) <= count)
    && (exists x: real :: InWindow(times, x, width) == count)
  }

  ghost predicate SomeWindowReaches(times: seq<int>, width: real, threshold: int) {
    exists x: real :: InWindow(times, x, width) >= threshold
  }

  ghost predicate Fires(r: FrequencyRule, ordered: seq<Step>) {
    SomeWindowReaches(Matching(ordered, r), r.windowSeconds * 1000.0, r.threshold)
  }

  ghost function FiredBoosts(rules: seq<FrequencyRule>, ordered: seq<Step>): real {
    if rules == [] then 0.0
    else FiredBoosts(rules[..|rules| - 1], ordered) + if Fires(rules[|rules| - 1], ordered) then rules[|rules| - 1].boost else 0.0
  }

  ghost function FrequencyScore(rules: seq<FrequencyRule>, ordered: seq<Step>): real {
    Clamp01(Round4(FiredBoosts(rules, ordered)))
  }

  // ---------- The rollup ----------

  datatype Rollup = Rollup(score: real, level: Level, peak: real, velocityScore: real, stepCount: nat, frequencyScore: Option<real>)

  ghost function RollupOf(steps: seq<Step>, p: RiskPolicy): Option<Rollup>
    requires p.windowSeconds > 0.0 && p.velocityNormalizer > 0.0
  {
    if !ValidRules(p.frequencyRules) then None
    else
      var ordered := ByTime(steps);
      var frequency := if p.frequencyRules == [] then None else Some(FrequencyScore(p.frequencyRules, ordered));
      if steps == [] then Some(Rollup(0.0, BandOf(0.0, p.bands), 0.0, 0.0, 0, frequency))
      else
        var peak, velocity := MomentumOf(ordered, |ordered|, p).peak, VelocityScore(ordered, p);
        var highest := match frequency case None => Max(peak, velocity) case Some(f) => Max(Max(peak, velocity), f);
        var score := Clamp01(Round4(highest));
        Some(Rollup(score, BandOf(score, p.bands), peak, velocity, |steps|, frequency))
  }
}
