/**
 The loops of the risk SDK: sorting and compounding an episode, and the two-pointer window of a
 frequency rule, proved against the definitions of `RiskScoring`.
 */
module RiskRollup {
  import opened Wrappers
  import opened RiskScoring
  import opened RiskEpisodes

  // ---------- The two-pointer window ----------

  predicate Nondecreasing(times: seq<int>) {
    forall i, j | 0 <= i < j < |times| :: times[i] <= times[j]
  }

  predicate Within(t: int, x: real, width: real) {
    x <= t as real <= x + width
  }

  /** No element outside `[lo, hi)` counts, so at most `hi - lo` do. */
  lemma {:induction false} CountAtMost(times: seq<int>, x: real, width: real, lo: nat, hi: nat)
    requires lo <= hi <= |times|
    requires forall i | 0 <= i < |times| :: Within(times[i], x, width) ==> lo <= i < hi
    ensures InWindow(times, x, width) <= hi - lo
    decreases |times|
  {
    if times != [] {
      var n := |times| - 1;
      var front := times[..n];
      forall i | 0 <= i < |front| ensures Within(front[i], x, width) ==> lo <= i < hi {
        assert front[i] == times[i];
      }
      if hi <= n {
        CountAtMost(front, x, width, lo, hi);
        assert Within(times[n], x, width) ==> n < hi;
      } else if lo <= n {
        CountAtMost(front, x, width, lo, n);
      } else {
        CountAtMost(front, x, width, n, n);
        assert Within(times[n], x, width) ==> lo <= n;
      }
    }
  }

  /** Every element of `[lo, hi)` counts, so at least `hi - lo` do. */
  lemma {:induction false} CountAtLeast(times: seq<int>, x: real, width: real, lo: nat, hi: nat)
    requires lo <= hi <= |times|
    requires forall i | lo <= i < hi :: Within(times[i], x, width)
    ensures InWindow(times, x, width) >= hi - lo
    decreases |times|
  {
    if lo < hi {
      var n := |times| - 1;
      var front := times[..n];
      if hi <= n {
        CountAtLeast(front, x, width, lo, hi);
      } else {
        CountAtLeast(front, x, width, lo, n);
        assert Within(times[n], x, width);
      }
    }
  }

  /** Matches `s` to `e`, when they fit one window, are at most `maxCount`. */
  predicate PairBounded(times: seq<int>, s: nat, e: nat, width: real, maxCount: int)
    requires s <= e < |times|
  {
    (times[e] - times[s]) as real <= width ==> e - s + 1 <= maxCount
  }

  /** The same for every pair that ends before `n`. */
  predicate BoundedTo(times: seq<int>, n: nat, width: real, maxCount: int)
    requires n <= |times|
  {
    forall s, e | 0 <= s <= e < n :: PairBounded(times, s, e, width, maxCount)
  }

  lemma FirstMatch(times: seq<int>, x: real, width: real, i: nat) returns (s: nat)
    requires i < |times| && Within(times[i], x, width) && Nondecreasing(times)
    ensures s <= i && Within(times[s], x, width)
    ensures forall j | 0 <= j < s :: !Within(times[j], x, width)
  {
    s := i;
    while s > 0 && Within(times[s - 1], x, width)
      invariant s <= i && Within(times[s], x, width)
    {
      s := s - 1;
    }
    if s > 0 {
      assert times[s - 1] <= times[s];
    }
  }

  lemma LastMatch(times: seq<int>, x: real, width: real, i: nat) returns (e: nat)
    requires i < |times| && Within(times[i], x, width) && Nondecreasing(times)
    ensures i <= e < |times| && Within(times[e], x, width)
    ensures forall j | e < j < |times| :: !Within(times[j], x, width)
  {
    e := i;
    while e + 1 < |times| && Within(times[e + 1], x, width)
      invariant i <= e < |times| && Within(times[e], x, width)
    {
      e := e + 1;
    }
    if e + 1 < |times| {
      assert times[e] <= times[e + 1];
    }
  }

  /** A bound on every pair of matches within the width is a bound on every window. */
  lemma WindowsBounded(times: seq<int>, width: real, maxCount: nat, x: real)
    requires Nondecreasing(times) && BoundedTo(times, |times|, width, maxCount)
    ensures InWindow(times, x, width) <= maxCount
  {
    hide Nondecreasing;
    if i :| 0 <= i < |times| && Within(times[i], x, width) {
      var s := FirstMatch(times, x, width, i);
      var e := LastMatch(times, x, width, i);
      CountAtMost(times, x, width, s, e + 1);
      assert PairBounded(times, s, e, width, maxCount);
    } else {
      CountAtMost(times, x, width, 0, 0);
    }
  }

  /** The window that ends on element `e` holds the elements from `s` on. */
  lemma WindowReaches(times: seq<int>, width: real, s: nat, e: nat)
    requires s <= e < |times| && Nondecreasing(times) && (times[e] - times[s]) as real <= width && width >= 0.0
    ensures InWindow(times, times[s] as real, width) >= e - s + 1
  {
    forall i | s <= i < e + 1 ensures Within(times[i], times[s] as real, width) {
      assert i > s ==> times[s] <= times[i];
      assert i < e ==> times[i] <= times[e];
    }
    CountAtLeast(times, times[s] as real, width, s, e + 1);
  }

  /** The most matches a window of `width` holds, by moving `start` behind `end`. */
  method MaxInWindow(times: seq<int>, width: real) returns (maxCount: nat)
    requires Nondecreasing(times) && width > 0.0
    ensures IsMaxCount(times, width, maxCount)
  {
    hide InWindow, Nondecreasing, IsMaxCount;
    maxCount := 0;
    var start := 0;
    ghost var bestStart, bestEnd := 0, 0;
    for end := 0 to |times|
      invariant 0 <= start <= end
      invariant end > 0 ==> start < end
      invariant StartAdvanced(times, start, end, width)
      invariant BoundedTo(times, end, width, maxCount)
      invariant maxCount > 0 ==> bestStart <= bestEnd < |times| && maxCount == bestEnd - bestStart + 1
                                 && (times[bestEnd] - times[bestStart]) as real <= width
      invariant end > 0 ==> maxCount > 0
    {
      NextEnd(times, start, end, width);
      while (times[end] - times[start]) as real > width
        invariant 0 <= start <= end
        invariant forall i | 0 <= i < start :: (times[end] - times[i]) as real > width
        decreases end - start
      {
        start := start + 1;
      }
      var count := end - start + 1;
      EndCounted(times, start, end, width, maxCount, if count > maxCount then count else maxCount);
      if count > maxCount {
        maxCount, bestStart, bestEnd := count, start, end;
      }
    }
    MaxFound(times, width, maxCount, bestStart, bestEnd);
  }

  /** Everything before `start` is too far behind the last element seen, so behind every later one. */
  predicate StartAdvanced(times: seq<int>, start: int, end: nat, width: real)
    requires end <= |times| && 0 <= start <= end
  {
    end > 0 ==> forall i | 0 <= i < start :: (times[end - 1] - times[i]) as real > width
  }

  lemma NextEnd(times: seq<int>, start: int, end: nat, width: real)
    requires end < |times| && 0 <= start <= end && Nondecreasing(times) && StartAdvanced(times, start, end, width)
    requires end == 0 ==> start == 0
    ensures forall i | 0 <= i < start :: (times[end] - times[i]) as real > width
  {
    if end > 0 {
      assert times[end - 1] <= times[end];
    }
  }

  lemma EndCounted(times: seq<int>, start: nat, end: nat, width: real, before: int, maxCount: int)
    requires start <= end < |times| && BoundedTo(times, end, width, before) && before <= maxCount && end - start + 1 <= maxCount
    requires forall i | 0 <= i < start :: (times[end] - times[i]) as real > width
    ensures BoundedTo(times, end + 1, width, maxCount)
  {
    forall s, e | 0 <= s <= e < end + 1 ensures PairBounded(times, s, e, width, maxCount) {
      if e < end { assert PairBounded(times, s, e, width, before); }
    }
  }

  lemma MaxFound(times: seq<int>, width: real, maxCount: nat, s: nat, e: nat)
    requires Nondecreasing(times) && width > 0.0 && BoundedTo(times, |times|, width, maxCount)
    requires |times| > 0 ==> maxCount > 0
    requires maxCount > 0 ==> s <= e < |times| && maxCount == e - s + 1 && (times[e] - times[s]) as real <= width
    ensures IsMaxCount(times, width, maxCount)
  {
    hide Nondecreasing, BoundedTo;
    forall x: real ensures InWindow(times, x, width) <= maxCount {
      WindowsBounded(times, width, maxCount, x);
    }
    if maxCount > 0 {
      WindowReaches(times, width, s, e);
      assert InWindow(times, times[s] as real, width) == maxCount;
    } else {
      assert times == [];
      assert InWindow(times, 0.0, width) == maxCount;
    }
  }

  // ---------- Frequency rules ----------

  datatype RuleMatch = RuleMatch(rule: FrequencyRule, count: nat, fired: bool, boost: real)

  /** The match reports its rule, the most matching steps any window holds, and the boost when the rule fires. */
  ghost predicate MatchOf(m: RuleMatch, r: FrequencyRule, ordered: seq<Step>) {
    && m.rule == r
    && IsMaxCount(Matching(ordered, r), r.windowSeconds * 1000.0, m.count)
    && (m.fired <==> Fires(r, ordered))
    && m.boost == if m.fired then r.boost else 0.0
  }

  /** One match for each rule, in the rules' order. */
  ghost predicate MatchesOf(matches: seq<RuleMatch>, rules: seq<FrequencyRule>, ordered: seq<Step>) {
    |matches| == |rules| && forall i | 0 <= i < |rules| :: MatchOf(matches[i], rules[i], ordered)
  }

  /** The sum of the boosts reported. */
  function Boosts(matches: seq<RuleMatch>): real {
    if matches == [] then 0.0 else Boosts(matches[..|matches| - 1]) + matches[|matches| - 1].boost
  }

  predicate TimeOrdered(steps: seq<Step>) {
    forall i, j | 0 <= i < j < |steps| :: steps[i].at <= steps[j].at
  }

  lemma {:induction false} MatchingIsOrdered(ordered: seq<Step>, r: FrequencyRule)
    requires TimeOrdered(ordered)
    ensures Nondecreasing(Matching(ordered, r))
    ensures forall i | 0 <= i < |Matching(ordered, r)| :: ordered != [] && Matching(ordered, r)[i] <= ordered[|ordered| - 1].at
    decreases |ordered|
  {
    if ordered != [] {
      MatchingIsOrdered(ordered[..|ordered| - 1], r);
    }
  }

  method MatchingTimes(ordered: seq<Step>, r: FrequencyRule) returns (times: seq<int>)
    ensures times == Matching(ordered, r)
  {
    times := [];
    for i := 0 to |ordered|
      invariant times == Matching(ordered[..i], r)
    {
      assert ordered[..i + 1][..i] == ordered[..i];
      if ordered[i].action != [] && ordered[i].action in r.actions { times := times + [ordered[i].at]; }
    }
    assert ordered[..|ordered|] == ordered;
  }

  /**
   Evaluates every rule over the time-sorted steps. A rule's count is the most matching steps any
   inclusive window holds, and it fires exactly when some window reaches its threshold.
   */
  method EvaluateFrequencyRules(ordered: seq<Step>, rules: seq<FrequencyRule>)
    returns (score: real, matches: seq<RuleMatch>)
    requires TimeOrdered(ordered) && ValidRules(rules)
    ensures score == FrequencyScore(rules, ordered)
    ensures MatchesOf(matches, rules, ordered) && score == Clamp01(Round4(Boosts(matches)))
  {
    hide Round4, Matching, IsMaxCount, Fires, TimeOrdered, Nondecreasing;
    var boostSum := 0.0;
    matches := [];
    for index := 0 to |rules|
      invariant |matches| == index
      invariant boostSum == FiredBoosts(rules[..index], ordered) == Boosts(matches)
      invariant forall i | 0 <= i < index :: MatchOf(matches[i], rules[i], ordered)
    {
      var rule := rules[index];
      assert ValidRule(rule);
      assert rules[..index + 1][..index] == rules[..index];
      var timesMs := MatchingTimes(ordered, rule);
      MatchingIsOrdered(ordered, rule);
      var maxCount := MaxInWindow(timesMs, rule.windowSeconds * 1000.0);
      var fired := maxCount >= rule.threshold;
      FiresAtThreshold(ordered, rule, maxCount);
      if fired { boostSum := boostSum + rule.boost; }
      ghost var before := matches;
      matches := matches + [RuleMatch(rule, maxCount, fired, if fired then rule.boost else 0.0)];
      assert matches[..index] == before;
    }
    assert rules[..|rules|] == rules;
    score := Clamp01(Round4(boostSum));
  }

  lemma FiresAtThreshold(ordered: seq<Step>, r: FrequencyRule, maxCount: nat)
    requires IsMaxCount(Matching(ordered, r), r.windowSeconds * 1000.0, maxCount)
    ensures Fires(r, ordered) <==> maxCount >= r.threshold
  {
    hide InWindow, Matching;
  }

  // ---------- Episodes ----------

  lemma {:induction false} PlaceElements(ordered: seq<Step>, s: Step)
    ensures multiset(Place(ordered, s)) == multiset(ordered) + multiset{s}
    decreases |ordered|
  {
    if ordered != [] && ordered[|ordered| - 1].at > s.at {
      var front, last := ordered[..|ordered| - 1], ordered[|ordered| - 1];
      PlaceElements(front, s);
      assert ordered == front + [last];
    }
  }

  predicate UpTo(steps: seq<Step>, at: int) {
    forall i | 0 <= i < |steps| :: steps[i].at <= at
  }

  lemma {:induction false} PlaceUpTo(ordered: seq<Step>, s: Step, at: int)
    requires UpTo(ordered, at) && s.at <= at
    ensures UpTo(Place(ordered, s), at)
    decreases |ordered|
  {
    if ordered != [] && ordered[|ordered| - 1].at > s.at {
      PlaceUpTo(ordered[..|ordered| - 1], s, at);
    }
  }

  lemma {:induction false} PlaceKeepsOrder(ordered: seq<Step>, s: Step)
    requires TimeOrdered(ordered)
    ensures TimeOrdered(Place(ordered, s))
    decreases |ordered|
  {
    if ordered != [] && ordered[|ordered| - 1].at > s.at {
      var front, last := ordered[..|ordered| - 1], ordered[|ordered| - 1];
      PlaceKeepsOrder(front, s);
      PlaceUpTo(front, s, last.at);
    }
  }

  /** Sorting keeps exactly the steps and orders them by time. */
  lemma {:induction false} ByTimeSorts(steps: seq<Step>)
    ensures TimeOrdered(ByTime(steps)) && multiset(ByTime(steps)) == multiset(steps)
    decreases |steps|
  {
    if steps != [] {
      ByTimeSorts(steps[..|steps| - 1]);
      PlaceKeepsOrder(ByTime(steps[..|steps| - 1]), steps[|steps| - 1]);
      PlaceElements(ByTime(steps[..|steps| - 1]), steps[|steps| - 1]);
      assert steps == steps[..|steps| - 1] + [steps[|steps| - 1]];
    }
  }

  method SortStable(steps: seq<Step>) returns (ordered: seq<Step>)
    ensures ordered == ByTime(steps)
  {
    ordered := [];
    for i := 0 to |steps|
      invariant ordered == ByTime(steps[..i])
    {
      assert steps[..i + 1][..i] == steps[..i];
      ordered := Place(ordered, steps[i]);
    }
    assert steps[..|steps|] == steps;
  }

  /** Compounds the scores of an episode; frequency rules can only raise the result, and are reported with it. */
  method RollupEpisodeRisk(steps: seq<Step>, p: RiskPolicy) returns (r: Option<Rollup>, matches: Option<seq<RuleMatch>>)
    requires p.windowSeconds > 0.0 && p.velocityNormalizer > 0.0
    ensures r == RollupOf(steps, p)
    ensures matches.Some? <==> r.Some? && p.frequencyRules != []
    ensures r.Some? <==> ValidRules(p.frequencyRules)
    ensures r.Some? ==> SumsUp(r.value, steps, p)
    ensures matches.Some? ==> MatchesOf(matches.value, p.frequencyRules, ByTime(steps))
                              && r.value.frequencyScore == Some(Clamp01(Round4(Boosts(matches.value))))
  {
    hide Round4, ByTime, FrequencyScore, Windows, ValidRule, MomentumOf, MatchesOf, SumsUp;
    matches := None;
    if !ValidRules(p.frequencyRules) { return None, None; }
    var ordered := SortStable(steps);
    ByTimeSorts(steps);
    RollupSumsUp(steps, p);
    var frequency := None;
    if p.frequencyRules != [] {
      var score, found := EvaluateFrequencyRules(ordered, p.frequencyRules);
      frequency, matches := Some(score), Some(found);
    }
    if steps == [] { return Some(Rollup(0.0, BandOf(0.0, p.bands), 0.0, 0.0, 0, frequency)), matches; }
    var m := Compound(ordered, p);
    var velocityScore := Clamp01(Round4(m.highest / p.velocityNormalizer));
    var highest := Max(m.peak, velocityScore);
    if frequency.Some? { highest := Max(highest, frequency.value); }
    var score := Clamp01(Round4(highest));
    return Some(Rollup(score, BandOf(score, p.bands), m.peak, velocityScore, |steps|, frequency)), matches;
  }

  /** The loop over the ordered steps with its running peak, momentum and maximum. */
  method Compound(ordered: seq<Step>, p: RiskPolicy) returns (m: Momentum)
    requires p.windowSeconds > 0.0
    ensures m == MomentumOf(ordered, |ordered|, p)
  {
    hide Carry, DecayBefore;
    var peak, momentum, maxMomentum := 0.0, 0.0, 0.0;
    for index := 0 to |ordered|
      invariant Momentum(peak, momentum, maxMomentum) == MomentumOf(ordered, index, p)
    {
      var step := ordered[index];
      if step.score > peak { peak := step.score; }
      var decay := Decay(ordered, index, p);
      momentum := Carry(step.score, momentum, decay);
      if momentum > maxMomentum { maxMomentum := momentum; }
    }
    return Momentum(peak, momentum, maxMomentum);
  }

  method Decay(ordered: seq<Step>, index: nat, p: RiskPolicy) returns (decay: real)
    requires index < |ordered| && p.windowSeconds > 0.0
    ensures decay == DecayBefore(ordered, index, p)
  {
    hide Windows;
    decay := 1.0;
    if index > 0 {
      decay := RepeatedDecay(p.decayPerWindow, Windows(ordered[index - 1].at, ordered[index].at, p.windowSeconds));
    }
  }

  method RepeatedDecay(decayPerWindow: real, windows: nat) returns (decay: real)
    ensures decay == Power(decayPerWindow, windows)
  {
    decay := 1.0;
    for window := 0 to windows
      invariant decay == Power(decayPerWindow, window)
    {
      decay := decay * decayPerWindow;
    }
  }
}
