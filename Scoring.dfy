/**
 * The client dashboard's scoring engine and reward resolver: the aggregate
 * performance of a store's KPIs, the tier ladder, the look-ups in the store's
 * own reward and colour tables, and the capped per-KPI display percentage.
 */
module Scoring {
  import opened Model

  /** Every KPI has a non-zero target, so each completion ratio is defined. */
  predicate Scorable(kpis: seq<Kpi>)
  {
    forall i :: 0 <= i < |kpis| ==> kpis[i].target != 0.0
  }

  /** Completion ratio of one KPI, without clamping. */
  function Ratio(k: Kpi): real
    requires k.target != 0.0
  {
    k.actual / k.target
  }

  /** Rounding to the nearest integer, ties towards +infinity. */
  function Round(x: real): (r: int)
    ensures x - 0.5 < r as real <= x + 0.5
  {
    (x + 0.5).Floor
  }

  /** Sum of the completion ratios, accumulated from the first KPI to the last. */
  function RatioSum(kpis: seq<Kpi>): real
    requires Scorable(kpis)
  {
    if kpis == [] then 0.0 else RatioSum(kpis[..|kpis| - 1]) + Ratio(kpis[|kpis| - 1])
  }

  /** Unweighted mean of the completion ratios of a non-empty KPI list. */
  function MeanRatio(kpis: seq<Kpi>): real
    requires Scorable(kpis) && kpis != []
  {
    RatioSum(kpis) / (|kpis| as real)
  }

  /** The store's aggregate performance: 0 with no KPIs, otherwise the mean
      completion ratio as a percentage rounded to the nearest integer. */
  function TotalPerformance(kpis: seq<Kpi>): (r: int)
    requires Scorable(kpis)
    ensures kpis == [] ==> r == 0
    ensures kpis != [] ==> MeanRatio(kpis) * 100.0 - 0.5 < r as real <= MeanRatio(kpis) * 100.0 + 0.5
  {
    if |kpis| == 0 then 0 else Round(MeanRatio(kpis) * 100.0)
  }

  /** Declarative reading of the tier table: the least performance that earns each tier. */
  predicate Qualifies(perf: int, t: Tier)
  {
    match t
    case NoTier => true
    case Bronze => perf >= 70
    case Silver => perf >= 80
    case Gold => perf >= 90
    case Elite => perf >= 100
  }

  /** The threshold ladder: the highest tier whose threshold is reached. */
  function GetTier(perf: int): (t: Tier)
    ensures Qualifies(perf, t)
    ensures forall u: Tier :: Rank(u) > Rank(t) ==> !Qualifies(perf, u)
  {
    if perf >= 100 then Elite
    else if perf >= 90 then Gold
    else if perf >= 80 then Silver
    else if perf >= 70 then Bronze
    else NoTier
  }

  /** A higher performance never yields a lower tier. */
  lemma GetTierMonotone(p1: int, p2: int)
    requires p1 >= p2
    ensures Rank(GetTier(p1)) >= Rank(GetTier(p2))
  {
  }

  /** The boundary values of the ladder; every threshold is inclusive. */
  lemma GetTierBoundaries()
    ensures GetTier(100) == Elite && GetTier(99) == Gold
    ensures GetTier(90) == Gold && GetTier(89) == Silver
    ensures GetTier(80) == Silver && GetTier(79) == Bronze
    ensures GetTier(70) == Bronze && GetTier(69) == NoTier
  {
  }

  /** What the dashboard shows for a store. A table entry that is missing is
      reported as None: no built-in default is substituted. */
  datatype Summary = Summary(performance: int, tier: Tier, color: Option<string>, reward: Option<real>)

  function Lookup<V>(m: map<Tier, V>, t: Tier): Option<V>
  {
    if t in m then Some(m[t]) else None
  }

  function Summarize(store: Store): (s: Summary)
    requires Scorable(store.kpis)
    ensures s.performance == TotalPerformance(store.kpis)
    ensures s.tier == GetTier(TotalPerformance(store.kpis))
    ensures s.tier in store.customRewards ==> s.reward == Some(store.customRewards[s.tier])
    ensures s.tier !in store.customRewards ==> s.reward == None
    ensures s.tier in store.tierColors ==> s.color == Some(store.tierColors[s.tier])
    ensures s.tier !in store.tierColors ==> s.color == None
  {
    var perf := TotalPerformance(store.kpis);
    var tier := GetTier(perf);
    Summary(perf, tier, Lookup(store.tierColors, tier), Lookup(store.customRewards, tier))
  }

  /** The reward banner appears only for a strictly positive reward; an
      undefined reward compares false and hides it. */
  predicate ShowsRewardBanner(reward: Option<real>)
  {
    reward.Some? && reward.value > 0.0
  }

  /** The banner is decided by the store's own reward table alone: it shows
      exactly when the entry for the computed tier exists and is positive. */
  lemma RewardBannerFollowsTable(store: Store)
    requires Scorable(store.kpis)
    ensures var t := GetTier(TotalPerformance(store.kpis));
      ShowsRewardBanner(Summarize(store).reward) <==> t in store.customRewards && store.customRewards[t] > 0.0
  {
  }

  /** The percentage shown on a KPI card: the rounded completion, capped at 100. */
  function DisplayPercent(k: Kpi): (r: int)
    requires k.target != 0.0
    ensures r <= 100
    ensures r == 100 <==> Round(Ratio(k) * 100.0) >= 100
    ensures r < 100 ==> r == Round(Ratio(k) * 100.0)
  {
    var p := Round(Ratio(k) * 100.0);
    if p < 100 then p else 100
  }

  // ---------------------------------------------------------------------
  // Properties of the aggregate

  lemma {:induction false} RatioSumAppend(a: seq<Kpi>, b: seq<Kpi>)
    requires Scorable(a) && Scorable(b)
    ensures Scorable(a + b)
    ensures RatioSum(a + b) == RatioSum(a) + RatioSum(b)
  {
    if b == [] {
      assert a + b == a;
    } else {
      var b' := b[..|b| - 1];
      RatioSumAppend(a, b');
      assert (a + b)[..|a + b| - 1] == a + b';
    }
  }

  /** The aggregate does not depend on the order of the KPIs. */
  lemma {:induction false} RatioSumPermutation(a: seq<Kpi>, b: seq<Kpi>)
    requires Scorable(a) && multiset(a) == multiset(b)
    ensures Scorable(b)
    ensures RatioSum(a) == RatioSum(b)
    decreases |a|
  {
    ScorablePermutation(a, b);
    if a != [] {
      var x := a[|a| - 1];
      var a' := a[..|a| - 1];
      assert a == a' + [x];
      assert x in multiset(b);
      var j :| 0 <= j < |b| && b[j] == x;
      var b1, b2 := b[..j], b[j + 1..];
      assert b == b1 + [x] + b2;
      RemoveFromBoth(a', x, b1, b2);
      assert Scorable(b1) && Scorable(b2) && Scorable([x]);
      RatioSumPermutation(a', b1 + b2);
      RatioSumAppend(b1, b2);
      RatioSumAppend(b1, [x]);
      RatioSumAppend(b1 + [x], b2);
      assert RatioSum([x]) == Ratio(x) by { assert [x][..0] == []; }
    }
  }

  lemma ScorablePermutation(a: seq<Kpi>, b: seq<Kpi>)
    requires Scorable(a) && multiset(a) == multiset(b)
    ensures Scorable(b)
  {
    forall j | 0 <= j < |b| ensures b[j].target != 0.0 {
      assert b[j] in multiset(a);
      var i :| 0 <= i < |a| && a[i] == b[j];
    }
  }

  lemma RemoveFromBoth<T>(a: seq<T>, x: T, b1: seq<T>, b2: seq<T>)
    requires multiset(a + [x]) == multiset(b1 + [x] + b2)
    ensures multiset(a) == multiset(b1 + b2)
  {
    calc {
      multiset(a);
      multiset(a + [x]) - multiset{x};
      multiset(b1 + [x] + b2) - multiset{x};
      { assert b1 + [x] + b2 == b1 + ([x] + b2); }
      multiset(b1) + multiset{x} + multiset(b2) - multiset{x};
      multiset(b1) + multiset(b2);
      multiset(b1 + b2);
    }
  }

  /** Reordering the KPIs leaves the performance unchanged. */
  lemma PerformanceIgnoresOrder(a: seq<Kpi>, b: seq<Kpi>)
    requires Scorable(a) && multiset(a) == multiset(b)
    ensures Scorable(b)
    ensures TotalPerformance(a) == TotalPerformance(b)
  {
    RatioSumPermutation(a, b);
    assert |a| == |multiset(a)| == |multiset(b)| == |b|;
  }

  /** Pointwise larger ratios give a larger sum. */
  lemma {:induction false} RatioSumMonotone(a: seq<Kpi>, b: seq<Kpi>)
    requires Scorable(a) && Scorable(b) && |a| == |b|
    requires forall i :: 0 <= i < |a| ==> Ratio(a[i]) <= Ratio(b[i])
    ensures RatioSum(a) <= RatioSum(b)
  {
    if a != [] {
      RatioSumMonotone(a[..|a| - 1], b[..|b| - 1]);
    }
  }

  lemma RoundMonotone(x: real, y: real)
    requires x <= y
    ensures Round(x) <= Round(y)
  {
  }

  lemma MeanMonotone(sa: real, sb: real, n: real)
    requires n > 0.0 && sa <= sb
    ensures sa / n * 100.0 <= sb / n * 100.0
  {
  }

  /** Raising completion ratios never lowers the performance or the tier. */
  lemma PerformanceMonotone(a: seq<Kpi>, b: seq<Kpi>)
    requires Scorable(a) && Scorable(b) && |a| == |b|
    requires forall i :: 0 <= i < |a| ==> Ratio(a[i]) <= Ratio(b[i])
    ensures TotalPerformance(a) <= TotalPerformance(b)
    ensures Rank(GetTier(TotalPerformance(a))) <= Rank(GetTier(TotalPerformance(b)))
  {
    if a != [] {
      RatioSumMonotone(a, b);
      MeanMonotone(RatioSum(a), RatioSum(b), |a| as real);
      RoundMonotone(MeanRatio(a) * 100.0, MeanRatio(b) * 100.0);
    }
    GetTierMonotone(TotalPerformance(b), TotalPerformance(a));
  }

  /** Only targets and actuals enter the score: weight, names, units and
      categories play no part. */
  lemma PerformanceIgnoresMetadata(a: seq<Kpi>, b: seq<Kpi>)
    requires Scorable(a) && |a| == |b|
    requires forall i :: 0 <= i < |a| ==> a[i].target == b[i].target && a[i].actual == b[i].actual
    ensures Scorable(b)
    ensures TotalPerformance(a) == TotalPerformance(b)
  {
    PerformanceMonotone(a, b);
    PerformanceMonotone(b, a);
  }

  /** A lower bound on every ratio bounds the sum from below. */
  lemma {:induction false} RatioSumAtLeast(kpis: seq<Kpi>, lo: real)
    requires Scorable(kpis)
    requires forall i :: 0 <= i < |kpis| ==> lo <= Ratio(kpis[i])
    ensures lo * (|kpis| as real) <= RatioSum(kpis)
  {
    if kpis != [] {
      RatioSumAtLeast(kpis[..|kpis| - 1], lo);
    }
  }

  /** An upper bound on every ratio bounds the sum from above. */
  lemma {:induction false} RatioSumAtMost(kpis: seq<Kpi>, hi: real)
    requires Scorable(kpis)
    requires forall i :: 0 <= i < |kpis| ==> Ratio(kpis[i]) <= hi
    ensures RatioSum(kpis) <= hi * (|kpis| as real)
  {
    if kpis != [] {
      RatioSumAtMost(kpis[..|kpis| - 1], hi);
    }
  }

  lemma QuotientAtLeast(s: real, n: real, c: real)
    requires n > 0.0 && s >= c * n
    ensures s / n >= c
  {
  }

  /** If every KPI reaches its target the store scores at least 100 and is ELITE. */
  lemma AllTargetsMetIsElite(kpis: seq<Kpi>)
    requires Scorable(kpis) && kpis != []
    requires forall i :: 0 <= i < |kpis| ==> Ratio(kpis[i]) >= 1.0
    ensures TotalPerformance(kpis) >= 100
    ensures GetTier(TotalPerformance(kpis)) == Elite
  {
    RatioSumAtLeast(kpis, 1.0);
    QuotientAtLeast(RatioSum(kpis), |kpis| as real, 1.0);
  }

  /** A store whose every KPI is exactly on target scores exactly 100, ELITE. */
  lemma AllOnTargetScoresHundred(kpis: seq<Kpi>)
    requires Scorable(kpis) && kpis != []
    requires forall i :: 0 <= i < |kpis| ==> kpis[i].actual == kpis[i].target
    ensures TotalPerformance(kpis) == 100
    ensures GetTier(TotalPerformance(kpis)) == Elite
  {
    var n := |kpis| as real;
    RatioSumAtLeast(kpis, 1.0);
    RatioSumAtMost(kpis, 1.0);
    assert RatioSum(kpis) == n;
    assert MeanRatio(kpis) == 1.0;
  }

  /** A store with no achievement at all scores 0 and earns no tier. */
  lemma NothingAchievedScoresZero(kpis: seq<Kpi>)
    requires Scorable(kpis)
    requires forall i :: 0 <= i < |kpis| ==> kpis[i].actual == 0.0
    ensures TotalPerformance(kpis) == 0
    ensures GetTier(TotalPerformance(kpis)) == NoTier
  {
    RatioSumAtLeast(kpis, 0.0);
    RatioSumAtMost(kpis, 0.0);
    if kpis != [] {
      assert RatioSum(kpis) == 0.0;
      assert MeanRatio(kpis) == 0.0;
    }
  }
}
