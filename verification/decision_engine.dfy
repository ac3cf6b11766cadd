/**
 * The multi-criteria task ranker of the decision engine
 * (`intelligent_priority_ranking`).
 *
 * Each task gets five component scores derived from its position in the
 * input, a weighted total (effort scored inversely, missing weights falling
 * back to defaults), a HIGH/MEDIUM/LOW recommendation, and then the list is
 * stably sorted by its rounded score, highest first, and re-ranked 1..N.
 */
module DecisionEngine {
  import opened Numerics

  /** A task is an opaque record that the ranker passes through untouched. */
  type Task = map<string, string>

  /** Caller-supplied weights, keyed by criterion name. */
  type Criteria = map<string, real>

  datatype Scores = Scores(impact: real, urgency: real, effort: real, feasibility: real, alignment: real)

  datatype PriorityLevel = High | Medium | Low

  datatype Recommendation = Recommendation(
    priorityLevel: PriorityLevel,
    recommendedAction: string,
    successProbability: int)  // a percentage; the source formats it as "<n>%"

  datatype RankedItem = RankedItem(
    rank: nat,
    task: Task,
    overallScore: real,       // the weighted score rounded to two decimals
    detailedScores: Scores,
    recommendation: Recommendation)

  datatype Insights = Insights(
    topPriorityCount: nat,
    quickWins: seq<RankedItem>,
    highImpactProjects: seq<RankedItem>)

  datatype RankingResult = RankingResult(
    criteriaUsed: Criteria,
    totalItemsRanked: nat,
    rankedItems: seq<RankedItem>,
    insights: Insights)

  const DefaultImpactWeight: real := 0.3
  const DefaultUrgencyWeight: real := 0.25
  const DefaultEffortWeight: real := 0.2
  const DefaultFeasibilityWeight: real := 0.15
  const DefaultAlignmentWeight: real := 0.1

  const HighThreshold: real := 8.5
  const MediumThreshold: real := 7.0
  const MaxSuccessProbability: int := 95

  // ---------------------------------------------------------------- scoring

  /** The simulated component scores of the task at 0-based position `i`. */
  function ComponentScores(i: nat): (s: Scores)
    ensures 8.5 <= s.impact <= 10.0
    ensures 1.0 <= s.urgency <= 9.0
    ensures 1.0 <= s.effort <= 7.0
    ensures 8.0 <= s.feasibility <= 10.0
    ensures s.alignment <= 1.0
  {
    Scores(
      MinReal(8.5 + i as real * 0.3, 10.0),
      MaxReal(9.0 - i as real * 0.4, 1.0),
      MaxReal(7.0 - i as real * 0.2, 1.0),
      MinReal(8.0 + i as real * 0.2, 10.0),
      MinReal(9.0 - i as real * 0.1, 1.0))
  }

  /** `criteria.get(name, default)` */
  function Weight(c: Criteria, name: string, default: real): real
  {
    if name in c then c[name] else default
  }

  function WeightedScore(s: Scores, c: Criteria): real
  {
    s.impact * Weight(c, "impact", DefaultImpactWeight)
    + s.urgency * Weight(c, "urgency", DefaultUrgencyWeight)
    + (10.0 - s.effort) * Weight(c, "effort", DefaultEffortWeight)
    + s.feasibility * Weight(c, "feasibility", DefaultFeasibilityWeight)
    + s.alignment * Weight(c, "alignment", DefaultAlignmentWeight)
  }

  /** The bucket of a weighted score; both thresholds are strict. */
  function PriorityOf(score: real): (p: PriorityLevel)
    ensures p == High <==> score > HighThreshold
    ensures p == Medium <==> MediumThreshold < score <= HighThreshold
    ensures p == Low <==> score <= MediumThreshold
  {
    if score > HighThreshold then High
    else if score > MediumThreshold then Medium
    else Low
  }

  /** What the recommendation text is for each bucket. */
  function ActionFor(p: PriorityLevel): string
  {
    match p
    case High => "Start immediately"
    case Medium => "Schedule within 2 weeks"
    case Low => "Consider for later"
  }

  /** The source computes the action with its own copy of the threshold tests. */
  function RecommendedAction(score: real): (a: string)
    ensures a == ActionFor(PriorityOf(score))
  {
    if score > 8.5 then "Start immediately"
    else if score > 7.0 then "Schedule within 2 weeks"
    else "Consider for later"
  }

  /** `min(int(score * 10), 95)` */
  function SuccessProbability(score: real): (pct: int)
    ensures pct <= MaxSuccessProbability
    ensures score >= 9.5 ==> pct == MaxSuccessProbability
    ensures 0.0 <= score < 9.5 ==> 0 <= pct && pct as real <= score * 10.0 < pct as real + 1.0
    ensures score < 0.0 ==> pct <= 0 && pct as real - 1.0 < score * 10.0 <= pct as real
  {
    MinInt(TruncateTowardZero(score * 10.0), MaxSuccessProbability)
  }

  /** The record the source appends for the task at position `i` (rank `i + 1`). */
  function MakeItem(i: nat, task: Task, c: Criteria): (it: RankedItem)
    ensures it.rank == i + 1 && it.task == task
    ensures it.detailedScores == ComponentScores(i)
    ensures -0.005 <= it.overallScore - WeightedScore(ComponentScores(i), c) <= 0.005
    ensures it.recommendation.priorityLevel == PriorityOf(WeightedScore(ComponentScores(i), c))
    // the rounded score never claims HIGH for an item that is not HIGH
    ensures it.overallScore > HighThreshold ==> it.recommendation.priorityLevel == High
  {
    var s := ComponentScores(i);
    var w := WeightedScore(s, c);
    RoundedAboveHighIsHigh(w);
    RankedItem(i + 1, task, Round2(w), s,
               Recommendation(PriorityOf(w), RecommendedAction(w), SuccessProbability(w)))
  }

  // ----------------------------------------------------- scoring properties

  /** A score whose rounding exceeds 8.5 exceeds 8.5 itself. */
  lemma RoundedAboveHighIsHigh(w: real)
    ensures Round2(w) > HighThreshold ==> w > HighThreshold
  {
    if w <= HighThreshold {
      Round2Monotone(w, HighThreshold);
      Round2OfHundredths(850);
    }
  }

  /** With an empty weight map every criterion uses its documented default. */
  lemma DefaultWeightsApply(s: Scores)
    ensures WeightedScore(s, map[]) ==
      0.3 * s.impact + 0.25 * s.urgency + 0.2 * (10.0 - s.effort)
      + 0.15 * s.feasibility + 0.1 * s.alignment
  {
  }

  /** The value a criterion's weight multiplies; 0 for a name the ranker never reads. */
  function CriterionValue(s: Scores, name: string): real
  {
    if name == "impact" then s.impact
    else if name == "urgency" then s.urgency
    else if name == "effort" then 10.0 - s.effort
    else if name == "feasibility" then s.feasibility
    else if name == "alignment" then s.alignment
    else 0.0
  }

  function DefaultWeight(name: string): real
  {
    if name == "impact" then DefaultImpactWeight
    else if name == "urgency" then DefaultUrgencyWeight
    else if name == "effort" then DefaultEffortWeight
    else if name == "feasibility" then DefaultFeasibilityWeight
    else if name == "alignment" then DefaultAlignmentWeight
    else 0.0
  }

  /**
   * A supplied weight replaces the default only for its own criterion: setting
   * one criterion's weight changes the score by that criterion's term alone, and
   * a weight for any other name changes nothing.
   */
  lemma SuppliedWeightOverrides(s: Scores, c: Criteria, name: string, w: real)
    ensures WeightedScore(s, c[name := w]) - WeightedScore(s, c)
      == CriterionValue(s, name) * (w - Weight(c, name, DefaultWeight(name)))
  {
    var c' := c[name := w];
    var wi, wu, we, wf, wa :=
      Weight(c, "impact", DefaultImpactWeight), Weight(c, "urgency", DefaultUrgencyWeight),
      Weight(c, "effort", DefaultEffortWeight), Weight(c, "feasibility", DefaultFeasibilityWeight),
      Weight(c, "alignment", DefaultAlignmentWeight);
    var wi', wu', we', wf', wa' :=
      Weight(c', "impact", DefaultImpactWeight), Weight(c', "urgency", DefaultUrgencyWeight),
      Weight(c', "effort", DefaultEffortWeight), Weight(c', "feasibility", DefaultFeasibilityWeight),
      Weight(c', "alignment", DefaultAlignmentWeight);
    var v := CriterionValue(s, name);
    var d := w - Weight(c, name, DefaultWeight(name));
    if name == "impact" {
      assert wu' == wu && we' == we && wf' == wf && wa' == wa && wi' == wi + d;
      ScaleSum(s.impact, wi, d);
    } else if name == "urgency" {
      assert wi' == wi && we' == we && wf' == wf && wa' == wa && wu' == wu + d;
      ScaleSum(s.urgency, wu, d);
    } else if name == "effort" {
      assert wi' == wi && wu' == wu && wf' == wf && wa' == wa && we' == we + d;
      ScaleSum(10.0 - s.effort, we, d);
    } else if name == "feasibility" {
      assert wi' == wi && wu' == wu && we' == we && wa' == wa && wf' == wf + d;
      ScaleSum(s.feasibility, wf, d);
    } else if name == "alignment" {
      assert wi' == wi && wu' == wu && we' == we && wf' == wf && wa' == wa + d;
      ScaleSum(s.alignment, wa, d);
    } else {
      assert wi' == wi && wu' == wu && we' == we && wf' == wf && wa' == wa;
    }
  }

  lemma ScaleSum(v: real, a: real, d: real)
    ensures v * (a + d) == v * a + v * d
  {
  }

  /** Effort is scored inversely: with a non-negative effort weight, less effort never lowers the score. */
  lemma LessEffortNeverLowersScore(s: Scores, effort': real, c: Criteria)
    requires effort' <= s.effort
    requires Weight(c, "effort", DefaultEffortWeight) >= 0.0
    ensures WeightedScore(s.(effort := effort'), c) >= WeightedScore(s, c)
  {
    var we := Weight(c, "effort", DefaultEffortWeight);
    assert (10.0 - effort') * we >= (10.0 - s.effort) * we by {
      assert (10.0 - effort') * we - (10.0 - s.effort) * we == (s.effort - effort') * we;
    }
  }

  /**
   * Under the default weights no task ever rises above 7.0, so every task is
   * LOW; the sixth task (position 5) lands exactly on the 7.0 boundary.
   */
  lemma {:induction false} DefaultWeightsRankEverythingLow(i: nat)
    ensures WeightedScore(ComponentScores(i), map[]) <= MediumThreshold
    ensures PriorityOf(WeightedScore(ComponentScores(i), map[])) == Low
    ensures i == 5 ==> WeightedScore(ComponentScores(i), map[]) == MediumThreshold
  {
    var x := i as real;
    var s := ComponentScores(i);
    DefaultWeightsApply(s);
    if i <= 5 {
      assert s == Scores(8.5 + x * 0.3, 9.0 - x * 0.4, 7.0 - x * 0.2, 8.0 + x * 0.2, 1.0);
      assert WeightedScore(s, map[]) == 6.7 + 0.06 * x;
    } else if i <= 10 {
      assert s == Scores(10.0, 9.0 - x * 0.4, 7.0 - x * 0.2, 8.0 + x * 0.2, 1.0);
      assert WeightedScore(s, map[]) == 7.15 - 0.03 * x;
    } else if i <= 20 {
      assert s == Scores(10.0, 9.0 - x * 0.4, 7.0 - x * 0.2, 10.0, 1.0);
    } else if i <= 30 {
      assert s == Scores(10.0, 1.0, 7.0 - x * 0.2, 10.0, 1.0);
    } else {
      assert s.impact == 10.0 && s.urgency == 1.0 && s.effort == 1.0 && s.feasibility == 10.0;
    }
  }

  /**
   * Weights {impact: 0.5, urgency: 0.5} still add the default effort,
   * feasibility and alignment terms: the first task scores 10.65 and the
   * second 10.67, so the second outranks the first and both are HIGH.
   */
  lemma PartialWeightsScenario()
    ensures var c := map["impact" := 0.5, "urgency" := 0.5];
      && Round2(WeightedScore(ComponentScores(0), c)) == 10.65
      && Round2(WeightedScore(ComponentScores(1), c)) == 10.67
      && PriorityOf(WeightedScore(ComponentScores(0), c)) == High
      && PriorityOf(WeightedScore(ComponentScores(1), c)) == High
  {
    var c := map["impact" := 0.5, "urgency" := 0.5];
    assert "effort" !in c && "feasibility" !in c && "alignment" !in c;
    assert ComponentScores(0) == Scores(8.5, 9.0, 7.0, 8.0, 1.0);
    assert ComponentScores(1) == Scores(8.8, 8.6, 6.8, 8.2, 1.0);
    assert WeightedScore(ComponentScores(0), c) == 1065 as real / 100.0;
    assert WeightedScore(ComponentScores(1), c) == 1067 as real / 100.0;
    Round2OfHundredths(1065);
    Round2OfHundredths(1067);
  }

  /** A task can only be a quick win (effort below 3) from position 21 on. */
  lemma LowEffortOnlyLate(i: nat)
    ensures ComponentScores(i).effort < 3.0 <==> i > 20
  {
  }

  /** Rounding hides a HIGH item from the rounded top-priority test: 8.502 is HIGH, yet rounds to 8.5. */
  lemma RoundedTestMissesSomeHigh()
    ensures PriorityOf(8.502) == High
    ensures !(Round2(8.502) > HighThreshold)
  {
    assert 8.502 * 100.0 == 850.2;
    assert RoundHalfEven(850.2) == 850;
  }

  // ------------------------------------------------------------ ordering

  ghost predicate IsPermutation(perm: seq<nat>, n: nat)
  {
    && |perm| == n
    && (forall k :: 0 <= k < n ==> perm[k] < n)
    && (forall p, q :: 0 <= p < q < n ==> perm[p] != perm[q])
  }

  /** Non-increasing by `overallScore`. */
  ghost predicate SortedDesc(s: seq<RankedItem>)
  {
    forall p, q :: 0 <= p < q < |s| ==> s[p].overallScore >= s[q].overallScore
  }

  /** Items of equal score keep the relative order of their original positions `perm`. */
  ghost predicate StableWrt(s: seq<RankedItem>, perm: seq<nat>)
    requires |perm| == |s|
  {
    forall p, q :: 0 <= p < q < |s| && s[p].overallScore == s[q].overallScore ==> perm[p] < perm[q]
  }

  /** `a` holds the items of `orig`, the one at position `k` coming from position `perm[k]`. */
  ghost predicate Tracks(a: seq<RankedItem>, orig: seq<RankedItem>, perm: seq<nat>)
  {
    && |a| == |orig|
    && IsPermutation(perm, |a|)
    && (forall k :: 0 <= k < |a| ==> a[k] == orig[perm[k]])
  }

  /** The first `n` items are non-increasing by `overallScore`. */
  ghost predicate SortedUpTo(s: seq<RankedItem>, n: int)
  {
    forall p, q :: 0 <= p < q < n && q < |s| ==> s[p].overallScore >= s[q].overallScore
  }

  /**
   * `list.sort(key=overall_score, reverse=True)`, in place: a stable
   * insertion sort by adjacent swaps. `perm[k]` is the original position of
   * the item that ends up at position `k`.
   */
  method SortByScoreDesc(a: array<RankedItem>) returns (ghost perm: seq<nat>)
    modifies a
    ensures IsPermutation(perm, a.Length)
    ensures forall k :: 0 <= k < a.Length ==> a[k] == old(a[..])[perm[k]]
    ensures SortedDesc(a[..])
    ensures StableWrt(a[..], perm)
  {
    ghost var orig := a[..];
    var n := a.Length;
    perm := seq(n, k => k);
    assert forall k :: 0 <= k < n ==> perm[k] == k;
    assert Tracks(a[..], orig, perm);
    var i := 0;
    while i < n
      invariant 0 <= i <= n
      invariant Tracks(a[..], orig, perm)
      invariant SortedUpTo(a[..], i)
      invariant StableWrt(a[..], perm)
    {
      perm := InsertDown(a, i, perm, orig);
      i := i + 1;
    }
    assert Tracks(a[..], orig, perm);
    assert SortedDesc(a[..]);
  }

  /** Moves `a[i]` down past every item of strictly lower score, extending the sorted prefix by one. */
  method InsertDown(a: array<RankedItem>, i: int, ghost perm: seq<nat>, ghost orig: seq<RankedItem>)
      returns (ghost perm': seq<nat>)
    requires 0 <= i < a.Length
    requires Tracks(a[..], orig, perm) && StableWrt(a[..], perm)
    requires SortedUpTo(a[..], i)
    modifies a
    ensures Tracks(a[..], orig, perm') && StableWrt(a[..], perm')
    ensures SortedUpTo(a[..], i + 1)
  {
    perm' := perm;
    var j := i;
    while j > 0 && a[j - 1].overallScore < a[j].overallScore
      invariant 0 <= j <= i
      invariant Tracks(a[..], orig, perm') && StableWrt(a[..], perm')
      invariant SortedExcept(a[..], i, j) && BeatsRest(a[..], i, j)
    {
      ghost var before := a[..];
      perm' := SwapAdjacent(a, j, perm', orig);
      InsertionStep(before, a[..], i, j);
      j := j - 1;
    }
    InsertionDone(a[..], i, j);
  }

  /** The first `i + 1` items are in order, except possibly the one at `j`. */
  ghost predicate SortedExcept(s: seq<RankedItem>, i: int, j: int)
  {
    forall p, q :: 0 <= p < q <= i && q < |s| && p != j && q != j ==> s[p].overallScore >= s[q].overallScore
  }

  /** The item at `j` scores strictly more than every item after it, up to `i`. */
  ghost predicate BeatsRest(s: seq<RankedItem>, i: int, j: int)
  {
    0 <= j < |s| && forall q :: j < q <= i && q < |s| ==> s[j].overallScore > s[q].overallScore
  }

  lemma InsertionStep(s: seq<RankedItem>, t: seq<RankedItem>, i: int, j: int)
    requires 0 < j <= i < |s| == |t|
    requires SortedExcept(s, i, j) && BeatsRest(s, i, j)
    requires s[j - 1].overallScore < s[j].overallScore
    requires t == s[j - 1 := s[j]][j := s[j - 1]]
    ensures SortedExcept(t, i, j - 1) && BeatsRest(t, i, j - 1)
  {
  }

  lemma InsertionDone(s: seq<RankedItem>, i: int, j: int)
    requires 0 <= j <= i < |s|
    requires SortedExcept(s, i, j) && BeatsRest(s, i, j)
    requires j == 0 || s[j - 1].overallScore >= s[j].overallScore
    ensures SortedUpTo(s, i + 1)
  {
  }

  /** One step of the insertion: swap `a[j-1]` and `a[j]`, which are strictly out of order. */
  method SwapAdjacent(a: array<RankedItem>, j: int, ghost perm: seq<nat>, ghost orig: seq<RankedItem>)
      returns (ghost perm': seq<nat>)
    requires 0 < j < a.Length
    requires a[j - 1].overallScore < a[j].overallScore
    requires Tracks(a[..], orig, perm) && StableWrt(a[..], perm)
    modifies a
    ensures a[..] == old(a[..])[j - 1 := old(a[j])][j := old(a[j - 1])]
    ensures Tracks(a[..], orig, perm') && StableWrt(a[..], perm')
  {
    a[j - 1], a[j] := a[j], a[j - 1];
    perm' := perm[j - 1 := perm[j]][j := perm[j - 1]];
  }

  /** `item["rank"] = i + 1` for every position, in place. */
  method RenumberRanks(a: array<RankedItem>)
    modifies a
    ensures forall k :: 0 <= k < a.Length ==> a[k] == old(a[k]).(rank := k + 1)
  {
    var i := 0;
    while i < a.Length
      invariant 0 <= i <= a.Length
      invariant forall k :: 0 <= k < i ==> a[k] == old(a[k]).(rank := k + 1)
      invariant forall k :: i <= k < a.Length ==> a[k] == old(a[k])
    {
      a[i] := a[i].(rank := i + 1);
      i := i + 1;
    }
  }

  // ------------------------------------------------------------- insights

  /** An order-preserving list comprehension `[x for x in s if keep(x)]`. */
  function Filter(s: seq<RankedItem>, keep: RankedItem -> bool): (r: seq<RankedItem>)
    ensures |r| <= |s|
    ensures forall k :: 0 <= k < |r| ==> keep(r[k]) && r[k] in s
    ensures forall k :: 0 <= k < |s| && keep(s[k]) ==> s[k] in r
  {
    if s == [] then []
    else if keep(s[0]) then [s[0]] + Filter(s[1..], keep)
    else Filter(s[1..], keep)
  }

  predicate IsTopPriority(it: RankedItem) { it.overallScore > 8.5 }

  predicate IsQuickWin(it: RankedItem) { it.detailedScores.effort < 3.0 && it.overallScore > 7.0 }

  predicate IsHighImpact(it: RankedItem) { it.detailedScores.impact > 8.0 }

  predicate IsHighLevel(it: RankedItem) { it.recommendation.priorityLevel == High }

  function InsightsOf(items: seq<RankedItem>): Insights
  {
    Insights(|Filter(items, IsTopPriority)|, Filter(items, IsQuickWin), Filter(items, IsHighImpact))
  }

  /** Filtering distributes over concatenation, so it keeps the list's order. */
  lemma {:induction false} FilterAppend(s: seq<RankedItem>, t: seq<RankedItem>, keep: RankedItem -> bool)
    ensures Filter(s + t, keep) == Filter(s, keep) + Filter(t, keep)
  {
    if s == [] {
      assert s + t == t;
    } else {
      assert (s + t)[1..] == s[1..] + t;
      FilterAppend(s[1..], t, keep);
    }
  }

  /** A filter that every item passes returns the whole list. */
  lemma {:induction false} FilterKeepsAll(s: seq<RankedItem>, keep: RankedItem -> bool)
    requires forall k :: 0 <= k < |s| ==> keep(s[k])
    ensures Filter(s, keep) == s
  {
    if s != [] {
      FilterKeepsAll(s[1..], keep);
    }
  }

  /** If `keep` implies `wider`, the first filter is never longer than the second. */
  lemma {:induction false} FilterImpliesShorter(s: seq<RankedItem>, keep: RankedItem -> bool, wider: RankedItem -> bool)
    requires forall k :: 0 <= k < |s| && keep(s[k]) ==> wider(s[k])
    ensures |Filter(s, keep)| <= |Filter(s, wider)|
  {
    if s != [] {
      FilterImpliesShorter(s[1..], keep, wider);
    }
  }

  /** Every derived impact score is at least 8.5, so every ranked item is a high-impact project. */
  lemma HighImpactIsEverything(items: seq<RankedItem>)
    requires forall k :: 0 <= k < |items| ==> items[k].detailedScores.impact >= 8.5
    ensures InsightsOf(items).highImpactProjects == items
  {
    FilterKeepsAll(items, IsHighImpact);
  }

  /** The rounded top-priority count never exceeds the number of HIGH recommendations. */
  lemma TopCountAtMostHigh(items: seq<RankedItem>)
    requires forall k :: 0 <= k < |items| && IsTopPriority(items[k]) ==> IsHighLevel(items[k])
    ensures InsightsOf(items).topPriorityCount <= |Filter(items, IsHighLevel)|
  {
    FilterImpliesShorter(items, IsTopPriority, IsHighLevel);
  }

  // ------------------------------------------------------------- the tool

  /** The loop that appends one record per task, in input order. */
  method BuildRankedItems(tasks: seq<Task>, c: Criteria) returns (items: seq<RankedItem>)
    ensures |items| == |tasks|
    ensures forall i :: 0 <= i < |tasks| ==> items[i] == MakeItem(i, tasks[i], c)
  {
    items := [];
    var i := 0;
    while i < |tasks|
      invariant 0 <= i <= |tasks|
      invariant |items| == i
      invariant forall k :: 0 <= k < i ==> items[k] == MakeItem(k, tasks[k], c)
    {
      items := items + [MakeItem(i, tasks[i], c)];
      i := i + 1;
    }
  }

  /**
   * `intelligent_priority_ranking(tasks, criteria)`. The ghost `order` gives,
   * for each output position, the input position of the task placed there.
   */
  method IntelligentPriorityRanking(tasks: seq<Task>, criteria: Criteria)
      returns (result: RankingResult, ghost order: seq<nat>)
    ensures result.criteriaUsed == criteria
    ensures result.totalItemsRanked == |tasks| == |result.rankedItems|
    // a permutation of the input tasks, each with its own scores
    ensures IsPermutation(order, |tasks|)
    ensures forall k :: 0 <= k < |tasks| ==>
      result.rankedItems[k] == MakeItem(order[k], tasks[order[k]], criteria).(rank := k + 1)
    // ranks are exactly 1..N after renumbering
    ensures forall k :: 0 <= k < |tasks| ==> result.rankedItems[k].rank == k + 1
    // highest rounded score first; ties keep input order
    ensures SortedDesc(result.rankedItems)
    ensures StableWrt(result.rankedItems, order)
    ensures result.insights == InsightsOf(result.rankedItems)
    ensures result.insights.highImpactProjects == result.rankedItems
    ensures result.insights.topPriorityCount <= |Filter(result.rankedItems, IsHighLevel)|
    // only tasks from input position 21 on can be quick wins
    ensures forall k :: 0 <= k < |tasks| && IsQuickWin(result.rankedItems[k]) ==> order[k] > 20
  {
    var built := BuildRankedItems(tasks, criteria);
    var a := new RankedItem[|built|](k requires 0 <= k < |built| => built[k]);
    assert a[..] == built;
    order := SortByScoreDesc(a);
    ghost var sorted := a[..];
    RenumberRanks(a);
    var ranked := a[..];
    forall k | 0 <= k < |ranked|
      ensures ranked[k] == sorted[k].(rank := k + 1)
      ensures ranked[k] == MakeItem(order[k], tasks[order[k]], criteria).(rank := k + 1)
    {
    }
    assert forall k :: 0 <= k < |ranked| ==> ranked[k].overallScore == sorted[k].overallScore;
    forall k | 0 <= k < |ranked| && IsQuickWin(ranked[k])
      ensures order[k] > 20
    {
      LowEffortOnlyLate(order[k]);
    }
    HighImpactIsEverything(ranked);
    TopCountAtMostHigh(ranked);
    result := RankingResult(criteria, |tasks|, ranked, InsightsOf(ranked));
  }
}
