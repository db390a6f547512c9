/**
 * Stage 3 of `curateNews` (smart-curator.ts): each story's final score is its base score
 * plus the cross-source, category and recency boosts, times its tier's weight (rounded to
 * tenths, skipped for weight 1.0), capped at 10. Scores are integers in tenths, times in ms.
 */
module Scoring {
  import opened Config
  import opened Aggregation

  const HourMs: int := 3600000
  const ScoreCap: int := 100

  /** The cross-source boost, in tenths: 2 for three or more sources, 1 for two. */
  function CrossSourcePoints(count: int): int {
    if count >= 3 then 10 * ThreePlusSourcesBoost else if count >= 2 then 10 * TwoSourcesBoost else 0
  }

  /** `SCORING_CONFIG.categoryBoost[category]` when truthy, in tenths; 0 for categories not in the table. */
  function CategoryPoints(category: string): int {
    if category in CategoryBoost && CategoryBoost[category] != 0 then 10 * CategoryBoost[category] else 0
  }

  /** `hoursAgo < recencyBoostHours`, with `hoursAgo` the exact quotient of the age by one hour. */
  predicate Recent(publishedAt: int, now: int) {
    now - publishedAt < RecencyBoostHours * HourMs
  }

  /** `tierWeight[tier] ?? 1.0`, in tenths. */
  function WeightOf(tier: int): int {
    if tier in TierWeightTenths then TierWeightTenths[tier] else 10
  }

  /** `Math.round(score * weight * 10) / 10` for a score and a weight in tenths: round half up to a tenth. */
  function Weighted(score: int, weightTenths: int): int {
    (score * weightTenths + 5) / 10
  }

  function CrossSourceEntry(s: Story): seq<Boost> {
    if s.crossSourceCount >= 3 then [CrossSourceBoost(ThreePlusSourcesBoost, true)]
    else if s.crossSourceCount >= 2 then [CrossSourceBoost(TwoSourcesBoost, false)] else []
  }

  function CategoryEntry(s: Story): seq<Boost> {
    if CategoryPoints(s.category) != 0 then [CategoryBoostApplied(CategoryBoost[s.category], s.category)] else []
  }

  function RecencyEntry(s: Story, now: int): seq<Boost> {
    if Recent(s.publishedAt, now) then [RecencyBoost] else []
  }

  function TierEntry(s: Story): seq<Boost> {
    if WeightOf(s.tier) != 10 then [TierWeightApplied(WeightOf(s.tier), s.tier)] else []
  }

  /** The boosts the scorer records, in the order it applies them. */
  function Trace(s: Story, now: int): seq<Boost> {
    CrossSourceEntry(s) + CategoryEntry(s) + RecencyEntry(s, now) + TierEntry(s)
  }

  /** The score after the additive boosts, before the tier weight. */
  function Added(s: Story, now: int): int {
    s.baseScore + CrossSourcePoints(s.crossSourceCount) + CategoryPoints(s.category)
      + (if Recent(s.publishedAt, now) then 10 else 0)
  }

  /** One pass of the scoring loop over a story; nothing but its final score and trace changes. */
  function ScoreStory(s: Story, now: int): (r: Story)
    ensures r.(finalScore := s.finalScore, boosts := s.boosts) == s
    ensures r.finalScore <= ScoreCap
  {
    var added := Added(s, now);
    var weighted := if WeightOf(s.tier) != 10 then Weighted(added, WeightOf(s.tier)) else added;
    s.(finalScore := if weighted < ScoreCap then weighted else ScoreCap, boosts := Trace(s, now))
  }

  /** What one trace entry does to the running score. */
  function Apply(score: int, b: Boost): int {
    match b
    case CrossSourceBoost(amount, _) => score + 10 * amount
    case CategoryBoostApplied(amount, _) => score + 10 * amount
    case RecencyBoost => score + 10
    case TierWeightApplied(w, _) => Weighted(score, w)
  }

  /** Replaying a trace from a starting score. */
  function Replay(score: int, trace: seq<Boost>): int {
    if trace == [] then score else Apply(Replay(score, trace[..|trace| - 1]), trace[|trace| - 1])
  }

  /** Position of a boost kind in the scorer's sequence of steps. */
  function Rank(b: Boost): int {
    match b
    case CrossSourceBoost(_, _) => 0
    case CategoryBoostApplied(_, _) => 1
    case RecencyBoost => 2
    case TierWeightApplied(_, _) => 3
  }

  lemma {:induction false} ReplayConcat(score: int, t: seq<Boost>, u: seq<Boost>)
    ensures Replay(score, t + u) == Replay(Replay(score, t), u)
  {
    if u == [] {
      assert t + u == t;
    } else {
      var u' := u[..|u| - 1];
      ReplayConcat(score, t, u');
      assert (t + u)[..|t + u| - 1] == t + u';
    }
  }

  /** Replaying at most one entry. */
  lemma ReplayShort(v: int, t: seq<Boost>)
    requires |t| <= 1
    ensures Replay(v, t) == if t == [] then v else Apply(v, t[0])
  {
    if t != [] { assert t[..0] == []; }
  }

  lemma ReplayAdditiveEntries(s: Story, now: int)
    ensures Replay(s.baseScore, CrossSourceEntry(s) + CategoryEntry(s) + RecencyEntry(s, now)) == Added(s, now)
  {
    var b := s.baseScore;
    var x, c, e := CrossSourceEntry(s), CategoryEntry(s), RecencyEntry(s, now);
    ReplayConcat(b, x, c);
    ReplayConcat(b, x + c, e);
    ReplayShort(b, x);
    var v1 := Replay(b, x);
    ReplayShort(v1, c);
    var v2 := Replay(v1, c);
    ReplayShort(v2, e);
  }

  /** The trace explains the score: replaying the recorded boosts from the base score and capping at 10 gives the final score. */
  lemma TraceExplainsScore(s: Story, now: int)
    ensures ScoreStory(s, now).finalScore == Min(ScoreCap, Replay(s.baseScore, ScoreStory(s, now).boosts))
  {
    var x, c, e, w := CrossSourceEntry(s), CategoryEntry(s), RecencyEntry(s, now), TierEntry(s);
    ReplayAdditiveEntries(s, now);
    ReplayConcat(s.baseScore, x + c + e, w);
    ReplayShort(Added(s, now), w);
  }

  /** The entries appear in the order the scorer applies them: cross-source, category, recency, tier weight. */
  lemma TraceOrdered(s: Story, now: int)
    ensures forall i, j :: 0 <= i < j < |Trace(s, now)| ==> Rank(Trace(s, now)[i]) < Rank(Trace(s, now)[j])
  {
    var t := Trace(s, now);
    assert forall i :: 0 <= i < |t| ==> t[i] in CrossSourceEntry(s) + CategoryEntry(s) + RecencyEntry(s, now) + TierEntry(s);
    forall i, j | 0 <= i < j < |t| ensures Rank(t[i]) < Rank(t[j]) {
      var x, c, e := CrossSourceEntry(s), CategoryEntry(s), RecencyEntry(s, now);
      assert |x| <= 1 && |c| <= 1 && |e| <= 1;
      assert forall k :: 0 <= k < |x| ==> Rank(t[k]) == 0;
      assert forall k :: |x| <= k < |x| + |c| ==> Rank(t[k]) == 1;
      assert forall k :: |x| + |c| <= k < |x| + |c| + |e| ==> Rank(t[k]) == 2;
      assert forall k :: |x| + |c| + |e| <= k < |t| ==> Rank(t[k]) == 3;
    }
  }

  /** The cross-source entry is recorded iff two or more sources, the recency entry iff recent, the weight entry iff the weight is not 1.0. */
  lemma TraceEntries(s: Story, now: int)
    ensures (exists i :: 0 <= i < |Trace(s, now)| && Trace(s, now)[i].CrossSourceBoost?) <==> s.crossSourceCount >= 2
    ensures (exists i :: 0 <= i < |Trace(s, now)| && Trace(s, now)[i] == RecencyBoost) <==> Recent(s.publishedAt, now)
    ensures (exists i :: 0 <= i < |Trace(s, now)| && Trace(s, now)[i].TierWeightApplied?) <==> WeightOf(s.tier) != 10
    ensures (exists i :: 0 <= i < |Trace(s, now)| && Trace(s, now)[i].CategoryBoostApplied?) <==>
      s.category in CategoryBoost && CategoryBoost[s.category] != 0
  {
    var t := Trace(s, now);
    if s.crossSourceCount >= 2 { assert t[0].CrossSourceBoost?; }
    if Recent(s.publishedAt, now) { assert RecencyBoost in t; }
    if WeightOf(s.tier) != 10 { assert t[|t| - 1].TierWeightApplied?; }
    if s.category in CategoryBoost && CategoryBoost[s.category] != 0 {
      assert CategoryBoostApplied(CategoryBoost[s.category], s.category) in t;
    }
  }

  /** A tier-1 story (weight 1.0) and a story of an unlisted tier get no multiplier. */
  lemma NoMultiplierForTierOne(s: Story, now: int)
    requires s.tier == 1 || s.tier !in TierWeightTenths
    ensures forall i :: 0 <= i < |ScoreStory(s, now).boosts| ==> !ScoreStory(s, now).boosts[i].TierWeightApplied?
    ensures ScoreStory(s, now).finalScore == Min(ScoreCap,
      s.baseScore + CrossSourcePoints(s.crossSourceCount) + CategoryPoints(s.category) + (if Recent(s.publishedAt, now) then 10 else 0))
  {
  }

  function Min(a: int, b: int): int {
    if a < b then a else b
  }

  lemma WeightedMono(a: int, b: int, w: int)
    requires a <= b && w >= 0
    ensures Weighted(a, w) <= Weighted(b, w)
  {
    assert a * w <= b * w by {
      assert (b - a) * w >= 0;
    }
  }

  /** A higher base score never gives a lower final score, and a non-negative base gives a score in [0, 10]. */
  lemma ScoreMonotone(s: Story, base2: int, now: int)
    requires s.baseScore <= base2
    ensures ScoreStory(s, now).finalScore <= ScoreStory(s.(baseScore := base2), now).finalScore
    ensures s.baseScore >= 0 ==> 0 <= ScoreStory(s, now).finalScore <= ScoreCap
  {
    var extra := CrossSourcePoints(s.crossSourceCount) + CategoryPoints(s.category) + (if Recent(s.publishedAt, now) then 10 else 0);
    var w := WeightOf(s.tier);
    assert w >= 0 by { TierWeightBounds(); }
    WeightedMono(s.baseScore + extra, base2 + extra, w);
    if s.baseScore >= 0 {
      WeightedMono(0, s.baseScore + extra, w);
    }
  }

  /**
   * Worked cases: a base-6 story seen in three sources, a security breach, one hour old, from
   * an official blog (tier 3) reaches the cap of 10; a base-6 single-source story from a news
   * site (tier 2), a day old, scores 5.4 and falls below the display threshold.
   */
  lemma ScoringExamples(s: Story)
    requires s.baseScore == 60 && s.crossSourceCount == 3 && s.category == "security_breach"
    requires s.publishedAt == 0 && s.tier == 3
    ensures ScoreStory(s, HourMs).finalScore == 100
    ensures |ScoreStory(s, HourMs).boosts| == 4
    ensures var t := s.(crossSourceCount := 1, category := "other", tier := 2);
      ScoreStory(t, 24 * HourMs).finalScore == 54 < 10 * MinScoreToShow
  {
    assert CategoryPoints("security_breach") == 20;
    assert CategoryPoints("other") == 0;
  }

  /** The loop body for one story: accumulate the boosts, apply the weight, cap, record the trace. */
  method ScoreOne(story: Story, now: int) returns (r: Story)
    ensures r == ScoreStory(story, now)
  {
    var finalScore := story.baseScore;
    var boosts: seq<Boost> := [];
    if story.crossSourceCount >= 3 {
      finalScore := finalScore + 10 * ThreePlusSourcesBoost;
      boosts := boosts + [CrossSourceBoost(ThreePlusSourcesBoost, true)];
    } else if story.crossSourceCount >= 2 {
      finalScore := finalScore + 10 * TwoSourcesBoost;
      boosts := boosts + [CrossSourceBoost(TwoSourcesBoost, false)];
    }
    assert finalScore == story.baseScore + CrossSourcePoints(story.crossSourceCount);
    assert boosts == CrossSourceEntry(story);
    if story.category in CategoryBoost && CategoryBoost[story.category] != 0 {
      var categoryBoost := CategoryBoost[story.category];
      finalScore := finalScore + 10 * categoryBoost;
      boosts := boosts + [CategoryBoostApplied(categoryBoost, story.category)];
    }
    assert finalScore == story.baseScore + CrossSourcePoints(story.crossSourceCount) + CategoryPoints(story.category);
    assert boosts == CrossSourceEntry(story) + CategoryEntry(story);
    if now - story.publishedAt < RecencyBoostHours * HourMs {
      finalScore := finalScore + 10;
      boosts := boosts + [RecencyBoost];
    }
    assert boosts == CrossSourceEntry(story) + CategoryEntry(story) + RecencyEntry(story, now);
    var tierWeight := WeightOf(story.tier);
    if tierWeight != 10 {
      finalScore := Weighted(finalScore, tierWeight);
      boosts := boosts + [TierWeightApplied(tierWeight, story.tier)];
    }
    assert boosts == Trace(story, now);
    r := story.(finalScore := Min(finalScore, ScoreCap), boosts := boosts);
  }

  /** The scoring loop, updating each story of the collection in place. */
  method ScoreAll(stories: seq<Story>, now: int) returns (scored: seq<Story>)
    ensures |scored| == |stories|
    ensures forall k :: 0 <= k < |stories| ==> scored[k] == ScoreStory(stories[k], now)
  {
    scored := stories;
    for k := 0 to |stories|
      invariant |scored| == |stories|
      invariant forall j :: 0 <= j < k ==> scored[j] == ScoreStory(stories[j], now)
      invariant forall j :: k <= j < |stories| ==> scored[j] == stories[j]
    {
      var story := ScoreOne(scored[k], now);
      scored := scored[k := story];
    }
  }
}
