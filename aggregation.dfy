/**
 * The merge loop of `curateNews` (smart-curator.ts): every extracted story either
 * merges into the existing story it is most similar to, or starts a new one.
 * The JavaScript `Map` iterates in insertion order, so the collection is a sequence,
 * and story `k` carries the fresh id `k`.
 */
module Aggregation {
  import opened Wrappers
  import opened Similarity
  import opened NewsItems
  import opened Extraction
  import opened FeedTiers
  import opened Seqs

  /** One entry of a story's score trace. */
  datatype Boost =
    | CrossSourceBoost(amount: int, threePlus: bool)  // "+2 (3+ sources)" or "+1 (2 sources)"
    | CategoryBoostApplied(amount: int, category: string)  // "+N (category)"
    | RecencyBoost  // "+1 (recent)"
    | TierWeightApplied(weightTenths: int, tier: int)  // "×w (tier t)"

  /** An aggregated story. Scores are in tenths; `tier` is the originating item's tier. */
  datatype Story = Story(
    id: nat,
    headline: string,
    summary: string,
    category: string,
    baseScore: int,
    finalScore: int,
    entities: seq<string>,
    originalUrl: Option<string>,
    sources: seq<string>,
    publishedAt: int,
    crossSourceCount: int,
    boosts: seq<Boost>,
    tier: int)

  /** The sources are distinct and counted by `crossSourceCount`. */
  ghost predicate ValidStory(s: Story) {
    Distinct(s.sources) && s.crossSourceCount == |s.sources| && |s.sources| >= 1
  }

  /** Every story is valid and story `k` has id `k`, so ids are distinct. */
  ghost predicate ValidStories(stories: seq<Story>) {
    forall k :: 0 <= k < |stories| ==> stories[k].id == k && ValidStory(stories[k])
  }

  function Sim(headline: string, s: Story): (r: Ratio)
    ensures ValidRatio(r)
  {
    CalculateSimilarity(headline, s.headline)
  }

  /** The similarity of `headline` to each story, in insertion order. */
  function Sims(stories: seq<Story>, headline: string): (r: seq<Ratio>)
    ensures |r| == |stories| && forall k :: 0 <= k < |r| ==> r[k] == Sim(headline, stories[k]) && ValidRatio(r[k])
  {
    seq(|stories|, k requires 0 <= k < |stories| => Sim(headline, stories[k]))
  }

  /**
   * The index the source's scan settles on: the first one, in order, of those whose
   * ratio is above one half and maximal. Defined over ever longer prefixes.
   */
  function BestIndex(sims: seq<Ratio>): (m: Option<nat>)
    ensures m.Some? ==> m.value < |sims|
  {
    if sims == [] then None
    else
      var n := |sims| - 1;
      var b := BestIndex(sims[..n]);
      if AboveHalf(sims[n]) && (b.None? || Greater(sims[n], sims[b.value])) then Some(n) else b
  }

  /** Index `k` is above the threshold, strictly greater than every earlier ratio, and at least every later one. */
  ghost predicate IsBest(sims: seq<Ratio>, k: nat) {
    && k < |sims|
    && AboveHalf(sims[k])
    && (forall j :: 0 <= j < k ==> Greater(sims[k], sims[j]))
    && (forall j :: k < j < |sims| ==> !Greater(sims[j], sims[k]))
  }

  /** There is a match exactly when some ratio is above one half, and then it is the earliest maximal one. */
  lemma {:induction false} BestIndexCorrect(sims: seq<Ratio>)
    requires forall j :: 0 <= j < |sims| ==> ValidRatio(sims[j])
    ensures BestIndex(sims).None? <==> forall j :: 0 <= j < |sims| ==> !AboveHalf(sims[j])
    ensures BestIndex(sims).Some? ==> IsBest(sims, BestIndex(sims).value)
  {
    if sims != [] {
      var n := |sims| - 1;
      var init := sims[..n];
      BestIndexCorrect(init);
      var b := BestIndex(init);
      var sim := sims[n];
      assert forall j :: 0 <= j < n ==> init[j] == sims[j];
      if AboveHalf(sim) && (b.None? || Greater(sim, sims[b.value])) {
        forall j | 0 <= j < n ensures Greater(sim, sims[j]) {
          if b.None? {
            AboveHalfGreater(sim, sims[j]);
          } else {
            var sb := sims[b.value];
            if j < b.value {
              GreaterAsym(sb, sims[j]);
            }
            GreaterTrans(sim, sb, sims[j]);
          }
        }
      } else if b.Some? {
        if !AboveHalf(sim) {
          AboveHalfGreater(sims[b.value], sim);
          GreaterAsym(sims[b.value], sim);
        }
      }
    }
  }

  lemma BestIndexStep(sims: seq<Ratio>, i: nat)
    requires i < |sims|
    ensures var b := BestIndex(sims[..i]);
      BestIndex(sims[..i + 1]) ==
        if AboveHalf(sims[i]) && (b.None? || Greater(sims[i], sims[b.value])) then Some(i) else b
  {
    assert sims[..i + 1][..i] == sims[..i];
  }

  /** The story a headline merges into. */
  function BestMatch(stories: seq<Story>, headline: string): (m: Option<nat>)
    ensures m.Some? ==> m.value < |stories|
  {
    BestIndex(Sims(stories, headline))
  }

  /** There is a match exactly when some story is more than half similar, and then it is the earliest most similar one. */
  lemma BestMatchCorrect(stories: seq<Story>, headline: string)
    ensures BestMatch(stories, headline).None? <==>
      forall j :: 0 <= j < |stories| ==> !AboveHalf(Sim(headline, stories[j]))
    ensures BestMatch(stories, headline).Some? ==> IsBest(Sims(stories, headline), BestMatch(stories, headline).value)
  {
    BestIndexCorrect(Sims(stories, headline));
  }

  /** `sources.includes(name)` then push, and take the incoming score and framing when strictly higher. */
  function Merge(existing: Story, raw: RawStory, sourceName: string): (s: Story)
    ensures ValidStory(existing) ==> ValidStory(s)
    ensures sourceName in s.sources && forall x :: x in existing.sources ==> x in s.sources
    ensures |s.sources| <= |existing.sources| + 1
    ensures s.baseScore >= existing.baseScore && s.baseScore >= raw.baseScore
    ensures s.baseScore == existing.baseScore || s.baseScore == raw.baseScore
    ensures raw.baseScore > existing.baseScore ==>
      s.headline == raw.headline && s.summary == raw.summary
    ensures raw.baseScore <= existing.baseScore ==>
      s.headline == existing.headline && s.summary == existing.summary && s.baseScore == existing.baseScore
    ensures s.id == existing.id && s.category == existing.category && s.entities == existing.entities
    ensures s.originalUrl == existing.originalUrl && s.publishedAt == existing.publishedAt && s.tier == existing.tier
  {
    var counted :=
      if sourceName in existing.sources then existing
      else existing.(sources := existing.sources + [sourceName], crossSourceCount := existing.crossSourceCount + 1);
    if raw.baseScore > counted.baseScore then
      counted.(baseScore := raw.baseScore, headline := raw.headline, summary := raw.summary)
    else counted
  }

  /** A new story: category defaults to 'other', a zero (falsy) base score to 5. */
  function NewStory(id: nat, raw: RawStory, item: NewsItem, tier: int): (s: Story)
    ensures ValidStory(s) && s.sources == [item.sourceName]
    ensures s.id == id && s.headline == raw.headline && s.summary == raw.summary
    ensures s.category == if raw.category == [] then "other" else raw.category
    ensures s.baseScore == if raw.baseScore == 0 then 50 else raw.baseScore
    ensures s.publishedAt == item.publishedAt && s.tier == tier && s.boosts == []
  {
    Story(id, raw.headline, raw.summary, if raw.category == [] then "other" else raw.category,
          if raw.baseScore == 0 then 50 else raw.baseScore, 0, raw.entities, raw.originalUrl,
          [item.sourceName], item.publishedAt, 1, [], tier)
  }

  /** One extracted story folded into the collection. */
  function AddStory(stories: seq<Story>, raw: RawStory, item: NewsItem, tier: int): seq<Story> {
    match BestMatch(stories, raw.headline)
    case Some(k) => stories[k := Merge(stories[k], raw, item.sourceName)]
    case None => stories + [NewStory(|stories|, raw, item, tier)]
  }

  /** The stories of one item, folded in order. */
  function AddAll(stories: seq<Story>, raws: seq<RawStory>, item: NewsItem, tier: int): seq<Story> {
    if raws == [] then stories
    else AddStory(AddAll(stories, raws[..|raws| - 1], item, tier), raws[|raws| - 1], item, tier)
  }

  /** The collection after processing `items` in order, extracting each one's stories. */
  function AggregateAll(items: seq<NewsItem>, tiers: map<string, int>, scrape: Scraper, oracle: Oracle): seq<Story> {
    if items == [] then []
    else
      var last := items[|items| - 1];
      AddAll(AggregateAll(items[..|items| - 1], tiers, scrape, oracle),
             ExtractStories(last, scrape, oracle), last, TierOf(tiers, last.sourceName))
  }

  lemma MergeKeepsValid(stories: seq<Story>, k: nat, raw: RawStory, sourceName: string)
    requires ValidStories(stories) && k < |stories|
    ensures ValidStories(stories[k := Merge(stories[k], raw, sourceName)])
  {
    var r := stories[k := Merge(stories[k], raw, sourceName)];
    forall j | 0 <= j < |r| ensures r[j].id == j && ValidStory(r[j]) {
      if j != k { assert r[j] == stories[j]; }
    }
  }

  /**
   * Adding a story either merges it into the best match (when one is more than half
   * similar), keeping the collection's length, or appends a new story with the next fresh id.
   */
  lemma AddStoryEffect(stories: seq<Story>, raw: RawStory, item: NewsItem, tier: int)
    requires ValidStories(stories)
    ensures ValidStories(AddStory(stories, raw, item, tier))
    ensures (exists j :: 0 <= j < |stories| && AboveHalf(Sim(raw.headline, stories[j]))) ==>
      |AddStory(stories, raw, item, tier)| == |stories|
    ensures (forall j :: 0 <= j < |stories| ==> !AboveHalf(Sim(raw.headline, stories[j]))) ==>
      AddStory(stories, raw, item, tier) == stories + [NewStory(|stories|, raw, item, tier)]
  {
    BestMatchCorrect(stories, raw.headline);
    match BestMatch(stories, raw.headline)
    case Some(k) => MergeKeepsValid(stories, k, raw, item.sourceName);
    case None =>
      var r := stories + [NewStory(|stories|, raw, item, tier)];
      forall j | 0 <= j < |r| ensures r[j].id == j && ValidStory(r[j]) {
        if j < |stories| { assert r[j] == stories[j]; }
      }
  }

  /** Merging keeps every earlier story in place, never lowers a base score, and keeps category, date and tier. */
  ghost predicate Grows(before: seq<Story>, after: seq<Story>) {
    && |before| <= |after|
    && forall k :: 0 <= k < |before| ==> StoryGrows(before[k], after[k])
  }

  ghost predicate StoryGrows(a: Story, b: Story) {
    && b.id == a.id
    && b.baseScore >= a.baseScore
    && b.category == a.category
    && b.publishedAt == a.publishedAt
    && b.tier == a.tier
    && b.originalUrl == a.originalUrl
    && (forall x :: x in a.sources ==> x in b.sources)
  }

  lemma AddStoryGrows(stories: seq<Story>, raw: RawStory, item: NewsItem, tier: int)
    ensures Grows(stories, AddStory(stories, raw, item, tier))
  {
    var r := AddStory(stories, raw, item, tier);
    forall k | 0 <= k < |stories| ensures StoryGrows(stories[k], r[k]) {
      match BestMatch(stories, raw.headline)
      case Some(m) =>
        if k != m { assert r[k] == stories[k]; }
      case None =>
        assert r[k] == stories[k];
    }
  }

  lemma GrowsTrans(a: seq<Story>, b: seq<Story>, c: seq<Story>)
    requires Grows(a, b) && Grows(b, c)
    ensures Grows(a, c)
  {
    forall k | 0 <= k < |a| ensures StoryGrows(a[k], c[k]) {
      assert StoryGrows(a[k], b[k]) && StoryGrows(b[k], c[k]);
    }
  }

  lemma {:induction false} AddAllValid(stories: seq<Story>, raws: seq<RawStory>, item: NewsItem, tier: int)
    requires ValidStories(stories)
    ensures ValidStories(AddAll(stories, raws, item, tier))
    ensures Grows(stories, AddAll(stories, raws, item, tier))
    ensures |AddAll(stories, raws, item, tier)| <= |stories| + |raws|
  {
    if raws != [] {
      var prev := AddAll(stories, raws[..|raws| - 1], item, tier);
      AddAllValid(stories, raws[..|raws| - 1], item, tier);
      AddStoryEffect(prev, raws[|raws| - 1], item, tier);
      AddStoryGrows(prev, raws[|raws| - 1], item, tier);
      GrowsTrans(stories, prev, AddAll(stories, raws, item, tier));
    }
  }

  /** After every create or merge the collection is valid: distinct ids, distinct sources, count equals sources. */
  lemma {:induction false} AggregateAllValid(items: seq<NewsItem>, tiers: map<string, int>, scrape: Scraper, oracle: Oracle)
    ensures ValidStories(AggregateAll(items, tiers, scrape, oracle))
  {
    if items != [] {
      var last := items[|items| - 1];
      AggregateAllValid(items[..|items| - 1], tiers, scrape, oracle);
      AddAllValid(AggregateAll(items[..|items| - 1], tiers, scrape, oracle),
                  ExtractStories(last, scrape, oracle), last, TierOf(tiers, last.sourceName));
    }
  }

  /** The source's scan over the collection, keeping the strictly best similarity above 0.5. */
  method FindMatch(stories: seq<Story>, headline: string) returns (matched: Option<nat>)
    ensures matched == BestMatch(stories, headline)
  {
    ghost var sims := Sims(stories, headline);
    matched := None;
    var maxSimilarity := Ratio(0, 1);
    for i := 0 to |stories|
      invariant matched == BestIndex(sims[..i])
      invariant matched.Some? ==> matched.value < i && maxSimilarity == sims[matched.value]
      invariant matched.None? ==> maxSimilarity == Ratio(0, 1)
    {
      var similarity := Sim(headline, stories[i]);
      assert similarity == sims[i];
      BestIndexStep(sims, i);
      ghost var b := BestIndex(sims[..i]);
      assert AboveHalf(similarity) ==> similarity.num > 0;
      assert b.None? ==> (Greater(similarity, maxSimilarity) <==> similarity.num > 0);
      assert b.Some? ==> maxSimilarity == sims[b.value];
      if AboveHalf(similarity) && Greater(similarity, maxSimilarity) {
        matched := Some(i);
        maxSimilarity := similarity;
      }
    }
    assert sims[..|stories|] == sims;
  }

  /** Merge into the best match or create a new story, as the loop body does. */
  method MergeOrCreate(stories: seq<Story>, raw: RawStory, item: NewsItem, tier: int) returns (r: seq<Story>)
    ensures r == AddStory(stories, raw, item, tier)
  {
    var matchedKey := FindMatch(stories, raw.headline);
    if matchedKey.Some? {
      var k := matchedKey.value;
      r := stories[k := Merge(stories[k], raw, item.sourceName)];
    } else {
      r := stories + [NewStory(|stories|, raw, item, tier)];
    }
  }

  /** The inner loop over one item's extracted stories. */
  method MergeAll(stories: seq<Story>, extracted: seq<RawStory>, item: NewsItem, tier: int) returns (r: seq<Story>)
    ensures r == AddAll(stories, extracted, item, tier)
  {
    r := stories;
    for j := 0 to |extracted|
      invariant r == AddAll(stories, extracted[..j], item, tier)
    {
      assert extracted[..j + 1][..j] == extracted[..j];
      r := MergeOrCreate(r, extracted[j], item, tier);
    }
    assert extracted[..|extracted|] == extracted;
  }

  lemma AggregateAllSnoc(items: seq<NewsItem>, i: nat, tiers: map<string, int>, scrape: Scraper, oracle: Oracle)
    requires i < |items|
    ensures AggregateAll(items[..i + 1], tiers, scrape, oracle)
         == AddAll(AggregateAll(items[..i], tiers, scrape, oracle), ExtractStories(items[i], scrape, oracle),
                   items[i], TierOf(tiers, items[i].sourceName))
  {
    assert items[..i + 1][..i] == items[..i];
  }

  /** Stage 2 of `curateNews`: extract each item's stories in order and fold them into the collection. */
  method Aggregate(items: seq<NewsItem>, tiers: map<string, int>, scrape: Scraper, oracle: Oracle)
    returns (stories: seq<Story>)
    ensures stories == AggregateAll(items, tiers, scrape, oracle)
    ensures ValidStories(stories)
  {
    stories := [];
    for i := 0 to |items|
      invariant stories == AggregateAll(items[..i], tiers, scrape, oracle)
    {
      var item := items[i];
      var extracted := ExtractStories(item, scrape, oracle);
      AggregateAllSnoc(items, i, tiers, scrape, oracle);
      stories := MergeAll(stories, extracted, item, TierOf(tiers, item.sourceName));
    }
    assert items[..|items|] == items;
    AggregateAllValid(items, tiers, scrape, oracle);
  }
}
