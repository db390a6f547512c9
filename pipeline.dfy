/**
 * `curateNews` of smart-curator.ts end to end: fetch every default and custom feed,
 * balance the sources, extract and merge the stories of the first thirty candidates,
 * score them, keep those at or above the threshold, and report the statistics.
 */
module Pipeline {
  import opened Config
  import opened NewsItems
  import opened Reddit
  import opened FeedParser
  import opened NewsFetcher
  import opened Extraction
  import opened FeedTiers
  import opened Balancing
  import opened Aggregation
  import opened Scoring
  import opened Curation
  import opened Seqs
  import opened Text

  /** `[...defaultConfig.rssFeeds, ...customFeeds]` */
  function AllFeeds(customFeeds: seq<Feed>): seq<Feed> {
    DefaultFeeds + customFeeds
  }

  /** The scoring loop over the whole collection. */
  function ScoredAll(stories: seq<Story>, now: int): (r: seq<Story>)
    ensures |r| == |stories|
  {
    seq(|stories|, k requires 0 <= k < |stories| => ScoreStory(stories[k], now))
  }

  datatype Curated = Curated(stories: seq<Story>, stats: Stats)

  /** What `curateNews` returns for the given collaborators and clock. */
  function Curate(customFeeds: seq<Feed>, http: Http, parse: XmlParser, parseDate: DateParser,
                  scrape: Scraper, oracle: Oracle, now: int): Curated
  {
    CurateFeeds(AllFeeds(customFeeds), http, parse, parseDate, scrape, oracle, now)
  }

  /** The same, once the default and custom feeds are joined into `allFeeds`. */
  function CurateFeeds(feeds: seq<Feed>, http: Http, parse: XmlParser, parseDate: DateParser,
                       scrape: Scraper, oracle: Oracle, now: int): Curated
  {
    var allNews := AllNews(FeedResults(feeds, http, parse, parseDate, now), now);
    var tiers := TierMap(feeds);
    var candidates := OrderCandidates(Balance(allNews, tiers), tiers);
    var stories := AggregateAll(ToProcess(allNews, tiers), tiers, scrape, oracle);
    Curated(SelectStories(ScoredAll(stories, now)), MakeStats(feeds, allNews, candidates))
  }

  /**
   * The returned stories all meet the threshold and are capped, come highest score first,
   * have distinct ids and valid source lists, and are exactly the scored stories that meet
   * the threshold.
   */
  lemma SelectedFacts(stories: seq<Story>, now: int)
    requires ValidStories(stories)
    ensures var r := SelectStories(ScoredAll(stories, now));
      && (forall s :: s in r <==> s in ScoredAll(stories, now) && Shown(s))
      && (forall s :: s in r ==> 10 * MinScoreToShow <= s.finalScore <= ScoreCap && ValidStory(s))
      && (forall i, j :: 0 <= i < j < |r| ==> r[j].finalScore <= r[i].finalScore)
      && (forall i, j :: 0 <= i < j < |r| ==> r[i].id != r[j].id)
  {
    var scored := ScoredAll(stories, now);
    assert forall k :: 0 <= k < |scored| ==> scored[k].id == k && ValidStory(scored[k]);
    SelectStoriesCorrect(scored);
    SelectStoriesDistinctIds(scored);
  }

  /**
   * What `curateNews` returns: stories that all meet the threshold and the cap, highest score
   * first, with distinct ids and valid source lists, exactly the scored stories of the first
   * thirty candidates that meet the threshold; and one analysed source per feed.
   */
  lemma CurateCorrect(customFeeds: seq<Feed>, http: Http, parse: XmlParser, parseDate: DateParser,
                      scrape: Scraper, oracle: Oracle, now: int)
    ensures var c := Curate(customFeeds, http, parse, parseDate, scrape, oracle, now);
      var feeds := AllFeeds(customFeeds);
      var allNews := AllNews(FeedResults(feeds, http, parse, parseDate, now), now);
      var stories := AggregateAll(ToProcess(allNews, TierMap(feeds)), TierMap(feeds), scrape, oracle);
      && c.stories == SelectStories(ScoredAll(stories, now))
      && (forall s :: s in c.stories ==> 10 * MinScoreToShow <= s.finalScore <= ScoreCap && ValidStory(s))
      && (forall i, j :: 0 <= i < j < |c.stories| ==> c.stories[j].finalScore <= c.stories[i].finalScore)
      && (forall i, j :: 0 <= i < j < |c.stories| ==> c.stories[i].id != c.stories[j].id)
      && (forall s :: s in c.stories <==> s in ScoredAll(stories, now) && Shown(s))
      && ValidStories(stories)
      && c.stats.articlesProcessed <= TotalLimit
      && c.stats.sourcesAnalyzed == |feeds|
  {
    var feeds := AllFeeds(customFeeds);
    var allNews := AllNews(FeedResults(feeds, http, parse, parseDate, now), now);
    var tiers := TierMap(feeds);
    var candidates := OrderCandidates(Balance(allNews, tiers), tiers);
    var stories := AggregateAll(ToProcess(allNews, tiers), tiers, scrape, oracle);
    AggregateAllValid(ToProcess(allNews, tiers), tiers, scrape, oracle);
    SelectedFacts(stories, now);
    MakeStatsCorrect(feeds, allNews, candidates);
  }

  /** Sorting keeps every element once, so stories with distinct ids keep distinct ids. */
  lemma SelectStoriesDistinctIds(scored: seq<Story>)
    requires forall k :: 0 <= k < |scored| ==> scored[k].id == k
    ensures var r := SelectStories(scored);
      forall i, j :: 0 <= i < j < |r| ==> r[i].id != r[j].id
  {
    var r := SelectStories(scored);
    assert forall x :: multiset(r)[x] <= 1 by {
      SelectStoriesCorrect(scored);
      PassingDistinct(scored);
      forall x ensures multiset(r)[x] <= 1 {
        assert multiset(r)[x] == multiset(Passing(scored))[x] <= multiset(scored)[x];
      }
    }
    assert forall x :: x in r ==> x in scored by {
      SelectStoriesCorrect(scored);
    }
    forall i, j | 0 <= i < j < |r| ensures r[i].id != r[j].id {
      MultisetTwo(r, i, j);
      assert r[i] != r[j];
      assert r[i] in scored && r[j] in scored;
    }
  }

  lemma MultisetTwo(s: seq<Story>, i: nat, j: nat)
    requires i < j < |s|
    ensures s[i] == s[j] ==> multiset(s)[s[i]] >= 2
  {
    if s[i] == s[j] {
      var x := s[i];
      assert s == s[..i] + [x] + s[i + 1..j] + [x] + s[j + 1..];
    }
  }

  /** In a collection with distinct ids every story occurs once. */
  lemma PassingDistinct(scored: seq<Story>)
    requires forall k :: 0 <= k < |scored| ==> scored[k].id == k
    ensures forall x :: multiset(scored)[x] <= 1
  {
    forall x ensures multiset(scored)[x] <= 1 {
      CountAtMostOne(scored, x);
    }
  }

  lemma {:induction false} CountAtMostOne(s: seq<Story>, x: Story)
    requires forall k :: 0 <= k < |s| ==> s[k].id == k
    ensures multiset(s)[x] <= 1
    decreases |s|
  {
    if s != [] {
      var init := s[..|s| - 1];
      CountAtMostOne(init, x);
      assert s == init + [s[|s| - 1]];
      assert forall k :: 0 <= k < |init| ==> init[k].id == k < |s| - 1;
      assert s[|s| - 1] == x ==> x !in init;
    }
  }

  /** `curateNews`: the fetch, the balancing, the extraction loop, the scoring loop, the selection and the statistics. */
  method CurateNews(customFeeds: seq<Feed>, http: Http, parse: XmlParser, parseDate: DateParser,
                    scrape: Scraper, oracle: Oracle, now: int)
    returns (stories: seq<Story>, stats: Stats)
    ensures Curated(stories, stats) == Curate(customFeeds, http, parse, parseDate, scrape, oracle, now)
  {
    var allFeeds := AllFeeds(customFeeds);
    stories, stats := CurateAllFeeds(allFeeds, http, parse, parseDate, scrape, oracle, now);
  }

  /** The body of `curateNews` after `allFeeds` is built. */
  method CurateAllFeeds(allFeeds: seq<Feed>, http: Http, parse: XmlParser, parseDate: DateParser,
                        scrape: Scraper, oracle: Oracle, now: int)
    returns (stories: seq<Story>, stats: Stats)
    ensures Curated(stories, stats) == CurateFeeds(allFeeds, http, parse, parseDate, scrape, oracle, now)
  {
    var allNews := FetchAllNews(allFeeds, http, parse, parseDate, now);
    var feedTierMap := BuildTierMap(allFeeds);
    var candidateItems := BalanceSources(allNews, feedTierMap);
    stories := ExtractAndScore(candidateItems, feedTierMap, scrape, oracle, now);
    stats := BuildStats(allFeeds, allNews, candidateItems);
  }

  /** Stages 2 and 3: extract stories from the first thirty candidates, score them, keep and sort those shown. */
  method ExtractAndScore(candidateItems: seq<NewsItem>, feedTierMap: map<string, int>,
                         scrape: Scraper, oracle: Oracle, now: int)
    returns (stories: seq<Story>)
    ensures stories == SelectStories(ScoredAll(AggregateAll(Take(candidateItems, TotalLimit), feedTierMap, scrape, oracle), now))
  {
    var totalToProcess := if |candidateItems| < TotalLimit then |candidateItems| else TotalLimit;
    assert candidateItems[..totalToProcess] == Take(candidateItems, TotalLimit);
    var collected := Aggregate(candidateItems[..totalToProcess], feedTierMap, scrape, oracle);
    var scored := ScoreAll(collected, now);
    assert scored == ScoredAll(collected, now);
    stories := SelectStories(scored);
  }

}
