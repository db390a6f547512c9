/**
 * The end of `curateNews` (smart-curator.ts): the stories scoring at least
 * `minScoreToShow` are returned, highest score first, with per-source statistics.
 */
module Curation {
  import opened Text
  import opened Config
  import opened Sorting
  import opened NewsItems
  import opened Aggregation
  import opened Balancing
  import opened Seqs

  function ScoreKey(s: Story): Key {
    Key(0, s.finalScore)
  }

  predicate Shown(s: Story) {
    s.finalScore >= 10 * MinScoreToShow
  }

  /** `filter(s => s.finalScore >= minScoreToShow)`, order kept. */
  function Passing(stories: seq<Story>): (r: seq<Story>)
    ensures |r| <= |stories|
    ensures multiset(r) <= multiset(stories)
    ensures forall s :: s in r <==> s in stories && Shown(s)
  {
    if stories == [] then []
    else
      var init := Passing(stories[..|stories| - 1]);
      var last := stories[|stories| - 1];
      assert stories == stories[..|stories| - 1] + [last];
      if Shown(last) then init + [last] else init
  }

  /** The returned stories: those at or above the threshold, sorted by final score, highest first. */
  function SelectStories(stories: seq<Story>): seq<Story> {
    SortDesc(Passing(stories), ScoreKey)
  }

  /**
   * Every returned story meets the threshold, every story meeting it is returned, the list
   * is a permutation of the passing stories, and scores never increase along it.
   */
  lemma SelectStoriesCorrect(stories: seq<Story>)
    ensures var r := SelectStories(stories);
      && (forall s :: s in r <==> s in stories && Shown(s))
      && multiset(r) == multiset(Passing(stories))
      && forall i, j :: 0 <= i < j < |r| ==> r[j].finalScore <= r[i].finalScore
  {
    var p := Passing(stories);
    SortDescCorrect(p, ScoreKey);
    var r := SelectStories(stories);
    forall s ensures s in r <==> s in p {
      assert s in r <==> s in multiset(r);
      assert s in p <==> s in multiset(p);
    }
    forall i, j | 0 <= i < j < |r| ensures r[j].finalScore <= r[i].finalScore {
      assert !Before(ScoreKey(r[j]), ScoreKey(r[i]));
    }
  }

  /** Selecting again changes nothing. */
  lemma SelectStoriesIdempotent(stories: seq<Story>)
    ensures SelectStories(SelectStories(stories)) == SelectStories(stories)
  {
    var r := SelectStories(stories);
    SortDescCorrect(Passing(stories), ScoreKey);
    SelectStoriesCorrect(stories);
    PassingAll(r);
    SortDescOfSorted(r, ScoreKey);
  }

  lemma {:induction false} PassingAll(stories: seq<Story>)
    requires forall i :: 0 <= i < |stories| ==> Shown(stories[i])
    ensures Passing(stories) == stories
  {
    if stories != [] {
      var init := stories[..|stories| - 1];
      var last := stories[|stories| - 1];
      assert forall i :: 0 <= i < |init| ==> init[i] == stories[i];
      PassingAll(init);
      assert Shown(last);
      assert init + [last] == stories;
    }
  }

  // ---------------------------------------------------------------- statistics

  datatype SourceStat = SourceStat(sourceName: string, found: nat, kept: nat)

  datatype Stats = Stats(sourcesAnalyzed: nat, totalArticlesFound: nat, articlesProcessed: nat, breakdown: seq<SourceStat>)

  /** The keys of `statsBreakdown`: each feed name once, in the order first seen. */
  function FeedNames(feeds: seq<Feed>): (r: seq<string>)
    ensures Distinct(r)
    ensures forall n :: n in r <==> exists f :: f in feeds && f.name == n
  {
    if feeds == [] then []
    else
      var init := feeds[..|feeds| - 1];
      var rest := FeedNames(init);
      var last := feeds[|feeds| - 1];
      assert forall f :: f in feeds <==> f in init || f == last;
      if last.name in rest then rest else rest + [last.name]
  }

  function KeptKey(e: SourceStat): Key {
    Key(0, e.kept)
  }

  /** One row per feed name: items found in the fetched news, items among those processed. */
  function Rows(names: seq<string>, allNews: seq<NewsItem>, processed: seq<NewsItem>): (r: seq<SourceStat>)
    ensures |r| == |names|
    ensures forall k :: 0 <= k < |r| ==>
      r[k] == SourceStat(names[k], |ItemsOf(allNews, names[k])|, |ItemsOf(processed, names[k])|)
  {
    seq(|names|, k requires 0 <= k < |names| => SourceStat(names[k], |ItemsOf(allNews, names[k])|, |ItemsOf(processed, names[k])|))
  }

  /** The statistics record; the breakdown is sorted by `kept`, highest first. */
  function MakeStats(feeds: seq<Feed>, allNews: seq<NewsItem>, candidates: seq<NewsItem>): Stats {
    var processed := Take(candidates, TotalLimit);
    Stats(|feeds|, |allNews|, |processed|, SortDesc(Rows(FeedNames(feeds), allNews, processed), KeptKey))
  }

  /** Every breakdown row is a feed name's row. */
  lemma BreakdownRows(feeds: seq<Feed>, allNews: seq<NewsItem>, processed: seq<NewsItem>, e: SourceStat)
    requires e in SortDesc(Rows(FeedNames(feeds), allNews, processed), KeptKey)
    ensures exists f :: f in feeds && f.name == e.sourceName
    ensures e.found == |ItemsOf(allNews, e.sourceName)| && e.kept == |ItemsOf(processed, e.sourceName)|
  {
    var names := FeedNames(feeds);
    var rows := Rows(names, allNews, processed);
    assert e in rows by {
      SortDescCorrect(rows, KeptKey);
      assert e in multiset(SortDesc(rows, KeptKey));
    }
    var k :| 0 <= k < |rows| && rows[k] == e;
    assert e.sourceName in names by {
      assert e.sourceName == names[k];
    }
  }

  /**
   * The breakdown has one row per distinct feed name with its found and kept counts, sorted by
   * `kept` descending; `articlesProcessed = min(|candidates|, 30)`.
   */
  lemma MakeStatsCorrect(feeds: seq<Feed>, allNews: seq<NewsItem>, candidates: seq<NewsItem>)
    ensures var st := MakeStats(feeds, allNews, candidates);
      && st.articlesProcessed == (if |candidates| < TotalLimit then |candidates| else TotalLimit)
      && st.sourcesAnalyzed == |feeds| && st.totalArticlesFound == |allNews|
      && multiset(st.breakdown) == multiset(Rows(FeedNames(feeds), allNews, Take(candidates, TotalLimit)))
      && (forall i, j :: 0 <= i < j < |st.breakdown| ==> st.breakdown[j].kept <= st.breakdown[i].kept)
      && (forall e :: e in st.breakdown ==>
            (exists f :: f in feeds && f.name == e.sourceName) &&
            e.found == |ItemsOf(allNews, e.sourceName)| &&
            e.kept == |ItemsOf(Take(candidates, TotalLimit), e.sourceName)|)
  {
    var processed := Take(candidates, TotalLimit);
    var rows := Rows(FeedNames(feeds), allNews, processed);
    SortDescCorrect(rows, KeptKey);
    var b := SortDesc(rows, KeptKey);
    forall i, j | 0 <= i < j < |b| ensures b[j].kept <= b[i].kept {
      assert !Before(KeptKey(b[j]), KeptKey(b[i]));
    }
    forall e | e in b
      ensures (exists f :: f in feeds && f.name == e.sourceName) &&
        e.found == |ItemsOf(allNews, e.sourceName)| && e.kept == |ItemsOf(processed, e.sourceName)|
    {
      BreakdownRows(feeds, allNews, processed, e);
    }
  }

  /** `statsBreakdown` after `allFeeds.forEach(f => statsBreakdown[f.name] = { found: 0, kept: 0 })`. */
  method ZeroCounters(feeds: seq<Feed>) returns (names: seq<string>, counts: map<string, nat>)
    ensures names == FeedNames(feeds)
    ensures forall n :: n in counts <==> n in names
    ensures forall n :: n in counts ==> counts[n] == 0
  {
    names, counts := [], map[];
    for i := 0 to |feeds|
      invariant names == FeedNames(feeds[..i])
      invariant forall n :: n in counts <==> n in names
      invariant forall n :: n in counts ==> counts[n] == 0
    {
      assert feeds[..i + 1][..i] == feeds[..i];
      var name := feeds[i].name;
      if name !in counts {
        names := names + [name];
      }
      counts := counts[name := 0];
    }
    assert feeds[..|feeds|] == feeds;
  }

  /** Counting one more item increments its source's counter, if it has one. */
  lemma TallyStep(items: seq<NewsItem>, i: nat, counts: map<string, nat>, next: map<string, nat>)
    requires i < |items|
    requires forall n :: n in counts ==> counts[n] == |ItemsOf(items[..i], n)|
    requires next == if items[i].sourceName in counts
      then counts[items[i].sourceName := counts[items[i].sourceName] + 1] else counts
    ensures next.Keys == counts.Keys
    ensures forall n :: n in next ==> next[n] == |ItemsOf(items[..i + 1], n)|
  {
    forall n | n in next ensures next[n] == |ItemsOf(items[..i + 1], n)| {
      ItemsOfStep(items, i, n);
      assert next[n] == counts[n] + if items[i].sourceName == n then 1 else 0;
    }
  }

  /** `items.forEach(item => { if (statsBreakdown[item.sourceName]) statsBreakdown[item.sourceName].n++ })`. */
  method Tally(items: seq<NewsItem>, zero: map<string, nat>) returns (counts: map<string, nat>)
    requires forall n :: n in zero ==> zero[n] == 0
    ensures counts.Keys == zero.Keys
    ensures forall n :: n in counts ==> counts[n] == |ItemsOf(items, n)|
  {
    counts := zero;
    for i := 0 to |items|
      invariant counts.Keys == zero.Keys
      invariant forall n :: n in counts ==> counts[n] == |ItemsOf(items[..i], n)|
    {
      var name := items[i].sourceName;
      var next := if name in counts then counts[name := counts[name] + 1] else counts;
      TallyStep(items, i, counts, next);
      counts := next;
    }
    assert items[..|items|] == items;
  }

  /** Assembling the statistics from the counters, as `Object.entries(...).map(...).sort(...)`. */
  method BuildStats(feeds: seq<Feed>, allNews: seq<NewsItem>, candidates: seq<NewsItem>) returns (stats: Stats)
    ensures stats == MakeStats(feeds, allNews, candidates)
  {
    var totalToProcess := if |candidates| < TotalLimit then |candidates| else TotalLimit;
    var processed := candidates[..totalToProcess];
    var names, zero := ZeroCounters(feeds);
    var found := Tally(allNews, zero);
    var kept := Tally(processed, zero);
    assert forall j :: 0 <= j < |names| ==> names[j] in found && names[j] in kept;
    var rows: seq<SourceStat> := [];
    for k := 0 to |names|
      invariant |rows| == k
      invariant forall j :: 0 <= j < k ==> rows[j] == SourceStat(names[j], found[names[j]], kept[names[j]])
    {
      var row := SourceStat(names[k], found[names[k]], kept[names[k]]);
      assert forall j :: 0 <= j < k ==> (rows + [row])[j] == rows[j];
      rows := rows + [row];
    }
    ghost var expected := Rows(FeedNames(feeds), allNews, processed);
    assert processed == Take(candidates, TotalLimit);
    forall j | 0 <= j < |rows| ensures rows[j] == expected[j] {
      assert names[j] in names;
    }
    assert rows == expected;
    stats := Stats(|feeds|, |allNews|, totalToProcess, SortDesc(rows, KeptKey));
  }
}
