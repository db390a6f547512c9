/**
 * `fetchAllNews` and `filterByDate` of news-fetcher.ts: the per-feed results are
 * concatenated, sorted newest first, deduplicated by normalised title (the first, hence
 * newest, item of each title is kept) and cut to the last 24 hours.
 */
module NewsFetcher {
  import opened Text
  import opened Config
  import opened Sorting
  import opened NewsItems
  import opened Seqs
  import opened Reddit
  import opened FeedParser

  const DayMs := 86400000

  /** `title.toLowerCase().replace(/[^a-z0-9]/g, '')` */
  function TitleKey(item: NewsItem): string {
    Keep(Lower(item.title), IsLowerAlnum)
  }

  /** `results.flat()` */
  function Flatten(results: seq<seq<NewsItem>>): (r: seq<NewsItem>)
    ensures forall x :: x in r <==> exists i :: 0 <= i < |results| && x in results[i]
  {
    if results == [] then []
    else
      var init := results[..|results| - 1];
      assert forall i :: 0 <= i < |init| ==> init[i] == results[i];
      Flatten(init) + results[|results| - 1]
  }

  /** `Promise.all(feeds.map(parseRSSFeed))`: one result per feed, in feed order. */
  function FeedResults(feeds: seq<Feed>, http: Http, parse: XmlParser, parseDate: DateParser, now: int): (r: seq<seq<NewsItem>>)
    ensures |r| == |feeds|
  {
    seq(|feeds|, i requires 0 <= i < |feeds| => ParseFeed(feeds[i], http, parse, parseDate, now))
  }

  // ---------------------------------------------------------------- dedup

  /** The keys of `s`: the `seen` set after the filter has read `s`. */
  function Keys<K(==)>(s: seq<NewsItem>, key: NewsItem -> K): set<K> {
    if s == [] then {} else Keys(s[..|s| - 1], key) + {key(s[|s| - 1])}
  }

  /** A key is seen iff some item of `s` has it. */
  lemma {:induction false} KeysMembers<K>(s: seq<NewsItem>, key: NewsItem -> K, k: K)
    ensures k in Keys(s, key) <==> exists i :: 0 <= i < |s| && key(s[i]) == k
    decreases |s|
  {
    if s != [] {
      var init := s[..|s| - 1];
      KeysMembers(init, key, k);
      assert forall i :: 0 <= i < |init| ==> init[i] == s[i];
    }
  }

  /** The filter on a key: an item is kept iff no earlier item had its key. */
  function Dedup<K(==,!new)>(s: seq<NewsItem>, key: NewsItem -> K): seq<NewsItem> {
    if s == [] then []
    else
      var init := s[..|s| - 1];
      var last := s[|s| - 1];
      if key(last) in Keys(init, key) then Dedup(init, key) else Dedup(init, key) + [last]
  }

  /** `s[i]` is the first item with its key. */
  ghost predicate FirstOfKey<K>(s: seq<NewsItem>, key: NewsItem -> K, i: int)
    requires 0 <= i < |s|
  {
    forall j :: 0 <= j < i ==> key(s[j]) != key(s[i])
  }

  ghost predicate DistinctKeys<K>(s: seq<NewsItem>, key: NewsItem -> K) {
    forall i, j :: 0 <= i < j < |s| ==> key(s[i]) != key(s[j])
  }

  lemma DedupStep<K(!new)>(init: seq<NewsItem>, last: NewsItem, key: NewsItem -> K)
    ensures Dedup(init + [last], key) == if key(last) in Keys(init, key) then Dedup(init, key) else Dedup(init, key) + [last]
    ensures Keys(init + [last], key) == Keys(init, key) + {key(last)}
  {
    assert (init + [last])[..|init|] == init;
  }

  /** Every key of the input survives the filter. */
  lemma {:induction false} DedupKeys<K(!new)>(s: seq<NewsItem>, key: NewsItem -> K)
    ensures Keys(Dedup(s, key), key) == Keys(s, key)
    decreases |s|
  {
    if s != [] {
      var init, last := s[..|s| - 1], s[|s| - 1];
      DedupKeys(init, key);
      SplitLast(s);
      DedupStep(init, last, key);
      if key(last) !in Keys(init, key) {
        DedupStep(Dedup(init, key), last, key);
      }
    }
  }

  /** Appending an item whose key is not yet seen keeps the keys distinct. */
  lemma AppendNewKey<K>(d: seq<NewsItem>, last: NewsItem, key: NewsItem -> K)
    requires DistinctKeys(d, key) && key(last) !in Keys(d, key)
    ensures DistinctKeys(d + [last], key)
  {
    var d' := d + [last];
    forall i, j | 0 <= i < j < |d'| ensures key(d'[i]) != key(d'[j]) {
      if j == |d| {
        KeysMembers(d, key, key(d[i]));
      } else {
        assert d'[i] == d[i] && d'[j] == d[j];
      }
    }
  }

  /**
   * The filter keeps exactly the first item of every key: its keys are distinct, every
   * key of the input survives, and the kept items keep their order.
   */
  lemma {:induction false} DedupCorrect<K(!new)>(s: seq<NewsItem>, key: NewsItem -> K)
    ensures Keys(Dedup(s, key), key) == Keys(s, key)
    ensures DistinctKeys(Dedup(s, key), key)
    ensures Subseq(Dedup(s, key), s)
    decreases |s|
  {
    DedupKeys(s, key);
    if s != [] {
      var init, last := s[..|s| - 1], s[|s| - 1];
      DedupCorrect(init, key);
      SplitLast(s);
      DedupStep(init, last, key);
      var d := Dedup(init, key);
      if key(last) in Keys(init, key) {
        SubseqSkip(d, init, last);
      } else {
        SubseqKeep(d, init, last);
        DedupKeys(init, key);
        AppendNewKey(d, last, key);
      }
    }
  }

  /** An item is kept iff it is the first of its key. */
  lemma {:induction false} DedupFirst<K(!new)>(s: seq<NewsItem>, key: NewsItem -> K)
    ensures forall i :: 0 <= i < |s| && FirstOfKey(s, key, i) ==> s[i] in Dedup(s, key)
    ensures forall x :: x in Dedup(s, key) ==> exists i :: 0 <= i < |s| && s[i] == x && FirstOfKey(s, key, i)
    decreases |s|
  {
    if s != [] {
      var init, last := s[..|s| - 1], s[|s| - 1];
      DedupFirst(init, key);
      SplitLast(s);
      DedupStep(init, last, key);
      var d := Dedup(init, key);
      assert forall i :: 0 <= i < |init| ==> init[i] == s[i];
      KeysMembers(init, key, key(last));
      assert FirstOfKey(s, key, |s| - 1) <==> key(last) !in Keys(init, key);
      forall i | 0 <= i < |s| && FirstOfKey(s, key, i) ensures s[i] in Dedup(s, key) {
        if i < |init| {
          assert FirstOfKey(init, key, i);
        }
      }
      forall x | x in Dedup(s, key) ensures exists i :: 0 <= i < |s| && s[i] == x && FirstOfKey(s, key, i) {
        if x in d {
          var i :| 0 <= i < |init| && init[i] == x && FirstOfKey(init, key, i);
          assert s[i] == x && FirstOfKey(s, key, i);
        } else {
          assert x == last && key(last) !in Keys(init, key);
          assert s[|s| - 1] == x;
        }
      }
    }
  }

  /** Dropping items from a list sorted newest first leaves it sorted. */
  lemma {:induction false} DedupSorted<K(!new)>(s: seq<NewsItem>, key: NewsItem -> K)
    requires SortedDesc(s, DateKey)
    ensures SortedDesc(Dedup(s, key), DateKey)
    decreases |s|
  {
    if s != [] {
      var init, last := s[..|s| - 1], s[|s| - 1];
      SplitLast(s);
      DedupStep(init, last, key);
      PrefixSorted(s, |s| - 1, DateKey);
      DedupSorted(init, key);
      DedupCorrect(init, key);
      SubseqMembers(Dedup(init, key), init);
      var d := Dedup(init, key);
      if key(last) !in Keys(init, key) {
        forall i | 0 <= i < |d| ensures !Before(DateKey(last), DateKey(d[i])) {
          assert d[i] in init;
          var k :| 0 <= k < |init| && init[k] == d[i];
          assert s[k] == d[i];
        }
        AppendSorted(d, last, DateKey);
      }
    }
  }

  /** The filter of `fetchAllNews`, with its `seen` set. */
  method DedupTitles(s: seq<NewsItem>) returns (deduplicated: seq<NewsItem>)
    ensures deduplicated == Dedup(s, TitleKey)
  {
    var seen: set<string> := {};
    deduplicated := [];
    for i := 0 to |s|
      invariant seen == Keys(s[..i], TitleKey)
      invariant deduplicated == Dedup(s[..i], TitleKey)
    {
      var item := s[i];
      assert s[..i + 1][..i] == s[..i];
      var normalized := Keep(Lower(item.title), IsLowerAlnum);
      if normalized !in seen {
        seen := seen + {normalized};
        deduplicated := deduplicated + [item];
      }
    }
    assert s[..|s|] == s;
  }

  // ---------------------------------------------------------------- freshness

  /** The freshness test: a future date is kept, otherwise a date at most a day old. */
  predicate Fresh(item: NewsItem, now: int) {
    if item.publishedAt > now then true else item.publishedAt >= now - DayMs
  }

  /** The test is one 24-hour window, whatever the feed's tier. */
  lemma FreshWindow(item: NewsItem, now: int)
    ensures Fresh(item, now) <==> item.publishedAt >= now - DayMs
  {
  }

  /** The whole of `fetchAllNews` on the feeds' results. */
  function AllNews(results: seq<seq<NewsItem>>, now: int): seq<NewsItem> {
    Filter(Dedup(SortDesc(Flatten(results), DateKey), TitleKey), (item: NewsItem) => Fresh(item, now))
  }

  /**
   * The news is sorted newest first, has no two items with the same normalised title,
   * is a subsequence of the sorted input, and holds every fresh item that is the first
   * of its title there, and only such items.
   */
  lemma AllNewsCorrect(results: seq<seq<NewsItem>>, now: int)
    ensures var sorted := SortDesc(Flatten(results), DateKey);
      var r := AllNews(results, now);
      && SortedDesc(r, DateKey)
      && DistinctKeys(r, TitleKey)
      && Subseq(r, sorted)
      && multiset(sorted) == multiset(Flatten(results))
      && (forall i :: 0 <= i < |sorted| && FirstOfKey(sorted, TitleKey, i) && Fresh(sorted[i], now) ==> sorted[i] in r)
      && (forall x :: x in r ==> Fresh(x, now) && exists i :: 0 <= i < |sorted| && sorted[i] == x && FirstOfKey(sorted, TitleKey, i))
  {
    var sorted := SortDesc(Flatten(results), DateKey);
    SortDescCorrect(Flatten(results), DateKey);
    var d := Dedup(sorted, TitleKey);
    DedupCorrect(sorted, TitleKey);
    DedupFirst(sorted, TitleKey);
    DedupSorted(sorted, TitleKey);
    var p := (item: NewsItem) => Fresh(item, now);
    FilterSubseq(d, p);
    SubseqTrans(AllNews(results, now), d, sorted);
    SubseqMembers(d, sorted);
    var newestFirst := (a: NewsItem, b: NewsItem) => !Before(DateKey(b), DateKey(a));
    var otherTitle := (a: NewsItem, b: NewsItem) => TitleKey(a) != TitleKey(b);
    assert Pairwise(d, newestFirst);
    assert Pairwise(d, otherTitle);
    FilterPairwise(d, p, newestFirst);
    FilterPairwise(d, p, otherTitle);
  }

  /** `fetchAllNews`: one result per feed, then the sort, the title filter and the freshness filter. */
  method FetchAllNews(feeds: seq<Feed>, http: Http, parse: XmlParser, parseDate: DateParser, now: int) returns (news: seq<NewsItem>)
    ensures news == AllNews(FeedResults(feeds, http, parse, parseDate, now), now)
  {
    var allNews := Flatten(FeedResults(feeds, http, parse, parseDate, now));
    allNews := SortDesc(allNews, DateKey);
    var deduplicated := DedupTitles(allNews);
    news := Filter(deduplicated, (item: NewsItem) => Fresh(item, now));
  }

  // ---------------------------------------------------------------- filterByDate

  /** `filterByDate(items, days)`: the items dated at or after `days` days before now. */
  function FilterByDate(items: seq<NewsItem>, days: int, now: int): (r: seq<NewsItem>)
    ensures forall x :: x in r <==> x in items && x.publishedAt >= now - days * DayMs
  {
    Filter(items, (item: NewsItem) => item.publishedAt >= now - days * DayMs)
  }

  /** The filter keeps the order of the items it keeps. */
  lemma FilterByDateOrder(items: seq<NewsItem>, days: int, now: int)
    ensures Subseq(FilterByDate(items, days, now), items)
  {
    FilterSubseq(items, (item: NewsItem) => item.publishedAt >= now - days * DayMs);
  }
}
