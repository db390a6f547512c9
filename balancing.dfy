/**
 * Newsletter-first source balancing in `curateNews` (smart-curator.ts): items are grouped
 * by source in first-appearance order; each tier-1 source contributes its five newest
 * items, then every other source its two newest, while the candidate list is below 30;
 * a URL is taken at most once. The candidates are then ordered tier 1 first, newest first.
 */
module Balancing {
  import opened Text
  import opened Sorting
  import opened NewsItems
  import opened FeedTiers
  import opened Seqs

  const TotalLimit := 30
  const NewsletterQuota := 5
  const QuotaPerNonNewsletter := 2

  /** The candidate comparator: tier 1 before any other tier, then newest first. */
  function CandidateKey(tiers: map<string, int>, n: NewsItem): Key {
    Key(if TierOf(tiers, n.sourceName) == 1 then 1 else 0, n.publishedAt)
  }

  /** The keys of `itemsBySource`, in the order the map first saw them. */
  function SourceNames(items: seq<NewsItem>): (r: seq<string>)
    ensures Distinct(r)
    ensures forall x :: x in r <==> exists i :: 0 <= i < |items| && items[i].sourceName == x
  {
    if items == [] then []
    else
      var init := items[..|items| - 1];
      var rest := SourceNames(init);
      assert forall i :: 0 <= i < |init| ==> init[i] == items[i];
      var name := items[|items| - 1].sourceName;
      if name in rest then rest else rest + [name]
  }

  /** The items of one source, in their original order: `itemsBySource.get(name)`. */
  function ItemsOf(items: seq<NewsItem>, name: string): (r: seq<NewsItem>)
    ensures |r| <= |items|
    ensures forall x :: x in r ==> x in items && x.sourceName == name
  {
    if items == [] then []
    else
      var init := ItemsOf(items[..|items| - 1], name);
      var last := items[|items| - 1];
      if last.sourceName == name then init + [last] else init
  }

  lemma ItemsOfStep(items: seq<NewsItem>, i: nat, n: string)
    requires i < |items|
    ensures ItemsOf(items[..i + 1], n) == ItemsOf(items[..i], n) + if items[i].sourceName == n then [items[i]] else []
  {
    assert items[..i + 1][..i] == items[..i];
  }

  lemma ItemsOfMissing(items: seq<NewsItem>, n: string)
    requires n !in SourceNames(items)
    ensures ItemsOf(items, n) == []
  {
  }

  /** What the grouping loop knows after reading `allNews[..i]`. */
  ghost predicate Grouped(allNews: seq<NewsItem>, i: nat, names: seq<string>, groups: map<string, seq<NewsItem>>)
    requires i <= |allNews|
  {
    && names == SourceNames(allNews[..i])
    && (forall n :: n in groups <==> n in names)
    && forall n :: n in groups ==> groups[n] == ItemsOf(allNews[..i], n)
  }

  lemma SourceNamesStep(items: seq<NewsItem>, i: nat)
    requires i < |items|
    ensures var pre := SourceNames(items[..i]);
      SourceNames(items[..i + 1]) == if items[i].sourceName in pre then pre else pre + [items[i].sourceName]
  {
    assert items[..i + 1][..i] == items[..i];
  }

  /** Reading one more item appends it to its source's list, creating the list first if needed. */
  lemma GroupStep(allNews: seq<NewsItem>, i: nat, names: seq<string>, groups: map<string, seq<NewsItem>>,
                  names': seq<string>, groups': map<string, seq<NewsItem>>)
    requires i < |allNews| && Grouped(allNews, i, names, groups)
    requires names' == if allNews[i].sourceName in groups then names else names + [allNews[i].sourceName]
    requires groups' == groups[allNews[i].sourceName :=
      (if allNews[i].sourceName in groups then groups[allNews[i].sourceName] else []) + [allNews[i]]]
    ensures Grouped(allNews, i + 1, names', groups')
  {
    var name := allNews[i].sourceName;
    var pre := allNews[..i];
    var post := allNews[..i + 1];
    assert post[..i] == pre;
    assert post[i] == allNews[i];
    SourceNamesStep(allNews, i);
    forall n | n in groups' ensures groups'[n] == ItemsOf(post, n) {
      ItemsOfStep(allNews, i, n);
      if n == name && name !in groups {
        ItemsOfMissing(pre, name);
      }
    }
  }

  /** Building `itemsBySource`: a map from each source to its items, and the order of its keys. */
  method GroupBySource(allNews: seq<NewsItem>) returns (names: seq<string>, groups: map<string, seq<NewsItem>>)
    ensures names == SourceNames(allNews)
    ensures forall n :: n in groups <==> n in names
    ensures forall n :: n in groups ==> groups[n] == ItemsOf(allNews, n)
  {
    names := [];
    groups := map[];
    for i := 0 to |allNews|
      invariant Grouped(allNews, i, names, groups)
    {
      var item := allNews[i];
      var name := item.sourceName;
      var names', groups';
      if name in groups {
        names', groups' := names, groups[name := groups[name] + [item]];
      } else {
        names', groups' := names + [name], groups[name := [item]];
        assert [] + [item] == [item];
      }
      GroupStep(allNews, i, names, groups, names', groups');
      names, groups := names', groups';
    }
    assert allNews[..|allNews|] == allNews;
  }

  function Urls(s: seq<NewsItem>): set<string> {
    set x | x in s :: x.url
  }

  ghost predicate DistinctUrls(s: seq<NewsItem>) {
    forall i, j :: 0 <= i < j < |s| ==> s[i].url != s[j].url
  }

  /** `forEach(item => if (!seenUrls.has(item.url) [&& length < limit]) push)`, with `seenUrls` the candidates' URLs. */
  function AddUnseen(cand: seq<NewsItem>, xs: seq<NewsItem>, limit: int): (r: seq<NewsItem>)
  {
    if xs == [] then cand
    else
      var prev := AddUnseen(cand, xs[..|xs| - 1], limit);
      var x := xs[|xs| - 1];
      if x.url !in Urls(prev) && |prev| < limit then prev + [x] else prev
  }

  /** The newest `n` items of a source: the in-place date sort then `slice(0, n)`. */
  function Newest(group: seq<NewsItem>, n: nat): seq<NewsItem> {
    Take(SortDesc(group, DateKey), n)
  }

  /** Phase 1 over the first sources: every tier-1 source adds its five newest unseen items, with no overall limit. */
  function Phase1(items: seq<NewsItem>, tiers: map<string, int>, names: seq<string>): seq<NewsItem> {
    if names == [] then []
    else
      var prev := Phase1(items, tiers, names[..|names| - 1]);
      var name := names[|names| - 1];
      if TierOf(tiers, name) != 1 then prev
      else AddUnseen(prev, Newest(ItemsOf(items, name), NewsletterQuota), |prev| + NewsletterQuota)
  }

  /** Phase 2 over the first sources: while below 30, every other source adds its two newest unseen items, up to 30. */
  function Phase2(items: seq<NewsItem>, tiers: map<string, int>, start: seq<NewsItem>, names: seq<string>): seq<NewsItem> {
    if names == [] then start
    else
      var prev := Phase2(items, tiers, start, names[..|names| - 1]);
      var name := names[|names| - 1];
      if TierOf(tiers, name) == 1 || |prev| >= TotalLimit then prev
      else AddUnseen(prev, Newest(ItemsOf(items, name), QuotaPerNonNewsletter), TotalLimit)
  }

  /** The balanced candidate list, before ordering. */
  function Balance(items: seq<NewsItem>, tiers: map<string, int>): seq<NewsItem> {
    var names := SourceNames(items);
    Phase2(items, tiers, Phase1(items, tiers, names), names)
  }

  /** The candidates in processing order. */
  function OrderCandidates(cand: seq<NewsItem>, tiers: map<string, int>): seq<NewsItem> {
    SortDesc(cand, n => CandidateKey(tiers, n))
  }

  /** What stage 2 processes: the first `min(candidates, 30)` ordered candidates. */
  function ToProcess(items: seq<NewsItem>, tiers: map<string, int>): (r: seq<NewsItem>)
    ensures |r| <= TotalLimit
  {
    Take(OrderCandidates(Balance(items, tiers), tiers), TotalLimit)
  }

  // ---------------------------------------------------------------- facts about one step

  /** What one `forEach` of pushes keeps: a prefix, the limit, URL uniqueness, items only from `xs`, and per-source counts. */
  lemma {:induction false} AddUnseenFacts(cand: seq<NewsItem>, xs: seq<NewsItem>, limit: int)
    ensures var r := AddUnseen(cand, xs, limit);
      && |cand| <= |r| <= |cand| + |xs| && r[..|cand|] == cand
      && (|cand| <= limit ==> |r| <= limit)
      && (|cand| >= limit ==> r == cand)
      && (DistinctUrls(cand) ==> DistinctUrls(r))
      && (forall k :: |cand| <= k < |r| ==> r[k] in xs)
  {
    if xs != [] {
      var init := xs[..|xs| - 1];
      AddUnseenFacts(cand, init, limit);
      var prev := AddUnseen(cand, init, limit);
      var x := xs[|xs| - 1];
      var r := AddUnseen(cand, xs, limit);
      assert forall y :: y in init ==> y in xs;
      if x.url !in Urls(prev) && |prev| < limit {
        assert r == prev + [x];
        if DistinctUrls(prev) {
          forall i, j | 0 <= i < j < |r| ensures r[i].url != r[j].url {
            if j == |prev| {
              assert r[i] in prev;
            }
          }
        }
      }
    }
  }

  /** Per source, the pushes add at most as many items as `xs` holds from that source. */
  lemma {:induction false} AddUnseenCount(cand: seq<NewsItem>, xs: seq<NewsItem>, limit: int, s: string)
    ensures |ItemsOf(cand, s)| <= |ItemsOf(AddUnseen(cand, xs, limit), s)| <= |ItemsOf(cand, s)| + |ItemsOf(xs, s)|
  {
    if xs != [] {
      AddUnseenCount(cand, xs[..|xs| - 1], limit, s);
      var prev := AddUnseen(cand, xs[..|xs| - 1], limit);
      var x := xs[|xs| - 1];
      if x.url !in Urls(prev) && |prev| < limit {
        assert (prev + [x])[..|prev|] == prev;
      }
    }
  }

  lemma NewestFacts(items: seq<NewsItem>, name: string, n: nat)
    ensures |Newest(ItemsOf(items, name), n)| <= n
    ensures forall x :: x in Newest(ItemsOf(items, name), n) ==> x in items && x.sourceName == name
  {
    var g := ItemsOf(items, name);
    SortDescCorrect(g, DateKey);
    var r := Newest(g, n);
    forall x | x in r ensures x in g {
      assert x in multiset(SortDesc(g, DateKey));
    }
  }

  /** Counted per source, a list whose items all come from `name` holds nothing from another source. */
  lemma ItemsOfOther(xs: seq<NewsItem>, name: string, s: string)
    requires forall x :: x in xs ==> x.sourceName == name
    ensures |ItemsOf(xs, s)| <= if s == name then |xs| else 0
  {
    if ItemsOf(xs, s) != [] {
      assert ItemsOf(xs, s)[0] in xs;
    }
  }

  /** One source's pushes: the list grows by items of that source only, at most `n` of them. */
  lemma PushStep(items: seq<NewsItem>, prev: seq<NewsItem>, name: string, n: nat, limit: int, r: seq<NewsItem>)
    requires r == AddUnseen(prev, Newest(ItemsOf(items, name), n), limit)
    ensures |prev| <= |r| && r[..|prev|] == prev
    ensures |prev| <= limit ==> |r| <= limit
    ensures DistinctUrls(prev) ==> DistinctUrls(r)
    ensures forall k :: |prev| <= k < |r| ==> r[k] in items && r[k].sourceName == name
    ensures forall s :: s != name ==> |ItemsOf(r, s)| == |ItemsOf(prev, s)|
    ensures |ItemsOf(r, name)| <= |ItemsOf(prev, name)| + n
  {
    var xs := Newest(ItemsOf(items, name), n);
    AddUnseenFacts(prev, xs, limit);
    NewestFacts(items, name, n);
    forall s ensures |ItemsOf(prev, s)| <= |ItemsOf(r, s)| <= |ItemsOf(prev, s)| + if s == name then n else 0 {
      AddUnseenCount(prev, xs, limit, s);
      ItemsOfOther(xs, name, s);
    }
  }

  // ---------------------------------------------------------------- phase 1

  /** Phase 1's list: distinct URLs, items of allNews from tier-1 sources, at most five per processed source. */
  ghost predicate Phase1Inv(items: seq<NewsItem>, tiers: map<string, int>, names: seq<string>, c: seq<NewsItem>) {
    && DistinctUrls(c)
    && (forall k :: 0 <= k < |c| ==> c[k] in items && TierOf(tiers, c[k].sourceName) == 1)
    && (forall s :: |ItemsOf(c, s)| <= if s in names && TierOf(tiers, s) == 1 then NewsletterQuota else 0)
  }

  /** A source phase 1 skips leaves the invariant in place. */
  lemma Phase1Skip(items: seq<NewsItem>, tiers: map<string, int>, init: seq<string>, name: string, prev: seq<NewsItem>)
    requires Phase1Inv(items, tiers, init, prev)
    ensures Phase1Inv(items, tiers, init + [name], prev)
  {
    assert forall s :: s in init ==> s in init + [name];
  }

  /** A tier-1 source that phase 1 takes from keeps the invariant. */
  lemma Phase1Push(items: seq<NewsItem>, tiers: map<string, int>, init: seq<string>, name: string,
                   prev: seq<NewsItem>, r: seq<NewsItem>)
    requires Phase1Inv(items, tiers, init, prev) && name !in init && TierOf(tiers, name) == 1
    requires r == AddUnseen(prev, Newest(ItemsOf(items, name), NewsletterQuota), |prev| + NewsletterQuota)
    ensures Phase1Inv(items, tiers, init + [name], r)
  {
    PushStep(items, prev, name, NewsletterQuota, |prev| + NewsletterQuota, r);
    Phase1PushOrigin(items, tiers, name, prev, r);
    Phase1PushCounts(tiers, init, name, prev, r);
  }

  /** Extending a list of tier-1 items by items of a tier-1 source keeps it a list of tier-1 items. */
  lemma Phase1PushOrigin(items: seq<NewsItem>, tiers: map<string, int>, name: string, prev: seq<NewsItem>, r: seq<NewsItem>)
    requires forall k :: 0 <= k < |prev| ==> prev[k] in items && TierOf(tiers, prev[k].sourceName) == 1
    requires TierOf(tiers, name) == 1
    requires |prev| <= |r| && r[..|prev|] == prev
    requires forall k :: |prev| <= k < |r| ==> r[k] in items && r[k].sourceName == name
    ensures forall k :: 0 <= k < |r| ==> r[k] in items && TierOf(tiers, r[k].sourceName) == 1
  {
    forall k | 0 <= k < |r| ensures r[k] in items && TierOf(tiers, r[k].sourceName) == 1 {
      if k < |prev| { assert r[k] == r[..|prev|][k]; }
    }
  }

  /** Taking at most five items of one new tier-1 source keeps phase 1's per-source bounds. */
  lemma Phase1PushCounts(tiers: map<string, int>, init: seq<string>, name: string, prev: seq<NewsItem>, r: seq<NewsItem>)
    requires forall s :: |ItemsOf(prev, s)| <= if s in init && TierOf(tiers, s) == 1 then NewsletterQuota else 0
    requires name !in init && TierOf(tiers, name) == 1
    requires forall s :: s != name ==> |ItemsOf(r, s)| == |ItemsOf(prev, s)|
    requires |ItemsOf(r, name)| <= |ItemsOf(prev, name)| + NewsletterQuota
    ensures forall s :: |ItemsOf(r, s)| <= if s in init + [name] && TierOf(tiers, s) == 1 then NewsletterQuota else 0
  {
    forall s ensures |ItemsOf(r, s)| <= if s in init + [name] && TierOf(tiers, s) == 1 then NewsletterQuota else 0 {
      assert s in init + [name] <==> s in init || s == name;
    }
  }

  lemma Phase1Step(items: seq<NewsItem>, tiers: map<string, int>, names: seq<string>)
    requires names != [] && names[|names| - 1] !in names[..|names| - 1]
    requires Phase1Inv(items, tiers, names[..|names| - 1], Phase1(items, tiers, names[..|names| - 1]))
    ensures Phase1Inv(items, tiers, names, Phase1(items, tiers, names))
  {
    var init := names[..|names| - 1];
    var name := names[|names| - 1];
    SplitLast(names);
    var prev := Phase1(items, tiers, init);
    if TierOf(tiers, name) == 1 {
      var r := AddUnseen(prev, Newest(ItemsOf(items, name), NewsletterQuota), |prev| + NewsletterQuota);
      assert Phase1(items, tiers, names) == r;
      Phase1Push(items, tiers, init, name, prev, r);
    } else {
      assert Phase1(items, tiers, names) == prev;
      Phase1Skip(items, tiers, init, name, prev);
    }
  }

  lemma {:induction false} Phase1Facts(items: seq<NewsItem>, tiers: map<string, int>, names: seq<string>)
    requires Distinct(names)
    ensures Phase1Inv(items, tiers, names, Phase1(items, tiers, names))
  {
    if names != [] {
      var init := names[..|names| - 1];
      assert Distinct(init);
      Phase1Facts(items, tiers, init);
      Phase1Step(items, tiers, names);
    }
  }

  // ---------------------------------------------------------------- phase 2

  /** Once the list holds 30 candidates the loop breaks: no later source changes it. */
  lemma {:induction false} Phase2Break(items: seq<NewsItem>, tiers: map<string, int>, start: seq<NewsItem>, names: seq<string>, i: nat)
    requires i <= |names| && |Phase2(items, tiers, start, names[..i])| >= TotalLimit
    ensures Phase2(items, tiers, start, names) == Phase2(items, tiers, start, names[..i])
  {
    if |names| > i {
      var init := names[..|names| - 1];
      assert init[..i] == names[..i];
      Phase2Break(items, tiers, start, init, i);
    } else {
      assert names[..i] == names;
    }
  }

  /** Phase 2's list extends its start, adds only items of allNews from other tiers, and at most two per processed source. */
  ghost predicate Phase2Inv(items: seq<NewsItem>, tiers: map<string, int>, start: seq<NewsItem>, names: seq<string>, c: seq<NewsItem>) {
    && DistinctUrls(c)
    && |start| <= |c| && c[..|start|] == start
    && (|start| < TotalLimit ==> |c| <= TotalLimit)
    && (|start| >= TotalLimit ==> c == start)
    && (forall k :: |start| <= k < |c| ==> c[k] in items && TierOf(tiers, c[k].sourceName) != 1)
    && (forall s :: TierOf(tiers, s) != 1 ==>
         |ItemsOf(c, s)| <= |ItemsOf(start, s)| + if s in names then QuotaPerNonNewsletter else 0)
    && (forall s :: TierOf(tiers, s) == 1 ==> |ItemsOf(c, s)| == |ItemsOf(start, s)|)
  }

  /** A source phase 2 skips leaves the invariant in place. */
  lemma Phase2Skip(items: seq<NewsItem>, tiers: map<string, int>, start: seq<NewsItem>, init: seq<string>,
                   name: string, prev: seq<NewsItem>)
    requires Phase2Inv(items, tiers, start, init, prev)
    ensures Phase2Inv(items, tiers, start, init + [name], prev)
  {
    assert forall s :: s in init ==> s in init + [name];
  }

  /** Extending a list by items of a source outside tier 1 keeps phase 2's shape: the start as prefix and the new items' origin. */
  lemma Phase2PushShape(items: seq<NewsItem>, tiers: map<string, int>, start: seq<NewsItem>,
                        name: string, prev: seq<NewsItem>, r: seq<NewsItem>)
    requires |start| <= |prev| && prev[..|start|] == start
    requires forall k :: |start| <= k < |prev| ==> prev[k] in items && TierOf(tiers, prev[k].sourceName) != 1
    requires TierOf(tiers, name) != 1
    requires |prev| <= |r| && r[..|prev|] == prev
    requires forall k :: |prev| <= k < |r| ==> r[k] in items && r[k].sourceName == name
    ensures |start| <= |r| && r[..|start|] == start
    ensures forall k :: |start| <= k < |r| ==> r[k] in items && TierOf(tiers, r[k].sourceName) != 1
  {
    assert r[..|start|] == r[..|prev|][..|start|];
    forall k | |start| <= k < |r| ensures r[k] in items && TierOf(tiers, r[k].sourceName) != 1 {
      if k < |prev| { assert r[k] == r[..|prev|][k]; }
    }
  }

  /** Taking at most two items of one source outside tier 1 keeps phase 2's per-source bounds. */
  lemma Phase2PushCounts(tiers: map<string, int>, start: seq<NewsItem>, init: seq<string>,
                         name: string, prev: seq<NewsItem>, r: seq<NewsItem>)
    requires forall s :: TierOf(tiers, s) != 1 ==>
      |ItemsOf(prev, s)| <= |ItemsOf(start, s)| + if s in init then QuotaPerNonNewsletter else 0
    requires forall s :: TierOf(tiers, s) == 1 ==> |ItemsOf(prev, s)| == |ItemsOf(start, s)|
    requires name !in init && TierOf(tiers, name) != 1
    requires forall s :: s != name ==> |ItemsOf(r, s)| == |ItemsOf(prev, s)|
    requires |ItemsOf(r, name)| <= |ItemsOf(prev, name)| + QuotaPerNonNewsletter
    ensures forall s :: TierOf(tiers, s) != 1 ==>
      |ItemsOf(r, s)| <= |ItemsOf(start, s)| + if s in init + [name] then QuotaPerNonNewsletter else 0
    ensures forall s :: TierOf(tiers, s) == 1 ==> |ItemsOf(r, s)| == |ItemsOf(start, s)|
  {
    forall s | TierOf(tiers, s) != 1
      ensures |ItemsOf(r, s)| <= |ItemsOf(start, s)| + if s in init + [name] then QuotaPerNonNewsletter else 0
    {
      assert s in init + [name] <==> s in init || s == name;
    }
  }

  /** A source phase 2 takes from keeps the invariant. */
  lemma Phase2Push(items: seq<NewsItem>, tiers: map<string, int>, start: seq<NewsItem>, init: seq<string>,
                   name: string, prev: seq<NewsItem>, r: seq<NewsItem>)
    requires Phase2Inv(items, tiers, start, init, prev) && name !in init
    requires TierOf(tiers, name) != 1 && |prev| < TotalLimit
    requires r == AddUnseen(prev, Newest(ItemsOf(items, name), QuotaPerNonNewsletter), TotalLimit)
    ensures Phase2Inv(items, tiers, start, init + [name], r)
  {
    PushStep(items, prev, name, QuotaPerNonNewsletter, TotalLimit, r);
    Phase2PushShape(items, tiers, start, name, prev, r);
    Phase2PushCounts(tiers, start, init, name, prev, r);
  }

  lemma Phase2Step(items: seq<NewsItem>, tiers: map<string, int>, start: seq<NewsItem>, names: seq<string>)
    requires names != [] && names[|names| - 1] !in names[..|names| - 1]
    requires Phase2Inv(items, tiers, start, names[..|names| - 1], Phase2(items, tiers, start, names[..|names| - 1]))
    ensures Phase2Inv(items, tiers, start, names, Phase2(items, tiers, start, names))
  {
    var init := names[..|names| - 1];
    var name := names[|names| - 1];
    SplitLast(names);
    var prev := Phase2(items, tiers, start, init);
    if TierOf(tiers, name) != 1 && |prev| < TotalLimit {
      var r := AddUnseen(prev, Newest(ItemsOf(items, name), QuotaPerNonNewsletter), TotalLimit);
      assert Phase2(items, tiers, start, names) == r;
      Phase2Push(items, tiers, start, init, name, prev, r);
    } else {
      assert Phase2(items, tiers, start, names) == prev;
      Phase2Skip(items, tiers, start, init, name, prev);
    }
  }

  lemma {:induction false} Phase2Facts(items: seq<NewsItem>, tiers: map<string, int>, start: seq<NewsItem>, names: seq<string>)
    requires Distinct(names) && DistinctUrls(start)
    ensures Phase2Inv(items, tiers, start, names, Phase2(items, tiers, start, names))
  {
    if names != [] {
      var init := names[..|names| - 1];
      assert Distinct(init);
      Phase2Facts(items, tiers, start, init);
      Phase2Step(items, tiers, start, names);
    } else {
      assert start[..|start|] == start;
    }
  }

  // ---------------------------------------------------------------- the balanced list

  /**
   * The balanced list: distinct URLs; only items of allNews; at most five items of any tier-1
   * source and two of any other; the tier-1 part first; and beyond the tier-1 part never more than 30.
   */
  lemma BalanceCorrect(items: seq<NewsItem>, tiers: map<string, int>)
    ensures var c := Balance(items, tiers);
      var p1 := Phase1(items, tiers, SourceNames(items));
      && DistinctUrls(c)
      && (forall x :: x in c ==> x in items)
      && (forall s :: |ItemsOf(c, s)| <= if TierOf(tiers, s) == 1 then NewsletterQuota else QuotaPerNonNewsletter)
      && |p1| <= |c| && c[..|p1|] == p1
      && (forall k :: 0 <= k < |p1| ==> TierOf(tiers, c[k].sourceName) == 1)
      && (forall k :: |p1| <= k < |c| ==> TierOf(tiers, c[k].sourceName) != 1)
      && |c| <= if |p1| > TotalLimit then |p1| else TotalLimit
  {
    var names := SourceNames(items);
    var p1 := Phase1(items, tiers, names);
    var c := Balance(items, tiers);
    Phase1Facts(items, tiers, names);
    Phase2Facts(items, tiers, p1, names);
    forall k | 0 <= k < |p1| ensures c[k] == p1[k] && c[k] in items && TierOf(tiers, c[k].sourceName) == 1 {
      assert c[..|p1|][k] == c[k];
    }
    forall x | x in c ensures x in items {
      var k :| 0 <= k < |c| && c[k] == x;
      if k < |p1| { assert c[k] == p1[k]; }
    }
  }

  // ---------------------------------------------------------------- what the phases take

  /** A list's URLs stay selected in any list that extends it. */
  lemma PrefixUrls(p: seq<NewsItem>, r: seq<NewsItem>)
    requires |p| <= |r| && r[..|p|] == p
    ensures Urls(p) <= Urls(r)
  {
    forall u | u in Urls(p) ensures u in Urls(r) {
      var k :| 0 <= k < |p| && p[k].url == u;
      assert r[k] == p[k];
    }
  }

  /** After the pushes, every item of `xs` has its URL selected, unless the list reached the limit. */
  lemma {:induction false} AddUnseenCovers(cand: seq<NewsItem>, xs: seq<NewsItem>, limit: int)
    ensures var r := AddUnseen(cand, xs, limit);
      forall x :: x in xs ==> x.url in Urls(r) || |r| >= limit
  {
    if xs != [] {
      var init := xs[..|xs| - 1];
      var x := xs[|xs| - 1];
      AddUnseenCovers(cand, init, limit);
      var prev := AddUnseen(cand, init, limit);
      var r := AddUnseen(cand, xs, limit);
      assert xs == init + [x];
      if x.url !in Urls(prev) && |prev| < limit {
        assert r == prev + [x];
        assert r[..|prev|] == prev;
        assert r[|prev|] == x;
        PrefixUrls(prev, r);
      }
    }
  }

  /** With room for all of `xs`, every item of `xs` has its URL selected. */
  lemma {:induction false} AddUnseenAll(cand: seq<NewsItem>, xs: seq<NewsItem>, limit: int)
    requires |cand| + |xs| <= limit
    ensures forall x :: x in xs ==> x.url in Urls(AddUnseen(cand, xs, limit))
  {
    if xs != [] {
      var init := xs[..|xs| - 1];
      var x := xs[|xs| - 1];
      AddUnseenAll(cand, init, limit);
      AddUnseenFacts(cand, init, limit);
      var prev := AddUnseen(cand, init, limit);
      var r := AddUnseen(cand, xs, limit);
      assert xs == init + [x];
      if x.url !in Urls(prev) {
        assert r == prev + [x];
        assert r[..|prev|] == prev;
        assert r[|prev|] == x;
        PrefixUrls(prev, r);
      }
    }
  }

  /** Phase 1 keeps what the earlier sources selected. */
  lemma Phase1Grows(items: seq<NewsItem>, tiers: map<string, int>, names: seq<string>)
    requires names != []
    ensures Urls(Phase1(items, tiers, names[..|names| - 1])) <= Urls(Phase1(items, tiers, names))
  {
    var name := names[|names| - 1];
    var prev := Phase1(items, tiers, names[..|names| - 1]);
    var r := Phase1(items, tiers, names);
    if TierOf(tiers, name) == 1 {
      PushStep(items, prev, name, NewsletterQuota, |prev| + NewsletterQuota, r);
      PrefixUrls(prev, r);
    }
  }

  /** A tier-1 source's own step selects the URLs of its five newest items. */
  lemma Phase1TakesLast(items: seq<NewsItem>, tiers: map<string, int>, names: seq<string>, x: NewsItem)
    requires names != [] && TierOf(tiers, names[|names| - 1]) == 1
    requires x in Newest(ItemsOf(items, names[|names| - 1]), NewsletterQuota)
    ensures x.url in Urls(Phase1(items, tiers, names))
  {
    var name := names[|names| - 1];
    var prev := Phase1(items, tiers, names[..|names| - 1]);
    var xs := Newest(ItemsOf(items, name), NewsletterQuota);
    NewestFacts(items, name, NewsletterQuota);
    AddUnseenAll(prev, xs, |prev| + NewsletterQuota);
  }

  /** Phase 1 takes every one of a tier-1 source's five newest items, or an item with the same URL. */
  lemma {:induction false} Phase1Takes(items: seq<NewsItem>, tiers: map<string, int>, names: seq<string>, s: string, x: NewsItem)
    requires s in names && TierOf(tiers, s) == 1
    requires x in Newest(ItemsOf(items, s), NewsletterQuota)
    ensures x.url in Urls(Phase1(items, tiers, names))
  {
    var init := names[..|names| - 1];
    if names[|names| - 1] == s {
      Phase1TakesLast(items, tiers, names, x);
    } else {
      assert s in init by {
        assert names == init + [names[|names| - 1]];
      }
      Phase1Takes(items, tiers, init, s, x);
      Phase1Grows(items, tiers, names);
    }
  }

  /** Phase 2 keeps what the earlier sources selected, and never shrinks. */
  lemma Phase2Grows(items: seq<NewsItem>, tiers: map<string, int>, start: seq<NewsItem>, names: seq<string>)
    requires names != []
    ensures var prev := Phase2(items, tiers, start, names[..|names| - 1]);
      var r := Phase2(items, tiers, start, names);
      |prev| <= |r| && Urls(prev) <= Urls(r)
  {
    var name := names[|names| - 1];
    var prev := Phase2(items, tiers, start, names[..|names| - 1]);
    var r := Phase2(items, tiers, start, names);
    if TierOf(tiers, name) != 1 && |prev| < TotalLimit {
      PushStep(items, prev, name, QuotaPerNonNewsletter, TotalLimit, r);
      PrefixUrls(prev, r);
    }
  }

  /** Another source's own step selects the URLs of its two newest items, unless the list reached 30. */
  lemma Phase2TakesLast(items: seq<NewsItem>, tiers: map<string, int>, start: seq<NewsItem>, names: seq<string>, x: NewsItem)
    requires names != [] && TierOf(tiers, names[|names| - 1]) != 1
    requires x in Newest(ItemsOf(items, names[|names| - 1]), QuotaPerNonNewsletter)
    ensures var r := Phase2(items, tiers, start, names);
      x.url in Urls(r) || |r| >= TotalLimit
  {
    var name := names[|names| - 1];
    var prev := Phase2(items, tiers, start, names[..|names| - 1]);
    if |prev| < TotalLimit {
      AddUnseenCovers(prev, Newest(ItemsOf(items, name), QuotaPerNonNewsletter), TotalLimit);
    }
  }

  /** Phase 2 takes every one of another source's two newest items, or an item with the same URL, unless the list reached 30. */
  lemma {:induction false} Phase2Takes(items: seq<NewsItem>, tiers: map<string, int>, start: seq<NewsItem>, names: seq<string>,
                                       s: string, x: NewsItem)
    requires s in names && TierOf(tiers, s) != 1
    requires x in Newest(ItemsOf(items, s), QuotaPerNonNewsletter)
    ensures var r := Phase2(items, tiers, start, names);
      x.url in Urls(r) || |r| >= TotalLimit
  {
    var init := names[..|names| - 1];
    if names[|names| - 1] == s {
      Phase2TakesLast(items, tiers, start, names, x);
    } else {
      assert s in init by {
        assert names == init + [names[|names| - 1]];
      }
      Phase2Takes(items, tiers, start, init, s, x);
      Phase2Grows(items, tiers, start, names);
    }
  }

  /**
   * The balanced list leaves out nothing it should take: each of a tier-1 source's five newest
   * items, and unless the list reached 30 each of another source's two newest, has its URL selected.
   */
  lemma BalanceTakes(items: seq<NewsItem>, tiers: map<string, int>, s: string, x: NewsItem)
    ensures var c := Balance(items, tiers);
      && (TierOf(tiers, s) == 1 && x in Newest(ItemsOf(items, s), NewsletterQuota) ==> x.url in Urls(c))
      && (TierOf(tiers, s) != 1 && x in Newest(ItemsOf(items, s), QuotaPerNonNewsletter) ==>
            x.url in Urls(c) || |c| >= TotalLimit)
  {
    var names := SourceNames(items);
    var p1 := Phase1(items, tiers, names);
    var c := Balance(items, tiers);
    if TierOf(tiers, s) == 1 && x in Newest(ItemsOf(items, s), NewsletterQuota) {
      NewestFacts(items, s, NewsletterQuota);
      assert x in items;
      Phase1Takes(items, tiers, names, s, x);
      BalanceCorrect(items, tiers);
      PrefixUrls(p1, c);
    }
    if TierOf(tiers, s) != 1 && x in Newest(ItemsOf(items, s), QuotaPerNonNewsletter) {
      NewestFacts(items, s, QuotaPerNonNewsletter);
      assert x in items;
      Phase2Takes(items, tiers, p1, names, s, x);
    }
  }

  /** Ordered candidates: every tier-1 candidate comes before every other one, and each part is newest first, on the same items. */
  lemma OrderCandidatesCorrect(cand: seq<NewsItem>, tiers: map<string, int>)
    ensures var o := OrderCandidates(cand, tiers);
      && multiset(o) == multiset(cand)
      && (forall i, j :: 0 <= i < j < |o| && TierOf(tiers, o[j].sourceName) == 1 ==> TierOf(tiers, o[i].sourceName) == 1)
      && (forall i, j :: 0 <= i < j < |o| && (TierOf(tiers, o[i].sourceName) == 1 <==> TierOf(tiers, o[j].sourceName) == 1) ==>
            o[j].publishedAt <= o[i].publishedAt)
  {
    var key := n => CandidateKey(tiers, n);
    SortDescCorrect(cand, key);
    var o := OrderCandidates(cand, tiers);
    forall i, j | 0 <= i < j < |o| ensures !Before(key(o[j]), key(o[i])) {
    }
  }

  // ---------------------------------------------------------------- the source's loops

  /** `forEach` over a quota slice, pushing unseen URLs while below `limit`; `seen` is `seenUrls`. */
  method PushUnseen(cand: seq<NewsItem>, seen: set<string>, xs: seq<NewsItem>, limit: int)
    returns (r: seq<NewsItem>, seen': set<string>)
    requires seen == Urls(cand)
    ensures r == AddUnseen(cand, xs, limit) && seen' == Urls(r)
  {
    r, seen' := cand, seen;
    for i := 0 to |xs|
      invariant r == AddUnseen(cand, xs[..i], limit) && seen' == Urls(r)
    {
      var item := xs[i];
      assert xs[..i + 1][..i] == xs[..i];
      if item.url !in seen' && |r| < limit {
        r := r + [item];
        seen' := seen' + {item.url};
      }
    }
    assert xs[..|xs|] == xs;
  }

  /** The first loop over `itemsBySource`: newsletters first. */
  method NewslettersFirst(allNews: seq<NewsItem>, tiers: map<string, int>, names: seq<string>, groups: map<string, seq<NewsItem>>)
    returns (candidates: seq<NewsItem>, seenUrls: set<string>)
    requires forall n :: n in names ==> n in groups && groups[n] == ItemsOf(allNews, n)
    ensures candidates == Phase1(allNews, tiers, names) && seenUrls == Urls(candidates)
  {
    candidates := [];
    seenUrls := {};
    for i := 0 to |names|
      invariant candidates == Phase1(allNews, tiers, names[..i]) && seenUrls == Urls(candidates)
    {
      var source := names[i];
      assert names[..i + 1][..i] == names[..i];
      if TierOf(tiers, source) == 1 {
        var newsletterItems := Take(SortDesc(groups[source], DateKey), NewsletterQuota);
        candidates, seenUrls := PushUnseen(candidates, seenUrls, newsletterItems, |candidates| + NewsletterQuota);
      }
    }
    assert names[..|names|] == names;
  }

  /** The second loop: two per other source while below the total limit. */
  method FillOthers(allNews: seq<NewsItem>, tiers: map<string, int>, names: seq<string>, groups: map<string, seq<NewsItem>>,
                    start: seq<NewsItem>, seen: set<string>)
    returns (candidates: seq<NewsItem>)
    requires forall n :: n in names ==> n in groups && groups[n] == ItemsOf(allNews, n)
    requires seen == Urls(start)
    ensures candidates == Phase2(allNews, tiers, start, names)
  {
    candidates := start;
    var seenUrls := seen;
    var i := 0;
    while i < |names|
      invariant i <= |names|
      invariant candidates == Phase2(allNews, tiers, start, names[..i]) && seenUrls == Urls(candidates)
    {
      var source := names[i];
      assert names[..i + 1][..i] == names[..i];
      assert groups[source] == ItemsOf(allNews, source);
      assert Phase2(allNews, tiers, start, names[..i + 1]) ==
        if TierOf(tiers, source) == 1 || |candidates| >= TotalLimit then candidates
        else AddUnseen(candidates, Newest(ItemsOf(allNews, source), QuotaPerNonNewsletter), TotalLimit);
      if TierOf(tiers, source) != 1 {
        if |candidates| >= TotalLimit {
          break;
        }
        var quotaItems := Take(SortDesc(groups[source], DateKey), QuotaPerNonNewsletter);
        candidates, seenUrls := PushUnseen(candidates, seenUrls, quotaItems, TotalLimit);
      }
      i := i + 1;
    }
    if i < |names| {
      Phase2Break(allNews, tiers, start, names, i);
    } else {
      assert names[..i] == names;
    }
  }

  /** The two balancing loops over `itemsBySource`, then the candidate sort. */
  method BalanceSources(allNews: seq<NewsItem>, tiers: map<string, int>) returns (candidates: seq<NewsItem>)
    ensures candidates == OrderCandidates(Balance(allNews, tiers), tiers)
  {
    var names, groups := GroupBySource(allNews);
    var newsletters, seenUrls := NewslettersFirst(allNews, tiers, names, groups);
    candidates := FillOthers(allNews, tiers, names, groups, newsletters, seenUrls);
    candidates := SortDesc(candidates, n => CandidateKey(tiers, n));
  }
}
