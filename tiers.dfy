/** The curator's `feedTierMap`: feed name to tier, with tier 2 for unknown or tierless feeds. */
module FeedTiers {
  import opened Config

  /** `allFeeds.forEach(f => feedTierMap.set(f.name, f.tier || 2))`: a later feed of the same name wins. */
  function TierMap(feeds: seq<Feed>): (m: map<string, int>)
    ensures forall f :: f in feeds ==> f.name in m
    ensures forall n :: n in m ==> m[n] != 0
  {
    if feeds == [] then map[]
    else
      var last := feeds[|feeds| - 1];
      TierMap(feeds[..|feeds| - 1])[last.name := if last.tier != 0 then last.tier else 2]
  }

  /** The `forEach` loop that fills `feedTierMap`, one feed at a time. */
  method BuildTierMap(feeds: seq<Feed>) returns (m: map<string, int>)
    ensures m == TierMap(feeds)
  {
    m := map[];
    var i := 0;
    while i < |feeds|
      invariant i <= |feeds|
      invariant m == TierMap(feeds[..i])
    {
      var f := feeds[i];
      assert feeds[..i + 1][..i] == feeds[..i];
      m := m[f.name := if f.tier != 0 then f.tier else 2];
      i := i + 1;
    }
    assert feeds[..i] == feeds;
  }

  /** `feedTierMap.get(name) || 2` */
  function TierOf(tiers: map<string, int>, name: string): int {
    if name in tiers && tiers[name] != 0 then tiers[name] else 2
  }

  /** A feed whose name no other feed uses gets its own tier (2 when it has none). */
  lemma {:induction false} TierOfUniqueFeed(feeds: seq<Feed>, i: nat)
    requires i < |feeds|
    requires forall j :: 0 <= j < |feeds| && j != i ==> feeds[j].name != feeds[i].name
    ensures TierOf(TierMap(feeds), feeds[i].name) == if feeds[i].tier != 0 then feeds[i].tier else 2
  {
    if i < |feeds| - 1 {
      var init := feeds[..|feeds| - 1];
      TierOfUniqueFeed(init, i);
    }
  }

  /** Every default feed is looked up to exactly its configured tier. */
  lemma DefaultFeedTierLookup(i: nat)
    requires i < |DefaultFeeds|
    ensures TierOf(TierMap(DefaultFeeds), DefaultFeeds[i].name) == DefaultFeeds[i].tier
  {
    DefaultFeedNamesUnique();
    DefaultFeedTiers();
    TierOfUniqueFeed(DefaultFeeds, i);
  }

  /** An unknown name falls back to tier 2. */
  lemma UnknownNameTier(feeds: seq<Feed>, name: string)
    requires forall f :: f in feeds ==> f.name != name
    ensures TierOf(TierMap(feeds), name) == 2
  {
    assert name !in TierMap(feeds) by {
      TierMapKeys(feeds);
    }
  }

  lemma {:induction false} TierMapKeys(feeds: seq<Feed>)
    ensures forall n :: n in TierMap(feeds) ==> exists f :: f in feeds && f.name == n
  {
    if feeds != [] {
      var init := feeds[..|feeds| - 1];
      TierMapKeys(init);
      forall n | n in TierMap(feeds) ensures exists f :: f in feeds && f.name == n {
        if n != feeds[|feeds| - 1].name {
          assert n in TierMap(init);
          var f :| f in init && f.name == n;
          assert f in feeds;
        }
      }
    }
  }
}
