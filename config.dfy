/**
 * The constant tables of `config.ts`: the default feed registry and the scoring
 * configuration the scorer and the source balancer read.
 */
module Config {

  /** A syndication source: its unique name, its address, a category tag and a priority tier. */
  datatype Feed = Feed(name: string, url: string, category: string, tier: int)

  /** A subreddit's daily top posts, as the registry lists them. */
  function RedditFeed(name: string, subreddit: string): Feed {
    Feed(name, "https://www.reddit.com/r/" + subreddit + "/top/.rss?t=day", "social", 4)
  }

  const DefaultFeeds: seq<Feed> := [
    // tier 1: newsletters
    Feed("Milk Road", "https://rss.beehiiv.com/feeds/v3hqiCe5Vw.xml", "newsletter", 1),
    Feed("Bankless", "https://rss.beehiiv.com/feeds/2aeCe5g0lR.xml", "newsletter", 1),
    Feed("The Defiant", "https://thedefiant.io/feed", "newsletter", 1),
    Feed("Blockworks Daily", "https://blockworks.co/feed", "newsletter", 1),
    Feed("TLDR Crypto", "https://tldr.tech/crypto/rss", "newsletter", 1),
    Feed("The Pomp Letter", "https://pomp.substack.com/feed", "newsletter", 1),
    // tier 2: news sites
    Feed("CoinDesk", "https://www.coindesk.com/arc/outboundfeeds/rss/", "news", 2),
    Feed("Cointelegraph", "https://cointelegraph.com/rss", "news", 2),
    Feed("Decrypt", "https://decrypt.co/feed", "news", 2),
    Feed("The Block", "https://www.theblock.co/rss.xml", "news", 2),
    Feed("CryptoSlate", "https://cryptoslate.com/feed/", "news", 2),
    Feed("Bitcoin Magazine", "https://bitcoinmagazine.com/.rss/full/", "news", 2),
    // tier 3: official blogs and research
    Feed("Ethereum Blog", "https://blog.ethereum.org/feed.xml", "blog", 3),
    Feed("a16z Crypto", "https://a16zcrypto.com/posts/feed/", "blog", 3),
    Feed("Messari Research", "https://messari.io/rss", "blog", 3),
    // tier 4: community and social
    Feed("Hacker News Crypto", "https://hnrss.org/newest?q=Bitcoin+OR+Ethereum+OR+crypto+OR+blockchain&points=50", "social", 4),
    RedditFeed("r/CryptoCurrency", "CryptoCurrency"),
    RedditFeed("r/Bitcoin", "Bitcoin"),
    RedditFeed("r/Ethereum", "ethereum"),
    RedditFeed("r/CryptoMarkets", "CryptoMarkets"),
    RedditFeed("r/altcoin", "altcoin"),
    RedditFeed("r/defi", "defi")
  ]

  /** Stories whose final score is below this are not shown. */
  const MinScoreToShow: int := 6

  const TwoSourcesBoost: int := 1
  const ThreePlusSourcesBoost: int := 2

  /** Per-category score bonus; a category that is not a key gets none. */
  const CategoryBoost: map<string, int> := map[
    "price_movement" := 1,
    "regulation" := 1,
    "exchange_news" := 1,
    "defi_update" := 1,
    "security_breach" := 2
  ]

  /** Stories newer than this many hours get +1. */
  const RecencyBoostHours: int := 12

  /** Per-tier score multiplier, in tenths (1.0 is 10). A tier that is not a key gets 1.0. */
  const TierWeightTenths: map<int, int> := map[1 := 10, 2 := 9, 3 := 11, 4 := 8]

  /** The categories the extraction prompt lets the oracle choose from. */
  const PromptCategories: seq<string> := [
    "price_movement", "exchange_news", "defi_update", "nft_news", "regulation",
    "security_breach", "funding", "partnership", "protocol_upgrade", "market_analysis"
  ]

  lemma ThresholdConstants()
    ensures MinScoreToShow == 6 && RecencyBoostHours == 12
    ensures ThreePlusSourcesBoost > TwoSourcesBoost > 0
  {
  }

  /** `security_breach` has the unique largest bonus; every other listed category gets 1. */
  lemma SecurityBreachLargestBoost()
    ensures "security_breach" in CategoryBoost && CategoryBoost["security_breach"] == 2
    ensures forall c :: c in CategoryBoost && c != "security_breach" ==> CategoryBoost[c] == 1
    ensures forall c :: c in CategoryBoost && c != "security_breach" ==> CategoryBoost[c] < CategoryBoost["security_breach"]
  {
  }

  /** Half of the prompt's categories get no bonus at all. */
  lemma UnboostedPromptCategories()
    ensures forall c :: c in ["nft_news", "funding", "partnership", "protocol_upgrade", "market_analysis"] ==>
      c in PromptCategories && c !in CategoryBoost
    ensures forall c :: c in CategoryBoost ==> c in PromptCategories
  {
  }

  /** Tier 1 is exactly 1.0, tier 3 is the largest weight and tier 4 the smallest. */
  lemma TierWeightBounds()
    ensures TierWeightTenths.Keys == {1, 2, 3, 4}
    ensures TierWeightTenths[1] == 10
    ensures forall t :: t in TierWeightTenths ==> 8 <= TierWeightTenths[t] <= 11
    ensures forall t :: t in TierWeightTenths && t != 3 ==> TierWeightTenths[t] < TierWeightTenths[3]
    ensures forall t :: t in TierWeightTenths && t != 4 ==> TierWeightTenths[t] > TierWeightTenths[4]
  {
  }

  /** Every default feed has a tier in 1..4, and the tier-1 feeds are exactly the first six. */
  lemma DefaultFeedTiers()
    ensures |DefaultFeeds| == 22
    ensures forall i :: 0 <= i < |DefaultFeeds| ==> 1 <= DefaultFeeds[i].tier <= 4
    ensures forall i :: 0 <= i < |DefaultFeeds| ==> (DefaultFeeds[i].tier == 1 <==> i < 6)
  {
  }

  /** No two default feeds share a name. */
  lemma DefaultFeedNamesUnique()
    ensures forall i, j :: 0 <= i < j < |DefaultFeeds| ==> DefaultFeeds[i].name != DefaultFeeds[j].name
  {
  }
}
