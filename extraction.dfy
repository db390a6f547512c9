/**
 * `extractStories` of smart-curator.ts: turn one fetched item into candidate stories,
 * through the extraction oracle when there is enough text, and through the
 * single-story passthrough otherwise.
 */
module Extraction {
  import opened Wrappers
  import opened Text
  import opened NewsItems

  /** A story as the oracle reports it; `baseScore` is in tenths of a point (5 is 50). */
  datatype RawStory = RawStory(
    headline: string,
    summary: string,
    category: string,
    baseScore: int,
    entities: seq<string>,
    originalUrl: Option<string>)

  /**
   * The extraction service: given the item (source, title and date go into the prompt)
   * and the content excerpt, the parsed story list, or None when the response is not
   * ok, the call throws, or the reply does not parse.
   */
  type Oracle = (NewsItem, string) -> Option<seq<RawStory>>

  /** The scraper: the content `scrapeUrl` returns for an address ('' when it found none). */
  type Scraper = string -> string

  const ScrapeBelow: nat := 500
  const MinContent: nat := 100
  const MaxExcerpt: nat := 10000

  /** `item.content || item.summary || ''` */
  function InitialContent(item: NewsItem): string {
    if item.content != [] then item.content else item.summary
  }

  /** The text that goes to the oracle: a scrape replaces short content when it yields anything. */
  function ResolvedContent(item: NewsItem, scrape: Scraper): string {
    var content := InitialContent(item);
    if |content| < ScrapeBelow && item.url != [] then
      var scraped := scrape(item.url);
      if scraped != [] then scraped else content
    else content
  }

  /** The single story synthesised from the item itself. */
  function Passthrough(item: NewsItem, summary: string): (r: RawStory)
    ensures r.headline == item.title && r.category == "other" && r.baseScore == 50
    ensures r.entities == [] && r.originalUrl == Some(item.url) && r.summary == summary
  {
    RawStory(item.title, summary, "other", 50, [], Some(item.url))
  }

  /** The content excerpt the oracle is shown: `content.substring(0, 10000)`. */
  function Excerpt(content: string): (e: string)
    ensures |e| <= MaxExcerpt && |e| <= |content| && e == content[..|e|]
    ensures |content| <= MaxExcerpt ==> e == content
  {
    Take(content, MaxExcerpt)
  }

  /**
   * The candidate stories for one item. Short content (under 100 characters after the
   * optional scrape) yields one passthrough story whose summary falls back to the title;
   * an oracle failure yields one passthrough story whose summary falls back to ''.
   */
  function ExtractStories(item: NewsItem, scrape: Scraper, oracle: Oracle): seq<RawStory> {
    var content := ResolvedContent(item, scrape);
    if |content| < MinContent then
      [Passthrough(item, if item.summary != [] then item.summary else item.title)]
    else
      match oracle(item, Excerpt(content))
      case None => [Passthrough(item, item.summary)]
      case Some(stories) => stories
  }

  /** The scraper is consulted only for content under 500 characters on an item with a url. */
  lemma ScrapeOnlyWhenShort(item: NewsItem, scrape1: Scraper, scrape2: Scraper)
    requires |InitialContent(item)| >= ScrapeBelow || item.url == []
    ensures ResolvedContent(item, scrape1) == ResolvedContent(item, scrape2) == InitialContent(item)
  {
  }

  /**
   * Enough content goes to the oracle as an excerpt of at most 10000 characters, and
   * whatever story list it returns (possibly empty) is the result.
   */
  lemma OracleStoriesKept(item: NewsItem, scrape: Scraper, oracle: Oracle)
    requires |ResolvedContent(item, scrape)| >= MinContent
    requires oracle(item, Excerpt(ResolvedContent(item, scrape))).Some?
    ensures |Excerpt(ResolvedContent(item, scrape))| <= MaxExcerpt
    ensures ExtractStories(item, scrape, oracle) == oracle(item, Excerpt(ResolvedContent(item, scrape))).value
  {
  }

  /** Short content yields the passthrough story whose summary falls back to the title. */
  lemma ShortContentPassthrough(item: NewsItem, scrape: Scraper, oracle: Oracle)
    requires |ResolvedContent(item, scrape)| < MinContent
    ensures ExtractStories(item, scrape, oracle) ==
      [Passthrough(item, if item.summary != [] then item.summary else item.title)]
  {
  }

  /** An oracle failure yields the passthrough story whose summary falls back to ''. */
  lemma OracleFailurePassthrough(item: NewsItem, scrape: Scraper, oracle: Oracle)
    requires |ResolvedContent(item, scrape)| >= MinContent
    requires oracle(item, Excerpt(ResolvedContent(item, scrape))).None?
    ensures ExtractStories(item, scrape, oracle) == [Passthrough(item, item.summary)]
  {
  }

  /** With short content the oracle is never consulted: any two oracles give the same result. */
  lemma OracleNotAskedForShortContent(item: NewsItem, scrape: Scraper, oracle1: Oracle, oracle2: Oracle)
    requires |ResolvedContent(item, scrape)| < MinContent
    ensures ExtractStories(item, scrape, oracle1) == ExtractStories(item, scrape, oracle2)
    ensures |ExtractStories(item, scrape, oracle1)| == 1
  {
  }

  /**
   * The passthrough shape: exactly one story with the item's title, category 'other',
   * base score 5 and the item's url, whenever the content is short or the oracle fails.
   */
  lemma PassthroughCases(item: NewsItem, scrape: Scraper, oracle: Oracle)
    requires |ResolvedContent(item, scrape)| < MinContent
          || oracle(item, Excerpt(ResolvedContent(item, scrape))).None?
    ensures var r := ExtractStories(item, scrape, oracle);
      |r| == 1 && r[0].headline == item.title && r[0].category == "other"
      && r[0].baseScore == 50 && r[0].originalUrl == Some(item.url) && r[0].entities == []
  {
  }
}
