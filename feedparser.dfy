/**
 * `parseRSSFeed` of news-fetcher.ts: which path a feed takes, when a response yields no
 * items, and how the fields of one RSS 2.0 `item` or Atom `entry` (RFC 4287, section 4.1.2)
 * become a news item. The XML parser and the date parser are parameters: the model starts
 * from the parser's output, a map from element names to values.
 */
module FeedParser {
  import opened Wrappers
  import opened Text
  import opened Config
  import opened NewsItems
  import opened FeedIds
  import opened CleanText
  import opened Reddit

  const MaxEntries := 10
  const SummaryLength := 500
  const Untitled := "Untitled"
  /** What a template literal makes of an object. */
  const ObjectString := "[object Object]"

  /**
   * A child element as the XML parser returns it: its text when it has neither attributes
   * nor children, otherwise an object whose `#text` and `@_name` keys hold its text and
   * attributes.
   */
  datatype XValue = XText(text: string) | XNode(props: map<string, string>)

  /** One `item` or `entry`: its child elements by name. */
  type Entry = map<string, XValue>

  /**
   * The parsed document: `rss.channel.item` and `feed.entry`, each a list (one element
   * standing for a single child); an empty list is an absent element.
   */
  datatype XmlDoc = XmlDoc(rssItems: seq<Entry>, atomEntries: seq<Entry>)

  type XmlParser = string -> Option<XmlDoc>
  /** `new Date(s)`: the instant of a date string, `None` for an invalid date. */
  type DateParser = string -> Option<int>

  /** `url.includes('reddit.com') || url.includes('/r/')` */
  predicate IsRedditFeed(url: string) {
    Contains(url, "reddit.com") || Contains(url, "/r/")
  }

  /** A value picked by a chain of `||`: a (non-empty, or final default) string, or an object. */
  datatype Picked = Str(s: string) | Obj(props: map<string, string>)

  /** `v?.[key]` as a truthy string. */
  function Prop(v: XValue, key: string): Option<string> {
    if v.XNode? && key in v.props && v.props[key] != [] then Some(v.props[key]) else None
  }

  /** `v` itself, if it is truthy. */
  function Truthy(v: XValue): Option<Picked> {
    match v
    case XText(t) => if t != [] then Some(Str(t)) else None
    case XNode(p) => Some(Obj(p))
  }

  /** `entry[name]?.[key] || entry[name]`, `None` when both are falsy. */
  function TextOrSelf(entry: Entry, name: string, key: string): (r: Option<Picked>)
    ensures r.Some? && r.value.Str? ==> r.value.s != []
  {
    if name !in entry then None
    else match Prop(entry[name], key)
      case Some(t) => Some(Str(t))
      case None => Truthy(entry[name])
  }

  /** `item.title?.['#text'] || item.title || 'Untitled'` */
  function PickTitle(entry: Entry): Picked {
    TextOrSelf(entry, "title", "#text").GetOr(Str(Untitled))
  }

  /** `item.link?.['@_href'] || item.link || ''` */
  function PickLink(entry: Entry): Picked {
    TextOrSelf(entry, "link", "@_href").GetOr(Str([]))
  }

  /** `typeof url === 'string' ? url : url?.['#text'] || ''` */
  function ItemUrl(link: Picked): string {
    match link
    case Str(s) => s
    case Obj(p) => if "#text" in p then p["#text"] else []
  }

  /** `${url}` */
  function Interpolate(p: Picked): string {
    match p
    case Str(s) => s
    case Obj(_) => ObjectString
  }

  /** `item.pubDate || item.published || item.updated`, `None` when all three are falsy. */
  function PickDate(entry: Entry): Option<Picked> {
    var fields := ["pubDate", "published", "updated"];
    var firsts := seq(3, i requires 0 <= i < 3 => if fields[i] in entry then Truthy(entry[fields[i]]) else None);
    if firsts[0].Some? then firsts[0] else if firsts[1].Some? then firsts[1] else firsts[2]
  }

  /**
   * `new Date(pubDate).toISOString()`: a missing date is the current time; an object or
   * an unparseable string is an invalid date, on which `toISOString` throws (`None`).
   */
  function PublishedAt(entry: Entry, parseDate: DateParser, now: int): Option<int> {
    match PickDate(entry)
    case None => Some(now)
    case Some(Obj(_)) => None
    case Some(Str(s)) => parseDate(s)
  }

  /** `media:content`'s `url` attribute, else `enclosure`'s, else `''`. */
  function PickImage(entry: Entry): string {
    if "media:content" in entry && Prop(entry["media:content"], "@_url").Some? then
      Prop(entry["media:content"], "@_url").value
    else if "enclosure" in entry && Prop(entry["enclosure"], "@_url").Some? then
      Prop(entry["enclosure"], "@_url").value
    else []
  }

  /** `item['content:encoded'] || ''` when it is a string; an object has no `length` and never wins. */
  function EncodedContent(entry: Entry): Option<string> {
    if "content:encoded" !in entry then Some([])
    else match entry["content:encoded"]
      case XText(t) => Some(t)
      case XNode(_) => None
  }

  /** `description?.['#text'] || description || summary?.['#text'] || summary || ''` */
  function PickSummary(entry: Entry): Picked {
    match TextOrSelf(entry, "description", "#text")
    case Some(p) => p
    case None => TextOrSelf(entry, "summary", "#text").GetOr(Str([]))
  }

  /**
   * `contentEncoded.length > summary.length ? contentEncoded : summary`, then `cleanText`
   * of it: `None` when that throws, which it does on an object summary.
   */
  function BestContent(entry: Entry): Option<string> {
    match PickSummary(entry)
    case Obj(_) => None
    case Str(summary) => Some(Longer(EncodedContent(entry), summary))
  }

  /** The encoded content when it is a string strictly longer than the summary, else the summary. */
  function Longer(encoded: Option<string>, summary: string): (r: string)
    ensures r == summary || (encoded.Some? && r == encoded.value && |r| > |summary|)
    ensures encoded.Some? && |encoded.value| > |summary| ==> r == encoded.value
  {
    if encoded.Some? && |encoded.value| > |summary| then encoded.value else summary
  }

  /** One entry as a news item; `None` when building it throws. */
  function ParseEntry(entry: Entry, feed: Feed, parseDate: DateParser, now: int): Option<NewsItem> {
    var title := PickTitle(entry);
    var link := PickLink(entry);
    if title.Obj? then None
    else match PublishedAt(entry, parseDate, now)
      case None => None
      case Some(date) =>
        match BestContent(entry)
        case None => None
        case Some(best) =>
          var content := Clean(best);
          Some(NewsItem(GenerateId(title.s, Interpolate(link)), Clean(title.s), ItemUrl(link),
                        feed.url, feed.name, date, Take(content, SummaryLength), PickImage(entry), content))
  }

  /** `xs.map(f)` where `f` may throw (`None`): the whole map throws as soon as one call does. */
  function MapAll<A, B>(xs: seq<A>, f: A -> Option<B>): (r: Option<seq<B>>)
    ensures r.Some? ==> |r.value| == |xs|
  {
    if xs == [] then Some([])
    else match f(xs[0])
      case None => None
      case Some(y) =>
        match MapAll(xs[1..], f)
        case None => None
        case Some(ys) => Some([y] + ys)
  }

  /** The map succeeds exactly when every call does, and then holds the results in order. */
  lemma {:induction false} MapAllCorrect<A, B>(xs: seq<A>, f: A -> Option<B>)
    ensures MapAll(xs, f).Some? <==> forall i :: 0 <= i < |xs| ==> f(xs[i]).Some?
    ensures MapAll(xs, f).Some? ==> forall i :: 0 <= i < |xs| ==> MapAll(xs, f).value[i] == f(xs[i]).value
  {
    if xs != [] {
      var tail := xs[1..];
      MapAllCorrect(tail, f);
      assert forall i :: 1 <= i < |xs| ==> xs[i] == tail[i - 1];
    }
  }

  /** The items of the entries, or `None` when building one of them throws. */
  function ParseEntries(entries: seq<Entry>, feed: Feed, parseDate: DateParser, now: int): (r: Option<seq<NewsItem>>)
    ensures r.Some? ==> |r.value| == |entries|
  {
    MapAll(entries, e => ParseEntry(e, feed, parseDate, now))
  }

  /** The entries yield items exactly when none of them throws, and then one item per entry, in order. */
  lemma ParseEntriesCorrect(entries: seq<Entry>, feed: Feed, parseDate: DateParser, now: int)
    ensures var r := ParseEntries(entries, feed, parseDate, now);
      && (r.Some? <==> forall i :: 0 <= i < |entries| ==> ParseEntry(entries[i], feed, parseDate, now).Some?)
      && (r.Some? ==> forall i :: 0 <= i < |entries| ==> r.value[i] == ParseEntry(entries[i], feed, parseDate, now).value)
  {
    MapAllCorrect(entries, e => ParseEntry(e, feed, parseDate, now));
  }

  /** `text.includes('<!DOCTYPE html>') || text.includes('<html') || text.includes("You've been blocked")` */
  predicate LooksBlocked(body: string) {
    Contains(body, "<!DOCTYPE html>") || Contains(body, "<html") || Contains(body, "You've been blocked")
  }

  /** `parsed.rss?.channel?.item || parsed.feed?.entry || []`, each as a list. */
  function DocEntries(doc: XmlDoc): seq<Entry> {
    if doc.rssItems != [] then doc.rssItems else doc.atomEntries
  }

  /** The RSS or Atom path: nothing on a failed fetch, an HTML page, a parse error or a throwing entry. */
  function ParseXmlFeed(feed: Feed, http: Http, parse: XmlParser, parseDate: DateParser, now: int): (r: seq<NewsItem>)
    ensures |r| <= MaxEntries
  {
    match http(feed.url)
    case None => []
    case Some(body) =>
      if LooksBlocked(body) then []
      else match parse(body)
        case None => []
        case Some(doc) => ParseEntries(Take(DocEntries(doc), MaxEntries), feed, parseDate, now).GetOr([])
  }

  /** `parseRSSFeed`: Reddit feeds go through the markdown reader, all others through the XML path. */
  function ParseFeed(feed: Feed, http: Http, parse: XmlParser, parseDate: DateParser, now: int): (r: seq<NewsItem>)
    ensures |r| <= MaxEntries
  {
    if IsRedditFeed(feed.url) then FetchReddit(feed, http, now) else ParseXmlFeed(feed, http, parse, parseDate, now)
  }

  // ---------------------------------------------------------------- properties

  /** Feeds whose address mentions reddit take the markdown path, the others the XML path. */
  lemma ParseFeedDispatch(feed: Feed, http: Http, parse: XmlParser, parseDate: DateParser, now: int)
    ensures Contains(feed.url, "reddit.com") ==> ParseFeed(feed, http, parse, parseDate, now) == FetchReddit(feed, http, now)
    ensures Contains(feed.url, "/r/") ==> ParseFeed(feed, http, parse, parseDate, now) == FetchReddit(feed, http, now)
    ensures !IsRedditFeed(feed.url) ==> ParseFeed(feed, http, parse, parseDate, now) == ParseXmlFeed(feed, http, parse, parseDate, now)
  {
  }

  /**
   * The Reddit feeds of the default registry, those named `r/...`, are its last six; each
   * address contains `reddit.com`, so each takes the markdown path.
   */
  lemma DefaultRedditFeeds()
    ensures forall i :: 0 <= i < |DefaultFeeds| ==> (StartsWith(DefaultFeeds[i].name, "r/") <==> 16 <= i)
    ensures forall i :: 16 <= i < |DefaultFeeds| ==>
      Contains(DefaultFeeds[i].url, "reddit.com") && IsRedditFeed(DefaultFeeds[i].url)
  {
    DefaultRedditNames();
    DefaultRedditUrls();
  }

  lemma DefaultRedditNames()
    ensures forall i :: 0 <= i < |DefaultFeeds| ==> (StartsWith(DefaultFeeds[i].name, "r/") <==> 16 <= i)
  {
    forall i | 0 <= i < |DefaultFeeds|
      ensures StartsWith(DefaultFeeds[i].name, "r/") <==> 16 <= i
    {
      var name := DefaultFeeds[i].name;
      assert |name| >= 2;
      assert StartsWith(name, "r/") <==> name[0] == 'r' && name[1] == '/';
    }
  }

  lemma DefaultRedditUrls()
    ensures forall i :: 16 <= i < |DefaultFeeds| ==> Contains(DefaultFeeds[i].url, "reddit.com")
  {
    forall i | 16 <= i < |DefaultFeeds|
      ensures Contains(DefaultFeeds[i].url, "reddit.com")
    {
      var url := DefaultFeeds[i].url;
      var sub :| url == "https://www.reddit.com/r/" + sub + "/top/.rss?t=day";
      RedditHost(url, sub);
    }
  }

  /** A subreddit address contains `reddit.com`. */
  lemma RedditHost(url: string, subreddit: string)
    requires url == "https://www.reddit.com/r/" + subreddit + "/top/.rss?t=day"
    ensures Contains(url, "reddit.com")
  {
    assert url[12..22] == "reddit.com";
    ContainsAt(url, "reddit.com", 12);
  }

  /** A failed fetch, an HTML page or an unparseable document yields no items. */
  lemma RejectedResponses(feed: Feed, http: Http, parse: XmlParser, parseDate: DateParser, now: int)
    ensures http(feed.url).None? ==> ParseXmlFeed(feed, http, parse, parseDate, now) == []
    ensures http(feed.url).Some? && LooksBlocked(http(feed.url).value) ==> ParseXmlFeed(feed, http, parse, parseDate, now) == []
    ensures http(feed.url).Some? && parse(http(feed.url).value).None? ==> ParseXmlFeed(feed, http, parse, parseDate, now) == []
  {
  }

  /**
   * A feed that is fetched and parsed yields all of its first ten entries, in order, when
   * none of them throws, and nothing when one does.
   */
  lemma XmlFeedItems(feed: Feed, http: Http, parse: XmlParser, parseDate: DateParser, now: int, doc: XmlDoc)
    requires http(feed.url).Some? && !LooksBlocked(http(feed.url).value)
    requires parse(http(feed.url).value) == Some(doc)
    ensures var entries := Take(DocEntries(doc), MaxEntries);
      var r := ParseXmlFeed(feed, http, parse, parseDate, now);
      && ((exists i :: 0 <= i < |entries| && ParseEntry(entries[i], feed, parseDate, now).None?) ==> r == [])
      && ((forall i :: 0 <= i < |entries| ==> ParseEntry(entries[i], feed, parseDate, now).Some?) ==>
            |r| == |entries| && forall i :: 0 <= i < |entries| ==> r[i] == ParseEntry(entries[i], feed, parseDate, now).value)
  {
    ParseEntriesCorrect(Take(DocEntries(doc), MaxEntries), feed, parseDate, now);
  }

  /** RSS items are used when present, Atom entries otherwise; a single entry is a one-element list. */
  lemma DocEntriesChoice(doc: XmlDoc, e: Entry)
    ensures doc.rssItems != [] ==> DocEntries(doc) == doc.rssItems
    ensures doc.rssItems == [] ==> DocEntries(doc) == doc.atomEntries
    ensures DocEntries(XmlDoc([e], [])) == [e] && DocEntries(XmlDoc([], [e])) == [e]
  {
  }

  /**
   * Every item names its feed, carries the cleaned content of the longer of
   * `content:encoded` and the description, and a summary that is its first 500 characters.
   */
  lemma EntryShape(entry: Entry, feed: Feed, parseDate: DateParser, now: int)
    requires ParseEntry(entry, feed, parseDate, now).Some?
    ensures var item := ParseEntry(entry, feed, parseDate, now).value;
      && item.source == feed.url && item.sourceName == feed.name
      && PickTitle(entry).Str? && item.title == Clean(PickTitle(entry).s)
      && item.id == GenerateId(PickTitle(entry).s, Interpolate(PickLink(entry)))
      && item.url == ItemUrl(PickLink(entry))
      && item.imageUrl == PickImage(entry)
      && PickSummary(entry).Str?
      && item.content == Clean(Longer(EncodedContent(entry), PickSummary(entry).s))
      && |item.summary| <= SummaryLength && item.summary == item.content[..|item.summary|]
      && (|item.content| > SummaryLength ==> |item.summary| == SummaryLength)
  {
  }

  /** Without a title element, or with an empty one, the title is 'Untitled'. */
  lemma UntitledDefault(entry: Entry, feed: Feed, parseDate: DateParser, now: int)
    requires "title" !in entry || entry["title"] == XText([])
    requires ParseEntry(entry, feed, parseDate, now).Some?
    ensures ParseEntry(entry, feed, parseDate, now).value.title == Clean(Untitled)
    ensures PickTitle(entry) == Str(Untitled)
  {
  }

  /** The Atom `link` element's `href` attribute (RFC 4287, section 4.2.7.1) is the url used for the id. */
  lemma AtomLinkHref(entry: Entry, href: string)
    requires "link" in entry && entry["link"].XNode? && "@_href" in entry["link"].props
    requires entry["link"].props["@_href"] == href != []
    ensures PickLink(entry) == Str(href) && ItemUrl(PickLink(entry)) == href
  {
  }

  /** `media:content` wins over `enclosure`. */
  lemma ImagePreference(entry: Entry, media: string, enclosure: string)
    requires "media:content" in entry && entry["media:content"].XNode?
    requires "@_url" in entry["media:content"].props && entry["media:content"].props["@_url"] == media != []
    ensures PickImage(entry) == media
  {
  }

  /** Without a date element the item is dated now; an unparseable date makes the entry throw. */
  lemma PublishedAtCases(entry: Entry, feed: Feed, parseDate: DateParser, now: int)
    ensures PickDate(entry).None? ==> PublishedAt(entry, parseDate, now) == Some(now)
    ensures PickDate(entry).Some? && PickDate(entry).value.Str? && parseDate(PickDate(entry).value.s).None? ==>
      ParseEntry(entry, feed, parseDate, now).None?
    ensures PickDate(entry).Some? && PickDate(entry).value.Obj? ==> ParseEntry(entry, feed, parseDate, now).None?
  {
  }

  /** A title that is an element with attributes but no text makes `cleanText` throw. */
  lemma ObjectTitleThrows(entry: Entry, feed: Feed, parseDate: DateParser, now: int)
    requires "title" in entry && entry["title"].XNode? && "#text" !in entry["title"].props
    ensures ParseEntry(entry, feed, parseDate, now).None?
  {
  }
}
