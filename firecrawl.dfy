/**
 * `scrapeUrl` of firecrawl.ts: the strategy ladder that first reads the article text
 * out of the fetched page and otherwise falls back to the Jina reader. The fetched page
 * and the reader's reply are given as values.
 */
module Firecrawl {
  import opened Wrappers
  import opened Text

  /**
   * A fetched page after `script, style, nav, footer, iframe, form` are removed:
   * `matches[sel]` is the text of what selector `sel` matches (a selector with no
   * element is absent), and `body` is the text of `body`.
   */
  datatype Page = Page(matches: map<string, string>, body: string)

  datatype Method = Fetch | Jina | Firecrawl

  /** `{content, method}`; `via` is the `method` field. */
  datatype ScrapeResult = ScrapeResult(content: string, via: Method)

  /** The article selectors, in the order they are tried. */
  const Selectors: seq<string> :=
    ["article", "[role=\"main\"]", ".post-content", ".article-body", ".entry-content", "main"]

  const MinSelectedLength := 500
  const MinFetchedLength := 600
  const MaxContent := 15000

  /** The text of the first selector that matches an element, or '' when none does. */
  function FirstMatch(page: Page, selectors: seq<string>): string
    decreases |selectors|
  {
    if selectors == [] then []
    else if selectors[0] in page.matches then page.matches[selectors[0]]
    else FirstMatch(page, selectors[1..])
  }

  /** The first matching selector wins, however short its text. */
  lemma {:induction false} FirstMatchWins(page: Page, selectors: seq<string>, i: nat)
    requires i < |selectors| && selectors[i] in page.matches
    requires forall j :: 0 <= j < i ==> selectors[j] !in page.matches
    ensures FirstMatch(page, selectors) == page.matches[selectors[i]]
    decreases i
  {
    if i > 0 {
      FirstMatchWins(page, selectors[1..], i - 1);
    }
  }

  /** With no matching selector the text is empty. */
  lemma {:induction false} FirstMatchNone(page: Page, selectors: seq<string>)
    requires forall j :: 0 <= j < |selectors| ==> selectors[j] !in page.matches
    ensures FirstMatch(page, selectors) == []
    decreases |selectors|
  {
    if selectors != [] {
      FirstMatchNone(page, selectors[1..]);
    }
  }

  /** The selector loop with its `break`. */
  method SelectText(page: Page) returns (text: string)
    ensures text == FirstMatch(page, Selectors)
  {
    text := [];
    for i := 0 to |Selectors|
      invariant text == []
      invariant FirstMatch(page, Selectors) == FirstMatch(page, Selectors[i..])
    {
      var selector := Selectors[i];
      assert Selectors[i..][1..] == Selectors[i + 1..];
      if selector in page.matches {
        text := page.matches[selector];
        break;
      }
    }
    if text == [] {
      assert Selectors[|Selectors|..] == [];
    }
  }

  /** `!text || text.length < 500` brings in the body text. */
  function ArticleText(page: Page): (r: string)
    ensures |FirstMatch(page, Selectors)| < MinSelectedLength ==> r == page.body
    ensures |FirstMatch(page, Selectors)| >= MinSelectedLength ==> r == FirstMatch(page, Selectors)
  {
    var text := FirstMatch(page, Selectors);
    if |text| < MinSelectedLength then page.body else text
  }

  /** `s` without its leading newlines. */
  function DropNewlines(s: string): (r: string)
    ensures |r| <= |s|
  {
    if s != [] && s[0] == '\n' then DropNewlines(s[1..]) else s
  }

  /** `s.replace(/\n+/g, '\n')` */
  function CollapseNewlines(s: string): string
    decreases |s|
  {
    if s == [] then []
    else if s[0] == '\n' then ['\n'] + CollapseNewlines(DropNewlines(s[1..]))
    else [s[0]] + CollapseNewlines(s[1..])
  }

  /** On text without a newline the newline collapse changes nothing. */
  lemma {:induction false} CollapseNewlinesNoop(s: string)
    requires '\n' !in s
    ensures CollapseNewlines(s) == s
    decreases |s|
  {
    if s != [] {
      assert s[0] != '\n';
      assert forall c :: c in s[1..] ==> c in s;
      CollapseNewlinesNoop(s[1..]);
    }
  }

  /** `text.replace(/\s+/g, ' ').replace(/\n+/g, '\n').trim()` */
  function Clean(text: string): string {
    Trim(CollapseNewlines(CollapseSpaces(text)))
  }

  /**
   * Cleaned text has no whitespace run, no whitespace other than a single space, and none
   * at either end; the newline step is a no-op after the whitespace collapse.
   */
  lemma CleanShape(text: string)
    ensures CollapseNewlines(CollapseSpaces(text)) == CollapseSpaces(text)
    ensures var c := Clean(text);
      && NoSpaceRuns(c)
      && (c == [] || (!IsSpace(c[0]) && !IsSpace(c[|c| - 1])))
  {
    var collapsed := CollapseSpaces(text);
    CollapseSpacesNoRuns(text);
    assert forall i :: 0 <= i < |collapsed| ==> collapsed[i] != '\n';
    CollapseNewlinesNoop(collapsed);
    var a, b :| 0 <= a <= b <= |collapsed| && Clean(text) == collapsed[a..b];
    SliceNoRuns(collapsed, a, b);
  }

  /** Step 1: the cleaned text of an ok page, cut to 15000, when it is longer than 600. */
  function FetchStep(page: Option<Page>): (r: Option<string>)
    ensures r.Some? ==> |r.value| <= MaxContent
  {
    match page
    case None => None
    case Some(p) =>
      var cleanText := Clean(ArticleText(p));
      if |cleanText| > MinFetchedLength then Some(Take(cleanText, MaxContent)) else None
  }

  /**
   * `scrapeUrl`: `page` is the fetched page (`None` when the response is not ok or the
   * fetch throws), `jina` the reader's body (`None` when not ok or thrown).
   */
  function Scrape(page: Option<Page>, jina: Option<string>): ScrapeResult {
    match FetchStep(page)
    case Some(content) => ScrapeResult(content, Fetch)
    case None =>
      match jina
      case Some(text) => ScrapeResult(Take(text, MaxContent), Jina)
      case None => ScrapeResult([], Fetch)
  }

  /** The content is at most 15000 characters on every path, and `firecrawl` is never the method. */
  lemma ScrapeBounded(page: Option<Page>, jina: Option<string>)
    ensures |Scrape(page, jina).content| <= MaxContent
    ensures Scrape(page, jina).via != Firecrawl
  {
  }

  /** Non-empty `fetch` content comes only from an ok page whose cleaned text exceeds 600 characters. */
  lemma FetchContentIsLong(page: Option<Page>, jina: Option<string>)
    ensures var r := Scrape(page, jina);
      r.via == Fetch && r.content != [] <==>
        page.Some? && |Clean(ArticleText(page.value))| > MinFetchedLength
    ensures var r := Scrape(page, jina);
      r.via == Fetch && r.content != [] ==>
        r.content == Take(Clean(ArticleText(page.value)), MaxContent)
  {
  }

  /** The reader is consulted only when step 1 does not return; then its body is used whenever present, even if empty. */
  lemma JinaFallback(page: Option<Page>, jina: Option<string>, other: Option<string>)
    ensures FetchStep(page).Some? ==> Scrape(page, jina) == Scrape(page, other)
    ensures FetchStep(page) == None && jina.Some? ==> Scrape(page, jina) == ScrapeResult(Take(jina.value, MaxContent), Jina)
    ensures FetchStep(page) == None && jina == None ==> Scrape(page, jina) == ScrapeResult([], Fetch)
  {
  }

  /** The ladder with its selector loop. */
  method ScrapeUrl(page: Option<Page>, jina: Option<string>) returns (result: ScrapeResult)
    ensures result == Scrape(page, jina)
  {
    if page.Some? {
      var text := SelectText(page.value);
      if |text| < MinSelectedLength {
        text := page.value.body;
      }
      var cleanText := Clean(text);
      if |cleanText| > MinFetchedLength {
        return ScrapeResult(Take(cleanText, MaxContent), Fetch);
      }
    }
    if jina.Some? {
      return ScrapeResult(Take(jina.value, MaxContent), Jina);
    }
    return ScrapeResult([], Fetch);
  }
}
