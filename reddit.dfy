/**
 * `fetchRedditViaJina` of news-fetcher.ts: a subreddit is read as markdown through the
 * Jina reader; every line that starts with a markdown link to a reddit post starts a new
 * post, the following non-blank lines become its content, and at most ten posts are kept.
 */
module Reddit {
  import opened Wrappers
  import opened Text
  import opened Config
  import opened NewsItems
  import opened FeedIds
  import opened CleanText
  import opened Seqs

  /** A fetch: the body of an ok response, or `None` for a non-ok response or a failure. */
  type Http = string -> Option<string>

  const JinaPrefix := "https://r.jina.ai/"
  const WwwPrefix := "https://www.reddit.com/r/"
  const BarePrefix := "https://reddit.com/r/"
  const MaxPosts := 10
  const SummaryLength := 500

  /** `feed.url.replace('/.rss', '').replace('.rss', '')`: first occurrences only. */
  function RedditUrl(url: string): string {
    ReplaceFirst(ReplaceFirst(url, "/.rss", ""), ".rss", "")
  }

  /** The length of the longest prefix of `s` without `)`. */
  function NonParenRun(s: string): (n: nat)
    ensures n <= |s| && ')' !in s[..n]
    ensures n < |s| ==> s[n] == ')'
  {
    if s == [] || s[0] == ')' then 0
    else
      var k := NonParenRun(s[1..]);
      assert s[..k + 1] == [s[0]] + s[1..][..k];
      k + 1
  }

  /**
   * `(https:\/\/(?:www\.)?reddit\.com\/r\/[^\)]+)\)` at the start of `s`: one of the two
   * prefixes, then a non-empty run without `)` that a `)` ends. The url is the captured group.
   */
  function UrlAt(s: string): (u: Option<string>)
    ensures u.Some? ==> (StartsWith(u.value, WwwPrefix) || StartsWith(u.value, BarePrefix))
    ensures u.Some? ==> |u.value| < |s| && s[..|u.value|] == u.value && s[|u.value|] == ')'
  {
    var p := if StartsWith(s, WwwPrefix) then WwwPrefix else BarePrefix;
    if !StartsWith(s, p) then None
    else
      var n := NonParenRun(s[|p|..]);
      if n == 0 || |p| + n >= |s| then None
      else
        assert s[..|p| + n][..|p|] == p;
        Some(s[..|p| + n])
  }

  datatype Link = Link(title: string, url: string)

  /** A match whose lazy title group ends at index `k` (exclusive): `^\[(.+?)\]` then `(` and the url. */
  ghost predicate LinkAt(line: string, k: int) {
    && 2 <= k && k + 2 <= |line|
    && line[0] == '['
    && (forall i :: 1 <= i < k ==> !IsLineTerminator(line[i]))
    && line[k] == ']' && line[k + 1] == '('
    && UrlAt(line[k + 2..]).Some?
  }

  /** Try title ends `k, k + 1, …` in order, as the lazy quantifier does. */
  function FindTitleEnd(line: string, k: nat): (r: Option<Link>)
    requires 2 <= k && |line| >= 1 && line[0] == '['
    decreases |line| - k
  {
    if k + 2 > |line| || IsLineTerminator(line[k - 1]) then None
    else if line[k] == ']' && line[k + 1] == '(' && UrlAt(line[k + 2..]).Some? then
      Some(Link(line[1..k], UrlAt(line[k + 2..]).value))
    else FindTitleEnd(line, k + 1)
  }

  /** `line.match(/^\[(.+?)\]\((https:\/\/(?:www\.)?reddit\.com\/r\/[^\)]+)\)/)` */
  function MatchLink(line: string): Option<Link> {
    if |line| >= 1 && line[0] == '[' then FindTitleEnd(line, 2) else None
  }

  /**
   * `r` is what the lazy search from title end `k` must yield: `None` when no match ends
   * at `k` or later, otherwise the match ending at the first such end.
   */
  ghost predicate FirstLinkFrom(line: string, k: int, r: Option<Link>) {
    match r
    case None => forall j :: k <= j ==> !LinkAt(line, j)
    case Some(m) => exists e :: k <= e && LinkAt(line, e) && m == Link(line[1..e], UrlAt(line[e + 2..]).value)
                      && forall j :: k <= j < e ==> !LinkAt(line, j)
  }

  /** Past the last possible title end, or after a line break, there is no match. */
  lemma FindTitleEndStops(line: string, k: nat)
    requires 2 <= k && |line| >= 1 && line[0] == '['
    requires k + 2 > |line| || IsLineTerminator(line[k - 1])
    ensures FindTitleEnd(line, k) == None
    ensures FirstLinkFrom(line, k, None)
  {
    forall j | k <= j ensures !LinkAt(line, j) {
      if j + 2 <= |line| {
        assert 1 <= k - 1 < j;
      }
    }
  }

  /** A title end followed by `](` and a url is a match. */
  lemma FindTitleEndHere(line: string, k: nat)
    requires 2 <= k && k + 2 <= |line| && line[0] == '['
    requires forall i :: 1 <= i < k ==> !IsLineTerminator(line[i])
    requires line[k] == ']' && line[k + 1] == '(' && UrlAt(line[k + 2..]).Some?
    ensures FindTitleEnd(line, k) == Some(Link(line[1..k], UrlAt(line[k + 2..]).value))
    ensures FirstLinkFrom(line, k, FindTitleEnd(line, k))
  {
    assert LinkAt(line, k);
  }

  /** Any other title end is no match, and the search moves on. */
  lemma FindTitleEndNext(line: string, k: nat)
    requires 2 <= k && k + 2 <= |line| && line[0] == '['
    requires !IsLineTerminator(line[k - 1])
    requires !(line[k] == ']' && line[k + 1] == '(' && UrlAt(line[k + 2..]).Some?)
    requires forall i :: 1 <= i < k - 1 ==> !IsLineTerminator(line[i])
    ensures !LinkAt(line, k)
    ensures FindTitleEnd(line, k) == FindTitleEnd(line, k + 1)
    ensures forall i :: 1 <= i < k ==> !IsLineTerminator(line[i])
  {
  }

  /** A title end that is no match can be skipped: the first match from `k + 1` is the first from `k`. */
  lemma FindTitleEndSkip(line: string, k: nat, r: Option<Link>)
    requires !LinkAt(line, k) && FirstLinkFrom(line, k + 1, r)
    ensures FirstLinkFrom(line, k, r)
  {
    match r
    case None =>
      forall j | k <= j ensures !LinkAt(line, j) {
        if j != k {
          assert k + 1 <= j;
        }
      }
    case Some(m) =>
      var e :| k + 1 <= e && LinkAt(line, e) && m == Link(line[1..e], UrlAt(line[e + 2..]).value)
               && forall j :: k + 1 <= j < e ==> !LinkAt(line, j);
      forall j | k <= j < e ensures !LinkAt(line, j) {
        if j != k {
          assert k + 1 <= j;
        }
      }
  }

  /** The search from title end `k` yields the first match ending at `k` or later. */
  lemma {:induction false} FindTitleEndCorrect(line: string, k: nat)
    requires 2 <= k && |line| >= 1 && line[0] == '['
    requires forall i :: 1 <= i < k - 1 && i < |line| ==> !IsLineTerminator(line[i])
    ensures FirstLinkFrom(line, k, FindTitleEnd(line, k))
    decreases |line| - k
  {
    if k + 2 > |line| || IsLineTerminator(line[k - 1]) {
      FindTitleEndStops(line, k);
    } else if line[k] == ']' && line[k + 1] == '(' && UrlAt(line[k + 2..]).Some? {
      FindTitleEndHere(line, k);
    } else {
      FindTitleEndNext(line, k);
      FindTitleEndCorrect(line, k + 1);
      FindTitleEndSkip(line, k, FindTitleEnd(line, k + 1));
    }
  }

  /**
   * The match takes the shortest title after which the reddit link follows; the title is
   * non-empty and has no line break, the url starts with one of the two reddit prefixes.
   */
  lemma MatchLinkCorrect(line: string)
    ensures MatchLink(line).None? <==> forall k :: !LinkAt(line, k)
    ensures MatchLink(line).Some? ==> exists k ::
      && LinkAt(line, k) && (forall j :: j < k ==> !LinkAt(line, j))
      && MatchLink(line).value == Link(line[1..k], UrlAt(line[k + 2..]).value)
  {
    if |line| >= 1 && line[0] == '[' {
      FindTitleEndCorrect(line, 2);
    }
  }

  lemma MatchLinkNonEmpty(line: string)
    ensures MatchLink(line).Some? ==> MatchLink(line).value.title != [] && MatchLink(line).value.url != []
  {
    MatchLinkCorrect(line);
  }

  // ---------------------------------------------------------------- posts

  /** A post being collected: its title, url, and the text gathered so far. */
  datatype Draft = Draft(title: string, url: string, content: string)

  /** `line.trim()` is truthy. */
  predicate NonBlank(line: string) {
    Trim(line) != []
  }

  /** The content a post collects from the lines after its link: `' ' + line` for each non-blank line, up to the next link line. */
  function Body(lines: seq<string>): string {
    if lines == [] || MatchLink(lines[0]).Some? then []
    else (if NonBlank(lines[0]) then " " + lines[0] else []) + Body(lines[1..])
  }

  /** One post per link line, in order, each with the body that follows it; lines before the first link belong to no post. */
  function Drafts(lines: seq<string>): seq<Draft> {
    if lines == [] then []
    else match MatchLink(lines[0])
      case Some(m) => [Draft(m.title, m.url, Body(lines[1..]))] + Drafts(lines[1..])
      case None => Drafts(lines[1..])
  }

  /** A post per link line. */
  function LinkCount(lines: seq<string>): nat {
    if lines == [] then 0 else (if MatchLink(lines[0]).Some? then 1 else 0) + LinkCount(lines[1..])
  }

  lemma {:induction false} DraftsCount(lines: seq<string>)
    ensures |Drafts(lines)| == LinkCount(lines)
  {
    if lines != [] {
      DraftsCount(lines[1..]);
    }
  }

  /** Lines before the first link are ignored. */
  lemma {:induction false} DraftsSkipLeading(pre: seq<string>, rest: seq<string>)
    requires forall i :: 0 <= i < |pre| ==> MatchLink(pre[i]).None?
    ensures Drafts(pre + rest) == Drafts(rest)
  {
    if pre != [] {
      var all := pre + rest;
      assert all[0] == pre[0] && all[1..] == pre[1..] + rest;
      assert MatchLink(all[0]).None?;
      assert Drafts(all) == Drafts(all[1..]);
      DraftsSkipLeading(pre[1..], rest);
    } else {
      assert pre + rest == rest;
    }
  }

  /** What the posts still to come look like, given the post being collected and the remaining lines. */
  function Pending(current: Option<Draft>, rest: seq<string>): seq<Draft> {
    match current
    case None => Drafts(rest)
    case Some(d) => [d.(content := d.content + Body(rest))] + Drafts(rest)
  }

  function ToItem(d: Draft, feed: Feed, now: int): NewsItem {
    var content := Clean(d.content);
    NewsItem(GenerateId(d.title, d.url), d.title, d.url, feed.url, feed.name, now, Take(content, SummaryLength), "", content)
  }

  function ToItems(ds: seq<Draft>, feed: Feed, now: int): (r: seq<NewsItem>)
    ensures |r| == |ds|
  {
    if ds == [] then [] else ToItems(ds[..|ds| - 1], feed, now) + [ToItem(ds[|ds| - 1], feed, now)]
  }

  lemma ToItemsSnoc(ds: seq<Draft>, d: Draft, feed: Feed, now: int)
    ensures ToItems(ds + [d], feed, now) == ToItems(ds, feed, now) + [ToItem(d, feed, now)]
  {
    assert (ds + [d])[..|ds|] == ds;
  }

  /** The posts of a markdown page, at most ten. */
  function RedditPosts(markdown: string, feed: Feed, now: int): (r: seq<NewsItem>)
    ensures |r| <= MaxPosts
  {
    Take(ToItems(Drafts(Split(markdown, '\n')), feed, now), MaxPosts)
  }

  /** The Reddit path: a failed fetch gives no items. */
  function FetchReddit(feed: Feed, http: Http, now: int): (r: seq<NewsItem>)
    ensures |r| <= MaxPosts
  {
    match http(JinaPrefix + RedditUrl(feed.url))
    case None => []
    case Some(markdown) => RedditPosts(markdown, feed, now)
  }

  lemma PendingLink(current: Option<Draft>, line: string, rest: seq<string>, m: Link)
    requires MatchLink(line) == Some(m)
    ensures Pending(current, [line] + rest) ==
      (if current.Some? then [current.value] else []) + Pending(Some(Draft(m.title, m.url, [])), rest)
  {
    var all := [line] + rest;
    var started := [Draft(m.title, m.url, Body(rest))] + Drafts(rest);
    assert all[0] == line && all[1..] == rest;
    assert Body(all) == [];
    assert Drafts(all) == started;
    assert Pending(Some(Draft(m.title, m.url, [])), rest) == started by {
      assert [] + Body(rest) == Body(rest);
    }
    match current
    case None =>
      assert [] + started == started;
    case Some(d) =>
      assert d.(content := d.content + []) == d;
  }

  /** A line that is no link adds itself (if non-blank) to the body and starts no post. */
  lemma OtherLine(line: string, rest: seq<string>)
    requires MatchLink(line).None?
    ensures Body([line] + rest) == (if NonBlank(line) then " " + line else []) + Body(rest)
    ensures Drafts([line] + rest) == Drafts(rest)
  {
    var all := [line] + rest;
    assert all[0] == line && all[1..] == rest;
  }

  lemma PendingOther(current: Option<Draft>, line: string, rest: seq<string>)
    requires MatchLink(line).None?
    ensures Pending(current, [line] + rest) ==
      if current.Some? && NonBlank(line) then Pending(Some(current.value.(content := current.value.content + " " + line)), rest)
      else Pending(current, rest)
  {
    OtherLine(line, rest);
    if current.Some? {
      var d := current.value;
      if NonBlank(line) {
        ConcatAssoc(d.content, " " + line, Body(rest));
        ConcatAssoc(d.content, " ", line);
        assert d.content + Body([line] + rest) == (d.content + " " + line) + Body(rest);
      } else {
        assert [] + Body(rest) == Body(rest);
      }
    }
  }

  /** The post being collected, if a link has been seen (`currentTitle` is truthy). */
  function Current(title: string, url: string, content: string): Option<Draft> {
    if title != [] then Some(Draft(title, url, content)) else None
  }

  /** The loop's state: the posts pushed so far and the post being collected. */
  datatype Scan = Scan(pushed: seq<Draft>, current: Option<Draft>)

  function Flushed(current: Option<Draft>): seq<Draft> {
    if current.Some? then [current.value] else []
  }

  /** One line of the loop: a link line pushes the current post and starts a new one; a non-blank line extends the current post. */
  function ScanLine(st: Scan, line: string): Scan {
    match MatchLink(line)
    case Some(m) => Scan(st.pushed + Flushed(st.current), Some(Draft(m.title, m.url, [])))
    case None =>
      if st.current.Some? && NonBlank(line) then
        Scan(st.pushed, Some(st.current.value.(content := st.current.value.content + " " + line)))
      else st
  }

  /** The state after the loop has read `lines`. */
  function ScanLines(lines: seq<string>): Scan {
    if lines == [] then Scan([], None) else ScanLine(ScanLines(lines[..|lines| - 1]), lines[|lines| - 1])
  }

  /** The posts of the loop, with the last post flushed after it. */
  function ScanPosts(lines: seq<string>): seq<Draft> {
    var st := ScanLines(lines);
    st.pushed + Flushed(st.current)
  }

  lemma ScanLineInvariant(st: Scan, line: string, rest: seq<string>)
    ensures st.pushed + Pending(st.current, [line] + rest) ==
      ScanLine(st, line).pushed + Pending(ScanLine(st, line).current, rest)
  {
    match MatchLink(line)
    case Some(m) =>
      PendingLink(st.current, line, rest, m);
      var next := Pending(Some(Draft(m.title, m.url, [])), rest);
      assert st.pushed + (Flushed(st.current) + next) == (st.pushed + Flushed(st.current)) + next;
    case None =>
      PendingOther(st.current, line, rest);
  }

  /** Reading `lines` and then the posts still pending from `rest` gives the posts of the whole page. */
  lemma {:induction false} ScanLinesPending(lines: seq<string>, rest: seq<string>)
    ensures ScanLines(lines).pushed + Pending(ScanLines(lines).current, rest) == Drafts(lines + rest)
    decreases |lines|
  {
    if lines == [] {
      assert lines + rest == rest;
    } else {
      var init, last := lines[..|lines| - 1], lines[|lines| - 1];
      assert init + ([last] + rest) == lines + rest;
      ScanLinesPending(init, [last] + rest);
      ScanLineInvariant(ScanLines(init), last, rest);
    }
  }

  /** The left-to-right loop and the per-link description of the posts agree. */
  lemma ScanPostsAreDrafts(lines: seq<string>)
    ensures ScanPosts(lines) == Drafts(lines)
  {
    ScanLinesPending(lines, []);
    assert lines + [] == lines;
    var cur := ScanLines(lines).current;
    if cur.Some? {
      assert cur.value.(content := cur.value.content + Body([])) == cur.value;
    }
    assert Pending(cur, []) == Flushed(cur);
  }

  lemma ScanLinesSnoc(lines: seq<string>, i: nat)
    requires i < |lines|
    ensures ScanLines(lines[..i + 1]) == ScanLine(ScanLines(lines[..i]), lines[i])
  {
    assert lines[..i + 1][..i] == lines[..i];
  }

  /** The loop over the lines with `currentTitle`, `currentUrl`, `currentContent`, pushing a post at every new link. */
  method ParseLines(lines: seq<string>, feed: Feed, now: int) returns (posts: seq<NewsItem>)
    ensures posts == ToItems(Drafts(lines), feed, now)
  {
    posts := [];
    ghost var pushed: seq<Draft> := [];
    var currentTitle, currentUrl, currentContent := "", "", "";
    for i := 0 to |lines|
      invariant currentTitle != [] ==> currentUrl != []
      invariant posts == ToItems(pushed, feed, now)
      invariant ScanLines(lines[..i]) == Scan(pushed, Current(currentTitle, currentUrl, currentContent))
    {
      var line := lines[i];
      ScanLinesSnoc(lines, i);
      ghost var cur := Current(currentTitle, currentUrl, currentContent);
      var linkMatch := MatchLink(line);
      if linkMatch.Some? {
        MatchLinkNonEmpty(line);
        assert ScanLines(lines[..i + 1]) == Scan(pushed + Flushed(cur), Some(Draft(linkMatch.value.title, linkMatch.value.url, [])));
        if currentTitle != [] && currentUrl != [] {
          ToItemsSnoc(pushed, Draft(currentTitle, currentUrl, currentContent), feed, now);
          posts := posts + [ToItem(Draft(currentTitle, currentUrl, currentContent), feed, now)];
          pushed := pushed + [Draft(currentTitle, currentUrl, currentContent)];
        } else {
          assert pushed + Flushed(cur) == pushed;
        }
        currentTitle := linkMatch.value.title;
        currentUrl := linkMatch.value.url;
        currentContent := "";
      } else {
        if currentTitle != [] && Trim(line) != [] {
          currentContent := currentContent + " " + line;
        }
      }
    }
    assert lines[..|lines|] == lines;
    ghost var last := Current(currentTitle, currentUrl, currentContent);
    assert ScanPosts(lines) == pushed + Flushed(last);
    if currentTitle != [] && currentUrl != [] {
      ToItemsSnoc(pushed, Draft(currentTitle, currentUrl, currentContent), feed, now);
      posts := posts + [ToItem(Draft(currentTitle, currentUrl, currentContent), feed, now)];
      pushed := pushed + [Draft(currentTitle, currentUrl, currentContent)];
    }
    assert pushed == ScanPosts(lines);
    ScanPostsAreDrafts(lines);
  }

  /** `parseRedditMarkdown`: split into lines, then collect the posts. */
  method ParseMarkdown(markdown: string, feed: Feed, now: int) returns (posts: seq<NewsItem>)
    ensures posts == ToItems(Drafts(Split(markdown, '\n')), feed, now)
  {
    posts := ParseLines(Split(markdown, '\n'), feed, now);
  }
}
