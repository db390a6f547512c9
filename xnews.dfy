/**
 * The `x-news` route: rows of the `x_news` table are deduplicated by a normalised
 * headline key and by long-word overlap, optionally filtered by a language model that
 * returns the indices to keep, and formatted for the client.
 */
module XNews {
  import opened Wrappers
  import opened Text
  import opened Seqs

  /** A row of the `x_news` table; absent columns are `None`. */
  datatype XItem = XItem(id: string, headline: Option<string>, author: Option<string>,
                         postCount: Option<int>, fetchedAt: string)

  /** `item.headline || ''` */
  function Headline(item: XItem): string {
    item.headline.GetOr([])
  }

  const KeyLength := 60
  const ShortKeyLength := 40

  /** `[\w\s]`: what the key normalisation keeps. */
  predicate KeptByKey(c: char) {
    IsWordChar(c) || IsSpace(c)
  }

  /** Lower-case, drop all but `[\w\s]`, collapse whitespace runs to one space, trim, cut to 60. */
  function NormalizedKey(headline: string): string {
    Take(Trim(CollapseSpaces(Keep(Lower(headline), KeptByKey))), KeyLength)
  }

  /** A key character is a space or a lower-case `\w` character. */
  predicate KeyChar(c: char) {
    c == ' ' || ('a' <= c <= 'z') || IsDigit(c) || c == '_'
  }

  /** What survives lower-casing and `[\w\s]` filtering, other than whitespace, is a key character. */
  lemma LoweredKeptChars(headline: string)
    ensures forall c :: c in Keep(Lower(headline), KeptByKey) && !IsSpace(c) ==> KeyChar(c)
  {
    var lowered := Lower(headline);
    var kept := Keep(lowered, KeptByKey);
    forall c | c in kept && !IsSpace(c) ensures KeyChar(c) {
      var i :| 0 <= i < |kept| && kept[i] == c;
      assert KeptByKey(c);
      var j :| 0 <= j < |lowered| && lowered[j] == c;
      assert c == LowerChar(headline[j]);
    }
  }

  /** Trimming and cutting a collapsed string keeps it free of runs and of a leading space. */
  lemma TrimTakeShape(collapsed: string, n: nat)
    requires NoSpaceRuns(collapsed)
    ensures var k := Take(Trim(collapsed), n);
      && (k == [] || k[0] != ' ')
      && NoSpaceRuns(k)
      && (forall c :: c in k ==> c in collapsed)
  {
    var trimmed := Trim(collapsed);
    var k := Take(trimmed, n);
    var a, b :| 0 <= a <= b <= |collapsed| && trimmed == collapsed[a..b];
    SlicePrefixShape(collapsed, a, b, trimmed, k);
  }

  /**
   * A key is at most 60 characters of `[a-z0-9_ ]`, does not start with a space and has
   * no two spaces in a row; its short key is its first 40 characters.
   */
  lemma NormalizedKeyShape(headline: string)
    ensures var k := NormalizedKey(headline);
      && |k| <= KeyLength
      && (k == [] || k[0] != ' ')
      && NoSpaceRuns(k)
      && (forall c :: c in k ==> KeyChar(c))
      && ShortKey(k) == k[..if |k| < ShortKeyLength then |k| else ShortKeyLength]
  {
    var kept := Keep(Lower(headline), KeptByKey);
    var collapsed := CollapseSpaces(kept);
    CollapseSpacesNoRuns(kept);
    CollapseSpacesChars(kept);
    LoweredKeptChars(headline);
    TrimTakeShape(collapsed, KeyLength);
  }

  function Normalized(item: XItem): string {
    NormalizedKey(Headline(item))
  }

  /** The first 40 characters of a normalised key. */
  function ShortKey(normalized: string): string {
    Take(normalized, ShortKeyLength)
  }

  /** The set of words longer than three characters, splitting on single spaces. */
  function LongWords(key: string): (r: set<string>)
    ensures forall w :: w in r ==> |w| > 3 && ' ' !in w
  {
    set w | w in Split(key, ' ') && |w| > 3
  }

  function Max(a: int, b: int): int {
    if a < b then b else a
  }

  /** `overlap / max(|words|, |seenWords|) > 0.5`; a pair with an empty set is skipped. */
  predicate Overlapping(words: set<string>, seenWords: set<string>) {
    words != {} && seenWords != {} && 2 * |words * seenWords| > Max(|words|, |seenWords|)
  }

  /** A row is dropped when its short key is a stored key or its long words overlap a stored key's. */
  predicate IsDuplicate(seen: set<string>, normalized: string) {
    || ShortKey(normalized) in seen
    || exists s :: s in seen && Overlapping(LongWords(normalized), LongWords(s))
  }

  /** The same test, between a row and one earlier kept row. */
  predicate DuplicateOf(item: XItem, earlier: XItem) {
    || ShortKey(Normalized(item)) == Normalized(earlier)
    || Overlapping(LongWords(Normalized(item)), LongWords(Normalized(earlier)))
  }

  /** The dedup loop's state: the kept rows and the set of their normalised keys. */
  datatype DedupState = DedupState(deduped: seq<XItem>, seen: set<string>)

  function DedupStep(st: DedupState, item: XItem): DedupState {
    var normalized := Normalized(item);
    if IsDuplicate(st.seen, normalized) then st
    else DedupState(st.deduped + [item], st.seen + {normalized})
  }

  /** The dedup loop over the rows, as a left fold. */
  function DedupRows(raw: seq<XItem>): DedupState
    decreases |raw|
  {
    if raw == [] then DedupState([], {})
    else DedupStep(DedupRows(raw[..|raw| - 1]), raw[|raw| - 1])
  }

  function KeysOf(items: seq<XItem>): set<string> {
    set x | x in items :: Normalized(x)
  }

  /** The stored keys are exactly the keys of the kept rows. */
  lemma {:induction false} DedupSeen(raw: seq<XItem>)
    ensures DedupRows(raw).seen == KeysOf(DedupRows(raw).deduped)
    decreases |raw|
  {
    if raw != [] {
      var init := raw[..|raw| - 1];
      DedupSeen(init);
      var st := DedupRows(init);
      var x := raw[|raw| - 1];
      if !IsDuplicate(st.seen, Normalized(x)) {
        assert KeysOf(st.deduped + [x]) == KeysOf(st.deduped) + {Normalized(x)};
      }
    }
  }

  /** A row's test against the stored keys is its test against the kept rows. */
  lemma DuplicateOfKept(kept: seq<XItem>, item: XItem)
    ensures IsDuplicate(KeysOf(kept), Normalized(item))
      <==> exists k :: k in kept && DuplicateOf(item, k)
  {
    var seen := KeysOf(kept);
    var n := Normalized(item);
    if IsDuplicate(seen, n) {
      if ShortKey(n) in seen {
        var k :| k in kept && Normalized(k) == ShortKey(n);
        assert DuplicateOf(item, k);
      } else {
        var s :| s in seen && Overlapping(LongWords(n), LongWords(s));
        var k :| k in kept && Normalized(k) == s;
        assert DuplicateOf(item, k);
      }
    }
    if exists k :: k in kept && DuplicateOf(item, k) {
      var k :| k in kept && DuplicateOf(item, k);
      assert Normalized(k) in seen;
    }
  }

  /** A row is dropped iff it duplicates an earlier kept row; otherwise it is appended. */
  lemma DedupDropIff(raw: seq<XItem>, item: XItem)
    ensures var kept := DedupRows(raw).deduped;
      DedupRows(raw + [item]).deduped
        == if exists k :: k in kept && DuplicateOf(item, k) then kept else kept + [item]
  {
    assert (raw + [item])[..|raw|] == raw;
    var st := DedupRows(raw);
    assert DedupRows(raw + [item]) == DedupStep(st, item);
    DedupSeen(raw);
    DuplicateOfKept(st.deduped, item);
    assert IsDuplicate(st.seen, Normalized(item)) <==> exists k :: k in st.deduped && DuplicateOf(item, k);
  }

  /** The kept rows are the raw rows with some dropped, in their original order. */
  lemma {:induction false} DedupSubseq(raw: seq<XItem>)
    ensures Subseq(DedupRows(raw).deduped, raw)
    decreases |raw|
  {
    if raw != [] {
      var init, x := raw[..|raw| - 1], raw[|raw| - 1];
      SplitLast(raw);
      DedupSubseq(init);
      var kept := DedupRows(init).deduped;
      if DedupRows(raw).deduped == kept {
        SubseqSkip(kept, init, x);
      } else {
        assert DedupRows(raw).deduped == kept + [x];
        SubseqKeep(kept, init, x);
      }
    }
  }

  /** The first row is always kept. */
  lemma {:induction false} DedupKeepsFirst(raw: seq<XItem>)
    requires raw != []
    ensures DedupRows(raw).deduped != [] && DedupRows(raw).deduped[0] == raw[0]
    decreases |raw|
  {
    var init := raw[..|raw| - 1];
    if init == [] {
      assert DedupRows(init) == DedupState([], {});
    } else {
      DedupKeepsFirst(init);
      assert init[0] == raw[0];
    }
  }

  /** Appending a row related to no earlier row keeps a list free of related pairs. */
  lemma AppendUnrelated(kept: seq<XItem>, x: XItem, related: (XItem, XItem) -> bool)
    requires forall i, j :: 0 <= i < j < |kept| ==> !related(kept[j], kept[i])
    requires forall k :: k in kept ==> !related(x, k)
    ensures var d := kept + [x]; forall i, j :: 0 <= i < j < |d| ==> !related(d[j], d[i])
  {
    var d := kept + [x];
    forall i, j | 0 <= i < j < |d| ensures !related(d[j], d[i]) {
      if j == |kept| {
        assert d[i] in kept;
      } else {
        assert d[i] == kept[i] && d[j] == kept[j];
      }
    }
  }

  /** No kept row duplicates an earlier kept row. */
  lemma {:induction false} DedupNoDuplicates(raw: seq<XItem>)
    ensures var d := DedupRows(raw).deduped;
      forall i, j :: 0 <= i < j < |d| ==> !DuplicateOf(d[j], d[i])
    decreases |raw|
  {
    if raw != [] {
      var init, x := raw[..|raw| - 1], raw[|raw| - 1];
      SplitLast(raw);
      DedupNoDuplicates(init);
      DedupDropIff(init, x);
      var kept := DedupRows(init).deduped;
      if !exists k :: k in kept && DuplicateOf(x, k) {
        AppendUnrelated(kept, x, DuplicateOf);
      }
      assert DedupRows(raw).deduped
        == if exists k :: k in kept && DuplicateOf(x, k) then kept else kept + [x];
    }
  }

  /**
   * The inner loop over the stored keys. A JavaScript `Set` iterates in insertion order;
   * the outcome is the same for any order, so the loop takes the keys in any order.
   */
  method OverlapsAny(words: set<string>, seenNormalized: set<string>) returns (isDupe: bool)
    ensures isDupe <==> exists s :: s in seenNormalized && Overlapping(words, LongWords(s))
  {
    isDupe := false;
    var pending := seenNormalized;
    while pending != {}
      invariant pending <= seenNormalized
      invariant forall s :: s in seenNormalized - pending ==> !Overlapping(words, LongWords(s))
      decreases |pending|
    {
      var seen :| seen in pending;
      var seenWords := LongWords(seen);
      pending := pending - {seen};
      if |seenWords| == 0 || |words| == 0 {
        continue;
      }
      var overlap := |words * seenWords|;
      if 2 * overlap > Max(|words|, |seenWords|) {
        assert Overlapping(words, LongWords(seen));
        isDupe := true;
        return;
      }
    }
  }

  /** The dedup loop of `GET`. */
  method Dedup(rawItems: seq<XItem>) returns (deduped: seq<XItem>)
    ensures deduped == DedupRows(rawItems).deduped
  {
    deduped := [];
    var seenNormalized: set<string> := {};
    for i := 0 to |rawItems|
      invariant DedupState(deduped, seenNormalized) == DedupRows(rawItems[..i])
    {
      var item := rawItems[i];
      assert rawItems[..i + 1][..i] == rawItems[..i];
      var headline := Lower(Headline(item));
      var normalized := Take(Trim(CollapseSpaces(Keep(headline, KeptByKey))), KeyLength);
      var shortKey := Take(normalized, ShortKeyLength);
      if shortKey in seenNormalized {
        continue;
      }
      var words := LongWords(normalized);
      var isDupe := OverlapsAny(words, seenNormalized);
      if isDupe {
        continue;
      }
      seenNormalized := seenNormalized + {normalized};
      deduped := deduped + [item];
    }
    assert rawItems[..|rawItems|] == rawItems;
  }

  /** The indices in `[0, n)`, in the order returned. */
  function InRange(indices: seq<int>, n: nat): seq<int> {
    Filter(indices, (i: int) => 0 <= i < n)
  }

  /** `keepIndices.filter(i => i >= 0 && i < items.length).map(i => items[i])` */
  function SelectIndices<T>(items: seq<T>, indices: seq<int>): seq<T> {
    var valid := InRange(indices, |items|);
    seq(|valid|, k requires 0 <= k < |valid| => items[valid[k]])
  }

  /** The selection holds `items[i]` exactly for the in-range returned indices `i`. */
  lemma SelectIndicesMembers<T>(items: seq<T>, indices: seq<int>)
    ensures forall x :: (x in SelectIndices(items, indices)
                         <==> exists i :: i in indices && 0 <= i < |items| && x == items[i])
  {
    var valid := InRange(indices, |items|);
    var r := SelectIndices(items, indices);
    forall x | x in r ensures exists i :: i in indices && 0 <= i < |items| && x == items[i] {
      var k :| 0 <= k < |r| && r[k] == x;
      assert valid[k] in valid;
    }
    forall x | exists i :: i in indices && 0 <= i < |items| && x == items[i] ensures x in r {
      var i :| i in indices && 0 <= i < |items| && x == items[i];
      assert i in valid;
      var k :| 0 <= k < |valid| && valid[k] == i;
      assert r[k] == x;
    }
  }

  /** The selection follows the order of the returned indices, out-of-range ones dropped. */
  lemma SelectIndicesOrder<T>(items: seq<T>, indices: seq<int>)
    ensures var r := SelectIndices(items, indices);
      exists valid: seq<int> :: && Subseq(valid, indices) && |valid| == |r|
                                 && forall k :: 0 <= k < |r| ==> 0 <= valid[k] < |items| && r[k] == items[valid[k]]
  {
    var valid := InRange(indices, |items|);
    FilterSubseq(indices, (i: int) => 0 <= i < |items|);
  }

  /**
   * `filterXNewsWithAI`: `classify` is the model's reply for the headlines, `None` when the
   * response is not ok or its content does not parse as an index list.
   */
  function FilterWithAI(items: seq<XItem>, classify: seq<XItem> -> Option<seq<int>>): (r: seq<XItem>)
    ensures items == [] ==> r == []
    ensures items != [] && classify(items) == None ==> r == items
    ensures items != [] && classify(items).Some? ==> r == SelectIndices(items, classify(items).value)
  {
    if items == [] then []
    else match classify(items)
      case None => items
      case Some(keep) => SelectIndices(items, keep)
  }

  /** Whatever the model answers, the result holds only rows of the input. */
  lemma FilterWithAIMembers(items: seq<XItem>, classify: seq<XItem> -> Option<seq<int>>)
    ensures forall x :: x in FilterWithAI(items, classify) ==> x in items
  {
    if items != [] && classify(items).Some? {
      SelectIndicesMembers(items, classify(items).value);
    }
  }

  /** A story as the route returns it. */
  datatype XStory = XStory(id: string, author: string, title: string, summary: string,
                           url: string, postCount: int, publishedAt: string)

  const DefaultAuthor := "X_Trending"
  const SearchPrefix := "https://x.com/search?q="
  const QueryLength := 50

  /** `encode` stands for `encodeURIComponent`. */
  function Format(item: XItem, encode: string -> string): XStory {
    XStory(item.id,
           if item.author.Some? && item.author.value != [] then item.author.value else DefaultAuthor,
           Headline(item), Headline(item),
           SearchPrefix + encode(Take(Headline(item), QueryLength)),
           item.postCount.GetOr(0),
           item.fetchedAt)
  }

  /** Title and summary are the headline; author and post count fall back to their defaults. */
  lemma FormatFields(item: XItem, encode: string -> string)
    ensures var s := Format(item, encode);
      && s.title == s.summary == Headline(item)
      && (item.headline == None ==> s.title == [])
      && (item.author == None || item.author == Some([]) ==> s.author == DefaultAuthor)
      && (item.author.Some? && item.author.value != [] ==> s.author == item.author.value)
      && (item.postCount == None ==> s.postCount == 0)
      && s.id == item.id && s.publishedAt == item.fetchedAt
      && StartsWith(s.url, SearchPrefix)
  {
  }

  /** The result of the table fetch: not ok, thrown (network or JSON error), or the rows. */
  datatype RowsFetch = NotOk | Threw | Rows(rows: seq<XItem>)

  /** The JSON body: the formatted stories with counts, or an error with no stories. */
  datatype XResponse = Listed(items: seq<XStory>, count: int, filtered: int) | Failed(error: string)

  function FormatAll(items: seq<XItem>, encode: string -> string): (r: seq<XStory>)
    ensures |r| == |items|
  {
    seq(|items|, k requires 0 <= k < |items| => Format(items[k], encode))
  }

  /** What `GET` answers for the configuration, the fetch result and the model. */
  function XNewsResponse(configured: bool, fetched: RowsFetch, apiKey: string,
                         classify: seq<XItem> -> Option<seq<int>>, encode: string -> string): XResponse
  {
    if !configured then Failed("Supabase not configured")
    else match fetched
      case NotOk => Failed("Failed to fetch")
      case Threw => Failed("Internal error")
      case Rows(raw) =>
        var deduped := DedupRows(raw).deduped;
        var filtered := if apiKey != [] then FilterWithAI(deduped, classify) else deduped;
        var formatted := FormatAll(filtered, encode);
        Listed(formatted, |formatted|, |raw| - |filtered|)
  }

  /**
   * A listing counts its stories, reports how many rows were removed,
   * and holds formatted kept rows in their table order when the model is not consulted.
   */
  lemma XNewsResponseCorrect(configured: bool, fetched: RowsFetch, apiKey: string,
                             classify: seq<XItem> -> Option<seq<int>>, encode: string -> string)
    ensures var r := XNewsResponse(configured, fetched, apiKey, classify, encode);
      && (r.Listed? <==> configured && fetched.Rows?)
      && (r.Listed? ==>
            var deduped := DedupRows(fetched.rows).deduped;
            && r.count == |r.items|
            && r.filtered == |fetched.rows| - |r.items|
            && (forall s :: s in r.items ==> exists x :: x in fetched.rows && s == Format(x, encode))
            && (apiKey == [] ==> r.items == FormatAll(deduped, encode) && r.filtered >= 0))
  {
    if configured && fetched.Rows? {
      var raw := fetched.rows;
      var deduped := DedupRows(raw).deduped;
      DedupSubseq(raw);
      SubseqMembers(deduped, raw);
      SubseqLength(deduped, raw);
      FilterWithAIMembers(deduped, classify);
      var filtered := if apiKey != [] then FilterWithAI(deduped, classify) else deduped;
      var r := XNewsResponse(configured, fetched, apiKey, classify, encode);
      forall s | s in r.items ensures exists x :: x in raw && s == Format(x, encode) {
        var k :| 0 <= k < |r.items| && r.items[k] == s;
        assert filtered[k] in filtered;
      }
    }
  }

  /** A single row is kept. */
  lemma DedupSingle(x: XItem)
    ensures DedupRows([x]).deduped == [x]
  {
    DedupKeepsFirst([x]);
    DedupSubseq([x]);
    SubseqLength(DedupRows([x]).deduped, [x]);
  }

  /** Selecting index 0 twice from one row yields that row twice. */
  lemma SelectRepeated(x: XItem)
    ensures SelectIndices([x], [0, 0]) == [x, x]
  {
    var keep: seq<int> := [0, 0];
    assert keep[..1] == [0];
    assert InRange(keep, 1) == [0, 0];
  }

  /** A model that repeats an index makes the reported `filtered` count negative. */
  lemma RepeatedIndexNegativeCount(x: XItem, encode: string -> string)
    ensures var classify := (items: seq<XItem>) => Some([0, 0]);
      XNewsResponse(true, Rows([x]), "key", classify, encode).filtered == -1
  {
    var classify := (items: seq<XItem>) => Some([0, 0]);
    DedupSingle(x);
    SelectRepeated(x);
    assert FilterWithAI([x], classify) == [x, x];
  }

  /** `GET`, with the table fetch and the model's reply passed in. */
  method Get(configured: bool, fetched: RowsFetch, apiKey: string,
             classify: seq<XItem> -> Option<seq<int>>, encode: string -> string)
    returns (response: XResponse)
    ensures response == XNewsResponse(configured, fetched, apiKey, classify, encode)
  {
    if !configured {
      return Failed("Supabase not configured");
    }
    match fetched
    case NotOk => return Failed("Failed to fetch");
    case Threw => return Failed("Internal error");
    case Rows(rawItems) =>
      var deduped := Dedup(rawItems);
      var filtered := if apiKey != [] then FilterWithAI(deduped, classify) else deduped;
      var formatted := FormatAll(filtered, encode);
      response := Listed(formatted, |formatted|, |rawItems| - |filtered|);
  }
}
