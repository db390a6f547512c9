/**
 * `cleanText` of news-fetcher.ts: drop tags, decode a fixed list of entities in a fixed
 * order (each a global replace over the previous result), delete leftover numeric
 * references, trim.
 */
module CleanText {
  import opened Text

  /** The first index of `c` in `s`, if any. */
  function IndexOf(s: string, c: char): (r: int)
    ensures -1 <= r < |s|
    ensures r >= 0 ==> s[r] == c && c !in s[..r]
    ensures r < 0 <==> c !in s
  {
    if s == [] then -1
    else if s[0] == c then 0
    else
      var k := IndexOf(s[1..], c);
      assert s == [s[0]] + s[1..];
      if k < 0 then -1 else k + 1
  }

  /**
   * `replace(/<[^>]*>/g, '')`: at each `<` that has a `>` somewhere after it, drop up to
   * and including the first such `>`; a `<` with no later `>` stays.
   */
  function StripTags(s: string): (r: string)
    ensures |r| <= |s|
    decreases |s|
  {
    if s == [] then []
    else if s[0] == '<' && '>' in s[1..] then StripTags(s[1..][IndexOf(s[1..], '>') + 1..])
    else [s[0]] + StripTags(s[1..])
  }

  /** The length of the run of decimal digits at the start of `s`. */
  function DigitRun(s: string): (n: nat)
    ensures n <= |s|
    ensures forall i :: 0 <= i < n ==> IsDigit(s[i])
    ensures n < |s| ==> !IsDigit(s[n])
  {
    if s != [] && IsDigit(s[0]) then 1 + DigitRun(s[1..]) else 0
  }

  /** `replace(/&#\d+;/g, '')`: `&#`, one or more digits (all of them), then `;`. */
  function StripNumericRefs(s: string): (r: string)
    ensures |r| <= |s|
    decreases |s|
  {
    if |s| >= 2 && s[0] == '&' && s[1] == '#' && DigitRun(s[2..]) > 0
       && 2 + DigitRun(s[2..]) < |s| && s[2 + DigitRun(s[2..])] == ';'
    then StripNumericRefs(s[3 + DigitRun(s[2..])..])
    else if s == [] then []
    else [s[0]] + StripNumericRefs(s[1..])
  }

  /** The entity replacements, in the order the chain applies them. */
  const Entities: seq<(string, string)> := [
    ("&amp;", "&"), ("&lt;", "<"), ("&gt;", ">"), ("&quot;", "\""), ("&#39;", "'"),
    ("&#8216;", "'"), ("&#8217;", "'"), ("&#8220;", "\""), ("&#8221;", "\""),
    ("&#8211;", "\U{2013}"), ("&#8212;", "\U{2014}"), ("&nbsp;", " ")
  ]

  /** Apply the replacements one after the other, each over the whole string. */
  function DecodeEntities(s: string, table: seq<(string, string)>): string
    requires forall i :: 0 <= i < |table| ==> table[i].0 != []
    decreases |table|
  {
    if table == [] then s
    else DecodeEntities(ReplaceAll(s, table[0].0, table[0].1), table[1..])
  }

  function Clean(text: string): (r: string)
    ensures r == [] || (!IsSpace(r[0]) && !IsSpace(r[|r| - 1]))
  {
    if text == [] then []
    else Trim(StripNumericRefs(DecodeEntities(StripTags(text), Entities)))
  }

  // ---------------------------------------------------------------- properties

  /** After tag stripping no `<` has a `>` after it. */
  lemma {:induction false} StripTagsNoTag(s: string)
    ensures var r := StripTags(s); forall i, j :: 0 <= i < j < |r| && r[i] == '<' ==> r[j] != '>'
    decreases |s|
  {
    if s == [] {
    } else if s[0] == '<' && '>' in s[1..] {
      var rest := s[1..][IndexOf(s[1..], '>') + 1..];
      StripTagsNoTag(rest);
      assert StripTags(s) == StripTags(rest);
    } else {
      StripTagsNoTag(s[1..]);
      var r := StripTags(s);
      var t := StripTags(s[1..]);
      assert r == [s[0]] + t;
      if s[0] == '<' {
        StripTagsKeeps(s[1..]);
      }
      forall i, j | 0 <= i < j < |r| && r[i] == '<' ensures r[j] != '>' {
        assert r[j] == t[j - 1];
        if i > 0 {
          assert r[i] == t[i - 1];
        }
      }
    }
  }

  /** Without a `>` in the input there is none in the output. */
  lemma {:induction false} StripTagsKeeps(s: string)
    requires '>' !in s
    ensures '>' !in StripTags(s)
    decreases |s|
  {
    if s != [] {
      assert s == [s[0]] + s[1..];
      StripTagsKeeps(s[1..]);
    }
  }

  /** Text without `<` passes tag stripping unchanged. */
  lemma {:induction false} StripTagsIdentity(s: string)
    requires '<' !in s
    ensures StripTags(s) == s
    decreases |s|
  {
    if s != [] {
      assert s == [s[0]] + s[1..];
      StripTagsIdentity(s[1..]);
    }
  }

  lemma {:induction false} StripNumericRefsIdentity(s: string)
    requires '&' !in s
    ensures StripNumericRefs(s) == s
    decreases |s|
  {
    if s != [] {
      assert s == [s[0]] + s[1..];
      StripNumericRefsIdentity(s[1..]);
    }
  }

  lemma {:induction false} DecodeEntitiesIdentity(s: string, table: seq<(string, string)>)
    requires forall i :: 0 <= i < |table| ==> table[i].0 != [] && table[i].0[0] == '&'
    requires '&' !in s
    ensures DecodeEntities(s, table) == s
  {
    if table != [] {
      ReplaceAllAbsent(s, table[0].0, table[0].1);
      DecodeEntitiesIdentity(s, table[1..]);
    }
  }

  /** Plain, already trimmed text (no `<`, no `&`) comes back unchanged. */
  lemma CleanIdentity(text: string)
    requires '<' !in text && '&' !in text && Trim(text) == text
    ensures Clean(text) == text
  {
    if text != [] {
      StripTagsIdentity(text);
      DecodeEntitiesIdentity(text, Entities);
      StripNumericRefsIdentity(text);
    }
  }

  /** Empty input gives the empty string. */
  lemma CleanEmpty()
    ensures Clean("") == ""
  {
  }

  ghost predicate EntityTable(table: seq<(string, string)>) {
    forall i :: 0 <= i < |table| ==> table[i].0 != [] && table[i].0[0] == '&'
  }

  /** Every pattern of the chain starts with `&`, and the first two decode `&amp;` then `&lt;`. */
  lemma EntitiesShape()
    ensures EntityTable(Entities)
    ensures |Entities| >= 2 && Entities[0] == ("&amp;", "&") && Entities[1] == ("&lt;", "<")
  {
  }

  /** The `&amp;` pass turns `&amp;lt;` into `&lt;`. */
  lemma AmpPass()
    ensures ReplaceAll("&amp;lt;", "&amp;", "&") == "&lt;"
  {
    var s := "&amp;lt;";
    assert s[..5] == "&amp;" && s[5..] == "lt;";
    ReplaceAllAbsent("lt;", "&amp;", "&");
  }

  /** The `&lt;` pass turns `&lt;` into `<`. */
  lemma LtPass()
    ensures ReplaceAll("&lt;", "&lt;", "<") == "<"
  {
    var s := "&lt;";
    assert s[..4] == "&lt;" && s[4..] == [];
  }

  lemma AmpThenLt(table: seq<(string, string)>)
    requires EntityTable(table) && |table| >= 2
    requires table[0] == ("&amp;", "&") && table[1] == ("&lt;", "<")
    ensures DecodeEntities("&amp;lt;", table) == "<"
  {
    AmpPass();
    LtPass();
    var t1 := table[1..];
    assert t1[0] == ("&lt;", "<");
    assert DecodeEntities("&amp;lt;", table) == DecodeEntities("&lt;", t1);
    assert DecodeEntities("&lt;", t1) == DecodeEntities("<", t1[1..]);
    DecodeEntitiesIdentity("<", t1[1..]);
  }

  /** Tag stripping leaves `&amp;lt;` alone, and the entity chain turns it into `<`. */
  lemma DecodedDoubleEscapedLt()
    ensures EntityTable(Entities) && DecodeEntities(StripTags("&amp;lt;"), Entities) == "<"
  {
    StripTagsIdentity("&amp;lt;");
    EntitiesShape();
    AmpThenLt(Entities);
  }

  /** Numeric-reference stripping and trimming leave `<` alone. */
  lemma FinishedLt()
    ensures Trim(StripNumericRefs("<")) == "<"
  {
    StripNumericRefsIdentity("<");
    TrimUnchanged("<");
  }

  /** `&amp;` is decoded first, so a double-escaped `&amp;lt;` comes out as `<`. */
  lemma DoubleEscapedLessThan()
    ensures Clean("&amp;lt;") == "<"
  {
    DecodedDoubleEscapedLt();
    FinishedLt();
  }
}
