/**
 * Headline comparison in the curator (`normalizeText` and `calculateSimilarity` of
 * smart-curator.ts): a word-set Jaccard similarity, kept as an exact ratio.
 */
module Similarity {
  import opened Text

  /** `[a-z0-9\s]`: what survives the curator's normalisation. */
  predicate KeptByNormalize(c: char) {
    IsLowerAlnum(c) || IsSpace(c)
  }

  /** Lower-case, drop everything but `[a-z0-9\s]`, collapse whitespace runs to one space, trim. */
  function NormalizeText(t: string): string {
    Trim(CollapseSpaces(Keep(Lower(t), KeptByNormalize)))
  }

  /** The distinct words of the normalised headline that are longer than three characters. */
  function Words(t: string): (r: set<string>)
    ensures forall w :: w in r ==> |w| > 3 && w in Split(NormalizeText(t), ' ')
  {
    set w | w in Split(NormalizeText(t), ' ') && |w| > 3
  }

  /** A similarity value `num / den`, with `den > 0`. */
  datatype Ratio = Ratio(num: nat, den: nat)

  predicate ValidRatio(r: Ratio) {
    r.den > 0 && r.num <= r.den
  }

  /** Strictly more than one half: the source's `similarity > 0.5`. */
  predicate AboveHalf(r: Ratio) {
    2 * r.num > r.den
  }

  /** `a > b` on the values the ratios denote. */
  predicate Greater(a: Ratio, b: Ratio) {
    a.num * b.den > b.num * a.den
  }

  /** `a > b` and `b >= c` give `a > c`. */
  lemma GreaterTrans(a: Ratio, b: Ratio, c: Ratio)
    requires ValidRatio(a) && ValidRatio(b) && ValidRatio(c)
    requires Greater(a, b) && !Greater(c, b)
    ensures Greater(a, c)
  {
    MulStrict(a.num * b.den, b.num * a.den, c.den);
    MulWeak(c.num * b.den, b.num * c.den, a.den);
    MulSwap(a.num, b.den, c.den);
    MulSwap(b.num, a.den, c.den);
    MulSwap(c.num, b.den, a.den);
    MulSwap(b.num, c.den, a.den);
    MulCancel(a.num * c.den, c.num * a.den, b.den);
  }

  lemma MulSwap(x: int, y: int, z: int)
    ensures (x * y) * z == (x * z) * y
  {
  }

  lemma MulStrict(x: int, y: int, k: int)
    requires x > y && k > 0
    ensures x * k > y * k
  {
    assert x * k - y * k == (x - y) * k;
  }

  lemma MulWeak(x: int, y: int, k: int)
    requires x <= y && k >= 0
    ensures x * k <= y * k
  {
    assert y * k - x * k == (y - x) * k;
  }

  lemma MulCancel(x: int, y: int, k: int)
    requires x * k > y * k && k > 0
    ensures x > y
  {
    if x <= y {
      MulWeak(x, y, k);
    }
  }

  lemma GreaterAsym(a: Ratio, b: Ratio)
    requires Greater(a, b)
    ensures !Greater(b, a)
  {
  }

  /** A value above one half is greater than one that is not. */
  lemma AboveHalfGreater(a: Ratio, b: Ratio)
    requires ValidRatio(a) && ValidRatio(b)
    requires AboveHalf(a) && !AboveHalf(b)
    ensures Greater(a, b)
  {
    MulStrict(2 * a.num, a.den, b.den);
    MulWeak(2 * b.num, b.den, a.den);
    var x, y := a.num * b.den, b.num * a.den;
    assert (2 * a.num) * b.den == 2 * x;
    assert (2 * b.num) * a.den == 2 * y;
    assert a.den * b.den == b.den * a.den;
  }

  lemma SubsetCard<T>(a: set<T>, b: set<T>)
    requires a <= b
    ensures |a| <= |b|
  {
    assert b == a + (b - a);
  }

  /**
   * Jaccard similarity of the two headlines' word sets: 0 when either set is empty,
   * otherwise |intersection| / |union|, a value in [0, 1].
   */
  function CalculateSimilarity(text1: string, text2: string): (r: Ratio)
    ensures ValidRatio(r)
    ensures (Words(text1) == {} || Words(text2) == {}) ==> r.num == 0
    ensures Words(text1) != {} && Words(text2) != {} ==>
      r == Ratio(|Words(text1) * Words(text2)|, |Words(text1) + Words(text2)|)
  {
    var words1 := Words(text1);
    var words2 := Words(text2);
    if words1 == {} || words2 == {} then Ratio(0, 1)
    else
      SubsetCard(words1 * words2, words1 + words2);
      SubsetCard(words1, words1 + words2);
      Ratio(|words1 * words2|, |words1 + words2|)
  }

  /** The similarity does not depend on the order of its arguments. */
  lemma SimilaritySymmetric(text1: string, text2: string)
    ensures CalculateSimilarity(text1, text2) == CalculateSimilarity(text2, text1)
  {
    assert Words(text1) * Words(text2) == Words(text2) * Words(text1);
    assert Words(text1) + Words(text2) == Words(text2) + Words(text1);
  }

  /** Two headlines with the same long words are fully similar (1), above the merge threshold. */
  lemma SameWordsFullySimilar(text1: string, text2: string)
    requires Words(text1) == Words(text2) != {}
    ensures CalculateSimilarity(text1, text2).num == CalculateSimilarity(text1, text2).den
    ensures AboveHalf(CalculateSimilarity(text1, text2))
  {
    var w := Words(text1);
    assert w * w == w && w + w == w;
  }

  /** Headlines with no long word in common have similarity 0 and are never merged. */
  lemma DisjointWordsNotSimilar(text1: string, text2: string)
    requires Words(text1) !! Words(text2)
    ensures CalculateSimilarity(text1, text2).num == 0
    ensures !AboveHalf(CalculateSimilarity(text1, text2))
  {
    assert Words(text1) * Words(text2) == {};
  }
}
