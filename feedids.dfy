/**
 * `generateId` of news-fetcher.ts: a 31-multiplier polynomial hash over the UTF-16 code
 * units of `title + "-" + url`, kept in a signed 32-bit integer, printed in base 36 after
 * taking its absolute value.
 */
module FeedIds {

  const TwoTo31: int := 0x8000_0000
  const TwoTo32: int := 0x1_0000_0000

  predicate IsInt32(x: int) {
    -TwoTo31 <= x < TwoTo31
  }

  /** ECMAScript `ToInt32`: the signed 32-bit value congruent to `x` modulo 2^32. */
  function ToInt32(x: int): (r: int)
    ensures IsInt32(r)
    ensures IsInt32(x) ==> r == x
  {
    (x + TwoTo31) % TwoTo32 - TwoTo31
  }

  /** Adding a multiple of 2^32 does not change `ToInt32`. */
  lemma ToInt32Periodic(x: int, k: int)
    ensures ToInt32(x + k * TwoTo32) == ToInt32(x)
  {
    var a := x + TwoTo31;
    assert (a + k * TwoTo32) % TwoTo32 == a % TwoTo32 by {
      var q := a / TwoTo32;
      var r := a % TwoTo32;
      assert a == q * TwoTo32 + r;
      assert a + k * TwoTo32 == (q + k) * TwoTo32 + r;
    }
  }

  /** The UTF-16 code units of one character: one unit below U+10000, else a surrogate pair. */
  function CodeUnits(c: char): (r: seq<int>)
    ensures 1 <= |r| <= 2
    ensures forall i :: 0 <= i < |r| ==> 0 <= r[i] < 0x1_0000
    ensures |r| == 1 <==> (c as int) < 0x1_0000
  {
    var v := c as int;
    if v < 0x1_0000 then [v]
    else [0xD800 + (v - 0x1_0000) / 0x400, 0xDC00 + (v - 0x1_0000) % 0x400]
  }

  /** The code units `charCodeAt` walks over. */
  function Utf16(s: string): (r: seq<int>)
    ensures |r| >= |s|
    ensures forall i :: 0 <= i < |r| ==> 0 <= r[i] < 0x1_0000
  {
    if s == [] then [] else Utf16(s[..|s| - 1]) + CodeUnits(s[|s| - 1])
  }

  /** One step, `hash = ((hash << 5) - hash) + char; hash = hash & hash`, on an int32 `hash`. */
  function Step(h: int, unit: int): int {
    ToInt32(ToInt32(h * 32) - h + unit)
  }

  /** The shift-and-subtract step is the 31-multiplier polynomial step, reduced to 32 bits. */
  lemma StepIsPolynomial(h: int, unit: int)
    ensures Step(h, unit) == ToInt32(31 * h + unit)
  {
    var k := (ToInt32(h * 32) - h * 32) / TwoTo32;
    assert ToInt32(h * 32) == h * 32 + k * TwoTo32 by {
      var a := h * 32 + TwoTo31;
      assert ToInt32(h * 32) == a % TwoTo32 - TwoTo31;
      assert a % TwoTo32 == a - (a / TwoTo32) * TwoTo32;
    }
    ToInt32Periodic(31 * h + unit, k);
    assert ToInt32(h * 32) - h + unit == 31 * h + unit + k * TwoTo32;
  }

  /** The hash after the given code units, from 0. */
  function Hash(units: seq<int>): (h: int)
    ensures IsInt32(h)
  {
    if units == [] then 0 else Step(Hash(units[..|units| - 1]), units[|units| - 1])
  }

  /** The unreduced polynomial: the code units as digits in base 31. */
  function Poly(units: seq<int>): int {
    if units == [] then 0 else Poly(units[..|units| - 1]) * 31 + units[|units| - 1]
  }

  /** Reducing the running value before the next step does not change the reduced result. */
  lemma ToInt32MulAdd(p: int, x: int)
    ensures ToInt32(31 * ToInt32(p) + x) == ToInt32(31 * p + x)
  {
    var q := (p + TwoTo31) / TwoTo32;
    assert ToInt32(p) == p - q * TwoTo32 by {
      var a := p + TwoTo31;
      assert a % TwoTo32 == a - (a / TwoTo32) * TwoTo32;
    }
    assert 31 * ToInt32(p) + x == 31 * p + x + (-31 * q) * TwoTo32;
    ToInt32Periodic(31 * p + x, -31 * q);
  }

  /** The hash is the polynomial value of the code units, reduced to a signed 32-bit integer. */
  lemma {:induction false} HashIsPolynomial(units: seq<int>)
    ensures Hash(units) == ToInt32(Poly(units))
  {
    if units != [] {
      var init := units[..|units| - 1];
      var x := units[|units| - 1];
      HashIsPolynomial(init);
      StepIsPolynomial(Hash(init), x);
      ToInt32MulAdd(Poly(init), x);
      assert Poly(units) == 31 * Poly(init) + x;
    }
  }

  function Abs(x: int): nat {
    if x < 0 then -x else x
  }

  function Digit(d: nat): char
    requires d < 36
  {
    if d < 10 then ('0' as int + d) as char else ('a' as int + d - 10) as char
  }

  function DigitValue(c: char): nat {
    if '0' <= c <= '9' then c as int - '0' as int
    else if 'a' <= c <= 'z' then c as int - 'a' as int + 10
    else 0
  }

  predicate IsBase36Digit(c: char) {
    ('0' <= c <= '9') || ('a' <= c <= 'z')
  }

  /** `n.toString(36)`: base-36 digits, most significant first, no leading zero. */
  function ToBase36(n: nat): (r: string)
    ensures |r| >= 1
    ensures forall i :: 0 <= i < |r| ==> IsBase36Digit(r[i])
    ensures n > 0 ==> r[0] != '0'
  {
    if n < 36 then [Digit(n)] else ToBase36(n / 36) + [Digit(n % 36)]
  }

  /** Reading base-36 digits back. */
  function FromBase36(s: string): nat {
    if s == [] then 0 else FromBase36(s[..|s| - 1]) * 36 + DigitValue(s[|s| - 1])
  }

  /** Printing in base 36 loses nothing: distinct hashes give distinct ids. */
  lemma {:induction false} Base36RoundTrip(n: nat)
    ensures FromBase36(ToBase36(n)) == n
  {
    if n >= 36 {
      Base36RoundTrip(n / 36);
      var s := ToBase36(n);
      assert s[..|s| - 1] == ToBase36(n / 36);
    }
  }

  /** The id of an item: base 36 of the absolute hash of `title + "-" + url`. */
  function GenerateId(title: string, url: string): string {
    ToBase36(Abs(Hash(Utf16(title + "-" + url))))
  }

  /**
   * The id depends on the title and url only through `title + "-" + url`; so, for example,
   * a title "a-b" with url "c" collides with title "a" and url "b-c".
   */
  lemma IdOfConcatenation(t1: string, u1: string, t2: string, u2: string)
    requires t1 + "-" + u1 == t2 + "-" + u2
    ensures GenerateId(t1, u1) == GenerateId(t2, u2)
  {
  }

  lemma CollisionExample()
    ensures GenerateId("a-b", "c") == GenerateId("a", "b-c")
  {
    IdOfConcatenation("a-b", "c", "a", "b-c");
  }

  /** Two ids are equal exactly when the absolute hashes are. */
  lemma IdsEqualIffHashesEqual(t1: string, u1: string, t2: string, u2: string)
    ensures GenerateId(t1, u1) == GenerateId(t2, u2) <==>
      Abs(Hash(Utf16(t1 + "-" + u1))) == Abs(Hash(Utf16(t2 + "-" + u2)))
  {
    Base36RoundTrip(Abs(Hash(Utf16(t1 + "-" + u1))));
    Base36RoundTrip(Abs(Hash(Utf16(t2 + "-" + u2))));
  }

  /** The source's loop over `str.charCodeAt(i)`. */
  method ComputeId(title: string, url: string) returns (id: string)
    ensures id == GenerateId(title, url)
  {
    var units := Utf16(title + "-" + url);
    var hash := 0;
    for i := 0 to |units|
      invariant hash == Hash(units[..i])
    {
      assert units[..i + 1][..i] == units[..i];
      hash := ToInt32(ToInt32(hash * 32) - hash + units[i]);
    }
    assert units[..|units|] == units;
    id := ToBase36(Abs(hash));
  }
}
