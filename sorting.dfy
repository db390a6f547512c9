/**
 * `Array.prototype.sort` with the descending comparators the source passes it
 * (`(a, b) => b.x - a.x`, and the tier-first comparator of the curator).
 * The ECMAScript sort is stable; so is this insertion sort.
 */
module Sorting {

  /** A sort key, compared lexicographically: `major` first, then `minor`. */
  datatype Key = Key(major: int, minor: int)

  /** `a` sorts strictly before `b`: the comparator returns a negative number. */
  predicate Before(a: Key, b: Key) {
    a.major > b.major || (a.major == b.major && a.minor > b.minor)
  }

  /** Non-increasing by key. */
  ghost predicate SortedDesc<T>(s: seq<T>, key: T -> Key) {
    forall i, j :: 0 <= i < j < |s| ==> !Before(key(s[j]), key(s[i]))
  }

  /** Put `x` after every element it does not sort strictly before. */
  function Insert<T>(s: seq<T>, x: T, key: T -> Key): (r: seq<T>)
    ensures |r| == |s| + 1
    ensures multiset(r) == multiset(s) + multiset{x}
  {
    if s == [] then [x]
    else if Before(key(x), key(s[0])) then [x] + s
    else
      assert s == [s[0]] + s[1..];
      [s[0]] + Insert(s[1..], x, key)
  }

  function SortDesc<T>(s: seq<T>, key: T -> Key): (r: seq<T>)
  {
    if s == [] then [] else Insert(SortDesc(s[..|s| - 1], key), s[|s| - 1], key)
  }

  /** Nothing in `s` sorts strictly before `b`. */
  ghost predicate NoneBefore<T>(s: seq<T>, b: Key, key: T -> Key) {
    forall k :: 0 <= k < |s| ==> !Before(key(s[k]), b)
  }

  lemma {:induction false} InsertNoneBefore<T>(s: seq<T>, x: T, b: Key, key: T -> Key)
    requires NoneBefore(s, b, key) && !Before(key(x), b)
    ensures NoneBefore(Insert(s, x, key), b, key)
  {
    if s != [] && !Before(key(x), key(s[0])) {
      InsertNoneBefore(s[1..], x, b, key);
      var r := Insert(s, x, key);
      forall k | 0 <= k < |r| ensures !Before(key(r[k]), b) {
        if k > 0 {
          assert r[k] == Insert(s[1..], x, key)[k - 1];
        }
      }
    }
  }

  /** A sorted list stays sorted under a head that nothing in it sorts before. */
  lemma ConsSorted<T>(h: T, t: seq<T>, key: T -> Key)
    requires SortedDesc(t, key) && NoneBefore(t, key(h), key)
    ensures SortedDesc([h] + t, key)
  {
    var r := [h] + t;
    forall i, j | 0 <= i < j < |r| ensures !Before(key(r[j]), key(r[i])) {
      assert r[j] == t[j - 1];
      if i > 0 {
        assert r[i] == t[i - 1];
      }
    }
  }

  /** A prefix of a sorted list is sorted. */
  lemma PrefixSorted<T>(s: seq<T>, n: nat, key: T -> Key)
    requires SortedDesc(s, key) && n <= |s|
    ensures SortedDesc(s[..n], key)
  {
    forall i, j | 0 <= i < j < n ensures !Before(key(s[..n][j]), key(s[..n][i])) {
      assert s[..n][j] == s[j] && s[..n][i] == s[i];
    }
  }

  /** A sorted list stays sorted under a last element that sorts before none of it. */
  lemma AppendSorted<T>(s: seq<T>, x: T, key: T -> Key)
    requires SortedDesc(s, key) && forall i :: 0 <= i < |s| ==> !Before(key(x), key(s[i]))
    ensures SortedDesc(s + [x], key)
  {
    var r := s + [x];
    forall i, j | 0 <= i < j < |r| ensures !Before(key(r[j]), key(r[i])) {
      assert r[i] == s[i];
      if j < |s| {
        assert r[j] == s[j];
      }
    }
  }

  lemma {:induction false} InsertSorted<T>(s: seq<T>, x: T, key: T -> Key)
    requires SortedDesc(s, key)
    ensures SortedDesc(Insert(s, x, key), key)
  {
    if s == [] {
      assert Insert(s, x, key) == [x];
    } else if !Before(key(x), key(s[0])) {
      var t := Insert(s[1..], x, key);
      assert SortedDesc(s[1..], key) && NoneBefore(s[1..], key(s[0]), key) by {
        forall i, j | 0 <= i < j < |s| - 1 ensures !Before(key(s[1..][j]), key(s[1..][i])) {
          assert s[1..][j] == s[j + 1] && s[1..][i] == s[i + 1];
        }
        forall k | 0 <= k < |s| - 1 ensures !Before(key(s[1..][k]), key(s[0])) {
          assert s[1..][k] == s[k + 1];
        }
      }
      InsertSorted(s[1..], x, key);
      InsertNoneBefore(s[1..], x, key(s[0]), key);
      ConsSorted(s[0], t, key);
      assert [s[0]] + t == Insert(s, x, key);
    } else {
      forall k | 0 <= k < |s| ensures !Before(key(s[k]), key(x)) {
        if k > 0 {
          assert !Before(key(s[k]), key(s[0]));
        }
      }
      ConsSorted(x, s, key);
      assert [x] + s == Insert(s, x, key);
    }
  }

  /** The output is ordered by key (non-increasing) and is a permutation of the input. */
  lemma {:induction false} SortDescCorrect<T>(s: seq<T>, key: T -> Key)
    ensures SortedDesc(SortDesc(s, key), key)
    ensures multiset(SortDesc(s, key)) == multiset(s)
  {
    if s != [] {
      var init := s[..|s| - 1];
      SortDescCorrect(init, key);
      InsertSorted(SortDesc(init, key), s[|s| - 1], key);
      assert s == init + [s[|s| - 1]];
    }
  }

  lemma {:induction false} InsertAtEnd<T>(s: seq<T>, x: T, key: T -> Key)
    requires forall i :: 0 <= i < |s| ==> !Before(key(x), key(s[i]))
    ensures Insert(s, x, key) == s + [x]
  {
    if s != [] {
      InsertAtEnd(s[1..], x, key);
    }
  }

  /** Sorting input that is already in order changes nothing; sorting is idempotent. */
  lemma {:induction false} SortDescOfSorted<T>(s: seq<T>, key: T -> Key)
    requires SortedDesc(s, key)
    ensures SortDesc(s, key) == s
  {
    if s != [] {
      var init := s[..|s| - 1];
      assert SortedDesc(init, key);
      SortDescOfSorted(init, key);
      InsertAtEnd(init, s[|s| - 1], key);
      assert init + [s[|s| - 1]] == s;
    }
  }
}
