/** The two sorts the client uses: `sorted()` on strings (natural order) and the stable
    `sortedByDescending` on a whole-number key. */
module Sorting {
  import opened Text
  import opened Lists

  /** Each string is no greater than the ones after it. */
  predicate Ascending(r: seq<string>) {
    forall i, j | 0 <= i < j < |r| :: !LexLess(r[j], r[i])
  }

  predicate StrictlyAscending(r: seq<string>) {
    forall i, j | 0 <= i < j < |r| :: LexLess(r[i], r[j])
  }

  /** "no greater than" is transitive. */
  lemma NotLessTransitive(a: string, b: string, c: string)
    requires !LexLess(b, a) && !LexLess(c, b)
    ensures !LexLess(c, a)
  {
    if a != b && c != b {
      LexLessTotal(a, b);
      LexLessTotal(b, c);
      LexLessTransitive(a, b, c);
      LexLessAsymmetric(a, c);
    }
  }

  /** `x` placed before the first string that is not less than it. */
  function InsertString(x: string, r: seq<string>): (out: seq<string>)
    ensures multiset(out) == multiset(r) + multiset{x}
  {
    if r == [] then [x]
    else if LexLess(r[0], x) then
      assert r == [r[0]] + r[1..];
      [r[0]] + InsertString(x, r[1..])
    else [x] + r
  }

  lemma {:induction false} InsertStringAscending(x: string, r: seq<string>)
    requires Ascending(r)
    ensures Ascending(InsertString(x, r))
  {
    if r != [] {
      var out := InsertString(x, r);
      if LexLess(r[0], x) {
        var rest := InsertString(x, r[1..]);
        InsertStringAscending(x, r[1..]);
        LexLessAsymmetric(r[0], x);
        forall y | y in rest ensures !LexLess(y, r[0]) {
          assert y in multiset(rest);
          if y != x {
            assert y in r[1..];
            var k :| 0 <= k < |r[1..]| && r[1..][k] == y;
            assert r[k + 1] == y;
          }
        }
        assert forall j | 0 < j < |out| :: out[j] == rest[j - 1];
      } else {
        forall j | 0 < j < |out| ensures !LexLess(out[j], x) {
          assert out[j] == r[j - 1];
          if j > 1 {
            NotLessTransitive(x, r[0], r[j - 1]);
          }
        }
      }
    }
  }

  /** `sorted()`: the same strings in ascending order. */
  function SortStrings(s: seq<string>): (r: seq<string>)
    ensures multiset(r) == multiset(s)
    ensures Ascending(r)
  {
    if s == [] then []
    else
      var t := SortStrings(s[1..]);
      InsertStringAscending(s[0], t);
      assert s == [s[0]] + s[1..];
      InsertString(s[0], t)
  }

  lemma CountAtLeastTwo<T>(a: seq<T>, i: nat, j: nat)
    requires i < j < |a|
    ensures a[i] == a[j] ==> multiset(a)[a[i]] >= 2
  {
    assert a == a[..j] + a[j..];
    assert a[i] == a[..j][i];
    assert a[j] == a[j..][0];
  }

  lemma {:induction false} NoDupsCounts<T>(b: seq<T>)
    requires NoDups(b)
    ensures forall x :: multiset(b)[x] <= 1
  {
    if b != [] {
      var rest := b[1..];
      assert NoDups(rest) by {
        assert forall i | 0 <= i < |rest| :: rest[i] == b[i + 1];
      }
      NoDupsCounts(rest);
      assert b == [b[0]] + rest;
      assert b[0] !in rest by {
        assert forall i | 0 <= i < |rest| :: rest[i] == b[i + 1];
      }
    }
  }

  /** Sorting distinct strings gives a strictly ascending sequence. */
  lemma SortDistinctStrictlyAscending(s: seq<string>)
    requires NoDups(s)
    ensures StrictlyAscending(SortStrings(s))
  {
    var r := SortStrings(s);
    NoDupsCounts(s);
    forall i, j | 0 <= i < j < |r| ensures LexLess(r[i], r[j]) {
      CountAtLeastTwo(r, i, j);
      LexLessTotal(r[i], r[j]);
    }
  }

  /** The test "has key `k`", named so that every use is the same function. */
  function KeyIs<T>(key: T -> nat, k: nat): T -> bool {
    y => key(y) == k
  }

  predicate Descending<T>(r: seq<T>, key: T -> nat) {
    forall i, j | 0 <= i < j < |r| :: key(r[i]) >= key(r[j])
  }

  /** `x` placed before the first element whose key is not greater than its own. */
  function InsertByKey<T>(x: T, r: seq<T>, key: T -> nat): (out: seq<T>)
    ensures |out| == |r| + 1
  {
    if r == [] then [x]
    else if key(r[0]) > key(x) then [r[0]] + InsertByKey(x, r[1..], key)
    else [x] + r
  }

  lemma {:induction false} InsertByKeyMultiset<T>(x: T, r: seq<T>, key: T -> nat)
    ensures multiset(InsertByKey(x, r, key)) == multiset(r) + multiset{x}
  {
    if r != [] && key(r[0]) > key(x) {
      InsertByKeyMultiset(x, r[1..], key);
      assert r == [r[0]] + r[1..];
    }
  }

  /** An element no smaller than the head of a descending sequence can go in front of it. */
  lemma DescendingCons<T>(y: T, rest: seq<T>, key: T -> nat)
    requires Descending(rest, key)
    requires rest == [] || key(y) >= key(rest[0])
    ensures Descending([y] + rest, key)
  {
    var out := [y] + rest;
    forall i, j | 0 <= i < j < |out| ensures key(out[i]) >= key(out[j]) {
      assert out[j] == rest[j - 1];
      if i > 0 {
        assert out[i] == rest[i - 1];
      }
    }
  }

  lemma {:induction false} InsertByKeyDescending<T>(x: T, r: seq<T>, key: T -> nat)
    requires Descending(r, key)
    ensures Descending(InsertByKey(x, r, key), key)
    ensures r != [] && key(r[0]) > key(x) ==> InsertByKey(x, r, key)[0] == r[0]
    ensures r == [] || key(r[0]) <= key(x) ==> InsertByKey(x, r, key)[0] == x
  {
    if r != [] && key(r[0]) > key(x) {
      assert Descending(r[1..], key) by {
        assert forall i | 0 <= i < |r[1..]| :: r[1..][i] == r[i + 1];
      }
      var rest := InsertByKey(x, r[1..], key);
      InsertByKeyDescending(x, r[1..], key);
      // the first of the rest is x or r[1], neither of which has a larger key than r[0]
      assert key(r[0]) >= key(rest[0]) by {
        if |r| > 1 && key(r[1]) > key(x) {
          assert rest[0] == r[1];
        }
      }
      DescendingCons(r[0], rest, key);
    } else {
      DescendingCons(x, r, key);
    }
  }

  /** Insertion keeps, for every key, the order of the elements with that key, and `x` comes
      first among those with its own key. */
  lemma {:induction false} InsertByKeyStable<T>(x: T, r: seq<T>, key: T -> nat, k: nat)
    ensures Filter(InsertByKey(x, r, key), KeyIs(key, k)) ==
            (if key(x) == k then [x] else []) + Filter(r, KeyIs(key, k))
  {
    var p := KeyIs(key, k);
    if r == [] {
      FilterCons(x, [], p);
    } else if key(r[0]) > key(x) {
      var rest := InsertByKey(x, r[1..], key);
      var a := Filter(r[1..], p);
      InsertByKeyStable(x, r[1..], key, k);
      assert Filter(rest, p) == (if p(x) then [x] else []) + a;
      FilterCons(r[0], rest, p);
      FilterCons(r[0], r[1..], p);
      assert InsertByKey(x, r, key) == [r[0]] + rest;
      assert r == [r[0]] + r[1..];
      if p(x) {
        assert !p(r[0]);
        assert Filter(r, p) == a;
      } else if p(r[0]) {
        assert Filter(r, p) == [r[0]] + a;
      } else {
        assert Filter(r, p) == a;
      }
    } else {
      FilterCons(x, r, p);
    }
  }

  /** `sortedByDescending(key)`: a stable sort from the largest key down. */
  function SortByDescending<T>(s: seq<T>, key: T -> nat): (r: seq<T>)
    ensures |r| == |s|
    ensures Descending(r, key)
  {
    if s == [] then []
    else
      var t := SortByDescending(s[1..], key);
      InsertByKeyDescending(s[0], t, key);
      InsertByKey(s[0], t, key)
  }

  /** The sort is stable: the elements with any one key keep their relative order. */
  lemma {:induction false} SortByDescendingStable<T>(s: seq<T>, key: T -> nat, k: nat)
    ensures Filter(SortByDescending(s, key), KeyIs(key, k)) == Filter(s, KeyIs(key, k))
  {
    if s != [] {
      SortByDescendingStable(s[1..], key, k);
      InsertByKeyStable(s[0], SortByDescending(s[1..], key), key, k);
      FilterCons(s[0], s[1..], KeyIs(key, k));
      assert s == [s[0]] + s[1..];
    }
  }

  /** The sort is a permutation. */
  lemma {:induction false} SortByDescendingPermutes<T>(s: seq<T>, key: T -> nat)
    ensures multiset(SortByDescending(s, key)) == multiset(s)
  {
    if s != [] {
      SortByDescendingPermutes(s[1..], key);
      InsertByKeyMultiset(s[0], SortByDescending(s[1..], key), key);
      assert s == [s[0]] + s[1..];
    }
  }

  /** The sort keeps exactly the elements it was given. */
  lemma SortByDescendingSameElements<T>(s: seq<T>, key: T -> nat, x: T)
    ensures x in SortByDescending(s, key) <==> x in s
  {
    SortByDescendingStable(s, key, key(x));
  }
}
