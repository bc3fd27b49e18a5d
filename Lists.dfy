/** The Kotlin collection operations the client's pipelines are built from:
    `take`, `filter`, `distinct`, `flatMap`, and the subsequence relation they keep. */
module Lists {

  /** Kotlin's `take(n)`. */
  function Take<T>(s: seq<T>, n: nat): (r: seq<T>)
    ensures |r| == if n < |s| then n else |s|
    ensures r == s[..|r|]
  {
    if n < |s| then s[..n] else s
  }

  /** Kotlin's `filter(p)`: the elements satisfying `p`, in their order. */
  function Filter<T>(s: seq<T>, p: T -> bool): (r: seq<T>)
    ensures |r| <= |s|
    ensures forall x | x in r :: x in s && p(x)
    ensures forall x | x in s && p(x) :: x in r
  {
    if s == [] then [] else
      var init := Filter(s[..|s| - 1], p);
      assert s == s[..|s| - 1] + [s[|s| - 1]];
      if p(s[|s| - 1]) then init + [s[|s| - 1]] else init
  }

  /** Filtering distributes over concatenation. */
  lemma {:induction false} FilterConcat<T>(a: seq<T>, b: seq<T>, p: T -> bool)
    ensures Filter(a + b, p) == Filter(a, p) + Filter(b, p)
  {
    if b != [] {
      var init := b[..|b| - 1];
      FilterConcat(a, init, p);
      assert a + b == (a + init) + [b[|b| - 1]];
      assert (a + b)[..|a + b| - 1] == a + init;
    } else {
      assert a + b == a;
    }
  }

  /** Filtering looks at the first element, then at the rest. */
  lemma FilterCons<T>(x: T, s: seq<T>, p: T -> bool)
    ensures Filter([x] + s, p) == (if p(x) then [x] else []) + Filter(s, p)
  {
    FilterConcat([x], s, p);
    assert [x][..0] == [];
  }

  /** `r` holds `f` of each element of `s` that passes `p`, in the order of `s`: Kotlin's
      `mapNotNull` when `p` says which elements map to a non-null value. */
  ghost predicate MapsFiltered<T, U>(r: seq<U>, s: seq<T>, p: T -> bool, f: T -> U) {
    var kept := Filter(s, p);
    |r| == |kept| && forall i | 0 <= i < |r| :: r[i] == f(kept[i])
  }

  /** `mapNotNull` looks at the first element, then maps the rest. */
  lemma MapsFilteredCons<T, U>(x: T, s: seq<T>, rest: seq<U>, p: T -> bool, f: T -> U)
    requires MapsFiltered(rest, s, p, f)
    ensures MapsFiltered((if p(x) then [f(x)] else []) + rest, [x] + s, p, f)
  {
    FilterCons(x, s, p);
    if p(x) {
      var r, kept := [f(x)] + rest, [x] + Filter(s, p);
      assert forall i | 1 <= i < |r| :: r[i] == rest[i - 1] && kept[i] == Filter(s, p)[i - 1];
    } else {
      assert [] + rest == rest;
    }
  }

  /** The same step, for a non-empty sequence split into its head and tail. */
  lemma MapsFilteredHead<T, U>(s: seq<T>, rest: seq<U>, p: T -> bool, f: T -> U)
    requires s != [] && MapsFiltered(rest, s[1..], p, f)
    ensures MapsFiltered((if p(s[0]) then [f(s[0])] else []) + rest, s, p, f)
  {
    MapsFilteredCons(s[0], s[1..], rest, p, f);
    assert [s[0]] + s[1..] == s;
  }

  /** A filter every element passes keeps the whole sequence. */
  lemma {:induction false} FilterAll<T>(s: seq<T>, p: T -> bool)
    requires forall x | x in s :: p(x)
    ensures Filter(s, p) == s
  {
    if s != [] {
      FilterAll(s[..|s| - 1], p);
      assert s == s[..|s| - 1] + [s[|s| - 1]];
    }
  }

  /** A filter no element passes keeps nothing. */
  lemma {:induction false} FilterNone<T>(s: seq<T>, p: T -> bool)
    requires forall x | x in s :: !p(x)
    ensures Filter(s, p) == []
  {
    if s != [] {
      FilterNone(s[..|s| - 1], p);
    }
  }

  /** `r` is obtained from `s` by deleting elements, keeping the order of the rest. */
  predicate IsSubsequence<T(==)>(r: seq<T>, s: seq<T>)
    decreases |s|
  {
    if r == [] then true
    else if s == [] then false
    else if r[|r| - 1] == s[|s| - 1] then IsSubsequence(r[..|r| - 1], s[..|s| - 1])
    else IsSubsequence(r, s[..|s| - 1])
  }

  lemma {:induction false} FilterIsSubsequence<T>(s: seq<T>, p: T -> bool)
    ensures IsSubsequence(Filter(s, p), s)
  {
    if s != [] {
      var init := s[..|s| - 1];
      FilterIsSubsequence(init, p);
      if p(s[|s| - 1]) {
        assert (Filter(init, p) + [s[|s| - 1]])[..|Filter(init, p)|] == Filter(init, p);
      } else if Filter(s, p) != [] {
        SubsequenceLastOf(Filter(init, p), init);
        assert Filter(s, p) == Filter(init, p);
      }
    }
  }

  /** A non-empty subsequence of `s` can be extended by ignoring a further element. */
  lemma {:induction false} SubsequenceLastOf<T>(r: seq<T>, s: seq<T>)
    requires IsSubsequence(r, s)
    ensures forall x: T :: IsSubsequence(r, s + [x])
  {
    forall x: T ensures IsSubsequence(r, s + [x]) {
      SubsequenceExtend(r, s, x);
    }
  }

  lemma {:induction false} SubsequenceExtend<T>(r: seq<T>, s: seq<T>, x: T)
    requires IsSubsequence(r, s)
    ensures IsSubsequence(r, s + [x])
    decreases |s|, 1
  {
    if r != [] {
      assert (s + [x])[..|s|] == s;
      if r[|r| - 1] == x {
        // the greedy match takes x; the rest of r is still inside s
        SubsequenceDropLast(r, s);
      }
    }
  }

  /** A subsequence without its last element is still a subsequence. */
  lemma {:induction false} SubsequenceDropLast<T>(r: seq<T>, s: seq<T>)
    requires r != [] && IsSubsequence(r, s)
    ensures IsSubsequence(r[..|r| - 1], s)
    decreases |s|, 0
  {
    assert s != [];
    var s' := s[..|s| - 1];
    if r[|r| - 1] == s[|s| - 1] {
      if r[..|r| - 1] != [] {
        SubsequenceExtend(r[..|r| - 1], s', s[|s| - 1]);
        assert s' + [s[|s| - 1]] == s;
      }
    } else {
      SubsequenceDropLast(r, s');
      SubsequenceExtend(r[..|r| - 1], s', s[|s| - 1]);
      assert s' + [s[|s| - 1]] == s;
    }
  }

  /** Kotlin's `take(n)` keeps a prefix, so it keeps being a subsequence. */
  lemma {:induction false} TakeOfSubsequence<T>(r: seq<T>, s: seq<T>, n: nat)
    requires IsSubsequence(r, s)
    ensures IsSubsequence(Take(r, n), s)
    decreases |r|
  {
    if n < |r| {
      SubsequenceDropLast(r, s);
      TakeOfSubsequence(r[..|r| - 1], s, n);
      assert Take(r[..|r| - 1], n) == Take(r, n);
    }
  }

  predicate NoDups<T(==)>(s: seq<T>) {
    forall i, j | 0 <= i < j < |s| :: s[i] != s[j]
  }

  /** Filtering keeps a sequence free of duplicates. */
  lemma {:induction false} FilterNoDups<T>(s: seq<T>, p: T -> bool)
    requires NoDups(s)
    ensures NoDups(Filter(s, p))
  {
    if s != [] {
      var init, last := s[..|s| - 1], s[|s| - 1];
      assert NoDups(init) by {
        assert forall i | 0 <= i < |init| :: init[i] == s[i];
      }
      FilterNoDups(init, p);
      assert last !in init by {
        assert forall i | 0 <= i < |init| :: init[i] == s[i];
      }
    }
  }

  /** Index of the first occurrence of `x` in `s`. */
  function FirstIndex<T(==)>(s: seq<T>, x: T): (k: nat)
    requires x in s
    ensures k < |s| && s[k] == x
    ensures forall j | 0 <= j < k :: s[j] != x
  {
    if s[0] == x then 0 else 1 + FirstIndex(s[1..], x)
  }

  lemma {:induction false} FirstIndexAppend<T>(s: seq<T>, x: T, y: T)
    requires y in s
    ensures FirstIndex(s + [x], y) == FirstIndex(s, y)
  {
    var k := FirstIndex(s, y);
    assert (s + [x])[k] == y;
    assert forall j | 0 <= j < k :: (s + [x])[j] == s[j];
    var k' := FirstIndex(s + [x], y);
    assert k' <= k;
  }

  /** Kotlin's `distinct()`: each element once, in order of first occurrence. */
  function Distinct<T(==)>(s: seq<T>): (r: seq<T>)
    ensures NoDups(r)
    ensures forall x | x in r :: x in s
    ensures forall x | x in s :: x in r
    ensures |r| <= |s|
  {
    if s == [] then [] else
      var init := Distinct(s[..|s| - 1]);
      assert s == s[..|s| - 1] + [s[|s| - 1]];
      if s[|s| - 1] in init then init else init + [s[|s| - 1]]
  }

  /** The elements of `Distinct(s)` come in the order of their first occurrence in `s`. */
  lemma {:induction false} DistinctKeepsFirstOccurrenceOrder<T>(s: seq<T>, i: nat, j: nat)
    requires i < j < |Distinct(s)|
    ensures FirstIndex(s, Distinct(s)[i]) < FirstIndex(s, Distinct(s)[j])
  {
    var init := s[..|s| - 1];
    var x := s[|s| - 1];
    assert s == init + [x];
    var r := Distinct(init);
    var a, b := Distinct(s)[i], Distinct(s)[j];
    if x in r {
      DistinctKeepsFirstOccurrenceOrder(init, i, j);
      FirstIndexAppend(init, x, a);
      FirstIndexAppend(init, x, b);
    } else if j < |r| {
      DistinctKeepsFirstOccurrenceOrder(init, i, j);
      FirstIndexAppend(init, x, a);
      FirstIndexAppend(init, x, b);
    } else {
      // b is the new element x, which does not occur in init
      assert b == x && a in init;
      FirstIndexAppend(init, x, a);
      assert FirstIndex(s, b) == |init|;
    }
  }

  /** Kotlin's `flatten()` / `flatMap`. */
  function Flatten<T>(ss: seq<seq<T>>): (r: seq<T>)
    ensures forall i, x | 0 <= i < |ss| && x in ss[i] :: x in r
    ensures forall x | x in r :: exists i :: 0 <= i < |ss| && x in ss[i]
  {
    if ss == [] then [] else
      var rest := Flatten(ss[1..]);
      assert forall i | 1 <= i < |ss| :: ss[i] == ss[1..][i - 1];
      ss[0] + rest
  }
}
