/** Filters and suffixes of sequences, and a fact about maps. */
module Sequences {

  /** The last `n` elements, or all of them if there are fewer. */
  function LastN<T>(s: seq<T>, n: nat): (r: seq<T>)
    ensures |r| == if n < |s| then n else |s|
  {
    if n < |s| then s[|s| - n..] else s
  }

  function Filter<T>(s: seq<T>, p: T -> bool): (r: seq<T>)
    ensures |r| <= |s|
  {
    if s == [] then []
    else if p(s[0]) then [s[0]] + Filter(s[1..], p)
    else Filter(s[1..], p)
  }

  lemma {:induction false} FilterSplits<T>(a: seq<T>, b: seq<T>, p: T -> bool)
    ensures Filter(a + b, p) == Filter(a, p) + Filter(b, p)
  {
    if a == [] {
      assert a + b == b;
    } else {
      FilterSplits(a[1..], b, p);
      assert (a + b)[1..] == a[1..] + b && (a + b)[0] == a[0];
    }
  }

  lemma {:induction false} FilterMember<T>(s: seq<T>, p: T -> bool)
    ensures forall x :: x in Filter(s, p) <==> x in s && p(x)
  {
    if s != [] {
      FilterMember(s[1..], p);
      HeadOrRest(s);
    }
  }

  lemma {:induction false} FilterAll<T>(s: seq<T>, p: T -> bool)
    requires forall x :: x in s ==> p(x)
    ensures Filter(s, p) == s
  {
    if s != [] {
      FilterAll(s[1..], p);
      HeadOrRest(s);
      assert s == [s[0]] + s[1..];
    }
  }

  lemma HeadOrRest<T>(s: seq<T>)
    requires s != []
    ensures forall x :: x in s <==> x == s[0] || x in s[1..]
  {
    assert s == [s[0]] + s[1..];
  }

  lemma LastNTwice<T>(s: seq<T>, n: nat, m: nat)
    ensures LastN(LastN(s, n), m) == LastN(s, if m <= n then m else n)
  {}

  lemma LastNMember<T>(s: seq<T>, n: nat)
    ensures forall x :: x in LastN(s, n) ==> x in s
  {}

  lemma HeadIn<T>(s: seq<T>)
    requires s != []
    ensures s[0] in s
  {}

  ghost predicate StrictlySorted<T(!new)>(s: seq<T>, less: (T, T) -> bool) {
    forall i, j :: 0 <= i < j < |s| ==> less(s[i], s[j])
  }

  ghost predicate Asymmetric<T(!new)>(less: (T, T) -> bool) {
    forall x, y :: less(x, y) ==> !less(y, x)
  }

  /** Two strictly sorted sequences with the same elements are the same sequence. */
  lemma {:induction false} SortedUnique<T(!new)>(s: seq<T>, t: seq<T>, less: (T, T) -> bool)
    requires Asymmetric(less) && StrictlySorted(s, less) && StrictlySorted(t, less)
    requires forall x :: x in s <==> x in t
    ensures s == t
  {
    if s == [] || t == [] {
      if s != [] { HeadIn(s); }
      if t != [] { HeadIn(t); }
    } else {
      HeadIn(s);
      HeadIn(t);
      HeadIsLeast(s, less);
      HeadIsLeast(t, less);
      RestWithoutHead(s, less);
      RestWithoutHead(t, less);
      SortedUnique(s[1..], t[1..], less);
      assert s == [s[0]] + s[1..] && t == [t[0]] + t[1..];
    }
  }

  lemma HeadIsLeast<T(!new)>(s: seq<T>, less: (T, T) -> bool)
    requires s != [] && StrictlySorted(s, less)
    ensures forall x :: x in s ==> x == s[0] || less(s[0], x)
  {}

  lemma RestWithoutHead<T(!new)>(s: seq<T>, less: (T, T) -> bool)
    requires s != [] && Asymmetric(less) && StrictlySorted(s, less)
    ensures StrictlySorted(s[1..], less)
    ensures forall x :: x in s[1..] <==> x in s && x != s[0]
  {
    HeadOrRest(s);
    forall i | 0 <= i < |s[1..]| ensures s[1..][i] != s[0] {
      assert less(s[0], s[i + 1]);
    }
  }

  lemma UpdateThenRemove<K, V>(m: map<K, V>, k: K, v: V)
    ensures m[k := v] - {k} == m - {k}
  {}
}
