/** Sequence operations shared by the models: JavaScript's Array.filter, the
    ordering a Django Meta class asks of its queries, and pairwise facts about
    the rows of a list. */
module Seqs {

  /** Array.prototype.filter: the elements satisfying f, in their original order. */
  function Filter<T>(s: seq<T>, f: T -> bool): (r: seq<T>)
    ensures |r| <= |s|
  {
    if s == [] then []
    else (if f(s[0]) then [s[0]] else []) + Filter(s[1..], f)
  }

  /** The filter keeps exactly the elements that pass: every element of the
      result is one of s that passes, and every element of s that passes is kept. */
  lemma {:induction false} FilterMembers<T>(s: seq<T>, f: T -> bool)
    ensures forall i :: 0 <= i < |Filter(s, f)| ==> Filter(s, f)[i] in s && f(Filter(s, f)[i])
    ensures forall i :: 0 <= i < |s| && f(s[i]) ==> s[i] in Filter(s, f)
  {
    if s != [] {
      FilterMembers(s[1..], f);
      assert forall i :: 0 < i < |s| ==> s[i] == s[1..][i - 1];
    }
  }

  /** Filtering distributes over concatenation, so it never reorders. */
  lemma {:induction false} FilterConcat<T>(a: seq<T>, b: seq<T>, f: T -> bool)
    ensures Filter(a + b, f) == Filter(a, f) + Filter(b, f)
  {
    if a == [] {
      assert a + b == b;
    } else {
      assert (a + b)[0] == a[0] && (a + b)[1..] == a[1..] + b;
      FilterConcat(a[1..], b, f);
      var head := if f(a[0]) then [a[0]] else [];
      assert Filter(a + b, f) == head + Filter(a[1..] + b, f);
      assert head + (Filter(a[1..], f) + Filter(b, f)) == (head + Filter(a[1..], f)) + Filter(b, f);
    }
  }

  /** A filter that every element passes changes nothing. */
  lemma {:induction false} FilterAll<T>(s: seq<T>, f: T -> bool)
    requires forall i :: 0 <= i < |s| ==> f(s[i])
    ensures Filter(s, f) == s
  {
    if s != [] {
      FilterAll(s[1..], f);
    }
  }

  /** A filter that no element passes leaves nothing. */
  lemma {:induction false} FilterNone<T>(s: seq<T>, f: T -> bool)
    requires forall i :: 0 <= i < |s| ==> !f(s[i])
    ensures Filter(s, f) == []
  {
    if s != [] {
      FilterNone(s[1..], f);
    }
  }

  /** Two tests that agree on every element select the same elements. */
  lemma {:induction false} FilterSameTest<T>(s: seq<T>, f: T -> bool, g: T -> bool)
    requires forall i :: 0 <= i < |s| ==> f(s[i]) == g(s[i])
    ensures Filter(s, f) == Filter(s, g)
  {
    if s != [] {
      FilterSameTest(s[1..], f, g);
    }
  }

  /** Exactly one element fails the filter: the result is one shorter. */
  lemma {:induction false} FilterDropsOne<T>(s: seq<T>, f: T -> bool, k: nat)
    requires k < |s| && !f(s[k])
    requires forall i :: 0 <= i < |s| && i != k ==> f(s[i])
    ensures Filter(s, f) == s[..k] + s[k + 1..]
    ensures |Filter(s, f)| == |s| - 1
  {
    var t := s[1..];
    assert forall i :: 0 <= i < |t| ==> t[i] == s[i + 1];
    if k == 0 {
      FilterAll(t, f);
    } else {
      assert Filter(s, f) == [s[0]] + Filter(t, f);
      assert forall i :: 0 <= i < |t| && i != k - 1 ==> f(t[i]);
      FilterDropsOne(t, f, k - 1);
      calc {
        [s[0]] + (t[..k - 1] + t[k..]);
        ([s[0]] + t[..k - 1]) + t[k..];
        { assert [s[0]] + t[..k - 1] == s[..k]; assert t[k..] == s[k + 1..]; }
        s[..k] + s[k + 1..];
      }
    }
  }

  /** P holds of every pair of elements taken in list order. */
  ghost predicate Pairwise<T>(s: seq<T>, P: (T, T) -> bool) {
    forall i, j :: 0 <= i < j < |s| ==> P(s[i], s[j])
  }

  /** Filtering keeps a pairwise property: the survivors keep their order. */
  lemma {:induction false} FilterPairwise<T>(s: seq<T>, f: T -> bool, P: (T, T) -> bool)
    requires Pairwise(s, P)
    ensures Pairwise(Filter(s, f), P)
  {
    if s != [] {
      var rest := Filter(s[1..], f);
      assert Pairwise(s[1..], P) by {
        forall i, j | 0 <= i < j < |s[1..]| ensures P(s[1..][i], s[1..][j]) {
          assert s[1..][i] == s[i + 1] && s[1..][j] == s[j + 1];
        }
      }
      FilterPairwise(s[1..], f, P);
      FilterMembers(s[1..], f);
      if f(s[0]) {
        var r := [s[0]] + rest;
        forall i, j | 0 <= i < j < |r| ensures P(r[i], r[j]) {
          if i == 0 {
            assert r[j] == rest[j - 1] && rest[j - 1] in s[1..];
            var k :| 0 <= k < |s[1..]| && s[1..][k] == rest[j - 1];
            assert s[k + 1] == r[j];
          } else {
            assert r[i] == rest[i - 1] && r[j] == rest[j - 1];
          }
        }
      }
    }
  }

  predicate SortedBy<T>(s: seq<T>, key: T -> int) {
    forall i, j :: 0 <= i < j < |s| ==> key(s[i]) <= key(s[j])
  }

  /** Inserts x before the first element with a larger key. */
  function Insert<T>(x: T, s: seq<T>, key: T -> int): (r: seq<T>)
    requires SortedBy(s, key)
    ensures SortedBy(r, key)
    ensures multiset(r) == multiset(s) + multiset{x}
  {
    if s == [] then [x]
    else if key(x) <= key(s[0]) then [x] + s
    else
      var t := Insert(x, s[1..], key);
      assert s == [s[0]] + s[1..];
      KeysFrom(s[1..], x, t, key, key(s[0]));
      [s[0]] + t
  }

  /** A lower bound on the keys of s and of x bounds the keys of any
      arrangement t of s with x. */
  lemma KeysFrom<T>(s: seq<T>, x: T, t: seq<T>, key: T -> int, b: int)
    requires multiset(t) == multiset(s) + multiset{x}
    requires b <= key(x) && forall i :: 0 <= i < |s| ==> b <= key(s[i])
    ensures forall j :: 0 <= j < |t| ==> b <= key(t[j])
  {
    forall j | 0 <= j < |t| ensures b <= key(t[j]) {
      assert t[j] in multiset(t);
      if t[j] != x {
        assert t[j] in multiset(s);
        var m :| 0 <= m < |s| && s[m] == t[j];
      }
    }
  }

  /** The rows of s in ascending key order: what a query with an ORDER BY returns. */
  function SortBy<T>(s: seq<T>, key: T -> int): (r: seq<T>)
    ensures SortedBy(r, key)
    ensures multiset(r) == multiset(s)
  {
    if s == [] then []
    else
      assert s == [s[0]] + s[1..];
      Insert(s[0], SortBy(s[1..], key), key)
  }
}
