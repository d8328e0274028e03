/**
 * Counting, filtering and flattening over sequences: the list comprehensions
 * and counters of the analyzer, stated once. Every function is defined on
 * the last element so that a loop appending in order keeps it as invariant.
 */
module Seqs {

  /** How many elements of `s` satisfy `p`, counted with multiplicity. */
  function Count<T>(s: seq<T>, p: T -> bool): (n: nat)
    ensures n <= |s|
  {
    if s == [] then 0 else Count(s[..|s| - 1], p) + (if p(s[|s| - 1]) then 1 else 0)
  }

  /** `[x for x in s if p(x)]`. */
  function Filter<T>(s: seq<T>, p: T -> bool): (r: seq<T>)
    ensures |r| == Count(s, p)
  {
    if s == [] then []
    else
      Filter(s[..|s| - 1], p) + (if p(s[|s| - 1]) then [s[|s| - 1]] else [])
  }

  /** `[f(x) for x in s]`. */
  function Map<T, U>(s: seq<T>, f: T -> U): (r: seq<U>)
    ensures |r| == |s|
    ensures forall i {:trigger r[i]} :: 0 <= i < |s| ==> r[i] == f(s[i])
  {
    seq(|s|, i requires 0 <= i < |s| => f(s[i]))
  }

  /** The concatenation of the sequences of `ss`, in order. */
  function Flatten<T>(ss: seq<seq<T>>): seq<T>
  {
    if ss == [] then [] else Flatten(ss[..|ss| - 1]) + ss[|ss| - 1]
  }

  lemma CountSnoc<T>(s: seq<T>, x: T, p: T -> bool)
    ensures Count(s + [x], p) == Count(s, p) + (if p(x) then 1 else 0)
  {
    assert (s + [x])[..|s|] == s;
  }

  lemma FilterSnoc<T>(s: seq<T>, x: T, p: T -> bool)
    ensures Filter(s + [x], p) == Filter(s, p) + (if p(x) then [x] else [])
  {
    assert (s + [x])[..|s|] == s;
  }

  lemma MapSnoc<T, U>(s: seq<T>, x: T, f: T -> U)
    ensures Map(s + [x], f) == Map(s, f) + [f(x)]
  {
  }

  lemma FlattenSnoc<T>(ss: seq<seq<T>>, s: seq<T>)
    ensures Flatten(ss + [s]) == Flatten(ss) + s
  {
    assert (ss + [s])[..|ss|] == ss;
  }

  /** Flattening one more element of a fixed list of lists. */
  lemma FlattenPrefix<T>(ss: seq<seq<T>>, k: nat)
    requires k < |ss|
    ensures Flatten(ss[..k + 1]) == Flatten(ss[..k]) + ss[k]
  {
    assert ss[..k + 1] == ss[..k] + [ss[k]];
    FlattenSnoc(ss[..k], ss[k]);
  }

  /** Mapping and flattening one more element of a fixed sequence. */
  lemma FlattenMapPrefix<T, U>(s: seq<T>, k: nat, f: T -> seq<U>)
    requires k < |s|
    ensures Flatten(Map(s[..k + 1], f)) == Flatten(Map(s[..k], f)) + f(s[k])
  {
    assert s[..k + 1] == s[..k] + [s[k]];
    MapSnoc(s[..k], s[k], f);
    FlattenSnoc(Map(s[..k], f), f(s[k]));
  }

  /** Every element satisfies exactly one of `p` and its negation. */
  lemma {:induction false} CountSplit<T>(s: seq<T>, p: T -> bool, q: T -> bool)
    requires forall x :: q(x) == !p(x)
    ensures Count(s, p) + Count(s, q) == |s|
  {
    if s != [] {
      CountSplit(s[..|s| - 1], p, q);
    }
  }

  /** Two predicates that agree on every element count the same elements. */
  lemma {:induction false} CountSame<T>(s: seq<T>, p: T -> bool, q: T -> bool)
    requires forall x :: x in s ==> p(x) == q(x)
    ensures Count(s, p) == Count(s, q)
  {
    if s != [] {
      assert s[|s| - 1] in s;
      CountSame(s[..|s| - 1], p, q);
    }
  }

  /** A predicate every element satisfies counts them all. */
  lemma {:induction false} CountAll<T>(s: seq<T>, p: T -> bool)
    requires forall x :: x in s ==> p(x)
    ensures Count(s, p) == |s|
  {
    if s != [] {
      assert s[|s| - 1] in s;
      CountAll(s[..|s| - 1], p);
    }
  }

  /** An element of a flattened list comes from one of the lists. */
  lemma {:induction false} FlattenMember<T>(ss: seq<seq<T>>, x: T)
    requires x in Flatten(ss)
    ensures exists i :: 0 <= i < |ss| && x in ss[i]
  {
    var n := |ss|;
    if x !in ss[n - 1] {
      FlattenMember(ss[..n - 1], x);
      var i :| 0 <= i < n - 1 && x in ss[..n - 1][i];
      assert ss[i] == ss[..n - 1][i];
    }
  }

  /** Counting by a predicate that holds exactly when one of two exclusive ones does. */
  lemma {:induction false} CountUnion<T>(s: seq<T>, p: T -> bool, q: T -> bool, r: T -> bool)
    requires forall x :: x in s ==> r(x) == (p(x) || q(x)) && !(p(x) && q(x))
    ensures Count(s, r) == Count(s, p) + Count(s, q)
  {
    if s != [] {
      assert s[|s| - 1] in s;
      CountUnion(s[..|s| - 1], p, q, r);
    }
  }

  /** An element of one of the lists is in the flattened list. */
  lemma {:induction false} MemberFlatten<T>(ss: seq<seq<T>>, i: nat, x: T)
    requires i < |ss| && x in ss[i]
    ensures x in Flatten(ss)
  {
    var n := |ss|;
    if i < n - 1 {
      assert ss[..n - 1][i] == ss[i];
      MemberFlatten(ss[..n - 1], i, x);
    }
  }

  /** What a filter keeps comes from the input and satisfies the predicate. */
  lemma {:induction false} FilterMembers<T>(s: seq<T>, p: T -> bool)
    ensures forall x :: x in Filter(s, p) ==> x in s && p(x)
  {
    if s != [] {
      FilterMembers(s[..|s| - 1], p);
      assert forall x :: x in s[..|s| - 1] ==> x in s;
    }
  }

  /** An element satisfying the predicate is counted. */
  lemma {:induction false} CountPositive<T>(s: seq<T>, p: T -> bool, x: T)
    requires x in s && p(x)
    ensures Count(s, p) > 0
  {
    if s[|s| - 1] != x {
      assert x in s[..|s| - 1];
      CountPositive(s[..|s| - 1], p, x);
    }
  }

  /** A property of every element of every `f(x)` holds of every element of their concatenation. */
  lemma {:induction false} FlattenMapAll<T, U>(s: seq<T>, f: T -> seq<U>, p: U -> bool)
    requires forall x, u :: x in s && u in f(x) ==> p(u)
    ensures forall u :: u in Flatten(Map(s, f)) ==> p(u)
  {
    if s != [] {
      var n := |s| - 1;
      assert s == s[..n] + [s[n]];
      FlattenMapAll(s[..n], f, p);
      MapSnoc(s[..n], s[n], f);
      FlattenSnoc(Map(s[..n], f), f(s[n]));
    }
  }

  /** `{f(x) for x in s}`. */
  function Image<T, U>(s: seq<T>, f: T -> U): set<U>
  {
    if s == [] then {} else Image(s[..|s| - 1], f) + {f(s[|s| - 1])}
  }

  /** No two elements of `s` have the same key. */
  predicate DistinctBy<T, U(==)>(s: seq<T>, f: T -> U)
  {
    forall i, j :: 0 <= i < j < |s| ==> f(s[i]) != f(s[j])
  }

  lemma ImageSnoc<T, U>(s: seq<T>, x: T, f: T -> U)
    ensures Image(s + [x], f) == Image(s, f) + {f(x)}
  {
    assert (s + [x])[..|s|] == s;
  }

  /** The image holds exactly the keys of the elements. */
  lemma {:induction false} ImageMember<T, U>(s: seq<T>, f: T -> U, y: U)
    ensures y in Image(s, f) <==> exists i :: 0 <= i < |s| && f(s[i]) == y
  {
    if s != [] {
      var n := |s| - 1;
      ImageMember(s[..n], f, y);
      if y in Image(s[..n], f) {
        var i :| 0 <= i < n && f(s[..n][i]) == y;
        assert f(s[i]) == y;
      }
      if exists i :: 0 <= i < |s| && f(s[i]) == y {
        var i :| 0 <= i < |s| && f(s[i]) == y;
        if i < n {
          assert f(s[..n][i]) == y;
        }
      }
    }
  }

  /** Distinct keys make the image as large as the sequence. */
  lemma {:induction false} ImageCard<T, U>(s: seq<T>, f: T -> U)
    requires DistinctBy(s, f)
    ensures |Image(s, f)| == |s|
  {
    if s != [] {
      var n := |s| - 1;
      assert DistinctBy(s[..n], f) by {
        forall i, j | 0 <= i < j < n ensures f(s[..n][i]) != f(s[..n][j]) {
          assert s[..n][i] == s[i] && s[..n][j] == s[j];
        }
      }
      ImageCard(s[..n], f);
      assert f(s[n]) !in Image(s[..n], f) by {
        forall i | 0 <= i < n ensures f(s[..n][i]) != f(s[n]) {
          assert s[..n][i] == s[i];
        }
        ImageMember(s[..n], f, f(s[n]));
      }
    }
  }
}
