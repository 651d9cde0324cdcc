/** Small facts about sequences shared by the other modules. */
module Sequences {

  datatype Option<+T> = None | Some(value: T)

  /** The elements of `s` that satisfy `keep`, in their original order. */
  function Filter<T>(keep: T -> bool, s: seq<T>): (r: seq<T>)
    ensures |r| <= |s|
  {
    if s == [] then [] else
      var n := |s| - 1;
      if keep(s[n]) then Filter(keep, s[..n]) + [s[n]] else Filter(keep, s[..n])
  }

  lemma {:induction false} FilterMembers<T(!new)>(keep: T -> bool, s: seq<T>)
    ensures forall x :: x in Filter(keep, s) <==> x in s && keep(x)
  {
    if s != [] {
      FilterMembers(keep, s[..|s| - 1]);
      assert s == s[..|s| - 1] + [s[|s| - 1]];
    }
  }

  /** `rel` holds of every two elements taken in order. */
  ghost predicate Pairwise<T(!new)>(rel: (T, T) -> bool, s: seq<T>) {
    forall i, j :: 0 <= i < j < |s| ==> rel(s[i], s[j])
  }

  lemma {:induction false} FilterPairwise<T(!new)>(rel: (T, T) -> bool, keep: T -> bool, s: seq<T>)
    requires Pairwise(rel, s)
    ensures Pairwise(rel, Filter(keep, s))
  {
    if s != [] {
      var n := |s| - 1;
      FilterPairwise(rel, keep, s[..n]);
      FilterMembers(keep, s[..n]);
      forall i | 0 <= i < |Filter(keep, s[..n])|
        ensures rel(Filter(keep, s[..n])[i], s[n])
      {
        assert Filter(keep, s[..n])[i] in s[..n];
      }
    }
  }

  lemma {:induction false} FilterKeepsAll<T(!new)>(keep: T -> bool, s: seq<T>)
    requires forall i :: 0 <= i < |s| ==> keep(s[i])
    ensures Filter(keep, s) == s
  {
    if s != [] {
      var n := |s| - 1;
      FilterKeepsAll(keep, s[..n]);
      assert s == s[..n] + [s[n]];
    }
  }

  /** Filtering out the one element that fails. */
  lemma {:induction false} FilterDropsOne<T(!new)>(keep: T -> bool, s: seq<T>, k: nat)
    requires k < |s| && !keep(s[k])
    requires forall i :: 0 <= i < |s| && i != k ==> keep(s[i])
    ensures Filter(keep, s) == s[..k] + s[k + 1..]
  {
    var n := |s| - 1;
    if k == n {
      FilterKeepsAll(keep, s[..n]);
      assert s[..k] + s[k + 1..] == s[..n];
    } else {
      FilterDropsOne(keep, s[..n], k);
      assert s[..n][..k] == s[..k];
      assert s[..k] + s[k + 1..] == s[..k] + s[..n][k + 1..] + [s[n]];
    }
  }

  /** Filtering, one element further along. */
  lemma {:induction false} FilterStep<T>(keep: T -> bool, s: seq<T>, i: nat)
    requires i < |s|
    ensures Filter(keep, s[..i + 1])
         == if keep(s[i]) then Filter(keep, s[..i]) + [s[i]] else Filter(keep, s[..i])
  {
    assert s[..i + 1][..i] == s[..i];
  }

  /** A vector being cleaned in place: `front` is done, `all[n..]` is still to come. The next element
      is either erased or passed over. */
  lemma {:induction false} EraseOrPass<T>(front: seq<T>, all: seq<T>, n: nat)
    requires n < |all|
    ensures var now := front + all[n..];
            && now[|front|] == all[n]
            && now[..|front|] + now[|front| + 1..] == front + all[n + 1..]
            && now == (front + [all[n]]) + all[n + 1..]
  {
  }

  /** The same when the next element is first changed to `x`. */
  lemma {:induction false} ReplaceThenErase<T>(front: seq<T>, all: seq<T>, n: nat, x: T)
    requires n < |all|
    ensures var now := (front + all[n..])[|front| := x];
            && now[|front|] == x
            && now[..|front|] + now[|front| + 1..] == front + all[n + 1..]
            && now == (front + [x]) + all[n + 1..]
  {
  }

  /** The first place of `x`, or the length if it is not there. */
  function IndexOf<T(==)>(s: seq<T>, x: T): (k: nat)
    ensures k <= |s| && x !in s[..k] && (k < |s| ==> s[k] == x)
  {
    if s == [] || s[0] == x then 0 else
      var k := IndexOf(s[1..], x);
      assert s[..k + 1] == [s[0]] + s[1..][..k];
      k + 1
  }

  lemma {:induction false} IndexIs<T>(s: seq<T>, x: T, j: nat)
    requires j <= |s| && x !in s[..j] && (j < |s| ==> s[j] == x)
    ensures IndexOf(s, x) == j
  {
    var k := IndexOf(s, x);
    assert forall i :: 0 <= i < j ==> s[i] in s[..j];
    assert forall i :: 0 <= i < k ==> s[i] in s[..k];
  }

  lemma {:induction false} Regroup<T>(a: seq<T>, b: seq<T>, c: seq<T>)
    ensures (a + b) + c == a + (b + c)
  {
  }

  lemma {:induction false} LastApart<T>(s: seq<T>)
    requires s != []
    ensures s == s[..|s| - 1] + [s[|s| - 1]]
  {
  }

  lemma {:induction false} PrefixOfPrefix<T>(s: seq<T>, n: nat, k: nat)
    requires k <= n <= |s|
    ensures s[..n][..k] == s[..k]
  {
  }

  /** A sequence of distinct numbers below `bound` has at most `bound` elements. */
  lemma {:induction false} Pigeonhole(s: seq<int>, bound: nat)
    requires forall i :: 0 <= i < |s| ==> 0 <= s[i] < bound
    requires forall i, j :: 0 <= i < j < |s| ==> s[i] != s[j]
    ensures |s| <= bound
  {
    if bound == 0 {
    } else if bound - 1 in s {
      var k :| 0 <= k < |s| && s[k] == bound - 1;
      var rest := s[..k] + s[k + 1..];
      forall i | 0 <= i < |rest| ensures 0 <= rest[i] < bound - 1 {
        assert rest[i] == s[if i < k then i else i + 1];
      }
      Pigeonhole(rest, bound - 1);
    } else {
      Pigeonhole(s, bound - 1);
    }
  }
}
