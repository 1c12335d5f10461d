/** Facts about sequences that several stages of the pipeline share: filtering,
    and what it means for one sequence to survive, in order, inside another. */
module Sequences {

  /** The elements of `s` that satisfy `keep`, in their order in `s`. */
  function Filter<T>(keep: T -> bool, s: seq<T>): seq<T> {
    if s == [] then []
    else
      var rest := Filter(keep, s[..|s| - 1]);
      if keep(s[|s| - 1]) then rest + [s[|s| - 1]] else rest
  }

  lemma SplitLast<T>(s: seq<T>)
    requires s != []
    ensures s[..|s| - 1] + [s[|s| - 1]] == s
  {
  }

  lemma TakeOneMore<T>(s: seq<T>, n: nat)
    requires n < |s|
    ensures s[..n + 1] == s[..n] + [s[n]]
  {
  }

  lemma FilterSnoc<T>(keep: T -> bool, s: seq<T>, x: T)
    ensures Filter(keep, s + [x]) == if keep(x) then Filter(keep, s) + [x] else Filter(keep, s)
  {
    assert (s + [x])[..|s|] == s;
  }

  lemma {:induction false} FilterConcat<T>(keep: T -> bool, s: seq<T>, t: seq<T>)
    ensures Filter(keep, s + t) == Filter(keep, s) + Filter(keep, t)
  {
    if t == [] {
      assert s + t == s;
    } else {
      var init, last := t[..|t| - 1], t[|t| - 1];
      assert s + t == s + init + [last];
      FilterConcat(keep, s, init);
      FilterSnoc(keep, s + init, last);
    }
  }

  lemma {:induction false} FilterMembers<T>(keep: T -> bool, s: seq<T>)
    ensures forall x :: x in Filter(keep, s) <==> x in s && keep(x)
  {
    if s != [] {
      var init, last := s[..|s| - 1], s[|s| - 1];
      FilterMembers(keep, init);
      assert s == init + [last];
    }
  }

  lemma {:induction false} FilterNone<T>(keep: T -> bool, s: seq<T>)
    requires forall x :: x in s ==> !keep(x)
    ensures Filter(keep, s) == []
  {
    if s != [] { FilterNone(keep, s[..|s| - 1]); }
  }

  /** A value that occurs twice is kept twice. */
  lemma FilterKeepsTwo<T>(keep: T -> bool, s: seq<T>, i: nat, j: nat)
    requires i < j < |s| && s[i] == s[j] && keep(s[i])
    ensures exists p, q :: 0 <= p < q < |Filter(keep, s)| && Filter(keep, s)[p] == Filter(keep, s)[q] == s[i]
  {
    var a, b := Filter(keep, s[..j]), Filter(keep, s[j..]);
    assert s == s[..j] + s[j..];
    FilterConcat(keep, s[..j], s[j..]);
    FilterMembers(keep, s[..j]);
    FilterMembers(keep, s[j..]);
    assert s[..j][i] == s[i] && s[j..][0] == s[i];
    var p :| 0 <= p < |a| && a[p] == s[i];
    var q :| 0 <= q < |b| && b[q] == s[i];
    assert (a + b)[p] == (a + b)[|a| + q] == s[i];
  }

  lemma FilterDistinct<T>(keep: T -> bool, s: seq<T>, i: nat, j: nat)
    requires forall p, q :: 0 <= p < q < |Filter(keep, s)| ==> Filter(keep, s)[p] != Filter(keep, s)[q]
    requires i < |s| && j < |s| && s[i] == s[j] && keep(s[i])
    ensures i == j
  {
    if i < j { FilterKeepsTwo(keep, s, i, j); }
    if j < i { FilterKeepsTwo(keep, s, j, i); }
  }

  /** `at` lists, in increasing order, where each element of `a` sits in `b`. */
  ghost predicate Positions<T(!new)>(a: seq<T>, b: seq<T>, at: seq<nat>) {
    && |at| == |a|
    && (forall i :: 0 <= i < |a| ==> at[i] < |b| && a[i] == b[at[i]])
    && (forall i, j :: 0 <= i < j < |at| ==> at[i] < at[j])
  }

  /** `a` can be obtained from `b` by deleting elements: nothing is duplicated or reordered. */
  ghost predicate Subsequence<T(!new)>(a: seq<T>, b: seq<T>) {
    exists at :: Positions(a, b, at)
  }

  lemma SubsequenceRefl<T(!new)>(a: seq<T>)
    ensures Subsequence(a, a)
  {
    assert Positions(a, a, seq(|a|, i => i));
  }

  lemma SubsequenceTrans<T(!new)>(a: seq<T>, b: seq<T>, c: seq<T>)
    requires Subsequence(a, b) && Subsequence(b, c)
    ensures Subsequence(a, c)
  {
    var f: seq<nat> :| Positions(a, b, f);
    var g: seq<nat> :| Positions(b, c, g);
    var h := seq(|a|, i requires 0 <= i < |a| => g[f[i]]);
    assert Positions(a, c, h);
  }

  lemma SubsequenceSnoc<T(!new)>(a: seq<T>, b: seq<T>, x: T)
    requires Subsequence(a, b)
    ensures Subsequence(a, b + [x])
    ensures Subsequence(a + [x], b + [x])
  {
    var f: seq<nat> :| Positions(a, b, f);
    assert Positions(a, b + [x], f);
    assert Positions(a + [x], b + [x], f + [|b|]);
  }

  lemma SubsequencePrefix<T(!new)>(a: seq<T>, b: seq<T>)
    requires a <= b
    ensures Subsequence(a, b)
  {
    assert Positions(a, b, seq(|a|, i => i));
  }

  lemma SubsequenceMiddle<T(!new)>(a: seq<T>, b: seq<T>, c: seq<T>)
    ensures Subsequence(b, a + b + c)
  {
    assert Positions(b, a + b + c, seq(|b|, i => |a| + i));
  }

  lemma SubsequenceMembers<T(!new)>(a: seq<T>, b: seq<T>)
    requires Subsequence(a, b)
    ensures forall x :: x in a ==> x in b
  {
    var f: seq<nat> :| Positions(a, b, f);
    forall x | x in a ensures x in b {
      var i :| 0 <= i < |a| && a[i] == x;
      assert b[f[i]] == x;
    }
  }

  /** Filtering respects deletion. */
  lemma {:induction false} FilterSubsequence<T(!new)>(keep: T -> bool, s: seq<T>)
    ensures Subsequence(Filter(keep, s), s)
  {
    if s == [] {
      SubsequenceRefl(s);
    } else {
      var init, last := s[..|s| - 1], s[|s| - 1];
      FilterSubsequence(keep, init);
      SubsequenceSnoc(Filter(keep, init), init, last);
      assert s == init + [last];
    }
  }
}
