/** Order-preserving filtering of sequences, the model of
    `Array.prototype.filter` and of a global `String.prototype.replace` whose
    replacement is empty. */
module Seqs {

  /** The elements of `s` that satisfy `keep`, in their original order. */
  function Filter<T>(s: seq<T>, keep: T -> bool): (r: seq<T>)
    ensures |r| <= |s|
    ensures forall i :: 0 <= i < |r| ==> keep(r[i])
    decreases |s|
  {
    if s == [] then []
    else if keep(s[0]) then [s[0]] + Filter(s[1..], keep)
    else Filter(s[1..], keep)
  }

  /** `a` is obtained from `b` by deleting some elements. */
  ghost predicate IsSubsequence<T>(a: seq<T>, b: seq<T>)
    decreases |b|
  {
    if a == [] then true
    else if b == [] then false
    else if a[0] == b[0] then IsSubsequence(a[1..], b[1..])
    else IsSubsequence(a, b[1..])
  }

  /** `s.slice(0, n)`. */
  function Take<T>(s: seq<T>, n: nat): (r: seq<T>)
    ensures |r| == if |s| < n then |s| else n
    ensures forall i :: 0 <= i < |r| ==> r[i] == s[i]
  {
    if |s| <= n then s else s[..n]
  }

  /** Membership in the filtered sequence: exactly the kept elements of `s`. */
  lemma {:induction false} FilterMembership<T>(s: seq<T>, keep: T -> bool, x: T)
    ensures x in Filter(s, keep) <==> x in s && keep(x)
    decreases |s|
  {
    if s != [] {
      FilterMembership(s[1..], keep, x);
      assert s == [s[0]] + s[1..];
    }
  }

  lemma {:induction false} FilterIsSubsequence<T>(s: seq<T>, keep: T -> bool)
    ensures IsSubsequence(Filter(s, keep), s)
    decreases |s|
  {
    if s != [] {
      FilterIsSubsequence(s[1..], keep);
      var r := Filter(s, keep);
      if keep(s[0]) {
        assert r[0] == s[0] && r[1..] == Filter(s[1..], keep);
      } else if r != [] {
        SubsequenceSkip(r, s);
      }
    }
  }

  /** A subsequence of the tail is a subsequence of the whole. */
  lemma {:induction false} SubsequenceSkip<T>(a: seq<T>, b: seq<T>)
    requires b != [] && IsSubsequence(a, b[1..])
    ensures IsSubsequence(a, b)
    decreases |b|, 0
  {
    if a != [] && a[0] == b[0] {
      SubsequenceTail(a, b[1..]);
    }
  }

  /** Dropping the head of a subsequence keeps it a subsequence. */
  lemma {:induction false} SubsequenceTail<T>(a: seq<T>, b: seq<T>)
    requires a != [] && IsSubsequence(a, b)
    ensures IsSubsequence(a[1..], b)
    decreases |b|, 1
  {
    if a[0] != b[0] {
      SubsequenceTail(a, b[1..]);
    }
    SubsequenceSkip(a[1..], b);
  }

  /** Filtering keeps a sequence unchanged exactly when every element is kept. */
  lemma {:induction false} FilterIdentity<T>(s: seq<T>, keep: T -> bool)
    ensures Filter(s, keep) == s <==> forall i :: 0 <= i < |s| ==> keep(s[i])
    decreases |s|
  {
    if s != [] {
      FilterIdentity(s[1..], keep);
      if !keep(s[0]) {
        assert |Filter(s, keep)| < |s| by { assert |Filter(s[1..], keep)| <= |s[1..]|; }
      } else if forall i :: 0 <= i < |s| ==> keep(s[i]) {
        assert forall i :: 0 <= i < |s[1..]| ==> keep(s[1..][i]);
      } else {
        var j :| 0 <= j < |s| && !keep(s[j]);
        assert !keep(s[1..][j - 1]);
      }
    }
  }

  /** Filtering keeps every copy of a kept element and no copy of a dropped
      one. */
  lemma {:induction false} FilterMultiplicity<T>(s: seq<T>, keep: T -> bool, x: T)
    ensures multiset(Filter(s, keep))[x] == if keep(x) then multiset(s)[x] else 0
    decreases |s|
  {
    if s != [] {
      FilterMultiplicity(s[1..], keep, x);
      assert s == [s[0]] + s[1..];
      if keep(s[0]) {
        assert Filter(s, keep) == [s[0]] + Filter(s[1..], keep);
      }
    }
  }

  /** Filtering by a weaker predicate first and then by a stronger one is the
      same as filtering by the stronger one alone. */
  lemma {:induction false} FilterNarrow<T>(s: seq<T>, weak: T -> bool, strong: T -> bool)
    requires forall x :: strong(x) ==> weak(x)
    ensures Filter(Filter(s, weak), strong) == Filter(s, strong)
    decreases |s|
  {
    if s != [] {
      FilterNarrow(s[1..], weak, strong);
      if weak(s[0]) {
        assert Filter(s, weak) == [s[0]] + Filter(s[1..], weak);
        assert ([s[0]] + Filter(s[1..], weak))[1..] == Filter(s[1..], weak);
      }
    }
  }

  /** At least two elements are kept exactly when two distinct positions of
      `s` hold kept elements. */
  lemma {:induction false} FilterAtLeastTwo<T>(s: seq<T>, keep: T -> bool)
    ensures |Filter(s, keep)| > 1 <==>
            exists i, j :: 0 <= i < j < |s| && keep(s[i]) && keep(s[j])
    decreases |s|
  {
    if s != [] {
      FilterAtLeastTwo(s[1..], keep);
      FilterAtLeastOne(s[1..], keep);
      if exists i, j :: 0 <= i < j < |s| && keep(s[i]) && keep(s[j]) {
        var i, j :| 0 <= i < j < |s| && keep(s[i]) && keep(s[j]);
        if i == 0 {
          assert keep(s[1..][j - 1]);
        } else {
          assert keep(s[1..][i - 1]) && keep(s[1..][j - 1]);
        }
      }
      if |Filter(s, keep)| > 1 {
        if keep(s[0]) {
          var j :| 0 <= j < |s[1..]| && keep(s[1..][j]);
          assert keep(s[0]) && keep(s[j + 1]);
        } else {
          var i, j :| 0 <= i < j < |s[1..]| && keep(s[1..][i]) && keep(s[1..][j]);
          assert keep(s[i + 1]) && keep(s[j + 1]);
        }
      }
    }
  }

  /** Something is kept exactly when some element satisfies the predicate. */
  lemma {:induction false} FilterAtLeastOne<T>(s: seq<T>, keep: T -> bool)
    ensures |Filter(s, keep)| > 0 <==> exists i :: 0 <= i < |s| && keep(s[i])
    decreases |s|
  {
    if s != [] {
      FilterAtLeastOne(s[1..], keep);
      if !keep(s[0]) && exists i :: 0 <= i < |s| && keep(s[i]) {
        var i :| 0 <= i < |s| && keep(s[i]);
        assert keep(s[1..][i - 1]);
      }
      if |Filter(s[1..], keep)| > 0 {
        var i :| 0 <= i < |s[1..]| && keep(s[1..][i]);
        assert keep(s[i + 1]);
      }
    }
  }
}
