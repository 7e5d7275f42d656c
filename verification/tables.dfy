/**
 * Generic helpers over rows held in sequences: the `filter` and `find` of
 * JavaScript arrays, which are also what a SQL `WHERE` does to a table.
 */
module Tables {

  datatype Option<+T> = None | Some(value: T)

  function Min(a: int, b: int): int { if a <= b then a else b }

  function Max(a: int, b: int): int { if a >= b then a else b }

  /** The rows of `s` that satisfy `keep`, in their original order. */
  function Filter<T(!new)>(s: seq<T>, keep: T -> bool): (r: seq<T>)
    ensures |r| <= |s|
    ensures forall x :: x in r <==> x in s && keep(x)
  {
    if s == [] then []
    else
      assert s == [s[0]] + s[1..];
      var rest := Filter(s[1..], keep);
      if keep(s[0]) then [s[0]] + rest else rest
  }

  /** Filtering keeps every kept row as often as it occurred, and drops every other row entirely. */
  lemma {:induction false} FilterMultiset<T(!new)>(s: seq<T>, keep: T -> bool)
    ensures forall x :: multiset(Filter(s, keep))[x] == if keep(x) then multiset(s)[x] else 0
  {
    if s != [] {
      FilterMultiset(s[1..], keep);
      assert s == [s[0]] + s[1..];
      assert multiset(s) == multiset{s[0]} + multiset(s[1..]);
    }
  }

  /** Filtering distributes over concatenation. */
  lemma {:induction false} FilterAppend<T(!new)>(a: seq<T>, b: seq<T>, keep: T -> bool)
    ensures Filter(a + b, keep) == Filter(a, keep) + Filter(b, keep)
  {
    if a == [] {
      assert a + b == b;
    } else {
      assert (a + b)[0] == a[0] && (a + b)[1..] == a[1..] + b;
      FilterAppend(a[1..], b, keep);
      if keep(a[0]) {
        assert Filter(a + b, keep) == [a[0]] + (Filter(a[1..], keep) + Filter(b, keep));
      }
    }
  }

  /** Overwriting a row that is filtered out, with another row that is filtered out, does not change the filter. */
  lemma {:induction false} FilterUpdateHidden<T(!new)>(s: seq<T>, keep: T -> bool, i: nat, v: T)
    requires i < |s| && !keep(s[i]) && !keep(v)
    ensures Filter(s[i := v], keep) == Filter(s, keep)
  {
    if i > 0 {
      assert s[i := v][1..] == s[1..][i - 1 := v];
      FilterUpdateHidden(s[1..], keep, i - 1, v);
    }
  }

  /** SQL `UPDATE ... SET ... WHERE p`: every row satisfying `p` is replaced by `change` of it, in place. */
  function UpdateWhere<T>(s: seq<T>, p: T -> bool, change: T -> T): (r: seq<T>)
    ensures |r| == |s|
    ensures forall i :: 0 <= i < |s| && !p(s[i]) ==> r[i] == s[i]
    ensures forall i :: 0 <= i < |s| && p(s[i]) ==> r[i] == change(s[i])
  {
    seq(|s|, i requires 0 <= i < |s| => if p(s[i]) then change(s[i]) else s[i])
  }

  /** The index of the first row satisfying `p` (the `find` of JavaScript arrays), if there is one. */
  function FindFirst<T>(s: seq<T>, p: T -> bool): (r: Option<nat>)
    ensures r.Some? ==> r.value < |s| && p(s[r.value])
    ensures r.Some? ==> forall j :: 0 <= j < r.value ==> !p(s[j])
    ensures r.None? <==> forall j :: 0 <= j < |s| ==> !p(s[j])
  {
    if s == [] then None
    else if p(s[0]) then Some(0)
    else
      match FindFirst(s[1..], p)
      case None => None
      case Some(j) => Some(j + 1)
  }

  /** No two rows of `s` share a key. */
  ghost predicate DistinctBy<T, K>(s: seq<T>, key: T -> K) {
    forall i, j :: 0 <= i < j < |s| ==> key(s[i]) != key(s[j])
  }

  /** Every row of `s` has a key below `bound` (the next value of a serial sequence). */
  ghost predicate AllBelow<T>(s: seq<T>, key: T -> int, bound: int) {
    forall x :: x in s ==> key(x) < bound
  }

  /** Removing rows never creates a clash of keys. */
  lemma {:induction false} FilterDistinct<T(!new), K>(s: seq<T>, keep: T -> bool, key: T -> K)
    requires DistinctBy(s, key)
    ensures DistinctBy(Filter(s, keep), key)
  {
    if s != [] {
      FilterDistinct(s[1..], keep, key);
      var rest := Filter(s[1..], keep);
      if keep(s[0]) {
        forall y | y in rest ensures key(y) != key(s[0]) {
          assert y in s[1..];
          var j :| 0 <= j < |s[1..]| && s[1..][j] == y;
          assert s[j + 1] == y;
        }
        var r := [s[0]] + rest;
        forall i, j | 0 <= i < j < |r| ensures key(r[i]) != key(r[j]) {
          if i == 0 {
            assert r[j] == rest[j - 1];
            assert r[j] in rest;
          } else {
            assert r[i] == rest[i - 1] && r[j] == rest[j - 1];
          }
        }
      }
    }
  }

  /** Every value occurs at most once in `s`. */
  ghost predicate NoDuplicates<T(!new)>(s: seq<T>) {
    forall x :: multiset(s)[x] <= 1
  }

  /** Appending a value that is not yet present keeps a sequence free of duplicates. */
  lemma AppendFreshNoDuplicates<T(!new)>(s: seq<T>, x: T)
    requires x !in s
    ensures NoDuplicates(s) ==> NoDuplicates(s + [x])
  {
    assert multiset(s + [x]) == multiset(s) + multiset{x};
  }

  /** A sequence without duplicates whose values all lie in `bound` is no longer than `bound` is large. */
  lemma {:induction false} NoDuplicatesWithin<T(!new)>(s: seq<T>, bound: set<T>)
    requires NoDuplicates(s)
    requires forall x :: x in s ==> x in bound
    ensures |s| <= |bound|
  {
    if s != [] {
      assert s == [s[0]] + s[1..];
      assert multiset(s) == multiset{s[0]} + multiset(s[1..]);
      forall x ensures multiset(s[1..])[x] <= 1 {
        assert multiset(s)[x] == multiset{s[0]}[x] + multiset(s[1..])[x];
      }
      assert multiset(s)[s[0]] == 1 + multiset(s[1..])[s[0]];
      NoDuplicatesWithin(s[1..], bound - {s[0]});
    }
  }
}
