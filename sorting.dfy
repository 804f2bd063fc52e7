/** `sort_values(..., ascending=False)`: a descending sort on one numeric key.
    pandas' default sort is not stable, so the source promises no order among
    equal keys; the model sorts stably (an insertion sort), which is one of the
    orders the source may produce, and its lemmas use nothing about ties. */
module Sorting {

  /** Sum of `f` over a sequence (pandas' `sum()` of one column). */
  function Sum<T>(s: seq<T>, f: T -> int): int
  {
    if s == [] then 0 else f(s[0]) + Sum(s[1..], f)
  }

  lemma {:induction false} SumAppend<T>(s: seq<T>, t: seq<T>, f: T -> int)
    ensures Sum(s + t, f) == Sum(s, f) + Sum(t, f)
  {
    if s == [] {
      assert s + t == t;
    } else {
      assert (s + t)[1..] == s[1..] + t;
      SumAppend(s[1..], t, f);
    }
  }

  /** A non-empty sequence holds its first element. */
  lemma NonEmptyHasHead<T>(s: seq<T>)
    ensures s == [] || s[0] in s
  {
  }

  /** Taking out position `i` takes out its term. */
  lemma SumRemove<T>(t: seq<T>, i: nat, f: T -> int)
    requires i < |t|
    ensures Sum(t, f) == f(t[i]) + Sum(t[..i] + t[i + 1..], f)
  {
    var front, x, back := t[..i], t[i], t[i + 1..];
    assert t == front + [x] + back;
    SumAppend(front + [x], back, f);
    SumAppend(front, [x], f);
    SumAppend(front, back, f);
    assert Sum([x], f) == f(x) by {
      assert [x][1..] == [];
    }
  }

  /** Taking out position `i` takes one copy of its element out of the
      multiset. */
  lemma MultisetRemove<T>(t: seq<T>, i: nat)
    requires i < |t|
    ensures multiset(t[..i] + t[i + 1..]) == multiset(t) - multiset{t[i]}
  {
    assert t == t[..i] + [t[i]] + t[i + 1..];
  }

  /** Two sequences with the same elements, less the first of one and a
      matching position of the other, still have the same elements. */
  lemma PermutationTail<T>(s: seq<T>, t: seq<T>, i: nat)
    requires multiset(s) == multiset(t) && s != [] && i < |t| && t[i] == s[0]
    ensures multiset(s[1..]) == multiset(t[..i] + t[i + 1..])
  {
    MultisetRemove(t, i);
    MultisetRemove(s, 0);
    assert s[..0] + s[1..] == s[1..];
  }

  /** A sum does not depend on the order of its terms. */
  lemma {:induction false} SumPermutation<T>(s: seq<T>, t: seq<T>, f: T -> int)
    requires multiset(s) == multiset(t)
    ensures Sum(s, f) == Sum(t, f)
    decreases |s|
  {
    if s == [] {
      assert |t| == |multiset(t)|;
    } else {
      assert s[0] in multiset(t);
      var i :| 0 <= i < |t| && t[i] == s[0];
      PermutationTail(s, t, i);
      SumPermutation(s[1..], t[..i] + t[i + 1..], f);
      SumRemove(t, i, f);
    }
  }

  /** Non-increasing in `key` from front to back. */
  ghost predicate NonIncreasing<T>(s: seq<T>, key: T -> int)
  {
    forall i, j :: 0 <= i < j < |s| ==> key(s[i]) >= key(s[j])
  }

  /** Inserts `x` in front of the first element whose key is not larger. */
  function InsertDesc<T>(x: T, s: seq<T>, key: T -> int): (r: seq<T>)
    ensures |r| == |s| + 1
  {
    if s == [] || key(x) >= key(s[0]) then
      [x] + s
    else
      [s[0]] + InsertDesc(x, s[1..], key)
  }

  /** Inserting adds `x` and keeps every other element. */
  lemma {:induction false} InsertDescPermutes<T>(x: T, s: seq<T>, key: T -> int)
    ensures multiset(InsertDesc(x, s, key)) == multiset(s) + multiset{x}
  {
    if s != [] && key(x) < key(s[0]) {
      InsertDescPermutes(x, s[1..], key);
      assert s == [s[0]] + s[1..];
    }
  }

  /** The elements after inserting are `x` and the elements before. */
  lemma InsertDescMembers<T>(x: T, s: seq<T>, key: T -> int)
    ensures forall y :: y in InsertDesc(x, s, key) <==> y == x || y in s
  {
    InsertDescPermutes(x, s, key);
    forall y ensures y in InsertDesc(x, s, key) <==> y == x || y in s {
      assert y in InsertDesc(x, s, key) <==> y in multiset(InsertDesc(x, s, key));
      assert y in s <==> y in multiset(s);
    }
  }

  lemma InsertDescMember<T>(x: T, s: seq<T>, key: T -> int, y: T)
    requires y in InsertDesc(x, s, key) && y != x
    ensures y in s
  {
    InsertDescMembers(x, s, key);
  }

  /** Inserting into an ordered sequence keeps it ordered. */
  lemma {:induction false} InsertDescOrdered<T>(x: T, s: seq<T>, key: T -> int)
    requires NonIncreasing(s, key)
    ensures NonIncreasing(InsertDesc(x, s, key), key)
  {
    if s != [] && key(x) < key(s[0]) {
      InsertDescOrdered(x, s[1..], key);
      var rest := InsertDesc(x, s[1..], key);
      var r := [s[0]] + rest;
      forall i, j | 0 <= i < j < |r| ensures key(r[i]) >= key(r[j]) {
        if i == 0 {
          assert r[j] == rest[j - 1];
          if r[j] != x {
            InsertDescMember(x, s[1..], key, r[j]);
            var m :| 0 <= m < |s[1..]| && s[1..][m] == r[j];
            assert s[m + 1] == r[j];
          }
        } else {
          assert r[i] == rest[i - 1] && r[j] == rest[j - 1];
        }
      }
    }
  }

  /** The rows of `s` reordered by `key`; `SortDescPermutes` and
      `SortDescOrdered` state what the reordering is. */
  function SortDesc<T>(s: seq<T>, key: T -> int): (r: seq<T>)
    ensures |r| == |s|
  {
    if s == [] then []
    else InsertDesc(s[0], SortDesc(s[1..], key), key)
  }

  /** Sorting keeps every row as often as it occurs. */
  lemma {:induction false} SortDescPermutes<T>(s: seq<T>, key: T -> int)
    ensures multiset(SortDesc(s, key)) == multiset(s)
  {
    if s != [] {
      SortDescPermutes(s[1..], key);
      InsertDescPermutes(s[0], SortDesc(s[1..], key), key);
      assert s == [s[0]] + s[1..];
    }
  }

  /** Sorting leaves the rows in non-increasing order of `key`. */
  lemma {:induction false} SortDescOrdered<T>(s: seq<T>, key: T -> int)
    ensures NonIncreasing(SortDesc(s, key), key)
  {
    if s != [] {
      SortDescOrdered(s[1..], key);
      InsertDescOrdered(s[0], SortDesc(s[1..], key), key);
    }
  }

  /** Two orderings of the same rows, both non-increasing in `key`, agree on
      the key at every position, whatever order they give equal keys. */
  lemma {:induction false} SortedKeysAgree<T>(a: seq<T>, b: seq<T>, key: T -> int)
    requires NonIncreasing(a, key) && NonIncreasing(b, key)
    requires multiset(a) == multiset(b)
    ensures |a| == |b|
    ensures forall i :: 0 <= i < |a| ==> key(a[i]) == key(b[i])
    decreases |a|
  {
    assert |a| == |multiset(a)| == |multiset(b)| == |b|;
    if a != [] {
      assert a[0] in multiset(b);
      var m :| 0 <= m < |b| && b[m] == a[0];
      assert b[0] in multiset(a);
      var n :| 0 <= n < |a| && a[n] == b[0];
      assert key(a[0]) == key(b[0]);
      var rest := b[..m] + b[m + 1..];
      PermutationTail(a, b, m);
      NonIncreasingRemove(b, m, key);
      SortedKeysAgree(a[1..], rest, key);
      forall i | 0 < i < |a| ensures key(a[i]) == key(b[i]) {
        assert a[i] == a[1..][i - 1];
        if i <= m {
          assert rest[i - 1] == b[i - 1];
        } else {
          assert rest[i - 1] == b[i];
        }
      }
    }
  }

  /** Taking one position out of a non-increasing sequence keeps it
      non-increasing. */
  lemma NonIncreasingRemove<T>(b: seq<T>, m: nat, key: T -> int)
    requires NonIncreasing(b, key) && m < |b|
    ensures NonIncreasing(b[..m] + b[m + 1..], key)
  {
    var rest := b[..m] + b[m + 1..];
    forall i, j | 0 <= i < j < |rest| ensures key(rest[i]) >= key(rest[j]) {
      var i' := if i < m then i else i + 1;
      var j' := if j < m then j else j + 1;
      assert rest[i] == b[i'] && rest[j] == b[j'];
    }
  }

  /** Sorting a sequence that is already in order leaves its keys where they
      are: only rows with equal keys may change places. */
  lemma SortDescKeysOfSorted<T>(s: seq<T>, key: T -> int)
    requires NonIncreasing(s, key)
    ensures forall i :: 0 <= i < |s| ==> key(SortDesc(s, key)[i]) == key(s[i])
  {
    SortDescPermutes(s, key);
    SortDescOrdered(s, key);
    SortedKeysAgree(SortDesc(s, key), s, key);
  }

  lemma {:induction false} InsertDescSum<T>(x: T, s: seq<T>, key: T -> int, f: T -> int)
    ensures Sum(InsertDesc(x, s, key), f) == f(x) + Sum(s, f)
  {
    if s != [] && key(x) < key(s[0]) {
      InsertDescSum(x, s[1..], key, f);
      assert ([s[0]] + InsertDesc(x, s[1..], key))[1..] == InsertDesc(x, s[1..], key);
    }
  }

  /** Sorting keeps the sum of every column, not only of the sort key. */
  lemma {:induction false} SortDescSum<T>(s: seq<T>, key: T -> int, f: T -> int)
    ensures Sum(SortDesc(s, key), f) == Sum(s, f)
  {
    if s != [] {
      SortDescSum(s[1..], key, f);
      InsertDescSum(s[0], SortDesc(s[1..], key), key, f);
    }
  }

  /** No two positions of `s` agree on `f`. */
  ghost predicate DistinctBy<T, U>(s: seq<T>, f: T -> U)
  {
    forall i, j :: 0 <= i < j < |s| ==> f(s[i]) != f(s[j])
  }

  lemma {:induction false} InsertDescDistinctBy<T, U>(x: T, s: seq<T>, key: T -> int, f: T -> U)
    requires DistinctBy(s, f)
    requires forall y :: y in s ==> f(y) != f(x)
    ensures DistinctBy(InsertDesc(x, s, key), f)
  {
    if s != [] && key(x) < key(s[0]) {
      var tail := s[1..];
      assert forall y :: y in tail ==> y in s;
      InsertDescDistinctBy(x, tail, key, f);
      var rest := InsertDesc(x, tail, key);
      var r := [s[0]] + rest;
      forall i, j | 0 <= i < j < |r| ensures f(r[i]) != f(r[j]) {
        if i == 0 {
          assert r[j] == rest[j - 1];
          if r[j] != x {
            InsertDescMember(x, tail, key, r[j]);
            var m :| 0 <= m < |tail| && tail[m] == r[j];
            assert s[m + 1] == r[j];
          }
        } else {
          assert r[i] == rest[i - 1] && r[j] == rest[j - 1];
        }
      }
    }
  }

  /** Sorting keeps a sequence free of two elements that agree on `f`. */
  lemma {:induction false} SortDescDistinctBy<T, U>(s: seq<T>, key: T -> int, f: T -> U)
    requires DistinctBy(s, f)
    ensures DistinctBy(SortDesc(s, key), f)
  {
    if s != [] {
      SortDescDistinctBy(s[1..], key, f);
      SortDescPermutes(s[1..], key);
      var sorted := SortDesc(s[1..], key);
      forall y | y in sorted ensures f(y) != f(s[0]) {
        assert y in multiset(s[1..]);
        var m :| 1 <= m < |s| && s[m] == y;
      }
      InsertDescDistinctBy(s[0], sorted, key, f);
    }
  }
}
