/** pandas' `df[cols + [a]].groupby(cols, as_index=False).sum()`: one row per
    distinct key, carrying the sum of column `a` over the rows with that key,
    listed in ascending key order. A key is the tuple of the values of the
    group-by columns, so the one-column and two-column group-bys of app.py
    share this definition. */
module Grouping {
  import opened Order
  import opened Sorting
  import opened Records

  /** A row of a grouped table, or of a two-column projection before grouping:
      the values of the key columns and one amount. */
  datatype Group = Group(key: seq<string>, amount: int)

  function GroupAmount(g: Group): int
  {
    g.amount
  }

  function GroupKey(g: Group): seq<string>
  {
    g.key
  }

  /** Sum of the amount column. */
  function Total(gs: seq<Group>): int
  {
    Sum(gs, GroupAmount)
  }

  /** The values of columns `cols` in `row`, as one key. */
  function KeyOf(row: Record, cols: seq<Column>): seq<string>
  {
    seq(|cols|, j requires 0 <= j < |cols| => Label(row, cols[j]))
  }

  /** `df[cols + [a]]`: the key columns and one amount column of each row. */
  function Project(t: Table, cols: seq<Column>, a: AmountColumn): (r: seq<Group>)
    ensures |r| == |t|
  {
    seq(|t|, i requires 0 <= i < |t| => Group(KeyOf(t[i], cols), Amount(t[i], a)))
  }

  /** Sum of the amounts of the rows whose key is `k`. */
  function SumOf(gs: seq<Group>, k: seq<string>): int
  {
    if gs == [] then 0 else (if gs[0].key == k then gs[0].amount else 0) + SumOf(gs[1..], k)
  }

  /** The distinct keys of a table. */
  function KeysOf(gs: seq<Group>): set<seq<string>>
  {
    set g | g in gs :: g.key
  }

  /** Keys strictly ascending, hence pairwise distinct. */
  ghost predicate KeySorted(gs: seq<Group>)
  {
    forall i, j :: 0 <= i < j < |gs| ==> KeyLt(gs[i].key, gs[j].key)
  }

  lemma TotalCons(g: Group, gs: seq<Group>)
    ensures Total([g] + gs) == g.amount + Total(gs)
  {
    assert ([g] + gs)[1..] == gs;
  }

  lemma KeysOfCons(g: Group, gs: seq<Group>)
    ensures KeysOf([g] + gs) == {g.key} + KeysOf(gs)
  {
    assert forall h :: h in [g] + gs <==> h == g || h in gs;
  }

  lemma KeySortedDistinct(gs: seq<Group>)
    requires KeySorted(gs)
    ensures DistinctBy(gs, GroupKey)
  {
    forall i, j | 0 <= i < j < |gs| ensures gs[i].key != gs[j].key {
      if gs[i].key == gs[j].key {
        KeyLtIrreflexive(gs[i].key);
      }
    }
  }

  /** A key below every key of a sorted table can go in front of it. */
  lemma ConsKeySorted(g: Group, gs: seq<Group>)
    requires KeySorted(gs)
    requires forall l :: l in KeysOf(gs) ==> KeyLt(g.key, l)
    ensures KeySorted([g] + gs)
  {
    var r := [g] + gs;
    forall i, j | 0 <= i < j < |r| ensures KeyLt(r[i].key, r[j].key) {
      if i == 0 {
        assert r[j] == gs[j - 1];
      } else {
        assert r[i] == gs[i - 1] && r[j] == gs[j - 1];
      }
    }
  }

  /** The first key of a sorted table is below all the others. */
  lemma HeadKeyLeast(gs: seq<Group>)
    requires KeySorted(gs) && gs != []
    ensures forall l :: l in KeysOf(gs[1..]) ==> KeyLt(gs[0].key, l)
  {
    forall l | l in KeysOf(gs[1..]) ensures KeyLt(gs[0].key, l) {
      var h :| h in gs[1..] && h.key == l;
      var m :| 0 <= m < |gs[1..]| && gs[1..][m] == h;
      assert gs[m + 1] == h;
    }
  }

  /** Adds one row with key `k` and amount `a` to a grouped table: to the
      group with key `k` if there is one, else as a new group in key order. */
  function AddTo(gs: seq<Group>, k: seq<string>, a: int): (r: seq<Group>)
    requires KeySorted(gs)
    ensures KeySorted(r)
    ensures KeysOf(r) == KeysOf(gs) + {k}
  {
    if gs == [] then
      [Group(k, a)]
    else
      assert gs == [gs[0]] + gs[1..];
      KeysOfCons(gs[0], gs[1..]);
      HeadKeyLeast(gs);
      if gs[0].key == k then
        var r := [Group(k, gs[0].amount + a)] + gs[1..];
        KeysOfCons(r[0], gs[1..]);
        ConsKeySorted(r[0], gs[1..]);
        r
      else if KeyLt(k, gs[0].key) then
        var r := [Group(k, a)] + gs;
        KeysOfCons(r[0], gs);
        forall l | l in KeysOf(gs) ensures KeyLt(k, l) {
          if l != gs[0].key {
            KeyLtTransitive(k, gs[0].key, l);
          }
        }
        ConsKeySorted(r[0], gs);
        r
      else
        KeyLtTotal(k, gs[0].key);
        var rest := AddTo(gs[1..], k, a);
        KeysOfCons(gs[0], rest);
        ConsKeySorted(gs[0], rest);
        [gs[0]] + rest
  }

  /** Adding a row adds its amount to its key's sum and nothing to any other
      key's sum. */
  lemma {:induction false} AddToSumOf(gs: seq<Group>, k: seq<string>, a: int, l: seq<string>)
    requires KeySorted(gs)
    ensures SumOf(AddTo(gs, k, a), l) == SumOf(gs, l) + (if l == k then a else 0)
  {
    var r := AddTo(gs, k, a);
    if gs != [] {
      if gs[0].key == k {
        assert r[1..] == gs[1..];
      } else if KeyLt(k, gs[0].key) {
        assert r[1..] == gs;
      } else {
        AddToSumOf(gs[1..], k, a, l);
        assert r[1..] == AddTo(gs[1..], k, a);
      }
    }
  }

  lemma {:induction false} AddToTotal(gs: seq<Group>, k: seq<string>, a: int)
    requires KeySorted(gs)
    ensures Total(AddTo(gs, k, a)) == Total(gs) + a
    ensures |AddTo(gs, k, a)| <= |gs| + 1
  {
    if gs == [] {
      TotalCons(Group(k, a), []);
      assert [Group(k, a)] + [] == AddTo(gs, k, a);
      assert Total(gs) == 0;
    } else {
      assert gs == [gs[0]] + gs[1..];
      TotalCons(gs[0], gs[1..]);
      if gs[0].key == k {
        TotalCons(Group(k, gs[0].amount + a), gs[1..]);
      } else if KeyLt(k, gs[0].key) {
        TotalCons(Group(k, a), gs);
      } else {
        var rest := AddTo(gs[1..], k, a);
        AddToTotal(gs[1..], k, a);
        TotalCons(gs[0], rest);
        assert AddTo(gs, k, a) == [gs[0]] + rest;
      }
    }
  }

  /** A row with a new key becomes a group of its own. */
  lemma {:induction false} AddToNewKey(gs: seq<Group>, k: seq<string>, a: int)
    requires KeySorted(gs)
    requires k !in KeysOf(gs)
    ensures multiset(AddTo(gs, k, a)) == multiset(gs) + multiset{Group(k, a)}
  {
    if gs != [] {
      assert gs == [gs[0]] + gs[1..];
      KeysOfCons(gs[0], gs[1..]);
      if !KeyLt(k, gs[0].key) {
        AddToNewKey(gs[1..], k, a);
      }
    }
  }

  /** `groupby(key).sum()` over rows that already carry their key. */
  function GroupSum(rows: seq<Group>): (r: seq<Group>)
    ensures KeySorted(r)
    ensures KeysOf(r) == KeysOf(rows)
    ensures forall k :: SumOf(r, k) == SumOf(rows, k)
    ensures Total(r) == Total(rows)
    ensures |r| <= |rows|
  {
    if rows == [] then []
    else
      assert rows == [rows[0]] + rows[1..];
      KeysOfCons(rows[0], rows[1..]);
      var g := GroupSum(rows[1..]);
      AddToTotal(g, rows[0].key, rows[0].amount);
      forall k ensures SumOf(AddTo(g, rows[0].key, rows[0].amount), k) == SumOf(rows, k) {
        AddToSumOf(g, rows[0].key, rows[0].amount, k);
      }
      AddTo(g, rows[0].key, rows[0].amount)
  }

  /** In a table with distinct keys, the sum for a key is that row's amount,
      and the sum for an absent key is zero. */
  lemma {:induction false} SumOfDistinct(gs: seq<Group>, k: seq<string>)
    requires DistinctBy(gs, GroupKey)
    ensures k !in KeysOf(gs) ==> SumOf(gs, k) == 0
    ensures forall i :: 0 <= i < |gs| && gs[i].key == k ==> SumOf(gs, k) == gs[i].amount
  {
    if gs != [] {
      assert gs == [gs[0]] + gs[1..];
      KeysOfCons(gs[0], gs[1..]);
      SumOfDistinct(gs[1..], k);
      forall i | 0 < i < |gs| && gs[i].key == k ensures SumOf(gs, k) == gs[i].amount {
        assert gs[1..][i - 1] == gs[i];
        assert gs[0].key != gs[i].key;
      }
      if gs[0].key == k {
        forall h | h in gs[1..] ensures h.key != k {
          var m :| 0 <= m < |gs[1..]| && gs[1..][m] == h;
          assert gs[m + 1] == h;
        }
      }
    }
  }

  /** What `groupby(...).sum()` produces: exactly one row for each key of the
      input, carrying the sum of that key's amounts. */
  lemma GroupSumMember(rows: seq<Group>, g: Group)
    ensures g in GroupSum(rows) <==> g.key in KeysOf(rows) && g.amount == SumOf(rows, g.key)
  {
    var r := GroupSum(rows);
    KeySortedDistinct(r);
    SumOfDistinct(r, g.key);
    if g.key in KeysOf(rows) {
      var i :| 0 <= i < |r| && r[i].key == g.key;
      assert r[i] == Group(g.key, SumOf(rows, g.key));
    }
  }

  /** Every row of a key-sorted table is its first row or has a larger key. */
  lemma KeyLeHead(gs: seq<Group>, g: Group)
    requires KeySorted(gs) && g in gs
    ensures g == gs[0] || KeyLt(gs[0].key, g.key)
  {
    var i :| 0 <= i < |gs| && gs[i] == g;
    if i > 0 {
      assert KeyLt(gs[0].key, gs[i].key);
    }
  }

  /** Two key-sorted tables with the same rows are the same table. */
  lemma {:induction false} KeySortedUnique(a: seq<Group>, b: seq<Group>)
    requires KeySorted(a) && KeySorted(b)
    requires forall g :: g in a <==> g in b
    ensures a == b
  {
    if a == [] {
      NonEmptyHasHead(b);
    } else {
      assert a[0] in b && b[0] in a;
      KeyLeHead(a, b[0]);
      KeyLeHead(b, a[0]);
      KeyLtAsymmetric(a[0].key, b[0].key);
      assert a[0] == b[0];
      forall g ensures g in a[1..] <==> g in b[1..] {
        if g in a[1..] {
          var m :| 0 <= m < |a[1..]| && a[1..][m] == g;
          assert KeyLt(a[0].key, a[m + 1].key);
          KeyLtIrreflexive(g.key);
          assert g in b && g != b[0];
          var n :| 0 <= n < |b| && b[n] == g;
          assert b[1..][n - 1] == g;
        }
        if g in b[1..] {
          var m :| 0 <= m < |b[1..]| && b[1..][m] == g;
          assert KeyLt(b[0].key, b[m + 1].key);
          KeyLtIrreflexive(g.key);
          assert g in a && g != a[0];
          var n :| 0 <= n < |a| && a[n] == g;
          assert a[1..][n - 1] == g;
        }
      }
      KeySortedUnique(a[1..], b[1..]);
      assert a == [a[0]] + a[1..] && b == [b[0]] + b[1..];
    }
  }

  /** Group-by-sum depends only on the keys and the per-key sums of its input,
      not on the order or the split of its rows. */
  lemma GroupSumDeterminedBySums(a: seq<Group>, b: seq<Group>)
    requires KeysOf(a) == KeysOf(b)
    requires forall k :: SumOf(a, k) == SumOf(b, k)
    ensures GroupSum(a) == GroupSum(b)
  {
    forall g ensures g in GroupSum(a) <==> g in GroupSum(b) {
      GroupSumMember(a, g);
      GroupSumMember(b, g);
    }
    KeySortedUnique(GroupSum(a), GroupSum(b));
  }

  /** Grouping a table whose keys are already distinct only reorders it. */
  lemma DistinctTail(rows: seq<Group>)
    requires DistinctBy(rows, GroupKey) && rows != []
    ensures DistinctBy(rows[1..], GroupKey)
    ensures rows[0].key !in KeysOf(rows[1..])
  {
    forall h | h in rows[1..] ensures h.key != rows[0].key {
      var m :| 0 <= m < |rows[1..]| && rows[1..][m] == h;
      assert rows[m + 1] == h;
    }
    forall i, j | 0 <= i < j < |rows[1..]| ensures rows[1..][i].key != rows[1..][j].key {
      assert rows[1..][i] == rows[i + 1] && rows[1..][j] == rows[j + 1];
    }
  }

  lemma {:induction false} GroupSumOfDistinct(rows: seq<Group>)
    requires DistinctBy(rows, GroupKey)
    ensures multiset(GroupSum(rows)) == multiset(rows)
  {
    if rows != [] {
      DistinctTail(rows);
      GroupSumOfDistinct(rows[1..]);
      var g := GroupSum(rows[1..]);
      AddToNewKey(g, rows[0].key, rows[0].amount);
      assert GroupSum(rows) == AddTo(g, rows[0].key, rows[0].amount);
      assert rows == [rows[0]] + rows[1..];
    }
  }

  /** Grouping a grouped table gives it back unchanged. */
  lemma GroupSumIdempotent(rows: seq<Group>)
    ensures GroupSum(GroupSum(rows)) == GroupSum(rows)
  {
    var g := GroupSum(rows);
    KeySortedDistinct(g);
    GroupSumOfDistinct(g);
    forall h ensures h in GroupSum(g) <==> h in g {
      assert h in GroupSum(g) <==> h in multiset(GroupSum(g));
    }
    KeySortedUnique(GroupSum(g), g);
  }

  lemma {:induction false} ProjectTotal(t: Table, cols: seq<Column>, a: AmountColumn)
    ensures Total(Project(t, cols, a)) == ColumnTotal(t, a)
  {
    if t != [] {
      assert Project(t, cols, a)[1..] == Project(t[1..], cols, a);
      ProjectTotal(t[1..], cols, a);
    }
  }

  /** The keys of a projection are the key values of the rows. */
  lemma ProjectKeys(t: Table, cols: seq<Column>, a: AmountColumn)
    ensures KeysOf(Project(t, cols, a)) == set row | row in t :: KeyOf(row, cols)
  {
    var p := Project(t, cols, a);
    forall k | k in KeysOf(p) ensures k in set row | row in t :: KeyOf(row, cols) {
      var i :| 0 <= i < |p| && p[i].key == k;
      assert t[i] in t;
    }
    forall k | k in set row | row in t :: KeyOf(row, cols) ensures k in KeysOf(p) {
      var row :| row in t && KeyOf(row, cols) == k;
      var i :| 0 <= i < |t| && t[i] == row;
      assert p[i] in p;
    }
  }

  /** The one-column sum for key `[name]` is the column total over the rows
      whose column `c` equals `name`. */
  lemma {:induction false} SumOfProjectWhere(t: Table, c: Column, name: string, a: AmountColumn)
    ensures SumOf(Project(t, [c], a), [name]) == ColumnTotal(Where(t, c, name), a)
  {
    if t != [] {
      var p := Project(t, [c], a);
      assert p[1..] == Project(t[1..], [c], a);
      assert KeyOf(t[0], [c]) == [Label(t[0], c)];
      SumOfProjectWhere(t[1..], c, name, a);
    }
  }

  lemma {:induction false} SumOfAppend(a: seq<Group>, b: seq<Group>, k: seq<string>)
    ensures SumOf(a + b, k) == SumOf(a, k) + SumOf(b, k)
  {
    if a == [] {
      assert a + b == b;
    } else {
      assert (a + b)[1..] == a[1..] + b;
      SumOfAppend(a[1..], b, k);
    }
  }

  lemma KeysOfAppend(a: seq<Group>, b: seq<Group>)
    ensures KeysOf(a + b) == KeysOf(a) + KeysOf(b)
  {
    assert forall g :: g in a + b <==> g in a || g in b;
  }

  lemma TotalAppend(a: seq<Group>, b: seq<Group>)
    ensures Total(a + b) == Total(a) + Total(b)
  {
    SumAppend(a, b, GroupAmount);
  }

  /** A table has at most as many distinct keys as rows, and exactly as many
      when its keys are sorted. */
  lemma {:induction false} KeysOfSize(gs: seq<Group>)
    ensures |KeysOf(gs)| <= |gs|
    ensures KeySorted(gs) ==> |KeysOf(gs)| == |gs|
  {
    if gs != [] {
      assert gs == [gs[0]] + gs[1..];
      KeysOfCons(gs[0], gs[1..]);
      KeysOfSize(gs[1..]);
      if KeySorted(gs) {
        HeadKeyLeast(gs);
        KeyLtIrreflexive(gs[0].key);
        assert gs[0].key !in KeysOf(gs[1..]);
      }
    }
  }
}
