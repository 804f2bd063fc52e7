/** The two pie charts (`gen_pie_data`, app.py:79-88): the net income by
    revenue item and the net expenditure by domain, each cut down to its nine
    largest categories plus one slice `기타` ("other") for the rest. The
    amounts are the proposal column; the source divides them by nothing (the
    assignments at app.py:83 and app.py:88 copy the column onto itself). */
module Pie {
  import opened Sorting
  import opened Records
  import opened Grouping

  /** The label of the slice that collects the small categories. */
  const Other: string := "기타"

  /** Rows before this position keep their label (`iloc[9:, 0]`). */
  const Keep: nat := 9

  /** `t.iloc[from:, 0] = key`: every row from position `from` on gets the key
      `key`; amounts and order stay. */
  function Relabel(gs: seq<Group>, from: nat, key: seq<string>): (r: seq<Group>)
    ensures |r| == |gs|
    ensures forall i :: 0 <= i < |r| ==> r[i].amount == gs[i].amount
    ensures forall i :: 0 <= i < |r| ==> r[i].key == if i < from then gs[i].key else key
  {
    seq(|gs|, i requires 0 <= i < |gs| => if i < from then gs[i] else Group(key, gs[i].amount))
  }

  /** The categories sorted by their sums, largest first. */
  function Ranked(rows: seq<Group>): seq<Group>
  {
    SortDesc(GroupSum(rows), GroupAmount)
  }

  /** The pie of rows that carry their category: group and sum, sort, relabel
      from position 9, group and sum again, sort again. */
  function Bucket(rows: seq<Group>): (r: seq<Group>)
    ensures NonIncreasing(r, GroupAmount)
    ensures DistinctBy(r, GroupKey)
  {
    var r := SortDesc(GroupSum(Relabel(Ranked(rows), Keep, [Other])), GroupAmount);
    KeySortedDistinct(GroupSum(Relabel(Ranked(rows), Keep, [Other])));
    SortDescDistinctBy(GroupSum(Relabel(Ranked(rows), Keep, [Other])), GroupAmount, GroupKey);
    SortDescOrdered(GroupSum(Relabel(Ranked(rows), Keep, [Other])), GroupAmount);
    r
  }

  /** `df_ipie` / `df_opie`: the pie of table `t` by column `c`. */
  function PieData(t: Table, c: Column): (r: seq<Group>)
    ensures NonIncreasing(r, GroupAmount)
    ensures DistinctBy(r, GroupKey)
    ensures |r| <= Keep + 1
  {
    PieSlices(Project(t, [c], Proposal));
    Bucket(Project(t, [c], Proposal))
  }

  /** The reference definition of the pie when there are more than nine
      categories: the nine largest with their sums, and one `기타` row
      carrying the sum of all the others. */
  function TopAndOther(ranked: seq<Group>): seq<Group>
    requires |ranked| > Keep
  {
    ranked[..Keep] + [Group([Other], Total(ranked[Keep..]))]
  }

  lemma RelabelSplit(gs: seq<Group>, from: nat, key: seq<string>)
    requires from <= |gs|
    ensures Relabel(gs, from, key) == gs[..from] + Relabel(gs[from..], 0, key)
  {
  }

  /** A block relabelled to one key: one key, the block's total under it. */
  lemma {:induction false} RelabelAll(gs: seq<Group>, key: seq<string>, l: seq<string>)
    ensures SumOf(Relabel(gs, 0, key), l) == if l == key then Total(gs) else 0
    ensures KeysOf(Relabel(gs, 0, key)) == if gs == [] then {} else {key}
    ensures Total(Relabel(gs, 0, key)) == Total(gs)
  {
    if gs != [] {
      var r := Relabel(gs, 0, key);
      assert r == [Group(key, gs[0].amount)] + Relabel(gs[1..], 0, key);
      RelabelAll(gs[1..], key, l);
      KeysOfCons(r[0], r[1..]);
      TotalCons(r[0], r[1..]);
      assert gs == [gs[0]] + gs[1..];
      TotalCons(gs[0], gs[1..]);
    }
  }

  /** Relabelling changes no amount. */
  lemma RelabelTotal(gs: seq<Group>, from: nat, key: seq<string>)
    ensures Total(Relabel(gs, from, key)) == Total(gs)
  {
    if from <= |gs| {
      RelabelSplit(gs, from, key);
      RelabelAll(gs[from..], key, key);
      TotalAppend(gs[..from], Relabel(gs[from..], 0, key));
      TotalAppend(gs[..from], gs[from..]);
      assert gs == gs[..from] + gs[from..];
    } else {
      assert Relabel(gs, from, key) == gs;
    }
  }

  /** With more than nine categories, the pie is the nine largest plus one
      `기타` row for the rest, grouped again (so a real category named `기타`
      among the nine merges with it) and sorted. */
  lemma PieOverflow(rows: seq<Group>)
    requires |Ranked(rows)| > Keep
    ensures Bucket(rows) == SortDesc(GroupSum(TopAndOther(Ranked(rows))), GroupAmount)
  {
    var s := Ranked(rows);
    var tail := s[Keep..];
    var relabelled := Relabel(s, Keep, [Other]);
    var t := TopAndOther(s);
    RelabelSplit(s, Keep, [Other]);
    KeysOfAppend(s[..Keep], Relabel(tail, 0, [Other]));
    KeysOfAppend(s[..Keep], [Group([Other], Total(tail))]);
    KeysOfCons(Group([Other], Total(tail)), []);
    forall k ensures SumOf(relabelled, k) == SumOf(t, k) {
      RelabelAll(tail, [Other], k);
      SumOfAppend(s[..Keep], Relabel(tail, 0, [Other]), k);
      SumOfAppend(s[..Keep], [Group([Other], Total(tail))], k);
    }
    RelabelAll(tail, [Other], [Other]);
    GroupSumDeterminedBySums(relabelled, t);
  }

  /** The pie has at most ten slices. */
  lemma PieSlices(rows: seq<Group>)
    ensures |Bucket(rows)| <= Keep + 1
  {
    var s := Ranked(rows);
    if |s| > Keep {
      PieOverflow(rows);
    } else {
      assert Relabel(s, Keep, [Other]) == s;
    }
  }

  /** Nothing is lost or counted twice: the slices add up to the input. */
  lemma PieTotal(rows: seq<Group>)
    ensures Total(Bucket(rows)) == Total(rows)
  {
    var s := Ranked(rows);
    var g := GroupSum(Relabel(s, Keep, [Other]));
    SortDescSum(g, GroupAmount, GroupAmount);
    RelabelTotal(s, Keep, [Other]);
    SortDescSum(GroupSum(rows), GroupAmount, GroupAmount);
  }

  /** With at most nine categories the pie is the plain group-by-sum: every
      category keeps its label and its sum. */
  lemma PieFewCategories(rows: seq<Group>)
    requires |KeysOf(rows)| <= Keep
    ensures multiset(Bucket(rows)) == multiset(GroupSum(rows))
    ensures forall g :: g in Bucket(rows) <==> g.key in KeysOf(rows) && g.amount == SumOf(rows, g.key)
  {
    var gs := GroupSum(rows);
    var s := Ranked(rows);
    KeysOfSize(gs);
    assert Relabel(s, Keep, [Other]) == s;
    KeySortedDistinct(gs);
    SortDescDistinctBy(gs, GroupAmount, GroupKey);
    SortDescPermutes(gs, GroupAmount);
    GroupSumOfDistinct(s);
    SortDescPermutes(GroupSum(s), GroupAmount);
    forall g ensures g in Bucket(rows) <==> g.key in KeysOf(rows) && g.amount == SumOf(rows, g.key) {
      assert g in Bucket(rows) <==> g in multiset(gs);
      GroupSumMember(rows, g);
    }
  }

  lemma TopAndOtherDistinct(s: seq<Group>)
    requires |s| > Keep && DistinctBy(s, GroupKey)
    requires [Other] !in KeysOf(s[..Keep])
    ensures DistinctBy(TopAndOther(s), GroupKey)
  {
    var t := TopAndOther(s);
    forall i, j | 0 <= i < j < |t| ensures t[i].key != t[j].key {
      assert t[i] == s[i];
      if j == Keep {
        assert s[i] in s[..Keep];
      } else {
        assert t[j] == s[j];
      }
    }
  }

  /** With more than nine categories and no category called `기타` among the
      nine largest, the pie is exactly those nine with their sums and one
      `기타` slice holding the sum of all the others. */
  lemma PieManyCategories(rows: seq<Group>)
    requires |Ranked(rows)| > Keep
    requires [Other] !in KeysOf(Ranked(rows)[..Keep])
    ensures multiset(Bucket(rows)) == multiset(TopAndOther(Ranked(rows)))
  {
    var s := Ranked(rows);
    PieOverflow(rows);
    KeySortedDistinct(GroupSum(rows));
    SortDescDistinctBy(GroupSum(rows), GroupAmount, GroupKey);
    TopAndOtherDistinct(s);
    GroupSumOfDistinct(TopAndOther(s));
    SortDescPermutes(GroupSum(TopAndOther(s)), GroupAmount);
  }

  /** Ranking a pie's slices again gives the pie back: its slices are
      already grouped, and they are sorted from the same key-sorted table. */
  lemma RankedOfPie(rows: seq<Group>)
    ensures Ranked(Bucket(rows)) == Bucket(rows)
  {
    var p := Bucket(rows);
    var g := GroupSum(Relabel(Ranked(rows), Keep, [Other]));
    GroupSumOfDistinct(p);
    SortDescPermutes(g, GroupAmount);
    forall h ensures h in GroupSum(p) <==> h in g {
      assert h in GroupSum(p) <==> h in multiset(p);
      assert h in p <==> h in multiset(g);
    }
    KeySortedUnique(GroupSum(p), g);
  }

  /** Drawing the pie of a pie gives the same pie when nothing is relabelled
      the second time: it has at most nine slices, or its tenth slice is
      already `기타`. */
  lemma PieRepeat(rows: seq<Group>)
    requires |Bucket(rows)| <= Keep || Bucket(rows)[Keep].key == [Other]
    ensures Bucket(Bucket(rows)) == Bucket(rows)
  {
    var p := Bucket(rows);
    RankedOfPie(rows);
    PieSlices(rows);
    assert Relabel(p, Keep, [Other]) == p;
  }

  /** When the tenth slice of a pie is a real category, drawing the pie again
      merges that category into `기타`: its label is gone from the new pie. */
  lemma PieRepeatMerges(rows: seq<Group>)
    requires |Bucket(rows)| > Keep && Bucket(rows)[Keep].key != [Other]
    ensures Bucket(rows)[Keep].key !in KeysOf(Bucket(Bucket(rows)))
    ensures Bucket(Bucket(rows)) != Bucket(rows)
  {
    var p := Bucket(rows);
    var k := p[Keep].key;
    RankedOfPie(rows);
    var relabelled := Relabel(p, Keep, [Other]);
    RelabelSplit(p, Keep, [Other]);
    RelabelAll(p[Keep..], [Other], [Other]);
    KeysOfAppend(p[..Keep], Relabel(p[Keep..], 0, [Other]));
    assert k !in KeysOf(p[..Keep]) by {
      forall i | 0 <= i < Keep ensures p[..Keep][i].key != k {
        assert p[..Keep][i] == p[i];
      }
    }
    var g := GroupSum(relabelled);
    SortDescPermutes(g, GroupAmount);
    forall h | h in Bucket(p) ensures h.key != k {
      assert h in multiset(g);
      assert h.key in KeysOf(g);
    }
    assert p[Keep] in p;
  }

  /** Every slice is a category of the input or the `기타` slice. */
  lemma PieLabels(rows: seq<Group>)
    ensures forall g :: g in Bucket(rows) ==> g.key in KeysOf(rows) || g.key == [Other]
  {
    var s := Ranked(rows);
    var relabelled := Relabel(s, Keep, [Other]);
    var g := GroupSum(relabelled);
    SortDescPermutes(g, GroupAmount);
    SortDescPermutes(GroupSum(rows), GroupAmount);
    forall h | h in Bucket(rows) ensures h.key in KeysOf(rows) || h.key == [Other] {
      assert h in multiset(g);
      assert h.key in KeysOf(relabelled);
      var i :| 0 <= i < |relabelled| && relabelled[i].key == h.key;
      if i < Keep {
        assert s[i] in multiset(GroupSum(rows));
      }
    }
  }

  /** The pie of a table adds up to the table's proposal total. */
  lemma PieDataTotal(t: Table, c: Column)
    ensures Total(PieData(t, c)) == ColumnTotal(t, Proposal)
  {
    PieTotal(Project(t, [c], Proposal));
    ProjectTotal(t, [c], Proposal);
  }
}
