/** The Sankey diagram (`gen_sankey_data`, app.py:90-149): the six edge groups
    are laid end to end; the node list is the eight label columns with
    duplicates dropped; every edge endpoint becomes the index of its label in
    the node list; the values are the edge amounts and the colours those of
    each group's highlighting. */
module Sankey {
  import opened Outcome
  import opened Records
  import opened Palette
  import opened EdgeGroups
  import opened Highlighting

  /** Position of the first `x` in `s` (`node[node == x].index.values[0]`). */
  function FirstIndex(s: seq<string>, x: string): (r: nat)
    requires x in s
    ensures r < |s| && s[r] == x
    ensures forall j :: 0 <= j < r ==> s[j] != x
  {
    if s[0] == x then 0 else 1 + FirstIndex(s[1..], x)
  }

  lemma {:induction false} FirstIndexPrefix(s: seq<string>, t: seq<string>, x: string)
    requires x in s
    ensures FirstIndex(s + t, x) == FirstIndex(s, x)
  {
    if s[0] != x {
      assert (s + t)[1..] == s[1..] + t;
      FirstIndexPrefix(s[1..], t, x);
    }
  }

  /** `drop_duplicates()`: each label once, at the place it first occurs. */
  function Dedup(s: seq<string>): (r: seq<string>)
    ensures forall x :: x in r <==> x in s
    ensures forall i, j :: 0 <= i < j < |r| ==> r[i] != r[j]
    ensures forall i, j :: 0 <= i < j < |r| ==> FirstIndex(s, r[i]) < FirstIndex(s, r[j])
  {
    if s == [] then []
    else
      var init := s[..|s| - 1];
      var x := s[|s| - 1];
      var d := Dedup(init);
      assert s == init + [x];
      forall y | y in init ensures FirstIndex(s, y) == FirstIndex(init, y) {
        FirstIndexPrefix(init, [x], y);
      }
      if x in d then d
      else
        assert FirstIndex(s, x) == |s| - 1;
        d + [x]
  }

  function Sources(es: seq<Edge>): (r: seq<string>)
    ensures |r| == |es|
    ensures forall i :: 0 <= i < |es| ==> r[i] == es[i].src
  {
    seq(|es|, i requires 0 <= i < |es| => es[i].src)
  }

  function Targets(es: seq<Edge>): (r: seq<string>)
    ensures |r| == |es|
    ensures forall i :: 0 <= i < |es| ==> r[i] == es[i].dst
  {
    seq(|es|, i requires 0 <= i < |es| => es[i].dst)
  }

  function Amounts(es: seq<Edge>): (r: seq<int>)
    ensures |r| == |es|
    ensures forall i :: 0 <= i < |es| ==> r[i] == es[i].amount
  {
    seq(|es|, i requires 0 <= i < |es| => es[i].amount)
  }

  /** `pd.concat` of several columns. */
  function Flatten<T>(xs: seq<seq<T>>): seq<T>
  {
    if xs == [] then [] else xs[0] + Flatten(xs[1..])
  }

  /** Where part `k` starts in the concatenation. */
  function Offset<T>(xs: seq<seq<T>>, k: nat): nat
    requires k <= |xs|
  {
    if k == 0 then 0 else |xs[0]| + Offset(xs[1..], k - 1)
  }

  /** Position `i` of part `k` is position `Offset(xs, k) + i` of the whole. */
  lemma {:induction false} FlattenIndex<T>(xs: seq<seq<T>>, k: nat, i: nat)
    requires k < |xs| && i < |xs[k]|
    ensures Offset(xs, k) + i < |Flatten(xs)|
    ensures Flatten(xs)[Offset(xs, k) + i] == xs[k][i]
  {
    if k > 0 {
      FlattenIndex(xs[1..], k - 1, i);
    }
  }

  /** Every position of the whole lies in exactly one part. */
  lemma {:induction false} FlattenLength<T>(xs: seq<seq<T>>)
    ensures |Flatten(xs)| == Offset(xs, |xs|)
  {
    if xs != [] {
      FlattenLength(xs[1..]);
    }
  }

  /** The six edge groups: three hops over the income scope, three over the
      expenditure scope. */
  function Flows(iscope: Table, oscope: Table): (f: seq<seq<Edge>>)
    ensures |f| == 6
  {
    seq(6, k requires 0 <= k < 6 =>
      if k < 3 then Flow(iscope, IncomeHops[k]) else Flow(oscope, ExpenditureHops[k - 3]))
  }

  /** The eight label columns of app.py:128-129, in that order: the source
      column of the first hop of each chain and the target column of every
      hop. */
  function NodeColumns(f: seq<seq<Edge>>): (r: seq<string>)
    requires |f| == 6
    ensures forall k, x :: 0 <= k < 6 && x in Targets(f[k]) ==> x in r
    ensures forall x :: x in Sources(f[0]) ==> x in r
    ensures forall x :: x in Sources(f[3]) ==> x in r
  {
    Sources(f[0]) + Targets(f[0]) + Targets(f[1]) + Targets(f[2])
      + Sources(f[3]) + Targets(f[3]) + Targets(f[4]) + Targets(f[5])
  }

  /** The highlighted palette: `line_color` as opaque colours. */
  function LinePalette(): (r: seq<Color>)
    ensures |r| == TopN
  {
    var c := LineColor();
    seq(TopN, i requires 0 <= i < TopN => Opaque(c[i]))
  }

  /** The colour column of one edge group, when it has `top_n` edges. */
  function Painting(es: seq<Edge>): (r: seq<Color>)
    requires |es| >= TopN
    ensures |r| == |es|
  {
    Highlight(Amounts(es), LinePalette(), LineColorDefault).value
  }

  /** The node labels and, per edge, the source and target node indices, the
      value and the colour. */
  datatype Diagram = Diagram(node: seq<string>, source: seq<nat>, target: seq<nat>, value: seq<int>, color: seq<Color>)

  /** Every group has at least `top_n` edges, so highlighting succeeds. */
  predicate AllHighlightable(f: seq<seq<Edge>>)
  {
    forall k :: 0 <= k < |f| ==> |f[k]| >= TopN
  }

  /** The labels joined by hop `h2` on its source side are labels that hop
      `h1` reaches on its target side, when `h2` starts where `h1` ends. */
  lemma ChainLink(rows: Table, h1: Hop, h2: Hop, e: Edge)
    requires h2.from == h1.to && h2.fromPad == h1.toPad
    requires e in Flow(rows, h2)
    ensures e.src in Targets(Flow(rows, h1))
  {
    FlowFromRows(rows, h2, e);
    var row :| row in rows && JoinsRow(e, row, h2);
    FlowCoversRows(rows, h1, row);
    var e1 :| e1 in Flow(rows, h1) && JoinsRow(e1, row, h1);
    var i :| 0 <= i < |Flow(rows, h1)| && Flow(rows, h1)[i] == e1;
    assert Targets(Flow(rows, h1))[i] == e.src;
  }

  lemma InSources(es: seq<Edge>, e: Edge)
    requires e in es
    ensures e.src in Sources(es)
  {
    var i :| 0 <= i < |es| && es[i] == e;
    assert Sources(es)[i] == e.src;
  }

  lemma InTargets(es: seq<Edge>, e: Edge)
    requires e in es
    ensures e.dst in Targets(es)
  {
    var i :| 0 <= i < |es| && es[i] == e;
    assert Targets(es)[i] == e.dst;
  }

  /** Both endpoints of an edge of group `k` are node labels: the first hop
      of each chain brings its own source column, and every later hop starts
      where the one before it ends. */
  lemma GroupEndpoints(iscope: Table, oscope: Table, k: nat, e: Edge)
    requires k < 6 && e in Flows(iscope, oscope)[k]
    ensures e.src in NodeColumns(Flows(iscope, oscope)) && e.dst in NodeColumns(Flows(iscope, oscope))
  {
    var f := Flows(iscope, oscope);
    InTargets(f[k], e);
    if k == 0 {
      InSources(f[0], e);
    } else if k == 1 {
      ChainLink(iscope, IncomeHops[0], IncomeHops[1], e);
    } else if k == 2 {
      ChainLink(iscope, IncomeHops[1], IncomeHops[2], e);
    } else if k == 3 {
      InSources(f[3], e);
    } else if k == 4 {
      ChainLink(oscope, ExpenditureHops[0], ExpenditureHops[1], e);
    } else {
      ChainLink(oscope, ExpenditureHops[1], ExpenditureHops[2], e);
    }
  }

  /** Every endpoint of every edge is one of the node labels. */
  lemma EndpointsAreNodes(iscope: Table, oscope: Table)
    ensures Closed(Flows(iscope, oscope))
  {
    var f := Flows(iscope, oscope);
    forall e: Edge | e in Flatten(f) ensures e.src in NodeColumns(f) && e.dst in NodeColumns(f) {
      var n :| 0 <= n < |Flatten(f)| && Flatten(f)[n] == e;
      var k, i := PartOf(f, n);
      assert e == f[k][i];
      GroupEndpoints(iscope, oscope, k, e);
    }
  }

  /** The part and the position inside it of position `n` of the whole. */
  lemma {:induction false} PartOf<T>(xs: seq<seq<T>>, n: nat) returns (k: nat, i: nat)
    requires n < |Flatten(xs)|
    ensures k < |xs| && i < |xs[k]| && Offset(xs, k) + i == n
    ensures Flatten(xs)[n] == xs[k][i]
  {
    if n < |xs[0]| {
      k, i := 0, n;
    } else {
      var k', i' := PartOf(xs[1..], n - |xs[0]|);
      k, i := k' + 1, i';
    }
    FlattenIndex(xs, k, i);
  }

  /** Every endpoint of every edge is one of the node labels. */
  ghost predicate Closed(f: seq<seq<Edge>>)
    requires |f| == 6
  {
    forall e :: e in Flatten(f) ==> e.src in NodeColumns(f) && e.dst in NodeColumns(f)
  }

  /** app.py:128-149 on six edge groups whose endpoints are all node labels. */
  function Assemble(f: seq<seq<Edge>>): (d: Diagram)
    requires |f| == 6 && AllHighlightable(f) && Closed(f)
    ensures forall x :: x in d.node <==> x in NodeColumns(f)
    ensures forall i, j :: 0 <= i < j < |d.node| ==> d.node[i] != d.node[j]
    ensures forall i, j :: 0 <= i < j < |d.node| ==> FirstIndex(NodeColumns(f), d.node[i]) < FirstIndex(NodeColumns(f), d.node[j])
    ensures |d.source| == |d.target| == |d.value| == |d.color| == |Flatten(f)|
    ensures forall i :: 0 <= i < |Flatten(f)| ==> d.source[i] < |d.node| && d.node[d.source[i]] == Flatten(f)[i].src
    ensures forall i :: 0 <= i < |Flatten(f)| ==> d.target[i] < |d.node| && d.node[d.target[i]] == Flatten(f)[i].dst
    ensures forall i :: 0 <= i < |Flatten(f)| ==> d.value[i] == Flatten(f)[i].amount
  {
    Layout(Flatten(f), NodeColumns(f), Colors(f))
  }

  /** The diagram of `edges` over the label columns `cols`: the deduplicated
      labels, and per edge the node indices of its endpoints, its amount and
      its colour. */
  function Layout(edges: seq<Edge>, cols: seq<string>, colors: seq<Color>): (d: Diagram)
    requires forall e :: e in edges ==> e.src in cols && e.dst in cols
    requires |colors| == |edges|
    ensures forall x :: x in d.node <==> x in cols
    ensures forall i, j :: 0 <= i < j < |d.node| ==> d.node[i] != d.node[j]
    ensures forall i, j :: 0 <= i < j < |d.node| ==> FirstIndex(cols, d.node[i]) < FirstIndex(cols, d.node[j])
    ensures |d.source| == |d.target| == |d.value| == |edges| && d.color == colors
    ensures forall i :: 0 <= i < |edges| ==> d.source[i] < |d.node| && d.node[d.source[i]] == edges[i].src
    ensures forall i :: 0 <= i < |edges| ==> d.target[i] < |d.node| && d.node[d.target[i]] == edges[i].dst
    ensures forall i :: 0 <= i < |edges| ==> d.value[i] == edges[i].amount
  {
    var node := Dedup(cols);
    LabelsInNode(edges, node, cols);
    Diagram(node, Indices(node, Sources(edges)), Indices(node, Targets(edges)), Amounts(edges), colors)
  }

  /** Parts of equal lengths start at the same offsets. */
  lemma {:induction false} OffsetOfSameShape<T, U>(xs: seq<seq<T>>, ys: seq<seq<U>>, k: nat)
    requires |xs| == |ys| && k <= |xs|
    requires forall j :: 0 <= j < |xs| ==> |xs[j]| == |ys[j]|
    ensures Offset(xs, k) == Offset(ys, k)
  {
    if k > 0 {
      OffsetOfSameShape(xs[1..], ys[1..], k - 1);
    }
  }

  /** The colour column of every group. */
  function Paintings(f: seq<seq<Edge>>): (r: seq<seq<Color>>)
    requires AllHighlightable(f)
    ensures |r| == |f| && forall k :: 0 <= k < |f| ==> |r[k]| == |f[k]|
  {
    seq(|f|, k requires 0 <= k < |f| => Painting(f[k]))
  }

  /** `color`: the colour columns of the groups, one after the other, one
      colour per edge. */
  function Colors(f: seq<seq<Edge>>): (r: seq<Color>)
    requires AllHighlightable(f)
    ensures |r| == |Flatten(f)|
  {
    var p := Paintings(f);
    FlattenLength(p);
    FlattenLength(f);
    OffsetOfSameShape(p, f, |f|);
    Flatten(p)
  }

  /** Edge `i` of group `k` has colour `i` of that group's painting. */
  lemma ColorsIndex(f: seq<seq<Edge>>, k: nat, i: nat)
    requires AllHighlightable(f)
    requires k < |f| && i < |f[k]|
    ensures Offset(f, k) + i < |Colors(f)|
    ensures Colors(f)[Offset(f, k) + i] == Painting(f[k])[i]
  {
    var p := Paintings(f);
    FlattenIndex(p, k, i);
    OffsetOfSameShape(p, f, k);
  }

  lemma LabelsInNode(edges: seq<Edge>, node: seq<string>, cols: seq<string>)
    requires forall e :: e in edges ==> e.src in cols && e.dst in cols
    requires forall x :: x in node <==> x in cols
    ensures forall x :: x in Sources(edges) ==> x in node
    ensures forall x :: x in Targets(edges) ==> x in node
  {
    forall x | x in Sources(edges) ensures x in node {
      var i :| 0 <= i < |edges| && Sources(edges)[i] == x;
      assert edges[i] in edges;
    }
    forall x | x in Targets(edges) ensures x in node {
      var i :| 0 <= i < |edges| && Targets(edges)[i] == x;
      assert edges[i] in edges;
    }
  }

  /** `labels.map(lambda x: node[node == x].index.values[0])`. */
  function Indices(node: seq<string>, labels: seq<string>): (r: seq<nat>)
    requires forall x :: x in labels ==> x in node
    ensures |r| == |labels|
    ensures forall i :: 0 <= i < |labels| ==> r[i] < |node| && node[r[i]] == labels[i]
  {
    seq(|labels|, i requires 0 <= i < |labels| => FirstIndex(node, labels[i]))
  }

  /** The diagram of the income and expenditure scopes, or `None` when some
      edge group has fewer than `top_n` edges and the highlighting raises. */
  function BuildSankey(iscope: Table, oscope: Table): (r: Option<Diagram>)
    ensures r.None? <==> !AllHighlightable(Flows(iscope, oscope))
    ensures r.Some? ==> Closed(Flows(iscope, oscope)) && r.value == Assemble(Flows(iscope, oscope))
  {
    var f := Flows(iscope, oscope);
    if !AllHighlightable(f) then None
    else
      EndpointsAreNodes(iscope, oscope);
      Some(Assemble(f))
  }

  /** Each edge group is coloured by its own highlighting: edge `i` of group
      `k` has colour `i` of that group's painting. */
  lemma AssembleColors(f: seq<seq<Edge>>, k: nat, i: nat)
    requires |f| == 6 && AllHighlightable(f) && Closed(f)
    requires k < 6 && i < |f[k]|
    ensures Offset(f, k) + i < |Assemble(f).color|
    ensures Assemble(f).color[Offset(f, k) + i] == Painting(f[k])[i]
  {
    ColorsIndex(f, k, i);
  }
}
