/** The edge groups of the Sankey diagram (app.py:91-125). Each of the six
    hops groups a scoped table by two columns and sums this year's budget;
    each group becomes one edge from the label of the first column to the
    label of the second. Labels are padded with one space so that the income
    chain and the expenditure chain use different nodes for the same ministry:
    a trailing space on the income side, a leading space on the expenditure
    side. The fund column stays bare on both sides, so fund nodes are the ones
    the two chains share. */
module EdgeGroups {
  import opened Sorting
  import opened Records
  import opened Grouping

  /** How a label is padded before it becomes a node name. */
  datatype Pad = Bare | Trailing | Leading

  function Padded(name: string, p: Pad): string
  {
    match p
    case Bare => name
    case Trailing => name + " "
    case Leading => " " + name
  }

  /** One hop: group by `from` and `to`, pad the two labels. */
  datatype Hop = Hop(from: Column, fromPad: Pad, to: Column, toPad: Pad)

  /** Revenue item to account (app.py:91-93), account to ministry (app.py:97-99),
      ministry to fund (app.py:103-105). */
  const IncomeHops: seq<Hop> := [
    Hop(Item, Bare, Account, Trailing),
    Hop(Account, Trailing, Dept, Trailing),
    Hop(Dept, Trailing, Fund, Bare)]

  /** Fund to ministry (app.py:109-111), ministry to sector (app.py:115-117),
      sector to domain (app.py:121-123). */
  const ExpenditureHops: seq<Hop> := [
    Hop(Fund, Bare, Dept, Leading),
    Hop(Dept, Leading, Sector, Leading),
    Hop(Sector, Leading, Domain, Bare)]

  datatype Edge = Edge(src: string, dst: string, amount: int)

  function EdgeAmount(e: Edge): int
  {
    e.amount
  }

  /** The two group-by columns of a hop. */
  function HopColumns(h: Hop): seq<Column>
  {
    [h.from, h.to]
  }

  /** The grouped sums behind a hop, one per pair of labels, in key order. */
  function HopGroups(rows: Table, h: Hop): (r: seq<Group>)
    ensures forall g :: g in r ==> |g.key| == 2
  {
    var p := Project(rows, HopColumns(h), Budget);
    ProjectKeys(rows, HopColumns(h), Budget);
    assert forall g :: g in GroupSum(p) ==> g.key in KeysOf(GroupSum(p));
    GroupSum(p)
  }

  /** A hop has one group per pair of labels that occurs, with the pair's sum. */
  lemma HopGroupsMember(rows: Table, h: Hop, g: Group)
    ensures g in HopGroups(rows, h) <==>
      g.key in KeysOf(Project(rows, HopColumns(h), Budget)) && g.amount == SumOf(Project(rows, HopColumns(h), Budget), g.key)
  {
    GroupSumMember(Project(rows, HopColumns(h), Budget), g);
  }

  /** The padded edges of a list of two-column groups. */
  function Edges(gs: seq<Group>, h: Hop): (r: seq<Edge>)
    requires forall g :: g in gs ==> |g.key| == 2
    ensures |r| == |gs|
    ensures forall i :: 0 <= i < |gs| ==>
      r[i] == Edge(Padded(gs[i].key[0], h.fromPad), Padded(gs[i].key[1], h.toPad), gs[i].amount)
  {
    if gs == [] then []
    else
      assert gs[0] in gs;
      [Edge(Padded(gs[0].key[0], h.fromPad), Padded(gs[0].key[1], h.toPad), gs[0].amount)] + Edges(gs[1..], h)
  }

  /** `df_iflow_k` / `df_oflow_k` without its colour column. */
  function Flow(rows: Table, h: Hop): (r: seq<Edge>)
    ensures |r| == |HopGroups(rows, h)|
  {
    Edges(HopGroups(rows, h), h)
  }

  lemma {:induction false} EdgesTotal(gs: seq<Group>, h: Hop)
    requires forall g :: g in gs ==> |g.key| == 2
    ensures Sum(Edges(gs, h), EdgeAmount) == Total(gs)
  {
    if gs != [] {
      assert forall g :: g in gs[1..] ==> g in gs;
      EdgesTotal(gs[1..], h);
      assert Edges(gs, h)[1..] == Edges(gs[1..], h);
    }
  }

  /** Every hop carries the whole budget of its table: the edge amounts add up
      to the scoped total. */
  lemma FlowTotal(rows: Table, h: Hop)
    ensures Sum(Flow(rows, h), EdgeAmount) == ColumnTotal(rows, Budget)
  {
    EdgesTotal(HopGroups(rows, h), h);
    ProjectTotal(rows, HopColumns(h), Budget);
  }

  /** Edge `e` joins the padded labels of `row`. */
  ghost predicate JoinsRow(e: Edge, row: Record, h: Hop)
  {
    e.src == Padded(Label(row, h.from), h.fromPad) && e.dst == Padded(Label(row, h.to), h.toPad)
  }

  /** Every edge of a hop comes from a row of the table and carries the sum of
      the budget over the rows with its pair of labels. */
  lemma FlowFromRows(rows: Table, h: Hop, e: Edge)
    requires e in Flow(rows, h)
    ensures exists row :: (row in rows && JoinsRow(e, row, h)
                           && e.amount == SumOf(Project(rows, HopColumns(h), Budget), KeyOf(row, HopColumns(h))))
  {
    var cols := HopColumns(h);
    var gs := HopGroups(rows, h);
    var es := Flow(rows, h);
    ProjectKeys(rows, cols, Budget);
    var i :| 0 <= i < |es| && es[i] == e;
    assert gs[i] in gs;
    HopGroupsMember(rows, h, gs[i]);
    var row :| row in rows && KeyOf(row, cols) == gs[i].key;
    assert JoinsRow(e, row, h);
  }

  /** Every row of the table has the edge of its pair of labels. */
  lemma FlowCoversRows(rows: Table, h: Hop, row: Record)
    requires row in rows
    ensures exists e :: e in Flow(rows, h) && JoinsRow(e, row, h)
  {
    var cols := HopColumns(h);
    var p := Project(rows, cols, Budget);
    var gs := HopGroups(rows, h);
    var es := Flow(rows, h);
    ProjectKeys(rows, cols, Budget);
    var k := KeyOf(row, cols);
    assert k in KeysOf(p);
    var g := Group(k, SumOf(p, k));
    HopGroupsMember(rows, h, g);
    assert g in gs;
    var i :| 0 <= i < |gs| && gs[i] == g;
    assert JoinsRow(es[i], row, h);
  }

  /** A label with no space at either end. */
  predicate Trimmed(name: string)
  {
    |name| > 0 && name[0] != ' ' && name[|name| - 1] != ' '
  }

  /** Padding keeps the chains apart: two trimmed labels padded alike give the
      same node only when they are equal, and padded differently never do. */
  lemma PaddedInjective(a: string, p: Pad, b: string, q: Pad)
    requires Trimmed(a) && Trimmed(b)
    ensures Padded(a, p) == Padded(b, q) <==> a == b && p == q
  {
    var x, y := Padded(a, p), Padded(b, q);
    if x == y {
      assert x[0] == y[0] && x[|x| - 1] == y[|y| - 1];
      if p == Bare && q == Bare {
      } else if p == Trailing && q == Trailing {
        assert a == x[..|x| - 1] && b == y[..|y| - 1];
      } else if p == Leading && q == Leading {
        assert a == x[1..] && b == y[1..];
      }
    }
  }
}
