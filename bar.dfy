/** The expenditure bar charts: `gen_bar_data` (app.py:75-77) and the three
    levels of the drill-down in the bar callbacks (domain, app.py:270-271;
    sectors of the hovered domain, app.py:306-309; programmes of the hovered
    sector, app.py:344-347). Each level shows two series over the same keys:
    last year's original budget and this year's proposal. */
module Bar {
  import opened Sorting
  import opened Records
  import opened Grouping

  /** `df_obar`: the net expenditure rows sorted by this year's proposal,
      largest first. The assignment at app.py:77 copies the two amount
      columns onto themselves, so no scaling is applied. */
  function BarData(t: Table): (r: Table)
    ensures multiset(r) == multiset(t)
    ensures NonIncreasing(r, AmountOf(Proposal))
  {
    SortDescOrdered(t, AmountOf(Proposal));
    SortDescPermutes(t, AmountOf(Proposal));
    SortDesc(t, AmountOf(Proposal))
  }

  /** First level: one bar per domain with the sum of column `a`, in key
      order; the bars add up to the whole table. */
  function DomainBars(obar: Table, a: AmountColumn): (r: seq<Group>)
    ensures KeySorted(r)
    ensures Total(r) == ColumnTotal(obar, a)
  {
    ProjectTotal(obar, [Domain], a);
    GroupSum(Project(obar, [Domain], a))
  }

  /** Second level: the sectors of the hovered domain `d`; they add up to the
      rows of `d`. */
  function SectorBars(obar: Table, d: string, a: AmountColumn): (r: seq<Group>)
    ensures KeySorted(r)
    ensures Total(r) == ColumnTotal(Where(obar, Domain, d), a)
  {
    ProjectTotal(Where(obar, Domain, d), [Sector], a);
    GroupSum(Project(Where(obar, Domain, d), [Sector], a))
  }

  /** Third level: the programmes of the hovered sector `s`; they add up to
      the rows of `s`. */
  function ProgramBars(obar: Table, s: string, a: AmountColumn): (r: seq<Group>)
    ensures KeySorted(r)
    ensures Total(r) == ColumnTotal(Where(obar, Sector, s), a)
  {
    ProjectTotal(Where(obar, Sector, s), [Program], a);
    GroupSum(Project(Where(obar, Sector, s), [Program], a))
  }

  /** One level of the drill-down grouped by column `c`: a bar `[x]` with
      amount `v` is shown exactly when some row is labelled `x` and `v` is the
      total of those rows. */
  lemma LevelMember(t: Table, c: Column, a: AmountColumn, x: string, v: int)
    ensures Group([x], v) in GroupSum(Project(t, [c], a)) <==>
      (exists row :: row in t && Label(row, c) == x) && v == ColumnTotal(Where(t, c, x), a)
  {
    var p := Project(t, [c], a);
    GroupSumMember(p, Group([x], v));
    SumOfProjectWhere(t, c, x, a);
    ProjectKeys(t, [c], a);
    forall row ensures KeyOf(row, [c]) == [x] <==> Label(row, c) == x {
      assert KeyOf(row, [c])[0] == Label(row, c);
    }
  }

  /** The first level shows one bar per domain that occurs in `df_obar`,
      carrying the total of that domain's rows. */
  lemma DomainBarsMember(obar: Table, a: AmountColumn, x: string, v: int)
    ensures Group([x], v) in DomainBars(obar, a) <==>
      (exists row :: row in obar && row.domain == x) && v == ColumnTotal(Where(obar, Domain, x), a)
  {
    LevelMember(obar, Domain, a, x, v);
    DomainOccurs(obar, x);
  }

  /** Some row lies in domain `x`. */
  lemma DomainOccurs(obar: Table, x: string)
    ensures (exists row :: row in obar && Label(row, Domain) == x) <==> (exists row :: row in obar && row.domain == x)
  {
    if exists row :: row in obar && row.domain == x {
      var row :| row in obar && row.domain == x;
      assert Label(row, Domain) == x;
    }
  }

  /** The second level shows one bar per sector that occurs in domain `d`,
      carrying the total of the rows of `d` in that sector. */
  lemma SectorBarsMember(obar: Table, d: string, a: AmountColumn, x: string, v: int)
    ensures Group([x], v) in SectorBars(obar, d, a) <==>
      (exists row :: row in obar && row.domain == d && row.sector == x)
        && v == ColumnTotal(Where(Where(obar, Domain, d), Sector, x), a)
  {
    LevelMember(Where(obar, Domain, d), Sector, a, x, v);
    SectorOccurs(obar, d, x);
  }

  /** The third level shows one bar per programme that occurs in sector `s`,
      carrying the total of the rows of `s` in that programme. */
  lemma ProgramBarsMember(obar: Table, s: string, a: AmountColumn, x: string, v: int)
    ensures Group([x], v) in ProgramBars(obar, s, a) <==>
      (exists row :: row in obar && row.sector == s && row.program == x)
        && v == ColumnTotal(Where(Where(obar, Sector, s), Program, x), a)
  {
    LevelMember(Where(obar, Sector, s), Program, a, x, v);
    ProgramOccurs(obar, s, x);
  }

  /** Some row of domain `d` lies in sector `x`. */
  lemma SectorOccurs(obar: Table, d: string, x: string)
    ensures (exists row :: row in Where(obar, Domain, d) && Label(row, Sector) == x) <==>
      (exists row :: row in obar && row.domain == d && row.sector == x)
  {
    var w := Where(obar, Domain, d);
    if exists row :: row in obar && row.domain == d && row.sector == x {
      var row :| row in obar && row.domain == d && row.sector == x;
      assert row in w && Label(row, Sector) == x;
    }
    if exists row :: row in w && Label(row, Sector) == x {
      var row :| row in w && Label(row, Sector) == x;
      assert row in obar && row.domain == d && row.sector == x;
    }
  }

  /** Some row of sector `s` lies in programme `x`. */
  lemma ProgramOccurs(obar: Table, s: string, x: string)
    ensures (exists row :: row in Where(obar, Sector, s) && Label(row, Program) == x) <==>
      (exists row :: row in obar && row.sector == s && row.program == x)
  {
    var w := Where(obar, Sector, s);
    if exists row :: row in obar && row.sector == s && row.program == x {
      var row :| row in obar && row.sector == s && row.program == x;
      assert row in w && Label(row, Program) == x;
    }
    if exists row :: row in w && Label(row, Program) == x {
      var row :| row in w && Label(row, Program) == x;
      assert row in obar && row.sector == s && row.program == x;
    }
  }

  /** The amount of column `a` in `row` if its key under `cols` is `k`. */
  function AmountIfKey(cols: seq<Column>, k: seq<string>, a: AmountColumn): Record -> int
  {
    row => if KeyOf(row, cols) == k then Amount(row, a) else 0
  }

  /** A grouped sum is a plain sum over the rows. */
  lemma {:induction false} SumOfProject(t: Table, cols: seq<Column>, a: AmountColumn, k: seq<string>)
    ensures SumOf(Project(t, cols, a), k) == Sum(t, AmountIfKey(cols, k, a))
  {
    if t != [] {
      assert Project(t, cols, a)[1..] == Project(t[1..], cols, a);
      SumOfProject(t[1..], cols, a, k);
    }
  }

  /** The sectors of domain `d` add up to the bar of `d` on the first level. */
  lemma SectorBarsTotal(obar: Table, d: string, a: AmountColumn)
    ensures Total(SectorBars(obar, d, a)) == SumOf(DomainBars(obar, a), [d])
    ensures forall g :: g in DomainBars(obar, a) && g.key == [d] ==> g.amount == Total(SectorBars(obar, d, a))
  {
    SumOfProjectWhere(obar, Domain, d, a);
    forall g | g in DomainBars(obar, a) && g.key == [d] ensures g.amount == Total(SectorBars(obar, d, a)) {
      GroupSumMember(Project(obar, [Domain], a), g);
    }
  }

  /** Hovering over a key that no row carries gives an empty chart. */
  lemma HoverMiss(obar: Table, h: string, a: AmountColumn)
    ensures (forall row :: row in obar ==> row.domain != h) ==> SectorBars(obar, h, a) == []
    ensures (forall row :: row in obar ==> row.sector != h) ==> ProgramBars(obar, h, a) == []
  {
    if forall row :: row in obar ==> row.domain != h {
      WhereNone(obar, Domain, h);
      assert Project([], [Sector], a) == [];
    }
    if forall row :: row in obar ==> row.sector != h {
      WhereNone(obar, Sector, h);
      assert Project([], [Program], a) == [];
    }
  }

  /** Filtering on a label that no row carries leaves nothing. */
  lemma WhereNone(t: Table, c: Column, n: string)
    requires forall row :: row in t ==> Label(row, c) != n
    ensures Where(t, c, n) == []
  {
    NonEmptyHasHead(Where(t, c, n));
  }

  /** Filtering by domain and then by sector is filtering by sector alone when
      every row of that sector lies in that domain. */
  lemma {:induction false} WhereSectorInDomain(t: Table, d: string, s: string)
    requires forall row :: row in t && row.sector == s ==> row.domain == d
    ensures Where(Where(t, Domain, d), Sector, s) == Where(t, Sector, s)
  {
    if t != [] {
      assert t[0] in t;
      assert forall row :: row in t[1..] ==> row in t;
      WhereSectorInDomain(t[1..], d, s);
    }
  }

  /** The programmes of sector `s` add up to the bar of `s` on the second
      level when `s` belongs to domain `d` only. */
  lemma ProgramBarsTotal(obar: Table, d: string, s: string, a: AmountColumn)
    ensures (forall row :: row in obar && row.sector == s ==> row.domain == d) ==>
      Total(ProgramBars(obar, s, a)) == SumOf(SectorBars(obar, d, a), [s])
  {
    SumOfProjectWhere(Where(obar, Domain, d), Sector, s, a);
    if forall row :: row in obar && row.sector == s ==> row.domain == d {
      WhereSectorInDomain(obar, d, s);
    }
  }

  /** Every level of the drill-down depends on the rows of `df_obar` and not
      on their order, so the sort of `gen_bar_data` only orders the table. */
  lemma BarsIgnoreOrder(t: Table, u: Table, cols: seq<Column>, a: AmountColumn)
    requires multiset(t) == multiset(u)
    ensures GroupSum(Project(t, cols, a)) == GroupSum(Project(u, cols, a))
  {
    forall k ensures SumOf(Project(t, cols, a), k) == SumOf(Project(u, cols, a), k) {
      SumOfProject(t, cols, a, k);
      SumOfProject(u, cols, a, k);
      SumPermutation(t, u, AmountIfKey(cols, k, a));
    }
    ProjectKeys(t, cols, a);
    ProjectKeys(u, cols, a);
    assert forall row :: row in t <==> row in u by {
      forall row ensures row in t <==> row in u {
        assert row in t <==> row in multiset(t);
        assert row in u <==> row in multiset(u);
      }
    }
    GroupSumDeterminedBySums(Project(t, cols, a), Project(u, cols, a));
  }

  /** Sorting the rows does not change any level of the drill-down. */
  lemma BarDataBars(t: Table, d: string, s: string, a: AmountColumn)
    ensures DomainBars(BarData(t), a) == DomainBars(t, a)
    ensures SectorBars(BarData(t), d, a) == SectorBars(t, d, a)
    ensures ProgramBars(BarData(t), s, a) == ProgramBars(t, s, a)
  {
    var b := BarData(t);
    BarsIgnoreOrder(b, t, [Domain], a);
    WherePermutation(b, t, Domain, d);
    BarsIgnoreOrder(Where(b, Domain, d), Where(t, Domain, d), [Sector], a);
    WherePermutation(b, t, Sector, s);
    BarsIgnoreOrder(Where(b, Sector, s), Where(t, Sector, s), [Program], a);
  }
}
