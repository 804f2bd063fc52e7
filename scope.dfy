/** `ScopeControl` (app.py:65-149), the object that holds the tables of one
    fiscal year and the chart data computed from them, and the dashboard's
    handling of the global `scope` in its callbacks (app.py:152 and
    app.py:212-378). The charts' layout and the plotly figures are not part
    of this model; each callback returns the data it hands to its figure. */
module Scope {
  import opened Outcome
  import opened Records
  import opened Grouping
  import opened Palette
  import opened EdgeGroups
  import opened Highlighting
  import opened Pie
  import opened Bar
  import opened Sankey

  class ScopeControl {
    /** The four loaded tables (`df_net_in`, `df_net_out`, `df_in`, `df_out`). */
    const data: Tables
    var year: int
    var netIScope: Table
    var netOScope: Table
    var iScope: Table
    var oScope: Table
    /** Fields that `gen_bar_data` and `gen_pie_data` create; they start
        empty here. */
    var obar: Table
    var ipie: seq<Group>
    var opie: seq<Group>

    /** The four scoped tables are the loaded tables restricted to `year`. */
    ghost predicate Valid()
      reads this
    {
      && netIScope == ByYear(data.netIn, year)
      && netOScope == ByYear(data.netOut, year)
      && iScope == ByYear(data.grossIn, year)
      && oScope == ByYear(data.grossOut, year)
    }

    /** `ScopeControl(year)` (app.py:66-73). */
    constructor(data: Tables, year: int)
      ensures this.data == data && this.year == year
      ensures Valid()
      ensures obar == [] && ipie == [] && opie == []
    {
      this.data := data;
      this.year := year;
      netIScope := ByYear(data.netIn, year);
      netOScope := ByYear(data.netOut, year);
      iScope := ByYear(data.grossIn, year);
      oScope := ByYear(data.grossOut, year);
      obar, ipie, opie := [], [], [];
    }

    /** `gen_bar_data` (app.py:75-77). */
    method GenBarData()
      modifies this`obar
      ensures obar == BarData(netOScope)
    {
      obar := BarData(netOScope);
    }

    /** `gen_pie_data` (app.py:79-88). */
    method GenPieData()
      modifies this`ipie, this`opie
      ensures ipie == PieData(netIScope, Item)
      ensures opie == PieData(netOScope, Domain)
    {
      ipie := PieData(netIScope, Item);
      opie := PieData(netOScope, Domain);
    }

    /** `gen_sankey_data` (app.py:90-149): the diagram of the gross tables
        of this scope, or `None` where a group with fewer than `top_n` edges
        makes the highlighting raise. The diagram is returned rather than
        stored in `node`, `source`, `target`, `value` and `color`. */
    method GenSankeyData() returns (r: Option<Diagram>)
      ensures r == BuildSankey(iScope, oScope)
    {
      r := BuildSankey(iScope, oScope);
    }
  }

  /** The fiscal year the dashboard opens on (app.py:152, app.py:165). */
  const DefaultYear := 2018

  /** The dashboard's global state: the loaded tables and the current scope. */
  class Dashboard {
    const data: Tables
    var scope: ScopeControl

    ghost predicate Valid()
      reads this, scope
    {
      scope.data == data && scope.Valid()
    }

    /** Module start-up: `scope = ScopeControl(2018)`. */
    constructor(data: Tables)
      ensures this.data == data && Valid()
      ensures scope.year == DefaultYear && fresh(scope)
    {
      this.data := data;
      scope := new ScopeControl(data, DefaultYear);
    }

    /** The first lines of every callback (app.py:214-216): a new scope only
        when the year differs; otherwise the same object, untouched. */
    method Rescope(year: int)
      requires Valid()
      modifies this
      ensures Valid() && scope.year == year
      ensures old(scope.year) == year ==> scope == old(scope)
      ensures old(scope.year) != year ==> fresh(scope)
      ensures unchanged(old(scope))
    {
      if year != scope.year {
        scope := new ScopeControl(data, year);
      }
    }

    /** `generate_figure_in_pie` (app.py:212-234): revenue items of the net
        income table for `year`. */
    method InPie(year: int) returns (pie: seq<Group>)
      requires Valid()
      modifies this, scope
      ensures Valid() && scope.year == year
      ensures pie == PieData(ByYear(data.netIn, year), Item)
    {
      Rescope(year);
      scope.GenPieData();
      pie := scope.ipie;
    }

    /** `generate_figure_out_pie` (app.py:237-259): domains of the net
        expenditure table for `year`. */
    method OutPie(year: int) returns (pie: seq<Group>)
      requires Valid()
      modifies this, scope
      ensures Valid() && scope.year == year
      ensures pie == PieData(ByYear(data.netOut, year), Domain)
    {
      Rescope(year);
      scope.GenPieData();
      pie := scope.opie;
    }

    /** `generate_figure_bar` (app.py:262-295): per domain, last year's
        budget and this year's proposal. */
    method DomainChart(year: int) returns (last: seq<Group>, current: seq<Group>)
      requires Valid()
      modifies this, scope
      ensures Valid() && scope.year == year
      ensures last == DomainBars(BarData(ByYear(data.netOut, year)), PriorAmount)
      ensures current == DomainBars(BarData(ByYear(data.netOut, year)), Proposal)
    {
      Rescope(year);
      scope.GenBarData();
      last := DomainBars(scope.obar, PriorAmount);
      current := DomainBars(scope.obar, Proposal);
    }

    /** `generate_figure_out_bar_d1` (app.py:298-333): the sectors of the
        hovered domain `h`. */
    method SectorChart(year: int, h: string) returns (last: seq<Group>, current: seq<Group>)
      requires Valid()
      modifies this, scope
      ensures Valid() && scope.year == year
      ensures last == SectorBars(BarData(ByYear(data.netOut, year)), h, PriorAmount)
      ensures current == SectorBars(BarData(ByYear(data.netOut, year)), h, Proposal)
    {
      Rescope(year);
      scope.GenBarData();
      last := SectorBars(scope.obar, h, PriorAmount);
      current := SectorBars(scope.obar, h, Proposal);
    }

    /** `generate_figure_out_bar_d2` (app.py:336-371): the programmes of the
        hovered sector `h`. */
    method ProgramChart(year: int, h: string) returns (last: seq<Group>, current: seq<Group>)
      requires Valid()
      modifies this, scope
      ensures Valid() && scope.year == year
      ensures last == ProgramBars(BarData(ByYear(data.netOut, year)), h, PriorAmount)
      ensures current == ProgramBars(BarData(ByYear(data.netOut, year)), h, Proposal)
    {
      Rescope(year);
      scope.GenBarData();
      last := ProgramBars(scope.obar, h, PriorAmount);
      current := ProgramBars(scope.obar, h, Proposal);
    }

    /** `generate_figure_sankey` (app.py:374-412): the diagram of the gross
        tables for `year`, or `None` where the source raises. */
    method SankeyChart(year: int) returns (r: Option<Diagram>)
      requires Valid()
      modifies this
      ensures Valid() && scope.year == year
      ensures r == BuildSankey(ByYear(data.grossIn, year), ByYear(data.grossOut, year))
    {
      Rescope(year);
      r := scope.GenSankeyData();
    }
  }
}
