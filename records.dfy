/** The budget tables. Each CSV row becomes a `Record`; a table is a sequence
    of records in file order. The four tables use different subsets of the
    columns, so one record type carries every column that app.py reads
    (Korean column names in the comments). Amounts are integers in thousands
    of won, as the files give them. */
module Records {
  import opened Sorting

  datatype Record = Record(
    year: int,          // 회계연도, fiscal year
    item: string,       // 수입항명, revenue item
    account: string,    // 수입관명, revenue account
    dept: string,       // 소관명, ministry in charge
    fund: string,       // 회계명, fund
    domain: string,     // 분야명, expenditure domain
    sector: string,     // 부문명, expenditure sector
    program: string,    // 프로그램명, programme
    priorAmount: int,   // 전년도당초금액(천원), last year's original budget
    proposal: int,      // 금년도정부안(천원), this year's government proposal
    budget: int)        // 금년도예산(천원), this year's budget

  type Table = seq<Record>

  /** The label columns the dashboard groups and filters by. */
  datatype Column = Item | Account | Dept | Fund | Domain | Sector | Program

  /** The amount columns the dashboard sums. */
  datatype AmountColumn = PriorAmount | Proposal | Budget

  /** `row[c]` for a label column. */
  function Label(row: Record, c: Column): string
  {
    match c
    case Item => row.item
    case Account => row.account
    case Dept => row.dept
    case Fund => row.fund
    case Domain => row.domain
    case Sector => row.sector
    case Program => row.program
  }

  /** `row[a]` for an amount column. */
  function Amount(row: Record, a: AmountColumn): int
  {
    match a
    case PriorAmount => row.priorAmount
    case Proposal => row.proposal
    case Budget => row.budget
  }

  /** The amount column `a` as a function of a row. */
  function AmountOf(a: AmountColumn): Record -> int
  {
    row => Amount(row, a)
  }

  /** `df[a].sum()`. */
  function ColumnTotal(t: Table, a: AmountColumn): int
  {
    Sum(t, AmountOf(a))
  }

  /** The four tables the loader builds: `df_net_in`, `df_net_out`, `df_in`
      and `df_out`. */
  datatype Tables = Tables(netIn: Table, netOut: Table, grossIn: Table, grossOut: Table)

  /** `df[df['회계연도'] == year]`: the rows of fiscal year `year`, in table
      order. */
  function ByYear(t: Table, year: int): (r: Table)
    ensures forall row :: row in r <==> row in t && row.year == year
    ensures |r| <= |t|
  {
    if t == [] then []
    else
      var rest := ByYear(t[1..], year);
      assert forall row :: row in t <==> row == t[0] || row in t[1..] by {
        assert t == [t[0]] + t[1..];
      }
      if t[0].year == year then [t[0]] + rest else rest
  }

  /** Filtering a concatenation filters each part: the scope of the combined
      files is the combined scopes of the files. */
  lemma {:induction false} ByYearAppend(t: Table, u: Table, year: int)
    ensures ByYear(t + u, year) == ByYear(t, year) + ByYear(u, year)
  {
    if t == [] {
      assert t + u == u;
    } else {
      assert (t + u)[0] == t[0] && (t + u)[1..] == t[1..] + u;
      ByYearAppend(t[1..], u, year);
    }
  }

  /** A table already scoped to `year` is left exactly as it is, so scoping
      twice is scoping once. */
  lemma {:induction false} ByYearOfScoped(t: Table, year: int)
    requires forall row :: row in t ==> row.year == year
    ensures ByYear(t, year) == t
  {
    if t != [] {
      assert t[0] in t;
      assert forall row :: row in t[1..] ==> row in t;
      ByYearOfScoped(t[1..], year);
    }
  }

  /** `df.loc[df[c] == name]`: the rows whose column `c` equals `name`, in
      table order. */
  function Where(t: Table, c: Column, name: string): (r: Table)
    ensures forall row :: row in r <==> row in t && Label(row, c) == name
    ensures |r| <= |t|
  {
    if t == [] then []
    else
      var rest := Where(t[1..], c, name);
      assert forall row :: row in t <==> row == t[0] || row in t[1..] by {
        assert t == [t[0]] + t[1..];
      }
      if Label(t[0], c) == name then [t[0]] + rest else rest
  }

  /** Filtering keeps each row of `name` as often as the table holds it. */
  lemma {:induction false} WhereMultiset(t: Table, c: Column, name: string)
    ensures forall row :: multiset(Where(t, c, name))[row] == if Label(row, c) == name then multiset(t)[row] else 0
  {
    if t != [] {
      WhereMultiset(t[1..], c, name);
      assert t == [t[0]] + t[1..];
    }
  }

  /** Filtering two orderings of the same rows gives two orderings of the same
      rows. */
  lemma WherePermutation(t: Table, u: Table, c: Column, name: string)
    requires multiset(t) == multiset(u)
    ensures multiset(Where(t, c, name)) == multiset(Where(u, c, name))
  {
    WhereMultiset(t, c, name);
    WhereMultiset(u, c, name);
  }
}
