# Korean government budget dashboard — a verified model of its data core

`app.py` is a Dash dashboard over the Korean government budget. At start-up it
reads every CSV file of a data folder and files each one into one of four
tables by the words in its name: net income, net expenditure, gross income and
gross expenditure. A `ScopeControl` object restricts the four tables to one
fiscal year (회계연도) and derives the data of five charts from them:

- two pies: revenue items of the net income, and domains of the net
  expenditure. Each pie keeps the nine largest categories and puts the rest
  into one slice, `기타` ("other");
- a bar chart of expenditure by domain, with a drill-down to the sectors of
  the hovered domain and then to the programmes of the hovered sector. Every
  level shows last year's budget beside this year's proposal;
- a Sankey diagram. It runs from revenue items through accounts, ministries
  and funds to ministries, sectors and domains of expenditure. In each of its
  six hops, the ten largest links are highlighted with a dark-to-light
  palette.

Every chart callback first replaces the global scope, but only when the
selected year differs from the scope's year.

This project models that core in Dafny and proves what it computes.

- Tables are sequences of `Record`s with string labels and integer amounts
  (thousands of won).
- pandas operations become functions over sequences: filtering by year,
  group-by-sum, descending sort, relabelling and `drop_duplicates`.
- The loader loop, the colour highlighting of one edge group and the
  `ScopeControl` object with the global scope switch are imperative, as in the
  source.

| file | module | models |
|---|---|---|
| `outcome.dfy` | `Outcome` | `Option` and `Result`, for the places where the source raises |
| `order.dfy` | `Order` | the lexicographic order pandas sorts group keys by |
| `sorting.dfy` | `Sorting` | `sort_values(ascending=False)` and `sum()` |
| `records.dfy` | `Records` | rows, columns, tables, year scoping, `df.loc[df[c] == x]` |
| `grouping.dfy` | `Grouping` | `groupby(cols, as_index=False).sum()` |
| `palette.dfy` | `Palette` | `interpolate_colors`, `pie_color`, `line_color` |
| `loader.dfy` | `Loader` | the file-classification loop and `pd.concat` |
| `pie.dfy` | `Pie` | `gen_pie_data` |
| `bar.dfy` | `Bar` | `gen_bar_data` and the three drill-down levels |
| `flow.dfy` | `EdgeGroups` | the six padded edge groups of the Sankey diagram |
| `highlight.dfy` | `Highlighting` | the top-`top_n` colouring of one edge group |
| `sankey.dfy` | `Sankey` | node list, source/target indices, values and colours |
| `scope.dfy` | `Scope` | `ScopeControl` and the callbacks' handling of the global scope |

Notes on the code that the model follows:

- No display divisor is applied to pie or bar amounts. Lines 77, 83 and 88
  assign the amount columns to themselves.
- The highlighting assignment writes all `top_n` palette entries. A group with
  fewer than `top_n` edges makes pandas raise `ValueError`. `Highlight`
  returns `None` there, and so do `BuildSankey` and the Sankey callback. The
  model does not turn this into a precondition.
- The top slices of a pie are not "the smaller of nine and the number of
  categories" by a separate rule. With nine or fewer categories, the
  relabelling touches no row.
- Income-side ministry and account labels get a trailing space. Expenditure
  ministry and sector labels get a leading space. Fund labels stay bare. So
  the two chains meet only at fund nodes, and at labels that happen to be
  equal elsewhere (an item name equal to a domain name).
- Running a pie over its own output reproduces it exactly when the second
  run relabels nothing: the pie has at most nine slices, or its tenth slice is
  already `기타` (`PieRepeat`). When the tenth slice is a real category, the
  second run merges it into `기타` (`PieRepeatMerges`).

## Model

| member | source | states |
|---|---|---|
| Palette.InterpolateColors | app.py:12-16 | with `cut > 0`: `cut + 1` colours, the first `col1`, the last `col2`, every channel between the two end channels; with `cut < 0` the range is empty; `cut == 0` (division by zero) is excluded |
| Palette.ChannelWithin | app.py:14-16 | `c1 + (c2 - c1) * n // cut` lies between `c1` and `c2` for `0 <= n <= cut` |
| Palette.ChannelMonotone | app.py:14-16 | the channel moves monotonically from `c1` towards `c2` as `n` grows |
| Palette.DarkFirst | app.py:20 | the reversed light-to-dark gradient has `cut + 1` entries, dark first and light last |
| Palette.DarkFirstGradient | app.py:20 | every entry lies between the two ends, and entries get lighter (or stay) in every channel along the palette |
| Palette.PieColor | app.py:20 | `pie_color` has ten colours, darkest first, lightest last |
| Palette.LineColor | app.py:30 | `line_color` has exactly `top_n` colours, darkest first, lightest last |
| Palette.LineColorGradient | app.py:30 | along `line_color` each colour is at least as light as the one before in every channel |
| Loader.Contains | app.py:43-44 | Python's `sub in s` is true exactly when `sub` occurs at some position of `s` |
| Loader.EndsCsv | app.py:42 | `file[-3:] == 'csv'` holds exactly when the name has at least three characters and ends in `csv` |
| Loader.Classify | app.py:42-56 | a non-`csv` name is skipped; a `csv` name with neither `in` nor `out` raises; otherwise it is filed into a net table exactly when it contains `net`, and into an income table exactly when it contains `in` (`in` is checked first) |
| Loader.FirstRejected | app.py:41-56 | finds the first file the loop raises on, or reports that none raises |
| Loader.Concat | app.py:58-62 | a row is in the concatenation exactly when it is in one of the frames |
| Loader.ConcatAppend | app.py:58-62 | concatenating one more frame appends its rows, in order, after the rows of the frames before it |
| Loader.Loaded | app.py:41-62 | a load that fails for want of files has no rejected name and an empty list for the bucket it names |
| Loader.LoadedSucceeds | app.py:41-62 | loading succeeds exactly when no `csv` name is rejected and each of the four lists receives a file |
| Loader.ConcatFramesOf | app.py:41-62 | concatenating a bucket's frames gives the rows of the files filed under it, file after file in folder order |
| Loader.Load | app.py:41-62 | the loop's result, an error or the four tables, equals `Loaded`, the folder-level definition |
| Loader.FramesOfRows | app.py:41-56 | the frames collected for a bucket hold exactly the rows of the files filed under it |
| Loader.LoadedRows | app.py:41-62 | after a successful load a row is in a table exactly when it is in a file filed under that table: nothing lost, nothing invented |
| Loader.LoadedTable | app.py:41-62 | after a successful load each table is the rows of its files in folder order, and holds every row as often as those files hold it together |
| Loader.LoadedNameError | app.py:41-56 | loading fails with `NameError` exactly when some `csv` name holds neither word, and it names the first such file |
| Loader.LoadedSkips | app.py:42 | adding a file whose name does not end in `csv` changes nothing |
| Records.ByYear | app.py:69-73 | the scoped table holds exactly the rows of the year, and no more rows than the source table |
| Records.ByYearAppend | app.py:69-73 | scoping a concatenation is concatenating the scopes, so rows keep their source order |
| Records.ByYearOfScoped | app.py:69-73 | scoping a table that is already scoped to the year returns it unchanged |
| Records.Where | app.py:307 | `df.loc[df[c] == x]` holds exactly the rows whose column equals `x` |
| Records.WhereMultiset | app.py:307 | filtering keeps each matching row exactly as often as the table holds it and drops every other row |
| Records.WherePermutation | app.py:307 | filtering two reorderings of the same rows gives two reorderings of the same rows |
| Order.KeyLtIsStrictTotal | app.py:270 | the order pandas sorts group keys by is a strict total order |
| Sorting.SumPermutation | app.py:270 | a sum does not depend on the order of the rows |
| Sorting.SortDesc | app.py:76 | sorting keeps the number of rows (what the rows are and their order: the two lemmas below) |
| Sorting.SortDescPermutes | app.py:76 | `sort_values` keeps every row exactly as often as it occurs |
| Sorting.SortDescOrdered | app.py:76 | `sort_values(ascending=False)` leaves the rows in non-increasing order of the key |
| Sorting.SortedKeysAgree | app.py:76 | two orderings of the same rows, both non-increasing, carry the same key at every position, whatever order they give ties |
| Sorting.SortDescKeysOfSorted | app.py:82 | sorting rows that are already in order moves no key: only rows with equal keys may change places |
| Sorting.SortDescSum | app.py:80 | sorting keeps the sum of every column |
| Sorting.SortDescDistinctBy | app.py:82 | sorting keeps a sequence free of repeated labels |
| Grouping.GroupSum | app.py:270 | group-by-sum gives keys in ascending order, each once, the same key set, per key the sum over the input, the same total and no more rows than the input |
| Grouping.AddTo | app.py:270 | adding one row to a grouped result keeps it key-sorted and adds its key |
| Grouping.AddToSumOf | app.py:270 | adding one row adds its amount to its key's sum and changes no other sum |
| Grouping.GroupSumMember | app.py:270 | a group is in the result exactly when its key occurs and its amount is the sum over that key |
| Grouping.GroupSumDeterminedBySums | app.py:82 | the result depends only on the keys and the per-key sums of the input |
| Grouping.GroupSumOfDistinct | app.py:82 | grouping rows whose labels are already distinct keeps the same rows |
| Grouping.GroupSumIdempotent | app.py:82 | grouping a grouped result changes nothing |
| Grouping.Project | app.py:270-271 | one key/amount pair per row of the table |
| Grouping.ProjectTotal | app.py:270-271 | the rows projected for grouping add up to the column total |
| Grouping.ProjectKeys | app.py:270-271 | the keys to group are exactly the label tuples of the rows |
| Grouping.SumOfProjectWhere | app.py:307-309 | the sum of key `x` in a group-by equals the column total of the rows filtered on `x` |
| Pie.Relabel | app.py:81 | `iloc[9:, 0] = '기타'` keeps every amount and the order, keeps the labels before position 9 and gives every later row the new label |
| Pie.RelabelTotal | app.py:81 | `iloc[9:, 0] = '기타'` changes no amount |
| Pie.Bucket | app.py:80-82 | the pie is sorted by non-increasing amount and no label repeats |
| Pie.PieOverflow | app.py:80-82 | with more than nine categories, the pie is the group-by-sum of the nine largest plus one `기타` row carrying the rest, sorted |
| Pie.PieSlices | app.py:80-82 | the pie has at most ten slices |
| Pie.PieTotal | app.py:80-82 | the slices add up to the input: nothing lost or counted twice |
| Pie.PieFewCategories | app.py:80-82 | with at most nine categories every category keeps its label and its sum, and there is no other slice |
| Pie.PieManyCategories | app.py:80-82 | with more than nine categories, none called `기타` among the nine largest, the pie is exactly those nine plus `기타` holding the sum of all the others |
| Pie.RankedOfPie | app.py:80-82 | ranking the slices of a pie again gives the pie back |
| Pie.PieRepeat | app.py:80-82 | drawing the pie of a pie gives the same pie when it has at most nine slices or its tenth slice is already `기타` |
| Pie.PieRepeatMerges | app.py:80-82 | when the tenth slice is a real category, drawing the pie again removes that category's label, so the pie changes |
| Pie.PieLabels | app.py:80-82 | every slice is a category of the input or `기타` |
| Pie.PieData | app.py:79-88 | `df_ipie` / `df_opie`: at most ten slices, sorted by non-increasing amount, no label repeated |
| Pie.PieDataTotal | app.py:79-88 | the pie of a scoped table adds up to its proposal total |
| Bar.BarData | app.py:75-77 | `df_obar` has the same rows as the scoped net expenditure table, in non-increasing order of this year's proposal |
| Bar.DomainBars | app.py:270-271 | the domain bars are in ascending key order and add up to the total of `df_obar`, for both amount columns |
| Bar.SectorBars | app.py:306-309 | the sector bars are in ascending key order and add up to the rows of the hovered domain |
| Bar.ProgramBars | app.py:344-347 | the programme bars are in ascending key order and add up to the rows of the hovered sector |
| Bar.LevelMember | app.py:270-271 | a level grouped by one column shows a bar for label `x` exactly when some row carries `x`, with the total of those rows |
| Bar.DomainBarsMember | app.py:270-271 | one bar per domain that occurs, carrying the total of that domain's rows |
| Bar.SectorBarsMember | app.py:306-309 | one bar per sector that occurs in the hovered domain, carrying the total of its rows there |
| Bar.ProgramBarsMember | app.py:344-347 | one bar per programme that occurs in the hovered sector, carrying the total of its rows there |
| Bar.SectorBarsTotal | app.py:306-309 | the sector bars of domain `d` add up to the domain bar of `d`, for both amount columns |
| Bar.ProgramBarsTotal | app.py:344-347 | the programme bars of sector `s` add up to the sector bar of `s` on the second level when `s` lies in domain `d` only |
| Bar.HoverMiss | app.py:306-309 | a hovered domain or sector that no row carries gives an empty chart |
| Bar.WhereSectorInDomain | app.py:345 | filtering by domain then by sector is filtering by sector when the sector lies in that domain |
| Bar.BarsIgnoreOrder | app.py:270-271 | every drill-down level depends on the rows of `df_obar`, not on their order |
| Bar.BarDataBars | app.py:76 | sorting `df_obar` changes no level of the drill-down |
| EdgeGroups.HopGroups | app.py:91 | every group of a hop is keyed by a pair of labels |
| EdgeGroups.HopGroupsMember | app.py:91 | a hop has one group per pair of labels that occurs, carrying that pair's budget sum |
| EdgeGroups.Edges | app.py:92-93 | every group becomes the edge between its two padded labels, carrying its sum |
| EdgeGroups.Flow | app.py:91-123 | one edge per label-pair group of the hop |
| EdgeGroups.FlowTotal | app.py:91-123 | the edge amounts of each hop add up to the budget total of its scoped table |
| EdgeGroups.FlowFromRows | app.py:91-93 | every edge joins the padded labels of some row and carries the sum over its label pair |
| EdgeGroups.FlowCoversRows | app.py:91-93 | every row of the table has the edge of its label pair |
| EdgeGroups.PaddedInjective | app.py:92-123 | two trimmed labels give the same node exactly when they and their padding are equal, so the two chains share no padded ministry node |
| Highlighting.Ranking | app.py:95 | `sort_values(ascending=False).index` lists positions of the group |
| Highlighting.RankingFacts | app.py:95 | the ranking lists every position once with its amount, in non-increasing order of amount |
| Highlighting.Highlight | app.py:94-95 | the colouring fails exactly when the group has fewer edges than the palette has colours; otherwise one colour per edge |
| Highlighting.HighlightPalette | app.py:94-95 | the edge ranked `j` gets palette colour `j`, for every `j` below `top_n` |
| Highlighting.HighlightDefault | app.py:94-95 | every edge outside the first `top_n` of the ranking keeps `line_color_default` |
| Highlighting.HighlightOrder | app.py:95 | every highlighted edge carries at least the amount of every edge left in the default colour |
| Highlighting.HighlightColumn | app.py:94-95 | filling the colour column in place, then writing the palette in ranking order, gives `Highlight` |
| Sankey.FirstIndex | app.py:134 | `node[node == x].index.values[0]` is the first position holding `x` |
| Sankey.Dedup | app.py:128-131 | `drop_duplicates` keeps every label, each once, in order of first occurrence |
| Sankey.Indices | app.py:133-141 | every endpoint label maps to a node index in range that holds that label |
| Sankey.NodeColumns | app.py:128-129 | every target label of the six groups, and every source label of the first hop of each chain, is among the eight columns |
| Sankey.EndpointsAreNodes | app.py:128-141 | every endpoint of every edge is among the eight node columns, because each hop starts where the one before it ends |
| Sankey.ChainLink | app.py:97-123 | a hop's source labels are target labels of the hop before it in the chain |
| Sankey.GroupEndpoints | app.py:128-129 | both endpoints of an edge of any one of the six groups are node labels |
| Sankey.Layout | app.py:128-149 | the node list is the deduplicated columns in first-seen order; source, target and value have one entry per edge; every index is in range and points at the edge's label |
| Sankey.Assemble | app.py:128-149 | the same facts for the six concatenated edge groups and the eight label columns |
| Sankey.Colors | app.py:147-149 | one colour per edge |
| Sankey.ColorsIndex | app.py:147-149 | edge `i` of group `k` gets colour `i` of that group's highlighting |
| Sankey.AssembleColors | app.py:147-149 | the diagram's colour column carries each group's own highlighting |
| Sankey.BuildSankey | app.py:90-149 | `gen_sankey_data` fails exactly when some group has fewer than `top_n` edges; otherwise every endpoint is a node and the result is the assembled diagram |
| Scope.ScopeControl.constructor | app.py:66-73 | a new scope holds the year and the four tables restricted to it |
| Scope.ScopeControl.GenBarData | app.py:75-77 | `df_obar` becomes the sorted net expenditure of the scope |
| Scope.ScopeControl.GenPieData | app.py:79-88 | `df_ipie` and `df_opie` become the pies of net income by item and net expenditure by domain |
| Scope.ScopeControl.GenSankeyData | app.py:90-149 | the diagram of the scope's gross tables |
| Scope.Dashboard.constructor | app.py:152 | the dashboard starts on a fresh scope for 2018 |
| Scope.Dashboard.Rescope | app.py:214-216 | the scope is rebuilt only when the year differs and is left untouched otherwise; afterwards its year is the requested one |
| Scope.Dashboard.InPie | app.py:212-234 | the income pie is the pie of the net income rows of the requested year |
| Scope.Dashboard.OutPie | app.py:237-259 | the expenditure pie is the pie of the net expenditure rows of the requested year |
| Scope.Dashboard.DomainChart | app.py:262-295 | the two series are the domain bars of the requested year's `df_obar` |
| Scope.Dashboard.SectorChart | app.py:298-333 | the two series are the sector bars of the hovered domain |
| Scope.Dashboard.ProgramChart | app.py:336-371 | the two series are the programme bars of the hovered sector |
| Scope.Dashboard.SankeyChart | app.py:374-412 | the diagram of the requested year's gross tables, or `None` where the source raises |

## Left out

- Reading the folder and the CSV text (`os.listdir`, `pd.read_csv` with
  cp949). Each file is given as its name and its parsed rows, in listing
  order.
- The Dash application and its layout, the callback wiring, the plotly figure
  dictionaries, chart titles, the fixed bar and node colours (app.py:23-27)
  and `run_server`. These are presentation and a foreign library.
- The year dropdown's range 2007-2018 (app.py:164). The model accepts any
  year.
- The hover input is a plain label parameter. Reading it out of `hoverData`
  and the layout's initial hover values are not modelled.
- The `/ 10e4` scaling of Sankey values (app.py:144). It is floating point;
  the model keeps the integer sums.
- Writing colours as `'rgb(...)'` and `'rgba(...)'` strings. Colours are
  integer triples, and the default link colour keeps its alpha as a percentage.
- Sorting.SortDesc: orders equal amounts stably, while pandas' default sort
  promises no order among ties. No lemma depends on which order ties take.
  `PieRepeat` uses only that sorting the same rows twice gives the same
  order, which pandas' deterministic sort also does.
- Palette.InterpolateColors: requires `cut != 0`. With `cut == 0` the source
  raises `ZeroDivisionError`, and the model leaves that path out. Both call
  sites pass 9 (app.py:20 and app.py:30 with `top_n = 10`).
- Missing values: pandas drops rows with a missing group key from a
  group-by. The model's records have no missing labels.
- Amount sums are unbounded integers. Overflow of pandas' 64-bit sums is not
  modelled.
- Only the five columns that `df_obar` selects (app.py:76) are read by the bar
  levels. The model carries whole rows; the other columns do not affect any
  result.
- Scope.ScopeControl.GenSankeyData: returns the diagram instead of storing
  `node`, `source`, `target`, `value` and `color` as attributes. The only
  reader of those attributes is the Sankey callback, right after the call.
- Scope.ScopeControl.constructor: starts `df_obar`, `df_ipie` and `df_opie`
  as empty tables. In the source these attributes do not exist until the
  first `gen_*` call.
- Callbacks that run at the same time and share the global `scope` are not
  modelled. The model runs callbacks one after another.
