/** The colouring of one edge group (app.py:94-95 and the same two lines in
    each of the other five hops): every edge gets the translucent default,
    then the `top_n` edges with the largest amounts get the `line_color`
    palette, the largest the darkest. The assignment writes all `top_n`
    palette entries, so a group with fewer than `top_n` edges makes pandas
    raise `ValueError`; the model returns `None` there. */
module Highlighting {
  import opened Outcome
  import opened Sorting
  import opened Palette

  /** A position in an edge group and the amount of the edge there. */
  datatype Entry = Entry(index: nat, amount: int)

  function EntryAmount(e: Entry): int
  {
    e.amount
  }

  function EntryIndex(e: Entry): nat
  {
    e.index
  }

  /** The amounts with their positions. */
  function Entries(amounts: seq<int>): (r: seq<Entry>)
    ensures |r| == |amounts|
    ensures forall i :: 0 <= i < |r| ==> r[i] == Entry(i, amounts[i])
  {
    seq(|amounts|, i requires 0 <= i < |amounts| => Entry(i, amounts[i]))
  }

  /** `amounts.sort_values(ascending=False).index`: the positions of the
      amounts, largest amount first. */
  function Ranking(amounts: seq<int>): (r: seq<Entry>)
    ensures |r| == |amounts|
    ensures forall e :: e in r ==> e.index < |amounts|
  {
    var es := Entries(amounts);
    var r := SortDesc(es, EntryAmount);
    SortDescPermutes(es, EntryAmount);
    assert forall e :: e in r ==> e in multiset(es);
    r
  }

  /** The ranking lists every position exactly once with its amount, in
      non-increasing order of amount. */
  lemma RankingFacts(amounts: seq<int>)
    ensures NonIncreasing(Ranking(amounts), EntryAmount)
    ensures DistinctBy(Ranking(amounts), EntryIndex)
    ensures forall e :: e in Ranking(amounts) <==> e.index < |amounts| && e.amount == amounts[e.index]
  {
    var es := Entries(amounts);
    var r := Ranking(amounts);
    SortDescDistinctBy(es, EntryAmount, EntryIndex);
    SortDescOrdered(es, EntryAmount);
    SortDescPermutes(es, EntryAmount);
    assert forall e :: e in r <==> e in es by {
      forall e ensures e in r <==> e in es {
        assert e in r <==> e in multiset(r);
        assert e in es <==> e in multiset(es);
      }
    }
    forall e: Entry | e.index < |amounts| && e.amount == amounts[e.index] ensures e in es {
      assert es[e.index] == e;
    }
  }

  /** Position `i` is among the first `n` of the ranking. */
  ghost predicate Painted(ranked: seq<Entry>, n: nat, i: nat)
  {
    exists j :: 0 <= j < n && j < |ranked| && ranked[j].index == i
  }

  /** The colour column of an edge group with amounts `amounts`: every edge
      has the default colour, then `palette[j]` goes to the edge ranked `j`,
      for each `j` in turn (`colors.loc[positions, col] = palette`). `None`
      when the group has fewer edges than the palette has colours. */
  function Highlight(amounts: seq<int>, palette: seq<Color>, default: Color): (r: Option<seq<Color>>)
    ensures r.None? <==> |amounts| < |palette|
    ensures r.Some? ==> |r.value| == |amounts|
  {
    if |amounts| < |palette| then None
    else if palette == [] then Some(seq(|amounts|, _ => default))
    else
      var n := |palette| - 1;
      var ranked := Ranking(amounts);
      var before := Highlight(amounts, palette[..n], default).value;
      assert ranked[n] in ranked;
      Some(before[ranked[n].index := palette[n]])
  }

  /** Every entry of the ranking names a position of the amounts. */
  lemma RankedPositions(amounts: seq<int>)
    ensures forall j :: 0 <= j < |Ranking(amounts)| ==> Ranking(amounts)[j].index < |amounts|
  {
    var ranked := Ranking(amounts);
    forall j | 0 <= j < |ranked| ensures ranked[j].index < |amounts| {
      assert ranked[j] in ranked;
    }
  }

  /** The edge ranked `j` gets `palette[j]`, for every `j` below `top_n`. */
  lemma {:induction false} HighlightPalette(amounts: seq<int>, palette: seq<Color>, default: Color)
    requires |palette| <= |amounts|
    ensures forall j :: 0 <= j < |palette| ==>
      Highlight(amounts, palette, default).value[Ranking(amounts)[j].index] == palette[j]
    decreases |palette|
  {
    if palette != [] {
      var ranked := Ranking(amounts);
      RankedPositions(amounts);
      var n := |palette| - 1;
      var front := palette[..n];
      HighlightPalette(amounts, front, default);
      RankingFacts(amounts);
      var before := Highlight(amounts, front, default).value;
      var r := Highlight(amounts, palette, default).value;
      assert r == before[ranked[n].index := palette[n]];
      forall j | 0 <= j < |palette| ensures r[ranked[j].index] == palette[j] {
        if j < n {
          assert ranked[j].index != ranked[n].index;
          assert before[ranked[j].index] == front[j];
        }
      }
    }
  }

  /** Every edge outside the first `top_n` of the ranking keeps the default
      colour. */
  lemma {:induction false} HighlightDefault(amounts: seq<int>, palette: seq<Color>, default: Color)
    requires |palette| <= |amounts|
    ensures forall i :: 0 <= i < |amounts| && !Painted(Ranking(amounts), |palette|, i) ==>
      Highlight(amounts, palette, default).value[i] == default
    decreases |palette|
  {
    if palette != [] {
      var ranked := Ranking(amounts);
      RankedPositions(amounts);
      var n := |palette| - 1;
      var front := palette[..n];
      HighlightDefault(amounts, front, default);
      var before := Highlight(amounts, front, default).value;
      var r := Highlight(amounts, palette, default).value;
      assert r == before[ranked[n].index := palette[n]];
      forall i | 0 <= i < |amounts| && !Painted(ranked, |palette|, i) ensures r[i] == default {
        assert ranked[n].index != i;
        assert !Painted(ranked, n, i);
      }
    }
  }

  /** Every highlighted edge carries at least the amount of every edge left in
      the default colour. */
  lemma HighlightOrder(amounts: seq<int>, n: nat, i: nat, k: nat)
    requires n <= |amounts| && k < |amounts|
    requires Painted(Ranking(amounts), n, i) && !Painted(Ranking(amounts), n, k)
    ensures amounts[i] >= amounts[k]
  {
    var r := Ranking(amounts);
    RankingFacts(amounts);
    var j :| 0 <= j < n && j < |r| && r[j].index == i;
    assert Entry(k, amounts[k]) in r;
    var m :| 0 <= m < |r| && r[m] == Entry(k, amounts[k]);
    assert r[j] in r;
  }

  /** The two statements of app.py:94-95 on a colour column held in an
      array: fill it with the default, then write the palette entries in
      ranking order. */
  method HighlightColumn(amounts: seq<int>, palette: seq<Color>, default: Color) returns (r: Option<seq<Color>>)
    ensures r == Highlight(amounts, palette, default)
  {
    if |amounts| < |palette| {
      return None;
    }
    var colors := new Color[|amounts|](_ => default);
    var ranked := Ranking(amounts);
    var j := 0;
    while j < |palette|
      invariant 0 <= j <= |palette|
      invariant colors[..] == Highlight(amounts, palette[..j], default).value
    {
      assert ranked[j] in ranked;
      assert palette[..j + 1][..j] == palette[..j];
      colors[ranked[j].index] := palette[j];
      j := j + 1;
    }
    assert palette[..j] == palette;
    return Some(colors[..]);
  }
}
