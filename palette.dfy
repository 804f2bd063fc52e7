/** Colour palettes: `interpolate_colors` (app.py:12-16) and the palettes built
    from it (app.py:19-31). A colour is an integer triple; writing it out as an
    `'rgb(r,g,b)'` string is presentation and is not modelled. */
module Palette {

  datatype Rgb = Rgb(r: int, g: int, b: int)

  /** A link colour: an opaque palette entry, or the translucent default. */
  datatype Color = Opaque(rgb: Rgb) | Translucent(rgb: Rgb, alphaPercent: int)

  /** The light and dark ends of every gradient in the dashboard. */
  const Light := Rgb(198, 212, 225)
  const Dark := Rgb(68, 116, 157)

  /** Number of highlighted links per Sankey stage. */
  const TopN := 10

  /** `line_color_default`, the colour `rgba(100, 100, 100, 0.2)`. */
  const LineColorDefault := Translucent(Rgb(100, 100, 100), 20)

  /** `c1 + ((c2 - c1) * n // cut)`. Python's `//` rounds down; for a positive
      divisor Dafny's `/` on `int` is the same operation. */
  function Channel(c1: int, c2: int, n: int, cut: int): int
    requires cut > 0
  {
    c1 + (c2 - c1) * n / cut
  }

  /** `x` lies on the segment between `lo` and `hi`, whichever way round. */
  predicate Within(x: int, lo: int, hi: int)
  {
    (lo <= x <= hi) || (hi <= x <= lo)
  }

  predicate RgbWithin(c: Rgb, c1: Rgb, c2: Rgb)
  {
    Within(c.r, c1.r, c2.r) && Within(c.g, c1.g, c2.g) && Within(c.b, c1.b, c2.b)
  }

  lemma DivMonotone(x: int, y: int, d: int)
    requires d > 0 && x <= y
    ensures x / d <= y / d
  {
    var qx, qy := x / d, y / d;
    var k := qx - qy - 1;
    assert d * k == d * qx - d * qy - d;
    assert d * k < 0;
    assert k < 0;
  }

  lemma MulDivCancel(x: int, d: int)
    requires d > 0
    ensures x * d / d == x
  {
    var q := x * d / d;
    var e := x - q;
    assert d * e == x * d - d * q;
    assert 0 <= d * e < d;
    assert e <= 0 by {
      assert d * (e - 1) == d * e - d;
    }
    assert e >= 0;
  }

  /** Multiplying by `d` keeps the order of `m <= n` when `d` is not
      negative and reverses it when `d` is negative. */
  lemma MulOrder(d: int, m: int, n: int)
    requires m <= n
    ensures d >= 0 ==> d * m <= d * n
    ensures d < 0 ==> d * n <= d * m
  {
    assert d * n - d * m == d * (n - m);
  }

  /** Every channel of the gradient lies between the two end channels. */
  lemma ChannelWithin(c1: int, c2: int, n: int, cut: int)
    requires cut > 0 && 0 <= n <= cut
    ensures Within(Channel(c1, c2, n, cut), c1, c2)
  {
    var d := c2 - c1;
    MulOrder(d, 0, n);
    MulOrder(d, n, cut);
    MulDivCancel(d, cut);
    if d >= 0 {
      DivMonotone(d * 0, d * n, cut);
      DivMonotone(d * n, d * cut, cut);
    } else {
      DivMonotone(d * n, d * 0, cut);
      DivMonotone(d * cut, d * n, cut);
    }
  }

  /** The gradient moves monotonically from the first end towards the second. */
  lemma ChannelMonotone(c1: int, c2: int, m: int, n: int, cut: int)
    requires cut > 0 && 0 <= m <= n <= cut
    ensures Within(Channel(c1, c2, m, cut), c1, Channel(c1, c2, n, cut))
  {
    var d := c2 - c1;
    MulOrder(d, 0, m);
    MulOrder(d, m, n);
    if d >= 0 {
      DivMonotone(d * 0, d * m, cut);
      DivMonotone(d * m, d * n, cut);
    } else {
      DivMonotone(d * m, d * 0, cut);
      DivMonotone(d * n, d * m, cut);
    }
  }

  /** `interpolate_colors(col1, col2, cut)`: `cut + 1` colours stepping from
      `col1` to `col2`. A `cut` of 0 divides by zero in the source; a negative
      `cut` makes `range(0, cut + 1)` empty. */
  function InterpolateColors(c1: Rgb, c2: Rgb, cut: int): (r: seq<Rgb>)
    requires cut != 0
    ensures cut < 0 ==> r == []
    ensures cut > 0 ==> |r| == cut + 1 && r[0] == c1 && r[cut] == c2
    ensures cut > 0 ==> forall n :: 0 <= n <= cut ==> RgbWithin(r[n], c1, c2)
  {
    if cut < 0 then []
    else
      var r := seq(cut + 1, n requires 0 <= n <= cut =>
        Rgb(Channel(c1.r, c2.r, n, cut), Channel(c1.g, c2.g, n, cut), Channel(c1.b, c2.b, n, cut)));
      assert forall n :: 0 <= n <= cut ==> RgbWithin(r[n], c1, c2) by {
        forall n | 0 <= n <= cut ensures RgbWithin(r[n], c1, c2) {
          ChannelWithin(c1.r, c2.r, n, cut);
          ChannelWithin(c1.g, c2.g, n, cut);
          ChannelWithin(c1.b, c2.b, n, cut);
        }
      }
      assert r[cut] == c2 by {
        MulDivCancel(c2.r - c1.r, cut);
        MulDivCancel(c2.g - c1.g, cut);
        MulDivCancel(c2.b - c1.b, cut);
      }
      r
  }

  /** Python's `s[::-1]`. */
  function Reverse<T>(s: seq<T>): (r: seq<T>)
    ensures |r| == |s|
    ensures forall i :: 0 <= i < |s| ==> r[i] == s[|s| - 1 - i]
  {
    seq(|s|, i requires 0 <= i < |s| => s[|s| - 1 - i])
  }

  /** Every channel of `c` is at most the matching channel of `d`. */
  predicate RgbLe(c: Rgb, d: Rgb)
  {
    c.r <= d.r && c.g <= d.g && c.b <= d.b
  }

  /** A palette reversed from the light-to-dark gradient with `cut + 1`
      entries: darkest first, lightest last. */
  function DarkFirst(cut: int): (r: seq<Rgb>)
    requires cut > 0
    ensures |r| == cut + 1 && r[0] == Dark && r[cut] == Light
  {
    Reverse(InterpolateColors(Light, Dark, cut))
  }

  /** Every entry lies between the two ends and each is lighter than or as
      light as the one before it, in every channel. */
  lemma DarkFirstGradient(cut: int)
    requires cut > 0
    ensures forall i :: 0 <= i <= cut ==> RgbWithin(DarkFirst(cut)[i], Dark, Light)
    ensures forall i, j :: 0 <= i <= j <= cut ==> RgbLe(DarkFirst(cut)[i], DarkFirst(cut)[j])
  {
    var r := DarkFirst(cut);
    forall i | 0 <= i <= cut ensures RgbWithin(r[i], Dark, Light) {
      ChannelWithin(Light.r, Dark.r, cut - i, cut);
      ChannelWithin(Light.g, Dark.g, cut - i, cut);
      ChannelWithin(Light.b, Dark.b, cut - i, cut);
    }
    forall i, j | 0 <= i <= j <= cut ensures RgbLe(r[i], r[j]) {
      var m, n := cut - j, cut - i;
      ChannelMonotone(Light.r, Dark.r, m, n, cut);
      ChannelMonotone(Light.g, Dark.g, m, n, cut);
      ChannelMonotone(Light.b, Dark.b, m, n, cut);
      ChannelWithin(Light.r, Dark.r, n, cut);
      ChannelWithin(Light.g, Dark.g, n, cut);
      ChannelWithin(Light.b, Dark.b, n, cut);
    }
  }

  /** `pie_color`: ten colours, darkest first (app.py:20). */
  function PieColor(): (r: seq<Rgb>)
    ensures |r| == 10 && r[0] == Dark && r[9] == Light
  {
    DarkFirst(9)
  }

  /** `line_color`: exactly `top_n` colours, darkest first (app.py:30). */
  function LineColor(): (r: seq<Rgb>)
    ensures |r| == TopN && r[0] == Dark && r[TopN - 1] == Light
  {
    DarkFirst(TopN - 1)
  }

  /** Along `line_color` every colour is lighter than or as light as the one
      before it in every channel, so larger links get darker colours. */
  lemma LineColorGradient()
    ensures forall i, j :: 0 <= i <= j < TopN ==> RgbLe(LineColor()[i], LineColor()[j])
  {
    DarkFirstGradient(TopN - 1);
  }
}
