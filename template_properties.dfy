/**
 * What the drawing of a template amounts to: the canvas size, the lattice of grid
 * lines, and where the labels go.
 */
module TemplateProperties {
  import opened Decimal
  import opened Raster
  import opened Template

  /**
   * `range(start, stop, s)` with `start == j*s` and `stop == n*s + 1` lists the multiples
   * of `s` from `j*s` to `n*s`.
   */
  lemma {:induction false} RangeFrom(j: nat, n: nat, s: int, start: int, stop: int)
    requires s >= 1 && j <= n && start == j * s && stop == n * s + 1
    ensures |Range(start, stop, s)| == n + 1 - j
    ensures forall k :: 0 <= k < n + 1 - j ==> Range(start, stop, s)[k] == start + k * s
    decreases n - j
  {
    MultiplesIncrease(j, n, s);
    var rest := Range(start + s, stop, s);
    assert Range(start, stop, s) == [start] + rest;
    if j == n {
      assert start + s >= stop;
      assert rest == [];
    } else {
      MultiplesIncrease(j, j + 1, s);
      RangeFrom(j + 1, n, s, start + s, stop);
      forall k | 0 <= k < n + 1 - j
        ensures Range(start, stop, s)[k] == start + k * s
      {
        if k > 0 {
          assert Range(start, stop, s)[k] == rest[k - 1];
          assert (k - 1) * s + s == k * s;
        }
      }
    }
  }

  /** The grid-line offsets `range(0, n*s + 1, s)` are exactly `0, s, 2s, ..., n*s`. */
  lemma Lattice(n: nat, s: int)
    requires s >= 1
    ensures |Range(0, n * s + 1, s)| == n + 1
    ensures forall k :: 0 <= k <= n ==> Range(0, n * s + 1, s)[k] == k * s
  {
    RangeFrom(0, n, s, 0, n * s + 1);
  }

  /** For j < k, the k-th multiple of s lies at least one step beyond the j-th. */
  lemma MultiplesIncrease(j: nat, k: nat, s: int)
    requires s >= 1 && j <= k
    ensures j * s <= k * s
    ensures j < k ==> j * s + s <= k * s
  {
    var d := k - j;
    assert k * s == j * s + d * s;
    if d > 0 {
      assert d * s == s + (d - 1) * s;
      assert (d - 1) * s >= 0;
    }
  }

  /**
   * There are `pixel_width + 1` vertical lines, one block apart, from the left edge of
   * the pasted grid to the right edge of the canvas; each runs from the top of the grid
   * to the bottom of the canvas.
   */
  lemma VerticalGridlines(L: Layout)
    requires L.scale >= 1
    ensures |VerticalGrid(L)| == L.pixelWidth + 1
    ensures forall k :: 0 <= k <= L.pixelWidth ==>
              VerticalGrid(L)[k] == Line(L.paddingLeft + k * L.scale, L.paddingTop,
                                         L.paddingLeft + k * L.scale, CanvasHeight(L), Gray)
    ensures forall j, k :: 0 <= j < k <= L.pixelWidth ==>
              VerticalGrid(L)[j].x0 + L.scale <= VerticalGrid(L)[k].x0
    ensures VerticalGrid(L)[0].x0 == L.paddingLeft
    ensures VerticalGrid(L)[L.pixelWidth].x0 == CanvasWidth(L)
  {
    var xs := Range(0, GridWidth(L) + 1, L.scale);
    Lattice(L.pixelWidth, L.scale);
    VerticalLinesAt(L, xs);
    forall j, k | 0 <= j < k <= L.pixelWidth
      ensures VerticalGrid(L)[j].x0 + L.scale <= VerticalGrid(L)[k].x0
    {
      MultiplesIncrease(j, k, L.scale);
    }
  }

  /**
   * There are `pixel_height + 1` horizontal lines, one block apart, from the top edge of
   * the pasted grid to the bottom of the canvas; each runs from the left edge of the grid
   * to the right edge of the canvas.
   */
  lemma HorizontalGridlines(L: Layout)
    requires L.scale >= 1
    ensures |HorizontalGrid(L)| == L.pixelHeight + 1
    ensures forall k :: 0 <= k <= L.pixelHeight ==>
              HorizontalGrid(L)[k] == Line(L.paddingLeft, L.paddingTop + k * L.scale,
                                           CanvasWidth(L), L.paddingTop + k * L.scale, Gray)
    ensures forall j, k :: 0 <= j < k <= L.pixelHeight ==>
              HorizontalGrid(L)[j].y0 + L.scale <= HorizontalGrid(L)[k].y0
    ensures HorizontalGrid(L)[0].y0 == L.paddingTop
    ensures HorizontalGrid(L)[L.pixelHeight].y0 == CanvasHeight(L)
  {
    var ys := Range(0, GridHeight(L) + 1, L.scale);
    Lattice(L.pixelHeight, L.scale);
    HorizontalLinesAt(L, ys);
    forall j, k | 0 <= j < k <= L.pixelHeight
      ensures HorizontalGrid(L)[j].y0 + L.scale <= HorizontalGrid(L)[k].y0
    {
      MultiplesIncrease(j, k, L.scale);
    }
  }

  /** The left padding is 10 more than the widest row label, and no wider than that. */
  lemma PaddingLeftFitsRowLabels(measure: Measure, rows: nat)
    requires rows >= 1
    ensures forall i :: 0 <= i < rows ==> measure(Label(i)).width + PaddingExtra <= PaddingLeft(measure, rows)
    ensures exists i :: 0 <= i < rows && measure(Label(i)).width + PaddingExtra == PaddingLeft(measure, rows)
  {
    var ws := LabelWidths(measure, rows);
    var m := Max(ws);
    var i :| 0 <= i < rows && ws[i] == m;
    assert measure(Label(i)).width + PaddingExtra == PaddingLeft(measure, rows);
  }

  /** The top padding is 10 more than the tallest column label, and no taller than that. */
  lemma PaddingTopFitsColumnLabels(measure: Measure, columns: nat)
    requires columns >= 1
    ensures forall i :: 0 <= i < columns ==> measure(Label(i)).height + PaddingExtra <= PaddingTop(measure, columns)
    ensures exists i :: 0 <= i < columns && measure(Label(i)).height + PaddingExtra == PaddingTop(measure, columns)
  {
    var hs := LabelHeights(measure, columns);
    var m := Max(hs);
    var i :| 0 <= i < columns && hs[i] == m;
    assert measure(Label(i)).height + PaddingExtra == PaddingTop(measure, columns);
  }

  /**
   * One label per row, the i-th reading `str(i + 1)`; none is clipped on the left, each
   * ends 5 pixels before the grid, and each is centred on its row band (the space below
   * it exceeds the space above by 0 or 1 pixel, however tall the label).
   */
  lemma RowLabelPlacement(pixelWidth: nat, pixelHeight: nat, scale: nat, measure: Measure)
    requires ValidArgs(pixelWidth, pixelHeight, scale)
    ensures var L := LayoutOf(pixelWidth, pixelHeight, scale, measure);
      var T := RowLabels(L, measure);
      |T| == pixelHeight &&
      forall i :: 0 <= i < pixelHeight ==>
        var e := measure(T[i].text);
        T[i].Text? && T[i].text == NatToString(i + 1) && T[i].fill == Black
        && T[i].x >= LabelGap && T[i].x + e.width == L.paddingLeft - LabelGap
        && 0 <= ((i + 1) * scale + L.paddingTop - (T[i].y + e.height)) - (T[i].y - (i * scale + L.paddingTop)) <= 1
  {
    var L := LayoutOf(pixelWidth, pixelHeight, scale, measure);
    PaddingLeftFitsRowLabels(measure, pixelHeight);
    forall i | 0 <= i < pixelHeight
      ensures var T := RowLabels(L, measure); var e := measure(T[i].text);
        0 <= ((i + 1) * scale + L.paddingTop - (T[i].y + e.height)) - (T[i].y - (i * scale + L.paddingTop)) <= 1
    {
      var e := measure(Label(i));
      assert (i + 1) * scale == i * scale + scale;
      HalfSplit(scale - e.height);
    }
  }

  /**
   * One label per column, the i-th reading `str(i + 1)`; none is clipped at the top, each
   * ends 5 pixels above the grid, and each is centred on its column band (the space to
   * its right exceeds the space to its left by 0 or 1 pixel, however wide the label).
   */
  lemma ColumnLabelPlacement(pixelWidth: nat, pixelHeight: nat, scale: nat, measure: Measure)
    requires ValidArgs(pixelWidth, pixelHeight, scale)
    ensures var L := LayoutOf(pixelWidth, pixelHeight, scale, measure);
      var T := ColumnLabels(L, measure);
      |T| == pixelWidth &&
      forall i :: 0 <= i < pixelWidth ==>
        var e := measure(T[i].text);
        T[i].Text? && T[i].text == NatToString(i + 1) && T[i].fill == Black
        && T[i].y >= LabelGap && T[i].y + e.height == L.paddingTop - LabelGap
        && 0 <= ((i + 1) * scale + L.paddingLeft - (T[i].x + e.width)) - (T[i].x - (i * scale + L.paddingLeft)) <= 1
  {
    var L := LayoutOf(pixelWidth, pixelHeight, scale, measure);
    PaddingTopFitsColumnLabels(measure, pixelWidth);
    forall i | 0 <= i < pixelWidth
      ensures var T := ColumnLabels(L, measure); var e := measure(T[i].text);
        0 <= ((i + 1) * scale + L.paddingLeft - (T[i].x + e.width)) - (T[i].x - (i * scale + L.paddingLeft)) <= 1
    {
      var e := measure(Label(i));
      assert (i + 1) * scale == i * scale + scale;
      HalfSplit(scale - e.width);
    }
  }

  /** Floor halving of any integer leaves a remainder of 0 or 1 (Python's `//` by 2). */
  lemma HalfSplit(d: int)
    ensures 0 <= (d - d / 2) - d / 2 <= 1
  {
  }

  /**
   * Every number from 1 to the count appears as exactly one label: label `i` reads back
   * as `i + 1`, and no two labels have the same text.
   */
  lemma LabelsNumberEachBandOnce(count: nat)
    ensures forall i :: 0 <= i < count ==> DigitsValue(Label(i)) == i + 1
    ensures forall n: nat :: 1 <= n <= count ==> Label(n - 1) == NatToString(n)
    ensures forall i, j :: 0 <= i < count && 0 <= j < count && Label(i) == Label(j) ==> i == j
  {
    forall i | 0 <= i < count
      ensures DigitsValue(Label(i)) == i + 1
    {
      DigitsValueOfNatToString(i + 1);
    }
    forall i, j | 0 <= i < count && 0 <= j < count && Label(i) == Label(j)
      ensures i == j
    {
      NatToStringInjective(i + 1, j + 1);
    }
  }

  /** A column label no wider than a block lies within its column band, hence inside the canvas. */
  lemma NarrowColumnLabelInBand(L: Layout, measure: Measure, i: nat)
    requires i < L.pixelWidth && measure(Label(i)).width <= L.scale
    ensures L.paddingLeft + i * L.scale <= ColumnLabel(L, measure, i).x
    ensures ColumnLabel(L, measure, i).x + measure(Label(i)).width <= L.paddingLeft + (i + 1) * L.scale
    ensures L.paddingLeft + (i + 1) * L.scale <= CanvasWidth(L)
  {
    BandFits(i, L.pixelWidth, L.scale);
  }

  /** A row label no taller than a block lies within its row band, hence inside the canvas. */
  lemma NarrowRowLabelInBand(L: Layout, measure: Measure, i: nat)
    requires i < L.pixelHeight && measure(Label(i)).height <= L.scale
    ensures L.paddingTop + i * L.scale <= RowLabel(L, measure, i).y
    ensures RowLabel(L, measure, i).y + measure(Label(i)).height <= L.paddingTop + (i + 1) * L.scale
    ensures L.paddingTop + (i + 1) * L.scale <= CanvasHeight(L)
  {
    BandFits(i, L.pixelHeight, L.scale);
  }

  /** Band `i` of `count` bands of width `s` ends at or before `count * s`. */
  lemma BandFits(i: nat, count: nat, s: nat)
    requires i < count
    ensures (i + 1) * s == i * s + s && (i + 1) * s <= count * s
  {
    if s > 0 {
      MultiplesIncrease(i + 1, count, s);
    }
  }

  /**
   * The padding protects only the left and top edges: on a one-cell grid with blocks of
   * 5 pixels, a label 8 pixels wide and tall runs past the right edge and the bottom
   * edge of the canvas.
   */
  lemma WideLabelsLeaveCanvas()
    ensures var measure: Measure := _ => Extent(8, 8);
      var L := LayoutOf(1, 1, 5, measure);
      ColumnLabel(L, measure, 0).x + 8 > CanvasWidth(L)
      && RowLabel(L, measure, 0).y + 8 > CanvasHeight(L)
  {
    var measure: Measure := _ => Extent(8, 8);
    assert LabelWidths(measure, 1) == [8];
    assert LabelHeights(measure, 1) == [8];
  }

  /**
   * The drawing: the scaled grid pasted at the padding offset and filling the canvas to
   * its right and bottom edges, then the lines and labels, one per boundary and per band.
   */
  lemma DrawingShape(pixelWidth: nat, pixelHeight: nat, scale: nat, measure: Measure)
    requires ValidArgs(pixelWidth, pixelHeight, scale)
    ensures var L := LayoutOf(pixelWidth, pixelHeight, scale, measure);
      var D := Drawing(L, measure);
      |D| == 2 * pixelWidth + 2 * pixelHeight + 3
      && D[0] == Pasted(L.paddingLeft, L.paddingTop, Size(pixelWidth * scale, pixelHeight * scale))
      && D[0].x + D[0].image.width == CanvasWidth(L)
      && D[0].y + D[0].image.height == CanvasHeight(L)
  {
    var L := LayoutOf(pixelWidth, pixelHeight, scale, measure);
    VerticalGridlines(L);
    HorizontalGridlines(L);
  }

  /** Twenty by fifty cells in blocks of five give a 100 by 250 grid inside the padding. */
  lemma DefaultScenario(measure: Measure)
    ensures var L := LayoutOf(20, 50, DefaultScale, measure);
      GridWidth(L) == 100 && GridHeight(L) == 250
      && CanvasWidth(L) == 100 + PaddingLeft(measure, 50)
      && CanvasHeight(L) == 250 + PaddingTop(measure, 20)
  {
  }
}
