/**
 * The template renderer: the downsampled picture, scaled up so that every grid cell
 * is a `scale` x `scale` block, pasted onto a white canvas with room on the left for
 * the row numbers and on top for the column numbers, then overlaid with gray grid
 * lines and black labels.  The canvas is modelled by its size and the sequence of
 * drawing operations applied to it.
 */
module Template {
  import opened Wrappers
  import opened Decimal
  import opened Raster

  /** Width and height of the bounding box of a text in the label font. */
  datatype Extent = Extent(width: nat, height: nat)

  /** Text measurement with the label font; it is left uninterpreted. */
  type Measure = string -> Extent

  /** The block size every caller renders with. */
  const DefaultScale: int := 5

  /** Room added to the widest (tallest) label to obtain the padding. */
  const PaddingExtra: int := 10

  /** Space between a label and the grid. */
  const LabelGap: int := 5

  /** The text of label `i`, counting from 0: `str(i + 1)`. */
  function Label(i: nat): string
  {
    NatToString(i + 1)
  }

  /** Python's `max` of a non-empty list. */
  function Max(xs: seq<nat>): (m: nat)
    requires |xs| > 0
    ensures m in xs
    ensures forall k :: 0 <= k < |xs| ==> xs[k] <= m
  {
    if |xs| == 1 then xs[0]
    else
      var rest := Max(xs[1..]);
      if xs[0] >= rest then xs[0] else rest
  }

  function LabelWidths(measure: Measure, n: nat): (ws: seq<nat>)
    ensures |ws| == n && forall i :: 0 <= i < n ==> ws[i] == measure(Label(i)).width
  {
    seq<nat>(n, i requires 0 <= i => measure(Label(i)).width)
  }

  function LabelHeights(measure: Measure, n: nat): (hs: seq<nat>)
    ensures |hs| == n && forall i :: 0 <= i < n ==> hs[i] == measure(Label(i)).height
  {
    seq<nat>(n, i requires 0 <= i => measure(Label(i)).height)
  }

  /** Left padding: the widest row label, "1" to `str(rows)`, plus 10. */
  function PaddingLeft(measure: Measure, rows: nat): nat
    requires rows >= 1
  {
    Max(LabelWidths(measure, rows)) + PaddingExtra
  }

  /** Top padding: the tallest column label, "1" to `str(columns)`, plus 10. */
  function PaddingTop(measure: Measure, columns: nat): nat
    requires columns >= 1
  {
    Max(LabelHeights(measure, columns)) + PaddingExtra
  }

  /** The arguments the renderer accepts without the imaging library raising ValueError. */
  predicate ValidArgs(pixelWidth: int, pixelHeight: int, scale: int)
  {
    pixelWidth >= 1 && pixelHeight >= 1 && scale >= 1
  }

  /** The numbers every drawing position is computed from. */
  datatype Layout = Layout(pixelWidth: nat, pixelHeight: nat, scale: nat, paddingLeft: nat, paddingTop: nat)

  function LayoutOf(pixelWidth: nat, pixelHeight: nat, scale: nat, measure: Measure): Layout
    requires pixelWidth >= 1 && pixelHeight >= 1
  {
    Layout(pixelWidth, pixelHeight, scale, PaddingLeft(measure, pixelHeight), PaddingTop(measure, pixelWidth))
  }

  function GridWidth(L: Layout): nat { L.pixelWidth * L.scale }

  function GridHeight(L: Layout): nat { L.pixelHeight * L.scale }

  function CanvasWidth(L: Layout): nat { GridWidth(L) + L.paddingLeft }

  function CanvasHeight(L: Layout): nat { GridHeight(L) + L.paddingTop }

  datatype Colour = Gray | Black

  /** One drawing operation on the canvas. */
  datatype Command =
    | Pasted(x: int, y: int, image: Size)
    | Line(x0: int, y0: int, x1: int, y1: int, fill: Colour)
    | Text(x: int, y: int, text: string, fill: Colour)

  /** Python's `range(start, stop, step)` for a positive step. */
  function Range(start: int, stop: int, step: int): seq<int>
    requires step >= 1
    decreases stop - start
  {
    if start >= stop then [] else [start] + Range(start + step, stop, step)
  }
  /**
   * `range` is empty exactly when `start >= stop`; otherwise it begins at `start` and
   * its last element is the last one before `stop`.
   */
  lemma {:induction false} RangeEnds(start: int, stop: int, step: int)
    requires step >= 1
    ensures Range(start, stop, step) == [] <==> start >= stop
    ensures var r := Range(start, stop, step);
      r != [] ==> r[0] == start && r[|r| - 1] < stop <= r[|r| - 1] + step
    decreases stop - start
  {
    if start < stop {
      RangeEnds(start + step, stop, step);
    }
  }


  function VerticalLine(L: Layout, x: int): Command
  {
    Line(x + L.paddingLeft, L.paddingTop, x + L.paddingLeft, CanvasHeight(L), Gray)
  }

  function HorizontalLine(L: Layout, y: int): Command
  {
    Line(L.paddingLeft, y + L.paddingTop, CanvasWidth(L), y + L.paddingTop, Gray)
  }

  /** One vertical line for each grid offset in `xs`. */
  function VerticalLines(L: Layout, xs: seq<int>): seq<Command>
  {
    if xs == [] then [] else [VerticalLine(L, xs[0])] + VerticalLines(L, xs[1..])
  }

  lemma {:induction false} VerticalLinesAt(L: Layout, xs: seq<int>)
    ensures |VerticalLines(L, xs)| == |xs|
    ensures forall k :: 0 <= k < |xs| ==> VerticalLines(L, xs)[k] == VerticalLine(L, xs[k])
  {
    if xs != [] {
      VerticalLinesAt(L, xs[1..]);
    }
  }

  /** One horizontal line for each grid offset in `ys`. */
  function HorizontalLines(L: Layout, ys: seq<int>): seq<Command>
  {
    if ys == [] then [] else [HorizontalLine(L, ys[0])] + HorizontalLines(L, ys[1..])
  }

  lemma {:induction false} HorizontalLinesAt(L: Layout, ys: seq<int>)
    ensures |HorizontalLines(L, ys)| == |ys|
    ensures forall k :: 0 <= k < |ys| ==> HorizontalLines(L, ys)[k] == HorizontalLine(L, ys[k])
  {
    if ys != [] {
      HorizontalLinesAt(L, ys[1..]);
    }
  }

  /** The lines of the first loop: `x` in `range(0, grid_width + 1, scale)`. */
  function VerticalGrid(L: Layout): seq<Command>
    requires L.scale >= 1
  {
    VerticalLines(L, Range(0, GridWidth(L) + 1, L.scale))
  }

  /** The lines of the second loop: `y` in `range(0, grid_height + 1, scale)`. */
  function HorizontalGrid(L: Layout): seq<Command>
    requires L.scale >= 1
  {
    HorizontalLines(L, Range(0, GridHeight(L) + 1, L.scale))
  }

  /** Row label `i`: right-aligned before the grid, centred on the row band. */
  function RowLabel(L: Layout, measure: Measure, i: nat): Command
  {
    var e := measure(Label(i));
    Text(L.paddingLeft - e.width - LabelGap, i * L.scale + L.paddingTop + (L.scale - e.height) / 2, Label(i), Black)
  }

  /** Column label `i`: above the grid, centred on the column band. */
  function ColumnLabel(L: Layout, measure: Measure, i: nat): Command
  {
    var e := measure(Label(i));
    Text(i * L.scale + L.paddingLeft + (L.scale - e.width) / 2, L.paddingTop - e.height - LabelGap, Label(i), Black)
  }

  function RowLabels(L: Layout, measure: Measure): seq<Command>
  {
    seq(L.pixelHeight, i requires 0 <= i => RowLabel(L, measure, i))
  }

  function ColumnLabels(L: Layout, measure: Measure): seq<Command>
  {
    seq(L.pixelWidth, i requires 0 <= i => ColumnLabel(L, measure, i))
  }

  /** Everything drawn on the template, in the order the renderer draws it. */
  function Drawing(L: Layout, measure: Measure): seq<Command>
    requires L.scale >= 1
  {
    [Pasted(L.paddingLeft, L.paddingTop, Size(GridWidth(L), GridHeight(L)))]
      + VerticalGrid(L) + HorizontalGrid(L) + RowLabels(L, measure) + ColumnLabels(L, measure)
  }

  /** The output image: a white canvas of fixed size and what has been drawn on it. */
  class Canvas {
    const size: Size
    var commands: seq<Command>

    constructor (size: Size)
      ensures this.size == size && commands == []
    {
      this.size := size;
      commands := [];
    }

    method PasteImage(x: int, y: int, image: Size)
      modifies this
      ensures commands == old(commands) + [Pasted(x, y, image)]
    {
      commands := commands + [Pasted(x, y, image)];
    }

    method DrawLine(x0: int, y0: int, x1: int, y1: int, fill: Colour)
      modifies this
      ensures commands == old(commands) + [Line(x0, y0, x1, y1, fill)]
    {
      commands := commands + [Line(x0, y0, x1, y1, fill)];
    }

    method DrawText(x: int, y: int, text: string, fill: Colour)
      modifies this
      ensures commands == old(commands) + [Text(x, y, text, fill)]
    {
      commands := commands + [Text(x, y, text, fill)];
    }
  }

  /**
   * The renderer.  A pixel count or a block size below 1 makes the imaging library
   * raise; otherwise the canvas is the scaled grid plus the padding, and holds exactly
   * the drawing of the grid's layout.
   */
  method CreateTemplate(source: Size, pixelWidth: int, pixelHeight: int, scale: int, measure: Measure)
    returns (r: Result<Canvas, ImageError>)
    ensures r.Failure? <==> !ValidArgs(pixelWidth, pixelHeight, scale)
    ensures r.Success? ==>
      var L := LayoutOf(pixelWidth, pixelHeight, scale, measure);
      fresh(r.value) && r.value.size == Size(CanvasWidth(L), CanvasHeight(L))
      && r.value.commands == Drawing(L, measure)
  {
    var small := Resize(source, pixelWidth, pixelHeight);
    if small.Failure? {
      return Failure(small.error);
    }
    PositiveFactor(small.value.width, scale);
    var scaled := Resize(small.value, small.value.width * scale, small.value.height * scale);
    if scaled.Failure? {
      return Failure(scaled.error);
    }
    var grid := scaled.value;

    var paddingLeft := PaddingLeft(measure, pixelHeight);
    var paddingTop := PaddingTop(measure, pixelWidth);
    var L := Layout(pixelWidth, pixelHeight, scale, paddingLeft, paddingTop);
    assert L == LayoutOf(pixelWidth, pixelHeight, scale, measure);
    assert grid == Size(GridWidth(L), GridHeight(L));
    var canvas := new Canvas(Size(grid.width + paddingLeft, grid.height + paddingTop));
    canvas.PasteImage(paddingLeft, paddingTop, grid);
    assert canvas.commands == [Pasted(L.paddingLeft, L.paddingTop, Size(GridWidth(L), GridHeight(L)))];
    DrawVerticalLines(canvas, L);
    DrawHorizontalLines(canvas, L);
    DrawRowLabels(canvas, L, measure);
    DrawColumnLabels(canvas, L, measure);
    r := Success(canvas);
  }

  /** The first loop: a vertical line at every block boundary. */
  method DrawVerticalLines(canvas: Canvas, L: Layout)
    requires L.scale >= 1 && canvas.size == Size(CanvasWidth(L), CanvasHeight(L))
    modifies canvas
    ensures canvas.commands == old(canvas.commands) + VerticalGrid(L)
  {
    ghost var done := canvas.commands;
    var stop := GridWidth(L) + 1;
    var x := 0;
    while x < stop
      invariant canvas.commands + VerticalLines(L, Range(x, stop, L.scale)) == done + VerticalGrid(L)
      decreases stop - x
    {
      VerticalLinesStep(L, x, stop);
      canvas.DrawLine(x + L.paddingLeft, L.paddingTop, x + L.paddingLeft, canvas.size.height, Gray);
      x := x + L.scale;
    }
  }

  /** The second loop: a horizontal line at every block boundary. */
  method DrawHorizontalLines(canvas: Canvas, L: Layout)
    requires L.scale >= 1 && canvas.size == Size(CanvasWidth(L), CanvasHeight(L))
    modifies canvas
    ensures canvas.commands == old(canvas.commands) + HorizontalGrid(L)
  {
    ghost var done := canvas.commands;
    var stop := GridHeight(L) + 1;
    var y := 0;
    while y < stop
      invariant canvas.commands + HorizontalLines(L, Range(y, stop, L.scale)) == done + HorizontalGrid(L)
      decreases stop - y
    {
      HorizontalLinesStep(L, y, stop);
      canvas.DrawLine(L.paddingLeft, y + L.paddingTop, canvas.size.width, y + L.paddingTop, Gray);
      y := y + L.scale;
    }
  }

  lemma VerticalLinesStep(L: Layout, x: int, stop: int)
    requires L.scale >= 1 && x < stop
    ensures VerticalLines(L, Range(x, stop, L.scale))
            == [VerticalLine(L, x)] + VerticalLines(L, Range(x + L.scale, stop, L.scale))
  {
    var rest := Range(x + L.scale, stop, L.scale);
    assert Range(x, stop, L.scale) == [x] + rest;
    assert ([x] + rest)[1..] == rest;
  }

  lemma HorizontalLinesStep(L: Layout, y: int, stop: int)
    requires L.scale >= 1 && y < stop
    ensures HorizontalLines(L, Range(y, stop, L.scale))
            == [HorizontalLine(L, y)] + HorizontalLines(L, Range(y + L.scale, stop, L.scale))
  {
    var rest := Range(y + L.scale, stop, L.scale);
    assert Range(y, stop, L.scale) == [y] + rest;
    assert ([y] + rest)[1..] == rest;
  }

  /** The loop over the rows: one label left of each row. */
  method DrawRowLabels(canvas: Canvas, L: Layout, measure: Measure)
    modifies canvas
    ensures canvas.commands == old(canvas.commands) + RowLabels(L, measure)
  {
    ghost var done := canvas.commands;
    for i := 0 to L.pixelHeight
      invariant canvas.commands == done + RowLabels(L, measure)[..i]
    {
      var text := Label(i);
      var e := measure(text);
      var y := i * L.scale + L.paddingTop + (L.scale - e.height) / 2;
      var x := L.paddingLeft - e.width - LabelGap;
      canvas.DrawText(x, y, text, Black);
    }
  }

  /** The loop over the columns: one label above each column. */
  method DrawColumnLabels(canvas: Canvas, L: Layout, measure: Measure)
    modifies canvas
    ensures canvas.commands == old(canvas.commands) + ColumnLabels(L, measure)
  {
    ghost var done := canvas.commands;
    for i := 0 to L.pixelWidth
      invariant canvas.commands == done + ColumnLabels(L, measure)[..i]
    {
      var text := Label(i);
      var e := measure(text);
      var x := i * L.scale + L.paddingLeft + (L.scale - e.width) / 2;
      var y := L.paddingTop - e.height - LabelGap;
      canvas.DrawText(x, y, text, Black);
    }
  }

  lemma PositiveFactor(a: nat, b: int)
    requires a >= 1
    ensures a * b >= 1 <==> b >= 1
  {
    if b < 1 {
      assert a * b <= 0;
    }
  }
}
