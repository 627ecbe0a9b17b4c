/**
 * The frame geometry `draw` computes from the terminal size (h rows, w columns)
 * and the cursor: the plot area, how many prices fit, which contiguous range of
 * prices is visible, where the content sits inside the frame and which column
 * each price is drawn at. Python's `//` by a positive constant is Dafny's `/`
 * on `int` (both round towards minus infinity there), so `left_pad` is -1 on a
 * terminal five columns wide or less, exactly as in the source.
 */
module Viewport {
  import opened Common
  import opened Clip

  const HeaderRows: int := 4
  const FooterRows: int := 6

  datatype Geometry = Geometry(
    plotH: int, plotY: int,
    innerLeft: int, innerRight: int, innerW: int, innerTop: int, innerH: int,
    pricesFit: int, start: int, end: int,
    leftPad: int, contentLeft: int, contentRight: int,
    frameLeft: int, frameRight: int)

  /**
   * The geometry of one frame. At least one and at most 101 prices are shown;
   * the visible range stays inside [0, 100], has `pricesFit` prices and holds
   * the cursor; the content spans exactly two columns per visible price.
   */
  function Layout(h: int, w: int, cursor: int): (g: Geometry)
    ensures 1 <= g.pricesFit <= 101
    ensures 0 <= g.start && g.end == g.start + g.pricesFit - 1 && g.end <= 100
    ensures 0 <= cursor <= 100 ==> g.start <= cursor <= g.end
    ensures g.contentRight - g.contentLeft + 1 == 2 * g.pricesFit
  {
    var plotH := Max(8, h - HeaderRows - FooterRows);
    var plotY := HeaderRows;
    var innerLeft := 2;
    var innerRight := w - 3;
    var innerW := Max(1, innerRight - innerLeft + 1);
    var innerTop := plotY + 1;
    var innerH := Max(1, plotH - 2);
    var pricesFit := Max(1, Min(101, innerW / 2));
    var start := Clamp(cursor - pricesFit / 2, 0, 101 - pricesFit);
    var end := start + pricesFit - 1;
    var leftPad := (innerW - pricesFit * 2) / 2;
    var contentLeft := innerLeft + leftPad;
    var contentRight := contentLeft + pricesFit * 2 - 1;
    var frameLeft := Max(1, contentLeft - 1);
    var frameRight := Min(w - 2, contentRight + 1);
    Geometry(plotH, plotY, innerLeft, innerRight, innerW, innerTop, innerH,
             pricesFit, start, end, leftPad, contentLeft, contentRight, frameLeft, frameRight)
  }

  /**
   * The viewport is centred on the cursor whenever that keeps it inside
   * [0, 100]; otherwise it is pinned to the nearer end of the axis.
   */
  lemma ViewportCentring(h: int, w: int, cursor: int)
    requires 0 <= cursor <= 100
    ensures var g := Layout(h, w, cursor);
      && (g.pricesFit / 2 <= cursor <= 100 - (g.pricesFit - 1 - g.pricesFit / 2) ==>
            g.start == cursor - g.pricesFit / 2)
      && (cursor < g.pricesFit / 2 ==> g.start == 0)
      && (cursor > 100 - (g.pricesFit - 1 - g.pricesFit / 2) ==> g.end == 100)
  {
  }

  /**
   * Horizontal layout. On a terminal at least six columns wide, `pricesFit` is
   * the largest count (up to 101) whose two-column slots fit the inner width;
   * the content lies inside the inner area, centred with the odd leftover
   * column on the right; and the frame sits one column outside the content on
   * each side, inside the screen. On a narrower terminal `left_pad` is -1.
   */
  lemma ContentColumns(h: int, w: int, cursor: int)
    ensures var g := Layout(h, w, cursor);
      && g.leftPad >= -1
      && (g.leftPad == -1 <==> w <= 5)
      && (w >= 6 ==> 2 * g.pricesFit <= g.innerW && (g.pricesFit == 101 || g.innerW < 2 * (g.pricesFit + 1)))
      && (w >= 6 ==> g.innerLeft <= g.contentLeft && g.contentRight <= g.innerRight)
      && (w >= 6 ==> g.leftPad <= g.innerRight - g.contentRight <= g.leftPad + 1)
      && (w >= 6 ==> 1 <= g.frameLeft == g.contentLeft - 1 && g.frameRight == g.contentRight + 1 <= w - 2)
  {
  }

  /**
   * Vertical layout: four header rows, then the plot; the bars and the cursor
   * line use exactly the rows strictly between the plot's top and bottom rules,
   * at least six of them. Once the terminal is 18 rows high or more the plot
   * ends right where the six-row footer begins, so the lower cursor glyph at
   * `plot_y + plot_h` shares its row with the footer's first line.
   */
  lemma VerticalLayout(h: int, w: int, cursor: int)
    ensures var g := Layout(h, w, cursor);
      && g.plotY == HeaderRows && g.plotH >= 8
      && g.innerTop == g.plotY + 1
      && g.innerTop + g.innerH == g.plotY + g.plotH - 1
      && g.innerH >= 6
      && (h >= 18 ==> g.plotY + g.plotH == h - FooterRows)
  {
  }

  /**
   * `x_yes(p)`: the column where price p's YES bar is drawn. On a geometry whose
   * content spans two columns per visible price, the first visible price is on
   * the content's left edge and every visible price lands inside the content,
   * with the column after it still inside.
   */
  function XYes(g: Geometry, p: int): (x: int)
    ensures p == g.start ==> x == g.contentLeft
    ensures g.start <= p <= g.end && g.end == g.start + g.pricesFit - 1
            && g.contentRight - g.contentLeft + 1 == 2 * g.pricesFit ==>
              g.contentLeft <= x && x + 1 <= g.contentRight
  {
    g.contentLeft + 2 * (p - g.start)
  }

  /** `x_no(p)`: the NO bar of a price is drawn on the same column as its YES bar. */
  function XNo(g: Geometry, p: int): (x: int)
    ensures x == XYes(g, p)
  {
    g.contentLeft + 2 * (p - g.start)
  }

  /**
   * The column map, on a terminal of any width: the first visible price sits on
   * the content's left edge, the last one on the column before its right edge,
   * each price two columns after the previous, so the map is strictly
   * increasing and every visible price lands inside the content.
   */
  lemma {:induction false} ColumnMap(h: int, w: int, cursor: int, p: int, q: int)
    requires var g := Layout(h, w, cursor); g.start <= p <= q <= g.end
    ensures var g := Layout(h, w, cursor);
      && XYes(g, g.start) == g.contentLeft
      && XYes(g, g.end) == g.contentRight - 1
      && (p < q ==> XYes(g, p) < XYes(g, q))
      && (p < g.end ==> XYes(g, p + 1) == XYes(g, p) + 2)
      && g.contentLeft <= XYes(g, p) && XYes(g, q) <= g.contentRight - 1
  {
  }

  /** The cursor's column, `x_yes` or `x_no` as its side says. */
  function CursorColumn(g: Geometry, side: Side, cursor: int): (x: int)
    ensures x == XYes(g, cursor)
  {
    if side == Yes then XYes(g, cursor) else XNo(g, cursor)
  }

  /**
   * The guard `start <= cursor_price <= end` before the cursor is drawn always
   * holds for a cursor in [0, 100], and the cursor's column lies in the content.
   */
  lemma CursorAlwaysDrawn(h: int, w: int, cursor: int, side: Side)
    requires 0 <= cursor <= 100
    ensures var g := Layout(h, w, cursor);
      && g.start <= cursor <= g.end
      && g.contentLeft <= CursorColumn(g, side, cursor) < g.contentRight
  {
  }

  /** The row of the `dy`-th cell of a bar, counted from the bottom of the plot. */
  function BarRow(g: Geometry, dy: int): (y: int)
    ensures 0 <= dy < g.innerH ==> g.innerTop <= y < g.innerTop + g.innerH
    ensures dy == 0 ==> y + 1 == g.innerTop + g.innerH
  {
    g.innerTop + g.innerH - 1 - dy
  }
}
