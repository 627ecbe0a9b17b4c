/**
 * The best-price markers of `draw`: a dotted guide on the bid's and on the
 * ask's column when that price is visible, and a label placed with `text_safe`
 * between margins that are the content's own edges. The label texts
 * ("Bid Xc", "Ask Xc") are parameters.
 */
module Markers {
  import opened Common
  import opened Clip
  import opened Quotes
  import opened Viewport

  /** A marker: the guide's column, the label's row and the placed label. */
  datatype Marker = Marker(column: int, row: int, caption: Text)

  /** A marker at a visible price `p`, its label centred on the guide. */
  function MarkerAt(g: Geometry, w: int, p: int, row: int, text: string): Marker
  {
    var x := XYes(g, p);
    Marker(x, row, TextSafe(w, x, text, g.contentLeft, w - 1 - g.contentRight))
  }

  /**
   * The bid marker is drawn exactly when there is a bid inside the visible
   * range, on the bid's column, its label on the first inner row. Its label is
   * cut to the content's width and lies inside the content's columns.
   */
  function BidMarker(g: Geometry, w: int, q: Quote, text: string): (m: Option<Marker>)
    requires g.contentRight - g.contentLeft + 1 >= 0
    ensures m.Some? <==> q.bid.Some? && g.start <= q.bid.value <= g.end
    ensures m.Some? ==> m.value.column == XYes(g, q.bid.value) && m.value.row == g.innerTop
    ensures m.Some? ==>
      && g.contentLeft <= m.value.caption.x
      && m.value.caption.x + |m.value.caption.text| <= g.contentRight + 1
      && |m.value.caption.text| == Min(|text|, g.contentRight - g.contentLeft + 1)
  {
    if q.bid.Some? && g.start <= q.bid.value <= g.end then
      Some(MarkerAt(g, w, q.bid.value, g.innerTop, text))
    else None
  }

  /**
   * The ask marker is drawn exactly when there is an ask inside the visible
   * range, on the ask's column. Its label goes one row lower than the bid's
   * exactly when bid and ask are the same price, and otherwise on the same row.
   */
  function AskMarker(g: Geometry, w: int, q: Quote, text: string): (m: Option<Marker>)
    requires g.contentRight - g.contentLeft + 1 >= 0
    ensures m.Some? <==> q.ask.Some? && g.start <= q.ask.value <= g.end
    ensures m.Some? ==> m.value.column == XNo(g, q.ask.value)
    ensures m.Some? ==> (m.value.row == g.innerTop + 1 <==> q.bid == q.ask)
    ensures m.Some? ==> (m.value.row == g.innerTop <==> q.bid != q.ask)
    ensures m.Some? ==>
      && g.contentLeft <= m.value.caption.x
      && m.value.caption.x + |m.value.caption.text| <= g.contentRight + 1
      && |m.value.caption.text| == Min(|text|, g.contentRight - g.contentLeft + 1)
  {
    if q.ask.Some? && g.start <= q.ask.value <= g.end then
      var extra := if q.bid.Some? && q.bid.value == q.ask.value then 1 else 0;
      Some(MarkerAt(g, w, q.ask.value, g.innerTop + extra, text))
    else None
  }

  /**
   * On a frame from `Layout`, a drawn label never runs past the visible price
   * range: it starts at or after the first visible price's column and ends at
   * or before the last visible price's second column.
   */
  lemma MarkerLabelsInsideFrame(h: int, w: int, cursor: int, q: Quote, bidText: string, askText: string)
    ensures var g := Layout(h, w, cursor);
      var b := BidMarker(g, w, q, bidText);
      var a := AskMarker(g, w, q, askText);
      && (b.Some? ==> XYes(g, g.start) <= b.value.caption.x && b.value.caption.x + |b.value.caption.text| <= XYes(g, g.end) + 2)
      && (a.Some? ==> XYes(g, g.start) <= a.value.caption.x && a.value.caption.x + |a.value.caption.text| <= XYes(g, g.end) + 2)
  {
  }
}
