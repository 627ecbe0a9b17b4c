/**
 * The clipping helpers of the order-book viewer: `clamp`, and the coordinate
 * computations that `draw_hline` and `text_safe` perform before handing a
 * string to the terminal. The terminal write itself is not modelled; each
 * helper returns the position and the text that would be written.
 */
module Clip {

  function Min(a: int, b: int): int { if a <= b then a else b }

  function Max(a: int, b: int): int { if a <= b then b else a }

  /** `clamp(v, lo, hi)`: `lo` below the range, `hi` above it, `v` inside. */
  function Clamp(v: int, lo: int, hi: int): (r: int)
    ensures lo <= hi ==> lo <= r <= hi
    ensures lo <= v <= hi ==> r == v
    ensures lo <= hi ==> (r == v || r == lo || r == hi)
  {
    if v < lo then lo else if v > hi then hi else v
  }

  /** On a non-empty range, the clamped value is the point of the range nearest to `v`. */
  lemma ClampNearest(v: int, lo: int, hi: int, x: int)
    requires lo <= x <= hi
    ensures var r := Clamp(v, lo, hi); (if r <= v then v - r else r - v) <= (if x <= v then v - x else x - v)
  {
  }

  /** Clamping to a non-empty range is monotone. */
  lemma ClampMonotone(u: int, v: int, lo: int, hi: int)
    requires lo <= hi && u <= v
    ensures Clamp(u, lo, hi) <= Clamp(v, lo, hi)
  {
  }

  /** What `draw_hline` writes: `width` copies of the glyph starting at column `x`. */
  datatype HLine = HLine(x: int, width: int)

  /**
   * `draw_hline(y, x1, x2, ch)` on a terminal `w` columns wide: both ends are
   * clamped to the screen, put in order, and the run between them is written.
   * On a screen at least one column wide the run is never empty and never leaves
   * the screen; it is exactly the part of [min(x1,x2), max(x1,x2)] that is on
   * screen, or the single edge column nearest to the segment when the segment
   * lies wholly off screen.
   */
  function DrawHLine(w: int, x1: int, x2: int): (h: HLine)
    ensures w >= 1 ==> 0 <= h.x && 1 <= h.width && h.x + h.width <= w
    ensures w >= 1 && Min(x1, x2) <= w - 1 && Max(x1, x2) >= 0 ==>
      h.x == Max(Min(x1, x2), 0) && h.x + h.width - 1 == Min(Max(x1, x2), w - 1)
    ensures w >= 1 && Max(x1, x2) < 0 ==> h == HLine(0, 1)
    ensures w >= 1 && Min(x1, x2) > w - 1 ==> h == HLine(w - 1, 1)
  {
    var a := Clamp(x1, 0, w - 1);
    var b := Clamp(x2, 0, w - 1);
    var (lo, hi) := if b < a then (b, a) else (a, b);
    HLine(lo, Max(0, hi - lo + 1))
  }

  /** The order of the two end points does not matter to `draw_hline`. */
  lemma DrawHLineSymmetric(w: int, x1: int, x2: int)
    requires w >= 1
    ensures DrawHLine(w, x1, x2) == DrawHLine(w, x2, x1)
  {
  }

  /** What `text_safe` writes: `text` starting at column `x`. */
  datatype Text = Text(x: int, text: string)

  /**
   * `text_safe(y, x_center, s, left_margin=lm, right_margin=rm)` on a terminal
   * `w` columns wide: the room between the margins is `max(0, w - lm - rm)`,
   * `s` is cut to that room, and the cut text is centred on `x_center` and then
   * pushed back between the margins.
   */
  function TextSafe(w: int, xCenter: int, s: string, lm: int, rm: int): (t: Text)
    ensures var room := Max(0, w - lm - rm);
      && |t.text| == Min(|s|, room)
      && t.text == s[..|t.text|]
      && lm <= t.x && t.x + |t.text| <= lm + room
      && (lm <= xCenter - |t.text| / 2 && xCenter - |t.text| / 2 + |t.text| <= lm + room ==>
            t.x == xCenter - |t.text| / 2)
    ensures 0 <= lm && 0 <= rm ==> 0 <= t.x && t.x + |t.text| <= Max(lm, w - rm)
  {
    var room := Max(0, w - lm - rm);
    var cut := if |s| > room then s[..room] else s;
    Text(Clamp(xCenter - |cut| / 2, lm, lm + room - |cut|), cut)
  }
}
