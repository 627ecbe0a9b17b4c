/**
 * Best prices over the bin arrays and the values derived from them in the
 * header and the tooltip: `best_yes_bid`, `best_no_bid`, the YES ask `bya`,
 * the spread, the tooltip tags and the row offset of the ask label.
 */
module Quotes {
  import opened Common

  /** Highest slot in [0, p] whose quantity is positive, scanning p, p - 1, ..., 0. */
  function HighestPositive(bins: seq<int>, p: int): (r: Option<int>)
    requires -1 <= p < |bins|
    ensures r.Some? ==> 0 <= r.value <= p && bins[r.value] > 0
    ensures r.Some? ==> forall k :: r.value < k <= p ==> bins[k] <= 0
    ensures r.None? ==> forall k :: 0 <= k <= p ==> bins[k] <= 0
    decreases p + 1
  {
    if p < 0 then None
    else if bins[p] > 0 then Some(p)
    else HighestPositive(bins, p - 1)
  }

  /** Lowest slot in [m, |bins|) whose quantity is positive, scanning m, m + 1, .... */
  function LowestPositive(bins: seq<int>, m: int): (r: Option<int>)
    requires 0 <= m <= |bins|
    ensures r.Some? ==> m <= r.value < |bins| && bins[r.value] > 0
    ensures r.Some? ==> forall k :: m <= k < r.value ==> bins[k] <= 0
    ensures r.None? ==> forall k :: m <= k < |bins| ==> bins[k] <= 0
    decreases |bins| - m
  {
    if m == |bins| then None
    else if bins[m] > 0 then Some(m)
    else LowestPositive(bins, m + 1)
  }

  /** `best_yes_bid`: the highest price with a positive YES quantity, if any. */
  function BestYesBid(yes: seq<int>): (r: Option<int>)
    requires |yes| == 101
    ensures r.Some? <==> exists p :: 0 <= p <= 100 && yes[p] > 0
    ensures r.Some? ==> 0 <= r.value <= 100 && yes[r.value] > 0
    ensures r.Some? ==> forall p :: r.value < p <= 100 ==> yes[p] <= 0
  {
    HighestPositive(yes, 100)
  }

  /**
   * `best_no_bid`: `100 - m` for the lowest mapped slot m with a positive NO
   * quantity, which is the highest NO price bid.
   */
  function BestNoBid(no: seq<int>): (r: Option<int>)
    requires |no| == 101
    ensures r.Some? <==> exists m :: 0 <= m <= 100 && no[m] > 0
    ensures r.Some? ==> 0 <= r.value <= 100 && no[100 - r.value] > 0
    ensures r.Some? ==> forall m :: 0 <= m < 100 - r.value ==> no[m] <= 0
  {
    match LowestPositive(no, 0)
    case Some(m) => Some(100 - m)
    case None => None
  }

  /** The header's summary line: YES bid, YES ask and the spread between them. */
  datatype Quote = Quote(bid: Option<int>, ask: Option<int>, spread: Option<int>)

  /**
   * `byb`, `bya = 100 - bnb` and `spread = bya - byb`. The ask is the lowest
   * mapped slot with a positive NO quantity; the spread exists exactly when both
   * sides have a price.
   */
  function HeaderQuote(yes: seq<int>, no: seq<int>): (q: Quote)
    requires |yes| == 101 && |no| == 101
    ensures q.bid == BestYesBid(yes)
    ensures q.ask.Some? <==> exists m :: 0 <= m <= 100 && no[m] > 0
    ensures q.ask.Some? ==> 0 <= q.ask.value <= 100 && no[q.ask.value] > 0
    ensures q.ask.Some? ==> forall m :: 0 <= m < q.ask.value ==> no[m] <= 0
    ensures q.spread.Some? <==> q.bid.Some? && q.ask.Some?
    ensures q.spread.Some? ==> q.spread.value == q.ask.value - q.bid.value
  {
    var byb := BestYesBid(yes);
    var bnb := BestNoBid(no);
    var bya := if bnb.Some? then Some(100 - bnb.value) else None;
    var spread := if byb.Some? && bya.Some? then Some(bya.value - byb.value) else None;
    Quote(byb, bya, spread)
  }

  /** The tags the tooltip appends after the cursor's quantities. */
  datatype Tag = BestBid | BestAsk

  /** What the tooltip shows about the cursor's price. */
  datatype Tooltip = Tooltip(price: int, yesQty: int, noQty: int, tags: seq<Tag>)

  /**
   * The tooltip for the cursor: the quantity of each side at the cursor's own
   * slot, tagged `BestBid` exactly when the cursor is on the bid and `BestAsk`
   * exactly when it is on the ask, the bid tag first.
   */
  function CursorTooltip(cursor: int, yes: seq<int>, no: seq<int>, q: Quote): (t: Tooltip)
    requires |yes| == 101 && |no| == 101 && 0 <= cursor <= 100
    ensures t.price == cursor && t.yesQty == yes[cursor] && t.noQty == no[cursor]
    ensures BestBid in t.tags <==> q.bid == Some(cursor)
    ensures BestAsk in t.tags <==> q.ask == Some(cursor)
    ensures |t.tags| <= 2 && (|t.tags| == 2 ==> t.tags == [BestBid, BestAsk])
  {
    var bidTag := if q.bid.Some? && cursor == q.bid.value then [BestBid] else [];
    var askTag := if q.ask.Some? && cursor == q.ask.value then [BestAsk] else [];
    Tooltip(cursor, yes[cursor], no[cursor], bidTag + askTag)
  }
}
