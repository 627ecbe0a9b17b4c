# Order-book viewer core, modelled in Dafny

This project models the logic of `orderbook_tui.py`, a terminal viewer for a
binary prediction market's order book. It covers everything the viewer
computes, but not the network fetch, the curses output or the asyncio loop:

- **Price binning** (`bins.dfy`, module `Bins`). The YES and NO order lists
  are folded into two 101-slot arrays on the YES price axis. A YES bid at `p`
  goes to slot `p` and a NO bid at `p` goes to slot `100 - p`. Prices outside
  [0, 100] are dropped. `BuildBins` keeps the source's two loops over fresh
  arrays and is proved against the per-slot sums `SumAt`.
- **Best prices** (`quotes.dfy`, module `Quotes`). These are `best_yes_bid`,
  `best_no_bid`, the header's YES ask and spread, and the tooltip tags.
- **Viewport geometry** (`viewport.dfy`, module `Viewport`). `draw` works out
  the plot area, the number of prices that fit, the visible price range, the
  content and frame columns and the column of each price.
- **Best-price markers** (`markers.dfy`, module `Markers`). This is where the
  bid and ask guides go and where their labels are placed with `text_safe`.
- **Clipping helpers** (`clip.dfy`, module `Clip`): `clamp`, the end-point
  clamping of `draw_hline`, and the truncate-and-centre step of `text_safe`.
  Each helper returns the column and the text that would be written.
- **Interaction state** (`session.dfy`, module `Session`). The pure function
  `Step` gives the effect of one key. Class `Tui` holds the fields of
  `TUI.__init__`. Its `KeyLoop`, `ApplyFetch` and `Tick` methods are proved to
  change those fields exactly as `Step` and the binning functions say.
  `Session`/`Placed` run a series of key events through `Step`, stopping at
  Quit.

`common.dfy` holds the shared `Option` and `Side` types.

External inputs become parameters:
- the key code returned by the non-blocking `getch`, which becomes a `Key`
  through `KeyOf`, with a failed poll as `NoKey`;
- the clock reading that stamps an order (`now`);
- the outcome of one fetch, either the already decoded `(price, qty)` lists
  or the text of the exception;
- the terminal size `h` × `w`;
- the label texts of the markers.

Behaviour of the code worth noting:
- Bar heights come from `int()` on a float, so they are truncated
  (orderbook_tui.py:248). They are left out of the model.
- The viewport stays inside [0, 100] and holds the cursor at every terminal
  width, including the narrowest ones, where a single price is shown
  (orderbook_tui.py:191-194).
- `left_pad` is -1 when the terminal is five columns wide or less
  (orderbook_tui.py:186, 197).
- A failed fetch records `str(e)` (orderbook_tui.py:354). That text can be
  empty, for example for a timeout, and then `if self.err:` shows nothing
  (orderbook_tui.py:222).
- The placed-order log holds formatted strings (orderbook_tui.py:131). The
  model keeps their fields as records.
- The lower cursor glyph sits at row `plot_y + plot_h` (orderbook_tui.py:262).
  From 18 rows up this is the footer's first row (orderbook_tui.py:331;
  `VerticalLayout`), so the footer text drawn later can cover it.

## Model

| member | source | states |
|---|---|---|
| Clip.Clamp | orderbook_tui.py:47 | the result lies in [lo, hi] when that range is non-empty, equals v when v is inside it, and is otherwise one of the two ends |
| Clip.ClampNearest | orderbook_tui.py:47 | on a non-empty range, no point of the range is closer to v than the clamped value |
| Clip.ClampMonotone | orderbook_tui.py:47 | clamping to a non-empty range preserves order |
| Clip.DrawHLine | orderbook_tui.py:136-142 | on a screen at least one column wide the written run is non-empty and on screen; it is exactly the on-screen part of [min(x1,x2), max(x1,x2)], or the single nearest edge column when the segment is wholly off screen |
| Clip.DrawHLineSymmetric | orderbook_tui.py:138-140 | swapping the two end points writes the same run |
| Clip.TextSafe | orderbook_tui.py:155-159 | the text written is the prefix of s of length min(len(s), room), where room = max(0, W - lm - rm); it starts at or after lm and ends by lm + room; it is centred on x_center whenever that fits; with non-negative margins it stays on screen |
| Bins.SumAt | orderbook_tui.py:27-31 | the total quantity of the pairs priced `price`, accumulated pair by pair as the loops do; zero when no pair carries that price |
| Bins.YesBins | orderbook_tui.py:25-31 | the YES array: 101 slots, slot p the total YES quantity priced p, empty when no YES pair is priced p |
| Bins.NoBins | orderbook_tui.py:32-37 | the mapped NO array: 101 slots, slot m the total NO quantity priced 100 - m, empty when no NO pair is priced 100 - m |
| Bins.BuildBins | orderbook_tui.py:25-37 | the two loops return fresh 101-slot arrays equal to YesBins(yes) and NoBins(no) |
| Bins.SumAtAppend | orderbook_tui.py:27-31 | the sum for one price over two lists in sequence is the sum of the two sums |
| Bins.SumAtPermutation | orderbook_tui.py:27-37 | any reordering of the pairs gives the same sum for every price |
| Bins.BinsOrderIndependent | orderbook_tui.py:25-37 | both arrays depend only on the multiset of pairs, not on their order |
| Bins.YesBinsSnoc | orderbook_tui.py:27-31 | one more YES pair in range adds its quantity to slot p and to no other; one out of range changes nothing |
| Bins.NoBinsSnoc | orderbook_tui.py:32-37 | one more NO pair in range adds its quantity to slot 100 - p and to no other; one out of range changes nothing |
| Bins.OutOfRangeDropped | orderbook_tui.py:30-35 | pairs whose prices are all outside [0, 100] leave both arrays unchanged |
| Bins.SumAtNonNegative | orderbook_tui.py:30-31 | non-negative quantities never add up to a negative total |
| Bins.BinsNonNegative | orderbook_tui.py:25-37 | when every quantity is non-negative, every slot of both arrays is non-negative |
| Bins.EmptyBooks | orderbook_tui.py:25-26 | empty order lists give all-zero arrays |
| Quotes.HighestPositive | orderbook_tui.py:167 | scanning down from p, the result is the highest slot in [0, p] with a positive quantity, or None exactly when every slot there is non-positive |
| Quotes.LowestPositive | orderbook_tui.py:170 | scanning up from m, the result is the lowest slot from m on with a positive quantity, or None exactly when every slot there is non-positive |
| Quotes.BestYesBid | orderbook_tui.py:166-167 | present exactly when some slot is positive; then it is a positive slot and every higher slot is non-positive |
| Quotes.BestNoBid | orderbook_tui.py:169-171 | present exactly when some mapped slot is positive; then it is 100 - m for a positive slot m below which every slot is non-positive |
| Quotes.HeaderQuote | orderbook_tui.py:211-214 | the bid is the best YES bid; the ask is present exactly when some NO slot is positive and is then the lowest such slot; the spread is present exactly when both are, and equals ask - bid |
| Quotes.CursorTooltip | orderbook_tui.py:317-322 | the quantities are those of the cursor's slot on each side; BestBid is tagged exactly when the cursor is on the bid, BestAsk exactly when it is on the ask, bid first |
| Viewport.Layout | orderbook_tui.py:178-201 | 1 <= prices_fit <= 101; 0 <= start; end == start + prices_fit - 1 <= 100; a cursor in [0, 100] lies in [start, end]; the content spans 2 * prices_fit columns |
| Viewport.ViewportCentring | orderbook_tui.py:192-193 | the viewport is centred on the cursor when that stays inside [0, 100], otherwise it is pinned to the nearer end of the axis |
| Viewport.ContentColumns | orderbook_tui.py:184-230 | left_pad >= -1 and is -1 exactly when W <= 5; from W >= 6, prices_fit is the largest count that fits, the content is inside the inner area with the odd spare column on the right, and the frame lies one column outside the content and inside the screen |
| Viewport.VerticalLayout | orderbook_tui.py:178-188 | the plot starts below four header rows and is at least 8 rows; the inner rows are exactly those between its two rules, at least 6 of them; from 18 rows up the plot ends where the footer begins |
| Viewport.XYes | orderbook_tui.py:204-205 | the first visible price is drawn on the content's left edge, and on a geometry with two columns per visible price every visible price and the column after it lie inside the content |
| Viewport.XNo | orderbook_tui.py:204-208 | a price's NO column is its YES column |
| Viewport.ColumnMap | orderbook_tui.py:197-208 | on a terminal of any width, x_yes(start) is the content's left edge and x_yes(end) its right edge minus one; neighbouring visible prices are two columns apart, the map is strictly increasing, and every visible price lands inside the content |
| Viewport.CursorColumn | orderbook_tui.py:252 | the cursor column is the YES column of the cursor's price for either side |
| Viewport.CursorAlwaysDrawn | orderbook_tui.py:251-252 | for a cursor in [0, 100] the guard before drawing the cursor always holds, and the cursor's column lies in the content |
| Viewport.BarRow | orderbook_tui.py:281-282 | the cells of a bar no taller than the inner height stay in the inner rows, starting on the bottom inner row |
| Markers.BidMarker | orderbook_tui.py:298-306 | drawn exactly when a bid exists inside [start, end], on its column and the first inner row; the label is cut to the content width and stays within the content columns |
| Markers.AskMarker | orderbook_tui.py:308-314 | drawn exactly when an ask exists inside [start, end], on its NO column; its label goes one row lower exactly when bid and ask are equal; the label is cut to the content width and stays within the content columns |
| Markers.MarkerLabelsInsideFrame | orderbook_tui.py:298-314 | on a frame from Layout, no label runs past the columns of the first and last visible prices |
| Session.KeyOf | orderbook_tui.py:120-129 | each key class corresponds exactly to the codes keyloop tests for it (ncurses values for the arrows and Enter), so at most one of its tests passes |
| Session.Take | orderbook_tui.py:132 | s[:n] has min(len(s), n) elements, which are the first elements of s |
| Session.Step | orderbook_tui.py:120-132 | the effect of one key on cursor, size, side, scale and log; every key keeps the cursor in [0, 100], the size in [1, 999999] and the log within 50 entries |
| Session.Moves | orderbook_tui.py:123-126 | Left and Right move the cursor by one, stopping at 0 and 100; Up and Down change the size by one, stopping at 1 and 999999; nothing else changes |
| Session.StepsAreSmall | orderbook_tui.py:123-126 | every key moves the cursor and the size by at most one, and only the arrow keys move them |
| Session.EnterLogs | orderbook_tui.py:129-132 | Enter puts the entry for the current side, size and price first, keeps the old entries after it in order, caps the log at 50 and changes no other field; no other key touches the log |
| Session.Toggles | orderbook_tui.py:127-128 | g flips only the scale and s flips only the side; pressing either twice restores the state |
| Session.NoOps | orderbook_tui.py:120-122 | Quit, an empty poll and an unrecognised key change nothing |
| Session.Session | orderbook_tui.py:344-346 | the key events of a session handled in order until the first Quit; after any series the cursor, size and log bounds still hold |
| Session.Placed | orderbook_tui.py:129-131 | the entries a session logs, in press order, at most one per key event |
| Session.PlacedEntriesValid | orderbook_tui.py:123-131 | from a state within bounds, every logged order has a price in [0, 100] and a size in [1, 999999] |
| Session.SessionStopsAtQuit | orderbook_tui.py:345-346 | key events after a Quit are never handled: the final state and the logged entries are those of the events before it |
| Session.SessionLog | orderbook_tui.py:129-132 | after any series of key events the log is the entries placed during it, newest first, then the earlier entries, cut to 50 |
| Session.ConfirmsPlace | orderbook_tui.py:129-131 | N Enter presses log N entries in press order, each with the side, size and price current at the press |
| Session.LogAfterConfirms | orderbook_tui.py:129-132 | from a fresh session, N Enter presses leave min(N, 50) entries, newest first, each recording the default side, size and price |
| Session.Tui.constructor | orderbook_tui.py:80-88 | the session starts at cursor 50, size 1, side YES, linear scale, empty log, all-zero bins and no error |
| Session.Tui.Summary | orderbook_tui.py:211-214 | on a valid session, the header quote of the current bins and the tooltip for the cursor's slot |
| Session.Tui.KeyLoop | orderbook_tui.py:115-133 | reports Quit exactly for the quit key; moves the key fields exactly as Step; leaves the bins and the error untouched; keeps the invariant |
| Session.Tui.ApplyFetch | orderbook_tui.py:349-354 | success replaces both arrays with the bins of the new lists and clears the error; failure keeps the arrays and records the message; the key fields are untouched |
| Session.Tui.Tick | orderbook_tui.py:344-354 | the key is handled before the fetch; on Quit no fetch is applied; a due fetch is then applied as in ApplyFetch |

## Left out

- The HTTP request, `raise_for_status`, JSON decoding and the `int()`
  coercion of raw values (lines 16-24, 28-29, 33-34) are network I/O. The
  model starts from already integer `(price, qty)` pairs.
- All curses calls are left out: `setup`, colour pairs, `addstr`/`addnstr`,
  `erase`/`refresh` and the swallowing of `curses.error`. So are the
  per-cell painting of bars, cursor line and dotted guides (`draw_vdots`).
  These are terminal output whose effects the model cannot observe. The model
  stops at the coordinates and texts that would be written.
- `transform` and `height_for` are left out: they use `math.log10`, float
  division and `int()` truncation. Bar heights are not modelled. `BarRow`
  assumes a height no taller than the inner area.
- The text of the header, tooltip and footer lines, the `"Bid Xc"`/`"Ask Xc"`
  labels and the formatted log strings are left out, because they are string
  formatting of integers. The markers take their label texts as parameters,
  and the log keeps records.
- The asyncio `run` loop's clock, its `refresh_ms` cadence and its sleep are
  left out: they are timing glue. `Tick` takes "is a fetch due, and what did
  it return" as a parameter.
- `time.strftime` is a clock read. It is the `now` parameter.
- Locale and Unicode glyph detection, `argparse` and `main` are process
  set-up, not viewer logic.
- `draw` shows the error line only when the recorded text is non-empty
  (`if self.err:`), and the tooltip written to the same row right afterwards
  (orderbook_tui.py:323-325) covers it up to the tooltip's length. Only the
  recorded `err` value is modelled.
- Session.Tui.KeyLoop: a `curses.error` raised by `getch` is folded into
  `NoKey`, since both make `keyloop` return without changing anything.
