/**
 * The interaction state of the viewer (`TUI.__init__`'s fields) and the key
 * handler `keyloop`, plus the fetch outcome handling of `run`. The transition
 * on one key is the pure function `Step`; the class `Tui` holds the mutable
 * fields and its methods are proved to move them exactly as `Step` says.
 */
module Session {
  import opened Common
  import opened Clip
  import opened Bins
  import opened Quotes

  const MinPrice: int := 0
  const MaxPrice: int := 100
  const MinSize: int := 1
  const MaxSize: int := 999_999
  /** `self.placed[:50]`: the log keeps at most this many entries. */
  const LogCapacity: nat := 50

  /** A placed (simulated) order: clock reading, side, size and price in cents. */
  datatype Entry = Entry(ts: string, side: Side, size: int, price: int)

  /** One result of the non-blocking `getch`, by what `keyloop` does with it. */
  datatype Key = Quit | Left | Right | Up | Down | ToggleScale | ToggleSide | Enter | Other | NoKey

  // Key codes: ncurses's values for the curses constants, ASCII for the letters.
  const KeyDown: int := 258
  const KeyUp: int := 259
  const KeyLeft: int := 260
  const KeyRight: int := 261
  const KeyEnter: int := 343

  /**
   * Which of `keyloop`'s tests a key code passes. The codes the tests name are
   * pairwise distinct, so at most one test passes and `keyloop`'s chain of
   * independent `if`s acts like a case split on this value. Only lower-case
   * `h` and `l` move the cursor, while `q`, `g` and `s` work in either case.
   */
  function KeyOf(ch: int): (k: Key)
    ensures k == NoKey <==> ch == -1
    ensures k == Quit <==> ch in {113, 81}
    ensures k == Left <==> ch in {KeyLeft, 104}
    ensures k == Right <==> ch in {KeyRight, 108}
    ensures k == Up <==> ch == KeyUp
    ensures k == Down <==> ch == KeyDown
    ensures k == ToggleScale <==> ch in {103, 71}
    ensures k == ToggleSide <==> ch in {115, 83}
    ensures k == Enter <==> ch in {KeyEnter, 10, 13}
  {
    if ch == -1 then NoKey
    else if ch == 113 || ch == 81 then Quit
    else if ch == KeyLeft || ch == 104 then Left
    else if ch == KeyRight || ch == 108 then Right
    else if ch == KeyUp then Up
    else if ch == KeyDown then Down
    else if ch == 103 || ch == 71 then ToggleScale
    else if ch == 115 || ch == 83 then ToggleSide
    else if ch == KeyEnter || ch == 10 || ch == 13 then Enter
    else Other
  }

  /** The fields `keyloop` reads and writes. */
  datatype Controls = Controls(cursorPrice: int, orderSize: int, side: Side, logMode: bool, placed: seq<Entry>)

  /** The state `TUI.__init__` starts from. */
  const Initial: Controls := Controls(50, 1, Yes, false, [])

  /** The bounds every reachable state keeps. */
  ghost predicate Inv(c: Controls)
  {
    && MinPrice <= c.cursorPrice <= MaxPrice
    && MinSize <= c.orderSize <= MaxSize
    && |c.placed| <= LogCapacity
  }

  /** `s[:n]`. */
  function Take<T>(s: seq<T>, n: nat): (t: seq<T>)
    ensures |t| == Min(|s|, n) && forall i :: 0 <= i < |t| ==> t[i] == s[i]
  {
    if |s| <= n then s else s[..n]
  }

  /** The entry Enter records: the current side, size and cursor price. */
  function EntryFor(c: Controls, now: string): Entry
  {
    Entry(now, c.side, c.orderSize, c.cursorPrice)
  }

  function Flip(s: Side): Side { if s == Yes then No else Yes }

  /**
   * The effect of one key on the fields; `now` is the clock reading Enter
   * stamps. Every key keeps the cursor in [0, 100], the size in [1, 999999]
   * and the log within 50 entries.
   */
  function Step(c: Controls, k: Key, now: string): (d: Controls)
    ensures Inv(c) ==> Inv(d)
  {
    match k
    case Left => c.(cursorPrice := Clamp(c.cursorPrice - 1, MinPrice, MaxPrice))
    case Right => c.(cursorPrice := Clamp(c.cursorPrice + 1, MinPrice, MaxPrice))
    case Up => c.(orderSize := Clamp(c.orderSize + 1, MinSize, MaxSize))
    case Down => c.(orderSize := Clamp(c.orderSize - 1, MinSize, MaxSize))
    case ToggleScale => c.(logMode := !c.logMode)
    case ToggleSide => c.(side := Flip(c.side))
    case Enter => c.(placed := Take([EntryFor(c, now)] + c.placed, LogCapacity))
    case Quit => c
    case Other => c
    case NoKey => c
  }

  /**
   * Left and Right move the cursor one cent, stopping at 0 and 100; Up and Down
   * change the size by one, stopping at 1 and 999999; nothing else changes.
   */
  lemma Moves(c: Controls, now: string)
    requires Inv(c)
    ensures Step(c, Left, now) == c.(cursorPrice := Max(MinPrice, c.cursorPrice - 1))
    ensures Step(c, Right, now) == c.(cursorPrice := Min(MaxPrice, c.cursorPrice + 1))
    ensures Step(c, Up, now) == c.(orderSize := Min(MaxSize, c.orderSize + 1))
    ensures Step(c, Down, now) == c.(orderSize := Max(MinSize, c.orderSize - 1))
  {
  }

  /** Every key moves the cursor and the size by at most one. */
  lemma StepsAreSmall(c: Controls, k: Key, now: string)
    requires Inv(c)
    ensures var d := Step(c, k, now);
      && -1 <= d.cursorPrice - c.cursorPrice <= 1
      && -1 <= d.orderSize - c.orderSize <= 1
      && (d.cursorPrice != c.cursorPrice ==> k == Left || k == Right)
      && (d.orderSize != c.orderSize ==> k == Up || k == Down)
  {
  }

  /**
   * Enter puts the entry for the current side, size and price first, keeps the
   * previous entries after it in order, cuts the log to 50 and changes no other
   * field. No other key touches the log.
   */
  lemma EnterLogs(c: Controls, k: Key, now: string)
    ensures var d := Step(c, k, now);
      k == Enter ==>
        && d.placed[0] == Entry(now, c.side, c.orderSize, c.cursorPrice)
        && |d.placed| == Min(|c.placed| + 1, LogCapacity)
        && (forall i :: 1 <= i < |d.placed| ==> d.placed[i] == c.placed[i - 1])
        && d.(placed := c.placed) == c
    ensures k != Enter ==> Step(c, k, now).placed == c.placed
  {
  }

  /** `g` and `s` each flip one field, and pressing either twice restores the state. */
  lemma Toggles(c: Controls, now: string, later: string)
    ensures Step(c, ToggleScale, now) == c.(logMode := !c.logMode)
    ensures Step(c, ToggleSide, now).side != c.side
    ensures Step(c, ToggleSide, now) == c.(side := Step(c, ToggleSide, now).side)
    ensures Step(Step(c, ToggleScale, now), ToggleScale, later) == c
    ensures Step(Step(c, ToggleSide, now), ToggleSide, later) == c
  {
  }

  /** Quit, an empty poll and an unrecognised key change nothing. */
  lemma NoOps(c: Controls, now: string)
    ensures Step(c, Quit, now) == c && Step(c, NoKey, now) == c && Step(c, Other, now) == c
  {
  }

  /** A key event and the clock reading `keyloop` would take if it logs an order. */
  datatype Press = Press(key: Key, now: string)

  /**
   * The session loop on a series of key events: it stops at the first Quit.
   * After any series of key events the cursor stays in [0, 100], the size in
   * [1, 999999] and the log within 50 entries.
   */
  function Session(c: Controls, ps: seq<Press>): (d: Controls)
    ensures Inv(c) ==> Inv(d)
    decreases |ps|
  {
    if ps == [] || ps[0].key == Quit then c
    else Session(Step(c, ps[0].key, ps[0].now), ps[1..])
  }

  /** The entries the session logs, in the order they are placed: at most one per key event. */
  function Placed(c: Controls, ps: seq<Press>): (r: seq<Entry>)
    ensures |r| <= |ps|
    decreases |ps|
  {
    if ps == [] || ps[0].key == Quit then []
    else
      (if ps[0].key == Enter then [EntryFor(c, ps[0].now)] else [])
      + Placed(Step(c, ps[0].key, ps[0].now), ps[1..])
  }

  function Reverse<T>(s: seq<T>): (r: seq<T>)
    ensures |r| == |s|
  {
    if s == [] then [] else Reverse(s[1..]) + [s[0]]
  }

  /** From a state within bounds, every logged order has a price in [0, 100] and a size in [1, 999999]. */
  lemma {:induction false} PlacedEntriesValid(c: Controls, ps: seq<Press>)
    requires Inv(c)
    ensures forall e :: e in Placed(c, ps) ==> MinPrice <= e.price <= MaxPrice && MinSize <= e.size <= MaxSize
    decreases |ps|
  {
    if ps != [] && ps[0].key != Quit {
      PlacedEntriesValid(Step(c, ps[0].key, ps[0].now), ps[1..]);
    }
  }

  /** Key events after the first Quit are never handled: the session ends there. */
  lemma {:induction false} SessionStopsAtQuit(c: Controls, ps: seq<Press>, i: nat)
    requires i < |ps| && ps[i].key == Quit
    ensures Session(c, ps) == Session(c, ps[..i])
    ensures Placed(c, ps) == Placed(c, ps[..i])
    decreases i
  {
    if i > 0 && ps[0].key != Quit {
      var c1 := Step(c, ps[0].key, ps[0].now);
      SessionStopsAtQuit(c1, ps[1..], i - 1);
      assert ps[..i][1..] == ps[1..][..i - 1];
    }
  }

  lemma TakeOfTake<T>(r: seq<T>, s: seq<T>, n: nat)
    ensures Take(r + Take(s, n), n) == Take(r + s, n)
  {
    var a, b := Take(r + Take(s, n), n), Take(r + s, n);
    assert |a| == |b|;
    forall i | 0 <= i < |a| ensures a[i] == b[i] {
      if i >= |r| {
        assert a[i] == Take(s, n)[i - |r|];
      }
    }
  }

  /**
   * The log after a series of key events is the entries placed during it,
   * newest first, followed by the entries it started with, cut to 50. Each
   * entry records the state at the moment its Enter was handled.
   */
  lemma {:induction false} SessionLog(c: Controls, ps: seq<Press>)
    requires |c.placed| <= LogCapacity
    ensures Session(c, ps).placed == Take(Reverse(Placed(c, ps)) + c.placed, LogCapacity)
    decreases |ps|
  {
    if ps == [] || ps[0].key == Quit {
      assert Reverse(Placed(c, ps)) == [];
      assert Reverse(Placed(c, ps)) + c.placed == c.placed;
    } else {
      var p := ps[0];
      var c1 := Step(c, p.key, p.now);
      var rest := Placed(c1, ps[1..]);
      SessionLog(c1, ps[1..]);
      if p.key == Enter {
        var e := EntryFor(c, p.now);
        assert Placed(c, ps) == [e] + rest;
        assert ([e] + rest)[1..] == rest;
        assert Reverse(Placed(c, ps)) == Reverse(rest) + [e];
        TakeOfTake(Reverse(rest), [e] + c.placed, LogCapacity);
        assert Reverse(rest) + ([e] + c.placed) == Reverse(rest) + [e] + c.placed;
      } else {
        assert Placed(c, ps) == rest;
      }
    }
  }

  /** The series of `n` Enter presses stamped `stamps[0]`, ..., `stamps[n - 1]`. */
  function Confirms(stamps: seq<string>): (ps: seq<Press>)
    ensures |ps| == |stamps| && forall i :: 0 <= i < |ps| ==> ps[i] == Press(Enter, stamps[i])
  {
    if stamps == [] then [] else [Press(Enter, stamps[0])] + Confirms(stamps[1..])
  }

  /** N Enter presses from `c` log N entries, all for the side, size and price of `c`, in press order. */
  lemma {:induction false} ConfirmsPlace(c: Controls, stamps: seq<string>)
    ensures var placed := Placed(c, Confirms(stamps));
      && |placed| == |stamps|
      && forall i :: 0 <= i < |placed| ==> placed[i] == Entry(stamps[i], c.side, c.orderSize, c.cursorPrice)
    decreases |stamps|
  {
    if stamps != [] {
      var ps := Confirms(stamps);
      assert ps[1..] == Confirms(stamps[1..]);
      var c1 := Step(c, Enter, stamps[0]);
      ConfirmsPlace(c1, stamps[1..]);
    }
  }

  /**
   * From a fresh session, N Enter presses leave min(N, 50) entries, newest
   * first: entry i is the (N - i)-th press.
   */
  lemma LogAfterConfirms(stamps: seq<string>)
    ensures var log := Session(Initial, Confirms(stamps)).placed;
      && |log| == Min(|stamps|, LogCapacity)
      && forall i :: 0 <= i < |log| ==>
           log[i] == Entry(stamps[|stamps| - 1 - i], Yes, 1, 50)
  {
    var placed := Placed(Initial, Confirms(stamps));
    SessionLog(Initial, Confirms(stamps));
    ConfirmsPlace(Initial, stamps);
    assert Reverse(placed) + [] == Reverse(placed);
    forall i | 0 <= i < |placed| ensures Reverse(placed)[i] == placed[|placed| - 1 - i] {
      ReverseAt(placed, i);
    }
  }

  lemma {:induction false} ReverseAt<T>(s: seq<T>, i: nat)
    requires i < |s|
    ensures Reverse(s)[i] == s[|s| - 1 - i]
  {
    if i < |s| - 1 {
      ReverseAt(s[1..], i);
    }
  }

  /** What one fetch attempt produced: the decoded order lists, or the exception's text. */
  datatype FetchOutcome = Fetched(yes: seq<Pair>, no: seq<Pair>) | Failed(message: string)

  /** The viewer's session: the fields `TUI.__init__` sets and the handlers that change them. */
  class Tui {
    const ticker: string
    const refreshMs: int

    var cursorPrice: int
    var orderSize: int
    var side: Side
    var logMode: bool
    var yesBins: seq<int>
    var noBins: seq<int>
    var placed: seq<Entry>
    var err: Option<string>

    /** The fields `keyloop` works on, as one value. */
    function State(): Controls
      reads this
    {
      Controls(cursorPrice, orderSize, side, logMode, placed)
    }

    ghost predicate Valid()
      reads this
    {
      Inv(State()) && |yesBins| == Slots && |noBins| == Slots
    }

    constructor (ticker: string, refreshMs: int)
      ensures Valid()
      ensures this.ticker == ticker && this.refreshMs == refreshMs
      ensures State() == Initial
      ensures yesBins == YesBins([]) && noBins == NoBins([]) && err == None
    {
      this.ticker := ticker;
      this.refreshMs := refreshMs;
      cursorPrice := 50;
      orderSize := 1;
      side := Yes;
      logMode := false;
      yesBins := seq(Slots, _ => 0);
      noBins := seq(Slots, _ => 0);
      placed := [];
      err := None;
    }

    /**
     * What `draw` computes from the fields before painting: the header's
     * bid, ask and spread over the current bins, and the tooltip for the
     * cursor's slot.
     */
    method Summary() returns (q: Quote, t: Tooltip)
      requires Valid()
      ensures q == HeaderQuote(yesBins, noBins)
      ensures t == CursorTooltip(cursorPrice, yesBins, noBins, q)
    {
      q := HeaderQuote(yesBins, noBins);
      t := CursorTooltip(cursorPrice, yesBins, noBins, q);
    }

    /**
     * `keyloop` on an already polled key (a failed poll is `NoKey`); `now` is the
     * clock reading it stamps an order with. Returns whether the key was Quit.
     */
    method KeyLoop(k: Key, now: string) returns (quit: bool)
      modifies this
      ensures quit == (k == Quit)
      ensures State() == Step(old(State()), k, now)
      ensures yesBins == old(yesBins) && noBins == old(noBins) && err == old(err)
      ensures old(Valid()) ==> Valid()
    {
      if k == NoKey { return false; }
      if k == Quit { return true; }
      if k == Left { cursorPrice := Clamp(cursorPrice - 1, MinPrice, MaxPrice); }
      if k == Right { cursorPrice := Clamp(cursorPrice + 1, MinPrice, MaxPrice); }
      if k == Up { orderSize := Clamp(orderSize + 1, MinSize, MaxSize); }
      if k == Down { orderSize := Clamp(orderSize - 1, MinSize, MaxSize); }
      if k == ToggleScale { logMode := !logMode; }
      if k == ToggleSide { side := if side == Yes then No else Yes; }
      if k == Enter {
        placed := [Entry(now, side, orderSize, cursorPrice)] + placed;
        placed := Take(placed, LogCapacity);
      }
      quit := false;
    }

    /**
     * The fetch branch of `run`: a successful fetch replaces both arrays with the
     * bins of the new order lists and clears the error; a failed one keeps the
     * arrays and records the error text. The key state is untouched either way.
     */
    method ApplyFetch(outcome: FetchOutcome)
      modifies this
      ensures outcome.Fetched? ==>
        yesBins == YesBins(outcome.yes) && noBins == NoBins(outcome.no) && err == None
      ensures outcome.Failed? ==>
        yesBins == old(yesBins) && noBins == old(noBins) && err == Some(outcome.message)
      ensures State() == old(State())
      ensures old(Valid()) ==> Valid()
    {
      match outcome
      case Fetched(yes, no) =>
        var y, n := BuildBins(yes, no);
        yesBins, noBins := y[..], n[..];
        err := None;
      case Failed(message) =>
        err := Some(message);
    }

    /**
     * One pass of `run`'s loop: the key is handled first; on Quit the loop ends
     * before any fetch; otherwise a fetch that is due (`fetch` is present) is
     * applied. Drawing and sleeping are not modelled.
     */
    method Tick(k: Key, now: string, fetch: Option<FetchOutcome>) returns (quit: bool)
      modifies this
      ensures quit == (k == Quit)
      ensures State() == Step(old(State()), k, now)
      ensures (quit || fetch.None?) ==> yesBins == old(yesBins) && noBins == old(noBins) && err == old(err)
      ensures !quit && fetch.Some? && fetch.value.Fetched? ==>
        yesBins == YesBins(fetch.value.yes) && noBins == NoBins(fetch.value.no) && err == None
      ensures !quit && fetch.Some? && fetch.value.Failed? ==>
        yesBins == old(yesBins) && noBins == old(noBins) && err == Some(fetch.value.message)
      ensures old(Valid()) ==> Valid()
    {
      quit := KeyLoop(k, now);
      if quit { return; }
      if fetch.Some? {
        ApplyFetch(fetch.value);
      }
    }
  }
}
