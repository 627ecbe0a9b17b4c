/**
 * Price binning: the loops in `fetch_orderbook` that fold the decoded YES and
 * NO order lists into two 101-slot arrays on the YES price axis. A YES bid at
 * price p lands in slot p; a NO bid at price p lands in slot 100 - p; a pair
 * whose price is outside [0, 100] is dropped; quantities on one slot add up.
 */
module Bins {

  /** A decoded order-book level: (price in cents, quantity). */
  type Pair = (int, int)

  /** Number of price slots, one per cent from 0 to 100. */
  const Slots: nat := 101

  /**
   * Total quantity of the pairs in `pairs` whose price is `price`: zero when no
   * pair carries that price.
   */
  function SumAt(pairs: seq<Pair>, price: int): (r: int)
    ensures (forall k :: 0 <= k < |pairs| ==> pairs[k].0 != price) ==> r == 0
  {
    if |pairs| == 0 then 0
    else SumAt(pairs[..|pairs| - 1], price) + Contribution(pairs[|pairs| - 1], price)
  }

  function Contribution(pair: Pair, price: int): int
  {
    if pair.0 == price then pair.1 else 0
  }

  /**
   * The YES array: slot p holds the YES quantity bid at p cents, so a price no
   * YES pair carries has an empty slot.
   */
  function YesBins(yes: seq<Pair>): (b: seq<int>)
    ensures |b| == Slots
    ensures forall p :: 0 <= p < Slots && (forall k :: 0 <= k < |yes| ==> yes[k].0 != p) ==> b[p] == 0
  {
    seq(Slots, p => SumAt(yes, p))
  }

  /**
   * The NO array on the YES axis: slot m holds the NO quantity bid at 100 - m
   * cents, so slot m is empty when no NO pair is priced 100 - m.
   */
  function NoBins(no: seq<Pair>): (b: seq<int>)
    ensures |b| == Slots
    ensures forall m :: 0 <= m < Slots && (forall k :: 0 <= k < |no| ==> no[k].0 != 100 - m) ==> b[m] == 0
  {
    seq(Slots, m => SumAt(no, 100 - m))
  }

  /**
   * The two loops of `fetch_orderbook`, run on already decoded pairs: both
   * arrays start at zero and every in-range pair adds its quantity to its slot.
   */
  method BuildBins(yes: seq<Pair>, no: seq<Pair>) returns (yesBins: array<int>, noBins: array<int>)
    ensures fresh(yesBins) && fresh(noBins)
    ensures yesBins[..] == YesBins(yes)
    ensures noBins[..] == NoBins(no)
  {
    yesBins := new int[Slots](_ => 0);
    noBins := new int[Slots](_ => 0);
    var i := 0;
    while i < |yes|
      invariant 0 <= i <= |yes|
      invariant forall p :: 0 <= p < Slots ==> yesBins[p] == SumAt(yes[..i], p)
      invariant forall m :: 0 <= m < Slots ==> noBins[m] == 0
    {
      var (p, q) := yes[i];
      assert yes[..i + 1][..i] == yes[..i];
      if 0 <= p <= 100 {
        yesBins[p] := yesBins[p] + q;
      }
      i := i + 1;
    }
    assert yes[..|yes|] == yes;
    var j := 0;
    while j < |no|
      invariant 0 <= j <= |no|
      invariant forall m :: 0 <= m < Slots ==> noBins[m] == SumAt(no[..j], 100 - m)
      invariant yesBins[..] == YesBins(yes)
    {
      var (p, q) := no[j];
      assert no[..j + 1][..j] == no[..j];
      if 0 <= p <= 100 {
        var m := 100 - p;
        noBins[m] := noBins[m] + q;
      }
      j := j + 1;
    }
    assert no[..|no|] == no;
  }

  /** Summing over two lists one after the other is summing over their concatenation. */
  lemma {:induction false} SumAtAppend(a: seq<Pair>, b: seq<Pair>, price: int)
    ensures SumAt(a + b, price) == SumAt(a, price) + SumAt(b, price)
  {
    if |b| == 0 {
      assert a + b == a;
    } else {
      var b' := b[..|b| - 1];
      assert (a + b)[..|a + b| - 1] == a + b';
      SumAtAppend(a, b', price);
    }
  }

  /** Binning does not depend on the order of the pairs: any permutation gives the same sums. */
  lemma {:induction false} SumAtPermutation(a: seq<Pair>, b: seq<Pair>, price: int)
    requires multiset(a) == multiset(b)
    ensures SumAt(a, price) == SumAt(b, price)
    decreases |a|
  {
    if |a| == 0 {
      assert |b| == |multiset(b)| == 0;
    } else {
      var x := a[|a| - 1];
      var a' := a[..|a| - 1];
      assert a == a' + [x];
      assert x in multiset(b);
      var i :| 0 <= i < |b| && b[i] == x;
      var b' := b[..i] + b[i + 1..];
      assert b == b[..i] + [x] + b[i + 1..];
      assert multiset(b) == multiset(b[..i]) + multiset{x} + multiset(b[i + 1..]);
      assert multiset(a) == multiset(a') + multiset{x};
      assert multiset(b') == multiset(b[..i]) + multiset(b[i + 1..]);
      assert multiset(a') == multiset(a) - multiset{x};
      assert multiset(b') == multiset(b) - multiset{x};
      SumAtPermutation(a', b', price);
      SumAtAppend(b[..i] + [x], b[i + 1..], price);
      SumAtAppend(b[..i], [x], price);
      SumAtAppend(b[..i], b[i + 1..], price);
      assert SumAt([x], price) == Contribution(x, price) by {
        assert [x][..0] == [];
      }
    }
  }

  /** Both arrays depend only on the multiset of pairs, not on the order the service lists them in. */
  lemma BinsOrderIndependent(yes: seq<Pair>, yes': seq<Pair>, no: seq<Pair>, no': seq<Pair>)
    requires multiset(yes) == multiset(yes') && multiset(no) == multiset(no')
    ensures YesBins(yes) == YesBins(yes') && NoBins(no) == NoBins(no')
  {
    forall p | 0 <= p < Slots
      ensures YesBins(yes)[p] == YesBins(yes')[p] && NoBins(no)[p] == NoBins(no')[p]
    {
      SumAtPermutation(yes, yes', p);
      SumAtPermutation(no, no', 100 - p);
    }
  }

  /**
   * One more YES pair: in range, it adds its quantity to slot `price` and to no
   * other slot; out of range, it changes nothing.
   */
  lemma YesBinsSnoc(yes: seq<Pair>, price: int, qty: int)
    ensures 0 <= price <= 100 ==>
      YesBins(yes + [(price, qty)]) == YesBins(yes)[price := YesBins(yes)[price] + qty]
    ensures !(0 <= price <= 100) ==> YesBins(yes + [(price, qty)]) == YesBins(yes)
  {
    assert (yes + [(price, qty)])[..|yes|] == yes;
  }

  /**
   * One more NO pair: in range, it adds its quantity to slot `100 - price` and to
   * no other slot; out of range, it changes nothing.
   */
  lemma NoBinsSnoc(no: seq<Pair>, price: int, qty: int)
    ensures 0 <= price <= 100 ==>
      NoBins(no + [(price, qty)]) == NoBins(no)[100 - price := NoBins(no)[100 - price] + qty]
    ensures !(0 <= price <= 100) ==> NoBins(no + [(price, qty)]) == NoBins(no)
  {
    assert (no + [(price, qty)])[..|no|] == no;
  }

  /** Pairs whose prices all lie outside [0, 100] leave both arrays as they were. */
  lemma {:induction false} OutOfRangeDropped(yes: seq<Pair>, no: seq<Pair>, extra: seq<Pair>)
    requires forall k :: 0 <= k < |extra| ==> !(0 <= extra[k].0 <= 100)
    ensures YesBins(yes + extra) == YesBins(yes)
    ensures NoBins(no + extra) == NoBins(no)
  {
    forall p | 0 <= p < Slots
      ensures YesBins(yes + extra)[p] == YesBins(yes)[p]
      ensures NoBins(no + extra)[p] == NoBins(no)[p]
    {
      SumAtAppend(yes, extra, p);
      SumAtAppend(no, extra, 100 - p);
    }
  }

  /** Non-negative quantities never sum to a negative total. */
  lemma {:induction false} SumAtNonNegative(pairs: seq<Pair>, price: int)
    requires forall k :: 0 <= k < |pairs| ==> pairs[k].1 >= 0
    ensures SumAt(pairs, price) >= 0
  {
    if |pairs| > 0 {
      SumAtNonNegative(pairs[..|pairs| - 1], price);
    }
  }

  /** When the service reports non-negative quantities, every slot of both arrays is non-negative. */
  lemma BinsNonNegative(yes: seq<Pair>, no: seq<Pair>)
    requires forall k :: 0 <= k < |yes| ==> yes[k].1 >= 0
    requires forall k :: 0 <= k < |no| ==> no[k].1 >= 0
    ensures forall p :: 0 <= p < Slots ==> YesBins(yes)[p] >= 0 && NoBins(no)[p] >= 0
  {
    forall p | 0 <= p < Slots ensures YesBins(yes)[p] >= 0 && NoBins(no)[p] >= 0 {
      SumAtNonNegative(yes, p);
      SumAtNonNegative(no, 100 - p);
    }
  }

  /** With no orders at all, every slot of both arrays is zero. */
  lemma EmptyBooks()
    ensures YesBins([]) == seq(Slots, _ => 0) && NoBins([]) == seq(Slots, _ => 0)
  {
  }
}
