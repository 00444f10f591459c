/**
 One side of an order book: a finite map from price to resting size, read best price first
 (asks upwards, bids downwards), as `sortedcontainers.SortedDict` is used by the source.
 */
module Ladders {

  /** Sizes below this are treated as nothing. */
  const DUST: real := 0.000001

  type Price = p: real | p > 0.0 witness 1.0

  /** A price with a quantity: a book level, a fill or an exit fill. */
  datatype Level = Level(price: Price, qty: real)

  type Ladder = map<Price, real>

  datatype Side = Bid | Ask

  // ---------- Sums over levels ----------

  function Qty(levels: seq<Level>): real {
    if levels == [] then 0.0 else Qty(levels[..|levels| - 1]) + levels[|levels| - 1].qty
  }

  /** What a quantity costs at a price. */
  function Worth(q: real, p: real): real {
    q * p
  }

  /** How much a sum of money buys at a price. */
  function Afford(money: real, p: Price): real {
    money / p
  }

  lemma AffordOk(money: real, p: Price)
    ensures Worth(Afford(money, p), p) == money
    ensures money > 0.0 ==> Afford(money, p) > 0.0
  {
  }

  lemma WorthCancel(a: real, b: real, p: real)
    requires p > 0.0 && Worth(a, p) <= Worth(b, p)
    ensures a <= b
  {
  }

  lemma ScaleBelow(y: real, p: real, top: real)
    requires y >= 0.0 && p <= top
    ensures Worth(y, p) <= Worth(y, top)
  {
  }

  function Cost(levels: seq<Level>): real {
    if levels == [] then 0.0
    else Cost(levels[..|levels| - 1]) + Worth(levels[|levels| - 1].qty, levels[|levels| - 1].price)
  }

  /** The part of `levels` that sits at price `p`. */
  function QtyAt(levels: seq<Level>, p: Price): real {
    if levels == [] then 0.0
    else
      var last := levels[|levels| - 1];
      QtyAt(levels[..|levels| - 1], p) + if last.price == p then last.qty else 0.0
  }

  lemma QtySnoc(levels: seq<Level>, l: Level)
    ensures Qty(levels + [l]) == Qty(levels) + l.qty
    ensures Cost(levels + [l]) == Cost(levels) + Worth(l.qty, l.price)
  {
    assert (levels + [l])[..|levels + [l]| - 1] == levels;
  }

  lemma QtyAtSnoc(levels: seq<Level>, l: Level, p: Price)
    ensures QtyAt(levels + [l], p) == QtyAt(levels, p) + if l.price == p then l.qty else 0.0
  {
    assert (levels + [l])[..|levels + [l]| - 1] == levels;
  }

  lemma {:induction false} QtyConcat(a: seq<Level>, b: seq<Level>)
    ensures Qty(a + b) == Qty(a) + Qty(b)
    ensures Cost(a + b) == Cost(a) + Cost(b)
  {
    hide Worth;
    if b == [] {
      assert a + b == a;
    } else {
      var b', l := b[..|b| - 1], b[|b| - 1];
      QtyConcat(a, b');
      QtySnoc(a + b', l);
      QtySnoc(b', l);
      assert b == b' + [l];
      assert a + b == a + b' + [l];
    }
  }

  lemma {:induction false} QtyAtConcat(a: seq<Level>, b: seq<Level>, p: Price)
    ensures QtyAt(a + b, p) == QtyAt(a, p) + QtyAt(b, p)
  {
    if b == [] {
      assert a + b == a;
    } else {
      var b', l := b[..|b| - 1], b[|b| - 1];
      QtyAtConcat(a, b', p);
      QtyAtSnoc(a + b', l, p);
      QtyAtSnoc(b', l, p);
      assert b == b' + [l];
      assert a + b == a + b' + [l];
    }
  }

  // ---------- Best-first reading ----------

  /** `p` is at least as good a price as `q` for whoever trades against this side. */
  predicate AsGood(side: Side, p: Price, q: Price) {
    match side
    case Ask => p <= q
    case Bid => p >= q
  }

  predicate Better(side: Side, p: Price, q: Price) {
    p != q && AsGood(side, p, q)
  }

  predicate IsBest(side: Side, p: Price, s: set<Price>) {
    p in s && forall q :: q in s ==> AsGood(side, p, q)
  }

  lemma BestOfTwo(side: Side, s: set<Price>, x: Price, p: Price)
    requires x in s && IsBest(side, p, s - {x})
    ensures IsBest(side, if AsGood(side, p, x) then p else x, s)
  {
    var best := if AsGood(side, p, x) then p else x;
    forall q | q in s
      ensures AsGood(side, best, q)
    {
      assert q == x || q in s - {x};
    }
  }

  lemma {:induction false} BestExists(side: Side, s: set<Price>)
    requires s != {}
    ensures exists p :: IsBest(side, p, s)
  {
    var x :| x in s;
    if s == {x} {
      assert IsBest(side, x, s);
    } else {
      hide IsBest;
      BestExists(side, s - {x});
      var p :| IsBest(side, p, s - {x});
      BestOfTwo(side, s, x, p);
    }
  }

  function Best(side: Side, s: set<Price>): (p: Price)
    requires s != {}
    ensures p in s
    ensures forall q :: q in s ==> AsGood(side, p, q)
  {
    BestExists(side, s);
    var p :| IsBest(side, p, s);
    p
  }

  /** The prices of one side, best first. */
  function BestFirst(side: Side, s: set<Price>): (ks: seq<Price>)
    decreases |s|
  {
    if s == {} then [] else
      var p := Best(side, s);
      [p] + BestFirst(side, s - {p})
  }

  lemma {:induction false} BestFirstSorted(side: Side, s: set<Price>)
    ensures var ks := BestFirst(side, s);
      && |ks| == |s|
      && (forall k :: k in ks <==> k in s)
      && (forall i, j :: 0 <= i < j < |ks| ==> Better(side, ks[i], ks[j]))
    decreases |s|
  {
    if s != {} {
      var p := Best(side, s);
      BestFirstSorted(side, s - {p});
      var ks, rest := BestFirst(side, s), BestFirst(side, s - {p});
      assert ks == [p] + rest;
      forall i, j | 0 <= i < j < |ks|
        ensures Better(side, ks[i], ks[j])
      {
        assert ks[j] == rest[j - 1] && rest[j - 1] in rest;
      }
    }
  }

  /** Two best-first listings of the same prices are the same listing. */
  lemma {:induction false} SortedUnique(side: Side, a: seq<Price>, b: seq<Price>)
    requires |a| == |b| && forall k :: k in a <==> k in b
    requires forall i, j :: 0 <= i < j < |a| ==> Better(side, a[i], a[j])
    requires forall i, j :: 0 <= i < j < |b| ==> Better(side, b[i], b[j])
    ensures a == b
  {
    if a != [] {
      assert a[0] in b;
      assert b[0] in a;
      var i :| 0 <= i < |a| && a[i] == b[0];
      var j :| 0 <= j < |b| && b[j] == a[0];
      assert a[0] == b[0];
      forall k | k in a[1..]
        ensures k in b[1..]
      {
        assert k in a;
        assert k in b;
      }
      forall k | k in b[1..]
        ensures k in a[1..]
      {
        assert k in b;
        assert k in a;
      }
      SortedUnique(side, a[1..], b[1..]);
      assert a == [a[0]] + a[1..] && b == [b[0]] + b[1..];
    }
  }

  function Reverse<T>(s: seq<T>): (r: seq<T>)
    ensures |r| == |s|
    ensures forall i :: 0 <= i < |s| ==> r[i] == s[|s| - 1 - i]
  {
    seq(|s|, i requires 0 <= i < |s| => s[|s| - 1 - i])
  }

  /** Reading a side backwards is reading it for the other side. */
  lemma BackwardsIsOtherSide(s: set<Price>)
    ensures Reverse(BestFirst(Ask, s)) == BestFirst(Bid, s)
  {
    hide BestFirst;
    BestFirstSorted(Ask, s);
    BestFirstSorted(Bid, s);
    var up := BestFirst(Ask, s);
    ReverseMembers(up);
    SortedUnique(Bid, Reverse(up), BestFirst(Bid, s));
  }

  lemma ReverseMembers<T>(s: seq<T>)
    ensures forall k :: k in Reverse(s) <==> k in s
  {
    forall k | k in s
      ensures k in Reverse(s)
    {
      var i :| 0 <= i < |s| && s[i] == k;
      assert Reverse(s)[|s| - 1 - i] == k;
    }
  }

  // ---------- Taking liquidity ----------

  function Size(book: Ladder, p: Price): real {
    if p in book then book[p] else 0.0
  }

  predicate Positive(book: Ladder) {
    forall p :: p in book ==> book[p] > 0.0
  }

  /** Take `q` from the level at `p`; a level left below DUST disappears. */
  function Deduct(book: Ladder, p: Price, q: real): Ladder
    requires p in book
  {
    if book[p] - q < DUST then book - {p} else book[p := book[p] - q]
  }

  lemma DeductPositive(book: Ladder, p: Price, q: real)
    requires Positive(book) && p in book && q <= book[p]
    ensures Positive(Deduct(book, p, q))
    ensures q == book[p] ==> Deduct(book, p, q) == book - {p} && Deduct(book, p, q).Keys == book.Keys - {p}
  {
  }

  /**
   `takes` accounts for the change from `book` to `book'`: what is missing at each price was taken
   there, up to a remnant below DUST where the level has gone. Nothing appears from nowhere, and
   no level is left behind below DUST that was not so small before.
   */
  ghost predicate Drained(book: Ladder, takes: seq<Level>, book': Ladder) {
    && (forall p :: p in book' ==> p in book)
    && (forall p :: p in book' ==> book[p] == book'[p] + QtyAt(takes, p))
    && (forall p :: p in book' ==> book'[p] == book[p] || book'[p] >= DUST)
    && (forall p :: p in book && p !in book' ==> 0.0 <= book[p] - QtyAt(takes, p) < DUST)
    && (forall p :: p !in book ==> QtyAt(takes, p) == 0.0)
  }

  lemma DrainedNothing(book: Ladder)
    ensures Drained(book, [], book)
  {
  }

  lemma DrainedStep(book: Ladder, takes: seq<Level>, mid: Ladder, p: Price, q: real)
    requires Drained(book, takes, mid)
    requires p in mid && 0.0 <= q <= mid[p]
    ensures Drained(book, takes + [Level(p, q)], Deduct(mid, p, q))
  {
    forall x: Price
      ensures QtyAt(takes + [Level(p, q)], x) == QtyAt(takes, x) + if p == x then q else 0.0
    {
      QtyAtSnoc(takes, Level(p, q), x);
    }
  }

  lemma DrainedTrans(book: Ladder, a: seq<Level>, mid: Ladder, b: seq<Level>, book': Ladder)
    requires Drained(book, a, mid)
    requires Drained(mid, b, book')
    ensures Drained(book, a + b, book')
  {
    forall p
      ensures QtyAt(a + b, p) == QtyAt(a, p) + QtyAt(b, p)
    {
      QtyAtConcat(a, b, p);
    }
  }

  // ---------- Depth ----------

  function Levels(book: Ladder, ks: seq<Price>): (r: seq<Level>)
    requires forall k :: k in ks ==> k in book
    ensures |r| == |ks|
    ensures forall i :: 0 <= i < |r| ==> r[i] == Level(ks[i], book[ks[i]])
  {
    seq(|ks|, i requires 0 <= i < |ks| => Level(ks[i], book[ks[i]]))
  }

  /** All levels of a side, best first. */
  function Items(side: Side, book: Ladder): seq<Level> {
    BestFirstSorted(side, book.Keys);
    Levels(book, BestFirst(side, book.Keys))
  }

  /** Python's `s[:n]`. */
  function SliceTo<T>(s: seq<T>, n: int): seq<T> {
    if n >= 0 then s[..if n <= |s| then n else |s|]
    else s[..if |s| + n >= 0 then |s| + n else 0]
  }

  /** Python's `s[n:]`. */
  function SliceFrom<T>(s: seq<T>, n: int): seq<T> {
    if n >= 0 then s[if n <= |s| then n else |s|..]
    else s[if |s| + n >= 0 then |s| + n else 0..]
  }

  /** The depth listing as the source computes it from the ascending listing of the side. */
  function Depth(side: Side, n: int, book: Ladder): seq<Level> {
    match side
    case Ask => SliceTo(Items(Ask, book), n)
    case Bid => Reverse(SliceFrom(Items(Ask, book), -n))
  }

  lemma ItemsReversed(book: Ladder)
    ensures Reverse(Items(Ask, book)) == Items(Bid, book)
  {
    var up, down := BestFirst(Ask, book.Keys), BestFirst(Bid, book.Keys);
    BestFirstSorted(Ask, book.Keys);
    BestFirstSorted(Bid, book.Keys);
    BackwardsIsOtherSide(book.Keys);
    assert Reverse(up) == down;
    LevelsReversed(book, up);
  }

  lemma LevelsReversed(book: Ladder, ks: seq<Price>)
    requires forall k :: k in ks ==> k in book
    ensures forall k :: k in Reverse(ks) ==> k in book
    ensures Reverse(Levels(book, ks)) == Levels(book, Reverse(ks))
  {
    ReverseMembers(ks);
  }

  /** For a positive count the listing is the best `n` levels, best first, or all of them. */
  lemma DepthIsTop(side: Side, n: int, book: Ladder)
    requires n > 0
    ensures var all := Items(side, book);
      Depth(side, n, book) == all[..if n <= |all| then n else |all|]
  {
    ItemsReversed(book);
  }
}
