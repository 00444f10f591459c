/**
 A matching pass over every order of a book in list order: liquidity accounting, time priority,
 and the fact that nothing more is left to match afterwards.
 */
module Passes {
  import opened Prelude
  import opened Ladders
  import opened Orders
  import opened Matching

  datatype Sides = Sides(bids: Ladder, asks: Ladder) {
    function On(side: OrderSide): Ladder {
      if side == BUY then asks else bids
    }

    function With(side: OrderSide, book: Ladder): Sides {
      if side == BUY then Sides(bids, book) else Sides(book, asks)
    }
  }

  datatype Passed = Passed(sides: Sides, orders: seq<Order>)

  /** The first `n` orders have had their turn. */
  function Pass(orders: seq<Order>, n: nat, sides: Sides): (r: Passed)
    requires n <= |orders|
    ensures |r.orders| == n
  {
    if n == 0 then Passed(sides, [])
    else
      var prev := Pass(orders, n - 1, sides);
      var o := orders[n - 1];
      var t := Turn(prev.sides.On(o.terms.side), o);
      Passed(prev.sides.With(o.terms.side, t.book), prev.orders + [t.order])
  }

  /** All fills that orders of one kind made, in the order they were made. */
  function FillsOf(side: OrderSide, before: seq<Order>, after: seq<Order>): seq<Level>
    requires |before| == |after|
  {
    if before == [] then []
    else
      var n := |before| - 1;
      FillsOf(side, before[..n], after[..n]) +
      if before[n].terms.side == side then NewFills(before[n], after[n]) else []
  }

  lemma FillsOfSnoc(side: OrderSide, before: seq<Order>, after: seq<Order>, o: Order, o': Order)
    requires |before| == |after|
    ensures FillsOf(side, before + [o], after + [o']) ==
      FillsOf(side, before, after) + if o.terms.side == side then NewFills(o, o') else []
  {
    assert (before + [o])[..|before|] == before;
    assert (after + [o'])[..|after|] == after;
  }

  ghost predicate AllOk(orders: seq<Order>) {
    forall i :: 0 <= i < |orders| ==> OrderOk(orders[i])
  }

  ghost predicate PositiveFills(fills: seq<Level>) {
    forall f :: f in fills ==> f.qty > 0.0
  }

  /** Each order changed only by its own fills. */
  ghost predicate OrdersAdvance(before: seq<Order>, after: seq<Order>) {
    && |before| == |after|
    && AllOk(after)
    && forall i :: 0 <= i < |before| ==>
         && OrderEffect(before[i], NewFills(before[i], after[i]), after[i])
         && PositiveFills(NewFills(before[i], after[i]))
  }

  ghost predicate SidesDrained(sides: Sides, before: seq<Order>, after: seq<Order>, sides': Sides)
    requires |before| == |after|
  {
    && BookEffect(BUY, sides.asks, FillsOf(BUY, before, after), sides'.asks)
    && BookEffect(SELL, sides.bids, FillsOf(SELL, before, after), sides'.bids)
  }

  lemma OrdersAdvanceSnoc(before: seq<Order>, after: seq<Order>, o: Order, o': Order)
    requires OrdersAdvance(before, after)
    requires OrderOk(o') && OrderEffect(o, NewFills(o, o'), o') && PositiveFills(NewFills(o, o'))
    ensures OrdersAdvance(before + [o], after + [o'])
  {
    hide OrderOk, OrderEffect, NewFills, PositiveFills;
  }

  lemma AllOkAt(orders: seq<Order>, i: nat)
    requires AllOk(orders) && i < |orders|
    ensures OrderOk(orders[i])
  {
  }

  lemma PassNothing(orders: seq<Order>, sides: Sides)
    requires Positive(sides.bids) && Positive(sides.asks)
    ensures Pass(orders, 0, sides) == Passed(sides, [])
    ensures OrdersAdvance(orders[..0], []) && SidesDrained(sides, orders[..0], [], sides)
  {
    NoDrain(BUY, sides.asks);
    NoDrain(SELL, sides.bids);
  }

  lemma TurnFillsPositive(book: Ladder, o: Order)
    requires OrderOk(o) && Positive(book)
    ensures PositiveFills(NewFills(o, Turn(book, o).order))
  {
    hide OrderOk, Sweep, OrderEffect;
    TurnUnfolds(book, o);
    if o.Live() {
      WithReferenceOk(o, book);
      var o1 := WithReference(o, book);
      SweepOrder(BestFirst(Consumed(o.terms.side), book.Keys), book, o1, SlippageBound(o1, book));
    }
  }

  lemma SidesPositive(sides: Sides, before: seq<Order>, after: seq<Order>, sides': Sides)
    requires |before| == |after| && SidesDrained(sides, before, after, sides')
    ensures Positive(sides'.bids) && Positive(sides'.asks)
    ensures forall side :: Positive(sides'.On(side))
  {
  }

  lemma SidesDrainedSnoc(sides: Sides, before: seq<Order>, after: seq<Order>, mid: Sides, o: Order, t: Swept)
    requires |before| == |after| && SidesDrained(sides, before, after, mid)
    requires BookEffect(o.terms.side, mid.On(o.terms.side), NewFills(o, t.order), t.book)
    ensures SidesDrained(sides, before + [o], after + [t.order], mid.With(o.terms.side, t.book))
  {
    hide BookEffect, NewFills, FillsOf;
    var more := NewFills(o, t.order);
    FillsOfSnoc(BUY, before, after, o, t.order);
    FillsOfSnoc(SELL, before, after, o, t.order);
    assert FillsOf(BUY, before, after) + [] == FillsOf(BUY, before, after);
    assert FillsOf(SELL, before, after) + [] == FillsOf(SELL, before, after);
    if o.terms.side == BUY {
      BookEffectTrans(BUY, sides.asks, FillsOf(BUY, before, after), mid.asks, more, t.book);
    } else {
      BookEffectTrans(SELL, sides.bids, FillsOf(SELL, before, after), mid.bids, more, t.book);
    }
  }

  /** A pass keeps every order sound, and its fills account for everything that left the book. */
  lemma {:induction false} PassSound(orders: seq<Order>, n: nat, sides: Sides)
    requires n <= |orders| && AllOk(orders)
    requires Positive(sides.bids) && Positive(sides.asks)
    ensures var r := Pass(orders, n, sides);
      && OrdersAdvance(orders[..n], r.orders)
      && SidesDrained(sides, orders[..n], r.orders, r.sides)
  {
    hide *;
    if n == 0 {
      PassNothing(orders, sides);
    } else {
      var prev, o := Pass(orders, n - 1, sides), orders[n - 1];
      AllOkAt(orders, n - 1);
      PassUnfolds(orders, n, sides);
      PassSound(orders, n - 1, sides);
      SidesPositive(sides, orders[..n - 1], prev.orders, prev.sides);
      var book := prev.sides.On(o.terms.side);
      TurnSound(book, o);
      TurnFillsPositive(book, o);
      var t := Turn(book, o);
      OrdersAdvanceSnoc(orders[..n - 1], prev.orders, o, t.order);
      SidesDrainedSnoc(sides, orders[..n - 1], prev.orders, prev.sides, o, t);
      assert orders[..n - 1] + [o] == orders[..n];
    }
  }

  lemma PassUnfolds(orders: seq<Order>, n: nat, sides: Sides)
    requires 0 < n <= |orders|
    ensures var prev, o := Pass(orders, n - 1, sides), orders[n - 1];
      var t := Turn(prev.sides.On(o.terms.side), o);
      Pass(orders, n, sides) == Passed(prev.sides.With(o.terms.side, t.book), prev.orders + [t.order])
  {
  }

  /** What a pass has done to the first orders does not depend on those that follow. */
  lemma {:induction false} PassPrefix(orders: seq<Order>, i: nat, n: nat, sides: Sides)
    requires i <= n <= |orders|
    ensures Pass(orders, i, sides).orders == Pass(orders, n, sides).orders[..i]
    decreases n
  {
    if i < n {
      PassPrefix(orders, i, n - 1, sides);
    }
  }

  lemma PassStart(orders: seq<Order>, sides: Sides)
    ensures Pass(orders, 0, sides) == Passed(sides, [])
  {
  }

  /** One step of a pass, in terms of what the whole pass makes of the orders. */
  lemma PassStep(orders: seq<Order>, i: nat, sides: Sides)
    requires i < |orders|
    ensures var prev, o := Pass(orders, i, sides).sides, orders[i];
      var t := Turn(prev.On(o.terms.side), o);
      && Pass(orders, i + 1, sides).sides == prev.With(o.terms.side, t.book)
      && Pass(orders, |orders|, sides).orders[i] == t.order
  {
    hide Turn, Pass;
    PassUnfolds(orders, i + 1, sides);
    PassPrefix(orders, i + 1, |orders|, sides);
    assert Pass(orders, |orders|, sides).orders[..i + 1][i] == Pass(orders, |orders|, sides).orders[i];
  }

  // ---------- Nothing is left to match ----------

  /** No order could do anything with what is left on its side. */
  ghost predicate AllIdle(orders: seq<Order>, sides: Sides) {
    forall i :: 0 <= i < |orders| ==> Idle(sides.On(orders[i].terms.side), orders[i])
  }

  /** One more turn leaves the orders before it idle, and the order itself. */
  lemma TurnKeepsIdle(done: seq<Order>, sides: Sides, o: Order)
    requires AllOk(done) && AllIdle(done, sides) && OrderOk(o)
    requires Positive(sides.bids) && Positive(sides.asks)
    ensures var t := Turn(sides.On(o.terms.side), o);
      AllIdle(done + [t.order], sides.With(o.terms.side, t.book))
  {
    var side := o.terms.side;
    var book := sides.On(side);
    var t := Turn(book, o);
    TurnSound(book, o);
    TurnFillsPositive(book, o);
    TurnLeavesIdle(book, o);
    assert t.order.terms == o.terms;
    hide Turn, Idle, OrderOk, BookEffect, OrderEffect, NewFills;
    forall i | 0 <= i < |done|
      ensures Idle(sides.With(side, t.book).On(done[i].terms.side), done[i])
    {
      if done[i].terms.side == side {
        IdleStays(book, NewFills(o, t.order), t.book, side, done[i]);
      }
    }
  }

  lemma {:induction false} PassLeavesIdle(orders: seq<Order>, n: nat, sides: Sides)
    requires n <= |orders| && AllOk(orders)
    requires Positive(sides.bids) && Positive(sides.asks)
    ensures var r := Pass(orders, n, sides); AllIdle(r.orders, r.sides)
  {
    if n > 0 {
      var prev, o := Pass(orders, n - 1, sides), orders[n - 1];
      hide *;
      AllOkAt(orders, n - 1);
      PassUnfolds(orders, n, sides);
      PassLeavesIdle(orders, n - 1, sides);
      PassSound(orders, n - 1, sides);
      SidesPositive(sides, orders[..n - 1], prev.orders, prev.sides);
      AdvanceOk(orders[..n - 1], prev.orders);
      TurnKeepsIdle(prev.orders, prev.sides, o);
    }
  }

  lemma AdvanceOk(before: seq<Order>, after: seq<Order>)
    requires OrdersAdvance(before, after)
    ensures AllOk(after) && |before| == |after|
  {
  }

  /** Between passes an unfinished MARKET order has no fills. */
  ghost predicate UntouchedIfMarket(o: Order) {
    o.Live() && o.terms.isMarket ==> o.filled == 0.0 && o.slippageRef.None?
  }

  ghost predicate MarketUntouched(orders: seq<Order>) {
    forall i :: 0 <= i < |orders| ==> UntouchedIfMarket(orders[i])
  }

  lemma {:induction false} PassMarketUntouched(orders: seq<Order>, n: nat, sides: Sides)
    requires n <= |orders| && AllOk(orders) && MarketUntouched(orders)
    requires Positive(sides.bids) && Positive(sides.asks)
    ensures MarketUntouched(Pass(orders, n, sides).orders)
  {
    if n > 0 {
      var prev, o := Pass(orders, n - 1, sides), orders[n - 1];
      assert UntouchedIfMarket(o);
      hide *;
      AllOkAt(orders, n - 1);
      PassUnfolds(orders, n, sides);
      PassMarketUntouched(orders, n - 1, sides);
      PassSound(orders, n - 1, sides);
      SidesPositive(sides, orders[..n - 1], prev.orders, prev.sides);
      var t := Turn(prev.sides.On(o.terms.side), o);
      TurnMarketUntouched(prev.sides.On(o.terms.side), o);
      MarketUntouchedSnoc(prev.orders, t.order);
    }
  }

  lemma MarketUntouchedSnoc(orders: seq<Order>, o: Order)
    requires MarketUntouched(orders) && UntouchedIfMarket(o)
    ensures MarketUntouched(orders + [o])
  {
  }

  lemma TurnMarketUntouched(book: Ladder, o: Order)
    requires OrderOk(o) && Positive(book)
    requires UntouchedIfMarket(o)
    ensures UntouchedIfMarket(Turn(book, o).order)
  {
    TurnSound(book, o);
    if o.Live() && o.terms.isMarket {
      MarketIsImmediate(book, o);
    }
  }

  /** Idle orders make an idle pass. */
  lemma {:induction false} IdlePass(orders: seq<Order>, n: nat, sides: Sides)
    requires n <= |orders| && AllOk(orders) && MarketUntouched(orders) && AllIdle(orders, sides)
    requires Positive(sides.bids) && Positive(sides.asks)
    ensures Pass(orders, n, sides) == Passed(sides, orders[..n])
  {
    if n > 0 {
      var o := orders[n - 1];
      IdlePass(orders, n - 1, sides);
      PassUnfolds(orders, n, sides);
      assert OrderOk(o) && Idle(sides.On(o.terms.side), o);
      IdleTurn(sides.On(o.terms.side), o);
      assert orders[..n - 1] + [o] == orders[..n];
    }
  }

  /** A second pass over the result of a pass changes nothing. */
  lemma PassAgain(orders: seq<Order>, sides: Sides)
    requires AllOk(orders) && MarketUntouched(orders)
    requires Positive(sides.bids) && Positive(sides.asks)
    ensures var r := Pass(orders, |orders|, sides);
      Pass(r.orders, |r.orders|, r.sides) == r
  {
    var r := Pass(orders, |orders|, sides);
    PassSound(orders, |orders|, sides);
    PassLeavesIdle(orders, |orders|, sides);
    PassMarketUntouched(orders, |orders|, sides);
    hide Pass, OrderOk, AllIdle, BookEffect, FillsOf;
    IdlePass(r.orders, |r.orders|, r.sides);
    assert r.orders[..|r.orders|] == r.orders;
  }

  // ---------- No crossing, and time priority ----------

  /** The limit of an order reaches a price. */
  predicate Reaches(t: Terms, p: Price) {
    if t.side == BUY then t.price >= p else t.price <= p
  }

  /**
   What keeps a BUY from the best ask: it wants less than dust, the ask is dust, or its cost cap is
   used up or pays for less than dust there.
   */
  ghost predicate HeldBack(book: Ladder, o: Order)
    requires book.Keys != {}
  {
    var best := Best(Ask, book.Keys);
    && o.terms.side == BUY && best in book
    && (|| o.Remaining() < DUST || book[best] < DUST
        || (o.terms.maxCost.Some? &&
            var left := o.terms.maxCost.value - o.entryCost;
            left <= 0.0 || Afford(left, best) < DUST))
  }

  /** A live LIMIT order can use no price left on its side: it reaches none, or it is held back. */
  ghost predicate CrossesNone(book: Ladder, o: Order) {
    o.Live() && !o.terms.isMarket ==> forall p :: p in book && Reaches(o.terms, p) ==> HeldBack(book, o)
  }

  /** After a pass no resting LIMIT order, capped or not, crosses the book without being held back. */
  lemma NoCrossing(orders: seq<Order>, sides: Sides, i: nat)
    requires AllOk(orders) && Positive(sides.bids) && Positive(sides.asks) && i < |orders|
    ensures var r := Pass(orders, |orders|, sides);
      CrossesNone(r.sides.On(r.orders[i].terms.side), r.orders[i])
  {
    var r := Pass(orders, |orders|, sides);
    PassLeavesIdle(orders, |orders|, sides);
    IdleMeansNoCrossing(r.sides.On(r.orders[i].terms.side), r.orders[i]);
  }

  lemma IdleMeansNoCrossing(book: Ladder, o: Order)
    requires Idle(book, o)
    ensures CrossesNone(book, o)
  {
    if o.Live() && !o.terms.isMarket {
      forall p | p in book && Reaches(o.terms, p) ensures HeldBack(book, o) {
        StuckIsHeldBack(book, o, p);
      }
    }
  }

  lemma StuckIsHeldBack(book: Ladder, o: Order, p: Price)
    requires Stuck(book, o, None) && !o.terms.isMarket && p in book && Reaches(o.terms, p)
    ensures HeldBack(book, o)
  {
    var best := Best(Consumed(o.terms.side), book.Keys);
    assert p in book.Keys && AsGood(Consumed(o.terms.side), best, p);
    assert Accepts(o.terms, None, best);
    hide Afford;
  }

  /** With no dust on the book to begin with, nothing crosses at all once a pass is over. */
  lemma NoCrossingWithoutDust(orders: seq<Order>, sides: Sides, i: nat, p: Price)
    requires AllOk(orders) && Positive(sides.bids) && Positive(sides.asks) && i < |orders|
    requires forall q :: q in sides.asks ==> sides.asks[q] >= DUST
    ensures var r := Pass(orders, |orders|, sides);
      var o := r.orders[i];
      o.Live() && !o.terms.isMarket && o.terms.maxCost.None? && p in r.sides.On(o.terms.side) ==>
        !Reaches(o.terms, p) || (o.terms.side == BUY && o.Remaining() < DUST)
  {
    NoCrossing(orders, sides, i);
    PassSound(orders, |orders|, sides);
  }

  /**
   An order has no claim on price `p`, which is still on its side of the book: it is finished, or it
   is a LIMIT order that does not reach `p` or is held back.
   */
  ghost predicate NoClaim(book: Ladder, o: Order, p: Price) {
    p in book && (o.Live() ==> !o.terms.isMarket && (Reaches(o.terms, p) ==> HeldBack(book, o)))
  }

  lemma IdleMeansNoClaim(book: Ladder, o: Order, p: Price)
    requires Idle(book, o) && p in book
    ensures NoClaim(book, o, p)
  {
    IdleMeansNoCrossing(book, o);
    assert p in book.Keys;
  }

  /**
   Time priority: whenever a later order takes a fill at a price, no earlier order of the same kind
   has a claim on that price at that moment.
   */
  lemma TimePriority(orders: seq<Order>, sides: Sides, i: nat, j: nat, f: Level)
    requires AllOk(orders) && Positive(sides.bids) && Positive(sides.asks)
    requires i < j < |orders| && orders[i].terms.side == orders[j].terms.side
    requires f in NewFills(orders[j], Pass(orders, j + 1, sides).orders[j])
    ensures var before := Pass(orders, j, sides);
      && before.orders[i].terms == orders[i].terms
      && NoClaim(before.sides.On(orders[j].terms.side), before.orders[i], f.price)
  {
    hide *;
    var before, o := Pass(orders, j, sides), orders[j];
    var book := before.sides.On(o.terms.side);
    PassSound(orders, j, sides);
    PassLeavesIdle(orders, j, sides);
    SidesPositive(sides, orders[..j], before.orders, before.sides);
    AllOkAt(orders, j);
    LastTurn(orders, j, sides);
    var t := Turn(book, o);
    KeepsTerms(orders[..j], before.orders, i);
    IdleAt(before.orders, before.sides, i);
    TurnSound(book, o);
    TurnFillsPositive(book, o);
    FillIsOnBook(o.terms.side, book, NewFills(o, t.order), t.book, f);
    IdleMeansNoClaim(book, before.orders[i], f.price);
  }

  lemma LastTurn(orders: seq<Order>, j: nat, sides: Sides)
    requires j < |orders|
    ensures var before := Pass(orders, j, sides);
      Pass(orders, j + 1, sides).orders[j] == Turn(before.sides.On(orders[j].terms.side), orders[j]).order
  {
  }

  lemma IdleAt(orders: seq<Order>, sides: Sides, i: nat)
    requires AllIdle(orders, sides) && i < |orders|
    ensures Idle(sides.On(orders[i].terms.side), orders[i])
  {
  }

  lemma KeepsTerms(before: seq<Order>, after: seq<Order>, i: nat)
    requires OrdersAdvance(before, after) && i < |before|
    ensures after[i].terms == before[i].terms
  {
    assert OrderEffect(before[i], NewFills(before[i], after[i]), after[i]);
  }

  lemma FillIsOnBook(side: OrderSide, book: Ladder, fills: seq<Level>, book': Ladder, f: Level)
    requires BookEffect(side, book, fills, book') && PositiveFills(fills) && f in fills
    ensures f.price in book
  {
    QtyAtNonNegative(fills, f.price);
  }
}
