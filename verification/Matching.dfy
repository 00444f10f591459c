/**
 The matching walk for one order, the bracket exit walk, and the passes that apply them to every
 order of a book in list order, as functions on values.
 */
module Matching {
  import opened Prelude
  import opened Ladders
  import opened Orders

  const DEFAULT_SLIPPAGE: real := 0.10

  function Consumed(side: OrderSide): Side {
    if side == BUY then Ask else Bid
  }

  /** The walk goes on to price `p`: within the slippage bound, or within the limit price. */
  predicate Accepts(t: Terms, bound: Option<real>, p: Price) {
    if t.isMarket then
      bound.None? || if t.side == BUY then p <= bound.value else p >= bound.value
    else if t.side == BUY then t.price >= p else t.price <= p
  }

  /** How much is taken from a level, or None when the walk stops there. */
  function TakeQty(o: Order, p: Price, size: real): Option<real> {
    var want := Min(o.Remaining(), size);
    if o.terms.side == SELL then Some(want)
    else if o.terms.maxCost.Some? && o.terms.maxCost.value - o.entryCost <= 0.0 then None
    else
      var qty := if o.terms.maxCost.Some? then Min(want, Afford(o.terms.maxCost.value - o.entryCost, p)) else want;
      if qty < DUST then None else Some(qty)
  }

  function AddFill(o: Order, p: Price, q: real): Order {
    o.(filled := o.filled + q,
       entryCost := o.entryCost + Worth(q, p),
       fillLevels := o.fillLevels + [Level(p, q)],
       status := NewStatus(o.status, o.filled + q, o.quantity))
  }

  predicate CapReached(o: Order) {
    o.terms.side == BUY && o.terms.maxCost.Some? && o.entryCost >= o.terms.maxCost.value
  }

  datatype Swept = Swept(book: Ladder, order: Order)

  /** Walk the given prices in order, taking liquidity for `o`. */
  function Sweep(ks: seq<Price>, book: Ladder, o: Order, bound: Option<real>): Swept
    decreases |ks|
  {
    if ks == [] then Swept(book, o)
    else
      var p := ks[0];
      if Size(book, p) <= 0.0 then Sweep(ks[1..], book, o, bound)
      else if !Accepts(o.terms, bound, p) then Swept(book, o)
      else
        match TakeQty(o, p, Size(book, p))
        case None => Swept(book, o)
        case Some(q) =>
          var o', book' := AddFill(o, p, q), Deduct(book, p, q);
          if o'.status == FILLED || CapReached(o') then Swept(book', o')
          else Sweep(ks[1..], book', o', bound)
  }

  /** The reference price for slippage is fixed at the first match against a book with data. */
  function WithReference(o: Order, book: Ladder): Order {
    if o.terms.isMarket && book.Keys != {} && o.slippageRef.None?
    then o.(slippageRef := Some(Best(Consumed(o.terms.side), book.Keys)))
    else o
  }

  function SlippageBound(o: Order, book: Ladder): Option<real> {
    if !o.terms.isMarket || book.Keys == {} || o.slippageRef.None? then None
    else
      var slippage := o.terms.maxSlippage.GetOr(DEFAULT_SLIPPAGE);
      Some(Worth(if o.terms.side == BUY then 1.0 + slippage else 1.0 - slippage, o.slippageRef.value))
  }

  /** `_match_order`: `book` is the side that `o` consumes. */
  function MatchOrder(book: Ladder, o: Order): Swept {
    var o1 := WithReference(o, book);
    Sweep(BestFirst(Consumed(o.terms.side), book.Keys), book, o1, SlippageBound(o1, book))
  }

  /** MARKET orders are immediate-or-cancel, but only against a book that had something to offer. */
  function ImmediateOrCancel(o: Order, hadLiquidity: bool): Order {
    if o.terms.isMarket && o.status != FILLED && (hadLiquidity || o.filled > 0.0)
    then o.(status := CANCELED) else o
  }

  /** One order's turn in a matching pass. */
  function Turn(book: Ladder, o: Order): Swept {
    if !o.Live() then Swept(book, o)
    else
      var s := MatchOrder(book, o);
      Swept(s.book, ImmediateOrCancel(s.order, book.Keys != {}))
  }

  // ---------- What a sweep does ----------

  /** The fills that turned `o` into `o'`. */
  function NewFills(o: Order, o': Order): seq<Level> {
    if |o.fillLevels| <= |o'.fillLevels| then o'.fillLevels[|o.fillLevels|..] else []
  }

  /** A level too small for a BUY to take is left alone by every BUY. */
  ghost predicate DustKept(book: Ladder, book': Ladder) {
    forall p :: p in book && book[p] < DUST ==> p in book' && book'[p] == book[p]
  }

  /** What one order's matching does to the order, given the fills it made. */
  ghost predicate OrderEffect(o: Order, fills: seq<Level>, o': Order) {
    && o'.fillLevels == o.fillLevels + fills
    && o'.filled == o.filled + Qty(fills)
    && o'.entryCost == o.entryCost + Cost(fills)
    && o'.quantity == o.quantity && o'.tp == o.tp && o'.sl == o.sl && o'.closed == o.closed
    && o'.exitPrice == o.exitPrice && o'.exitFilled == o.exitFilled && o'.exitTrigger == o.exitTrigger
    && Evolves(o, o')
  }

  /** What it does to the side the order consumes. */
  ghost predicate BookEffect(side: OrderSide, book: Ladder, fills: seq<Level>, book': Ladder) {
    && Drained(book, fills, book')
    && Positive(book')
    && (side == BUY ==> DustKept(book, book'))
  }

  ghost predicate FillsOk(t: Terms, bound: Option<real>, fills: seq<Level>) {
    forall f :: f in fills ==> f.qty > 0.0 && Accepts(t, bound, f.price)
  }

  lemma TakeQtyBounds(o: Order, p: Price, size: real)
    requires OrderOk(o) && o.Live() && size > 0.0
    requires TakeQty(o, p, size).Some?
    ensures var q := TakeQty(o, p, size).value;
      && 0.0 < q <= size && q <= o.Remaining()
      && (o.terms.side == BUY ==> q >= DUST)
      && (o.terms.side == BUY && o.terms.maxCost.Some? ==> o.entryCost + Worth(q, p) <= o.terms.maxCost.value)
  {
    if o.terms.side == BUY && o.terms.maxCost.Some? {
      var budget, q := o.terms.maxCost.value - o.entryCost, TakeQty(o, p, size).value;
      assert q <= budget / p;
      assert Worth(q, p) <= (budget / p) * p == budget;
    }
  }

  lemma AddFillProgress(o: Order, p: Price, q: real)
    requires OrderOk(o) && o.Live() && 0.0 < q <= o.Remaining()
    ensures var o' := AddFill(o, p, q);
      ProgressOk(o') && ExitOk(o') && Evolves(o, o') && o'.status != PENDING && o'.status != CANCELED
  {
  }

  lemma ScaleOrder(q: real, a: real, b: real)
    requires q >= 0.0 && a <= b
    ensures q * a <= q * b
  {
  }

  lemma AddFillCost(o: Order, bound: Option<real>, p: Price, q: real)
    requires CostOk(o) && o.filled >= 0.0 && q > 0.0
    requires Accepts(o.terms, bound, p)
    requires o.terms.side == BUY && o.terms.maxCost.Some? ==> o.entryCost + Worth(q, p) <= o.terms.maxCost.value
    ensures CostOk(AddFill(o, p, q))
  {
    var cost, limit := q * p, o.terms.price;
    assert cost > 0.0;
    assert limit * (o.filled + q) == limit * o.filled + q * limit;
    if p <= limit {
      ScaleOrder(q, p, limit);
    } else {
      ScaleOrder(q, limit, p);
    }
  }

  lemma DeductDrains(side: OrderSide, book: Ladder, p: Price, q: real)
    requires Positive(book) && p in book && 0.0 < q <= book[p]
    requires side == BUY ==> q >= DUST
    ensures BookEffect(side, book, [Level(p, q)], Deduct(book, p, q))
  {
    DrainedNothing(book);
    DrainedStep(book, [], book, p, q);
    assert [] + [Level(p, q)] == [Level(p, q)];
  }

  lemma BookEffectTrans(side: OrderSide, b0: Ladder, f1: seq<Level>, b1: Ladder, f2: seq<Level>, b2: Ladder)
    requires BookEffect(side, b0, f1, b1) && BookEffect(side, b1, f2, b2)
    ensures BookEffect(side, b0, f1 + f2, b2)
  {
    DrainedTrans(b0, f1, b1, f2, b2);
  }

  lemma AddFillEffect(o: Order, p: Price, q: real)
    requires OrderOk(o) && o.Live() && 0.0 < q <= o.Remaining()
    ensures OrderEffect(o, [Level(p, q)], AddFill(o, p, q))
  {
    AddFillProgress(o, p, q);
    QtySnoc([], Level(p, q));
    assert [] + [Level(p, q)] == [Level(p, q)];
  }

  lemma OrderEffectTrans(o0: Order, f1: seq<Level>, o1: Order, f2: seq<Level>, o2: Order)
    requires OrderEffect(o0, f1, o1) && OrderEffect(o1, f2, o2)
    ensures OrderEffect(o0, f1 + f2, o2)
  {
    hide Evolves, Qty, Cost;
    EvolvesTrans(o0, o1, o2);
    QtyConcat(f1, f2);
    assert o0.fillLevels + f1 + f2 == o0.fillLevels + (f1 + f2);
  }

  /** The walk takes a fill at the first price. */
  predicate TakesFirst(ks: seq<Price>, book: Ladder, o: Order, bound: Option<real>) {
    && ks != [] && Size(book, ks[0]) > 0.0
    && Accepts(o.terms, bound, ks[0]) && TakeQty(o, ks[0], book[ks[0]]).Some?
  }

  function FirstFill(ks: seq<Price>, book: Ladder, o: Order, bound: Option<real>): Level
    requires TakesFirst(ks, book, o, bound)
  {
    Level(ks[0], TakeQty(o, ks[0], book[ks[0]]).value)
  }

  function AfterFirst(ks: seq<Price>, book: Ladder, o: Order, bound: Option<real>): Swept
    requires TakesFirst(ks, book, o, bound)
  {
    var f := FirstFill(ks, book, o, bound);
    Swept(Deduct(book, f.price, f.qty), AddFill(o, f.price, f.qty))
  }

  predicate Done(o: Order) {
    o.status == FILLED || CapReached(o)
  }

  /** The walk, one price at a time. */
  lemma SweepUnfolds(ks: seq<Price>, book: Ladder, o: Order, bound: Option<real>)
    ensures TakesFirst(ks, book, o, bound) ==>
      var s := AfterFirst(ks, book, o, bound);
      Sweep(ks, book, o, bound) == if Done(s.order) then s else Sweep(ks[1..], s.book, s.order, bound)
    ensures ks != [] && Size(book, ks[0]) <= 0.0 ==> Sweep(ks, book, o, bound) == Sweep(ks[1..], book, o, bound)
    ensures TakesFirst(ks, book, o, bound) ==> ks != []
    ensures !TakesFirst(ks, book, o, bound) && (ks == [] || Size(book, ks[0]) > 0.0) ==>
      Sweep(ks, book, o, bound) == Swept(book, o)
  {
  }

  lemma FirstFillSound(ks: seq<Price>, book: Ladder, o: Order, bound: Option<real>)
    requires OrderOk(o) && o.Live() && Positive(book) && TakesFirst(ks, book, o, bound)
    ensures var f, s := FirstFill(ks, book, o, bound), AfterFirst(ks, book, o, bound);
      && FillsOk(o.terms, bound, [f])
      && OrderOk(s.order) && OrderEffect(o, [f], s.order) && NewFills(o, s.order) == [f]
      && (s.order.Live() || s.order.status == FILLED)
      && s.order.slippageRef == o.slippageRef
      && s.order.terms == o.terms
      && BookEffect(o.terms.side, book, [f], s.book) && Positive(s.book)
  {
    var f := FirstFill(ks, book, o, bound);
    TakeQtyBounds(o, f.price, book[f.price]);
    AddFillProgress(o, f.price, f.qty);
    AddFillCost(o, bound, f.price, f.qty);
    AddFillEffect(o, f.price, f.qty);
    DeductDrains(o.terms.side, book, f.price, f.qty);
  }

  lemma NewFillsTrans(o0: Order, o1: Order, o2: Order)
    requires OrderEffect(o0, NewFills(o0, o1), o1) && OrderEffect(o1, NewFills(o1, o2), o2)
    ensures NewFills(o0, o2) == NewFills(o0, o1) + NewFills(o1, o2)
    ensures OrderEffect(o0, NewFills(o0, o2), o2)
  {
    OrderEffectTrans(o0, NewFills(o0, o1), o1, NewFills(o1, o2), o2);
  }

  lemma NoFills(o: Order, bound: Option<real>)
    requires OrderOk(o)
    ensures NewFills(o, o) == [] && OrderEffect(o, [], o) && FillsOk(o.terms, bound, [])
  {
  }

  lemma NoDrain(side: OrderSide, book: Ladder)
    requires Positive(book)
    ensures BookEffect(side, book, [], book)
  {
  }

  lemma FillsOkConcat(t: Terms, bound: Option<real>, a: seq<Level>, b: seq<Level>)
    requires FillsOk(t, bound, a) && FillsOk(t, bound, b)
    ensures FillsOk(t, bound, a + b)
  {
  }

  /** A sweep keeps the order sound, and its fills account for every change to it. */
  lemma {:induction false} SweepOrder(ks: seq<Price>, book: Ladder, o: Order, bound: Option<real>)
    requires OrderOk(o) && o.Live() && Positive(book)
    ensures var r := Sweep(ks, book, o, bound).order;
      && OrderOk(r) && (r.Live() || r.status == FILLED)
      && OrderEffect(o, NewFills(o, r), r)
      && FillsOk(o.terms, bound, NewFills(o, r))
      && r.slippageRef == o.slippageRef
    decreases |ks|
  {
    hide *;
    SweepUnfolds(ks, book, o, bound);
    NoFills(o, bound);
    if ks != [] && Size(book, ks[0]) <= 0.0 {
      SweepOrder(ks[1..], book, o, bound);
    } else if TakesFirst(ks, book, o, bound) {
      FirstFillSound(ks, book, o, bound);
      var s := AfterFirst(ks, book, o, bound);
      if !Done(s.order) {
        StillLive(s.order);
        SweepOrder(ks[1..], s.book, s.order, bound);
        var r := Sweep(ks[1..], s.book, s.order, bound).order;
        NewFillsTrans(o, s.order, r);
        FillsOkConcat(o.terms, bound, NewFills(o, s.order), NewFills(s.order, r));
      }
    }
  }

  lemma StillLive(o: Order)
    requires !Done(o)
    ensures o.status != FILLED
  {
  }

  /** The same fills account for every change to the side the order consumes. */
  lemma {:induction false} SweepBook(ks: seq<Price>, book: Ladder, o: Order, bound: Option<real>)
    requires OrderOk(o) && o.Live() && Positive(book)
    ensures var r := Sweep(ks, book, o, bound);
      BookEffect(o.terms.side, book, NewFills(o, r.order), r.book)
    decreases |ks|
  {
    hide *;
    SweepUnfolds(ks, book, o, bound);
    NoFills(o, bound);
    NoDrain(o.terms.side, book);
    if ks != [] && Size(book, ks[0]) <= 0.0 {
      SweepBook(ks[1..], book, o, bound);
    } else if TakesFirst(ks, book, o, bound) {
      FirstFillSound(ks, book, o, bound);
      var s := AfterFirst(ks, book, o, bound);
      if !Done(s.order) {
        StillLive(s.order);
        SweepBook(ks[1..], s.book, s.order, bound);
        SweepOrder(ks[1..], s.book, s.order, bound);
        var r := Sweep(ks[1..], s.book, s.order, bound);
        NewFillsTrans(o, s.order, r.order);
        BookEffectTrans(o.terms.side, book, NewFills(o, s.order), s.book, NewFills(s.order, r.order), r.book);
      }
    }
  }

  // ---------- When a sweep stops ----------

  /** The order can take nothing from the best price left. */
  ghost predicate Stuck(book: Ladder, o: Order, bound: Option<real>) {
    book.Keys == {} ||
    var p := Best(Consumed(o.terms.side), book.Keys);
    !Accepts(o.terms, bound, p) || TakeQty(o, p, book[p]).None?
  }

  lemma {:induction false} SweepExhausts(ks: seq<Price>, book: Ladder, o: Order, bound: Option<real>)
    requires OrderOk(o) && o.Live() && Positive(book)
    requires ks == BestFirst(Consumed(o.terms.side), book.Keys)
    ensures var r := Sweep(ks, book, o, bound);
      r.order.status == FILLED || Stuck(r.book, r.order, bound)
    decreases |ks|
  {
    if ks != [] {
      var p := ks[0];
      if Accepts(o.terms, bound, p) && TakeQty(o, p, book[p]).Some? {
        var q := TakeQty(o, p, book[p]).value;
        TakeQtyBounds(o, p, book[p]);
        FirstFillSound(ks, book, o, bound);
        var o1, book1 := AddFill(o, p, q), Deduct(book, p, q);
        if CapReached(o1) {
          assert forall p, size :: TakeQty(o1, p, size) == None;
        } else if o1.status != FILLED {
          LevelUsedUp(o, p, book[p]);
          assert book1 == book - {p};
          assert book1.Keys == book.Keys - {p};
          SweepExhausts(ks[1..], book1, o1, bound);
        }
      }
    }
  }

  /** A fill that leaves the order unfilled and within budget has taken the whole level. */
  lemma LevelUsedUp(o: Order, p: Price, size: real)
    requires OrderOk(o) && o.Live() && size > 0.0
    requires TakeQty(o, p, size).Some?
    requires var o1 := AddFill(o, p, TakeQty(o, p, size).value); o1.status != FILLED && !CapReached(o1)
    ensures TakeQty(o, p, size).value == size
  {
    TakeQtyBounds(o, p, size);
    var q := TakeQty(o, p, size).value;
    if o.terms.side == BUY && o.terms.maxCost.Some? {
      var budget := o.terms.maxCost.value - o.entryCost;
      assert (budget / p) * p == budget;
    }
  }

  lemma StuckMeansIdle(ks: seq<Price>, book: Ladder, o: Order, bound: Option<real>)
    requires Positive(book) && ks == BestFirst(Consumed(o.terms.side), book.Keys)
    requires Stuck(book, o, bound)
    ensures Sweep(ks, book, o, bound) == Swept(book, o)
  {
  }

  /** Less liquidity does not free a stuck order. */
  lemma StuckStays(book: Ladder, book': Ladder, takes: seq<Level>, o: Order, bound: Option<real>)
    requires OrderOk(o) && Stuck(book, o, bound) && Positive(book) && Positive(book')
    requires Drained(book, takes, book') && forall f :: f in takes ==> f.qty > 0.0
    requires o.terms.side == BUY ==> DustKept(book, book')
    ensures Stuck(book', o, bound)
  {
    if book'.Keys != {} {
      var side := Consumed(o.terms.side);
      var p, p' := Best(side, book.Keys), Best(side, book'.Keys);
      assert p' in book && AsGood(side, p, p');
      if Accepts(o.terms, bound, p') {
        assert Accepts(o.terms, bound, p);
        assert o.terms.side == BUY && TakeQty(o, p, book[p]).None?;
        if o.terms.maxCost.Some? && o.terms.maxCost.value - o.entryCost > 0.0 {
          DivideLess(o.terms.maxCost.value - o.entryCost, p, p');
        }
        if p == p' {
          QtyAtNonNegative(takes, p);
        }
      }
    }
  }

  lemma DivideLess(b: real, p: Price, p': Price)
    requires b > 0.0 && p <= p'
    ensures b / p' <= b / p
  {
    assert (b / p) * p == b == (b / p') * p';
    assert (b / p) * p' >= (b / p) * p;
    assert (b / p - b / p') * p' >= 0.0;
  }

  lemma {:induction false} QtyAtNonNegative(levels: seq<Level>, p: Price)
    requires forall f :: f in levels ==> f.qty > 0.0
    ensures QtyAt(levels, p) >= 0.0
    ensures (exists f :: f in levels && f.price == p) ==> QtyAt(levels, p) > 0.0
  {
    if levels != [] {
      var init := levels[..|levels| - 1];
      assert levels == init + [levels[|levels| - 1]];
      QtyAtNonNegative(init, p);
    }
  }

  // ---------- One order's turn ----------

  /** The side of the book an order consumes has nothing to offer it: its turn changes nothing. */
  ghost predicate Idle(book: Ladder, o: Order) {
    o.Live() ==> if o.terms.isMarket then book.Keys == {} else Stuck(book, o, None)
  }

  lemma WithReferenceOk(o: Order, book: Ladder)
    requires OrderOk(o)
    ensures var o1 := WithReference(o, book);
      && OrderOk(o1) && o1.Live() == o.Live() && o1.terms == o.terms
      && o1.fillLevels == o.fillLevels && o1.(slippageRef := o.slippageRef) == o
      && (o.slippageRef.Some? ==> o1.slippageRef == o.slippageRef)
  {
  }

  lemma CancelOk(o0: Order, fills: seq<Level>, o: Order, hadLiquidity: bool)
    requires OrderOk(o) && OrderEffect(o0, fills, o) && o0.Live()
    ensures var c := ImmediateOrCancel(o, hadLiquidity);
      OrderOk(c) && OrderEffect(o0, fills, c) && NewFills(o0, c) == NewFills(o0, o)
  {
  }

  lemma ReferenceIsNotAFill(o: Order, o1: Order, fills: seq<Level>, o2: Order)
    requires o1.(slippageRef := o.slippageRef) == o && OrderEffect(o1, fills, o2)
    requires o.slippageRef.Some? ==> o1.slippageRef == o.slippageRef
    ensures OrderEffect(o, fills, o2) && NewFills(o, o2) == NewFills(o1, o2)
  {
  }

  /** A turn keeps the order sound, and its fills account for every change it makes. */
  lemma TurnSound(book: Ladder, o: Order)
    requires OrderOk(o) && Positive(book)
    ensures var t := Turn(book, o);
      && OrderOk(t.order) && OrderEffect(o, NewFills(o, t.order), t.order)
      && BookEffect(o.terms.side, book, NewFills(o, t.order), t.book)
  {
    hide *;
    NoFills(o, None);
    NoDrain(o.terms.side, book);
    TurnUnfolds(book, o);
    if o.Live() {
      var o1 := WithReference(o, book);
      var bound := SlippageBound(o1, book);
      var ks := BestFirst(Consumed(o.terms.side), book.Keys);
      WithReferenceOk(o, book);
      SweepOrder(ks, book, o1, bound);
      SweepBook(ks, book, o1, bound);
      var s := Sweep(ks, book, o1, bound);
      ReferenceIsNotAFill(o, o1, NewFills(o1, s.order), s.order);
      CancelOk(o, NewFills(o, s.order), s.order, book.Keys != {});
    }
  }

  lemma TurnUnfolds(book: Ladder, o: Order)
    ensures !o.Live() ==> Turn(book, o) == Swept(book, o)
    ensures o.Live() ==>
      var o1 := WithReference(o, book);
      var s := Sweep(BestFirst(Consumed(o.terms.side), book.Keys), book, o1, SlippageBound(o1, book));
      Turn(book, o) == Swept(s.book, ImmediateOrCancel(s.order, book.Keys != {}))
  {
  }

  /** After its turn an order is done, or nothing left on its side is any use to it. */
  lemma TurnLeavesIdle(book: Ladder, o: Order)
    requires OrderOk(o) && Positive(book)
    ensures var t := Turn(book, o); Idle(t.book, t.order)
  {
    if o.Live() {
      TurnUnfolds(book, o);
      if o.terms.isMarket {
        MarketIsImmediate(book, o);
      } else {
        SweepOrder(BestFirst(Consumed(o.terms.side), book.Keys), book, o, None);
        SweepExhausts(BestFirst(Consumed(o.terms.side), book.Keys), book, o, None);
      }
    }
  }

  /**
   A MARKET order survives its turn only against an empty side, and then untouched; otherwise it
   ends FILLED or CANCELED.
   */
  lemma MarketIsImmediate(book: Ladder, o: Order)
    requires OrderOk(o) && o.Live() && o.terms.isMarket && Positive(book)
    ensures var t := Turn(book, o);
      && (t.order.Live() <==> book.Keys == {} && o.filled == 0.0)
      && (t.order.Live() ==> t == Swept(book, o))
      && (t.order.status == FILLED || t.order.status == CANCELED || t.order.Live())
  {
    assert o.filled >= 0.0;
    hide OrderOk, BestFirst, Sweep, Evolves, CostOk, ExitOk;
    TurnUnfolds(book, o);
    WithReferenceOk(o, book);
    if book.Keys == {} {
      NoLevels(book, Consumed(o.terms.side), o);
    } else {
      var o1 := WithReference(o, book);
      SweepOrder(BestFirst(Consumed(o.terms.side), book.Keys), book, o1, SlippageBound(o1, book));
    }
  }

  lemma NoLevels(book: Ladder, side: Side, o: Order)
    requires book.Keys == {}
    ensures WithReference(o, book) == o
    ensures Sweep(BestFirst(side, book.Keys), book, o, SlippageBound(o, book)) == Swept(book, o)
  {
  }

  /** The price limit a MARKET order works with: its reference price moved by its slippage. */
  predicate WithinSlippage(t: Terms, reference: Price, p: Price) {
    var slip := t.maxSlippage.GetOr(DEFAULT_SLIPPAGE);
    if t.side == BUY then p <= Worth(1.0 + slip, reference) else p >= Worth(1.0 - slip, reference)
  }

  /** Every fill of a MARKET order is within its slippage of the best price it first saw. */
  lemma MarketWithinSlippage(book: Ladder, o: Order)
    requires OrderOk(o) && o.Live() && o.terms.isMarket && Positive(book)
    ensures var r := Turn(book, o).order;
      && (book.Keys != {} ==> r.slippageRef.Some?)
      && (book.Keys != {} && o.slippageRef.None? ==>
            r.slippageRef == Some(Best(Consumed(o.terms.side), book.Keys)))
      && (book.Keys == {} ==> NewFills(o, r) == [])
      && (book.Keys != {} ==>
            forall f :: f in NewFills(o, r) ==> f.qty > 0.0 && WithinSlippage(o.terms, r.slippageRef.value, f.price))
  {
    hide OrderOk, BestFirst, Sweep, OrderEffect;
    TurnUnfolds(book, o);
    if book.Keys == {} {
      NoLevels(book, Consumed(o.terms.side), o);
    } else {
      WithReferenceOk(o, book);
      var o1 := WithReference(o, book);
      SweepOrder(BestFirst(Consumed(o.terms.side), book.Keys), book, o1, SlippageBound(o1, book));
    }
  }

  lemma IdleTurn(book: Ladder, o: Order)
    requires Positive(book) && Idle(book, o) && ProgressOk(o)
    requires o.Live() && o.terms.isMarket ==> o.filled == 0.0
    ensures Turn(book, o) == Swept(book, o)
  {
    if o.Live() {
      if !o.terms.isMarket {
        StuckMeansIdle(BestFirst(Consumed(o.terms.side), book.Keys), book, o, None);
      }
    }
  }

  lemma IdleStays(book: Ladder, fills: seq<Level>, book': Ladder, side: OrderSide, o: Order)
    requires OrderOk(o) && Idle(book, o) && Positive(book) && o.terms.side == side
    requires BookEffect(side, book, fills, book') && forall f :: f in fills ==> f.qty > 0.0
    ensures Idle(book', o)
  {
    if o.Live() {
      if o.terms.isMarket {
        assert forall p :: p !in book';
        assert book'.Keys == {};
      } else {
        StuckStays(book, book', fills, o, None);
      }
    }
  }
}
