/**
 Which brackets fire: the ones whose take-profit the best bid reaches from below, or whose stop-loss it
 reaches from above, each once, and no others.
 */
module Brackets {
  import opened Prelude
  import opened Ladders
  import opened Orders
  import opened Matching
  import opened Passes
  import opened Exits
  import opened Books
  import opened BookSafety
  import opened BookSteps
  import Expiry
  import Stream

  /** The records of the exits of one order. */
  function ExitsOf(id: OrderId, exits: seq<Exit>): seq<Exit> {
    if exits == [] then []
    else
      var last := exits[|exits| - 1];
      ExitsOf(id, exits[..|exits| - 1]) + if last.id == id then [last] else []
  }

  /** A position that can be sold: bought, and not closed yet. */
  predicate Held(o: Order) {
    o.terms.side == BUY && o.filled > 0.0 && !o.closed
  }

  predicate TakesProfit(o: Order, bid: real) {
    o.tp.Some? && bid >= o.tp.value
  }

  predicate StopsLoss(o: Order, bid: real) {
    o.sl.Some? && bid <= o.sl.value
  }

  /** One exit sold what it could of the position at the given best bid and recorded it. */
  ghost predicate Sold(o: Order, bid: real, trigger: Trigger, price: Option<real>, r: Exit, o': Order) {
    && r.id == o.terms.id && r.trigger == trigger && r.triggerPrice == price && r.marketBid == bid
    && r.qtyToClose == o.filled - o.Exited() && 0.0 <= r.qtyExited == Qty(r.levels) <= r.qtyToClose
    && Worth(r.qtyExited, r.avgExit) == Cost(r.levels)
    && o'.(closed := o.closed, exitPrice := o.exitPrice, exitTrigger := o.exitTrigger, exitFilled := o.exitFilled) == o
    && o'.exitTrigger == Some(trigger) && o'.exitFilled == Some(o.Exited() + r.qtyExited)
    && o'.Proceeds() == o.Proceeds() + Cost(r.levels)
    && (o'.closed <==> o'.Exited() == o.filled)
  }

  /**
   What one look at the best bid does to an order: a held position whose take-profit or stop-loss the
   bid reaches is sold once, as a take-profit if both are reached; any other order is left as it is.
   */
  ghost predicate Watched(o: Order, bid: real, exits: seq<Exit>, o': Order) {
    var mine := ExitsOf(o.terms.id, exits);
    if Held(o) && TakesProfit(o, bid) then |mine| == 1 && Sold(o, bid, TP, o.tp, mine[0], o')
    else if Held(o) && StopsLoss(o, bid) then |mine| == 1 && Sold(o, bid, SL, o.sl, mine[0], o')
    else mine == [] && o' == o
  }

  lemma ExitsOfOne(id: OrderId, r: Exit)
    ensures ExitsOf(id, [r]) == if r.id == id then [r] else []
    ensures ExitsOf(id, []) == []
  {
    assert [r][..0] == [];
  }

  lemma {:induction false} ExitsOfConcat(id: OrderId, a: seq<Exit>, b: seq<Exit>)
    ensures ExitsOf(id, a + b) == ExitsOf(id, a) + ExitsOf(id, b)
  {
    if b == [] {
      assert a + b == a;
    } else {
      var n := |b| - 1;
      ExitsOfConcat(id, a, b[..n]);
      assert (a + b)[..|a + b| - 1] == a + b[..n];
    }
  }

  lemma EligibleIsHeld(o: Order, bid: real)
    requires OrderOk(o)
    ensures o.EligibleForBracket() && Fires(o, bid).Some? <==> Held(o) && (TakesProfit(o, bid) || StopsLoss(o, bid))
    ensures Fires(o, bid) ==
      if TakesProfit(o, bid) then Some(TP) else if StopsLoss(o, bid) then Some(SL) else None
  {
  }

  lemma ExecuteSells(bids: Ladder, o: Order, bid: real, trigger: Trigger)
    requires OrderOk(o) && Positive(bids) && o.filled > 0.0 && !o.closed
    ensures var r := ExecuteExit(bids, o, bid, trigger);
      Sold(o, bid, trigger, if trigger == TP then o.tp else o.sl, r.record, r.order)
  {
    ExitSound(bids, o, bid, trigger);
    NoQtyNoCost(ExecuteExit(bids, o, bid, trigger).record.levels);
    SellBound(bids, o);
    hide OrderOk, Positive, Sell, CumulativePrice, Qty, Cost;
  }

  lemma SellBound(bids: Ladder, o: Order)
    requires OrderOk(o) && Positive(bids) && o.filled > 0.0 && !o.closed
    ensures Sell(bids, o).qty <= o.filled - o.Exited()
  {
    SellOk(bids, o);
  }

  lemma DoExitWatched(b: Book, i: nat, bid: real, trigger: Trigger)
    requires BusyBook(b) && i < |b.orders| && b.orders[i].filled > 0.0 && !b.orders[i].closed
    ensures var out, o := DoExit(b, i, bid, trigger), b.orders[i];
      && |out.exits| == 1
      && out.book.orders == b.orders[i := out.book.orders[i]]
      && Sold(o, bid, trigger, if trigger == TP then o.tp else o.sl, out.exits[0], out.book.orders[i])
      && out.book.sides.asks == b.sides.asks
  {
    assert OrderOk(b.orders[i]);
    ExecuteSells(b.sides.bids, b.orders[i], bid, trigger);
    hide ExecuteExit, Sold, OrderOk;
  }

  /** Looking at one order. */
  lemma TryExitWatches(b: Book, i: nat, bid: real)
    requires BusyBook(b) && i < |b.orders|
    ensures var out := TryExit(b, i, bid);
      && out.book.orders == b.orders[i := out.book.orders[i]]
      && Watched(b.orders[i], bid, out.exits, out.book.orders[i])
      && (forall r :: r in out.exits ==> r.id == b.orders[i].terms.id)
  {
    var o := b.orders[i];
    assert OrderOk(o);
    EligibleIsHeld(o, bid);
    hide BusyBook, OrderOk, Fires;
    if Held(o) && (TakesProfit(o, bid) || StopsLoss(o, bid)) {
      var trigger := if TakesProfit(o, bid) then TP else SL;
      DoExitWatched(b, i, bid, trigger);
      var out := DoExit(b, i, bid, trigger);
      assert out.exits == [out.exits[0]];
      ExitsOfOne(o.terms.id, out.exits[0]);
    } else {
      assert b.orders[i := o] == b.orders;
    }
  }

  /** Looking at one order leaves the others alone. */
  lemma OthersUnwatched(b: Book, i: nat, bid: real, j: nat)
    requires BusyBook(b) && i < |b.orders| && j < |b.orders| && i != j
    ensures var out := TryExit(b, i, bid);
      && j < |out.book.orders| && out.book.orders[j] == b.orders[j] && ExitsOf(b.orders[j].terms.id, out.exits) == []
  {
    TryExitWatches(b, i, bid);
    BusyDistinct(b);
    hide TryExit, Watched, BusyBook;
    NoExitsOf(b.orders[j].terms.id, TryExit(b, i, bid).exits);
  }

  lemma BusyDistinct(b: Book)
    requires BusyBook(b)
    ensures DistinctIds(b.orders)
  {
  }

  lemma {:induction false} NoExitsOf(id: OrderId, exits: seq<Exit>)
    requires forall r :: r in exits ==> r.id != id
    ensures ExitsOf(id, exits) == []
  {
    if exits != [] {
      NoExitsOf(id, exits[..|exits| - 1]);
    }
  }

  lemma WatchedByMore(o: Order, bid: real, a: seq<Exit>, c: seq<Exit>, o': Order)
    ensures ExitsOf(o.terms.id, c) == [] && Watched(o, bid, a, o') ==> Watched(o, bid, a + c, o')
    ensures ExitsOf(o.terms.id, a) == [] && Watched(o, bid, c, o') ==> Watched(o, bid, a + c, o')
    ensures ExitsOf(o.terms.id, a) == [] && ExitsOf(o.terms.id, c) == [] ==> ExitsOf(o.terms.id, a + c) == []
  {
    ExitsOfConcat(o.terms.id, a, c);
    hide Sold, ExitsOf;
    var mine := ExitsOf(o.terms.id, a);
    assert mine + [] == mine;
    var others := ExitsOf(o.terms.id, c);
    assert [] + others == others;
  }

  /** The first `n` orders have been looked at, and with them perhaps order `i`. */
  ghost predicate WatchedSoFar(b: Book, n: nat, bid: real, out: Outcome, i: nat)
    requires i < |b.orders|
  {
    && |out.book.orders| == |b.orders|
    && out.book.orders[i].terms == b.orders[i].terms
    && if i < n then Watched(b.orders[i], bid, out.exits, out.book.orders[i])
       else out.book.orders[i] == b.orders[i] && ExitsOf(b.orders[i].terms.id, out.exits) == []
  }

  /** Looking at one more order. */
  lemma NextWatched(b: Book, prev: Outcome, k: nat, bid: real, i: nat)
    requires BusyBook(prev.book) && k < |b.orders| && i < |b.orders| && WatchedSoFar(b, k, bid, prev, i)
    ensures var next := TryExit(prev.book, k, bid);
      WatchedSoFar(b, k + 1, bid, Outcome(next.book, [], prev.exits + next.exits), i)
  {
    var next := TryExit(prev.book, k, bid);
    TryExitWatches(prev.book, k, bid);
    if i == k {
      WatchedTerms(prev.book.orders[k], bid, next.exits, next.book.orders[k]);
    } else {
      OthersUnwatched(prev.book, k, bid, i);
    }
    WatchedByMore(b.orders[i], bid, prev.exits, next.exits, next.book.orders[i]);
    hide TryExit, Watched, BusyBook, ExitsOf;
  }

  lemma WatchedTerms(o: Order, bid: real, exits: seq<Exit>, o': Order)
    requires Watched(o, bid, exits, o')
    ensures o'.terms == o.terms
  {
  }

  lemma NoneWatched(b: Book, bid: real, i: nat)
    requires i < |b.orders|
    ensures WatchedSoFar(b, 0, bid, Outcome(b, [], []), i)
  {
  }

  /** Looking at the first `n` orders, all at the same bid. */
  lemma {:induction false} FirstWatched(b: Book, n: nat, bid: real, i: nat)
    requires BusyBook(b) && n <= |b.orders| && i < |b.orders|
    ensures WatchedSoFar(b, n, bid, MonitorFirst(b, n, bid), i)
  {
    hide *;
    if n == 0 {
      NoneWatched(b, bid, i);
      MonitorNone(b, bid);
    } else {
      FirstWatched(b, n - 1, bid, i);
      MonitorKeeps(b, n - 1, bid);
      NextWatched(b, MonitorFirst(b, n - 1, bid), n - 1, bid, i);
      MonitorNext(b, n, bid);
    }
  }

  /** The best bid: there is one, and none is higher. */
  predicate BestBid(bids: Ladder, p: real) {
    p in bids && forall q :: q in bids ==> q <= p
  }

  lemma BestIsBestBid(bids: Ladder)
    requires bids.Keys != {}
    ensures BestBid(bids, Best(Bid, bids.Keys))
  {
    BestExists(Bid, bids.Keys);
  }

  lemma BestBidIs(bids: Ladder, p: real)
    requires BestBid(bids, p)
    ensures bids.Keys != {} && Best(Bid, bids.Keys) == p
  {
    assert p in bids.Keys;
    BestIsBestBid(bids);
  }

  /**
   Monitoring: every order is looked at once, at the best bid there was before any exit, whatever the
   earlier exits took from the bids; without bids nothing happens.
   */
  lemma MonitorWatches(b: Book, i: nat)
    requires WellBook(b) && i < |b.orders|
    ensures var out := Step(b, MonitorBrackets);
      && |out.book.orders| == |b.orders|
      && (forall p :: BestBid(b.sides.bids, p) ==> Watched(b.orders[i], p, out.exits, out.book.orders[i]))
      && (b.sides.bids.Keys == {} ==> out == Outcome(b, [], []))
  {
    Expiry.WellIsBusy(b);
    hide WellBook, BusyBook, MonitorFirst, Watched;
    forall p | BestBid(b.sides.bids, p)
      ensures Watched(b.orders[i], p, Step(b, MonitorBrackets).exits, Step(b, MonitorBrackets).book.orders[i])
    {
      BestBidIs(b.sides.bids, p);
      FirstWatched(b, |b.orders|, p, i);
    }
  }

  lemma UntoldWatched(o: Order, p: real, exits: seq<Exit>, o': Order)
    requires Watched(o, p, exits, o')
    ensures Watched(o.(fillLevels := []), p, exits, o'.(fillLevels := []))
    ensures o'.terms == o.terms && o'.tp == o.tp && o'.sl == o.sl
    ensures !o.closed && o.exitPrice.None? && o.exitTrigger.None? && o.exitFilled.None? ==>
      o'.(closed := false, exitPrice := None, exitTrigger := None, exitFilled := None) == o
  {
    var u, u' := o.(fillLevels := []), o'.(fillLevels := []);
    assert u.Exited() == o.Exited() && u.Proceeds() == o.Proceeds() && u'.Proceeds() == o'.Proceeds();
    hide Worth, Qty, Cost, ExitsOf;
  }

  /** A fresh position that has just been looked at. */
  ghost predicate FreshWatched(bids: Ladder, tp: Option<real>, sl: Option<real>, exits: seq<Exit>, o': Order) {
    var o := o'.(closed := false, exitPrice := None, exitTrigger := None, exitFilled := None);
    && o'.tp == tp && o'.sl == sl
    && (forall p :: BestBid(bids, p) && o'.terms.side == BUY ==> Watched(o, p, exits, o'))
    && (bids.Keys == {} || o'.terms.side == SELL ==> exits == [] && o' == o)
  }

  /** The immediate look at an order with nothing sold of it yet. */
  lemma ImmediateWatches(b: Book, i: nat, bids: Ladder)
    requires BusyBook(b) && i < |b.orders|
    requires b.orders[i].terms.side == BUY ==> b.sides.bids == bids
    requires var o := b.orders[i];
      !o.closed && o.exitPrice.None? && o.exitTrigger.None? && o.exitFilled.None?
    ensures var out, o := ImmediateExit(b, i), b.orders[i];
      && out.book.orders == b.orders[i := out.book.orders[i]]
      && out.book.orders[i].terms == o.terms
      && out.book.reported == b.reported
      && FreshWatched(bids, o.tp, o.sl, out.exits,
                      out.book.orders[i].(fillLevels := []))
  {
    var o := b.orders[i];
    if b.sides.bids.Keys == {} {
      assert b.orders[i := o] == b.orders;
    } else {
      var p := Best(Bid, b.sides.bids.Keys);
      BestIsBestBid(b.sides.bids);
      TryExitWatches(b, i, p);
      var out := TryExit(b, i, p);
      UntoldWatched(o, p, out.exits, out.book.orders[i]);
    }
  }

  /** A new order, once it has had its turn, still has its bracket and nothing of it is sold. */
  lemma TurnUnsold(b: Book, op: Op)
    requires WellBook(b) && Admissible(b, op) && op.PlaceOrder?
    ensures var m := Matched(b, NewOrder(op.terms, op.quantity, op.tp, op.sl));
      && m.orders[..|b.orders|] == b.orders && |m.orders| == |b.orders| + 1 && m.reported == b.reported
      && (op.terms.side == BUY ==> m.sides.bids == b.sides.bids)
      && var o := m.orders[|b.orders|];
         && o.terms == op.terms && o.tp == op.tp && o.sl == op.sl
         && !o.closed && o.exitPrice.None? && o.exitTrigger.None? && o.exitFilled.None?
  {
    var o := NewOrder(op.terms, op.quantity, op.tp, op.sl);
    NewOrderOk(op.terms, op.quantity, op.tp, op.sl);
    Stream.AdmissibleFresh(b, op);
    TurnSound(b.sides.On(o.terms.side), o);
    hide Turn, OrderOk, BookEffect, Qty, Cost;
  }

  lemma PlaceOrderWatches(b: Book, op: Op)
    requires WellBook(b) && Admissible(b, op) && op.PlaceOrder?
    ensures var out, n := Step(b, op), |b.orders|;
      && |out.book.orders| == n + 1 && out.book.orders[..n] == b.orders && out.book.orders[n].terms == op.terms
      && FreshWatched(b.sides.bids, op.tp, op.sl, out.exits, out.book.orders[n])
  {
    var m, n := Matched(b, NewOrder(op.terms, op.quantity, op.tp, op.sl)), |b.orders|;
    TurnUnsold(b, op);
    NewOrderOk(op.terms, op.quantity, op.tp, op.sl);
    Stream.AdmissibleFresh(b, op);
    MatchedBusy(b, NewOrder(op.terms, op.quantity, op.tp, op.sl));
    hide Matched, OrderOk, Admissible;
    ImmediateExitKeeps(m, n);
    ImmediateWatches(m, n, b.sides.bids);
    var e := ImmediateExit(m, n);
    CollectSound(e.book);
    QuietOrders(b);
    hide FreshWatched, ImmediateExit, WellBook, BusyBook, Collect;
    var r := Collect(e.book).book.orders;
    forall i | 0 <= i < n ensures r[i] == b.orders[i] {
      assert e.book.orders[i] == m.orders[i] == m.orders[..n][i];
    }
    assert r[..n] == b.orders;
  }

  lemma QuietOrders(b: Book)
    requires WellBook(b)
    ensures forall i :: 0 <= i < |b.orders| ==> b.orders[i].(fillLevels := []) == b.orders[i]
  {
    hide OrdersOk, ReportsOk;
  }

  lemma AppendedBusy(b: Book, op: Op)
    requires WellBook(b) && Admissible(b, op) && op.PlaceFilled?
    ensures BusyBook(b.(orders := b.orders + [PrefilledOrder(op.terms, op.filled, op.tp, op.sl)]))
  {
    var o := PrefilledOrder(op.terms, op.filled, op.tp, op.sl);
    PrefilledOrderOk(op.terms, op.filled, op.tp, op.sl);
    assert ReportOk(o, b.reported);
    hide OrderOk, ReportOk, UntouchedIfMarket;
    AppendKeeps(b.orders, o);
    ReportsAppend(b.orders, o, b.reported);
  }

  lemma PlaceFilledWatches(b: Book, op: Op)
    requires WellBook(b) && Admissible(b, op) && op.PlaceFilled?
    ensures var out, n := Step(b, op), |b.orders|;
      && |out.book.orders| == n + 1 && out.book.orders[..n] == b.orders && out.book.orders[n].terms == op.terms
      && FreshWatched(b.sides.bids, op.tp, op.sl, out.exits, out.book.orders[n])
  {
    var o := PrefilledOrder(op.terms, op.filled, op.tp, op.sl);
    var m, n := b.(orders := b.orders + [o]), |b.orders|;
    AppendedBusy(b, op);
    StepKeepsWell(b, op);
    QuietOrders(Step(b, op).book);
    hide OrderOk, Admissible, WellBook, BusyBook, ImmediateExit, FreshWatched;
    ImmediateWatches(m, n, b.sides.bids);
    var r := Step(b, op).book.orders;
    assert r == m.orders[n := r[n]];
    assert r[n].(fillLevels := []) == r[n];
    assert r[..n] == b.orders;
  }

  /**
   On being placed, an order is looked at once, at the best bid of the moment, and no other order is;
   that goes for orders matched on the spot and for those filled elsewhere alike.
   */
  lemma PlacementWatches(b: Book, op: Op)
    requires WellBook(b) && Admissible(b, op) && (op.PlaceOrder? || op.PlaceFilled?)
    ensures var out, n := Step(b, op), |b.orders|;
      && |out.book.orders| == n + 1 && out.book.orders[..n] == b.orders && out.book.orders[n].terms == op.terms
      && FreshWatched(b.sides.bids, op.tp, op.sl, out.exits, out.book.orders[n])
  {
    hide *;
    if op.PlaceOrder? {
      PlaceOrderWatches(b, op);
    } else {
      PlaceFilledWatches(b, op);
    }
  }

  /** An exit of one order leaves the others alone. */
  lemma OthersKept(b: Book, k: nat, p: real, trigger: Trigger, i: nat)
    requires BusyBook(b) && k < |b.orders| && b.orders[k].filled > 0.0 && !b.orders[k].closed
    requires i < |b.orders| && i != k
    ensures var out := DoExit(b, k, p, trigger);
      i < |out.book.orders| && out.book.orders[i] == b.orders[i] && ExitsOf(b.orders[i].terms.id, out.exits) == []
  {
    DoExitWatched(b, k, p, trigger);
    BusyDistinct(b);
    var out := DoExit(b, k, p, trigger);
    SoldId(b.orders[k], p, trigger, if trigger == TP then b.orders[k].tp else b.orders[k].sl, out.exits[0],
           out.book.orders[k]);
    hide DoExit, Sold, BusyBook;
    assert b.orders[k].terms.id != b.orders[i].terms.id;
    NoExitsOf(b.orders[i].terms.id, out.exits);
  }

  /** Closing at the market sells the position named, if it is held and there are bids, and no other. */
  lemma CloseSells(b: Book, id: OrderId, i: nat)
    requires WellBook(b) && i < |b.orders|
    ensures var out, o := Step(b, CloseAtMarket(id)), b.orders[i];
      && |out.book.orders| == |b.orders|
      && if o.terms.id == id && o.filled > 0.0 && !o.closed && b.sides.bids.Keys != {}
         then |out.exits| == 1 && forall p :: BestBid(b.sides.bids, p) ==>
                Sold(o, p, FORCE_CLOSE, o.sl, out.exits[0], out.book.orders[i])
         else out.book.orders[i] == o && ExitsOf(o.terms.id, out.exits) == []
  {
    Expiry.WellIsBusy(b);
    BusyDistinct(b);
    ExitsOfNone(b.orders[i].terms.id);
    var k := IndexOf(b.orders, id);
    if b.orders[i].terms.id == id {
      Expiry.SamePlace(b.orders, i, k);
    }
    hide WellBook, BusyBook, DoExit, Sold, DistinctIds, ExitsOf;
    if k < |b.orders| && b.orders[k].filled > 0.0 && !b.orders[k].closed && b.sides.bids.Keys != {} {
      var p := Best(Bid, b.sides.bids.Keys);
      BestIsBestBid(b.sides.bids);
      DoExitWatched(b, k, p, FORCE_CLOSE);
      if k == i {
        forall q | BestBid(b.sides.bids, q) ensures q == p {
          BestBidIs(b.sides.bids, q);
        }
      } else {
        OthersKept(b, k, p, FORCE_CLOSE, i);
      }
    }
  }

  lemma SoldId(o: Order, bid: real, trigger: Trigger, price: Option<real>, r: Exit, o': Order)
    requires Sold(o, bid, trigger, price, r, o')
    ensures r.id == o.terms.id
  {
  }

  lemma ExitsOfNone(id: OrderId)
    ensures ExitsOf(id, []) == []
  {
  }
}
