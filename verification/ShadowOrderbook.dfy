/** The shadow order book as the source has it: objects and fields changed in place, step by step. */
module ShadowBook {
  import opened Prelude
  import opened Ladders
  import opened Orders
  import Matching
  import opened Passes
  import Exits
  import opened Books
  import opened BookSafety
  import BookSteps

  class SimulatedOrder {
    const terms: Terms
    var quantity: real
    var filled: real
    var status: Status
    var entryCost: real
    var slippageRef: Option<Price>
    var fillLevels: seq<Level>
    var tp: Option<real>
    var sl: Option<real>
    var closed: bool
    var exitPrice: Option<real>
    var exitTrigger: Option<Trigger>
    var exitFilled: Option<real>

    function Value(): (o: Order)
      reads this
      ensures o.terms == terms
    {
      Order(terms, quantity, filled, status, entryCost, slippageRef, fillLevels, tp, sl, closed,
            exitPrice, exitTrigger, exitFilled)
    }

    constructor (o: Order)
      ensures Value() == o
    {
      terms := o.terms;
      quantity, filled, status, entryCost := o.quantity, o.filled, o.status, o.entryCost;
      slippageRef, fillLevels, tp, sl := o.slippageRef, o.fillLevels, o.tp, o.sl;
      closed, exitPrice, exitTrigger, exitFilled := o.closed, o.exitPrice, o.exitTrigger, o.exitFilled;
    }

    /** One fill: quantity, cost, level list, then `_update_status`. */
    method AddFill(p: Price, q: real)
      modifies this
      ensures Value() == Matching.AddFill(old(Value()), p, q)
    {
      filled := filled + q;
      entryCost := entryCost + Worth(q, p);
      fillLevels := fillLevels + [Level(p, q)];
      if filled >= quantity {
        status := FILLED;
      } else if filled > 0.0 {
        status := PARTIAL;
      }
    }
  }

  ghost function ValuesOf(orders: seq<SimulatedOrder>): (r: seq<Order>)
    reads orders
    ensures |r| == |orders|
    ensures forall i :: 0 <= i < |r| ==> r[i] == orders[i].Value()
  {
    seq(|orders|, i requires 0 <= i < |orders| reads orders => orders[i].Value())
  }

  class ShadowOrderbook {
    var bids: Ladder
    var asks: Ladder
    var rawBids: Ladder
    var rawAsks: Ladder
    var depthCache: map<(Side, int), seq<Level>>
    var lastUpdate: Option<int>
    var virtualOrders: seq<SimulatedOrder>
    var cleanupCounter: nat
    var expired: bool
    var lastReported: map<OrderId, Report>

    /** Order ids, and hence the order objects, are distinct. */
    ghost predicate Valid()
      reads `virtualOrders
    {
      forall i, j :: 0 <= i < j < |virtualOrders| ==> virtualOrders[i].terms.id != virtualOrders[j].terms.id
    }

    ghost function OrderValues(): (r: seq<Order>)
      reads `virtualOrders, virtualOrders
      ensures |r| == |virtualOrders|
      ensures forall i :: 0 <= i < |r| ==> r[i] == virtualOrders[i].Value()
    {
      ValuesOf(virtualOrders)
    }

    ghost function Value(): Book
      reads this, virtualOrders
    {
      Book(Sides(bids, asks), Sides(rawBids, rawAsks), OrderValues(), lastReported, expired, lastUpdate,
           cleanupCounter, depthCache)
    }

    constructor ()
      ensures Valid() && Value() == EMPTY_BOOK
      ensures virtualOrders == []
    {
      bids, asks, rawBids, rawAsks, depthCache := map[], map[], map[], map[], map[];
      lastUpdate, virtualOrders, cleanupCounter, expired, lastReported := None, [], 0, false, map[];
    }

    // ---------- Feed updates ----------

    static method ReadListing(levels: seq<Level>) returns (book: Ladder)
      ensures book == Listing(levels)
    {
      book := map[];
      for i := 0 to |levels|
        invariant book == Listing(levels[..i])
      {
        assert levels[..i + 1][..i] == levels[..i];
        if levels[i].qty > 0.0 {
          book := book[levels[i].price := levels[i].qty];
        }
      }
      assert levels[..|levels|] == levels;
    }

    method ApplySnapshot(newBids: seq<Level>, newAsks: seq<Level>, now: int)
      requires Valid()
      modifies this
      ensures Valid() && virtualOrders == old(virtualOrders)
      ensures Value() == Books.ApplySnapshot(old(Value()), newBids, newAsks, now)
    {
      depthCache := map[];
      bids := ReadListing(newBids);
      asks := ReadListing(newAsks);
      rawBids, rawAsks := bids, asks;
      lastUpdate := Some(now);
      assert OrderValues() == old(OrderValues());
    }

    method SetLevels(c: Change)
      modifies `bids, `asks, `rawBids, `rawAsks
      ensures Sides(bids, asks) == ApplyChange(old(Sides(bids, asks)), c)
      ensures Sides(rawBids, rawAsks) == ApplyChange(old(Sides(rawBids, rawAsks)), c)
    {
      if c.side == Bid {
        if c.size <= 0.0 {
          bids, rawBids := bids - {c.price}, rawBids - {c.price};
        } else {
          bids, rawBids := bids[c.price := c.size], rawBids[c.price := c.size];
        }
      } else {
        if c.size <= 0.0 {
          asks, rawAsks := asks - {c.price}, rawAsks - {c.price};
        } else {
          asks, rawAsks := asks[c.price := c.size], rawAsks[c.price := c.size];
        }
      }
    }

    method ApplyChanges(changes: seq<Change>, now: int)
      requires Valid()
      modifies this
      ensures Valid() && virtualOrders == old(virtualOrders)
      ensures Value() == Books.ApplyChanges(old(Value()), changes, now)
    {
      depthCache := map[];
      for i := 0 to |changes|
        invariant Sides(bids, asks) == ApplyChangesTo(old(Sides(bids, asks)), changes[..i])
        invariant Sides(rawBids, rawAsks) == ApplyChangesTo(old(Sides(rawBids, rawAsks)), changes[..i])
        invariant virtualOrders == old(virtualOrders) && lastReported == old(lastReported) && depthCache == map[]
        invariant expired == old(expired) && cleanupCounter == old(cleanupCounter)
      {
        assert changes[..i + 1][..i] == changes[..i];
        SetLevels(changes[i]);
      }
      assert changes[..|changes|] == changes;
      lastUpdate := Some(now);
      assert OrderValues() == old(OrderValues());
    }

    method DepthListing(side: Side, n: int) returns (listing: seq<Level>)
      requires Valid()
      modifies `depthCache
      ensures listing == AskDepth(old(Value()), side, n).0
      ensures Value() == AskDepth(old(Value()), side, n).1
    {
      if (side, n) in depthCache {
        listing := depthCache[(side, n)];
      } else {
        listing := if side == Ask then SliceTo(Items(Ask, asks), n) else Reverse(SliceFrom(Items(Ask, bids), -n));
        depthCache := depthCache[(side, n) := listing];
      }
      assert OrderValues() == old(OrderValues());
    }

    // ---------- Matching ----------

    /** One ask level: what is taken there, and whether the walk stops. */
    method TakeAsk(order: SimulatedOrder, p: Price, bound: Option<real>) returns (stop: bool)
      requires order.terms.side == BUY && p in asks && asks[p] > 0.0
      modifies `asks, order
      ensures var o, size := old(order.Value()), old(asks[p]);
        if Matching.Accepts(o.terms, bound, p) && Matching.TakeQty(o, p, size).Some?
        then
          var q := Matching.TakeQty(o, p, size).value;
          && order.Value() == Matching.AddFill(o, p, q) && asks == Deduct(old(asks), p, q)
          && (stop <==> Matching.Done(order.Value()))
        else stop && order.Value() == o && asks == old(asks)
    {
      if !Matching.Accepts(order.terms, bound, p) {
        return true;
      }
      var size := asks[p];
      var qty := Min(order.quantity - order.filled, size);
      if order.terms.maxCost.Some? {
        var budget := order.terms.maxCost.value - order.entryCost;
        if budget <= 0.0 {
          return true;
        }
        var affordable := Afford(budget, p);
        if affordable < qty {
          qty := affordable;
        }
      }
      if qty < DUST {
        return true;
      }
      assert Matching.TakeQty(order.Value(), p, size) == Some(qty);
      order.AddFill(p, qty);
      asks := asks[p := asks[p] - qty];
      if asks[p] < DUST {
        asks := asks - {p};
      }
      assert asks == Deduct(old(asks), p, qty);
      if order.status == FILLED {
        return true;
      }
      stop := order.terms.maxCost.Some? && order.entryCost >= order.terms.maxCost.value;
    }

    /** The BUY half of `_match_order`: walk the asks upwards. */
    method SweepAsks(order: SimulatedOrder, bound: Option<real>)
      requires order.terms.side == BUY
      modifies `asks, order
      ensures Matching.Swept(asks, order.Value()) ==
        Matching.Sweep(BestFirst(Ask, old(asks).Keys), old(asks), old(order.Value()), bound)
    {
      var keys := BestFirst(Ask, asks.Keys);
      ghost var goal := Matching.Sweep(keys, asks, order.Value(), bound);
      var i := 0;
      while i < |keys|
        invariant i <= |keys|
        invariant Matching.Sweep(keys[i..], asks, order.Value(), bound) == goal
      {
        Matching.SweepUnfolds(keys[i..], asks, order.Value(), bound);
        hide Matching.Sweep, Matching.TakeQty, Matching.AddFill, Matching.Done, Deduct, Matching.Accepts;
        var p := keys[i];
        i := i + 1;
        assert keys[i - 1..][1..] == keys[i..];
        if Size(asks, p) <= 0.0 {
          continue;
        }
        var stop := TakeAsk(order, p, bound);
        if stop {
          break;
        }
      }
    }

    /** One bid level. There is no cost cap and no dust rule here. */
    method TakeBid(order: SimulatedOrder, p: Price, bound: Option<real>) returns (stop: bool)
      requires order.terms.side == SELL && p in bids && bids[p] > 0.0
      modifies `bids, order
      ensures var o, size := old(order.Value()), old(bids[p]);
        if Matching.Accepts(o.terms, bound, p) && Matching.TakeQty(o, p, size).Some?
        then
          var q := Matching.TakeQty(o, p, size).value;
          && order.Value() == Matching.AddFill(o, p, q) && bids == Deduct(old(bids), p, q)
          && (stop <==> Matching.Done(order.Value()))
        else stop && order.Value() == o && bids == old(bids)
    {
      if !Matching.Accepts(order.terms, bound, p) {
        return true;
      }
      var qty := Min(order.quantity - order.filled, bids[p]);
      order.AddFill(p, qty);
      bids := bids[p := bids[p] - qty];
      if bids[p] < DUST {
        bids := bids - {p};
      }
      assert bids == Deduct(old(bids), p, qty);
      stop := order.status == FILLED;
    }

    /** The SELL half: walk the bids downwards. */
    method SweepBids(order: SimulatedOrder, bound: Option<real>)
      requires order.terms.side == SELL
      modifies `bids, order
      ensures Matching.Swept(bids, order.Value()) ==
        Matching.Sweep(BestFirst(Bid, old(bids).Keys), old(bids), old(order.Value()), bound)
    {
      var keys := BestFirst(Bid, bids.Keys);
      ghost var goal := Matching.Sweep(keys, bids, order.Value(), bound);
      var i := 0;
      while i < |keys|
        invariant i <= |keys|
        invariant Matching.Sweep(keys[i..], bids, order.Value(), bound) == goal
      {
        Matching.SweepUnfolds(keys[i..], bids, order.Value(), bound);
        hide Matching.Sweep, Matching.TakeQty, Matching.AddFill, Matching.Done, Deduct, Matching.Accepts;
        var p := keys[i];
        i := i + 1;
        assert keys[i - 1..][1..] == keys[i..];
        if Size(bids, p) <= 0.0 {
          continue;
        }
        var stop := TakeBid(order, p, bound);
        if stop {
          break;
        }
      }
    }

    /** `_match_order`. */
    method MatchOrder(order: SimulatedOrder)
      modifies `bids, `asks, `depthCache, order
      ensures var s, side := old(Sides(bids, asks)), order.terms.side;
        var m := Matching.MatchOrder(s.On(side), old(order.Value()));
        order.Value() == m.order && Sides(bids, asks) == s.With(side, m.book)
      ensures depthCache == map[]
    {
      depthCache := map[];
      var bound: Option<real> := None;
      if order.terms.isMarket {
        var slippage := order.terms.maxSlippage.GetOr(Matching.DEFAULT_SLIPPAGE);
        if order.terms.side == BUY && asks.Keys != {} {
          if order.slippageRef.None? {
            order.slippageRef := Some(Best(Ask, asks.Keys));
          }
          bound := Some(Worth(1.0 + slippage, order.slippageRef.value));
        } else if order.terms.side == SELL && bids.Keys != {} {
          if order.slippageRef.None? {
            order.slippageRef := Some(Best(Bid, bids.Keys));
          }
          bound := Some(Worth(1.0 - slippage, order.slippageRef.value));
        }
      }
      ghost var book := Sides(bids, asks).On(order.terms.side);
      assert order.Value() == Matching.WithReference(old(order.Value()), book);
      assert bound == Matching.SlippageBound(order.Value(), book);
      if order.terms.side == BUY {
        SweepAsks(order, bound);
      } else {
        SweepBids(order, bound);
      }
    }

    /** Match, then cancel what a MARKET order could not get from a book that had something. */
    method TakeTurn(order: SimulatedOrder)
      requires order.status == PENDING || order.status == PARTIAL
      modifies `bids, `asks, `depthCache, order
      ensures var s, side := old(Sides(bids, asks)), order.terms.side;
        var t := Matching.Turn(s.On(side), old(order.Value()));
        order.Value() == t.order && Sides(bids, asks) == s.With(side, t.book)
      ensures depthCache == map[]
    {
      var hadLiquidity := if order.terms.side == BUY then asks.Keys != {} else bids.Keys != {};
      MatchOrder(order);
      if order.terms.isMarket && order.status != FILLED {
        if hadLiquidity || order.filled > 0.0 {
          order.status := CANCELED;
        }
      }
    }

    /** A loop over the orders has turned the first `i` of them from `before` into `after`. */
    ghost predicate Halfway(before: seq<Order>, after: seq<Order>, i: nat)
      reads `virtualOrders, virtualOrders
    {
      && |before| == |after| == |virtualOrders| && i <= |virtualOrders|
      && (forall j :: 0 <= j < i ==> virtualOrders[j].Value() == after[j])
      && (forall j :: i <= j < |virtualOrders| ==> virtualOrders[j].Value() == before[j])
    }

    // ---------- Expiry ----------

    /** Whether any of the first `n` orders is changed by expiry. */
    ghost predicate AnyExpires(orders: seq<Order>, n: nat, now: int)
      requires n <= |orders|
    {
      exists j :: 0 <= j < n && ExpireOne(orders[j], now) != orders[j]
    }

    method ExpireOrder(order: SimulatedOrder, now: int) returns (changed: bool)
      modifies order
      ensures order.Value() == ExpireOne(old(order.Value()), now)
      ensures changed <==> order.Value() != old(order.Value())
    {
      changed := false;
      if order.terms.expireAt.None? || now < order.terms.expireAt.value {
        return;
      }
      if order.status == PENDING {
        order.status := CANCELED;
        changed := true;
      } else if order.status == PARTIAL {
        order.quantity := order.filled;
        order.status := CANCELED;
        changed := true;
      } else if order.status == FILLED && !order.closed {
        order.closed := true;
        changed := true;
      }
    }

    /** `_expire_pending_orders`; tells whether it acted on any order. */
    method ExpirePendingOrders(now: int) returns (anyExpired: bool)
      requires Valid()
      modifies virtualOrders
      ensures OrderValues() == ExpireOrders(old(OrderValues()), now)
      ensures anyExpired <==> OrderValues() != old(OrderValues())
    {
      hide OrderValues, ExpireOne, SimulatedOrder.Value, AnyExpires;
      NoneExpiresYet(OrderValues(), now);
      ghost var before, after := OrderValues(), ExpireOrders(OrderValues(), now);
      anyExpired := false;
      for i := 0 to |virtualOrders|
        invariant Halfway(before, after, i)
        invariant anyExpired <==> AnyExpires(before, i, now)
      {
        var changed := ExpireOrder(virtualOrders[i], now);
        NextExpires(before, i, now);
        anyExpired := anyExpired || changed;
      }
      assert OrderValues() == after;
      SameUnlessExpired(before, now);
    }

    lemma NoneExpiresYet(orders: seq<Order>, now: int)
      ensures !AnyExpires(orders, 0, now)
    {
    }

    lemma NextExpires(orders: seq<Order>, i: nat, now: int)
      requires i < |orders|
      ensures AnyExpires(orders, i + 1, now) <==> AnyExpires(orders, i, now) || ExpireOne(orders[i], now) != orders[i]
    {
      hide ExpireOne;
    }

    lemma SameUnlessExpired(orders: seq<Order>, now: int)
      ensures AnyExpires(orders, |orders|, now) <==> ExpireOrders(orders, now) != orders
    {
      hide ExpireOne;
      if !AnyExpires(orders, |orders|, now) {
        assert ExpireOrders(orders, now) == orders;
      }
    }

    // ---------- Reporting ----------

    /** What a loop over the first `n` orders has put into the report table. */
    ghost predicate TableAfter(before: map<OrderId, Report>, orders: seq<Order>, table: map<OrderId, Report>) {
      && (forall id :: id in ReportAll(orders) ==> id in table && table[id] == ReportAll(orders)[id])
      && (forall id :: id !in ReportAll(orders) ==>
            (id in table <==> id in before) && (id in table ==> table[id] == before[id]))
    }

    method ReportOrder(order: SimulatedOrder) returns (events: seq<Event>)
      modifies `lastReported, order
      ensures var prev := Previous(old(lastReported), order.terms.id);
        && events == EventsFor(old(order.Value()), prev)
        && order.Value() == AfterReport(old(order.Value()), prev)
      ensures lastReported ==
        old(lastReported)[order.terms.id := Report(old(order.Value()).filled, old(order.Value()).status)]
    {
      events := [];
      var prev := if order.terms.id in lastReported then lastReported[order.terms.id] else Report(0.0, PENDING);
      if order.filled > prev.filled {
        var levels := order.fillLevels;
        order.fillLevels := [];
        events := events + [Event(order.terms.id, FILL, order.terms.side, order.filled,
                                  order.Value().AvgEntry(), order.status, levels)];
      }
      if order.status == CANCELED && prev.status != CANCELED {
        events := events + [Event(order.terms.id, CANCEL, order.terms.side, order.filled,
                                  order.Value().AvgEntry(), order.status, [])];
      }
      lastReported := lastReported[order.terms.id := Report(order.filled, order.status)];
    }

    lemma TableGrows(before: map<OrderId, Report>, orders: seq<Order>, i: nat, table: map<OrderId, Report>)
      requires i < |orders| && DistinctIds(orders) && TableAfter(before, orders[..i], table)
      ensures var id := orders[i].terms.id;
        && Previous(table, id) == Previous(before, id)
        && TableAfter(before, orders[..i + 1], table[id := Report(orders[i].filled, orders[i].status)])
        && CollectEvents(orders[..i + 1], before)
           == CollectEvents(orders[..i], before) + EventsFor(orders[i], Previous(before, id))
        && ReportAll(orders[..i + 1]).Keys == ReportAll(orders[..i]).Keys + {id}
    {
      assert orders[..i + 1][..i] == orders[..i];
      assert Unused(orders[..i], orders[i].terms.id);
      BookSteps.ReportAllKeys(orders[..i], orders[i].terms.id);
    }

    /** `collect_state_changes`. */
    method CollectStateChanges() returns (events: seq<Event>)
      requires Valid()
      modifies `lastReported, virtualOrders
      ensures Valid()
      ensures Value() == Collect(old(Value())).book && events == Collect(old(Value())).events
    {
      hide OrderValues, TableAfter, CollectEvents, ReportAll, EventsFor, AfterReport, Previous, SimulatedOrder.Value;
      ghost var before, table := OrderValues(), lastReported;
      TableStart(table);
      events := [];
      var live: set<OrderId> := {};
      for i := 0 to |virtualOrders|
        invariant events == CollectEvents(before[..i], table)
        invariant TableAfter(table, before[..i], lastReported)
        invariant live == ReportAll(before[..i]).Keys
        invariant Halfway(before, CollectOrders(before, table), i)
      {
        TableGrows(table, before, i, lastReported);
        assert virtualOrders[i].Value() == before[i];
        live := live + {virtualOrders[i].terms.id};
        var more := ReportOrder(virtualOrders[i]);
        events := events + more;
      }
      assert before[..|virtualOrders|] == before;
      TableEnds(table, before, lastReported, live);
      lastReported := map id | id in lastReported && id in live :: lastReported[id];
      assert OrderValues() == CollectOrders(before, table);
    }

    lemma TableStart(table: map<OrderId, Report>)
      ensures TableAfter(table, [], table) && CollectEvents([], table) == [] && ReportAll([]).Keys == {}
    {
    }

    lemma TableEnds(before: map<OrderId, Report>, orders: seq<Order>, table: map<OrderId, Report>, live: set<OrderId>)
      requires TableAfter(before, orders, table) && live == ReportAll(orders).Keys
      ensures (map id | id in table && id in live :: table[id]) == ReportAll(orders)
    {
    }

    method SeedLastReported(id: OrderId, filled: real, status: Status)
      requires Valid()
      modifies `lastReported
      ensures Value() == old(Value()).(reported := old(lastReported)[id := Report(filled, status)])
    {
      lastReported := lastReported[id := Report(filled, status)];
      assert OrderValues() == old(OrderValues());
    }

    /** Seeding an order of the book with its own state. */
    lemma SeedsCurrent(i: nat)
      requires Valid() && i < |virtualOrders|
      ensures var b, o := Value(), virtualOrders[i].Value();
        b.(reported := b.reported[o.terms.id := Report(o.filled, o.status)]) == Seed(b, o.terms.id)
    {
      FirstIndex(OrderValues(), virtualOrders[i].terms.id, i);
    }

    /** The position of an order, or the number of orders. */
    method Find(id: OrderId) returns (i: nat)
      ensures i == IndexOf(OrderValues(), id)
    {
      i := 0;
      while i < |virtualOrders|
        invariant i <= |virtualOrders|
        invariant forall j :: 0 <= j < i ==> virtualOrders[j].terms.id != id
      {
        if virtualOrders[i].terms.id == id {
          FirstIndex(OrderValues(), id, i);
          return;
        }
        i := i + 1;
      }
      FirstIndex(OrderValues(), id, i);
    }

    lemma FirstIndex(orders: seq<Order>, id: OrderId, i: nat)
      requires i <= |orders| && (i < |orders| ==> orders[i].terms.id == id)
      requires forall j :: 0 <= j < i ==> orders[j].terms.id != id
      ensures IndexOf(orders, id) == i
    {
    }

    // ---------- Cancelling and closing ----------

    method CancelOrder(id: OrderId)
      requires Valid()
      modifies virtualOrders
      ensures Value() == CancelById(old(Value()), id)
    {
      var i := Find(id);
      ghost var before := OrderValues();
      if i < |virtualOrders| {
        CancelIfLive(virtualOrders[i]);
      }
      assert i < |before| ==> OrderValues() == before[i := CancelOne(before[i])];
      assert i == |before| ==> OrderValues() == before;
    }

    method CancelIfLive(order: SimulatedOrder)
      modifies order
      ensures order.Value() == CancelOne(old(order.Value()))
    {
      if order.status == PENDING || order.status == PARTIAL {
        order.status := CANCELED;
      }
    }

    method CancelAllVirtual()
      requires Valid()
      modifies virtualOrders
      ensures OrderValues() == CancelOrders(old(OrderValues()))
    {
      hide OrderValues, CancelOne, SimulatedOrder.Value;
      ghost var before := OrderValues();
      for i := 0 to |virtualOrders|
        invariant Halfway(before, CancelOrders(before), i)
      {
        CancelIfLive(virtualOrders[i]);
      }
      assert OrderValues() == CancelOrders(before);
    }

    method ResolveOrder(order: SimulatedOrder)
      modifies order
      ensures order.Value() == ResolveOne(old(order.Value()))
    {
      if !order.closed {
        if order.status == PENDING || order.status == PARTIAL {
          order.status := CANCELED;
        }
        order.tp, order.sl, order.closed := None, None, true;
      }
    }

    /** The market has resolved: drop brackets and close every position still open. */
    method ResolveMarket()
      requires Valid()
      modifies virtualOrders
      ensures OrderValues() == ResolveOrders(old(OrderValues()))
    {
      hide OrderValues, ResolveOne, SimulatedOrder.Value;
      ghost var before := OrderValues();
      for i := 0 to |virtualOrders|
        invariant Halfway(before, ResolveOrders(before), i)
      {
        ResolveOrder(virtualOrders[i]);
      }
      assert OrderValues() == ResolveOrders(before);
    }

    /** `expire_book`. */
    method ExpireTheBook() returns (events: seq<Event>)
      requires Valid()
      modifies this, virtualOrders
      ensures Valid() && virtualOrders == old(virtualOrders)
      ensures Value() == ExpireBook(old(Value())).book && events == ExpireBook(old(Value())).events
    {
      hide Collect, CancelOrders, OrderValues, SimulatedOrder.Value;
      expired := true;
      CancelAllVirtual();
      bids, asks, rawBids, rawAsks, depthCache := map[], map[], map[], map[], map[];
      assert Value() == old(Value()).(expired := true, orders := CancelOrders(old(OrderValues())),
                                      sides := NO_LEVELS, raw := NO_LEVELS, cache := map[]);
      events := CollectStateChanges();
    }

    /** Expiry swept by the session, reported only if anything expired. */
    method SweepPending(now: int) returns (events: seq<Event>)
      requires Valid()
      modifies `lastReported, virtualOrders
      ensures Valid()
      ensures Value() == SweepExpired(old(Value()), now).book && events == SweepExpired(old(Value()), now).events
    {
      var anyExpired := ExpirePendingOrders(now);
      events := [];
      if anyExpired {
        assert Value() == old(Value()).(orders := ExpireOrders(old(OrderValues()), now));
        events := CollectStateChanges();
      }
    }

    // ---------- Bracket exits ----------

    /** The walk of an exit: sell down the bids. */
    method SellDown(toClose: real) returns (qty: real, value: real, levels: seq<Level>)
      modifies `bids
      ensures Exits.Sold(bids, qty, value, levels) ==
        Exits.ExitWalk(BestFirst(Bid, old(bids).Keys), Exits.Sold(old(bids), 0.0, 0.0, []), toClose)
    {
      qty, value, levels := 0.0, 0.0, [];
      var keys := BestFirst(Bid, bids.Keys);
      ghost var goal := Exits.ExitWalk(keys, Exits.Sold(bids, 0.0, 0.0, []), toClose);
      var i := 0;
      while i < |keys|
        invariant i <= |keys|
        invariant Exits.ExitWalk(keys[i..], Exits.Sold(bids, qty, value, levels), toClose) == goal
      {
        var p := keys[i];
        i := i + 1;
        assert keys[i - 1..][1..] == keys[i..];
        if Size(bids, p) <= 0.0 {
          continue;
        }
        ghost var before := Exits.Sold(bids, qty, value, levels);
        var q := Min(toClose - qty, bids[p]);
        qty := qty + q;
        value := value + Worth(q, p);
        levels := levels + [Level(p, q)];
        bids := if bids[p] - q < DUST then bids - {p} else bids[p := bids[p] - q];
        assert Exits.Sold(bids, qty, value, levels) == Exits.SellAt(before, p, toClose);
        if qty >= toClose {
          break;
        }
      }
    }

    method RecordExit(order: SimulatedOrder, totalExited: real, price: real, trigger: Trigger)
      modifies order
      ensures order.Value() == old(order.Value()).(
        closed := totalExited >= old(order.Value()).filled,
        exitPrice := Some(price), exitTrigger := Some(trigger), exitFilled := Some(totalExited))
    {
      order.closed := totalExited >= order.filled;
      order.exitPrice := Some(price);
      order.exitTrigger := Some(trigger);
      order.exitFilled := Some(totalExited);
    }

    /** `_execute_bracket_exit`. */
    method ExecuteBracketExit(order: SimulatedOrder, marketBid: real, trigger: Trigger) returns (exit: Exits.Exit)
      modifies `bids, `depthCache, order
      ensures var r := Exits.ExecuteExit(old(bids), old(order.Value()), marketBid, trigger);
        bids == r.bids && order.Value() == r.order && exit == r.record
      ensures depthCache == map[]
    {
      hide Exits.ExitWalk, Exits.Mean, Worth;
      depthCache := map[];
      ghost var o := order.Value();
      var alreadyExited := order.exitFilled.GetOr(0.0);
      var toClose := order.filled - alreadyExited;
      var qty, value, levels := SellDown(toClose);
      assert order.Value() == o && o.Exited() == alreadyExited;
      var avgExit := if qty > 0.0 then Exits.Mean(value, qty) else marketBid;
      var totalExited := alreadyExited + qty;
      var cumulative := avgExit;
      if order.exitPrice.Some? && alreadyExited > 0.0 && totalExited > 0.0 {
        cumulative := Exits.Mean(Worth(alreadyExited, order.exitPrice.value) + value, totalExited);
      }
      exit := Exits.Exit(order.terms.id, trigger, if trigger == TP then order.tp else order.sl, marketBid,
                         toClose, qty, avgExit, levels);
      hide SimulatedOrder.Value;
      RecordExit(order, totalExited, cumulative, trigger);
    }

    /** Exit one order if its bracket fires at this bid. */
    method TryBracket(i: nat, bid: real) returns (exits: seq<Exits.Exit>)
      requires Valid() && i < |virtualOrders|
      modifies `bids, `depthCache, virtualOrders[i]
      ensures Value() == TryExit(old(Value()), i, bid).book && exits == TryExit(old(Value()), i, bid).exits
    {
      var order := virtualOrders[i];
      ghost var before := OrderValues();
      exits := [];
      if order.Value().EligibleForBracket() {
        var trigger := if order.tp.Some? && bid >= order.tp.value then Some(TP)
                       else if order.sl.Some? && bid <= order.sl.value then Some(SL) else None;
        assert trigger == Exits.Fires(before[i], bid);
        hide SimulatedOrder.Value, OrderValues, Exits.ExecuteExit, Exits.Fires;
        if trigger.Some? {
          var exit := ExecuteBracketExit(order, bid, trigger.value);
          exits := [exit];
          assert OrderValues() == before[i := order.Value()];
        }
      }
      assert exits == [] ==> OrderValues() == before;
    }

    /** `monitor_bracket_orders`: the best bid is read once, before any exit. */
    method MonitorBrackets() returns (exits: seq<Exits.Exit>)
      requires Valid()
      modifies `bids, `depthCache, virtualOrders
      ensures Value() == Monitor(old(Value())).book && exits == Monitor(old(Value())).exits
    {
      hide OrderValues, MonitorFirst, Best;
      if bids.Keys == {} {
        return [];
      }
      exits := MonitorAll(Best(Bid, bids.Keys));
    }

    method MonitorAll(bid: real) returns (exits: seq<Exits.Exit>)
      requires Valid()
      modifies `bids, `depthCache, virtualOrders
      ensures var all := MonitorFirst(old(Value()), |old(Value()).orders|, bid);
        Value() == all.book && exits == all.exits
    {
      hide *;
      ghost var before := Value();
      SameCount();
      BookSteps.MonitorUnfolds(before, 0, bid);
      exits := [];
      for i := 0 to |virtualOrders|
        invariant |before.orders| == |virtualOrders|
        invariant Value() == MonitorFirst(before, i, bid).book && exits == MonitorFirst(before, i, bid).exits
      {
        var more := MonitorOne(before, i, bid);
        exits := exits + more;
      }
    }

    lemma SameCount()
      ensures |Value().orders| == |virtualOrders|
    {
      hide SimulatedOrder.Value;
    }

    method MonitorOne(ghost before: Book, i: nat, bid: real) returns (exits: seq<Exits.Exit>)
      requires Valid() && i < |virtualOrders| == |before.orders| && Value() == MonitorFirst(before, i, bid).book
      modifies `bids, `depthCache, virtualOrders
      ensures Value() == MonitorFirst(before, i + 1, bid).book
      ensures MonitorFirst(before, i + 1, bid).exits == MonitorFirst(before, i, bid).exits + exits
    {
      hide *;
      BookSteps.MonitorUnfolds(before, i + 1, bid);
      exits := TryBracket(i, bid);
    }

    /** `force_close_at_market`. */
    method ForceCloseAtMarket(id: OrderId) returns (exits: seq<Exits.Exit>)
      requires Valid()
      modifies `bids, `depthCache, virtualOrders
      ensures Value() == ForceClose(old(Value()), id).book && exits == ForceClose(old(Value()), id).exits
    {
      exits := [];
      var i := Find(id);
      if i == |virtualOrders| || virtualOrders[i].filled <= 0.0 || virtualOrders[i].closed || bids.Keys == {} {
        return;
      }
      ghost var before := OrderValues();
      hide SimulatedOrder.Value, OrderValues, Exits.ExecuteExit;
      var exit := ExecuteBracketExit(virtualOrders[i], Best(Bid, bids.Keys), FORCE_CLOSE);
      exits := [exit];
      assert OrderValues() == before[i := virtualOrders[i].Value()];
    }

    // ---------- Placement ----------

    method CheckBracket(i: nat) returns (exits: seq<Exits.Exit>)
      requires Valid() && i < |virtualOrders|
      modifies `bids, `depthCache, virtualOrders[i]
      ensures Value() == ImmediateExit(old(Value()), i).book && exits == ImmediateExit(old(Value()), i).exits
    {
      exits := [];
      if bids.Keys != {} {
        hide TryExit;
        exits := TryBracket(i, Best(Bid, bids.Keys));
      }
    }

    /** `place_virtual_order`. The id is new. */
    method PlaceVirtualOrder(terms: Terms, quantity: real, tp: Option<real>, sl: Option<real>)
      returns (order: SimulatedOrder, exits: seq<Exits.Exit>, events: seq<Event>)
      requires Valid() && forall i :: 0 <= i < |virtualOrders| ==> virtualOrders[i].terms.id != terms.id
      modifies this, virtualOrders
      ensures Valid() && fresh(order) && order.terms == terms && virtualOrders == old(virtualOrders) + [order]
      ensures var out := Place(old(Value()), NewOrder(terms, quantity, tp, sl));
        Value() == out.book && exits == out.exits && events == out.events
    {
      hide OrderValues, Matched, ImmediateExit, Collect, SimulatedOrder.Value;
      order := new SimulatedOrder(NewOrder(terms, quantity, tp, sl));
      AppendAndMatch(order);
      exits := CheckBracket(|virtualOrders| - 1);
      events := CollectStateChanges();
    }

    method AppendAndMatch(order: SimulatedOrder)
      requires Valid() && forall i :: 0 <= i < |virtualOrders| ==> virtualOrders[i].terms.id != order.terms.id
      requires order.Value().status == PENDING
      modifies this, order
      ensures Valid() && virtualOrders == old(virtualOrders) + [order]
      ensures Value() == Matched(old(Value()), old(order.Value()))
    {
      hide OrderValues, Matched, SimulatedOrder.Value;
      ghost var start := Value();
      AppendOrder(order);
      MatchLast(order, start);
    }

    method AppendOrder(order: SimulatedOrder)
      requires Valid() && forall i :: 0 <= i < |virtualOrders| ==> virtualOrders[i].terms.id != order.terms.id
      modifies `virtualOrders
      ensures Valid() && virtualOrders == old(virtualOrders) + [order]
      ensures Value() == old(Value()).(orders := old(OrderValues()) + [order.Value()])
    {
      virtualOrders := virtualOrders + [order];
      assert OrderValues() == old(OrderValues()) + [order.Value()];
    }

    /** The newest order has its first turn. */
    method MatchLast(order: SimulatedOrder, ghost start: Book)
      requires Valid() && virtualOrders != [] && virtualOrders[|virtualOrders| - 1] == order
      requires order.Value().status == PENDING
      requires Value() == start.(orders := start.orders + [order.Value()])
      modifies `bids, `asks, `depthCache, order
      ensures Value() == Matched(start, old(order.Value()))
    {
      assert order.status == PENDING;
      hide SimulatedOrder.Value, OrderValues, Matching.Turn;
      TakeTurn(order);
      assert OrderValues() == start.orders + [order.Value()];
    }

    /** `place_prefilled_bracket_order`. */
    method PlacePrefilledBracketOrder(terms: Terms, filled: real, tp: Option<real>, sl: Option<real>)
      returns (order: SimulatedOrder, exits: seq<Exits.Exit>)
      requires Valid() && forall i :: 0 <= i < |virtualOrders| ==> virtualOrders[i].terms.id != terms.id
      modifies this, virtualOrders
      ensures Valid() && fresh(order) && order.terms == terms && virtualOrders == old(virtualOrders) + [order]
      ensures var out := PlacePrefilled(old(Value()), PrefilledOrder(terms, filled, tp, sl));
        Value() == out.book && exits == out.exits
    {
      order := new SimulatedOrder(PrefilledOrder(terms, filled, tp, sl));
      AppendOrder(order);
      exits := CheckBracket(|virtualOrders| - 1);
    }

    // ---------- run_matching ----------

    /** `_prune_terminal_orders`. */
    method PruneTerminalOrders(now: int)
      requires Valid()
      modifies `virtualOrders
      ensures Valid()
      ensures Value() == old(Value()).(orders := Prune(old(OrderValues()), now))
      ensures forall o :: o in virtualOrders ==> o in old(virtualOrders)
    {
      ghost var before := OrderValues();
      var kept: seq<SimulatedOrder> := [];
      hide SimulatedOrder.Value, OrderValues, Prunable;
      for i := 0 to |virtualOrders|
        invariant |kept| == |Prune(before[..i], now)|
        invariant forall j :: 0 <= j < |kept| ==> kept[j].Value() == Prune(before[..i], now)[j]
        invariant forall o :: o in kept ==> o in virtualOrders
        invariant forall j, k :: 0 <= j < k < |kept| ==> kept[j].terms.id != kept[k].terms.id
        invariant forall j, m :: 0 <= j < |kept| && i <= m < |virtualOrders| ==>
          kept[j].terms.id != virtualOrders[m].terms.id
      {
        assert before[..i + 1][..i] == before[..i];
        if !Prunable(virtualOrders[i].Value(), now) {
          kept := kept + [virtualOrders[i]];
        }
      }
      assert before[..|virtualOrders|] == before;
      virtualOrders := kept;
      assert OrderValues() == Prune(before, now);
    }

    /** The pass of `run_matching` over the orders in list order. */
    method MatchAll()
      requires Valid()
      modifies `bids, `asks, `depthCache, virtualOrders
      ensures var r := Pass(old(OrderValues()), |old(OrderValues())|, old(Sides(bids, asks)));
        OrderValues() == r.orders && Sides(bids, asks) == r.sides
      ensures old(depthCache) == map[] ==> depthCache == map[]
    {
      hide SimulatedOrder.Value, OrderValues, Matching.Turn, Pass, Sides.On, Sides.With;
      ghost var before, start := OrderValues(), Sides(bids, asks);
      ghost var after := Pass(before, |before|, start).orders;
      PassStart(before, start);
      for i := 0 to |virtualOrders|
        invariant Sides(bids, asks) == Pass(before, i, start).sides
        invariant Halfway(before, after, i)
        invariant old(depthCache) == map[] ==> depthCache == map[]
      {
        PassStep(before, i, start);
        TurnOrder(virtualOrders[i]);
      }
      assert OrderValues() == after;
    }

    /** A turn for an order that may already be finished. */
    method TurnOrder(order: SimulatedOrder)
      modifies `bids, `asks, `depthCache, order
      ensures var s, side := old(Sides(bids, asks)), order.terms.side;
        var t := Matching.Turn(s.On(side), old(order.Value()));
        order.Value() == t.order && Sides(bids, asks) == s.With(side, t.book)
      ensures old(depthCache) == map[] ==> depthCache == map[]
    {
      if order.status == PENDING || order.status == PARTIAL {
        TakeTurn(order);
      }
    }

    /** The first half of `run_matching`: expiry, the stale-book guard and the pass. */
    method RematchOrders(now: int)
      requires Valid()
      modifies `bids, `asks, `depthCache, virtualOrders
      ensures Valid()
      ensures Value() == Rematch(old(Value()), now)
    {
      ghost var start := Value();
      hide OrderValues, SimulatedOrder.Value, Pass;
      depthCache := map[];
      var anyExpired := ExpirePendingOrders(now);
      assert Value() == start.(orders := ExpireOrders(start.orders, now), cache := map[]);
      var skip := expired || lastUpdate.None? || now - lastUpdate.value > STALE_AFTER;
      if !skip {
        MatchAll();
      }
    }

    /** Periodic cleanup at the end of `run_matching`. */
    method TidyUp(now: int)
      requires Valid()
      modifies `cleanupCounter, `virtualOrders
      ensures Valid()
      ensures Value() == Tidy(old(Value()), now)
    {
      hide OrderValues, SimulatedOrder.Value, Prune;
      cleanupCounter := cleanupCounter + 1;
      if cleanupCounter >= CLEANUP_INTERVAL {
        cleanupCounter := 0;
        PruneTerminalOrders(now);
      }
    }

    /** `run_matching`. */
    method RunMatching(now: int) returns (events: seq<Event>)
      requires Valid()
      modifies this, virtualOrders
      ensures Valid()
      ensures var out := Books.RunMatching(old(Value()), now); Value() == out.book && events == out.events
    {
      hide Value, Rematch, Collect, Tidy, Valid;
      RematchOrders(now);
      events := CollectStateChanges();
      TidyUp(now);
    }
  }
}
