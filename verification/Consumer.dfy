/**
 The order consumer: it places queued orders on a book, and turns what the engine publishes into
 the messages the ledger handles.
 */
module Consumer {
  import opened Prelude
  import opened Ladders
  import opened Orders
  import opened Matching
  import opened Passes
  import opened Books
  import opened BookSafety
  import opened BookSteps
  import opened Stream
  import Expiry
  import opened ShadowBook
  import F = Fees
  import W = Walks
  import L = Ledger
  import P = LedgerProofs
  import Accounts
  import Calendar

  datatype Message = FillNote(fill: L.FillMessage) | CancelNote(cancel: L.CancelMessage)

  /** Which trade an engine order belongs to. */
  type Tracking = map<OrderId, nat>

  function Walked(levels: seq<Level>): Option<seq<Level>> {
    if levels == [] then None else Some(levels)
  }

  function MessageOf(e: Event, bo: nat): Message {
    match e.kind
    case FILL => FillNote(L.FillMessage(bo, e.filled, e.avgEntry.GetOr(0.0), e.status, Walked(e.levels)))
    case CANCEL => CancelNote(L.CancelMessage(bo, e.filled, e.avgEntry.GetOr(0.0)))
  }

  datatype Handled = Handled(tracking: Tracking, messages: seq<Message>)

  /** One event: orders that are not tracked are passed over, finished orders are tracked no longer. */
  function HandleEvent(h: Handled, e: Event): Handled {
    if e.id !in h.tracking then h
    else
      Handled(if e.status == FILLED || e.status == CANCELED then h.tracking - {e.id} else h.tracking,
              h.messages + [MessageOf(e, h.tracking[e.id])])
  }

  /** `_on_state_changes`. */
  function HandleEvents(tracking: Tracking, events: seq<Event>): Handled {
    if events == [] then Handled(tracking, [])
    else HandleEvent(HandleEvents(tracking, events[..|events| - 1]), events[|events| - 1])
  }

  // ---------- Placing a queued order ----------

  /** What a queued message must hold to be placed: what was bought, or a price. */
  predicate Placeable(q: L.QueueMessage) {
    if q.prefilled.Some? then q.prefilled.value.0 > 0.0 && q.prefilled.value.1 > 0.0 else q.price.Some?
  }

  /** A time to live in microseconds; orders for future sessions live at least until they settle. */
  function TimeToLive(q: L.QueueMessage, now: int): Option<int> {
    var future := q.offset >= 1 && q.settlementAt.Some?;
    var least := if future && q.settlementAt.value - now > SECOND then q.settlementAt.value - now else SECOND;
    if q.ttl.Some? then
      var ttl := q.ttl.value * SECOND;
      Some(if future && ttl < least then least else ttl)
    else if future then Some(least)
    else None
  }

  /** When a queued order expires: after its time to live, or with the current candle. */
  function ExpireAtFor(q: L.QueueMessage, now: nat): Option<int> {
    var ttl := TimeToLive(q, now);
    Some(if ttl.Some? then now + ttl.value else Calendar.CandleExpireAt(q.timeframe, now))
  }

  function TermsFor(q: L.QueueMessage, id: OrderId, now: nat): Terms
    requires Placeable(q)
  {
    if q.prefilled.Some? then Terms(id, BUY, q.prefilled.value.0, true, None, None, now, q.settlementAt)
    else
      Terms(id, q.side, q.limit.GetOr(q.price.value), q.limit.None?, q.slippage,
            if q.limit.None? && q.side == BUY then q.amount else None, now, ExpireAtFor(q, now))
  }

  /** A MARKET order buys as many shares as its amount pays for at the best ask; others ask what was queued. */
  function QuantityFor(q: L.QueueMessage, bestAsk: Option<Price>): real {
    if q.limit.None? && q.amount.Some? && bestAsk.Some? then Afford(q.amount.value, bestAsk.value) else q.quantity
  }

  /** What is published about an order that was just placed. */
  function PlacedMessages(o: Order, bo: nat): seq<Message> {
    (if o.filled > 0.0
     then [FillNote(L.FillMessage(bo, o.filled, o.AvgEntry().GetOr(0.0), o.status, Walked(o.fillLevels)))] else []) +
    (if o.status == CANCELED then [CancelNote(L.CancelMessage(bo, o.filled, o.AvgEntry().GetOr(0.0)))] else [])
  }

  /** An order that cannot be placed is cancelled, whatever was bought for it before. */
  function Rejection(bo: nat): Message {
    CancelNote(L.CancelMessage(bo, 0.0, 0.0))
  }

  datatype Processed = Processed(handled: Handled, book: Book)

  /** A new order is published, and tracked unless it is finished by cancellation already. */
  function ProcessNew(tracking: Tracking, b: Book, o: Order, bo: nat): Processed {
    var out := Place(b, o);
    var heard := HandleEvents(tracking, out.events);
    if out.book.orders == [] then Processed(heard, out.book)
    else
      var placed := out.book.orders[|out.book.orders| - 1];
      Processed(Handled(if placed.status == CANCELED then heard.tracking - {o.terms.id}
                        else heard.tracking[o.terms.id := bo],
                        heard.messages + PlacedMessages(placed, bo)),
                Seed(out.book, o.terms.id))
  }

  /**
   `_process_order`. The session `accepts` the order when it is found, owns the token, and is in a
   state that allows it.
   */
  function Process(tracking: Tracking, b: Book, q: L.QueueMessage, id: OrderId, bestAsk: Option<Price>, now: nat,
                   accepts: bool): Processed
    requires Placeable(q)
  {
    if !accepts || b.expired then Processed(Handled(tracking, [Rejection(q.bo)]), b)
    else
      var terms := TermsFor(q, id, now);
      if q.prefilled.Some? then
        var out := PlacePrefilled(b, PrefilledOrder(terms, q.prefilled.value.1, q.tp, q.sl));
        Processed(Handled(tracking[id := q.bo], []), Seed(out.book, id))
      else ProcessNew(tracking, b, NewOrder(terms, QuantityFor(q, bestAsk), q.tp, q.sl), q.bo)
  }

  class OrderConsumer {
    var orderToBo: Tracking
    /** Everything published, oldest first. */
    var published: seq<Message>

    constructor ()
      ensures orderToBo == map[] && published == []
    {
      orderToBo, published := map[], [];
    }

    method OnStateChanges(events: seq<Event>)
      modifies this
      ensures var h := HandleEvents(old(orderToBo), events);
        orderToBo == h.tracking && published == old(published) + h.messages
    {
      hide MessageOf;
      for i := 0 to |events|
        invariant orderToBo == HandleEvents(old(orderToBo), events[..i]).tracking
        invariant published == old(published) + HandleEvents(old(orderToBo), events[..i]).messages
      {
        assert events[..i + 1][..i] == events[..i];
        var event := events[i];
        if event.id in orderToBo {
          published := published + [MessageOf(event, orderToBo[event.id])];
          if event.status == FILLED || event.status == CANCELED {
            orderToBo := orderToBo - {event.id};
          }
        }
      }
      assert events[..|events|] == events;
    }

    /** `_process_order`; the session's own checks are summed up in `accepts`. */
    method ProcessOrder(book: ShadowOrderbook, q: L.QueueMessage, id: OrderId, bestAsk: Option<Price>, now: nat,
                        accepts: bool)
      requires book.Valid() && forall i :: 0 <= i < |book.virtualOrders| ==> book.virtualOrders[i].terms.id != id
      requires Placeable(q)
      modifies this, book, book.virtualOrders
      ensures book.Valid()
      ensures var r := Process(old(orderToBo), old(book.Value()), q, id, bestAsk, now, accepts);
        && orderToBo == r.handled.tracking && published == old(published) + r.handled.messages
        && book.Value() == r.book
    {
      hide ProcessNew, PlacePrefilled, Seed, SimulatedOrder.Value, QuantityFor, TermsFor;
      if !accepts || book.expired {
        published := published + [Rejection(q.bo)];
        return;
      }
      TermsId(q, id, now);
      hide ShadowOrderbook.Value;
      if q.prefilled.Some? {
        ProcessPrefilled(book, TermsFor(q, id, now), q.prefilled.value.1, q.tp, q.sl, q.bo);
      } else {
        ProcessStandard(book, TermsFor(q, id, now), QuantityFor(q, bestAsk), q.tp, q.sl, q.bo);
      }
    }

    /** `_process_prefilled_order` on a book that accepts it. */
    method ProcessPrefilled(book: ShadowOrderbook, terms: Terms, filled: real, tp: Option<real>, sl: Option<real>,
                            bo: nat)
      requires book.Valid() && forall i :: 0 <= i < |book.virtualOrders| ==> book.virtualOrders[i].terms.id != terms.id
      modifies this, book, book.virtualOrders
      ensures book.Valid() && published == old(published) && orderToBo == old(orderToBo)[terms.id := bo]
      ensures var out := PlacePrefilled(old(book.Value()), PrefilledOrder(terms, filled, tp, sl));
        book.Value() == Seed(out.book, terms.id)
    {
      hide PlacePrefilled, Seed, SimulatedOrder.Value, ShadowOrderbook.Value;
      var order, _ := book.PlacePrefilledBracketOrder(terms, filled, tp, sl);
      orderToBo := orderToBo[terms.id := bo];
      SeedPlaced(book, order);
    }

    /** `_process_standard_order` on a book that accepts it. */
    method ProcessStandard(book: ShadowOrderbook, terms: Terms, quantity: real, tp: Option<real>, sl: Option<real>,
                           bo: nat)
      requires book.Valid() && forall i :: 0 <= i < |book.virtualOrders| ==> book.virtualOrders[i].terms.id != terms.id
      modifies this, book, book.virtualOrders
      ensures book.Valid()
      ensures var r := ProcessNew(old(orderToBo), old(book.Value()), NewOrder(terms, quantity, tp, sl), bo);
        && orderToBo == r.handled.tracking && published == old(published) + r.handled.messages
        && book.Value() == r.book
    {
      hide Place, HandleEvents, Seed, SimulatedOrder.Value, ShadowOrderbook.Value, PlacedMessages;
      var order, _, events := book.PlaceVirtualOrder(terms, quantity, tp, sl);
      LastIs(book, order);
      OnStateChanges(events);
      assert NewOrder(terms, quantity, tp, sl).terms == terms;
      Conclude(book, order, bo);
    }

    lemma LastIs(book: ShadowOrderbook, order: SimulatedOrder)
      requires book.Valid() && book.virtualOrders != [] && book.virtualOrders[|book.virtualOrders| - 1] == order
      ensures var orders := book.Value().orders; orders != [] && orders[|orders| - 1] == order.Value()
    {
      hide SimulatedOrder.Value;
    }

    lemma TermsId(q: L.QueueMessage, id: OrderId, now: nat)
      requires Placeable(q)
      ensures TermsFor(q, id, now).id == id
    {
    }

    /** The newest order of the book is reported as it is. */
    method SeedPlaced(book: ShadowOrderbook, order: SimulatedOrder)
      requires book.Valid() && book.virtualOrders != [] && book.virtualOrders[|book.virtualOrders| - 1] == order
      modifies book`lastReported
      ensures book.Valid() && book.Value() == Seed(old(book.Value()), order.terms.id)
    {
      hide Seed;
      book.SeedsCurrent(|book.virtualOrders| - 1);
      book.SeedLastReported(order.terms.id, order.filled, order.status);
    }

    /** Publish the placed order, track it, and forget it again when it is cancelled already. */
    method Conclude(book: ShadowOrderbook, order: SimulatedOrder, bo: nat)
      requires book.Valid() && book.virtualOrders != [] && book.virtualOrders[|book.virtualOrders| - 1] == order
      modifies this, book`lastReported
      ensures book.Valid() && book.Value() == Seed(old(book.Value()), order.terms.id)
      ensures published == old(published) + PlacedMessages(old(order.Value()), bo)
      ensures orderToBo == if old(order.Value()).status == CANCELED then old(orderToBo) - {order.terms.id}
                           else old(orderToBo)[order.terms.id := bo]
    {
      hide Seed, SimulatedOrder.Value, ShadowOrderbook.Value, PlacedMessages;
      StatusOf(order);
      PublishPlaced(order, bo);
      orderToBo := orderToBo[order.terms.id := bo];
      SeedPlaced(book, order);
      if order.status == CANCELED {
        orderToBo := orderToBo - {order.terms.id};
      }
    }

    lemma StatusOf(order: SimulatedOrder)
      ensures order.Value().status == order.status
    {
    }

    method PublishPlaced(order: SimulatedOrder, bo: nat)
      modifies this`published
      ensures published == old(published) + PlacedMessages(order.Value(), bo)
    {
      var o := order.Value();
      if o.filled > 0.0 {
        published := published + [FillNote(L.FillMessage(bo, o.filled, o.AvgEntry().GetOr(0.0), o.status,
                                                         Walked(o.fillLevels)))];
      }
      if o.status == CANCELED {
        published := published + [CancelNote(L.CancelMessage(bo, o.filled, o.AvgEntry().GetOr(0.0)))];
      }
    }
  }

  // ---------- One order at a time ----------

  function EventsAbout(id: OrderId, events: seq<Event>): seq<Event> {
    if events == [] then []
    else
      var last := events[|events| - 1];
      EventsAbout(id, events[..|events| - 1]) + if last.id == id then [last] else []
  }

  function BoOf(m: Message): nat {
    match m
    case FillNote(fill) => fill.id
    case CancelNote(cancel) => cancel.id
  }

  function MessagesAbout(bo: nat, messages: seq<Message>): seq<Message> {
    if messages == [] then []
    else
      var last := messages[|messages| - 1];
      MessagesAbout(bo, messages[..|messages| - 1]) + if BoOf(last) == bo then [last] else []
  }

  /** No two orders belong to the same trade. */
  ghost predicate OneOrderEach(tracking: Tracking) {
    forall a, b :: a in tracking && b in tracking && tracking[a] == tracking[b] ==> a == b
  }

  function Only(tracking: Tracking, id: OrderId): Tracking {
    if id in tracking then map[id := tracking[id]] else map[]
  }

  lemma MessagesSnoc(bo: nat, messages: seq<Message>, m: Message)
    ensures MessagesAbout(bo, messages + [m]) == MessagesAbout(bo, messages) + if BoOf(m) == bo then [m] else []
  {
    assert (messages + [m])[..|messages|] == messages;
  }

  /**
   What is published about a trade, and whether its order stays tracked, depends only on the events
   about that order.
   */
  lemma {:induction false} HandlesEachAlone(tracking: Tracking, events: seq<Event>, id: OrderId)
    requires OneOrderEach(tracking) && id in tracking
    ensures var all := HandleEvents(tracking, events);
      var one := HandleEvents(map[id := tracking[id]], EventsAbout(id, events));
      && OneOrderEach(all.tracking)
      && (forall x :: x in all.tracking ==> x in tracking && all.tracking[x] == tracking[x])
      && one.tracking == Only(all.tracking, id)
      && MessagesAbout(tracking[id], all.messages) == one.messages
  {
    hide HandleEvent;
    if events != [] {
      var init, e := events[..|events| - 1], events[|events| - 1];
      HandlesEachAlone(tracking, init, id);
      var one := HandleEvents(map[id := tracking[id]], EventsAbout(id, init));
      OneMore(tracking, HandleEvents(tracking, init), one, e, id);
      var about := EventsAbout(id, init);
      HandleSnoc(map[id := tracking[id]], about, e);
      assert EventsAbout(id, events) == if e.id == id then about + [e] else about;
    }
  }

  lemma HandleSnoc(tracking: Tracking, events: seq<Event>, e: Event)
    ensures HandleEvents(tracking, events + [e]) == HandleEvent(HandleEvents(tracking, events), e)
  {
    hide HandleEvent;
    assert (events + [e])[..|events|] == events;
  }

  lemma OneMore(tracking: Tracking, h: Handled, one: Handled, e: Event, id: OrderId)
    requires OneOrderEach(tracking) && id in tracking
    requires forall x :: x in h.tracking ==> x in tracking && h.tracking[x] == tracking[x]
    requires one.tracking == Only(h.tracking, id) && MessagesAbout(tracking[id], h.messages) == one.messages
    ensures var h', one' := HandleEvent(h, e), if e.id == id then HandleEvent(one, e) else one;
      && OneOrderEach(h'.tracking)
      && (forall x :: x in h'.tracking ==> x in tracking && h'.tracking[x] == tracking[x])
      && one'.tracking == Only(h'.tracking, id) && MessagesAbout(tracking[id], h'.messages) == one'.messages
  {
    if e.id in h.tracking {
      MessagesSnoc(tracking[id], h.messages, MessageOf(e, h.tracking[e.id]));
      assert BoOf(MessageOf(e, h.tracking[e.id])) == tracking[e.id];
      assert tracking[e.id] == tracking[id] ==> e.id == id;
      hide MessagesAbout, MessageOf;
      assert e.id == id ==> one.tracking - {id} == map[];
    }
  }

  // ---------- What one collection leads to ----------

  lemma {:induction false} AboutConcat(id: OrderId, a: seq<Event>, b: seq<Event>)
    ensures EventsAbout(id, a + b) == EventsAbout(id, a) + EventsAbout(id, b)
  {
    if b == [] {
      assert a + b == a;
    } else {
      assert (a + b)[..|a + b| - 1] == a + b[..|b| - 1];
      AboutConcat(id, a, b[..|b| - 1]);
    }
  }

  lemma AboutOne(id: OrderId, o: Order, prev: Report)
    ensures EventsAbout(id, EventsFor(o, prev)) == if o.terms.id == id then EventsFor(o, prev) else []
  {
    var events := EventsFor(o, prev);
    if |events| == 2 {
      assert events[..1] == [events[0]] && [events[0]][..0] == [];
      assert EventsAbout(id, events[..1]) ==
        EventsAbout(id, [events[0]][..0]) + (if o.terms.id == id then [events[0]] else []);
    } else if |events| == 1 {
      assert events[..0] == [];
    }
  }

  lemma {:induction false} CollectedAboutNone(id: OrderId, orders: seq<Order>, reported: map<OrderId, Report>)
    requires Unused(orders, id)
    ensures EventsAbout(id, CollectEvents(orders, reported)) == []
  {
    hide EventsFor;
    if orders != [] {
      var n := |orders| - 1;
      CollectedAboutNone(id, orders[..n], reported);
      AboutOne(id, orders[n], Previous(reported, orders[n].terms.id));
      AboutConcat(id, CollectEvents(orders[..n], reported),
                  EventsFor(orders[n], Previous(reported, orders[n].terms.id)));
    }
  }

  /** What a collection publishes about one order is what there is to tell about it. */
  lemma {:induction false} CollectedAbout(orders: seq<Order>, reported: map<OrderId, Report>, i: nat)
    requires DistinctIds(orders) && i < |orders|
    ensures EventsAbout(orders[i].terms.id, CollectEvents(orders, reported)) ==
      EventsFor(orders[i], Previous(reported, orders[i].terms.id))
  {
    hide EventsFor;
    var n, id := |orders| - 1, orders[i].terms.id;
    AboutOne(id, orders[n], Previous(reported, orders[n].terms.id));
    AboutConcat(id, CollectEvents(orders[..n], reported), EventsFor(orders[n], Previous(reported, orders[n].terms.id)));
    if i < n {
      assert orders[..n][i] == orders[i];
      CollectedAbout(orders[..n], reported, i);
    } else {
      CollectedAboutNone(id, orders[..n], reported);
    }
  }

  /** Of a fill and a cancellation told together only the fill is published: it already ends the tracking. */
  lemma FirstEventOnly(id: OrderId, bo: nat, o: Order, prev: Report)
    requires o.terms.id == id
    ensures var events := EventsFor(o, prev);
      HandleEvents(map[id := bo], events).messages == if events == [] then [] else [MessageOf(events[0], bo)]
  {
    var events := EventsFor(o, prev);
    var none: seq<Event> := [];
    if events != [] {
      HandleSnoc(map[id := bo], none, events[0]);
      assert none + [events[0]] == [events[0]];
      if |events| == 2 {
        HandleSnoc(map[id := bo], [events[0]], events[1]);
        assert [events[0]] + [events[1]] == events;
      } else {
        assert [events[0]] == events;
      }
    }
  }

  ghost predicate FillsAndCancels(o: Order, prev: Report) {
    o.filled > prev.filled && o.status == CANCELED && prev.status != CANCELED
  }

  /** What a batch publishes about a tracked order is its first event. */
  lemma BatchMessages(tracking: Tracking, mid: Book, i: nat)
    requires OneOrderEach(tracking) && DistinctIds(mid.orders) && i < |mid.orders|
    requires mid.orders[i].terms.id in tracking
    ensures var o := mid.orders[i];
      var bo := tracking[o.terms.id];
      MessagesAbout(bo, HandleEvents(tracking, Collect(mid).events).messages) ==
        FirstOf(EventsFor(o, Previous(mid.reported, o.terms.id)), bo)
  {
    hide HandleEvents, CollectEvents, MessagesAbout, EventsAbout, EventsFor, MessageOf, OneOrderEach, DistinctIds,
      CollectOrders, ReportAll;
    var o := mid.orders[i];
    HandlesEachAlone(tracking, Collect(mid).events, o.terms.id);
    CollectedAbout(mid.orders, mid.reported, i);
    FirstEventOnly(o.terms.id, tracking[o.terms.id], o, Previous(mid.reported, o.terms.id));
  }

  function FirstOf(events: seq<Event>, bo: nat): seq<Message> {
    if events == [] then [] else [MessageOf(events[0], bo)]
  }

  lemma FirstOfCases(o: Order, prev: Report, bo: nat)
    ensures var messages := FirstOf(EventsFor(o, prev), bo);
      && (o.filled > prev.filled ==> messages == [FillNote(
            L.FillMessage(bo, o.filled, o.AvgEntry().GetOr(0.0), o.status, Walked(o.fillLevels)))])
      && (o.filled <= prev.filled && o.status == CANCELED && prev.status != CANCELED ==>
            messages == [CancelNote(L.CancelMessage(bo, o.filled, o.AvgEntry().GetOr(0.0)))])
      && (o.filled <= prev.filled && !(o.status == CANCELED && prev.status != CANCELED) ==> messages == [])
  {
  }

  /**
   Every batch a book collects: a tracked order's new fill is always published, and its cancellation
   exactly when no fill of it is told in the same batch.
   */
  lemma CancelLostExactly(tracking: Tracking, mid: Book, i: nat)
    requires OneOrderEach(tracking) && DistinctIds(mid.orders) && i < |mid.orders|
    requires mid.orders[i].terms.id in tracking
    ensures var o := mid.orders[i];
      var prev, bo := Previous(mid.reported, o.terms.id), tracking[o.terms.id];
      var messages := MessagesAbout(bo, HandleEvents(tracking, Collect(mid).events).messages);
      && (o.filled > prev.filled <==> exists m :: m in messages && m.FillNote?)
      && (o.filled > prev.filled ==> messages == [FillNote(
            L.FillMessage(bo, o.filled, o.AvgEntry().GetOr(0.0), o.status, Walked(o.fillLevels)))])
      && (o.status == CANCELED && prev.status != CANCELED ==>
            ((exists m :: m in messages && m.CancelNote?) <==> !FillsAndCancels(o, prev)))
  {
    BatchMessages(tracking, mid, i);
    hide HandleEvents, Collect, MessagesAbout, EventsFor, FirstOf, OneOrderEach, DistinctIds;
    var o := mid.orders[i];
    FirstOfCases(o, Previous(mid.reported, o.terms.id), tracking[o.terms.id]);
    var messages := MessagesAbout(tracking[o.terms.id], HandleEvents(tracking, Collect(mid).events).messages);
    assert messages != [] ==> messages[0] in messages;
  }

  // ---------- Placement ----------

  function Bare(e: Event): Event {
    e.(levels := [])
  }

  lemma PlacedFrom(m: Order, bo: nat)
    requires m.filled >= 0.0
    ensures var prev := Report(0.0, PENDING);
      var events, messages := EventsFor(m, prev), PlacedMessages(AfterReport(m, prev), bo);
      && |messages| == |events|
      && forall k :: 0 <= k < |events| ==> messages[k] == MessageOf(Bare(events[k]), bo)
  {
  }

  /**
   The events of a placement find the order not tracked yet and are dropped; what the consumer
   publishes in their stead is the same, event for event, but without the levels of the fill.
   */
  lemma PlacementPublished(b: Book, terms: Terms, quantity: real, tp: Option<real>, sl: Option<real>, bo: nat)
    requires WellBook(b) && FreshId(b, terms.id) && quantity > 0.0
    ensures var out := Place(b, NewOrder(terms, quantity, tp, sl));
      && |out.book.orders| == |b.orders| + 1
      && var messages, events := PlacedMessages(out.book.orders[|b.orders|], bo), EventsAbout(terms.id, out.events);
         && |messages| == |events|
         && forall k :: 0 <= k < |events| ==> messages[k] == MessageOf(Bare(events[k]), bo)
  {
    var op := PlaceOrder(terms, quantity, tp, sl);
    TellerBusy(b, op);
    var mid, n := Teller(b, op).value, |b.orders|;
    BusyParts(mid);
    BusyFilled(mid, n);
    assert Accounts.Roster(b, op)[n] == NewOrder(terms, quantity, tp, sl);
    assert mid.orders[n].terms == terms;
    hide WellBook, BusyBook, Matched, ImmediateExit, CollectEvents, EventsAbout, ReportAll, PlacedMessages, EventsFor,
      AfterReport;
    CollectedAbout(mid.orders, mid.reported, n);
    assert Previous(mid.reported, terms.id) == Report(0.0, PENDING);
    PlacedFrom(mid.orders[n], bo);
  }

  lemma BusyFilled(b: Book, i: nat)
    requires BusyBook(b) && i < |b.orders|
    ensures b.orders[i].filled >= 0.0
  {
    assert OrderOk(b.orders[i]);
  }

  // ---------- How long an order is tracked ----------

  /** An order stays tracked exactly until the book first tells that it is filled or cancelled. */
  lemma {:induction false} TrackedExactly(tracking: Tracking, events: seq<Event>, id: OrderId)
    ensures var h := HandleEvents(tracking, events);
      && (id in h.tracking <==>
            id in tracking && forall e :: e in events && e.id == id ==> e.status != FILLED && e.status != CANCELED)
      && (id in h.tracking ==> h.tracking[id] == tracking[id])
  {
    hide MessageOf;
    if events != [] {
      var n := |events| - 1;
      TrackedExactly(tracking, events[..n], id);
      assert events == events[..n] + [events[n]];
    }
  }

  // ---------- Whose cancellation gets lost ----------

  /** A MARKET order cancelled in its turn was not filled entirely. */
  lemma CancelledInPart(book: Ladder, o: Order)
    requires OrderOk(o) && Positive(book) && o.Live() && o.terms.isMarket
    ensures var o' := Turn(book, o).order;
      o'.status == CANCELED ==> o'.filled < o'.quantity
  {
    TurnUnfolds(book, o);
    WithReferenceOk(o, book);
    var o1 := WithReference(o, book);
    var ks, bound := BestFirst(Consumed(o.terms.side), book.Keys), SlippageBound(o1, book);
    assert o1.status != CANCELED;
    SweepOrder(ks, book, o1, bound);
    Expiry.SweepNeverCancels(ks, book, o1, bound);
    assert ProgressOk(Sweep(ks, book, o1, bound).order);
    hide Sweep, Matching.Turn, SlippageBound, WithReference;
  }

  lemma LastCancelsInPart(orders: seq<Order>, n: nat, sides: Sides)
    requires 0 < n <= |orders| && AllOk(orders) && Positive(sides.bids) && Positive(sides.asks)
    requires orders[n - 1].Live() && orders[n - 1].terms.isMarket
    ensures var prev, o := Pass(orders, n - 1, sides), orders[n - 1];
      var o' := Turn(prev.sides.On(o.terms.side), o).order;
      o'.status == CANCELED ==> o'.filled < o'.quantity
  {
    hide Pass, Matching.Turn, OrdersAdvance, SidesDrained, AllOk, OrderOk, Positive;
    var prev := Pass(orders, n - 1, sides);
    PassSound(orders, n - 1, sides);
    SidesPositive(sides, orders[..n - 1], prev.orders, prev.sides);
    AllOkAt(orders, n - 1);
    CancelledInPart(prev.sides.On(orders[n - 1].terms.side), orders[n - 1]);
  }

  lemma {:induction false} PassCancelsInPart(orders: seq<Order>, n: nat, sides: Sides, i: nat)
    requires i < n <= |orders| && AllOk(orders) && Positive(sides.bids) && Positive(sides.asks)
    requires orders[i].Live() && orders[i].terms.isMarket
    ensures var o' := Pass(orders, n, sides).orders[i];
      o'.status == CANCELED ==> o'.filled < o'.quantity
  {
    hide Pass, Matching.Turn, AllOk, Positive;
    PassUnfolds(orders, n, sides);
    if i < n - 1 {
      PassCancelsInPart(orders, n - 1, sides, i);
    } else {
      LastCancelsInPart(orders, n, sides);
    }
  }

  /** The cancellation of a LIMIT order is never told together with a fill of it by a matching pass. */
  lemma LimitKeepsItsCancel(b: Book, now: int, i: nat)
    requires WellBook(b) && i < |b.orders| && !b.orders[i].terms.isMarket
    ensures var mid := Rematch(b, now);
      && |mid.orders| == |b.orders|
      && !FillsAndCancels(mid.orders[i], Previous(b.reported, b.orders[i].terms.id))
  {
    var orders := ExpireOrders(b.orders, now);
    Accounts.ExpiredAt(b, now, i);
    Accounts.RematchOrders(b, now);
    assert ReportOk(b.orders[i], b.reported) && b.orders[i].fillLevels == [];
    hide WellBook, Rematch, Pass, ExpireOrders;
    NothingNew(b.orders[i], b.reported);
    NoFillsQty();
    if !(b.expired || b.Stale(now)) {
      Expiry.PassKeepsLimits(orders, |orders|, b.sides, i);
    }
  }

  lemma NoFillsQty()
    ensures Qty([]) == 0.0
  {
  }

  lemma NothingNew(o: Order, reported: map<OrderId, Report>)
    requires ReportOk(o, reported) && o.fillLevels == []
    ensures o.filled == Previous(reported, o.terms.id).filled || o.status == FILLED
  {
  }

  /**
   A MARKET order waiting for a book to fill from loses its cancellation in the pass that fills it,
   exactly when that pass fills it only in part.
   */
  lemma MarketLosesItsCancel(b: Book, now: int, i: nat)
    requires WellBook(b) && i < |b.orders| && b.orders[i].terms.isMarket && b.orders[i].Live()
    ensures var mid := Rematch(b, now);
      && |mid.orders| == |b.orders|
      && var o := mid.orders[i];
         FillsAndCancels(o, Previous(b.reported, b.orders[i].terms.id)) <==> 0.0 < o.filled < o.quantity
  {
    var prev := Previous(b.reported, b.orders[i].terms.id);
    assert UntouchedIfMarket(b.orders[i]) && ReportOk(b.orders[i], b.reported) && b.orders[i].fillLevels == [];
    NothingNew(b.orders[i], b.reported);
    RematchBusy(b, now);
    RematchSettlesMarket(b, now, i);
    RematchCancelsInPart(b, now, i);
    var o := Rematch(b, now).orders[i];
    assert OrderOk(o);
    hide WellBook, Rematch, BusyBook;
  }

  lemma RematchCancelsInPart(b: Book, now: int, i: nat)
    requires WellBook(b) && i < |b.orders| && b.orders[i].terms.isMarket && b.orders[i].Live()
    ensures var mid := Rematch(b, now);
      |mid.orders| == |b.orders| && (mid.orders[i].status == CANCELED ==> mid.orders[i].filled < mid.orders[i].quantity)
  {
    var orders := ExpireOrders(b.orders, now);
    Accounts.ExpiredBusy(b, now);
    Accounts.ExpiredAt(b, now, i);
    Accounts.OrdersAllOk(orders);
    Accounts.RematchOrders(b, now);
    RematchBusy(b, now);
    assert OrderOk(b.orders[i]) && UntouchedIfMarket(b.orders[i]);
    assert orders[i].filled == 0.0 < orders[i].quantity by {
      hide WellBook, Rematch, Pass;
      AllOkAt(orders, i);
      assert Accounts.Moves(b.orders[i], [], [], orders[i]);
      NoFillsQty();
    }
    hide WellBook, Rematch, Pass, ExpireOrders, OrdersOk;
    if !(b.expired || b.Stale(now)) && orders[i].Live() {
      PassCancelsInPart(orders, |orders|, b.sides, i);
    } else if !(b.expired || b.Stale(now)) {
      PassDead(orders, |orders|, b.sides, i);
    }
  }

  lemma {:induction false} PassDead(orders: seq<Order>, n: nat, sides: Sides, i: nat)
    requires i < n <= |orders| && !orders[i].Live()
    ensures Pass(orders, n, sides).orders[i] == orders[i]
  {
    PassUnfolds(orders, n, sides);
    hide Pass, Sweep;
    if i < n - 1 {
      PassDead(orders, n - 1, sides, i);
    }
  }

  /** After a pass a MARKET order that has been filled is finished. */
  lemma RematchSettlesMarket(b: Book, now: int, i: nat)
    requires WellBook(b) && i < |b.orders| && b.orders[i].terms.isMarket
    ensures var mid := Rematch(b, now); |mid.orders| == |b.orders| && UntouchedIfMarket(mid.orders[i])
  {
    RematchBusy(b, now);
    assert MarketUntouched(Rematch(b, now).orders);
    hide WellBook, Rematch;
  }

  // ---------- What the ledger makes of it ----------

  /**
   A trade whose fill came with status CANCELED and whose cancellation was lost still counts as
   queued: at settlement it is cancelled with a full refund, though shares were bought for it.
   */
  lemma LostCancelRefunds(l: L.Ledger, m: L.FillMessage, now: int, later: int, candles: L.Candles)
    requires L.Linked(l) && m.id < |l.trades| && m.status == Status.CANCELED
    requires WaitsAt(l.trades[m.id], later)
    ensures var filled := L.HandleFill(l, m, now, None);
      && filled.trades[m.id].shares == Some(m.filled)
      && L.DoJob(filled, L.SettleJob, m.id, later, candles) == Some(L.RefundTrade(filled, m.id, L.Canceled))
  {
  }

  /** A trade waiting in the engine whose settlement is due. */
  predicate WaitsAt(t: L.Trade, later: int) {
    && t.result == L.Pending && t.engineStatus == L.Queued && !t.closed
    && t.settlementAt.Some? && t.settlementAt.value <= later
  }

  /**
   The whole chain: a matching run fills a waiting MARKET order in part; the consumer publishes the
   fill and loses the cancellation; the ledger records the shares and at settlement refunds the
   trade whole.
   */
  lemma LostCancelChain(tracking: Tracking, b: Book, now: int, i: nat, l: L.Ledger, later: int, candles: L.Candles)
    requires WellBook(b) && i < |b.orders| && b.orders[i].terms.isMarket && b.orders[i].Live()
    requires OneOrderEach(tracking) && b.orders[i].terms.id in tracking
    requires |Rematch(b, now).orders| == |b.orders|
    requires 0.0 < Rematch(b, now).orders[i].filled < Rematch(b, now).orders[i].quantity
    requires var bo := tracking[b.orders[i].terms.id];
      L.Linked(l) && bo < |l.trades| && WaitsAt(l.trades[bo], later)
    ensures var bo, o := tracking[b.orders[i].terms.id], Rematch(b, now).orders[i];
      var messages := MessagesAbout(bo, HandleEvents(tracking, Collect(Rematch(b, now)).events).messages);
      && |messages| == 1 && messages[0].FillNote?
      && var filled := L.HandleFill(l, messages[0].fill, now, None);
         && bo < |filled.trades| && filled.trades[bo].shares == Some(o.filled)
         && filled.trades[bo].bot < |filled.bots|
         && L.DoJob(filled, L.SettleJob, bo, later, candles) == Some(L.RefundTrade(filled, bo, L.Canceled))
  {
    var mid := Rematch(b, now);
    RematchBusy(b, now);
    BusyParts(mid);
    RematchReported(b, now);
    MarketLosesItsCancel(b, now, i);
    assert mid.orders[i].terms == b.orders[i].terms;
    hide WellBook, Rematch, BusyBook, HandleEvents, Collect, MessagesAbout, OneOrderEach, DistinctIds;
    CancelLostExactly(tracking, mid, i);
    var bo, o := tracking[b.orders[i].terms.id], mid.orders[i];
    LostCancelRefunds(l, L.FillMessage(bo, o.filled, o.AvgEntry().GetOr(0.0), o.status, Walked(o.fillLevels)),
                      now, later, candles);
  }

  // ---------- What the API queues ----------

  /** A walk that may buy something costs something. */
  lemma WalkCosts(asks: seq<Level>, cap: real, budget: real)
    requires asks != [] && W.Sizes(asks) && budget > 0.0
    ensures var w := W.Walk(asks, W.NOTHING, cap, budget);
      (w.qty > 0.0 <==> w.cost > 0.0) && w.qty >= 0.0 && 0.0 <= w.cost <= budget
  {
    W.StartOk(budget);
    W.WalkEnds(asks, W.NOTHING, cap, budget);
    W.WalkSpends(asks, W.NOTHING, cap, budget);
    W.UnderCapWorth(asks, cap);
    W.UnderCapWorth(asks[1..], cap);
    if asks[0].price > cap {
      assert W.UnderCap(asks, cap) == [] && Cost([]) == 0.0;
    }
    hide W.Walk, Cost, Worth, W.UnderCap;
  }

  /** What is queued for a new trade, against what the ledger holds of it. */
  ghost predicate QueuedAsHeld(q: L.QueueMessage, t: L.Trade) {
    && Placeable(q) && q.side == BUY
    && (t.engineStatus == L.Queued <==> q.prefilled.None?)
    && (q.prefilled.None? ==>
          && q.limit.Some? && t.limitPrice == q.limit && t.shares == None
          && q.amount == Some(t.amount) && Worth(q.quantity, q.limit.value) == t.amount)
    && (q.prefilled.Some? ==> t.avgPrice == Some(q.prefilled.value.0) && t.shares == Some(q.prefilled.value.1))
  }

  lemma QuotientPositive(a: real, b: real)
    requires a > 0.0 && b > 0.0
    ensures a / b > 0.0
  {
  }

  lemma AggressiveQueues(l: L.Ledger, req: L.OrderRequest, view: L.View)
    requires req.bot < |l.bots| && req.limit.Some? && req.amount > 0.0
    requires view.asks.Some? && view.asks.value != [] && W.Sizes(view.asks.value)
    ensures var r := L.CreateAggressive(l, req, view);
      && |r.ledger.trades| == |l.trades| + 1
      && var t := r.ledger.trades[|l.trades|];
         && (t.engineStatus == L.Queued <==> r.queued.Some? && r.queued.value.prefilled.None?)
         && (r.queued.Some? ==> r.queued.value.bo == |l.trades| && QueuedAsHeld(r.queued.value, t))
         && (r.queued.Some? && r.queued.value.prefilled.Some? && r.queued.value.limit.Some? ==>
               r.queued.value.amount == Some(req.amount - t.amount))
  {
    var asks := view.asks.value;
    WalkCosts(asks, req.limit.value, req.amount);
    var w := W.Walk(asks, W.NOTHING, req.limit.value, req.amount);
    if w.qty > 0.0 {
      QuotientPositive(w.cost, w.qty);
    }
    AffordOk(req.amount - w.cost, req.limit.value);
    hide W.Walk, Worth, Afford, F.TakerFee;
  }

  lemma PassiveQueues(l: L.Ledger, req: L.OrderRequest, view: L.View)
    requires req.bot < |l.bots| && req.limit.Some? && req.amount > 0.0
    ensures var r := L.CreatePassive(l, req, view);
      && |r.ledger.trades| == |l.trades| + 1 && r.queued.Some? && r.queued.value.prefilled.None?
      && r.queued.value.bo == |l.trades| && r.ledger.trades[|l.trades|].engineStatus == L.Queued
      && QueuedAsHeld(r.queued.value, r.ledger.trades[|l.trades|])
  {
    AffordOk(req.amount, req.limit.value);
    hide Worth, Afford;
  }

  lemma MarketQueues(l: L.Ledger, req: L.OrderRequest, view: L.View)
    requires req.bot < |l.bots| && req.amount > 0.0
    requires view.asks.Some? ==> W.Sizes(view.asks.value)
    requires L.CreateMarket(l, req, view).answer.Ok?
    ensures var r := L.CreateMarket(l, req, view);
      && |r.ledger.trades| == |l.trades| + 1
      && var t := r.ledger.trades[|l.trades|];
         && t.engineStatus != L.Queued
         && (r.queued.Some? ==> r.queued.value.bo == |l.trades| && r.queued.value.limit.None?
                                && r.queued.value.prefilled.Some? && QueuedAsHeld(r.queued.value, t))
  {
    var asks := view.asks.value;
    var cap := W.PriceCap(asks, req.slippage, None, req.ceiling);
    WalkCosts(asks, cap, req.amount);
    var w := W.Walk(asks, W.NOTHING, cap, req.amount);
    if w.qty > 0.0 {
      QuotientPositive(w.cost, w.qty);
    }
    hide W.Walk, W.PriceCap, Worth, F.TakerFee, Cost;
    var fill := W.MarketFill(asks, req.amount, req.slippage, None, req.fok, req.ceiling).value;
    assert fill.avgPrice == w.cost / w.qty && fill.shares == w.qty;
  }

  /**
   What order creation queues. A trade waits in the engine exactly when an unfilled order was queued
   for it, and that is always a LIMIT order for exactly the trade's amount: no MARKET order is ever
   queued unfilled. What a partly filled LIMIT order could not spend travels with a prefilled message,
   which is only watched for its bracket.
   */
  lemma QueuedExactly(l: L.Ledger, req: L.OrderRequest, view: L.View)
    requires P.Sane(P.Create(req, view)) && L.CreateOrder(l, req, view).answer.Ok?
    ensures var r := L.CreateOrder(l, req, view);
      && |r.ledger.trades| == |l.trades| + 1
      && var t := r.ledger.trades[|l.trades|];
         && (t.engineStatus == L.Queued <==> r.queued.Some? && r.queued.value.prefilled.None?)
         && (r.queued.Some? ==> r.queued.value.bo == |l.trades| && QueuedAsHeld(r.queued.value, t))
         && (r.queued.Some? && r.queued.value.prefilled.Some? && r.queued.value.limit.Some? ==>
               r.queued.value.amount == Some(req.amount - t.amount))
  {
    hide L.CreateAggressive, L.CreateMarket, L.CreatePassive, QueuedAsHeld;
    if L.Aggressive(req, view) {
      AggressiveFills(l, req, view);
      AggressiveQueues(l, req, view);
    } else if req.limit.Some? {
      PassiveQueues(l, req, view);
    } else {
      MarketQueues(l, req, view);
    }
  }

  lemma AggressiveFills(l: L.Ledger, req: L.OrderRequest, view: L.View)
    requires req.bot < |l.bots| && req.limit.Some? && L.CreateAggressive(l, req, view).answer.Ok?
    ensures view.asks.Some? && view.asks.value != []
  {
    hide W.Walk, F.TakerFee;
  }

  // ---------- Orders that cannot be placed ----------

  /** The ledger cancels the trade whole: its bot gets the amount, and what was bought stays on record. */
  ghost predicate CancelledWhole(l: L.Ledger, bo: nat, l': L.Ledger)
    requires L.Linked(l) && bo < |l.trades|
  {
    var t := l.trades[bo];
    && |l'.trades| == |l.trades| && |l'.bots| == |l.bots|
    && l'.trades[bo] == t.(result := L.Cancelled, profit := Some(0.0), engineStatus := L.Canceled)
    && l'.bots[t.bot].balance == l.bots[t.bot].balance + t.amount
  }

  lemma RejectionArrives(l: L.Ledger, bo: nat)
    requires L.Linked(l) && bo < |l.trades| && l.trades[bo].result == L.Pending
    ensures CancelledWhole(l, bo, L.HandleCancel(l, Rejection(bo).cancel))
  {
  }

  lemma NewTradeIsPending(l: L.Ledger, req: L.OrderRequest, view: L.View)
    requires L.Linked(l) && P.Sane(P.Create(req, view)) && L.CreateOrder(l, req, view).answer.Ok?
    ensures var r := L.CreateOrder(l, req, view).ledger;
      L.Linked(r) && |r.trades| == |l.trades| + 1 && r.trades[|l.trades|].result == L.Pending
  {
    P.CreateFollows(l, req, view);
    QueuedExactly(l, req, view);
    hide L.Validate, W.Walk, F.TakerFee, W.MarketFill, W.LimitFillOf, QueuedAsHeld;
  }

  /**
   The chain from the API to the ledger when the engine cannot place what was queued, because the
   session does not accept it or the book has expired. Exactly one message is published: a
   cancellation that claims no fills. The ledger then cancels the new trade and gives its whole
   amount back. Bought shares are given up by this exactly when the message was prefilled.
   */
  lemma RejectionCancelsPosition(l: L.Ledger, req: L.OrderRequest, view: L.View, tracking: Tracking, b: Book,
                                 id: OrderId, bestAsk: Option<Price>, now: nat, accepts: bool)
    requires L.Linked(l) && P.Sane(P.Create(req, view))
    requires L.CreateOrder(l, req, view).answer.Ok? && L.CreateOrder(l, req, view).queued.Some?
    requires !accepts || b.expired
    ensures var created := L.CreateOrder(l, req, view);
      var q := created.queued.value;
      && Placeable(q) && L.Linked(created.ledger) && q.bo < |created.ledger.trades|
      && Process(tracking, b, q, id, bestAsk, now, accepts) ==
           Processed(Handled(tracking, [CancelNote(L.CancelMessage(q.bo, 0.0, 0.0))]), b)
      && CancelledWhole(created.ledger, q.bo, L.HandleCancel(created.ledger, Rejection(q.bo).cancel))
      && (created.ledger.trades[q.bo].shares.Some? <==> q.prefilled.Some?)
      && (q.prefilled.Some? ==>
        created.ledger.trades[q.bo].shares == Some(q.prefilled.value.1) && q.prefilled.value.1 > 0.0)
  {
    QueuedExactly(l, req, view);
    NewTradeIsPending(l, req, view);
    hide L.CreateOrder, L.Linked;
    RejectionArrives(L.CreateOrder(l, req, view).ledger, |l.trades|);
  }

  // ---------- Expiry of queued orders ----------

  /**
   An order for a future session lives at least until that session settles, whatever time to live
   the user asked for; without one it lives exactly that long, or a second. An order for the current
   session without a time to live expires with its candle.
   */
  lemma FutureOrdersOutlive(q: L.QueueMessage, now: nat)
    ensures var e := ExpireAtFor(q, now).value;
      if q.offset >= 1 && q.settlementAt.Some? then
        && e >= q.settlementAt.value && e >= now + SECOND
        && (q.ttl.None? ==> e == q.settlementAt.value || (e == now + SECOND && e >= q.settlementAt.value))
      else if q.ttl.Some? then e == now + q.ttl.value * SECOND
      else e > now && e == Calendar.CalcSettlementTime(q.timeframe, now, 0)
  {
    Calendar.CalendarsAgree(q.timeframe, now, 0);
    hide Calendar.CalcSettlementTime, Calendar.CandleExpireAt;
  }
}
