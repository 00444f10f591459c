/**
 What an operation publishes about an order is exactly what it did to that order: fills in its
 events, sales in its exits.
 */
module Accounts {
  import opened Ladders
  import opened Orders
  import opened Matching
  import opened Passes
  import opened Exits
  import opened Books
  import opened BookSafety
  import opened BookSteps

  /** Fill levels published for one order. */
  function FillsById(id: OrderId, events: seq<Event>): seq<Level> {
    if events == [] then []
    else
      var last := events[|events| - 1];
      FillsById(id, events[..|events| - 1]) + if last.id == id then last.levels else []
  }

  /** Exit levels published for one order. */
  function SalesById(id: OrderId, exits: seq<Exit>): seq<Level> {
    if exits == [] then []
    else
      var last := exits[|exits| - 1];
      SalesById(id, exits[..|exits| - 1]) + if last.id == id then last.levels else []
  }

  lemma {:induction false} FillsByIdConcat(id: OrderId, a: seq<Event>, b: seq<Event>)
    ensures FillsById(id, a + b) == FillsById(id, a) + FillsById(id, b)
  {
    if b == [] {
      assert a + b == a;
    } else {
      var n := |b| - 1;
      FillsByIdConcat(id, a, b[..n]);
      assert (a + b)[..|a + b| - 1] == a + b[..n];
    }
  }

  lemma {:induction false} SalesByIdConcat(id: OrderId, a: seq<Exit>, b: seq<Exit>)
    ensures SalesById(id, a + b) == SalesById(id, a) + SalesById(id, b)
  {
    if b == [] {
      assert a + b == a;
    } else {
      var n := |b| - 1;
      SalesByIdConcat(id, a, b[..n]);
      assert (a + b)[..|a + b| - 1] == a + b[..n];
    }
  }

  /** `o` became `o'` by exactly these fills and sales. */
  ghost predicate Moves(o: Order, fills: seq<Level>, sales: seq<Level>, o': Order) {
    && Evolves(o, o')
    && o'.filled == o.filled + Qty(fills)
    && o'.entryCost == o.entryCost + Cost(fills)
    && o'.Exited() == o.Exited() + Qty(sales)
    && o'.Proceeds() == o.Proceeds() + Cost(sales)
  }

  lemma MovesTrans(o0: Order, f1: seq<Level>, s1: seq<Level>, o1: Order,
                   f2: seq<Level>, s2: seq<Level>, o2: Order)
    requires Moves(o0, f1, s1, o1) && Moves(o1, f2, s2, o2)
    ensures Moves(o0, f1 + f2, s1 + s2, o2)
  {
    hide Evolves, Qty, Cost;
    EvolvesTrans(o0, o1, o2);
    QtyConcat(f1, f2);
    QtyConcat(s1, s2);
  }

  lemma StatusMoves(o: Order, o': Order)
    requires StatusOnly(o, o')
    ensures Moves(o, [], [], o')
  {
  }

  lemma SameMoves(o: Order)
    ensures Moves(o, [], [], o)
  {
  }

  lemma TurnMoves(o: Order, o': Order)
    requires OrderEffect(o, NewFills(o, o'), o')
    ensures Moves(o, NewFills(o, o'), [], o')
  {
    hide Evolves;
  }

  lemma ExitMoves(o: Order, sales: seq<Level>, o': Order)
    requires ExitEffect(o, sales, o')
    ensures Moves(o, [], sales, o')
  {
    hide Evolves;
  }

  lemma ToldMoves(o: Order, fills: seq<Level>, sales: seq<Level>, o': Order)
    requires Moves(o, fills, sales, o')
    ensures Moves(o, fills, sales, o'.(fillLevels := []))
  {
  }

  /** Orders at the same place in the two lists differ by what was published about them. */
  ghost predicate Aligned(before: seq<Order>, events: seq<Event>, exits: seq<Exit>, after: seq<Order>) {
    && |before| == |after|
    && forall i :: 0 <= i < |before| ==>
         Moves(before[i], FillsById(before[i].terms.id, events), SalesById(before[i].terms.id, exits), after[i])
  }

  /** Everything published is about orders in the list. */
  ghost predicate About(orders: seq<Order>, events: seq<Event>, exits: seq<Exit>) {
    && (forall e :: e in events ==> !Unused(orders, e.id))
    && (forall x :: x in exits ==> !Unused(orders, x.id))
  }

  lemma {:induction false} NotAbout(id: OrderId, orders: seq<Order>, events: seq<Event>, exits: seq<Exit>)
    requires About(orders, events, exits) && Unused(orders, id)
    ensures FillsById(id, events) == [] && SalesById(id, exits) == []
    decreases |events| + |exits|
  {
    hide Unused;
    if events != [] {
      assert events[|events| - 1] in events;
      NotAbout(id, orders, events[..|events| - 1], exits);
    } else if exits != [] {
      assert exits[|exits| - 1] in exits;
      NotAbout(id, orders, events, exits[..|exits| - 1]);
    }
  }

  // ---------- Collecting ----------

  lemma EventsForFills(id: OrderId, o: Order, reported: map<OrderId, Report>)
    requires ReportOk(o, reported)
    ensures FillsById(id, EventsFor(o, Previous(reported, o.terms.id))) ==
      if o.terms.id == id then o.fillLevels else []
  {
    ReportedFillsGrow(o, reported);
    hide ReportOk;
    var fill := Event(o.terms.id, FILL, o.terms.side, o.filled, o.AvgEntry(), o.status, o.fillLevels);
    var cancel := Event(o.terms.id, CANCEL, o.terms.side, o.filled, o.AvgEntry(), o.status, []);
    OneFill(id, fill);
    OneFill(id, cancel);
    FillsByIdConcat(id, [fill], [cancel]);
    assert [fill] + [] == [fill] && [] + [cancel] == [cancel];
  }

  lemma OneFill(id: OrderId, e: Event)
    ensures FillsById(id, [e]) == if e.id == id then e.levels else []
  {
    assert [e][..0] == [];
    assert FillsById(id, [e][..0]) == [];
  }

  lemma OneSale(id: OrderId, x: Exit)
    ensures SalesById(id, [x]) == if x.id == id then x.levels else []
  {
    assert [x][..0] == [];
    assert SalesById(id, [x][..0]) == [];
  }

  lemma {:induction false} CollectedAbsent(id: OrderId, orders: seq<Order>, reported: map<OrderId, Report>)
    requires ReportsOk(orders, reported) && Unused(orders, id)
    ensures FillsById(id, CollectEvents(orders, reported)) == []
  {
    hide ReportOk, EventsFor;
    if orders != [] {
      var n := |orders| - 1;
      assert ReportOk(orders[n], reported) && orders[n].terms.id != id;
      CollectedAbsent(id, orders[..n], reported);
      EventsForFills(id, orders[n], reported);
      FillsByIdConcat(id, CollectEvents(orders[..n], reported),
                      EventsFor(orders[n], Previous(reported, orders[n].terms.id)));
    }
  }

  /** For each order, what is told is what was waiting. */
  lemma {:induction false} CollectedFor(orders: seq<Order>, reported: map<OrderId, Report>, i: nat)
    requires ReportsOk(orders, reported) && DistinctIds(orders) && i < |orders|
    ensures FillsById(orders[i].terms.id, CollectEvents(orders, reported)) == orders[i].fillLevels
  {
    hide ReportOk, EventsFor;
    var n, id := |orders| - 1, orders[i].terms.id;
    assert ReportOk(orders[n], reported);
    EventsForFills(id, orders[n], reported);
    FillsByIdConcat(id, CollectEvents(orders[..n], reported),
                    EventsFor(orders[n], Previous(reported, orders[n].terms.id)));
    if i < n {
      assert orders[..n][i] == orders[i];
      CollectedFor(orders[..n], reported, i);
    } else {
      CollectedAbsent(id, orders[..n], reported);
    }
  }

  lemma {:induction false} CollectAbout(orders: seq<Order>, reported: map<OrderId, Report>)
    ensures forall e :: e in CollectEvents(orders, reported) ==> !Unused(orders, e.id)
  {
    if orders != [] {
      var n := |orders| - 1;
      CollectAbout(orders[..n], reported);
      forall e | e in CollectEvents(orders, reported)
        ensures !Unused(orders, e.id)
      {
        if e in CollectEvents(orders[..n], reported) {
          assert !Unused(orders[..n], e.id);
        } else {
          assert e.id == orders[n].terms.id;
        }
      }
    }
  }

  /**
   Fills made by `mid` since `before`, and sales already published, are aligned once collected.
   */
  lemma CollectAligned(before: seq<Order>, mid: Book, exits: seq<Exit>)
    requires BusyBook(mid) && |before| == |mid.orders|
    requires forall i :: 0 <= i < |before| ==>
      && mid.orders[i].terms == before[i].terms
      && Moves(before[i], mid.orders[i].fillLevels, SalesById(before[i].terms.id, exits), mid.orders[i])
    ensures Aligned(before, Collect(mid).events, exits, Collect(mid).book.orders)
  {
    CollectSound(mid);
    var out := Collect(mid);
    assert ReportsOk(mid.orders, mid.reported) && DistinctIds(mid.orders);
    hide Moves, WellBook, BusyBook, ReportsOk, DistinctIds;
    forall i | 0 <= i < |before|
      ensures Moves(before[i], FillsById(before[i].terms.id, out.events),
                    SalesById(before[i].terms.id, exits), out.book.orders[i])
    {
      CollectedFor(mid.orders, mid.reported, i);
      ToldMoves(before[i], mid.orders[i].fillLevels, SalesById(before[i].terms.id, exits), mid.orders[i]);
    }
  }

  // ---------- Matching ----------

  /** An expired order and then a turn: what it is waiting to tell is what it did. */
  lemma RematchMoves(b: Book, now: int, i: nat)
    requires WellBook(b) && i < |b.orders|
    ensures var r := Rematch(b, now);
      |r.orders| == |b.orders| && Moves(b.orders[i], r.orders[i].fillLevels, [], r.orders[i])
  {
    hide *;
    var orders := ExpireOrders(b.orders, now);
    ExpiredBusy(b, now);
    ExpiredAt(b, now, i);
    RematchOrders(b, now);
    if !(b.expired || b.Stale(now)) {
      PassBusy(orders, b.sides, b.reported);
      var r := Pass(orders, |orders|, b.sides);
      AdvanceAt(orders, r.orders, i);
      TurnMoves(orders[i], r.orders[i]);
      MovesTrans(b.orders[i], [], [], orders[i], NewFills(orders[i], r.orders[i]), [], r.orders[i]);
      FirstFills(orders[i], r.orders[i]);
      var none: seq<Level> := [];
      assert none + NewFills(orders[i], r.orders[i]) == NewFills(orders[i], r.orders[i]);
      assert none + none == none;
    }
  }

  lemma ExpiredBusy(b: Book, now: int)
    requires WellBook(b)
    ensures OrdersOk(ExpireOrders(b.orders, now)) && SidesOk(b.sides)
    ensures ReportsOk(ExpireOrders(b.orders, now), b.reported)
  {
    hide OrdersOk, ReportsOk, Quiet;
    assert AllOk(b.orders) by { OrdersAllOk(b.orders); }
    ExpireStatusOnly(b.orders, now);
    StatusOnlyKeeps(b.orders, ExpireOrders(b.orders, now));
    ReportsStatusOnly(b.orders, ExpireOrders(b.orders, now), b.reported);
  }

  lemma OrdersAllOk(orders: seq<Order>)
    requires OrdersOk(orders)
    ensures AllOk(orders)
  {
  }

  lemma ExpiredAt(b: Book, now: int, i: nat)
    requires WellBook(b) && i < |b.orders|
    ensures var orders := ExpireOrders(b.orders, now);
      i < |orders| && orders[i].fillLevels == [] && Moves(b.orders[i], [], [], orders[i])
  {
    hide OrderOk, ReportsOk;
    ExpireStatusOnly(b.orders, now);
    var orders := ExpireOrders(b.orders, now);
    assert StatusOnly(b.orders[i], orders[i]);
    StatusMoves(b.orders[i], orders[i]);
  }

  lemma RematchOrders(b: Book, now: int)
    ensures var orders := ExpireOrders(b.orders, now);
      Rematch(b, now).orders ==
        if b.expired || b.Stale(now) then orders else Pass(orders, |orders|, b.sides).orders
  {
  }

  lemma AdvanceAt(before: seq<Order>, after: seq<Order>, i: nat)
    requires OrdersAdvance(before, after) && i < |before|
    ensures OrderEffect(before[i], NewFills(before[i], after[i]), after[i])
  {
  }

  lemma FirstFills(o: Order, o': Order)
    requires o.fillLevels == [] && OrderEffect(o, NewFills(o, o'), o')
    ensures NewFills(o, o') == o'.fillLevels
  {
  }

  lemma {:induction false} NoSales(id: OrderId)
    ensures SalesById(id, []) == [] && FillsById(id, []) == []
  {
  }

  lemma RunAligned(b: Book, now: int)
    requires WellBook(b)
    ensures var told := Collect(Rematch(b, now));
      Aligned(b.orders, told.events, [], told.book.orders)
  {
    RematchBusy(b, now);
    var mid := Rematch(b, now);
    hide WellBook, Rematch, Moves, BusyBook;
    forall i | 0 <= i < |b.orders|
      ensures Moves(b.orders[i], mid.orders[i].fillLevels, SalesById(b.orders[i].terms.id, []), mid.orders[i])
    {
      RematchMoves(b, now, i);
    }
    CollectAligned(b.orders, mid, []);
  }

  // ---------- Exits ----------

  lemma DoExitAligned(b: Book, i: nat, bid: real, trigger: Trigger)
    requires BusyBook(b) && i < |b.orders| && !b.orders[i].closed && b.orders[i].filled > 0.0
    ensures var out := DoExit(b, i, bid, trigger);
      && Aligned(b.orders, [], out.exits, out.book.orders)
      && About(b.orders, [], out.exits)
  {
    assert OrderOk(b.orders[i]) && DistinctIds(b.orders);
    ExitSound(b.sides.bids, b.orders[i], bid, trigger);
    var out := DoExit(b, i, bid, trigger);
    var x := ExecuteExit(b.sides.bids, b.orders[i], bid, trigger);
    ExitMoves(b.orders[i], x.record.levels, x.order);
    assert out.exits == [x.record] && x.record.id == b.orders[i].terms.id;
    hide OrderOk, ExecuteExit, Moves, BusyBook, FillsById, SalesById, ExitEffect;
    forall j | 0 <= j < |b.orders|
      ensures Moves(b.orders[j], FillsById(b.orders[j].terms.id, []),
                    SalesById(b.orders[j].terms.id, out.exits), out.book.orders[j])
    {
      OneSale(b.orders[j].terms.id, x.record);
      NoSales(b.orders[j].terms.id);
      SameMoves(b.orders[j]);
      assert j == i || b.orders[j].terms.id != b.orders[i].terms.id;
    }
  }

  lemma NothingAligned(orders: seq<Order>)
    ensures Aligned(orders, [], [], orders) && About(orders, [], [])
  {
  }

  lemma TryExitAligned(b: Book, i: nat, bid: real)
    requires BusyBook(b) && i < |b.orders|
    ensures var out := TryExit(b, i, bid);
      Aligned(b.orders, [], out.exits, out.book.orders) && About(b.orders, [], out.exits)
  {
    hide BusyBook, Aligned, About;
    NothingAligned(b.orders);
    var o := b.orders[i];
    if o.EligibleForBracket() && Fires(o, bid).Some? {
      DoExitAligned(b, i, bid, Fires(o, bid).value);
    }
  }

  lemma AlignedExitsTrans(o0: seq<Order>, x1: seq<Exit>, o1: seq<Order>, x2: seq<Exit>, o2: seq<Order>)
    requires Aligned(o0, [], x1, o1) && Aligned(o1, [], x2, o2)
    requires About(o0, [], x1) && About(o1, [], x2)
    ensures Aligned(o0, [], x1 + x2, o2) && About(o0, [], x1 + x2)
  {
    hide Moves, FillsById, SalesById;
    forall i | 0 <= i < |o0|
      ensures Moves(o0[i], FillsById(o0[i].terms.id, []), SalesById(o0[i].terms.id, x1 + x2), o2[i])
      ensures o1[i].terms.id == o0[i].terms.id
    {
      var id := o0[i].terms.id;
      MovesTerms(o0[i], FillsById(id, []), SalesById(id, x1), o1[i]);
      MovesTrans(o0[i], FillsById(id, []), SalesById(id, x1), o1[i],
                 FillsById(id, []), SalesById(id, x2), o2[i]);
      SalesByIdConcat(id, x1, x2);
      NoSales(id);
      assert FillsById(id, []) + FillsById(id, []) == FillsById(id, []);
    }
    forall x | x in x2
      ensures !Unused(o0, x.id)
    {
      var i :| 0 <= i < |o1| && o1[i].terms.id == x.id;
      assert o0[i].terms.id == x.id;
    }
  }

  lemma MovesTerms(o: Order, fills: seq<Level>, sales: seq<Level>, o': Order)
    requires Moves(o, fills, sales, o')
    ensures o'.terms == o.terms
  {
  }

  lemma {:induction false} MonitorAligned(b: Book, n: nat, bid: real)
    requires BusyBook(b) && n <= |b.orders|
    ensures var out := MonitorFirst(b, n, bid);
      Aligned(b.orders, [], out.exits, out.book.orders) && About(b.orders, [], out.exits)
  {
    hide BusyBook, Aligned, About, TryExit;
    if n == 0 {
      NothingAligned(b.orders);
    } else {
      var prev := MonitorFirst(b, n - 1, bid);
      MonitorAligned(b, n - 1, bid);
      MonitorKeeps(b, n - 1, bid);
      TryExitAligned(prev.book, n - 1, bid);
      var next := TryExit(prev.book, n - 1, bid);
      AlignedExitsTrans(b.orders, prev.exits, prev.book.orders, next.exits, next.book.orders);
    }
  }

  // ---------- Every operation ----------

  /** The orders an operation starts from: those in the book, and the one it places. */
  function Roster(b: Book, op: Op): seq<Order> {
    match op
    case PlaceOrder(terms, quantity, tp, sl) => b.orders + [NewOrder(terms, quantity, tp, sl)]
    case PlaceFilled(terms, filled, tp, sl) => b.orders + [PrefilledOrder(terms, filled, tp, sl)]
    case _ => b.orders
  }

  /** The orders an operation ends with, before any that are finished are dropped. */
  function Unpruned(b: Book, op: Op): seq<Order> {
    match op
    case Match(now) => Collect(Rematch(b, now)).book.orders
    case _ => Step(b, op).book.orders
  }

  lemma StatusAligned(before: seq<Order>, after: seq<Order>)
    requires AllStatusOnly(before, after)
    ensures Aligned(before, [], [], after)
  {
    hide Moves, StatusOnly;
    forall i | 0 <= i < |before|
      ensures Moves(before[i], FillsById(before[i].terms.id, []), SalesById(before[i].terms.id, []), after[i])
    {
      StatusMoves(before[i], after[i]);
    }
  }

  /** A quiet book collected: nothing is filled, cancellations may be told. */
  lemma QuietCollectAligned(b: Book, mid: Book)
    requires WellBook(mid) && AllStatusOnly(b.orders, mid.orders)
    ensures var out := Collect(mid);
      Aligned(b.orders, out.events, [], out.book.orders) && About(b.orders, out.events, [])
  {
    hide OrdersOk, ReportsOk, Moves, StatusOnly, BusyBook;
    forall i | 0 <= i < |b.orders|
      ensures mid.orders[i].terms == b.orders[i].terms
      ensures Moves(b.orders[i], mid.orders[i].fillLevels, SalesById(b.orders[i].terms.id, []), mid.orders[i])
    {
      StatusMoves(b.orders[i], mid.orders[i]);
      MovesTerms(b.orders[i], [], [], mid.orders[i]);
    }
    assert BusyBook(mid) by { WellIsBusy(mid); }
    CollectAligned(b.orders, mid, []);
    CollectAbout(mid.orders, mid.reported);
    SameTermsAbout(b.orders, mid.orders, Collect(mid).events);
  }

  lemma WellIsBusy(b: Book)
    requires WellBook(b)
    ensures BusyBook(b)
  {
  }

  lemma SameTermsAbout(a: seq<Order>, b: seq<Order>, events: seq<Event>)
    requires |a| == |b| && forall i :: 0 <= i < |a| ==> a[i].terms == b[i].terms
    requires forall e :: e in events ==> !Unused(b, e.id)
    ensures About(a, events, [])
  {
    forall e | e in events
      ensures !Unused(a, e.id)
    {
      var i :| 0 <= i < |b| && b[i].terms.id == e.id;
      assert a[i].terms.id == e.id;
    }
  }

  lemma ExpireBookAligned(b: Book)
    requires WellBook(b)
    ensures var out := ExpireBook(b);
      Aligned(b.orders, out.events, [], out.book.orders) && About(b.orders, out.events, [])
  {
    MapStatusOnly(b.orders, CancelOrders(b.orders));
    StatusStepKeeps(b, CancelOrders(b.orders));
    var mid := b.(expired := true, orders := CancelOrders(b.orders), sides := NO_LEVELS, raw := NO_LEVELS,
                  cache := map[]);
    assert WellBook(mid);
    QuietCollectAligned(b, mid);
  }

  lemma SweepAligned(b: Book, now: int)
    requires WellBook(b)
    ensures var out := SweepExpired(b, now);
      Aligned(b.orders, out.events, [], out.book.orders) && About(b.orders, out.events, [])
  {
    ExpireStatusOnly(b.orders, now);
    StatusStepKeeps(b, ExpireOrders(b.orders, now));
    hide WellBook, Aligned, About, Collect;
    QuietCollectAligned(b, b.(orders := ExpireOrders(b.orders, now)));
    NothingAligned(b.orders);
  }

  lemma PlaceAligned(b: Book, o: Order)
    requires WellBook(b) && OrderOk(o) && UntouchedIfMarket(o) && FreshId(b, o.terms.id)
    requires o.filled == 0.0 && o.fillLevels == [] && o.status == PENDING
    ensures var out, roster := Place(b, o), b.orders + [o];
      Aligned(roster, out.events, out.exits, out.book.orders) && About(roster, out.events, out.exits)
  {
    var m, roster := Matched(b, o), b.orders + [o];
    MatchedBusy(b, o);
    MatchedMoves(b, o);
    hide BusyBook, WellBook, OrderOk, Matched, TryExit, Moves, Collect, ImmediateExit, Aligned, About;
    ImmediateExitAligned(m, |b.orders|);
    ImmediateExitKeeps(m, |b.orders|);
    var e := ImmediateExit(m, |b.orders|);
    PlaceCollects(roster, m, e);
    CollectAbout(e.book.orders, e.book.reported);
    PlaceAbout(roster, m, e);
  }

  lemma MatchedMoves(b: Book, o: Order)
    requires WellBook(b) && OrderOk(o) && UntouchedIfMarket(o) && FreshId(b, o.terms.id)
    requires o.filled == 0.0 && o.fillLevels == [] && o.status == PENDING
    ensures var m, roster := Matched(b, o), b.orders + [o];
      && |m.orders| == |roster|
      && forall i :: 0 <= i < |roster| ==>
           m.orders[i].terms == roster[i].terms && Moves(roster[i], m.orders[i].fillLevels, [], m.orders[i])
  {
    var book := b.sides.On(o.terms.side);
    var t := Turn(book, o);
    TurnSound(book, o);
    TurnMoves(o, t.order);
    FirstFills(o, t.order);
    assert t.order.terms == o.terms;
    hide Moves, Turn, OrderOk, OrderEffect, NewFills, OrdersOk, ReportsOk;
    var m, roster := Matched(b, o), b.orders + [o];
    forall i | 0 <= i < |roster|
      ensures m.orders[i].terms == roster[i].terms && Moves(roster[i], m.orders[i].fillLevels, [], m.orders[i])
    {
      if i < |b.orders| {
        SameMoves(b.orders[i]);
      }
    }
  }

  /** An exit leaves the fills waiting to be told as they were. */
  ghost predicate SameFills(a: seq<Order>, b: seq<Order>) {
    |a| == |b| && forall i :: 0 <= i < |a| ==> b[i].fillLevels == a[i].fillLevels && b[i].terms == a[i].terms
  }

  lemma ImmediateExitAligned(b: Book, i: nat)
    requires BusyBook(b) && i < |b.orders|
    ensures var out := ImmediateExit(b, i);
      && Aligned(b.orders, [], out.exits, out.book.orders) && About(b.orders, [], out.exits)
      && SameFills(b.orders, out.book.orders)
      && out.book.reported == b.reported
  {
    ImmediateExitReports(b, i);
    ImmediateExitFills(b, i);
    hide BusyBook, Aligned, About, TryExit, SameFills;
    NothingAligned(b.orders);
    if b.sides.bids.Keys != {} {
      TryExitAligned(b, i, Best(Bid, b.sides.bids.Keys));
    }
  }

  lemma ImmediateExitFills(b: Book, i: nat)
    requires i < |b.orders|
    ensures SameFills(b.orders, ImmediateExit(b, i).book.orders)
  {
  }

  lemma PlaceCollects(roster: seq<Order>, m: Book, e: Outcome)
    requires BusyBook(e.book) && |roster| == |m.orders|
    requires forall i :: 0 <= i < |roster| ==>
      m.orders[i].terms == roster[i].terms && Moves(roster[i], m.orders[i].fillLevels, [], m.orders[i])
    requires Aligned(m.orders, [], e.exits, e.book.orders) && SameFills(m.orders, e.book.orders)
    ensures Aligned(roster, Collect(e.book).events, e.exits, Collect(e.book).book.orders)
  {
    hide Moves, BusyBook;
    forall i | 0 <= i < |roster|
      ensures e.book.orders[i].terms == roster[i].terms
      ensures Moves(roster[i], e.book.orders[i].fillLevels, SalesById(roster[i].terms.id, e.exits), e.book.orders[i])
    {
      var id := roster[i].terms.id;
      NoSales(id);
      assert Moves(m.orders[i], [], SalesById(id, e.exits), e.book.orders[i]);
      MovesTrans(roster[i], m.orders[i].fillLevels, [], m.orders[i], [], SalesById(id, e.exits), e.book.orders[i]);
      assert m.orders[i].fillLevels + [] == m.orders[i].fillLevels;
      assert [] + SalesById(id, e.exits) == SalesById(id, e.exits);
    }
    CollectAligned(roster, e.book, e.exits);
  }

  lemma PlaceAbout(roster: seq<Order>, m: Book, e: Outcome)
    requires |roster| == |m.orders| && forall i :: 0 <= i < |roster| ==> m.orders[i].terms == roster[i].terms
    requires SameFills(m.orders, e.book.orders) && About(m.orders, [], e.exits)
    requires forall v :: v in CollectEvents(e.book.orders, e.book.reported) ==> !Unused(e.book.orders, v.id)
    ensures About(roster, Collect(e.book).events, e.exits)
  {
    var events := Collect(e.book).events;
    forall v | v in events
      ensures !Unused(roster, v.id)
    {
      var i :| 0 <= i < |e.book.orders| && e.book.orders[i].terms.id == v.id;
      assert roster[i].terms.id == v.id;
    }
    forall x | x in e.exits
      ensures !Unused(roster, x.id)
    {
      var i :| 0 <= i < |m.orders| && m.orders[i].terms.id == x.id;
      assert roster[i].terms.id == x.id;
    }
  }

  lemma PlaceFilledAligned(b: Book, o: Order)
    requires WellBook(b) && OrderOk(o) && UntouchedIfMarket(o) && FreshId(b, o.terms.id)
    requires o.status == FILLED && o.fillLevels == []
    ensures var out, roster := PlacePrefilled(b, o), b.orders + [o];
      && out.events == []
      && Aligned(roster, [], out.exits, out.book.orders) && About(roster, [], out.exits)
  {
    assert ReportOk(o, b.reported);
    hide OrderOk, ReportOk, UntouchedIfMarket, Aligned, About;
    AppendKeeps(b.orders, o);
    ReportsAppend(b.orders, o, b.reported);
    var b1 := b.(orders := b.orders + [o]);
    assert BusyBook(b1);
    ImmediateExitAligned(b1, |b.orders|);
  }

  lemma PlaceOpAligned(b: Book, op: Op)
    requires WellBook(b) && Admissible(b, op) && (op.PlaceOrder? || op.PlaceFilled?)
    ensures var out := Step(b, op);
      && Aligned(Roster(b, op), out.events, out.exits, Unpruned(b, op))
      && About(Roster(b, op), out.events, out.exits)
  {
    hide WellBook, Place, PlacePrefilled, Aligned, About;
    match op
    case PlaceOrder(terms, quantity, tp, sl) =>
      NewOrderOk(terms, quantity, tp, sl);
      PlaceAligned(b, NewOrder(terms, quantity, tp, sl));
    case PlaceFilled(terms, filled, tp, sl) =>
      PrefilledOrderOk(terms, filled, tp, sl);
      PlaceFilledAligned(b, PrefilledOrder(terms, filled, tp, sl));
  }

  lemma RunOpAligned(b: Book, now: int)
    requires WellBook(b)
    ensures var out := RunMatching(b, now);
      && out.exits == []
      && Aligned(b.orders, out.events, [], Collect(Rematch(b, now)).book.orders)
      && About(b.orders, out.events, [])
  {
    RunAligned(b, now);
    RematchBusy(b, now);
    var mid := Rematch(b, now);
    hide WellBook, Rematch, Aligned, BusyBook;
    CollectAbout(mid.orders, mid.reported);
    SameTermsAbout(b.orders, mid.orders, Collect(mid).events);
  }

  lemma ExitOpAligned(b: Book, op: Op)
    requires WellBook(b) && (op.MonitorBrackets? || op.CloseAtMarket?)
    ensures var out := Step(b, op);
      && out.events == []
      && Aligned(b.orders, [], out.exits, out.book.orders) && About(b.orders, [], out.exits)
  {
    WellIsBusy(b);
    NothingAligned(b.orders);
    hide WellBook, BusyBook, Aligned, About, MonitorFirst, DoExit;
    match op
    case MonitorBrackets =>
      if b.sides.bids.Keys != {} {
        MonitorAligned(b, |b.orders|, Best(Bid, b.sides.bids.Keys));
      }
    case CloseAtMarket(id) =>
      var i := IndexOf(b.orders, id);
      if i < |b.orders| && b.orders[i].filled > 0.0 && !b.orders[i].closed && b.sides.bids.Keys != {} {
        DoExitAligned(b, i, Best(Bid, b.sides.bids.Keys), FORCE_CLOSE);
        DoExitSilent(b, i, Best(Bid, b.sides.bids.Keys), FORCE_CLOSE);
      }
  }

  lemma DoExitSilent(b: Book, i: nat, bid: real, trigger: Trigger)
    requires i < |b.orders|
    ensures DoExit(b, i, bid, trigger).events == []
  {
  }

  lemma QuietOpAligned(b: Book, op: Op)
    requires WellBook(b)
    requires op.Snapshot? || op.Delta? || op.Touch? || op.SeedReport? || op.ReadDepth?
    ensures var out := Step(b, op);
      && Aligned(b.orders, out.events, out.exits, out.book.orders)
      && About(b.orders, out.events, out.exits)
  {
    NothingAligned(b.orders);
    hide WellBook, Aligned, About;
  }

  /**
   Whatever an operation publishes, it publishes about orders it knows, and each of them changed by
   exactly the fills and sales published for it.
   */
  lemma StepAligned(b: Book, op: Op)
    requires WellBook(b) && Admissible(b, op)
    ensures var out := Step(b, op);
      && Aligned(Roster(b, op), out.events, out.exits, Unpruned(b, op))
      && About(Roster(b, op), out.events, out.exits)
  {
    hide WellBook, RunMatching, Monitor, ForceClose, SweepExpired, ExpireBook, Admissible, Aligned, About;
    match op
    case Match(now) => RunOpAligned(b, now);
    case MonitorBrackets => ExitOpAligned(b, op);
    case CloseAtMarket(id) => ExitOpAligned(b, op);
    case SweepPending(now) =>
      SweepAligned(b, now);
      SweepExits(b, now);
    case Expire =>
      ExpireBookAligned(b);
      ExpireExits(b);
    case PlaceOrder(_, _, _, _) => PlaceOpAligned(b, op);
    case PlaceFilled(_, _, _, _) => PlaceOpAligned(b, op);
    case Snapshot(_, _, _) => QuietOpAligned(b, op);
    case Delta(_, _) => QuietOpAligned(b, op);
    case Touch(_) => QuietOpAligned(b, op);
    case SeedReport(_) => QuietOpAligned(b, op);
    case ReadDepth(_, _) => QuietOpAligned(b, op);
    case _ =>
      StatusOpKeeps(b, op);
      NothingAligned(b.orders);
      StatusAligned(b.orders, Step(b, op).book.orders);
  }

  lemma SweepExits(b: Book, now: int)
    ensures SweepExpired(b, now).exits == []
  {
  }

  lemma ExpireExits(b: Book)
    ensures ExpireBook(b).exits == []
  {
  }
}
