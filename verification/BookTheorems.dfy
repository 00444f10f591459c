/** Results about one book that span several operations. */
module BookTheorems {
  import opened Prelude
  import opened Ladders
  import opened Orders
  import opened Matching
  import opened Passes
  import opened Exits
  import opened Books
  import opened BookSafety
  import opened BookSteps
  import opened Accounts
  import opened Histories
  import Stream

  // ---------- A second pass at the same time does nothing ----------

  /** Expiry at `now` has nothing to do to this order. */
  ghost predicate Settled(o: Order, now: int) {
    ExpireOne(o, now) == o
  }

  ghost predicate AllSettled(orders: seq<Order>, now: int) {
    forall i :: 0 <= i < |orders| ==> Settled(orders[i], now)
  }

  lemma ExpireOnceIsEnough(o: Order, now: int)
    ensures Settled(ExpireOne(o, now), now)
  {
  }

  /** A turn does not undo expiry: only orders that are not due take part. */
  lemma TurnKeepsSettled(book: Ladder, o: Order, now: int)
    requires OrderOk(o) && Positive(book) && Settled(o, now)
    ensures Settled(Turn(book, o).order, now)
  {
    TurnSound(book, o);
    hide OrderOk, Sweep, Qty, Cost;
    TurnUnfolds(book, o);
  }

  lemma {:induction false} PassKeepsSettled(orders: seq<Order>, n: nat, sides: Sides, now: int)
    requires n <= |orders| && AllOk(orders) && AllSettled(orders, now)
    requires Positive(sides.bids) && Positive(sides.asks)
    ensures AllSettled(Pass(orders, n, sides).orders, now)
  {
    hide *;
    PassStart(orders, sides);
    NoneSettled(now);
    if n > 0 {
      var prev, o := Pass(orders, n - 1, sides), orders[n - 1];
      SettledAt(orders, n - 1, now);
      PassKeepsSettled(orders, n - 1, sides, now);
      PassSound(orders, n - 1, sides);
      SidesPositive(sides, orders[..n - 1], prev.orders, prev.sides);
      AllOkAt(orders, n - 1);
      PassUnfolds(orders, n, sides);
      var t := Turn(prev.sides.On(o.terms.side), o);
      TurnKeepsSettled(prev.sides.On(o.terms.side), o, now);
      SettledSnoc(prev.orders, t.order, now);
    }
  }

  lemma NoneSettled(now: int)
    ensures AllSettled([], now)
  {
  }

  lemma SettledAt(orders: seq<Order>, i: nat, now: int)
    requires AllSettled(orders, now) && i < |orders|
    ensures Settled(orders[i], now)
  {
  }

  lemma SettledSnoc(orders: seq<Order>, o: Order, now: int)
    requires AllSettled(orders, now) && Settled(o, now)
    ensures AllSettled(orders + [o], now)
  {
    hide Settled;
  }

  lemma SettledExpire(orders: seq<Order>, now: int)
    requires AllSettled(orders, now)
    ensures ExpireOrders(orders, now) == orders
  {
    hide ExpireOne;
    assert forall i :: 0 <= i < |orders| ==> Settled(orders[i], now);
  }

  lemma IdleResets(book: Ladder, o: Order, o': Order)
    requires Idle(book, o) && o' == o.(fillLevels := [])
    ensures Idle(book, o')
  {
  }

  /**
   After a rematch no order can do anything at this time: none is due to expire and, unless the
   pass was skipped, none can match.
   */
  ghost predicate Rested(b: Book, now: int) {
    && AllSettled(b.orders, now)
    && (!b.expired && !b.Stale(now) ==> AllIdle(b.orders, b.sides))
  }

  lemma RematchRests(b: Book, now: int)
    requires WellBook(b)
    ensures Rested(Rematch(b, now), now)
  {
    var orders := ExpireOrders(b.orders, now);
    ExpiredBusy(b, now);
    OrdersAllOk(orders);
    forall i | 0 <= i < |orders|
      ensures Settled(orders[i], now)
    {
      ExpireOnceIsEnough(b.orders[i], now);
    }
    if !(b.expired || b.Stale(now)) {
      hide OrdersOk, AllOk, Settled, Idle;
      PassKeepsSettled(orders, |orders|, b.sides, now);
      PassLeavesIdle(orders, |orders|, b.sides);
    }
  }

  /** Reporting and pruning leave a rested book rested. */
  lemma CollectRests(b: Book, now: int)
    requires BusyBook(b) && Rested(b, now)
    ensures Rested(Collect(b).book, now)
  {
    CollectSound(b);
    var r := Collect(b).book;
    hide WellBook, BusyBook, Idle;
    forall i | 0 <= i < |r.orders|
      ensures Settled(r.orders[i], now)
      ensures !b.expired && !b.Stale(now) ==> Idle(b.sides.On(r.orders[i].terms.side), r.orders[i])
    {
      assert Settled(b.orders[i], now) && r.orders[i] == b.orders[i].(fillLevels := []);
      if !b.expired && !b.Stale(now) {
        assert Idle(b.sides.On(b.orders[i].terms.side), b.orders[i]);
        IdleResets(b.sides.On(b.orders[i].terms.side), b.orders[i], r.orders[i]);
      }
    }
  }

  lemma {:induction false} PruneRests(orders: seq<Order>, sides: Sides, now: int)
    ensures AllSettled(orders, now) ==> AllSettled(Prune(orders, now), now)
    ensures AllIdle(orders, sides) ==> AllIdle(Prune(orders, now), sides)
  {
    hide Settled, Idle, Prunable;
    if orders != [] {
      var n := |orders| - 1;
      PruneRests(orders[..n], sides, now);
      assert AllSettled(orders, now) ==> AllSettled(orders[..n], now) && Settled(orders[n], now);
      if AllIdle(orders, sides) {
        assert AllIdle(orders[..n], sides) && Idle(sides.On(orders[n].terms.side), orders[n]);
      }
    }
  }

  lemma RunRests(b: Book, now: int)
    requires WellBook(b)
    ensures Rested(RunMatching(b, now).book, now)
  {
    RematchRests(b, now);
    RematchBusy(b, now);
    CollectRests(Rematch(b, now), now);
    var told := Collect(Rematch(b, now)).book;
    hide Rematch, Collect, AllSettled, AllIdle;
    PruneRests(told.orders, told.sides, now);
  }

  /** The feed was heard in the last two minutes. */
  predicate Heard(b: Book, now: int) {
    b.lastUpdate.Some? && now <= b.lastUpdate.value + 120_000_000
  }

  lemma HeardIsFresh(b: Book, now: int)
    ensures Heard(b, now) <==> !b.Stale(now)
  {
  }

  /** On a book that has expired or has not heard the feed lately, a matching run fills nothing and takes nothing. */
  lemma UnheardMatchesNothing(b: Book, now: int, o: Order)
    requires WellBook(b) && (b.expired || !Heard(b, now))
    ensures RunMatching(b, now).book.sides == b.sides
    ensures FillsById(o.terms.id, RunMatching(b, now).events) == []
    ensures o in RunMatching(b, now).book.orders ==>
      exists before :: before in b.orders && before.terms == o.terms && before.filled == o.filled
  {
    HeardIsFresh(b, now);
    QuietRun(b, now);
    if o in RunMatching(b, now).book.orders {
      var out := Step(b, Match(now));
      var i := StepOrigin(b, Match(now), o);
      NothingFilledIn(b.orders[i].terms.id, out.events);
      assert b.orders[i] in b.orders;
    }
    NothingFilledIn(o.terms.id, RunMatching(b, now).events);
    hide RunMatching, WellBook;
  }

  lemma {:induction false} NothingFilledIn(id: OrderId, events: seq<Event>)
    requires forall e :: e in events ==> e.levels == []
    ensures FillsById(id, events) == [] && Qty([]) == 0.0
  {
    if events != [] {
      NothingFilledIn(id, events[..|events| - 1]);
    }
  }

  lemma QuietRun(b: Book, now: int)
    requires WellBook(b) && (b.expired || b.Stale(now))
    ensures RunMatching(b, now).book.sides == b.sides
    ensures forall e :: e in RunMatching(b, now).events ==> e.levels == []
  {
    QuietExpiry(b, now);
    hide WellBook, Prune, ReportAll, ExpireOrders, CollectEvents, CollectOrders;
  }

  /** Expiry alone tells of no fills. */
  lemma QuietExpiry(b: Book, now: int)
    requires WellBook(b)
    ensures forall e :: e in CollectEvents(ExpireOrders(b.orders, now), b.reported) ==> e.levels == []
  {
    WellParts(b);
    var orders := ExpireOrders(b.orders, now);
    ExpireStatusOnly(b.orders, now);
    hide WellBook, ExpireOrders, CollectEvents, AllOk;
    forall e | e in CollectEvents(orders, b.reported) ensures e.levels == [] {
      var i := Stream.CollectSource(orders, b.reported, e);
      assert StatusOnly(b.orders[i], orders[i]);
      QuietAt(b, i);
    }
  }

  lemma QuietAt(b: Book, i: nat)
    requires WellBook(b) && i < |b.orders|
    ensures b.orders[i].fillLevels == []
  {
  }

  /**
   After `run_matching` on a fresh book that has not expired, no resting LIMIT order crosses the book
   unless it is held back.
   */
  lemma RunLeavesNoCrossing(b: Book, now: int, o: Order)
    requires WellBook(b) && !b.expired && Heard(b, now) && o in RunMatching(b, now).book.orders
    ensures CrossesNone(RunMatching(b, now).book.sides.On(o.terms.side), o)
  {
    HeardIsFresh(b, now);
    RunRests(b, now);
    StillFresh(b, now);
    var r := RunMatching(b, now).book;
    hide WellBook, RunMatching, Rested, CrossesNone, Idle;
    assert AllIdle(r.orders, r.sides) by {
      RestedIdle(r, now);
    }
    var i :| 0 <= i < |r.orders| && r.orders[i] == o;
    IdleAt(r.orders, r.sides, i);
    IdleMeansNoCrossing(r.sides.On(o.terms.side), o);
  }

  lemma StillFresh(b: Book, now: int)
    ensures var r := RunMatching(b, now).book; r.expired == b.expired && r.Stale(now) == b.Stale(now)
  {
    hide Pass, CollectOrders, CollectEvents, ReportAll, ExpireOrders, Prune;
  }

  lemma RestedIdle(b: Book, now: int)
    requires Rested(b, now) && !b.expired && !b.Stale(now)
    ensures AllIdle(b.orders, b.sides)
  {
  }

  /**
   Time priority of `run_matching`: whenever it publishes a fill of a later order at a price, no
   earlier order of the same side had a claim on that price when the later one had its turn.
   */
  lemma RunTimePriority(b: Book, now: int, i: nat, j: nat, f: Level)
    requires WellBook(b) && !b.expired && Heard(b, now)
    requires i < j < |b.orders| && b.orders[i].terms.side == b.orders[j].terms.side
    requires f in FillsById(b.orders[j].terms.id, RunMatching(b, now).events)
    ensures var orders := ExpireOrders(b.orders, now);
      var before := Pass(orders, j, b.sides);
      && before.orders[i].terms == b.orders[i].terms
      && NoClaim(before.sides.On(b.orders[j].terms.side), before.orders[i], f.price)
  {
    HeardIsFresh(b, now);
    var orders := ExpireOrders(b.orders, now);
    WellParts(b);
    ExpiredBusy(b, now);
    ExpiredAt(b, now, i);
    ExpiredAt(b, now, j);
    PublishedByPass(b, now, j);
    hide WellBook, Rematch, Pass, ExpireOrders, OrdersOk, AllOk, NoClaim, RunMatching, ReportsOk, Moves;
    OrdersAllOk(orders);
    KeptTerms(b.orders[i], orders[i]);
    KeptTerms(b.orders[j], orders[j]);
    TimePriority(orders, b.sides, i, j, f);
  }

  /** What a run publishes as filled for an order is what its turn in the pass filled. */
  lemma PublishedByPass(b: Book, now: int, j: nat)
    requires WellBook(b) && !b.expired && !b.Stale(now) && j < |b.orders|
    ensures var orders := ExpireOrders(b.orders, now);
      FillsById(b.orders[j].terms.id, RunMatching(b, now).events) ==
        NewFills(orders[j], Pass(orders, j + 1, b.sides).orders[j])
  {
    hide *;
    var orders := ExpireOrders(b.orders, now);
    WellParts(b);
    ExpiredBusy(b, now);
    ExpiredAt(b, now, j);
    RematchOrders(b, now);
    RematchBusy(b, now);
    RunEvents(b, now);
    OrdersAllOk(orders);
    var mid := Rematch(b, now);
    var r := Pass(orders, |orders|, b.sides);
    PassSound(orders, |orders|, b.sides);
    assert orders[..|orders|] == orders;
    AdvanceAt(orders, r.orders, j);
    FirstFills(orders[j], r.orders[j]);
    BusyReports(mid);
    CollectedFor(mid.orders, mid.reported, j);
    PassPrefix(orders, j + 1, |orders|, b.sides);
    assert mid.orders[j].terms.id == b.orders[j].terms.id;
  }

  lemma KeptTerms(o: Order, o': Order)
    requires Moves(o, [], [], o')
    ensures o'.terms == o.terms
  {
  }

  lemma BusyReports(b: Book)
    requires BusyBook(b)
    ensures DistinctIds(b.orders) && ReportsOk(b.orders, b.reported)
  {
  }

  lemma RunEvents(b: Book, now: int)
    ensures RunMatching(b, now).events == CollectEvents(Rematch(b, now).orders, Rematch(b, now).reported)
  {
    hide CollectEvents, Rematch, Prune;
  }

  lemma RestedRematch(b: Book, now: int)
    requires WellBook(b) && Rested(b, now)
    ensures Rematch(b, now) == b.(cache := map[])
  {
    WellParts(b);
    hide WellBook, AllOk, MarketUntouched;
    SettledExpire(b.orders, now);
    if !(b.expired || b.Stale(now)) {
      IdlePass(b.orders, |b.orders|, b.sides);
      assert b.orders[..|b.orders|] == b.orders;
    }
  }

  lemma WellParts(b: Book)
    requires WellBook(b)
    ensures AllOk(b.orders) && MarketUntouched(b.orders) && BusyBook(b)
    ensures Positive(b.sides.bids) && Positive(b.sides.asks) && Quiet(b.orders)
    ensures ReportsOk(b.orders, b.reported)
  {
  }

  /** A book whose reports are up to date tells nothing. */
  lemma UpToDateTellsNothing(b: Book)
    requires WellBook(b)
    requires forall i :: 0 <= i < |b.orders| ==>
      Previous(b.reported, b.orders[i].terms.id) == Report(b.orders[i].filled, b.orders[i].status)
    ensures Collect(b).events == [] && Collect(b).book.orders == b.orders
  {
    WellParts(b);
    hide WellBook, ReportsOk;
    forall i | 0 <= i < |b.orders|
      ensures EventsFor(b.orders[i], Previous(b.reported, b.orders[i].terms.id)) == []
      ensures AfterReport(b.orders[i], Previous(b.reported, b.orders[i].terms.id)) == b.orders[i]
    {
    }
    NothingToTell(b.orders, b.reported);
  }

  lemma {:induction false} PruneMember(orders: seq<Order>, now: int, k: nat) returns (i: nat)
    requires k < |Prune(orders, now)|
    ensures i < |orders| && orders[i] == Prune(orders, now)[k]
  {
    var n := |orders| - 1;
    if k < |Prune(orders[..n], now)| {
      i := PruneMember(orders[..n], now, k);
    } else {
      i := n;
    }
  }

  /** After `run_matching`, the table says about every order left exactly what it is. */
  lemma RunReports(b: Book, now: int, k: nat)
    requires WellBook(b) && k < |RunMatching(b, now).book.orders|
    ensures var r := RunMatching(b, now).book;
      Previous(r.reported, r.orders[k].terms.id) == Report(r.orders[k].filled, r.orders[k].status)
  {
    RematchBusy(b, now);
    CollectSound(Rematch(b, now));
    var told := Collect(Rematch(b, now)).book;
    hide Rematch, Collect, WellBook;
    if told.cleanups + 1 >= CLEANUP_INTERVAL {
      var i := PruneMember(told.orders, now, k);
    }
  }

  /**
   Running the matching again at the same moment matches nothing, tells nothing, and leaves every
   level and every order as it was (orders that are finished may be dropped).
   */
  lemma SecondRunIsIdle(b: Book, now: int)
    requires WellBook(b)
    ensures var once := RunMatching(b, now).book;
      var again := RunMatching(once, now);
      && again.events == [] && again.exits == []
      && again.book.sides == once.sides && again.book.raw == once.raw
      && (again.book.orders == once.orders || again.book.orders == Prune(once.orders, now))
  {
    var once := RunMatching(b, now).book;
    RunKeeps(b, now);
    RunRests(b, now);
    RestedRematch(once, now);
    forall k | 0 <= k < |once.orders|
      ensures Previous(once.reported, once.orders[k].terms.id) == Report(once.orders[k].filled, once.orders[k].status)
    {
      RunReports(b, now, k);
    }
    var same := once.(cache := map[]);
    assert WellBook(same);
    hide WellBook, Rested;
    UpToDateTellsNothing(same);
  }

  // ---------- Immediate fills ----------

  /**
   Whatever an order fills on being placed is told by the events of that very placement; the order
   handed back to the caller has no fill levels left to publish.
   */
  lemma PlacementTellsItself(b: Book, op: Op)
    requires WellBook(b) && Admissible(b, op) && op.PlaceOrder?
    ensures var out := Step(b, op);
      && |out.book.orders| == |b.orders| + 1
      && var o := out.book.orders[|b.orders|];
         && o.terms == op.terms && o.fillLevels == []
         && o.filled == Qty(FillsById(op.terms.id, out.events))
         && o.entryCost == Cost(FillsById(op.terms.id, out.events))
  {
    StepKeepsWell(b, op);
    StepAligned(b, op);
    WellParts(Step(b, op).book);
    hide Step, WellBook, Admissible, About;
    assert Roster(b, op)[|b.orders|] == NewOrder(op.terms, op.quantity, op.tp, op.sl);
  }

  // ---------- An expired book ----------

  predicate NoPlacement(op: Op) {
    !op.PlaceOrder? && !op.PlaceFilled?
  }

  /** The book has expired and no order in it can fill any more. */
  ghost predicate Dead(b: Book) {
    b.expired && forall i :: 0 <= i < |b.orders| ==> !b.orders[i].Live()
  }

  lemma ExpireKills(b: Book)
    ensures Dead(ExpireBook(b).book)
  {
    hide CollectEvents, ReportAll;
  }

  lemma ExpiredStays(b: Book, op: Op)
    ensures b.expired ==> Step(b, op).book.expired
  {
    hide CollectEvents, ReportAll, CollectOrders, Turn, Pass, ExecuteExit, Prune, ExpireOrders, CancelOrders,
      ResolveOrders, Depth;
    if op.MonitorBrackets? && b.sides.bids.Keys != {} {
      MonitorExpired(b, |b.orders|, Best(Bid, b.sides.bids.Keys));
    }
  }

  lemma {:induction false} MonitorExpired(b: Book, n: nat, bid: real)
    requires n <= |b.orders|
    ensures MonitorFirst(b, n, bid).book.expired == b.expired
  {
    if n > 0 {
      MonitorExpired(b, n - 1, bid);
    }
  }

  /** Without new placements, an expired book stays dead and every order left keeps its fills. */
  lemma DeadStaysDead(b: Book, op: Op)
    requires WellBook(b) && Admissible(b, op) && Dead(b) && NoPlacement(op)
    ensures Dead(Step(b, op).book)
    ensures forall o' :: o' in Step(b, op).book.orders ==>
      exists o :: o in b.orders && o.terms == o'.terms && o.filled == o'.filled && o.status == o'.status
  {
    ExpiredStays(b, op);
    hide WellBook, Step, Admissible, Dead;
    forall o' | o' in Step(b, op).book.orders
      ensures !o'.Live()
      ensures exists o :: o in b.orders && o.terms == o'.terms && o.filled == o'.filled && o.status == o'.status
    {
      DeadOrigin(b, op, o');
    }
    DeadAgain(b, Step(b, op).book);
  }

  lemma DeadAgain(b: Book, b': Book)
    requires Dead(b) && (b.expired ==> b'.expired) && forall o :: o in b'.orders ==> !o.Live()
    ensures Dead(b')
  {
  }

  lemma DeadOrigin(b: Book, op: Op, o': Order)
    requires WellBook(b) && Admissible(b, op) && Dead(b) && NoPlacement(op)
    requires o' in Step(b, op).book.orders
    ensures !o'.Live()
    ensures exists o :: o in b.orders && o.terms == o'.terms && o.filled == o'.filled && o.status == o'.status
  {
    var i := StepOrigin(b, op, o');
    hide WellBook, Step, Admissible;
    assert Roster(b, op) == b.orders;
    assert !b.orders[i].Live();
    assert b.orders[i] in b.orders;
  }

  // ---------- Dust can block the book ----------

  const LIMIT_BUY := NewOrder(Terms("a", BUY, 0.6, false, None, None, 0, None), 10.0, None, None)

  /**
   A concrete case: a level of dust at the best ask keeps a BUY from a level behind it that it
   reaches and that could fill it whole.
   */
  lemma DustBlocks()
    ensures var asks: Ladder := map[0.5 := DUST / 2.0, 0.55 := 100.0];
      Turn(asks, LIMIT_BUY) == Swept(asks, LIMIT_BUY) && Reaches(LIMIT_BUY.terms, 0.55)
  {
    var asks: Ladder := map[0.5 := DUST / 2.0, 0.55 := 100.0];
    assert 0.5 in asks.Keys && 0.55 in asks.Keys;
    assert Best(Ask, asks.Keys) == 0.5;
    IdleTurn(asks, LIMIT_BUY);
  }

  /**
   Exactly when a resting uncapped LIMIT BUY that wants more than dust is stuck: when the best ask
   is out of its reach, or is dust.
   */
  lemma StuckExactly(book: Ladder, o: Order)
    requires OrderOk(o) && Positive(book) && book.Keys != {}
    requires o.Live() && o.terms.side == BUY && !o.terms.isMarket && o.terms.maxCost.None?
    requires o.Remaining() >= DUST
    ensures var p := Best(Ask, book.Keys);
      Turn(book, o) == Swept(book, o) <==> !Reaches(o.terms, p) || book[p] < DUST
  {
    var p := Best(Ask, book.Keys);
    var ks := BestFirst(Ask, book.Keys);
    assert ks[0] == p;
    if Reaches(o.terms, p) && book[p] >= DUST {
      assert TakesFirst(ks, book, o, None);
      FirstFillSound(ks, book, o, None);
      var s := AfterFirst(ks, book, o, None);
      SweepUnfolds(ks, book, o, None);
      TurnUnfolds(book, o);
      TakeQtyBounds(o, p, book[p]);
      assert s.order.filled > o.filled;
      if !Done(s.order) {
        SweepOrder(ks[1..], s.book, s.order, None);
      }
    } else {
      IdleTurn(book, o);
    }
  }

  // ---------- What is dropped ----------

  /** Nothing can happen to the order any more, and it was told of it some time ago. */
  predicate OverAndTold(o: Order, now: int) {
    || (o.status == FILLED && o.closed)
    || (o.status == CANCELED
        && (o.filled == 0.0 || o.closed || o.terms.side == SELL || (o.tp.None? && o.sl.None?))
        && now - (if o.terms.expireAt.Some? then o.terms.expireAt.value else o.terms.createdAt) > 5_000_000)
  }

  lemma PrunableExactly(o: Order, now: int)
    requires OrderOk(o)
    ensures Prunable(o, now) <==> OverAndTold(o, now)
  {
  }

  lemma {:induction false} PrunedExactly(orders: seq<Order>, now: int, o: Order)
    ensures o in Prune(orders, now) <==> o in orders && !Prunable(o, now)
  {
    hide Prunable;
    if orders != [] {
      PrunedExactly(orders[..|orders| - 1], now, o);
    }
  }

  /**
   A matching run drops orders every fiftieth time: those that are filled and closed at once, and those
   that are cancelled, have no position left to watch, and ended more than five seconds ago.
   */
  lemma DroppedExactly(b: Book, now: int, o: Order)
    requires WellBook(b) && o in Collect(Rematch(b, now)).book.orders
    ensures o !in RunMatching(b, now).book.orders <==> b.cleanups >= 49 && OverAndTold(o, now)
    ensures RunMatching(b, now).book.cleanups == if b.cleanups >= 49 then 0 else b.cleanups + 1
  {
    RematchBusy(b, now);
    CollectSound(Rematch(b, now));
    var told := Collect(Rematch(b, now)).book;
    assert OrderOk(o);
    PrunableExactly(o, now);
    PrunedExactly(told.orders, now, o);
    RematchCounts(b, now);
    hide Rematch, Collect, Prune, Prunable, OverAndTold, OrderOk, WellBook;
  }

  lemma RematchCounts(b: Book, now: int)
    ensures Collect(Rematch(b, now)).book.cleanups == b.cleanups
  {
  }
}
