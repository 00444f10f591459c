/**
 When orders are cancelled: by an operation of the book only for a cause, and by the passing of time
 exactly when the time has come.
 */
module Expiry {
  import opened Prelude
  import opened Ladders
  import opened Orders
  import opened Matching
  import opened Passes
  import opened Exits
  import opened Books
  import opened BookSafety
  import opened BookSteps
  import opened Accounts
  import opened Runs
  import opened Histories
  import opened Stream

  /** The order has an expiry, and it has come. */
  predicate Reached(t: Terms, now: int) {
    t.expireAt.Some? && t.expireAt.value <= now
  }

  /**
   What the clock may do to an order: a live one that is due is cancelled with its fills as they were
   and the unfilled rest given up, a filled one that is due is closed, and nothing happens to an order
   that is not due, except that matching may fill it, and end it if it is a MARKET order.
   */
  ghost predicate OnTime(o: Order, now: int, o': Order) {
    && o'.terms == o.terms
    && (o.Live() && Reached(o.terms, now) ==>
          && o'.status == CANCELED && o'.filled == o.filled && o'.entryCost == o.entryCost && o'.closed == o.closed
          && o'.quantity == if o.status == PARTIAL then o.filled else o.quantity)
    && (o.Live() && !Reached(o.terms, now) ==>
          && (o'.status == CANCELED ==> o.terms.isMarket)
          && o'.filled >= o.filled && o'.quantity == o.quantity && o'.closed == o.closed)
    && (!o.Live() ==>
          o' == o.(closed := o.closed || (o.status == FILLED && Reached(o.terms, now)), fillLevels := o'.fillLevels))
  }

  lemma ExpireOneOnTime(o: Order, now: int)
    ensures OnTime(o, now, ExpireOne(o, now))
    ensures !Reached(o.terms, now) ==> ExpireOne(o, now) == o
    ensures o.Live() && Reached(o.terms, now) ==> !ExpireOne(o, now).Live()
  {
  }

  // ---------- A pass over the orders ----------

  lemma {:induction false} SweepNeverCancels(ks: seq<Price>, book: Ladder, o: Order, bound: Option<real>)
    requires o.status != CANCELED
    ensures var r := Sweep(ks, book, o, bound).order; r.status != CANCELED && r.terms == o.terms
    decreases |ks|
  {
    hide Accepts, TakeQty, Deduct;
    if ks != [] {
      var p := ks[0];
      if Size(book, p) <= 0.0 {
        SweepNeverCancels(ks[1..], book, o, bound);
      } else if Accepts(o.terms, bound, p) && TakeQty(o, p, Size(book, p)).Some? {
        var q := TakeQty(o, p, Size(book, p)).value;
        var o' := AddFill(o, p, q);
        if !(o'.status == FILLED || CapReached(o')) {
          SweepNeverCancels(ks[1..], Deduct(book, p, q), o', bound);
        }
      }
    }
  }

  lemma TurnKeepsLimit(book: Ladder, o: Order)
    requires !o.terms.isMarket
    ensures var o' := Turn(book, o).order; if o.status == CANCELED then o' == o else o'.status != CANCELED
  {
    hide Sweep, Turn;
    TurnUnfolds(book, o);
    if o.Live() {
      assert WithReference(o, book) == o && SlippageBound(o, book) == None;
      SweepNeverCancels(BestFirst(Consumed(o.terms.side), book.Keys), book, o, None);
    }
  }

  /** A pass cancels no LIMIT order, and leaves orders that are not live as they are. */
  lemma {:induction false} PassKeepsLimits(orders: seq<Order>, n: nat, sides: Sides, i: nat)
    requires i < n <= |orders|
    ensures var o, o' := orders[i], Pass(orders, n, sides).orders[i];
      && (!o.Live() ==> o' == o)
      && (!o.terms.isMarket ==> if o.status == CANCELED then o' == o else o'.status != CANCELED)
  {
    PassUnfolds(orders, n, sides);
    hide Pass, Turn;
    if i < n - 1 {
      PassKeepsLimits(orders, n - 1, sides, i);
    } else {
      var book, o := Pass(orders, n - 1, sides).sides.On(orders[i].terms.side), orders[i];
      TurnUnfolds(book, o);
      if !o.terms.isMarket {
        TurnKeepsLimit(book, o);
      }
    }
  }

  lemma EffectKeeps(o: Order, fills: seq<Level>, o': Order)
    requires OrderEffect(o, fills, o')
    ensures o'.terms == o.terms && o'.filled >= o.filled && o'.quantity == o.quantity && o'.closed == o.closed
  {
  }

  lemma RematchOnTime(b: Book, now: int, i: nat)
    requires WellBook(b) && i < |b.orders|
    ensures |Rematch(b, now).orders| == |b.orders| && OnTime(b.orders[i], now, Rematch(b, now).orders[i])
  {
    var orders := ExpireOrders(b.orders, now);
    ExpireOneOnTime(b.orders[i], now);
    RematchOrders(b, now);
    if !(b.expired || b.Stale(now)) {
      ExpiredBusy(b, now);
      PassBusy(orders, b.sides, b.reported);
      var r := Pass(orders, |orders|, b.sides);
      PassKeepsLimits(orders, |orders|, b.sides, i);
      AdvanceAt(orders, r.orders, i);
      hide Pass, ExpireOne, Rematch, WellBook, OrderEffect, NewFills, OrdersAdvance, OrdersOk, ReportsOk;
      EffectKeeps(orders[i], NewFills(orders[i], r.orders[i]), r.orders[i]);
    }
  }

  // ---------- Every operation that looks at the clock ----------

  predicate Expires(op: Op) {
    op.Match? || op.SweepPending? || op.ExpirePending?
  }

  lemma Untold(o: Order, now: int, o': Order)
    requires OnTime(o, now, o')
    ensures OnTime(o, now, o'.(fillLevels := []))
  {
  }

  lemma CollectOnTime(b: Book, now: int, mid: Book, i: nat)
    requires BusyBook(mid) && i < |b.orders| == |mid.orders| && OnTime(b.orders[i], now, mid.orders[i])
    ensures |Collect(mid).book.orders| == |b.orders| && OnTime(b.orders[i], now, Collect(mid).book.orders[i])
  {
    CollectSound(mid);
    hide Collect, OnTime, BusyBook, WellBook;
    Untold(b.orders[i], now, mid.orders[i]);
  }

  lemma MatchOnTime(b: Book, now: int, i: nat)
    requires WellBook(b) && i < |b.orders|
    ensures var r := Collect(Rematch(b, now)).book.orders; |r| == |b.orders| && OnTime(b.orders[i], now, r[i])
  {
    RematchOnTime(b, now, i);
    RematchBusy(b, now);
    hide *;
    CollectOnTime(b, now, Rematch(b, now), i);
  }

  lemma SweepOnTime(b: Book, now: int, i: nat)
    requires WellBook(b) && i < |b.orders|
    ensures var r := SweepExpired(b, now).book.orders; |r| == |b.orders| && OnTime(b.orders[i], now, r[i])
  {
    var orders := ExpireOrders(b.orders, now);
    ExpireOneOnTime(b.orders[i], now);
    hide OnTime, ExpireOne, Collect;
    if orders != b.orders {
      WellDistinct(b);
      ExpireStatusOnly(b.orders, now);
      StatusStepKeeps(b, orders);
      hide WellBook, BusyBook, AllStatusOnly, AllOk;
      WellIsBusy(b.(orders := orders));
      CollectOnTime(b, now, b.(orders := orders), i);
    }
  }

  lemma UnprunedOnTime(b: Book, op: Op, i: nat)
    requires WellBook(b) && Expires(op) && i < |b.orders|
    ensures |Unpruned(b, op)| == |b.orders| && OnTime(b.orders[i], op.now, Unpruned(b, op)[i])
  {
    hide OnTime, Collect, Rematch, SweepExpired, WellBook, ExpireOne;
    match op
    case Match(now) => MatchOnTime(b, now, i);
    case SweepPending(now) => SweepOnTime(b, now, i);
    case ExpirePending(now) => ExpireOneOnTime(b.orders[i], now);
  }

  lemma WellIsBusy(b: Book)
    requires WellBook(b)
    ensures BusyBook(b)
  {
  }

  lemma WellDistinct(b: Book)
    requires WellBook(b)
    ensures DistinctIds(b.orders) && AllOk(b.orders)
  {
  }

  /** Where an order of the book is before anything is dropped. */
  lemma OriginAt(b: Book, op: Op, o: Order, o': Order) returns (i: nat)
    requires WellBook(b) && Admissible(b, op) && o in b.orders && o' in Step(b, op).book.orders
    requires o'.terms.id == o.terms.id
    ensures i < |b.orders| && b.orders[i] == o && i < |Unpruned(b, op)| && Unpruned(b, op)[i] == o'
  {
    StepSubset(b, op);
    StepAligned(b, op);
    AdmissibleRoster(b, op);
    hide *;
    i :| 0 <= i < |b.orders| && b.orders[i] == o;
    var j :| 0 <= j < |Unpruned(b, op)| && Unpruned(b, op)[j] == o';
    assert Roster(b, op)[i] == o;
    AlignedTerms(Roster(b, op), Step(b, op).events, Step(b, op).exits, Unpruned(b, op), j);
    SamePlace(Roster(b, op), i, j);
  }

  lemma SamePlace(orders: seq<Order>, i: nat, j: nat)
    requires DistinctIds(orders) && i < |orders| && j < |orders| && orders[i].terms.id == orders[j].terms.id
    ensures i == j
  {
  }

  lemma AlignedTerms(before: seq<Order>, events: seq<Event>, exits: seq<Exit>, after: seq<Order>, j: nat)
    requires Aligned(before, events, exits, after) && j < |after|
    ensures |before| == |after| && after[j].terms == before[j].terms
  {
  }

  lemma AdmissibleRoster(b: Book, op: Op)
    requires WellBook(b) && Admissible(b, op)
    ensures DistinctIds(Roster(b, op)) && |b.orders| <= |Roster(b, op)|
    ensures forall i :: 0 <= i < |b.orders| ==> Roster(b, op)[i] == b.orders[i]
  {
    WellDistinct(b);
    hide WellBook;
  }

  /**
   Whatever looks at the clock treats every order on time: matching runs, the sweep, and expiry by
   hand alike.
   */
  lemma ExpiryIsOnTime(b: Book, op: Op, o: Order, o': Order)
    requires WellBook(b) && Expires(op) && o in b.orders && o' in Step(b, op).book.orders
    requires o'.terms.id == o.terms.id
    ensures OnTime(o, op.now, o')
  {
    assert Admissible(b, op);
    var i := OriginAt(b, op, o, o');
    UnprunedOnTime(b, op, i);
  }

  // ---------- Why an order is cancelled ----------

  /** What can cancel an order with these terms, matching apart. */
  predicate Causes(op: Op, t: Terms) {
    match op
    case CancelOrder(id) => id == t.id
    case CancelAll => true
    case MarketResolved => true
    case Expire => true
    case _ => Expires(op) && Reached(t, op.now)
  }

  /** The resolution of a market passes over orders whose position is closed. */
  predicate Cancels(op: Op, o: Order) {
    Causes(op, o.terms) && (op.MarketResolved? ==> !o.closed)
  }

  /** A live order is cancelled exactly for a cause; matching itself only cancels MARKET orders. */
  ghost predicate CancelledFor(op: Op, o: Order, o': Order) {
    && (o.Live() && Cancels(op, o) ==> o'.status == CANCELED && o'.filled == o.filled)
    && (o.Live() && o'.status == CANCELED ==> Cancels(op, o) || (o.terms.isMarket && op.Match?))
  }

  lemma ExitKeepsStatus(b: Book, i: nat, bid: real, trigger: Trigger)
    requires i < |b.orders|
    ensures var r := DoExit(b, i, bid, trigger).book.orders;
      |r| == |b.orders| && forall j :: 0 <= j < |r| ==> r[j].status == b.orders[j].status
  {
  }

  lemma TryExitKeepsStatus(b: Book, i: nat, bid: real)
    requires i < |b.orders|
    ensures var r := TryExit(b, i, bid).book.orders;
      |r| == |b.orders| && forall j :: 0 <= j < |r| ==> r[j].status == b.orders[j].status
  {
    hide DoExit;
    forall trigger {
      ExitKeepsStatus(b, i, bid, trigger);
    }
  }

  lemma {:induction false} MonitorKeepsStatus(b: Book, n: nat, bid: real, j: nat)
    requires n <= |b.orders| && j < |b.orders|
    ensures MonitorFirst(b, n, bid).book.orders[j].status == b.orders[j].status
  {
    hide *;
    if n == 0 {
      MonitorNone(b, bid);
    } else {
      MonitorKeepsStatus(b, n - 1, bid, j);
      TryExitKeepsStatus(MonitorFirst(b, n - 1, bid).book, n - 1, bid);
      MonitorNext(b, n, bid);
    }
  }

  /** On a book that has just been placed into, the orders that were there are as they were. */
  lemma PlacementKeepsStatus(b: Book, op: Op, i: nat)
    requires WellBook(b) && Admissible(b, op) && (op.PlaceOrder? || op.PlaceFilled?) && i < |b.orders|
    ensures i < |Step(b, op).book.orders| && Step(b, op).book.orders[i].status == b.orders[i].status
  {
    hide TryExit, Turn, CollectEvents, ReportAll, WellBook, Admissible;
    match op
    case PlaceOrder(terms, quantity, tp, sl) =>
      var m := Matched(b, NewOrder(terms, quantity, tp, sl));
      if m.sides.bids.Keys != {} {
        TryExitKeepsStatus(m, |b.orders|, Best(Bid, m.sides.bids.Keys));
      }
    case PlaceFilled(terms, filled, tp, sl) =>
      var m := b.(orders := b.orders + [PrefilledOrder(terms, filled, tp, sl)]);
      if m.sides.bids.Keys != {} {
        TryExitKeepsStatus(m, |b.orders|, Best(Bid, m.sides.bids.Keys));
      }
  }

  /** Cancelling by hand, by resolution, or with the whole book, on one order. */
  lemma CancelOneCancels(op: Op, o: Order)
    ensures Causes(op, o.terms) && !op.MarketResolved? ==> CancelledFor(op, o, CancelOne(o))
    ensures !Causes(op, o.terms) ==> CancelledFor(op, o, o)
    ensures op.MarketResolved? ==> CancelledFor(op, o, ResolveOne(o))
  {
  }

  lemma CancelByIdAt(b: Book, id: OrderId, i: nat)
    requires WellBook(b) && i < |b.orders|
    ensures i < |CancelById(b, id).orders|
    ensures CancelById(b, id).orders[i] == if b.orders[i].terms.id == id then CancelOne(b.orders[i]) else b.orders[i]
  {
    WellDistinct(b);
    hide WellBook, CancelOne;
    var k := IndexOf(b.orders, id);
    assert k < |b.orders| && b.orders[i].terms.id == id ==> k == i;
  }

  lemma ExpireBookAt(b: Book, i: nat)
    requires i < |b.orders|
    ensures var r := ExpireBook(b).book.orders;
      i < |r| && r[i].status == CancelOne(b.orders[i]).status && r[i].filled == CancelOne(b.orders[i]).filled
  {
    hide CollectEvents, ReportAll, CancelOne;
  }

  lemma StatusOpCancels(b: Book, op: Op, i: nat)
    requires WellBook(b) && i < |b.orders|
    requires op.CancelOrder? || op.CancelAll? || op.MarketResolved? || op.Expire?
    ensures i < |Step(b, op).book.orders| && CancelledFor(op, b.orders[i], Step(b, op).book.orders[i])
  {
    CancelOneCancels(op, b.orders[i]);
    hide WellBook, CancelOne, ResolveOne, CancelById, ExpireBook;
    match op
    case CancelOrder(id) =>
      CancelByIdAt(b, id, i);
      hide CancelledFor;
    case Expire => ExpireBookAt(b, i);
    case _ => hide CancelledFor;
  }

  lemma ByHandCancels(b: Book, now: int, i: nat)
    requires WellBook(b) && i < |b.orders|
    ensures var r := Step(b, ExpirePending(now)).book.orders;
      i < |r| && CancelledFor(ExpirePending(now), b.orders[i], r[i])
  {
    ExpireOneOnTime(b.orders[i], now);
    hide ExpireOne, WellBook;
  }

  lemma SweptOne(o: Order, now: int, reported: map<OrderId, Report>)
    ensures CancelledFor(SweepPending(now), o, ExpireOne(o, now))
    ensures CancelledFor(SweepPending(now), o, AfterReport(ExpireOne(o, now), Previous(reported, o.terms.id)))
    ensures ExpireOne(o, now).terms == o.terms
  {
    ExpireOneOnTime(o, now);
    hide ExpireOne;
  }

  lemma SweepCancels(b: Book, now: int, i: nat)
    requires WellBook(b) && i < |b.orders|
    ensures i < |SweepExpired(b, now).book.orders|
    ensures CancelledFor(SweepPending(now), b.orders[i], SweepExpired(b, now).book.orders[i])
  {
    hide ExpireOne, WellBook, CollectEvents, ReportAll, CancelledFor, AfterReport;
    SweptOne(b.orders[i], now, b.reported);
    assert ExpireOrders(b.orders, now)[i] == ExpireOne(b.orders[i], now);
  }

  lemma MatchCancels(b: Book, now: int, i: nat)
    requires WellBook(b) && i < |b.orders|
    ensures var r := Collect(Rematch(b, now)).book.orders; i < |r| && CancelledFor(Match(now), b.orders[i], r[i])
  {
    MatchOnTime(b, now, i);
    hide Collect, Rematch, WellBook;
  }

  lemma ExitOpKeepsStatus(b: Book, op: Op, i: nat)
    requires (op.MonitorBrackets? || op.CloseAtMarket?) && i < |b.orders|
    ensures i < |Step(b, op).book.orders| && Step(b, op).book.orders[i].status == b.orders[i].status
  {
    hide MonitorFirst, DoExit;
    match op
    case MonitorBrackets =>
      if b.sides.bids.Keys != {} {
        MonitorKeepsStatus(b, |b.orders|, Best(Bid, b.sides.bids.Keys), i);
      }
    case CloseAtMarket(id) =>
      var k := IndexOf(b.orders, id);
      if k < |b.orders| && b.sides.bids.Keys != {} {
        ExitKeepsStatus(b, k, Best(Bid, b.sides.bids.Keys), FORCE_CLOSE);
      }
  }

  lemma SameStatus(op: Op, o: Order, o': Order)
    requires o'.status == o.status && !Causes(op, o.terms)
    ensures CancelledFor(op, o, o')
  {
  }

  lemma UnprunedCancels(b: Book, op: Op, i: nat)
    requires WellBook(b) && Admissible(b, op) && i < |b.orders|
    ensures i < |Unpruned(b, op)| && CancelledFor(op, b.orders[i], Unpruned(b, op)[i])
  {
    hide WellBook, Collect, Rematch, CancelledFor, SweepExpired, ExpireOrders, CancelById, ResolveOrders,
      CancelOrders, ExpireBook, Monitor, ForceClose, Place, PlacePrefilled, Admissible, ApplySnapshot, ApplyChanges;
    match op
    case Match(now) => MatchCancels(b, now, i);
    case SweepPending(now) => SweepCancels(b, now, i);
    case ExpirePending(now) => ByHandCancels(b, now, i);
    case MonitorBrackets =>
      ExitOpKeepsStatus(b, op, i);
      SameStatus(op, b.orders[i], Unpruned(b, op)[i]);
    case CloseAtMarket(_) =>
      ExitOpKeepsStatus(b, op, i);
      SameStatus(op, b.orders[i], Unpruned(b, op)[i]);
    case PlaceOrder(_, _, _, _) =>
      PlacementKeepsStatus(b, op, i);
      SameStatus(op, b.orders[i], Unpruned(b, op)[i]);
    case PlaceFilled(_, _, _, _) =>
      PlacementKeepsStatus(b, op, i);
      SameStatus(op, b.orders[i], Unpruned(b, op)[i]);
    case CancelOrder(_) => StatusOpCancels(b, op, i);
    case CancelAll => StatusOpCancels(b, op, i);
    case MarketResolved => StatusOpCancels(b, op, i);
    case Expire => StatusOpCancels(b, op, i);
    case _ => QuietKeepsOrders(b, op, i);
  }

  lemma QuietKeepsOrders(b: Book, op: Op, i: nat)
    requires i < |b.orders|
    requires op.Snapshot? || op.Delta? || op.Touch? || op.SeedReport? || op.ReadDepth?
    ensures Step(b, op).book.orders == b.orders && Unpruned(b, op) == b.orders
    ensures CancelledFor(op, b.orders[i], b.orders[i])
  {
  }

  /**
   Whatever the operation: a live LIMIT order is cancelled exactly when the operation cancels it by id
   or with all others, when its market has resolved or its book has expired, or when its own expiry has
   come; a MARKET order also when matching cannot fill it whole.
   */
  lemma CancelledForCause(b: Book, op: Op, o: Order, o': Order)
    requires WellBook(b) && Admissible(b, op) && o in b.orders && o' in Step(b, op).book.orders
    requires o'.terms.id == o.terms.id
    ensures CancelledFor(op, o, o')
  {
    var i := OriginAt(b, op, o, o');
    UnprunedCancels(b, op, i);
  }

  /** When the market has resolved, every position is closed and no bracket is left to fire. */
  lemma ResolutionEndsPositions(b: Book, o': Order)
    requires o' in Step(b, MarketResolved).book.orders
    ensures o'.closed && !o'.EligibleForBracket()
    ensures o' in b.orders || (!o'.Live() && !o'.HasBracket())
  {
  }

  // ---------- Over a run ----------

  /** The turn of a new LIMIT order. */
  lemma NewLimitTurn(b: Book, op: Op)
    requires WellBook(b) && Admissible(b, op) && op.PlaceOrder? && !op.terms.isMarket
    ensures var m := Matched(b, NewOrder(op.terms, op.quantity, op.tp, op.sl)).orders;
      |m| == |b.orders| + 1 && m[|b.orders|].status != CANCELED && m[|b.orders|].terms == op.terms
  {
    var o := NewOrder(op.terms, op.quantity, op.tp, op.sl);
    var book := b.sides.On(o.terms.side);
    TurnKeepsLimit(book, o);
    AdmissibleFresh(b, op);
    NewOrderOk(op.terms, op.quantity, op.tp, op.sl);
    TurnSound(book, o);
    assert Turn(book, o).order.terms == op.terms;
    hide Turn, WellBook, Admissible, OrderOk, OrderEffect;
  }

  lemma NewLimitStands(b: Book, op: Op)
    requires WellBook(b) && Admissible(b, op) && op.PlaceOrder? && !op.terms.isMarket
    ensures var r := Step(b, op).book.orders;
      |r| == |b.orders| + 1 && r[|b.orders|].status != CANCELED && r[|b.orders|].terms == op.terms
  {
    NewLimitTurn(b, op);
    var m := Matched(b, NewOrder(op.terms, op.quantity, op.tp, op.sl));
    hide TryExit, Matched, CollectEvents, ReportAll, WellBook, Admissible;
    if m.sides.bids.Keys != {} {
      TryExitKeepsStatus(m, |b.orders|, Best(Bid, m.sides.bids.Keys));
      TryExitTerms(m, |b.orders|, Best(Bid, m.sides.bids.Keys));
    }
  }

  lemma TryExitTerms(b: Book, i: nat, bid: real)
    requires i < |b.orders|
    ensures TryExit(b, i, bid).book.orders[i].terms == b.orders[i].terms
  {
  }

  /** A new LIMIT order is the only one with its id, and it stands. */
  lemma NewStands(b: Book, op: Op, o': Order)
    requires WellBook(b) && Admissible(b, op) && op.PlaceOrder? && !op.terms.isMarket
    requires o' in Step(b, op).book.orders && o'.terms.id == op.terms.id
    ensures o'.status != CANCELED
  {
    NewLimitStands(b, op);
    StepKeepsWell(b, op);
    WellDistinct(Step(b, op).book);
    hide *;
    var orders := Step(b, op).book.orders;
    var k :| 0 <= k < |orders| && orders[k] == o';
    SamePlace(orders, k, |b.orders|);
  }

  /** Where an order of a run was before the last operation, and why it may be cancelled since. */
  lemma LastCause(w: World, op: Op, o': Order, t: Terms) returns (o: Order)
    requires WellBook(w.book) && LegalOp(w, op) && AllAccounted(w)
    requires o' in Step(w.book, op).book.orders && o'.terms.id == t.id && Known(w.log, t.id)
    ensures o in w.book.orders && o'.terms == o.terms
    ensures o'.status == CANCELED && !o.terms.isMarket ==> o.status == CANCELED || Causes(op, o.terms)
  {
    LegalIsAdmissible(w, op);
    var j := StepOrigin(w.book, op, o');
    RosterStart(w.book, op, j);
    o := Roster(w.book, op)[j];
    MovesOn(o, FillsById(o.terms.id, Step(w.book, op).events), SalesById(o.terms.id, Step(w.book, op).exits), o');
    hide Step, WellBook, Known, AllAccounted, Admissible, Moves, Roster;
    if j >= |w.book.orders| {
      LegalIsNew(w, op, t.id);
      assert false;
    }
    assert o in w.book.orders;
    CancelledForCause(w.book, op, o, o');
  }

  /** In every reachable state: a LIMIT order that is cancelled was cancelled for a cause since it was placed. */
  lemma {:induction false} RunCancelsForCause(ops: seq<Op>, i: nat, o: Order)
    requires Legal(ops) && i < |ops| && ops[i].PlaceOrder? && !ops[i].terms.isMarket
    requires o in Run(ops).book.orders && o.terms.id == ops[i].terms.id && o.status == CANCELED
    ensures exists j :: i < j < |ops| && Causes(ops[j], ops[i].terms)
  {
    hide *;
    var init, op := ops[..|ops| - 1], ops[|ops| - 1];
    var w := Run(init);
    LegalParts(ops);
    AfterBook(w, op);
    RunWell(init);
    RunAccounted(init);
    LegalIsAdmissible(w, op);
    if i == |init| {
      NewStands(w.book, op, o);
    } else {
      PlacedIsKnown(init, i);
      var before := LastCause(w, op, o, ops[i].terms);
      PlacedQuantity(init, i, before);
      if before.status == CANCELED {
        RunCancelsForCause(init, i, before);
        var j :| i < j < |init| && Causes(init[j], init[i].terms);
        assert ops[j] == init[j];
      }
    }
  }

  /** An operation that tells a cancellation leaves the order cancelled, if not dropped. */
  lemma ToldIsCancelled(b: Book, op: Op, e: Event) returns (i: nat)
    requires WellBook(b) && Admissible(b, op) && e in Step(b, op).events && e.kind == CANCEL
    ensures i < |Roster(b, op)| == |Unpruned(b, op)|
    ensures Roster(b, op)[i].terms.id == e.id && Unpruned(b, op)[i].status == CANCELED
    ensures Evolves(Roster(b, op)[i], Unpruned(b, op)[i])
  {
    StepTells(b, op);
    TellerBusy(b, op);
    StepAligned(b, op);
    var mid := Teller(b, op).value;
    UnprunedIsCollected(b, op);
    hide Step, WellBook, Admissible, Teller, Unpruned, Roster, BusyBook, Moves, EventsFor, About;
    i := CollectSource(mid.orders, mid.reported, e);
    EventsHeard(mid.orders[i], Previous(mid.reported, mid.orders[i].terms.id), e);
    assert Moves(Roster(b, op)[i], FillsById(Roster(b, op)[i].terms.id, Step(b, op).events),
                 SalesById(Roster(b, op)[i].terms.id, Step(b, op).exits), Unpruned(b, op)[i]);
    MovesOn(Roster(b, op)[i], FillsById(Roster(b, op)[i].terms.id, Step(b, op).events),
            SalesById(Roster(b, op)[i].terms.id, Step(b, op).exits), Unpruned(b, op)[i]);
  }

  lemma UnprunedIsCollected(b: Book, op: Op)
    requires Teller(b, op).Some? && Step(b, op) != Outcome(b, [], [])
    ensures var mid := Teller(b, op).value;
      && |Unpruned(b, op)| == |mid.orders|
      && forall i :: 0 <= i < |mid.orders| ==> Unpruned(b, op)[i].status == mid.orders[i].status
  {
    hide CollectEvents, ReportAll, Rematch, Matched, ExpireOrders, CancelOrders, Prune, ImmediateExit;
  }

  /** The order behind a cancellation told by an operation, when it was in the book already. */
  lemma TellCause(w: World, op: Op, e: Event, t: Terms) returns (o: Order)
    requires WellBook(w.book) && LegalOp(w, op) && e in Step(w.book, op).events && e.kind == CANCEL
    requires e.id == t.id && Known(w.log, t.id)
    ensures o in w.book.orders && o.terms.id == t.id
    ensures !o.terms.isMarket ==> o.status == CANCELED || Causes(op, o.terms)
  {
    LegalIsAdmissible(w, op);
    var k := ToldIsCancelled(w.book, op, e);
    RosterStart(w.book, op, k);
    hide Step, WellBook, Known, Admissible, Unpruned;
    if k >= |w.book.orders| {
      LegalIsNew(w, op, t.id);
      assert false;
    }
    o := w.book.orders[k];
    assert o in w.book.orders;
    UnprunedCancels(w.book, op, k);
  }

  /** A placement does not tell the new LIMIT order cancelled. */
  lemma NewNotTold(w: World, op: Op, e: Event)
    requires WellBook(w.book) && LegalOp(w, op) && op.PlaceOrder? && !op.terms.isMarket
    requires e in Step(w.book, op).events && e.id == op.terms.id
    ensures e.kind != CANCEL
  {
    LegalIsAdmissible(w, op);
    if e.kind == CANCEL {
      var k := ToldIsCancelled(w.book, op, e);
      AdmissibleRoster(w.book, op);
      assert Roster(w.book, op)[|w.book.orders|].terms == op.terms;
      NewLimitStands(w.book, op);
      hide Step, WellBook, Admissible, Roster;
      SamePlace(Roster(w.book, op), k, |w.book.orders|);
      assert false;
    }
  }

  /**
   Over any run: the cancellation of a LIMIT order is told only after something has cancelled it since
   it was placed. When nobody cancels it and its market stays as it is, that is the coming of its expiry.
   */
  lemma {:induction false} RunTellsForCause(ops: seq<Op>, i: nat, e: Event)
    requires Legal(ops) && i < |ops| && ops[i].PlaceOrder? && !ops[i].terms.isMarket
    requires e in Told(Run(ops).log) && e.id == ops[i].terms.id && e.kind == CANCEL
    ensures exists j :: i < j < |ops| && Causes(ops[j], ops[i].terms)
  {
    hide *;
    var init, op := ops[..|ops| - 1], ops[|ops| - 1];
    var w := Run(init);
    LegalParts(ops);
    RunWell(init);
    LegalIsAdmissible(w, op);
    ToldAfter(w, op);
    if i == |init| {
      NewIsUntold(init, op, e);
      NewNotTold(w, op, e);
    } else if e in Told(w.log) {
      RunTellsForCause(init, i, e);
      var j :| i < j < |init| && Causes(init[j], init[i].terms);
      assert ops[j] == init[j];
    } else {
      PlacedIsKnown(init, i);
      var o := TellCause(w, op, e, ops[i].terms);
      PlacedQuantity(init, i, o);
      if o.status == CANCELED {
        RunCancelsForCause(init, i, o);
        var j :| i < j < |init| && Causes(init[j], init[i].terms);
        assert ops[j] == init[j];
      }
    }
  }

  lemma NewIsUntold(init: seq<Op>, op: Op, e: Event)
    requires Legal(init) && LegalOp(Run(init), op) && op.PlaceOrder? && e.id == op.terms.id
    ensures e !in Told(Run(init).log)
  {
    PlacesIts(op);
    LegalIsNew(Run(init), op, op.terms.id);
    hide *;
    UnknownUntold(init, op.terms.id);
  }

  /** A live order that is due is told cancelled, with its fills, by the next matching run or sweep. */
  lemma DueIsTold(b: Book, op: Op, o: Order)
    requires WellBook(b) && (op.Match? || op.SweepPending?)
    requires o in b.orders && o.Live() && Reached(o.terms, op.now)
    ensures exists e :: e in Step(b, op).events && e.id == o.terms.id && e.kind == CANCEL && e.filled == o.filled
  {
    assert Admissible(b, op);
    StepTells(b, op);
    var i :| 0 <= i < |b.orders| && b.orders[i] == o;
    var mid := Teller(b, op).value;
    TellerDue(b, op, i);
    assert ReportOk(o, b.reported);
    var m := mid.orders[i];
    var e := Event(m.terms.id, CANCEL, m.terms.side, m.filled, m.AvgEntry(), m.status, []);
    assert e in EventsFor(m, Previous(b.reported, m.terms.id));
    hide Step, WellBook, Teller, EventsFor, OnTime;
    CollectHolds(mid.orders, mid.reported, i, e);
  }

  lemma TellerDue(b: Book, op: Op, i: nat)
    requires WellBook(b) && (op.Match? || op.SweepPending?)
    requires i < |b.orders| && b.orders[i].Live() && Reached(b.orders[i].terms, op.now)
    ensures var mid := Teller(b, op).value;
      && |mid.orders| == |b.orders| && OnTime(b.orders[i], op.now, mid.orders[i]) && mid.reported == b.reported
    ensures Step(b, op) != Outcome(b, [], [])
  {
    UnprunedOnTime(b, op, i);
    ExpireOneOnTime(b.orders[i], op.now);
    hide WellBook, ExpireOne, Collect, Prune, Rematch;
    match op
    case Match(now) =>
      RematchOnTime(b, now, i);
      RematchReported(b, now);
      RunIsBusy(b, now);
    case SweepPending(now) =>
      assert ExpireOrders(b.orders, now)[i] == ExpireOne(b.orders[i], now);
      hide OnTime;
      CollectChanges(b, b.(orders := ExpireOrders(b.orders, now)), i);
  }

  lemma RunIsBusy(b: Book, now: int)
    ensures RunMatching(b, now) != Outcome(b, [], [])
  {
    assert Collect(Rematch(b, now)).book.cleanups == b.cleanups;
    assert RunMatching(b, now).book.cleanups != b.cleanups;
  }

  lemma CollectChanges(b: Book, mid: Book, i: nat)
    requires i < |b.orders| == |mid.orders| && mid.orders[i].status != b.orders[i].status
    ensures Collect(mid) != Outcome(b, [], [])
  {
    assert Collect(mid).book.orders[i].status == mid.orders[i].status;
  }

  lemma {:induction false} CollectHolds(orders: seq<Order>, reported: map<OrderId, Report>, i: nat, e: Event)
    requires i < |orders| && e in EventsFor(orders[i], Previous(reported, orders[i].terms.id))
    ensures e in CollectEvents(orders, reported)
  {
    hide EventsFor;
    if i < |orders| - 1 {
      CollectHolds(orders[..|orders| - 1], reported, i, e);
    }
  }
}
