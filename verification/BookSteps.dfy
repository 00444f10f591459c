/** Every operation leaves the book sound and quiet, with the report table in step with its orders. */
module BookSteps {
  import opened Prelude
  import opened Ladders
  import opened Orders
  import opened Matching
  import opened Passes
  import opened Exits
  import opened Books
  import opened BookSafety

  /** The book invariant between operations. */
  ghost predicate WellBook(b: Book) {
    Sound(b) && Quiet(b.orders) && ReportsOk(b.orders, b.reported)
  }

  /** The same within an operation, when fills may be waiting to be told. */
  ghost predicate BusyBook(b: Book) {
    Sound(b) && ReportsOk(b.orders, b.reported)
  }

  // ---------- Collecting ----------

  lemma {:induction false} ReportAllAt(orders: seq<Order>, i: nat)
    requires DistinctIds(orders) && i < |orders|
    ensures orders[i].terms.id in ReportAll(orders)
    ensures ReportAll(orders)[orders[i].terms.id] == Report(orders[i].filled, orders[i].status)
  {
    var n := |orders| - 1;
    if i < n {
      assert orders[..n][i] == orders[i];
      ReportAllAt(orders[..n], i);
    }
  }

  lemma {:induction false} ReportAllKeys(orders: seq<Order>, id: OrderId)
    requires Unused(orders, id)
    ensures id !in ReportAll(orders)
  {
    if orders != [] {
      ReportAllKeys(orders[..|orders| - 1], id);
    }
  }

  lemma AfterReportOk(o: Order, reported: map<OrderId, Report>)
    requires OrderOk(o) && UntouchedIfMarket(o) && ReportOk(o, reported)
    ensures var o' := AfterReport(o, Previous(reported, o.terms.id));
      && OrderOk(o') && UntouchedIfMarket(o') && o'.fillLevels == []
      && o' == o.(fillLevels := []) && EventsFor(o', Report(o.filled, o.status)) == []
  {
    ReportedFillsGrow(o, reported);
  }

  /**
   After collecting, the table says about every order exactly what it is; nothing is waiting; and
   collecting again at once would tell nothing and change nothing.
   */
  lemma CollectSound(b: Book)
    requires BusyBook(b)
    ensures var r := Collect(b).book;
      && WellBook(r)
      && (forall i :: 0 <= i < |b.orders| ==>
            && r.orders[i] == b.orders[i].(fillLevels := [])
            && r.orders[i].terms.id in r.reported
            && r.reported[r.orders[i].terms.id] == Report(r.orders[i].filled, r.orders[i].status))
  {
    hide OrderOk, UntouchedIfMarket, ReportOk;
    var r := Collect(b).book;
    forall i | 0 <= i < |b.orders|
      ensures OrderOk(r.orders[i]) && UntouchedIfMarket(r.orders[i])
      ensures r.orders[i] == b.orders[i].(fillLevels := [])
      ensures r.orders[i].terms.id in r.reported
      ensures r.reported[r.orders[i].terms.id] == Report(r.orders[i].filled, r.orders[i].status)
    {
      assert OrderOk(b.orders[i]) && UntouchedIfMarket(b.orders[i]) && ReportOk(b.orders[i], b.reported);
      AfterReportOk(b.orders[i], b.reported);
      ReportAllAt(b.orders, i);
    }
    forall i | 0 <= i < |r.orders|
      ensures ReportOk(r.orders[i], r.reported)
    {
      InStepIsOk(r.orders[i], r.reported);
    }
  }

  lemma InStepIsOk(o: Order, reported: map<OrderId, Report>)
    requires o.fillLevels == [] && o.terms.id in reported
    requires reported[o.terms.id] == Report(o.filled, o.status)
    ensures ReportOk(o, reported)
  {
  }

  lemma {:induction false} NothingToTell(orders: seq<Order>, reported: map<OrderId, Report>)
    requires forall i :: 0 <= i < |orders| ==>
      EventsFor(orders[i], Previous(reported, orders[i].terms.id)) == []
    ensures CollectEvents(orders, reported) == []
  {
    if orders != [] {
      NothingToTell(orders[..|orders| - 1], reported);
    }
  }

  lemma CollectTwice(b: Book)
    requires BusyBook(b)
    ensures Collect(Collect(b).book) == Outcome(Collect(b).book, [], [])
  {
    CollectSound(b);
    var r := Collect(b).book;
    hide Sound, ReportsOk, ReportOk;
    forall i | 0 <= i < |r.orders|
      ensures EventsFor(r.orders[i], Previous(r.reported, r.orders[i].terms.id)) == []
      ensures AfterReport(r.orders[i], Previous(r.reported, r.orders[i].terms.id)) == r.orders[i]
    {
    }
    NothingToTell(r.orders, r.reported);
    assert Collect(r).book.orders == r.orders;
    SameReports(b.orders, r.orders);
  }

  lemma {:induction false} SameReports(a: seq<Order>, b: seq<Order>)
    requires |a| == |b| && forall i :: 0 <= i < |a| ==> b[i] == a[i].(fillLevels := [])
    ensures ReportAll(a) == ReportAll(b)
  {
    if a != [] {
      var n := |a| - 1;
      SameReports(a[..n], b[..n]);
    }
  }

  // ---------- Pruning ----------

  lemma {:induction false} PruneKeeps(orders: seq<Order>, now: int, reported: map<OrderId, Report>)
    requires OrdersOk(orders) && Quiet(orders) && ReportsOk(orders, reported)
    ensures var r := Prune(orders, now);
      && OrdersOk(r) && Quiet(r) && ReportsOk(r, reported)
      && forall id :: Unused(orders, id) ==> Unused(r, id)
  {
    hide OrderOk, UntouchedIfMarket, ReportOk, Prunable;
    if orders != [] {
      var n := |orders| - 1;
      assert orders[n] == orders[n];
      PruneKeeps(orders[..n], now, reported);
      var r := Prune(orders[..n], now);
      assert Unused(orders[..n], orders[n].terms.id);
      forall id | Unused(orders, id)
        ensures Unused(r, id)
      {
        assert Unused(orders[..n], id);
      }
    }
  }

  /**
   Pruning removes an order only if it can no longer fill and is not waiting for its bracket, and
   the order's last state has been told.
   */
  lemma {:induction false} PruneIsFinal(orders: seq<Order>, now: int, o: Order)
    requires o in orders && o !in Prune(orders, now)
    ensures !o.Live() && !o.EligibleForBracket()
  {
    var n := |orders| - 1;
    assert orders == orders[..n] + [orders[n]];
    if o in orders[..n] {
      PruneIsFinal(orders[..n], now, o);
    }
  }

  lemma PrunedWasReported(b: Book, now: int, i: nat)
    requires WellBook(b) && i < |b.orders|
    ensures var told, r := Collect(Rematch(b, now)).book, RunMatching(b, now).book;
      && i < |told.orders|
      && var o := told.orders[i];
         && o.terms == b.orders[i].terms
         && (o !in r.orders ==>
               && !o.Live() && !o.EligibleForBracket()
               && o.terms.id in r.reported
               && r.reported[o.terms.id] == Report(o.filled, o.status))
  {
    RematchBusy(b, now);
    var mid := Rematch(b, now);
    CollectSound(mid);
    var told := Collect(mid).book;
    hide WellBook, Sound, ReportsOk;
    if told.orders[i] !in RunMatching(b, now).book.orders {
      assert RunMatching(b, now).book == Tidy(told, now);
      PruneIsFinal(told.orders, now, told.orders[i]);
    }
  }

  // ---------- Matching ----------

  /** Expiry and the pass keep the book sound; terms stay in place. */
  lemma RematchBusy(b: Book, now: int)
    requires WellBook(b)
    ensures var r := Rematch(b, now);
      && BusyBook(r) && |r.orders| == |b.orders|
      && forall i :: 0 <= i < |b.orders| ==> r.orders[i].terms == b.orders[i].terms
  {
    hide OrderOk, ExpireOrders, Pass, ReportsOk, DistinctIds;
    var orders := ExpireOrders(b.orders, now);
    ExpireStatusOnly(b.orders, now);
    StatusOnlyKeeps(b.orders, orders);
    ReportsStatusOnly(b.orders, orders, b.reported);
    assert forall i :: 0 <= i < |orders| ==> orders[i].terms == b.orders[i].terms;
    if !(b.expired || b.Stale(now)) {
      PassBusy(orders, b.sides, b.reported);
    }
  }

  lemma AdvanceKeepsTerms(before: seq<Order>, after: seq<Order>)
    requires OrdersAdvance(before, after)
    ensures forall i :: 0 <= i < |before| ==> after[i].terms == before[i].terms
  {
    hide OrderOk;
    forall i | 0 <= i < |before|
      ensures after[i].terms == before[i].terms
    {
      assert OrderEffect(before[i], NewFills(before[i], after[i]), after[i]);
    }
  }

  lemma PassBusy(orders: seq<Order>, sides: Sides, reported: map<OrderId, Report>)
    requires OrdersOk(orders) && SidesOk(sides) && ReportsOk(orders, reported)
    ensures var r := Pass(orders, |orders|, sides);
      && OrdersOk(r.orders) && SidesOk(r.sides) && ReportsOk(r.orders, reported)
      && OrdersAdvance(orders, r.orders) && SidesDrained(sides, orders, r.orders, r.sides)
      && forall i :: 0 <= i < |orders| ==> r.orders[i].terms == orders[i].terms
  {
    var r := Pass(orders, |orders|, sides);
    PassSound(orders, |orders|, sides);
    PassMarketUntouched(orders, |orders|, sides);
    assert orders[..|orders|] == orders;
    hide Pass, OrderOk, UntouchedIfMarket, ReportOk, OrdersAdvance, SidesDrained;
    AdvanceOk(orders, r.orders);
    AdvanceKeepsTerms(orders, r.orders);
    ReportsAdvance(orders, r.orders, reported);
    SidesPositive(sides, orders, r.orders, r.sides);
  }

  // ---------- Exits ----------

  /** An exit touches one order and the bids, and leaves the rest of the book alone. */
  lemma DoExitKeeps(b: Book, i: nat, bid: real, trigger: Trigger)
    requires BusyBook(b) && i < |b.orders| && !b.orders[i].closed && b.orders[i].filled > 0.0
    ensures var r := DoExit(b, i, bid, trigger).book;
      && BusyBook(r) && (Quiet(b.orders) ==> Quiet(r.orders))
      && r.orders[i].terms == b.orders[i].terms
  {
    assert OrderOk(b.orders[i]) && UntouchedIfMarket(b.orders[i]) && ReportOk(b.orders[i], b.reported);
    ExitSound(b.sides.bids, b.orders[i], bid, trigger);
    var e := ExecuteExit(b.sides.bids, b.orders[i], bid, trigger);
    assert ReportOk(e.order, b.reported) && UntouchedIfMarket(e.order);
    hide OrderOk, UntouchedIfMarket, ReportOk, ExecuteExit, ExitEffect;
    ReplaceKeeps(b.orders, i, e.order);
  }

  lemma TryExitKeeps(b: Book, i: nat, bid: real)
    requires BusyBook(b) && i < |b.orders|
    ensures var r := TryExit(b, i, bid).book;
      && BusyBook(r) && (Quiet(b.orders) ==> Quiet(r.orders)) && |r.orders| == |b.orders|
      && r.reported == b.reported
  {
    hide BusyBook, Quiet;
    var o := b.orders[i];
    if o.EligibleForBracket() && Fires(o, bid).Some? {
      DoExitKeeps(b, i, bid, Fires(o, bid).value);
    }
  }

  lemma MonitorUnfolds(b: Book, n: nat, bid: real)
    requires n <= |b.orders|
    ensures n == 0 ==> MonitorFirst(b, n, bid) == Outcome(b, [], [])
    ensures n > 0 ==>
      var prev := MonitorFirst(b, n - 1, bid);
      var next := TryExit(prev.book, n - 1, bid);
      MonitorFirst(b, n, bid) == Outcome(next.book, [], prev.exits + next.exits)
  {
  }

  lemma MonitorNone(b: Book, bid: real)
    ensures MonitorFirst(b, 0, bid) == Outcome(b, [], [])
  {
  }

  lemma MonitorNext(b: Book, n: nat, bid: real)
    requires 0 < n <= |b.orders|
    ensures var prev := MonitorFirst(b, n - 1, bid);
      var next := TryExit(prev.book, n - 1, bid);
      MonitorFirst(b, n, bid) == Outcome(next.book, [], prev.exits + next.exits)
  {
  }

  lemma {:induction false} MonitorKeeps(b: Book, n: nat, bid: real)
    requires BusyBook(b) && n <= |b.orders|
    ensures var r := MonitorFirst(b, n, bid).book;
      BusyBook(r) && (Quiet(b.orders) ==> Quiet(r.orders))
  {
    hide BusyBook, Quiet, TryExit;
    if n > 0 {
      MonitorKeeps(b, n - 1, bid);
      TryExitKeeps(MonitorFirst(b, n - 1, bid).book, n - 1, bid);
    }
  }

  // ---------- Placement ----------

  predicate FreshId(b: Book, id: OrderId) {
    id !in b.reported && forall i :: 0 <= i < |b.orders| ==> b.orders[i].terms.id != id
  }

  /** Orders with a new, unused id; quantities are positive. */
  predicate Admissible(b: Book, op: Op) {
    match op
    case PlaceOrder(terms, quantity, _, _) => FreshId(b, terms.id) && quantity > 0.0
    case PlaceFilled(terms, filled, _, _) =>
      FreshId(b, terms.id) && filled > 0.0 && terms.isMarket && terms.maxCost.None?
    case _ => true
  }

  lemma NewOrderOk(terms: Terms, quantity: real, tp: Option<real>, sl: Option<real>)
    requires quantity > 0.0
    ensures var o := NewOrder(terms, quantity, tp, sl);
      OrderOk(o) && UntouchedIfMarket(o) && o.Live()
  {
  }

  lemma PrefilledOrderOk(terms: Terms, filled: real, tp: Option<real>, sl: Option<real>)
    requires filled > 0.0 && terms.isMarket && terms.maxCost.None?
    ensures var o := PrefilledOrder(terms, filled, tp, sl);
      OrderOk(o) && UntouchedIfMarket(o)
  {
    ScaleBelow(filled, 0.0, terms.price);
    assert Worth(filled, terms.price) > 0.0;
  }

  lemma ReportsAppend(orders: seq<Order>, o: Order, reported: map<OrderId, Report>)
    requires ReportsOk(orders, reported) && ReportOk(o, reported)
    ensures ReportsOk(orders + [o], reported)
  {
    hide ReportOk;
  }

  lemma MatchedBusy(b: Book, o: Order)
    requires WellBook(b) && OrderOk(o) && UntouchedIfMarket(o) && FreshId(b, o.terms.id)
    requires o.filled == 0.0 && o.fillLevels == [] && o.status == PENDING
    ensures BusyBook(Matched(b, o)) && |Matched(b, o).orders| == |b.orders| + 1
    ensures Matched(b, o).orders[|b.orders|].terms == o.terms
  {
    var book := b.sides.On(o.terms.side);
    var t := Turn(book, o);
    TurnSound(book, o);
    TurnFillsPositive(book, o);
    TurnMarketUntouched(book, o);
    assert ReportOk(o, b.reported);
    assert t.order.terms == o.terms;
    hide Turn, OrderOk, ReportOk, UntouchedIfMarket, OrderEffect, NewFills;
    ReportAdvance(o, t.order, b.reported);
    AppendKeeps(b.orders, t.order);
    ReportsAppend(b.orders, t.order, b.reported);
  }

  lemma ImmediateExitKeeps(b: Book, i: nat)
    requires BusyBook(b) && i < |b.orders|
    ensures var r := ImmediateExit(b, i).book;
      BusyBook(r) && (Quiet(b.orders) ==> Quiet(r.orders))
  {
    hide BusyBook, Quiet, TryExit;
    if b.sides.bids.Keys != {} {
      TryExitKeeps(b, i, Best(Bid, b.sides.bids.Keys));
    }
  }

  lemma PlaceFilledKeeps(b: Book, o: Order)
    requires WellBook(b) && OrderOk(o) && UntouchedIfMarket(o) && FreshId(b, o.terms.id)
    requires o.status == FILLED && o.fillLevels == []
    ensures WellBook(PlacePrefilled(b, o).book)
  {
    assert ReportOk(o, b.reported);
    hide OrderOk, ReportOk, UntouchedIfMarket;
    AppendKeeps(b.orders, o);
    ReportsAppend(b.orders, o, b.reported);
    var b1 := b.(orders := b.orders + [o]);
    assert BusyBook(b1) && Quiet(b1.orders);
    hide BusyBook;
    ImmediateExitKeeps(b1, |b.orders|);
    ImmediateExitReports(b1, |b.orders|);
    BusyQuiet(ImmediateExit(b1, |b.orders|).book);
  }

  lemma BusyQuiet(b: Book)
    requires BusyBook(b) && Quiet(b.orders)
    ensures WellBook(b)
  {
  }

  lemma ImmediateExitReports(b: Book, i: nat)
    requires i < |b.orders|
    ensures ImmediateExit(b, i).book.reported == b.reported
  {
  }

  // ---------- Feed updates ----------

  lemma {:induction false} ListingPositive(levels: seq<Level>)
    ensures Positive(Listing(levels))
  {
    if levels != [] {
      ListingPositive(levels[..|levels| - 1]);
    }
  }

  lemma {:induction false} ChangesPositive(s: Sides, changes: seq<Change>)
    requires SidesOk(s)
    ensures SidesOk(ApplyChangesTo(s, changes))
  {
    if changes != [] {
      ChangesPositive(s, changes[..|changes| - 1]);
    }
  }

  // ---------- Every operation ----------

  lemma StatusStepKeeps(b: Book, orders: seq<Order>)
    requires WellBook(b) && AllStatusOnly(b.orders, orders)
    ensures WellBook(b.(orders := orders))
  {
    hide AllStatusOnly, AllOk, DistinctIds, MarketUntouched, ReportOk;
    StatusOnlyKeeps(b.orders, orders);
    ReportsStatusOnly(b.orders, orders, b.reported);
  }

  lemma SeedKeeps(b: Book, id: OrderId)
    requires WellBook(b)
    ensures WellBook(Seed(b, id))
  {
    var i := IndexOf(b.orders, id);
    if i < |b.orders| {
      var r := Seed(b, id);
      forall j | 0 <= j < |r.orders|
        ensures ReportOk(r.orders[j], r.reported)
      {
        assert ReportOk(b.orders[j], b.reported);
        if j == i {
          InStepIsOk(r.orders[j], r.reported);
        } else {
          assert r.orders[j].terms.id != id;
        }
      }
    }
  }

  lemma RunKeeps(b: Book, now: int)
    requires WellBook(b)
    ensures WellBook(RunMatching(b, now).book)
  {
    RematchBusy(b, now);
    CollectSound(Rematch(b, now));
    var told := Collect(Rematch(b, now)).book;
    hide Rematch, Collect, OrdersOk, ReportsOk, Quiet;
    PruneKeeps(told.orders, now, told.reported);
  }

  lemma PlaceKeeps(b: Book, o: Order)
    requires WellBook(b) && OrderOk(o) && UntouchedIfMarket(o) && FreshId(b, o.terms.id)
    requires o.filled == 0.0 && o.fillLevels == [] && o.status == PENDING
    ensures WellBook(Place(b, o).book)
  {
    hide BusyBook, WellBook, OrderOk, Matched, Collect, ImmediateExit;
    MatchedBusy(b, o);
    ImmediateExitKeeps(Matched(b, o), |b.orders|);
    CollectSound(ImmediateExit(Matched(b, o), |b.orders|).book);
  }

  lemma ExpireBookKeeps(b: Book)
    requires WellBook(b)
    ensures WellBook(ExpireBook(b).book)
  {
    MapStatusOnly(b.orders, CancelOrders(b.orders));
    StatusStepKeeps(b, CancelOrders(b.orders));
    var b1 := b.(expired := true, orders := CancelOrders(b.orders), sides := NO_LEVELS, raw := NO_LEVELS,
                 cache := map[]);
    assert BusyBook(b1);
    CollectSound(b1);
  }

  lemma SweepKeeps(b: Book, now: int)
    requires WellBook(b)
    ensures WellBook(SweepExpired(b, now).book)
  {
    ExpireStatusOnly(b.orders, now);
    StatusStepKeeps(b, ExpireOrders(b.orders, now));
    hide OrdersOk, ReportsOk, Quiet;
    CollectSound(b.(orders := ExpireOrders(b.orders, now)));
  }

  lemma ForceCloseKeeps(b: Book, id: OrderId)
    requires WellBook(b)
    ensures WellBook(ForceClose(b, id).book)
  {
    var i := IndexOf(b.orders, id);
    if i < |b.orders| && b.orders[i].filled > 0.0 && !b.orders[i].closed && b.sides.bids.Keys != {} {
      hide OrdersOk, ReportsOk, Quiet;
      DoExitKeeps(b, i, Best(Bid, b.sides.bids.Keys), FORCE_CLOSE);
    }
  }

  lemma DepthKeeps(b: Book, side: Side, n: int)
    requires WellBook(b)
    ensures WellBook(AskDepth(b, side, n).1)
  {
  }

  lemma PlaceOpKeeps(b: Book, op: Op)
    requires WellBook(b) && Admissible(b, op) && (op.PlaceOrder? || op.PlaceFilled?)
    ensures WellBook(Step(b, op).book)
  {
    hide WellBook, Place, PlacePrefilled;
    match op
    case PlaceOrder(terms, quantity, tp, sl) =>
      NewOrderOk(terms, quantity, tp, sl);
      PlaceKeeps(b, NewOrder(terms, quantity, tp, sl));
    case PlaceFilled(terms, filled, tp, sl) =>
      PrefilledOrderOk(terms, filled, tp, sl);
      PlaceFilledKeeps(b, PrefilledOrder(terms, filled, tp, sl));
  }

  lemma StatusOpKeeps(b: Book, op: Op)
    requires WellBook(b)
    requires op.ExpirePending? || op.CancelOrder? || op.CancelAll? || op.MarketResolved?
    ensures WellBook(Step(b, op).book)
    ensures AllStatusOnly(b.orders, Step(b, op).book.orders)
    ensures Step(b, op) == Outcome(b.(orders := Step(b, op).book.orders), [], [])
  {
    assert AllOk(b.orders);
    hide AllStatusOnly, WellBook, AllOk;
    match op
    case ExpirePending(now) =>
      ExpireStatusOnly(b.orders, now);
      StatusStepKeeps(b, ExpireOrders(b.orders, now));
    case CancelAll =>
      MapStatusOnly(b.orders, CancelOrders(b.orders));
      StatusStepKeeps(b, CancelOrders(b.orders));
    case MarketResolved =>
      MapStatusOnly(b.orders, ResolveOrders(b.orders));
      StatusStepKeeps(b, ResolveOrders(b.orders));
    case CancelOrder(id) =>
      var i := IndexOf(b.orders, id);
      if i < |b.orders| {
        CancelAtStatusOnly(b.orders, i);
        StatusStepKeeps(b, b.orders[i := CancelOne(b.orders[i])]);
      } else {
        NoStatusChange(b.orders);
      }
  }

  lemma NoStatusChange(orders: seq<Order>)
    ensures AllStatusOnly(orders, orders)
  {
  }

  lemma FeedKeeps(b: Book, op: Op)
    requires WellBook(b) && (op.Snapshot? || op.Delta? || op.Touch?)
    ensures WellBook(Step(b, op).book)
  {
    match op
    case Snapshot(bids, asks, now) =>
      ListingPositive(bids);
      ListingPositive(asks);
    case Delta(changes, now) => ChangesPositive(b.sides, changes);
    case Touch(now) =>
  }

  /** The book invariant survives every operation. */
  lemma StepKeepsWell(b: Book, op: Op)
    requires WellBook(b) && Admissible(b, op)
    ensures WellBook(Step(b, op).book)
  {
    hide WellBook, RunMatching, Monitor, ForceClose, SweepExpired, ExpireBook, AskDepth, Seed, Admissible,
      Place, PlacePrefilled;
    match op
    case SeedReport(id) => SeedKeeps(b, id);
    case Match(now) => RunKeeps(b, now);
    case MonitorBrackets => MonitorBookKeeps(b);
    case CloseAtMarket(id) => ForceCloseKeeps(b, id);
    case SweepPending(now) => SweepKeeps(b, now);
    case Expire => ExpireBookKeeps(b);
    case ReadDepth(side, n) => DepthKeeps(b, side, n);
    case PlaceOrder(_, _, _, _) => PlaceOpKeeps(b, op);
    case PlaceFilled(_, _, _, _) => PlaceOpKeeps(b, op);
    case ExpirePending(_) => StatusOpKeeps(b, op);
    case CancelOrder(_) => StatusOpKeeps(b, op);
    case CancelAll => StatusOpKeeps(b, op);
    case MarketResolved => StatusOpKeeps(b, op);
    case Snapshot(_, _, _) => FeedKeeps(b, op);
    case Delta(_, _) => FeedKeeps(b, op);
    case Touch(_) => FeedKeeps(b, op);
  }

  lemma MonitorBookKeeps(b: Book)
    requires WellBook(b)
    ensures WellBook(Monitor(b).book)
  {
    hide Sound, Quiet, ReportsOk, MonitorFirst;
    if b.sides.bids.Keys != {} {
      MonitorKeeps(b, |b.orders|, Best(Bid, b.sides.bids.Keys));
    }
  }
}
