/**
 Liquidity is never spent twice: the fills and exits that an operation publishes are exactly what
 it took from the shadow book.
 */
module Liquidity {
  import opened Ladders
  import opened Orders
  import opened Matching
  import opened Passes
  import opened Exits
  import opened Books
  import opened BookSafety
  import opened BookSteps

  /** Fill levels of published events that consumed one side of the book. */
  function EventLevels(side: Side, events: seq<Event>): seq<Level> {
    if events == [] then []
    else
      var last := events[|events| - 1];
      EventLevels(side, events[..|events| - 1]) + if Consumed(last.side) == side then last.levels else []
  }

  function ExitLevels(exits: seq<Exit>): seq<Level> {
    if exits == [] then []
    else ExitLevels(exits[..|exits| - 1]) + exits[|exits| - 1].levels
  }

  /** Everything an operation published as taken from one side. */
  function Takes(side: Side, out: Outcome): seq<Level> {
    EventLevels(side, out.events) + if side == Bid then ExitLevels(out.exits) else []
  }

  /** Fills waiting to be told. */
  function Pending(side: Side, orders: seq<Order>): seq<Level> {
    if orders == [] then []
    else
      var last := orders[|orders| - 1];
      Pending(side, orders[..|orders| - 1]) + if Consumed(last.terms.side) == side then last.fillLevels else []
  }

  lemma LevelsAssoc(a: seq<Level>, b: seq<Level>, c: seq<Level>)
    ensures a + (b + c) == a + b + c
  {
  }

  lemma EventLevelsMore(side: Side, a: seq<Event>, last: Event)
    ensures EventLevels(side, a + [last]) == EventLevels(side, a) + EventLevels(side, [last])
  {
    assert (a + [last])[..|a|] == a;
    assert [last][..0] == [];
    var none: seq<Level> := [];
    assert forall x: seq<Level> :: none + x == x;
  }

  lemma {:induction false} EventLevelsConcat(side: Side, a: seq<Event>, b: seq<Event>)
    ensures EventLevels(side, a + b) == EventLevels(side, a) + EventLevels(side, b)
  {
    if b == [] {
      assert a + b == a;
    } else {
      hide EventLevels;
      var init, last := b[..|b| - 1], b[|b| - 1];
      EventLevelsConcat(side, a, init);
      EventLevelsMore(side, init, last);
      EventLevelsMore(side, a + init, last);
      assert init + [last] == b;
      assert a + init + [last] == a + b;
      LevelsAssoc(EventLevels(side, a), EventLevels(side, init), EventLevels(side, [last]));
    }
  }

  lemma ExitLevelsMore(a: seq<Exit>, last: Exit)
    ensures ExitLevels(a + [last]) == ExitLevels(a) + last.levels
  {
    assert (a + [last])[..|a|] == a;
  }

  lemma ExitLevelsNone()
    ensures ExitLevels([]) == []
  {
  }

  lemma {:induction false} ExitLevelsConcat(a: seq<Exit>, b: seq<Exit>)
    ensures ExitLevels(a + b) == ExitLevels(a) + ExitLevels(b)
  {
    hide ExitLevels;
    if b == [] {
      assert a + b == a;
      ExitLevelsNone();
    } else {
      var init, last := b[..|b| - 1], b[|b| - 1];
      assert a + b == a + init + [last] && b == init + [last] by {
        assert init + [last] == b;
      }
      ExitLevelsConcat(a, init);
      ExitLevelsMore(init, last);
      ExitLevelsMore(a + init, last);
      LevelsAssoc(ExitLevels(a), ExitLevels(init), last.levels);
    }
  }

  lemma EventsForLevels(side: Side, o: Order, reported: map<OrderId, Report>)
    requires ReportOk(o, reported)
    ensures EventLevels(side, EventsFor(o, Previous(reported, o.terms.id))) ==
      if Consumed(o.terms.side) == side then o.fillLevels else []
  {
    ReportedFillsGrow(o, reported);
    hide ReportOk;
    var prev := Previous(reported, o.terms.id);
    var fill := Event(o.terms.id, FILL, o.terms.side, o.filled, o.AvgEntry(), o.status, o.fillLevels);
    var cancel := Event(o.terms.id, CANCEL, o.terms.side, o.filled, o.AvgEntry(), o.status, []);
    OneEventLevels(side, fill);
    OneEventLevels(side, cancel);
    EventLevelsConcat(side, [fill], [cancel]);
    assert [fill] + [] == [fill] && [] + [cancel] == [cancel];
  }

  lemma OneEventLevels(side: Side, e: Event)
    ensures EventLevels(side, [e]) == if Consumed(e.side) == side then e.levels else []
  {
    assert [e][..0] == [];
    assert EventLevels(side, [e][..0]) == [];
  }

  /** What is told is what was waiting, in the order it happened. */
  lemma {:induction false} ToldWhatWasPending(side: Side, orders: seq<Order>, reported: map<OrderId, Report>)
    requires ReportsOk(orders, reported)
    ensures EventLevels(side, CollectEvents(orders, reported)) == Pending(side, orders)
  {
    hide ReportOk, EventsFor;
    if orders != [] {
      var n := |orders| - 1;
      assert ReportOk(orders[n], reported);
      ToldWhatWasPending(side, orders[..n], reported);
      EventsForLevels(side, orders[n], reported);
      EventLevelsConcat(side, CollectEvents(orders[..n], reported),
                        EventsFor(orders[n], Previous(reported, orders[n].terms.id)));
    }
  }

  lemma {:induction false} QuietPending(side: Side, orders: seq<Order>)
    requires Quiet(orders)
    ensures Pending(side, orders) == []
  {
    if orders != [] {
      QuietPending(side, orders[..|orders| - 1]);
    }
  }

  lemma {:induction false} PendingIsFills(side: OrderSide, before: seq<Order>, after: seq<Order>)
    requires |before| == |after| && Quiet(before)
    requires forall i :: 0 <= i < |before| ==> after[i].terms == before[i].terms
    ensures Pending(Consumed(side), after) == FillsOf(side, before, after)
  {
    if before != [] {
      var n := |before| - 1;
      PendingIsFills(side, before[..n], after[..n]);
      assert NewFills(before[n], after[n]) == after[n].fillLevels;
    }
  }

  lemma {:induction false} SamePending(side: Side, a: seq<Order>, b: seq<Order>)
    requires |a| == |b|
    requires forall i :: 0 <= i < |a| ==> a[i].terms == b[i].terms && a[i].fillLevels == b[i].fillLevels
    ensures Pending(side, a) == Pending(side, b)
  {
    if a != [] {
      var n := |a| - 1;
      SamePending(side, a[..n], b[..n]);
    }
  }

  // ---------- What each phase takes ----------

  /** From `b` to `b'` exactly `takes` left this side, and the feed's own copy did not change. */
  ghost predicate Took(b: Book, side: Side, takes: seq<Level>, b': Book) {
    && Drained(b.Ladder(side), takes, b'.Ladder(side))
    && PositiveFills(takes)
    && b'.raw == b.raw
  }

  lemma TookNothing(b: Book, side: Side, b': Book)
    requires b'.sides == b.sides && b'.raw == b.raw
    ensures Took(b, side, [], b')
  {
    DrainedNothing(b.Ladder(side));
  }

  lemma TookTrans(b0: Book, side: Side, t1: seq<Level>, b1: Book, t2: seq<Level>, b2: Book)
    requires Took(b0, side, t1, b1) && Took(b1, side, t2, b2)
    ensures Took(b0, side, t1 + t2, b2)
  {
    DrainedTrans(b0.Ladder(side), t1, b1.Ladder(side), t2, b2.Ladder(side));
    PositiveConcat(t1, t2);
  }

  lemma {:induction false} FillsOfPositive(side: OrderSide, before: seq<Order>, after: seq<Order>)
    requires OrdersAdvance(before, after)
    ensures PositiveFills(FillsOf(side, before, after))
  {
    hide OrderOk, OrderEffect, PositiveFills, NewFills;
    if before == [] {
      NoPositive();
    } else {
      var n := |before| - 1;
      FillsOfPositive(side, before[..n], after[..n]);
      assert PositiveFills(NewFills(before[n], after[n]));
      NoPositive();
      PositiveConcat(FillsOf(side, before[..n], after[..n]),
                     if before[n].terms.side == side then NewFills(before[n], after[n]) else []);
    }
  }

  lemma NoPositive()
    ensures PositiveFills([])
  {
  }

  /** The pass of a rematch takes what is then waiting to be told. */
  lemma RematchTook(b: Book, now: int, side: Side)
    requires WellBook(b)
    ensures var r := Rematch(b, now); Took(b, side, Pending(side, r.orders), r)
  {
    var orders := ExpireOrders(b.orders, now);
    ExpireStatusOnly(b.orders, now);
    StatusOnlyKeeps(b.orders, orders);
    ReportsStatusOnly(b.orders, orders, b.reported);
    var r := Rematch(b, now);
    if b.expired || b.Stale(now) {
      QuietPending(side, orders);
      TookNothing(b, side, r);
    } else {
      PassBusy(orders, b.sides, b.reported);
      hide Pass, OrdersOk, ReportsOk, OrdersAdvance, FillsOf;
      var kind := if side == Ask then BUY else SELL;
      FillsOfPositive(kind, orders, r.orders);
      PendingIsFills(kind, orders, r.orders);
    }
  }

  lemma MatchedTook(b: Book, o: Order, side: Side)
    requires WellBook(b) && OrderOk(o) && o.fillLevels == []
    ensures Took(b, side, Pending(side, Matched(b, o).orders), Matched(b, o))
  {
    var book := b.sides.On(o.terms.side);
    var t := Turn(book, o);
    TurnSound(book, o);
    TurnFillsPositive(book, o);
    QuietPending(side, b.orders);
    assert (b.orders + [t.order])[..|b.orders|] == b.orders;
    assert NewFills(o, t.order) == t.order.fillLevels;
    assert t.order.terms == o.terms;
    hide Turn, OrderOk, OrderEffect, NewFills;
    DrainedNothing(b.Ladder(side));
  }

  lemma OneExitsLevels(r: Exit)
    ensures ExitLevels([r]) == r.levels
  {
    assert [r][..0] == [];
    assert [] + r.levels == r.levels;
  }

  lemma DoExitPending(b: Book, i: nat, bid: real, trigger: Trigger, side: Side)
    requires i < |b.orders|
    ensures Pending(side, DoExit(b, i, bid, trigger).book.orders) == Pending(side, b.orders)
  {
    var out := DoExit(b, i, bid, trigger);
    assert ExecuteExit(b.sides.bids, b.orders[i], bid, trigger).order.terms == b.orders[i].terms;
    SamePending(side, out.book.orders, b.orders);
  }

  lemma DoExitTook(b: Book, i: nat, bid: real, trigger: Trigger, side: Side)
    requires BusyBook(b) && i < |b.orders| && !b.orders[i].closed && b.orders[i].filled > 0.0
    ensures var out := DoExit(b, i, bid, trigger);
      && Took(b, side, Takes(side, out), out.book)
      && Pending(side, out.book.orders) == Pending(side, b.orders)
  {
    hide Pending;
    DoExitPending(b, i, bid, trigger, side);
    assert OrderOk(b.orders[i]);
    ExitSound(b.sides.bids, b.orders[i], bid, trigger);
    OneExitsLevels(ExecuteExit(b.sides.bids, b.orders[i], bid, trigger).record);
    hide OrderOk, ExecuteExit, ExitLevels;
    DrainedNothing(b.sides.asks);
  }

  lemma NothingTaken(side: Side, b: Book)
    ensures Takes(side, Outcome(b, [], [])) == []
  {
  }

  lemma TryExitTook(b: Book, i: nat, bid: real, side: Side)
    requires BusyBook(b) && i < |b.orders|
    ensures var out := TryExit(b, i, bid);
      && Took(b, side, Takes(side, out), out.book)
      && Pending(side, out.book.orders) == Pending(side, b.orders)
  {
    hide BusyBook, Took, Takes;
    var o := b.orders[i];
    if o.EligibleForBracket() && Fires(o, bid).Some? {
      DoExitTook(b, i, bid, Fires(o, bid).value, side);
    } else {
      NothingTaken(side, b);
      TookNothing(b, side, b);
    }
  }

  lemma TakesConcat(side: Side, b: Book, a: seq<Exit>, b1: Book, c: seq<Exit>, b2: Book)
    ensures Takes(side, Outcome(b2, [], a + c)) ==
      Takes(side, Outcome(b, [], a)) + Takes(side, Outcome(b1, [], c))
  {
    ExitLevelsConcat(a, c);
  }

  lemma {:induction false} MonitorTook(b: Book, n: nat, bid: real, side: Side)
    requires BusyBook(b) && n <= |b.orders|
    ensures var out := MonitorFirst(b, n, bid); Took(b, side, Takes(side, out), out.book)
  {
    hide BusyBook, Took, Takes, TryExit;
    if n == 0 {
      NothingTaken(side, b);
      TookNothing(b, side, b);
    } else {
      var prev := MonitorFirst(b, n - 1, bid);
      MonitorTook(b, n - 1, bid, side);
      MonitorKeeps(b, n - 1, bid);
      TryExitTook(prev.book, n - 1, bid, side);
      var next := TryExit(prev.book, n - 1, bid);
      TookTrans(b, side, Takes(side, prev), prev.book, Takes(side, next), next.book);
      TryExitSilent(prev.book, n - 1, bid);
      TakesConcat(side, prev.book, prev.exits, next.book, next.exits, next.book);
    }
  }

  lemma TryExitSilent(b: Book, i: nat, bid: real)
    requires i < |b.orders|
    ensures TryExit(b, i, bid).events == []
  {
  }

  lemma CollectTakes(b: Book, side: Side)
    requires BusyBook(b)
    ensures Takes(side, Collect(b)) == Pending(side, b.orders)
    ensures Took(b, side, [], Collect(b).book)
  {
    ToldWhatWasPending(side, b.orders, b.reported);
    TookNothing(b, side, Collect(b).book);
    assert ExitLevels([]) == [];
    assert Pending(side, b.orders) + [] == Pending(side, b.orders);
  }

  // ---------- Whole operations ----------

  predicate FeedOp(op: Op) {
    op.Snapshot? || op.Delta? || op.Expire?
  }

  lemma RunTook(b: Book, now: int, side: Side)
    requires WellBook(b)
    ensures var out := RunMatching(b, now); Took(b, side, Takes(side, out), out.book)
  {
    hide *;
    RematchBusy(b, now);
    RematchTook(b, now, side);
    var mid := Rematch(b, now);
    var told := Collect(mid);
    CollectTakes(mid, side);
    TookTrans(b, side, Pending(side, mid.orders), mid, [], told.book);
    assert Pending(side, mid.orders) + [] == Pending(side, mid.orders);
    TidyTook(b, side, Pending(side, mid.orders), told, now);
    RunParts(b, now);
  }

  lemma RunParts(b: Book, now: int)
    ensures var told := Collect(Rematch(b, now));
      RunMatching(b, now) == Outcome(Tidy(told.book, now), told.events, told.exits)
  {
  }

  lemma TidyTook(b: Book, side: Side, takes: seq<Level>, told: Outcome, now: int)
    requires Took(b, side, takes, told.book) && Takes(side, told) == takes
    ensures var out := Outcome(Tidy(told.book, now), told.events, told.exits);
      Took(b, side, Takes(side, out), out.book)
  {
  }

  lemma PlaceTook(b: Book, o: Order, side: Side)
    requires WellBook(b) && OrderOk(o) && UntouchedIfMarket(o) && FreshId(b, o.terms.id)
    requires o.filled == 0.0 && o.fillLevels == [] && o.status == PENDING
    ensures var out := Place(b, o); Took(b, side, Takes(side, out), out.book)
  {
    hide BusyBook, WellBook, OrderOk, Matched, Took, TryExit;
    var m := Matched(b, o);
    MatchedBusy(b, o);
    MatchedTook(b, o, side);
    ImmediateExitTook(m, |b.orders|, side);
    ImmediateExitKeeps(m, |b.orders|);
    var e := ImmediateExit(m, |b.orders|);
    CollectTakes(e.book, side);
    TookTrans(b, side, Pending(side, m.orders), m, Takes(side, e), e.book);
    TookTrans(b, side, Pending(side, m.orders) + Takes(side, e), e.book, [], Collect(e.book).book);
    ImmediateExitSilent(m, |b.orders|);
    var p := Pending(side, m.orders);
    assert Takes(side, Place(b, o)) == p + Takes(side, e) + [];
  }

  lemma ImmediateExitSilent(b: Book, i: nat)
    requires i < |b.orders|
    ensures ImmediateExit(b, i).events == []
  {
  }

  lemma ImmediateExitTook(b: Book, i: nat, side: Side)
    requires BusyBook(b) && i < |b.orders|
    ensures var out := ImmediateExit(b, i);
      && Took(b, side, Takes(side, out), out.book)
      && Pending(side, out.book.orders) == Pending(side, b.orders)
  {
    hide BusyBook, Took, Takes, TryExit;
    if b.sides.bids.Keys == {} {
      NothingTaken(side, b);
      TookNothing(b, side, b);
    } else {
      TryExitTook(b, i, Best(Bid, b.sides.bids.Keys), side);
    }
  }

  lemma PlaceFilledTook(b: Book, o: Order, side: Side)
    requires WellBook(b) && OrderOk(o) && UntouchedIfMarket(o) && FreshId(b, o.terms.id)
    requires o.status == FILLED && o.fillLevels == []
    ensures var out := PlacePrefilled(b, o); Took(b, side, Takes(side, out), out.book)
  {
    assert ReportOk(o, b.reported);
    hide OrderOk, ReportOk, UntouchedIfMarket, Took, Takes;
    AppendKeeps(b.orders, o);
    ReportsAppend(b.orders, o, b.reported);
    var b1 := b.(orders := b.orders + [o]);
    assert BusyBook(b1);
    ImmediateExitTook(b1, |b.orders|, side);
    TookNothing(b, side, b1);
    TookTrans(b, side, [], b1, Takes(side, ImmediateExit(b1, |b.orders|)), ImmediateExit(b1, |b.orders|).book);
    assert [] + Takes(side, ImmediateExit(b1, |b.orders|)) == Takes(side, ImmediateExit(b1, |b.orders|));
  }

  lemma PlaceOpTook(b: Book, op: Op, side: Side)
    requires WellBook(b) && Admissible(b, op) && (op.PlaceOrder? || op.PlaceFilled?)
    ensures var out := Step(b, op); Took(b, side, Takes(side, out), out.book)
  {
    hide WellBook, Place, PlacePrefilled, Took, Takes;
    match op
    case PlaceOrder(terms, quantity, tp, sl) =>
      NewOrderOk(terms, quantity, tp, sl);
      PlaceTook(b, NewOrder(terms, quantity, tp, sl), side);
    case PlaceFilled(terms, filled, tp, sl) =>
      PrefilledOrderOk(terms, filled, tp, sl);
      PlaceFilledTook(b, PrefilledOrder(terms, filled, tp, sl), side);
  }

  lemma CloseTook(b: Book, id: OrderId, side: Side)
    requires WellBook(b)
    ensures var out := ForceClose(b, id); Took(b, side, Takes(side, out), out.book)
  {
    var i := IndexOf(b.orders, id);
    if i < |b.orders| && b.orders[i].filled > 0.0 && !b.orders[i].closed && b.sides.bids.Keys != {} {
      hide OrdersOk, ReportsOk, Quiet, Took, Takes;
      DoExitTook(b, i, Best(Bid, b.sides.bids.Keys), FORCE_CLOSE, side);
    } else {
      NothingTaken(side, b);
      TookNothing(b, side, b);
    }
  }

  lemma SweepTook(b: Book, now: int, side: Side)
    requires WellBook(b)
    ensures var out := SweepExpired(b, now); Took(b, side, Takes(side, out), out.book)
  {
    ExpireStatusOnly(b.orders, now);
    StatusStepKeeps(b, ExpireOrders(b.orders, now));
    var b1 := b.(orders := ExpireOrders(b.orders, now));
    hide OrdersOk, ReportsOk;
    CollectTakes(b1, side);
    QuietPending(side, b1.orders);
    NothingTaken(side, b);
    TookNothing(b, side, SweepExpired(b, now).book);
  }

  lemma MonitorBookTook(b: Book, side: Side)
    requires WellBook(b)
    ensures var out := Monitor(b); Took(b, side, Takes(side, out), out.book)
  {
    hide OrdersOk, ReportsOk, Quiet, MonitorFirst, Took, Takes;
    if b.sides.bids.Keys == {} {
      NothingTaken(side, b);
      TookNothing(b, side, b);
    } else {
      MonitorTook(b, |b.orders|, Best(Bid, b.sides.bids.Keys), side);
    }
  }

  lemma SilentTook(b: Book, op: Op, side: Side)
    requires WellBook(b)
    requires op.ExpirePending? || op.CancelOrder? || op.CancelAll? || op.MarketResolved?
      || op.SeedReport? || op.ReadDepth? || op.Touch?
    ensures var out := Step(b, op); Took(b, side, Takes(side, out), out.book)
  {
    var out := Step(b, op);
    hide Took, Takes;
    NothingTaken(side, out.book);
    TookNothing(b, side, out.book);
  }

  /**
   Whatever any operation other than a feed update removes from a side of the book is, price by
   price, the fills in its events and the sales in its exits, up to a remnant below DUST at prices
   that have left the book.
   */
  lemma StepTook(b: Book, op: Op, side: Side)
    requires WellBook(b) && Admissible(b, op) && !FeedOp(op)
    ensures var out := Step(b, op); Took(b, side, Takes(side, out), out.book)
  {
    hide WellBook, RunMatching, Monitor, ForceClose, SweepExpired, Admissible, Took, Takes;
    match op
    case Match(now) => RunTook(b, now, side);
    case MonitorBrackets => MonitorBookTook(b, side);
    case CloseAtMarket(id) => CloseTook(b, id, side);
    case SweepPending(now) => SweepTook(b, now, side);
    case PlaceOrder(_, _, _, _) => PlaceOpTook(b, op, side);
    case PlaceFilled(_, _, _, _) => PlaceOpTook(b, op, side);
    case _ => SilentTook(b, op, side);
  }
}
