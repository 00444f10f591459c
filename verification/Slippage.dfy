/** Over whole runs, every fill of a MARKET order stays within its slippage of its reference price. */
module Slippage {
  import opened Ladders
  import opened Orders
  import opened Matching
  import opened Passes
  import opened Exits
  import opened Books
  import opened BookSafety
  import opened BookSteps
  import opened Accounts
  import opened Runs
  import opened Histories
  import opened Stream

  /** These fills of a MARKET order are within its slippage of the reference it has recorded. */
  ghost predicate Fair(o: Order, fills: seq<Level>) {
    o.terms.isMarket ==>
      forall f :: f in fills ==> o.slippageRef.Some? && WithinSlippage(o.terms, o.slippageRef.value, f.price)
  }

  lemma FairLater(o: Order, fills: seq<Level>, o': Order)
    requires Fair(o, fills) && Evolves(o, o')
    ensures Fair(o', fills)
  {
  }

  lemma FairConcat(o: Order, a: seq<Level>, b: seq<Level>)
    requires Fair(o, a) && Fair(o, b)
    ensures Fair(o, a + b)
  {
  }

  lemma NothingIsFair(o: Order)
    ensures Fair(o, [])
  {
  }

  lemma TurnFair(book: Ladder, o: Order)
    requires OrderOk(o) && Positive(book)
    ensures Fair(Turn(book, o).order, NewFills(o, Turn(book, o).order))
  {
    TurnUnfolds(book, o);
    if o.Live() && o.terms.isMarket {
      MarketWithinSlippage(book, o);
    }
    TurnSound(book, o);
    hide OrderOk, Matching.Turn, WithinSlippage, CostOk, ExitOk, ProgressOk;
  }

  lemma {:induction false} PassFair(orders: seq<Order>, n: nat, sides: Sides, i: nat)
    requires i < n <= |orders| && AllOk(orders) && Positive(sides.bids) && Positive(sides.asks)
    ensures Fair(Pass(orders, n, sides).orders[i], NewFills(orders[i], Pass(orders, n, sides).orders[i]))
  {
    hide Pass, Matching.Turn, AllOk, Positive, Fair, OrdersAdvance, SidesDrained, OrderOk, NewFills;
    PassUnfolds(orders, n, sides);
    if i < n - 1 {
      PassFair(orders, n - 1, sides, i);
    } else {
      var prev := Pass(orders, n - 1, sides);
      PassSound(orders, n - 1, sides);
      SidesPositive(sides, orders[..n - 1], prev.orders, prev.sides);
      AllOkAt(orders, i);
      TurnFair(prev.sides.On(orders[i].terms.side), orders[i]);
    }
  }

  // ---------- One operation ----------

  lemma RematchFair(b: Book, now: int, i: nat)
    requires WellBook(b) && i < |b.orders|
    ensures var mid := Rematch(b, now);
      |mid.orders| == |b.orders| && Fair(mid.orders[i], mid.orders[i].fillLevels)
  {
    var orders := ExpireOrders(b.orders, now);
    ExpiredBusy(b, now);
    ExpiredAt(b, now, i);
    OrdersAllOk(orders);
    RematchOrders(b, now);
    SidesAre(b);
    NothingIsFair(orders[i]);
    hide WellBook, Rematch, Pass, ExpireOrders, OrdersOk, Fair, SidesOk;
    if !(b.expired || b.Stale(now)) {
      var r := Pass(orders, |orders|, b.sides);
      PassFair(orders, |orders|, b.sides, i);
      PassSound(orders, |orders|, b.sides);
      assert orders[..|orders|] == orders;
      AdvanceAt(orders, r.orders, i);
      FirstFills(orders[i], r.orders[i]);
    }
  }

  lemma SidesAre(b: Book)
    requires WellBook(b)
    ensures Positive(b.sides.bids) && Positive(b.sides.asks)
  {
  }

  lemma MatchedFair(b: Book, o: Order, i: nat)
    requires WellBook(b) && OrderOk(o) && o.fillLevels == [] && i < |b.orders| + 1
    ensures var mid := Matched(b, o);
      |mid.orders| == |b.orders| + 1 && Fair(mid.orders[i], mid.orders[i].fillLevels)
  {
    SidesAre(b);
    if i < |b.orders| {
      assert b.orders[i].fillLevels == [];
      NothingIsFair(b.orders[i]);
    } else {
      var book := b.sides.On(o.terms.side);
      TurnFair(book, o);
      TurnSound(book, o);
      FirstFills(o, Turn(book, o).order);
    }
    hide WellBook, Fair, OrderOk, Matching.Turn;
  }

  /** What an operation has its book tell about an order is fair. */
  lemma TellerFair(b: Book, op: Op, i: nat)
    requires WellBook(b) && Admissible(b, op) && Teller(b, op).Some? && i < |Teller(b, op).value.orders|
    ensures Fair(Teller(b, op).value.orders[i], Teller(b, op).value.orders[i].fillLevels)
  {
    hide Admissible, Matched, ImmediateExit, Rematch, Fair, WellBook, Evolves, Moves;
    match op
    case Match(now) =>
      RematchBusy(b, now);
      RematchFair(b, now, i);
    case PlaceOrder(terms, quantity, tp, sl) =>
      AdmissibleFresh(b, op);
      NewOrderOk(terms, quantity, tp, sl);
      var o := NewOrder(terms, quantity, tp, sl);
      MatchedBusy(b, o);
      var m := Matched(b, o);
      ImmediateExitAligned(m, |b.orders|);
      var out := ImmediateExit(m, |b.orders|);
      MatchedFair(b, o, i);
      AlignedEvolves(m.orders, out.exits, out.book.orders, i);
      FairLater(m.orders[i], m.orders[i].fillLevels, out.book.orders[i]);
    case SweepPending(now) =>
      ExpiredAt(b, now, i);
      NothingIsFair(ExpireOrders(b.orders, now)[i]);
    case Expire =>
      QuietCancelled(b, i);
      NothingIsFair(CancelOrders(b.orders)[i]);
  }

  lemma QuietCancelled(b: Book, i: nat)
    requires WellBook(b) && i < |b.orders|
    ensures CancelOrders(b.orders)[i].fillLevels == []
  {
    assert b.orders[i].fillLevels == [];
  }

  lemma AlignedEvolves(before: seq<Order>, exits: seq<Exit>, after: seq<Order>, i: nat)
    requires Aligned(before, [], exits, after) && i < |before|
    ensures i < |after| && Evolves(before[i], after[i])
  {
    hide Evolves, Qty, Cost;
  }

  /** Every fill an operation publishes is fair to the order it leaves. */
  lemma StepFair(b: Book, op: Op, o': Order)
    requires WellBook(b) && Admissible(b, op) && o' in Step(b, op).book.orders
    ensures Fair(o', FillsById(o'.terms.id, Step(b, op).events))
  {
    hide WellBook, Admissible, Step, Teller, Fair, CollectEvents, ReportAll;
    StepTells(b, op);
    NoSales(o'.terms.id);
    NothingIsFair(o');
    if Teller(b, op).Some? && Step(b, op) != Outcome(b, [], []) {
      var mid := Teller(b, op).value;
      TellerBusy(b, op);
      BusyParts(mid);
      var i := ToldOrigin(b, op, o');
      TellerFair(b, op, i);
      CollectedFor(mid.orders, mid.reported, i);
      FairTold(mid.orders[i], Previous(mid.reported, mid.orders[i].terms.id));
    }
  }

  lemma FairTold(o: Order, prev: Report)
    requires Fair(o, o.fillLevels)
    ensures Fair(AfterReport(o, prev), o.fillLevels)
  {
  }

  // ---------- Runs ----------

  /**
   In every reachable state, every fill ever published for a MARKET order in the book lies within the
   order's slippage of the reference price it has recorded.
   */
  lemma {:induction false} RunFair(ops: seq<Op>, o': Order)
    requires Legal(ops) && o' in Run(ops).book.orders
    ensures Fair(o', FillsLog(Run(ops).log, o'.terms.id))
  {
    if ops != [] {
      var init, op := ops[..|ops| - 1], ops[|ops| - 1];
      var w := Run(init);
      hide WellBook, Step, Moves, Evolves, Admissible, Roster, AllAccounted, Fair, FillsLog;
      LegalParts(ops);
      RunWell(init);
      RunAccounted(init);
      var out := Step(w.book, op);
      var i := StepOrigin(w.book, op, o');
      RosterStart(w.book, op, i);
      var o := Roster(w.book, op)[i];
      MovesEvolves(o, FillsById(o.terms.id, out.events), SalesById(o.terms.id, out.exits), o');
      StepFair(w.book, op, o');
      LogsSnoc(w.log, Entry(op, out.events, out.exits), o'.terms.id);
      if i < |w.book.orders| {
        RunFair(init, o);
        FairLater(o, FillsLog(w.log, o.terms.id), o');
      } else {
        NewIsSilent(w, op, o.terms.id);
        NothingIsFair(o');
      }
      FairConcat(o', FillsLog(w.log, o'.terms.id), FillsById(o'.terms.id, out.events));
    }
  }

  lemma MovesEvolves(o: Order, fills: seq<Level>, sales: seq<Level>, o': Order)
    requires Moves(o, fills, sales, o')
    ensures Evolves(o, o') && o'.terms == o.terms
  {
  }

  lemma NewIsSilent(w: World, op: Op, id: OrderId)
    requires AllAccounted(w) && LegalOp(w, op) && Places(op, id)
    ensures FillsLog(w.log, id) == []
  {
    assert !Known(w.log, id);
    assert Silent(w.log, id);
  }
}
