/**
 Per-order accounts over whole runs: what an order holds is what was published about it, order
 states only move forward, and the depth cache never goes stale.
 */
module Histories {
  import opened Ladders
  import opened Orders
  import opened Matching
  import opened Passes
  import opened Exits
  import opened Books
  import opened BookSafety
  import opened BookSteps
  import opened Accounts
  import opened Runs

  /** All fill levels ever published for an order. */
  function FillsLog(log: Log, id: OrderId): seq<Level> {
    if log == [] then [] else FillsLog(log[..|log| - 1], id) + FillsById(id, log[|log| - 1].events)
  }

  /** All exit levels ever published for an order. */
  function SalesLog(log: Log, id: OrderId): seq<Level> {
    if log == [] then [] else SalesLog(log[..|log| - 1], id) + SalesById(id, log[|log| - 1].exits)
  }

  /** What an order brought with it when it was placed already filled. */
  function BroughtBy(op: Op, id: OrderId): Level {
    if op.PlaceFilled? && op.terms.id == id then Level(op.terms.price, op.filled) else Level(1.0, 0.0)
  }

  function Brought(log: Log, id: OrderId): seq<Level> {
    if log == [] then [] else Brought(log[..|log| - 1], id) + [BroughtBy(log[|log| - 1].op, id)]
  }

  /** The order is what it brought, plus every published fill, minus every published sale. */
  ghost predicate Accounted(o: Order, log: Log) {
    var id := o.terms.id;
    && Known(log, id)
    && o.filled == Qty(Brought(log, id)) + Qty(FillsLog(log, id))
    && o.entryCost == Cost(Brought(log, id)) + Cost(FillsLog(log, id))
    && o.Exited() == Qty(SalesLog(log, id))
    && o.Proceeds() == Cost(SalesLog(log, id))
  }

  /** Nothing has been published about an id that was never placed. */
  ghost predicate Silent(log: Log, id: OrderId) {
    FillsLog(log, id) == [] && SalesLog(log, id) == [] && Qty(Brought(log, id)) == 0.0 == Cost(Brought(log, id))
  }

  ghost predicate AllAccounted(w: World) {
    && (forall i :: 0 <= i < |w.book.orders| ==> Accounted(w.book.orders[i], w.log))
    && (forall id :: !Known(w.log, id) ==> Silent(w.log, id))
  }

  lemma KnownSnoc(log: Log, e: Entry, id: OrderId)
    ensures Known(log + [e], id) <==> Known(log, id) || Places(e.op, id)
  {
    var all := log + [e];
    assert all[|log|] == e;
    if Known(log, id) {
      var i :| 0 <= i < |log| && Places(log[i].op, id);
      assert all[i] == log[i];
    }
  }

  lemma LogsSnoc(log: Log, e: Entry, id: OrderId)
    ensures FillsLog(log + [e], id) == FillsLog(log, id) + FillsById(id, e.events)
    ensures SalesLog(log + [e], id) == SalesLog(log, id) + SalesById(id, e.exits)
    ensures Brought(log + [e], id) == Brought(log, id) + [BroughtBy(e.op, id)]
  {
    assert (log + [e])[..|log|] == log;
  }

  /** An order already accounted for stays so when it moves by what is published. */
  lemma OldAccounted(o: Order, log: Log, e: Entry, o': Order)
    requires Accounted(o, log) && !Places(e.op, o.terms.id)
    requires Moves(o, FillsById(o.terms.id, e.events), SalesById(o.terms.id, e.exits), o')
    ensures Accounted(o', log + [e])
  {
    var id := o.terms.id;
    hide Evolves, Qty, Cost, Known, Brought, FillsLog, SalesLog, Worth;
    MovesTerms(o, FillsById(id, e.events), SalesById(id, e.exits), o');
    KnownSnoc(log, e, id);
    LogsSnoc(log, e, id);
    QtyConcat(FillsLog(log, id), FillsById(id, e.events));
    QtyConcat(SalesLog(log, id), SalesById(id, e.exits));
    QtySnoc(Brought(log, id), BroughtBy(e.op, id));
    NothingWorth(1.0);
  }

  /** A newly placed order is accounted for by what it brought and what is published at once. */
  lemma NewAccounted(o: Order, log: Log, e: Entry, o': Order)
    requires !Known(log, o.terms.id) && Silent(log, o.terms.id) && Places(e.op, o.terms.id)
    requires o.filled == BroughtBy(e.op, o.terms.id).qty && o.Exited() == 0.0 && o.Proceeds() == 0.0
    requires o.entryCost == Worth(BroughtBy(e.op, o.terms.id).qty, BroughtBy(e.op, o.terms.id).price)
    requires Moves(o, FillsById(o.terms.id, e.events), SalesById(o.terms.id, e.exits), o')
    ensures Accounted(o', log + [e])
  {
    var id := o.terms.id;
    hide Evolves, Qty, Cost, Known, Brought, FillsLog, SalesLog, Worth;
    MovesTerms(o, FillsById(id, e.events), SalesById(id, e.exits), o');
    KnownSnoc(log, e, id);
    LogsSnoc(log, e, id);
    assert [] + FillsById(id, e.events) == FillsById(id, e.events);
    assert [] + SalesById(id, e.exits) == SalesById(id, e.exits);
    QtySnoc(Brought(log, id), BroughtBy(e.op, id));
  }

  lemma RosterStart(b: Book, op: Op, i: nat)
    requires i < |Roster(b, op)|
    ensures i < |b.orders| ==> Roster(b, op)[i] == b.orders[i]
    ensures i >= |b.orders| ==>
      var o := Roster(b, op)[i];
      && Places(op, o.terms.id) && o.Exited() == 0.0 && o.Proceeds() == 0.0
      && o.filled == BroughtBy(op, o.terms.id).qty
      && o.entryCost == Worth(BroughtBy(op, o.terms.id).qty, BroughtBy(op, o.terms.id).price)
  {
    NothingWorth(1.0);
  }

  lemma {:induction false} PruneSubset(orders: seq<Order>, now: int)
    ensures forall o :: o in Prune(orders, now) ==> o in orders
  {
    if orders != [] {
      PruneSubset(orders[..|orders| - 1], now);
    }
  }

  lemma StepSubset(b: Book, op: Op)
    ensures forall o :: o in Step(b, op).book.orders ==> o in Unpruned(b, op)
  {
    if op.Match? {
      hide Rematch, Collect;
      PruneSubset(Collect(Rematch(b, op.now)).book.orders, op.now);
    }
  }

  /** Each order an operation ends with came from one it started with. */
  lemma StepOrigin(b: Book, op: Op, o': Order) returns (i: nat)
    requires WellBook(b) && Admissible(b, op) && o' in Step(b, op).book.orders
    ensures var roster, out := Roster(b, op), Step(b, op);
      && i < |roster|
      && Moves(roster[i], FillsById(roster[i].terms.id, out.events), SalesById(roster[i].terms.id, out.exits), o')
  {
    StepAligned(b, op);
    StepSubset(b, op);
    hide WellBook, Step, Moves, Admissible, Roster, Unpruned, About;
    i :| 0 <= i < |Unpruned(b, op)| && Unpruned(b, op)[i] == o';
  }

  lemma StepSilent(w: World, op: Op, id: OrderId)
    requires WellBook(w.book) && LegalOp(w, op) && AllAccounted(w)
    requires !Known(After(w, op).log, id)
    ensures Silent(After(w, op).log, id)
  {
    var out := Step(w.book, op);
    var e := Entry(op, out.events, out.exits);
    StepAligned(w.book, op);
    KnownSnoc(w.log, e, id);
    LogsSnoc(w.log, e, id);
    UnknownIsUnused(w, op, id);
    hide WellBook, Step, Aligned, Admissible, Qty, Cost, Worth;
    NotAbout(id, Roster(w.book, op), out.events, out.exits);
    QtySnoc(Brought(w.log, id), BroughtBy(op, id));
    NothingWorth(1.0);
  }

  lemma UnknownIsUnused(w: World, op: Op, id: OrderId)
    requires AllAccounted(w) && !Known(w.log, id) && !Places(op, id)
    ensures Unused(Roster(w.book, op), id)
  {
    hide Known;
    forall i | 0 <= i < |Roster(w.book, op)|
      ensures Roster(w.book, op)[i].terms.id != id
    {
      RosterStart(w.book, op, i);
      if i < |w.book.orders| {
        assert Accounted(w.book.orders[i], w.log);
      }
    }
  }

  lemma StepAccounted(w: World, op: Op, k: nat)
    requires WellBook(w.book) && LegalOp(w, op) && AllAccounted(w)
    requires k < |After(w, op).book.orders|
    ensures Accounted(After(w, op).book.orders[k], After(w, op).log)
  {
    var out := Step(w.book, op);
    var e, o' := Entry(op, out.events, out.exits), out.book.orders[k];
    assert Admissible(w.book, op);
    var i := StepOrigin(w.book, op, o');
    var o := Roster(w.book, op)[i];
    RosterStart(w.book, op, i);
    hide Step, Moves, WellBook, Accounted, Silent, Admissible;
    if i < |w.book.orders| {
      assert Accounted(o, w.log);
      NotPlacedAgain(w, op, o);
      OldAccounted(o, w.log, e, o');
    } else {
      NewAccounted(o, w.log, e, o');
    }
  }

  lemma NotPlacedAgain(w: World, op: Op, o: Order)
    requires LegalOp(w, op) && Accounted(o, w.log)
    ensures !Places(op, o.terms.id)
  {
    hide Admissible;
  }

  /**
   In every reachable state each order's filled quantity and cost are what it was placed with plus
   every published fill, and its exited quantity and proceeds (price times quantity) are the sum of
   every published exit.
   */
  lemma {:induction false} RunAccounted(ops: seq<Op>)
    requires Legal(ops)
    ensures AllAccounted(Run(ops))
  {
    if ops == [] {
    } else {
      hide WellBook, Accounted, Silent, LegalOp, Step;
      var w, op := Run(ops[..|ops| - 1]), ops[|ops| - 1];
      LegalParts(ops);
      RunAccounted(ops[..|ops| - 1]);
      RunWell(ops[..|ops| - 1]);
      forall k | 0 <= k < |Run(ops).book.orders|
        ensures Accounted(Run(ops).book.orders[k], Run(ops).log)
      {
        StepAccounted(w, op, k);
      }
      forall id | !Known(Run(ops).log, id)
        ensures Silent(Run(ops).log, id)
      {
        StepSilent(w, op, id);
      }
    }
  }

  // ---------- Orders only move forward ----------

  /** An order seen in two states of a run has only moved forward in between. */
  lemma {:induction false} RunEvolves(ops: seq<Op>, more: seq<Op>, o: Order, o': Order)
    requires Legal(ops + more)
    requires o in Run(ops).book.orders && o' in Run(ops + more).book.orders
    requires o.terms.id == o'.terms.id
    ensures Evolves(o, o')
    decreases |more|
  {
    if more == [] {
      assert ops + more == ops;
      RunWell(ops);
      SameOrder(Run(ops).book, o, o');
    } else {
      var rest, op := more[..|more| - 1], more[|more| - 1];
      var all := ops + more;
      assert all[..|all| - 1] == ops + rest && all[|all| - 1] == op;
      LegalParts(all);
      RunWell(ops + rest);
      RunAccounted(ops + rest);
      var w := Run(ops + rest);
      var i := StepOrigin(w.book, op, o');
      RosterStart(w.book, op, i);
      var o1 := Roster(w.book, op)[i];
      assert Evolves(o1, o');
      hide Step, WellBook, Moves, Evolves, Admissible, Roster, AllAccounted;
      StillKnown(ops, rest, o);
      if i < |w.book.orders| {
        RunEvolves(ops, rest, o, o1);
        EvolvesTrans(o, o1, o');
      } else {
        assert false;
      }
    }
  }

  lemma SameOrder(b: Book, o: Order, o': Order)
    requires WellBook(b) && o in b.orders && o' in b.orders && o.terms.id == o'.terms.id
    ensures Evolves(o, o')
  {
    hide OrderOk, ReportOk;
    var i :| 0 <= i < |b.orders| && b.orders[i] == o;
    var j :| 0 <= j < |b.orders| && b.orders[j] == o';
    assert i == j;
  }

  lemma {:induction false} StillKnown(ops: seq<Op>, more: seq<Op>, o: Order)
    requires Legal(ops + more) && o in Run(ops).book.orders
    ensures Known(Run(ops + more).log, o.terms.id)
    decreases |more|
  {
    hide Step, Accounted, WellBook;
    if more == [] {
      assert ops + more == ops;
      RunAccounted(ops);
      var i :| 0 <= i < |Run(ops).book.orders| && Run(ops).book.orders[i] == o;
      AccountedIsKnown(o, Run(ops).log);
    } else {
      var rest, op := more[..|more| - 1], more[|more| - 1];
      var all := ops + more;
      assert all[..|all| - 1] == ops + rest && all[|all| - 1] == op;
      LegalParts(all);
      StillKnown(ops, rest, o);
      var out := Step(Run(ops + rest).book, op);
      KnownSnoc(Run(ops + rest).log, Entry(op, out.events, out.exits), o.terms.id);
    }
  }

  lemma AccountedIsKnown(o: Order, log: Log)
    requires Accounted(o, log)
    ensures Known(log, o.terms.id)
  {
  }

  // ---------- The depth cache ----------

  /** Every cached listing is what would be computed from the book now. */
  ghost predicate CacheFresh(b: Book) {
    forall side, n :: (side, n) in b.cache ==> b.cache[(side, n)] == Depth(side, n, b.Ladder(side))
  }

  lemma {:induction false} MonitorFresh(b: Book, n: nat, bid: real)
    requires CacheFresh(b) && n <= |b.orders|
    ensures CacheFresh(MonitorFirst(b, n, bid).book)
  {
    hide Depth, ExecuteExit;
    if n > 0 {
      MonitorFresh(b, n - 1, bid);
    }
  }

  lemma StepFresh(b: Book, op: Op)
    requires CacheFresh(b)
    ensures CacheFresh(Step(b, op).book)
  {
    hide Depth, ExecuteExit, Turn, Pass, CollectEvents, CollectOrders, ReportAll, Prune, ExpireOrders,
      CancelOrders, ResolveOrders, Listing, ApplyChangesTo;
    if op.MonitorBrackets? {
      hide MonitorFirst;
      if b.sides.bids.Keys != {} {
        MonitorFresh(b, |b.orders|, Best(Bid, b.sides.bids.Keys));
      }
    }
  }

  lemma {:induction false} RunFresh(ops: seq<Op>)
    ensures CacheFresh(Run(ops).book)
  {
    if ops != [] {
      hide CacheFresh, Step;
      RunFresh(ops[..|ops| - 1]);
      StepFresh(Run(ops[..|ops| - 1]).book, ops[|ops| - 1]);
    }
  }

  /** Asking for the best `n` levels at any time gives the best `n` levels, cached or not. */
  lemma DepthIsCurrent(ops: seq<Op>, side: Side, n: int)
    requires n > 0
    ensures var b := Run(ops).book;
      var all := Items(side, b.Ladder(side));
      AskDepth(b, side, n).0 == all[..if n <= |all| then n else |all|]
  {
    RunFresh(ops);
    DepthIsTop(side, n, Run(ops).book.Ladder(side));
  }

  // ---------- What an order was placed as ----------

  lemma LegalIsAdmissible(w: World, op: Op)
    requires LegalOp(w, op)
    ensures Admissible(w.book, op)
  {
  }

  lemma AfterBook(w: World, op: Op)
    ensures After(w, op).book == Step(w.book, op).book
  {
    hide Step;
  }

  lemma AccountedAt(w: World, i: nat)
    requires AllAccounted(w) && i < |w.book.orders|
    ensures Accounted(w.book.orders[i], w.log)
  {
  }

  lemma LegalIsNew(w: World, op: Op, id: OrderId)
    requires LegalOp(w, op) && Places(op, id)
    ensures !Known(w.log, id)
  {
    hide Admissible, Known;
  }

  lemma {:induction false} LogHoldsOps(ops: seq<Op>)
    ensures |Run(ops).log| == |ops| && forall i :: 0 <= i < |ops| ==> Run(ops).log[i].op == ops[i]
  {
    hide Step;
    if ops != [] {
      LogHoldsOps(ops[..|ops| - 1]);
    }
  }

  lemma PlacedIsKnown(ops: seq<Op>, i: nat)
    requires i < |ops| && ops[i].PlaceOrder?
    ensures Known(Run(ops).log, ops[i].terms.id)
  {
    LogHoldsOps(ops);
    assert Places(Run(ops).log[i].op, ops[i].terms.id);
  }

  /** An order never wants more than it was placed for. */
  lemma {:induction false} PlacedQuantity(ops: seq<Op>, i: nat, o: Order)
    requires Legal(ops) && i < |ops| && ops[i].PlaceOrder?
    requires o in Run(ops).book.orders && o.terms.id == ops[i].terms.id
    ensures o.terms == ops[i].terms && o.quantity <= ops[i].quantity
  {
    hide *;
    var init, op := ops[..|ops| - 1], ops[|ops| - 1];
    var w := Run(init);
    LegalParts(ops);
    RunWell(init);
    RunAccounted(init);
    LegalIsAdmissible(w, op);
    AfterBook(w, op);
    var j := StepOrigin(w.book, op, o);
    RosterStart(w.book, op, j);
    var before := Roster(w.book, op)[j];
    MovesOn(before, FillsById(before.terms.id, Step(w.book, op).events),
            SalesById(before.terms.id, Step(w.book, op).exits), o);
    QuantityShrinks(before, o);
    if i < |init| {
      PlacedIsKnown(init, i);
      if j < |w.book.orders| {
        PlacedQuantity(init, i, before);
      } else {
        LegalIsNew(w, op, o.terms.id);
      }
    } else {
      PlacesIts(op);
      LegalIsNew(w, op, o.terms.id);
      if j < |w.book.orders| {
        AccountedAt(w, j);
        AccountedIsKnown(before, w.log);
      } else {
        PlacedAs(w.book, op, j);
      }
    }
  }

  lemma QuantityShrinks(o: Order, o': Order)
    requires Evolves(o, o')
    ensures o'.quantity <= o.quantity
  {
  }

  lemma PlacesIts(op: Op)
    requires op.PlaceOrder?
    ensures Places(op, op.terms.id)
  {
  }

  lemma PlacedAs(b: Book, op: Op, j: nat)
    requires op.PlaceOrder? && |b.orders| <= j < |Roster(b, op)|
    ensures Roster(b, op)[j].terms == op.terms && Roster(b, op)[j].quantity == op.quantity
  {
  }

  lemma MovesOn(o: Order, fills: seq<Level>, sales: seq<Level>, o': Order)
    requires Moves(o, fills, sales, o')
    ensures o'.terms == o.terms && Evolves(o, o')
  {
  }
}
