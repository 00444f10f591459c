/** The stream of state changes over whole runs: in order, without repeats, nothing after a cancel. */
module Stream {
  import opened Prelude
  import opened Ladders
  import opened Orders
  import opened Exits
  import opened Books
  import opened BookSafety
  import opened BookSteps
  import opened Accounts
  import opened Runs
  import opened Histories

  /** Everything told so far, in order. */
  function Told(log: Log): seq<Event> {
    if log == [] then [] else Told(log[..|log| - 1]) + log[|log| - 1].events
  }

  /** Fills grow strictly; nothing follows a cancellation. */
  predicate Precedes(e: Event, e': Event) {
    e.kind == FILL && (e'.kind == FILL ==> e.filled < e'.filled)
  }

  ghost predicate Orderly(events: seq<Event>) {
    forall i, j :: 0 <= i < j < |events| && events[i].id == events[j].id ==> Precedes(events[i], events[j])
  }

  /** All that was told about `id` is at most what the report table says. */
  ghost predicate Heard(told: seq<Event>, id: OrderId, reported: map<OrderId, Report>) {
    forall e :: e in told && e.id == id ==>
      && id in reported
      && (e.kind == FILL ==> e.filled <= reported[id].filled)
      && (e.kind == CANCEL ==> reported[id].status == CANCELED)
  }

  ghost predicate AllHeard(told: seq<Event>, orders: seq<Order>, reported: map<OrderId, Report>) {
    forall i :: 0 <= i < |orders| ==> Heard(told, orders[i].terms.id, reported)
  }

  // ---------- One collection ----------

  /** What is told about one order now follows all that was told about it before. */
  lemma EventsFollow(told: seq<Event>, o: Order, reported: map<OrderId, Report>, e: Event, e': Event)
    requires ReportOk(o, reported) && Heard(told, o.terms.id, reported)
    requires e in told && e.id == o.terms.id
    requires e' in EventsFor(o, Previous(reported, o.terms.id))
    ensures Precedes(e, e')
  {
    ReportedFillsGrow(o, reported);
    hide ReportOk;
  }

  lemma EventsOrdered(o: Order, prev: Report)
    ensures Orderly(EventsFor(o, prev))
    ensures forall e :: e in EventsFor(o, prev) ==> e.id == o.terms.id
  {
  }

  lemma OrderlyConcat(a: seq<Event>, b: seq<Event>)
    requires Orderly(a) && Orderly(b)
    requires forall e, e' :: e in a && e' in b && e.id == e'.id ==> Precedes(e, e')
    ensures Orderly(a + b)
  {
    var all := a + b;
    forall i, j | 0 <= i < j < |all| && all[i].id == all[j].id
      ensures Precedes(all[i], all[j])
    {
      if j < |a| {
      } else if i >= |a| {
        assert all[i] == b[i - |a|] && all[j] == b[j - |a|];
      } else {
        assert all[i] in a && all[j] in b;
      }
    }
  }

  lemma {:induction false} CollectSource(orders: seq<Order>, reported: map<OrderId, Report>, e: Event)
    returns (i: nat)
    requires e in CollectEvents(orders, reported)
    ensures i < |orders| && e in EventsFor(orders[i], Previous(reported, orders[i].terms.id))
    ensures e.id == orders[i].terms.id
  {
    var n := |orders| - 1;
    if e in CollectEvents(orders[..n], reported) {
      i := CollectSource(orders[..n], reported, e);
    } else {
      i := n;
    }
  }

  lemma {:induction false} CollectOrderly(told: seq<Event>, orders: seq<Order>, reported: map<OrderId, Report>)
    requires Orderly(told) && DistinctIds(orders) && ReportsOk(orders, reported)
    requires AllHeard(told, orders, reported)
    ensures Orderly(told + CollectEvents(orders, reported))
  {
    hide ReportOk, EventsFor, Heard, Precedes;
    if orders == [] {
      assert told + [] == told;
    } else {
      var n := |orders| - 1;
      var prev := Previous(reported, orders[n].terms.id);
      var earlier := CollectEvents(orders[..n], reported);
      CollectOrderly(told, orders[..n], reported);
      EventsOrdered(orders[n], prev);
      forall e | e in earlier
        ensures e.id != orders[n].terms.id
      {
        var i := CollectSource(orders[..n], reported, e);
        assert orders[..n][i] == orders[i];
      }
      forall e, e' | e in told + earlier && e' in EventsFor(orders[n], prev) && e.id == e'.id
        ensures Precedes(e, e')
      {
        assert e'.id == orders[n].terms.id;
        assert e in told;
        assert ReportOk(orders[n], reported) && Heard(told, orders[n].terms.id, reported);
        EventsFollow(told, orders[n], reported, e, e');
      }
      OrderlyConcat(told + earlier, EventsFor(orders[n], prev));
      assert told + earlier + EventsFor(orders[n], prev) == told + CollectEvents(orders, reported);
    }
  }

  lemma EventsHeard(o: Order, prev: Report, e: Event)
    requires e in EventsFor(o, prev)
    ensures e.kind == FILL ==> e.filled == o.filled
    ensures e.kind == CANCEL ==> o.status == CANCELED
  {
  }

  /** After collecting, the table covers the old events and the new. */
  lemma CollectHeard(told: seq<Event>, orders: seq<Order>, reported: map<OrderId, Report>, i: nat)
    requires DistinctIds(orders) && ReportsOk(orders, reported) && i < |orders|
    requires Heard(told, orders[i].terms.id, reported)
    ensures Heard(told + CollectEvents(orders, reported), orders[i].terms.id, ReportAll(orders))
  {
    var o, id := orders[i], orders[i].terms.id;
    assert ReportOk(o, reported);
    NoQtyNoCost(o.fillLevels);
    ReportAllAt(orders, i);
    hide ReportOk, EventsFor;
    forall e | e in told + CollectEvents(orders, reported) && e.id == id
      ensures e.kind == FILL ==> e.filled <= ReportAll(orders)[id].filled
      ensures e.kind == CANCEL ==> ReportAll(orders)[id].status == CANCELED
    {
      if e in CollectEvents(orders, reported) {
        var k := CollectSource(orders, reported, e);
        assert k == i;
        EventsHeard(o, Previous(reported, id), e);
      } else {
        ToldIsReported(told, o, reported, e);
      }
    }
  }

  lemma ToldIsReported(told: seq<Event>, o: Order, reported: map<OrderId, Report>, e: Event)
    requires ReportOk(o, reported) && Heard(told, o.terms.id, reported)
    requires e in told && e.id == o.terms.id
    ensures e.kind == FILL ==> e.filled <= o.filled
    ensures e.kind == CANCEL ==> o.status == CANCELED
  {
    NoQtyNoCost(o.fillLevels);
  }

  // ---------- Every operation ----------

  /** The book on which an operation collects, for those that do. */
  function Teller(b: Book, op: Op): Option<Book> {
    match op
    case PlaceOrder(terms, quantity, tp, sl) =>
      Some(ImmediateExit(Matched(b, NewOrder(terms, quantity, tp, sl)), |b.orders|).book)
    case Match(now) => Some(Rematch(b, now))
    case SweepPending(now) => Some(b.(orders := ExpireOrders(b.orders, now)))
    case Expire =>
      Some(b.(expired := true, orders := CancelOrders(b.orders), sides := NO_LEVELS, raw := NO_LEVELS,
              cache := map[]))
    case _ => None
  }

  /** A collecting operation publishes exactly what its book has to tell; the others publish nothing. */
  lemma StepTells(b: Book, op: Op)
    requires WellBook(b) && Admissible(b, op)
    ensures var out, teller := Step(b, op), Teller(b, op);
      && (teller.Some? && out != Outcome(b, [], []) ==>
            && out.events == CollectEvents(teller.value.orders, teller.value.reported)
            && out.book.reported == ReportAll(teller.value.orders))
      && (teller.None? ==> out.events == [])
  {
    hide CollectEvents, ReportAll, CollectOrders, Rematch, Matched, ExpireOrders, CancelOrders, WellBook,
      ExecuteExit, Prune;
    if op.MonitorBrackets? || op.CloseAtMarket? {
      ExitOpAligned(b, op);
    }
  }

  /** After a telling operation an order is as its book had it, with nothing waiting to be told. */
  lemma ToldOrigin(b: Book, op: Op, o': Order) returns (i: nat)
    requires WellBook(b) && Admissible(b, op) && Teller(b, op).Some? && Step(b, op) != Outcome(b, [], [])
    requires o' in Step(b, op).book.orders
    ensures var mid := Teller(b, op).value;
      && i < |mid.orders|
      && o' == AfterReport(mid.orders[i], Previous(mid.reported, mid.orders[i].terms.id))
      && o'.terms == mid.orders[i].terms
  {
    hide *;
    var mid := Teller(b, op).value;
    CollectedBook(b, op);
    CollectedAre(mid.orders, mid.reported);
    var orders := CollectOrders(mid.orders, mid.reported);
    i :| 0 <= i < |orders| && orders[i] == o';
  }

  lemma CollectedAre(orders: seq<Order>, reported: map<OrderId, Report>)
    ensures var r := CollectOrders(orders, reported);
      && |r| == |orders|
      && forall i :: 0 <= i < |r| ==>
           r[i] == AfterReport(orders[i], Previous(reported, orders[i].terms.id)) && r[i].terms == orders[i].terms
  {
  }

  lemma CollectedBook(b: Book, op: Op)
    requires Teller(b, op).Some? && Step(b, op) != Outcome(b, [], [])
    ensures var mid := Teller(b, op).value;
      forall o :: o in Step(b, op).book.orders ==> o in CollectOrders(mid.orders, mid.reported)
  {
    StepSubset(b, op);
    hide CollectEvents, ReportAll, CollectOrders, Rematch, Matched, ExpireOrders, CancelOrders, Prune, ImmediateExit;
  }

  lemma TellerBusy(b: Book, op: Op)
    requires WellBook(b) && Admissible(b, op) && Teller(b, op).Some?
    ensures var mid, roster := Teller(b, op).value, Roster(b, op);
      && BusyBook(mid) && mid.reported == b.reported && |mid.orders| == |roster|
      && forall i :: 0 <= i < |roster| ==> mid.orders[i].terms == roster[i].terms
  {
    hide Admissible, Matched, ImmediateExit, Rematch;
    match op
    case Match(now) =>
      RematchBusy(b, now);
      RematchReported(b, now);
    case PlaceOrder(terms, quantity, tp, sl) =>
      AdmissibleFresh(b, op);
      NewOrderOk(terms, quantity, tp, sl);
      var o := NewOrder(terms, quantity, tp, sl);
      MatchedBusy(b, o);
      MatchedMoves(b, o);
      MatchedReported(b, o);
      hide WellBook, BusyBook, Moves, OrderOk;
      ImmediateExitKeeps(Matched(b, o), |b.orders|);
      ImmediateExitAligned(Matched(b, o), |b.orders|);
    case SweepPending(now) =>
      ExpireStatusOnly(b.orders, now);
      StatusStepKeeps(b, ExpireOrders(b.orders, now));
    case Expire =>
      MapStatusOnly(b.orders, CancelOrders(b.orders));
      StatusStepKeeps(b, CancelOrders(b.orders));
  }

  lemma AdmissibleFresh(b: Book, op: Op)
    requires Admissible(b, op) && op.PlaceOrder?
    ensures FreshId(b, op.terms.id) && op.quantity > 0.0
  {
  }

  lemma RematchReported(b: Book, now: int)
    ensures Rematch(b, now).reported == b.reported
  {
  }

  lemma MatchedReported(b: Book, o: Order)
    ensures Matched(b, o).reported == b.reported
  {
  }

  ghost predicate StreamOk(w: World) {
    Orderly(Told(w.log)) && AllHeard(Told(w.log), w.book.orders, w.book.reported)
  }

  lemma ToldAfter(w: World, op: Op)
    ensures Told(After(w, op).log) == Told(w.log) + Step(w.book, op).events
  {
    hide Step;
    var log := After(w, op).log;
    assert log[..|log| - 1] == w.log;
  }

  /** Nothing was ever told about an id that is not known. */
  lemma {:induction false} UnknownUntold(ops: seq<Op>, id: OrderId)
    requires Legal(ops) && !Known(Run(ops).log, id)
    ensures forall e :: e in Told(Run(ops).log) ==> e.id != id
  {
    if ops != [] {
      hide Step, WellBook, Admissible, AllAccounted;
      var w, op := Run(ops[..|ops| - 1]), ops[|ops| - 1];
      LegalParts(ops);
      var out := Step(w.book, op);
      KnownSnoc(w.log, Entry(op, out.events, out.exits), id);
      UnknownUntold(ops[..|ops| - 1], id);
      RunWell(ops[..|ops| - 1]);
      RunAccounted(ops[..|ops| - 1]);
      StepAligned(w.book, op);
      UnknownIsUnused(w, op, id);
      ToldAfter(w, op);
    }
  }

  /** A collecting step keeps the stream in order. */
  lemma TellingStep(w: World, op: Op, roster: seq<Order>)
    requires WellBook(w.book) && Admissible(w.book, op) && StreamOk(w)
    requires Teller(w.book, op).Some? && Step(w.book, op) != Outcome(w.book, [], [])
    requires roster == Roster(w.book, op) && AllHeard(Told(w.log), roster, w.book.reported)
    ensures Orderly(Told(After(w, op).log))
    ensures AllHeard(Told(After(w, op).log), roster, After(w, op).book.reported)
  {
    hide Step, WellBook, Admissible, Roster, Teller;
    var mid := Teller(w.book, op).value;
    StepTells(w.book, op);
    TellerBusy(w.book, op);
    ToldAfter(w, op);
    hide Heard;
    forall i | 0 <= i < |mid.orders|
      ensures Heard(Told(w.log), mid.orders[i].terms.id, mid.reported)
    {
      assert roster[i].terms == mid.orders[i].terms;
      assert Heard(Told(w.log), roster[i].terms.id, w.book.reported);
    }
    BusyParts(mid);
    CollectOrderly(Told(w.log), mid.orders, mid.reported);
    forall i | 0 <= i < |roster|
      ensures Heard(Told(After(w, op).log), roster[i].terms.id, After(w, op).book.reported)
    {
      assert roster[i].terms == mid.orders[i].terms;
      CollectHeard(Told(w.log), mid.orders, mid.reported, i);
    }
  }

  lemma BusyParts(b: Book)
    requires BusyBook(b)
    ensures DistinctIds(b.orders) && ReportsOk(b.orders, b.reported)
  {
  }

  /** A step that tells nothing at most seeds one report with the order as it is. */
  lemma SilentStep(b: Book, op: Op, told: seq<Event>, roster: seq<Order>)
    requires WellBook(b) && Admissible(b, op) && Teller(b, op).None?
    requires roster == Roster(b, op) && AllHeard(told, roster, b.reported)
    ensures AllHeard(told, roster, Step(b, op).book.reported)
  {
    hide WellBook, Admissible, Heard, ExecuteExit;
    match op
    case SeedReport(id) =>
      var i := IndexOf(b.orders, id);
      if i < |b.orders| {
        SeedHeard(b, i, told);
        forall k | 0 <= k < |roster|
          ensures Heard(told, roster[k].terms.id, Seed(b, id).reported)
        {
          assert Heard(told, roster[k].terms.id, b.reported);
          if roster[k].terms.id != id {
            OtherHeard(told, roster[k].terms.id, b.reported, id, Report(b.orders[i].filled, b.orders[i].status));
          }
        }
      }
    case MonitorBrackets =>
      if b.sides.bids.Keys != {} {
        MonitorReported(b, |b.orders|, Best(Bid, b.sides.bids.Keys));
      }
    case _ =>
  }

  lemma {:induction false} MonitorReported(b: Book, n: nat, bid: real)
    requires n <= |b.orders|
    ensures MonitorFirst(b, n, bid).book.reported == b.reported
  {
    if n > 0 {
      MonitorReported(b, n - 1, bid);
    }
  }

  lemma SeedHeard(b: Book, i: nat, told: seq<Event>)
    requires WellBook(b) && i < |b.orders| && Heard(told, b.orders[i].terms.id, b.reported)
    ensures var o := b.orders[i];
      Heard(told, o.terms.id, b.reported[o.terms.id := Report(o.filled, o.status)])
  {
    hide OrdersOk;
    assert ReportOk(b.orders[i], b.reported);
    NoQtyNoCost(b.orders[i].fillLevels);
  }

  lemma OtherHeard(told: seq<Event>, id: OrderId, reported: map<OrderId, Report>, other: OrderId, r: Report)
    requires Heard(told, id, reported) && id != other
    ensures Heard(told, id, reported[other := r])
  {
  }

  /** Whatever the book ends with was in the roster, by id. */
  lemma HeardSurvives(b: Book, op: Op, told: seq<Event>, roster: seq<Order>, reported: map<OrderId, Report>)
    requires WellBook(b) && Admissible(b, op)
    requires roster == Roster(b, op) && AllHeard(told, roster, reported)
    ensures AllHeard(told, Step(b, op).book.orders, reported)
  {
    hide WellBook, Admissible, Heard, Step, Roster;
    var orders := Step(b, op).book.orders;
    forall k | 0 <= k < |orders|
      ensures Heard(told, orders[k].terms.id, reported)
    {
      var i := StepOrigin(b, op, orders[k]);
      MovesTerms(roster[i], FillsById(roster[i].terms.id, Step(b, op).events),
                 SalesById(roster[i].terms.id, Step(b, op).exits), orders[k]);
    }
  }

  lemma RosterHeard(ops: seq<Op>, op: Op)
    requires Legal(ops) && LegalOp(Run(ops), op) && StreamOk(Run(ops))
    ensures AllHeard(Told(Run(ops).log), Roster(Run(ops).book, op), Run(ops).book.reported)
  {
    var w := Run(ops);
    var roster := Roster(w.book, op);
    hide Run, Legal, Admissible;
    forall i | 0 <= i < |roster|
      ensures Heard(Told(w.log), roster[i].terms.id, w.book.reported)
    {
      RosterStart(w.book, op, i);
      if i < |w.book.orders| {
        assert Heard(Told(w.log), w.book.orders[i].terms.id, w.book.reported);
      } else {
        UnknownUntold(ops, roster[i].terms.id);
      }
    }
  }

  /**
   Over any run the stream is in order: for each order, reported fills strictly grow, and after its
   cancellation nothing more is told, so it is cancelled at most once.
   */
  lemma {:induction false} RunOrderly(ops: seq<Op>)
    requires Legal(ops)
    ensures StreamOk(Run(ops))
  {
    if ops != [] {
      hide Step, WellBook, Admissible, StreamOk, LegalOp, Teller;
      var init, op := ops[..|ops| - 1], ops[|ops| - 1];
      var w := Run(init);
      LegalParts(ops);
      RunOrderly(init);
      RunWell(init);
      RosterHeard(init, op);
      StreamStep(w, op);
    } else {
      assert StreamOk(World(EMPTY_BOOK, []));
    }
  }

  lemma StreamStep(w: World, op: Op)
    requires WellBook(w.book) && Admissible(w.book, op) && StreamOk(w)
    requires AllHeard(Told(w.log), Roster(w.book, op), w.book.reported)
    ensures StreamOk(After(w, op))
  {
    hide Step, WellBook, Admissible, Heard, Teller, Orderly;
    var roster, out := Roster(w.book, op), Step(w.book, op);
    ToldAfter(w, op);
    StepTells(w.book, op);
    if out == Outcome(w.book, [], []) {
      assert Told(w.log) + [] == Told(w.log);
    } else {
      if Teller(w.book, op).Some? {
        TellingStep(w, op, roster);
      } else {
        assert Told(w.log) + [] == Told(w.log);
        SilentStep(w.book, op, Told(w.log), roster);
      }
      HeardSurvives(w.book, op, Told(After(w, op).log), roster, out.book.reported);
    }
  }
}
