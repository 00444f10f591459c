/**
 From the engine to the ledger, end to end: what the consumer publishes about a LIMIT order over a
 run of its book, and what the ledger holds after the messages arrive, each any number of times.
 */
module Delivery {
  import opened Prelude
  import opened Ladders
  import opened Orders
  import opened Matching
  import opened Books
  import opened BookSafety
  import opened BookSteps
  import opened Accounts
  import opened Runs
  import opened Histories
  import opened Stream
  import opened Consumer
  import Exits
  import Expiry
  import BookTheorems

  // ---------- The consumer over a run ----------

  /** The trade each order is placed for. */
  type Assigned = map<OrderId, nat>

  /** One operation of the book: its events are handled, and an order placed for a trade is published. */
  function ConsumeOp(prev: Handled, b: Book, op: Op, bos: Assigned): Handled {
    var out := Step(b, op);
    var heard := HandleEvents(prev.tracking, out.events);
    var messages := prev.messages + heard.messages;
    if op.PlaceOrder? && op.terms.id in bos && out.book.orders != [] then
      var id, o := op.terms.id, out.book.orders[|out.book.orders| - 1];
      Handled(if o.status == CANCELED then heard.tracking - {id} else heard.tracking[id := bos[id]],
              messages + PlacedMessages(o, bos[id]))
    else Handled(heard.tracking, messages)
  }

  /** All that the consumer publishes over a run, and what it tracks then. */
  function Consume(ops: seq<Op>, bos: Assigned): Handled {
    if ops == [] then Handled(map[], [])
    else ConsumeOp(Consume(ops[..|ops| - 1], bos), Run(ops[..|ops| - 1]).book, ops[|ops| - 1], bos)
  }

  /** The message conveys the event: everything but the levels of a fill. */
  predicate Conveys(m: Message, e: Event, bo: nat) {
    match m
    case FillNote(f) =>
      e.kind == FILL && f.id == bo && f.filled == e.filled && f.avg == e.avgEntry.GetOr(0.0) && f.status == e.status
    case CancelNote(c) =>
      e.kind == CANCEL && c.id == bo && c.filled == e.filled && c.avg == e.avgEntry.GetOr(0.0)
  }

  ghost predicate AllConveyed(messages: seq<Message>, events: seq<Event>, bo: nat) {
    |messages| == |events| && forall k :: 0 <= k < |events| ==> Conveys(messages[k], events[k], bo)
  }

  lemma ConveyedConcat(m1: seq<Message>, e1: seq<Event>, m2: seq<Message>, e2: seq<Event>, bo: nat)
    requires AllConveyed(m1, e1, bo) && AllConveyed(m2, e2, bo)
    ensures AllConveyed(m1 + m2, e1 + e2, bo)
  {
    hide Conveys;
  }

  // ---------- Which messages there are about a trade ----------

  lemma {:induction false} MessagesConcat(bo: nat, a: seq<Message>, b: seq<Message>)
    ensures MessagesAbout(bo, a + b) == MessagesAbout(bo, a) + MessagesAbout(bo, b)
  {
    if b == [] {
      assert a + b == a;
    } else {
      assert (a + b)[..|a + b| - 1] == a + b[..|b| - 1];
      MessagesConcat(bo, a, b[..|b| - 1]);
    }
  }

  lemma {:induction false} NoMessages(bo: nat, messages: seq<Message>)
    requires forall m :: m in messages ==> BoOf(m) != bo
    ensures MessagesAbout(bo, messages) == []
  {
    if messages != [] {
      NoMessages(bo, messages[..|messages| - 1]);
    }
  }

  lemma {:induction false} AllAreAbout(bo: nat, messages: seq<Message>)
    requires forall m :: m in messages ==> BoOf(m) == bo
    ensures MessagesAbout(bo, messages) == messages
  {
    if messages != [] {
      var n := |messages| - 1;
      AllAreAbout(bo, messages[..n]);
      assert messages == messages[..n] + [messages[n]];
    }
  }

  /** Handling events publishes about tracked orders only, and tracks nothing new. */
  lemma {:induction false} HandlesTracked(tracking: Tracking, events: seq<Event>)
    ensures var h := HandleEvents(tracking, events);
      && (forall x :: x in h.tracking ==> x in tracking && h.tracking[x] == tracking[x])
      && (forall m :: m in h.messages ==> exists x :: x in tracking && tracking[x] == BoOf(m))
  {
    if events != [] {
      var init, e := events[..|events| - 1], events[|events| - 1];
      HandlesTracked(tracking, init);
      var h := HandleEvents(tracking, init);
      if e.id in h.tracking {
        assert BoOf(MessageOf(e, h.tracking[e.id])) == tracking[e.id];
      }
    }
  }

  // ---------- At most one event of a LIMIT order in a batch ----------

  /** The order has nothing to tell beyond what the table says. */
  predicate UpToDate(o: Order, reported: map<OrderId, Report>) {
    !o.Live() && Previous(reported, o.terms.id) == Report(o.filled, o.status)
  }

  /** What an operation publishes about an order it ends with. */
  ghost predicate TellsOne(b: Book, op: Op, o': Order) {
    var events := EventsAbout(o'.terms.id, Step(b, op).events);
    && |events| <= 1
    && forall e :: e in events ==>
         && e.filled == o'.filled && e.avgEntry == o'.AvgEntry() && e.status == o'.status
         && (e.kind == CANCEL ==> o'.status == CANCELED && e.levels == []) && (e.kind == FILL ==> o'.filled > 0.0)
  }

  lemma EventsForTells(o: Order, prev: Report)
    requires !FillsAndCancels(o, prev) && (o.filled > prev.filled ==> o.filled > 0.0)
    ensures var events, o' := EventsFor(o, prev), AfterReport(o, prev);
      && |events| <= 1
      && forall e :: e in events ==>
           && e.filled == o'.filled && e.avgEntry == o'.AvgEntry() && e.status == o'.status
           && (e.kind == CANCEL ==> o'.status == CANCELED && e.levels == []) && (e.kind == FILL ==> o'.filled > 0.0)
  {
  }

  lemma PlacedLimitNotCancelled(b: Book, o: Order)
    requires !o.terms.isMarket && o.status != CANCELED
    ensures var m := Matched(b, o); m.orders != [] && m.orders[|m.orders| - 1].status != CANCELED
  {
    hide Turn;
    Expiry.TurnKeepsLimit(b.sides.On(o.terms.side), o);
  }

  lemma ExitKeepsStatus(b: Book, n: nat, i: nat)
    requires n < |b.orders| && i < |b.orders|
    ensures var out := ImmediateExit(b, n);
      && |out.book.orders| == |b.orders|
      && out.book.orders[i].status == b.orders[i].status && out.book.orders[i].filled == b.orders[i].filled
  {
    hide Exits.Sell;
  }

  /** No telling operation has a fill and a cancellation of a LIMIT order to tell at once. */
  lemma TellerKeepsCancel(b: Book, op: Op, i: nat)
    requires WellBook(b) && Admissible(b, op) && Teller(b, op).Some? && i < |Teller(b, op).value.orders|
    requires !Teller(b, op).value.orders[i].terms.isMarket
    ensures var mid := Teller(b, op).value;
      !FillsAndCancels(mid.orders[i], Previous(b.reported, mid.orders[i].terms.id))
  {
    TellerBusy(b, op);
    hide Matched, ImmediateExit, Rematch, BusyBook, Evolves, Moves;
    if i < |b.orders| {
      OldIsQuiet(b, i);
    }
    hide WellBook;
    match op
    case Match(now) =>
      RematchBusy(b, now);
      LimitKeepsItsCancel(b, now, i);
    case PlaceOrder(terms, quantity, tp, sl) =>
      var o := NewOrder(terms, quantity, tp, sl);
      var m := Matched(b, o);
      MatchedShape(b, o);
      ExitKeepsStatus(m, |b.orders|, i);
      if i == |b.orders| {
        assert Roster(b, op)[i] == o;
        PlacedLimitNotCancelled(b, o);
      }
    case SweepPending(now) => ExpiredSameFill(b, now, i);
    case Expire =>
  }

  lemma MatchedShape(b: Book, o: Order)
    ensures var m := Matched(b, o);
      |m.orders| == |b.orders| + 1 && forall i :: 0 <= i < |b.orders| ==> m.orders[i] == b.orders[i]
  {
    hide Turn;
  }

  lemma OldIsQuiet(b: Book, i: nat)
    requires WellBook(b) && i < |b.orders|
    ensures var o := b.orders[i]; o.filled == Previous(b.reported, o.terms.id).filled || o.status == FILLED
  {
    assert ReportOk(b.orders[i], b.reported) && b.orders[i].fillLevels == [];
    NothingNew(b.orders[i], b.reported);
  }

  lemma ExpiredSameFill(b: Book, now: int, i: nat)
    requires WellBook(b) && i < |b.orders|
    ensures var o, o' := b.orders[i], ExpireOrders(b.orders, now)[i];
      o'.filled == o.filled && o'.terms == o.terms && (o.status == FILLED ==> o'.status == FILLED)
  {
    ExpiredAt(b, now, i);
    NoFillsQty();
    hide WellBook, ExpireOrders;
  }

  lemma ToldWasFilled(b: Book, op: Op, i: nat)
    requires WellBook(b) && Admissible(b, op) && Teller(b, op).Some? && i < |Teller(b, op).value.orders|
    ensures var o := Teller(b, op).value.orders[i];
      o.filled > Previous(b.reported, o.terms.id).filled ==> o.filled > 0.0
  {
    TellerBusy(b, op);
    var mid := Teller(b, op).value;
    assert OrderOk(mid.orders[i]);
    if i < |b.orders| {
      OldIsQuiet(b, i);
      assert OrderOk(b.orders[i]);
      hide WellBook, BusyBook, Teller;
    } else {
      assert Roster(b, op)[i].terms == mid.orders[i].terms;
      assert Previous(b.reported, mid.orders[i].terms.id) == Report(0.0, PENDING);
    }
  }

  lemma {:induction false} NothingAbout(id: OrderId)
    ensures EventsAbout(id, []) == [] && MessagesAbout(0, []) == []
  {
  }

  /** Every operation tells at most one thing about a LIMIT order, and tells it as it then is. */
  lemma StepTellsOne(b: Book, op: Op, o': Order)
    requires WellBook(b) && Admissible(b, op) && o' in Step(b, op).book.orders && !o'.terms.isMarket
    ensures TellsOne(b, op, o')
  {
    hide WellBook, Admissible, Step, Teller, CollectEvents, ReportAll, FillsAndCancels, EventsAbout, BusyBook,
      EventsFor, AfterReport, DistinctIds, ReportsOk;
    StepTells(b, op);
    NothingAbout(o'.terms.id);
    if Teller(b, op).Some? && Step(b, op) != Outcome(b, [], []) {
      var mid := Teller(b, op).value;
      TellerBusy(b, op);
      BusyParts(mid);
      var i := ToldOrigin(b, op, o');
      TellerKeepsCancel(b, op, i);
      ToldWasFilled(b, op, i);
      CollectedAbout(mid.orders, mid.reported, i);
      EventsForTells(mid.orders[i], Previous(mid.reported, mid.orders[i].terms.id));
    }
  }

  // ---------- What the report table says afterwards ----------

  /** The table says about the order exactly what it is. */
  predicate Current(o: Order, reported: map<OrderId, Report>) {
    Previous(reported, o.terms.id) == Report(o.filled, o.status)
  }

  /** A telling operation leaves the table current about every order. */
  lemma TellingIsCurrent(b: Book, op: Op, o': Order)
    requires WellBook(b) && Admissible(b, op) && o' in Step(b, op).book.orders
    requires Teller(b, op).Some? && Step(b, op) != Outcome(b, [], [])
    ensures Current(o', Step(b, op).book.reported)
  {
    hide WellBook, Admissible, Step, Teller, CollectEvents, ReportAll, BusyBook;
    StepTells(b, op);
    var mid := Teller(b, op).value;
    TellerBusy(b, op);
    BusyParts(mid);
    var i := ToldOrigin(b, op, o');
    ReportAllAt(mid.orders, i);
  }

  /** An operation that tells nothing leaves the table, or seeds one entry with the order as it is. */
  lemma SilentReported(b: Book, op: Op)
    requires WellBook(b) && Admissible(b, op)
    requires Teller(b, op).None? || Step(b, op) == Outcome(b, [], [])
    ensures var out := Step(b, op);
      out.book.reported == b.reported || (op.SeedReport? && out.book == Seed(b, op.id))
  {
    hide WellBook, Admissible, Exits.ExecuteExit, ExpireOrders, CancelOrders, ResolveOrders, Seed, Matched, Rematch;
    if op.MonitorBrackets? && b.sides.bids.Keys != {} {
      MonitorReported(b, |b.orders|, Best(Bid, b.sides.bids.Keys));
    }
  }

  lemma SeedKeepsCurrent(b: Book, id: OrderId, o: Order)
    requires WellBook(b) && o in b.orders && Current(o, b.reported)
    ensures Current(o, Seed(b, id).reported)
  {
    var i := IndexOf(b.orders, id);
    if i < |b.orders| && o.terms.id == id {
      var j :| 0 <= j < |b.orders| && b.orders[j] == o;
      assert i == j by {
        assert DistinctIds(b.orders);
      }
    }
  }

  /** A finished order that has been told of stays so, and nothing more is told about it. */
  lemma FinishedIsSilent(b: Book, op: Op, o: Order, o': Order)
    requires WellBook(b) && Admissible(b, op) && o in b.orders && UpToDate(o, b.reported)
    requires o' in Step(b, op).book.orders && o'.terms == o.terms && Evolves(o, o') && !o.terms.isMarket
    ensures UpToDate(o', Step(b, op).book.reported) && EventsAbout(o'.terms.id, Step(b, op).events) == []
  {
    hide WellBook, Admissible, Step, Teller, CollectEvents, ReportAll, EventsAbout, BusyBook, Seed;
    StepTells(b, op);
    NothingAbout(o'.terms.id);
    assert o'.status == o.status && o'.filled == o.filled && !o'.Live();
    if Teller(b, op).Some? && Step(b, op) != Outcome(b, [], []) {
      TellingIsCurrent(b, op, o');
      var mid := Teller(b, op).value;
      TellerBusy(b, op);
      BusyParts(mid);
      var i := ToldOrigin(b, op, o');
      CollectedAbout(mid.orders, mid.reported, i);
      NothingForUpToDate(mid.orders[i], Previous(mid.reported, o.terms.id), o');
    } else {
      SilentReported(b, op);
      SeedKeepsCurrent(b, if op.SeedReport? then op.id else o.terms.id, o);
    }
  }

  lemma NothingForUpToDate(m: Order, prev: Report, o': Order)
    requires o' == AfterReport(m, prev) && prev == Report(o'.filled, o'.status)
    ensures EventsFor(m, prev) == []
  {
  }

  // ---------- What did not move ----------

  lemma {:induction false} FillsAreAbout(id: OrderId, events: seq<Event>)
    requires forall e :: e in EventsAbout(id, events) ==> e.levels == []
    ensures FillsById(id, events) == []
  {
    if events != [] {
      var about := EventsAbout(id, events[..|events| - 1]);
      assert forall e :: e in about ==> e in EventsAbout(id, events);
      if events[|events| - 1].id == id {
        assert EventsAbout(id, events)[|about|] in EventsAbout(id, events);
      }
      FillsAreAbout(id, events[..|events| - 1]);
    }
  }

  /** An order of which no fill is told has not been filled. */
  lemma UntoldUnfilled(o: Order, events: seq<Event>, exits: seq<Exits.Exit>, o': Order)
    requires Moves(o, FillsById(o.terms.id, events), SalesById(o.terms.id, exits), o')
    requires forall e :: e in EventsAbout(o.terms.id, events) ==> e.levels == []
    ensures o'.filled == o.filled && o'.entryCost == o.entryCost && Evolves(o, o') && o'.terms == o.terms
  {
    FillsAreAbout(o.terms.id, events);
    NoFillsQty();
    hide Evolves;
    assert Cost([]) == 0.0;
  }

  // ---------- Runs ----------

  /** Different orders are placed for different trades. */
  ghost predicate OneTradeEach(bos: Assigned) {
    forall a, b :: a in bos && b in bos && bos[a] == bos[b] ==> a == b
  }

  /** The consumer only knows orders that were placed, by the trades they were placed for. */
  ghost predicate Grounded(log: Log, h: Handled, bos: Assigned) {
    && (forall x :: x in h.tracking ==> Known(log, x) && x in bos && h.tracking[x] == bos[x])
    && (forall m :: m in h.messages ==> exists x :: x in bos && bos[x] == BoOf(m) && Known(log, x))
  }

  /** No fill was told after this event. */
  ghost predicate LastFill(events: seq<Event>, k: nat)
    requires k < |events|
  {
    forall j :: k < j < |events| ==> events[j].kind == CANCEL
  }

  /**
   The events told about an order from its last fill on tell it as it is; without any it has no fills.
   Earlier events tell less, without fills only a cancellation was told, and one that tells the order
   filled tells all there is.
   */
  ghost predicate LastTells(o: Order, events: seq<Event>) {
    && (events == [] ==> o.filled == 0.0)
    && (forall k: nat :: k < |events| && LastFill(events, k) ==>
          events[k].filled == o.filled && events[k].avgEntry == o.AvgEntry())
    && (forall k: nat :: k < |events| ==>
          var e := events[k];
          && e.filled <= o.filled && (o.filled <= 0.0 ==> e.kind == CANCEL)
          && (e.kind == CANCEL ==> o.status == CANCELED)
          && (e.status == FILLED ==> o.status == FILLED && e.filled == o.filled && e.avgEntry == o.AvgEntry()))
  }

  /** Once told finished, an order has nothing more to tell. */
  ghost predicate FinishedTold(o: Order, events: seq<Event>, reported: map<OrderId, Report>) {
    forall k: nat :: k < |events| && events[k].status in {FILLED, CANCELED} ==> UpToDate(o, reported)
  }

  /** What holds of a LIMIT order placed for a trade. */
  ghost predicate Followed(o: Order, w: World, h: Handled, bo: nat) {
    var id := o.terms.id;
    && AllConveyed(MessagesAbout(bo, h.messages), EventsAbout(id, Told(w.log)), bo)
    && (id in h.tracking || UpToDate(o, w.book.reported))
    && LastTells(o, EventsAbout(id, Told(w.log)))
    && FinishedTold(o, EventsAbout(id, Told(w.log)), w.book.reported)
  }

  lemma KnownLater(log: Log, e: Entry)
    ensures forall x :: Known(log, x) ==> Known(log + [e], x)
  {
    forall x | Known(log, x) ensures Known(log + [e], x) {
      KnownSnoc(log, e, x);
    }
  }

  lemma PlacedAreAbout(o: Order, bo: nat)
    ensures forall m :: m in PlacedMessages(o, bo) ==> BoOf(m) == bo
  {
  }

  lemma StepGrounded(w: World, op: Op, h: Handled, bos: Assigned)
    requires Grounded(w.log, h, bos)
    ensures Grounded(After(w, op).log, ConsumeOp(h, w.book, op, bos), bos)
  {
    var out := Step(w.book, op);
    var e := Entry(op, out.events, out.exits);
    var heard := HandleEvents(h.tracking, out.events);
    HandlesTracked(h.tracking, out.events);
    KnownLater(w.log, e);
    hide Step, HandleEvents, Known, PlacedMessages;
    var h' := ConsumeOp(h, w.book, op, bos);
    var placed := op.PlaceOrder? && op.terms.id in bos && out.book.orders != [];
    if placed {
      KnownSnoc(w.log, e, op.terms.id);
      PlacedAreAbout(out.book.orders[|out.book.orders| - 1], bos[op.terms.id]);
    }
    forall m | m in h'.messages ensures exists x :: x in bos && bos[x] == BoOf(m) && Known(w.log + [e], x) {
      if m in h.messages {
        var x :| x in bos && bos[x] == BoOf(m) && Known(w.log, x);
      } else if m in heard.messages {
        var x :| x in h.tracking && h.tracking[x] == BoOf(m);
        assert Known(w.log, x);
      } else {
        assert placed && BoOf(m) == bos[op.terms.id];
      }
    }
  }

  lemma {:induction false} RunGrounded(ops: seq<Op>, bos: Assigned)
    ensures Grounded(Run(ops).log, Consume(ops, bos), bos)
  {
    if ops != [] {
      hide Grounded, ConsumeOp, Step;
      RunGrounded(ops[..|ops| - 1], bos);
      StepGrounded(Run(ops[..|ops| - 1]), ops[|ops| - 1], Consume(ops[..|ops| - 1], bos), bos);
    } else {
      assert Grounded([], Handled(map[], []), bos);
    }
  }

  // ---------- One step for one order ----------

  lemma GroundedIsOne(log: Log, h: Handled, bos: Assigned)
    requires Grounded(log, h, bos) && OneTradeEach(bos)
    ensures OneOrderEach(h.tracking)
  {
  }

  /** What the consumer makes of a batch that tells at most one thing about an order. */
  lemma HeardConveys(h: Handled, log: Log, bos: Assigned, id: OrderId, events: seq<Event>)
    requires Grounded(log, h, bos) && OneTradeEach(bos) && id in bos
    requires var about := EventsAbout(id, events); |about| <= 1 && (id !in h.tracking ==> about == [])
    ensures var heard, about := HandleEvents(h.tracking, events), EventsAbout(id, events);
      && AllConveyed(MessagesAbout(bos[id], heard.messages), about, bos[id])
      && (id in h.tracking && (about == [] || !(about[0].status == FILLED || about[0].status == CANCELED)) ==>
            id in heard.tracking)
  {
    var about := EventsAbout(id, events);
    var heard := HandleEvents(h.tracking, events);
    GroundedIsOne(log, h, bos);
    if id in h.tracking {
      HandlesEachAlone(h.tracking, events, id);
      assert h.tracking[id] == bos[id];
      AboutOnly(id, events);
      OneConveyed(id, bos[id], about);
    } else {
      HandlesTracked(h.tracking, events);
      hide HandleEvents, EventsAbout;
      forall m | m in heard.messages ensures BoOf(m) != bos[id] {
        var x :| x in h.tracking && h.tracking[x] == BoOf(m);
        assert x in bos && bos[x] == h.tracking[x];
      }
      NoMessages(bos[id], heard.messages);
    }
  }

  lemma {:induction false} AboutOnly(id: OrderId, events: seq<Event>)
    ensures forall e :: e in EventsAbout(id, events) ==> e.id == id
  {
    if events != [] {
      AboutOnly(id, events[..|events| - 1]);
    }
  }

  lemma OneConveyed(id: OrderId, bo: nat, events: seq<Event>)
    requires |events| <= 1 && forall e :: e in events ==> e.id == id
    ensures var one := HandleEvents(map[id := bo], events);
      && AllConveyed(one.messages, events, bo)
      && (events == [] || !(events[0].status == FILLED || events[0].status == CANCELED) ==> id in one.tracking)
  {
    var none: seq<Event> := [];
    NoneHandled(id, bo);
    hide HandleEvents;
    if events != [] {
      HandleSnoc(map[id := bo], none, events[0]);
      assert none + [events[0]] == events && events[0] in events;
      assert HandleEvents(map[id := bo], events) == HandleEvent(Handled(map[id := bo], []), events[0]);
    }
  }

  lemma NoneHandled(id: OrderId, bo: nat)
    ensures HandleEvents(map[id := bo], []) == Handled(map[id := bo], [])
  {
  }

  /** What is told about an order now: at most one thing, and the order as it is. */
  ghost predicate TellsNow(o: Order, events: seq<Event>) {
    |events| <= 1 && forall e :: e in events ==>
      && e.filled == o.filled && e.avgEntry == o.AvgEntry() && e.status == o.status
      && (e.kind == CANCEL ==> o.status == CANCELED && e.levels == []) && (e.kind == FILL ==> o.filled > 0.0)
  }

  lemma LastFillMore(told: seq<Event>, more: seq<Event>, k: nat)
    requires |more| == 1 && k < |told + more| && LastFill(told + more, k)
    ensures k == |told| || (more[0].kind == CANCEL && k < |told| && LastFill(told, k))
  {
    var all := told + more;
    if k < |told| {
      assert all[|told|] == more[0];
      forall j | k < j < |told| ensures told[j].kind == CANCEL {
        assert all[j] == told[j];
      }
    }
  }

  lemma LastTellsMore(o: Order, told: seq<Event>, o': Order, more: seq<Event>)
    requires LastTells(o, told) && TellsNow(o', more)
    requires more == [] || more[0].kind == CANCEL ==> o'.filled == o.filled && o'.entryCost == o.entryCost
    requires (!o.Live() ==> o'.status == o.status) && o.filled <= o'.filled
    requires forall k: nat :: k < |told| && told[k].status == FILLED ==> more == []
    ensures LastTells(o', told + more)
  {
    if more == [] {
      assert told + more == told;
    } else {
      var all, e := told + more, more[0];
      assert e in more;
      forall k: nat | k < |all| && LastFill(all, k)
        ensures all[k].filled == o'.filled && all[k].avgEntry == o'.AvgEntry()
      {
        LastFillMore(told, more, k);
      }
      forall k: nat | k < |all|
        ensures all[k].filled <= o'.filled && (o'.filled <= 0.0 ==> all[k].kind == CANCEL)
        ensures all[k].kind == CANCEL ==> o'.status == CANCELED
        ensures all[k].status == FILLED ==>
          o'.status == FILLED && all[k].filled == o'.filled && all[k].avgEntry == o'.AvgEntry()
      {
        assert all[k] == if k < |told| then told[k] else e;
      }
    }
  }

  /** An order that was in the book before is followed through one more operation. */
  lemma OldFollowed(w: World, op: Op, h: Handled, bos: Assigned, o: Order, o': Order)
    requires WellBook(w.book) && LegalOp(w, op) && Grounded(w.log, h, bos) && OneTradeEach(bos)
    requires o in w.book.orders && o' in Step(w.book, op).book.orders && !Places(op, o.terms.id)
    requires var out := Step(w.book, op);
      Moves(o, FillsById(o.terms.id, out.events), SalesById(o.terms.id, out.exits), o')
    requires o.terms.id in bos && !o.terms.isMarket && Followed(o, w, h, bos[o.terms.id])
    ensures Followed(o', After(w, op), ConsumeOp(h, w.book, op, bos), bos[o.terms.id])
  {
    hide *;
    var id := o.terms.id;
    var out := Step(w.book, op);
    LegalIsAdmissible(w, op);
    FollowedParts(o, w, h, bos[id]);
    OldMoves(o, out.events, out.exits, o');
    StepTellsOne(w.book, op, o');
    TellsOneNow(w.book, op, o');
    if UpToDate(o, w.book.reported) {
      FinishedIsSilent(w.book, op, o, o');
    }
    OldConveyed(w, op, h, bos, id);
    OldTells(w, op, o, o');
    if EventsAbout(id, out.events) != [] {
      TellsCurrent(w.book, op, o');
      FinishedOrTracked(o', EventsAbout(id, out.events), out.book.reported);
    }
    OldFinished(w, op, o, o');
    FollowedFrom(o', w, op, ConsumeOp(h, w.book, op, bos), bos[id]);
  }

  lemma FollowedParts(o: Order, w: World, h: Handled, bo: nat)
    requires Followed(o, w, h, bo)
    ensures AllConveyed(MessagesAbout(bo, h.messages), EventsAbout(o.terms.id, Told(w.log)), bo)
    ensures o.terms.id in h.tracking || UpToDate(o, w.book.reported)
    ensures LastTells(o, EventsAbout(o.terms.id, Told(w.log)))
    ensures FinishedTold(o, EventsAbout(o.terms.id, Told(w.log)), w.book.reported)
  {
    hide AllConveyed, MessagesAbout, EventsAbout, LastTells, UpToDate, FinishedTold;
  }

  lemma FollowedFrom(o: Order, w: World, op: Op, h: Handled, bo: nat)
    requires AllConveyed(MessagesAbout(bo, h.messages), EventsAbout(o.terms.id, Told(After(w, op).log)), bo)
    requires o.terms.id in h.tracking || UpToDate(o, Step(w.book, op).book.reported)
    requires LastTells(o, EventsAbout(o.terms.id, Told(After(w, op).log)))
    requires FinishedTold(o, EventsAbout(o.terms.id, Told(After(w, op).log)), Step(w.book, op).book.reported)
    ensures Followed(o, After(w, op), h, bo)
  {
    hide AllConveyed, MessagesAbout, EventsAbout, LastTells, UpToDate, Step, Told, FinishedTold;
  }

  lemma TellsOneNow(b: Book, op: Op, o': Order)
    requires TellsOne(b, op, o')
    ensures TellsNow(o', EventsAbout(o'.terms.id, Step(b, op).events))
    ensures |EventsAbout(o'.terms.id, Step(b, op).events)| <= 1
  {
    hide Step, EventsAbout;
  }

  /** The event that tells of an order says whether it is finished. */
  lemma FinishedOrTracked(o: Order, events: seq<Event>, reported: map<OrderId, Report>)
    requires TellsNow(o, events) && Current(o, reported) && events != []
    ensures events[0].status == FILLED || events[0].status == CANCELED ==> UpToDate(o, reported)
  {
    assert events[0] in events;
  }

  lemma OldFinished(w: World, op: Op, o: Order, o': Order)
    requires o'.terms == o.terms && TellsNow(o', EventsAbout(o.terms.id, Step(w.book, op).events))
    requires FinishedTold(o, EventsAbout(o.terms.id, Told(w.log)), w.book.reported)
    requires UpToDate(o, w.book.reported) ==> UpToDate(o', Step(w.book, op).book.reported)
    requires var more := EventsAbout(o.terms.id, Step(w.book, op).events);
      more != [] && (more[0].status == FILLED || more[0].status == CANCELED) ==>
        UpToDate(o', Step(w.book, op).book.reported)
    ensures FinishedTold(o', EventsAbout(o.terms.id, Told(After(w, op).log)), Step(w.book, op).book.reported)
  {
    hide Step, EventsAbout, Told, After, UpToDate;
    var more, told := EventsAbout(o.terms.id, Step(w.book, op).events), EventsAbout(o.terms.id, Told(w.log));
    ToldAfter(w, op);
    AboutConcat(o.terms.id, Told(w.log), Step(w.book, op).events);
  }

  lemma OldConveyed(w: World, op: Op, h: Handled, bos: Assigned, id: OrderId)
    requires Grounded(w.log, h, bos) && OneTradeEach(bos) && id in bos && !Places(op, id)
    requires AllConveyed(MessagesAbout(bos[id], h.messages), EventsAbout(id, Told(w.log)), bos[id])
    requires var more := EventsAbout(id, Step(w.book, op).events); |more| <= 1 && (id !in h.tracking ==> more == [])
    ensures var h', more := ConsumeOp(h, w.book, op, bos), EventsAbout(id, Step(w.book, op).events);
      && AllConveyed(MessagesAbout(bos[id], h'.messages), EventsAbout(id, Told(After(w, op).log)), bos[id])
      && (id in h.tracking && (more == [] || !(more[0].status == FILLED || more[0].status == CANCELED)) ==>
            id in h'.tracking)
  {
    hide Step, EventsAbout, MessagesAbout, HandleEvents, AllConveyed, Grounded, OneTradeEach, Told, ConsumeOp, After;
    var bo, out := bos[id], Step(w.book, op);
    var more, told := EventsAbout(id, out.events), EventsAbout(id, Told(w.log));
    var heard := HandleEvents(h.tracking, out.events);
    HeardConveys(h, w.log, bos, id, out.events);
    ToldAfter(w, op);
    AboutConcat(id, Told(w.log), out.events);
    MessagesConcat(bo, h.messages, heard.messages);
    ConveyedConcat(MessagesAbout(bo, h.messages), told, MessagesAbout(bo, heard.messages), more, bo);
    OthersPlaced(w, op, h, bos, id);
  }

  lemma OldTells(w: World, op: Op, o: Order, o': Order)
    requires o'.terms == o.terms && TellsNow(o', EventsAbout(o.terms.id, Step(w.book, op).events))
    requires LastTells(o, EventsAbout(o.terms.id, Told(w.log)))
    requires FinishedTold(o, EventsAbout(o.terms.id, Told(w.log)), w.book.reported)
    requires UpToDate(o, w.book.reported) ==> EventsAbout(o.terms.id, Step(w.book, op).events) == []
    requires NoLevels(EventsAbout(o.terms.id, Step(w.book, op).events)) ==>
      o'.filled == o.filled && o'.entryCost == o.entryCost
    requires (!o.Live() ==> o'.status == o.status) && o.filled <= o'.filled
    ensures LastTells(o', EventsAbout(o.terms.id, Told(After(w, op).log)))
  {
    hide Step, EventsAbout, Told, After, UpToDate, LastTells;
    var more, told := EventsAbout(o.terms.id, Step(w.book, op).events), EventsAbout(o.terms.id, Told(w.log));
    ToldAfter(w, op);
    AboutConcat(o.terms.id, Told(w.log), Step(w.book, op).events);
    if more != [] {
      assert more[0] in more;
    }
    LastTellsMore(o, told, o', more);
  }

  predicate NoLevels(events: seq<Event>) {
    forall e :: e in events ==> e.levels == []
  }

  lemma OldMoves(o: Order, events: seq<Event>, exits: seq<Exits.Exit>, o': Order)
    requires Moves(o, FillsById(o.terms.id, events), SalesById(o.terms.id, exits), o')
    ensures o'.terms == o.terms && Evolves(o, o') && (!o.Live() ==> o'.status == o.status) && o.filled <= o'.filled
    ensures NoLevels(EventsAbout(o.terms.id, events)) ==> o'.filled == o.filled && o'.entryCost == o.entryCost
  {
    if NoLevels(EventsAbout(o.terms.id, events)) {
      UntoldUnfilled(o, events, exits, o');
    }
  }

  /** Whatever is told, is told by an operation that leaves the table current. */
  lemma TellsCurrent(b: Book, op: Op, o': Order)
    requires WellBook(b) && Admissible(b, op) && o' in Step(b, op).book.orders
    requires EventsAbout(o'.terms.id, Step(b, op).events) != []
    ensures Current(o', Step(b, op).book.reported)
  {
    hide WellBook, Admissible, Step, Teller, Current;
    StepTells(b, op);
    NothingAbout(o'.terms.id);
    TellingIsCurrent(b, op, o');
  }

  /** Another order's placement says nothing about this one and leaves its tracking alone. */
  lemma OthersPlaced(w: World, op: Op, h: Handled, bos: Assigned, id: OrderId)
    requires OneTradeEach(bos) && id in bos && !Places(op, id)
    ensures var heard, h' := HandleEvents(h.tracking, Step(w.book, op).events), ConsumeOp(h, w.book, op, bos);
      && MessagesAbout(bos[id], h'.messages) == MessagesAbout(bos[id], h.messages + heard.messages)
      && (id in h'.tracking <==> id in heard.tracking)
  {
    hide Step, HandleEvents, MessagesAbout, PlacedMessages;
    var out := Step(w.book, op);
    var heard := HandleEvents(h.tracking, out.events);
    if op.PlaceOrder? && op.terms.id in bos && out.book.orders != [] {
      var placed := PlacedMessages(out.book.orders[|out.book.orders| - 1], bos[op.terms.id]);
      PlacedAreAbout(out.book.orders[|out.book.orders| - 1], bos[op.terms.id]);
      assert bos[op.terms.id] != bos[id];
      NoMessages(bos[id], placed);
      MessagesConcat(bos[id], h.messages + heard.messages, placed);
      var before := MessagesAbout(bos[id], h.messages + heard.messages);
      assert before + [] == before;
    }
  }

  lemma {:induction false} NoneAbout(id: OrderId, events: seq<Event>)
    requires forall e :: e in events ==> e.id != id
    ensures EventsAbout(id, events) == []
  {
    if events != [] {
      NoneAbout(id, events[..|events| - 1]);
    }
  }

  /** Nothing has been published about the trade of an order not placed yet. */
  lemma UnknownIsSilent(log: Log, h: Handled, bos: Assigned, id: OrderId, events: seq<Event>)
    requires Grounded(log, h, bos) && OneTradeEach(bos) && id in bos && !Known(log, id)
    ensures MessagesAbout(bos[id], h.messages) == [] && id !in h.tracking
    ensures MessagesAbout(bos[id], HandleEvents(h.tracking, events).messages) == []
  {
    HandlesTracked(h.tracking, events);
    hide HandleEvents, Known;
    forall m | m in h.messages ensures BoOf(m) != bos[id] {
      var x :| x in bos && bos[x] == BoOf(m) && Known(log, x);
    }
    NoMessages(bos[id], h.messages);
    var heard := HandleEvents(h.tracking, events);
    forall m | m in heard.messages ensures BoOf(m) != bos[id] {
      var x :| x in h.tracking && h.tracking[x] == BoOf(m);
      assert x in bos && Known(log, x);
    }
    NoMessages(bos[id], heard.messages);
  }

  lemma PlacedConveyed(messages: seq<Message>, events: seq<Event>, bo: nat)
    requires |messages| == |events| && forall k :: 0 <= k < |events| ==> messages[k] == MessageOf(Bare(events[k]), bo)
    ensures AllConveyed(messages, events, bo)
  {
  }

  /** The newest order of a placement. */
  lemma PlacedOrderIs(b: Book, op: Op, o': Order)
    requires WellBook(b) && Admissible(b, op) && op.PlaceOrder?
    requires o' in Step(b, op).book.orders && o'.terms.id == op.terms.id
    ensures var orders := Step(b, op).book.orders;
      |orders| == |b.orders| + 1 && orders[|b.orders|] == o' && Step(b, op) != Outcome(b, [], [])
  {
    BookTheorems.PlacementTellsItself(b, op);
    StepKeepsWell(b, op);
    var orders := Step(b, op).book.orders;
    DistinctOrders(Step(b, op).book);
    hide Step, WellBook, Admissible;
    var i :| 0 <= i < |orders| && orders[i] == o';
    assert i == |b.orders|;
  }

  lemma DistinctOrders(b: Book)
    requires WellBook(b)
    ensures DistinctIds(b.orders)
  {
  }

  /** All that is told about a new order is what its placement tells. */
  lemma NewTold(w: World, op: Op)
    requires op.PlaceOrder? && EventsAbout(op.terms.id, Told(w.log)) == []
    ensures EventsAbout(op.terms.id, Told(After(w, op).log)) == EventsAbout(op.terms.id, Step(w.book, op).events)
  {
    hide Step, EventsAbout, Told, After;
    var id := op.terms.id;
    ToldAfter(w, op);
    AboutConcat(id, Told(w.log), Step(w.book, op).events);
    var silent: seq<Event> := [];
    assert silent + EventsAbout(id, Step(w.book, op).events) == EventsAbout(id, Step(w.book, op).events);
  }

  /** All that is said about a new order's trade is what its placement says. */
  lemma NewMessages(log: Log, op: Op, h: Handled, bos: Assigned, events: seq<Event>, placed: seq<Message>)
    requires Grounded(log, h, bos) && OneTradeEach(bos)
    requires op.PlaceOrder? && op.terms.id in bos && !Known(log, op.terms.id)
    requires forall m :: m in placed ==> BoOf(m) == bos[op.terms.id]
    ensures MessagesAbout(bos[op.terms.id], h.messages + HandleEvents(h.tracking, events).messages + placed) == placed
  {
    hide HandleEvents, MessagesAbout, Grounded, Known, OneTradeEach;
    var bo, heard := bos[op.terms.id], HandleEvents(h.tracking, events);
    UnknownIsSilent(log, h, bos, op.terms.id, events);
    AllAreAbout(bo, placed);
    MessagesConcat(bo, h.messages, heard.messages);
    MessagesConcat(bo, h.messages + heard.messages, placed);
    var none: seq<Message> := [];
    assert none + none + placed == placed;
  }

  /** What a placement makes of the trade's messages. */
  lemma NewConveyed(w: World, op: Op, h: Handled, bos: Assigned, o': Order)
    requires WellBook(w.book) && LegalOp(w, op) && Grounded(w.log, h, bos) && OneTradeEach(bos)
    requires op.PlaceOrder? && op.terms.id in bos && !Known(w.log, op.terms.id)
    requires EventsAbout(op.terms.id, Told(w.log)) == []
    requires o' in Step(w.book, op).book.orders && o'.terms.id == op.terms.id
    ensures var id, h' := op.terms.id, ConsumeOp(h, w.book, op, bos);
      && AllConveyed(MessagesAbout(bos[id], h'.messages), EventsAbout(id, Told(After(w, op).log)), bos[id])
      && EventsAbout(id, Told(After(w, op).log)) == EventsAbout(id, Step(w.book, op).events)
      && (id in h'.tracking || o'.status == CANCELED)
  {
    var id, bo, out := op.terms.id, bos[op.terms.id], Step(w.book, op);
    var placed := PlacedMessages(o', bo);
    LegalIsAdmissible(w, op);
    AdmissibleFresh(w.book, op);
    PlacementIsStep(w.book, op);
    PlacedOrderIs(w.book, op, o');
    hide Step, WellBook, Admissible, EventsAbout, MessagesAbout, HandleEvents, AllConveyed, Grounded, OneTradeEach,
      Told, LegalOp, Known, PlacedMessages, Place, After;
    PlacementPublished(w.book, op.terms, op.quantity, op.tp, op.sl, bo);
    PlacedConveyed(placed, EventsAbout(id, out.events), bo);
    PlacedAreAbout(o', bo);
    NewMessages(w.log, op, h, bos, out.events, placed);
    NewTold(w, op);
  }

  lemma PlacementIsStep(b: Book, op: Op)
    requires op.PlaceOrder?
    ensures Step(b, op) == Place(b, NewOrder(op.terms, op.quantity, op.tp, op.sl))
  {
    hide Place;
  }

  /** An order placed for a trade is followed from its placement. */
  lemma NewFollowed(w: World, op: Op, h: Handled, bos: Assigned, o: Order, o': Order)
    requires WellBook(w.book) && LegalOp(w, op) && Grounded(w.log, h, bos) && OneTradeEach(bos)
    requires op.PlaceOrder? && op.terms.id in bos && !Known(w.log, op.terms.id)
    requires EventsAbout(op.terms.id, Told(w.log)) == []
    requires o' in Step(w.book, op).book.orders && o'.terms.id == op.terms.id && !o'.terms.isMarket
    requires o.filled == 0.0 && o.terms.id == op.terms.id
    requires var out := Step(w.book, op);
      Moves(o, FillsById(o.terms.id, out.events), SalesById(o.terms.id, out.exits), o')
    ensures Followed(o', After(w, op), ConsumeOp(h, w.book, op, bos), bos[op.terms.id])
  {
    hide *;
    var id, out := op.terms.id, Step(w.book, op);
    LegalIsAdmissible(w, op);
    NewConveyed(w, op, h, bos, o');
    StepTellsOne(w.book, op, o');
    TellsOneNow(w.book, op, o');
    PlacedOrderIs(w.book, op, o');
    PlacementTells(w.book, op);
    TellingIsCurrent(w.book, op, o');
    OldMoves(o, out.events, out.exits, o');
    var events := EventsAbout(id, out.events);
    if o'.status == CANCELED {
      CancelledUpToDate(o', out.book.reported);
    }
    if events != [] {
      FinishedOrTracked(o', events, out.book.reported);
    } else {
      NoEventsNoLevels();
    }
    NewTells(o', events, out.book.reported);
    FollowedFrom(o', w, op, ConsumeOp(h, w.book, op, bos), bos[id]);
  }

  lemma NoEventsNoLevels()
    ensures NoLevels([])
  {
  }

  lemma PlacementTells(b: Book, op: Op)
    requires op.PlaceOrder?
    ensures Teller(b, op).Some?
  {
  }

  lemma CancelledUpToDate(o: Order, reported: map<OrderId, Report>)
    requires Current(o, reported) && o.status == CANCELED
    ensures UpToDate(o, reported)
  {
  }

  lemma NewTells(o: Order, events: seq<Event>, reported: map<OrderId, Report>)
    requires TellsNow(o, events) && (events == [] ==> o.filled == 0.0)
    requires events != [] && (events[0].status == FILLED || events[0].status == CANCELED) ==> UpToDate(o, reported)
    ensures LastTells(o, events) && FinishedTold(o, events, reported)
  {
    hide UpToDate;
    if events != [] {
      assert events[0] in events;
    }
  }

  /**
   Over any legal run: what the consumer publishes about the trade of a LIMIT order conveys, one
   for one and in order, what the book told about the order; and the last of it tells the order
   as it is.
   */
  lemma {:induction false} RunFollowed(ops: seq<Op>, bos: Assigned, o': Order)
    requires Legal(ops) && OneTradeEach(bos)
    requires o' in Run(ops).book.orders && o'.terms.id in bos && !o'.terms.isMarket
    ensures Followed(o', Run(ops), Consume(ops, bos), bos[o'.terms.id])
  {
    hide *;
    if ops == [] {
      NoOrders();
    } else {
      var init, op := ops[..|ops| - 1], ops[|ops| - 1];
      var w, h := Run(init), Consume(init, bos);
      RunUnfolds(ops, bos);
      LegalParts(ops);
      RunWell(init);
      RunAccounted(init);
      RunGrounded(init, bos);
      LegalIsAdmissible(w, op);
      AfterBook(w, op);
      var i := StepOrigin(w.book, op, o');
      RosterStart(w.book, op, i);
      var o := Accounts.Roster(w.book, op)[i];
      OldMoves(o, Step(w.book, op).events, Step(w.book, op).exits, o');
      if i < |w.book.orders| {
        RunFollowed(init, bos, o);
        AccountedAt(w, i);
        NotPlacedAgain(w, op, o);
        OldFollowed(w, op, h, bos, o, o');
      } else {
        LegalIsNew(w, op, o'.terms.id);
        UnknownUntold(init, o'.terms.id);
        NoneAbout(o'.terms.id, Told(w.log));
        LimitsArePlaced(w, op, i);
        NewFollowed(w, op, h, bos, o, o');
      }
    }
  }

  lemma NoOrders()
    ensures Run([]).book.orders == []
  {
  }

  lemma RunUnfolds(ops: seq<Op>, bos: Assigned)
    requires ops != []
    ensures var init, op := ops[..|ops| - 1], ops[|ops| - 1];
      && Run(ops) == After(Run(init), op)
      && Consume(ops, bos) == ConsumeOp(Consume(init, bos), Run(init).book, op, bos)
  {
    hide After, ConsumeOp;
  }

  /** A newly placed LIMIT order comes from a standard placement, without fills. */
  lemma LimitsArePlaced(w: World, op: Op, i: nat)
    requires LegalOp(w, op) && |w.book.orders| <= i < |Accounts.Roster(w.book, op)|
    requires !Accounts.Roster(w.book, op)[i].terms.isMarket
    ensures var o := Accounts.Roster(w.book, op)[i]; op.PlaceOrder? && o.filled == 0.0 && o.terms.id == op.terms.id
  {
  }

  /**
   A placement in a run is what the consumer does with a standard order: the same messages, the same
   tracking, and the same book, as seeding the report of an order just collected changes nothing.
   */
  lemma PlacementIsProcessed(b: Book, op: Op, h: Handled, bos: Assigned)
    requires WellBook(b) && Admissible(b, op) && op.PlaceOrder? && op.terms.id in bos
    ensures var r := ProcessNew(h.tracking, b, NewOrder(op.terms, op.quantity, op.tp, op.sl), bos[op.terms.id]);
      && r.book == Step(b, op).book
      && ConsumeOp(h, b, op, bos) == Handled(r.handled.tracking, h.messages + r.handled.messages)
  {
    PlacementIsStep(b, op);
    BookTheorems.PlacementTellsItself(b, op);
    StepKeepsWell(b, op);
    var out := Step(b, op);
    var n := |b.orders|;
    PlacementTells(b, op);
    TellingIsCurrent(b, op, out.book.orders[n]);
    TellsTable(b, op);
    DistinctOrders(out.book);
    hide Step, Place, WellBook, Admissible, HandleEvents, PlacedMessages, Teller;
    var heard, placed := HandleEvents(h.tracking, out.events), PlacedMessages(out.book.orders[n], bos[op.terms.id]);
    SeedIsIdle(out.book, n);
    assert h.messages + heard.messages + placed == h.messages + (heard.messages + placed);
  }

  lemma TellsTable(b: Book, op: Op)
    requires WellBook(b) && Admissible(b, op) && op.PlaceOrder?
    ensures op.terms.id in Step(b, op).book.reported
  {
    StepTells(b, op);
    PlacementTells(b, op);
    BookTheorems.PlacementTellsItself(b, op);
    TellerBusy(b, op);
    var mid := Teller(b, op).value;
    assert Accounts.Roster(b, op)[|b.orders|].terms == op.terms;
    BusyParts(mid);
    hide Step, Teller, WellBook, Admissible, ReportAll;
    ReportAllAt(mid.orders, |b.orders|);
  }

  lemma SeedIsIdle(b: Book, i: nat)
    requires DistinctIds(b.orders) && i < |b.orders|
    requires b.orders[i].terms.id in b.reported && Current(b.orders[i], b.reported)
    ensures Seed(b, b.orders[i].terms.id) == b
  {
    var j := IndexOf(b.orders, b.orders[i].terms.id);
    assert j == i;
    assert b.reported[b.orders[i].terms.id := b.reported[b.orders[i].terms.id]] == b.reported;
  }
}
