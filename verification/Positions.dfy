/**
 The whole life of a position: bought at the API, handed to the engine, sold there by its bracket, and
 settled in the ledger.
 */
module Positions {
  import opened Prelude
  import opened Ladders
  import opened Orders
  import opened Books
  import opened BookSafety
  import opened BookSteps
  import opened Consumer
  import opened Brackets
  import opened Payouts
  import C = Creation
  import Accounts
  import Expiry
  import F = Fees
  import Exits
  import L = Ledger
  import P = LedgerProofs

  /** What is handed to the engine carries the bracket of the request and the session it was routed to. */
  ghost predicate CarriesRequest(req: L.OrderRequest, view: L.View, q: L.QueueMessage) {
    && q.side == BUY && q.tp == req.tp && q.sl == req.sl
    && q.timeframe == req.timeframe && q.offset == view.offset && q.settlementAt == view.settlementAt
    && (q.prefilled.None? ==> q.ttl == req.ttl && q.limit == req.limit == q.price && q.slippage == req.slippage)
  }

  /**
   Something is handed to the engine exactly when the trade waits, when a LIMIT order could not spend its
   whole amount, or when there is a bracket to watch.
   */
  lemma HandedOverExactly(l: L.Ledger, req: L.OrderRequest, view: L.View)
    requires P.Sane(P.Create(req, view)) && L.CreateOrder(l, req, view).answer.Ok?
    ensures var r := L.CreateOrder(l, req, view);
      && |r.ledger.trades| == |l.trades| + 1
      && var t := r.ledger.trades[|l.trades|];
         && (r.queued.Some? <==>
               t.engineStatus == L.Queued || (req.limit.Some? && t.amount < req.amount) || req.tp.Some? || req.sl.Some?)
         && (r.queued.Some? ==> CarriesRequest(req, view, r.queued.value))
         && (t.engineStatus == L.PartlyFilled <==> req.limit.Some? && t.amount < req.amount)
         && (t.engineStatus == L.Prefilled <==>
               t.shares.Some? && (req.limit.Some? ==> t.amount == req.amount) && (req.tp.Some? || req.sl.Some?))
         && (t.engineStatus == L.NoEngine <==> r.queued.None?)
  {
    var levels := C.CreatedExactly(l, req, view);
    hide C.Holds, C.Bought, C.Welcome, C.AsRequested, C.Charged, Cost, F.TakerFee, Afford;
    if L.Aggressive(req, view) {
      AggressiveFills(l, req, view);
    }
  }

  /** The engine's order for a trade that waits: a LIMIT BUY at its limit, for as much as it holds. */
  ghost predicate WaitsFor(o: Order, t: L.Trade, req: L.OrderRequest, id: OrderId, now: nat) {
    && o.terms.id == id && o.terms.side == BUY && !o.terms.isMarket && Some(o.terms.price) == t.limitPrice
    && o.terms.maxCost.None? && o.terms.createdAt == now && o.terms.expireAt.Some?
    && o.tp == req.tp && o.sl == req.sl
    && 0.0 < o.quantity && Worth(o.quantity, o.terms.price) == t.amount
  }

  /**
   An order that waits, when its message is placed: the engine holds a LIMIT BUY at the limit of the trade, for
   exactly what the trade holds, with the bracket of the request; it has been matched, and its bracket looked at
   once, at the best bid of the moment; and it is tracked for the trade.
   */
  lemma QueuedIsPlaced(l: L.Ledger, req: L.OrderRequest, view: L.View, tracking: Tracking, b: Book, id: OrderId,
                       bestAsk: Option<Price>, now: nat)
    requires P.Sane(P.Create(req, view)) && L.CreateOrder(l, req, view).answer.Ok?
    requires L.CreateOrder(l, req, view).queued.Some? && L.CreateOrder(l, req, view).queued.value.prefilled.None?
    requires WellBook(b) && !b.expired && FreshId(b, id)
    ensures var r := L.CreateOrder(l, req, view);
      && |r.ledger.trades| == |l.trades| + 1 && Placeable(r.queued.value)
      && var t, placed, n := r.ledger.trades[|l.trades|], Process(tracking, b, r.queued.value, id, bestAsk, now, true),
                             |b.orders|;
         && |placed.book.orders| == n + 1 && placed.book.orders[..n] == b.orders
         && var o := placed.book.orders[n];
            && WaitsFor(o, t, req, id, now) && Reported(placed.book, n)
            && (exists exits :: FreshWatched(b.sides.bids, req.tp, req.sl, exits, o))
            && o.status != CANCELED && id in placed.handled.tracking && placed.handled.tracking[id] == |l.trades|
  {
    QueuedExactly(l, req, view);
    HandedOverExactly(l, req, view);
    var r := L.CreateOrder(l, req, view);
    var q, t := r.queued.value, r.ledger.trades[|l.trades|];
    hide L.CreateOrder, CarriesRequest, Process, WellBook, FreshWatched, Reported, QueuedAsHeld, WaitsFor;
    HeldIsPlaceable(q, t);
    WaitingIsPlaced(tracking, b, q, t, id, bestAsk, now, req, view);
  }

  lemma HeldIsPlaceable(q: L.QueueMessage, t: L.Trade)
    requires QueuedAsHeld(q, t)
    ensures Placeable(q)
  {
  }

  /** What placing the message of an order that waits does. */
  lemma WaitingIsPlaced(tracking: Tracking, b: Book, q: L.QueueMessage, t: L.Trade, id: OrderId, bestAsk: Option<Price>,
                        now: nat, req: L.OrderRequest, view: L.View)
    requires QueuedAsHeld(q, t) && q.prefilled.None? && CarriesRequest(req, view, q) && t.amount > 0.0
    requires Placeable(q) && WellBook(b) && !b.expired && FreshId(b, id)
    ensures var placed, n := Process(tracking, b, q, id, bestAsk, now, true), |b.orders|;
      && |placed.book.orders| == n + 1 && placed.book.orders[..n] == b.orders && Reported(placed.book, n)
      && var o := placed.book.orders[n];
         && WaitsFor(o, t, req, id, now)
         && (exists exits :: FreshWatched(b.sides.bids, req.tp, req.sl, exits, o))
         && o.status != CANCELED && id in placed.handled.tracking && placed.handled.tracking[id] == q.bo
  {
    var terms := TermsFor(q, id, now);
    QueuedTerms(q, t, id, now, bestAsk, req, view);
    var op := PlaceOrder(terms, QuantityFor(q, bestAsk), q.tp, q.sl);
    assert Admissible(b, op);
    PlacementWatches(b, op);
    WatchedBracket(b.sides.bids, op.tp, op.sl, Step(b, op).exits, Step(b, op).book.orders[|b.orders|]);
    Expiry.NewLimitStands(b, op);
    PlacedQuantity(b, op);
    StepKeepsWell(b, op);
    SeedReports(Step(b, op).book, |b.orders|);
    assert Step(b, op) == Place(b, NewOrder(terms, QuantityFor(q, bestAsk), q.tp, q.sl));
    hide Seed, Step, Place, WellBook, FreshWatched, TermsFor, QuantityFor, HandleEvents, PlacedMessages, Worth,
      Reported, QueuedAsHeld, CarriesRequest;
  }

  lemma QueuedTerms(q: L.QueueMessage, t: L.Trade, id: OrderId, now: nat, bestAsk: Option<Price>, req: L.OrderRequest,
                    view: L.View)
    requires QueuedAsHeld(q, t) && q.prefilled.None? && CarriesRequest(req, view, q) && t.amount > 0.0
    ensures var terms, quantity := TermsFor(q, id, now), QuantityFor(q, bestAsk);
      && terms.id == id && terms.side == BUY && !terms.isMarket && Some(terms.price) == t.limitPrice
      && terms.maxCost.None? && terms.createdAt == now && terms.expireAt == ExpireAtFor(q, now)
      && Worth(quantity, terms.price) == t.amount && quantity > 0.0 && q.tp == req.tp && q.sl == req.sl
  {
    PositiveQuantity(q.quantity, q.limit.value);
    hide Worth;
  }

  lemma PositiveQuantity(q: real, p: Price)
    ensures Worth(q, p) > 0.0 ==> q > 0.0
  {
  }

  lemma PlacedQuantity(b: Book, op: Op)
    requires WellBook(b) && Admissible(b, op) && op.PlaceOrder? && !op.terms.isMarket
    ensures |Step(b, op).book.orders| == |b.orders| + 1
    ensures Step(b, op).book.orders[|b.orders|].quantity == op.quantity
  {
    Expiry.NewLimitStands(b, op);
    Accounts.StepAligned(b, op);
    var placed, out := NewOrder(op.terms, op.quantity, op.tp, op.sl), Step(b, op);
    var o := out.book.orders[|b.orders|];
    assert Accounts.Roster(b, op)[|b.orders|] == placed && Accounts.Unpruned(b, op) == out.book.orders;
    hide Step, WellBook, Admissible;
    assert Accounts.Moves(placed, Accounts.FillsById(placed.terms.id, out.events),
                          Accounts.SalesById(placed.terms.id, out.exits), o);
  }

  /** The engine's order for a trade that was bought at the API. */
  ghost predicate StandsFor(o: Order, t: L.Trade, id: OrderId) {
    && o.terms.id == id && o.terms.side == BUY && o.terms.expireAt == t.settlementAt
    && o.status == FILLED && t.shares == Some(o.filled) && o.filled > 0.0
    && t.avgPrice.Some? && o.entryCost == Worth(o.filled, t.avgPrice.value)
    && o.tp == t.tp && o.sl == t.sl
  }

  /**
   A position bought at the API, when its message is placed: the engine holds an order for the same shares
   at the same cost, with the bracket of the request; it is tracked for the trade, nothing is published as
   filled, and its bracket is looked at once, at the best bid of the moment.
   */
  lemma BoughtIsWatched(l: L.Ledger, req: L.OrderRequest, view: L.View, tracking: Tracking, b: Book, id: OrderId,
                        bestAsk: Option<Price>, now: nat)
    requires P.Sane(P.Create(req, view)) && L.CreateOrder(l, req, view).answer.Ok?
    requires L.CreateOrder(l, req, view).queued.Some? && L.CreateOrder(l, req, view).queued.value.prefilled.Some?
    requires WellBook(b) && !b.expired && FreshId(b, id)
    ensures var r := L.CreateOrder(l, req, view);
      && |r.ledger.trades| == |l.trades| + 1 && Placeable(r.queued.value)
      && var t, placed, n := r.ledger.trades[|l.trades|], Process(tracking, b, r.queued.value, id, bestAsk, now, true),
                             |b.orders|;
         && placed.handled == Handled(tracking[id := |l.trades|], [])
         && |placed.book.orders| == n + 1 && placed.book.orders[..n] == b.orders
         && StandsFor(placed.book.orders[n], t, id) && Reported(placed.book, n)
         && exists exits :: FreshWatched(b.sides.bids, req.tp, req.sl, exits, placed.book.orders[n])
  {
    var levels := C.CreatedExactly(l, req, view);
    QueuedExactly(l, req, view);
    HandedOverExactly(l, req, view);
    var r := L.CreateOrder(l, req, view);
    var q, t := r.queued.value, r.ledger.trades[|l.trades|];
    assert t.tp == req.tp && t.sl == req.sl && t.settlementAt == view.settlementAt;
    hide L.CreateOrder, C.Holds, C.Bought, C.Welcome, C.Charged, C.Queues, C.AsRequested, Process, WellBook,
      FreshWatched, Reported;
    PrefilledIsPlaced(tracking, b, q, id, bestAsk, now);
  }

  /** What placing a prefilled message does. */
  lemma PrefilledIsPlaced(tracking: Tracking, b: Book, q: L.QueueMessage, id: OrderId, bestAsk: Option<Price>, now: nat)
    requires q.prefilled.Some? && Placeable(q) && WellBook(b) && !b.expired && FreshId(b, id)
    ensures var placed, n := Process(tracking, b, q, id, bestAsk, now, true), |b.orders|;
      && placed.handled == Handled(tracking[id := q.bo], [])
      && |placed.book.orders| == n + 1 && placed.book.orders[..n] == b.orders && Reported(placed.book, n)
      && var o := placed.book.orders[n];
         && o.terms.id == id && o.terms.side == BUY && o.terms.expireAt == q.settlementAt
         && o.status == FILLED && o.filled == q.prefilled.value.1
         && o.entryCost == Worth(q.prefilled.value.1, q.prefilled.value.0) && o.tp == q.tp && o.sl == q.sl
         && exists exits :: FreshWatched(b.sides.bids, q.tp, q.sl, exits, o)
  {
    var terms := TermsFor(q, id, now);
    var op := PlaceFilled(terms, q.prefilled.value.1, q.tp, q.sl);
    assert Admissible(b, op);
    PlacementWatches(b, op);
    PlacedStands(b, op);
    StepKeepsWell(b, op);
    SeedReports(Step(b, op).book, |b.orders|);
    WatchedBracket(b.sides.bids, q.tp, q.sl, Step(b, op).exits, Step(b, op).book.orders[|b.orders|]);
    hide Seed, Step, WellBook, FreshWatched, Reported, Worth;
  }

  lemma WatchedBracket(bids: Ladder, tp: Option<real>, sl: Option<real>, exits: seq<Exits.Exit>, o: Order)
    requires FreshWatched(bids, tp, sl, exits, o)
    ensures o.tp == tp && o.sl == sl
  {
  }

  /** The next collection has nothing to tell about order `i`: all of it is reported. */
  predicate Reported(b: Book, i: nat)
    requires i < |b.orders|
  {
    var o := b.orders[i];
    o.terms.id in b.reported && b.reported[o.terms.id] == Report(o.filled, o.status) && o.fillLevels == []
  }

  lemma SeedReports(b: Book, i: nat)
    requires WellBook(b) && i < |b.orders|
    ensures var seeded := Seed(b, b.orders[i].terms.id); seeded.orders == b.orders && Reported(seeded, i)
  {
    Expiry.WellDistinct(b);
    Brackets.QuietOrders(b);
    hide WellBook, DistinctIds;
    Expiry.SamePlace(b.orders, IndexOf(b.orders, b.orders[i].terms.id), i);
  }

  lemma PlacedStands(b: Book, op: Op)
    requires WellBook(b) && Admissible(b, op) && op.PlaceFilled?
    ensures |Step(b, op).book.orders| == |b.orders| + 1
    ensures var o := Step(b, op).book.orders[|b.orders|];
      && o.status == FILLED && o.filled == op.filled && o.entryCost == Worth(op.filled, op.terms.price)
  {
    hide WellBook, Exits.Sell, Exits.CumulativePrice;
  }

  /** The exit by bracket of order `i` at the best bid `p`. */
  function ExitAt(b: Book, i: nat): Option<Exits.Exit>
    requires i < |b.orders|
  {
    var mine := ExitsOf(b.orders[i].terms.id, Step(b, MonitorBrackets).exits);
    if mine == [] then None else Some(mine[0])
  }

  /** A MARKET order spends all that its trade holds, and its bot pays that and the fee. */
  lemma MarketSpends(l: L.Ledger, req: L.OrderRequest, view: L.View) returns (bought: seq<Level>)
    requires P.Sane(P.Create(req, view)) && req.limit.None? && L.CreateOrder(l, req, view).answer.Ok?
    ensures view.asks.Some? && view.asks.value != []
    ensures C.Bought(view.asks.value, C.Within(req, view.asks.value), req.amount, bought)
    ensures var l1 := L.CreateOrder(l, req, view).ledger;
      && |l1.trades| == |l.trades| + 1 && |l1.bots| == |l.bots| && req.bot < |l.bots|
      && var t := l1.trades[|l.trades|];
         && Open(t) && t.bot == req.bot && t.forecast == req.forecast && t.shares == Some(Qty(bought))
         && Unspent(t) == 0.0
         && l1.bots[req.bot].balance == l.bots[req.bot].balance - Cost(bought) - F.TakerFee(bought)
  {
    bought := C.CreatedExactly(l, req, view);
    hide L.CreateOrder, C.Bought, C.Within, F.TakerFee, Qty, Cost, Worth;
  }

  /**
   The life of a MARKET order's money. The asks it took are paid for, with the fee, when it is created; when
   the best bid reaches its bracket, the bids the engine sold into are credited at settlement, and one for
   every share that was not sold if the forecast was right. Nothing else reaches or leaves the bot, whatever
   the prices at which the trade was averaged on the way.
   */
  lemma MoneyOfAPosition(l: L.Ledger, req: L.OrderRequest, view: L.View, b: Book, i: nat, p: Price, open: real,
                         close: real) returns (bought: seq<Level>)
    requires L.Linked(l) && P.Sane(P.Create(req, view)) && req.limit.None? && L.CreateOrder(l, req, view).answer.Ok?
    requires WellBook(b) && i < |b.orders| && BestBid(b.sides.bids, p)
    requires Held(b.orders[i]) && b.orders[i].exitFilled.None?
    requires TakesProfit(b.orders[i], p) || StopsLoss(b.orders[i], p)
    requires L.CreateOrder(l, req, view).ledger.trades[|l.trades|].shares == Some(b.orders[i].filled)
    ensures view.asks.Some? && view.asks.value != []
    ensures C.Bought(view.asks.value, C.Within(req, view.asks.value), req.amount, bought)
    ensures Qty(bought) == b.orders[i].filled && ExitAt(b, i).Some?
    ensures var l1, sold := L.CreateOrder(l, req, view).ledger, ExitAt(b, i).value;
      && L.Linked(l1) && |l1.trades| == |l.trades| + 1
      && var l2 := L.HandleExit(l1, MessageOfExit(sold, |l.trades|));
         && L.Linked(l2) && |l2.trades| == |l.trades| + 1 && |l2.bots| == |l.bots|
         && var l3 := L.SettleTrade(l2, |l.trades|, open, close);
            && l3.Some? && req.bot < |l.bots| == |l3.value.bots|
            && l3.value.bots[req.bot].balance ==
                 l.bots[req.bot].balance - Cost(bought) - F.TakerFee(bought) + Cost(sold.levels)
                 + (if P.Right(req.forecast, open, close) then Qty(bought) - Qty(sold.levels) else 0.0)
  {
    hide *;
    bought := MarketSpends(l, req, view);
    CreationLinks(l, req, view);
    var l1, bo := L.CreateOrder(l, req, view).ledger, |l.trades|;
    OpenTrade(l1.trades[bo]);
    BookExitPays(b, i, p, l1, bo, open, close);
    ExitFound(b, i);
    var exit := MessageOfExit(ExitAt(b, i).value, bo);
    SameTrade(bo, ExitAt(b, i).value);
    ExitRecorded(l1, exit);
    var l2 := L.HandleExit(l1, exit);
    var payout := Unspent(l1.trades[bo]) + Cost(ExitAt(b, i).value.levels)
      + if P.Right(req.forecast, open, close) then Qty(bought) - Qty(ExitAt(b, i).value.levels) else 0.0;
    PaidMeans(l2, bo, payout, L.SettleTrade(l2, bo, open, close));
  }

  lemma OpenTrade(t: L.Trade)
    requires Open(t)
    ensures t.result == L.Pending && t.avgPrice.Some? && t.shares.Some? && t.exitTrigger.None?
  {
  }

  lemma SameTrade(bo: nat, r: Exits.Exit)
    ensures MessageOfExit(r, bo).id == bo
  {
  }

  lemma ExitFound(b: Book, i: nat)
    requires i < |b.orders|
    ensures var mine := ExitsOf(b.orders[i].terms.id, Step(b, MonitorBrackets).exits);
      |mine| == 1 ==> ExitAt(b, i) == Some(mine[0])
  {
    hide Step, ExitsOf;
  }

  lemma PaidMeans(l: L.Ledger, id: nat, payout: real, r: Option<L.Ledger>)
    requires id < |l.trades| && l.trades[id].bot < |l.bots| && Paid(l, id, payout, r)
    ensures r.Some? && |r.value.bots| == |l.bots|
    ensures r.value.bots[l.trades[id].bot].balance == l.bots[l.trades[id].bot].balance + payout
  {
  }

  lemma CreationLinks(l: L.Ledger, req: L.OrderRequest, view: L.View)
    requires L.Linked(l) && P.Sane(P.Create(req, view))
    ensures L.Linked(L.CreateOrder(l, req, view).ledger)
  {
  }
}
