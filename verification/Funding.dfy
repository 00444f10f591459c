/**
 Where money comes in and goes back: whether an order may overdraw its bot, and why the refund of
 a LIMIT order's unfilled part is exact.
 */
module Funding {
  import opened Prelude
  import opened Ladders
  import opened Orders
  import opened Fees
  import opened Walks
  import opened Ledger
  import opened LedgerProofs
  import opened Runs
  import B = Books
  import opened Histories

  // ---------- Overdrawing ----------

  /** A walk only buys at prices that are asked. */
  lemma {:induction false} WalkedPrices(asks: seq<Level>, w: Walked, cap: real, budget: real, prices: set<Price>)
    requires Sizes(asks) && WalkedOk(w, budget)
    requires forall l :: l in asks ==> l.price in prices
    requires forall l :: l in w.levels ==> l.price in prices && l.qty >= 0.0
    ensures forall l :: l in Walk(asks, w, cap, budget).levels ==> l.price in prices && l.qty >= 0.0
    decreases |asks|
  {
    if asks == [] || asks[0].price > cap || w.cost >= budget {
      hide WalkedOk, BuyAt;
    } else {
      var l := BuyAtLevel(w, asks[0], budget);
      WalkUnfolds(asks, w, cap, budget);
      SizesRest(asks);
      hide WalkedOk, BuyAt, Walk, Sizes;
      var w' := BuyAt(w, asks[0], budget);
      assert l.price in prices by {
        assert asks[0] in asks;
      }
      if w'.cost < budget {
        WalkedPrices(asks[1..], w', cap, budget, prices);
      }
    }
  }

  /** The fee of a walk over these asks, against its budget. */
  lemma WalkFee(asks: seq<Level>, cap: real, budget: real)
    requires Sizes(asks) && budget > 0.0 && forall l :: l in asks ==> l.price < 1.0
    ensures var w := Walk(asks, NOTHING, cap, budget);
      && 0.0 <= TakerFee(w.levels) <= Cost(w.levels) / 27.0 && 0.0 <= Cost(w.levels) <= budget
      && w.cost == Cost(w.levels)
      && ((forall l :: l in asks ==> Covered(l.price)) ==> TakerFee(w.levels) <= Cost(w.levels) / 32.0)
  {
    StartOk(budget);
    WalkEnds(asks, NOTHING, cap, budget);
    var prices := set l | l in asks :: l.price;
    WalkedPrices(asks, NOTHING, cap, budget, prices);
    var w := Walk(asks, NOTHING, cap, budget);
    hide Walk, TakerFee, Cost, Covered, Sizes, UnderCap;
    assert Priced(w.levels);
    FeeAtMost27th(w.levels);
    FeeNonNegative(w.levels);
    if forall l :: l in asks ==> Covered(l.price) {
      EstimateCovers(w.levels);
      EstimateIs32nd(Cost(w.levels));
    }
  }

  /** What a successful order leaves in the bot's account. */
  function Left(l: Ledger, req: OrderRequest, view: View): real
    requires req.bot < |l.bots|
  {
    var r := CreateOrder(l, req, view).ledger;
    if req.bot < |r.bots| then r.bots[req.bot].balance else 0.0
  }

  ghost predicate AskedBelowOne(view: View) {
    view.asks.Some? ==> Sizes(view.asks.value) && forall l :: l in view.asks.value ==> l.price < 1.0
  }

  ghost predicate AllCovered(view: View) {
    view.asks.Some? ==> forall l :: l in view.asks.value ==> Covered(l.price)
  }

  lemma MarketLeaves(l: Ledger, req: OrderRequest, view: View)
    requires req.bot < |l.bots| && req.amount > 0.0 && AskedBelowOne(view)
    requires l.bots[req.bot].balance >= req.amount + req.amount / 32.0
    requires CreateMarket(l, req, view).answer.Ok?
    ensures var r := CreateMarket(l, req, view).ledger;
      && |r.bots| == |l.bots|
      && r.bots[req.bot].balance >= -(5.0 / 864.0) * req.amount
      && (AllCovered(view) ==> r.bots[req.bot].balance >= 0.0)
  {
    var asks := view.asks.value;
    var cap := PriceCap(asks, req.slippage, None, req.ceiling);
    WalkFee(asks, cap, req.amount);
    hide Walk, TakerFee, PriceCap, Cost;
    var t, charge := MarketTrade(l, req, view);
  }

  lemma AggressiveLeaves(l: Ledger, req: OrderRequest, view: View)
    requires req.bot < |l.bots| && req.amount > 0.0 && AskedBelowOne(view) && req.limit.Some?
    requires l.bots[req.bot].balance >= req.amount + req.amount / 32.0
    requires CreateAggressive(l, req, view).answer.Ok?
    ensures var r := CreateAggressive(l, req, view).ledger;
      && |r.bots| == |l.bots|
      && r.bots[req.bot].balance >= -(5.0 / 864.0) * req.amount
      && (AllCovered(view) ==> r.bots[req.bot].balance >= 0.0)
  {
    var asks := view.asks.value;
    WalkFee(asks, req.limit.value, req.amount);
    hide Walk, TakerFee, Cost;
    var t, charge := AggressiveTrade(l, req, view);
  }

  /**
   A successful order never takes a bot further below zero than 5/864 of its amount, and not below
   zero at all where every ask is in the range the fee estimate covers.
   */
  lemma OverdraftBound(l: Ledger, req: OrderRequest, view: View)
    requires req.amount > 0.0 && AskedBelowOne(view) && CreateOrder(l, req, view).answer.Ok?
    ensures req.bot < |l.bots|
    ensures Left(l, req, view) >= -(5.0 / 864.0) * req.amount
    ensures AllCovered(view) ==> Left(l, req, view) >= 0.0
  {
    EstimateIs32nd(req.amount);
    hide CreateMarket, CreateAggressive, EstimateMaxTakerFee, AskedBelowOne, AllCovered;
    assert l.bots[req.bot].balance >= req.amount;
    if Aggressive(req, view) {
      AggressiveLeaves(l, req, view);
    } else if req.limit.None? {
      MarketLeaves(l, req, view);
    }
  }

  /** A plain MARKET order by a bot whose balance just passes the checks, against one deep level. */
  ghost predicate JustFunded(l: Ledger, req: OrderRequest, view: View, p: Price, size: real) {
    && req.bot < |l.bots| && l.bots[req.bot].active && l.bots[req.bot].status == ACTIVE
    && req.amount > 0.0 && l.bots[req.bot].balance == req.amount + req.amount / 32.0
    && req.limit.None? && req.ceiling.None? && req.slippage.None? && req.tp.None? && req.sl.None?
    && view.settlementAt.Some? && view.quote == Some(p) && view.asks == Some([Level(p, size)])
    && p < 1.0 && Worth(size, p) >= req.amount && size > 0.0
  }

  /** Such an order leaves the bot in the black exactly when the price is in the covered range. */
  lemma OverdraftExactly(l: Ledger, req: OrderRequest, view: View, p: Price, size: real)
    requires JustFunded(l, req, view, p, size)
    ensures CreateOrder(l, req, view).answer.Ok?
    ensures Left(l, req, view) >= 0.0 <==> Covered(p)
  {
    var q := Afford(req.amount, p);
    WholeBudget(req.amount, p, size);
    OneLevelFill(req, p, size);
    EstimateIs32nd(req.amount);
    EstimateCoversExactly(q, p);
    OneLevelFee(p, q);
    hide Worth, Afford, NominalFee, TakerFee, Cost, Covered, EstimateMaxTakerFee, MarketFill;
    assert CreateOrder(l, req, view) == CreateMarket(l, req, view);
  }

  lemma WholeBudget(amount: real, p: Price, size: real)
    requires amount > 0.0 && Worth(size, p) >= amount
    ensures var q := Afford(amount, p); 0.0 < q <= size && Worth(q, p) == amount
  {
    AffordOk(amount, p);
    WorthCancel(Afford(amount, p), size, p);
  }

  lemma OneLevelFee(p: Price, q: real)
    requires q > 0.0 && p < 1.0
    ensures TakerFee([Level(p, q)]) == NominalFee(q, p) >= 0.0 && Cost([Level(p, q)]) == Worth(q, p)
  {
    var one := [Level(p, q)];
    assert one[..0] == [];
    assert TakerFee(one[..0]) == 0.0 && Cost(one[..0]) == 0.0;
    FeeNonNegative(one);
  }

  lemma OneLevelFill(req: OrderRequest, p: Price, size: real)
    requires req.amount > 0.0 && size > 0.0
    requires var q := Afford(req.amount, p); 0.0 < q <= size && Worth(q, p) == req.amount
    ensures var r := MarketFill([Level(p, size)], req.amount, None, None, req.fok, None);
      r.Ok? && r.value.levels == [Level(p, Afford(req.amount, p))]
  {
    var asks := [Level(p, size)];
    var w := BuyAt(NOTHING, asks[0], req.amount);
    assert Worth(1.0 + DEFAULT_TOLERANCE, p) >= p;
    assert w == Walked(req.amount, Afford(req.amount, p), [Level(p, Afford(req.amount, p))]) by {
      assert [] + [Level(p, Afford(req.amount, p))] == [Level(p, Afford(req.amount, p))];
    }
  }

  // ---------- The refund of a LIMIT order ----------

  /** The quantity the API asks the engine for when it queues a LIMIT order. */
  function QueuedQuantity(amount: real, limit: Price): real {
    Afford(amount, limit)
  }

  /** The message the engine sends when it gives up on an order. */
  function CancelOf(o: Order, id: nat): CancelMessage {
    CancelMessage(id, o.filled, o.AvgEntry().GetOr(0.0))
  }

  /** This engine order was queued for this trade. */
  ghost predicate QueuedFor(o: Order, t: Trade) {
    && o.terms.side == BUY && !o.terms.isMarket && t.limitPrice == Some(o.terms.price)
    && t.result == Pending && t.amount > 0.0
  }

  /** In every reachable book a LIMIT BUY has paid at most its limit for what it got. */
  lemma LimitCostBound(ops: seq<B.Op>, i: nat)
    requires Legal(ops) && i < |Runs.Run(ops).book.orders|
    requires var o := Runs.Run(ops).book.orders[i]; o.terms.side == BUY && !o.terms.isMarket
    ensures var o := Runs.Run(ops).book.orders[i];
      o.entryCost <= Worth(o.filled, o.terms.price) <= Worth(o.quantity, o.terms.price)
  {
    RunWell(ops);
    hide Runs.Run;
    LimitOrderBound(Runs.Run(ops).book.orders[i]);
  }

  lemma LimitOrderBound(o: Order)
    requires OrderOk(o) && o.terms.side == BUY && !o.terms.isMarket
    ensures o.entryCost <= Worth(o.filled, o.terms.price) <= Worth(o.quantity, o.terms.price)
  {
    ScaleUp(o.terms.price, o.filled, o.quantity);
  }

  /**
   A queued LIMIT order never costs more than the amount set aside, so its cancel message is
   refunded without loss: what the bot gets back plus what the trade keeps is what it held, the
   trade keeps exactly the entry cost, and no replay of the message changes anything.
   */
  lemma LimitRefundIsExact(l: Ledger, o: Order, id: nat)
    requires Linked(l) && id < |l.trades| && OrderOk(o) && QueuedFor(o, l.trades[id])
    requires o.filled > 0.0 && Worth(o.quantity, o.terms.price) <= l.trades[id].amount
    ensures var m, b := CancelOf(o, id), l.trades[id].bot;
      var r := HandleCancel(l, m);
      && Overspent(l, m) == 0.0
      && r.trades[id].amount == o.entryCost && r.trades[id].result == Pending
      && r.bots[b].balance + r.trades[id].amount == l.bots[b].balance + l.trades[id].amount
      && r.bots[b].balance >= l.bots[b].balance
      && Linked(r) && HandleCancel(r, m) == r
  {
    LimitOrderBound(o);
    AverageTimesFilled(o.entryCost, o.filled);
    CancelOnce(l, CancelOf(o, id));
    hide Worth;
  }

  lemma AverageTimesFilled(cost: real, filled: real)
    requires filled > 0.0 && cost > 0.0
    ensures cost / filled > 0.0 && Worth(filled, cost / filled) == cost
  {
  }

  /** The queued quantity is worth exactly the amount at the limit price. */
  lemma QueuedQuantityIsWorthTheAmount(amount: real, limit: Price)
    requires amount > 0.0
    ensures QueuedQuantity(amount, limit) > 0.0 && Worth(QueuedQuantity(amount, limit), limit) == amount
  {
    AffordOk(amount, limit);
  }

  /** An order taken later from the run is sound, has kept its price, and wants no more than it was placed for. */
  lemma TakenLater(ops: seq<B.Op>, more: seq<B.Op>, placed: Order, o: Order)
    requires Legal(ops) && Legal(ops + more) && placed.terms.id == o.terms.id
    requires placed in Runs.Run(ops).book.orders && o in Runs.Run(ops + more).book.orders
    ensures OrderOk(o) && o.terms == placed.terms && o.quantity <= placed.quantity
  {
    RunEvolves(ops, more, placed, o);
    RunWell(ops + more);
    hide Runs.Run, OrderOk;
  }

  /** What was queued for an amount costs at most the amount, and a cancellation gives back the rest. */
  lemma QueuedRefund(l: Ledger, id: nat, o: Order)
    requires Linked(l) && id < |l.trades| && QueuedFor(o, l.trades[id]) && OrderOk(o) && o.filled > 0.0
    requires o.quantity <= QueuedQuantity(l.trades[id].amount, o.terms.price)
    ensures var m, b := CancelOf(o, id), l.trades[id].bot;
      var r := HandleCancel(l, m);
      && r.trades[id].amount == o.entryCost <= l.trades[id].amount
      && r.bots[b].balance + r.trades[id].amount == l.bots[b].balance + l.trades[id].amount
      && HandleCancel(r, m) == r
  {
    QueuedQuantityIsWorthTheAmount(l.trades[id].amount, o.terms.price);
    ScaleUp(o.terms.price, o.quantity, QueuedQuantity(l.trades[id].amount, o.terms.price));
    LimitOrderBound(o);
    hide QueuedQuantity, HandleCancel, Linked;
    LimitRefundIsExact(l, o, id);
  }

  /**
   A LIMIT order followed from the engine to the ledger: placed for the queued quantity, then taken
   anywhere by a legal run of the book, it is refunded exactly when it is cancelled.
   */
  lemma QueuedOrderRefunds(l: Ledger, id: nat, ops: seq<B.Op>, more: seq<B.Op>, placed: Order, o: Order)
    requires Linked(l) && id < |l.trades| && QueuedFor(o, l.trades[id])
    requires Legal(ops) && Legal(ops + more) && placed.terms.id == o.terms.id
    requires placed in Runs.Run(ops).book.orders && o in Runs.Run(ops + more).book.orders
    requires placed.quantity == QueuedQuantity(l.trades[id].amount, placed.terms.price) && o.filled > 0.0
    ensures var m, b := CancelOf(o, id), l.trades[id].bot;
      var r := HandleCancel(l, m);
      && r.trades[id].amount == o.entryCost <= l.trades[id].amount
      && r.bots[b].balance + r.trades[id].amount == l.bots[b].balance + l.trades[id].amount
      && HandleCancel(r, m) == r
  {
    TakenLater(ops, more, placed, o);
    hide *;
    QueuedRefund(l, id, o);
  }
}
