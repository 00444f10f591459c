/** Order creation in terms of the request and the market: who is accepted, what is bought, what is charged. */
module Creation {
  import opened Prelude
  import opened Ladders
  import opened Fees
  import opened Walks
  import opened Ledger
  import opened LedgerProofs

  // ---------- Who is accepted ----------

  /** The limit is below the best ask: the order has to wait. */
  predicate Waits(req: OrderRequest, quote: Price) {
    req.limit.Some? && req.limit.value < quote
  }

  /**
   The bot may trade and has the amount and, unless the order waits, the estimated fee; the market is open
   and quoted; and the ceiling, the stop-loss and the take-profit lie on the right side of the best ask.
   */
  predicate Welcome(l: Ledger, req: OrderRequest, view: View) {
    && req.bot < |l.bots| && l.bots[req.bot].active && l.bots[req.bot].status == ACTIVE
    && view.settlementAt.Some? && view.quote.Some?
    && var quote := view.quote.value;
       && (req.ceiling.Some? ==> quote <= req.ceiling.value)
       && (req.sl.Some? ==> req.sl.value < quote)
       && (req.tp.Some? ==> quote < req.tp.value)
       && l.bots[req.bot].balance >= req.amount + if Waits(req, quote) then 0.0 else req.amount / 32.0
  }

  /** How many of the asks the request may take, from the best on. */
  function Within(req: OrderRequest, asks: seq<Level>): nat
    requires asks != []
  {
    Leading(asks, asks[0].price, req.slippage, req.limit, if req.limit.Some? then None else req.ceiling)
  }

  /** Some ask can be taken and, for a fill-or-kill order with a ceiling, enough to spend the amount. */
  predicate Suffices(req: OrderRequest, asks: seq<Level>)
    requires asks != []
  {
    Within(req, asks) > 0 && (req.fok && req.ceiling.Some? ==> Cost(asks[..Within(req, asks)]) >= req.amount)
  }

  /** The order can wait; or the asks can be read and, for a MARKET order, suffice. */
  predicate Fillable(req: OrderRequest, view: View) {
    || (view.quote.Some? && Waits(req, view.quote.value))
    || (view.asks.Some? && view.asks.value != [] && (req.limit.Some? || Suffices(req, view.asks.value)))
  }

  lemma ValidateExactly(l: Ledger, req: OrderRequest, view: View)
    requires req.amount > 0.0
    ensures Validate(l, req, view).None? <==> Welcome(l, req, view)
  {
    EstimateIs32nd(req.amount);
    hide EstimateMaxTakerFee;
  }

  lemma MarketAnswers(l: Ledger, req: OrderRequest, view: View)
    requires req.bot < |l.bots| && req.limit.None? && Sane(Create(req, view))
    ensures var r := CreateMarket(l, req, view);
      && (r.answer.Ok? <==> view.asks.Some? && view.asks.value != [] && Suffices(req, view.asks.value))
      && (r.answer.Err? ==> r.ledger == l && r.queued.None?)
  {
    if view.asks.Some? && view.asks.value != [] {
      FokExactly(view.asks.value, req.amount, req.slippage, None, req.ceiling);
      hide MarketFill, Leading, TakerFee, Cost;
    }
  }

  /** A request is accepted exactly when it is welcome and can be filled or wait; a refusal changes nothing. */
  lemma AcceptedExactly(l: Ledger, req: OrderRequest, view: View)
    requires Sane(Create(req, view))
    ensures var r := CreateOrder(l, req, view);
      && (r.answer.Ok? <==> Welcome(l, req, view) && Fillable(req, view))
      && (r.answer.Err? ==> r.ledger == l && r.queued.None?)
  {
    ValidateExactly(l, req, view);
    hide Validate, CreateMarket, LimitFillOf, Within, TakerFee, Cost;
    if Validate(l, req, view).None? && req.limit.None? {
      MarketAnswers(l, req, view);
    }
  }

  // ---------- What is booked ----------

  /** The trade as the request has it. */
  ghost predicate AsRequested(req: OrderRequest, view: View, t: Trade) {
    && t.bot == req.bot && t.forecast == req.forecast && t.limitPrice == req.limit && t.tp == req.tp && t.sl == req.sl
    && t.settlementAt == view.settlementAt && t.createdAt == view.now
    && t.originalAmount == Some(if req.limit.Some? then req.amount else t.amount)
    && t.result == Pending && t.profit.None? && !t.closed
    && t.exitTrigger.None? && t.exitPrice.None? && t.exitFilled.None?
  }

  /** One bot pays, and nothing else changes. */
  ghost predicate Charged(l: Ledger, bot: nat, cost: real, t: Trade, l': Ledger)
    requires bot < |l.bots|
  {
    && l'.users == l.users && l'.trades == l.trades + [t]
    && l'.bots == l.bots[bot := l.bots[bot].(balance := l.bots[bot].balance - cost)]
  }

  /** The trade holds what was bought, for what it cost, and carries the fee. */
  ghost predicate Holds(t: Trade, levels: seq<Level>) {
    && t.shares == Some(Qty(levels)) && Qty(levels) > 0.0
    && t.avgPrice.Some? && Worth(Qty(levels), t.avgPrice.value) == Cost(levels) == t.amount
    && t.entryFee == TakerFee(levels) >= 0.0
  }

  /** Bought from the best ask on, among the first `n` asks, and all of these unless the amount is spent. */
  ghost predicate Bought(asks: seq<Level>, n: nat, amount: real, levels: seq<Level>) {
    && n <= |asks| && FromTheTop(asks[..n], levels) && Cost(levels) <= amount
    && (Cost(levels) < amount ==> levels == asks[..n])
  }

  /** An order that waits holds its whole amount and nothing else. */
  ghost predicate Queues(req: OrderRequest, t: Trade) {
    t.amount == req.amount && t.shares.None? && t.avgPrice.None? && t.entryFee == 0.0 && t.engineStatus == Queued
  }

  lemma PassiveBooks(l: Ledger, req: OrderRequest, view: View)
    requires req.bot < |l.bots| && req.limit.Some?
    ensures var r := CreatePassive(l, req, view);
      && |r.ledger.trades| == |l.trades| + 1
      && var t := r.ledger.trades[|l.trades|];
         AsRequested(req, view, t) && Queues(req, t) && Charged(l, req.bot, req.amount, t, r.ledger)
  {
  }

  lemma FeeOfTop(asks: seq<Level>, levels: seq<Level>)
    requires FromTheTop(asks, levels)
    ensures TakerFee(levels) >= 0.0
  {
    FeeNonNegative(levels);
  }

  lemma MarketBooks(l: Ledger, req: OrderRequest, view: View) returns (levels: seq<Level>)
    requires req.bot < |l.bots| && req.limit.None? && Sane(Create(req, view)) && CreateMarket(l, req, view).answer.Ok?
    ensures var r := CreateMarket(l, req, view);
      && |r.ledger.trades| == |l.trades| + 1 && view.asks.Some? && view.asks.value != []
      && var t := r.ledger.trades[|l.trades|];
         && AsRequested(req, view, t) && Holds(t, levels)
         && Bought(view.asks.value, Within(req, view.asks.value), req.amount, levels)
         && Charged(l, req.bot, t.amount + t.entryFee, t, r.ledger)
  {
    var asks := view.asks.value;
    MarketFillWithin(asks, req.amount, req.slippage, None, req.fok, req.ceiling);
    var fill := MarketFill(asks, req.amount, req.slippage, None, req.fok, req.ceiling).value;
    levels := fill.levels;
    var n := Within(req, asks);
    assert FilledWithin(asks, n, req.amount, fill);
    FeeOfTop(asks[..n], levels);
    hide MarketFill, Leading, TakerFee, Cost, Qty, Worth, FromTheTop;
  }

  lemma AggressiveBooks(l: Ledger, req: OrderRequest, view: View) returns (levels: seq<Level>)
    requires req.bot < |l.bots| && req.limit.Some? && Sane(Create(req, view))
    requires view.asks.Some? && view.asks.value != []
    ensures var r, n := CreateAggressive(l, req, view), Within(req, view.asks.value);
      && |r.ledger.trades| == |l.trades| + 1
      && var t := r.ledger.trades[|l.trades|];
         && AsRequested(req, view, t)
         && (if n == 0 then Queues(req, t) else Holds(t, levels) && Bought(view.asks.value, n, req.amount, levels))
         && Charged(l, req.bot, req.amount + t.entryFee, t, r.ledger)
  {
    var asks, limit := view.asks.value, req.limit.value;
    LimitFillWithin(asks, req.amount, limit);
    LeadingIsUnderCap(asks, req.slippage, req.limit, None);
    var fill, n := LimitFillOf(asks, req.amount, limit).value, Within(req, asks);
    assert PriceCap(asks, req.slippage, req.limit, None) == limit;
    assert |UnderCap(asks, limit)| == n;
    levels := fill.levels;
    if n > 0 {
      assert FilledWithin(asks, n, req.amount, Walks.Fill.Fill(fill.avgPrice, fill.shares, fill.levels));
      FeeOfTop(asks[..n], levels);
    } else {
      NoLevelsBought(asks, limit, req.amount);
    }
    hide LimitFillOf, Leading, UnderCap, TakerFee, Cost, Qty, Worth, FromTheTop, PriceCap;
  }

  lemma NoLevelsBought(asks: seq<Level>, limit: Price, amount: real)
    requires asks != [] && asks[0].price > limit
    ensures LimitFillOf(asks, amount, limit).value.levels == [] && TakerFee([]) == 0.0
  {
  }

  /**
   What an accepted request books. An order whose limit is below the best ask, or below every ask it can
   read, waits with its whole amount and is charged just that. Any other buys from the best ask on, within
   its bounds, and its trade holds what was bought at what it cost, with the fee; a MARKET order is charged
   the cost and the fee, a LIMIT order its whole amount and the fee. Nobody else's money moves.
   */
  lemma CreatedExactly(l: Ledger, req: OrderRequest, view: View) returns (levels: seq<Level>)
    requires Sane(Create(req, view)) && CreateOrder(l, req, view).answer.Ok?
    ensures var r := CreateOrder(l, req, view);
      && r.answer == Ok(|l.trades|) && |r.ledger.trades| == |l.trades| + 1 && Welcome(l, req, view)
      && var t := r.ledger.trades[|l.trades|];
         && AsRequested(req, view, t)
         && if Waits(req, view.quote.value) then Queues(req, t) && Charged(l, req.bot, req.amount, t, r.ledger)
            else
              && view.asks.Some? && view.asks.value != []
              && var n := Within(req, view.asks.value);
                 && (if n == 0 then req.limit.Some? && Queues(req, t)
                     else Holds(t, levels) && Bought(view.asks.value, n, req.amount, levels))
                 && Charged(l, req.bot, (if req.limit.Some? then req.amount else t.amount) + t.entryFee, t, r.ledger)
  {
    AcceptedExactly(l, req, view);
    levels := [];
    hide Validate, Within, TakerFee, Cost, Holds, Bought, Charged, Queues, AsRequested, LimitFillOf, MarketFill;
    if Waits(req, view.quote.value) {
      PassiveBooks(l, req, view);
    } else if req.limit.Some? {
      levels := AggressiveBooks(l, req, view);
    } else {
      levels := MarketBooks(l, req, view);
    }
  }
}
