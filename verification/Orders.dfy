/** The simulated order as a value: its fixed terms, its progress, and its profit and loss. */
module Orders {
  import opened Prelude
  import opened Ladders

  type OrderId = string

  datatype OrderSide = BUY | SELL

  datatype Status = PENDING | PARTIAL | FILLED | CANCELED

  datatype Trigger = TP | SL | FORCE_CLOSE

  /** What never changes after placement. Times are microseconds. */
  datatype Terms = Terms(
    id: OrderId,
    side: OrderSide,
    price: Price,
    isMarket: bool,
    maxSlippage: Option<real>,
    maxCost: Option<real>,
    createdAt: int,
    expireAt: Option<int>)

  datatype Order = Order(
    terms: Terms,
    quantity: real,
    filled: real,
    status: Status,
    entryCost: real,
    slippageRef: Option<Price>,
    fillLevels: seq<Level>,
    tp: Option<real>,
    sl: Option<real>,
    closed: bool,
    exitPrice: Option<real>,
    exitTrigger: Option<Trigger>,
    exitFilled: Option<real>)
  {
    function Remaining(): real {
      quantity - filled
    }

    function Exited(): real {
      exitFilled.GetOr(0.0)
    }

    /** What earlier exits brought in. */
    function Proceeds(): real {
      Worth(Exited(), exitPrice.GetOr(0.0))
    }

    function AvgEntry(): Option<real> {
      if filled > 0.0 then Some(entryCost / filled) else None
    }

    predicate Live() {
      status == PENDING || status == PARTIAL
    }

    predicate HasBracket() {
      tp.Some? || sl.Some?
    }

    predicate EligibleForBracket() {
      && terms.side == BUY
      && HasBracket()
      && filled > 0.0
      && !closed
      && status in {FILLED, PARTIAL, CANCELED}
    }

    function CalculateProfit(): Option<real> {
      if exitFilled.None? || exitFilled.value <= 0.0 then None
      else if AvgEntry().None? || exitPrice.None? then None
      else Some(exitFilled.value * exitPrice.value - exitFilled.value * AvgEntry().value)
    }

    function UnrealizedPnl(bid: real): Option<real> {
      if filled <= 0.0 then None
      else if AvgEntry().None? then None
      else
        var open := filled - Exited();
        if open <= 0.0 then None else Some(open * bid - open * AvgEntry().value)
    }

    function TotalPnl(bid: Option<real>): Option<real> {
      var realized := CalculateProfit().GetOr(0.0);
      if !closed && filled > 0.0 && bid.None? then None
      else
        var unrealized := if !closed && filled > 0.0 then UnrealizedPnl(bid.value).GetOr(0.0) else 0.0;
        if exitFilled.None? && unrealized == 0.0 then None else Some(realized + unrealized)
    }
  }

  function NewStatus(status: Status, filled: real, quantity: real): Status {
    if filled >= quantity then FILLED else if filled > 0.0 then PARTIAL else status
  }

  // ---------- The order invariant ----------

  ghost predicate ProgressOk(o: Order) {
    && 0.0 <= o.filled <= o.quantity && 0.0 < o.quantity
    && (o.status == PENDING ==> o.filled == 0.0)
    && (o.status == PARTIAL ==> 0.0 < o.filled < o.quantity)
    && (o.status == FILLED ==> o.filled == o.quantity)
  }

  ghost predicate CostOk(o: Order) {
    && (o.filled == 0.0 ==> o.entryCost == 0.0)
    && (o.filled > 0.0 ==> o.entryCost > 0.0)
    && (!o.terms.isMarket && o.terms.side == BUY ==> o.entryCost <= o.terms.price * o.filled)
    && (!o.terms.isMarket && o.terms.side == SELL ==> o.entryCost >= o.terms.price * o.filled)
    && (o.terms.side == BUY && o.terms.maxCost.Some? ==> o.entryCost <= Max(0.0, o.terms.maxCost.value))
  }

  ghost predicate ExitOk(o: Order) {
    && (o.exitFilled.Some? <==> o.exitPrice.Some?)
    && 0.0 <= o.Exited() <= o.filled
    && (!o.closed && o.filled > 0.0 ==> o.Exited() < o.filled)
  }

  ghost predicate OrderOk(o: Order) {
    ProgressOk(o) && CostOk(o) && ExitOk(o)
  }

  /** What any number of operations may do to an order. */
  ghost predicate Evolves(o: Order, o': Order) {
    && o'.terms == o.terms
    && o.filled <= o'.filled
    && o.Exited() <= o'.Exited()
    && (o.exitFilled.Some? ==> o'.exitFilled.Some?)
    && (o.closed ==> o'.closed)
    && (o.slippageRef.Some? ==> o'.slippageRef == o.slippageRef)
    && (!o.Live() ==> o'.status == o.status && o'.filled == o.filled && o'.quantity == o.quantity)
    && (o.status == PARTIAL ==> o'.status != PENDING)
    && (o'.quantity == o.quantity || (o'.status == CANCELED && o'.quantity == o'.filled && o'.quantity <= o.quantity))
  }

  lemma EvolvesTrans(a: Order, b: Order, c: Order)
    requires Evolves(a, b) && Evolves(b, c)
    ensures Evolves(a, c)
  {
  }

  // ---------- Profit and loss ----------

  /**
   While a position is open its total profit and loss is what was received, plus what is still
   held at the bid, minus what was paid; it is reported as nothing exactly when no bid is known,
   nothing is held, or nothing was sold and the bid equals the average entry price.
   */
  lemma OpenPositionPnl(o: Order, bid: Option<real>)
    requires OrderOk(o) && !o.closed
    ensures o.TotalPnl(bid).Some? <==>
      if o.filled == 0.0 then o.exitFilled.Some?
      else bid.Some? && (o.exitFilled.Some? || bid.value * o.filled != o.entryCost)
    ensures o.TotalPnl(bid).Some? && o.filled > 0.0 ==>
      o.TotalPnl(bid).value == o.Proceeds() + (o.filled - o.Exited()) * bid.value - o.entryCost
  {
    if o.filled > 0.0 && bid.Some? {
      OpenArithmetic(o.filled, o.Exited(), o.entryCost, bid.value, o.exitPrice.GetOr(0.0));
    }
  }

  lemma OpenArithmetic(filled: real, sold: real, cost: real, bid: real, price: real)
    requires 0.0 <= sold < filled
    ensures var avg, open := cost / filled, filled - sold;
      && (open * bid - open * avg == 0.0 <==> bid * filled == cost)
      && (sold * price - sold * avg) + (open * bid - open * avg) == price * sold + open * bid - cost
  {
    var avg, open := cost / filled, filled - sold;
    assert avg * filled == cost;
    assert open * avg + sold * avg == filled * avg;
    assert open * bid - open * avg == open * (bid - avg);
    assert (bid - avg) * filled == bid * filled - cost;
  }

  /** Once everything is sold, the total is the proceeds minus the cost of the whole position. */
  lemma ClosedPositionPnl(o: Order, bid: Option<real>)
    requires OrderOk(o) && o.closed && o.exitFilled.Some? && o.Exited() == o.filled && o.filled > 0.0
    ensures o.TotalPnl(bid) == Some(o.Proceeds() - o.entryCost)
  {
    var avg, sold, price := o.AvgEntry().value, o.exitFilled.value, o.exitPrice.value;
    assert sold * avg == o.entryCost;
    assert o.CalculateProfit().value == sold * price - sold * avg;
    assert o.Proceeds() == sold * price;
  }
}
