/** What every operation keeps true of a shadow book: sound orders, distinct ids, positive sizes. */
module BookSafety {
  import opened Ladders
  import opened Orders
  import opened Matching
  import opened Passes
  import opened Exits
  import opened Books

  ghost predicate DistinctIds(orders: seq<Order>) {
    forall i, j :: 0 <= i < j < |orders| ==> orders[i].terms.id != orders[j].terms.id
  }

  /** No fill is waiting to be reported. */
  ghost predicate Quiet(orders: seq<Order>) {
    forall i :: 0 <= i < |orders| ==> orders[i].fillLevels == []
  }

  ghost predicate Unused(orders: seq<Order>, id: OrderId) {
    forall i :: 0 <= i < |orders| ==> orders[i].terms.id != id
  }

  ghost predicate OrdersOk(orders: seq<Order>) {
    AllOk(orders) && DistinctIds(orders) && MarketUntouched(orders)
  }

  ghost predicate SidesOk(sides: Sides) {
    Positive(sides.bids) && Positive(sides.asks)
  }

  ghost predicate Sound(b: Book) {
    OrdersOk(b.orders) && SidesOk(b.sides)
  }

  // ---------- Changes of status only ----------

  /** Nothing but status, brackets, closing, or the unfilled rest of the quantity changes. */
  ghost predicate StatusOnly(o: Order, o': Order) {
    && Evolves(o, o')
    && o'.filled == o.filled && o'.entryCost == o.entryCost && o'.fillLevels == o.fillLevels
    && o'.exitFilled == o.exitFilled && o'.exitPrice == o.exitPrice
    && (o'.Live() ==> o' == o)
    && (OrderOk(o) ==> OrderOk(o'))
  }

  ghost predicate AllStatusOnly(before: seq<Order>, after: seq<Order>) {
    |before| == |after| && forall i :: 0 <= i < |before| ==> StatusOnly(before[i], after[i])
  }

  lemma ExpireOneStatusOnly(o: Order, now: int)
    ensures OrderOk(o) ==> StatusOnly(o, ExpireOne(o, now))
  {
  }

  lemma CancelOneStatusOnly(o: Order)
    ensures OrderOk(o) ==> StatusOnly(o, CancelOne(o)) && !CancelOne(o).Live()
  {
  }

  lemma ResolveOneStatusOnly(o: Order)
    requires OrderOk(o)
    ensures StatusOnly(o, ResolveOne(o))
  {
  }

  lemma ExpireStatusOnly(orders: seq<Order>, now: int)
    requires AllOk(orders)
    ensures AllStatusOnly(orders, ExpireOrders(orders, now))
  {
    hide OrderOk, StatusOnly, ExpireOne;
    forall i | 0 <= i < |orders|
      ensures StatusOnly(orders[i], ExpireOne(orders[i], now))
    {
      ExpireOneStatusOnly(orders[i], now);
    }
  }

  lemma StatusOnlyKeeps(before: seq<Order>, after: seq<Order>)
    requires OrdersOk(before) && AllStatusOnly(before, after)
    ensures OrdersOk(after)
    ensures Quiet(before) ==> Quiet(after)
  {
    hide OrderOk;
    forall i | 0 <= i < |after|
      ensures OrderOk(after[i]) && UntouchedIfMarket(after[i]) && after[i].terms == before[i].terms
    {
      assert OrderOk(before[i]) && UntouchedIfMarket(before[i]) && StatusOnly(before[i], after[i]);
    }
  }

  lemma MapStatusOnly(before: seq<Order>, after: seq<Order>)
    requires AllOk(before) && |before| == |after|
    requires (forall i :: 0 <= i < |after| ==> after[i] == CancelOne(before[i]))
      || (forall i :: 0 <= i < |after| ==> after[i] == ResolveOne(before[i]))
    ensures AllStatusOnly(before, after)
  {
    hide OrderOk, StatusOnly, CancelOne, ResolveOne;
    forall i | 0 <= i < |before|
      ensures StatusOnly(before[i], after[i])
    {
      assert OrderOk(before[i]);
      CancelOneStatusOnly(before[i]);
      ResolveOneStatusOnly(before[i]);
    }
  }

  lemma CancelAtStatusOnly(orders: seq<Order>, i: nat)
    requires AllOk(orders) && i < |orders|
    ensures AllStatusOnly(orders, orders[i := CancelOne(orders[i])])
  {
    var after := orders[i := CancelOne(orders[i])];
    forall j | 0 <= j < |orders|
      ensures StatusOnly(orders[j], after[j])
    {
      assert OrderOk(orders[j]);
      if j == i {
        CancelOneStatusOnly(orders[i]);
      }
    }
  }

  // ---------- Replacing and appending one order ----------

  lemma ReplaceKeeps(orders: seq<Order>, i: nat, o: Order)
    requires OrdersOk(orders) && i < |orders|
    requires OrderOk(o) && UntouchedIfMarket(o) && o.terms == orders[i].terms
    ensures OrdersOk(orders[i := o])
    ensures Quiet(orders) && o.fillLevels == [] ==> Quiet(orders[i := o])
  {
    hide OrderOk, UntouchedIfMarket;
  }

  lemma AppendKeeps(orders: seq<Order>, o: Order)
    requires OrdersOk(orders) && OrderOk(o) && UntouchedIfMarket(o) && Unused(orders, o.terms.id)
    ensures OrdersOk(orders + [o])
  {
    hide OrderOk, UntouchedIfMarket;
  }

  // ---------- What has been reported ----------

  /**
   What was last told about an order, plus the fills waiting to be told, is the order as it is now.
   Only an order filled elsewhere can be unknown to the table and yet filled.
   */
  ghost predicate ReportOk(o: Order, reported: map<OrderId, Report>) {
    var prev := Previous(reported, o.terms.id);
    && PositiveFills(o.fillLevels)
    && (o.filled == prev.filled + Qty(o.fillLevels)
        || (o.terms.id !in reported && o.fillLevels == [] && o.status == FILLED))
    && (prev.status == CANCELED ==> o.status == CANCELED && o.filled == prev.filled)
  }

  ghost predicate ReportsOk(orders: seq<Order>, reported: map<OrderId, Report>) {
    forall i :: 0 <= i < |orders| ==> ReportOk(orders[i], reported)
  }

  lemma ReportedFillsGrow(o: Order, reported: map<OrderId, Report>)
    requires ReportOk(o, reported)
    ensures o.fillLevels != [] ==> o.filled > Previous(reported, o.terms.id).filled
    ensures o.filled > Previous(reported, o.terms.id).filled ==>
      Previous(reported, o.terms.id).status != CANCELED
  {
    NoQtyNoCost(o.fillLevels);
  }

  lemma ReportStatusOnly(o: Order, o': Order, reported: map<OrderId, Report>)
    requires ReportOk(o, reported) && StatusOnly(o, o')
    ensures ReportOk(o', reported)
  {
    hide OrderOk, PositiveFills, Qty;
  }

  lemma ReportsStatusOnly(before: seq<Order>, after: seq<Order>, reported: map<OrderId, Report>)
    requires ReportsOk(before, reported) && AllStatusOnly(before, after)
    ensures ReportsOk(after, reported)
  {
    hide ReportOk, StatusOnly;
    forall i | 0 <= i < |after|
      ensures ReportOk(after[i], reported)
    {
      assert ReportOk(before[i], reported) && StatusOnly(before[i], after[i]);
      ReportStatusOnly(before[i], after[i], reported);
    }
  }

  /** A turn adds to the fills waiting to be told exactly what it adds to the order. */
  lemma ReportAdvance(o: Order, o': Order, reported: map<OrderId, Report>)
    requires ReportOk(o, reported) && OrderOk(o)
    requires OrderEffect(o, NewFills(o, o'), o') && PositiveFills(NewFills(o, o'))
    ensures ReportOk(o', reported)
  {
    var f := NewFills(o, o');
    NoQtyNoCost(f);
    QtyConcat(o.fillLevels, f);
    PositiveConcat(o.fillLevels, f);
    assert o.fillLevels + [] == o.fillLevels;
  }

  lemma PositiveConcat(a: seq<Level>, b: seq<Level>)
    requires PositiveFills(a) && PositiveFills(b)
    ensures PositiveFills(a + b)
  {
  }

  lemma ReportsAdvance(before: seq<Order>, after: seq<Order>, reported: map<OrderId, Report>)
    requires ReportsOk(before, reported) && AllOk(before) && OrdersAdvance(before, after)
    ensures ReportsOk(after, reported)
  {
    hide ReportOk, OrderOk, OrderEffect, PositiveFills, NewFills;
    forall i | 0 <= i < |after|
      ensures ReportOk(after[i], reported)
    {
      assert ReportOk(before[i], reported) && OrderOk(before[i]);
      ReportAdvance(before[i], after[i], reported);
    }
  }
}
