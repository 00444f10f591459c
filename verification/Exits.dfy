/** Bracket exits: selling a filled position into the bids when its take-profit or stop-loss fires. */
module Exits {
  import opened Prelude
  import opened Ladders
  import opened Orders

  /** Progress of one exit walk. */
  datatype Sold = Sold(bids: Ladder, qty: real, value: real, levels: seq<Level>)

  function SellAt(s: Sold, p: Price, toClose: real): Sold
    requires p in s.bids
  {
    var q := Min(toClose - s.qty, s.bids[p]);
    Sold(Deduct(s.bids, p, q), s.qty + q, s.value + Worth(q, p), s.levels + [Level(p, q)])
  }

  function ExitWalk(ks: seq<Price>, s: Sold, toClose: real): Sold
    decreases |ks|
  {
    if ks == [] then s
    else if Size(s.bids, ks[0]) <= 0.0 then ExitWalk(ks[1..], s, toClose)
    else
      var s' := SellAt(s, ks[0], toClose);
      if s'.qty >= toClose then s' else ExitWalk(ks[1..], s', toClose)
  }

  /** The record of one executed exit. */
  datatype Exit = Exit(
    id: OrderId,
    trigger: Trigger,
    triggerPrice: Option<real>,
    marketBid: real,
    qtyToClose: real,
    qtyExited: real,
    avgExit: real,
    levels: seq<Level>)

  datatype Exited = Exited(bids: Ladder, order: Order, record: Exit)

  function Sell(bids: Ladder, o: Order): Sold {
    ExitWalk(BestFirst(Bid, bids.Keys), Sold(bids, 0.0, 0.0, []), o.filled - o.Exited())
  }

  function Mean(value: real, qty: real): real
    requires qty > 0.0
  {
    value / qty
  }

  /** The running average exit price over all partial exits. */
  function CumulativePrice(o: Order, s: Sold, avgExit: real): real {
    var total := o.Exited() + s.qty;
    if o.exitPrice.Some? && o.Exited() > 0.0 && total > 0.0
    then Mean(Worth(o.Exited(), o.exitPrice.value) + s.value, total)
    else avgExit
  }

  /** `_execute_bracket_exit`. */
  function ExecuteExit(bids: Ladder, o: Order, marketBid: real, trigger: Trigger): Exited {
    var s := Sell(bids, o);
    var avgExit := if s.qty > 0.0 then Mean(s.value, s.qty) else marketBid;
    var total := o.Exited() + s.qty;
    Exited(
      s.bids,
      o.(closed := total >= o.filled,
         exitPrice := Some(CumulativePrice(o, s, avgExit)),
         exitTrigger := Some(trigger),
         exitFilled := Some(total)),
      Exit(o.terms.id, trigger, if trigger == TP then o.tp else o.sl, marketBid,
           o.filled - o.Exited(), s.qty, avgExit, s.levels))
  }

  /** Single condition policy: take profit is looked at first. */
  function Fires(o: Order, bid: real): Option<Trigger> {
    if o.tp.Some? && bid >= o.tp.value then Some(TP)
    else if o.sl.Some? && bid <= o.sl.value then Some(SL)
    else None
  }

  // ---------- What an exit does ----------

  ghost predicate AllPositive(levels: seq<Level>) {
    forall f :: f in levels ==> f.qty > 0.0
  }

  lemma AllPositiveSnoc(levels: seq<Level>, l: Level)
    requires AllPositive(levels) && l.qty > 0.0
    ensures AllPositive(levels + [l])
  {
  }

  /** A walk in progress that started from `bids` with nothing sold. */
  ghost predicate WalkOk(bids: Ladder, s: Sold, toClose: real) {
    && Drained(bids, s.levels, s.bids) && Positive(s.bids)
    && s.qty == Qty(s.levels) && s.value == Cost(s.levels)
    && 0.0 <= s.qty < toClose
    && AllPositive(s.levels)
  }

  ghost predicate WalkDone(bids: Ladder, s: Sold, toClose: real) {
    && Drained(bids, s.levels, s.bids) && Positive(s.bids)
    && s.qty == Qty(s.levels) && s.value == Cost(s.levels)
    && 0.0 <= s.qty <= toClose
    && AllPositive(s.levels)
  }

  lemma WalkPositive(bids: Ladder, s: Sold, toClose: real)
    requires WalkOk(bids, s, toClose)
    ensures Positive(s.bids) && forall p :: p in s.bids ==> s.bids[p] > 0.0
  {
  }

  lemma SellAtOk(bids: Ladder, s: Sold, p: Price, toClose: real)
    requires WalkOk(bids, s, toClose) && p in s.bids
    ensures var s' := SellAt(s, p, toClose);
      && WalkDone(bids, s', toClose)
      && (s'.qty < toClose ==> WalkOk(bids, s', toClose) && s'.bids.Keys == s.bids.Keys - {p})
  {
    hide Drained, Deduct, Positive, Qty, Cost, Worth, AllPositive;
    var q := Min(toClose - s.qty, s.bids[p]);
    WalkPositive(bids, s, toClose);
    AllPositiveSnoc(s.levels, Level(p, q));
    DrainedStep(bids, s.levels, s.bids, p, q);
    DeductPositive(s.bids, p, q);
    QtySnoc(s.levels, Level(p, q));
  }

  lemma {:induction false} ExitWalkOk(ks: seq<Price>, bids: Ladder, s: Sold, toClose: real)
    requires WalkOk(bids, s, toClose) && ks == BestFirst(Bid, s.bids.Keys)
    ensures var r := ExitWalk(ks, s, toClose);
      && WalkDone(bids, r, toClose)
      && (r.qty == toClose || r.bids.Keys == {})
    decreases |ks|
  {
    if ks != [] {
      hide WalkOk, WalkDone, SellAt;
      assert s.bids[ks[0]] > 0.0 by { WalkPositive(bids, s, toClose); }
      SellAtOk(bids, s, ks[0], toClose);
      var s' := SellAt(s, ks[0], toClose);
      WalkDoneBound(bids, s', toClose);
      if s'.qty < toClose {
        ExitWalkOk(ks[1..], bids, s', toClose);
      }
    }
  }

  lemma WalkDoneBound(bids: Ladder, s: Sold, toClose: real)
    requires WalkDone(bids, s, toClose)
    ensures s.qty <= toClose
  {
  }

  lemma StartOk(bids: Ladder, toClose: real)
    requires Positive(bids) && 0.0 < toClose
    ensures WalkOk(bids, Sold(bids, 0.0, 0.0, []), toClose)
  {
    DrainedNothing(bids);
  }

  lemma SellOk(bids: Ladder, o: Order)
    requires OrderOk(o) && Positive(bids) && !o.closed && o.filled > 0.0
    ensures var s := Sell(bids, o);
      && WalkDone(bids, s, o.filled - o.Exited())
      && (s.qty == o.filled - o.Exited() || s.bids.Keys == {})
  {
    StartOk(bids, o.filled - o.Exited());
    hide WalkOk, OrderOk, BestFirst;
    ExitWalkOk(BestFirst(Bid, bids.Keys), bids, Sold(bids, 0.0, 0.0, []), o.filled - o.Exited());
  }

  lemma Average(total: real, n: real)
    requires n > 0.0
    ensures Worth(n, Mean(total, n)) == total
  {
  }

  /** The running average keeps price times quantity equal to everything received so far. */
  lemma CumulativePriceOk(o: Order, s: Sold, marketBid: real)
    requires OrderOk(o) && s.qty >= 0.0 && (s.qty == 0.0 ==> s.value == 0.0)
    ensures var avg := if s.qty > 0.0 then Mean(s.value, s.qty) else marketBid;
      Worth(o.Exited() + s.qty, CumulativePrice(o, s, avg)) == o.Proceeds() + s.value
  {
    var total := o.Exited() + s.qty;
    if o.exitPrice.Some? && o.Exited() > 0.0 {
      Average(Worth(o.Exited(), o.exitPrice.value) + s.value, total);
    } else if s.qty > 0.0 {
      Average(s.value, s.qty);
    }
  }

  lemma {:induction false} NoQtyNoCost(levels: seq<Level>)
    requires AllPositive(levels)
    ensures Qty(levels) >= 0.0
    ensures levels != [] ==> Qty(levels) > 0.0
  {
    if levels != [] {
      var init := levels[..|levels| - 1];
      assert levels == init + [levels[|levels| - 1]];
      assert levels[|levels| - 1] in levels;
      NoQtyNoCost(init);
    }
  }

  lemma NothingSold(levels: seq<Level>)
    requires AllPositive(levels) && Qty(levels) <= 0.0
    ensures levels == [] && Cost(levels) == 0.0
  {
    NoQtyNoCost(levels);
  }

  /** What one exit does to the order, given the levels it sold into. */
  ghost predicate ExitEffect(o: Order, sold: seq<Level>, o': Order) {
    && o'.exitFilled == Some(o.Exited() + Qty(sold))
    && o'.Proceeds() == o.Proceeds() + Cost(sold)
    && (o'.closed <==> o'.Exited() == o.filled)
    && o'.(closed := o.closed, exitPrice := o.exitPrice, exitTrigger := o.exitTrigger,
           exitFilled := o.exitFilled) == o
    && Evolves(o, o')
  }

  /**
   An exit sells at most what is held, closes the position or empties the bids, and keeps
   price times quantity equal to the sum of all proceeds.
   */
  lemma ExitSound(bids: Ladder, o: Order, marketBid: real, trigger: Trigger)
    requires OrderOk(o) && Positive(bids) && !o.closed && o.filled > 0.0
    ensures var r := ExecuteExit(bids, o, marketBid, trigger);
      && OrderOk(r.order) && ExitEffect(o, r.record.levels, r.order)
      && Drained(bids, r.record.levels, r.bids) && Positive(r.bids)
      && AllPositive(r.record.levels)
      && r.record.qtyExited == Qty(r.record.levels)
      && Worth(r.record.qtyExited, r.record.avgExit) == Cost(r.record.levels)
      && (r.order.closed || r.bids.Keys == {})
  {
    hide Sell, Drained, CumulativePrice, Positive, Mean, Worth, Qty, Cost;
    SellOk(bids, o);
    var s := Sell(bids, o);
    NoQtyNoCost(s.levels);
    if s.qty > 0.0 {
      Average(s.value, s.qty);
    } else {
      NothingSold(s.levels);
      NothingWorth(marketBid);
    }
    CumulativePriceOk(o, s, marketBid);
  }

  // ---------- No way of selling the same quantity earns more ----------

  function Total(ys: seq<real>): real {
    if ys == [] then 0.0 else ys[0] + Total(ys[1..])
  }

  /** What selling `ys[i]` at price `ks[i]` brings in. */
  function Value(ks: seq<Price>, ys: seq<real>): real
    requires |ks| == |ys|
  {
    if ks == [] then 0.0 else Worth(ys[0], ks[0]) + Value(ks[1..], ys[1..])
  }

  ghost predicate Feasible(bids: Ladder, ks: seq<Price>, ys: seq<real>) {
    && |ys| == |ks|
    && (forall k :: k in ks ==> k in bids)
    && forall i :: 0 <= i < |ks| ==> 0.0 <= ys[i] <= bids[ks[i]]
  }

  lemma WorthAdd(a: real, b: real, p: real)
    ensures Worth(a + b, p) == Worth(a, p) + Worth(b, p)
  {
  }

  lemma {:induction false} ValueBounded(ks: seq<Price>, ys: seq<real>, top: real)
    requires |ks| == |ys|
    requires forall i :: 0 <= i < |ks| ==> ks[i] <= top && ys[i] >= 0.0
    ensures Total(ys) >= 0.0 && Value(ks, ys) <= Worth(Total(ys), top)
  {
    if ks != [] {
      ValueBounded(ks[1..], ys[1..], top);
      ScaleBelow(ys[0], ks[0], top);
      WorthAdd(ys[0], Total(ys[1..]), top);
      hide Worth;
    }
  }

  /** The exchange step: swapping quantity from a worse price to a better one never loses. */
  lemma Exchange(y: real, size: real, c: real, p: real, top: real)
    requires 0.0 <= y <= size && 0.0 <= p <= top
    ensures Worth(y, p) + Worth(Max(0.0, c), p) <= Worth(size, p) + Worth(Max(0.0, c + y - size), top)
  {
    var lhs, extra := y + Max(0.0, c), Max(0.0, c + y - size);
    assert lhs <= size + extra;
    ScaleBelow(extra, p, top);
    assert lhs * p <= (size + extra) * p;
    assert lhs * p == y * p + Max(0.0, c) * p;
    assert (size + extra) * p == size * p + extra * p;
  }

  /** The rest of the walk sees the rest of the levels as they were. */
  lemma RestFeasible(ks: seq<Price>, s: Sold, toClose: real, ys: seq<real>)
    requires ks != [] && Feasible(s.bids, ks, ys)
    requires forall i, j :: 0 <= i < j < |ks| ==> Better(Bid, ks[i], ks[j])
    ensures Feasible(SellAt(s, ks[0], toClose).bids, ks[1..], ys[1..])
    ensures forall k :: k in ks[1..] ==> k <= ks[0]
  {
    var rest := ks[1..];
    forall i | 0 <= i < |rest|
      ensures rest[i] != ks[0] && rest[i] <= ks[0] && rest[i] in s.bids
    {
      assert Better(Bid, ks[0], ks[i + 1]);
    }
  }

  lemma FirstIsTop(ks: seq<Price>, ys: seq<real>, bids: Ladder)
    requires ks != [] && Feasible(bids, ks, ys)
    requires forall i, j :: 0 <= i < j < |ks| ==> Better(Bid, ks[i], ks[j])
    ensures Total(ys) >= 0.0 && Value(ks, ys) <= Worth(Total(ys), ks[0])
  {
    forall i | 0 <= i < |ks|
      ensures ks[i] <= ks[0]
    {
      assert i == 0 || Better(Bid, ks[0], ks[i]);
    }
    ValueBounded(ks, ys, ks[0]);
  }

  lemma {:induction false} WalkBest(ks: seq<Price>, s: Sold, toClose: real, ys: seq<real>, top: real)
    requires Feasible(s.bids, ks, ys) && s.qty < toClose && Positive(s.bids)
    requires forall i, j :: 0 <= i < j < |ks| ==> Better(Bid, ks[i], ks[j])
    requires forall k :: k in ks ==> k <= top
    ensures var r := ExitWalk(ks, s, toClose);
      && r.qty >= s.qty
      && Value(ks, ys) <= (r.value - s.value) + Worth(Max(0.0, Total(ys) - (r.qty - s.qty)), top)
    decreases |ks|
  {
    if ks != [] {
      var p := ks[0];
      var s' := SellAt(s, p, toClose);
      var q := s'.qty - s.qty;
      assert p in ks && p <= top;
      assert 0.0 < q <= s.bids[p] && s'.value == s.value + Worth(q, p);
      assert s'.qty < toClose ==> q == s.bids[p];
      FirstIsTop(ks, ys, s.bids);
      RestFeasible(ks, s, toClose, ys);
      DeductPositive(s.bids, p, q);
      hide SellAt, Feasible, Positive, Deduct, Worth;
      if s'.qty >= toClose {
        LastLevel(Total(ys), q, p, top);
      } else {
        WalkBest(ks[1..], s', toClose, ys[1..], p);
        var r := ExitWalk(ks[1..], s', toClose);
        SizeLimit(ks, ys, s.bids);
        Exchange(ys[0], q, Total(ys[1..]) - (r.qty - s'.qty), p, top);
      }
    }
  }

  lemma SizeLimit(ks: seq<Price>, ys: seq<real>, bids: Ladder)
    requires ks != [] && Feasible(bids, ks, ys)
    ensures 0.0 <= ys[0] <= bids[ks[0]]
  {
  }

  lemma LastLevel(total: real, q: real, p: real, top: real)
    requires total >= 0.0 && q >= 0.0 && 0.0 <= p <= top
    ensures Worth(total, p) <= Worth(q, p) + Worth(Max(0.0, total - q), top)
  {
    var extra := Max(0.0, total - q);
    ScaleBelow(extra, p, top);
    assert total * p <= (q + extra) * p;
    assert (q + extra) * p == q * p + extra * p;
  }

  lemma FirstIsBest(ks: seq<Price>)
    requires ks != [] && forall i, j :: 0 <= i < j < |ks| ==> Better(Bid, ks[i], ks[j])
    ensures forall k :: k in ks ==> k <= ks[0]
  {
    forall k | k in ks
      ensures k <= ks[0]
    {
      var i :| 0 <= i < |ks| && ks[i] == k;
      assert i == 0 || Better(Bid, ks[0], ks[i]);
    }
  }

  lemma WalkEarnsMost(ks: seq<Price>, bids: Ladder, toClose: real, ys: seq<real>)
    requires Positive(bids) && 0.0 < toClose && Feasible(bids, ks, ys)
    requires forall i, j :: 0 <= i < j < |ks| ==> Better(Bid, ks[i], ks[j])
    requires Total(ys) <= ExitWalk(ks, Sold(bids, 0.0, 0.0, []), toClose).qty
    ensures Value(ks, ys) <= ExitWalk(ks, Sold(bids, 0.0, 0.0, []), toClose).value
  {
    if ks != [] {
      hide *;
      FirstIsBest(ks);
      WalkBest(ks, Sold(bids, 0.0, 0.0, []), toClose, ys, ks[0]);
      NothingWorth(ks[0]);
      NoExcess(Total(ys), ExitWalk(ks, Sold(bids, 0.0, 0.0, []), toClose).qty - 0.0);
    }
  }

  lemma NoExcess(a: real, b: real)
    requires a <= b
    ensures Max(0.0, a - b) == 0.0
  {
  }

  lemma NothingWorth(p: real)
    ensures Worth(0.0, p) == 0.0
  {
  }

  /**
   Greedy from the best bid is optimal: no way of selling at most the same quantity into the same
   bids, within their sizes, brings in more than the exit did.
   */
  lemma ExitEarnsMost(bids: Ladder, o: Order, marketBid: real, trigger: Trigger, ys: seq<real>)
    requires OrderOk(o) && Positive(bids) && !o.closed && o.filled > 0.0
    requires Feasible(bids, BestFirst(Bid, bids.Keys), ys)
    requires Total(ys) <= ExecuteExit(bids, o, marketBid, trigger).record.qtyExited
    ensures Value(BestFirst(Bid, bids.Keys), ys) <= Cost(ExecuteExit(bids, o, marketBid, trigger).record.levels)
  {
    var ks, toClose := BestFirst(Bid, bids.Keys), o.filled - o.Exited();
    SellOk(bids, o);
    assert 0.0 < toClose && Sell(bids, o) == ExitWalk(ks, Sold(bids, 0.0, 0.0, []), toClose);
    BestFirstSorted(Bid, bids.Keys);
    hide Value, Total, Feasible, BestFirst, Better, Positive, OrderOk, Drained, AllPositive;
    WalkEarnsMost(ks, bids, toClose, ys);
  }
}
