/**
 The greedy walks over a snapshot of the asks that fill an order at the API: what they buy, that no
 other way of buying gets more, and that the engine's own MARKET sweep agrees with them.
 */
module Walks {
  import opened Prelude
  import opened Ladders
  import opened Orders
  import opened Matching

  const DEFAULT_TOLERANCE: real := 0.10

  /** Progress of a walk. */
  datatype Walked = Walked(cost: real, qty: real, levels: seq<Level>)

  const NOTHING := Walked(0.0, 0.0, [])

  /** Buy at one level as much as the level and the budget allow. */
  function BuyAt(w: Walked, ask: Level, budget: real): Walked {
    var q := Min(ask.qty, Afford(budget - w.cost, ask.price));
    Walked(w.cost + Worth(q, ask.price), w.qty + q, w.levels + [Level(ask.price, q)])
  }

  function Walk(asks: seq<Level>, w: Walked, cap: real, budget: real): Walked {
    if asks == [] || asks[0].price > cap || budget - w.cost <= 0.0 then w
    else
      var w' := BuyAt(w, asks[0], budget);
      if w'.cost >= budget then w' else Walk(asks[1..], w', cap, budget)
  }

  datatype FillError = SnapshotUnavailable | NoAsks | FokRejected | NothingFilled

  datatype Fill = Fill(avgPrice: real, shares: real, levels: seq<Level>)

  datatype LimitFill = LimitFill(avgPrice: real, shares: real, levels: seq<Level>, remainingBudget: real)

  /** The highest price a walk may pay. */
  function PriceCap(asks: seq<Level>, slippage: Option<real>, limit: Option<Price>, ceiling: Option<Price>): real
    requires asks != []
  {
    var cap := if limit.Some? then limit.value as real
               else Worth(1.0 + slippage.GetOr(DEFAULT_TOLERANCE), asks[0].price);
    if ceiling.Some? then Min(cap, ceiling.value) else cap
  }

  /** What `_fill_market_from_snapshot` answers, in terms of the walk. */
  function MarketFill(asks: seq<Level>, amount: real, slippage: Option<real>, limit: Option<Price>,
                      fok: bool, ceiling: Option<Price>): Result<Fill, FillError>
  {
    if asks == [] then Err(NoAsks)
    else
      var w := Walk(asks, NOTHING, PriceCap(asks, slippage, limit, ceiling), amount);
      if fok && ceiling.Some? && w.cost < amount && w.qty > 0.0 then Err(FokRejected)
      else if w.qty == 0.0 then Err(if fok then FokRejected else NothingFilled)
      else Ok(Fill(w.cost / w.qty, w.qty, w.levels))
  }

  /** The loop both fills share in the source's text. */
  method WalkAsks(asks: seq<Level>, cap: real, budget: real) returns (cost: real, qty: real, levels: seq<Level>)
    ensures Walked(cost, qty, levels) == Walk(asks, NOTHING, cap, budget)
  {
    cost, qty, levels := 0.0, 0.0, [];
    ghost var goal := Walk(asks, NOTHING, cap, budget);
    var i := 0;
    while i < |asks|
      invariant i <= |asks|
      invariant Walk(asks[i..], Walked(cost, qty, levels), cap, budget) == goal
    {
      hide Worth, Afford;
      var price, size := asks[i].price, asks[i].qty;
      i := i + 1;
      assert asks[i - 1..][1..] == asks[i..];
      if price > cap {
        break;
      }
      var remaining := budget - cost;
      if remaining <= 0.0 {
        break;
      }
      var q := Min(size, Afford(remaining, price));
      cost := cost + Worth(q, price);
      qty := qty + q;
      levels := levels + [Level(price, q)];
      if cost >= budget {
        break;
      }
    }
  }

  /** `_fill_market_from_snapshot`; `asks` is None when there is no readable snapshot. */
  method FillMarketFromSnapshot(asks: Option<seq<Level>>, amount: real, slippage: Option<real>,
                                limit: Option<Price>, fok: bool, ceiling: Option<Price>)
    returns (r: Result<Fill, FillError>)
    ensures r == if asks.None? then Err(SnapshotUnavailable)
                 else MarketFill(asks.value, amount, slippage, limit, fok, ceiling)
  {
    hide Walk, Worth;
    if asks.None? {
      return Err(SnapshotUnavailable);
    }
    if asks.value == [] {
      return Err(NoAsks);
    }
    var cost, qty, levels := WalkAsks(asks.value, PriceCap(asks.value, slippage, limit, ceiling), amount);
    if fok && ceiling.Some? {
      if cost < amount && qty > 0.0 {
        return Err(FokRejected);
      }
    }
    if qty == 0.0 {
      return Err(if fok then FokRejected else NothingFilled);
    }
    return Ok(Fill(cost / qty, qty, levels));
  }

  function LimitFillOf(asks: seq<Level>, amount: real, limit: Price): Result<LimitFill, FillError> {
    if asks == [] then Err(NoAsks)
    else
      var w := Walk(asks, NOTHING, limit, amount);
      Ok(LimitFill(if w.qty > 0.0 then w.cost / w.qty else 0.0, w.qty, w.levels, Max(0.0, amount - w.cost)))
  }

  /** `_fill_limit_from_snapshot`. */
  method FillLimitFromSnapshot(asks: Option<seq<Level>>, amount: real, limit: Price)
    returns (r: Result<LimitFill, FillError>)
    ensures r == if asks.None? then Err(SnapshotUnavailable) else LimitFillOf(asks.value, amount, limit)
  {
    hide Walk;
    if asks.None? {
      return Err(SnapshotUnavailable);
    }
    if asks.value == [] {
      return Err(NoAsks);
    }
    var cost, qty, levels := WalkAsks(asks.value, limit, amount);
    var remaining := amount - cost;
    if remaining < 0.0 {
      remaining := 0.0;
    }
    return Ok(LimitFill(if qty > 0.0 then cost / qty else 0.0, qty, levels, remaining));
  }

  // ---------- What a walk does ----------

  ghost predicate Sizes(asks: seq<Level>) {
    forall i :: 0 <= i < |asks| ==> asks[i].qty > 0.0
  }

  ghost predicate Ascending(asks: seq<Level>) {
    forall i, j :: 0 <= i < j < |asks| ==> asks[i].price <= asks[j].price
  }

  /** The leading levels a cap allows. */
  function UnderCap(asks: seq<Level>, cap: real): seq<Level> {
    if asks == [] || asks[0].price > cap then [] else [asks[0]] + UnderCap(asks[1..], cap)
  }

  ghost predicate WalkedOk(w: Walked, budget: real) {
    w.cost == Cost(w.levels) && w.qty == Qty(w.levels) && 0.0 <= w.cost <= budget && 0.0 <= w.qty
  }

  /** Either the level runs out or the budget does. */
  lemma BuyAtOk(w: Walked, ask: Level, budget: real)
    requires WalkedOk(w, budget) && w.cost < budget && ask.qty > 0.0
    ensures var w' := BuyAt(w, ask, budget);
      && WalkedOk(w', budget) && w'.qty > w.qty
      && (w'.cost < budget ==> w'.levels == w.levels + [ask] && w'.qty == w.qty + ask.qty
                               && w'.cost == w.cost + Worth(ask.qty, ask.price))
      && (w'.cost == budget ==> Worth(w'.qty - w.qty, ask.price) == budget - w.cost)
      && 0.0 < w'.qty - w.qty <= ask.qty
  {
    BuyQty(budget - w.cost, ask.qty, ask.price);
    hide Worth, Afford, Qty, Cost;
    QtySnoc(w.levels, Level(ask.price, Min(ask.qty, Afford(budget - w.cost, ask.price))));
  }

  lemma BuyQty(rem: real, size: real, p: Price)
    requires rem > 0.0 && size > 0.0
    ensures var q := Min(size, Afford(rem, p));
      0.0 < q <= size && 0.0 < Worth(q, p) <= rem && (Worth(q, p) < rem ==> q == size)
  {
    AffordOk(rem, p);
    var q := Min(size, Afford(rem, p));
    assert Worth(q, p) <= Worth(Afford(rem, p), p);
    assert Worth(q, p) > 0.0;
  }

  lemma WalkStops(asks: seq<Level>, w: Walked, cap: real, budget: real)
    requires asks == [] || asks[0].price > cap
    ensures Walk(asks, w, cap, budget) == w && UnderCap(asks, cap) == []
  {
  }

  lemma UnderCapUnfolds(asks: seq<Level>, cap: real)
    requires asks != [] && asks[0].price <= cap
    ensures UnderCap(asks, cap) == [asks[0]] + UnderCap(asks[1..], cap)
  {
  }

  lemma SizesRest(asks: seq<Level>)
    requires Sizes(asks) && asks != []
    ensures asks[0].qty > 0.0 && Sizes(asks[1..])
  {
  }

  /**
   A walk never spends more than its budget, and ends with the budget spent or with every level
   under the cap bought whole.
   */
  lemma {:induction false} WalkEnds(asks: seq<Level>, w: Walked, cap: real, budget: real)
    requires Sizes(asks) && WalkedOk(w, budget) && w.cost < budget
    ensures var r := Walk(asks, w, cap, budget);
      && WalkedOk(r, budget) && r.qty >= w.qty
      && (r.cost == budget || r.levels == w.levels + UnderCap(asks, cap))
      && (r.qty > w.qty <==> asks != [] && asks[0].price <= cap)
    decreases |asks|
  {
    hide *;
    if asks == [] || asks[0].price > cap {
      WalkStops(asks, w, cap, budget);
      assert w.levels + [] == w.levels;
    } else {
      SizesRest(asks);
      BuyAtOk(w, asks[0], budget);
      WalkUnfolds(asks, w, cap, budget);
      UnderCapUnfolds(asks, cap);
      var w' := BuyAt(w, asks[0], budget);
      WalkedBounds(w', budget);
      if w'.cost < budget {
        WalkEnds(asks[1..], w', cap, budget);
        assert w.levels + [asks[0]] + UnderCap(asks[1..], cap) == w.levels + UnderCap(asks, cap);
      }
    }
  }

  lemma WorthPositive(q: real, p: Price)
    requires q > 0.0
    ensures Worth(q, p) > 0.0
  {
  }

  lemma {:induction false} UnderCapWorth(asks: seq<Level>, cap: real)
    requires Sizes(asks)
    ensures Cost(UnderCap(asks, cap)) >= 0.0
    ensures asks != [] && asks[0].price <= cap ==>
      Cost(UnderCap(asks, cap)) == Worth(asks[0].qty, asks[0].price) + Cost(UnderCap(asks[1..], cap))
      && Worth(asks[0].qty, asks[0].price) > 0.0
  {
    if asks != [] && asks[0].price <= cap {
      UnderCapWorth(asks[1..], cap);
      WorthPositive(asks[0].qty, asks[0].price);
      hide Worth;
      QtyConcat([asks[0]], UnderCap(asks[1..], cap));
      assert [asks[0]][..0] == [];
      assert Cost([asks[0]][..0]) == 0.0;
    }
  }

  /** A walk spends its budget, or all that the asks under the cap are worth when that is less. */
  lemma {:induction false} WalkSpends(asks: seq<Level>, w: Walked, cap: real, budget: real)
    requires Sizes(asks) && WalkedOk(w, budget) && w.cost < budget
    ensures Walk(asks, w, cap, budget).cost == Min(budget, w.cost + Cost(UnderCap(asks, cap)))
    decreases |asks|
  {
    if asks == [] || asks[0].price > cap {
      assert UnderCap(asks, cap) == [] && Cost([]) == 0.0;
      assert w.cost <= budget;
    } else {
      UnderCapWorth(asks, cap);
      WalkUnfolds(asks, w, cap, budget);
      BuyAtOk(w, asks[0], budget);
      var w', p := BuyAt(w, asks[0], budget), asks[0].price;
      WalkedBounds(w', budget);
      UnderCapWorth(asks[1..], cap);
      hide BuyAt, WalkedOk, Worth, Cost, Walk, UnderCap;
      if w'.cost < budget {
        WalkSpends(asks[1..], w', cap, budget);
      } else {
        AtMostTheLevel(w'.qty - w.qty, asks[0].qty, p);
      }
    }
  }

  /** What a LIMIT walk leaves unspent though it bought something, from the asks alone. */
  lemma LimitRemainder(asks: seq<Level>, amount: real, limit: Price)
    requires asks != [] && Sizes(asks) && amount > 0.0
    ensures var fill, worth := LimitFillOf(asks, amount, limit).value, Cost(UnderCap(asks, limit));
      (if fill.shares > 0.0 then fill.remainingBudget else 0.0) == if 0.0 < worth < amount then amount - worth else 0.0
  {
    StartOk(amount);
    WalkEnds(asks, NOTHING, limit, amount);
    WalkSpends(asks, NOTHING, limit, amount);
    UnderCapWorth(asks, limit);
    UnderCapWorth(asks[1..], limit);
    if asks[0].price > limit {
      assert UnderCap(asks, limit) == [] && Cost([]) == 0.0;
    }
    hide Walk, Cost, Worth;
  }

  lemma AtMostTheLevel(q: real, size: real, p: Price)
    requires q <= size
    ensures Worth(q, p) <= Worth(size, p)
  {
    assert (size - q) * p >= 0.0;
  }

  lemma WalkedBounds(w: Walked, budget: real)
    requires WalkedOk(w, budget)
    ensures w.cost <= budget
  {
  }

  lemma StartOk(budget: real)
    requires budget > 0.0
    ensures WalkedOk(NOTHING, budget)
  {
  }

  // ---------- No other way of buying gets more ----------

  function TotalOf(ys: seq<real>): real {
    if ys == [] then 0.0 else ys[0] + TotalOf(ys[1..])
  }

  /** What it costs to buy `ys[i]` at level `i`. */
  function CostOf(asks: seq<Level>, ys: seq<real>): real
    requires |asks| == |ys|
  {
    if asks == [] then 0.0 else Worth(ys[0], asks[0].price) + CostOf(asks[1..], ys[1..])
  }

  /** Quantities within the sizes of the levels, and none above the cap. */
  ghost predicate Allowed(asks: seq<Level>, ys: seq<real>, cap: real) {
    && |ys| == |asks|
    && forall i :: 0 <= i < |asks| ==> 0.0 <= ys[i] <= asks[i].qty && (asks[i].price > cap ==> ys[i] == 0.0)
  }

  lemma {:induction false} NoneAllowed(asks: seq<Level>, ys: seq<real>)
    requires |ys| == |asks| && forall i :: 0 <= i < |asks| ==> ys[i] == 0.0
    ensures TotalOf(ys) == 0.0 && CostOf(asks, ys) == 0.0
  {
    if asks != [] {
      NoneAllowed(asks[1..], ys[1..]);
      assert Worth(0.0, asks[0].price) == 0.0;
    }
  }

  /** Buying anywhere at or above a price costs at least that price a share. */
  lemma {:induction false} CostAtLeast(asks: seq<Level>, ys: seq<real>, p: real)
    requires |ys| == |asks| && forall i :: 0 <= i < |asks| ==> ys[i] >= 0.0 && asks[i].price >= p
    ensures Worth(TotalOf(ys), p) <= CostOf(asks, ys)
    ensures TotalOf(ys) >= 0.0
  {
    if asks == [] {
      assert Worth(0.0, p) == 0.0;
    } else {
      CostAtLeast(asks[1..], ys[1..], p);
      assert Worth(ys[0], p) <= Worth(ys[0], asks[0].price);
      assert Worth(ys[0] + TotalOf(ys[1..]), p) == Worth(ys[0], p) + Worth(TotalOf(ys[1..]), p);
    }
  }

  /** A whole level taken: what it saves elsewhere is worth at least what it gives up here. */
  lemma LevelExchange(p0: real, p: real, y: real, s: real, d: real, e: real)
    requires 0.0 < p0 <= p && 0.0 <= y <= s
    requires Worth(d, p) <= Max(0.0, e)
    ensures Worth(y - s + d, p0) <= Max(0.0, e - Worth(s, p) + Worth(y, p))
  {
    var g := d - (s - y);
    if g > 0.0 {
      assert Worth(d, p) > 0.0;
      assert Worth(g, p) == Worth(d, p) - Worth(s, p) + Worth(y, p);
      assert Worth(g, p0) <= Worth(g, p);
    } else {
      assert Worth(g, p0) <= 0.0;
    }
  }

  /** The budget runs out here: nothing after this level is cheaper. */
  lemma LastExchange(p0: real, p: real, total: real, cost: real, q: real, rem: real)
    requires 0.0 < p0 <= p && Worth(q, p) == rem && Worth(total, p) <= cost
    ensures Worth(total - q, p0) <= Max(0.0, cost - rem)
  {
    var g := total - q;
    assert Worth(g, p) == Worth(total, p) - Worth(q, p);
    if g > 0.0 {
      assert Worth(g, p0) <= Worth(g, p);
    } else {
      assert Worth(g, p0) <= 0.0;
    }
  }

  lemma WalkUnfolds(asks: seq<Level>, w: Walked, cap: real, budget: real)
    requires asks != [] && asks[0].price <= cap && w.cost < budget
    ensures var w' := BuyAt(w, asks[0], budget);
      Walk(asks, w, cap, budget) == if w'.cost >= budget then w' else Walk(asks[1..], w', cap, budget)
  {
    hide BuyAt;
  }

  lemma ChoiceUnfolds(asks: seq<Level>, ys: seq<real>, cap: real)
    requires asks != [] && Sizes(asks) && Ascending(asks) && Allowed(asks, ys, cap)
    ensures |ys| == |asks| && TotalOf(ys) == ys[0] + TotalOf(ys[1..])
    ensures CostOf(asks, ys) == Worth(ys[0], asks[0].price) + CostOf(asks[1..], ys[1..])
    ensures Sizes(asks[1..]) && Ascending(asks[1..]) && Allowed(asks[1..], ys[1..], cap)
    ensures 0.0 <= ys[0] <= asks[0].qty
    ensures forall i :: 0 <= i < |asks[1..]| ==> asks[0].price <= asks[1..][i].price
  {
  }

  lemma {:induction false} WalkMost(asks: seq<Level>, w: Walked, cap: real, budget: real, ys: seq<real>, p0: real)
    requires Sizes(asks) && Ascending(asks) && Allowed(asks, ys, cap)
    requires WalkedOk(w, budget) && w.cost < budget
    requires 0.0 < p0 && forall i :: 0 <= i < |asks| ==> p0 <= asks[i].price
    ensures var r := Walk(asks, w, cap, budget);
      Worth(TotalOf(ys) - (r.qty - w.qty), p0) <= Max(0.0, CostOf(asks, ys) - (budget - w.cost))
    decreases |asks|
  {
    hide BuyAt, WalkedOk, Worth, Walk, TotalOf, CostOf, Sizes, Ascending, Allowed;
    if asks == [] || asks[0].price > cap {
      NoneBetter(asks, w, cap, budget, ys, p0);
    } else {
      WalkUnfolds(asks, w, cap, budget);
      ChoiceUnfolds(asks, ys, cap);
      AskIsSized(asks);
      BuyAtOk(w, asks[0], budget);
      var w', p := BuyAt(w, asks[0], budget), asks[0].price;
      var q := w'.qty - w.qty;
      WalkedBounds(w', budget);
      var ys', rest := ys[1..], asks[1..];
      if w'.cost >= budget {
        ChoiceCosts(asks, ys, cap);
        LastExchange(p0, p, TotalOf(ys), CostOf(asks, ys), q, budget - w.cost);
      } else {
        WalkMost(rest, w', cap, budget, ys', p);
        var r := Walk(rest, w', cap, budget);
        var d := TotalOf(ys') - (r.qty - w'.qty);
        var e := CostOf(rest, ys') - (budget - w'.cost);
        LevelExchange(p0, p, ys[0], asks[0].qty, d, e);
        assert TotalOf(ys) - (r.qty - w.qty) == ys[0] - asks[0].qty + d;
      }
    }
  }

  lemma AskIsSized(asks: seq<Level>)
    requires asks != [] && Sizes(asks)
    ensures asks[0].qty > 0.0
  {
  }

  lemma NoneBetter(asks: seq<Level>, w: Walked, cap: real, budget: real, ys: seq<real>, p0: real)
    requires asks == [] || asks[0].price > cap
    requires Ascending(asks) && Allowed(asks, ys, cap) && w.cost < budget
    ensures Walk(asks, w, cap, budget) == w && TotalOf(ys) == 0.0 && CostOf(asks, ys) == 0.0
    ensures Worth(0.0, p0) == 0.0
  {
    NoneAllowed(asks, ys);
  }

  lemma ChoiceCosts(asks: seq<Level>, ys: seq<real>, cap: real)
    requires asks != [] && Ascending(asks) && Allowed(asks, ys, cap)
    ensures Worth(TotalOf(ys), asks[0].price) <= CostOf(asks, ys)
  {
    CostAtLeast(asks, ys, asks[0].price);
  }

  /**
   On asks sorted from the cheapest, no choice of quantities within the level sizes, the price cap
   and the budget buys more shares than the walk.
   */
  lemma WalkIsOptimal(asks: seq<Level>, cap: real, budget: real, ys: seq<real>)
    requires Sizes(asks) && Ascending(asks) && budget > 0.0
    requires Allowed(asks, ys, cap) && CostOf(asks, ys) <= budget
    ensures TotalOf(ys) <= Walk(asks, NOTHING, cap, budget).qty
  {
    if asks != [] {
      StartOk(budget);
      var p := asks[0].price;
      WalkMost(asks, NOTHING, cap, budget, ys, p);
      var excess := TotalOf(ys) - Walk(asks, NOTHING, cap, budget).qty;
      hide Walk, TotalOf, CostOf;
      assert Worth(excess, p) <= 0.0;
      NoExcess(excess, p);
    }
  }

  lemma NoExcess(x: real, p: real)
    requires p > 0.0 && Worth(x, p) <= 0.0
    ensures x <= 0.0
  {
  }

  // ---------- The answers ----------

  /** The LIMIT walk splits the amount exactly into what was spent and what is queued. */
  lemma LimitSplitsAmount(asks: seq<Level>, amount: real, limit: Price)
    requires asks != [] && Sizes(asks) && amount > 0.0
    ensures var r := LimitFillOf(asks, amount, limit);
      && r.Ok? && Cost(r.value.levels) + r.value.remainingBudget == amount
      && r.value.remainingBudget >= 0.0 && Qty(r.value.levels) == r.value.shares
      && (r.value.remainingBudget == 0.0 || r.value.levels == UnderCap(asks, limit))
      && (r.value.shares > 0.0 <==> asks[0].price <= limit)
  {
    StartOk(amount);
    WalkEnds(asks, NOTHING, limit, amount);
    assert NOTHING.levels + UnderCap(asks, limit) == UnderCap(asks, limit);
  }

  /** With these parameters a fill-or-kill order never fills in part. */
  ghost predicate AllOrNothing(asks: seq<Level>, amount: real, slippage: Option<real>, limit: Option<Price>,
                               ceiling: Option<Price>)
  {
    var fok := MarketFill(asks, amount, slippage, limit, true, ceiling);
    fok.Ok? ==> Cost(fok.value.levels) == amount
  }

  /**
   A fill-or-kill order is filled exactly when some ask is under the cap and either no ceiling was
   given or those asks are worth the amount, and then as a fill-and-kill order would be. So it is all
   or nothing exactly when a ceiling is given, or the asks under the cap are worth the amount, or
   there are none.
   */
  lemma FokExactly(asks: seq<Level>, amount: real, slippage: Option<real>, limit: Option<Price>,
                   ceiling: Option<Price>)
    requires asks != [] && Sizes(asks) && amount > 0.0
    ensures var under := asks[..Leading(asks, asks[0].price, slippage, limit, ceiling)];
      var fak := MarketFill(asks, amount, slippage, limit, false, ceiling);
      var fok := MarketFill(asks, amount, slippage, limit, true, ceiling);
      && (fak.Ok? <==> under != [])
      && (fok.Ok? <==> under != [] && (ceiling.None? || Cost(under) >= amount))
      && (fok.Ok? ==> fok == fak)
      && (AllOrNothing(asks, amount, slippage, limit, ceiling) <==>
            ceiling.Some? || Cost(under) >= amount || under == [])
  {
    var cap := PriceCap(asks, slippage, limit, ceiling);
    StartOk(amount);
    WalkEnds(asks, NOTHING, cap, amount);
    WalkSpends(asks, NOTHING, cap, amount);
    LeadingIsUnderCap(asks, slippage, limit, ceiling);
    UnderCapPrefix(asks, cap);
    hide Walk, PriceCap, Cost, Leading;
  }

  // ---------- Within the bounds of the request ----------

  /** Prices a request allows: up to its limit or else its slippage over the best ask, and up to its ceiling. */
  predicate Allows(best: Price, slippage: Option<real>, limit: Option<Price>, ceiling: Option<Price>, p: Price) {
    && (limit.Some? ==> p <= limit.value)
    && (limit.None? ==> p <= best * (1.0 + slippage.GetOr(0.10)))
    && (ceiling.Some? ==> p <= ceiling.value)
  }

  /** How many leading asks have prices the request allows. */
  function Leading(asks: seq<Level>, best: Price, slippage: Option<real>, limit: Option<Price>,
                   ceiling: Option<Price>): (n: nat)
    ensures n <= |asks|
    ensures forall k :: 0 <= k < n ==> Allows(best, slippage, limit, ceiling, asks[k].price)
    ensures n < |asks| ==> !Allows(best, slippage, limit, ceiling, asks[n].price)
  {
    if asks == [] || !Allows(best, slippage, limit, ceiling, asks[0].price) then 0
    else 1 + Leading(asks[1..], best, slippage, limit, ceiling)
  }

  lemma CapAllows(asks: seq<Level>, slippage: Option<real>, limit: Option<Price>, ceiling: Option<Price>, p: Price)
    requires asks != []
    ensures p <= PriceCap(asks, slippage, limit, ceiling) <==> Allows(asks[0].price, slippage, limit, ceiling, p)
  {
    assert Worth(1.0 + slippage.GetOr(0.10), asks[0].price) == asks[0].price * (1.0 + slippage.GetOr(0.10));
  }

  lemma {:induction false} UnderCapLeads(asks: seq<Level>, best: Price, slippage: Option<real>, limit: Option<Price>,
                                         ceiling: Option<Price>, cap: real)
    requires forall l :: l in asks ==> (l.price <= cap <==> Allows(best, slippage, limit, ceiling, l.price))
    ensures UnderCap(asks, cap) == asks[..Leading(asks, best, slippage, limit, ceiling)]
  {
    if asks != [] {
      assert asks[0] in asks;
      UnderCapLeads(asks[1..], best, slippage, limit, ceiling, cap);
    }
  }

  lemma LeadingIsUnderCap(asks: seq<Level>, slippage: Option<real>, limit: Option<Price>, ceiling: Option<Price>)
    requires asks != []
    ensures UnderCap(asks, PriceCap(asks, slippage, limit, ceiling)) ==
      asks[..Leading(asks, asks[0].price, slippage, limit, ceiling)]
  {
    forall l | l in asks
      ensures l.price <= PriceCap(asks, slippage, limit, ceiling) <==>
        Allows(asks[0].price, slippage, limit, ceiling, l.price)
    {
      CapAllows(asks, slippage, limit, ceiling, l.price);
    }
    hide PriceCap, Allows;
    UnderCapLeads(asks, asks[0].price, slippage, limit, ceiling, PriceCap(asks, slippage, limit, ceiling));
  }

  /** Bought level by level from the best ask on, each whole but perhaps the last. */
  ghost predicate FromTheTop(asks: seq<Level>, bought: seq<Level>) {
    && |bought| <= |asks|
    && forall k :: 0 <= k < |bought| ==>
         && bought[k].price == asks[k].price && 0.0 < bought[k].qty <= asks[k].qty
         && (k < |bought| - 1 ==> bought[k].qty == asks[k].qty)
  }

  lemma ConsFromTheTop(asks: seq<Level>, l: Level, rest: seq<Level>)
    requires asks != [] && FromTheTop(asks[1..], rest)
    requires l == asks[0] && l.qty > 0.0
    ensures FromTheTop(asks, [l] + rest)
  {
    var bought := [l] + rest;
    forall k | 0 <= k < |bought|
      ensures bought[k].price == asks[k].price && 0.0 < bought[k].qty <= asks[k].qty
      ensures k < |bought| - 1 ==> bought[k].qty == asks[k].qty
    {
      if k > 0 {
        assert bought[k] == rest[k - 1] && asks[k] == asks[1..][k - 1];
      }
    }
  }

  /** One level bought, and what was bought of it. */
  lemma BuyAtLevel(w: Walked, ask: Level, budget: real) returns (l: Level)
    requires WalkedOk(w, budget) && w.cost < budget && ask.qty > 0.0
    ensures var w' := BuyAt(w, ask, budget);
      && WalkedOk(w', budget) && w'.cost <= budget && w'.levels == w.levels + [l]
      && l.price == ask.price && 0.0 < l.qty <= ask.qty && (w'.cost < budget ==> l == ask)
  {
    BuyAtOk(w, ask, budget);
    var w' := BuyAt(w, ask, budget);
    l := Level(ask.price, w'.qty - w.qty);
    hide Worth, Afford, Qty, Cost;
  }

  lemma {:induction false} WalkFromTheTop(asks: seq<Level>, w: Walked, cap: real, budget: real)
    returns (bought: seq<Level>)
    requires Sizes(asks) && WalkedOk(w, budget) && w.cost < budget
    ensures Walk(asks, w, cap, budget).levels == w.levels + bought
    ensures FromTheTop(asks, bought) && |bought| <= |UnderCap(asks, cap)|
    decreases |asks|
  {
    hide *;
    if asks == [] || asks[0].price > cap {
      bought := [];
      WalkStops(asks, w, cap, budget);
      NothingFromTheTop(asks);
      assert w.levels + [] == w.levels;
    } else {
      SizesRest(asks);
      var l := BuyAtLevel(w, asks[0], budget);
      var w' := BuyAt(w, asks[0], budget);
      WalkUnfolds(asks, w, cap, budget);
      UnderCapUnfolds(asks, cap);
      if w'.cost < budget {
        var rest := WalkFromTheTop(asks[1..], w', cap, budget);
        bought := [l] + rest;
        assert w.levels + [l] + rest == w.levels + bought;
        ConsFromTheTop(asks, l, rest);
      } else {
        bought := [l];
        OneFromTheTop(asks, l);
      }
    }
  }

  lemma NothingFromTheTop(asks: seq<Level>)
    ensures FromTheTop(asks, [])
  {
  }

  lemma OneFromTheTop(asks: seq<Level>, l: Level)
    requires asks != [] && l.price == asks[0].price && 0.0 < l.qty <= asks[0].qty
    ensures FromTheTop(asks, [l])
  {
  }

  lemma AverageCost(cost: real, qty: real)
    requires qty > 0.0
    ensures Worth(qty, cost / qty) == cost
  {
  }

  /** What a fill at the market is, with no regard to how it was found. */
  ghost predicate FilledWithin(asks: seq<Level>, n: nat, amount: real, fill: Fill)
    requires n <= |asks|
  {
    && FromTheTop(asks[..n], fill.levels)
    && fill.shares == Qty(fill.levels) > 0.0 && Worth(fill.shares, fill.avgPrice) == Cost(fill.levels) <= amount
    && (Cost(fill.levels) < amount ==> fill.levels == asks[..n])
  }

  lemma WalkWithin(asks: seq<Level>, cap: real, amount: real)
    requires asks != [] && Sizes(asks) && amount > 0.0
    ensures var n, w := |UnderCap(asks, cap)|, Walk(asks, NOTHING, cap, amount);
      && n <= |asks| && UnderCap(asks, cap) == asks[..n]
      && (w.qty > 0.0 <==> n > 0) && w.qty >= 0.0 && w.cost == Cost(w.levels) <= amount
      && (w.qty > 0.0 ==> FilledWithin(asks, n, amount, Fill(w.cost / w.qty, w.qty, w.levels)))
  {
    StartOk(amount);
    WalkEnds(asks, NOTHING, cap, amount);
    UnderCapPrefix(asks, cap);
    var n := |UnderCap(asks, cap)|;
    var bought := WalkFromTheTop(asks, NOTHING, cap, amount);
    assert [] + bought == bought && [] + asks[..n] == asks[..n];
    assert FromTheTop(asks[..n], bought);
    var w := Walk(asks, NOTHING, cap, amount);
    hide Walk, Cost, Qty, UnderCap, Worth, FromTheTop;
    if w.qty > 0.0 {
      AverageCost(w.cost, w.qty);
    }
  }

  /**
   A fill at the market is bought from the best ask on, and only at prices the request allows: within its
   slippage or limit, and never above its ceiling. Unless it spends the whole amount it takes every
   leading ask within these bounds whole. Its average price times its shares is what it cost.
   */
  lemma MarketFillWithin(asks: seq<Level>, amount: real, slippage: Option<real>, limit: Option<Price>, fok: bool,
                         ceiling: Option<Price>)
    requires asks != [] && Sizes(asks) && amount > 0.0
    ensures var r := MarketFill(asks, amount, slippage, limit, fok, ceiling);
      r.Ok? ==> FilledWithin(asks, Leading(asks, asks[0].price, slippage, limit, ceiling), amount, r.value)
  {
    LeadingIsUnderCap(asks, slippage, limit, ceiling);
    WalkWithin(asks, PriceCap(asks, slippage, limit, ceiling), amount);
    hide Walk, PriceCap, Cost, Leading, UnderCap, FilledWithin, Sizes;
  }

  /**
   The same for a LIMIT order that can fill at once: bought from the best ask on, only at prices up to the
   limit; and unless it spends the whole amount, every leading ask within the limit is taken whole.
   */
  lemma LimitFillWithin(asks: seq<Level>, amount: real, limit: Price)
    requires asks != [] && Sizes(asks) && amount > 0.0
    ensures var fill, n := LimitFillOf(asks, amount, limit).value, |UnderCap(asks, limit)|;
      && n <= |asks| && (n < |asks| ==> asks[n].price > limit) && (forall k :: 0 <= k < n ==> asks[k].price <= limit)
      && fill.remainingBudget == amount - Cost(fill.levels) && (fill.shares > 0.0 <==> n > 0) && fill.shares >= 0.0
      && (fill.shares > 0.0 ==> FilledWithin(asks, n, amount, Fill(fill.avgPrice, fill.shares, fill.levels)))
  {
    WalkWithin(asks, limit, amount);
    UnderCapPrefix(asks, limit);
    hide Walk, Cost, UnderCap, FilledWithin, Sizes;
  }

  lemma {:induction false} UnderCapPrefix(asks: seq<Level>, cap: real)
    ensures var n := |UnderCap(asks, cap)|;
      && n <= |asks| && UnderCap(asks, cap) == asks[..n]
      && (n < |asks| ==> asks[n].price > cap) && (forall k :: 0 <= k < n ==> asks[k].price <= cap)
      && (n == 0 <==> asks == [] || asks[0].price > cap)
  {
    if asks != [] && asks[0].price <= cap {
      UnderCapPrefix(asks[1..], cap);
    }
  }

  /** Without a ceiling a fill-or-kill order may fill in part. */
  lemma FokWithoutCeiling()
    ensures var r := MarketFill([Level(0.5, 1.0)], 10.0, None, None, true, None);
      r.Ok? && Cost(r.value.levels) < 10.0
  {
    var asks := [Level(0.5, 1.0)];
    StartOk(10.0);
    var w := BuyAt(NOTHING, asks[0], 10.0);
    assert Worth(1.0 + DEFAULT_TOLERANCE, 0.5) >= 0.5;
    assert w == Walked(0.5, 1.0, [] + [Level(0.5, 1.0)]);
    assert asks[1..] == [];
    QtySnoc([], Level(0.5, 1.0));
  }

  // ---------- The engine's MARKET sweep ----------

  /** The order the consumer makes of a MARKET BUY for `amount`, against the best ask it sees. */
  function MarketBuy(id: OrderId, amount: real, slippage: Option<real>, best: Price): Order {
    Order(Terms(id, BUY, best, true, slippage, Some(amount), 0, None),
          Afford(amount, best), 0.0, PENDING, 0.0, None, [], None, None, false, None, None, None)
  }

  /** The sweep is where the walk is, and the quantity cap is no tighter than the budget. */
  ghost predicate InStep(o: Order, w: Walked, budget: real, best: real) {
    && o.terms.side == BUY && o.terms.isMarket && o.terms.maxCost == Some(budget)
    && o.filled == w.qty && o.entryCost == w.cost
    && Worth(o.quantity - o.filled, best) >= budget - w.cost
    && w.cost < budget && o.Live() && o.filled <= o.quantity
  }

  /** The quantity cap never binds before the budget does. */
  lemma BudgetBindsFirst(rem: real, size: real, budget: real, best: real, p: Price)
    requires 0.0 < best <= p && budget > 0.0 && Worth(rem, best) >= budget
    ensures Min(Min(rem, size), Afford(budget, p)) == Min(size, Afford(budget, p))
  {
    AffordOk(budget, p);
    assert Worth(Afford(budget, p), best) <= Worth(Afford(budget, p), p);
    WorthCancel(Afford(budget, p), rem, best);
  }

  lemma StepTogether(o: Order, w: Walked, ask: Level, budget: real, best: real)
    requires InStep(o, w, budget, best) && 0.0 < best <= ask.price && ask.qty >= DUST
    ensures var q := Min(ask.qty, Afford(budget - w.cost, ask.price));
      && TakeQty(o, ask.price, ask.qty) == (if q < DUST then None else Some(q))
      && (q < DUST ==> q > 0.0 && q == Afford(budget - w.cost, ask.price))
  {
    BudgetBindsFirst(o.Remaining(), ask.qty, budget - w.cost, best, ask.price);
    AffordOk(budget - w.cost, ask.price);
    hide Afford, Worth;
  }

  lemma StaysInStep(o: Order, w: Walked, ask: Level, budget: real, best: real)
    requires InStep(o, w, budget, best) && 0.0 < best <= ask.price && WalkedOk(w, budget) && ask.qty > 0.0
    ensures var w' := BuyAt(w, ask, budget);
      var o' := AddFill(o, ask.price, w'.qty - w.qty);
      && o'.filled == w'.qty && o'.entryCost == w'.cost
      && Worth(o'.quantity - o'.filled, best) >= budget - w'.cost
      && (Done(o') <==> w'.cost >= budget)
      && (!Done(o') ==> InStep(o', w', budget, best))
  {
    BuyAtOk(w, ask, budget);
    var w', p := BuyAt(w, ask, budget), ask.price;
    var q := w'.qty - w.qty;
    var o' := AddFill(o, p, q);
    ScaleBelow(q, best, p);
    assert Worth(o.quantity - o.filled - q, best) == Worth(o.quantity - o.filled, best) - Worth(q, best);
    if o'.filled >= o'.quantity {
      AtMostTheLevel(o'.quantity - o'.filled, 0.0, best);
      assert Worth(0.0, best) == 0.0;
    }
  }

  /** Where the walk takes more than dust the sweep takes the same, and both go on or both stop. */
  lemma TakeTogether(ks: seq<Price>, book: Ladder, o: Order, w: Walked, cap: real, budget: real, best: real)
    requires InStep(o, w, budget, best) && WalkedOk(w, budget) && 0.0 < best
    requires ks != [] && ks[0] <= cap && ks[0] in book && book[ks[0]] >= DUST && best <= ks[0]
    ensures var ask := Level(ks[0], book[ks[0]]);
      var w' := BuyAt(w, ask, budget);
      var q := w'.qty - w.qty;
      && WalkedOk(w', budget) && 0.0 < q
      && (q < DUST ==> w'.cost == budget && Sweep(ks, book, o, Some(cap)).order == o)
      && (q >= DUST ==>
            var o' := AddFill(o, ks[0], q);
            && o'.filled == w'.qty && o'.entryCost == w'.cost
            && (Done(o') <==> w'.cost >= budget)
            && (!Done(o') ==> InStep(o', w', budget, best))
            && Sweep(ks, book, o, Some(cap)) ==
                 if Done(o') then Swept(Deduct(book, ks[0], q), o')
                 else Sweep(ks[1..], Deduct(book, ks[0], q), o', Some(cap)))
  {
    var ask := Level(ks[0], book[ks[0]]);
    StepTogether(o, w, ask, budget, best);
    BuyAtOk(w, ask, budget);
    StaysInStep(o, w, ask, budget, best);
    SweepUnfolds(ks, book, o, Some(cap));
    SpendsRest(w, ask, budget);
    hide WalkedOk, Sweep, Done, AddFill, Afford, Worth, Deduct;
  }

  /**
   From the same point on, the sweep buys what the walk buys, except that it stops when what the
   budget still affords at a level is dust.
   */
  lemma {:induction false} SweepFollowsWalk(ks: seq<Price>, book: Ladder, o: Order, w: Walked, cap: real,
                                            budget: real, best: real)
    requires InStep(o, w, budget, best) && WalkedOk(w, budget) && 0.0 < best
    requires forall k :: k in ks ==> k in book && book[k] >= DUST && best <= k
    requires forall i, j :: 0 <= i < j < |ks| ==> Better(Ask, ks[i], ks[j])
    ensures var r, f := Sweep(ks, book, o, Some(cap)).order, Walk(Levels(book, ks), w, cap, budget);
      && 0.0 <= f.qty - r.filled < DUST
      && r.entryCost <= f.cost
    decreases |ks|
  {
    hide InStep, WalkedOk, Sweep, AddFill, BuyAt, Done, Better, TakeQty, Deduct, Walk, Levels, Worth;
    InStepFacts(o, w, budget, best);
    if ks == [] || ks[0] > cap {
      BothStop(ks, book, o, w, cap, budget);
    } else {
      var p, asks := ks[0], Levels(book, ks);
      var ask := Level(p, book[p]);
      LevelsUnfold(book, ks);
      WalkUnfolds(asks, w, cap, budget);
      TakeTogether(ks, book, o, w, cap, budget, best);
      var w' := BuyAt(w, ask, budget);
      var q := w'.qty - w.qty;
      RestUntouched(ks, book, Deduct(book, p, q), q);
      if q >= DUST && !Done(AddFill(o, p, q)) {
        SameLevels(ks[1..], book, Deduct(book, p, q));
        SweepFollowsWalk(ks[1..], Deduct(book, p, q), AddFill(o, p, q), w', cap, budget, best);
      }
    }
  }

  lemma BothStop(ks: seq<Price>, book: Ladder, o: Order, w: Walked, cap: real, budget: real)
    requires ks == [] || ks[0] > cap
    requires forall k :: k in ks ==> k in book && book[k] >= DUST
    requires o.terms.side == BUY && o.terms.isMarket
    ensures Sweep(ks, book, o, Some(cap)).order == o && Walk(Levels(book, ks), w, cap, budget) == w
  {
  }

  lemma SameLevels(ks: seq<Price>, book: Ladder, book': Ladder)
    requires forall k :: k in ks ==> k in book && k in book' && book'[k] == book[k]
    ensures Levels(book', ks) == Levels(book, ks)
  {
  }

  lemma LevelsUnfold(book: Ladder, ks: seq<Price>)
    requires ks != [] && forall k :: k in ks ==> k in book
    ensures Levels(book, ks) != [] && Levels(book, ks)[0] == Level(ks[0], book[ks[0]])
    ensures Levels(book, ks)[1..] == Levels(book, ks[1..])
  {
  }

  lemma InStepFacts(o: Order, w: Walked, budget: real, best: real)
    requires InStep(o, w, budget, best)
    ensures o.filled == w.qty && o.entryCost == w.cost && w.cost < budget && !o.terms.maxCost.None?
    ensures o.terms.side == BUY && o.terms.isMarket
  {
  }

  lemma SpendsRest(w: Walked, ask: Level, budget: real)
    requires w.cost < budget
    ensures Afford(budget - w.cost, ask.price) <= ask.qty ==> BuyAt(w, ask, budget).cost == budget
  {
    AffordOk(budget - w.cost, ask.price);
  }

  lemma RestUntouched(ks: seq<Price>, book: Ladder, book': Ladder, q: real)
    requires ks != [] && ks[0] in book && book' == Deduct(book, ks[0], q)
    requires forall k :: k in ks ==> k in book
    requires forall i, j :: 0 <= i < j < |ks| ==> Better(Ask, ks[i], ks[j])
    ensures forall k :: k in ks[1..] ==> k in book' && book'[k] == book[k]
  {
    forall k | k in ks[1..]
      ensures k != ks[0] && k in book
    {
      var i :| 0 <= i < |ks[1..]| && ks[1..][i] == k;
      assert Better(Ask, ks[0], ks[i + 1]);
    }
  }

  /**
   The engine's MARKET BUY refines the API's snapshot walk: on the same asks, with the same
   slippage and budget, it buys the same shares up to less than DUST, and never spends more.
   */
  lemma EngineRefinesWalk(id: OrderId, book: Ladder, amount: real, slippage: Option<real>)
    requires book.Keys != {} && amount > 0.0
    requires forall p :: p in book ==> book[p] >= DUST
    ensures var best, asks := Best(Ask, book.Keys), Items(Ask, book);
      var o := MarketBuy(id, amount, slippage, best);
      var engine := MatchOrder(book, o).order;
      && asks != [] && asks[0].price == best
      && var walk := Walk(asks, NOTHING, PriceCap(asks, slippage, None, None), amount);
         && 0.0 <= walk.qty - engine.filled < DUST
         && engine.entryCost <= walk.cost
  {
    var best := Best(Ask, book.Keys);
    var ks := BestFirst(Ask, book.Keys);
    BestFirstSorted(Ask, book.Keys);
    var o := MarketBuy(id, amount, slippage, best);
    var o1 := o.(slippageRef := Some(best));
    var cap := PriceCap(Items(Ask, book), slippage, None, None);
    StartOk(amount);
    MarketBuyStarts(id, amount, slippage, best);
    MarketBuyBound(book, o, slippage);
    hide BestFirst, Sweep, Walk, InStep, WalkedOk, Worth, PriceCap, SlippageBound, MarketBuy;
    SweepFollowsWalk(ks, book, o1, NOTHING, cap, amount, best);
  }

  lemma MarketBuyStarts(id: OrderId, amount: real, slippage: Option<real>, best: Price)
    requires amount > 0.0
    ensures InStep(MarketBuy(id, amount, slippage, best).(slippageRef := Some(best)), NOTHING, amount, best)
  {
    AffordOk(amount, best);
  }

  lemma MarketBuyBound(book: Ladder, o: Order, slippage: Option<real>)
    requires book.Keys != {} && o.terms.isMarket && o.terms.side == BUY && o.slippageRef.None?
    requires o.terms.maxSlippage == slippage
    ensures var o1 := o.(slippageRef := Some(Best(Ask, book.Keys)));
      && Items(Ask, book) != [] && Items(Ask, book)[0].price == Best(Ask, book.Keys)
      && WithReference(o, book) == o1
      && SlippageBound(o1, book) == Some(PriceCap(Items(Ask, book), slippage, None, None))
  {
    hide Worth;
  }
}
