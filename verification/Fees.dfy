/** The dynamic fee curve: taker fees, maker rebates, and the estimate used before an order is filled. */
module Fees {
  import opened Ladders

  const FEE_RATE: real := 0.25
  const REBATE_SHARE: real := 0.20

  function Squared(x: real): real {
    x * x
  }

  function NominalFee(qty: real, price: real): real {
    qty * FEE_RATE * Squared(price * (1.0 - price))
  }

  function TakerFee(levels: seq<Level>): real {
    if levels == [] then 0.0
    else TakerFee(levels[..|levels| - 1]) + NominalFee(levels[|levels| - 1].qty, levels[|levels| - 1].price)
  }

  function MakerRebate(levels: seq<Level>): real {
    if levels == [] then 0.0
    else
      MakerRebate(levels[..|levels| - 1])
      + NominalFee(levels[|levels| - 1].qty, levels[|levels| - 1].price) * REBATE_SHARE
  }

  method TakerFeeFromLevels(levels: seq<Level>) returns (total: real)
    ensures total == TakerFee(levels)
  {
    total := 0.0;
    for i := 0 to |levels|
      invariant total == TakerFee(levels[..i])
    {
      assert levels[..i + 1][..i] == levels[..i];
      hide NominalFee;
      total := total + NominalFee(levels[i].qty, levels[i].price);
    }
    assert levels[..|levels|] == levels;
  }

  method MakerRebateFromLevels(levels: seq<Level>) returns (total: real)
    ensures total == MakerRebate(levels)
  {
    total := 0.0;
    for i := 0 to |levels|
      invariant total == MakerRebate(levels[..i])
    {
      assert levels[..i + 1][..i] == levels[..i];
      hide NominalFee;
      total := total + NominalFee(levels[i].qty, levels[i].price) * REBATE_SHARE;
    }
    assert levels[..|levels|] == levels;
  }

  /** The fee if the whole amount were bought at a price of one half. */
  function EstimateMaxTakerFee(amount: real): real {
    NominalFee(amount / 0.5, 0.5)
  }

  lemma EstimateIs32nd(amount: real)
    ensures EstimateMaxTakerFee(amount) == amount / 32.0
  {
    assert Squared(0.5 * (1.0 - 0.5)) == 0.0625;
    assert EstimateMaxTakerFee(amount) == amount / 0.5 * FEE_RATE * 0.0625;
  }

  // ---------- The curve ----------

  /** Fee per unit of money spent at a price, times four. */
  function Curve(p: real): real {
    p * Squared(1.0 - p)
  }

  lemma FeePerCost(qty: real, p: real)
    ensures NominalFee(qty, p) == 0.25 * (Worth(qty, p) * Curve(p))
  {
    var a := 1.0 - p;
    assert Squared(p * a) == p * (p * Squared(a)) by {
      assert Squared(p * a) == (p * a) * (p * a);
      assert (p * a) * (p * a) == p * (a * (p * a));
      assert a * (p * a) == p * (a * a);
    }
    assert qty * FEE_RATE * (p * Curve(p)) == 0.25 * ((qty * p) * Curve(p)) by {
      ProductOrder(qty, p, Curve(p));
    }
  }

  lemma ProductOrder(q: real, p: real, c: real)
    ensures q * FEE_RATE * (p * c) == 0.25 * ((q * p) * c)
  {
    assert q * (p * c) == (q * p) * c;
    assert q * FEE_RATE == 0.25 * q;
    assert (0.25 * q) * (p * c) == 0.25 * (q * (p * c));
  }

  /** How far the curve is below its top, which it reaches at one third. */
  lemma CurveGap(p: real)
    ensures 4.0 / 27.0 - Curve(p) == Squared(p - 1.0 / 3.0) * (4.0 / 3.0 - p)
  {
    var d := p - 1.0 / 3.0;
    assert Squared(1.0 - p) == 1.0 - 2.0 * p + p * p;
    assert Curve(p) == p - 2.0 * (p * p) + p * (p * p);
    assert d * d == p * p - 2.0 / 3.0 * p + 1.0 / 9.0;
    assert (d * d) * (4.0 / 3.0 - p) == 4.0 / 3.0 * (d * d) - p * (d * d);
    assert p * (d * d) == p * (p * p) - 2.0 / 3.0 * (p * p) + 1.0 / 9.0 * p;
  }

  lemma SquareNonNegative(x: real)
    ensures Squared(x) >= 0.0
  {
  }

  lemma NonNegativeProduct(a: real, b: real)
    requires a >= 0.0 && b >= 0.0
    ensures a * b >= 0.0
  {
  }

  /** The price is in the range where the estimate, taken at one half, covers the fee. */
  predicate Covered(p: real) {
    p >= 0.5 || 4.0 * (p * p) - 6.0 * p + 1.0 >= 0.0
  }

  /** Exactly where the curve is at most its value at one half. */
  lemma CurveAtHalf(p: real)
    requires 0.0 < p < 1.0
    ensures Curve(p) <= 0.125 <==> Covered(p)
  {
    var h, k := p - 0.5, 4.0 * (p * p) - 6.0 * p + 1.0;
    assert Squared(1.0 - p) == 1.0 - 2.0 * p + p * p;
    assert Curve(p) == p - 2.0 * (p * p) + p * (p * p);
    assert p * k == 4.0 * (p * (p * p)) - 6.0 * (p * p) + p;
    assert h * k == p * k - 0.5 * k;
    assert h * k == 4.0 * (p * (p * p)) - 8.0 * (p * p) + 4.0 * p - 0.5;
    assert Curve(p) - 0.125 == 0.25 * (h * k);
    if p >= 0.5 {
      assert p * (1.0 - p) >= 0.0 by { NonNegativeProduct(p, 1.0 - p); }
      assert p * p <= p;
      assert k <= 0.0;
      NonNegativeProduct(h, -k);
      assert h * -k == -(h * k);
    } else if k >= 0.0 {
      NonNegativeProduct(-h, k);
      assert -h * k == -(h * k);
    } else {
      assert h < 0.0 && k < 0.0;
      assert h * k > 0.0 by { NegativeProduct(h, k); }
    }
  }

  lemma NegativeProduct(a: real, b: real)
    requires a < 0.0 && b < 0.0
    ensures a * b > 0.0
  {
  }

  // ---------- Bounds over any walk ----------

  ghost predicate Priced(levels: seq<Level>) {
    forall l :: l in levels ==> l.qty >= 0.0 && l.price < 1.0
  }

  lemma FeeAtMost(qty: real, p: real, top: real)
    requires qty >= 0.0 && p > 0.0 && Curve(p) <= top
    ensures NominalFee(qty, p) <= 0.25 * (Worth(qty, p) * top)
  {
    FeePerCost(qty, p);
    assert Worth(qty, p) >= 0.0;
    ScaleUp(Worth(qty, p), Curve(p), top);
  }

  lemma ScaleUp(a: real, b: real, c: real)
    requires a >= 0.0 && b <= c
    ensures a * b <= a * c
  {
  }

  /** The fee of any walk is at most one twenty-seventh of its cost. */
  lemma {:induction false} FeeAtMost27th(levels: seq<Level>)
    requires Priced(levels)
    ensures TakerFee(levels) <= Cost(levels) / 27.0
  {
    if levels != [] {
      var n := |levels| - 1;
      var l := levels[n];
      assert l in levels && levels == levels[..n] + [l];
      FeeAtMost27th(levels[..n]);
      hide NominalFee, Worth, Curve, Squared;
      CurveGap(l.price);
      SquareNonNegative(l.price - 1.0 / 3.0);
      NonNegativeProduct(Squared(l.price - 1.0 / 3.0), 4.0 / 3.0 - l.price);
      FeeAtMost(l.qty, l.price, 4.0 / 27.0);
      assert 0.25 * (Worth(l.qty, l.price) * (4.0 / 27.0)) == Worth(l.qty, l.price) / 27.0;
    }
  }

  /** The bound is reached by any quantity at a price of one third. */
  lemma TightAtOneThird(qty: real)
    ensures TakerFee([Level(1.0 / 3.0, qty)]) == Cost([Level(1.0 / 3.0, qty)]) / 27.0
  {
    var l := Level(1.0 / 3.0, qty);
    assert [l][..0] == [];
    FeePerCost(qty, 1.0 / 3.0);
    CurveGap(1.0 / 3.0);
    assert TakerFee([l][..0]) == 0.0 && Cost([l][..0]) == 0.0;
  }

  /** Where every level is in the covered range the estimate on the cost covers the fee. */
  lemma {:induction false} EstimateCovers(levels: seq<Level>)
    requires Priced(levels) && forall l :: l in levels ==> Covered(l.price)
    ensures TakerFee(levels) <= EstimateMaxTakerFee(Cost(levels))
  {
    EstimateIs32nd(Cost(levels));
    if levels != [] {
      var n := |levels| - 1;
      var l := levels[n];
      assert l in levels && levels == levels[..n] + [l];
      EstimateCovers(levels[..n]);
      EstimateIs32nd(Cost(levels[..n]));
      CurveAtHalf(l.price);
      FeeAtMost(l.qty, l.price, 0.125);
      hide NominalFee, Worth, Curve, EstimateMaxTakerFee;
      assert 0.25 * (Worth(l.qty, l.price) * 0.125) == Worth(l.qty, l.price) / 32.0;
    }
  }

  /** For a single level the estimate covers the fee exactly in the covered range. */
  lemma EstimateCoversExactly(qty: real, p: Price)
    requires qty > 0.0 && p < 1.0
    ensures NominalFee(qty, p) <= EstimateMaxTakerFee(Worth(qty, p)) <==> Covered(p)
  {
    EstimateIs32nd(Worth(qty, p));
    FeePerCost(qty, p);
    CurveAtHalf(p);
    var cost, curve := Worth(qty, p), Curve(p);
    assert cost > 0.0;
    hide NominalFee, Worth, Curve, EstimateMaxTakerFee, Covered;
    if curve <= 0.125 {
      ScaleUp(cost, curve, 0.125);
    } else {
      StrictScale(cost, 0.125, curve);
    }
  }

  lemma StrictScale(a: real, b: real, c: real)
    requires a > 0.0 && b < c
    ensures a * b < a * c
  {
  }

  /** The rebate is exactly one fifth of the fee on the same levels. */
  lemma {:induction false} RebateIsOneFifth(levels: seq<Level>)
    ensures MakerRebate(levels) == TakerFee(levels) / 5.0
  {
    hide NominalFee;
    if levels != [] {
      RebateIsOneFifth(levels[..|levels| - 1]);
    }
  }

  lemma {:induction false} FeeNonNegative(levels: seq<Level>)
    requires forall l :: l in levels ==> l.qty >= 0.0
    ensures TakerFee(levels) >= 0.0
  {
    if levels != [] {
      var n := |levels| - 1;
      var l := levels[n];
      assert l in levels && levels == levels[..n] + [l];
      FeeNonNegative(levels[..n]);
      var c := l.price * (1.0 - l.price);
      SquareNonNegative(c);
      NonNegativeProduct(l.qty * FEE_RATE, Squared(c));
    }
  }
}
