/** Conservation of money over every handler and every run, settlement payouts, and redelivery. */
module LedgerProofs {
  import opened Prelude
  import opened Ladders
  import opened Orders
  import opened Fees
  import opened Walks
  import opened Ledger

  // ---------- What a bot's trades lay claim to ----------

  /** Escrow of a pending trade, plus its fee, minus the profit it has realised. */
  function Claim(t: Trade, bot: nat): real {
    if t.bot != bot then 0.0
    else
      (if t.result == Pending then t.amount else 0.0) + t.entryFee
      - (if t.result in {Win, Loss} then t.profit.GetOr(0.0) else 0.0)
  }

  function Claims(trades: seq<Trade>, bot: nat): real {
    if trades == [] then 0.0 else Claims(trades[..|trades| - 1], bot) + Claim(trades[|trades| - 1], bot)
  }

  /**
   How far a bot is from the ledger identity: balance, plus pending amounts, plus fees, minus
   realised profits, against its initial balance.
   */
  function Standing(l: Ledger, b: nat): real
    requires b < |l.bots|
  {
    l.bots[b].balance + Claims(l.trades, b) - l.bots[b].initial
  }

  lemma {:induction false} ClaimsUpdate(trades: seq<Trade>, i: nat, t: Trade, bot: nat)
    requires i < |trades|
    ensures Claims(trades[i := t], bot) == Claims(trades, bot) - Claim(trades[i], bot) + Claim(t, bot)
  {
    var n := |trades| - 1;
    if i < n {
      ClaimsUpdate(trades[..n], i, t, bot);
      assert trades[i := t][..n] == trades[..n][i := t];
    } else {
      assert trades[i := t][..n] == trades[..n];
    }
  }

  lemma ClaimsAppend(trades: seq<Trade>, t: Trade, bot: nat)
    ensures Claims(trades + [t], bot) == Claims(trades, bot) + Claim(t, bot)
  {
    assert (trades + [t])[..|trades|] == trades;
  }

  /** A commit moves a bot's standing by the money it is paid plus the change in the claim. */
  lemma CommitStanding(l: Ledger, id: nat, t: Trade, money: real, b: nat)
    requires id < |l.trades| && l.trades[id].bot < |l.bots| && b < |l.bots| && t.bot == l.trades[id].bot
    ensures Standing(Commit(l, id, t, money), b) == Standing(l, b) +
      if b == t.bot then money + Claim(t, b) - Claim(l.trades[id], b) else 0.0
  {
    ClaimsUpdate(l.trades, id, t, b);
  }

  lemma BookStanding(l: Ledger, t: Trade, charge: real, b: nat)
    requires t.bot < |l.bots| && b < |l.bots|
    ensures Standing(Book(l, t, charge), b) == Standing(l, b) + if b == t.bot then Claim(t, b) - charge else 0.0
  {
    ClaimsAppend(l.trades, t, b);
  }

  // ---------- One trade leaves PENDING ----------

  /**
   A trade that leaves PENDING pays back its escrow and profit to its own bot, exactly once: the
   other trades, the other bots' money and the users are untouched.
   */
  ghost predicate PaidOut(l: Ledger, id: nat, l': Ledger)
    requires id < |l.trades| && l.trades[id].bot < |l.bots|
  {
    var t, b := l.trades[id], l.trades[id].bot;
    && |l'.trades| == |l.trades| && |l'.bots| == |l.bots| && l'.users == l.users
    && (forall i :: 0 <= i < |l.trades| && i != id ==> l'.trades[i] == l.trades[i])
    && (forall c :: 0 <= c < |l.bots| && c != b ==> l'.bots[c] == l.bots[c])
    && var t' := l'.trades[id];
       && t'.result != Pending && t'.profit.Some? && t'.bot == b
       && t'.amount == t.amount && t'.entryFee == t.entryFee
       && (t'.result == Cancelled ==> t'.profit == Some(0.0))
       && l'.bots[b].balance == l.bots[b].balance + t.amount + t'.profit.value
       && l'.bots[b].initial == l.bots[b].initial && l'.bots[b].active == l.bots[b].active
       && l'.bots[b].owner == l.bots[b].owner
       && l'.bots[b].status ==
            if t'.result in {Win, Loss} && l'.bots[b].balance <= 0.0 then PAUSED else l.bots[b].status
  }

  lemma SettlePaysOut(l: Ledger, id: nat, open: real, close: real)
    requires id < |l.trades| && l.trades[id].bot < |l.bots|
    ensures var r := SettleTrade(l, id, open, close);
      r.Some? ==> PaidOut(l, id, r.value)
  {
    hide ShadowProfit, BinaryProfit;
  }

  lemma RefundPaysOut(l: Ledger, id: nat, status: EngineStatus)
    requires id < |l.trades| && l.trades[id].bot < |l.bots|
    ensures PaidOut(l, id, RefundTrade(l, id, status))
  {
  }

  lemma PaidOutStanding(l: Ledger, id: nat, l': Ledger, b: nat)
    requires id < |l.trades| && l.trades[id].bot < |l.bots| && b < |l.bots|
    requires l.trades[id].result == Pending && PaidOut(l, id, l')
    ensures Standing(l', b) == Standing(l, b)
  {
    ClaimsUpdate(l.trades, id, l'.trades[id], b);
    assert l'.trades == l.trades[id := l'.trades[id]];
  }

  /** Scheduled work touches only its trade, and only while it is pending. */
  ghost predicate JobEffect(l: Ledger, id: nat, l': Ledger)
    requires id < |l.trades| && l.trades[id].bot < |l.bots|
  {
    l' == l || (l.trades[id].result == Pending && PaidOut(l, id, l'))
  }

  lemma DoJobEffect(l: Ledger, job: Job, id: nat, now: int, candles: Candles)
    requires id < |l.trades| && l.trades[id].bot < |l.bots|
    ensures var r := DoJob(l, job, id, now, candles); r.Some? ==> JobEffect(l, id, r.value)
  {
    hide PaidOut;
    var t := l.trades[id];
    RefundPaysOut(l, id, Canceled);
    RefundPaysOut(l, id, t.engineStatus);
    if id in candles {
      SettlePaysOut(l, id, candles[id].0, candles[id].1);
    }
    hide SettleTrade, RefundTrade;
  }

  /** What never changes in a ledger while handlers run: links, and every finished trade. */
  ghost predicate Follows(l: Ledger, l': Ledger) {
    && |l'.trades| >= |l.trades| && |l'.bots| >= |l.bots| && |l'.users| == |l.users|
    && (forall i :: 0 <= i < |l.trades| && l.trades[i].result != Pending ==> l'.trades[i] == l.trades[i])
    && (forall i :: 0 <= i < |l.trades| ==> l'.trades[i].bot == l.trades[i].bot)
    && (forall b :: 0 <= b < |l.bots| ==> l'.bots[b].owner == l.bots[b].owner)
    && (forall b :: 0 <= b < |l.bots| ==> l'.bots[b].active ==> l.bots[b].active)
  }

  lemma FollowsTrans(a: Ledger, b: Ledger, c: Ledger)
    requires Follows(a, b) && Follows(b, c)
    ensures Follows(a, c)
  {
  }

  lemma JobFollows(l: Ledger, id: nat, l': Ledger)
    requires id < |l.trades| && l.trades[id].bot < |l.bots| && JobEffect(l, id, l')
    ensures Follows(l, l') && |l'.bots| == |l.bots|
  {
  }

  lemma JobStanding(l: Ledger, id: nat, l': Ledger, b: nat)
    requires id < |l.trades| && l.trades[id].bot < |l.bots| && JobEffect(l, id, l') && b < |l.bots|
    ensures |l'.bots| == |l.bots| && Standing(l', b) == Standing(l, b)
  {
    hide Standing;
    if l' != l {
      PaidOutStanding(l, id, l', b);
    }
  }

  lemma JobsUnfold(l: Ledger, job: Job, n: nat, now: int, candles: Candles)
    requires Linked(l) && 0 < n <= |l.trades|
    ensures var prev := DoJobs(l, job, n - 1, now, candles);
      && (prev.None? ==> DoJobs(l, job, n, now, candles) == None)
      && (prev.Some? ==>
            && n - 1 < |prev.value.trades| && prev.value.trades[n - 1].bot < |prev.value.bots|
            && DoJobs(l, job, n, now, candles) == DoJob(prev.value, job, n - 1, now, candles))
  {
    hide DoJob;
  }

  lemma NoJobs(l: Ledger, job: Job, now: int, candles: Candles)
    requires Linked(l)
    ensures DoJobs(l, job, 0, now, candles) == Some(l)
  {
  }

  lemma FollowsSelf(l: Ledger)
    ensures Follows(l, l)
  {
  }

  /** A scheduled job over any number of trades only pays out pending trades. */
  lemma {:induction false} JobsFollow(l: Ledger, job: Job, n: nat, now: int, candles: Candles)
    requires Linked(l) && n <= |l.trades|
    ensures var r := DoJobs(l, job, n, now, candles); r.Some? ==> Follows(l, r.value)
  {
    hide *;
    FollowsSelf(l);
    if n == 0 {
      NoJobs(l, job, now, candles);
    } else {
      JobsUnfold(l, job, n, now, candles);
      JobsFollow(l, job, n - 1, now, candles);
      var prev, r := DoJobs(l, job, n - 1, now, candles), DoJobs(l, job, n, now, candles);
      if r.Some? {
        DoJobEffect(prev.value, job, n - 1, now, candles);
        JobFollows(prev.value, n - 1, r.value);
        FollowsTrans(l, prev.value, r.value);
      }
    }
  }

  lemma {:induction false} JobsStanding(l: Ledger, job: Job, n: nat, now: int, candles: Candles, b: nat)
    requires Linked(l) && n <= |l.trades| && b < |l.bots|
    ensures var r := DoJobs(l, job, n, now, candles);
      r.Some? ==> |r.value.bots| == |l.bots| && Standing(r.value, b) == Standing(l, b)
  {
    hide *;
    if n == 0 {
      NoJobs(l, job, now, candles);
    } else {
      JobsUnfold(l, job, n, now, candles);
      JobsStanding(l, job, n - 1, now, candles, b);
      var prev, r := DoJobs(l, job, n - 1, now, candles), DoJobs(l, job, n, now, candles);
      if r.Some? {
        DoJobEffect(prev.value, job, n - 1, now, candles);
        JobStanding(prev.value, n - 1, r.value, b);
      }
    }
  }

  // ---------- Operations ----------

  datatype Op =
    | Create(req: OrderRequest, view: View)
    | Fill(fill: FillMessage, at: int, candle: Option<(real, real)>)
    | Cancel(cancel: CancelMessage)
    | Exit(exit: ExitMessage)
    | Resolve(ids: set<nat>)
    | SettleAll(now: int, candles: Candles)
    | Sweep(now: int, candles: Candles)
    | NewBot(user: nat, initial: real)
    | RemoveBot(user: nat, bot: nat)
    | Adjust(user: nat, bot: nat, balance: real)

  function Step(l: Ledger, op: Op): Ledger
    requires Linked(l)
  {
    match op
    case Create(req, view) => CreateOrder(l, req, view).ledger
    case Fill(m, at, candle) => HandleFill(l, m, at, candle)
    case Cancel(m) => HandleCancel(l, m)
    case Exit(m) => HandleExit(l, m)
    case Resolve(ids) => HandleResolved(l, ids)
    case SettleAll(now, candles) => SettlePending(l, now, candles)
    case Sweep(now, candles) => SweepStuck(l, now, candles)
    case NewBot(user, initial) => CreateBot(l, user, initial).GetOr(l)
    case RemoveBot(user, bot) => DeleteBot(l, user, bot).GetOr(l)
    case Adjust(user, bot, balance) => AdjustBot(l, user, bot, balance).GetOr(l)
  }

  /** Asks have positive sizes; amounts and the slippage fraction are as validated by the schema. */
  ghost predicate Sane(op: Op) {
    op.Create? ==>
      && op.req.amount > 0.0
      && (op.view.asks.Some? ==> Sizes(op.view.asks.value))
  }

  /**
   What an aggressive LIMIT order loses: when the asks up to its limit are worth something but less
   than its amount, the rest.
   */
  function Unfilled(l: Ledger, req: OrderRequest, view: View): real {
    if Validate(l, req, view).Some? || !Aggressive(req, view) || view.asks.None? then 0.0
    else
      var worth := Cost(UnderCap(view.asks.value, req.limit.value));
      if 0.0 < worth < req.amount then req.amount - worth else 0.0
  }

  /** By how much a cancel message claims more was spent than the trade holds. */
  function Overspent(l: Ledger, m: CancelMessage): real {
    if m.id >= |l.trades| || l.trades[m.id].result != Pending || !(m.filled > 0.0 && m.avg > 0.0) then 0.0
    else Max(0.0, Worth(m.filled, m.avg) - l.trades[m.id].amount)
  }

  /** The exact change of a bot's standing made by an operation. */
  function Drift(l: Ledger, op: Op, b: nat): real {
    match op
    case Create(req, view) => if req.bot == b then -Unfilled(l, req, view) else 0.0
    case Cancel(m) => if m.id < |l.trades| && l.trades[m.id].bot == b then Overspent(l, m) else 0.0
    case _ => 0.0
  }

  // ---------- Creating orders ----------

  lemma {:induction false} WalkedQuantities(asks: seq<Level>, w: Walked, cap: real, budget: real)
    requires Sizes(asks) && WalkedOk(w, budget) && forall l :: l in w.levels ==> l.qty >= 0.0
    ensures forall l :: l in Walk(asks, w, cap, budget).levels ==> l.qty >= 0.0
    decreases |asks|
  {
    if !(asks == [] || asks[0].price > cap || budget - w.cost <= 0.0) {
      var l := BuyAtLevel(w, asks[0], budget);
      WalkUnfolds(asks, w, cap, budget);
      SizesRest(asks);
      hide WalkedOk, BuyAt, Walk, Sizes;
      var w' := BuyAt(w, asks[0], budget);
      if w'.cost < budget {
        WalkedQuantities(asks[1..], w', cap, budget);
      }
    }
  }

  lemma AggressiveDrift(l: Ledger, req: OrderRequest, view: View, b: nat)
    requires req.bot < |l.bots| && req.limit.Some? && req.amount > 0.0 && b < |l.bots|
    requires view.asks.Some? ==> Sizes(view.asks.value)
    ensures var r := CreateAggressive(l, req, view).ledger;
      |r.bots| == |l.bots| && Standing(r, b) == Standing(l, b) -
        if b == req.bot && view.asks.Some? && view.asks.value != []
        then
          var fill := LimitFillOf(view.asks.value, req.amount, req.limit.value).value;
          if fill.shares > 0.0 then fill.remainingBudget else 0.0
        else 0.0
  {
    if view.asks.Some? && view.asks.value != [] {
      var asks := view.asks.value;
      StartOk(req.amount);
      WalkEnds(asks, NOTHING, req.limit.value, req.amount);
      WalkedQuantities(asks, NOTHING, req.limit.value, req.amount);
      var w := Walk(asks, NOTHING, req.limit.value, req.amount);
      FeeNonNegative(w.levels);
      NothingBought(w, req.amount);
      hide Walk, TakerFee, Standing, WalkedOk, Book, UnderCap;
      var created := CreateAggressive(l, req, view);
      var t, charge := AggressiveTrade(l, req, view);
      BookStanding(l, t, charge, b);
    }
  }

  /** The trade and the charge of an aggressive LIMIT order. */
  lemma AggressiveTrade(l: Ledger, req: OrderRequest, view: View) returns (t: Trade, charge: real)
    requires req.bot < |l.bots| && req.limit.Some? && view.asks.Some? && view.asks.value != []
    ensures t.bot == req.bot && CreateAggressive(l, req, view).ledger == Book(l, t, charge)
    ensures var fill := LimitFillOf(view.asks.value, req.amount, req.limit.value).value;
      && t.bot == req.bot && t.result == Pending && t.entryFee == TakerFee(fill.levels)
      && t.amount == req.amount - (if fill.shares > 0.0 then fill.remainingBudget else 0.0)
      && charge == req.amount + Max(0.0, TakerFee(fill.levels))
  {
    var l' := CreateAggressive(l, req, view).ledger;
    t := l'.trades[|l.trades|];
    charge := req.amount + Max(0.0, t.entryFee);
    assert l'.trades == l.trades + [t];
  }

  lemma NothingBought(w: Walked, budget: real)
    requires WalkedOk(w, budget)
    ensures Max(0.0, budget - w.cost) == budget - w.cost
  {
  }

  lemma PassiveDrift(l: Ledger, req: OrderRequest, view: View, b: nat)
    requires req.bot < |l.bots| && b < |l.bots| && req.limit.Some?
    ensures Standing(CreatePassive(l, req, view).ledger, b) == Standing(l, b)
  {
    BookStanding(l, NewTrade(req, req.amount, req.amount, None, None, 0.0, Queued, view), req.amount, b);
  }

  lemma MarketDrift(l: Ledger, req: OrderRequest, view: View, b: nat)
    requires req.bot < |l.bots| && req.amount > 0.0 && b < |l.bots|
    requires view.asks.Some? ==> Sizes(view.asks.value)
    ensures var r := CreateMarket(l, req, view).ledger;
      |r.bots| == |l.bots| && Standing(r, b) == Standing(l, b)
  {
    if view.asks.Some? && view.asks.value != [] {
      var asks := view.asks.value;
      var cap := PriceCap(asks, req.slippage, None, req.ceiling);
      StartOk(req.amount);
      WalkEnds(asks, NOTHING, cap, req.amount);
      WalkedQuantities(asks, NOTHING, cap, req.amount);
      FeeNonNegative(Walk(asks, NOTHING, cap, req.amount).levels);
      hide Walk, TakerFee, Standing, WalkedOk, Book, UnderCap, PriceCap;
      var r := CreateMarket(l, req, view);
      if r.answer.Ok? {
        var t, charge := MarketTrade(l, req, view);
        BookStanding(l, t, charge, b);
      }
    }
  }

  lemma MarketTrade(l: Ledger, req: OrderRequest, view: View) returns (t: Trade, charge: real)
    requires req.bot < |l.bots| && CreateMarket(l, req, view).answer.Ok?
    ensures t.bot == req.bot && CreateMarket(l, req, view).ledger == Book(l, t, charge)
    ensures var fill := MarketFill(view.asks.value, req.amount, req.slippage, None, req.fok, req.ceiling).value;
      && t.bot == req.bot && t.result == Pending && t.entryFee == TakerFee(fill.levels)
      && t.amount == Min(Cost(fill.levels), req.amount)
      && charge == t.amount + Max(0.0, t.entryFee)
  {
    var l' := CreateMarket(l, req, view).ledger;
    t := l'.trades[|l.trades|];
    charge := t.amount + Max(0.0, t.entryFee);
    assert l'.trades == l.trades + [t];
  }

  lemma AggressiveLoss(l: Ledger, req: OrderRequest, view: View)
    requires Validate(l, req, view).None? && Aggressive(req, view) && Sane(Create(req, view))
    ensures Unfilled(l, req, view) ==
      if view.asks.Some? && view.asks.value != []
      then
        var fill := LimitFillOf(view.asks.value, req.amount, req.limit.value).value;
        if fill.shares > 0.0 then fill.remainingBudget else 0.0
      else 0.0
  {
    if view.asks.Some? {
      if view.asks.value == [] {
        assert UnderCap([], req.limit.value) == [] && Cost([]) == 0.0;
      } else {
        hide Validate, LimitFillOf, Cost, UnderCap;
        LimitRemainder(view.asks.value, req.amount, req.limit.value);
      }
    }
  }

  /** Creating an order conserves, except for the unfilled part of an aggressive LIMIT order. */
  lemma CreateDrift(l: Ledger, req: OrderRequest, view: View, b: nat)
    requires Linked(l) && Sane(Create(req, view)) && b < |l.bots|
    ensures var r := CreateOrder(l, req, view).ledger;
      |r.bots| == |l.bots| && Standing(r, b) == Standing(l, b) + Drift(l, Create(req, view), b)
  {
    hide CreateAggressive, CreateMarket, CreatePassive, Standing, LimitFillOf, UnderCap, Cost;
    if Validate(l, req, view).None? {
      if Aggressive(req, view) {
        AggressiveDrift(l, req, view, b);
        AggressiveLoss(l, req, view);
      } else if req.limit.Some? {
        PassiveDrift(l, req, view, b);
        PassiveBots(l, req, view);
      } else {
        MarketDrift(l, req, view, b);
      }
    }
  }

  lemma PassiveBots(l: Ledger, req: OrderRequest, view: View)
    requires req.bot < |l.bots| && req.limit.Some?
    ensures |CreatePassive(l, req, view).ledger.bots| == |l.bots|
  {
  }

  // ---------- Messages ----------

  lemma RecordFillStanding(l: Ledger, m: FillMessage, b: nat)
    requires m.id < |l.trades| && l.trades[m.id].bot < |l.bots| && b < |l.bots|
    requires l.trades[m.id].result == Pending
    ensures Standing(RecordFill(l, m), b) == Standing(l, b)
  {
    hide MakerRebate, Standing;
    var t' := RecordFill(l, m).trades[m.id];
    CommitStanding(l, m.id, t', RebateOf(l.trades[m.id], m), b);
  }

  lemma FillStanding(l: Ledger, m: FillMessage, now: int, candle: Option<(real, real)>, b: nat)
    requires Linked(l) && b < |l.bots|
    ensures var r := HandleFill(l, m, now, candle);
      |r.bots| == |l.bots| && Standing(r, b) == Standing(l, b)
  {
    if m.id < |l.trades| && l.trades[m.id].result == Pending {
      RecordFillStanding(l, m, b);
      var l1 := RecordFill(l, m);
      assert l1.trades[m.id].result == Pending && |l1.bots| == |l.bots|;
      hide RecordFill, SettleTrade, Standing;
      if candle.Some? {
        SettlePaysOut(l1, m.id, candle.value.0, candle.value.1);
        var r := SettleTrade(l1, m.id, candle.value.0, candle.value.1);
        if r.Some? {
          PaidOutStanding(l1, m.id, r.value, b);
        }
      }
    }
  }

  /** A cancel conserves exactly when it does not claim more was spent than the trade holds. */
  lemma CancelDrift(l: Ledger, m: CancelMessage, b: nat)
    requires Linked(l) && b < |l.bots|
    ensures var r := HandleCancel(l, m);
      |r.bots| == |l.bots| && Standing(r, b) == Standing(l, b) + Drift(l, Cancel(m), b)
  {
    if m.id < |l.trades| && l.trades[m.id].result == Pending {
      if m.filled > 0.0 && m.avg > 0.0 {
        var t, r := l.trades[m.id], HandleCancel(l, m);
        hide Worth, Standing;
        CommitStanding(l, m.id, r.trades[m.id], Max(0.0, t.amount - Worth(m.filled, m.avg)), b);
      } else {
        hide Standing;
        RefundPaysOut(l, m.id, Canceled);
        PaidOutStanding(l, m.id, RefundTrade(l, m.id, Canceled), b);
      }
    }
  }

  lemma {:induction false} SameClaims(a: seq<Trade>, b: seq<Trade>, bot: nat)
    requires |a| == |b| && forall i :: 0 <= i < |a| ==> Claim(a[i], bot) == Claim(b[i], bot)
    ensures Claims(a, bot) == Claims(b, bot)
  {
    if a != [] {
      SameClaims(a[..|a| - 1], b[..|b| - 1], bot);
    }
  }

  lemma QuietStanding(l: Ledger, op: Op, b: nat)
    requires Linked(l) && b < |l.bots| && (op.Exit? || op.Resolve?)
    ensures var r := Step(l, op); r.bots == l.bots && Standing(r, b) == Standing(l, b)
  {
    SameClaims(l.trades, Step(l, op).trades, b);
  }

  // ---------- Every operation ----------

  lemma SweepStanding(l: Ledger, now: int, candles: Candles, b: nat)
    requires Linked(l) && b < |l.bots|
    ensures var r := SweepStuck(l, now, candles); |r.bots| == |l.bots| && Standing(r, b) == Standing(l, b)
  {
    hide DoJobs, Standing, Follows;
    JobsStanding(l, SweepJob, |l.trades|, now, candles, b);
    var swept := DoJobs(l, SweepJob, |l.trades|, now, candles);
    if swept.Some? {
      JobsStanding(swept.value, OrphanJob, |l.trades|, now, candles, b);
    }
  }

  /** A bot that has just been created or adjusted stands where it stood; a new one stands at zero. */
  lemma BotOpStanding(l: Ledger, op: Op, b: nat)
    requires Linked(l) && (op.NewBot? || op.RemoveBot? || op.Adjust?)
    requires b < |Step(l, op).bots| && Step(l, op).bots[b].active
    ensures b < |l.bots| ==> l.bots[b].active && Standing(Step(l, op), b) == Standing(l, b)
    ensures b >= |l.bots| ==> Claims(l.trades, b) == 0.0 && Standing(Step(l, op), b) == 0.0
  {
    if b >= |l.bots| {
      NoClaims(l.trades, b);
    }
  }

  lemma {:induction false} NoClaims(trades: seq<Trade>, b: nat)
    requires forall i :: 0 <= i < |trades| ==> trades[i].bot != b
    ensures Claims(trades, b) == 0.0
  {
    if trades != [] {
      NoClaims(trades[..|trades| - 1], b);
    }
  }

  /**
   The ledger law: an operation moves the standing of an active bot by exactly its drift, which is
   zero but for the unfilled part of an aggressive LIMIT order and for a cancel that claims more
   than the trade holds. Redelivered messages are ordinary operations here.
   */
  lemma StepDrift(l: Ledger, op: Op, b: nat)
    requires Linked(l) && Sane(op) && b < |Step(l, op).bots| && Step(l, op).bots[b].active
    ensures b < |l.bots| ==> Standing(Step(l, op), b) == Standing(l, b) + Drift(l, op, b)
    ensures b >= |l.bots| ==> Standing(Step(l, op), b) == 0.0
  {
    hide Standing, CreateOrder, HandleFill, HandleCancel, SettlePending, SweepStuck, DoJobs, Follows, Sane;
    if op.NewBot? || op.RemoveBot? || op.Adjust? {
      BotOpStanding(l, op, b);
    } else {
      SameBots(l, op);
      match op
      case Create(req, view) => CreateDrift(l, req, view, b);
      case Fill(m, at, candle) => FillStanding(l, m, at, candle, b);
      case Cancel(m) => CancelDrift(l, m, b);
      case Exit(_) => QuietStanding(l, op, b);
      case Resolve(_) => QuietStanding(l, op, b);
      case SettleAll(now, candles) => SettleStanding(l, now, candles, b);
      case Sweep(now, candles) => SweepStanding(l, now, candles, b);
    }
  }

  lemma SettleStanding(l: Ledger, now: int, candles: Candles, b: nat)
    requires Linked(l) && b < |l.bots|
    ensures var r := SettlePending(l, now, candles);
      Standing(r, b) == Standing(l, b) && |r.bots| == |l.bots|
  {
    hide DoJobs, Standing, Follows;
    JobsStanding(l, SettleJob, |l.trades|, now, candles, b);
  }

  lemma SameBots(l: Ledger, op: Op)
    requires Linked(l) && !op.NewBot? && !op.RemoveBot? && !op.Adjust?
    ensures |Step(l, op).bots| == |l.bots|
  {
    hide CreateOrder, HandleFill, HandleCancel, HandleExit, HandleResolved, SettlePending, SweepStuck, Follows;
    match op
    case Create(req, view) => CreateFollows(l, req, view);
    case Fill(m, at, candle) => FillFollows(l, m, at, candle);
    case SettleAll(_, _) => BatchFollows(l, op);
    case Sweep(_, _) => BatchFollows(l, op);
    case _ => MessageFollows(l, op);
  }

  // ---------- Finished trades, links, and runs ----------

  lemma CreateFollows(l: Ledger, req: OrderRequest, view: View)
    requires Linked(l)
    ensures var r := CreateOrder(l, req, view).ledger;
      && Follows(l, r) && |r.bots| == |l.bots| && Linked(r)
  {
    hide TakerFee, Walk, LimitFillOf, MarketFill;
  }

  lemma FollowsLinked(l: Ledger, l': Ledger)
    requires Linked(l) && Follows(l, l') && |l'.trades| == |l.trades| && |l'.bots| == |l.bots|
    ensures Linked(l')
  {
  }

  lemma FillFollows(l: Ledger, m: FillMessage, now: int, candle: Option<(real, real)>)
    requires Linked(l)
    ensures var r := HandleFill(l, m, now, candle);
      Follows(l, r) && |r.trades| == |l.trades| && |r.bots| == |l.bots|
  {
    FollowsSelf(l);
    if m.id < |l.trades| && l.trades[m.id].result == Pending {
      var l1 := RecordFill(l, m);
      assert Follows(l, l1) && l1.trades[m.id].bot < |l1.bots| && |l1.trades| == |l.trades|;
      assert l1.trades[m.id].result == Pending && |l1.bots| == |l.bots|;
      hide RecordFill, SettleTrade, Follows;
      if candle.Some? {
        SettlePaysOut(l1, m.id, candle.value.0, candle.value.1);
        var r := SettleTrade(l1, m.id, candle.value.0, candle.value.1);
        if r.Some? {
          JobFollows(l1, m.id, r.value);
          FollowsTrans(l, l1, r.value);
        }
      }
    }
  }

  lemma MessageFollows(l: Ledger, op: Op)
    requires Linked(l) && (op.Cancel? || op.Exit? || op.Resolve?)
    ensures var r := Step(l, op); Follows(l, r) && |r.trades| == |l.trades| && |r.bots| == |l.bots|
  {
  }

  lemma BatchFollows(l: Ledger, op: Op)
    requires Linked(l) && (op.SettleAll? || op.Sweep?)
    ensures var r := Step(l, op); Follows(l, r) && |r.trades| == |l.trades| && |r.bots| == |l.bots|
  {
    FollowsSelf(l);
    hide DoJobs, Follows;
    match op
    case SettleAll(now, candles) => JobsFollow(l, SettleJob, |l.trades|, now, candles);
    case Sweep(now, candles) =>
      JobsFollow(l, SweepJob, |l.trades|, now, candles);
      var swept := DoJobs(l, SweepJob, |l.trades|, now, candles);
      if swept.Some? {
        JobsFollow(swept.value, OrphanJob, |l.trades|, now, candles);
        var r := DoJobs(swept.value, OrphanJob, |l.trades|, now, candles);
        if r.Some? {
          FollowsTrans(l, swept.value, r.value);
        }
      }
  }

  lemma BotOpFollows(l: Ledger, op: Op)
    requires Linked(l) && (op.NewBot? || op.RemoveBot? || op.Adjust?)
    ensures Follows(l, Step(l, op)) && Linked(Step(l, op))
  {
  }

  /** No operation ever changes a trade that has left PENDING, and links stay whole. */
  lemma FinishedStays(l: Ledger, op: Op)
    requires Linked(l)
    ensures Follows(l, Step(l, op)) && Linked(Step(l, op))
  {
    hide Follows, Linked, CreateOrder, HandleFill, HandleCancel, HandleExit, HandleResolved, SettlePending,
      SweepStuck;
    match op
    case Create(req, view) => CreateFollows(l, req, view);
    case Fill(m, at, candle) =>
      FillFollows(l, m, at, candle);
      FollowsLinked(l, Step(l, op));
    case Cancel(_) =>
      MessageFollows(l, op);
      FollowsLinked(l, Step(l, op));
    case Exit(_) =>
      MessageFollows(l, op);
      FollowsLinked(l, Step(l, op));
    case Resolve(_) =>
      MessageFollows(l, op);
      FollowsLinked(l, Step(l, op));
    case SettleAll(_, _) =>
      BatchFollows(l, op);
      FollowsLinked(l, Step(l, op));
    case Sweep(_, _) =>
      BatchFollows(l, op);
      FollowsLinked(l, Step(l, op));
    case _ => BotOpFollows(l, op);
  }

  /** From users with money and nothing else. */
  function Start(users: seq<real>): Ledger {
    Ledger(users, [], [])
  }

  function Run(users: seq<real>, ops: seq<Op>): (l: Ledger)
    ensures Linked(l)
  {
    if ops == [] then Start(users)
    else
      var l := Run(users, ops[..|ops| - 1]);
      FinishedStays(l, ops[|ops| - 1]);
      Step(l, ops[|ops| - 1])
  }

  ghost predicate AllSane(ops: seq<Op>) {
    forall i :: 0 <= i < |ops| ==> Sane(ops[i])
  }

  /** The drifts of a bot over a run. */
  function TotalDrift(users: seq<real>, ops: seq<Op>, b: nat): real {
    if ops == [] then 0.0
    else
      var init := ops[..|ops| - 1];
      TotalDrift(users, init, b) + Drift(Run(users, init), ops[|ops| - 1], b)
  }

  /** A bot that does not exist yet does not drift. */
  lemma NoBotNoDrift(l: Ledger, op: Op, b: nat)
    requires Linked(l) && b >= |l.bots|
    ensures Drift(l, op, b) == 0.0
  {
    hide UnderCap, Cost;
  }

  lemma {:induction false} NoBotNoTotal(users: seq<real>, ops: seq<Op>, b: nat)
    requires b >= |Run(users, ops).bots|
    ensures TotalDrift(users, ops, b) == 0.0
  {
    if ops != [] {
      var init, op := ops[..|ops| - 1], ops[|ops| - 1];
      var l := Run(users, init);
      hide Step, Follows, Linked, Drift;
      FinishedStays(l, op);
      BotsStay(l, Step(l, op));
      NoBotNoTotal(users, init, b);
      NoBotNoDrift(l, op, b);
    }
  }

  lemma BotsStay(l: Ledger, l': Ledger)
    requires Follows(l, l')
    ensures |l'.bots| >= |l.bots|
    ensures forall b :: 0 <= b < |l.bots| && l'.bots[b].active ==> l.bots[b].active
  {
  }

  /**
   The ledger identity over every run: for an active bot, balance + pending amounts + all fees -
   profits of won and lost trades exceeds the initial balance by exactly the sum of the drifts.
   */
  lemma {:induction false} RunDrift(users: seq<real>, ops: seq<Op>, b: nat)
    requires AllSane(ops) && b < |Run(users, ops).bots| && Run(users, ops).bots[b].active
    ensures Standing(Run(users, ops), b) == TotalDrift(users, ops, b)
  {
    if ops != [] {
      var init, op := ops[..|ops| - 1], ops[|ops| - 1];
      var l := Run(users, init);
      assert Sane(op) && AllSane(init);
      hide Step, Follows, Linked, Drift, Standing, Sane;
      FinishedStays(l, op);
      BotsStay(l, Step(l, op));
      StepDrift(l, op, b);
      if b < |l.bots| {
        RunDrift(users, init, b);
      } else {
        NoBotNoTotal(users, init, b);
        NoBotNoDrift(l, op, b);
      }
    }
  }

  /** So the identity holds for a bot exactly when its drifts cancel out, as when there are none. */
  lemma RunConserves(users: seq<real>, ops: seq<Op>, b: nat)
    requires AllSane(ops) && b < |Run(users, ops).bots| && Run(users, ops).bots[b].active
    ensures Standing(Run(users, ops), b) == 0.0 <==> TotalDrift(users, ops, b) == 0.0
    ensures (forall i :: 0 <= i < |ops| ==> Drift(Run(users, ops[..i]), ops[i], b) == 0.0) ==>
      Standing(Run(users, ops), b) == 0.0
  {
    RunDrift(users, ops, b);
    if forall i :: 0 <= i < |ops| ==> Drift(Run(users, ops[..i]), ops[i], b) == 0.0 {
      NoDriftAdds(users, ops, b);
    }
  }

  lemma {:induction false} NoDriftAdds(users: seq<real>, ops: seq<Op>, b: nat)
    requires forall i :: 0 <= i < |ops| ==> Drift(Run(users, ops[..i]), ops[i], b) == 0.0
    ensures TotalDrift(users, ops, b) == 0.0
  {
    hide *;
    if ops == [] {
      NoTotal(users, b);
    } else {
      var n := |ops| - 1;
      forall i | 0 <= i < n ensures Drift(Run(users, ops[..n][..i]), ops[..n][i], b) == 0.0 {
        assert ops[..n][..i] == ops[..i];
      }
      NoDriftAdds(users, ops[..n], b);
      TotalUnfolds(users, ops, b);
    }
  }

  lemma NoTotal(users: seq<real>, b: nat)
    ensures TotalDrift(users, [], b) == 0.0
  {
  }

  lemma TotalUnfolds(users: seq<real>, ops: seq<Op>, b: nat)
    requires ops != []
    ensures var n := |ops| - 1;
      TotalDrift(users, ops, b) == TotalDrift(users, ops[..n], b) + Drift(Run(users, ops[..n]), ops[n], b)
  {
    hide Drift, Run;
  }

  // ---------- Payouts ----------

  /** A forecast of green is right when the candle does not close below its open, one of red when it does. */
  predicate Right(forecast: Candle, open: real, close: real) {
    forecast == GREEN <==> open <= close
  }

  /**
   What settlement pays back, whatever part was sold before: the unspent budget, what the sold
   shares brought, and one for every share still held if the forecast was right. The trade is won when
   the forecast was right or, after an exit, when nothing was lost on the whole.
   */
  lemma PayoutFormula(t: Trade, open: real, close: real)
    requires t.avgPrice.Some? && t.shares.Some? && (BracketExited(t) ==> t.exitFilled.value <= t.shares.value)
    ensures var avg, shares := t.avgPrice.value, t.shares.value;
      var sold := if BracketExited(t) then t.exitFilled.value else 0.0;
      var price := if BracketExited(t) then t.exitPrice.value else 0.0;
      var wins := Right(t.forecast, open, close);
      && Settle(t, open, close).ByProfit? && Settle(t, open, close).result in {Win, Loss}
      && (Settle(t, open, close).result == Win <==>
            if BracketExited(t) then Settle(t, open, close).profit >= 0.0 else wins)
      && t.amount + Settle(t, open, close).profit ==
           (t.amount - Worth(shares, avg)) + Worth(sold, price) + (if wins then shares - sold else 0.0)
  {
    var avg, shares := t.avgPrice.value, t.shares.value;
    if BracketExited(t) {
      ProfitArithmetic(shares, t.exitFilled.value, avg, t.exitPrice.value);
      NothingLeft(shares - t.exitFilled.value, avg);
    } else {
      ProfitArithmetic(shares, 0.0, avg, 0.0);
    }
    hide Worth;
  }

  lemma NothingLeft(rest: real, avg: real)
    ensures rest == 0.0 ==> Worth(rest, 1.0 - avg) == 0.0 == Worth(rest, avg)
  {
  }

  lemma ProfitArithmetic(shares: real, sold: real, avg: real, price: real)
    ensures Worth(sold, price - avg) + Worth(shares - sold, 1.0 - avg) ==
      Worth(sold, price) + (shares - sold) - Worth(shares, avg)
    ensures Worth(sold, price - avg) - Worth(shares - sold, avg) == Worth(sold, price) - Worth(shares, avg)
    ensures Worth(0.0, price) == 0.0
  {
    assert sold * (price - avg) == sold * price - sold * avg;
    assert (shares - sold) * (1.0 - avg) == (shares - sold) - (shares - sold) * avg;
    assert (shares - sold) * avg == shares * avg - sold * avg;
  }

  /** A payout is never negative and never more than the unspent budget plus one per share. */
  lemma PayoutBounds(t: Trade, open: real, close: real)
    requires t.avgPrice.Some? && t.shares.Some? && 0.0 <= t.shares.value
    requires BracketExited(t) ==>
      0.0 <= t.exitFilled.value <= t.shares.value && 0.0 <= t.exitPrice.value <= 1.0
    requires Worth(t.shares.value, t.avgPrice.value) <= t.amount
    ensures var payout := t.amount + Settle(t, open, close).profit;
      0.0 <= payout <= t.amount - Worth(t.shares.value, t.avgPrice.value) + t.shares.value
  {
    PayoutFormula(t, open, close);
    if BracketExited(t) {
      WorthAtMost(t.exitFilled.value, t.exitPrice.value);
    }
  }

  lemma WorthAtMost(qty: real, price: real)
    requires 0.0 <= qty && 0.0 <= price <= 1.0
    ensures 0.0 <= Worth(qty, price) <= qty
  {
    assert qty * (1.0 - price) >= 0.0;
  }

  // ---------- Redelivery ----------

  /** Replaying a cancel message changes nothing: the refund is paid once. */
  lemma CancelOnce(l: Ledger, m: CancelMessage)
    requires Linked(l)
    ensures var once := HandleCancel(l, m); Linked(once) && HandleCancel(once, m) == once
  {
    FinishedStays(l, Cancel(m));
    var once := HandleCancel(l, m);
    if m.id < |l.trades| && l.trades[m.id].result == Pending {
      hide Worth;
      assert once.trades[m.id := once.trades[m.id]] == once.trades;
      assert forall b :: 0 <= b < |once.bots| ==> once.bots[b := once.bots[b]] == once.bots;
    }
  }

  /** Replaying an exit or a resolution changes nothing. */
  lemma ExitAndResolveOnce(l: Ledger, m: ExitMessage, ids: set<nat>)
    requires Linked(l)
    ensures var once := HandleExit(l, m); Linked(once) && HandleExit(once, m) == once
    ensures var once := HandleResolved(l, ids); HandleResolved(once, ids) == once
  {
    FinishedStays(l, Exit(m));
  }

  /** The message would settle this trade at once: a complete fill after the settlement time. */
  predicate SettlesAtOnce(t: Trade, m: FillMessage, now: int, candle: Option<(real, real)>) {
    m.status == Status.FILLED && t.settlementAt.Some? && t.settlementAt.value <= now && candle.Some?
  }

  /** With its price recorded a trade always settles. */
  lemma RecordedSettles(l: Ledger, m: FillMessage, open: real, close: real)
    requires Linked(l) && m.id < |l.trades|
    ensures var r := RecordFill(l, m);
      && r.trades[m.id].bot < |r.bots| && SettleTrade(r, m.id, open, close).Some?
      && SettleTrade(r, m.id, open, close).value.trades[m.id].result != Pending
  {
    hide ShadowProfit, BinaryProfit, MakerRebate;
  }

  /** A fill message finishes a pending trade exactly when it settles it at once. */
  lemma FillFinishes(l: Ledger, m: FillMessage, now: int, candle: Option<(real, real)>)
    requires Linked(l) && m.id < |l.trades| && l.trades[m.id].result == Pending
    ensures var r := HandleFill(l, m, now, candle);
      && m.id < |r.trades|
      && (r.trades[m.id].result != Pending <==> SettlesAtOnce(l.trades[m.id], m, now, candle))
      && (!SettlesAtOnce(l.trades[m.id], m, now, candle) ==> r == RecordFill(l, m))
  {
    if candle.Some? {
      RecordedSettles(l, m, candle.value.0, candle.value.1);
      SettlePaysOut(RecordFill(l, m), m.id, candle.value.0, candle.value.1);
    }
    hide SettleTrade, MakerRebate;
  }

  /** Recording a fill a second time only pays its rebate a second time. */
  lemma RecordTwice(l: Ledger, m: FillMessage)
    requires Linked(l) && m.id < |l.trades| && l.trades[m.id].result == Pending
    ensures var once := RecordFill(l, m);
      && Linked(once) && m.id < |once.trades| && once.trades[m.id].result == Pending
      && RebateOf(once.trades[m.id], m) == RebateOf(l.trades[m.id], m)
      && once.trades[m.id].settlementAt == l.trades[m.id].settlementAt
      && (RecordFill(once, m) == once <==> RebateOf(l.trades[m.id], m) == 0.0)
      && RecordFill(once, m).bots[l.trades[m.id].bot].balance
         == once.bots[l.trades[m.id].bot].balance + RebateOf(l.trades[m.id], m)
  {
    hide MakerRebate;
    var once := RecordFill(l, m);
    assert RebateOf(once.trades[m.id], m) == RebateOf(l.trades[m.id], m);
    var twice := RecordFill(once, m);
    if RebateOf(l.trades[m.id], m) == 0.0 {
      assert twice.trades == once.trades;
      assert twice.bots == once.bots;
    }
  }

  /**
   A fill message delivered again, at any time and with any candle: nothing changes exactly when the
   trade is finished already, or the message earns no rebate and does not settle the trade this time.
   Otherwise the rebate is paid again, or the trade settles. (The ledger identity holds all the same.)
   */
  lemma FillAgainExactly(l: Ledger, m: FillMessage, now: int, candle: Option<(real, real)>,
                         later: int, again: Option<(real, real)>)
    requires Linked(l) && m.id < |l.trades| && l.trades[m.id].result == Pending
    ensures var once := HandleFill(l, m, now, candle);
      && Linked(once) && m.id < |once.trades|
      && (HandleFill(once, m, later, again) == once <==>
            once.trades[m.id].result != Pending ||
            (RebateOf(l.trades[m.id], m) == 0.0 && !SettlesAtOnce(l.trades[m.id], m, later, again)))
  {
    FinishedStays(l, Op.Fill(m, now, candle));
    FillFinishes(l, m, now, candle);
    var once := HandleFill(l, m, now, candle);
    if once.trades[m.id].result == Pending {
      RecordTwice(l, m);
      hide HandleFill, RecordFill, RebateOf, Linked;
      FillFinishes(once, m, later, again);
    }
  }

  /** Delivered twice at the same time: the replay changes nothing exactly for a finished trade or without a rebate. */
  lemma FillOnceExactly(l: Ledger, m: FillMessage, now: int, candle: Option<(real, real)>)
    requires Linked(l) && m.id < |l.trades| && l.trades[m.id].result == Pending
    ensures var once := HandleFill(l, m, now, candle);
      && Linked(once) && m.id < |once.trades|
      && (HandleFill(once, m, now, candle) == once <==>
            once.trades[m.id].result != Pending || RebateOf(l.trades[m.id], m) == 0.0)
      && (once.trades[m.id].result == Pending ==>
            HandleFill(once, m, now, candle).bots[l.trades[m.id].bot].balance
            == once.bots[l.trades[m.id].bot].balance + RebateOf(l.trades[m.id], m))
  {
    FillAgainExactly(l, m, now, candle, now, candle);
    FillFinishes(l, m, now, candle);
    var once := HandleFill(l, m, now, candle);
    if once.trades[m.id].result == Pending {
      RecordTwice(l, m);
      hide HandleFill, RecordFill, RebateOf, Linked;
      FillFinishes(once, m, now, candle);
    }
  }

  // ---------- What was asked for ----------

  /** The amount a trade was first entered for, whatever a cancellation has left of it. */
  function Entered(t: Trade): real {
    t.originalAmount.GetOr(t.amount)
  }

  /** Whose trade it is, what it is on, when it settles, and what it was entered for. */
  predicate SameBargain(t: Trade, t': Trade) {
    && t'.bot == t.bot && t'.forecast == t.forecast && t'.settlementAt == t.settlementAt
    && t'.createdAt == t.createdAt && t'.limitPrice == t.limitPrice && Entered(t') == Entered(t)
  }

  lemma JobKeepsBargain(l: Ledger, job: Job, id: nat, now: int, candles: Candles, i: nat)
    requires id < |l.trades| && l.trades[id].bot < |l.bots| && i < |l.trades|
    ensures var r := DoJob(l, job, id, now, candles);
      r.Some? ==> |r.value.trades| == |l.trades| && SameBargain(l.trades[i], r.value.trades[i])
  {
    hide Settle;
  }

  lemma {:induction false} JobsKeepBargain(l: Ledger, job: Job, n: nat, now: int, candles: Candles, i: nat)
    requires Linked(l) && n <= |l.trades| && i < |l.trades|
    ensures var r := DoJobs(l, job, n, now, candles);
      r.Some? ==> |r.value.trades| == |l.trades| && SameBargain(l.trades[i], r.value.trades[i])
  {
    hide DoJob;
    if n > 0 {
      JobsKeepBargain(l, job, n - 1, now, candles, i);
      var prev := DoJobs(l, job, n - 1, now, candles);
      if prev.Some? {
        JobKeepsBargain(prev.value, job, n - 1, now, candles, i);
      }
    }
  }

  lemma FillKeepsBargain(l: Ledger, m: FillMessage, now: int, candle: Option<(real, real)>, i: nat)
    requires Linked(l) && i < |l.trades|
    ensures var r := HandleFill(l, m, now, candle);
      |r.trades| == |l.trades| && SameBargain(l.trades[i], r.trades[i])
  {
    hide RebateOf, Settle;
  }

  /** No operation changes the bargain of a trade that is on the books. */
  lemma BargainStays(l: Ledger, op: Op, i: nat)
    requires Linked(l) && i < |l.trades|
    ensures i < |Step(l, op).trades| && SameBargain(l.trades[i], Step(l, op).trades[i])
  {
    hide HandleFill, DoJobs, LimitFillOf, MarketFill, TakerFee, Validate;
    match op
    case Fill(m, now, candle) => FillKeepsBargain(l, m, now, candle, i);
    case SettleAll(now, candles) => JobsKeepBargain(l, SettleJob, |l.trades|, now, candles, i);
    case Sweep(now, candles) =>
      JobsKeepBargain(l, SweepJob, |l.trades|, now, candles, i);
      var swept := DoJobs(l, SweepJob, |l.trades|, now, candles);
      if swept.Some? {
        JobsKeepBargain(swept.value, OrphanJob, |l.trades|, now, candles, i);
      }
    case _ =>
  }

  // ---------- Bots that are gone ----------

  /** A bot is removed exactly for its owner, while it is active and none of its trades is pending. */
  lemma RemovedExactly(l: Ledger, user: nat, bot: nat)
    ensures DeleteBot(l, user, bot).Some? <==>
      && user < |l.users| && bot < |l.bots| && l.bots[bot].owner == user && l.bots[bot].active
      && forall i :: 0 <= i < |l.trades| && l.trades[i].bot == bot ==> l.trades[i].result != Pending
    ensures DeleteBot(l, user, bot).Some? ==>
      var r := DeleteBot(l, user, bot).value;
      !r.bots[bot].active && r.bots[bot].balance == 0.0 && r.trades == l.trades
      && r.users[user] == l.users[user] + (l.bots[bot].balance - l.bots[bot].initial)
  {
  }

  /** Whoever has a pending trade is still there to be paid. */
  ghost predicate PayeesActive(l: Ledger) {
    forall i :: 0 <= i < |l.trades| && l.trades[i].result == Pending ==>
      l.trades[i].bot < |l.bots| && l.bots[l.trades[i].bot].active
  }

  /** A step neither deactivates a bot with a pending trade nor books a trade for an inactive one. */
  lemma StepKeepsPayees(l: Ledger, op: Op)
    requires Linked(l) && PayeesActive(l)
    ensures PayeesActive(Step(l, op))
  {
    FinishedStays(l, op);
    var l' := Step(l, op);
    hide Step;
    forall i | 0 <= i < |l'.trades| && l'.trades[i].result == Pending
      ensures l'.trades[i].bot < |l'.bots| && l'.bots[l'.trades[i].bot].active
    {
      if i < |l.trades| {
        BargainStays(l, op, i);
        PendingBotStays(l, op, i);
      } else {
        NewTradeIsActive(l, op, i);
      }
    }
  }

  lemma JobKeepsBots(l: Ledger, job: Job, id: nat, now: int, candles: Candles, b: nat)
    requires id < |l.trades| && l.trades[id].bot < |l.bots| && b < |l.bots|
    ensures var r := DoJob(l, job, id, now, candles);
      r.Some? ==> |r.value.bots| == |l.bots| && r.value.bots[b].active == l.bots[b].active
  {
    hide Settle;
  }

  lemma {:induction false} JobsKeepBots(l: Ledger, job: Job, n: nat, now: int, candles: Candles, b: nat)
    requires Linked(l) && n <= |l.trades| && b < |l.bots|
    ensures var r := DoJobs(l, job, n, now, candles);
      r.Some? ==> |r.value.bots| == |l.bots| && r.value.bots[b].active == l.bots[b].active
  {
    hide DoJob;
    if n > 0 {
      JobsKeepBots(l, job, n - 1, now, candles, b);
      var prev := DoJobs(l, job, n - 1, now, candles);
      if prev.Some? {
        JobKeepsBots(prev.value, job, n - 1, now, candles, b);
      }
    }
  }

  lemma FillKeepsBots(l: Ledger, m: FillMessage, now: int, candle: Option<(real, real)>, b: nat)
    requires Linked(l) && b < |l.bots|
    ensures var r := HandleFill(l, m, now, candle); |r.bots| == |l.bots| && r.bots[b].active == l.bots[b].active
  {
    hide RebateOf, Settle;
  }

  /** Only its removal makes a bot inactive. */
  lemma ActiveStays(l: Ledger, op: Op, b: nat)
    requires Linked(l) && b < |l.bots| && !(op.RemoveBot? && op.bot == b)
    ensures b < |Step(l, op).bots| && Step(l, op).bots[b].active == l.bots[b].active
  {
    hide HandleFill, DoJobs, LimitFillOf, MarketFill, TakerFee, Validate;
    match op
    case Fill(m, now, candle) => FillKeepsBots(l, m, now, candle, b);
    case SettleAll(now, candles) => JobsKeepBots(l, SettleJob, |l.trades|, now, candles, b);
    case Sweep(now, candles) =>
      JobsKeepBots(l, SweepJob, |l.trades|, now, candles, b);
      var swept := DoJobs(l, SweepJob, |l.trades|, now, candles);
      if swept.Some? {
        JobsKeepBots(swept.value, OrphanJob, |l.trades|, now, candles, b);
      }
    case Create(req, view) => CreateKeepsBots(l, req, view, b);
    case _ =>
  }

  lemma CreateKeepsBots(l: Ledger, req: OrderRequest, view: View, b: nat)
    requires b < |l.bots|
    ensures var r := CreateOrder(l, req, view).ledger; |r.bots| == |l.bots| && r.bots[b].active == l.bots[b].active
  {
    hide LimitFillOf, MarketFill, TakerFee;
  }

  lemma PendingBotStays(l: Ledger, op: Op, i: nat)
    requires Linked(l) && i < |l.trades| && l.trades[i].result == Pending && l.bots[l.trades[i].bot].active
    ensures var b := l.trades[i].bot; b < |Step(l, op).bots| && Step(l, op).bots[b].active
  {
    if op.RemoveBot? && op.bot == l.trades[i].bot {
      assert HasPending(l.trades, op.bot);
    } else {
      ActiveStays(l, op, l.trades[i].bot);
    }
  }

  lemma NewTradeIsActive(l: Ledger, op: Op, i: nat)
    requires Linked(l) && |l.trades| <= i < |Step(l, op).trades|
    ensures var t := Step(l, op).trades[i]; t.bot < |Step(l, op).bots| && Step(l, op).bots[t.bot].active
  {
  }

  /** In every reachable ledger, each pending trade belongs to an active bot. */
  lemma {:induction false} RunKeepsPayees(users: seq<real>, ops: seq<Op>)
    ensures PayeesActive(Run(users, ops))
  {
    if ops != [] {
      var n := |ops| - 1;
      RunKeepsPayees(users, ops[..n]);
      StepKeepsPayees(Run(users, ops[..n]), ops[n]);
      hide Step, PayeesActive;
    }
  }
}
