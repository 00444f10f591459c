/** Concrete runs of the ledger on which the promises that fail do fail. */
module Witnesses {
  import opened Prelude
  import opened Ladders
  import opened Orders
  import opened Calendar
  import opened Fees
  import opened Walks
  import opened Ledger
  import opened LedgerProofs
  import opened Scheduler
  import opened UserBalances
  import Funding
  import Payouts

  const SETTLES: int := 300 * SECOND

  /** One user with one bot that holds all the user's money. */
  function OneBot(money: real): Ledger {
    Ledger([money], [Bot(0, true, BotStatus.ACTIVE, money, money)], [])
  }

  lemma OneBotRuns(money: real)
    ensures Run([money], [NewBot(0, money)]) == OneBot(money)
  {
    var ops := [NewBot(0, money)];
    assert ops[..0] == [];
    assert Run([money], ops[..0]) == Start([money]);
    assert Allocated([], 0) == 0.0;
  }

  /** A run longer by one operation. */
  lemma RunSnoc(users: seq<real>, ops: seq<Op>, op: Op)
    ensures Run(users, ops + [op]) == Step(Run(users, ops), op)
  {
    assert (ops + [op])[..|ops|] == ops;
    hide Step;
  }

  /** An order of ten for a green candle, limited or not. */
  function Request(limit: Option<Price>, amount: real): OrderRequest {
    OrderRequest(0, M5, GREEN, amount, limit, None, None, None, false, None, None)
  }

  function Market(quote: Price, asks: seq<Level>): View {
    View(Some(SETTLES), 0, Some(quote), Some(asks), 0)
  }

  // ---------- A partly filled aggressive LIMIT order ----------

  const SHALLOW := Market(0.5, [Level(0.5, 2.0)])

  const LOSING := [NewBot(0, 1000.0), Create(Request(Some(0.5), 10.0), SHALLOW)]

  lemma OneLevelCost(p: Price, q: real)
    ensures Cost([Level(p, q)]) == Worth(q, p)
  {
    assert [Level(p, q)][..0] == [];
    assert Cost([Level(p, q)][..0]) == 0.0;
  }

  /** An amount of ten against asks worth one: nine are lost. */
  lemma PartFillLoses()
    ensures AllSane(LOSING) && |Run([1000.0], LOSING).bots| == 1 && Run([1000.0], LOSING).bots[0].active
    ensures Standing(Run([1000.0], LOSING), 0) == -9.0
  {
    OneBotRuns(1000.0);
    var l, req := OneBot(1000.0), Request(Some(0.5), 10.0);
    assert LOSING == [NewBot(0, 1000.0)] + [Create(req, SHALLOW)];
    RunSnoc([1000.0], [NewBot(0, 1000.0)], Create(req, SHALLOW));
    EstimateIs32nd(10.0);
    OneLevelCost(0.5, 2.0);
    assert UnderCap([Level(0.5, 2.0)], 0.5) == [Level(0.5, 2.0)] + UnderCap([], 0.5);
    assert Validate(l, req, SHALLOW) == None && Aggressive(req, SHALLOW);
    assert Unfilled(l, req, SHALLOW) == 9.0;
    CreateDrift(l, req, SHALLOW, 0);
    CreateKeepsBots(l, req, SHALLOW);
    assert Standing(l, 0) == 0.0;
  }

  lemma CreateKeepsBots(l: Ledger, req: OrderRequest, view: View)
    requires Linked(l)
    ensures var r := CreateOrder(l, req, view).ledger;
      |r.bots| == |l.bots| && forall b :: 0 <= b < |l.bots| ==> r.bots[b].active == l.bots[b].active
  {
    CreateFollows(l, req, view);
    hide TakerFee, Walk, LimitFillOf, MarketFill, Validate, Follows;
  }

  // ---------- A waiting order ----------

  /** A LIMIT order below the market, queued whole. */
  const WAITING := [NewBot(0, 1000.0), Create(Request(Some(0.4), 10.0), Market(0.5, []))]

  function WaitingTrade(): Trade {
    NewTrade(Request(Some(0.4), 10.0), 10.0, 10.0, None, None, 0.0, Queued, Market(0.5, []))
  }

  function WaitingLedger(): Ledger {
    Ledger([1000.0], [Bot(0, true, BotStatus.ACTIVE, 1000.0, 990.0)], [WaitingTrade()])
  }

  lemma WaitingRuns()
    ensures Run([1000.0], WAITING) == WaitingLedger() && Linked(WaitingLedger())
  {
    OneBotRuns(1000.0);
    var l, req, view := OneBot(1000.0), Request(Some(0.4), 10.0), Market(0.5, []);
    assert WAITING == [NewBot(0, 1000.0)] + [Create(req, view)];
    RunSnoc([1000.0], [NewBot(0, 1000.0)], Create(req, view));
    assert Validate(l, req, view) == None && !Aggressive(req, view);
    assert CreateOrder(l, req, view) == CreatePassive(l, req, view);
  }

  const PART_FILL := FillMessage(0, 5.0, 0.4, Status.PARTIAL, Some([Level(0.4, 5.0)]))

  const PART_FILLED := Op.Fill(PART_FILL, 0, None)

  lemma PartFillEarns()
    ensures RebateOf(WaitingTrade(), PART_FILL) > 0.0
  {
    var levels := [Level(0.4, 5.0)];
    RebateIsOneFifth(levels);
    assert levels[..0] == [];
    assert TakerFee(levels[..0]) == 0.0;
    assert TakerFee(levels) == NominalFee(5.0, 0.4);
    FeePerCost(5.0, 0.4);
    assert Worth(5.0, 0.4) == 2.0 && Squared(0.6) == 0.36 && Curve(0.4) == 0.4 * 0.36;
  }

  /** The same fill delivered twice pays its rebate twice. */
  lemma RebateRepeats()
    ensures var once := Run([1000.0], WAITING + [PART_FILLED]);
      var twice := Run([1000.0], WAITING + [PART_FILLED] + [PART_FILLED]);
      && |once.bots| == 1 == |twice.bots| && twice.bots[0].balance > once.bots[0].balance
  {
    WaitingRuns();
    PartFillEarns();
    var l := WaitingLedger();
    RunSnoc([1000.0], WAITING, PART_FILLED);
    RunSnoc([1000.0], WAITING + [PART_FILLED], PART_FILLED);
    FillOnceExactly(l, PART_FILL, 0, None);
    FillFinishes(l, PART_FILL, 0, None);
    var once := HandleFill(l, PART_FILL, 0, None);
    SameBots(l, PART_FILLED);
    SameBots(once, PART_FILLED);
    hide HandleFill, RebateOf, Run, WaitingTrade, MakerRebate;
  }

  /** A resolved trade is passed over by the scheduled settlement although it is due. */
  lemma ResolvedIsPassedOver(candles: Candles)
    ensures var l := Run([1000.0], WAITING + [Resolve({0})]);
      && Linked(l) && |l.trades| == 1 && Awaits(l.trades[0], SETTLES)
      && SettlePending(l, SETTLES, candles).trades == l.trades
  {
    WaitingRuns();
    RunSnoc([1000.0], WAITING, Resolve({0}));
    var l := Run([1000.0], WAITING + [Resolve({0})]);
    assert 0 in {0} && l.trades == [ResolveTrade(WaitingTrade())];
    JobsHandleEach(l, SettleJob, 1, SETTLES, candles);
    assert l.trades[0].closed;
    var r := DoJobs(l, SettleJob, 1, SETTLES, candles);
    hide DoJobs, Run, WaitingTrade;
    assert r.Some? && r.value.trades == l.trades;
  }

  const EARLY_EXIT := ExitMessage(0, TP, 0.6, 1.0)

  /**
   An exit that overtakes its fill leaves a trade without entry price. It stops the scheduled
   settlement of every trade as soon as it is due, and the sweeper once it is stuck.
   */
  lemma OvertakingExitBlocks(open: real, close: real)
    ensures var l, candles := Run([1000.0], WAITING + [Exit(EARLY_EXIT)]), map[0 := (open, close)];
      && Linked(l)
      && Stopped(l, SETTLES, candles) && SettlePending(l, SETTLES, candles) == l
      && Blocked(l, SETTLES + STUCK_AFTER, candles) && SweepStuck(l, SETTLES + STUCK_AFTER, candles) == l
      && !NoneLeft(l, SETTLES + STUCK_AFTER)
  {
    WaitingRuns();
    RunSnoc([1000.0], WAITING, Exit(EARLY_EXIT));
    var l := Run([1000.0], WAITING + [Exit(EARLY_EXIT)]);
    var candles := map[0 := (open, close)];
    assert 0 in candles && |l.trades| == 1 && Priceless(l.trades[0]);
    assert Awaits(l.trades[0], SETTLES) && Stops(l.trades[0], SETTLES);
    SweepClearsExactly(l, SETTLES + STUCK_AFTER, candles);
    SettlementLeaves(l, SETTLES, candles);
  }

  // ---------- A stale fill ----------

  const FIRST_FILL := FillMessage(0, 5.0, 0.4, Status.PARTIAL, None)
  const SECOND_FILL := FillMessage(0, 10.0, 0.4, Status.PARTIAL, None)

  /** A fill of five shares, replayed after the one of ten, takes the trade back to five. */
  lemma StaleFillLowersShares()
    ensures var newer := Run([1000.0], WAITING + [Op.Fill(FIRST_FILL, 0, None)] + [Op.Fill(SECOND_FILL, 0, None)]);
      var stale := Run([1000.0], WAITING + [Op.Fill(FIRST_FILL, 0, None)] + [Op.Fill(SECOND_FILL, 0, None)]
                                 + [Op.Fill(FIRST_FILL, 0, None)]);
      && |newer.trades| == 1 == |stale.trades|
      && newer.trades[0].shares == Some(10.0) && stale.trades[0].shares == Some(5.0)
  {
    WaitingRuns();
    var first, second := Op.Fill(FIRST_FILL, 0, None), Op.Fill(SECOND_FILL, 0, None);
    RunSnoc([1000.0], WAITING, first);
    RunSnoc([1000.0], WAITING + [first], second);
    RunSnoc([1000.0], WAITING + [first] + [second], first);
    hide Run;
  }

  // ---------- A position that cannot be watched ----------

  /** A MARKET order for ten at a half with a take-profit, and asks for a hundred. */
  const BRACKETED := OrderRequest(0, M5, GREEN, 10.0, None, Some(0.9), None, None, false, None, None)
  const DEEP := Market(0.5, [Level(0.5, 100.0)])

  const REJECTED := [NewBot(0, 1000.0), Create(BRACKETED, DEEP)]

  /**
   * Twenty shares are bought; a cancellation that claims no fills, as for a bracket turned down,
   * has the trade cancelled and the ten given back.
   */
  lemma RejectedBracketRefunds()
    ensures var bought := Run([1000.0], REJECTED);
      var after := Run([1000.0], REJECTED + [Cancel(CancelMessage(0, 0.0, 0.0))]);
      && |bought.trades| == 1 == |after.trades| && |bought.bots| == 1 == |after.bots|
      && bought.trades[0].shares == Some(20.0) == after.trades[0].shares
      && bought.trades[0].result == Pending && after.trades[0].result == Cancelled
      && after.bots[0].balance == bought.bots[0].balance + 10.0
  {
    DeepRuns();
    RunSnoc([1000.0], REJECTED, Cancel(CancelMessage(0, 0.0, 0.0)));
    hide Run, CreateMarket;
  }

  /** The run that buys twenty shares. */
  lemma DeepRuns()
    ensures var bought := CreateMarket(OneBot(1000.0), BRACKETED, DEEP).ledger;
      && Run([1000.0], REJECTED) == bought && Linked(bought)
      && |bought.trades| == 1 && |bought.bots| == 1 && bought.trades[0].bot == 0
      && bought.trades[0].shares == Some(20.0) && bought.trades[0].amount == 10.0 && bought.trades[0].result == Pending
      && bought.trades[0].avgPrice == Some(0.5) && bought.trades[0].forecast == GREEN
      && bought.trades[0].exitTrigger.None?
  {
    OneBotRuns(1000.0);
    var l, req := OneBot(1000.0), BRACKETED;
    assert REJECTED == [NewBot(0, 1000.0)] + [Create(req, DEEP)];
    RunSnoc([1000.0], [NewBot(0, 1000.0)], Create(req, DEEP));
    EstimateIs32nd(10.0);
    assert Validate(l, req, DEEP) == None && !Aggressive(req, DEEP);
    assert CreateOrder(l, req, DEEP) == CreateMarket(l, req, DEEP);
    BoughtDeep(l);
    FinishedStays(l, Create(req, DEEP));
    hide Run, CreateMarket, CreateOrder, Validate;
  }

  lemma BoughtDeep(l: Ledger)
    requires l == OneBot(1000.0)
    ensures var r := CreateMarket(l, BRACKETED, DEEP).ledger;
      && |r.trades| == 1 && |r.bots| == 1 && r.trades[0].bot == 0
      && r.trades[0].shares == Some(20.0) && r.trades[0].amount == 10.0 && r.trades[0].result == Pending
      && r.trades[0].avgPrice == Some(0.5) && r.trades[0].forecast == GREEN && r.trades[0].exitTrigger.None?
  {
    var q := Afford(10.0, 0.5);
    assert q == 20.0 && Worth(q, 0.5) == 10.0;
    Funding.OneLevelFill(BRACKETED, 0.5, 100.0);
    OneLevelCost(0.5, q);
    ShallowFill();
    hide MarketFill, TakerFee, Cost;
    CreateFollows(l, BRACKETED, DEEP);
  }

  lemma ShallowFill()
    ensures var r := MarketFill([Level(0.5, 100.0)], 10.0, None, None, false, None);
      r.Ok? && r.value.shares == 20.0 && r.value.avgPrice == 0.5
  {
    var w := BuyAt(NOTHING, Level(0.5, 100.0), 10.0);
    assert Afford(10.0, 0.5) == 20.0 && Worth(20.0, 0.5) == 10.0;
    assert Worth(1.0 + DEFAULT_TOLERANCE, 0.5) >= 0.5;
    assert w.cost == 10.0 && w.qty == 20.0;
  }

  // ---------- A position sold in two parts ----------

  const HALF := ExitMessage(0, TP, 0.9, 10.0)

  /** Two halves of twenty shares sold, and a forecast of green that turns out wrong. */
  lemma HalvesPay(l: Ledger)
    requires Linked(l) && |l.trades| == 1 && |l.bots| == 1 && l.trades[0].bot == 0 && l.trades[0].result == Pending
    requires l.trades[0].shares == Some(20.0) && l.trades[0].avgPrice == Some(0.5) && l.trades[0].amount == 10.0
    requires l.trades[0].forecast == GREEN && l.trades[0].exitTrigger.None?
    ensures var sold := HandleExit(HandleExit(l, HALF), HALF);
      && Linked(sold) && |sold.trades| == 1 && sold.bots == l.bots && sold.trades[0].exitFilled == Some(10.0)
      && var settled := SettleTrade(sold, 0, 0.5, 0.4);
         settled.Some? && |settled.value.bots| == 1 && settled.value.bots[0].balance == l.bots[0].balance + 9.0
  {
    assert Worth(20.0, 0.5) == 10.0 && Worth(10.0, 0.9) == 9.0;
    Payouts.ExitPays(l, HALF, 0.5, 0.4);
    Payouts.LaterExitsAreLost(l, HALF, HALF);
    Payouts.ExitRecorded(l, HALF);
    hide HandleExit, SettleTrade, Worth, Linked;
  }

  /**
   Twenty shares are bought, and sold ten by ten at nine tenths: the trade has the first ten on record, and
   when the forecast turns out wrong it is paid the nine these brought, and nothing for the other ten.
   */
  lemma SecondExitUnpaid()
    ensures var bought := Run([1000.0], REJECTED);
      var sold := Run([1000.0], REJECTED + [Exit(HALF)] + [Exit(HALF)]);
      && Linked(sold) && |bought.bots| == 1 == |sold.bots| && |sold.trades| == 1
      && sold.trades[0].exitFilled == Some(10.0) && sold.bots == bought.bots
      && var settled := SettleTrade(sold, 0, 0.5, 0.4);
         settled.Some? && |settled.value.bots| == 1 && settled.value.bots[0].balance == bought.bots[0].balance + 9.0
  {
    DeepRuns();
    RunSnoc([1000.0], REJECTED, Exit(HALF));
    RunSnoc([1000.0], REJECTED + [Exit(HALF)], Exit(HALF));
    hide Run, CreateMarket, HandleExit, SettleTrade, Linked;
    HalvesPay(CreateMarket(OneBot(1000.0), BRACKETED, DEEP).ledger);
  }

  // ---------- A bot below zero ----------

  const CHEAP := Market(1.0 / 3.0, [Level(1.0 / 3.0, 96.0)])

  /** An amount of thirty-two at a third leaves a bot of thirty-three below zero. */
  lemma BotBelowZero()
    ensures var l := Run([33.0], [NewBot(0, 33.0), Create(Request(None, 32.0), CHEAP)]);
      |l.bots| == 1 && l.bots[0].active && l.bots[0].balance < 0.0
  {
    OneBotRuns(33.0);
    var l, req := OneBot(33.0), Request(None, 32.0);
    assert [NewBot(0, 33.0), Create(req, CHEAP)] == [NewBot(0, 33.0)] + [Create(req, CHEAP)];
    RunSnoc([33.0], [NewBot(0, 33.0)], Create(req, CHEAP));
    assert Worth(96.0, 1.0 / 3.0) == 32.0;
    assert Funding.JustFunded(l, req, CHEAP, 1.0 / 3.0, 96.0);
    Funding.OverdraftExactly(l, req, CHEAP, 1.0 / 3.0, 96.0);
    assert !Covered(1.0 / 3.0);
    CreateKeepsBots(l, req, CHEAP);
    hide CreateOrder, Covered;
  }

  // ---------- Rows that lag ----------

  /** Twenty shares at a half, bought for a green or for a red candle. */
  function Bought(forecast: Candle): Trade {
    Trade(0, forecast, 10.0, Some(10.0), Pending, None, Some(0.5), Some(20.0), 0.0, NoEngine, None, None, None,
          Some(SETTLES), 0, None, None, None, false)
  }

  /** A winner and a loser of the same bot, settled in one run. */
  const PAIR := Ledger([1000.0], [Bot(0, true, BotStatus.ACTIVE, 1000.0, 980.0)], [Bought(GREEN), Bought(RED)])

  const GREEN_CANDLES: Candles := map[0 := (1.0, 2.0), 1 := (1.0, 2.0)]

  lemma PairSettles()
    ensures Linked(PAIR)
    ensures DoJobs(PAIR, SettleJob, 0, SETTLES, GREEN_CANDLES) == Some(PAIR)
    ensures var one := DoJobs(PAIR, SettleJob, 1, SETTLES, GREEN_CANDLES);
      one.Some? && one.value.trades == [Bought(GREEN).(result := Win, profit := Some(10.0)), Bought(RED)]
    ensures var two := DoJobs(PAIR, SettleJob, 2, SETTLES, GREEN_CANDLES);
      two.Some? && two.value.trades == [Bought(GREEN).(result := Win, profit := Some(10.0)),
                                        Bought(RED).(result := Loss, profit := Some(-10.0))]
  {
    NoJobs(PAIR, SettleJob, SETTLES, GREEN_CANDLES);
    JobsHandleEach(PAIR, SettleJob, 1, SETTLES, GREEN_CANDLES);
    JobsHandleEach(PAIR, SettleJob, 2, SETTLES, GREEN_CANDLES);
    assert 0 in GREEN_CANDLES && 1 in GREEN_CANDLES;
    assert Worth(20.0, 0.5) == 10.0;
    assert Finish(Bought(GREEN), 1.0, 2.0) == Some(Bought(GREEN).(result := Win, profit := Some(10.0)));
    assert Finish(Bought(RED), 1.0, 2.0) == Some(Bought(RED).(result := Loss, profit := Some(-10.0)));
    hide DoJobs, Bought;
  }

  lemma TwoTrades(a: Trade, b: Trade, bots: seq<Bot>, user: nat)
    ensures Sum([a, b], bots, user, Profits) ==
      (if Mine(bots, a.bot, user) then Amount(a, Profits) else 0.0) +
      (if Mine(bots, b.bot, user) then Amount(b, Profits) else 0.0)
  {
    assert [a, b][..1] == [a] && [a][..0] == [];
    assert Sum([a][..0], bots, user, Profits) == 0.0;
  }

  lemma GainsOfTwo(a: Trade, b: Trade, a': Trade, b': Trade, bots: seq<Bot>, user: nat)
    ensures Gains([a, b], [a', b'], bots, user) ==
      (if Mine(bots, a.bot, user) && a.result == Pending then Amount(a', Profits) else 0.0) +
      (if Mine(bots, b.bot, user) && b.result == Pending then Amount(b', Profits) else 0.0)
  {
    assert [a, b][..1] == [a] && [a', b'][..1] == [a'] && [a][..0] == [] && [a'][..0] == [];
    assert Gains([a][..0], [a'][..0], bots, user) == 0.0;
  }

  /**
   Both rows show a thousand. The winner's row is wrong: the user has a thousand and ten by then. The
   loser's row, though its trade lost ten, is right again.
   */
  lemma FirstRowLagsSecondDoesNot()
    ensures var one := DoJobs(PAIR, SettleJob, 1, SETTLES, GREEN_CANDLES).GetOr(PAIR);
      var two := DoJobs(PAIR, SettleJob, 2, SETTLES, GREEN_CANDLES).GetOr(PAIR);
      && |one.users| == 1 == |two.users|
      && JobRows(PAIR, PAIR, SettleJob, 2, SETTLES, GREEN_CANDLES) ==
           [HistoryRow(0, 1000.0, 0, 0, Some(10.0)), HistoryRow(0, 1000.0, 1, 0, Some(-10.0))]
      && Realized(one, 0) == 1010.0 && Realized(two, 0) == 1000.0
  {
    PairSettles();
    UnflushedSelf(PAIR);
    JobsUnflushed(PAIR, PAIR, SettleJob, 1, SETTLES, GREEN_CANDLES);
    JobsUnflushed(PAIR, PAIR, SettleJob, 2, SETTLES, GREEN_CANDLES);
    var one := DoJobs(PAIR, SettleJob, 1, SETTLES, GREEN_CANDLES).value;
    var two := DoJobs(PAIR, SettleJob, 2, SETTLES, GREEN_CANDLES).value;
    RealizedMoves(PAIR, one, 0);
    RealizedMoves(PAIR, two, 0);
    var won := Bought(GREEN).(result := Win, profit := Some(10.0));
    var lost := Bought(RED).(result := Loss, profit := Some(-10.0));
    GainsOfTwo(Bought(GREEN), Bought(RED), won, Bought(RED), PAIR.bots, 0);
    GainsOfTwo(Bought(GREEN), Bought(RED), won, lost, PAIR.bots, 0);
    TwoTrades(Bought(GREEN), Bought(RED), PAIR.bots, 0);
    assert Mine(PAIR.bots, 0, 0) && HasBots(PAIR.bots, 0);
    PairRows(won, lost);
  }

  lemma PairRows(won: Trade, lost: Trade)
    requires won == Bought(GREEN).(result := Win, profit := Some(10.0))
    requires lost == Bought(RED).(result := Loss, profit := Some(-10.0))
    requires Linked(PAIR) && HasBots(PAIR.bots, 0) && Realized(PAIR, 0) == 1000.0
    requires DoJobs(PAIR, SettleJob, 0, SETTLES, GREEN_CANDLES) == Some(PAIR)
    requires var one := DoJobs(PAIR, SettleJob, 1, SETTLES, GREEN_CANDLES);
      one.Some? && one.value.trades == [won, Bought(RED)]
    requires var two := DoJobs(PAIR, SettleJob, 2, SETTLES, GREEN_CANDLES);
      two.Some? && two.value.trades == [won, lost]
    ensures JobRows(PAIR, PAIR, SettleJob, 2, SETTLES, GREEN_CANDLES) ==
      [HistoryRow(0, 1000.0, 0, 0, Some(10.0)), HistoryRow(0, 1000.0, 1, 0, Some(-10.0))]
  {
    hide DoJobs, HasBots, Realized;
    assert JobRows(PAIR, PAIR, SettleJob, 0, SETTLES, GREEN_CANDLES) == [];
    assert JobRows(PAIR, PAIR, SettleJob, 1, SETTLES, GREEN_CANDLES) == [HistoryRow(0, 1000.0, 0, 0, Some(10.0))];
  }
}
