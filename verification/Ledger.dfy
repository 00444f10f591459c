/** The money ledger: bots, trades, and every handler that moves money between them, as functions. */
module Ledger {
  import opened Prelude
  import opened Ladders
  import opened Orders
  import opened Fees
  import opened Walks
  import opened Calendar

  const STUCK_AFTER: int := 10 * 60 * 1_000_000
  const ORPHAN_AFTER: int := 2 * 3600 * 1_000_000

  datatype Outcome = Pending | Win | Loss | Cancelled

  datatype Candle = GREEN | RED

  /** What the API last heard of the order at the engine. */
  datatype EngineStatus = NoEngine | Queued | Prefilled | PartlyFilled | Filled | Canceled | Resolved

  datatype Trade = Trade(
    bot: nat,
    forecast: Candle,
    amount: real,
    originalAmount: Option<real>,
    result: Outcome,
    profit: Option<real>,
    avgPrice: Option<real>,
    shares: Option<real>,
    entryFee: real,
    engineStatus: EngineStatus,
    limitPrice: Option<Price>,
    tp: Option<real>,
    sl: Option<real>,
    settlementAt: Option<int>,
    createdAt: int,
    exitTrigger: Option<Trigger>,
    exitPrice: Option<real>,
    exitFilled: Option<real>,
    closed: bool)

  datatype BotStatus = ACTIVE | PAUSED | DELETED

  datatype Bot = Bot(owner: nat, active: bool, status: BotStatus, initial: real, balance: real)

  /** `users[u]` is the initial balance of user `u`; trades name their bot by position. */
  datatype Ledger = Ledger(users: seq<real>, bots: seq<Bot>, trades: seq<Trade>)

  /** Every trade belongs to a bot, every bot to a user. */
  ghost predicate Linked(l: Ledger) {
    && (forall i :: 0 <= i < |l.trades| ==> l.trades[i].bot < |l.bots|)
    && (forall b :: 0 <= b < |l.bots| ==> l.bots[b].owner < |l.users|)
  }

  /** Replace one trade and move `money` into its bot's balance. */
  function Commit(l: Ledger, id: nat, t: Trade, money: real): Ledger
    requires id < |l.trades| && l.trades[id].bot < |l.bots|
  {
    var b := l.trades[id].bot;
    l.(trades := l.trades[id := t], bots := l.bots[b := l.bots[b].(balance := l.bots[b].balance + money)])
  }

  // ---------- Settlement of one trade ----------

  function CandleColor(open: real, close: real): Candle {
    if close < open then RED else GREEN
  }

  predicate BracketExited(t: Trade) {
    t.exitTrigger in {Some(TP), Some(SL)} && t.exitPrice.Some? && t.exitFilled.Some?
  }

  /** Profit of shares held to the end: they pay one each if the forecast was right. */
  function BinaryProfit(avg: real, shares: real, wins: bool): real {
    if wins then Worth(shares, 1.0 - avg) else -Worth(shares, avg)
  }

  /** Profit after a bracket exit: the part sold, and the rest by the candle. */
  function ShadowProfit(t: Trade, avg: real, wins: bool): real
    requires BracketExited(t)
  {
    var sold := t.exitFilled.value;
    Worth(sold, t.exitPrice.value - avg) +
    if t.shares.Some? && sold < t.shares.value then BinaryProfit(avg, t.shares.value - sold, wins) else 0.0
  }

  /** How a trade settles: by profit, by refund, or with an exception because its price is missing. */
  datatype Settlement = ByProfit(result: Outcome, profit: real) | Refund | Raises

  function Settle(t: Trade, open: real, close: real): Settlement {
    var wins := CandleColor(open, close) == t.forecast;
    if BracketExited(t) then
      if t.avgPrice.None? then Raises
      else
        var profit := ShadowProfit(t, t.avgPrice.value, wins);
        ByProfit(if profit >= 0.0 then Win else Loss, profit)
    else if t.avgPrice.None? || t.shares.None? then Refund
    else ByProfit(if wins then Win else Loss, BinaryProfit(t.avgPrice.value, t.shares.value, wins))
  }

  function PauseIfBroke(l: Ledger, b: nat): Ledger
    requires b < |l.bots|
  {
    if l.bots[b].balance <= 0.0 then l.(bots := l.bots[b := l.bots[b].(status := PAUSED)]) else l
  }

  function RefundTrade(l: Ledger, id: nat, status: EngineStatus): Ledger
    requires id < |l.trades| && l.trades[id].bot < |l.bots|
  {
    var t := l.trades[id];
    Commit(l, id, t.(result := Cancelled, profit := Some(0.0), engineStatus := status), t.amount)
  }

  /** `_settle_single_trade`; None when it raises. */
  function SettleTrade(l: Ledger, id: nat, open: real, close: real): Option<Ledger>
    requires id < |l.trades| && l.trades[id].bot < |l.bots|
  {
    var t := l.trades[id];
    match Settle(t, open, close)
    case Raises => None
    case Refund => Some(RefundTrade(l, id, t.engineStatus))
    case ByProfit(result, profit) =>
      Some(PauseIfBroke(Commit(l, id, t.(result := result, profit := Some(profit)), t.amount + profit), t.bot))
  }

  // ---------- Stream handlers ----------

  datatype FillMessage = FillMessage(id: nat, filled: real, avg: real, status: Status, levels: Option<seq<Level>>)

  /** The rebate a fill message earns: only passive orders that were not charged a taker fee. */
  function RebateOf(t: Trade, m: FillMessage): real {
    if m.levels.Some? && t.entryFee <= 0.0 && MakerRebate(m.levels.value) > 0.0
    then MakerRebate(m.levels.value) else 0.0
  }

  /** The part of `_handle_order_fill` up to its first commit. */
  function RecordFill(l: Ledger, m: FillMessage): Ledger
    requires m.id < |l.trades| && l.trades[m.id].bot < |l.bots|
  {
    var t := l.trades[m.id];
    var status := if m.status == Status.PARTIAL then PartlyFilled
                  else if m.status == Status.FILLED then Filled else t.engineStatus;
    Commit(l, m.id,
           t.(avgPrice := Some(m.avg), shares := Some(m.filled), engineStatus := status,
              entryFee := t.entryFee - RebateOf(t, m)),
           RebateOf(t, m))
  }

  /** `_handle_order_fill`. A late complete fill settles at once when the candle is known. */
  function HandleFill(l: Ledger, m: FillMessage, now: int, candle: Option<(real, real)>): Ledger
    requires Linked(l)
  {
    if m.id >= |l.trades| || l.trades[m.id].result != Pending then l
    else
      var l1 := RecordFill(l, m);
      var t := l1.trades[m.id];
      if m.status == Status.FILLED && t.settlementAt.Some? && t.settlementAt.value <= now && candle.Some?
      then SettleTrade(l1, m.id, candle.value.0, candle.value.1).GetOr(l1)
      else l1
  }

  datatype CancelMessage = CancelMessage(id: nat, filled: real, avg: real)

  /** `_handle_order_cancel`: a part that was filled is kept, the rest refunded. */
  function HandleCancel(l: Ledger, m: CancelMessage): Ledger
    requires Linked(l)
  {
    if m.id >= |l.trades| || l.trades[m.id].result != Pending then l
    else
      var t := l.trades[m.id];
      if m.filled > 0.0 && m.avg > 0.0 then
        var cost := Worth(m.filled, m.avg);
        Commit(l, m.id,
               t.(originalAmount := Some(t.originalAmount.GetOr(t.amount)),
                  avgPrice := Some(m.avg), shares := Some(m.filled), amount := cost, engineStatus := Canceled),
               Max(0.0, t.amount - cost))
      else RefundTrade(l, m.id, Canceled)
  }

  datatype ExitMessage = ExitMessage(id: nat, trigger: Trigger, price: real, filled: real)

  /** `_handle_bracket_exit`: only the first exit is recorded; no money moves. */
  function HandleExit(l: Ledger, m: ExitMessage): Ledger
    requires Linked(l)
  {
    if m.id >= |l.trades| || l.trades[m.id].result != Pending || l.trades[m.id].exitTrigger.Some? then l
    else
      l.(trades := l.trades[m.id := l.trades[m.id].(exitTrigger := Some(m.trigger), exitPrice := Some(m.price),
                                                    exitFilled := Some(m.filled), engineStatus := Filled)])
  }

  function ResolveTrade(t: Trade): Trade {
    t.(tp := None, sl := None, closed := true, engineStatus := Resolved)
  }

  /** `_handle_market_resolved`: brackets are dropped; settlement is left to the scheduler. */
  function HandleResolved(l: Ledger, ids: set<nat>): Ledger {
    l.(trades := seq(|l.trades|, i requires 0 <= i < |l.trades| =>
         if i in ids && l.trades[i].result == Pending && !l.trades[i].closed
         then ResolveTrade(l.trades[i]) else l.trades[i]))
  }

  // ---------- The scheduler ----------

  type Candles = map<nat, (real, real)>

  predicate Due(t: Trade, now: int) {
    t.result == Pending && t.settlementAt.Some? && t.settlementAt.value <= now
  }

  /** What `settle_pending_trades` does with one trade; None when it raises. */
  function SettleDue(l: Ledger, id: nat, now: int, candles: Candles): Option<Ledger>
    requires id < |l.trades| && l.trades[id].bot < |l.bots|
  {
    var t := l.trades[id];
    if !Due(t, now) || t.closed then Some(l)
    else if t.engineStatus == Queued then Some(RefundTrade(l, id, Canceled))
    else if id !in candles then Some(l)
    else SettleTrade(l, id, candles[id].0, candles[id].1)
  }

  /** What `sweep_stuck_orders` does with one trade: force-settle, or cancel with a refund. */
  function SweepTrade(l: Ledger, id: nat, now: int, candles: Candles): Option<Ledger>
    requires id < |l.trades| && l.trades[id].bot < |l.bots|
  {
    var t := l.trades[id];
    if Due(t, now - STUCK_AFTER) then
      if id in candles then SettleTrade(l, id, candles[id].0, candles[id].1)
      else Some(RefundTrade(l, id, t.engineStatus))
    else Some(l)
  }

  predicate Orphaned(t: Trade, now: int) {
    t.result == Pending && t.settlementAt.None? && t.createdAt <= now - ORPHAN_AFTER
  }

  function SweepOrphan(l: Ledger, id: nat, now: int): Ledger
    requires id < |l.trades| && l.trades[id].bot < |l.bots|
  {
    if Orphaned(l.trades[id], now) then RefundTrade(l, id, l.trades[id].engineStatus) else l
  }

  /** The kinds of scheduled work on a trade. */
  datatype Job = SettleJob | SweepJob | OrphanJob

  function DoJob(l: Ledger, job: Job, id: nat, now: int, candles: Candles): (r: Option<Ledger>)
    requires id < |l.trades| && l.trades[id].bot < |l.bots|
    ensures r.Some? ==> |r.value.trades| == |l.trades| && |r.value.bots| == |l.bots| && r.value.users == l.users
    ensures r.Some? ==> (Linked(l) ==> Linked(r.value))
  {
    match job
    case SettleJob => SettleDue(l, id, now, candles)
    case SweepJob => SweepTrade(l, id, now, candles)
    case OrphanJob => Some(SweepOrphan(l, id, now))
  }

  /** The job over the first `n` trades, or None as soon as one raises. */
  function DoJobs(l: Ledger, job: Job, n: nat, now: int, candles: Candles): (r: Option<Ledger>)
    requires Linked(l) && n <= |l.trades|
    ensures r.Some? ==> Linked(r.value) && |r.value.trades| == |l.trades| && r.value.users == l.users
    ensures r.Some? ==> |r.value.bots| == |l.bots|
  {
    if n == 0 then Some(l)
    else
      var prev := DoJobs(l, job, n - 1, now, candles);
      if prev.None? then None else DoJob(prev.value, job, n - 1, now, candles)
  }

  /** `settle_pending_trades` commits once, at the end; an exception leaves the ledger as it was. */
  function SettlePending(l: Ledger, now: int, candles: Candles): Ledger
    requires Linked(l)
  {
    DoJobs(l, SettleJob, |l.trades|, now, candles).GetOr(l)
  }

  /** `sweep_stuck_orders`: the stuck, then the orphaned; again one commit. */
  function SweepStuck(l: Ledger, now: int, candles: Candles): Ledger
    requires Linked(l)
  {
    var swept := DoJobs(l, SweepJob, |l.trades|, now, candles);
    if swept.None? then l
    else DoJobs(swept.value, OrphanJob, |l.trades|, now, candles).GetOr(l)
  }

  // ---------- Order creation ----------

  datatype OrderRequest = OrderRequest(
    bot: nat,
    timeframe: Timeframe,
    forecast: Candle,
    amount: real,
    limit: Option<Price>,
    tp: Option<real>,
    sl: Option<real>,
    slippage: Option<real>,
    fok: bool,
    ceiling: Option<Price>,
    ttl: Option<nat>)

  datatype ApiError =
    | NotAuthorized | NotTrading | InsufficientBalance | BadSession | NoMarket | CeilingTooLow | BadBracket
    | CannotFill

  /** What the market shows: the best ask when validated, and the asks when filled. */
  datatype View = View(
    settlementAt: Option<int>,
    offset: nat,
    quote: Option<Price>,
    asks: Option<seq<Level>>,
    now: int)

  /**
   What the API pushes to the engine's queue. A prefilled message carries the average price and the
   shares bought already; times to live are seconds.
   */
  datatype QueueMessage = QueueMessage(
    bo: nat,
    side: OrderSide,
    price: Option<Price>,
    quantity: real,
    amount: Option<real>,
    limit: Option<Price>,
    slippage: Option<real>,
    tp: Option<real>,
    sl: Option<real>,
    timeframe: Timeframe,
    ttl: Option<nat>,
    offset: nat,
    settlementAt: Option<int>,
    prefilled: Option<(real, real)>)

  /** A LIMIT order for a budget: as many shares as it pays for at the limit. */
  function LimitMessage(bo: nat, req: OrderRequest, view: View, budget: real,
                        prefilled: Option<(real, real)>): QueueMessage
    requires req.limit.Some?
  {
    QueueMessage(bo, BUY, req.limit, Afford(budget, req.limit.value), Some(budget), req.limit, req.slippage, req.tp,
                 req.sl, req.timeframe, req.ttl, view.offset, view.settlementAt, prefilled)
  }

  /** A filled order whose bracket is to be watched. */
  function BracketMessage(bo: nat, req: OrderRequest, view: View, avg: real, shares: real): Option<QueueMessage> {
    if HasBracket(req)
    then Some(QueueMessage(bo, BUY, None, 0.0, None, None, None, req.tp, req.sl, req.timeframe, None, view.offset,
                           view.settlementAt, Some((avg, shares))))
    else None
  }

  function NewTrade(req: OrderRequest, amount: real, original: real, avg: Option<real>, shares: Option<real>,
                    fee: real, status: EngineStatus, view: View): Trade
  {
    Trade(req.bot, req.forecast, amount, Some(original), Pending, None, avg, shares, fee, status, req.limit,
          req.tp, req.sl, view.settlementAt, view.now, None, None, None, false)
  }

  /** Book the trade and charge the bot. */
  function Book(l: Ledger, t: Trade, charge: real): Ledger
    requires t.bot < |l.bots|
  {
    l.(trades := l.trades + [t],
       bots := l.bots[t.bot := l.bots[t.bot].(balance := l.bots[t.bot].balance - charge)])
  }

  predicate HasBracket(req: OrderRequest) {
    req.tp.Some? || req.sl.Some?
  }

  /** Every reason `create_bo` has to turn a request down before it tries to fill it. */
  function Validate(l: Ledger, req: OrderRequest, view: View): Option<ApiError> {
    if req.bot >= |l.bots| || !l.bots[req.bot].active then Some(NotAuthorized)
    else if l.bots[req.bot].status != ACTIVE then Some(NotTrading)
    else
      var balance := l.bots[req.bot].balance;
      if balance < req.amount then Some(InsufficientBalance)
      else if balance < req.amount + (if req.limit.None? then EstimateMaxTakerFee(req.amount) else 0.0)
      then Some(InsufficientBalance)
      else if view.settlementAt.None? then Some(BadSession)
      else if view.quote.None? then Some(NoMarket)
      else
        var quote := view.quote.value;
        if req.ceiling.Some? && req.ceiling.value < quote then Some(CeilingTooLow)
        else if req.sl.Some? && req.sl.value >= quote then Some(BadBracket)
        else if req.tp.Some? && req.tp.value <= quote then Some(BadBracket)
        else if Aggressive(req, view) && balance - req.amount < EstimateMaxTakerFee(req.amount)
        then Some(InsufficientBalance)
        else None
  }

  /** A limit at or above the best ask is filled at once as far as possible. */
  predicate Aggressive(req: OrderRequest, view: View) {
    req.limit.Some? && view.quote.Some? && req.limit.value >= view.quote.value
  }

  datatype Created = Created(ledger: Ledger, answer: Result<nat, ApiError>, queued: Option<QueueMessage>)

  function CreateAggressive(l: Ledger, req: OrderRequest, view: View): Created
    requires req.bot < |l.bots| && req.limit.Some?
  {
    if view.asks.None? || view.asks.value == [] then Created(l, Err(CannotFill), None)
    else
      var fill := LimitFillOf(view.asks.value, req.amount, req.limit.value).value;
      var fee := TakerFee(fill.levels);
      var rest := fill.remainingBudget;
      var status := if fill.shares > 0.0 && rest > 0.0 then PartlyFilled
                    else if fill.shares > 0.0 then (if HasBracket(req) then Prefilled else NoEngine)
                    else Queued;
      var t := if fill.shares > 0.0
               then NewTrade(req, req.amount - rest, req.amount, Some(fill.avgPrice), Some(fill.shares), fee,
                             status, view)
               else NewTrade(req, req.amount, req.amount, None, None, fee, status, view);
      Created(Book(l, t, req.amount + Max(0.0, fee)), Ok(|l.trades|),
              if rest > 0.0
              then
                var bought := if fill.shares > 0.0 then Some((fill.avgPrice, fill.shares)) else None;
                Some(LimitMessage(|l.trades|, req, view, rest, bought))
              else BracketMessage(|l.trades|, req, view, fill.avgPrice, fill.shares))
  }

  function CreatePassive(l: Ledger, req: OrderRequest, view: View): Created
    requires req.bot < |l.bots| && req.limit.Some?
  {
    var t := NewTrade(req, req.amount, req.amount, None, None, 0.0, Queued, view);
    Created(Book(l, t, req.amount), Ok(|l.trades|),
            Some(LimitMessage(|l.trades|, req, view, req.amount, None)))
  }

  function CreateMarket(l: Ledger, req: OrderRequest, view: View): Created
    requires req.bot < |l.bots|
  {
    if view.asks.None? then Created(l, Err(CannotFill), None)
    else
      match MarketFill(view.asks.value, req.amount, req.slippage, None, req.fok, req.ceiling)
      case Err(_) => Created(l, Err(CannotFill), None)
      case Ok(fill) =>
        var cost := Cost(fill.levels);
        var spent := if cost < req.amount then cost else req.amount;
        var fee := TakerFee(fill.levels);
        var t := NewTrade(req, spent, spent, Some(fill.avgPrice), Some(fill.shares), fee,
                          if HasBracket(req) then Prefilled else NoEngine, view);
        Created(Book(l, t, spent + Max(0.0, fee)), Ok(|l.trades|),
                BracketMessage(|l.trades|, req, view, fill.avgPrice, fill.shares))
  }

  /** `create_bo`: any refusal leaves the ledger as it was. */
  function CreateOrder(l: Ledger, req: OrderRequest, view: View): Created {
    var refusal := Validate(l, req, view);
    if refusal.Some? then Created(l, Err(refusal.value), None)
    else if Aggressive(req, view) then CreateAggressive(l, req, view)
    else if req.limit.Some? then CreatePassive(l, req, view)
    else CreateMarket(l, req, view)
  }

  // ---------- Bots ----------

  /** Initial balances handed out to a user's active bots. */
  function Allocated(bots: seq<Bot>, user: nat): real {
    if bots == [] then 0.0
    else
      var last := bots[|bots| - 1];
      Allocated(bots[..|bots| - 1], user) + if last.owner == user && last.active then last.initial else 0.0
  }

  /** `create_bot`; None when refused. */
  function CreateBot(l: Ledger, user: nat, initial: real): Option<Ledger> {
    if user >= |l.users| || initial > l.users[user] - Allocated(l.bots, user) then None
    else Some(l.(bots := l.bots + [Bot(user, true, ACTIVE, initial, initial)]))
  }

  predicate HasPending(trades: seq<Trade>, bot: nat) {
    exists i :: 0 <= i < |trades| && trades[i].bot == bot && trades[i].result == Pending
  }

  /** `delete_bot`: its profit or loss goes back to the user's pool. */
  function DeleteBot(l: Ledger, user: nat, bot: nat): Option<Ledger> {
    if user >= |l.users| || bot >= |l.bots| || l.bots[bot].owner != user || !l.bots[bot].active
       || HasPending(l.trades, bot) then None
    else
      var b := l.bots[bot];
      Some(l.(bots := l.bots[bot := b.(active := false, status := DELETED, balance := 0.0)],
              users := l.users[user := l.users[user] + (b.balance - b.initial)]))
  }

  /** `adjust_bot_balance`. */
  function AdjustBot(l: Ledger, user: nat, bot: nat, newBalance: real): Option<Ledger> {
    if user >= |l.users| || bot >= |l.bots| || l.bots[bot].owner != user || !l.bots[bot].active then None
    else
      var b := l.bots[bot];
      var delta := newBalance - b.initial;
      if delta > 0.0 && delta > l.users[user] - Allocated(l.bots, user) then None
      else Some(l.(bots := l.bots[bot := b.(initial := newBalance, balance := b.balance + delta)]))
  }
}
