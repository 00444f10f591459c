/**
 A database session over the users, bots and trades, updated row by row by the handlers and
 committed or rolled back as a whole.
 */
module Database {
  import opened Prelude
  import opened Ladders
  import opened Orders
  import opened Fees
  import opened Walks
  import opened Ledger
  import opened LedgerProofs
  import opened UserBalances

  /** Recording a fill leaves its trade pending and its bot the same. */
  lemma RecordedSame(l: Ledger, m: FillMessage)
    requires Linked(l) && m.id < |l.trades| && l.trades[m.id].result == Pending
    ensures var r := RecordFill(l, m);
      && Linked(r) && |r.trades| == |l.trades| && |r.bots| == |l.bots|
      && r.trades[m.id].bot == l.trades[m.id].bot && r.trades[m.id].result == Pending
  {
  }

  // ---------- Counting what a job resolved ----------

  /** How many trades have left PENDING. */
  function CountLeft(before: seq<Trade>, after: seq<Trade>): nat
    requires |before| == |after|
  {
    if before == [] then 0
    else
      var n := |before| - 1;
      CountLeft(before[..n], after[..n]) + if before[n].result == Pending && after[n].result != Pending then 1 else 0
  }

  lemma NoneResolved()
    ensures CountLeft([], []) == 0
  {
  }

  lemma ResolvedSnoc(before: seq<Trade>, after: seq<Trade>, n: nat)
    requires n < |before| == |after|
    ensures CountLeft(before[..n + 1], after[..n + 1]) == CountLeft(before[..n], after[..n]) +
      if before[n].result == Pending && after[n].result != Pending then 1 else 0
  {
    assert before[..n + 1][..n] == before[..n] && after[..n + 1][..n] == after[..n];
  }

  lemma {:induction false} ResolvedChain(a: seq<Trade>, b: seq<Trade>, c: seq<Trade>)
    requires |a| == |b| == |c|
    requires forall i :: 0 <= i < |a| && a[i].result != Pending ==> b[i].result != Pending
    requires forall i :: 0 <= i < |a| && b[i].result != Pending ==> c[i].result != Pending
    ensures CountLeft(a, b) + CountLeft(b, c) == CountLeft(a, c)
  {
    if a != [] {
      var n := |a| - 1;
      ResolvedChain(a[..n], b[..n], c[..n]);
    }
  }

  lemma ResolvedTwice(a: Ledger, b: Ledger, c: Ledger)
    requires |a.trades| == |b.trades| == |c.trades| && Follows(a, b) && Follows(b, c)
    ensures CountLeft(a.trades, b.trades) + CountLeft(b.trades, c.trades) == CountLeft(a.trades, c.trades)
  {
    ResolvedChain(a.trades, b.trades, c.trades);
  }

  lemma LinkedTrade(l: Ledger, id: nat)
    requires Linked(l) && id < |l.trades|
    ensures l.trades[id].bot < |l.bots|
  {
  }

  lemma SameLength(l: Ledger, job: Job, now: int, candles: Candles)
    requires Linked(l)
    ensures var r := DoJobs(l, job, |l.trades|, now, candles);
      r.Some? ==> |r.value.trades| == |l.trades| && r.value.users == l.users
  {
  }

  lemma {:induction false} JobsStayFailed(l: Ledger, job: Job, m: nat, n: nat, now: int, candles: Candles)
    requires Linked(l) && m <= n <= |l.trades| && DoJobs(l, job, m, now, candles).None?
    ensures DoJobs(l, job, n, now, candles).None?
    decreases n
  {
    hide *;
    if m < n {
      JobsStayFailed(l, job, m, n - 1, now, candles);
      JobsUnfold(l, job, n, now, candles);
    }
  }

  lemma NoJobRows(stored: Ledger, l: Ledger, job: Job, now: int, candles: Candles)
    requires Linked(stored) && Linked(l)
    ensures JobRows(stored, l, job, 0, now, candles) == []
  {
  }

  lemma JobRowsUnfold(stored: Ledger, l: Ledger, job: Job, n: nat, now: int, candles: Candles)
    requires Linked(stored) && Linked(l) && 0 < n <= |l.trades|
    requires DoJobs(l, job, n - 1, now, candles).Some? && DoJobs(l, job, n, now, candles).Some?
    ensures JobRows(stored, l, job, n, now, candles) == JobRows(stored, l, job, n - 1, now, candles) +
      Told(stored, DoJobs(l, job, n - 1, now, candles).value, DoJobs(l, job, n, now, candles).value, n - 1, None)
  {
    hide DoJobs, Told;
  }

  lemma NotTold(stored: Ledger, l: Ledger, l': Ledger, id: nat)
    requires Linked(stored) && id < |l.trades| == |l'.trades|
    requires !(l.trades[id].result == Pending && l'.trades[id].result != Pending)
    ensures Told(stored, l, l', id, None) == []
  {
  }

  /** After one trade of a job: the counts, the trades not reached yet, and no change without a payment. */
  lemma AfterOne(l0: Ledger, l: Ledger, job: Job, id: nat, now: int, candles: Candles, l': Ledger)
    requires Linked(l) && id < |l.trades| == |l0.trades| && DoJob(l, job, id, now, candles) == Some(l')
    requires l.trades[id..] == l0.trades[id..]
    ensures |l'.trades| == |l.trades| && Linked(l')
    ensures l'.trades[id + 1..] == l0.trades[id + 1..]
    ensures CountLeft(l0.trades[..id + 1], l'.trades[..id + 1]) == CountLeft(l0.trades[..id], l.trades[..id]) +
      if l.trades[id].result == Pending && l'.trades[id].result != Pending then 1 else 0
    ensures !(l.trades[id].result == Pending && l'.trades[id].result != Pending) ==> l' == l
  {
    DoJobEffect(l, job, id, now, candles);
    hide DoJob, CountLeft, DoJobs;
    JobFollows(l, id, l');
    FollowsLinked(l, l');
    assert l'.trades[..id] == l.trades[..id];
    assert l.trades[id] == l.trades[id..][0] && l0.trades[id] == l0.trades[id..][0];
    ResolvedSnoc(l0.trades, l'.trades, id);
    forall i | id < i < |l.trades| ensures l'.trades[i] == l0.trades[i] {
      assert l.trades[i] == l.trades[id..][i - id] && l0.trades[i] == l0.trades[id..][i - id];
    }
  }

  lemma LimitFillFails(asks: seq<Level>, amount: real, limit: Price)
    ensures LimitFillOf(asks, amount, limit).Err? <==> asks == []
  {
  }

  class Session {
    var users: seq<real>
    var bots: seq<Bot>
    var trades: seq<Trade>
    var history: seq<HistoryRow>
    var snapshots: seq<Snapshot>
    /** The rows as last written: what queries that add up columns see, since nothing is flushed early. */
    var stored: Ledger
    var storedHistory: seq<HistoryRow>

    function Rows(): Ledger
      reads this
    {
      Ledger(users, bots, trades)
    }

    /** Nothing is waiting to be committed. */
    ghost predicate Clean()
      reads this
    {
      Rows() == stored && history == storedHistory && Linked(stored)
    }

    constructor (users: seq<real>)
      ensures Clean() && Rows() == Start(users) && history == [] && snapshots == []
    {
      this.users, bots, trades, history, snapshots := users, [], [], [], [];
      stored, storedHistory := Start(users), [];
    }

    method Commit()
      requires Linked(Rows())
      modifies this`stored, this`storedHistory
      ensures Clean()
    {
      stored, storedHistory := Rows(), history;
    }

    method Rollback()
      requires Linked(stored)
      modifies this`users, this`bots, this`trades, this`history
      ensures Clean()
    {
      users, bots, trades, history := stored.users, stored.bots, stored.trades, storedHistory;
    }

    /** `record_user_balance`. */
    method RecordUserBalance(bot: nat, trade: nat, pnl: Option<real>)
      requires Linked(stored)
      modifies this`history
      ensures history == old(history) + Row(stored, bot, trade, pnl)
    {
      hide Sum;
      if bot >= |stored.bots| {
        return;
      }
      var user := stored.bots[bot].owner;
      if !HasBots(stored.bots, user) {
        return;
      }
      var profit := Sum(stored.trades, stored.bots, user, Profits);
      history := history + [HistoryRow(user, stored.users[user] + profit, trade, bot, pnl)];
    }

    method Pay(b: nat, money: real)
      requires b < |bots|
      modifies this`bots
      ensures bots == old(bots)[b := old(bots)[b].(balance := old(bots)[b].balance + money)]
    {
      var bot := bots[b];
      bots := bots[b := bot.(balance := bot.balance + money)];
    }

    /** Cancel a trade with a full refund, as every handler that gives up on a trade does. */
    method CancelWithRefund(id: nat, status: EngineStatus, pnl: Option<real>)
      requires Linked(stored) && id < |trades| && trades[id].bot < |bots|
      modifies this`bots, this`trades, this`history
      ensures Rows() == RefundTrade(old(Rows()), id, status)
      ensures history == old(history) + Row(stored, old(trades)[id].bot, id, pnl)
    {
      var bo := trades[id];
      bo := bo.(result := Cancelled, profit := Some(0.0));
      bo := bo.(engineStatus := status);
      trades := trades[id := bo];
      Pay(bo.bot, bo.amount);
      RecordUserBalance(bo.bot, id, pnl);
    }

    /** The profit formula: by the bracket exit, by the candle, or none for want of fill data. */
    method ProfitOf(bo: Trade, open: real, close: real) returns (s: Settlement)
      ensures s == Settle(bo, open, close)
    {
      hide Worth;
      var direction := if close > open then GREEN else if close < open then RED else GREEN;
      if bo.exitTrigger in {Some(TP), Some(SL)} && bo.exitPrice.Some? && bo.exitFilled.Some? {
        if bo.avgPrice.None? {
          return Raises;
        }
        var profit := Worth(bo.exitFilled.value, bo.exitPrice.value - bo.avgPrice.value);
        if bo.shares.Some? && bo.exitFilled.value < bo.shares.value {
          var rest := bo.shares.value - bo.exitFilled.value;
          if direction == bo.forecast {
            profit := profit + Worth(rest, 1.0 - bo.avgPrice.value);
          } else {
            profit := profit - Worth(rest, bo.avgPrice.value);
          }
        }
        return ByProfit(if profit >= 0.0 then Win else Loss, profit);
      }
      if bo.avgPrice.None? || bo.shares.None? {
        return Refund;
      }
      if direction == bo.forecast {
        return ByProfit(Win, Worth(bo.shares.value, 1.0 - bo.avgPrice.value));
      }
      return ByProfit(Loss, -Worth(bo.shares.value, bo.avgPrice.value));
    }

    /** `_settle_single_trade`. */
    method SettleSingleTrade(id: nat, open: real, close: real) returns (raised: bool)
      requires Linked(stored) && id < |trades| && trades[id].bot < |bots| && trades[id].result == Pending
      modifies this`bots, this`trades, this`history
      ensures raised <==> SettleTrade(old(Rows()), id, open, close).None?
      ensures raised ==> Rows() == old(Rows()) && history == old(history)
      ensures !raised ==>
        && Rows() == SettleTrade(old(Rows()), id, open, close).value && trades[id].result != Pending
        && history == old(history) + Told(stored, old(Rows()), Rows(), id, None)
    {
      hide Row;
      var bo := trades[id];
      var s := ProfitOf(bo, open, close);
      SettlePaysOut(Rows(), id, open, close);
      hide Settle;
      match s
      case Raises => raised := true;
      case Refund =>
        CancelWithRefund(id, bo.engineStatus, None);
        raised := false;
      case ByProfit(result, profit) =>
        trades := trades[id := bo.(result := result, profit := Some(profit))];
        Pay(bo.bot, bo.amount + profit);
        if bots[bo.bot].balance <= 0.0 {
          bots := bots[bo.bot := bots[bo.bot].(status := PAUSED)];
        }
        RecordUserBalance(bo.bot, id, Some(profit));
        raised := false;
    }

    // ---------- Stream handlers ----------

    /** The fill is recorded, and a passive order earns its rebate. */
    method RecordOrderFill(m: FillMessage)
      requires Clean() && m.id < |trades| && trades[m.id].result == Pending
      modifies this
      ensures Clean() && Rows() == RecordFill(old(Rows()), m)
      ensures history == old(history) && snapshots == old(snapshots)
    {
      hide MakerRebate;
      var bo := trades[m.id];
      bo := bo.(avgPrice := Some(m.avg), shares := Some(m.filled));
      if m.status == Status.PARTIAL || m.status == Status.FILLED {
        bo := bo.(engineStatus := if m.status == Status.PARTIAL then PartlyFilled else Filled);
      }
      if m.levels.Some? && bo.entryFee <= 0.0 {
        var rebate := MakerRebateFromLevels(m.levels.value);
        if rebate > 0.0 {
          Pay(bo.bot, rebate);
          bo := bo.(entryFee := bo.entryFee - rebate);
        }
      }
      trades := trades[m.id := bo];
      assert bots == RecordFill(old(Rows()), m).bots;
      Commit();
    }

    /** A committed trade is settled in a transaction of its own. */
    method SettleLateFill(id: nat, open: real, close: real)
      requires Clean() && id < |trades| && trades[id].result == Pending
      modifies this
      ensures Clean() && Rows() == SettleTrade(old(Rows()), id, open, close).GetOr(old(Rows()))
      ensures history == old(history) + Told(old(stored), old(Rows()), Rows(), id, None)
      ensures snapshots == old(snapshots)
    {
      hide SettleTrade, Row;
      var raised := SettleSingleTrade(id, open, close);
      if raised {
        Rollback();
      } else {
        SettlePaysOut(stored, id, open, close);
        JobFollows(stored, id, Rows());
        FollowsLinked(stored, Rows());
        Commit();
      }
    }

    /** `_handle_order_fill`; `candle` is what the exchange answers for a late fill. */
    method HandleOrderFill(m: FillMessage, now: int, candle: Option<(real, real)>)
      requires Clean()
      modifies this
      ensures Clean() && Rows() == HandleFill(old(Rows()), m, now, candle) && snapshots == old(snapshots)
      ensures m.id < |old(trades)| ==>
        history == old(history) + Told(RecordFill(old(Rows()), m), old(Rows()), Rows(), m.id, None)
    {
      hide Row;
      if m.id >= |trades| || trades[m.id].result != Pending {
        return;
      }
      RecordOrderFill(m);
      var bo := trades[m.id];
      RecordedSame(old(Rows()), m);
      hide RecordFill, SettleTrade;
      if m.status == Status.FILLED && bo.settlementAt.Some? && bo.settlementAt.value <= now && candle.Some? {
        SettleLateFill(m.id, candle.value.0, candle.value.1);
      }
    }

    /** `_handle_order_cancel`. */
    method HandleOrderCancel(m: CancelMessage)
      requires Clean()
      modifies this
      ensures Clean() && Rows() == HandleCancel(old(Rows()), m) && snapshots == old(snapshots)
      ensures history == old(history) + Told(old(stored), old(Rows()), Rows(), m.id, Some(0.0))
    {
      hide Worth, Row;
      if m.id >= |trades| || trades[m.id].result != Pending {
        return;
      }
      if m.filled > 0.0 && m.avg > 0.0 {
        var bo := trades[m.id];
        if bo.originalAmount.None? {
          bo := bo.(originalAmount := Some(bo.amount));
        }
        var cost := Worth(m.filled, m.avg);
        var refund := Max(0.0, bo.amount - cost);
        bo := bo.(avgPrice := Some(m.avg), shares := Some(m.filled), amount := cost, engineStatus := Canceled);
        trades := trades[m.id := bo];
        if refund > 0.0 {
          Pay(bo.bot, refund);
        }
        assert bots == HandleCancel(old(Rows()), m).bots;
      } else {
        CancelWithRefund(m.id, Canceled, Some(0.0));
      }
      Commit();
    }

    /** `_handle_bracket_exit`. */
    method HandleBracketExit(m: ExitMessage)
      requires Clean()
      modifies this
      ensures Clean() && Rows() == HandleExit(old(Rows()), m)
      ensures history == old(history) && snapshots == old(snapshots)
    {
      if m.id < |trades| && trades[m.id].exitTrigger.None? && trades[m.id].result == Pending {
        var bo := trades[m.id];
        bo := bo.(exitTrigger := Some(m.trigger), exitPrice := Some(m.price), exitFilled := Some(m.filled));
        bo := bo.(engineStatus := Filled);
        trades := trades[m.id := bo];
        Commit();
      }
    }

    /** `_handle_market_resolved`. */
    method HandleMarketResolved(ids: set<nat>)
      requires Clean()
      modifies this
      ensures Clean() && Rows() == HandleResolved(old(Rows()), ids)
      ensures history == old(history) && snapshots == old(snapshots)
    {
      var id := 0;
      ghost var goal := HandleResolved(old(Rows()), ids).trades;
      while id < |trades|
        invariant id <= |trades| == |goal| && users == old(users) && bots == old(bots)
        invariant history == old(history) && snapshots == old(snapshots)
        invariant stored == old(stored) && storedHistory == old(storedHistory)
        invariant trades[..id] == goal[..id] && trades[id..] == old(trades)[id..]
      {
        var bo := trades[id];
        if id in ids && bo.result == Pending && !bo.closed {
          bo := bo.(tp := None, sl := None);
          bo := bo.(closed := true, engineStatus := Resolved);
        }
        assert bo == goal[id];
        trades := trades[id := bo];
        id := id + 1;
      }
      assert trades == goal;
      Commit();
    }

    // ---------- The scheduler ----------

    /** One trade of a scheduled job. */
    method HandleOne(job: Job, id: nat, now: int, candles: Candles) returns (raised: bool, handled: bool)
      requires Linked(stored) && id < |trades| && trades[id].bot < |bots|
      modifies this`bots, this`trades, this`history
      ensures raised <==> DoJob(old(Rows()), job, id, now, candles).None?
      ensures !raised ==>
        && Rows() == DoJob(old(Rows()), job, id, now, candles).value
        && history == old(history) + Told(stored, old(Rows()), Rows(), id, None)
        && (handled <==> old(trades)[id].result == Pending && trades[id].result != Pending)
    {
      hide Row, Settle;
      raised, handled := false, false;
      var bo := trades[id];
      match job
      case SettleJob =>
        if Due(bo, now) && !bo.closed {
          if bo.engineStatus == Queued {
            CancelWithRefund(id, Canceled, None);
            handled := true;
          } else if id in candles {
            raised := SettleSingleTrade(id, candles[id].0, candles[id].1);
            handled := !raised;
          }
        }
      case SweepJob =>
        if Due(bo, now - STUCK_AFTER) {
          if id in candles {
            raised := SettleSingleTrade(id, candles[id].0, candles[id].1);
          } else {
            CancelWithRefund(id, bo.engineStatus, None);
          }
          handled := !raised;
        }
      case OrphanJob =>
        if Orphaned(bo, now) {
          CancelWithRefund(id, bo.engineStatus, None);
          handled := true;
        }
    }

    /** A scheduled job over all trades, stopping at the first exception. */
    method RunJob(job: Job, now: int, candles: Candles) returns (raised: bool, resolved: nat)
      requires Linked(stored) && Linked(Rows())
      modifies this`bots, this`trades, this`history
      ensures raised <==> DoJobs(old(Rows()), job, |old(trades)|, now, candles).None?
      ensures !raised ==>
        && Linked(Rows()) && DoJobs(old(Rows()), job, |old(trades)|, now, candles) == Some(Rows())
        && history == old(history) + JobRows(stored, old(Rows()), job, |old(trades)|, now, candles)
        && resolved == CountLeft(old(trades), trades)
        && (resolved == 0 ==> Rows() == old(Rows()) && history == old(history))
    {
      hide DoJobs, DoJob, JobRows, Told, CountLeft, Linked;
      ghost var l0 := old(Rows());
      NoJobs(l0, job, now, candles);
      NoJobRows(stored, l0, job, now, candles);
      raised, resolved := false, 0;
      var id := 0;
      NoneResolved();
      while id < |trades|
        invariant id <= |trades| == |l0.trades| && Linked(Rows())
        invariant !raised && DoJobs(l0, job, id, now, candles) == Some(Rows())
        invariant history == old(history) + JobRows(stored, l0, job, id, now, candles)
        invariant resolved == CountLeft(l0.trades[..id], trades[..id])
        invariant trades[id..] == l0.trades[id..]
        invariant resolved == 0 ==> Rows() == l0 && history == old(history)
      {
        ghost var before := Rows();
        LinkedTrade(before, id);
        var handled;
        raised, handled := HandleOne(job, id, now, candles);
        JobsUnfold(l0, job, id + 1, now, candles);
        if raised {
          JobsStayFailed(l0, job, id + 1, |l0.trades|, now, candles);
          return;
        }
        AfterOne(l0, before, job, id, now, candles, Rows());
        JobRowsUnfold(stored, l0, job, id + 1, now, candles);
        if handled {
          resolved := resolved + 1;
        } else {
          NotTold(stored, before, Rows(), id);
        }
        id := id + 1;
      }
      assert trades[..id] == trades && l0.trades[..id] == l0.trades;
    }

    /** `settle_pending_trades`. */
    method SettlePendingTrades(now: int, candles: Candles)
      requires Clean()
      modifies this
      ensures Clean() && Rows() == SettlePending(old(Rows()), now, candles) && snapshots == old(snapshots)
      ensures var n := |old(trades)|;
        history == old(history) +
          if DoJobs(old(Rows()), SettleJob, n, now, candles).None? then []
          else JobRows(old(stored), old(Rows()), SettleJob, n, now, candles)
    {
      hide DoJobs, JobRows, CountLeft;
      var raised, _ := RunJob(SettleJob, now, candles);
      if raised {
        Rollback();
      } else {
        Commit();
      }
    }

    /** `sweep_stuck_orders`: how many trades were resolved, or None when it raised. */
    method SweepStuckOrders(now: int, candles: Candles) returns (count: Option<nat>)
      requires Clean()
      modifies this
      ensures Clean() && Rows() == SweepStuck(old(Rows()), now, candles) && snapshots == old(snapshots)
      ensures count.Some? ==> count.value == CountLeft(old(trades), trades)
      ensures count.None? ==> history == old(history)
      ensures count.Some? ==>
        && var swept := DoJobs(old(Rows()), SweepJob, |old(trades)|, now, candles);
        && swept.Some?
        && history == old(history) + JobRows(old(stored), old(Rows()), SweepJob, |old(trades)|, now, candles) +
             JobRows(old(stored), swept.value, OrphanJob, |swept.value.trades|, now, candles)
    {
      hide DoJobs, JobRows, CountLeft, Linked;
      ghost var l0 := Rows();
      var raised, stuck := RunJob(SweepJob, now, candles);
      if raised {
        Rollback();
        return None;
      }
      ghost var l1 := Rows();
      JobsFollow(l0, SweepJob, |l0.trades|, now, candles);
      var orphaned;
      SameLength(l0, SweepJob, now, candles);
      raised, orphaned := RunJob(OrphanJob, now, candles);
      if raised {
        Rollback();
        return None;
      }
      JobsFollow(l1, OrphanJob, |l1.trades|, now, candles);
      SameLength(l1, OrphanJob, now, candles);
      ResolvedTwice(l0, l1, Rows());
      count := Some(stuck + orphaned);
      if stuck + orphaned > 0 {
        Commit();
      }
    }

    // ---------- Order creation ----------

    /** The checks `create_bo` makes once the amount is set aside; `rest` is what the bot has left. */
    method CheckOrder(req: OrderRequest, view: View, rest: real) returns (refusal: Option<ApiError>)
      ensures refusal ==
        if view.settlementAt.None? then Some(BadSession)
        else if view.quote.None? then Some(NoMarket)
        else if req.ceiling.Some? && req.ceiling.value < view.quote.value then Some(CeilingTooLow)
        else if req.sl.Some? && req.sl.value >= view.quote.value then Some(BadBracket)
        else if req.tp.Some? && req.tp.value <= view.quote.value then Some(BadBracket)
        else if Aggressive(req, view) && rest < EstimateMaxTakerFee(req.amount) then Some(InsufficientBalance)
        else None
    {
      if view.settlementAt.None? {
        return Some(BadSession);
      }
      if view.quote.None? {
        return Some(NoMarket);
      }
      var quote := view.quote.value;
      if req.ceiling.Some? && req.ceiling.value < quote {
        return Some(CeilingTooLow);
      }
      if req.sl.Some? && req.sl.value >= quote {
        return Some(BadBracket);
      }
      if req.tp.Some? && req.tp.value <= quote {
        return Some(BadBracket);
      }
      if req.limit.Some? && req.limit.value >= quote {
        if rest < EstimateMaxTakerFee(req.amount) {
          return Some(InsufficientBalance);
        }
      }
      return None;
    }

    /** `create_bo`: the amount is debited first and given back on every refusal. */
    method CreateBo(req: OrderRequest, view: View) returns (answer: Result<nat, ApiError>, queued: Option<QueueMessage>)
      requires Clean()
      modifies this
      ensures Clean() && Created(Rows(), answer, queued) == CreateOrder(old(Rows()), req, view)
      ensures history == old(history) && snapshots == old(snapshots)
    {
      hide CreateAggressive, CreatePassive, CreateMarket, EstimateMaxTakerFee;
      if req.bot >= |bots| || !bots[req.bot].active {
        return Err(NotAuthorized), None;
      }
      if bots[req.bot].status != ACTIVE {
        return Err(NotTrading), None;
      }
      var balance := bots[req.bot].balance;
      if balance < req.amount {
        return Err(InsufficientBalance), None;
      }
      var maxFee := if req.limit.None? then EstimateMaxTakerFee(req.amount) else 0.0;
      if balance < req.amount + maxFee {
        return Err(InsufficientBalance), None;
      }
      Pay(req.bot, -req.amount);
      var refusal := CheckOrder(req, view, bots[req.bot].balance);
      if refusal.Some? {
        Pay(req.bot, req.amount);
        assert bots == old(bots);
        return Err(refusal.value), None;
      }
      hide Validate;
      if req.limit.Some? && req.limit.value >= view.quote.value {
        answer, queued := FillAggressive(old(Rows()), req, view);
      } else if req.limit.Some? {
        answer, queued := QueuePassive(old(Rows()), req, view);
      } else {
        answer, queued := FillMarket(old(Rows()), req, view);
      }
    }

    /** The amount has been debited from `before`, and nothing else has happened. */
    ghost predicate Debited(before: Ledger, req: OrderRequest)
      reads this
    {
      && stored == before && Linked(before) && history == storedHistory && req.bot < |before.bots|
      && users == before.users && trades == before.trades
      && bots == before.bots[req.bot := before.bots[req.bot].(balance := before.bots[req.bot].balance - req.amount)]
    }

    method Insert(t: Trade)
      modifies this`trades
      ensures trades == old(trades) + [t]
    {
      trades := trades + [t];
    }

    method FillAggressive(ghost before: Ledger, req: OrderRequest, view: View)
      returns (answer: Result<nat, ApiError>, queued: Option<QueueMessage>)
      requires Debited(before, req) && req.limit.Some?
      modifies this
      ensures Clean() && Created(Rows(), answer, queued) == CreateAggressive(before, req, view)
      ensures history == old(history) && snapshots == old(snapshots)
    {
      hide TakerFee, LimitFillOf;
      var r := FillLimitFromSnapshot(view.asks, req.amount, req.limit.value);
      LimitFillFails(view.asks.GetOr([]), req.amount, req.limit.value);
      if r.Err? {
        Pay(req.bot, req.amount);
        assert bots == before.bots;
        return Err(CannotFill), None;
      }
      var fill := r.value;
      var fee := TakerFeeFromLevels(fill.levels);
      if fee > 0.0 {
        Pay(req.bot, -fee);
      }
      var status := Queued;
      if fill.shares > 0.0 {
        status := if fill.remainingBudget > 0.0 then PartlyFilled else if HasBracket(req) then Prefilled else NoEngine;
      }
      answer := Ok(|trades|);
      if fill.shares > 0.0 {
        Insert(NewTrade(req, req.amount - fill.remainingBudget, req.amount, Some(fill.avgPrice), Some(fill.shares),
                        fee, status, view));
      } else {
        Insert(NewTrade(req, req.amount, req.amount, None, None, fee, status, view));
      }
      assert bots == CreateAggressive(before, req, view).ledger.bots;
      Commit();
      if fill.remainingBudget > 0.0 {
        var bought := if fill.shares > 0.0 then Some((fill.avgPrice, fill.shares)) else None;
        queued := Some(LimitMessage(answer.value, req, view, fill.remainingBudget, bought));
      } else {
        queued := BracketMessage(answer.value, req, view, fill.avgPrice, fill.shares);
      }
    }

    method QueuePassive(ghost before: Ledger, req: OrderRequest, view: View)
      returns (answer: Result<nat, ApiError>, queued: Option<QueueMessage>)
      requires Debited(before, req) && req.limit.Some?
      modifies this
      ensures Clean() && Created(Rows(), answer, queued) == CreatePassive(before, req, view)
      ensures history == old(history) && snapshots == old(snapshots)
    {
      answer := Ok(|trades|);
      Insert(NewTrade(req, req.amount, req.amount, None, None, 0.0, Queued, view));
      Commit();
      queued := Some(LimitMessage(answer.value, req, view, req.amount, None));
    }

    /** Give back what a MARKET order did not spend, and take the fee. */
    method ChargeMarket(ghost before: Ledger, req: OrderRequest, cost: real, fee: real) returns (spent: real)
      requires Debited(before, req)
      modifies this`bots
      ensures spent == if cost < req.amount then cost else req.amount
      ensures bots == before.bots[req.bot := before.bots[req.bot].(
                balance := before.bots[req.bot].balance - (spent + Max(0.0, fee)))]
    {
      spent := req.amount;
      if cost < req.amount {
        Pay(req.bot, req.amount - cost);
        spent := cost;
      }
      if fee > 0.0 {
        Pay(req.bot, -fee);
      }
      assert bots[req.bot].balance == before.bots[req.bot].balance - (spent + Max(0.0, fee));
      assert bots == before.bots[req.bot := bots[req.bot]];
    }

    method FillMarket(ghost before: Ledger, req: OrderRequest, view: View)
      returns (answer: Result<nat, ApiError>, queued: Option<QueueMessage>)
      requires Debited(before, req)
      modifies this
      ensures Clean() && Created(Rows(), answer, queued) == CreateMarket(before, req, view)
      ensures history == old(history) && snapshots == old(snapshots)
    {
      hide TakerFee, MarketFill, Cost;
      var r := FillMarketFromSnapshot(view.asks, req.amount, req.slippage, None, req.fok, req.ceiling);
      if r.Err? {
        Pay(req.bot, req.amount);
        assert bots == before.bots;
        return Err(CannotFill), None;
      }
      var fill := r.value;
      var fee := TakerFeeFromLevels(fill.levels);
      var spent := ChargeMarket(before, req, Cost(fill.levels), fee);
      answer := Ok(|trades|);
      Insert(NewTrade(req, spent, spent, Some(fill.avgPrice), Some(fill.shares), fee,
                      if HasBracket(req) then Prefilled else NoEngine, view));
      queued := BracketMessage(answer.value, req, view, fill.avgPrice, fill.shares);
      Commit();
    }

    // ---------- Bots and snapshots ----------

    /** `create_bot`: whether it was granted. */
    method NewBot(user: nat, initial: real) returns (ok: bool)
      requires Clean()
      modifies this
      ensures Clean() && ok == CreateBot(old(Rows()), user, initial).Some?
      ensures Rows() == CreateBot(old(Rows()), user, initial).GetOr(old(Rows()))
      ensures history == old(history) && snapshots == old(snapshots)
    {
      if user >= |users| || initial > users[user] - Allocated(bots, user) {
        return false;
      }
      bots := bots + [Bot(user, true, ACTIVE, initial, initial)];
      Commit();
      ok := true;
    }

    /** `delete_bot`. */
    method RemoveBot(user: nat, bot: nat) returns (ok: bool)
      requires Clean()
      modifies this
      ensures Clean() && ok == DeleteBot(old(Rows()), user, bot).Some?
      ensures Rows() == DeleteBot(old(Rows()), user, bot).GetOr(old(Rows()))
      ensures history == old(history) && snapshots == old(snapshots)
    {
      hide HasPending;
      if user >= |users| || bot >= |bots| || bots[bot].owner != user || !bots[bot].active || HasPending(trades, bot) {
        return false;
      }
      var b := bots[bot];
      var refund := b.balance;
      b := b.(active := false, status := DELETED, balance := 0.0);
      bots := bots[bot := b];
      var pnl := refund - b.initial;
      if pnl != 0.0 {
        users := users[user := users[user] + pnl];
      }
      assert users == DeleteBot(old(Rows()), user, bot).value.users;
      Commit();
      ok := true;
    }

    /** `adjust_bot_balance`. */
    method AdjustBotBalance(user: nat, bot: nat, newBalance: real) returns (ok: bool)
      requires Clean()
      modifies this
      ensures Clean() && ok == AdjustBot(old(Rows()), user, bot, newBalance).Some?
      ensures Rows() == AdjustBot(old(Rows()), user, bot, newBalance).GetOr(old(Rows()))
      ensures history == old(history) && snapshots == old(snapshots)
    {
      if user >= |users| || bot >= |bots| || bots[bot].owner != user || !bots[bot].active {
        return false;
      }
      var delta := newBalance - bots[bot].initial;
      if delta > 0.0 {
        if delta > users[user] - Allocated(bots, user) {
          return false;
        }
      }
      bots := bots[bot := bots[bot].(initial := newBalance, balance := bots[bot].balance + delta)];
      Commit();
      ok := true;
    }

    /** `snapshot_all_user_balances`; `enabled` are the active users. */
    method SnapshotAllUserBalances(enabled: set<nat>, candle: Option<set<nat>>) returns (count: nat)
      requires Clean()
      modifies this`snapshots
      ensures snapshots == old(snapshots) + Snapshots(Rows(), old(snapshots), enabled, candle, |users|)
      ensures count == |snapshots| - |old(snapshots)|
    {
      hide Sum, Held, Allocated, CandleProfit, HasBots;
      count := 0;
      var previous := snapshots;
      for user := 0 to |users|
        invariant snapshots == previous + Snapshots(Rows(), previous, enabled, candle, user)
        invariant count == |snapshots| - |previous|
      {
        if user in enabled {
          var botBalance := Held(bots, user);
          var available := users[user] - Allocated(bots, user);
          var balance := botBalance + available;
          var prev := Latest(previous, user);
          var sessionPnl, prevBalance, botPnl := None, None, None;
          if prev.Some? {
            prevBalance := Some(prev.value.balance);
            sessionPnl := Some(balance - prev.value.balance);
          }
          if candle.Some? && HasBots(bots, user) {
            botPnl := Some(CandleProfit(trades, bots, user, candle.value));
          }
          snapshots := snapshots + [Snapshot(user, balance, botBalance, available, sessionPnl, prevBalance, botPnl)];
          count := count + 1;
        }
      }
    }
  }
}
