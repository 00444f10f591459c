/** What the scheduled settlement and the sweeper of stuck orders do to each trade, and when they fail. */
module Scheduler {
  import opened Prelude
  import Orders
  import opened Ledger
  import opened LedgerProofs

  // ---------- Each trade on its own ----------

  function Refunded(t: Trade, status: EngineStatus): Trade {
    t.(result := Cancelled, profit := Some(0.0), engineStatus := status)
  }

  /** A trade settled by its candle; None when its entry price is missing. */
  function Finish(t: Trade, open: real, close: real): Option<Trade> {
    match Settle(t, open, close)
    case Raises => None
    case Refund => Some(Refunded(t, t.engineStatus))
    case ByProfit(result, profit) => Some(t.(result := result, profit := Some(profit)))
  }

  /** What a job makes of one trade, with no regard to any other trade or bot. */
  function Handled(t: Trade, job: Job, now: int, candle: Option<(real, real)>): Option<Trade> {
    match job
    case SettleJob =>
      if !Due(t, now) || t.closed then Some(t)
      else if t.engineStatus == Queued then Some(Refunded(t, Canceled))
      else if candle.None? then Some(t)
      else Finish(t, candle.value.0, candle.value.1)
    case SweepJob =>
      if !Due(t, now - STUCK_AFTER) then Some(t)
      else if candle.None? then Some(Refunded(t, t.engineStatus))
      else Finish(t, candle.value.0, candle.value.1)
    case OrphanJob => Some(if Orphaned(t, now) then Refunded(t, t.engineStatus) else t)
  }

  function CandleOf(candles: Candles, id: nat): Option<(real, real)> {
    if id in candles then Some(candles[id]) else None
  }

  lemma DoJobHandles(l: Ledger, job: Job, id: nat, now: int, candles: Candles)
    requires id < |l.trades| && l.trades[id].bot < |l.bots|
    ensures var r, t' := DoJob(l, job, id, now, candles), Handled(l.trades[id], job, now, CandleOf(candles, id));
      && (r.Some? <==> t'.Some?)
      && (r.Some? ==> r.value.trades == l.trades[id := t'.value])
  {
    hide Settle;
  }

  /**
   A job over many trades handles each as if it were alone, in whatever order they come; it fails
   exactly when one of them fails.
   */
  lemma {:induction false} JobsHandleEach(l: Ledger, job: Job, n: nat, now: int, candles: Candles)
    requires Linked(l) && n <= |l.trades|
    ensures var r := DoJobs(l, job, n, now, candles);
      && (r.Some? <==> forall i :: 0 <= i < n ==> Handled(l.trades[i], job, now, CandleOf(candles, i)).Some?)
      && (r.Some? ==>
            && |r.value.trades| == |l.trades|
            && (forall i :: 0 <= i < n ==>
                  Handled(l.trades[i], job, now, CandleOf(candles, i)) == Some(r.value.trades[i]))
            && (forall i :: n <= i < |l.trades| ==> r.value.trades[i] == l.trades[i]))
  {
    hide *;
    if n == 0 {
      NoJobs(l, job, now, candles);
    } else {
      JobsUnfold(l, job, n, now, candles);
      JobsHandleEach(l, job, n - 1, now, candles);
      var prev := DoJobs(l, job, n - 1, now, candles);
      if prev.Some? {
        DoJobHandles(prev.value, job, n - 1, now, candles);
      }
    }
  }

  // ---------- When a batch fails ----------

  /** A pending trade whose settlement time has come by `time`. */
  predicate Awaits(t: Trade, time: int) {
    t.result == Pending && t.settlementAt.Some? && t.settlementAt.value <= time
  }

  /** A pending trade without a settlement time, two hours old. */
  predicate Abandoned(t: Trade, now: int) {
    t.result == Pending && t.settlementAt.None? && now - t.createdAt >= 7_200_000_000
  }

  /** Ten minutes, after which a trade that should have settled counts as stuck. */
  const TEN_MINUTES: int := 600_000_000

  /** A take-profit or stop-loss was recorded but no entry price ever was. */
  predicate Priceless(t: Trade) {
    && (t.exitTrigger == Some(Orders.TP) || t.exitTrigger == Some(Orders.SL)) && t.exitPrice.Some? && t.exitFilled.Some?
    && t.avgPrice.None?
  }

  lemma FailsWhenPriceless(t: Trade, job: Job, now: int, candle: Option<(real, real)>)
    ensures Handled(t, job, now, candle).None? <==>
      && candle.Some? && Priceless(t)
      && ((job == SettleJob && Awaits(t, now) && !t.closed && t.engineStatus != Queued) ||
          (job == SweepJob && Awaits(t, now - TEN_MINUTES)))
  {
  }

  /** The sweep fails for every trade when one stuck trade with a candle has no entry price. */
  predicate Blocked(l: Ledger, now: int, candles: Candles) {
    exists i :: 0 <= i < |l.trades| && i in candles && Priceless(l.trades[i]) && Awaits(l.trades[i], now - TEN_MINUTES)
  }

  predicate NoneLeft(l: Ledger, now: int) {
    forall i :: 0 <= i < |l.trades| ==> !Awaits(l.trades[i], now - TEN_MINUTES) && !Abandoned(l.trades[i], now)
  }

  lemma SweptTrade(t: Trade, now: int, candle: Option<(real, real)>)
    ensures var t' := Handled(t, SweepJob, now, candle);
      t'.Some? ==>
        && var t'' := Handled(t'.value, OrphanJob, now, candle).value;
        && !Awaits(t'', now - TEN_MINUTES) && !Abandoned(t'', now)
        && (!Awaits(t, now - TEN_MINUTES) && !Abandoned(t, now) ==> t'' == t)
  {
    hide Settle;
    if Awaits(t, now - TEN_MINUTES) && candle.Some? {
      Finished(t, candle.value.0, candle.value.1);
    }
  }

  lemma Finished(t: Trade, open: real, close: real)
    ensures Finish(t, open, close).Some? ==> Finish(t, open, close).value.result != Pending
  {
  }

  /** The sweeper leaves no stuck and no orphaned trade behind exactly when it is not blocked. */
  lemma SweepClearsExactly(l: Ledger, now: int, candles: Candles)
    requires Linked(l)
    ensures NoneLeft(SweepStuck(l, now, candles), now) <==> !Blocked(l, now, candles)
    ensures Blocked(l, now, candles) ==> SweepStuck(l, now, candles) == l
  {
    hide DoJobs, Handled, Awaits, Abandoned, Priceless;
    JobsHandleEach(l, SweepJob, |l.trades|, now, candles);
    forall i: nat | i < |l.trades| {
      FailsWhenPriceless(l.trades[i], SweepJob, now, CandleOf(candles, i));
    }
    var swept := DoJobs(l, SweepJob, |l.trades|, now, candles);
    if swept.Some? {
      JobsHandleEach(swept.value, OrphanJob, |l.trades|, now, candles);
      forall i: nat | i < |l.trades|
        ensures Handled(swept.value.trades[i], OrphanJob, now, CandleOf(candles, i)).Some?
      {
        FailsWhenPriceless(swept.value.trades[i], OrphanJob, now, CandleOf(candles, i));
      }
      var r := SweepStuck(l, now, candles);
      forall i | 0 <= i < |r.trades| ensures !Awaits(r.trades[i], now - TEN_MINUTES) && !Abandoned(r.trades[i], now) {
        SweptTrade(l.trades[i], now, CandleOf(candles, i));
      }
    }
  }

  /** What the scheduled settlement passes over: resolved positions, and fills whose candle is missing. */
  predicate PassedOver(t: Trade, candle: Option<(real, real)>) {
    t.closed || (t.engineStatus != Queued && candle.None?)
  }

  /** Scheduled settlement fails for every trade when one due, open trade with a candle has no entry price. */
  predicate Stopped(l: Ledger, now: int, candles: Candles) {
    exists i :: 0 <= i < |l.trades| && i in candles && Stops(l.trades[i], now)
  }

  predicate Stops(t: Trade, now: int) {
    Priceless(t) && Awaits(t, now) && !t.closed && t.engineStatus != Queued
  }

  /** A settlement run fails exactly when it is stopped. */
  lemma SettlementFailsExactly(l: Ledger, now: int, candles: Candles)
    requires Linked(l)
    ensures DoJobs(l, SettleJob, |l.trades|, now, candles).None? <==> Stopped(l, now, candles)
  {
    JobsHandleEach(l, SettleJob, |l.trades|, now, candles);
    forall i: nat | i < |l.trades| {
      FailsWhenPriceless(l.trades[i], SettleJob, now, CandleOf(candles, i));
    }
    hide DoJobs, Handled, Awaits, Priceless;
  }

  /**
   After any settlement run a trade is still due exactly when it was due and either the run was
   stopped or the trade was passed over; a stopped run changes nothing at all, and one that went
   through does not change whom it passed over. Resolved positions are among those, so only the
   sweeper ever settles them.
   */
  lemma SettlementLeaves(l: Ledger, now: int, candles: Candles)
    requires Linked(l)
    ensures Stopped(l, now, candles) ==> SettlePending(l, now, candles) == l
    ensures var r := SettlePending(l, now, candles);
      |r.trades| == |l.trades| && forall i :: 0 <= i < |l.trades| ==>
        && (Awaits(r.trades[i], now) <==>
              Awaits(l.trades[i], now) && (Stopped(l, now, candles) || PassedOver(l.trades[i], CandleOf(candles, i))))
        && (!Awaits(l.trades[i], now) || PassedOver(l.trades[i], CandleOf(candles, i)) ==> r.trades[i] == l.trades[i])
  {
    SettlementFailsExactly(l, now, candles);
    JobsHandleEach(l, SettleJob, |l.trades|, now, candles);
    var r := SettlePending(l, now, candles);
    hide DoJobs, Handled, PassedOver, Awaits, Stopped;
    if !Stopped(l, now, candles) {
      forall i | 0 <= i < |l.trades|
        ensures var t, over := l.trades[i], PassedOver(l.trades[i], CandleOf(candles, i));
          && (Awaits(r.trades[i], now) <==> Awaits(t, now) && over)
          && (!Awaits(t, now) || over ==> r.trades[i] == t)
      {
        SettledTrade(l.trades[i], now, CandleOf(candles, i));
      }
    }
  }

  lemma SettledTrade(t: Trade, now: int, candle: Option<(real, real)>)
    ensures var t' := Handled(t, SettleJob, now, candle);
      t'.Some? ==>
        && (Awaits(t'.value, now) <==> Awaits(t, now) && PassedOver(t, candle))
        && (!Awaits(t, now) || PassedOver(t, candle) ==> t'.value == t)
  {
    hide Settle;
    if candle.Some? {
      Finished(t, candle.value.0, candle.value.1);
    }
  }

  /**
   Which trades a settlement run that goes through finishes: the pending ones whose time has come, unless
   their position was resolved, or they need a candle and there is none.
   */
  lemma SettledExactly(l: Ledger, now: int, candles: Candles)
    requires Linked(l) && !Stopped(l, now, candles)
    ensures var r := SettlePending(l, now, candles);
      |r.trades| == |l.trades| && forall i :: 0 <= i < |l.trades| ==>
        var t, t' := l.trades[i], r.trades[i];
        if Awaits(t, now) && !t.closed && t.engineStatus == Queued then t' == Refunded(t, Canceled)
        else if Awaits(t, now) && !t.closed && i in candles
        then Finish(t, candles[i].0, candles[i].1) == Some(t') && t'.result in {Win, Loss, Cancelled}
        else t' == t
  {
    SettlementFailsExactly(l, now, candles);
    JobsHandleEach(l, SettleJob, |l.trades|, now, candles);
    var r := SettlePending(l, now, candles);
    hide DoJobs, Stopped;
    forall i | 0 <= i < |l.trades|
      ensures var t, t' := l.trades[i], r.trades[i];
        if Awaits(t, now) && !t.closed && t.engineStatus == Queued then t' == Refunded(t, Canceled)
        else if Awaits(t, now) && !t.closed && i in candles
        then Finish(t, candles[i].0, candles[i].1) == Some(t') && t'.result in {Win, Loss, Cancelled}
        else t' == t
    {
      HandledSettles(l.trades[i], now, CandleOf(candles, i));
      hide Handled;
    }
  }

  lemma HandledSettles(t: Trade, now: int, candle: Option<(real, real)>)
    ensures Handled(t, SettleJob, now, candle) ==
      if Awaits(t, now) && !t.closed && t.engineStatus == Queued then Some(Refunded(t, Canceled))
      else if Awaits(t, now) && !t.closed && candle.Some? then Finish(t, candle.value.0, candle.value.1)
      else Some(t)
    ensures candle.Some? && Finish(t, candle.value.0, candle.value.1).Some? ==>
      Finish(t, candle.value.0, candle.value.1).value.result in {Win, Loss, Cancelled}
  {
    hide ShadowProfit, BinaryProfit;
  }

  /** What a sweep that goes through does to each trade: the stuck settle or are refunded, and the abandoned too. */
  lemma SweptExactly(l: Ledger, now: int, candles: Candles)
    requires Linked(l) && !Blocked(l, now, candles)
    ensures var r := SweepStuck(l, now, candles);
      |r.trades| == |l.trades| && forall i :: 0 <= i < |l.trades| ==>
        var t, t' := l.trades[i], r.trades[i];
        if Awaits(t, now - TEN_MINUTES) && i in candles
        then Finish(t, candles[i].0, candles[i].1) == Some(t') && t'.result in {Win, Loss, Cancelled}
        else if Awaits(t, now - TEN_MINUTES) || Abandoned(t, now) then t' == Refunded(t, t.engineStatus)
        else t' == t
  {
    hide DoJobs, Handled, Awaits, Abandoned, Priceless, Finish;
    JobsHandleEach(l, SweepJob, |l.trades|, now, candles);
    forall i: nat | i < |l.trades| {
      FailsWhenPriceless(l.trades[i], SweepJob, now, CandleOf(candles, i));
    }
    var swept := DoJobs(l, SweepJob, |l.trades|, now, candles).value;
    JobsHandleEach(swept, OrphanJob, |l.trades|, now, candles);
    forall i: nat | i < |l.trades|
      ensures Handled(swept.trades[i], OrphanJob, now, CandleOf(candles, i)).Some?
    {
      FailsWhenPriceless(swept.trades[i], OrphanJob, now, CandleOf(candles, i));
    }
    var r := SweepStuck(l, now, candles);
    forall i | 0 <= i < |l.trades|
      ensures var t, t' := l.trades[i], r.trades[i];
        if Awaits(t, now - TEN_MINUTES) && i in candles
        then Finish(t, candles[i].0, candles[i].1) == Some(t') && t'.result in {Win, Loss, Cancelled}
        else if Awaits(t, now - TEN_MINUTES) || Abandoned(t, now) then t' == Refunded(t, t.engineStatus)
        else t' == t
    {
      HandledSweeps(l.trades[i], now, CandleOf(candles, i));
    }
  }

  lemma HandledSweeps(t: Trade, now: int, candle: Option<(real, real)>)
    ensures var stuck := Awaits(t, now - TEN_MINUTES);
      var t' := Handled(t, SweepJob, now, candle);
      && t' == (if stuck && candle.Some? then Finish(t, candle.value.0, candle.value.1)
                else if stuck then Some(Refunded(t, t.engineStatus)) else Some(t))
      && (t'.Some? ==>
            var last := if !stuck && Abandoned(t, now) then Refunded(t, t.engineStatus) else t'.value;
            Handled(t'.value, OrphanJob, now, candle) == Some(last))
      && (stuck && candle.Some? && t'.Some? ==> t'.value.result in {Win, Loss, Cancelled})
  {
    hide ShadowProfit, BinaryProfit;
  }

  // ---------- What was filled is settled ----------

  /**
   A fill ends the wait of its trade: whatever its engine status was, once the engine has told of a fill in
   part or whole, a settlement run that goes through settles the trade by its candle when its time has come,
   and does not refund it as unfilled.
   */
  lemma FilledIsSettled(l: Ledger, m: FillMessage, at: int, now: int, candles: Candles)
    requires Linked(l) && m.id < |l.trades| && l.trades[m.id].result == Pending && !l.trades[m.id].closed
    requires m.status == Orders.PARTIAL || m.status == Orders.FILLED
    requires m.id in candles && l.trades[m.id].settlementAt.Some? && l.trades[m.id].settlementAt.value <= now
    ensures var l1 := HandleFill(l, m, at, None);
      && Linked(l1) && !Stops(l1.trades[m.id], now)
      && (!Stopped(l1, now, candles) ==>
            var r := SettlePending(l1, now, candles);
            |r.trades| == |l1.trades| == |l.trades| && r.trades[m.id].result in {Win, Loss})
  {
    FillRecorded(l, m, at);
    var l1 := HandleFill(l, m, at, None);
    if !Stopped(l1, now, candles) {
      SettledExactly(l1, now, candles);
      var c := candles[m.id];
      PayoutOrProfit(l1.trades[m.id], c.0, c.1);
    }
    hide HandleFill, SettlePending, Stopped, Settle, Linked;
  }

  lemma PayoutOrProfit(t: Trade, open: real, close: real)
    requires t.avgPrice.Some? && t.shares.Some?
    ensures Finish(t, open, close).Some? && Finish(t, open, close).value.result in {Win, Loss}
  {
    hide ShadowProfit, BinaryProfit;
  }

  /** What a fill records that does not settle its trade at once. */
  lemma FillRecorded(l: Ledger, m: FillMessage, at: int)
    requires Linked(l) && m.id < |l.trades| && l.trades[m.id].result == Pending
    ensures var l1, t := HandleFill(l, m, at, None), l.trades[m.id];
      && Linked(l1) && |l1.trades| == |l.trades|
      && var t' := l1.trades[m.id];
         && t'.avgPrice == Some(m.avg) && t'.shares == Some(m.filled)
         && (m.status == Orders.PARTIAL ==> t'.engineStatus == PartlyFilled)
         && (m.status == Orders.FILLED ==> t'.engineStatus == Filled)
         && t'.(avgPrice := t.avgPrice, shares := t.shares, engineStatus := t.engineStatus, entryFee := t.entryFee) == t
  {
    hide RebateOf;
  }
}
