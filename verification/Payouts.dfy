/**
 What a trade is paid in the end, from the messages that reached it and the candle: the money follows
 the exits the book made.
 */
module Payouts {
  import opened Prelude
  import opened Ladders
  import opened Orders
  import opened Ledger
  import opened LedgerProofs
  import Exits
  import Books
  import BookSteps
  import Brackets

  /** A trade whose shares and average price are known and that has no exit yet. */
  predicate Open(t: Trade) {
    t.result == Pending && t.avgPrice.Some? && t.shares.Some? && t.exitTrigger.None?
  }

  /** The part of the amount that was not spent on the shares. */
  function Unspent(t: Trade): real
    requires t.avgPrice.Some? && t.shares.Some?
  {
    t.amount - Worth(t.shares.value, t.avgPrice.value)
  }

  /** Settled: finished for good, its bot the richer by `payout`, and no other trade or bot touched. */
  ghost predicate Paid(l: Ledger, id: nat, payout: real, r: Option<Ledger>)
    requires id < |l.trades| && l.trades[id].bot < |l.bots|
  {
    && r.Some? && PaidOut(l, id, r.value)
    && r.value.trades[id].result in {Win, Loss}
    && r.value.bots[l.trades[id].bot].balance == l.bots[l.trades[id].bot].balance + payout
  }

  /** Without an exit: the unspent part, and one for every share if the forecast was right. */
  lemma HeldToTheEnd(l: Ledger, id: nat, open: real, close: real)
    requires Linked(l) && id < |l.trades| && Open(l.trades[id])
    ensures var t := l.trades[id];
      && Paid(l, id, Unspent(t) + (if Right(t.forecast, open, close) then t.shares.value else 0.0),
              SettleTrade(l, id, open, close))
      && (SettleTrade(l, id, open, close).value.trades[id].result == Win <==> Right(t.forecast, open, close))
  {
    PayoutFormula(l.trades[id], open, close);
    SettlePaysOut(l, id, open, close);
    SettledBy(l, id, open, close);
    assert Worth(0.0, 0.0) == 0.0;
    hide Settle, SettleTrade, Right, Linked, PaidOut;
    ByItsProfit(l, id, SettleTrade(l, id, open, close).value);
  }

  lemma ByItsProfit(l: Ledger, id: nat, l': Ledger)
    requires id < |l.trades| && l.trades[id].bot < |l.bots| && PaidOut(l, id, l')
    ensures |l'.trades| == |l.trades| && |l'.bots| == |l.bots| && l'.trades[id].profit.Some?
    ensures l'.bots[l.trades[id].bot].balance ==
      l.bots[l.trades[id].bot].balance + l.trades[id].amount + l'.trades[id].profit.value
  {
  }

  lemma SettledBy(l: Ledger, id: nat, open: real, close: real)
    requires Linked(l) && id < |l.trades|
    ensures var s := Settle(l.trades[id], open, close);
      s.ByProfit? ==>
        && SettleTrade(l, id, open, close).Some?
        && id < |SettleTrade(l, id, open, close).value.trades|
        && SettleTrade(l, id, open, close).value.trades[id].result == s.result
        && SettleTrade(l, id, open, close).value.trades[id].profit == Some(s.profit)
  {
    hide Settle;
  }

  /** The first exit is recorded as its message says, and nothing else changes. */
  lemma ExitRecorded(l: Ledger, m: ExitMessage)
    requires Linked(l) && m.id < |l.trades| && l.trades[m.id].result == Pending && l.trades[m.id].exitTrigger.None?
    ensures var l', t := HandleExit(l, m), l.trades[m.id];
      && Linked(l') && l'.bots == l.bots && l'.users == l.users && |l'.trades| == |l.trades|
      && (forall i :: 0 <= i < |l.trades| && i != m.id ==> l'.trades[i] == l.trades[i])
      && var t' := l'.trades[m.id];
         && t'.exitTrigger == Some(m.trigger) && t'.exitPrice == Some(m.price) && t'.exitFilled == Some(m.filled)
         && t'.bot == t.bot && t'.result == Pending && t'.avgPrice == t.avgPrice && t'.shares == t.shares
         && t'.amount == t.amount && t'.forecast == t.forecast && t'.entryFee == t.entryFee
         && t'.settlementAt == t.settlementAt && t'.closed == t.closed && t'.engineStatus == Filled
  {
  }

  /**
   From the message to the money. An exit by take-profit or stop-loss is worth its price times its
   quantity; what was not sold pays by the candle. An exit that was forced is left out of account: the
   whole position pays by the candle.
   */
  lemma ExitPays(l: Ledger, m: ExitMessage, open: real, close: real)
    requires Linked(l) && m.id < |l.trades| && Open(l.trades[m.id]) && m.filled <= l.trades[m.id].shares.value
    ensures var t, l1 := l.trades[m.id], HandleExit(l, m);
      var right := Right(t.forecast, open, close);
      && Linked(l1) && |l1.trades| == |l.trades| && l1.bots == l.bots
      && Paid(l1, m.id,
              Unspent(t) + if m.trigger == FORCE_CLOSE then (if right then t.shares.value else 0.0)
                           else Worth(m.filled, m.price) + (if right then t.shares.value - m.filled else 0.0),
              SettleTrade(l1, m.id, open, close))
  {
    ExitRecorded(l, m);
    var l1 := HandleExit(l, m);
    PayoutFormula(l1.trades[m.id], open, close);
    SettlePaysOut(l1, m.id, open, close);
    SettledBy(l1, m.id, open, close);
    assert Worth(0.0, 0.0) == 0.0;
    hide Settle, SettleTrade, Right, PaidOut, HandleExit, Linked;
    ByItsProfit(l1, m.id, SettleTrade(l1, m.id, open, close).value);
  }

  /**
   Only the first exit counts: any later one about the same trade, whatever it says, changes nothing.
   A position that the book sells in two parts is paid for the first part, and the shares of the second
   by the candle.
   */
  lemma LaterExitsAreLost(l: Ledger, m: ExitMessage, later: ExitMessage)
    requires Linked(l) && m.id < |l.trades| && later.id == m.id
    ensures Linked(HandleExit(l, m)) && HandleExit(HandleExit(l, m), later) == HandleExit(l, m)
  {
  }

  /**
   A position sold in two parts is paid what both parts brought, and by the candle for the rest, exactly when
   the second part brought what the candle pays for its shares anyway: one each if the forecast was right, and
   nothing if it was not.
   */
  lemma PaidInPartsExactly(l: Ledger, m: ExitMessage, later: ExitMessage, open: real, close: real)
    requires Linked(l) && m.id < |l.trades| && Open(l.trades[m.id]) && later.id == m.id
    requires m.trigger != FORCE_CLOSE && m.filled + later.filled <= l.trades[m.id].shares.value && later.filled >= 0.0
    ensures var t, l2 := l.trades[m.id], HandleExit(HandleExit(l, m), later);
      var right := Right(t.forecast, open, close);
      && Linked(l2) && |l2.trades| == |l.trades| && l2.bots == l.bots
      && exists payout ::
           && Paid(l2, m.id, payout, SettleTrade(l2, m.id, open, close))
           && (payout == Unspent(t) + Worth(m.filled, m.price) + Worth(later.filled, later.price)
                         + (if right then t.shares.value - m.filled - later.filled else 0.0)
               <==> Worth(later.filled, later.price) == if right then later.filled else 0.0)
  {
    ExitPays(l, m, open, close);
    LaterExitsAreLost(l, m, later);
    hide Linked, HandleExit, SettleTrade, Paid, Worth, Right;
    var t := l.trades[m.id];
    var payout := Unspent(t) + Worth(m.filled, m.price)
      + if Right(t.forecast, open, close) then t.shares.value - m.filled else 0.0;
    assert Paid(HandleExit(HandleExit(l, m), later), m.id, payout,
                SettleTrade(HandleExit(HandleExit(l, m), later), m.id, open, close));
  }

  /**
   When the market resolves, the named open trades are closed and lose their bracket, and no others; no money
   moves, and whatever settles such a trade later pays what it would have been paid.
   */
  lemma ResolvedIsClosed(l: Ledger, ids: set<nat>, i: nat, open: real, close: real)
    requires i < |l.trades|
    ensures var l', t := HandleResolved(l, ids), l.trades[i];
      && l'.bots == l.bots && l'.users == l.users && |l'.trades| == |l.trades|
      && var t' := l'.trades[i];
         && Settle(t', open, close) == Settle(t, open, close)
         && (if i in ids && t.result == Pending && !t.closed
             then t'.closed && t'.tp.None? && t'.sl.None? && t'.engineStatus == Resolved
                  && t'.(closed := false, tp := t.tp, sl := t.sl, engineStatus := t.engineStatus) == t
             else t' == t)
  {
  }

  // ---------- From the book to the money ----------

  /** The message the consumer publishes about an exit of the order tracked for trade `bo`. */
  function MessageOfExit(r: Exits.Exit, bo: nat): ExitMessage {
    ExitMessage(bo, r.trigger, r.avgExit, r.qtyExited)
  }

  /**
   The exit a book makes, published and recorded: settlement pays exactly what the levels sold into were
   worth, and the candle decides about the rest of the shares.
   */
  lemma BookExitPays(b: Books.Book, i: nat, p: Price, l: Ledger, bo: nat, open: real, close: real)
    requires BookSteps.WellBook(b) && i < |b.orders| && Brackets.BestBid(b.sides.bids, p)
    requires Linked(l) && bo < |l.trades| && Open(l.trades[bo])
    requires var o, t := b.orders[i], l.trades[bo];
      && Brackets.Held(o) && o.exitFilled.None? && (Brackets.TakesProfit(o, p) || Brackets.StopsLoss(o, p))
      && t.shares == Some(o.filled)
    ensures var mine := Brackets.ExitsOf(b.orders[i].terms.id, Books.Step(b, Books.MonitorBrackets).exits);
      && |mine| == 1
      && var r, t, l1 := mine[0], l.trades[bo], HandleExit(l, MessageOfExit(mine[0], bo));
         && Linked(l1) && |l1.trades| == |l.trades| && l1.bots == l.bots
         && 0.0 <= Qty(r.levels) <= t.shares.value
         && Paid(l1, bo,
                 Unspent(t) + Cost(r.levels)
                 + (if Right(t.forecast, open, close) then t.shares.value - Qty(r.levels) else 0.0),
                 SettleTrade(l1, bo, open, close))
  {
    hide Books.Step, BookSteps.WellBook, Brackets.BestBid, Brackets.ExitsOf, Linked, HandleExit, SettleTrade, Paid,
      Right, Qty, Cost;
    Brackets.MonitorWatches(b, i);
    var mine := Brackets.ExitsOf(b.orders[i].terms.id, Books.Step(b, Books.MonitorBrackets).exits);
    ExitPays(l, MessageOfExit(mine[0], bo), open, close);
  }
}
