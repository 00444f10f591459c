/**
 The ledger's end of the way from the engine: fills and cancellations arrive on two streams, each
 message any number of times and with its own clock and candle, until the trade is finished.
 */
module Arrivals {
  import opened Prelude
  import opened Ladders
  import opened Orders
  import opened Books
  import opened BookSteps
  import opened Runs
  import opened Histories
  import opened Stream
  import opened Consumer
  import opened Delivery
  import F = Fees
  import L = Ledger
  import P = LedgerProofs

  /** A message, when it is handled, and the candle the exchange answers then, if any. */
  datatype Arrival = Arrival(message: Message, at: int, candle: Option<(real, real)>)

  function Receive(l: L.Ledger, a: Arrival): L.Ledger
    requires L.Linked(l)
  {
    match a.message
    case FillNote(fill) => L.HandleFill(l, fill, a.at, a.candle)
    case CancelNote(cancel) => L.HandleCancel(l, cancel)
  }

  function Deliver(l: L.Ledger, arrivals: seq<Arrival>): (r: L.Ledger)
    requires L.Linked(l)
    ensures L.Linked(r) && |r.trades| >= |l.trades| && |r.bots| >= |l.bots|
  {
    if arrivals == [] then l
    else
      var prev, a := Deliver(l, arrivals[..|arrivals| - 1]), arrivals[|arrivals| - 1];
      ReceiveFollows(prev, a);
      Receive(prev, a)
  }

  lemma ReceiveFollows(l: L.Ledger, a: Arrival)
    requires L.Linked(l)
    ensures L.Linked(Receive(l, a)) && |Receive(l, a).trades| >= |l.trades| && |Receive(l, a).bots| >= |l.bots|
    ensures forall i :: 0 <= i < |l.trades| && l.trades[i].result != L.Pending ==>
      Receive(l, a).trades[i] == l.trades[i]
  {
    hide L.HandleFill, L.HandleCancel;
    match a.message
    case FillNote(fill) => P.FinishedStays(l, P.Fill(fill, a.at, a.candle));
    case CancelNote(cancel) => P.FinishedStays(l, P.Cancel(cancel));
  }

  /** The arrivals about one trade. */
  function About(bo: nat, arrivals: seq<Arrival>): seq<Arrival> {
    if arrivals == [] then []
    else
      var last := arrivals[|arrivals| - 1];
      About(bo, arrivals[..|arrivals| - 1]) + if BoOf(last.message) == bo then [last] else []
  }

  function MessagesOf(arrivals: seq<Arrival>): (messages: seq<Message>)
    ensures |messages| == |arrivals|
    ensures forall k :: 0 <= k < |arrivals| ==> messages[k] == arrivals[k].message
  {
    seq(|arrivals|, k requires 0 <= k < |arrivals| => arrivals[k].message)
  }

  function FilledOf(m: Message): real {
    match m
    case FillNote(fill) => fill.filled
    case CancelNote(cancel) => cancel.filled
  }

  function AvgOf(m: Message): real {
    match m
    case FillNote(fill) => fill.avg
    case CancelNote(cancel) => cancel.avg
  }

  /** A cancellation that leaves the trade standing: it claims fills. */
  predicate KeepsTrade(m: Message) {
    m.CancelNote? ==> m.cancel.filled > 0.0 && m.cancel.avg > 0.0
  }

  /** A complete fill that arrives after the settlement time while a candle is at hand. */
  predicate SettlesNow(t: L.Trade, a: Arrival) {
    a.message.FillNote? && P.SettlesAtOnce(t, a.message.fill, a.at, a.candle)
  }

  /** The arrival finishes the trade: it settles it at once, or cancels it for want of fills. */
  predicate Ends(t: L.Trade, a: Arrival) {
    SettlesNow(t, a) || !KeepsTrade(a.message)
  }

  /** The first arrival that finishes the trade, or their number. */
  function FirstEnd(t: L.Trade, about: seq<Arrival>): (n: nat)
    ensures n <= |about|
    ensures n < |about| ==> Ends(t, about[n])
    ensures forall k :: 0 <= k < n ==> !Ends(t, about[k])
  {
    if about == [] then 0
    else
      var d := |about| - 1;
      var n := FirstEnd(t, about[..d]);
      if n < d then n else if Ends(t, about[d]) then d else |about|
  }

  /** What the last cancellation says was spent. */
  function Spent(messages: seq<Message>): Option<real> {
    if messages == [] then None
    else
      var last := messages[|messages| - 1];
      if last.CancelNote? then Some(Worth(last.cancel.filled, last.cancel.avg))
      else Spent(messages[..|messages| - 1])
  }

  /** What a pending trade has become by these messages about it, none of which finished it. */
  ghost predicate Mirrors(t: L.Trade, messages: seq<Message>, t': L.Trade) {
    && t'.result == L.Pending && t'.bot == t.bot && t'.settlementAt == t.settlementAt
    && (messages == [] ==> t' == t)
    && (messages != [] ==>
          var last := messages[|messages| - 1];
          t'.shares == Some(FilledOf(last)) && t'.avgPrice == Some(AvgOf(last)))
    && t'.amount == Spent(messages).GetOr(t.amount)
  }

  /** What it has become when message `end` finished it. */
  ghost predicate Finished(t: L.Trade, messages: seq<Message>, end: Message, t': L.Trade) {
    && t'.amount == Spent(messages).GetOr(t.amount)
    && match end
       case FillNote(fill) =>
         t'.result in {L.Win, L.Loss} && t'.shares == Some(fill.filled) && t'.avgPrice == Some(fill.avg)
       case CancelNote(_) =>
         && t'.result == L.Cancelled && t'.profit == Some(0.0)
         && (messages == [] ==> t'.shares == t.shares && t'.avgPrice == t.avgPrice)
         && (messages != [] ==>
               var last := messages[|messages| - 1];
               t'.shares == Some(FilledOf(last)) && t'.avgPrice == Some(AvgOf(last)))
  }

  // ---------- One arrival ----------

  lemma RecordMirrors(l: L.Ledger, t: L.Trade, messages: seq<Message>, m: Message)
    requires L.Linked(l) && BoOf(m) < |l.trades| && Mirrors(t, messages, l.trades[BoOf(m)]) && m.FillNote?
    ensures var r := L.RecordFill(l, m.fill);
      && |r.trades| == |l.trades| && Mirrors(t, messages + [m], r.trades[BoOf(m)])
      && r.trades[BoOf(m)].bot < |r.bots|
  {
    hide Worth, F.MakerRebate;
    assert (messages + [m])[..|messages|] == messages;
  }

  lemma CancelMirrors(l: L.Ledger, t: L.Trade, messages: seq<Message>, m: Message)
    requires L.Linked(l) && BoOf(m) < |l.trades| && Mirrors(t, messages, l.trades[BoOf(m)])
    requires m.CancelNote? && KeepsTrade(m)
    ensures var r := L.HandleCancel(l, m.cancel);
      BoOf(m) < |r.trades| && Mirrors(t, messages + [m], r.trades[BoOf(m)])
  {
    hide Worth;
    assert (messages + [m])[..|messages|] == messages;
  }

  lemma CancelFinishes(l: L.Ledger, t: L.Trade, messages: seq<Message>, m: Message)
    requires L.Linked(l) && BoOf(m) < |l.trades| && Mirrors(t, messages, l.trades[BoOf(m)])
    requires m.CancelNote? && !KeepsTrade(m)
    ensures var r := L.HandleCancel(l, m.cancel);
      BoOf(m) < |r.trades| && Finished(t, messages, m, r.trades[BoOf(m)])
  {
  }

  /** Settling changes neither the shares nor the average nor the amount. */
  lemma SettledKeeps(l: L.Ledger, id: nat, open: real, close: real)
    requires L.Linked(l) && id < |l.trades| && l.trades[id].avgPrice.Some? && l.trades[id].shares.Some?
    ensures var r := L.SettleTrade(l, id, open, close);
      && r.Some? && id < |r.value.trades|
      && var t, t' := l.trades[id], r.value.trades[id];
         && t'.result in {L.Win, L.Loss} && t'.shares == t.shares && t'.avgPrice == t.avgPrice
         && t'.amount == t.amount
  {
    hide L.ShadowProfit, L.BinaryProfit;
  }

  lemma FillFinishesMirrored(l: L.Ledger, t: L.Trade, messages: seq<Message>, a: Arrival)
    requires L.Linked(l) && BoOf(a.message) < |l.trades| && Mirrors(t, messages, l.trades[BoOf(a.message)])
    requires SettlesNow(t, a)
    ensures var r := Receive(l, a);
      BoOf(a.message) < |r.trades| && Finished(t, messages, a.message, r.trades[BoOf(a.message)])
  {
    var m := a.message;
    RecordMirrors(l, t, messages, m);
    P.RecordedSettles(l, m.fill, a.candle.value.0, a.candle.value.1);
    var r := L.RecordFill(l, m.fill);
    RecordLinked(l, m.fill);
    SettledKeeps(r, m.fill.id, a.candle.value.0, a.candle.value.1);
    SpentMore(messages, m);
    hide L.RecordFill, L.SettleTrade, L.Linked;
  }

  lemma RecordLinked(l: L.Ledger, m: L.FillMessage)
    requires L.Linked(l) && m.id < |l.trades|
    ensures L.Linked(L.RecordFill(l, m))
  {
    hide F.MakerRebate;
  }

  lemma SpentMore(messages: seq<Message>, m: Message)
    ensures m.FillNote? ==> Spent(messages + [m]) == Spent(messages)
  {
    assert (messages + [m])[..|messages|] == messages;
  }

  /** One arrival about a trade that none has finished yet. */
  lemma ReceiveOne(l: L.Ledger, t: L.Trade, messages: seq<Message>, a: Arrival)
    requires L.Linked(l) && BoOf(a.message) < |l.trades| && Mirrors(t, messages, l.trades[BoOf(a.message)])
    ensures var bo, r := BoOf(a.message), Receive(l, a);
      && bo < |r.trades|
      && (Ends(t, a) ==> Finished(t, messages, a.message, r.trades[bo]))
      && (!Ends(t, a) ==> Mirrors(t, messages + [a.message], r.trades[bo]))
  {
    var m := a.message;
    match m
    case FillNote(fill) =>
      RecordMirrors(l, t, messages, m);
      P.FillFinishes(l, fill, a.at, a.candle);
      hide L.HandleFill, L.RecordFill, Mirrors, Finished;
      if SettlesNow(t, a) {
        FillFinishesMirrored(l, t, messages, a);
      } else {
        SameSettlement(t, messages, l.trades[fill.id]);
      }
    case CancelNote(_) =>
      if KeepsTrade(m) {
        CancelMirrors(l, t, messages, m);
      } else {
        CancelFinishes(l, t, messages, m);
      }
  }

  lemma SameSettlement(t: L.Trade, messages: seq<Message>, t': L.Trade)
    requires Mirrors(t, messages, t')
    ensures t'.settlementAt == t.settlementAt && t'.result == L.Pending
  {
  }

  lemma OthersReceive(l: L.Ledger, a: Arrival, bo: nat)
    requires L.Linked(l) && bo < |l.trades| && BoOf(a.message) != bo
    ensures bo < |Receive(l, a).trades| && Receive(l, a).trades[bo] == l.trades[bo]
  {
    hide Worth, F.MakerRebate, L.Settle;
  }

  // ---------- Any arrivals ----------

  /** What a pending trade has become by all the arrivals about it. */
  ghost predicate Became(t: L.Trade, about: seq<Arrival>, t': L.Trade) {
    var n := FirstEnd(t, about);
    && (n == |about| ==> Mirrors(t, MessagesOf(about), t'))
    && (n < |about| ==> Finished(t, MessagesOf(about[..n]), about[n].message, t'))
  }

  lemma FinishedIsNotPending(t: L.Trade, messages: seq<Message>, end: Message, t': L.Trade)
    requires Finished(t, messages, end, t')
    ensures t'.result != L.Pending
  {
  }

  /** One more arrival about the trade. */
  lemma BecomesMore(l: L.Ledger, t: L.Trade, about: seq<Arrival>, a: Arrival)
    requires L.Linked(l) && BoOf(a.message) < |l.trades| && Became(t, about, l.trades[BoOf(a.message)])
    ensures var r := Receive(l, a);
      BoOf(a.message) < |r.trades| && Became(t, about + [a], r.trades[BoOf(a.message)])
  {
    var more := about + [a];
    assert more[..|about|] == about && more[|about|] == a;
    ReceiveFollows(l, a);
    hide Receive, Mirrors, Finished, Ends, L.Linked;
    var n := FirstEnd(t, about);
    if n < |about| {
      assert more[..n] == about[..n];
      FinishedIsNotPending(t, MessagesOf(about[..n]), about[n].message, l.trades[BoOf(a.message)]);
    } else {
      ReceiveOne(l, t, MessagesOf(about), a);
      assert MessagesOf(more) == MessagesOf(about) + [a.message];
      assert MessagesOf(more[..|about|]) == MessagesOf(about);
    }
  }

  /**
   Whatever arrives, in whatever order, however often and whenever: until an arrival finishes it, a
   pending trade holds what the last message about it said and the cost of its last cancellation; from
   that arrival on it is finished, with what that message said if it was a fill.
   */
  lemma {:induction false} DeliverBecomes(l: L.Ledger, arrivals: seq<Arrival>, bo: nat)
    requires L.Linked(l) && bo < |l.trades| && l.trades[bo].result == L.Pending
    ensures Became(l.trades[bo], About(bo, arrivals), Deliver(l, arrivals).trades[bo])
  {
    if arrivals == [] {
      assert MessagesOf([]) == [];
    } else {
      var init, a := arrivals[..|arrivals| - 1], arrivals[|arrivals| - 1];
      hide Receive, Became, L.Linked;
      DeliverBecomes(l, init, bo);
      var prev := Deliver(l, init);
      if BoOf(a.message) == bo {
        BecomesMore(prev, l.trades[bo], About(bo, init), a);
      } else {
        OthersReceive(prev, a, bo);
        assert About(bo, arrivals) == About(bo, init);
      }
    }
  }

  // ---------- What the consumer publishes about a LIMIT order ----------

  lemma {:induction false} EventsFrom(id: OrderId, events: seq<Event>, i: nat, j: nat) returns (a: nat, b: nat)
    requires i < j < |EventsAbout(id, events)|
    ensures a < b < |events| && events[a] == EventsAbout(id, events)[i] && events[b] == EventsAbout(id, events)[j]
    ensures events[a].id == id == events[b].id
  {
    AboutOnly(id, events);
    var n := |events| - 1;
    var init := EventsAbout(id, events[..n]);
    assert EventsAbout(id, events)[i] in EventsAbout(id, events);
    assert EventsAbout(id, events)[j] in EventsAbout(id, events);
    if j < |init| {
      a, b := EventsFrom(id, events[..n], i, j);
    } else {
      a := EventAt(id, events[..n], i);
      b := n;
    }
  }

  lemma {:induction false} EventAt(id: OrderId, events: seq<Event>, i: nat) returns (a: nat)
    requires i < |EventsAbout(id, events)|
    ensures a < |events| && events[a] == EventsAbout(id, events)[i]
  {
    var n := |events| - 1;
    if i < |EventsAbout(id, events[..n])| {
      a := EventAt(id, events[..n], i);
    } else {
      a := n;
    }
  }

  /** Of the events about one order only the last may be a cancellation, and fills strictly grow. */
  lemma EventsInOrder(ops: seq<Op>, id: OrderId, i: nat, j: nat)
    requires Legal(ops) && i < j < |EventsAbout(id, Told(Run(ops).log))|
    ensures var events := EventsAbout(id, Told(Run(ops).log));
      events[i].kind == FILL && (events[j].kind == FILL ==> events[i].filled < events[j].filled)
  {
    RunOrderly(ops);
    var told := Told(Run(ops).log);
    hide Run, EventsAbout;
    var a, b := EventsFrom(id, told, i, j);
    assert Precedes(told[a], told[b]);
  }

  /** The order has been told cancelled. */
  ghost predicate CancelToldOf(ops: seq<Op>, id: OrderId) {
    var events := EventsAbout(id, Told(Run(ops).log));
    events != [] && events[|events| - 1].kind == CANCEL
  }

  /** No fill was published after this message. */
  ghost predicate Newest(messages: seq<Message>, k: nat)
    requires k < |messages|
  {
    forall j :: k < j < |messages| ==> messages[j].CancelNote?
  }

  /**
   What is published about a followed order: fills, then at most a cancellation. A message tells all
   the shares exactly when it is a newest one; one that says FILLED is.
   */
  ghost predicate WellTold(o: Order, messages: seq<Message>, cancelled: bool) {
    && (messages == [] ==> o.filled == 0.0)
    && (cancelled ==> o.status == CANCELED)
    && (cancelled <==> messages != [] && messages[|messages| - 1].CancelNote?)
    && (forall k: nat :: k < |messages| ==>
          var m := messages[k];
          && (k < |messages| - 1 ==> m.FillNote?)
          && (if Newest(messages, k) then FilledOf(m) == o.filled && AvgOf(m) == o.AvgEntry().GetOr(0.0)
              else FilledOf(m) < o.filled)
          && (o.filled <= 0.0 ==> m.CancelNote?)
          && (m.FillNote? && m.fill.status == FILLED ==> o.status == FILLED && FilledOf(m) == o.filled
                                                         && AvgOf(m) == o.AvgEntry().GetOr(0.0)))
  }

  lemma ConveyedAt(messages: seq<Message>, events: seq<Event>, bo: nat, k: nat)
    requires AllConveyed(messages, events, bo) && k < |events|
    ensures k < |messages| && FilledOf(messages[k]) == events[k].filled
    ensures AvgOf(messages[k]) == events[k].avgEntry.GetOr(0.0)
    ensures messages[k].CancelNote? <==> events[k].kind == CANCEL
    ensures messages[k].FillNote? ==> messages[k].fill.status == events[k].status
  {
    assert Conveys(messages[k], events[k], bo);
  }

  lemma NewestConveyed(messages: seq<Message>, events: seq<Event>, bo: nat, k: nat)
    requires AllConveyed(messages, events, bo) && k < |events|
    ensures k < |messages| == |events| && (Newest(messages, k) <==> LastFill(events, k))
  {
    assert |messages| == |events|;
    hide AllConveyed;
    forall j: nat | k < j < |events| ensures messages[j].CancelNote? <==> events[j].kind == CANCEL {
      ConveyedAt(messages, events, bo, j);
    }
  }

  lemma WellToldFrom(o: Order, messages: seq<Message>, events: seq<Event>, bo: nat)
    requires AllConveyed(messages, events, bo) && LastTells(o, events)
    requires forall i: nat, j: nat :: i < j < |events| ==>
      events[i].kind == FILL && (events[j].kind == FILL ==> events[i].filled < events[j].filled)
    ensures WellTold(o, messages, events != [] && events[|events| - 1].kind == CANCEL)
  {
    assert |messages| == |events|;
    hide AllConveyed;
    forall k: nat | k < |messages|
      ensures k < |messages| - 1 ==> messages[k].FillNote?
      ensures if Newest(messages, k)
              then FilledOf(messages[k]) == o.filled && AvgOf(messages[k]) == o.AvgEntry().GetOr(0.0)
              else FilledOf(messages[k]) < o.filled
      ensures o.filled <= 0.0 ==> messages[k].CancelNote?
      ensures messages[k].FillNote? && messages[k].fill.status == FILLED ==>
        o.status == FILLED && FilledOf(messages[k]) == o.filled && AvgOf(messages[k]) == o.AvgEntry().GetOr(0.0)
    {
      ConveyedAt(messages, events, bo, k);
      NewestConveyed(messages, events, bo, k);
      var next: nat := k + 1;
      assert next < |events| ==> events[next].kind == FILL || events[k].kind == FILL;
      if !LastFill(events, k) {
        var j: nat :| k < j < |events| && events[j].kind != CANCEL;
        assert events[j].filled <= o.filled && events[j].kind == FILL;
      }
    }
    if messages != [] {
      ConveyedAt(messages, events, bo, |messages| - 1);
    }
  }

  /** Over any legal run the consumer's messages about the trade of a LIMIT order are well told. */
  lemma RunWellTold(ops: seq<Op>, bos: Assigned, o: Order)
    requires Legal(ops) && OneTradeEach(bos)
    requires o in Run(ops).book.orders && o.terms.id in bos && !o.terms.isMarket
    ensures WellTold(o, MessagesAbout(bos[o.terms.id], Consume(ops, bos).messages), CancelToldOf(ops, o.terms.id))
  {
    hide *;
    var id, bo := o.terms.id, bos[o.terms.id];
    var messages, events := MessagesAbout(bo, Consume(ops, bos).messages), EventsAbout(id, Told(Run(ops).log));
    RunFollowed(ops, bos, o);
    FollowedParts(o, Run(ops), Consume(ops, bos), bo);
    forall i: nat, j: nat | i < j < |events|
      ensures events[i].kind == FILL && (events[j].kind == FILL ==> events[i].filled < events[j].filled)
    {
      EventsInOrder(ops, id, i, j);
    }
    CancelToldIs(ops, id);
    WellToldFrom(o, messages, events, bo);
  }

  lemma CancelToldIs(ops: seq<Op>, id: OrderId)
    ensures var events := EventsAbout(id, Told(Run(ops).log));
      CancelToldOf(ops, id) <==> events != [] && events[|events| - 1].kind == CANCEL
  {
    hide Run, EventsAbout, Told;
  }

  // ---------- Two streams, each in order, each message any number of times ----------

  function FillNotes(messages: seq<Message>): seq<Message> {
    if messages == [] then []
    else
      var last := messages[|messages| - 1];
      FillNotes(messages[..|messages| - 1]) + if last.FillNote? then [last] else []
  }

  function CancelNotes(messages: seq<Message>): seq<Message> {
    if messages == [] then []
    else
      var last := messages[|messages| - 1];
      CancelNotes(messages[..|messages| - 1]) + if last.CancelNote? then [last] else []
  }

  /** `delivered` is `messages` with each message repeated one or more times in place. */
  ghost predicate Repeats(messages: seq<Message>, delivered: seq<Message>)
    decreases |messages| + |delivered|
  {
    if messages == [] || delivered == [] then messages == delivered
    else
      var m, d := |messages| - 1, |delivered| - 1;
      delivered[d] == messages[m] && (Repeats(messages, delivered[..d]) || Repeats(messages[..m], delivered[..d]))
  }

  /** Fills arrive in order among themselves, and so do cancellations; the two merge in any way. */
  ghost predicate TwoStreams(messages: seq<Message>, delivered: seq<Message>) {
    && Repeats(FillNotes(messages), FillNotes(delivered))
    && Repeats(CancelNotes(messages), CancelNotes(delivered))
  }

  lemma {:induction false} RepeatsAreFrom(messages: seq<Message>, delivered: seq<Message>)
    requires Repeats(messages, delivered)
    ensures messages == [] <==> delivered == []
    ensures messages != [] ==> delivered[|delivered| - 1] == messages[|messages| - 1]
    ensures forall x :: x in delivered ==> x in messages
    decreases |messages| + |delivered|
  {
    if messages != [] && delivered != [] {
      var m, d := |messages| - 1, |delivered| - 1;
      assert messages == messages[..m] + [messages[m]] && delivered == delivered[..d] + [delivered[d]];
      if Repeats(messages, delivered[..d]) {
        RepeatsAreFrom(messages, delivered[..d]);
      } else {
        RepeatsAreFrom(messages[..m], delivered[..d]);
      }
    }
  }

  /** The two streams between them hold every message, each its own kind; the last message ends one. */
  lemma {:induction false} StreamsHold(messages: seq<Message>)
    ensures forall m :: m in FillNotes(messages) <==> m in messages && m.FillNote?
    ensures forall m :: m in CancelNotes(messages) <==> m in messages && m.CancelNote?
    ensures messages != [] ==>
      var fills, cancels, last := FillNotes(messages), CancelNotes(messages), messages[|messages| - 1];
      if last.FillNote? then fills != [] && fills[|fills| - 1] == last
      else cancels != [] && cancels[|cancels| - 1] == last
  {
    if messages != [] {
      var n := |messages| - 1;
      assert messages == messages[..n] + [messages[n]];
      StreamsHold(messages[..n]);
    }
  }

  lemma {:induction false} SpentIsLastCancel(messages: seq<Message>)
    ensures forall m :: m in CancelNotes(messages) ==> m.CancelNote?
    ensures Spent(messages) ==
      var cancels := CancelNotes(messages);
      if cancels == [] then None
      else
        var last := cancels[|cancels| - 1];
        if last.CancelNote? then Some(Worth(last.cancel.filled, last.cancel.avg)) else None
  {
    hide Worth;
    if messages != [] {
      SpentIsLastCancel(messages[..|messages| - 1]);
    }
  }

  /** The position of the last fill: all after it are cancellations. */
  lemma {:induction false} LastFillIsNewest(messages: seq<Message>) returns (k: nat)
    requires FillNotes(messages) != []
    ensures var fills := FillNotes(messages);
      k < |messages| && messages[k] == fills[|fills| - 1] && Newest(messages, k)
  {
    var n := |messages| - 1;
    if messages[n].FillNote? {
      k := n;
    } else {
      k := LastFillIsNewest(messages[..n]);
      assert forall j :: k < j < n ==> messages[..n][j] == messages[j];
    }
  }

  // ---------- End to end ----------

  lemma AverageIs(o: Order)
    requires OrderOk(o) && o.filled > 0.0
    ensures o.AvgEntry().Some? && o.AvgEntry().value > 0.0 && Worth(o.filled, o.AvgEntry().value) == o.entryCost
  {
    QuotientPositive(o.entryCost, o.filled);
  }

  lemma OrderIsOk(b: Book, o: Order)
    requires WellBook(b) && o in b.orders
    ensures OrderOk(o)
  {
  }

  /** All that is delivered was published. */
  lemma DeliveredWasPublished(messages: seq<Message>, delivered: seq<Message>)
    requires TwoStreams(messages, delivered)
    ensures forall m :: m in delivered ==> m in messages
    ensures messages == [] <==> delivered == []
  {
    StreamsHold(messages);
    StreamsHold(delivered);
    RepeatsAreFrom(FillNotes(messages), FillNotes(delivered));
    RepeatsAreFrom(CancelNotes(messages), CancelNotes(delivered));
    hide Repeats, FillNotes, CancelNotes;
    assert messages != [] ==> messages[0] in messages;
    assert delivered != [] ==> delivered[0] in delivered;
  }

  /** A published cancellation is the last message, and tells all. */
  lemma CancelTellsAll(o: Order, messages: seq<Message>, cancelled: bool, m: Message)
    requires WellTold(o, messages, cancelled) && m in messages && m.CancelNote?
    ensures cancelled && FilledOf(m) == o.filled && AvgOf(m) == o.AvgEntry().GetOr(0.0)
    ensures m == messages[|messages| - 1]
  {
    var k :| 0 <= k < |messages| && messages[k] == m;
    assert k == |messages| - 1;
    assert Newest(messages, k);
  }

  /** Whichever stream the last message comes from, it tells the order as it is. */
  lemma LastDelivered(o: Order, messages: seq<Message>, cancelled: bool, delivered: seq<Message>)
    requires WellTold(o, messages, cancelled) && TwoStreams(messages, delivered) && delivered != []
    ensures var last := delivered[|delivered| - 1];
      FilledOf(last) == o.filled && AvgOf(last) == o.AvgEntry().GetOr(0.0)
  {
    StreamsHold(delivered);
    DeliveredWasPublished(messages, delivered);
    RepeatsAreFrom(FillNotes(messages), FillNotes(delivered));
    hide WellTold, Repeats, FillNotes, CancelNotes;
    var last := delivered[|delivered| - 1];
    assert last in delivered;
    if last.FillNote? {
      var k := LastFillIsNewest(messages);
      NewestTells(o, messages, cancelled, k);
    } else {
      CancelTellsAll(o, messages, cancelled, last);
    }
  }

  lemma NewestTells(o: Order, messages: seq<Message>, cancelled: bool, k: nat)
    requires WellTold(o, messages, cancelled) && k < |messages| && Newest(messages, k)
    ensures FilledOf(messages[k]) == o.filled && AvgOf(messages[k]) == o.AvgEntry().GetOr(0.0)
  {
  }

  /** What was spent is the entry cost once a cancellation has arrived, and untold before. */
  lemma SpentDelivered(o: Order, messages: seq<Message>, cancelled: bool, delivered: seq<Message>)
    requires OrderOk(o) && o.filled > 0.0
    requires WellTold(o, messages, cancelled) && forall m :: m in delivered ==> m in messages
    ensures (forall m :: m in delivered ==> m.FillNote?) ==> Spent(delivered) == None
    ensures !(forall m :: m in delivered ==> m.FillNote?) ==> cancelled && Spent(delivered) == Some(o.entryCost)
  {
    AverageIs(o);
    SpentIsLastCancel(delivered);
    StreamsHold(delivered);
    hide OrderOk, WellTold, Worth, Spent, FillNotes, CancelNotes;
    var cancels := CancelNotes(delivered);
    if cancels != [] {
      var last := cancels[|cancels| - 1];
      assert last in cancels;
      CancelTellsAll(o, messages, cancelled, last);
    }
  }

  lemma PublishedKeepTrade(o: Order, messages: seq<Message>, cancelled: bool, m: Message)
    requires OrderOk(o) && o.filled > 0.0 && WellTold(o, messages, cancelled) && m in messages
    ensures KeepsTrade(m)
  {
    AverageIs(o);
    hide OrderOk, WellTold;
    if m.CancelNote? {
      CancelTellsAll(o, messages, cancelled, m);
    }
  }

  /** A message that settles the trade tells the order filled, and then nothing was cancelled. */
  lemma SettlingTellsAll(o: Order, messages: seq<Message>, cancelled: bool, t: L.Trade, a: Arrival)
    requires WellTold(o, messages, cancelled) && a.message in messages && SettlesNow(t, a)
    ensures o.status == FILLED && !cancelled
    ensures FilledOf(a.message) == o.filled && AvgOf(a.message) == o.AvgEntry().GetOr(0.0)
  {
    var k :| 0 <= k < |messages| && messages[k] == a.message;
  }

  /** Some arrival settles the trade at once. */
  ghost predicate SettlesLate(t: L.Trade, about: seq<Arrival>) {
    exists k :: 0 <= k < |about| && SettlesNow(t, about[k])
  }

  /** What the whole way from the engine to the ledger makes of a trade. */
  ghost predicate Arrived(t: L.Trade, o: Order, cancelled: bool, settled: bool, t': L.Trade) {
    if o.filled > 0.0 then
      && t'.shares == Some(o.filled) && t'.avgPrice == o.AvgEntry()
      && (if settled
          then o.status == FILLED && t'.result in {L.Win, L.Loss} && t'.amount == t.amount
          else t'.result == L.Pending && t'.amount == if cancelled then o.entryCost else t.amount)
    else if cancelled then t'.result == L.Cancelled && t'.profit == Some(0.0) && t'.amount == t.amount
    else t' == t
  }

  /** Messages of an order with fills leave the trade standing. */
  lemma ArrivalsKeepTrade(o: Order, messages: seq<Message>, cancelled: bool, about: seq<Arrival>)
    requires o.filled > 0.0 && WellTold(o, messages, cancelled) && OrderOk(o)
    requires forall m :: m in MessagesOf(about) ==> m in messages
    ensures forall k :: 0 <= k < |about| ==> about[k].message in messages && KeepsTrade(about[k].message)
  {
    hide OrderOk, WellTold;
    forall k | 0 <= k < |about| ensures about[k].message in messages && KeepsTrade(about[k].message) {
      assert MessagesOf(about)[k] in MessagesOf(about);
      PublishedKeepTrade(o, messages, cancelled, about[k].message);
    }
  }

  /** Fills, the last of which settles the trade. */
  lemma FillsSettle(o: Order, messages: seq<Message>, cancelled: bool, about: seq<Arrival>, n: nat, t: L.Trade,
                    t': L.Trade)
    requires OrderOk(o) && o.filled > 0.0 && WellTold(o, messages, cancelled)
    requires n < |about| && SettlesNow(t, about[n])
    requires forall k :: 0 <= k < |about| ==> about[k].message in messages
    requires Finished(t, MessagesOf(about[..n]), about[n].message, t')
    ensures Arrived(t, o, cancelled, true, t')
  {
    SettlingTellsAll(o, messages, cancelled, t, about[n]);
    AverageIs(o);
    var before := MessagesOf(about[..n]);
    hide OrderOk, WellTold, Worth, Spent;
    forall m | m in before ensures m in messages && m.FillNote? {
      var k :| 0 <= k < n && before[k] == m;
      assert m == about[k].message;
      if m.CancelNote? {
        CancelTellsAll(o, messages, cancelled, m);
      }
    }
    SpentDelivered(o, messages, cancelled, before);
  }

  /** Fills and perhaps a cancellation, none of which finishes the trade. */
  lemma FillsStand(o: Order, messages: seq<Message>, cancelled: bool, delivered: seq<Message>, t: L.Trade, t': L.Trade)
    requires OrderOk(o) && o.filled > 0.0 && WellTold(o, messages, cancelled)
    requires TwoStreams(messages, delivered) && Mirrors(t, delivered, t')
    ensures Arrived(t, o, cancelled, false, t')
  {
    DeliveredWasPublished(messages, delivered);
    AverageIs(o);
    FilledIsTold(o, messages, cancelled);
    hide OrderOk, WellTold, Worth, TwoStreams, Spent;
    LastDelivered(o, messages, cancelled, delivered);
    SpentDelivered(o, messages, cancelled, delivered);
    CancelsDelivered(o, messages, cancelled, delivered);
  }

  /** With fills, the trade ends as the order says. */
  lemma FillsArrive(o: Order, messages: seq<Message>, cancelled: bool, about: seq<Arrival>, t: L.Trade, t': L.Trade)
    requires OrderOk(o) && o.filled > 0.0 && WellTold(o, messages, cancelled)
    requires TwoStreams(messages, MessagesOf(about)) && Became(t, about, t')
    ensures Arrived(t, o, cancelled, SettlesLate(t, about), t')
  {
    var n := FirstEnd(t, about);
    DeliveredWasPublished(messages, MessagesOf(about));
    ArrivalsKeepTrade(o, messages, cancelled, about);
    hide OrderOk, WellTold, TwoStreams, Mirrors, Finished, Arrived, SettlesNow, KeepsTrade;
    if n < |about| {
      FillsSettle(o, messages, cancelled, about, n, t, t');
    } else {
      FillsStand(o, messages, cancelled, MessagesOf(about), t, t');
    }
  }

  lemma FilledIsTold(o: Order, messages: seq<Message>, cancelled: bool)
    requires WellTold(o, messages, cancelled) && o.filled > 0.0
    ensures messages != []
  {
  }

  /** A cancellation that was published has arrived. */
  lemma CancelsDelivered(o: Order, messages: seq<Message>, cancelled: bool, delivered: seq<Message>)
    requires WellTold(o, messages, cancelled) && TwoStreams(messages, delivered)
    ensures cancelled <==> exists m :: m in delivered && m.CancelNote?
  {
    DeliveredWasPublished(messages, delivered);
    StreamsHold(messages);
    StreamsHold(delivered);
    RepeatsAreFrom(CancelNotes(messages), CancelNotes(delivered));
    if cancelled {
      var cancels := CancelNotes(delivered);
      assert cancels[|cancels| - 1] in cancels;
    }
    if m :| m in delivered && m.CancelNote? {
      CancelTellsAll(o, messages, cancelled, m);
    }
  }

  /** Without fills there is at most the cancellation, and its first arrival finishes the trade. */
  lemma EmptyCancelArrives(o: Order, messages: seq<Message>, cancelled: bool, about: seq<Arrival>, t: L.Trade,
                           t': L.Trade)
    requires o.filled <= 0.0 && WellTold(o, messages, cancelled)
    requires TwoStreams(messages, MessagesOf(about)) && Became(t, about, t')
    ensures if cancelled then t'.result == L.Cancelled && t'.profit == Some(0.0) && t'.amount == t.amount else t' == t
  {
    var delivered := MessagesOf(about);
    DeliveredWasPublished(messages, delivered);
    CancelsDelivered(o, messages, cancelled, delivered);
    if about == [] {
      assert delivered == [];
    } else {
      var first := delivered[0];
      assert first in delivered && first in messages;
      OnlyCancels(o, messages, cancelled, first);
      CancelTellsAll(o, messages, cancelled, first);
      hide WellTold, TwoStreams;
      assert Ends(t, about[0]);
      assert FirstEnd(t, about) == 0;
      assert MessagesOf(about[..0]) == [];
    }
  }

  lemma OnlyCancels(o: Order, messages: seq<Message>, cancelled: bool, m: Message)
    requires WellTold(o, messages, cancelled) && o.filled <= 0.0 && m in messages
    ensures m.CancelNote?
  {
    var k :| 0 <= k < |messages| && messages[k] == m;
  }

  /**
   End to end. A LIMIT order is placed for a pending trade and followed over any legal run of its
   book. The consumer's messages about the trade arrive among those about other trades, at any times
   and with any candles: the fills in order, the cancellations in order, each any number of times, the
   two streams merged in any way. Then the trade holds exactly the order's shares at its average
   price. It is settled exactly when a complete fill arrived late with a candle at hand, and then with
   its whole amount, as a filled order is never cancelled; otherwise it is pending, with its whole
   amount until the order is cancelled and exactly the entry cost after. An order cancelled without
   fills cancels its trade.
   */
  lemma EndToEnd(ops: seq<Op>, bos: Assigned, o: Order, l: L.Ledger, arrivals: seq<Arrival>)
    requires Legal(ops) && OneTradeEach(bos)
    requires o in Run(ops).book.orders && o.terms.id in bos && !o.terms.isMarket
    requires L.Linked(l) && bos[o.terms.id] < |l.trades| && l.trades[bos[o.terms.id]].result == L.Pending
    requires var bo := bos[o.terms.id];
      TwoStreams(MessagesAbout(bo, Consume(ops, bos).messages), MessagesOf(About(bo, arrivals)))
    ensures var bo := bos[o.terms.id];
      var t, about := l.trades[bo], About(bo, arrivals);
      Arrived(t, o, CancelToldOf(ops, o.terms.id), SettlesLate(t, about), Deliver(l, arrivals).trades[bo])
  {
    var bo := bos[o.terms.id];
    var messages, about := MessagesAbout(bo, Consume(ops, bos).messages), About(bo, arrivals);
    var cancelled := CancelToldOf(ops, o.terms.id);
    hide *;
    RunWell(ops);
    OrderIsOk(Run(ops).book, o);
    RunWellTold(ops, bos, o);
    TradeIsThere(l, arrivals);
    DeliverBecomes(l, arrivals, bo);
    var t, t' := l.trades[bo], Deliver(l, arrivals).trades[bo];
    if o.filled > 0.0 {
      FillsArrive(o, messages, cancelled, about, t, t');
    } else {
      EmptyCancelArrives(o, messages, cancelled, about, t, t');
      NothingArrives(t, o, cancelled, SettlesLate(t, about), t');
    }
  }

  lemma TradeIsThere(l: L.Ledger, arrivals: seq<Arrival>)
    requires L.Linked(l)
    ensures |Deliver(l, arrivals).trades| >= |l.trades|
  {
  }

  lemma NothingArrives(t: L.Trade, o: Order, cancelled: bool, settled: bool, t': L.Trade)
    requires o.filled <= 0.0
    requires if cancelled then t'.result == L.Cancelled && t'.profit == Some(0.0) && t'.amount == t.amount else t' == t
    ensures Arrived(t, o, cancelled, settled, t')
  {
  }

  /** Every one of these arrivals was published about the trade. */
  ghost predicate AllPublished(messages: seq<Message>, about: seq<Arrival>) {
    about != [] && forall m :: m in MessagesOf(about) ==> m in messages
  }

  /** The trade holds all the shares exactly when it was settled or the last arrival was a newest message. */
  ghost predicate HoldsIfNewest(o: Order, messages: seq<Message>, about: seq<Arrival>, t: L.Trade, t': L.Trade)
    requires about != []
  {
    && t'.shares.Some? && t'.shares.value <= o.filled
    && (t'.shares.value == o.filled <==> SettlesLate(t, about) || IsNewest(messages, about[|about| - 1].message))
  }

  /**
   Messages in any order: any selection of what was published about the trade arrives, stale messages
   after newer ones included. Then the trade never holds more than the order's shares, and it holds
   them all exactly when an arrival settled it or the last arrival was published after the last fill
   or as the last fill. Any other last arrival leaves it short.
   */
  lemma StaleExactly(ops: seq<Op>, bos: Assigned, o: Order, l: L.Ledger, arrivals: seq<Arrival>)
    requires Legal(ops) && OneTradeEach(bos) && o.filled > 0.0
    requires o in Run(ops).book.orders && o.terms.id in bos && !o.terms.isMarket
    requires L.Linked(l) && bos[o.terms.id] < |l.trades| && l.trades[bos[o.terms.id]].result == L.Pending
    requires var bo := bos[o.terms.id]; AllPublished(MessagesAbout(bo, Consume(ops, bos).messages), About(bo, arrivals))
    ensures var bo := bos[o.terms.id];
      HoldsIfNewest(o, MessagesAbout(bo, Consume(ops, bos).messages), About(bo, arrivals), l.trades[bo],
                    Deliver(l, arrivals).trades[bo])
  {
    var bo := bos[o.terms.id];
    var messages, about := MessagesAbout(bo, Consume(ops, bos).messages), About(bo, arrivals);
    var cancelled := CancelToldOf(ops, o.terms.id);
    var t, t' := l.trades[bo], Deliver(l, arrivals).trades[bo];
    hide *;
    RunWell(ops);
    OrderIsOk(Run(ops).book, o);
    RunWellTold(ops, bos, o);
    TradeIsThere(l, arrivals);
    DeliverBecomes(l, arrivals, bo);
    StaleTrade(o, messages, cancelled, about, t, t');
  }

  /** No fill was published after this message. */
  ghost predicate IsNewest(messages: seq<Message>, m: Message) {
    exists k: nat :: k < |messages| && messages[k] == m && Newest(messages, k)
  }

  /** A message tells all the shares exactly when it is a newest one, and never more. */
  lemma NewestExactly(o: Order, messages: seq<Message>, cancelled: bool, m: Message)
    requires WellTold(o, messages, cancelled) && m in messages
    ensures FilledOf(m) <= o.filled
    ensures FilledOf(m) == o.filled <==> IsNewest(messages, m)
  {
    var k: nat :| k < |messages| && messages[k] == m;
    hide Newest;
  }

  lemma StaleTrade(o: Order, messages: seq<Message>, cancelled: bool, about: seq<Arrival>, t: L.Trade, t': L.Trade)
    requires OrderOk(o) && o.filled > 0.0 && WellTold(o, messages, cancelled) && AllPublished(messages, about)
    requires Became(t, about, t')
    ensures HoldsIfNewest(o, messages, about, t, t')
  {
    var n := FirstEnd(t, about);
    ArrivalsKeepTrade(o, messages, cancelled, about);
    hide OrderOk, WellTold, IsNewest, Spent;
    if n < |about| {
      SettlingTellsAll(o, messages, cancelled, t, about[n]);
    } else {
      NewestExactly(o, messages, cancelled, about[|about| - 1].message);
    }
  }

  // ---------- Money ----------

  /** The order was placed, at its limit, for as much as the trade holds. */
  ghost predicate Funded(ops: seq<Op>, o: Order, t: L.Trade) {
    && o.terms.side == BUY && !o.terms.isMarket
    && exists i :: 0 <= i < |ops| && ops[i].PlaceOrder? && ops[i].terms.id == o.terms.id
                   && Worth(ops[i].quantity, ops[i].terms.price) == t.amount
  }

  /** What order creation queues unfilled is placed so. */
  lemma QueuedIsFunded(q: L.QueueMessage, t: L.Trade, id: OrderId, now: nat, bestAsk: Option<Price>)
    requires QueuedAsHeld(q, t) && q.prefilled.None?
    ensures var terms := TermsFor(q, id, now);
      && terms.side == BUY && !terms.isMarket && Worth(QuantityFor(q, bestAsk), terms.price) == t.amount
  {
    hide Worth;
  }

  /** A funded order never costs more than the trade holds. */
  lemma FundedCovers(ops: seq<Op>, o: Order, t: L.Trade)
    requires Legal(ops) && o in Run(ops).book.orders && Funded(ops, o, t)
    ensures OrderOk(o) && o.entryCost <= t.amount
  {
    RunWell(ops);
    OrderIsOk(Run(ops).book, o);
    var i :| 0 <= i < |ops| && ops[i].PlaceOrder? && ops[i].terms.id == o.terms.id
      && Worth(ops[i].quantity, ops[i].terms.price) == t.amount;
    hide Run, Legal, OrderOk;
    PlacedQuantity(ops, i, o);
    LimitCost(o, ops[i].quantity);
  }

  lemma LimitCost(o: Order, quantity: real)
    requires OrderOk(o) && o.terms.side == BUY && !o.terms.isMarket && o.quantity <= quantity
    ensures o.entryCost <= Worth(quantity, o.terms.price)
  {
    assert o.filled <= quantity;
    F.ScaleUp(o.terms.price, o.filled, quantity);
  }

  /** No published cancellation claims more than the trade holds when it arrives. */
  lemma NothingOverspent(o: Order, messages: seq<Message>, cancelled: bool, about: seq<Arrival>, t: L.Trade,
                         l: L.Ledger, m: Message)
    requires OrderOk(o) && WellTold(o, messages, cancelled) && o.entryCost <= t.amount
    requires (forall x :: x in MessagesOf(about) ==> x in messages) && m in messages && m.CancelNote?
    requires BoOf(m) < |l.trades| && Became(t, about, l.trades[BoOf(m)])
    ensures P.Overspent(l, m.cancel) == 0.0
  {
    var t' := l.trades[BoOf(m)];
    CancelTellsAll(o, messages, cancelled, m);
    var n := FirstEnd(t, about);
    if n < |about| {
      FinishedIsNotPending(t, MessagesOf(about[..n]), about[n].message, t');
    } else if o.filled > 0.0 {
      AverageIs(o);
      SpentDelivered(o, messages, cancelled, MessagesOf(about));
    }
    hide OrderOk, WellTold, Worth, Spent, FirstEnd;
  }

  lemma {:induction false} AboutMembers(bo: nat, arrivals: seq<Arrival>)
    ensures forall a :: a in About(bo, arrivals) <==> a in arrivals && BoOf(a.message) == bo
  {
    if arrivals != [] {
      var n := |arrivals| - 1;
      AboutMembers(bo, arrivals[..n]);
      assert arrivals == arrivals[..n] + [arrivals[n]];
    }
  }

  /** Every arrival about the trade was published. */
  ghost predicate Published(ops: seq<Op>, bos: Assigned, bo: nat, arrivals: seq<Arrival>) {
    forall a :: a in arrivals && BoOf(a.message) == bo ==> a.message in MessagesAbout(bo, Consume(ops, bos).messages)
  }

  lemma PublishedAbout(ops: seq<Op>, bos: Assigned, bo: nat, arrivals: seq<Arrival>)
    requires Published(ops, bos, bo, arrivals)
    ensures forall x :: x in MessagesOf(About(bo, arrivals)) ==> x in MessagesAbout(bo, Consume(ops, bos).messages)
  {
    AboutMembers(bo, arrivals);
    var about := About(bo, arrivals);
    forall x | x in MessagesOf(about) ensures x in MessagesAbout(bo, Consume(ops, bos).messages) {
      var k :| 0 <= k < |about| && MessagesOf(about)[k] == x;
      assert about[k] in about;
    }
  }

  /** For a funded order, at no arrival does a cancellation claim more than the trade then holds. */
  lemma ArrivalSpends(ops: seq<Op>, bos: Assigned, o: Order, l: L.Ledger, arrivals: seq<Arrival>, m: Message)
    requires Legal(ops) && OneTradeEach(bos) && o in Run(ops).book.orders && o.terms.id in bos
    requires L.Linked(l) && bos[o.terms.id] < |l.trades| && l.trades[bos[o.terms.id]].result == L.Pending
    requires Funded(ops, o, l.trades[bos[o.terms.id]]) && Published(ops, bos, bos[o.terms.id], arrivals)
    requires m in MessagesAbout(bos[o.terms.id], Consume(ops, bos).messages)
    requires m.CancelNote? && BoOf(m) == bos[o.terms.id]
    ensures P.Overspent(Deliver(l, arrivals), m.cancel) == 0.0
  {
    var bo := bos[o.terms.id];
    assert !o.terms.isMarket;
    hide *;
    FundedCovers(ops, o, l.trades[bo]);
    RunWellTold(ops, bos, o);
    DeliverBecomes(l, arrivals, bo);
    TradeIsThere(l, arrivals);
    PublishedAbout(ops, bos, bo, arrivals);
    NothingOverspent(o, MessagesAbout(bo, Consume(ops, bos).messages), CancelToldOf(ops, o.terms.id),
                     About(bo, arrivals), l.trades[bo], Deliver(l, arrivals), m);
  }

  lemma DeliverUnfolds(l: L.Ledger, arrivals: seq<Arrival>)
    requires L.Linked(l) && arrivals != []
    ensures var prev := Deliver(l, arrivals[..|arrivals| - 1]);
      L.Linked(prev) && Deliver(l, arrivals) == Receive(prev, arrivals[|arrivals| - 1])
  {
    hide Receive, L.Linked;
  }

  lemma PublishedBefore(ops: seq<Op>, bos: Assigned, bo: nat, arrivals: seq<Arrival>)
    requires Published(ops, bos, bo, arrivals) && arrivals != []
    ensures Published(ops, bos, bo, arrivals[..|arrivals| - 1])
    ensures var a := arrivals[|arrivals| - 1];
      BoOf(a.message) == bo ==> a.message in MessagesAbout(bo, Consume(ops, bos).messages)
  {
    hide Consume, MessagesAbout;
    assert arrivals[|arrivals| - 1] in arrivals;
    assert forall a :: a in arrivals[..|arrivals| - 1] ==> a in arrivals;
  }

  /**
   No arrival about a funded order's trade, in whatever order, replayed or late, moves any bot off the
   ledger identity.
   */
  lemma ArrivalConserves(ops: seq<Op>, bos: Assigned, o: Order, l: L.Ledger, arrivals: seq<Arrival>, b: nat)
    requires Legal(ops) && OneTradeEach(bos) && o in Run(ops).book.orders && o.terms.id in bos
    requires L.Linked(l) && bos[o.terms.id] < |l.trades| && l.trades[bos[o.terms.id]].result == L.Pending
    requires Funded(ops, o, l.trades[bos[o.terms.id]]) && Published(ops, bos, bos[o.terms.id], arrivals)
    requires b < |l.bots| && arrivals != [] && BoOf(arrivals[|arrivals| - 1].message) == bos[o.terms.id]
    ensures var before, after := Deliver(l, arrivals[..|arrivals| - 1]), Deliver(l, arrivals);
      b < |before.bots| && b < |after.bots| && P.Standing(after, b) == P.Standing(before, b)
  {
    var bo, init, a := bos[o.terms.id], arrivals[..|arrivals| - 1], arrivals[|arrivals| - 1];
    hide *;
    hide Funded;
    var prev := Deliver(l, init);
    DeliverUnfolds(l, arrivals);
    BotsAreThere(l, init);
    PublishedBefore(ops, bos, bo, arrivals);
    if a.message.CancelNote? {
      ArrivalSpends(ops, bos, o, l, init, a.message);
    }
    ReceiveConserves(prev, a, b);
  }

  lemma BotsAreThere(l: L.Ledger, arrivals: seq<Arrival>)
    requires L.Linked(l)
    ensures |Deliver(l, arrivals).bots| >= |l.bots|
  {
  }

  lemma ReceiveConserves(l: L.Ledger, a: Arrival, b: nat)
    requires L.Linked(l) && b < |l.bots|
    requires a.message.CancelNote? ==> P.Overspent(l, a.message.cancel) == 0.0
    ensures b < |Receive(l, a).bots| && P.Standing(Receive(l, a), b) == P.Standing(l, b)
  {
    hide P.Standing, L.HandleFill, L.HandleCancel, P.Overspent, L.Linked;
    match a.message
    case FillNote(fill) => P.FillStanding(l, fill, a.at, a.candle, b);
    case CancelNote(cancel) => P.CancelDrift(l, cancel, b);
  }

  /** What the bot has, what the trade holds, and the fee it was charged. */
  function Funds(l: L.Ledger, bo: nat): real
    requires bo < |l.trades| && l.trades[bo].bot < |l.bots|
  {
    l.bots[l.trades[bo].bot].balance + l.trades[bo].amount + l.trades[bo].entryFee
  }

  lemma ReceiveKeepsFunds(l: L.Ledger, a: Arrival)
    requires L.Linked(l) && BoOf(a.message) < |l.trades|
    requires a.message.CancelNote? ==> P.Overspent(l, a.message.cancel) == 0.0
    ensures var bo, r := BoOf(a.message), Receive(l, a);
      && bo < |r.trades| && r.trades[bo].bot == l.trades[bo].bot && r.trades[bo].bot < |r.bots|
      && (r.trades[bo].result == L.Pending ==> l.trades[bo].result == L.Pending && Funds(r, bo) == Funds(l, bo))
  {
    var bo := BoOf(a.message);
    match a.message
    case FillNote(fill) =>
      P.FillFollows(l, fill, a.at, a.candle);
      if l.trades[bo].result == L.Pending {
        P.FillFinishes(l, fill, a.at, a.candle);
        RecordKeepsFunds(l, fill);
      }
      hide L.HandleFill, L.RecordFill;
    case CancelNote(cancel) =>
      hide Worth;
  }

  lemma RecordKeepsFunds(l: L.Ledger, m: L.FillMessage)
    requires L.Linked(l) && m.id < |l.trades|
    ensures var r := L.RecordFill(l, m);
      m.id < |r.trades| && r.trades[m.id].bot == l.trades[m.id].bot < |r.bots| && Funds(r, m.id) == Funds(l, m.id)
  {
    hide F.MakerRebate;
  }

  /** While only the trade's own messages arrive and it stays pending, money only moves within its funds. */
  lemma {:induction false} DeliverKeepsFunds(ops: seq<Op>, bos: Assigned, o: Order, l: L.Ledger, arrivals: seq<Arrival>)
    requires Legal(ops) && OneTradeEach(bos) && o in Run(ops).book.orders && o.terms.id in bos
    requires L.Linked(l) && bos[o.terms.id] < |l.trades| && l.trades[bos[o.terms.id]].result == L.Pending
    requires Funded(ops, o, l.trades[bos[o.terms.id]]) && Published(ops, bos, bos[o.terms.id], arrivals)
    requires forall a :: a in arrivals ==> BoOf(a.message) == bos[o.terms.id]
    ensures var bo, r := bos[o.terms.id], Deliver(l, arrivals);
      && r.trades[bo].bot == l.trades[bo].bot && r.trades[bo].bot < |r.bots| && l.trades[bo].bot < |l.bots|
      && (r.trades[bo].result == L.Pending ==> Funds(r, bo) == Funds(l, bo))
  {
    var bo := bos[o.terms.id];
    LinkedTrade(l, bo);
    hide *;
    if arrivals == [] {
      NothingDelivered(l);
    } else {
      var init, a := arrivals[..|arrivals| - 1], arrivals[|arrivals| - 1];
      var prev := Deliver(l, init);
      assert a in arrivals && forall x :: x in init ==> x in arrivals;
      DeliverUnfolds(l, arrivals);
      TradeIsThere(l, init);
      PublishedBefore(ops, bos, bo, arrivals);
      DeliverKeepsFunds(ops, bos, o, l, init);
      if a.message.CancelNote? {
        ArrivalSpends(ops, bos, o, l, init, a.message);
      }
      ReceiveKeepsFunds(prev, a);
    }
  }

  lemma LinkedTrade(l: L.Ledger, bo: nat)
    requires L.Linked(l) && bo < |l.trades|
    ensures l.trades[bo].bot < |l.bots|
  {
  }

  lemma NothingDelivered(l: L.Ledger)
    requires L.Linked(l)
    ensures Deliver(l, []) == l
  {
  }

  /**
   The refund, end to end: once a funded order is cancelled with fills and its messages have arrived,
   the bot has got back exactly the amount less the entry cost, but for what fees and rebates moved.
   */
  lemma RefundArrives(ops: seq<Op>, bos: Assigned, o: Order, l: L.Ledger, arrivals: seq<Arrival>)
    requires Legal(ops) && OneTradeEach(bos) && o in Run(ops).book.orders && o.terms.id in bos && o.filled > 0.0
    requires L.Linked(l) && bos[o.terms.id] < |l.trades| && l.trades[bos[o.terms.id]].result == L.Pending
    requires Funded(ops, o, l.trades[bos[o.terms.id]]) && CancelToldOf(ops, o.terms.id)
    requires forall a :: a in arrivals ==> BoOf(a.message) == bos[o.terms.id]
    requires var bo := bos[o.terms.id];
      TwoStreams(MessagesAbout(bo, Consume(ops, bos).messages), MessagesOf(About(bo, arrivals)))
    ensures var bo, r := bos[o.terms.id], Deliver(l, arrivals);
      var t, t' := l.trades[bo], r.trades[bo];
      && t'.result == L.Pending && t'.bot == t.bot && t.bot < |l.bots| && t.bot < |r.bots|
      && r.bots[t.bot].balance == l.bots[t.bot].balance + (t.amount - o.entryCost) + (t.entryFee - t'.entryFee)
  {
    var bo := bos[o.terms.id];
    assert !o.terms.isMarket;
    StreamsArePublished(ops, bos, bo, arrivals);
    TradeIsThere(l, arrivals);
    EndToEnd(ops, bos, o, l, arrivals);
    DeliverKeepsFunds(ops, bos, o, l, arrivals);
    RunWellTold(ops, bos, o);
    hide Deliver, Run, Consume, MessagesAbout, TwoStreams, Legal, WellTold, Published, About, L.Linked;
    if SettlesLate(l.trades[bo], About(bo, arrivals)) {
      CancelledIsNotFilled(ops, bos, o);
    }
  }

  lemma CancelledIsNotFilled(ops: seq<Op>, bos: Assigned, o: Order)
    requires CancelToldOf(ops, o.terms.id)
    requires WellTold(o, MessagesAbout(if o.terms.id in bos then bos[o.terms.id] else 0, Consume(ops, bos).messages),
                      CancelToldOf(ops, o.terms.id))
    ensures o.status == CANCELED
  {
  }

  lemma StreamsArePublished(ops: seq<Op>, bos: Assigned, bo: nat, arrivals: seq<Arrival>)
    requires TwoStreams(MessagesAbout(bo, Consume(ops, bos).messages), MessagesOf(About(bo, arrivals)))
    ensures Published(ops, bos, bo, arrivals)
  {
    var messages, about := MessagesAbout(bo, Consume(ops, bos).messages), About(bo, arrivals);
    DeliveredWasPublished(messages, MessagesOf(about));
    AboutMembers(bo, arrivals);
    hide TwoStreams, Consume, MessagesAbout, About;
    forall a | a in arrivals && BoOf(a.message) == bo ensures a.message in messages {
      var k :| 0 <= k < |about| && about[k] == a;
      assert MessagesOf(about)[k] in MessagesOf(about);
    }
  }
}
