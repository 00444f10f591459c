/** What the lifecycle promises its users: sessions in time, events to every owner, and orders told of their end. */
module SessionTheorems {
  import opened Prelude
  import opened Orders
  import opened Calendar
  import opened Sessions
  import opened SessionProofs
  import opened SessionRegistry
  import Books
  import BookSafety
  import BookSteps
  import Brackets
  import Expiry

  // ---------- Sessions are there in time ----------

  lemma {:induction false} MarketEnsured(r: Registry, symbol: string, tf: Timeframe,
                                         resolved: map<SessionId, Tokens>, now: int, n: nat)
    requires n <= |ExpectedCandleOpens(tf, now / Calendar.SECOND)|
    ensures var opens := ExpectedCandleOpens(tf, now / Calendar.SECOND);
      var r' := EnsureMarket(r, symbol, tf, resolved, now, n);
      && (forall id :: id in r ==> id in r' && r'[id] == r[id])
      && (forall k :: 0 <= k < n ==>
            var id := SessionId(symbol, tf, opens[k]);
            id in r' <==> id in r || (id in resolved && resolved[id] != map[]))
      && (forall id :: id in r' && id !in r ==> exists k :: 0 <= k < n && id == SessionId(symbol, tf, opens[k]))
  {
    hide ExpectedCandleOpens, Transition, NewEngine, CurrentOpen;
    if n > 0 {
      MarketEnsured(r, symbol, tf, resolved, now, n - 1);
    }
  }

  /** Ensuring all markets leaves every market ensured, and every session that was there as it was. */
  lemma {:induction false} MarketsEnsured(r: Registry, markets: seq<Market>, resolved: map<SessionId, Tokens>, now: int,
                                          n: nat, id: SessionId)
    requires n <= |markets|
    ensures var r' := EnsureMarkets(r, markets, resolved, now, n);
      && (id in r ==> id in r' && r'[id] == r[id])
      && ((id.symbol, id.timeframe) in markets[..n]
          && id.open in ExpectedCandleOpens(id.timeframe, now / Calendar.SECOND) ==>
            (id in r' <==> id in r || (id in resolved && resolved[id] != map[])))
      && (id in r' && id !in r ==> id in resolved && resolved[id] != map[])
  {
    hide ExpectedCandleOpens, EnsureMarket;
    if n > 0 {
      var prev, symbol, tf := EnsureMarkets(r, markets, resolved, now, n - 1), markets[n - 1].0, markets[n - 1].1;
      var opens := ExpectedCandleOpens(tf, now / Calendar.SECOND);
      MarketsEnsured(r, markets, resolved, now, n - 1, id);
      MarketEnsured(prev, symbol, tf, resolved, now, |opens|);
      assert markets[..n] == markets[..n - 1] + [markets[n - 1]];
      if id.symbol == symbol && id.timeframe == tf && id.open in opens {
        var k :| 0 <= k < |opens| && opens[k] == id.open;
        assert SessionId(symbol, tf, opens[k]) == id;
      }
      var r' := EnsureMarkets(r, markets, resolved, now, n);
      if id in r' && id !in prev {
        var k :| 0 <= k < |opens| && id == SessionId(symbol, tf, opens[k]);
      }
    }
  }

  /**
   Once the lifecycle has ensured its markets, every session an order can be routed to within the next
   twenty seconds is there, as far as its tokens were known, and no cleanup takes it away by then.
   */
  lemma RoutableIsReady(r: Registry, markets: seq<Market>, resolved: map<SessionId, Tokens>, at: nat, symbol: string,
                        tf: Timeframe, offset: nat, micros: nat)
    requires (symbol, tf) in markets
    requires at / Calendar.SECOND <= micros / Calendar.SECOND <= at / Calendar.SECOND + PRE_CREATE_BUFFER
    ensures var id := SessionId(symbol, tf, ResolveSession(tf, None, offset, micros).value.candleOpen);
      var r' := EnsureMarkets(r, markets, resolved, at, |markets|);
      && (id in r' <==> id in r || (id in resolved && resolved[id] != map[]))
      && (id in r' ==> id in Cleanup(r', micros))
  {
    var id := SessionId(symbol, tf, ResolveSession(tf, None, offset, micros).value.candleOpen);
    RoutingIsCovered(tf, at / Calendar.SECOND, micros, offset);
    MarketsEnsured(r, markets, resolved, at, |markets|, id);
    RoutedIsNotOver(symbol, tf, offset, micros);
    hide ExpectedCandleOpens, ResolveSession, EnsureMarkets, Over;
    assert markets[..|markets|] == markets;
  }

  lemma RoutedIsNotOver(symbol: string, tf: Timeframe, offset: nat, micros: nat)
    ensures !Over(SessionId(symbol, tf, ResolveSession(tf, None, offset, micros).value.candleOpen), micros)
  {
    OnGrid(tf, micros / Calendar.SECOND, 0);
    hide CurrentOpen;
    match tf
    case M5 =>
    case M15 =>
  }

  // ---------- Events reach every owner once ----------

  function Operated(e: Engine, token: Token, ops: seq<Books.Op>): Engine {
    if ops == [] then e else OnBook(Operated(e, token, ops[..|ops| - 1]), token, ops[|ops| - 1])
  }

  lemma {:induction false} OperatedIsApplied(e: Engine, token: Token, ops: seq<Books.Op>)
    requires forall op :: op in ops ==> !Places(op)
    requires DirectionOf(e.tokens, token).Some? && DirectionOf(e.tokens, token).value in e.books
    ensures var d := DirectionOf(e.tokens, token).value;
      Operated(e, token, ops) == e.(books := e.books[d := Apply(e.books[d], ops)])
  {
    hide Books.Step, DirectionOf;
    if ops == [] {
      assert e.books[DirectionOf(e.tokens, token).value := e.books[DirectionOf(e.tokens, token).value]] == e.books;
    } else {
      var init, last := ops[..|ops| - 1], ops[|ops| - 1];
      assert last in ops && forall op :: op in init ==> op in ops;
      OperatedIsApplied(e, token, init);
    }
  }

  /** A feed event is a sequence of book operations none of which places an order. */
  lemma DispatchIsOperations(e: Engine, token: Token, event: FeedEvent, now: int)
    ensures var d := DirectionOf(e.tokens, token);
      if e.state == ARCHIVED || d.None? || d.value !in e.books then Dispatch(e, token, event, now) == e
      else
        var ops := EventOps(e.books[d.value], event, now);
        (forall op :: op in ops ==> !Places(op)) && Dispatch(e, token, event, now) == Operated(e, token, ops)
  {
    hide DirectionOf, Apply, InferChange, Operated;
    var d := DirectionOf(e.tokens, token);
    if !(e.state == ARCHIVED || d.None? || d.value !in e.books) {
      OperatedIsApplied(e, token, EventOps(e.books[d.value], event, now));
    }
  }

  /** Handing an event to sessions in turn, each listed once, is handing it to each on its own. */
  lemma {:induction false} DispatchEach(r: Registry, ids: seq<SessionId>, n: nat, token: Token, event: FeedEvent,
                                        now: int)
    requires n <= |ids| && NoRepeats(ids)
    ensures var r' := DispatchAll(r, ids, n, token, event, now);
      && r'.Keys == r.Keys
      && forall id :: id in r ==> r'[id] == if id in ids[..n] then Dispatch(r[id], token, event, now) else r[id]
  {
    hide Dispatch;
    if n > 0 {
      DispatchEach(r, ids, n - 1, token, event, now);
      assert ids[..n] == ids[..n - 1] + [ids[n - 1]];
      assert ids[n - 1] !in ids[..n - 1];
    }
  }

  /** Every session that owns the token gets the event, once, and no other session changes. */
  lemma FeedReachesOwners(r: Registry, index: Index, token: Token, event: FeedEvent, now: int)
    requires Indexed(r, index) && forall id :: id in r ==> Distinct(r[id].tokens)
    ensures var ids := SessionsFor(r, index, token);
      var r' := DispatchAll(r, ids, |ids|, token, event, now);
      && r'.Keys == r.Keys
      && forall id :: id in r ==>
           r'[id] == if token in r[id].tokens.Values then Dispatch(r[id], token, event, now) else r[id]
  {
    IndexIsScan(r, index, token);
    var ids := SessionsFor(r, index, token);
    hide Indexed, Dispatch, SessionsFor, NoRepeats;
    DispatchEach(r, ids, |ids|, token, event, now);
    assert ids[..|ids|] == ids;
    forall id | id in r ensures id in ids <==> token in r[id].tokens.Values {
      assert id in Owners(r, token) <==> token in r[id].tokens.Values;
    }
  }

  // ---------- Orders are told of their end ----------

  ghost predicate CancelTold(events: seq<Books.Event>, o: Order) {
    exists e :: e in events && e.id == o.terms.id && e.kind == Books.CANCEL && e.filled == o.filled
  }

  /** An expiring book publishes the cancellation of every order it had live. */
  lemma ExpiryTells(b: Books.Book, o: Order)
    requires BookSteps.WellBook(b) && o in b.orders && o.Live()
    ensures CancelTold(Books.ExpireBook(b).events, o)
  {
    var i :| 0 <= i < |b.orders| && b.orders[i] == o;
    var orders := Books.CancelOrders(b.orders);
    var prev := Books.Previous(b.reported, o.terms.id);
    NotToldCanceled(b, i);
    assert orders[i] == o.(status := CANCELED);
    var e := Books.Event(o.terms.id, Books.CANCEL, o.terms.side, o.filled, orders[i].AvgEntry(), CANCELED, []);
    hide BookSteps.WellBook, Books.CollectEvents;
    assert e in Books.EventsFor(orders[i], prev);
    Expiry.CollectHolds(orders, b.reported, i, e);
    assert e in Books.ExpireBook(b).events;
  }

  lemma NotToldCanceled(b: Books.Book, i: nat)
    requires BookSteps.WellBook(b) && i < |b.orders| && b.orders[i].Live()
    ensures Books.Previous(b.reported, b.orders[i].terms.id).status != CANCELED
  {
    assert BookSafety.ReportOk(b.orders[i], b.reported);
  }

  /**
   What becomes of a live order when its session is cleaned up: its cancellation is published exactly
   when the session was active. Sessions still in PREFETCH are dropped without a word.
   */
  lemma CleanupTellsExactly(id: SessionId, e: Engine, clock: int, d: Direction, o: Order)
    requires Orderly(id, e, clock) && d in e.books && o in e.books[d].orders && o.Live()
    ensures e.state != SETTLING
    ensures CancelTold(LastEvents(e), o) <==> e.state == ACTIVE
  {
    var b := e.books[d];
    assert BookSteps.WellBook(b);
    if e.state == ACTIVE {
      hide Books.ExpireBook, BookSteps.WellBook, BooksWell;
      ExpiryTells(b, o);
      var told :| told in Books.ExpireBook(b).events && told.id == o.terms.id && told.kind == Books.CANCEL
        && told.filled == o.filled;
      assert told in LastEvents(e) by {
        assert told in ExpiryEvents(e.books, d);
        match d
        case UP =>
        case DOWN =>
      }
    }
  }

  // ---------- What each step does to each session ----------

  /** The open of the candle of a timeframe that is on at `now`. */
  function OpenNow(tf: Timeframe, now: int): int {
    CurrentOpen(tf, now / Calendar.SECOND)
  }

  /** The candle has been over for ten seconds, or the session has settled for longer than the grace period. */
  predicate MustGo(id: SessionId, e: Engine, op: Op, now: int) {
    match op
    case CleanUp => now / Calendar.SECOND > id.open + Period(id.timeframe) + 10
    case ArchiveAfter(grace) => e.state == SETTLING && e.settlingAt.Some? && e.settlingAt.value + grace < now
    case _ => false
  }

  /**
   What a step makes of a session that stays. A rotation of its market activates it when its candle is on,
   unless it is settling, and settles it, with its books expired, when it was active and its candle is over. An
   operation on one of its books changes nothing else. Everything else leaves it as it is.
   */
  ghost predicate MovesOn(id: SessionId, e: Engine, op: Op, now: int, e': Engine) {
    if op.RotateMarket? && op.tokens != map[] && op.symbol == id.symbol && op.timeframe == id.timeframe then
      if e.state == PREFETCH && id.open == OpenNow(id.timeframe, now)
      then e' == e.(state := ACTIVE, activatedAt := Some(now))
      else if e.state == ACTIVE && id.open < OpenNow(id.timeframe, now)
      then e' == e.(state := SETTLING, settlingAt := Some(now), books := e'.books) && BooksDead(e'.books)
      else e' == e
    else if op.Trade? && op.id == id then e' == e.(books := e'.books)
    else e' == e
  }

  /** A step drops exactly the sessions that must go, and moves the others on. */
  lemma StepsExactly(r: Registry, op: Op, now: int, id: SessionId)
    requires AllOrderly(r, now / Calendar.SECOND) && id in r
    ensures var r' := Step(r, op, now);
      && (id in r' <==> !MustGo(id, r[id], op, now))
      && (id in r' ==> MovesOn(id, r[id], op, now, r'[id]))
  {
    var e := r[id];
    assert Orderly(id, e, now / Calendar.SECOND);
    match op
    case RotateMarket(symbol, tf, tokens) => RotateMovesOn(r, symbol, tf, tokens, now, id);
    case _ => hide BooksWell, BooksDead, AllOrderly, ExpireAll, CurrentOpen, Rotate, Refuses, Books.Step, DirectionOf;
  }

  lemma RotateAt(r: Registry, symbol: string, tf: Timeframe, tokens: Tokens, now: int, id: SessionId)
    requires id in r && tokens != map[]
    ensures var current := CurrentId(symbol, tf, now);
      var e := if id == current && r[id].state == PREFETCH then Transition(r[id], ACTIVE, now) else r[id];
      && id in Rotate(r, symbol, tf, tokens, now)
      && Rotate(r, symbol, tf, tokens, now)[id] == AtBoundary(e, symbol, tf, current.open, now)
  {
    hide AtBoundary, Transition, NewEngine, CurrentOpen;
  }

  lemma OneMovesOn(id: SessionId, e: Engine, symbol: string, tf: Timeframe, tokens: Tokens, now: int)
    requires Orderly(id, e, now / Calendar.SECOND) && tokens != map[]
    ensures var current := CurrentId(symbol, tf, now);
      var e1 := if id == current && e.state == PREFETCH then Transition(e, ACTIVE, now) else e;
      MovesOn(id, e, RotateMarket(symbol, tf, tokens), now, AtBoundary(e1, symbol, tf, current.open, now))
  {
    ExpiryKillsAll(e.books);
    hide BooksWell, BooksDead, ExpireAll, CurrentOpen;
  }

  lemma RotateMovesOn(r: Registry, symbol: string, tf: Timeframe, tokens: Tokens, now: int, id: SessionId)
    requires AllOrderly(r, now / Calendar.SECOND) && id in r
    ensures var r' := Rotate(r, symbol, tf, tokens, now);
      id in r' && MovesOn(id, r[id], RotateMarket(symbol, tf, tokens), now, r'[id])
  {
    assert Orderly(id, r[id], now / Calendar.SECOND);
    if tokens != map[] {
      OneMovesOn(id, r[id], symbol, tf, tokens, now);
      RotateAt(r, symbol, tf, tokens, now, id);
      hide *;
    }
  }

  /** A session a step adds is new: with the tokens it was given, empty books, and active if its candle is on. */
  lemma AddsExactly(r: Registry, op: Op, now: int, id: SessionId)
    requires id !in r && id in Step(r, op, now)
    ensures var e := Step(r, op, now)[id];
      && (op.KeepReady? || op.Prefetch? ==> op.id == id)
      && (op.RotateMarket? ==> id == SessionId(op.symbol, op.timeframe, OpenNow(op.timeframe, now)))
      && (op.KeepReady? || op.Prefetch? || op.RotateMarket?)
      && e.id == id && e.tokens == op.tokens && e.books.Keys == op.tokens.Keys
      && (forall d :: d in e.books ==> e.books[d] == Books.EMPTY_BOOK)
      && e.state == (if !op.Prefetch? && id.open == OpenNow(id.timeframe, now) then ACTIVE else PREFETCH)
      && e.activatedAt == (if e.state == ACTIVE then Some(now) else None) && e.settlingAt.None?
  {
    hide CurrentOpen, ExpireAll, Books.Step;
  }

  /** Prefetching leaves the sessions that are there, and adds the others empty and not yet active. */
  lemma PrefetchAddsExactly(r: Registry, future: map<SessionId, Tokens>, id: SessionId)
    ensures var r' := PrefetchAll(r, future);
      && (id in r' <==> id in r || id in future)
      && (id in r ==> r'[id] == r[id])
      && (id !in r && id in future ==>
            && r'[id].state == PREFETCH && r'[id].tokens == future[id] && r'[id].books.Keys == future[id].Keys
            && forall d :: d in r'[id].books ==> r'[id].books[d] == Books.EMPTY_BOOK)
  {
  }

  /** A session archived by hand keeps no book and no token, and never changes again. */
  lemma ArchivedIsEmpty(e: Engine, state: State, now: int, later: int)
    ensures var gone := Transition(e, ARCHIVED, now);
      && gone.state == ARCHIVED && (e.state != ARCHIVED ==> gone.books == map[] && gone.tokens == map[])
      && Transition(gone, state, later) == gone
  {
  }

  predicate TakesOrders(e: Engine, d: Direction, op: Books.Op)
    requires d in e.books
  {
    e.state != ARCHIVED && !e.books[d].expired && !(op.PlaceOrder? && e.state == SETTLING)
  }

  /** A new order gets into a book exactly while its session is not settling and the book has not expired. */
  lemma PlacesExactly(e: Engine, d: Direction, op: Books.Op)
    requires d in e.tokens && Distinct(e.tokens) && d in e.books && BookSteps.WellBook(e.books[d])
    requires BookSteps.Admissible(e.books[d], op) && Places(op)
    ensures var e' := OnBook(e, e.tokens[d], op);
      && d in e'.books
      && |e'.books[d].orders| == |e.books[d].orders| + (if TakesOrders(e, d, op) then 1 else 0)
      && e' == e.(books := e.books[d := e'.books[d]])
  {
    assert DirectionOf(e.tokens, e.tokens[d]) == Some(d);
    Brackets.PlacementWatches(e.books[d], op);
    hide Books.Step, BookSteps.WellBook, BookSteps.Admissible, Brackets.FreshWatched;
    assert e.books[d := e.books[d]] == e.books;
  }
}
