/**
 What an event of the feed leaves behind in the book it is about: the sizes it gave, no order that could
 still match, and no bracket that was not looked at.
 */
module Dispatches {
  import opened Prelude
  import opened Ladders
  import opened Orders
  import opened Sessions
  import opened Feed
  import opened Brackets
  import Passes
  import Books
  import BookSteps
  import BookTheorems
  import Expiry

  // ---------- The sizes an event gives ----------

  /** The size a best price brings with it: its own, or that of the best level when it improves on it. */
  function Quoted(b: Books.Book, side: Side, price: Option<Price>, size: Option<real>, p: Price,
                  before: Option<real>): Option<real>
  {
    var keys := if side == Bid then b.sides.bids.Keys else b.sides.asks.Keys;
    if price != Some(p) then before
    else if size.Some? then (if size.value > 0.0 then size else None)
    else if keys == {} then before
    else if (side == Bid && p > Best(Bid, keys)) || (side == Ask && p < Best(Ask, keys))
    then SizeAt(b.sides, side, Best(side, keys))
    else before
  }

  /** The size an event leaves at a side and price, on the book before matching or on the copy of the feed. */
  function Given(b: Books.Book, event: FeedEvent, side: Side, p: Price, before: Option<real>): Option<real> {
    match event
    case BookEvent(bids, asks) => ListedSize(bids, asks, side, p)
    case PriceChange(changes) => Changed(before, changes, side, p)
    case BestBidAsk(bid, bidSize, ask, askSize) =>
      if side == Bid then Quoted(b, Bid, bid, bidSize, p, before) else Quoted(b, Ask, ask, askSize, p, before)
    case LastTrade => before
    case Resolution => before
  }

  /** The event may have changed a size. */
  predicate Moves(event: FeedEvent) {
    event.BookEvent? || event.PriceChange? || (event.BestBidAsk? && (event.bid.Some? || event.ask.Some?))
  }

  /** The changes that stand for a best bid and ask. */
  lemma QuotesChange(b: Books.Book, bid: Option<Price>, bidSize: Option<real>, ask: Option<Price>,
                     askSize: Option<real>, side: Side, p: Price, before: Option<real>)
    requires BookSteps.WellBook(b)
    ensures var changes := InferChange(b, Bid, bid, bidSize) + InferChange(b, Ask, ask, askSize);
      Changed(before, changes, side, p) == Given(b, BestBidAsk(bid, bidSize, ask, askSize), side, p, before)
  {
    QuoteChanges(b, Bid, bid, bidSize, p, before);
    QuoteChanges(b, Ask, ask, askSize, p, before);
    var first, second := InferChange(b, Bid, bid, bidSize), InferChange(b, Ask, ask, askSize);
    hide Quoted, InferChange;
    OtherSide(first, second, side, p, before);
  }

  lemma QuoteChanges(b: Books.Book, side: Side, price: Option<Price>, size: Option<real>, p: Price,
                     before: Option<real>)
    requires BookSteps.WellBook(b)
    ensures var changes := InferChange(b, side, price, size);
      && |changes| <= 1 && (forall c :: c in changes ==> c.side == side)
      && Changed(before, changes, side, p) == Quoted(b, side, price, size, p, before)
  {
    SidesPositive(b);
    hide BookSteps.WellBook;
  }

  lemma SidesPositive(b: Books.Book)
    requires BookSteps.WellBook(b)
    ensures forall p :: p in b.sides.bids ==> b.sides.bids[p] > 0.0
    ensures forall p :: p in b.sides.asks ==> b.sides.asks[p] > 0.0
  {
  }

  /** Changes of one side and then of the other do not interfere. */
  lemma OtherSide(first: seq<Books.Change>, second: seq<Books.Change>, side: Side, p: Price, before: Option<real>)
    requires |first| <= 1 && |second| <= 1
    requires (forall c :: c in first ==> c.side == Bid) && (forall c :: c in second ==> c.side == Ask)
    ensures Changed(before, first + second, side, p) ==
      if side == Bid then Changed(before, first, Bid, p) else Changed(before, second, Ask, p)
  {
    var all := first + second;
    assert |first| == 1 ==> all[0] == first[0] && first[0] in first;
    assert |second| == 1 ==> all[|first|] == second[0] && second[0] in second;
  }

  // ---------- The book after an event ----------

  /** The operation that brings an event's sizes into the book, if there are any. */
  function Bring(b: Books.Book, event: FeedEvent, now: int): Books.Book {
    match event
    case BookEvent(bids, asks) => Books.Step(b, Books.Snapshot(bids, asks, now)).book
    case PriceChange(changes) => Books.Step(b, Books.Delta(changes, now)).book
    case BestBidAsk(bid, bidSize, ask, askSize) =>
      var changes := InferChange(b, Bid, bid, bidSize) + InferChange(b, Ask, ask, askSize);
      if bid.None? && ask.None? then b
      else if changes == [] then Books.Step(b, Books.Touch(now)).book
      else Books.Step(b, Books.Delta(changes, now)).book
    case _ => b
  }

  lemma NoChange(before: Option<real>, side: Side, p: Price)
    ensures Changed(before, [], side, p) == before
  {
  }

  /** The sizes are those the event gives, on the book and on the copy of the feed. */
  lemma BringsSizes(b: Books.Book, event: FeedEvent, now: int, side: Side, p: Price)
    requires BookSteps.WellBook(b)
    ensures var b1 := Bring(b, event, now);
      && SizeAt(b1.sides, side, p) == Given(b, event, side, p, SizeAt(b.sides, side, p))
      && SizeAt(b1.raw, side, p) == Given(b, event, side, p, SizeAt(b.raw, side, p))
      && b1.orders == b.orders && b1.expired == b.expired
      && b1.lastUpdate == if Moves(event) then Some(now) else b.lastUpdate
  {
    hide BookSteps.WellBook;
    match event
    case BookEvent(bids, asks) =>
      SnapshotSays(b, bids, asks, now, side, p);
      hide Books.Listing, SizeAt, ListedSize;
    case PriceChange(changes) =>
      DeltaSays(b, changes, now, side, p);
      hide Books.ApplyChangesTo, SizeAt, Changed;
    case BestBidAsk(bid, bidSize, ask, askSize) =>
      var changes := InferChange(b, Bid, bid, bidSize) + InferChange(b, Ask, ask, askSize);
      QuotesChange(b, bid, bidSize, ask, askSize, side, p, SizeAt(b.sides, side, p));
      QuotesChange(b, bid, bidSize, ask, askSize, side, p, SizeAt(b.raw, side, p));
      DeltaSays(b, changes, now, side, p);
      NoChange(SizeAt(b.sides, side, p), side, p);
      NoChange(SizeAt(b.raw, side, p), side, p);
      hide Books.ApplyChangesTo, SizeAt, Changed, Quoted, InferChange;
      if bid.None? && ask.None? {
        NothingQuoted(b, side, p, SizeAt(b.sides, side, p));
        NothingQuoted(b, side, p, SizeAt(b.raw, side, p));
      }
    case _ =>
  }

  lemma NothingQuoted(b: Books.Book, side: Side, p: Price, before: Option<real>)
    ensures Quoted(b, side, None, None, p, before) == before
    ensures forall size :: Quoted(b, side, None, size, p, before) == before
  {
  }

  /** A best price comes with a size of its own, or improves on the level whose size it takes. */
  predicate QuotesSize(b: Books.Book, side: Side, price: Option<Price>, size: Option<real>) {
    var keys := if side == Bid then b.sides.bids.Keys else b.sides.asks.Keys;
    && price.Some?
    && (size.Some? || (keys != {} &&
          if side == Bid then price.value > Best(Bid, keys) else price.value < Best(Ask, keys)))
  }

  /** The event changes sizes, so that the book is matched again. */
  predicate Rematches(b: Books.Book, event: FeedEvent) {
    || event.BookEvent? || event.PriceChange?
    || (event.BestBidAsk?
        && (QuotesSize(b, Bid, event.bid, event.bidSize) || QuotesSize(b, Ask, event.ask, event.askSize)))
  }

  lemma InfersExactly(b: Books.Book, side: Side, price: Option<Price>, size: Option<real>)
    requires BookSteps.WellBook(b)
    ensures InferChange(b, side, price, size) != [] <==> QuotesSize(b, side, price, size)
  {
    SidesPositive(b);
    hide BookSteps.WellBook;
  }

  lemma ApplyOne(b: Books.Book, ops: seq<Books.Op>, op: Books.Op)
    ensures Apply(b, ops + [op]) == Books.Step(Apply(b, ops), op).book
    ensures Apply(b, []) == b
  {
    assert (ops + [op])[..|ops|] == ops;
    hide Books.Step;
  }

  lemma ApplyAll(b: Books.Book, a: Books.Op, c: Books.Op, d: Books.Op)
    ensures Apply(b, [a]) == Books.Step(b, a).book
    ensures Apply(b, [a, c]) == Books.Step(Books.Step(b, a).book, c).book
    ensures Apply(b, [a, c, d]) == Books.Step(Books.Step(Books.Step(b, a).book, c).book, d).book
  {
    hide Books.Step;
    ApplyOne(b, [], a);
    ApplyOne(b, [a], c);
    ApplyOne(b, [a, c], d);
    assert [] + [a] == [a] && [a] + [c] == [a, c] && [a, c] + [d] == [a, c, d];
  }

  /** The book whose brackets are looked at: the sizes are in, and matched if they changed. */
  function Middle(b: Books.Book, event: FeedEvent, now: int): Books.Book {
    if Rematches(b, event) then Books.Step(Bring(b, event, now), Books.Match(now)).book else Bring(b, event, now)
  }

  lemma QuoteSteps(b: Books.Book, event: FeedEvent, now: int)
    requires BookSteps.WellBook(b) && event.BestBidAsk?
    ensures Apply(b, EventOps(b, event, now)) == Books.Step(Middle(b, event, now), Books.MonitorBrackets).book
  {
    var changes := InferChange(b, Bid, event.bid, event.bidSize) + InferChange(b, Ask, event.ask, event.askSize);
    InfersExactly(b, Bid, event.bid, event.bidSize);
    InfersExactly(b, Ask, event.ask, event.askSize);
    ApplyAll(b, Books.Delta(changes, now), Books.Match(now), Books.MonitorBrackets);
    ApplyAll(b, Books.Touch(now), Books.MonitorBrackets, Books.MonitorBrackets);
    ApplyAll(b, Books.MonitorBrackets, Books.MonitorBrackets, Books.MonitorBrackets);
    NoQuote(b, event);
    hide Books.Step, BookSteps.WellBook, Apply, InferChange, QuotesSize;
  }

  lemma NoQuote(b: Books.Book, event: FeedEvent)
    requires event.BestBidAsk?
    ensures event.bid.None? && event.ask.None? ==> !Rematches(b, event)
  {
  }

  /** An event brings its sizes, has the book matched if they changed, and has its brackets looked at. */
  lemma EventSteps(b: Books.Book, event: FeedEvent, now: int)
    requires BookSteps.WellBook(b) && !event.Resolution?
    ensures Apply(b, EventOps(b, event, now)) == Books.Step(Middle(b, event, now), Books.MonitorBrackets).book
  {
    match event
    case BestBidAsk(_, _, _, _) => QuoteSteps(b, event, now);
    case BookEvent(bids, asks) =>
      hide Books.Step, BookSteps.WellBook, Apply;
      ApplyAll(b, Books.Snapshot(bids, asks, now), Books.Match(now), Books.MonitorBrackets);
    case PriceChange(changes) =>
      hide Books.Step, BookSteps.WellBook, Apply;
      ApplyAll(b, Books.Delta(changes, now), Books.Match(now), Books.MonitorBrackets);
    case LastTrade =>
      hide Books.Step, BookSteps.WellBook, Apply;
      ApplyAll(b, Books.MonitorBrackets, Books.MonitorBrackets, Books.MonitorBrackets);
  }

  lemma BringKeepsWell(b: Books.Book, event: FeedEvent, now: int)
    requires BookSteps.WellBook(b)
    ensures BookSteps.WellBook(Bring(b, event, now))
  {
    hide Books.Step, BookSteps.WellBook, InferChange;
    match event
    case BookEvent(bids, asks) => BookSteps.StepKeepsWell(b, Books.Snapshot(bids, asks, now));
    case PriceChange(changes) => BookSteps.StepKeepsWell(b, Books.Delta(changes, now));
    case BestBidAsk(bid, bidSize, ask, askSize) =>
      var changes := InferChange(b, Bid, bid, bidSize) + InferChange(b, Ask, ask, askSize);
      BookSteps.StepKeepsWell(b, Books.Delta(changes, now));
      BookSteps.StepKeepsWell(b, Books.Touch(now));
    case _ =>
  }

  /** The bracket of an order was looked at once, at the best of these bids. */
  ghost predicate LookedAt(bids: Ladder, o: Order, o': Order) {
    forall p :: BestBid(bids, p) ==> exists exits :: Watched(o, p, exits, o')
  }

  /** What an event leaves behind in a book, given the book as it was when the brackets were looked at. */
  ghost predicate Leaves(b: Books.Book, event: FeedEvent, mid: Books.Book, b': Books.Book) {
    && (forall side, p :: SizeAt(b'.raw, side, p) == Given(b, event, side, p, SizeAt(b.raw, side, p)))
    && (Rematches(b, event) && !b.expired ==>
          forall o :: o in mid.orders ==> Passes.CrossesNone(mid.sides.On(o.terms.side), o))
    && (!Rematches(b, event) ==>
          && mid.orders == b.orders
          && forall side, p :: SizeAt(mid.sides, side, p) == Given(b, event, side, p, SizeAt(b.sides, side, p)))
    && |b'.orders| == |mid.orders|
    && (forall i :: 0 <= i < |mid.orders| ==> LookedAt(mid.sides.bids, mid.orders[i], b'.orders[i]))
    && (mid.sides.bids.Keys == {} ==> b' == mid)
  }

  lemma MatchedCrossesNone(b: Books.Book, now: int)
    requires BookSteps.WellBook(b) && !b.expired && b.lastUpdate == Some(now)
    ensures var mid := Books.Step(b, Books.Match(now)).book;
      forall o :: o in mid.orders ==> Passes.CrossesNone(mid.sides.On(o.terms.side), o)
  {
    var mid := Books.Step(b, Books.Match(now)).book;
    assert BookTheorems.Heard(b, now) && mid == Books.RunMatching(b, now).book;
    hide Books.RunMatching, Books.Step, BookSteps.WellBook;
    forall o | o in mid.orders ensures Passes.CrossesNone(mid.sides.On(o.terms.side), o) {
      BookTheorems.RunLeavesNoCrossing(b, now, o);
    }
  }

  lemma MonitorLooks(mid: Books.Book, i: nat)
    requires BookSteps.WellBook(mid) && i < |mid.orders|
    ensures var b' := Books.Step(mid, Books.MonitorBrackets).book;
      |b'.orders| == |mid.orders| && LookedAt(mid.sides.bids, mid.orders[i], b'.orders[i])
  {
    MonitorWatches(mid, i);
    hide Books.Step, BookSteps.WellBook, Watched, BestBid;
    var out := Books.Step(mid, Books.MonitorBrackets);
    forall p | BestBid(mid.sides.bids, p) ensures exists exits :: Watched(mid.orders[i], p, exits, out.book.orders[i]) {
      assert Watched(mid.orders[i], p, out.exits, out.book.orders[i]);
    }
  }

  lemma MonitorCounts(b: Books.Book)
    ensures |Books.Step(b, Books.MonitorBrackets).book.orders| == |b.orders|
    ensures b.sides.bids.Keys == {} ==> Books.Step(b, Books.MonitorBrackets).book == b
  {
  }

  lemma MiddleWell(b: Books.Book, event: FeedEvent, now: int)
    requires BookSteps.WellBook(b)
    ensures BookSteps.WellBook(Middle(b, event, now)) && Middle(b, event, now).raw == Bring(b, event, now).raw
  {
    BringKeepsWell(b, event, now);
    BookSteps.StepKeepsWell(Bring(b, event, now), Books.Match(now));
    OthersKeepRaw(Bring(b, event, now), Books.Match(now));
    hide Books.Step, BookSteps.WellBook, Bring, Rematches;
  }

  lemma MiddleCrossesNone(b: Books.Book, event: FeedEvent, now: int)
    requires BookSteps.WellBook(b) && Rematches(b, event) && !b.expired
    ensures var mid := Middle(b, event, now);
      forall o :: o in mid.orders ==> Passes.CrossesNone(mid.sides.On(o.terms.side), o)
  {
    BringKeepsWell(b, event, now);
    BringsSizes(b, event, now, Bid, 1.0);
    assert Moves(event);
    hide Books.Step, BookSteps.WellBook, Bring, Rematches, SizeAt, Given;
    MatchedCrossesNone(Bring(b, event, now), now);
  }

  lemma EventLeaves(b: Books.Book, event: FeedEvent, now: int)
    requires BookSteps.WellBook(b) && !event.Resolution?
    ensures Leaves(b, event, Middle(b, event, now), Apply(b, EventOps(b, event, now)))
  {
    var b1, mid := Bring(b, event, now), Middle(b, event, now);
    EventSteps(b, event, now);
    MiddleWell(b, event, now);
    MonitorCounts(mid);
    OthersKeepRaw(mid, Books.MonitorBrackets);
    if Rematches(b, event) && !b.expired {
      MiddleCrossesNone(b, event, now);
    }
    hide Books.Step, BookSteps.WellBook, Bring, Apply, EventOps, LookedAt, SizeAt, Given, Rematches, Passes.CrossesNone;
    forall side, p {
      BringsSizes(b, event, now, side, p);
    }
    BringsSizes(b, event, now, Bid, 1.0);
    forall i: nat | i < |mid.orders| {
      MonitorLooks(mid, i);
    }
  }

  /**
   An event about a token changes the book of that token and nothing else of the session. The copy of the
   feed then holds the sizes the event gave; unless the book has expired, no LIMIT order was left that the
   new sizes could still fill, but for the reasons that hold one back; and every bracket was looked at once,
   at the best bid that matching left.
   */
  lemma DispatchLeaves(e: Engine, d: Direction, event: FeedEvent, now: int) returns (mid: Books.Book)
    requires e.state != ARCHIVED && d in e.tokens && Distinct(e.tokens) && d in e.books
    requires BookSteps.WellBook(e.books[d]) && !event.Resolution?
    ensures var e' := Dispatch(e, e.tokens[d], event, now);
      d in e'.books && e' == e.(books := e.books[d := e'.books[d]]) && Leaves(e.books[d], event, mid, e'.books[d])
  {
    mid := Middle(e.books[d], event, now);
    EventLeaves(e.books[d], event, now);
    hide Apply, EventOps, Leaves, Middle;
    assert DirectionOf(e.tokens, e.tokens[d]) == Some(d);
  }

  /** The resolution of the market ends every position and every bracket of the book. */
  lemma ResolutionLeaves(e: Engine, d: Direction, now: int, o': Order)
    requires e.state != ARCHIVED && d in e.tokens && Distinct(e.tokens) && d in e.books
    requires d in Dispatch(e, e.tokens[d], Resolution, now).books
    requires o' in Dispatch(e, e.tokens[d], Resolution, now).books[d].orders
    ensures o'.closed && !o'.EligibleForBracket()
    ensures o' in e.books[d].orders || (!o'.Live() && !o'.HasBracket())
  {
    assert DirectionOf(e.tokens, e.tokens[d]) == Some(d);
    ApplyOne(e.books[d], [], Books.MarketResolved);
    assert [] + [Books.MarketResolved] == [Books.MarketResolved];
    hide Books.Step, Apply;
    Expiry.ResolutionEndsPositions(e.books[d], o');
  }
}
