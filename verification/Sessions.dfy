/**
 Trading sessions as values: one session per symbol, timeframe and candle, with a book per direction,
 the registry of sessions, and everything that moves a session along its lifecycle.
 */
module Sessions {
  import opened Prelude
  import opened Ladders
  import opened Calendar
  import Books

  datatype State = PREFETCH | ACTIVE | SETTLING | ARCHIVED {
    function Rank(): nat {
      match this
      case PREFETCH => 0
      case ACTIVE => 1
      case SETTLING => 2
      case ARCHIVED => 3
    }
  }

  datatype Direction = UP | DOWN

  type Token = string

  type Tokens = map<Direction, Token>

  datatype SessionId = SessionId(symbol: string, timeframe: Timeframe, open: int)

  /** Times are microseconds; the candle open in an id is in seconds. */
  datatype Engine = Engine(
    id: SessionId,
    state: State,
    tokens: Tokens,
    books: map<Direction, Books.Book>,
    activatedAt: Option<int>,
    settlingAt: Option<int>)

  function NewEngine(id: SessionId, tokens: Tokens): Engine {
    Engine(id, PREFETCH, tokens, map d | d in tokens :: Books.EMPTY_BOOK, None, None)
  }

  /** The tokens of a session, one entry per direction. */
  function TokenIds(tokens: Tokens): seq<Token> {
    (if UP in tokens then [tokens[UP]] else []) + (if DOWN in tokens then [tokens[DOWN]] else [])
  }

  function DirectionOf(tokens: Tokens, token: Token): Option<Direction> {
    if DOWN in tokens && tokens[DOWN] == token then Some(DOWN)
    else if UP in tokens && tokens[UP] == token then Some(UP)
    else None
  }

  // ---------- One session ----------

  function ExpireAll(books: map<Direction, Books.Book>): map<Direction, Books.Book> {
    map d | d in books :: Books.ExpireBook(books[d]).book
  }

  function Transition(e: Engine, state: State, now: int): Engine {
    if e.state == ARCHIVED then e
    else
      match state
      case PREFETCH => e.(state := PREFETCH)
      case ACTIVE => e.(state := ACTIVE, activatedAt := Some(now))
      case SETTLING => e.(state := SETTLING, settlingAt := Some(now), books := ExpireAll(e.books))
      case ARCHIVED => e.(state := ARCHIVED, books := map[], tokens := map[])
  }

  function ExpiryEvents(books: map<Direction, Books.Book>, d: Direction): seq<Books.Event> {
    if d in books then Books.ExpireBook(books[d]).events else []
  }

  /** What the books of a session publish when it changes state. */
  function TransitionEvents(e: Engine, state: State): seq<Books.Event> {
    if e.state == ARCHIVED || state != SETTLING then []
    else ExpiryEvents(e.books, UP) + ExpiryEvents(e.books, DOWN)
  }

  // ---------- Feed events and placement ----------

  /** The events of the price feed, and the resolution of a market, which reaches sessions the same way. */
  datatype FeedEvent =
    | Resolution
    | BookEvent(bids: seq<Level>, asks: seq<Level>)
    | PriceChange(changes: seq<Books.Change>)
    | BestBidAsk(bid: Option<Price>, bidSize: Option<real>, ask: Option<Price>, askSize: Option<real>)
    | LastTrade

  /** A best price given without a size takes the size of the level it improves on. */
  function InferChange(b: Books.Book, side: Side, price: Option<Price>, size: Option<real>): seq<Books.Change> {
    var book := b.Ladder(side);
    if price.None? then []
    else if size.Some? then [Books.Change(side, price.value, size.value)]
    else if book.Keys == {} then []
    else
      var best := Best(side, book.Keys);
      if (if side == Bid then price.value > best else price.value < best) && Size(book, best) > 0.0
      then [Books.Change(side, price.value, Size(book, best))] else []
  }

  /** The book operations a feed event stands for. */
  function EventOps(b: Books.Book, event: FeedEvent, now: int): seq<Books.Op> {
    match event
    case BookEvent(bids, asks) => [Books.Snapshot(bids, asks, now), Books.Match(now), Books.MonitorBrackets]
    case PriceChange(changes) => [Books.Delta(changes, now), Books.Match(now), Books.MonitorBrackets]
    case LastTrade => [Books.MonitorBrackets]
    case Resolution => [Books.MarketResolved]
    case BestBidAsk(bid, bidSize, ask, askSize) =>
      var changes := InferChange(b, Bid, bid, bidSize) + InferChange(b, Ask, ask, askSize);
      if bid.None? && ask.None? then [Books.MonitorBrackets]
      else if changes == [] then [Books.Touch(now), Books.MonitorBrackets]
      else [Books.Delta(changes, now), Books.Match(now), Books.MonitorBrackets]
  }

  function Apply(b: Books.Book, ops: seq<Books.Op>): Books.Book {
    if ops == [] then b else Books.Step(Apply(b, ops[..|ops| - 1]), ops[|ops| - 1]).book
  }

  function Dispatch(e: Engine, token: Token, event: FeedEvent, now: int): Engine {
    var d := DirectionOf(e.tokens, token);
    if e.state == ARCHIVED || d.None? || d.value !in e.books then e
    else
      var b := e.books[d.value];
      e.(books := e.books[d.value := Apply(b, EventOps(b, event, now))])
  }

  predicate Places(op: Books.Op) {
    op.PlaceOrder? || op.PlaceFilled?
  }

  /** The guards before a placement; refusing is an exception in the source. */
  predicate Refuses(e: Engine, token: Token, op: Books.Op) {
    var d := DirectionOf(e.tokens, token);
    || d.None? || d.value !in e.books
    || (op.PlaceOrder? && (e.state == SETTLING || e.state == ARCHIVED))
    || (op.PlaceFilled? && e.state == ARCHIVED)
    || (Places(op) && e.books[d.value].expired)
  }

  /** One operation on the book of a token. */
  function OnBook(e: Engine, token: Token, op: Books.Op): Engine {
    if Refuses(e, token, op) then e
    else
      var d := DirectionOf(e.tokens, token).value;
      e.(books := e.books[d := Books.Step(e.books[d], op).book])
  }

  // ---------- The registry ----------

  type Registry = map<SessionId, Engine>

  /** Registering a session; one that is already there stays as it is. */
  function Create(r: Registry, id: SessionId, tokens: Tokens, initial: State, now: int): Registry {
    if id in r then r
    else
      var e := NewEngine(id, tokens);
      r[id := if initial != PREFETCH then Transition(e, initial, now) else e]
  }

  /** Moving a session to a state; archived sessions leave the registry. */
  function Move(r: Registry, id: SessionId, state: State, now: int): Registry {
    if id !in r then r
    else if state == ARCHIVED then r - {id}
    else r[id := Transition(r[id], state, now)]
  }

  function AtBoundary(e: Engine, symbol: string, tf: Timeframe, open: int, now: int): Engine {
    if e.id.symbol != symbol || e.id.timeframe != tf then e
    else if e.state == ACTIVE && e.id.open < open then Transition(e, SETTLING, now)
    else if e.state == PREFETCH && e.id.open == open then Transition(e, ACTIVE, now)
    else e
  }

  /** `on_candle_boundary`. */
  function Boundary(r: Registry, symbol: string, tf: Timeframe, open: int, now: int): Registry {
    map id | id in r :: AtBoundary(r[id], symbol, tf, open, now)
  }

  function CurrentId(symbol: string, tf: Timeframe, now: int): SessionId {
    SessionId(symbol, tf, CurrentOpen(tf, now / Calendar.SECOND))
  }

  /** A rotated market: its current session is made or promoted, then its boundary is handled. */
  function Rotate(r: Registry, symbol: string, tf: Timeframe, tokens: Tokens, now: int): Registry {
    if tokens == map[] then r
    else
      var id := CurrentId(symbol, tf, now);
      var r1 := if id !in r then Create(r, id, tokens, ACTIVE, now)
                else if r[id].state == PREFETCH then Move(r, id, ACTIVE, now) else r;
      Boundary(r1, symbol, tf, id.open, now)
  }

  /** A session kept ready by the lifecycle: active when it is the current one. */
  function Ensure(r: Registry, id: SessionId, tokens: Tokens, now: int): Registry {
    Create(r, id, tokens, if id.open == CurrentOpen(id.timeframe, now / Calendar.SECOND) then ACTIVE else PREFETCH, now)
  }

  /** All sessions of a market that should be ready; `resolved` are the ones whose tokens are known. */
  function EnsureMarket(r: Registry, symbol: string, tf: Timeframe, resolved: map<SessionId, Tokens>, now: int,
                        n: nat): Registry
    requires n <= |ExpectedCandleOpens(tf, now / Calendar.SECOND)|
  {
    if n == 0 then r
    else
      var prev := EnsureMarket(r, symbol, tf, resolved, now, n - 1);
      var id := SessionId(symbol, tf, ExpectedCandleOpens(tf, now / Calendar.SECOND)[n - 1]);
      if id in resolved && resolved[id] != map[] then Ensure(prev, id, resolved[id], now) else prev
  }

  type Market = (string, Timeframe)

  /** The sessions of the first `n` markets. */
  function EnsureMarkets(r: Registry, markets: seq<Market>, resolved: map<SessionId, Tokens>, now: int,
                         n: nat): Registry
    requires n <= |markets|
  {
    if n == 0 then r
    else
      var tf := markets[n - 1].1;
      EnsureMarket(EnsureMarkets(r, markets, resolved, now, n - 1), markets[n - 1].0, tf, resolved, now,
                   |ExpectedCandleOpens(tf, now / Calendar.SECOND)|)
  }

  const CLEANUP_DELAY: int := 10

  /** The candle ended more than the cleanup delay ago. */
  predicate Over(id: SessionId, now: int) {
    now / Calendar.SECOND > id.open + Period(id.timeframe) + CLEANUP_DELAY
  }

  /** `cleanup_expired_sessions`. */
  function Cleanup(r: Registry, now: int): Registry {
    map id | id in r && (!Over(id, now) || r[id].state == ARCHIVED) :: r[id]
  }

  predicate SettledLongerThan(e: Engine, grace: int, now: int) {
    e.state == SETTLING && e.settlingAt.Some? && now - e.settlingAt.value > grace
  }

  /** `archive_settling_sessions`. */
  function ArchiveSettled(r: Registry, grace: int, now: int): Registry {
    map id | id in r && !SettledLongerThan(r[id], grace, now) :: r[id]
  }

  /** Prefetched sessions for future candles; the ones that are there already stay. */
  function PrefetchAll(r: Registry, future: map<SessionId, Tokens>): Registry {
    map id | id in r.Keys + future.Keys :: if id in r then r[id] else NewEngine(id, future[id])
  }

  /** A feed event handed to the first `n` of the listed sessions in turn. */
  function DispatchAll(r: Registry, ids: seq<SessionId>, n: nat, token: Token, event: FeedEvent, now: int): Registry
    requires n <= |ids|
  {
    if n == 0 then r
    else
      var prev := DispatchAll(r, ids, n - 1, token, event, now);
      var id := ids[n - 1];
      if id in prev then prev[id := Dispatch(prev[id], token, event, now)] else prev
  }

  // ---------- The token index ----------

  type Index = map<Token, seq<SessionId>>

  function Listed(index: Index, token: Token): seq<SessionId> {
    if token in index then index[token] else []
  }

  /** How often a session should be listed under a token. */
  function Owned(r: Registry, id: SessionId, token: Token): nat {
    if id in r then multiset(TokenIds(r[id].tokens))[token] else 0
  }

  function Count(index: Index, token: Token, id: SessionId): nat {
    multiset(Listed(index, token))[id]
  }

  ghost predicate Full(index: Index) {
    forall t :: t in index ==> index[t] != []
  }

  /** The index lists every session as often as it owns the token, and keeps no empty list. */
  ghost predicate Indexed(r: Registry, index: Index) {
    Full(index) && forall t, id :: Count(index, t, id) == Owned(r, id, t)
  }

  function AddToIndex(index: Index, tokens: seq<Token>, id: SessionId): Index {
    if tokens == [] then index
    else
      var t := tokens[|tokens| - 1];
      var prev := AddToIndex(index, tokens[..|tokens| - 1], id);
      prev[t := Listed(prev, t) + [id]]
  }

  function RemoveFirst(ids: seq<SessionId>, id: SessionId): seq<SessionId> {
    if ids == [] then [] else if ids[0] == id then ids[1..] else [ids[0]] + RemoveFirst(ids[1..], id)
  }

  function RemoveFromIndex(index: Index, tokens: seq<Token>, id: SessionId): Index {
    if tokens == [] then index
    else
      var t := tokens[|tokens| - 1];
      var prev := RemoveFromIndex(index, tokens[..|tokens| - 1], id);
      var rest := RemoveFirst(Listed(prev, t), id);
      if rest == [] then prev - {t} else prev[t := rest]
  }

  lemma {:induction false} RemovesOne(ids: seq<SessionId>, id: SessionId)
    ensures multiset(RemoveFirst(ids, id)) == multiset(ids) - multiset{id}
  {
    if ids != [] {
      assert ids == [ids[0]] + ids[1..];
      if ids[0] != id {
        RemovesOne(ids[1..], id);
      }
    }
  }

  lemma AddStep(index: Index, t: Token, id: SessionId)
    requires Full(index)
    ensures var r := index[t := Listed(index, t) + [id]];
      && Full(r)
      && forall u, other :: Count(r, u, other) == Count(index, u, other) + if u == t && other == id then 1 else 0
  {
  }

  lemma RemoveStep(index: Index, t: Token, id: SessionId)
    requires Full(index)
    ensures var rest := RemoveFirst(Listed(index, t), id);
      var r := if rest == [] then index - {t} else index[t := rest];
      && Full(r)
      && forall u, other :: Count(r, u, other) == Count(index, u, other) -
           if u == t && other == id && Count(index, t, id) > 0 then 1 else 0
  {
    RemovesOne(Listed(index, t), id);
    var rest := RemoveFirst(Listed(index, t), id);
    var r := if rest == [] then index - {t} else index[t := rest];
    hide RemoveFirst;
    assert Listed(r, t) == rest;
    assert multiset(rest) == multiset(Listed(index, t)) - multiset{id};
    forall u, other
      ensures Count(r, u, other) == Count(index, u, other) -
        (if u == t && other == id && Count(index, t, id) > 0 then 1 else 0)
    {
      if u != t {
        assert Listed(r, u) == Listed(index, u);
      }
    }
  }

  lemma LastToken(tokens: seq<Token>)
    requires tokens != []
    ensures var init, last := tokens[..|tokens| - 1], tokens[|tokens| - 1];
      forall t :: multiset(tokens)[t] == multiset(init)[t] + (if t == last then 1 else 0)
  {
    assert tokens == tokens[..|tokens| - 1] + [tokens[|tokens| - 1]];
  }

  /** Adding lists a session once more for every occurrence of a token, and nothing else. */
  lemma {:induction false} AddCounts(index: Index, tokens: seq<Token>, id: SessionId)
    requires Full(index)
    ensures var r := AddToIndex(index, tokens, id);
      && Full(r)
      && forall t, other :: Count(r, t, other) ==
           Count(index, t, other) + if other == id then multiset(tokens)[t] else 0
  {
    hide Count, Full, Listed;
    if tokens != [] {
      var init, t := tokens[..|tokens| - 1], tokens[|tokens| - 1];
      AddCounts(index, init, id);
      AddStep(AddToIndex(index, init, id), t, id);
      LastToken(tokens);
    }
  }

  /** Removing takes a session off once for every occurrence, as far as it is listed. */
  lemma {:induction false} RemoveCounts(index: Index, tokens: seq<Token>, id: SessionId)
    requires Full(index)
    ensures var r := RemoveFromIndex(index, tokens, id);
      && Full(r)
      && forall t, other :: Count(r, t, other) ==
           if other != id then Count(index, t, other)
           else if Count(index, t, id) <= multiset(tokens)[t] then 0
           else Count(index, t, id) - multiset(tokens)[t]
  {
    hide Count, Full, Listed, RemoveFirst;
    if tokens != [] {
      var init, t := tokens[..|tokens| - 1], tokens[|tokens| - 1];
      RemoveCounts(index, init, id);
      RemoveStep(RemoveFromIndex(index, init, id), t, id);
      LastToken(tokens);
    }
  }

  /** A session that is registered is listed under its tokens. */
  lemma AdditionKeepsIndexed(r: Registry, index: Index, id: SessionId, e: Engine)
    requires Indexed(r, index) && id !in r
    ensures Indexed(r[id := e], AddToIndex(index, TokenIds(e.tokens), id))
  {
    hide TokenIds, Count, Full, AddToIndex;
    AddCounts(index, TokenIds(e.tokens), id);
  }

  /** A session that is archived goes from the registry and from the index. */
  lemma RemovalKeepsIndexed(r: Registry, index: Index, id: SessionId)
    requires Indexed(r, index) && id in r
    ensures Indexed(r - {id}, RemoveFromIndex(index, TokenIds(r[id].tokens), id))
  {
    hide TokenIds, Count, Full, RemoveFromIndex;
    var tokens := TokenIds(r[id].tokens);
    RemoveCounts(index, tokens, id);
    forall t, other ensures Count(RemoveFromIndex(index, tokens, id), t, other) == Owned(r - {id}, other, t) {
      assert Count(index, t, other) == Owned(r, other, t);
    }
  }

  lemma MoveKeepsIndexed(r: Registry, index: Index, id: SessionId, state: State, now: int)
    requires Indexed(r, index) && id in r
    ensures Indexed(Move(r, id, state, now),
                    if state == ARCHIVED then RemoveFromIndex(index, TokenIds(r[id].tokens), id) else index)
  {
    hide Indexed;
    if state == ARCHIVED {
      RemovalKeepsIndexed(r, index, id);
    } else {
      SameTokensIndexed(r, Move(r, id, state, now), index);
    }
  }

  /** Changes to sessions that leave their tokens alone leave the index right. */
  lemma SameTokensIndexed(r: Registry, r': Registry, index: Index)
    requires Indexed(r, index) && r'.Keys == r.Keys && forall id :: id in r ==> r'[id].tokens == r[id].tokens
    ensures Indexed(r', index)
  {
    hide TokenIds, Count, Full;
    assert forall id, t :: Owned(r', id, t) == Owned(r, id, t);
  }

  /** The sessions the index lists for a token. */
  function SessionsFor(r: Registry, index: Index, token: Token): seq<SessionId> {
    Registered(r, Listed(index, token))
  }

  function Registered(r: Registry, ids: seq<SessionId>): seq<SessionId> {
    if ids == [] then []
    else Registered(r, ids[..|ids| - 1]) + if ids[|ids| - 1] in r then [ids[|ids| - 1]] else []
  }

  lemma {:induction false} AllRegistered(r: Registry, ids: seq<SessionId>)
    requires forall id :: id in ids ==> id in r
    ensures Registered(r, ids) == ids
  {
    if ids != [] {
      var n := |ids| - 1;
      assert ids == ids[..n] + [ids[n]];
      AllRegistered(r, ids[..n]);
    }
  }

  /** A scan of the registry: who owns the token. */
  function Owners(r: Registry, token: Token): set<SessionId> {
    set id | id in r && token in r[id].tokens.Values
  }

  predicate Distinct(tokens: Tokens) {
    UP in tokens && DOWN in tokens ==> tokens[UP] != tokens[DOWN]
  }

  predicate NoRepeats(ids: seq<SessionId>) {
    forall i, j :: 0 <= i < j < |ids| ==> ids[i] != ids[j]
  }

  lemma {:induction false} NoRepeatsCounts(ids: seq<SessionId>)
    ensures NoRepeats(ids) <==> forall id :: multiset(ids)[id] <= 1
  {
    if ids != [] {
      var n := |ids| - 1;
      var init, last := ids[..n], ids[n];
      assert ids == init + [last];
      NoRepeatsCounts(init);
      NoRepeatsSnoc(init, last);
      hide NoRepeats;
      if last in init {
        assert multiset(ids)[last] >= 2;
      } else {
        assert forall id :: multiset(ids)[id] == multiset(init)[id] + if id == last then 1 else 0;
        assert multiset(init)[last] == 0;
      }
    }
  }

  lemma NoRepeatsSnoc(init: seq<SessionId>, last: SessionId)
    ensures NoRepeats(init + [last]) <==> NoRepeats(init) && last !in init
  {
    var ids := init + [last];
    assert forall i :: 0 <= i < |init| ==> ids[i] == init[i];
    assert ids[|init|] == last;
    if NoRepeats(ids) {
      forall i, j | 0 <= i < j < |init| ensures init[i] != init[j] {
        assert ids[i] != ids[j];
      }
      forall i | 0 <= i < |init| ensures init[i] != last {
        assert ids[i] != ids[|init|];
      }
    }
  }

  lemma OwnedTokens(tokens: Tokens, t: Token)
    ensures multiset(TokenIds(tokens))[t] > 0 <==> t in tokens.Values
    ensures multiset(TokenIds(tokens))[t] <= 2
    ensures multiset(TokenIds(tokens))[t] == 2 <==> UP in tokens && DOWN in tokens && tokens[UP] == t == tokens[DOWN]
  {
    assert t in tokens.Values <==> (UP in tokens && tokens[UP] == t) || (DOWN in tokens && tokens[DOWN] == t) by {
      if t in tokens.Values {
        var d :| d in tokens && tokens[d] == t;
        assert d == UP || d == DOWN;
      }
    }
  }

  /**
   Looking a token up in the index answers what a scan of the registry would: exactly the registered
   sessions that own it. A session is answered twice exactly when both its directions share the token.
   */
  lemma IndexIsScan(r: Registry, index: Index, token: Token)
    requires Indexed(r, index)
    ensures var ids := SessionsFor(r, index, token);
      && (forall id :: id in ids <==> id in Owners(r, token))
      && (NoRepeats(ids) <==> forall id :: id in Owners(r, token) ==>
            !(UP in r[id].tokens && DOWN in r[id].tokens && r[id].tokens[UP] == token == r[id].tokens[DOWN]))
    ensures token in index <==> Owners(r, token) != {}
  {
    var ids := Listed(index, token);
    forall id ensures id in ids <==> id in Owners(r, token)
      ensures id in r && multiset(ids)[id] > 1 <==>
        id in Owners(r, token) && multiset(TokenIds(r[id].tokens))[token] == 2
      ensures id in r || multiset(ids)[id] == 0
    {
      assert id in ids <==> multiset(ids)[id] > 0;
      assert Count(index, token, id) == Owned(r, id, token);
      if id in r {
        OwnedTokens(r[id].tokens, token);
      }
    }
    AllRegistered(r, ids);
    NoRepeatsCounts(ids);
    forall id: SessionId | id in Owners(r, token) {
      OwnedTokens(r[id].tokens, token);
    }
    if token in index {
      assert ids[0] in ids;
    }
    hide TokenIds, Indexed, Owned, NoRepeats, Registered;
    if forall id :: multiset(ids)[id] <= 1 {
      forall id | id in Owners(r, token) ensures multiset(TokenIds(r[id].tokens))[token] != 2 {
        assert multiset(ids)[id] <= 1;
      }
    } else {
      var id :| multiset(ids)[id] > 1;
      assert id in Owners(r, token);
    }
  }

  /** An archived session leaves no trace in the index. */
  lemma ArchivedLeavesNoTrace(r: Registry, index: Index, id: SessionId, token: Token, now: int)
    requires Indexed(r, index) && id in r
    ensures id !in Listed(RemoveFromIndex(index, TokenIds(r[id].tokens), id), token)
  {
    MoveKeepsIndexed(r, index, id, ARCHIVED, now);
    var index' := RemoveFromIndex(index, TokenIds(r[id].tokens), id);
    assert Count(index', token, id) == Owned(Move(r, id, ARCHIVED, now), id, token);
  }
}
