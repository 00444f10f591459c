/** The session engine and the session manager, updated in place. */
module SessionRegistry {
  import opened Prelude
  import opened Calendar
  import opened Sessions
  import Books

  lemma BothExpired(before: map<Direction, Books.Book>, after: map<Direction, Books.Book>)
    requires after.Keys == before.Keys
    requires UP in before ==> after[UP] == Books.ExpireBook(before[UP]).book
    requires DOWN in before ==> after[DOWN] == Books.ExpireBook(before[DOWN]).book
    ensures after == ExpireAll(before)
  {
    hide Books.ExpireBook;
    forall d | d in before ensures after[d] == ExpireAll(before)[d] {
      match d
      case UP =>
      case DOWN =>
    }
  }

  lemma TransitionTokens(e: Engine, state: State, now: int)
    requires state != ARCHIVED
    ensures Transition(e, state, now).tokens == e.tokens
  {
  }

  class SessionEngine {
    const id: SessionId
    var state: State
    var tokens: Tokens
    var books: map<Direction, Books.Book>
    var activatedAt: Option<int>
    var settlingAt: Option<int>

    function Value(): Engine
      reads this
    {
      Engine(id, state, tokens, books, activatedAt, settlingAt)
    }

    constructor (id: SessionId, tokens: Tokens)
      ensures Value() == NewEngine(id, tokens)
    {
      this.id, this.tokens := id, tokens;
      state, activatedAt, settlingAt := PREFETCH, None, None;
      books := map d | d in tokens :: Books.EMPTY_BOOK;
    }

    /** `transition`: what the books publish is returned. */
    method TransitionTo(newState: State, now: int) returns (events: seq<Books.Event>)
      modifies this
      ensures Value() == Transition(old(Value()), newState, now)
      ensures events == TransitionEvents(old(Value()), newState)
    {
      events := [];
      if state == ARCHIVED {
        return;
      }
      state := newState;
      match newState
      case ACTIVE => activatedAt := Some(now);
      case SETTLING =>
        settlingAt := Some(now);
        events := ExpireBooks();
      case ARCHIVED =>
        books := map[];
        tokens := map[];
      case PREFETCH =>
    }

    /** Every book of the session expires, and publishes its cancellations. */
    method ExpireBooks() returns (events: seq<Books.Event>)
      modifies this`books
      ensures books == ExpireAll(old(books))
      ensures events == ExpiryEvents(old(books), UP) + ExpiryEvents(old(books), DOWN)
    {
      hide Books.ExpireBook;
      var up := ExpireDirection(UP);
      var down := ExpireDirection(DOWN);
      BothExpired(old(books), books);
      return up + down;
    }

    method ExpireDirection(d: Direction) returns (events: seq<Books.Event>)
      modifies this`books
      ensures books == if d in old(books) then old(books)[d := Books.ExpireBook(old(books)[d]).book] else old(books)
      ensures events == ExpiryEvents(old(books), d)
    {
      hide Books.ExpireBook;
      if d !in books {
        return [];
      }
      var out := Books.ExpireBook(books[d]);
      books := books[d := out.book];
      return out.events;
    }

    /** `dispatch_ws_event`. */
    method DispatchWsEvent(token: Token, event: FeedEvent, now: int)
      modifies this`books
      ensures Value() == Dispatch(old(Value()), token, event, now)
    {
      hide Books.Step, EventOps;
      if state == ARCHIVED {
        return;
      }
      var d := DirectionOf(tokens, token);
      if d.None? || d.value !in books {
        return;
      }
      var ops := EventOps(books[d.value], event, now);
      var b := books[d.value];
      for i := 0 to |ops|
        invariant b == Apply(books[d.value], ops[..i])
      {
        assert ops[..i + 1][..i] == ops[..i];
        b := Books.Step(b, ops[i]).book;
      }
      assert ops[..|ops|] == ops;
      books := books[d.value := b];
    }

    /** An operation on the book of a token; placements are refused as the session's guards say. */
    method Operate(token: Token, op: Books.Op) returns (accepted: bool)
      modifies this`books
      ensures accepted <==> !Refuses(old(Value()), token, op)
      ensures Value() == OnBook(old(Value()), token, op)
    {
      hide Books.Step;
      if op.PlaceOrder? && (state == SETTLING || state == ARCHIVED) {
        return false;
      }
      if op.PlaceFilled? && state == ARCHIVED {
        return false;
      }
      var d := DirectionOf(tokens, token);
      if d.None? || d.value !in books {
        return false;
      }
      if Places(op) && books[d.value].expired {
        return false;
      }
      books := books[d.value := Books.Step(books[d.value], op).book];
      accepted := true;
    }
  }

  class SessionManager {
    var engines: map<SessionId, SessionEngine>
    var tokenIndex: Index

    function Parts(): set<SessionEngine>
      reads this
    {
      set id | id in engines :: engines[id]
    }

    /** The registry as a value. */
    function View(): Registry
      reads this, Parts()
    {
      map id | id in engines :: engines[id].Value()
    }

    ghost predicate Valid()
      reads this, Parts()
    {
      (forall id :: id in engines ==> engines[id].id == id) && Indexed(View(), tokenIndex)
    }

    constructor ()
      ensures Valid() && View() == map[] && tokenIndex == map[]
    {
      engines, tokenIndex := map[], map[];
      new;
      assert View() == map[];
    }

    method AddIds(tokens: seq<Token>, id: SessionId)
      modifies this`tokenIndex
      ensures tokenIndex == AddToIndex(old(tokenIndex), tokens, id)
    {
      for i := 0 to |tokens|
        invariant tokenIndex == AddToIndex(old(tokenIndex), tokens[..i], id)
      {
        assert tokens[..i + 1][..i] == tokens[..i];
        tokenIndex := tokenIndex[tokens[i] := Listed(tokenIndex, tokens[i]) + [id]];
      }
      assert tokens[..|tokens|] == tokens;
    }

    method RemoveIds(tokens: seq<Token>, id: SessionId)
      modifies this`tokenIndex
      ensures tokenIndex == RemoveFromIndex(old(tokenIndex), tokens, id)
    {
      hide RemoveFirst;
      for i := 0 to |tokens|
        invariant tokenIndex == RemoveFromIndex(old(tokenIndex), tokens[..i], id)
      {
        assert tokens[..i + 1][..i] == tokens[..i];
        var rest := RemoveFirst(Listed(tokenIndex, tokens[i]), id);
        if rest == [] {
          tokenIndex := tokenIndex - {tokens[i]};
        } else {
          tokenIndex := tokenIndex[tokens[i] := rest];
        }
      }
      assert tokens[..|tokens|] == tokens;
    }

    /** Put a new session on the registry and on the index. */
    method Register(engine: SessionEngine)
      requires Valid() && engine.id !in engines
      modifies this
      ensures Valid() && View() == old(View())[engine.id := engine.Value()]
      ensures engines == old(engines)[engine.id := engine]
      ensures tokenIndex == AddToIndex(old(tokenIndex), TokenIds(engine.tokens), engine.id)
    {
      hide Indexed, TokenIds, AddToIndex, Listed;
      ghost var before := View();
      engines := engines[engine.id := engine];
      AddIds(TokenIds(engine.tokens), engine.id);
      AdditionKeepsIndexed(before, old(tokenIndex), engine.id, engine.Value());
      assert View() == before[engine.id := engine.Value()];
    }

    /** `create_session`: the session of this id, new or already there. */
    method CreateSession(id: SessionId, tokens: Tokens, initial: State, now: int) returns (engine: SessionEngine)
      requires Valid()
      modifies this
      ensures Valid() && View() == Create(old(View()), id, tokens, initial, now)
      ensures id in engines && engine == engines[id] && fresh(Parts() - old(Parts()))
      ensures tokenIndex == if id in old(engines) then old(tokenIndex)
                            else AddToIndex(old(tokenIndex), TokenIds(View()[id].tokens), id)
    {
      hide Indexed, TokenIds, Transition, AddToIndex, Listed;
      if id in engines {
        assert View() == Create(old(View()), id, tokens, initial, now);
        return engines[id];
      }
      ghost var before := View();
      engine := NewSession(id, tokens, initial, now);
      assert View() == before;
      Register(engine);
    }

    method NewSession(id: SessionId, tokens: Tokens, initial: State, now: int) returns (engine: SessionEngine)
      ensures fresh(engine) && engine.id == id
      ensures engine.Value() == if initial != PREFETCH then Transition(NewEngine(id, tokens), initial, now)
                                else NewEngine(id, tokens)
    {
      hide Transition;
      engine := new SessionEngine(id, tokens);
      if initial != PREFETCH {
        var _ := engine.TransitionTo(initial, now);
      }
    }

    /** `get_sessions_for_token`: exactly the registered sessions that own the token. */
    method GetSessionsForToken(token: Token) returns (sessions: seq<SessionEngine>)
      requires Valid()
      ensures var ids := SessionsFor(View(), tokenIndex, token);
        |sessions| == |ids| && forall i :: 0 <= i < |ids| ==> ids[i] in engines && sessions[i] == engines[ids[i]]
      ensures forall id :: id in engines ==> (engines[id] in sessions <==> token in engines[id].tokens.Values)
    {
      hide Indexed;
      var listed := Listed(tokenIndex, token);
      ghost var ids := [];
      sessions := [];
      for i := 0 to |listed|
        invariant ids == Registered(View(), listed[..i])
        invariant |sessions| == |ids|
        invariant forall j :: 0 <= j < |ids| ==> ids[j] in engines && sessions[j] == engines[ids[j]]
      {
        assert listed[..i + 1][..i] == listed[..i];
        if listed[i] in engines {
          sessions, ids := sessions + [engines[listed[i]]], ids + [listed[i]];
        }
      }
      assert listed[..|listed|] == listed;
      IndexIsScan(View(), tokenIndex, token);
      forall id | id in engines ensures engines[id] in sessions <==> token in engines[id].tokens.Values {
        assert id in Owners(View(), token) <==> token in View()[id].tokens.Values;
        if engines[id] in sessions {
          var j :| 0 <= j < |sessions| && sessions[j] == engines[id];
          assert ids[j] == id;
        }
        if id in ids {
          var j :| 0 <= j < |ids| && ids[j] == id;
          assert sessions[j] == engines[id];
        }
      }
    }

    /** Take a session that was just archived off the registry and the index. */
    method Unregister(id: SessionId, tokens: seq<Token>, ghost before: Registry)
      requires id in engines && before.Keys == engines.Keys && Indexed(before, tokenIndex)
      requires tokens == TokenIds(before[id].tokens)
      requires forall other :: other in engines ==> engines[other].id == other
      requires forall other :: other in engines && other != id ==> engines[other].Value() == before[other]
      modifies this
      ensures Valid() && View() == before - {id} && engines == old(engines) - {id}
      ensures tokenIndex == RemoveFromIndex(old(tokenIndex), tokens, id)
    {
      hide Indexed, TokenIds, RemoveFromIndex, Listed;
      engines := engines - {id};
      RemoveIds(tokens, id);
      RemovalKeepsIndexed(before, old(tokenIndex), id);
      assert View() == before - {id};
    }

    /** A session whose state alone changed is still listed where it was. */
    lemma StillIndexed(id: SessionId, before: Registry)
      requires id in engines && before.Keys == engines.Keys && Indexed(before, tokenIndex)
      requires forall other :: other in engines ==> engines[other].id == other
      requires forall other :: other in engines && other != id ==> engines[other].Value() == before[other]
      requires engines[id].tokens == before[id].tokens
      ensures Valid() && View() == before[id := engines[id].Value()]
    {
      hide Indexed;
      assert View() == before[id := engines[id].Value()];
      SameTokensIndexed(before, View(), tokenIndex);
    }

    /** `transition_session`: archiving takes the session off the registry and the index. */
    method TransitionSession(id: SessionId, newState: State, now: int) returns (events: seq<Books.Event>)
      requires Valid()
      modifies this, Parts()
      ensures Valid() && View() == Move(old(View()), id, newState, now)
      ensures engines == if newState == ARCHIVED then old(engines) - {id} else old(engines)
      ensures tokenIndex == if id in old(engines) && newState == ARCHIVED
                            then RemoveFromIndex(old(tokenIndex), TokenIds(old(View())[id].tokens), id)
                            else old(tokenIndex)
      ensures events == if id in old(engines) then TransitionEvents(old(View())[id], newState) else []
      ensures Parts() <= old(Parts())
    {
      hide Indexed, TokenIds, Transition, TransitionEvents, RemoveFromIndex, Listed;
      if id !in engines {
        assert View() == Move(old(View()), id, newState, now);
        return [];
      }
      ghost var before := View();
      var engine := engines[id];
      var tokens := TokenIds(engine.tokens);
      if newState != ARCHIVED {
        TransitionTokens(before[id], newState, now);
      }
      events := engine.TransitionTo(newState, now);
      if newState == ARCHIVED {
        Unregister(id, tokens, before);
      } else {
        StillIndexed(id, before);
      }
    }

    lemma ViewKeys()
      ensures View().Keys == engines.Keys
    {
    }

    /** `on_candle_boundary`. */
    method OnCandleBoundary(symbol: string, tf: Timeframe, open: int, now: int)
      requires Valid()
      modifies this, Parts()
      ensures Valid() && View() == Boundary(old(View()), symbol, tf, open, now)
      ensures engines == old(engines) && tokenIndex == old(tokenIndex)
    {
      hide Indexed, AtBoundary, Move, SessionEngine.Value, Valid, View, Parts;
      ghost var before := View();
      var todo := engines.Keys;
      ViewKeys();
      while todo != {}
        invariant Valid() && engines == old(engines) && tokenIndex == old(tokenIndex) && todo <= engines.Keys
        invariant Parts() == old(Parts()) && View().Keys == engines.Keys
        invariant forall id :: id in engines ==>
          View()[id] == if id in todo then before[id] else AtBoundary(before[id], symbol, tf, open, now)
        decreases |todo|
      {
        var id :| id in todo;
        PassBoundary(id, symbol, tf, open, now);
        todo := todo - {id};
      }
      assert View() == Boundary(before, symbol, tf, open, now);
    }

    method PassBoundary(id: SessionId, symbol: string, tf: Timeframe, open: int, now: int)
      requires Valid() && id in engines
      modifies this, Parts()
      ensures Valid() && View() == old(View())[id := AtBoundary(old(View())[id], symbol, tf, open, now)]
      ensures engines == old(engines) && tokenIndex == old(tokenIndex) && Parts() == old(Parts())
    {
      hide Indexed, Transition, RemoveFromIndex, Listed, TokenIds, TransitionEvents;
      var engine := engines[id];
      assert View()[id].id == id && View()[id] == engine.Value();
      if engine.id.symbol != symbol || engine.id.timeframe != tf {
        assert View() == old(View())[id := old(View())[id]];
      } else if engine.state == ACTIVE && engine.id.open < open {
        var _ := TransitionSession(id, SETTLING, now);
      } else if engine.state == PREFETCH && engine.id.open == open {
        var _ := TransitionSession(id, ACTIVE, now);
      } else {
        assert View() == old(View())[id := old(View())[id]];
      }
    }

    /** `archive_settling_sessions`: the sessions that have settled for longer than `grace`. */
    method ArchiveSettlingSessions(grace: int, now: int) returns (archived: seq<SessionId>)
      requires Valid()
      modifies this, Parts()
      ensures Valid() && View() == ArchiveSettled(old(View()), grace, now)
      ensures NoRepeats(archived)
      ensures forall id :: id in archived <==> id in old(engines) && SettledLongerThan(old(View())[id], grace, now)
    {
      hide Indexed, Valid, View, Parts, NoRepeats, SettledLongerThan, ArchiveSettled, TransitionEvents, IdSet;
      ghost var before := View();
      ViewKeys();
      archived := LongSettled(grace, now);
      NoIds();
      for i := 0 to |archived|
        invariant Valid() && Parts() <= old(Parts())
        invariant View() == before - IdSet(archived[..i])
        invariant View().Keys == engines.Keys
      {
        MoreIds(archived, i);
        var _ := TransitionSession(archived[i], ARCHIVED, now);
        ViewKeys();
      }
      assert archived[..|archived|] == archived;
      KeptAre(before, archived, grace, now);
    }

    method LongSettled(grace: int, now: int) returns (ids: seq<SessionId>)
      requires Valid()
      ensures Valid() && View() == old(View()) && Parts() == old(Parts()) && NoRepeats(ids)
      ensures forall id :: id in ids <==> id in engines && SettledLongerThan(View()[id], grace, now)
    {
      hide Indexed, NoRepeats, SettledLongerThan;
      ids := [];
      assert NoRepeats([]) by {
        EmptyHasNoRepeats();
      }
      var todo := engines.Keys;
      while todo != {}
        invariant todo <= engines.Keys && NoRepeats(ids)
        invariant forall id :: id in ids <==> id in engines && id !in todo && SettledLongerThan(View()[id], grace, now)
        decreases |todo|
      {
        var id :| id in todo;
        if SettledLongerThan(engines[id].Value(), grace, now) {
          NoRepeatsSnoc(ids, id);
          ids := ids + [id];
        }
        todo := todo - {id};
      }
      assert View() == old(View());
    }

    lemma EmptyHasNoRepeats()
      ensures NoRepeats([])
    {
    }

    /** One session that is over goes through the rest of its lifecycle. */
    method CleanOne(id: SessionId, now: int) returns (events: seq<Books.Event>)
      requires Valid() && id in engines && engines[id].state != ARCHIVED
      modifies this, Parts()
      ensures Valid() && View() == old(View()) - {id} && Parts() <= old(Parts())
      ensures events == LastEvents(old(View())[id])
    {
      hide Indexed, ExpireAll, TransitionEvents;
      events := [];
      ViewKeys();
      if engines[id].state == ACTIVE {
        events := TransitionSession(id, SETTLING, now);
        assert View()[id].state == SETTLING;
      }
      assert View()[id] == engines[id].Value();
      if engines[id].state == SETTLING || engines[id].state == PREFETCH {
        var _ := TransitionSession(id, ARCHIVED, now);
      }
    }

    /** `cleanup_expired_sessions`: how many were cleaned, and what their books published. */
    method CleanupExpiredSessions(now: int) returns (cleaned: nat, events: seq<Books.Event>)
      requires Valid()
      modifies this, Parts()
      ensures Valid() && View() == Cleanup(old(View()), now)
      ensures cleaned == |old(View())| - |View()|
      ensures ArePublished(events, old(View()), old(View()).Keys - View().Keys)
    {
      hide Indexed, Valid, View, Parts, Cleanup, TransitionEvents, LastEvents, ArePublished, Gone, Over;
      ghost var before := View();
      cleaned, events := 0, [];
      var todo := engines.Keys;
      ViewKeys();
      NoneGone(before, now);
      NothingPublished(before);
      while todo != {}
        invariant Valid() && Parts() <= old(Parts()) && View().Keys == engines.Keys
        invariant todo <= engines.Keys && todo <= before.Keys
        invariant View() == before - Gone(before, todo, now) && cleaned == |Gone(before, todo, now)|
        invariant ArePublished(events, before, Gone(before, todo, now))
        decreases |todo|
      {
        var id :| id in todo;
        SameState(id);
        GoneStep(before, todo, id, now);
        if engines[id].state != ARCHIVED && Over(id, now) {
          var more := CleanOne(id, now);
          ViewKeys();
          PublishedAlso(events, before, Gone(before, todo, now), id);
          events := events + more;
          cleaned := cleaned + 1;
        }
        todo := todo - {id};
      }
      CleanupIs(before, now);
      SizeWithout(before, Gone(before, {}, now));
    }

    lemma SameState(id: SessionId)
      requires id in engines
      ensures id in View() && View()[id].state == engines[id].state
    {
    }

    // ---------- Drivers ----------

    /** The sessions of one market that should be ready, as far as their tokens are known. */
    method EnsureMarketSessions(symbol: string, tf: Timeframe, resolved: map<SessionId, Tokens>, now: int)
      returns (created: nat)
      requires Valid()
      modifies this
      ensures var opens := ExpectedCandleOpens(tf, now / Calendar.SECOND);
        Valid() && View() == EnsureMarket(old(View()), symbol, tf, resolved, now, |opens|)
      ensures created == |View()| - |old(View())| && fresh(Parts() - old(Parts()))
    {
      hide Indexed, Valid, View, ExpectedCandleOpens, Transition, CurrentOpen, AddToIndex, NewEngine;
      created := 0;
      var opens := ExpectedCandleOpens(tf, now / Calendar.SECOND);
      ghost var before := View();
      for i := 0 to |opens|
        invariant Valid() && View() == EnsureMarket(before, symbol, tf, resolved, now, i)
        invariant created == |View()| - |before| && fresh(Parts() - old(Parts()))
      {
        var id := SessionId(symbol, tf, opens[i]);
        ViewKeys();
        if id !in engines && id in resolved && resolved[id] != map[] {
          ghost var parts := Parts();
          var state := if opens[i] == CurrentOpen(tf, now / Calendar.SECOND) then ACTIVE else PREFETCH;
          var _ := CreateSession(id, resolved[id], state, now);
          created := created + 1;
          assert Parts() - old(Parts()) <= (Parts() - parts) + (parts - old(Parts()));
        }
      }
    }

    /** `ensure_future_sessions`, as far as the registry of sessions goes. */
    method EnsureFutureSessions(markets: seq<Market>, resolved: map<SessionId, Tokens>, now: int) returns (created: nat)
      requires Valid()
      modifies this
      ensures Valid() && View() == EnsureMarkets(old(View()), markets, resolved, now, |markets|)
      ensures created == |View()| - |old(View())| && fresh(Parts() - old(Parts()))
    {
      hide Indexed, Valid, View, ExpectedCandleOpens, EnsureMarket;
      created := 0;
      ghost var before := View();
      for i := 0 to |markets|
        invariant Valid() && View() == EnsureMarkets(before, markets, resolved, now, i)
        invariant created == |View()| - |before| && fresh(Parts() - old(Parts()))
      {
        ghost var parts := Parts();
        var more := EnsureMarketSessions(markets[i].0, markets[i].1, resolved, now);
        created := created + more;
        assert Parts() - old(Parts()) <= (Parts() - parts) + (parts - old(Parts()));
      }
    }

    /** One market of `_update_sessions_from_registry`. */
    method RotateMarket(symbol: string, tf: Timeframe, tokens: Tokens, now: int)
      requires Valid()
      modifies this, Parts()
      ensures Valid() && View() == Rotate(old(View()), symbol, tf, tokens, now)
      ensures fresh(Parts() - old(Parts()))
    {
      hide Indexed, Valid, Boundary, Transition, CurrentOpen, AddToIndex;
      if tokens == map[] {
        return;
      }
      var id := CurrentId(symbol, tf, now);
      ViewKeys();
      if id !in engines {
        var _ := CreateSession(id, tokens, ACTIVE, now);
      } else if engines[id].state == PREFETCH {
        var _ := TransitionSession(id, ACTIVE, now);
      }
      OnCandleBoundary(symbol, tf, id.open, now);
    }

    /** Sessions for future candles that are not there yet. */
    method PrefetchSessions(future: map<SessionId, Tokens>, now: int)
      requires Valid()
      modifies this
      ensures Valid() && View() == PrefetchAll(old(View()), future) && fresh(Parts() - old(Parts()))
    {
      hide Indexed, Valid, View, Create, AddToIndex, PrefetchAll;
      ghost var before := View();
      var todo := future.Keys;
      PrefetchNone(before, future);
      while todo != {}
        invariant Valid() && fresh(Parts() - old(Parts())) && todo <= future.Keys
        invariant View() == PrefetchAll(before, future - todo)
        decreases |todo|
      {
        var id :| id in todo;
        ghost var parts := Parts();
        ViewKeys();
        PrefetchStep(before, future, todo, id, now);
        if id !in engines {
          var _ := CreateSession(id, future[id], PREFETCH, now);
          assert Parts() - old(Parts()) <= (Parts() - parts) + (parts - old(Parts()));
        }
        todo := todo - {id};
      }
      assert future - {} == future;
    }

    /** One of the sessions that own the token gets the event. */
    method DispatchTo(engine: SessionEngine, token: Token, event: FeedEvent, now: int)
      requires Valid() && engine.id in engines && engines[engine.id] == engine
      modifies engine
      ensures Valid() && engines == old(engines) && tokenIndex == old(tokenIndex)
      ensures View() == old(View())[engine.id := Dispatch(old(View())[engine.id], token, event, now)]
    {
      hide Indexed, Dispatch;
      ghost var before := View();
      DispatchKeepsTokens(before[engine.id], token, event, now);
      engine.DispatchWsEvent(token, event, now);
      StillIndexed(engine.id, before);
    }

    /** `dispatch_event`: every session that owns the token gets the event. */
    method DispatchEvent(token: Token, event: FeedEvent, now: int)
      requires Valid()
      modifies Parts()
      ensures Valid() && engines == old(engines) && tokenIndex == old(tokenIndex)
      ensures var ids := SessionsFor(old(View()), tokenIndex, token);
        View() == DispatchAll(old(View()), ids, |ids|, token, event, now)
    {
      hide Indexed, Dispatch, SessionsFor, View, Valid;
      ghost var before := View();
      ghost var ids := SessionsFor(before, tokenIndex, token);
      var sessions := ListSessions(token);
      for i := 0 to |sessions|
        invariant Valid() && engines == old(engines) && tokenIndex == old(tokenIndex)
        invariant View() == DispatchAll(before, ids, i, token, event, now)
      {
        ViewKeys();
        DispatchTo(sessions[i], token, event, now);
      }
    }

    method ListSessions(token: Token) returns (sessions: seq<SessionEngine>)
      requires Valid()
      ensures Valid() && View() == old(View())
      ensures var ids := SessionsFor(View(), tokenIndex, token);
        |sessions| == |ids| &&
        forall i :: 0 <= i < |ids| ==> ids[i] in engines && sessions[i] == engines[ids[i]] && sessions[i].id == ids[i]
    {
      hide Indexed, SessionsFor;
      sessions := GetSessionsForToken(token);
      assert View() == old(View());
    }
  }

  lemma DispatchKeepsTokens(e: Engine, token: Token, event: FeedEvent, now: int)
    ensures Dispatch(e, token, event, now).tokens == e.tokens && Dispatch(e, token, event, now).id == e.id
  {
  }

  /** What is published when a session that is over is cleaned up: only an active one settles first. */
  function LastEvents(e: Engine): seq<Books.Event> {
    if e.state == ACTIVE then TransitionEvents(e, SETTLING) else []
  }

  /** The event was published by one of the sessions that are gone. */
  ghost predicate Published(r: Registry, gone: set<SessionId>, event: Books.Event) {
    exists id :: id in gone && id in r && event in LastEvents(r[id])
  }

  /** The events are the ones published by the sessions that are gone. */
  ghost predicate ArePublished(events: seq<Books.Event>, r: Registry, gone: set<SessionId>) {
    forall e :: e in events <==> Published(r, gone, e)
  }

  lemma NothingPublished(r: Registry)
    ensures ArePublished([], r, {})
  {
  }

  lemma PublishedAlso(events: seq<Books.Event>, r: Registry, gone: set<SessionId>, id: SessionId)
    requires id in r && ArePublished(events, r, gone)
    ensures ArePublished(events + LastEvents(r[id]), r, gone + {id})
  {
    hide LastEvents;
  }

  /** The sessions a cleanup takes, of the ones no longer to do. */
  ghost function Gone(r: Registry, todo: set<SessionId>, now: int): set<SessionId> {
    set id | id in r && id !in todo && Over(id, now) && r[id].state != ARCHIVED
  }

  lemma NoneGone(r: Registry, now: int)
    ensures Gone(r, r.Keys, now) == {} && r - {} == r
  {
  }

  lemma GoneStep(r: Registry, todo: set<SessionId>, id: SessionId, now: int)
    requires id in todo && id in r
    ensures var takes := Over(id, now) && r[id].state != ARCHIVED;
      var gone, next := Gone(r, todo, now), Gone(r, todo - {id}, now);
      && id !in gone && next == (if takes then gone + {id} else gone)
      && r - (gone + {id}) == r - gone - {id} && id in r - gone && (r - gone)[id] == r[id]
  {
  }

  lemma CleanupIs(r: Registry, now: int)
    ensures Gone(r, {}, now) <= r.Keys && Cleanup(r, now) == r - Gone(r, {}, now)
    ensures r.Keys - Cleanup(r, now).Keys == Gone(r, {}, now)
  {
  }

  lemma SizeWithout(r: Registry, gone: set<SessionId>)
    requires gone <= r.Keys
    ensures |r - gone| == |r| - |gone|
  {
    assert (r - gone).Keys == r.Keys - gone;
    assert r.Keys == (r.Keys - gone) + gone;
    assert |r| == |r.Keys| && |r - gone| == |(r - gone).Keys|;
  }

  ghost function IdSet(ids: seq<SessionId>): set<SessionId> {
    set id | id in ids
  }

  lemma NoIds()
    ensures IdSet([]) == {} && forall r: Registry :: r - {} == r
  {
  }

  lemma MoreIds(ids: seq<SessionId>, i: nat)
    requires i < |ids|
    ensures IdSet(ids[..i + 1]) == IdSet(ids[..i]) + {ids[i]}
    ensures forall r: Registry :: r - IdSet(ids[..i]) - {ids[i]} == r - IdSet(ids[..i + 1])
  {
    assert ids[..i + 1] == ids[..i] + [ids[i]];
  }

  lemma KeptAre(before: Registry, archived: seq<SessionId>, grace: int, now: int)
    requires forall id :: id in archived <==> id in before && SettledLongerThan(before[id], grace, now)
    ensures before - IdSet(archived) == ArchiveSettled(before, grace, now)
  {
  }

  lemma PrefetchNone(r: Registry, future: map<SessionId, Tokens>)
    ensures PrefetchAll(r, future - future.Keys) == r
  {
  }

  lemma PrefetchStep(r: Registry, future: map<SessionId, Tokens>, todo: set<SessionId>, id: SessionId, now: int)
    requires id in todo && todo <= future.Keys
    ensures PrefetchAll(r, future - (todo - {id})) ==
      Create(PrefetchAll(r, future - todo), id, future[id], PREFETCH, now)
    ensures id in PrefetchAll(r, future - todo) ==>
      Create(PrefetchAll(r, future - todo), id, future[id], PREFETCH, now) == PrefetchAll(r, future - todo)
  {
    hide NewEngine;
  }
}
