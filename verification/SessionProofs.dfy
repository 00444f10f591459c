/** What every step and every run of the session lifecycle keeps. */
module SessionProofs {
  import opened Orders
  import opened Calendar
  import opened Sessions
  import Books
  import BookSteps
  import BookTheorems

  // ---------- Steps ----------

  /** What the drivers of the lifecycle do, and what happens to books in between. */
  datatype Op =
    | KeepReady(id: SessionId, tokens: Tokens)
    | Prefetch(id: SessionId, tokens: Tokens)
    | RotateMarket(symbol: string, timeframe: Timeframe, tokens: Tokens)
    | ArchiveAfter(grace: int)
    | CleanUp
    | Trade(id: SessionId, token: Token, op: Books.Op)

  function Step(r: Registry, op: Op, now: int): Registry {
    match op
    case KeepReady(id, tokens) => Ensure(r, id, tokens, now)
    case Prefetch(id, tokens) => Create(r, id, tokens, PREFETCH, now)
    case RotateMarket(symbol, tf, tokens) => Rotate(r, symbol, tf, tokens, now)
    case ArchiveAfter(grace) => ArchiveSettled(r, grace, now)
    case CleanUp => Cleanup(r, now)
    case Trade(id, token, op) => if id in r then r[id := OnBook(r[id], token, op)] else r
  }

  /** Orders get fresh ids and positive quantities. */
  ghost predicate Admissible(r: Registry, op: Op) {
    op.Trade? && op.id in r ==>
      forall d :: d in r[op.id].books ==> BookSteps.Admissible(r[op.id].books[d], op.op)
  }

  // ---------- The invariant ----------

  ghost predicate BooksWell(books: map<Direction, Books.Book>) {
    forall d :: d in books ==> BookSteps.WellBook(books[d])
  }

  ghost predicate BooksDead(books: map<Direction, Books.Book>) {
    forall d :: d in books ==> BookTheorems.Dead(books[d])
  }

  /** A registered session at second `clock`. */
  ghost predicate Orderly(id: SessionId, e: Engine, clock: int) {
    && e.id == id && e.state != ARCHIVED
    && (e.state == ACTIVE ==> id.open <= CurrentOpen(id.timeframe, clock))
    && (e.state == SETTLING ==> BooksDead(e.books) && e.settlingAt.Some?)
    && BooksWell(e.books)
  }

  ghost predicate AllOrderly(r: Registry, clock: int) {
    forall id :: id in r ==> Orderly(id, r[id], clock)
  }

  // ---------- What each step keeps ----------

  lemma OpenGrows(tf: Timeframe, t: int, now: int)
    requires t <= now
    ensures CurrentOpen(tf, t) <= CurrentOpen(tf, now)
  {
    OpensApart(tf, t, now);
  }

  lemma LaterOrderly(id: SessionId, e: Engine, clock: int, now: int)
    requires Orderly(id, e, clock) && clock <= now
    ensures Orderly(id, e, now)
  {
    OpenGrows(id.timeframe, clock, now);
    hide BooksDead, BooksWell, CurrentOpen;
  }

  lemma ExpiryKillsAll(books: map<Direction, Books.Book>)
    requires BooksWell(books)
    ensures BooksWell(ExpireAll(books)) && BooksDead(ExpireAll(books))
  {
    hide BookSteps.WellBook, BookTheorems.Dead, Books.ExpireBook;
    forall d | d in books
      ensures BookSteps.WellBook(ExpireAll(books)[d]) && BookTheorems.Dead(ExpireAll(books)[d])
    {
      ExpiryKills(books[d]);
    }
  }

  lemma ExpiryKills(b: Books.Book)
    requires BookSteps.WellBook(b)
    ensures BookSteps.WellBook(Books.ExpireBook(b).book) && BookTheorems.Dead(Books.ExpireBook(b).book)
  {
    BookSteps.StepKeepsWell(b, Books.Expire);
    BookTheorems.ExpireKills(b);
    hide BookSteps.WellBook, BookTheorems.Dead, Books.ExpireBook;
  }

  lemma NewIsOrderly(id: SessionId, tokens: Tokens, initial: State, now: int)
    requires initial == PREFETCH || (initial == ACTIVE && id.open <= CurrentOpen(id.timeframe, now / Calendar.SECOND))
    ensures var e := NewEngine(id, tokens);
      && Orderly(id, e, now / Calendar.SECOND)
      && (initial == ACTIVE ==> Orderly(id, Transition(e, ACTIVE, now), now / Calendar.SECOND))
  {
  }

  lemma TransitionOrderly(id: SessionId, e: Engine, state: State, now: int)
    requires Orderly(id, e, now / Calendar.SECOND) && (state == ACTIVE || state == SETTLING)
    requires state == ACTIVE ==> id.open <= CurrentOpen(id.timeframe, now / Calendar.SECOND)
    ensures Orderly(id, Transition(e, state, now), now / Calendar.SECOND)
  {
    ExpiryKillsAll(e.books);
    hide BooksWell, BooksDead, ExpireAll, CurrentOpen;
  }

  lemma CreateOrderly(r: Registry, id: SessionId, tokens: Tokens, initial: State, now: int)
    requires AllOrderly(r, now / Calendar.SECOND)
    requires initial == PREFETCH || (initial == ACTIVE && id.open <= CurrentOpen(id.timeframe, now / Calendar.SECOND))
    ensures AllOrderly(Create(r, id, tokens, initial, now), now / Calendar.SECOND)
  {
    NewIsOrderly(id, tokens, initial, now);
    hide Orderly, NewEngine, Transition, CurrentOpen;
  }

  lemma BoundaryOrderly(r: Registry, symbol: string, tf: Timeframe, now: int)
    requires AllOrderly(r, now / Calendar.SECOND)
    ensures var open := CurrentOpen(tf, now / Calendar.SECOND);
      AllOrderly(Boundary(r, symbol, tf, open, now), now / Calendar.SECOND)
  {
    var open := CurrentOpen(tf, now / Calendar.SECOND);
    forall id | id in r ensures Orderly(id, AtBoundary(r[id], symbol, tf, open, now), now / Calendar.SECOND) {
      var e := r[id];
      assert Orderly(id, e, now / Calendar.SECOND);
      assert e.id == id;
      hide Orderly, Transition;
      if e.id.symbol == symbol && e.id.timeframe == tf {
        TransitionOrderly(id, e, SETTLING, now);
        if e.id.open == open {
          TransitionOrderly(id, e, ACTIVE, now);
        }
      }
    }
  }

  lemma RotateOrderly(r: Registry, symbol: string, tf: Timeframe, tokens: Tokens, now: int)
    requires AllOrderly(r, now / Calendar.SECOND)
    ensures AllOrderly(Rotate(r, symbol, tf, tokens, now), now / Calendar.SECOND)
  {
    if tokens != map[] {
      var id := CurrentId(symbol, tf, now);
      hide Orderly, Transition, Boundary;
      CreateOrderly(r, id, tokens, ACTIVE, now);
      BoundaryOrderly(Create(r, id, tokens, ACTIVE, now), symbol, tf, now);
      BoundaryOrderly(r, symbol, tf, now);
      if id in r {
        TransitionOrderly(id, r[id], ACTIVE, now);
        hide Create;
        BoundaryOrderly(Move(r, id, ACTIVE, now), symbol, tf, now);
      }
    }
  }

  /** An operation on a book of a session keeps its books well, and dead if they are dead. */
  lemma OnBookKeeps(e: Engine, token: Token, op: Books.Op)
    requires BooksWell(e.books) && forall d :: d in e.books ==> BookSteps.Admissible(e.books[d], op)
    ensures BooksWell(OnBook(e, token, op).books)
    ensures BooksDead(e.books) ==> BooksDead(OnBook(e, token, op).books)
  {
    if !Refuses(e, token, op) {
      var d := DirectionOf(e.tokens, token).value;
      BookSteps.StepKeepsWell(e.books[d], op);
      if BooksDead(e.books) {
        assert BookTheorems.Dead(e.books[d]);
        BookTheorems.DeadStaysDead(e.books[d], op);
      }
      hide BookSteps.WellBook, BookTheorems.Dead, Books.Step;
    }
  }

  lemma TradeOrderly(id: SessionId, e: Engine, token: Token, op: Books.Op, clock: int)
    requires Orderly(id, e, clock) && forall d :: d in e.books ==> BookSteps.Admissible(e.books[d], op)
    ensures Orderly(id, OnBook(e, token, op), clock)
  {
    OnBookKeeps(e, token, op);
    hide BooksWell, BooksDead, CurrentOpen, Refuses, Books.Step;
  }

  lemma StepOrderly(r: Registry, op: Op, now: int)
    requires AllOrderly(r, now / Calendar.SECOND) && Admissible(r, op)
    ensures AllOrderly(Step(r, op, now), now / Calendar.SECOND)
  {
    hide Orderly, Create, Rotate, OnBook, CurrentOpen;
    match op
    case KeepReady(id, tokens) =>
      CreateOrderly(r, id, tokens, PREFETCH, now);
      if id.open == CurrentOpen(id.timeframe, now / Calendar.SECOND) {
        CreateOrderly(r, id, tokens, ACTIVE, now);
      }
    case Prefetch(id, tokens) => CreateOrderly(r, id, tokens, PREFETCH, now);
    case RotateMarket(symbol, tf, tokens) => RotateOrderly(r, symbol, tf, tokens, now);
    case ArchiveAfter(_) =>
    case CleanUp =>
    case Trade(id, token, bookOp) =>
      if id in r {
        TradeOrderly(id, r[id], token, bookOp, now / Calendar.SECOND);
      }
  }

  // ---------- States only move forward ----------

  /** Whether a step may take a session out of the registry: only by archiving it. */
  predicate MayArchive(id: SessionId, e: Engine, op: Op, now: int) {
    match op
    case CleanUp => Over(id, now)
    case ArchiveAfter(grace) => SettledLongerThan(e, grace, now)
    case _ => false
  }

  /** PREFETCH, ACTIVE, SETTLING, ARCHIVED: no step moves a session back, or drops it early. */
  lemma StepForward(r: Registry, op: Op, now: int, id: SessionId)
    requires AllOrderly(r, now / Calendar.SECOND) && id in r
    ensures var r' := Step(r, op, now);
      if id in r' then r[id].state.Rank() <= r'[id].state.Rank() && r'[id].tokens == r[id].tokens
      else MayArchive(id, r[id], op, now)
  {
    assert Orderly(id, r[id], now / Calendar.SECOND);
    hide BooksWell, BooksDead, AllOrderly, ExpireAll, CurrentOpen, Rotate, Refuses, Books.Step, DirectionOf;
    if op.RotateMarket? {
      RotateForward(r, op.symbol, op.timeframe, op.tokens, now, id);
    }
  }

  lemma BoundaryForward(r: Registry, symbol: string, tf: Timeframe, open: int, now: int, id: SessionId)
    requires id in r
    ensures var r' := Boundary(r, symbol, tf, open, now);
      id in r' && r[id].state.Rank() <= r'[id].state.Rank() && r'[id].tokens == r[id].tokens
  {
    hide ExpireAll;
  }

  lemma RotateForward(r: Registry, symbol: string, tf: Timeframe, tokens: Tokens, now: int, id: SessionId)
    requires id in r
    ensures var r' := Rotate(r, symbol, tf, tokens, now);
      id in r' && r[id].state.Rank() <= r'[id].state.Rank() && r'[id].tokens == r[id].tokens
  {
    var current := CurrentId(symbol, tf, now);
    BoundaryForward(r, symbol, tf, current.open, now, id);
    BoundaryForward(Create(r, current, tokens, ACTIVE, now), symbol, tf, current.open, now, id);
    hide Boundary, CurrentId;
    if current in r && r[current].state == PREFETCH {
      var r1 := Move(r, current, ACTIVE, now);
      BoundaryForward(r1, symbol, tf, current.open, now, id);
    }
  }

  // ---------- One active session per market ----------

  ghost predicate OneActive(r: Registry, symbol: string, tf: Timeframe) {
    forall a, b | a in r && b in r && r[a].state == ACTIVE && r[b].state == ACTIVE
      && a.symbol == symbol == b.symbol && a.timeframe == tf == b.timeframe :: a == b
  }

  /** After a boundary at the current open a market has no active session but the current one. */
  lemma BoundaryLeavesOne(r: Registry, symbol: string, tf: Timeframe, now: int)
    requires AllOrderly(r, now / Calendar.SECOND)
    ensures var id := CurrentId(symbol, tf, now);
      var r' := Boundary(r, symbol, tf, id.open, now);
      && OneActive(r', symbol, tf)
      && (forall a :: a in r' && a.symbol == symbol && a.timeframe == tf && r'[a].state == ACTIVE ==> a == id)
      && (id in r' && r'[id].state == ACTIVE <==> id in r && r[id].state != SETTLING)
  {
    var id := CurrentId(symbol, tf, now);
    var r' := Boundary(r, symbol, tf, id.open, now);
    forall a | a in r' && a.symbol == symbol && a.timeframe == tf && r'[a].state == ACTIVE ensures a == id {
      assert Orderly(a, r[a], now / Calendar.SECOND);
      hide BooksWell, BooksDead, ExpireAll;
      assert a.open <= id.open;
    }
    if id in r {
      assert Orderly(id, r[id], now / Calendar.SECOND);
    }
    hide BooksWell, BooksDead, ExpireAll, CurrentOpen;
  }

  /** A rotation leaves the current session active, and it alone, unless it is settling already. */
  lemma RotateLeavesOne(r: Registry, symbol: string, tf: Timeframe, tokens: Tokens, now: int)
    requires AllOrderly(r, now / Calendar.SECOND) && tokens != map[]
    ensures var id := CurrentId(symbol, tf, now);
      var r' := Rotate(r, symbol, tf, tokens, now);
      && OneActive(r', symbol, tf) && id in r'
      && (r'[id].state == ACTIVE <==> !(id in r && r[id].state == SETTLING))
  {
    var id := CurrentId(symbol, tf, now);
    hide Boundary, OneActive, Orderly;
    if id !in r {
      CreateOrderly(r, id, tokens, ACTIVE, now);
      BoundaryLeavesOne(Create(r, id, tokens, ACTIVE, now), symbol, tf, now);
    } else if r[id].state == PREFETCH {
      TransitionOrderly(id, r[id], ACTIVE, now);
      BoundaryLeavesOne(Move(r, id, ACTIVE, now), symbol, tf, now);
    } else {
      BoundaryLeavesOne(r, symbol, tf, now);
    }
    BoundaryKeys(r, symbol, tf, id.open, now);
    BoundaryKeys(Create(r, id, tokens, ACTIVE, now), symbol, tf, id.open, now);
    BoundaryKeys(Move(r, id, ACTIVE, now), symbol, tf, id.open, now);
  }

  lemma BoundaryKeys(r: Registry, symbol: string, tf: Timeframe, open: int, now: int)
    ensures Boundary(r, symbol, tf, open, now).Keys == r.Keys
  {
    hide AtBoundary;
  }

  // ---------- Runs ----------

  /** An operation and the clock it ran at. */
  datatype Timed = Timed(op: Op, now: int)

  function Run(ops: seq<Timed>): Registry {
    if ops == [] then map[] else Step(Run(ops[..|ops| - 1]), ops[|ops| - 1].op, ops[|ops| - 1].now)
  }

  /** The clock never goes back, and orders are admissible. */
  ghost predicate Legal(ops: seq<Timed>) {
    ops == [] ||
    var init, last := ops[..|ops| - 1], ops[|ops| - 1];
    && Legal(init) && Admissible(Run(init), last.op)
    && (init != [] ==> init[|init| - 1].now <= last.now)
  }

  lemma ClockDivides(t: int, now: int)
    requires t <= now
    ensures t / Calendar.SECOND <= now / Calendar.SECOND
  {
  }

  lemma LaterAllOrderly(r: Registry, t: int, now: int)
    requires AllOrderly(r, t / Calendar.SECOND) && t <= now
    ensures AllOrderly(r, now / Calendar.SECOND)
  {
    ClockDivides(t, now);
    forall id | id in r ensures Orderly(id, r[id], now / Calendar.SECOND) {
      LaterOrderly(id, r[id], t / Calendar.SECOND, now / Calendar.SECOND);
    }
  }

  /** In every reachable registry, active sessions have begun and settling sessions are dead. */
  lemma {:induction false} RunOrderly(ops: seq<Timed>, now: int)
    requires Legal(ops) && (ops != [] ==> ops[|ops| - 1].now <= now)
    ensures AllOrderly(Run(ops), now / Calendar.SECOND)
  {
    if ops != [] {
      var init, last := ops[..|ops| - 1], ops[|ops| - 1];
      hide AllOrderly, Step, Admissible;
      RunOrderly(init, last.now);
      StepOrderly(Run(init), last.op, last.now);
      LaterAllOrderly(Run(ops), last.now, now);
    }
  }

  /** The session has been registered all through the last `n` operations. */
  predicate Stayed(ops: seq<Timed>, n: nat, id: SessionId) {
    n <= |ops| && id in Run(ops) && (n == 0 || Stayed(ops[..|ops| - 1], n - 1, id))
  }

  /** The orders of `books'` are the ones of `books`, some pruned, with the same fills and status. */
  ghost predicate NothingFills(books: map<Direction, Books.Book>, books': map<Direction, Books.Book>) {
    books'.Keys == books.Keys && forall d :: d in books' ==> SameFate(books[d], books'[d])
  }

  ghost predicate SameFate(b: Books.Book, b': Books.Book) {
    forall o' :: o' in b'.orders ==> exists o :: o in b.orders && Unmoved(o, o')
  }

  predicate Unmoved(o: Order, o': Order) {
    o.terms == o'.terms && o.filled == o'.filled && o.status == o'.status
  }

  lemma SameFateSelf(b: Books.Book)
    ensures SameFate(b, b)
  {
    forall o | o in b.orders ensures exists p :: p in b.orders && Unmoved(p, o) {
      assert Unmoved(o, o);
    }
  }

  lemma SameFateTrans(a: Books.Book, b: Books.Book, c: Books.Book)
    requires SameFate(a, b) && SameFate(b, c)
    ensures SameFate(a, c)
  {
    forall o | o in c.orders ensures exists p :: p in a.orders && Unmoved(p, o) {
      var q :| q in b.orders && Unmoved(q, o);
      var p :| p in a.orders && Unmoved(p, q);
      assert Unmoved(p, o);
    }
  }

  lemma DeadStepSameFate(b: Books.Book, op: Books.Op)
    requires BookSteps.WellBook(b) && BookSteps.Admissible(b, op) && BookTheorems.Dead(b) && !Places(op)
    ensures SameFate(b, Books.Step(b, op).book)
  {
    hide BookSteps.WellBook, BookSteps.Admissible, BookTheorems.Dead, Books.Step;
    BookTheorems.DeadStaysDead(b, op);
    var b' := Books.Step(b, op).book;
    forall o' | o' in b'.orders ensures exists o :: o in b.orders && Unmoved(o, o') {
      var o :| o in b.orders && o.terms == o'.terms && o.filled == o'.filled && o.status == o'.status;
      assert Unmoved(o, o');
    }
  }

  lemma TradeNothingFills(e: Engine, token: Token, op: Books.Op)
    requires BooksWell(e.books) && BooksDead(e.books)
    requires forall d :: d in e.books ==> BookSteps.Admissible(e.books[d], op)
    ensures NothingFills(e.books, OnBook(e, token, op).books)
  {
    forall d | d in e.books ensures SameFate(e.books[d], e.books[d]) {
      SameFateSelf(e.books[d]);
    }
    if !Refuses(e, token, op) {
      var d := DirectionOf(e.tokens, token).value;
      assert BookTheorems.Dead(e.books[d]) && BookSteps.WellBook(e.books[d]);
      assert !Places(op);
      DeadStepSameFate(e.books[d], op);
    }
  }

  lemma SelfNothingFills(books: map<Direction, Books.Book>)
    ensures NothingFills(books, books)
  {
    forall d | d in books ensures SameFate(books[d], books[d]) {
      SameFateSelf(books[d]);
    }
  }

  /** While a session settles no step fills, revives or adds an order of it. */
  lemma SettlingStep(r: Registry, op: Op, now: int, id: SessionId)
    requires AllOrderly(r, now / Calendar.SECOND) && Admissible(r, op)
    requires id in r && r[id].state == SETTLING && id in Step(r, op, now)
    ensures var r' := Step(r, op, now);
      r'[id].state == SETTLING && NothingFills(r[id].books, r'[id].books)
  {
    assert Orderly(id, r[id], now / Calendar.SECOND);
    SelfNothingFills(r[id].books);
    if op.Trade? && op.id == id {
      TradeNothingFills(r[id], op.token, op.op);
      hide NothingFills, Books.Step, Refuses, BooksWell, BooksDead;
    } else {
      hide NothingFills, BooksWell, BooksDead, ExpireAll, OnBook, CurrentOpen;
      assert Step(r, op, now)[id] == r[id];
    }
  }

  lemma NothingFillsTrans(a: map<Direction, Books.Book>, b: map<Direction, Books.Book>, c: map<Direction, Books.Book>)
    requires NothingFills(a, b) && NothingFills(b, c)
    ensures NothingFills(a, c)
  {
    forall d | d in c ensures SameFate(a[d], c[d]) {
      hide SameFate;
      assert SameFate(a[d], b[d]) && SameFate(b[d], c[d]);
      SameFateTrans(a[d], b[d], c[d]);
    }
  }

  /**
   Once a session settles, then for as long as it stays registered, whatever happens: it goes on
   settling, none of its orders is live, and none ever fills again.
   */
  lemma {:induction false} SettledForGood(ops: seq<Timed>, n: nat, id: SessionId)
    requires Legal(ops) && Stayed(ops, n, id)
    requires id in Run(ops[..|ops| - n]) && Run(ops[..|ops| - n])[id].state == SETTLING
    ensures var before, after := Run(ops[..|ops| - n])[id], Run(ops)[id];
      && after.state == SETTLING && BooksDead(after.books)
      && NothingFills(before.books, after.books)
    decreases n
  {
    hide *;
    if n == 0 {
      assert ops[..|ops|] == ops;
      SelfNothingFills(Run(ops)[id].books);
      StayedUnfold(ops, n, id);
    } else {
      StayedUnfold(ops, n, id);
      LegalUnfold(ops);
      var init, last := ops[..|ops| - 1], ops[|ops| - 1];
      assert init[..|init| - (n - 1)] == ops[..|ops| - n];
      SettledForGood(init, n - 1, id);
      RunOrderly(init, last.now);
      SettlingStep(Run(init), last.op, last.now, id);
      NothingFillsTrans(Run(ops[..|ops| - n])[id].books, Run(init)[id].books, Run(ops)[id].books);
    }
    SettlingIsDead(ops, id);
  }

  lemma LegalUnfold(ops: seq<Timed>)
    requires Legal(ops) && ops != []
    ensures var init, last := ops[..|ops| - 1], ops[|ops| - 1];
      && Legal(init) && Admissible(Run(init), last.op) && (init != [] ==> init[|init| - 1].now <= last.now)
      && Run(ops) == Step(Run(init), last.op, last.now)
  {
    hide Step, Admissible;
  }

  lemma StayedUnfold(ops: seq<Timed>, n: nat, id: SessionId)
    requires Stayed(ops, n, id)
    ensures n <= |ops| && id in Run(ops) && (n > 0 ==> Stayed(ops[..|ops| - 1], n - 1, id))
    ensures n > 0 ==> id in Run(ops[..|ops| - 1])
  {
    hide Run;
  }

  lemma SettlingIsDead(ops: seq<Timed>, id: SessionId)
    requires Legal(ops) && id in Run(ops) && Run(ops)[id].state == SETTLING
    ensures BooksDead(Run(ops)[id].books)
  {
    assert ops != [];
    var now := ops[|ops| - 1].now;
    RunOrderly(ops, now);
    assert Orderly(id, Run(ops)[id], now / Calendar.SECOND);
  }
}
