/** Whole runs of a shadow book, with the history of what went in and what was published. */
module Runs {
  import opened Ladders
  import opened Orders
  import opened Matching
  import opened Passes
  import opened Exits
  import opened Books
  import opened BookSafety
  import opened BookSteps
  import opened Liquidity

  /** One operation and what it published. */
  datatype Entry = Entry(op: Op, events: seq<Event>, exits: seq<Exit>)

  type Log = seq<Entry>

  datatype World = World(book: Book, log: Log)

  function After(w: World, op: Op): World {
    var out := Step(w.book, op);
    World(out.book, w.log + [Entry(op, out.events, out.exits)])
  }

  function Run(ops: seq<Op>): World {
    if ops == [] then World(EMPTY_BOOK, [])
    else After(Run(ops[..|ops| - 1]), ops[|ops| - 1])
  }

  predicate Places(op: Op, id: OrderId) {
    (op.PlaceOrder? && op.terms.id == id) || (op.PlaceFilled? && op.terms.id == id)
  }

  /** Some earlier operation placed an order with this id. */
  predicate Known(log: Log, id: OrderId) {
    exists i :: 0 <= i < |log| && Places(log[i].op, id)
  }

  /** Ids are never used twice; quantities are positive. */
  ghost predicate LegalOp(w: World, op: Op) {
    Admissible(w.book, op) && forall id :: Places(op, id) ==> !Known(w.log, id)
  }

  ghost predicate Legal(ops: seq<Op>) {
    ops == [] || (Legal(ops[..|ops| - 1]) && LegalOp(Run(ops[..|ops| - 1]), ops[|ops| - 1]))
  }

  lemma {:induction false} RunWell(ops: seq<Op>)
    requires Legal(ops)
    ensures WellBook(Run(ops).book)
  {
    if ops == [] {
    } else {
      hide WellBook, Step, Admissible;
      RunWell(ops[..|ops| - 1]);
      StepKeepsWell(Run(ops[..|ops| - 1]).book, ops[|ops| - 1]);
    }
  }

  // ---------- Liquidity over a run ----------

  predicate Touches(changes: seq<Change>, side: Side, p: Price) {
    exists i :: 0 <= i < |changes| && changes[i].side == side && changes[i].price == p
  }

  /** The feed sets the level at `p` afresh. */
  predicate Sets(op: Op, side: Side, p: Price) {
    match op
    case Snapshot(_, _, _) => true
    case Expire => true
    case Delta(changes, _) => Touches(changes, side, p)
    case _ => false
  }

  /** What has been published as taken at `p` since the feed last set it. */
  ghost function TakenSince(log: Log, side: Side, p: Price): real {
    if log == [] then 0.0
    else
      var e := log[|log| - 1];
      if Sets(e.op, side, p) then 0.0 else
        TakenSince(log[..|log| - 1], side, p) + QtyAt(Takes(side, Outcome(EMPTY_BOOK, e.events, e.exits)), p)
  }

  /** What the feed said is there is what is left plus what was taken; only dust may be missing. */
  ghost predicate BackedAt(raw: Ladder, shadow: Ladder, taken: real, p: Price) {
    && taken >= 0.0
    && (p in shadow ==> p in raw && shadow[p] > 0.0 && raw[p] == shadow[p] + taken)
    && (p in raw && p !in shadow ==> 0.0 <= raw[p] - taken < DUST)
  }

  lemma DrainBacks(raw: Ladder, shadow: Ladder, taken: real, takes: seq<Level>, shadow': Ladder, p: Price)
    requires BackedAt(raw, shadow, taken, p)
    requires Drained(shadow, takes, shadow') && PositiveFills(takes) && Positive(shadow')
    ensures BackedAt(raw, shadow', taken + QtyAt(takes, p), p)
  {
    QtyAtNonNegative(takes, p);
  }

  /** The feed's copy and the shadow agree at every price a delta touches, and nowhere else change. */
  lemma {:induction false} DeltaAt(shadow: Sides, raw: Sides, changes: seq<Change>, side: Side, p: Price)
    ensures var s0 := if side == Ask then shadow.asks else shadow.bids;
      var r0 := if side == Ask then raw.asks else raw.bids;
      var s, r := ApplyChangesTo(shadow, changes), ApplyChangesTo(raw, changes);
      var s1 := if side == Ask then s.asks else s.bids;
      var r1 := if side == Ask then r.asks else r.bids;
      if Touches(changes, side, p)
      then (p in s1 <==> p in r1) && (p in s1 ==> s1[p] == r1[p])
      else (p in s1 <==> p in s0) && (p in s1 ==> s1[p] == s0[p]) &&
           (p in r1 <==> p in r0) && (p in r1 ==> r1[p] == r0[p])
  {
    if changes != [] {
      var n := |changes| - 1;
      var c := changes[n];
      DeltaAt(shadow, raw, changes[..n], side, p);
      TouchesSnoc(changes[..n], c, side, p);
      assert changes == changes[..n] + [c];
    }
  }

  lemma TouchesSnoc(changes: seq<Change>, c: Change, side: Side, p: Price)
    ensures Touches(changes + [c], side, p) <==> Touches(changes, side, p) || (c.side == side && c.price == p)
  {
    var all := changes + [c];
    assert all[|changes|] == c;
    if Touches(changes, side, p) {
      var i :| 0 <= i < |changes| && changes[i].side == side && changes[i].price == p;
      assert all[i] == changes[i];
    }
  }

  /**
   Liquidity is never spent twice. In every reachable state, at every price on either side: the
   size the feed last set equals what is left plus everything published as filled or sold there
   since, and a level that has left the shadow book is short by less than DUST.
   */
  lemma {:induction false} RunBacked(ops: seq<Op>, side: Side, p: Price)
    requires Legal(ops)
    ensures var w := Run(ops);
      BackedAt(w.book.RawLadder(side), w.book.Ladder(side), TakenSince(w.log, side, p), p)
  {
    if ops != [] {
      var init, op := ops[..|ops| - 1], ops[|ops| - 1];
      var w := Run(init);
      hide *;
      LegalParts(ops);
      RunBacked(init, side, p);
      RunWell(init);
      StepBacked(w, op, side, p);
    } else {
      assert BackedAt(map[], map[], 0.0, p);
    }
  }

  lemma LegalParts(ops: seq<Op>)
    requires Legal(ops) && ops != []
    ensures var init, op := ops[..|ops| - 1], ops[|ops| - 1];
      && Legal(init) && LegalOp(Run(init), op) && Admissible(Run(init).book, op)
      && Run(ops) == After(Run(init), op)
  {
  }

  lemma StepBacked(w: World, op: Op, side: Side, p: Price)
    requires WellBook(w.book) && Admissible(w.book, op)
    requires BackedAt(w.book.RawLadder(side), w.book.Ladder(side), TakenSince(w.log, side, p), p)
    ensures var w' := After(w, op);
      BackedAt(w'.book.RawLadder(side), w'.book.Ladder(side), TakenSince(w'.log, side, p), p)
  {
    StepKeepsWell(w.book, op);
    TakenAfter(w, op, side, p);
    if FeedOp(op) {
      FeedBacked(w, op, side, p);
    } else {
      StepTook(w.book, op, side);
      var out := Step(w.book, op);
      NotSet(op, side, p);
      WellPositive(out.book, side);
      hide Step, WellBook, Takes, TakenSince, BackedAt, Drained, Positive;
      DrainBacks(w.book.RawLadder(side), w.book.Ladder(side), TakenSince(w.log, side, p),
                 Takes(side, out), out.book.Ladder(side), p);
    }
  }

  lemma WellPositive(b: Book, side: Side)
    requires WellBook(b)
    ensures Positive(b.Ladder(side))
  {
  }

  lemma NotSet(op: Op, side: Side, p: Price)
    requires !FeedOp(op)
    ensures !Sets(op, side, p)
  {
  }

  lemma TakenAfter(w: World, op: Op, side: Side, p: Price)
    ensures var out := Step(w.book, op);
      TakenSince(After(w, op).log, side, p) ==
        if Sets(op, side, p) then 0.0 else TakenSince(w.log, side, p) + QtyAt(Takes(side, out), p)
  {
    hide Step, Sets;
    var out := Step(w.book, op);
    var log := After(w, op).log;
    assert log[..|log| - 1] == w.log;
    assert Takes(side, Outcome(EMPTY_BOOK, out.events, out.exits)) == Takes(side, out);
  }

  lemma FeedBacked(w: World, op: Op, side: Side, p: Price)
    requires WellBook(w.book) && Admissible(w.book, op) && FeedOp(op)
    requires BackedAt(w.book.RawLadder(side), w.book.Ladder(side), TakenSince(w.log, side, p), p)
    requires WellBook(Step(w.book, op).book)
    requires TakenSince(After(w, op).log, side, p) ==
      if Sets(op, side, p) then 0.0
      else TakenSince(w.log, side, p) + QtyAt(Takes(side, Step(w.book, op)), p)
    ensures var w' := After(w, op);
      BackedAt(w'.book.RawLadder(side), w'.book.Ladder(side), TakenSince(w'.log, side, p), p)
  {
    WellPositive(Step(w.book, op).book, side);
    hide TakenSince, Takes, OrdersOk, ReportsOk, Quiet, Touches, Admissible, Listing, ApplyChangesTo;
    match op
    case Snapshot(_, _, _) =>
    case Expire =>
    case Delta(changes, now) =>
      DeltaAt(w.book.sides, w.book.raw, changes, side, p);
      NothingTaken(side, Step(w.book, op).book);
      NoQtyAt(p);
  }

  lemma NoQtyAt(p: Price)
    ensures QtyAt([], p) == 0.0
  {
  }
}
