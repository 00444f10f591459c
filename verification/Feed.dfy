/**
 What the feed says is what the book offers: the size at a price is the one the feed gave last, less
 what has been taken since.
 */
module Feed {
  import opened Prelude
  import opened Ladders
  import opened Books
  import opened Runs

  /** The last entry of a listing at a price that has a positive size. */
  function LastListed(levels: seq<Level>, p: Price): (k: Option<nat>)
    ensures k.Some? ==>
      && k.value < |levels| && levels[k.value].price == p && levels[k.value].qty > 0.0
      && forall j :: k.value < j < |levels| && levels[j].price == p ==> levels[j].qty <= 0.0
    ensures k.None? ==> forall j :: 0 <= j < |levels| && levels[j].price == p ==> levels[j].qty <= 0.0
  {
    if levels == [] then None
    else
      var n := |levels| - 1;
      if levels[n].price == p && levels[n].qty > 0.0 then Some(n) else LastListed(levels[..n], p)
  }

  /** The last change of one side at a price. */
  function LastChange(changes: seq<Change>, side: Side, p: Price): (k: Option<nat>)
    ensures k.Some? ==>
      && k.value < |changes| && changes[k.value].side == side && changes[k.value].price == p
      && forall j :: k.value < j < |changes| ==> !(changes[j].side == side && changes[j].price == p)
    ensures k.None? ==> forall j :: 0 <= j < |changes| ==> !(changes[j].side == side && changes[j].price == p)
  {
    if changes == [] then None
    else
      var n := |changes| - 1;
      if changes[n].side == side && changes[n].price == p then Some(n) else LastChange(changes[..n], side, p)
  }

  /** The size a side of a book holds at a price. */
  function SizeAt(s: Passes.Sides, side: Side, p: Price): Option<real> {
    match side
    case Bid => if p in s.bids then Some(s.bids[p]) else None
    case Ask => if p in s.asks then Some(s.asks[p]) else None
  }

  /** The sizes a snapshot gives: bids for bids, asks for asks. */
  function ListedSize(bids: seq<Level>, asks: seq<Level>, side: Side, p: Price): Option<real> {
    var levels := if side == Bid then bids else asks;
    var k := LastListed(levels, p);
    if k.Some? then Some(levels[k.value].qty) else None
  }

  lemma {:induction false} ListingAt(levels: seq<Level>, p: Price)
    ensures var k := LastListed(levels, p);
      && (p in Listing(levels) <==> k.Some?)
      && (k.Some? ==> Listing(levels)[p] == levels[k.value].qty)
  {
    if levels != [] {
      ListingAt(levels[..|levels| - 1], p);
    }
  }

  /**
   After a snapshot, each side holds at each price the size of the last entry for it that is positive,
   on the book and on the copy of the feed; what is not listed is gone.
   */
  lemma SnapshotSays(b: Book, bids: seq<Level>, asks: seq<Level>, now: int, side: Side, p: Price)
    ensures var b' := Step(b, Snapshot(bids, asks, now)).book;
      && SizeAt(b'.sides, side, p) == ListedSize(bids, asks, side, p) == SizeAt(b'.raw, side, p)
      && b'.lastUpdate == Some(now)
  {
    ListingAt(bids, p);
    ListingAt(asks, p);
    hide Listing;
  }

  /** The size after a series of changes, from the size before. */
  function Changed(before: Option<real>, changes: seq<Change>, side: Side, p: Price): Option<real> {
    var k := LastChange(changes, side, p);
    if k.None? then before
    else if changes[k.value].size > 0.0 then Some(changes[k.value].size) else None
  }

  lemma {:induction false} ChangesAt(s: Passes.Sides, changes: seq<Change>, side: Side, p: Price)
    ensures SizeAt(ApplyChangesTo(s, changes), side, p) == Changed(SizeAt(s, side, p), changes, side, p)
  {
    if changes != [] {
      var n := |changes| - 1;
      ChangesAt(s, changes[..n], side, p);
      ChangeAt(ApplyChangesTo(s, changes[..n]), changes[n], side, p);
      hide ApplyChange, SizeAt;
    }
  }

  lemma ChangeAt(s: Passes.Sides, c: Change, side: Side, p: Price)
    ensures SizeAt(ApplyChange(s, c), side, p) ==
      if c.side == side && c.price == p then (if c.size > 0.0 then Some(c.size) else None) else SizeAt(s, side, p)
  {
  }

  /** After a delta, the last change at a side and price decides; every other side and price is as before. */
  lemma DeltaSays(b: Book, changes: seq<Change>, now: int, side: Side, p: Price)
    ensures var b' := Step(b, Delta(changes, now)).book;
      && SizeAt(b'.sides, side, p) == Changed(SizeAt(b.sides, side, p), changes, side, p)
      && SizeAt(b'.raw, side, p) == Changed(SizeAt(b.raw, side, p), changes, side, p)
      && b'.lastUpdate == Some(now)
  {
    ChangesAt(b.sides, changes, side, p);
    ChangesAt(b.raw, changes, side, p);
    hide ApplyChangesTo, SizeAt, Changed;
  }

  // ---------- Over a run ----------

  /** The size the feed gave last at a side and price; an expired book offers nothing. */
  function LastSaid(ops: seq<Op>, side: Side, p: Price): Option<real> {
    if ops == [] then None
    else
      var before := LastSaid(ops[..|ops| - 1], side, p);
      match ops[|ops| - 1]
      case Snapshot(bids, asks, _) => ListedSize(bids, asks, side, p)
      case Delta(changes, _) => Changed(before, changes, side, p)
      case Expire => None
      case _ => before
  }

  lemma OthersKeepRaw(b: Book, op: Op)
    requires !op.Snapshot? && !op.Delta? && !op.Expire?
    ensures Step(b, op).book.raw == b.raw
  {
    hide CollectEvents, ReportAll, CollectOrders, Matching.Turn, Passes.Pass, Exits.ExecuteExit, Prune, ExpireOrders,
      CancelOrders, ResolveOrders, Depth;
    if op.MonitorBrackets? && b.sides.bids.Keys != {} {
      MonitorKeepsRaw(b, |b.orders|, Best(Bid, b.sides.bids.Keys));
    }
  }

  lemma {:induction false} MonitorKeepsRaw(b: Book, n: nat, bid: real)
    requires n <= |b.orders|
    ensures MonitorFirst(b, n, bid).book.raw == b.raw
  {
    if n > 0 {
      MonitorKeepsRaw(b, n - 1, bid);
    }
  }

  /** In every run, the copy of the feed is what the feed said last. */
  lemma {:induction false} RunHears(ops: seq<Op>, side: Side, p: Price)
    ensures SizeAt(Run(ops).book.raw, side, p) == LastSaid(ops, side, p)
  {
    if ops != [] {
      var init, op := ops[..|ops| - 1], ops[|ops| - 1];
      var b := Run(init).book;
      hide Step, Run, SizeAt, ListedSize, Changed;
      RunStep(ops);
      RunHears(init, side, p);
      match op
      case Snapshot(bids, asks, now) => SnapshotSays(b, bids, asks, now, side, p);
      case Delta(changes, now) => DeltaSays(b, changes, now, side, p);
      case Expire => ExpireSays(b, side, p);
      case _ => OthersKeepRaw(b, op);
    } else {
      assert Run(ops).book.raw == NO_LEVELS;
    }
  }

  lemma RunStep(ops: seq<Op>)
    requires ops != []
    ensures Run(ops).book == Step(Run(ops[..|ops| - 1]).book, ops[|ops| - 1]).book
  {
    hide Step;
  }

  lemma ExpireSays(b: Book, side: Side, p: Price)
    ensures SizeAt(Step(b, Expire).book.raw, side, p) == None
  {
    hide CollectEvents, ReportAll, CollectOrders, CancelOrders;
  }

  /**
   In every reachable state, what the book offers at a price is what the feed said last at that side
   and price, less everything published as filled or sold there since; what it does not offer though
   the feed said so has been taken, down to less than dust.
   */
  lemma RunOffers(ops: seq<Op>, side: Side, p: Price)
    requires Legal(ops)
    ensures var said, taken, offer :=
        LastSaid(ops, side, p), TakenSince(Run(ops).log, side, p), SizeAt(Run(ops).book.sides, side, p);
      && taken >= 0.0
      && (offer.Some? ==> said.Some? && offer.value > 0.0 && offer.value == said.value - taken)
      && (offer.None? && said.Some? ==> 0.0 <= said.value - taken < DUST)
  {
    RunHears(ops, side, p);
    RunBacked(ops, side, p);
    hide Run, LastSaid, TakenSince, Legal;
  }
}
