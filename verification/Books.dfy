/** The shadow order book as a value, and every operation made under its lock as a function. */
module Books {
  import opened Prelude
  import opened Ladders
  import opened Orders
  import opened Matching
  import opened Passes
  import opened Exits

  const SECOND: int := 1_000_000
  const STALE_AFTER: int := 120 * SECOND
  const PRUNE_GRACE: int := 5 * SECOND
  const CLEANUP_INTERVAL: nat := 50

  // ---------- State ----------

  /** What was last told about an order. */
  datatype Report = Report(filled: real, status: Status)

  datatype EventKind = FILL | CANCEL

  datatype Event = Event(
    id: OrderId,
    kind: EventKind,
    side: OrderSide,
    filled: real,
    avgEntry: Option<real>,
    status: Status,
    levels: seq<Level>)

  datatype Book = Book(
    sides: Sides,
    raw: Sides,
    orders: seq<Order>,
    reported: map<OrderId, Report>,
    expired: bool,
    lastUpdate: Option<int>,
    cleanups: nat,
    cache: map<(Side, int), seq<Level>>)
  {
    function Ladder(side: Side): Ladder {
      if side == Ask then sides.asks else sides.bids
    }

    function RawLadder(side: Side): Ladder {
      if side == Ask then raw.asks else raw.bids
    }

    predicate Stale(now: int) {
      lastUpdate.None? || now - lastUpdate.value > STALE_AFTER
    }
  }

  const NO_LEVELS := Sides(map[], map[])

  const EMPTY_BOOK := Book(NO_LEVELS, NO_LEVELS, [], map[], false, None, 0, map[])

  // ---------- Feed updates ----------

  datatype Change = Change(side: Side, price: Price, size: real)

  /** Later entries at the same price win; sizes that are not positive are skipped. */
  function Listing(levels: seq<Level>): Ladder {
    if levels == [] then map[]
    else
      var last := levels[|levels| - 1];
      var rest := Listing(levels[..|levels| - 1]);
      if last.qty > 0.0 then rest[last.price := last.qty] else rest
  }

  function ApplySnapshot(b: Book, bids: seq<Level>, asks: seq<Level>, now: int): Book {
    var sides := Sides(Listing(bids), Listing(asks));
    b.(sides := sides, raw := sides, cache := map[], lastUpdate := Some(now))
  }

  function SetLevel(book: Ladder, c: Change): Ladder {
    if c.size <= 0.0 then book - {c.price} else book[c.price := c.size]
  }

  function ApplyChange(s: Sides, c: Change): Sides {
    if c.side == Bid then Sides(SetLevel(s.bids, c), s.asks) else Sides(s.bids, SetLevel(s.asks, c))
  }

  function ApplyChangesTo(s: Sides, changes: seq<Change>): Sides {
    if changes == [] then s
    else ApplyChange(ApplyChangesTo(s, changes[..|changes| - 1]), changes[|changes| - 1])
  }

  function ApplyChanges(b: Book, changes: seq<Change>, now: int): Book {
    b.(sides := ApplyChangesTo(b.sides, changes),
       raw := ApplyChangesTo(b.raw, changes),
       cache := map[],
       lastUpdate := Some(now))
  }

  // ---------- Reporting ----------

  function Previous(reported: map<OrderId, Report>, id: OrderId): Report {
    if id in reported then reported[id] else Report(0.0, PENDING)
  }

  /** What there is to tell about an order, given what was last told. */
  function EventsFor(o: Order, prev: Report): seq<Event> {
    (if o.filled > prev.filled
     then [Event(o.terms.id, FILL, o.terms.side, o.filled, o.AvgEntry(), o.status, o.fillLevels)] else []) +
    (if o.status == CANCELED && prev.status != CANCELED
     then [Event(o.terms.id, CANCEL, o.terms.side, o.filled, o.AvgEntry(), o.status, [])] else [])
  }

  function AfterReport(o: Order, prev: Report): Order {
    if o.filled > prev.filled then o.(fillLevels := []) else o
  }

  function CollectEvents(orders: seq<Order>, reported: map<OrderId, Report>): seq<Event> {
    if orders == [] then []
    else
      var last := orders[|orders| - 1];
      CollectEvents(orders[..|orders| - 1], reported) + EventsFor(last, Previous(reported, last.terms.id))
  }

  function CollectOrders(orders: seq<Order>, reported: map<OrderId, Report>): (r: seq<Order>)
    ensures |r| == |orders|
    ensures forall i :: 0 <= i < |r| ==>
      r[i] == AfterReport(orders[i], Previous(reported, orders[i].terms.id))
  {
    seq(|orders|, i requires 0 <= i < |orders| =>
      AfterReport(orders[i], Previous(reported, orders[i].terms.id)))
  }

  function ReportAll(orders: seq<Order>): map<OrderId, Report> {
    if orders == [] then map[]
    else
      var last := orders[|orders| - 1];
      ReportAll(orders[..|orders| - 1])[last.terms.id := Report(last.filled, last.status)]
  }

  /** What one operation publishes: state changes to the stream, and executed exits. */
  datatype Outcome = Outcome(book: Book, events: seq<Event>, exits: seq<Exit>)

  /** `collect_state_changes`. */
  function Collect(b: Book): Outcome {
    Outcome(
      b.(orders := CollectOrders(b.orders, b.reported), reported := ReportAll(b.orders)),
      CollectEvents(b.orders, b.reported),
      [])
  }

  /** `seed_last_reported` with the current state of the order. */
  function Seed(b: Book, id: OrderId): Book {
    var i := IndexOf(b.orders, id);
    if i == |b.orders| then b
    else b.(reported := b.reported[id := Report(b.orders[i].filled, b.orders[i].status)])
  }

  // ---------- Expiry and cancellation ----------

  function ExpireOne(o: Order, now: int): Order {
    if o.terms.expireAt.None? || now < o.terms.expireAt.value then o
    else if o.status == PENDING then o.(status := CANCELED)
    else if o.status == PARTIAL then o.(quantity := o.filled, status := CANCELED)
    else if o.status == FILLED && !o.closed then o.(closed := true)
    else o
  }

  function MapOrders(orders: seq<Order>, f: Order -> Order): (r: seq<Order>)
    ensures |r| == |orders|
    ensures forall i :: 0 <= i < |r| ==> r[i] == f(orders[i])
  {
    seq(|orders|, i requires 0 <= i < |orders| => f(orders[i]))
  }

  function ExpireOrders(orders: seq<Order>, now: int): (r: seq<Order>)
    ensures |r| == |orders|
    ensures forall i :: 0 <= i < |r| ==> r[i] == ExpireOne(orders[i], now)
  {
    MapOrders(orders, o => ExpireOne(o, now))
  }

  function CancelOne(o: Order): Order {
    if o.Live() then o.(status := CANCELED) else o
  }

  function CancelOrders(orders: seq<Order>): (r: seq<Order>)
    ensures |r| == |orders|
    ensures forall i :: 0 <= i < |r| ==> r[i] == CancelOne(orders[i])
  {
    MapOrders(orders, CancelOne)
  }

  /** The market behind the book has resolved: bracket conditions are dropped. */
  function ResolveOne(o: Order): Order {
    if o.closed then o else CancelOne(o).(tp := None, sl := None, closed := true)
  }

  function ResolveOrders(orders: seq<Order>): (r: seq<Order>)
    ensures |r| == |orders|
    ensures forall i :: 0 <= i < |r| ==> r[i] == ResolveOne(orders[i])
  {
    MapOrders(orders, ResolveOne)
  }

  /** The position of the first order with this id, or the number of orders. */
  function IndexOf(orders: seq<Order>, id: OrderId): (i: nat)
    ensures i <= |orders|
    ensures i < |orders| ==> orders[i].terms.id == id
    ensures forall j :: 0 <= j < i ==> orders[j].terms.id != id
  {
    if orders == [] then 0
    else
      var i := IndexOf(orders[..|orders| - 1], id);
      if i < |orders| - 1 then i
      else if orders[|orders| - 1].terms.id == id then |orders| - 1 else |orders|
  }

  function CancelById(b: Book, id: OrderId): Book {
    var i := IndexOf(b.orders, id);
    if i == |b.orders| then b else b.(orders := b.orders[i := CancelOne(b.orders[i])])
  }

  /** `expire_book`: the token has rotated. */
  function ExpireBook(b: Book): Outcome {
    Collect(b.(expired := true,
               orders := CancelOrders(b.orders),
               sides := NO_LEVELS,
               raw := NO_LEVELS,
               cache := map[]))
  }

  /** Expiry swept by the session: changes are published only if something expired. */
  function SweepExpired(b: Book, now: int): Outcome {
    var orders := ExpireOrders(b.orders, now);
    if orders == b.orders then Outcome(b, [], [])
    else Collect(b.(orders := orders))
  }

  // ---------- Bracket exits ----------

  /** Exit order `i` if its bracket fires at this bid. */
  function TryExit(b: Book, i: nat, bid: real): Outcome
    requires i < |b.orders|
  {
    var o := b.orders[i];
    if !o.EligibleForBracket() || Fires(o, bid).None? then Outcome(b, [], [])
    else DoExit(b, i, bid, Fires(o, bid).value)
  }

  function DoExit(b: Book, i: nat, bid: real, trigger: Trigger): Outcome
    requires i < |b.orders|
  {
    var r := ExecuteExit(b.sides.bids, b.orders[i], bid, trigger);
    Outcome(b.(orders := b.orders[i := r.order], sides := Sides(r.bids, b.sides.asks), cache := map[]),
            [], [r.record])
  }

  /** Exits for the first `n` orders, all judged at the same bid. */
  function MonitorFirst(b: Book, n: nat, bid: real): (r: Outcome)
    requires n <= |b.orders|
    ensures |r.book.orders| == |b.orders| && r.events == []
  {
    if n == 0 then Outcome(b, [], [])
    else
      var prev := MonitorFirst(b, n - 1, bid);
      var next := TryExit(prev.book, n - 1, bid);
      Outcome(next.book, [], prev.exits + next.exits)
  }

  function Monitor(b: Book): Outcome {
    if b.sides.bids.Keys == {} then Outcome(b, [], [])
    else MonitorFirst(b, |b.orders|, Best(Bid, b.sides.bids.Keys))
  }

  function ForceClose(b: Book, id: OrderId): Outcome {
    var i := IndexOf(b.orders, id);
    if i == |b.orders| || b.orders[i].filled <= 0.0 || b.orders[i].closed || b.sides.bids.Keys == {}
    then Outcome(b, [], [])
    else DoExit(b, i, Best(Bid, b.sides.bids.Keys), FORCE_CLOSE)
  }

  // ---------- Placement and matching ----------

  function NewOrder(terms: Terms, quantity: real, tp: Option<real>, sl: Option<real>): Order {
    Order(terms, quantity, 0.0, PENDING, 0.0, None, [], tp, sl, false, None, None, None)
  }

  function ImmediateExit(b: Book, i: nat): Outcome
    requires i < |b.orders|
  {
    if b.sides.bids.Keys == {} then Outcome(b, [], [])
    else TryExit(b, i, Best(Bid, b.sides.bids.Keys))
  }

  /** The book once a new order has been appended and matched. */
  function Matched(b: Book, o: Order): Book {
    var t := Turn(b.sides.On(o.terms.side), o);
    b.(orders := b.orders + [t.order], sides := b.sides.With(o.terms.side, t.book), cache := map[])
  }

  /** `place_virtual_order`. */
  function Place(b: Book, o: Order): Outcome {
    var exited := ImmediateExit(Matched(b, o), |b.orders|);
    var told := Collect(exited.book);
    Outcome(told.book, told.events, exited.exits)
  }

  /** An order filled elsewhere, held only for its bracket. */
  function PrefilledOrder(terms: Terms, filled: real, tp: Option<real>, sl: Option<real>): Order {
    Order(terms, filled, filled, FILLED, Worth(filled, terms.price), None, [], tp, sl, false, None, None, None)
  }

  /** `place_prefilled_bracket_order`. */
  function PlacePrefilled(b: Book, o: Order): Outcome {
    ImmediateExit(b.(orders := b.orders + [o]), |b.orders|)
  }

  predicate Prunable(o: Order, now: int) {
    if o.status == CANCELED then
      !o.EligibleForBracket() && now - o.terms.expireAt.GetOr(o.terms.createdAt) > PRUNE_GRACE
    else o.status == FILLED && o.closed
  }

  function Prune(orders: seq<Order>, now: int): seq<Order> {
    if orders == [] then []
    else
      var rest, last := Prune(orders[..|orders| - 1], now), orders[|orders| - 1];
      if Prunable(last, now) then rest else rest + [last]
  }

  /** Expiry and the matching pass of `run_matching`, before anything is published. */
  function Rematch(b: Book, now: int): Book {
    var orders := ExpireOrders(b.orders, now);
    if b.expired || b.Stale(now) then b.(orders := orders, cache := map[])
    else
      var r := Pass(orders, |orders|, b.sides);
      b.(orders := r.orders, sides := r.sides, cache := map[])
  }

  function Tidy(b: Book, now: int): Book {
    if b.cleanups + 1 >= CLEANUP_INTERVAL
    then b.(cleanups := 0, orders := Prune(b.orders, now))
    else b.(cleanups := b.cleanups + 1)
  }

  /** `run_matching`. */
  function RunMatching(b: Book, now: int): Outcome {
    var told := Collect(Rematch(b, now));
    Outcome(Tidy(told.book, now), told.events, [])
  }

  // ---------- Depth ----------

  /** The depth listing is cached until the book changes. */
  function AskDepth(b: Book, side: Side, n: int): (seq<Level>, Book) {
    if (side, n) in b.cache then (b.cache[(side, n)], b)
    else
      var listing := Depth(side, n, b.Ladder(side));
      (listing, b.(cache := b.cache[(side, n) := listing]))
  }

  // ---------- One operation ----------

  datatype Op =
    | Snapshot(bids: seq<Level>, asks: seq<Level>, now: int)
    | Delta(changes: seq<Change>, now: int)
    | Touch(now: int)
    | PlaceOrder(terms: Terms, quantity: real, tp: Option<real>, sl: Option<real>)
    | PlaceFilled(terms: Terms, filled: real, tp: Option<real>, sl: Option<real>)
    | SeedReport(id: OrderId)
    | Match(now: int)
    | MonitorBrackets
    | CloseAtMarket(id: OrderId)
    | ExpirePending(now: int)
    | SweepPending(now: int)
    | CancelOrder(id: OrderId)
    | CancelAll
    | MarketResolved
    | Expire
    | ReadDepth(side: Side, n: int)

  function Step(b: Book, op: Op): Outcome {
    match op
    case Snapshot(bids, asks, now) => Outcome(ApplySnapshot(b, bids, asks, now), [], [])
    case Delta(changes, now) => Outcome(ApplyChanges(b, changes, now), [], [])
    case Touch(now) => Outcome(b.(lastUpdate := Some(now)), [], [])
    case PlaceOrder(terms, quantity, tp, sl) => Place(b, NewOrder(terms, quantity, tp, sl))
    case PlaceFilled(terms, filled, tp, sl) => PlacePrefilled(b, PrefilledOrder(terms, filled, tp, sl))
    case SeedReport(id) => Outcome(Seed(b, id), [], [])
    case Match(now) => RunMatching(b, now)
    case MonitorBrackets => Monitor(b)
    case CloseAtMarket(id) => ForceClose(b, id)
    case ExpirePending(now) => Outcome(b.(orders := ExpireOrders(b.orders, now)), [], [])
    case SweepPending(now) => SweepExpired(b, now)
    case CancelOrder(id) => Outcome(CancelById(b, id), [], [])
    case CancelAll => Outcome(b.(orders := CancelOrders(b.orders)), [], [])
    case MarketResolved => Outcome(b.(orders := ResolveOrders(b.orders)), [], [])
    case Expire => ExpireBook(b)
    case ReadDepth(side, n) => Outcome(AskDepth(b, side, n).1, [], [])
  }
}
