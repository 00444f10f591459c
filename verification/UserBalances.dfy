/**
 The two reports of a user's balance: the realised one kept after every settlement, and the
 periodic snapshot of what the user's bots hold.
 */
module UserBalances {
  import opened Prelude
  import opened Ledger
  import opened LedgerProofs

  /** Active bots of a user: the ones both reports look at. */
  predicate Mine(bots: seq<Bot>, b: nat, user: nat) {
    b < |bots| && bots[b].owner == user && bots[b].active
  }

  predicate HasBots(bots: seq<Bot>, user: nat) {
    exists b :: 0 <= b < |bots| && Mine(bots, b, user)
  }

  /** What the active bots of a user hold. */
  function Held(bots: seq<Bot>, user: nat): real {
    if bots == [] then 0.0
    else
      var last := bots[|bots| - 1];
      Held(bots[..|bots| - 1], user) + if last.owner == user && last.active then last.balance else 0.0
  }

  /** Money columns of a trade that the reports add up. */
  datatype Column = Profits | Escrows | EntryFees

  function Amount(t: Trade, c: Column): real {
    match c
    case Profits => if t.result in {Win, Loss} then t.profit.GetOr(0.0) else 0.0
    case Escrows => if t.result == Pending then t.amount else 0.0
    case EntryFees => t.entryFee
  }

  /** A column summed over the trades of a user's active bots. */
  function Sum(trades: seq<Trade>, bots: seq<Bot>, user: nat, c: Column): real {
    if trades == [] then 0.0
    else
      var last := trades[|trades| - 1];
      Sum(trades[..|trades| - 1], bots, user, c) + if Mine(bots, last.bot, user) then Amount(last, c) else 0.0
  }

  /** The realised balance of a user. */
  function Realized(l: Ledger, user: nat): real
    requires user < |l.users|
  {
    l.users[user] + Sum(l.trades, l.bots, user, Profits)
  }

  /** The balance a snapshot reports: what the bots hold plus what the user has not handed out. */
  function SnapshotBalance(l: Ledger, user: nat): real
    requires user < |l.users|
  {
    Held(l.bots, user) + (l.users[user] - Allocated(l.bots, user))
  }

  // ---------- The history kept at settlement ----------

  datatype HistoryRow = HistoryRow(user: nat, balance: real, trade: nat, bot: nat, pnl: Option<real>)

  /** `record_user_balance`: the sum is read from `stored`, the rows as last written to the database. */
  function Row(stored: Ledger, bot: nat, trade: nat, pnl: Option<real>): seq<HistoryRow>
    requires Linked(stored)
  {
    if bot >= |stored.bots| then []
    else
      var user := stored.bots[bot].owner;
      if !HasBots(stored.bots, user) then []
      else [HistoryRow(user, Realized(stored, user), trade, bot, pnl)]
  }

  /** The row written when a step takes trade `id` out of PENDING. */
  function Told(stored: Ledger, l: Ledger, l': Ledger, id: nat, refundPnl: Option<real>): seq<HistoryRow>
    requires Linked(stored)
  {
    if id < |l.trades| && id < |l'.trades| && l.trades[id].result == Pending && l'.trades[id].result != Pending
    then
      Row(stored, l.trades[id].bot, id,
          if l'.trades[id].result == Cancelled then refundPnl else l'.trades[id].profit)
    else []
  }

  /** The rows written by a scheduled job over the first `n` trades. */
  function JobRows(stored: Ledger, l: Ledger, job: Job, n: nat, now: int, candles: Candles): seq<HistoryRow>
    requires Linked(stored) && Linked(l) && n <= |l.trades|
  {
    if n == 0 then []
    else
      var prev, next := DoJobs(l, job, n - 1, now, candles), DoJobs(l, job, n, now, candles);
      JobRows(stored, l, job, n - 1, now, candles) +
      if prev.Some? && next.Some? then Told(stored, prev.value, next.value, n - 1, None) else []
  }

  // ---------- Snapshots ----------

  datatype Snapshot = Snapshot(
    user: nat,
    balance: real,
    botBalance: real,
    available: real,
    sessionPnl: Option<real>,
    prevBalance: Option<real>,
    botPnl: Option<real>)

  /** The most recent snapshot of a user. */
  function Latest(snaps: seq<Snapshot>, user: nat): Option<Snapshot> {
    if snaps == [] then None
    else
      var last := snaps[|snaps| - 1];
      if last.user == user then Some(last) else Latest(snaps[..|snaps| - 1], user)
  }

  /** Profits of the trades with an id in `candle`, the ones placed for that candle. */
  function CandleProfit(trades: seq<Trade>, bots: seq<Bot>, user: nat, candle: set<nat>): real {
    if trades == [] then 0.0
    else
      var n := |trades| - 1;
      CandleProfit(trades[..n], bots, user, candle) +
      if n in candle && Mine(bots, trades[n].bot, user) then Amount(trades[n], Profits) else 0.0
  }

  function TakeSnapshot(l: Ledger, snaps: seq<Snapshot>, user: nat, candle: Option<set<nat>>): Snapshot
    requires user < |l.users|
  {
    var balance := SnapshotBalance(l, user);
    var prev := Latest(snaps, user);
    Snapshot(user, balance, Held(l.bots, user), l.users[user] - Allocated(l.bots, user),
             if prev.Some? then Some(balance - prev.value.balance) else None,
             if prev.Some? then Some(prev.value.balance) else None,
             if candle.Some? && HasBots(l.bots, user)
             then Some(CandleProfit(l.trades, l.bots, user, candle.value)) else None)
  }

  /** `snapshot_all_user_balances` over the first `n` users; `enabled` are the active ones. */
  function Snapshots(l: Ledger, snaps: seq<Snapshot>, enabled: set<nat>, candle: Option<set<nat>>,
                     n: nat): seq<Snapshot>
    requires n <= |l.users|
  {
    if n == 0 then []
    else
      Snapshots(l, snaps, enabled, candle, n - 1) +
      if n - 1 in enabled then [TakeSnapshot(l, snaps, n - 1, candle)] else []
  }

  // ---------- The reports reconciled ----------

  /** What the user's active bots' trades lay claim to, bot by bot. */
  function ClaimsOfBots(trades: seq<Trade>, bots: seq<Bot>, user: nat): real {
    if bots == [] then 0.0
    else
      var n := |bots| - 1;
      ClaimsOfBots(trades, bots[..n], user) +
      if bots[n].owner == user && bots[n].active then Claims(trades, n) else 0.0
  }

  /** How far the first `n` bots of a user are from the ledger identity, together. */
  function StandingOf(l: Ledger, n: nat, user: nat): real
    requires n <= |l.bots|
  {
    if n == 0 then 0.0
    else StandingOf(l, n - 1, user) + if Mine(l.bots, n - 1, user) then Standing(l, n - 1) else 0.0
  }

  /** A user's bots hold what they were given minus the claims, give or take their standing. */
  lemma {:induction false} HeldIsGivenLessClaims(l: Ledger, n: nat, user: nat)
    requires n <= |l.bots|
    ensures Held(l.bots[..n], user) ==
      Allocated(l.bots[..n], user) - ClaimsOfBots(l.trades, l.bots[..n], user) + StandingOf(l, n, user)
  {
    if n > 0 {
      HeldIsGivenLessClaims(l, n - 1, user);
      assert l.bots[..n][..n - 1] == l.bots[..n - 1];
    }
  }

  /** One trade is claimed once over all bots. */
  lemma {:induction false} ClaimOnce(trades: seq<Trade>, bots: seq<Bot>, user: nat)
    requires trades != []
    ensures var init, t := trades[..|trades| - 1], trades[|trades| - 1];
      ClaimsOfBots(trades, bots, user) == ClaimsOfBots(init, bots, user) +
        if Mine(bots, t.bot, user) then Amount(t, Escrows) + Amount(t, EntryFees) - Amount(t, Profits) else 0.0
  {
    if bots != [] {
      ClaimOnce(trades, bots[..|bots| - 1], user);
    }
  }

  lemma {:induction false} NothingClaimed(bots: seq<Bot>, user: nat)
    ensures ClaimsOfBots([], bots, user) == 0.0
  {
    if bots != [] {
      NothingClaimed(bots[..|bots| - 1], user);
    }
  }

  /** Claims added up bot by bot are the columns added up trade by trade. */
  lemma {:induction false} ClaimsByTrade(trades: seq<Trade>, bots: seq<Bot>, user: nat)
    ensures ClaimsOfBots(trades, bots, user) ==
      Sum(trades, bots, user, Escrows) + Sum(trades, bots, user, EntryFees) - Sum(trades, bots, user, Profits)
  {
    if trades == [] {
      NothingClaimed(bots, user);
    } else {
      ClaimOnce(trades, bots, user);
      ClaimsByTrade(trades[..|trades| - 1], bots, user);
    }
  }

  /**
   The snapshot reports the realised balance less the money in pending trades and less all entry
   fees, plus the standing of the user's active bots: the two reports reconcile exactly when the bots
   together satisfy the ledger identity.
   */
  lemma ReportsReconcile(l: Ledger, user: nat)
    requires user < |l.users|
    ensures SnapshotBalance(l, user) == Realized(l, user)
      - Sum(l.trades, l.bots, user, Escrows) - Sum(l.trades, l.bots, user, EntryFees)
      + StandingOf(l, |l.bots|, user)
  {
    HeldIsGivenLessClaims(l, |l.bots|, user);
    assert l.bots[..|l.bots|] == l.bots;
    ClaimsByTrade(l.trades, l.bots, user);
  }

  /** The drifts of the first `n` bots of a user over a run. */
  function DriftOf(users: seq<real>, ops: seq<Op>, n: nat, user: nat): real
    requires n <= |Run(users, ops).bots|
  {
    if n == 0 then 0.0
    else
      DriftOf(users, ops, n - 1, user) +
      if Mine(Run(users, ops).bots, n - 1, user) then TotalDrift(users, ops, n - 1) else 0.0
  }

  lemma {:induction false} StandingIsDrift(users: seq<real>, ops: seq<Op>, n: nat, user: nat)
    requires AllSane(ops) && n <= |Run(users, ops).bots|
    ensures StandingOf(Run(users, ops), n, user) == DriftOf(users, ops, n, user)
  {
    hide Run, Standing, TotalDrift, AllSane;
    if n > 0 {
      StandingIsDrift(users, ops, n - 1, user);
      if Mine(Run(users, ops).bots, n - 1, user) {
        RunDrift(users, ops, n - 1);
      }
    }
  }

  /** Over every run the two reports differ from reconciling by exactly the drifts of the active bots. */
  lemma RunReconciles(users: seq<real>, ops: seq<Op>, user: nat)
    requires AllSane(ops) && user < |Run(users, ops).users|
    ensures var l := Run(users, ops);
      SnapshotBalance(l, user) == Realized(l, user)
        - Sum(l.trades, l.bots, user, Escrows) - Sum(l.trades, l.bots, user, EntryFees)
        + DriftOf(users, ops, |l.bots|, user)
  {
    ReportsReconcile(Run(users, ops), user);
    StandingIsDrift(users, ops, |Run(users, ops).bots|, user);
  }

  // ---------- The pool ----------

  lemma {:induction false} OtherBot(bots: seq<Bot>, b: nat, bot: Bot, user: nat)
    requires b < |bots| && bot.owner == bots[b].owner
    ensures var there, here := bots[b].owner == user && bots[b].active, bot.owner == user && bot.active;
      && Allocated(bots[b := bot], user) == Allocated(bots, user)
           - (if there then bots[b].initial else 0.0) + (if here then bot.initial else 0.0)
      && Held(bots[b := bot], user) == Held(bots, user)
           - (if there then bots[b].balance else 0.0) + (if here then bot.balance else 0.0)
  {
    var n := |bots| - 1;
    if b < n {
      OtherBot(bots[..n], b, bot, user);
      assert bots[b := bot][..n] == bots[..n][b := bot];
    } else {
      assert bots[b := bot][..n] == bots[..n];
    }
  }

  /** Creating, adjusting or deleting a bot changes no user's snapshot balance. */
  lemma BotsKeepThePool(l: Ledger, op: Op, user: nat)
    requires Linked(l) && user < |l.users| && (op.NewBot? || op.RemoveBot? || op.Adjust?)
    ensures |Step(l, op).users| == |l.users| && SnapshotBalance(Step(l, op), user) == SnapshotBalance(l, user)
  {
    var l' := Step(l, op);
    match op
    case NewBot(_, initial) =>
      if l' != l {
        assert l'.bots[..|l'.bots| - 1] == l.bots;
      }
    case RemoveBot(u, b) =>
      if l' != l {
        OtherBot(l.bots, b, l'.bots[b], user);
      }
    case Adjust(u, b, _) =>
      if l' != l {
        OtherBot(l.bots, b, l'.bots[b], user);
      }
  }

  /** A snapshot is what the bots hold and what is left to hand out; a grant moves money from the one to the other. */
  lemma GrantMovesThePool(l: Ledger, snaps: seq<Snapshot>, user: nat, initial: real)
    requires user < |l.users| && CreateBot(l, user, initial).Some?
    ensures var l' := CreateBot(l, user, initial).value;
      var before, after := TakeSnapshot(l, snaps, user, None), TakeSnapshot(l', snaps, user, None);
      && before.balance == before.botBalance + before.available && before.user == user
      && after.balance == before.balance
      && after.botBalance == before.botBalance + initial && after.available == before.available - initial >= 0.0
  {
    var l' := CreateBot(l, user, initial).value;
    assert l'.bots[..|l'.bots| - 1] == l.bots;
  }

  /** Profits by candle add up over disjoint sets of trades, and over all trades to the realised profits. */
  lemma {:induction false} CandleProfitsAddUp(trades: seq<Trade>, bots: seq<Bot>, user: nat, a: set<nat>, b: set<nat>)
    requires a * b == {}
    ensures CandleProfit(trades, bots, user, a + b) ==
      CandleProfit(trades, bots, user, a) + CandleProfit(trades, bots, user, b)
    ensures (forall i: nat :: i < |trades| ==> i in a) ==>
      CandleProfit(trades, bots, user, a) == Sum(trades, bots, user, Profits)
  {
    if trades != [] {
      var n := |trades| - 1;
      CandleProfitsAddUp(trades[..n], bots, user, a, b);
      assert n in a && n in b ==> n in a * b;
      hide Mine, Amount;
    }
  }

  /** A snapshot reports profits by candle exactly for users with an active bot, and these add up. */
  lemma SnapshotsByCandle(l: Ledger, snaps: seq<Snapshot>, user: nat, a: set<nat>, b: set<nat>)
    requires user < |l.users| && a * b == {}
    ensures var p, q := TakeSnapshot(l, snaps, user, Some(a)).botPnl, TakeSnapshot(l, snaps, user, Some(b)).botPnl;
      var both := TakeSnapshot(l, snaps, user, Some(a + b)).botPnl;
      if exists i :: 0 <= i < |l.bots| && Mine(l.bots, i, user)
      then p.Some? && q.Some? && both == Some(p.value + q.value)
      else p.None? && q.None? && both.None?
  {
    CandleProfitsAddUp(l.trades, l.bots, user, a, b);
    hide CandleProfit, Held, Allocated;
  }

  /** A user can never hand out more than the pool: creating or raising a bot keeps the rest non-negative. */
  lemma PoolNotOverdrawn(l: Ledger, op: Op, user: nat)
    requires Linked(l) && user < |l.users|
    requires op.NewBot? || (op.Adjust? && op.bot < |l.bots| && op.balance > l.bots[op.bot].initial)
    requires Step(l, op) != l && op.user == user
    ensures var l' := Step(l, op); Allocated(l'.bots, user) <= l'.users[user]
  {
    var l' := Step(l, op);
    match op
    case NewBot(_, _) => assert l'.bots[..|l'.bots| - 1] == l.bots;
    case Adjust(_, b, _) => OtherBot(l.bots, b, l'.bots[b], user);
  }

  // ---------- What the history really shows ----------

  lemma {:induction false} SumUpdate(trades: seq<Trade>, i: nat, t: Trade, bots: seq<Bot>, user: nat, c: Column)
    requires i < |trades| && t.bot == trades[i].bot
    ensures Sum(trades[i := t], bots, user, c) == Sum(trades, bots, user, c) +
      if Mine(bots, t.bot, user) then Amount(t, c) - Amount(trades[i], c) else 0.0
  {
    var n := |trades| - 1;
    if i < n {
      SumUpdate(trades[..n], i, t, bots, user, c);
      assert trades[i := t][..n] == trades[..n][i := t];
    } else {
      assert trades[i := t][..n] == trades[..n];
    }
  }

  lemma {:induction false} SumSameBots(trades: seq<Trade>, bots: seq<Bot>, bots': seq<Bot>, user: nat, c: Column)
    requires forall b :: Mine(bots', b, user) <==> Mine(bots, b, user)
    ensures Sum(trades, bots', user, c) == Sum(trades, bots, user, c)
  {
    if trades != [] {
      SumSameBots(trades[..|trades| - 1], bots, bots', user, c);
    }
  }

  /** `l` is what a transaction has made of `stored` so far: some pending trades are paid out. */
  ghost predicate Unflushed(stored: Ledger, l: Ledger) {
    && Linked(stored) && Linked(l) && l.users == stored.users
    && |l.trades| == |stored.trades| && |l.bots| == |stored.bots|
    && (forall i :: 0 <= i < |l.trades| ==> l.trades[i].bot == stored.trades[i].bot)
    && (forall i :: 0 <= i < |l.trades| && stored.trades[i].result != Pending ==> l.trades[i] == stored.trades[i])
    && (forall b :: 0 <= b < |l.bots| ==> l.bots[b].owner == stored.bots[b].owner)
    && (forall b :: 0 <= b < |l.bots| ==> l.bots[b].active == stored.bots[b].active)
  }

  /** The profits that trades of a user's active bots have settled with since `before`. */
  function Gains(before: seq<Trade>, after: seq<Trade>, bots: seq<Bot>, user: nat): real
    requires |before| == |after|
  {
    if before == [] then 0.0
    else
      var n := |before| - 1;
      Gains(before[..n], after[..n], bots, user) +
      if Mine(bots, before[n].bot, user) && before[n].result == Pending then Amount(after[n], Profits) else 0.0
  }

  lemma {:induction false} GainsAreTheChange(before: seq<Trade>, after: seq<Trade>, bots: seq<Bot>, user: nat)
    requires |before| == |after|
    requires forall i :: 0 <= i < |before| ==> after[i].bot == before[i].bot
    requires forall i :: 0 <= i < |before| && before[i].result != Pending ==> after[i] == before[i]
    ensures Sum(after, bots, user, Profits) == Sum(before, bots, user, Profits) + Gains(before, after, bots, user)
  {
    if before != [] {
      var n := |before| - 1;
      GainsAreTheChange(before[..n], after[..n], bots, user);
    }
  }

  /** Until it is flushed, a transaction has moved the realised balance by the profits settled in it. */
  lemma RealizedMoves(stored: Ledger, l: Ledger, user: nat)
    requires Unflushed(stored, l) && user < |stored.users|
    ensures Realized(l, user) == Realized(stored, user) + Gains(stored.trades, l.trades, stored.bots, user)
  {
    GainsAreTheChange(stored.trades, l.trades, stored.bots, user);
    assert forall b: nat :: Mine(l.bots, b, user) <==> Mine(stored.bots, b, user);
    SumSameBots(l.trades, stored.bots, l.bots, user, Profits);
  }

  lemma JobUnflushed(stored: Ledger, l: Ledger, id: nat, l': Ledger)
    requires Unflushed(stored, l) && id < |l.trades| && l.trades[id].bot < |l.bots| && JobEffect(l, id, l')
    ensures Unflushed(stored, l')
  {
    if l' != l {
      var b := l.trades[id].bot;
      assert forall c :: 0 <= c < |l.bots| && c != b ==> l'.bots[c] == l.bots[c];
      assert forall i :: 0 <= i < |l.trades| && i != id ==> l'.trades[i] == l.trades[i];
    }
  }

  lemma {:induction false} JobsUnflushed(stored: Ledger, l: Ledger, job: Job, n: nat, now: int, candles: Candles)
    requires Unflushed(stored, l) && Linked(l) && n <= |l.trades|
    ensures var r := DoJobs(l, job, n, now, candles); r.Some? ==> Unflushed(stored, r.value)
  {
    hide *;
    if n == 0 {
      NoJobs(l, job, now, candles);
    } else {
      JobsUnfold(l, job, n, now, candles);
      JobsUnflushed(stored, l, job, n - 1, now, candles);
      var prev := DoJobs(l, job, n - 1, now, candles);
      if prev.Some? && DoJobs(l, job, n, now, candles).Some? {
        DoJobEffect(prev.value, job, n - 1, now, candles);
        JobUnflushed(stored, prev.value, n - 1, DoJobs(l, job, n, now, candles).value);
      }
    }
  }

  /** The row was written when the job took trade `i` out of PENDING. */
  ghost predicate RowOf(stored: Ledger, l: Ledger, job: Job, i: nat, now: int, candles: Candles, row: HistoryRow)
    requires Linked(stored) && Linked(l) && i < |l.trades|
  {
    var before, after := DoJobs(l, job, i, now, candles), DoJobs(l, job, i + 1, now, candles);
    && before.Some? && after.Some? && Told(stored, before.value, after.value, i, None) == [row]
  }

  lemma ToldIsOneRow(stored: Ledger, l: Ledger, l': Ledger, id: nat)
    requires Linked(stored)
    ensures var rows := Told(stored, l, l', id, None);
      && |rows| <= 1
      && forall row :: row in rows ==> row.user < |stored.users| && row.balance == Realized(stored, row.user)
  {
    hide Sum, HasBots;
  }

  lemma {:induction false} RowOrigin(stored: Ledger, l: Ledger, job: Job, n: nat, now: int, candles: Candles,
                                     row: HistoryRow) returns (i: nat)
    requires Linked(stored) && Linked(l) && n <= |l.trades|
    requires row in JobRows(stored, l, job, n, now, candles)
    ensures i < n && RowOf(stored, l, job, i, now, candles, row)
  {
    hide DoJobs, Told, Linked;
    if row in JobRows(stored, l, job, n - 1, now, candles) {
      i := RowOrigin(stored, l, job, n - 1, now, candles, row);
    } else {
      i := n - 1;
      var prev, next := DoJobs(l, job, n - 1, now, candles), DoJobs(l, job, n, now, candles);
      ToldIsOneRow(stored, prev.value, next.value, n - 1);
    }
  }

  /**
   Every row a job writes, whatever the transaction had done before the job began, shows the realised
   balance as it was stored. It agrees with the realised balance just after its own trade exactly
   when the profits settled so far in the transaction for the user's active bots add up to zero.
   */
  lemma JobRowsLag(stored: Ledger, l: Ledger, job: Job, n: nat, now: int, candles: Candles, row: HistoryRow)
    returns (i: nat)
    requires Unflushed(stored, l) && Linked(stored) && Linked(l) && n <= |l.trades|
    requires row in JobRows(stored, l, job, n, now, candles)
    ensures i < n && RowOf(stored, l, job, i, now, candles, row)
    ensures row.user < |stored.users| && row.balance == Realized(stored, row.user)
    ensures var after := DoJobs(l, job, i + 1, now, candles).value;
      && |after.trades| == |stored.trades| && row.user < |after.users|
      && (row.balance == Realized(after, row.user) <==>
            Gains(stored.trades, after.trades, stored.bots, row.user) == 0.0)
  {
    hide DoJobs, Told, Linked, Realized, Gains, JobRows, Unflushed;
    i := RowOrigin(stored, l, job, n, now, candles, row);
    var before, after := DoJobs(l, job, i, now, candles), DoJobs(l, job, i + 1, now, candles);
    ToldIsOneRow(stored, before.value, after.value, i);
    assert row in Told(stored, before.value, after.value, i, None);
    JobsUnflushed(stored, l, job, i + 1, now, candles);
    UnflushedShape(stored, after.value);
    RealizedMoves(stored, after.value, row.user);
  }

  lemma UnflushedShape(stored: Ledger, l: Ledger)
    requires Unflushed(stored, l)
    ensures l.users == stored.users && |l.trades| == |stored.trades|
  {
  }

  lemma UnflushedSelf(l: Ledger)
    requires Linked(l)
    ensures Unflushed(l, l)
  {
  }

  /**
   A transaction of one settlement: its row agrees with the realised balance after it exactly when
   the bot is inactive or the profit is zero.
   */
  lemma HistoryLags(l: Ledger, id: nat, open: real, close: real)
    requires Linked(l) && id < |l.trades| && l.trades[id].result == Pending
    requires SettleTrade(l, id, open, close).Some?
    ensures var l', b := SettleTrade(l, id, open, close).value, l.trades[id].bot;
      var user := l.bots[b].owner;
      var rows := Told(l, l, l', id, None);
      && id < |l'.trades| && l'.trades[id].profit.Some? && user < |l'.users|
      && (HasBots(l.bots, user) <==> |rows| == 1)
      && (|rows| == 1 ==>
            && rows[0].user == user && rows[0].balance == Realized(l, user)
            && (rows[0].balance == Realized(l', user) <==> !l.bots[b].active || l'.trades[id].profit == Some(0.0)))
  {
    hide ShadowProfit, BinaryProfit, Settle;
    SettlePaysOut(l, id, open, close);
    var l', b := SettleTrade(l, id, open, close).value, l.trades[id].bot;
    hide SettleTrade;
    var user, t' := l.bots[b].owner, l'.trades[id];
    assert l'.trades == l.trades[id := t'];
    SumUpdate(l.trades, id, t', l.bots, user, Profits);
    forall c: nat ensures Mine(l'.bots, c, user) <==> Mine(l.bots, c, user) {
      if c < |l.bots| && c != b {
        assert l'.bots[c] == l.bots[c];
      }
    }
    SumSameBots(l'.trades, l.bots, l'.bots, user, Profits);
    assert Mine(l.bots, b, user) <==> l.bots[b].active;
  }

  // ---------- Snapshots chain ----------

  /** Session results of a user over all snapshots. */
  function SessionTotal(snaps: seq<Snapshot>, user: nat): real {
    if snaps == [] then 0.0
    else
      var last := snaps[|snaps| - 1];
      SessionTotal(snaps[..|snaps| - 1], user) + if last.user == user then last.sessionPnl.GetOr(0.0) else 0.0
  }

  /** The first snapshot of a user. */
  function First(snaps: seq<Snapshot>, user: nat): Option<Snapshot> {
    if snaps == [] then None
    else
      var before := First(snaps[..|snaps| - 1], user);
      var last := snaps[|snaps| - 1];
      if before.Some? then before else if last.user == user then Some(last) else None
  }

  /** Session results telescope to the change of balance since the user's first snapshot. */
  ghost predicate Telescopes(snaps: seq<Snapshot>, user: nat) {
    && (Latest(snaps, user).Some? <==> First(snaps, user).Some?)
    && SessionTotal(snaps, user) ==
         if Latest(snaps, user).Some? then Latest(snaps, user).value.balance - First(snaps, user).value.balance
         else 0.0
  }

  lemma TelescopesSnoc(snaps: seq<Snapshot>, s: Snapshot, user: nat)
    requires Telescopes(snaps, user)
    requires s.user == user ==>
      s.sessionPnl == if Latest(snaps, user).Some? then Some(s.balance - Latest(snaps, user).value.balance) else None
    ensures Telescopes(snaps + [s], user)
    ensures Latest(snaps + [s], user) == if s.user == user then Some(s) else Latest(snaps, user)
  {
    assert (snaps + [s])[..|snaps|] == snaps;
  }

  /** Every round of snapshots, whatever the ledger then, keeps the chain. */
  lemma {:induction false} SnapshotsTelescope(l: Ledger, snaps: seq<Snapshot>, enabled: set<nat>,
                                              candle: Option<set<nat>>, n: nat, user: nat)
    requires n <= |l.users| && Telescopes(snaps, user)
    ensures var all := snaps + Snapshots(l, snaps, enabled, candle, n);
      && Telescopes(all, user)
      && (user >= n ==> Latest(all, user) == Latest(snaps, user))
      && (user < n && user in enabled ==>
            Latest(all, user).Some? && Latest(all, user).value.balance == SnapshotBalance(l, user))
  {
    if n == 0 {
      assert snaps + [] == snaps;
    } else {
      SnapshotsTelescope(l, snaps, enabled, candle, n - 1, user);
      var before := snaps + Snapshots(l, snaps, enabled, candle, n - 1);
      if n - 1 in enabled {
        var s := TakeSnapshot(l, snaps, n - 1, candle);
        TelescopesSnoc(before, s, user);
        assert snaps + Snapshots(l, snaps, enabled, candle, n) == before + [s];
      } else {
        assert snaps + Snapshots(l, snaps, enabled, candle, n) == before;
      }
    }
  }
}
