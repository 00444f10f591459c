/**
 The candle calendar, computed in four places of the system: where an order is routed, when it
 settles, when it expires, and which sessions are kept ready.
 */
module Calendar {
  import opened Prelude

  datatype Timeframe = M5 | M15

  const SECOND: int := 1_000_000
  const MAX_SESSION_OFFSET: nat := 3
  const FUTURE_SESSIONS: nat := 3
  const PRE_CREATE_BUFFER: int := 20

  /** Length of a candle in seconds. */
  function Period(tf: Timeframe): int {
    match tf
    case M5 => 300
    case M15 => 900
  }

  /** Start of the candle that contains second `now`. */
  function CurrentOpen(tf: Timeframe, now: int): int {
    now - now % Period(tf)
  }

  // ---------- The four computations ----------

  datatype SessionInfo = SessionInfo(candleOpen: int, settlementAt: int, offset: int, isCurrent: bool)

  datatype RouteError = PastCandle | TooFarAhead

  /** `resolve_session`, at clock `micros`; all times in the answer are seconds. */
  function ResolveSession(tf: Timeframe, timestamp: Option<int>, offset: nat,
                          micros: nat): Result<SessionInfo, RouteError>
  {
    var now := micros / SECOND;
    var current := CurrentOpen(tf, now);
    match timestamp
    case Some(ts) =>
      var target := ts - ts % Period(tf);
      if target < current then Err(PastCandle)
      else if target > current + Period(tf) * MAX_SESSION_OFFSET then Err(TooFarAhead)
      else
        var effective := (target - current) / Period(tf);
        Ok(SessionInfo(target, target + Period(tf), effective, effective == 0))
    case None =>
      var effective := if offset < MAX_SESSION_OFFSET then offset else MAX_SESSION_OFFSET;
      var open := current + Period(tf) * effective;
      Ok(SessionInfo(open, open + Period(tf), effective, effective == 0))
  }

  /** `calc_settlement_time`: computed in milliseconds, answered in microseconds. */
  function CalcSettlementTime(tf: Timeframe, micros: nat, offset: nat): int {
    var interval := Period(tf) * 1000;
    var ms := micros / 1000;
    (ms / interval + 1 + offset) * interval * 1000
  }

  /** `candle_expire_at`, in microseconds. */
  function CandleExpireAt(tf: Timeframe, micros: nat): int {
    var period := Period(tf) * SECOND;
    micros / period * period + period
  }

  /** `_expected_candle_opens`, in seconds. */
  function ExpectedCandleOpens(tf: Timeframe, now: int): seq<int> {
    var current := CurrentOpen(tf, now);
    var toBoundary := current + Period(tf) - now;
    var opens := seq(FUTURE_SESSIONS + 1, i => current + i * Period(tf));
    var extra := current + (FUTURE_SESSIONS + 1) * Period(tf);
    if toBoundary <= PRE_CREATE_BUFFER && extra !in opens then opens + [extra] else opens
  }

  // ---------- They agree ----------

  /** Rounding down to milliseconds or seconds first does not change the candle. */
  lemma SameCandle(tf: Timeframe, micros: nat)
    ensures micros / 1000 / (Period(tf) * 1000) == micros / (Period(tf) * SECOND)
    ensures CurrentOpen(tf, micros / SECOND) * SECOND == micros / (Period(tf) * SECOND) * (Period(tf) * SECOND)
  {
    match tf
    case M5 =>
      assert micros / 1000 / 300_000 == micros / 300_000_000;
      assert micros / 1_000_000 / 300 == micros / 300_000_000;
    case M15 =>
      assert micros / 1000 / 900_000 == micros / 900_000_000;
      assert micros / 1_000_000 / 900 == micros / 900_000_000;
  }

  /** The three calendars in terms of the number of the candle. */
  lemma ByCandle(tf: Timeframe, micros: nat, offset: nat)
    ensures var length := Period(tf) * SECOND;
      var candle := micros / length;
      var effective := if offset < MAX_SESSION_OFFSET then offset else MAX_SESSION_OFFSET;
      && CalcSettlementTime(tf, micros, offset) == (candle + 1 + offset) * length
      && CandleExpireAt(tf, micros) == (candle + 1) * length
      && ResolveSession(tf, None, offset, micros).Ok?
      && ResolveSession(tf, None, offset, micros).value.offset == effective
      && ResolveSession(tf, None, offset, micros).value.settlementAt * SECOND == (candle + 1 + effective) * length
      && candle * length <= micros < (candle + 1) * length
  {
    SameCandle(tf, micros);
    hide CurrentOpen;
    match tf
    case M5 =>
    case M15 =>
  }

  /**
   Routing by offset, settlement and (for the current candle) order expiry give the same close. It
   is aligned to the grid and strictly after the trade, by at most the candles asked for.
   */
  lemma CalendarsAgree(tf: Timeframe, micros: nat, offset: nat)
    requires offset <= MAX_SESSION_OFFSET
    ensures var close := CalcSettlementTime(tf, micros, offset);
      && ResolveSession(tf, None, offset, micros).Ok?
      && ResolveSession(tf, None, offset, micros).value.settlementAt * SECOND == close
      && ResolveSession(tf, None, offset, micros).value.offset == offset
      && (offset == 0 ==> CandleExpireAt(tf, micros) == close)
      && close % (Period(tf) * SECOND) == 0
      && micros < close <= micros + (offset + 1) * Period(tf) * SECOND
  {
    ByCandle(tf, micros, offset);
    hide ResolveSession, CalcSettlementTime, CandleExpireAt;
    match tf
    case M5 =>
    case M15 =>
  }

  /** Past the largest offset routing stops at the third candle ahead but settlement does not. */
  lemma CalendarsAgreeExactly(tf: Timeframe, micros: nat, offset: nat)
    ensures var routed := ResolveSession(tf, None, offset, micros).value;
      routed.settlementAt * SECOND == CalcSettlementTime(tf, micros, offset) <==> offset <= MAX_SESSION_OFFSET
  {
    ByCandle(tf, micros, offset);
    hide ResolveSession, CalcSettlementTime;
    match tf
    case M5 =>
    case M15 =>
  }

  /** Opens are multiples of the period. */
  lemma OnGrid(tf: Timeframe, x: int, y: int)
    ensures CurrentOpen(tf, x) == x / Period(tf) * Period(tf)
    ensures CurrentOpen(tf, x) <= x < CurrentOpen(tf, x) + Period(tf)
    ensures (CurrentOpen(tf, x) - CurrentOpen(tf, y)) / Period(tf) == x / Period(tf) - y / Period(tf)
    ensures CurrentOpen(tf, CurrentOpen(tf, x) + y * Period(tf)) == CurrentOpen(tf, x) + y * Period(tf)
  {
    match tf
    case M5 =>
    case M15 =>
  }

  /**
   A timestamp is accepted exactly when it lies in the current candle or one of the next three, and
   is then routed as its offset would be.
   */
  lemma TimestampInverts(tf: Timeframe, ts: int, offset: nat, micros: nat)
    ensures var r, current := ResolveSession(tf, Some(ts), offset, micros), CurrentOpen(tf, micros / SECOND);
      && (r.Ok? <==> current <= ts < current + (MAX_SESSION_OFFSET + 1) * Period(tf))
      && (r.Err? ==> r.error == if ts < current then PastCandle else TooFarAhead)
      && (r.Ok? ==> 0 <= r.value.offset <= MAX_SESSION_OFFSET && r == ResolveSession(tf, None, r.value.offset, micros))
  {
    var now := micros / SECOND;
    OnGrid(tf, ts, now);
    OnGrid(tf, now, 0);
    assert ts - ts % Period(tf) == CurrentOpen(tf, ts);
    hide CurrentOpen;
    match tf
    case M5 =>
    case M15 =>
  }

  /** The open of a candle routed by offset leads back to the same answer. */
  lemma OpenInverts(tf: Timeframe, offset: nat, micros: nat)
    ensures var byOffset := ResolveSession(tf, None, offset, micros);
      ResolveSession(tf, Some(byOffset.value.candleOpen), 0, micros) == byOffset
  {
    var now := micros / SECOND;
    var effective := if offset < MAX_SESSION_OFFSET then offset else MAX_SESSION_OFFSET;
    OnGrid(tf, now, effective);
    var open := CurrentOpen(tf, now) + Period(tf) * effective;
    assert open - open % Period(tf) == CurrentOpen(tf, open);
    hide CurrentOpen;
    match tf
    case M5 => assert Period(tf) * effective / Period(tf) == effective;
    case M15 => assert Period(tf) * effective / Period(tf) == effective;
  }

  // ---------- Every routable session is kept ready ----------

  /** The opens kept ready are the current one and the next three, or four near the boundary. */
  lemma ExpectedOpens(tf: Timeframe, now: int, open: int)
    ensures open in ExpectedCandleOpens(tf, now) <==>
      exists k :: 0 <= k <= (if CurrentOpen(tf, now) + Period(tf) - now <= PRE_CREATE_BUFFER then 4 else 3)
                  && open == CurrentOpen(tf, now) + k * Period(tf)
  {
    var current, opens := CurrentOpen(tf, now), ExpectedCandleOpens(tf, now);
    var near := current + Period(tf) - now <= PRE_CREATE_BUFFER;
    hide CurrentOpen;
    match tf {
      case M5 =>
      case M15 =>
    }
    assert |opens| == if near then 5 else 4;
    assert forall k :: 0 <= k < |opens| ==> opens[k] == current + k * Period(tf);
    if open in opens {
      var k :| 0 <= k < |opens| && opens[k] == open;
      assert open == current + k * Period(tf);
    }
    if k :| 0 <= k <= (if near then 4 else 3) && open == current + k * Period(tf) {
      assert opens[k] == open;
    }
  }

  /** Every candle an order can be routed to at `micros` was kept ready at second `t`. */
  ghost predicate Covers(tf: Timeframe, t: int, micros: nat) {
    forall offset: nat :: ResolveSession(tf, None, offset, micros).value.candleOpen in ExpectedCandleOpens(tf, t)
  }

  /**
   The sessions kept ready at `t` cover the routing at a later time exactly while the candle is the
   same, or is the next one and `t` was within the buffer of its start.
   */
  lemma CoversExactly(tf: Timeframe, t: int, micros: nat)
    requires t <= micros / SECOND
    ensures var current, next := CurrentOpen(tf, t), CurrentOpen(tf, micros / SECOND);
      Covers(tf, t, micros) <==> next == current || (next == current + Period(tf) && next - t <= PRE_CREATE_BUFFER)
  {
    var current, next := CurrentOpen(tf, t), CurrentOpen(tf, micros / SECOND);
    if next == current || (next == current + Period(tf) && next - t <= PRE_CREATE_BUFFER) {
      forall offset: nat
        ensures ResolveSession(tf, None, offset, micros).value.candleOpen in ExpectedCandleOpens(tf, t)
      {
        var effective := if offset < 3 then offset else 3;
        ExpectedOpens(tf, t, next + Period(tf) * effective);
        var k := if next == current then effective else effective + 1;
        assert next + Period(tf) * effective == current + k * Period(tf);
      }
    } else {
      OpensApart(tf, t, micros / SECOND);
      ExpectedOpens(tf, t, next + Period(tf) * 3);
      assert ResolveSession(tf, None, 3, micros).value.candleOpen == next + Period(tf) * 3;
    }
  }

  lemma OpensApart(tf: Timeframe, t: int, now: int)
    requires t <= now
    ensures var current, next := CurrentOpen(tf, t), CurrentOpen(tf, now);
      next >= current && (next != current ==> next >= current + Period(tf))
  {
  }

  /** In particular for any `t` at most twenty seconds old. */
  lemma RoutingIsCovered(tf: Timeframe, t: int, micros: nat, offset: nat)
    requires t <= micros / SECOND <= t + PRE_CREATE_BUFFER
    ensures ResolveSession(tf, None, offset, micros).value.candleOpen in ExpectedCandleOpens(tf, t)
  {
    CoversExactly(tf, t, micros);
    WithinBuffer(tf, t, micros / SECOND);
    hide ResolveSession, ExpectedCandleOpens, CurrentOpen;
    assert Covers(tf, t, micros);
  }

  lemma WithinBuffer(tf: Timeframe, t: int, now: int)
    requires t <= now <= t + PRE_CREATE_BUFFER
    ensures var current, next := CurrentOpen(tf, t), CurrentOpen(tf, now);
      next == current || (next == current + Period(tf) && next - t <= PRE_CREATE_BUFFER)
  {
    match tf
    case M5 =>
    case M15 =>
  }
}
