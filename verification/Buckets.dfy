/** The token bucket: bucket/bucket.go over golang.org/x/time/rate.

    rate.Limiter is not part of the repository, so `Level` spells out what pace
    relies on: a count, the instant it was true, and the quota it refills under.
    A new limiter is full, refill is lazy and capped at the burst, a reservation
    may take the count below zero, and cancelling returns the whole token. */
module Buckets {
  import opened Reals

  datatype Quota = Quota(rate: real, burst: int)

  /** A quota as limiter.quotaFor leaves it: rate zero or positive, burst at least one. */
  predicate Usable(q: Quota) {
    q.rate >= 0.0 && q.burst >= 1
  }

  datatype Level = Level(tokens: real, last: int, quota: Quota)

  const ZERO_TIME: int := 0

  function Fresh(q: Quota): Level {
    Level(q.burst as real, ZERO_TIME, q)
  }

  /** Limiter.TokensAt: an instant before the last update earns nothing. */
  function TokensAt(s: Level, t: int): real {
    Min(s.quota.burst as real, s.tokens + (if t < s.last then 0.0 else Refill(s.quota.rate, t - s.last)))
  }

  /** The update every mutation starts with. It moves `last` even backwards. */
  function Advanced(s: Level, t: int): Level {
    s.(tokens := TokensAt(s, t), last := t)
  }

  /** When a reserved token may be used, in nanoseconds; never without refill. */
  datatype Ready = At(ns: real) | Never

  datatype Ticket = Ticket(ok: bool, taken: int, ready: Ready) {
    predicate DelayedAt(t: int) {
      ready.Never? || ready.ns > t as real
    }
  }

  function ReserveN(s: Level, t: int, n: int): (Level, Ticket) {
    var left := TokensAt(s, t) - n as real;
    if n > s.quota.burst then (s, Ticket(false, t, At(t as real)))
    else
      (s.(tokens := left, last := t),
       Ticket(true, t,
              if left >= 0.0 then At(t as real)
              else if s.quota.rate <= 0.0 then Never
              else At(t as real + Span(s.quota.rate, -left))))
  }

  function Reserved(s: Level, t: int): Level {
    ReserveN(s, t, 1).0
  }

  function TicketAt(s: Level, t: int): Ticket {
    ReserveN(s, t, 1).1
  }

  /** Whether a cancel at t comes in time: its token's time to act has not passed. */
  predicate InTime(k: Ticket, t: int) {
    k.ok && (k.ready.At? ==> k.ready.ns >= t as real)
  }

  /** Reservation.CancelAt: like every other update it first brings the count to t, which
      moves `last` back when t lies before it. */
  function Cancelled(s: Level, k: Ticket, t: int): Level {
    if InTime(k, t) then s.(tokens := Min(s.quota.burst as real, TokensAt(s, t) + 1.0), last := t) else s
  }

  /** What an update at t adds to later reads when t lies before the last one: the
      stretch in between is earned a second time. */
  function Behind(s: Level, t: int): real {
    if t < s.last then Refill(s.quota.rate, s.last - t) else 0.0
  }

  /** Limiter.AllowN(t, 1): a refusal leaves the bucket untouched. */
  function Allowed(s: Level, t: int): (Level, bool) {
    if s.quota.burst >= 1 && TokensAt(s, t) >= 1.0 then (Reserved(s, t), true) else (s, false)
  }

  /** SetLimitAt then SetBurstAt, each of which brings the count up to date first. */
  function Requota(s: Level, t: int, q: Quota): Level {
    var limited := Advanced(s, t).(quota := Quota(q.rate, s.quota.burst));
    Advanced(limited, t).(quota := q)
  }

  /** DelayAt, whose conversion to nanoseconds truncates. */
  function DelayAt(s: Level, t: int, wild: int): int {
    var tokens := TokensAt(s, t);
    if tokens >= 1.0 || s.quota.rate <= 0.0 then 0
    else ToDuration(Span(s.quota.rate, 1.0 - tokens), wild)
  }

  // ---------------------------------------------------------------- restoring

  /** time.Time.Sub saturates, so a span of more than 292 years counts as 292. */
  function Elapsed(savedAt: int, now: int): nat {
    if now <= savedAt then 0 else if now - savedAt > MAX_DURATION then MAX_DURATION else now - savedAt
  }

  /** What a restored key ought to hold at `now`. */
  function Credit(q: Quota, saved: Float, savedAt: int, now: int): real {
    var kept := if saved.Number? then saved.value else 0.0;
    Max(0.0, Min(q.burst as real, kept + Refill(q.rate, Elapsed(savedAt, now))))
  }

  /** The instant at which emptying a bucket leaves `tokens` in it at `now`, cut
      to a nanosecond. float64(math.MaxInt64) is 2^63, hence the bound. */
  function DrainInstant(now: int, tokens: real, rate: real): int {
    if rate <= 0.0 || tokens <= 0.0 then now
    else if Span(rate, tokens) >= 9223372036854775808.0 then now - 0x8000_0000_0000_0000
    else now - Span(rate, tokens).Floor
  }

  function Restored(q: Quota, saved: Float, savedAt: int, now: int): Level {
    ReserveN(Fresh(q), DrainInstant(now, Credit(q, saved, savedAt, now), q.rate), q.burst).0
  }

  // -------------------------------------------------------------- basic facts

  lemma FreshIsFull(q: Quota, t: int)
    requires Usable(q)
    ensures TokensAt(Fresh(q), t) == q.burst as real
  {
    if t >= ZERO_TIME {
      RefillMonotone(q.rate, 0, t - ZERO_TIME);
      assert Refill(q.rate, 0) == 0.0;
    }
  }

  /** Refill is lazy without being visible: reading at t2 does not depend on
      whether the bucket was brought up to date at t1 in between. */
  lemma ReadsCompose(s: Level, t1: int, t2: int)
    requires s.quota.rate >= 0.0 && s.last <= t1 <= t2
    ensures TokensAt(s, t2) == Min(s.quota.burst as real, TokensAt(s, t1) + Refill(s.quota.rate, t2 - t1))
    ensures TokensAt(Advanced(s, t1), t2) == TokensAt(s, t2)
    ensures TokensAt(s, t1) <= TokensAt(s, t2)
  {
    RefillAdds(s.quota.rate, t1 - s.last, t2 - t1);
    RefillMonotone(s.quota.rate, 0, t2 - t1);
    assert Refill(s.quota.rate, 0) == 0.0;
  }

  lemma BehindIsPositive(s: Level, t: int)
    requires s.quota.rate >= 0.0
    ensures Behind(s, t) >= 0.0
    ensures t < s.last && s.quota.rate > 0.0 ==> Behind(s, t) > 0.0
  {
    if t < s.last {
      RefillMonotone(s.quota.rate, 0, s.last - t);
      RefillMonotone(s.quota.rate, 1, s.last - t);
      assert Refill(s.quota.rate, 0) == 0.0;
    }
  }

  /** A reservation costs one token at its own instant, and at most one at any
      later instant: the cap can only give some of it back. */
  lemma ReserveReads(s: Level, t: int, u: int)
    requires Usable(s.quota) && s.last <= t <= u
    ensures TokensAt(Reserved(s, t), t) == TokensAt(s, t) - 1.0
    ensures TokensAt(s, u) - 1.0 <= TokensAt(Reserved(s, t), u) <= TokensAt(s, u)
  {
    ReadsCompose(s, t, u);
    assert Refill(s.quota.rate, 0) == 0.0;
    RefillMonotone(s.quota.rate, 0, u - t);
  }

  /** The same for an instant read before somebody else moved the bucket on: it still
      costs at most one token, and what it adds is at most the time it lags behind. */
  lemma StaleReserveReads(s: Level, t: int, u: int)
    requires Usable(s.quota) && t <= u && s.last <= u
    ensures TokensAt(s, u) - 1.0 <= TokensAt(Reserved(s, t), u)
    ensures TokensAt(Reserved(s, t), u) <= TokensAt(s, u) - 1.0 + Refill(s.quota.rate, u - t)
    ensures TokensAt(Reserved(s, t), t) == TokensAt(s, t) - 1.0
  {
    assert Refill(s.quota.rate, 0) == 0.0;
    RefillMonotone(s.quota.rate, 0, u - t);
    if t < s.last {
      RefillMonotone(s.quota.rate, 0, u - s.last);
      RefillAdds(s.quota.rate, u - s.last, s.last - t);
      assert u - s.last + (s.last - t) == u - t;
      BehindIsPositive(s, t);
    } else {
      ReadsCompose(s, t, u);
    }
  }

  /** A reservation's delay is exact: by the time its ticket is ready, refill alone
      has paid for it, and at no earlier instant. */
  lemma TicketReadyWhenPaid(s: Level, t: int, u: int)
    requires Usable(s.quota) && t <= u
    ensures TicketAt(s, t).ok && TicketAt(s, t).taken == t
    ensures !TicketAt(s, t).DelayedAt(u) <==> TokensAt(Reserved(s, t), u) >= 0.0
  {
    var left := TokensAt(s, t) - 1.0;
    RefillMonotone(s.quota.rate, 0, u - t);
    assert Refill(s.quota.rate, 0) == 0.0;
    if left < 0.0 && s.quota.rate > 0.0 {
      SpanInvertsRefill(s.quota.rate, -left, u - t);
      var x := Span(s.quota.rate, -left);
      assert TicketAt(s, t).ready == At(t as real + x);
      assert (u - t) as real == u as real - t as real;
    } else if left < 0.0 {
      assert Refill(s.quota.rate, u - t) == 0.0;
    }
  }

  lemma TicketNotEarly(s: Level, t: int)
    requires Usable(s.quota)
    ensures TicketAt(s, t).ready.At? ==> TicketAt(s, t).ready.ns >= t as real
  {
    var left := TokensAt(s, t) - 1.0;
    if left < 0.0 && s.quota.rate > 0.0 {
      assert Span(s.quota.rate, -left) >= 0.0;
    }
  }

  /** Cancelling in time returns exactly one token, capped at the burst, at every
      instant from then on, and adds what the cancel's instant lags behind. */
  lemma CancelReads(s: Level, k: Ticket, t: int, u: int)
    requires Usable(s.quota) && t <= u && s.last <= u && InTime(k, t)
    ensures TokensAt(Cancelled(s, k, t), u) == Min(s.quota.burst as real, TokensAt(s, u) + 1.0 + Behind(s, t))
  {
    RefillMonotone(s.quota.rate, 0, u - t);
    assert Refill(s.quota.rate, 0) == 0.0;
    if t < s.last {
      RefillMonotone(s.quota.rate, 0, u - s.last);
      RefillAdds(s.quota.rate, u - s.last, s.last - t);
      assert u - s.last + (s.last - t) == u - t;
      BehindIsPositive(s, t);
    } else {
      ReadsCompose(s, t, u);
    }
  }

  /** Hence a cancel behind the last update returns exactly its token if and only if the
      rate is zero or the token alone already fills the bucket; otherwise it mints. */
  lemma StaleCancelMints(s: Level, k: Ticket, t: int, u: int)
    requires Usable(s.quota) && t < s.last <= u && InTime(k, t)
    ensures TokensAt(Cancelled(s, k, t), u) == Min(s.quota.burst as real, TokensAt(s, u) + 1.0)
            <==> s.quota.rate == 0.0 || TokensAt(s, u) + 1.0 >= s.quota.burst as real
  {
    CancelReads(s, k, t, u);
    BehindIsPositive(s, t);
    if s.quota.rate == 0.0 {
      assert Refill(s.quota.rate, s.last - t) == 0.0;
    }
  }

  lemma TakenInTime(s: Level, t: int)
    requires Usable(s.quota)
    ensures InTime(TicketAt(s, t), t)
  {
    TicketNotEarly(s, t);
  }

  /** Reserve and cancel at the same instant is invisible, but for the stretch an instant
      behind the last update earns a second time. */
  lemma CancelUndoesReserve(s: Level, t: int, u: int)
    requires Usable(s.quota) && t <= u && s.last <= u
    ensures TokensAt(Cancelled(Reserved(s, t), TicketAt(s, t), t), u)
            == Min(s.quota.burst as real, TokensAt(s, u) + Behind(s, t))
  {
    var r := Reserved(s, t);
    TakenInTime(s, t);
    assert Refill(s.quota.rate, 0) == 0.0;
    RefillMonotone(s.quota.rate, 0, u - t);
    assert Cancelled(r, TicketAt(s, t), t) == s.(tokens := TokensAt(s, t), last := t);
    if t < s.last {
      RefillMonotone(s.quota.rate, 0, u - s.last);
      RefillAdds(s.quota.rate, u - s.last, s.last - t);
      assert u - s.last + (s.last - t) == u - t;
      BehindIsPositive(s, t);
    } else {
      ReadsCompose(s, t, u);
    }
  }

  /** Whatever is read from then on, `level` is what s was before it was updated at t. */
  ghost predicate PutBack(s: Level, t: int, level: Level) {
    forall u :: t <= u && s.last <= u ==>
      TokensAt(level, u) == Min(s.quota.burst as real, TokensAt(s, u) + Behind(s, t))
  }

  lemma CancelPutsBack(s: Level, t: int)
    requires Usable(s.quota)
    ensures PutBack(s, t, Cancelled(Reserved(s, t), TicketAt(s, t), t))
  {
    forall u | t <= u && s.last <= u
      ensures TokensAt(Cancelled(Reserved(s, t), TicketAt(s, t), t), u)
              == Min(s.quota.burst as real, TokensAt(s, u) + Behind(s, t))
    {
      CancelUndoesReserve(s, t, u);
    }
  }

  /** A cancel at any instant up to the token's time undoes the reservation likewise. */
  lemma CancelWhileWaiting(s: Level, t: int, at: int, u: int)
    requires Usable(s.quota) && t <= at <= u && s.last <= u
    requires TicketAt(s, t).DelayedAt(t) && InTime(TicketAt(s, t), at)
    ensures TokensAt(Cancelled(Reserved(s, t), TicketAt(s, t), at), u)
            == Min(s.quota.burst as real, TokensAt(s, u) + Behind(s, t))
  {
    var r, k, rate := Reserved(s, t), TicketAt(s, t), s.quota.rate;
    assert Refill(rate, 0) == 0.0;
    TicketReadyWhenPaid(s, t, t);
    CancelReads(r, k, at, u);
    CancelUndoesReserve(s, t, u);
    CancelReads(r, k, t, u);
    TakenInTime(s, t);
  }

  lemma CancelledWaiting(s: Level, t: int, at: int)
    requires Usable(s.quota) && t <= at && TicketAt(s, t).DelayedAt(t) && InTime(TicketAt(s, t), at)
    ensures forall u :: at <= u && s.last <= u ==>
              TokensAt(Cancelled(Reserved(s, t), TicketAt(s, t), at), u)
              == Min(s.quota.burst as real, TokensAt(s, u) + Behind(s, t))
  {
    forall u | at <= u && s.last <= u
      ensures TokensAt(Cancelled(Reserved(s, t), TicketAt(s, t), at), u)
              == Min(s.quota.burst as real, TokensAt(s, u) + Behind(s, t))
    {
      CancelWhileWaiting(s, t, at, u);
    }
  }

  /** How a wait on a bucket ends: it runs its course, is refused before it takes a token
      because the caller is gone or its deadline too near, or is given up at an instant, by
      when others have left the bucket at a level of their own. */
  datatype Fate = RunsOut(until: int) | Declined | GivenUp(at: int, found: Level)

  /** A token that is there at once is handed over whatever happens later. */
  predicate WaitSucceeds(s: Level, t: int, fate: Fate) {
    match fate
    case RunsOut(_) => true
    case Declined => false
    case GivenUp(_, _) => !TicketAt(s, t).DelayedAt(t)
  }

  /** What a wait begun at t leaves. Success costs a token, being declined nothing. Given up
      by the token's time it comes back to what the others left, so that with nobody else
      about every later read is what it was; given up after that, it is lost. */
  ghost predicate Waited(s: Level, t: int, fate: Fate, level: Level) {
    match fate
    case Declined => level == s
    case RunsOut(_) => level == Reserved(s, t)
    case GivenUp(at, found) =>
      if !TicketAt(s, t).DelayedAt(t) then level == Reserved(s, t)
      else if !InTime(TicketAt(s, t), at) then level == found
      else
        && level == Cancelled(found, TicketAt(s, t), at)
        && (forall u :: at <= u && found.last <= u ==>
              TokensAt(level, u) == Min(found.quota.burst as real, TokensAt(found, u) + 1.0 + Behind(found, at)))
        && (found == Reserved(s, t) && t <= at ==>
              forall u :: at <= u && s.last <= u ==>
                TokensAt(level, u) == Min(s.quota.burst as real, TokensAt(s, u) + Behind(s, t)))
  }

  /** DelayAt is exact up to its truncation: no whole token exists any sooner, and
      one exists at the latest one nanosecond after. It is nothing when a token is there, and
      when none will ever be. */
  lemma DelayIsExact(s: Level, t: int, wild: int, u: int)
    requires Usable(s.quota) && s.last <= t <= u
    requires s.quota.rate > 0.0 && TokensAt(s, t) < 1.0
             ==> Span(s.quota.rate, 1.0 - TokensAt(s, t)) < 9223372036854775808.0
    ensures s.quota.rate > 0.0 && TokensAt(s, u) >= 1.0 ==> u >= t + DelayAt(s, t, wild)
    ensures s.quota.rate > 0.0 && u > t + DelayAt(s, t, wild) ==> TokensAt(s, u) >= 1.0
    ensures s.quota.rate == 0.0 || TokensAt(s, t) >= 1.0 ==> DelayAt(s, t, wild) == 0
  {
    ReadsCompose(s, t, u);
    if s.quota.rate > 0.0 && TokensAt(s, t) < 1.0 {
      SpanInvertsRefill(s.quota.rate, 1.0 - TokensAt(s, t), u - t);
    }
  }

  // ------------------------------------------------------- restoring is exact

  /** A restored bucket never reads above what the saved count earned, reads less
      than one nanosecond's refill below it whenever the drain span fits a
      Duration, and stays within [0, burst] whatever the store handed back. */
  lemma RestoreReads(q: Quota, saved: Float, savedAt: int, now: int)
    requires Usable(q)
    ensures 0.0 <= TokensAt(Restored(q, saved, savedAt, now), now) <= q.burst as real
    ensures TokensAt(Restored(q, saved, savedAt, now), now) <= Credit(q, saved, savedAt, now)
    ensures q.rate > 0.0 && Span(q.rate, Credit(q, saved, savedAt, now)) < 9223372036854775808.0
            ==> TokensAt(Restored(q, saved, savedAt, now), now)
                > Credit(q, saved, savedAt, now) - Refill(q.rate, 1)
    ensures q.rate == 0.0 ==> TokensAt(Restored(q, saved, savedAt, now), now) == 0.0
    ensures Restored(q, saved, savedAt, now).quota == q && Restored(q, saved, savedAt, now).last <= now
  {
    var want := Credit(q, saved, savedAt, now);
    var at := DrainInstant(now, want, q.rate);
    FreshIsFull(q, at);
    assert Refill(q.rate, 0) == 0.0;
    RefillMonotone(q.rate, 0, now - at);
    assert Restored(q, saved, savedAt, now) == Level(0.0, at, q);
    if q.rate > 0.0 {
      RefillMonotone(q.rate, 0, 1);
      SpanInvertsRefill(q.rate, want, now - at);
      SpanInvertsRefill(q.rate, want, now - at + 1);
      if want > 0.0 {
        assert Span(q.rate, want) >= 0.0;
        RefillAdds(q.rate, now - at, 1);
        assert Refill(q.rate, 1) > 0.0;
      } else {
        assert Refill(q.rate, 1) > 0.0;
      }
    }
  }

  /** What a restored bucket reads, said of the saved pair itself: no more than was saved and
      has been earned since, and short of that by less than a nanosecond's refill. A count
      that is no number counts as nothing, and an instant yet to come has earned nothing. */
  lemma RestoreCredits(q: Quota, saved: Float, savedAt: int, now: int)
    requires Usable(q)
    ensures var kept := if saved.Number? then saved.value else 0.0;
            var gone := if savedAt < now then now - savedAt else 0;
            var held := TokensAt(Restored(q, saved, savedAt, now), now);
            && 0.0 <= held <= q.burst as real && held <= Max(0.0, kept + Refill(q.rate, gone))
            && (q.rate > 0.0 && gone <= MAX_DURATION && Span(q.rate, q.burst as real) < 9223372036854775808.0 ==>
                  held > Min(q.burst as real, kept + Refill(q.rate, gone)) - Refill(q.rate, 1))
  {
    var gone := if savedAt < now then now - savedAt else 0;
    var want := Credit(q, saved, savedAt, now);
    RestoreReads(q, saved, savedAt, now);
    RefillMonotone(q.rate, Elapsed(savedAt, now), gone);
    if q.rate > 0.0 {
      SpanMonotone(q.rate, want, q.burst as real);
    }
  }

  /** Evicting a bucket at `taken` and restoring it at `now` against the LastUsed
      stored beside the count. The snapshot's count is as of `taken`, so the idle
      stretch before it is credited a second time: the restored key holds at least
      what the untouched bucket would (less the truncated nanosecond), and at most
      that stretch's refill more. With taken == lastUsed the excess is nothing. */
  lemma EvictThenRestore(s: Level, lastUsed: int, taken: int, now: int)
    requires Usable(s.quota) && s.quota.rate > 0.0
    requires s.last <= taken && lastUsed <= taken <= now
    requires now - lastUsed <= MAX_DURATION
    requires Span(s.quota.rate, s.quota.burst as real) < 9223372036854775808.0
    ensures var kept := TokensAt(s, now);
            var back := TokensAt(Restored(s.quota, Number(TokensAt(s, taken)), lastUsed, now), now);
            && Max(0.0, kept) - Refill(s.quota.rate, 1) < back
            && back <= Min(s.quota.burst as real, Max(0.0, kept + Refill(s.quota.rate, taken - lastUsed)))
  {
    var q := s.quota;
    var want := Credit(q, Number(TokensAt(s, taken)), lastUsed, now);
    RestoreReads(q, Number(TokensAt(s, taken)), lastUsed, now);
    ReadsCompose(s, taken, now);
    RefillAdds(q.rate, now - taken, taken - lastUsed);
    assert now - taken + (taken - lastUsed) == now - lastUsed;
    RefillMonotone(q.rate, 0, now - taken);
    RefillMonotone(q.rate, 0, taken - lastUsed);
    assert Refill(q.rate, 0) == 0.0;
    SpanMonotone(q.rate, want, q.burst as real);
  }

  /** store.State documents Tokens as the count at LastUsed. The pair a snapshot takes
      later is that count exactly when nothing was earned since LastUsed, or since the
      bucket's last update where that is later. */
  lemma SnapshotIsHonest(s: Level, lastUsed: int, taken: int)
    requires Usable(s.quota) && lastUsed <= taken
    ensures TokensAt(s, taken) == TokensAt(s, lastUsed)
            <==> taken == lastUsed || taken <= s.last || s.quota.rate == 0.0
                 || TokensAt(s, lastUsed) == s.quota.burst as real
  {
    var rate := s.quota.rate;
    var from := if lastUsed < s.last then s.last else lastUsed;
    assert Refill(rate, 0) == 0.0;
    assert TokensAt(s, from) == TokensAt(s, lastUsed);
    if taken > from {
      ReadsCompose(s, from, taken);
      RefillMonotone(rate, 1, taken - from);
      assert rate > 0.0 ==> Refill(rate, 1) > 0.0;
      assert rate == 0.0 ==> Refill(rate, taken - from) == 0.0;
    }
  }

  lemma SpanMonotone(rate: real, a: real, b: real)
    requires rate > 0.0 && a <= b
    ensures Span(rate, a) <= Span(rate, b)
  {
    assert (b - a) / rate >= 0.0;
    assert b / rate == a / rate + (b - a) / rate;
  }

  // ------------------------------------------------ reloading mints no tokens

  datatype Op = Spend(at: int) | SetQuota(at: int, quota: Quota)

  predicate InOrder(from: int, ops: seq<Op>)
    decreases |ops|
  {
    ops != [] ==>
      from <= ops[0].at && (ops[0].SetQuota? ==> Usable(ops[0].quota)) && InOrder(ops[0].at, ops[1..])
  }

  function Step(s: Level, op: Op): (Level, nat) {
    match op
    case Spend(t) => (Allowed(s, t).0, if Allowed(s, t).1 then 1 else 0)
    case SetQuota(t, q) => (Requota(s, t, q), 0)
  }

  function Grants(s: Level, ops: seq<Op>): nat
    decreases |ops|
  {
    if ops == [] then 0
    else Step(s, ops[0]).1 + Grants(Step(s, ops[0]).0, ops[1..])
  }

  function After(s: Level, ops: seq<Op>): Level
    decreases |ops|
  {
    if ops == [] then s else After(Step(s, ops[0]).0, ops[1..])
  }

  /** The integral of the rate in force from `from` to `end`. */
  function Earned(rate: real, from: int, ops: seq<Op>, end: int): real
    decreases |ops|
  {
    if ops == [] then Refill(rate, end - from)
    else Refill(rate, ops[0].at - from)
         + Earned(if ops[0].SetQuota? then ops[0].quota.rate else rate, ops[0].at, ops[1..], end)
  }

  predicate EndsBy(from: int, ops: seq<Op>, end: int)
    decreases |ops|
  {
    if ops == [] then from <= end else EndsBy(ops[0].at, ops[1..], end)
  }

  /** A quota change keeps what had accrued, cut to the new ceiling: nothing is
      minted and nothing under the ceiling is lost. */
  lemma RequotaKeepsTokens(s: Level, t: int, q: Quota)
    ensures TokensAt(Requota(s, t, q), t) == Min(q.burst as real, TokensAt(s, t))
    ensures Requota(s, t, q).last == t && Requota(s, t, q).quota == q
  {
    assert Refill(s.quota.rate, 0) == 0.0;
    assert Refill(q.rate, 0) == 0.0;
  }

  /** Whatever the interleaving of requests and reloads, what was granted plus what
      is left never exceeds what was there plus what the rates in force earned. */
  lemma {:induction false} ReloadsMintNothing(s: Level, from: int, ops: seq<Op>, end: int)
    requires Usable(s.quota) && s.last <= from && InOrder(from, ops) && EndsBy(from, ops, end)
    ensures Grants(s, ops) as real + TokensAt(After(s, ops), end)
            <= TokensAt(s, from) + Earned(s.quota.rate, from, ops, end)
    decreases |ops|
  {
    if ops == [] {
      ReadsCompose(s, from, end);
    } else {
      var op := ops[0];
      var next := Step(s, op).0;
      ReadsCompose(s, from, op.at);
      match op {
        case Spend(t) =>
          ReserveReads(s, t, t);
        case SetQuota(t, q) =>
          RequotaKeepsTokens(s, t, q);
      }
      ReloadsMintNothing(next, op.at, ops[1..], end);
    }
  }

  /** Hence a key that starts from a restored or fresh bucket is granted at most its
      initial burst plus that integral, reloads included. */
  lemma ReloadsStayUnderBurst(s: Level, from: int, ops: seq<Op>, end: int)
    requires Usable(s.quota) && s.last <= from && InOrder(from, ops) && EndsBy(from, ops, end)
    requires s.tokens >= 0.0
    ensures Grants(s, ops) as real <= s.quota.burst as real + Earned(s.quota.rate, from, ops, end)
  {
    ReloadsMintNothing(s, from, ops, end);
    StaysNonNegative(s, from, ops, end);
  }

  lemma {:induction false} StaysNonNegative(s: Level, from: int, ops: seq<Op>, end: int)
    requires Usable(s.quota) && s.last <= from && InOrder(from, ops) && EndsBy(from, ops, end)
    requires s.tokens >= 0.0
    ensures TokensAt(After(s, ops), end) >= 0.0
    decreases |ops|
  {
    assert Refill(s.quota.rate, 0) == 0.0;
    if ops == [] {
      RefillMonotone(s.quota.rate, 0, end - s.last);
    } else {
      var op := ops[0];
      RefillMonotone(s.quota.rate, 0, op.at - s.last);
      if op.SetQuota? {
        assert Refill(op.quota.rate, 0) == 0.0;
      }
      StaysNonNegative(Step(s, op).0, op.at, ops[1..], end);
    }
  }

  /** Why Reload reads the clock per key: setting a quota at an instant before the
      bucket's last update rewinds it, and the rewound stretch is earned twice. It
      is harmless exactly when the bucket earns nothing then or was full anyway. */
  lemma RewindMints(s: Level, t: int, u: int)
    requires Usable(s.quota) && t < s.last <= u && s.tokens <= s.quota.burst as real
    ensures TokensAt(Requota(s, t, s.quota), u)
            == Min(s.quota.burst as real, TokensAt(s, u) + Refill(s.quota.rate, s.last - t))
    ensures TokensAt(Requota(s, t, s.quota), u) == TokensAt(s, u)
            <==> s.quota.rate == 0.0 || TokensAt(s, u) == s.quota.burst as real
  {
    var q := s.quota;
    assert Refill(q.rate, 0) == 0.0;
    assert Requota(s, t, q) == Level(s.tokens, t, q);
    RefillAdds(q.rate, u - s.last, s.last - t);
    assert u - s.last + (s.last - t) == u - t;
    RefillMonotone(q.rate, 0, s.last - t);
    RefillMonotone(q.rate, 0, u - s.last);
    if q.rate > 0.0 {
      RefillMonotone(q.rate, 1, s.last - t);
      assert Refill(q.rate, 1) > 0.0;
    } else {
      assert Refill(q.rate, s.last - t) == 0.0;
    }
  }

  // ------------------------------------------------------------ the type itself

  class Bucket {
    /** The wrapped rate.Limiter, and the quota published beside it. */
    var limiter: Level
    var quota: Quota

    ghost predicate Valid()
      reads this
    {
      limiter.quota == quota && Usable(quota)
    }

    constructor (q: Quota)
      requires Usable(q)
      ensures Valid() && quota == q && limiter == Fresh(q)
      ensures forall t :: TokensAt(limiter, t) == q.burst as real
    {
      limiter := Fresh(q);
      quota := q;
      forall t
        ensures TokensAt(Fresh(q), t) == q.burst as real
      {
        FreshIsFull(q, t);
      }
    }

    /** RestoreBucket: drain a full limiter at the instant that leaves the credit. */
    constructor Restore(q: Quota, saved: Float, savedAt: int, now: int)
      requires Usable(q)
      ensures Valid() && quota == q && limiter == Restored(q, saved, savedAt, now)
      ensures var kept := if saved.Number? then saved.value else 0.0;
              var gone := if savedAt < now then now - savedAt else 0;
              && 0.0 <= TokensAt(limiter, now) <= Max(0.0, kept + Refill(q.rate, gone))
              && (q.rate > 0.0 && gone <= MAX_DURATION && Span(q.rate, q.burst as real) < 9223372036854775808.0 ==>
                    TokensAt(limiter, now) > Min(q.burst as real, kept + Refill(q.rate, gone)) - Refill(q.rate, 1))
    {
      RestoreCredits(q, saved, savedAt, now);
      var full := Fresh(q);
      var kept := if saved.Number? then saved.value else 0.0;
      var elapsed := Elapsed(savedAt, now);
      var tokens := Max(0.0, Min(q.burst as real, kept + Refill(q.rate, elapsed)));
      var (drained, _) := ReserveN(full, DrainInstant(now, tokens, q.rate), q.burst);
      limiter := drained;
      quota := q;
    }

    method SetQuotaAt(t: int, q: Quota)
      requires Valid() && Usable(q)
      modifies this
      ensures Valid() && quota == q && limiter == Requota(old(limiter), t, q)
      ensures TokensAt(limiter, t) == Min(q.burst as real, TokensAt(old(limiter), t))
    {
      RequotaKeepsTokens(limiter, t, q);
      limiter := Advanced(limiter, t).(quota := Quota(q.rate, limiter.quota.burst));
      limiter := Advanced(limiter, t).(quota := Quota(limiter.quota.rate, q.burst));
      quota := q;
    }

    method AllowAt(t: int) returns (ok: bool)
      requires Valid()
      modifies this
      ensures Valid() && quota == old(quota)
      ensures ok <==> TokensAt(old(limiter), t) >= 1.0
      ensures limiter == if ok then Reserved(old(limiter), t) else old(limiter)
    {
      var (level, granted) := Allowed(limiter, t);
      limiter := level;
      ok := granted;
    }

    /** The token is spent at once. Until the ticket is ready the bucket owes it, and from
        then on it owes nothing. */
    method ReserveAt(t: int) returns (k: Ticket)
      requires Valid()
      modifies this
      ensures Valid() && quota == old(quota) && k.ok && k.taken == t
      ensures limiter == Reserved(old(limiter), t) && k == TicketAt(old(limiter), t)
      ensures TokensAt(limiter, t) == TokensAt(old(limiter), t) - 1.0
      ensures forall u :: u >= t ==> (k.DelayedAt(u) <==> TokensAt(limiter, u) < 0.0)
    {
      ghost var before := limiter;
      var (level, ticket) := ReserveN(limiter, t, 1);
      limiter := level;
      k := ticket;
      StaleReserveReads(before, t, if t < before.last then before.last else t);
      forall u | u >= t
        ensures k.DelayedAt(u) <==> TokensAt(Reserved(before, t), u) < 0.0
      {
        TicketReadyWhenPaid(before, t, u);
      }
    }

    /** Other calls move the bucket between two operations of one. */
    method OthersMove(level: Level)
      requires Usable(level.quota)
      modifies this
      ensures Valid() && limiter == level
    {
      limiter := level;
      quota := level.quota;
    }

    /** Limiter.Wait for one token. */
    method WaitAt(t: int, fate: Fate) returns (ok: bool)
      requires Valid() && (fate.GivenUp? ==> Usable(fate.found.quota))
      modifies this
      ensures Valid() && ok == WaitSucceeds(old(limiter), t, fate) && Waited(old(limiter), t, fate, limiter)
    {
      ghost var before := limiter;
      if fate.Declined? {
        return false;
      }
      var k := ReserveAt(t);
      if fate.GivenUp? && k.DelayedAt(t) {
        OthersMove(fate.found);
        CancelAt(k, fate.at);
        if t <= fate.at && InTime(k, fate.at) && fate.found == Reserved(before, t) {
          CancelledWaiting(before, t, fate.at);
        }
        return false;
      }
      return true;
    }

    /** A cancel in time gives the token back at every later instant, up to the burst; one
        that comes too late gives nothing. */
    method CancelAt(k: Ticket, t: int)
      requires Valid()
      modifies this
      ensures Valid() && quota == old(quota) && limiter == Cancelled(old(limiter), k, t)
      ensures !InTime(k, t) ==> limiter == old(limiter)
      ensures InTime(k, t) ==> forall u :: t <= u && old(limiter.last) <= u ==>
                TokensAt(limiter, u)
                == Min(quota.burst as real, TokensAt(old(limiter), u) + 1.0 + Behind(old(limiter), t))
    {
      ghost var before := limiter;
      limiter := Cancelled(limiter, k, t);
      if InTime(k, t) {
        forall u | t <= u && before.last <= u
          ensures TokensAt(Cancelled(before, k, t), u)
                  == Min(before.quota.burst as real, TokensAt(before, u) + 1.0 + Behind(before, t))
        {
          CancelReads(before, k, t, u);
        }
      }
    }
  }
}
