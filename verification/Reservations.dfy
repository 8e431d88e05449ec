/** Limiter.Reserve and Reservation.Cancel (limiter/reserve.go). */
module Reservations {
  import opened Reals
  import opened Buckets
  import opened Breakers
  import opened Gates

  /** How long the holder has to wait: until the local token is earned, or what the
      backend (or the guess standing in for it) said after a refusal. */
  datatype Delay = Earned(ready: Ready) | Quoted(ns: int) | Unknown

  class Reservation {
    const bucket: Bucket
    var ticket: Ticket
    var delay: Delay
    var ok: bool
    var done: bool
    ghost var log: seq<Act>     // what it did where a backend is consulted

    /** Reserve on an open Limiter. `shared` is Limiter.sharedEnabled. A delayed token
        is kept without asking the backend; only an immediate one is paid for there. A
        refused one comes back to what the others have left, `refound`. */
    constructor (g: Gate, shared: bool, b: Bucket, now: int, asked: int, answer: Answer, later: int, wild: int,
                 refound: Level)
      requires b.Valid() && Usable(refound.quota)
      modifies g`takes, g`refused, g`failures, g.breaker, b
      ensures b.Valid() && bucket == b && !done
      ensures ticket == TicketAt(old(b.limiter), now) && ticket.ok
      ensures var paid := shared && TokensAt(old(b.limiter), now) >= 1.0;
              var admitted := Admits(old(g.breaker.Now()), asked);
              var silent := !admitted || answer == Broken(false, false);
              && (ok <==> paid ==> (admitted && answer.Answered? && answer.grant.ok) || (silent && !g.policy.Deny?))
              && (ok ==> b.limiter == Reserved(old(b.limiter), now) && delay == Earned(ticket.ready))
              && (!ok ==>
                    && delay.Quoted?
                    && Honours(delay.ns, if admitted && answer.Answered? then answer.grant.retryAfter else 0,
                               old(b.quota).rate))
              && g.takes == old(g.takes) + (if paid && admitted then 1 else 0)
              && g.refused == old(g.refused)
                              + (if paid && admitted && answer.Answered? && !answer.grant.ok then 1 else 0)
              && g.failures == old(g.failures) + (if paid && silent then 1 else 0)
              && g.breaker.Now() == (if paid then BreakerAfter(old(g.breaker.Now()), asked,
                                                               Classify(old(g.breaker.Now()), asked, answer), later)
                                     else old(g.breaker.Now()))
      ensures !ok ==> b.limiter == Cancelled(refound, ticket, now)
      ensures !ok && refound == Reserved(old(b.limiter), now) ==> PutBack(old(b.limiter), now, b.limiter)
      ensures shared ==>
        log == ReserveActs(g.policy, old(b.limiter), now, old(g.breaker.Now()), asked, answer, later, refound)
    {
      bucket := b;
      ticket := Ticket(false, now, Never);
      delay, ok, done := Unknown, false, false;
      log := [];
      new;
      ghost var before := b.limiter;
      StaleReserveReads(before, now, if now < before.last then before.last else now);
      TicketReadyWhenPaid(before, now, now);
      CancelPutsBack(before, now);
      ticket := b.ReserveAt(now);
      log := [Reserve(before, now, b.limiter)];
      ok := ticket.ok;
      if !ok {
        return;
      }
      delay := Earned(ticket.ready);
      var q := b.quota;
      if shared && !ticket.DelayedAt(now) {
        log := log + [AskAct(g.breaker.Now(), asked, answer, later)];
        var grant, granted, err := g.Take(asked, answer, later);
        RetryHonours(grant.retryAfter, q.rate, wild);
        if err != Nil || !granted {
          b.OthersMove(refound);
          b.CancelAt(ticket, now);
          log := log + [Act.Cancel(refound, ticket, now, b.limiter)];
          ok := false;
          delay := Quoted(RetryDelay(grant.retryAfter, q.rate, wild));
        }
      } else {
        log := log + [Keep];
      }
    }

    /** Returns the token at most once, and not at all once its delay has elapsed; a cancel
        behind the bucket's last update also gives back the stretch it rewinds. */
    method Cancel(now: int)
      requires bucket.Valid()
      modifies this`done, this`log, bucket
      ensures bucket.Valid() && bucket.quota == old(bucket.quota)
      ensures done == (old(done) || ok)
      ensures var returned := !old(done) && ok && InTime(ticket, now);
              && (!returned ==> bucket.limiter == old(bucket.limiter))
              && (returned ==> forall u :: now <= u && old(bucket.limiter.last) <= u ==>
                    TokensAt(bucket.limiter, u)
                    == Min(bucket.quota.burst as real,
                           TokensAt(old(bucket.limiter), u) + 1.0 + Behind(old(bucket.limiter), now)))
      ensures log == old(log) + if old(done) || !ok then [] else [ReleaseAct(old(bucket.limiter), ticket, now)]
    {
      if !ok || done {
        return;
      }
      done := true;
      ghost var found := bucket.limiter;
      bucket.CancelAt(ticket, now);
      log := log + [Release(found, ticket, now, bucket.limiter)];
    }
  }
}
