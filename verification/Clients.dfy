/** What several operations in a row come to, for a caller who goes by their contracts. */
module Clients {
  import opened Reals
  import opened Buckets
  import opened Breakers
  import opened Gates
  import opened Persist
  import opened Registry

  /** One call of a backend that is down: Gate.Take, or Gate.Wait with the fallback's wait
      begun at `start`. */
  datatype Call = Call(asked: int, answered: int, waits: bool, start: int, fate: Fate)

  function Attempts(calls: seq<Call>): seq<Attempt> {
    if calls == [] then [] else [Attempt(calls[0].asked, calls[0].answered)] + Attempts(calls[1..])
  }

  method CallInTurn(g: Gate, b: Bucket, calls: seq<Call>)
    requires b.Valid() && forall i :: 0 <= i < |calls| && calls[i].fate.GivenUp? ==> Usable(calls[i].fate.found.quota)
    modifies g`takes, g`refused, g`failures, g`log, g.breaker, b
    ensures b.Valid() && g.takes == old(g.takes) + Reached(old(g.breaker.Now()), Attempts(calls))
    decreases |calls|
  {
    if calls == [] {
      return;
    }
    var call := calls[0];
    if call.waits {
      var err := g.Wait(b, call.asked, Broken(false, false), call.answered, call.start, call.fate);
    } else {
      var grant, ok, err := g.Take(call.asked, Broken(false, false), call.answered);
    }
    assert Attempts(calls)[1..] == Attempts(calls[1..]);
    CallInTurn(g, b, calls[1..]);
  }

  /** While no answer comes, however many calls of either kind are made in turn, under any
      policy, at most five and one every five seconds of them reach the backend. */
  method CallDeadBackend(g: Gate, b: Bucket, calls: seq<Call>, from: int, end: int)
    requires b.Valid() && forall i :: 0 <= i < |calls| && calls[i].fate.GivenUp? ==> Usable(calls[i].fate.found.quota)
    requires Sane(g.breaker.Now()) && from <= end && InTurn(from, Attempts(calls), end)
    modifies g`takes, g`refused, g`failures, g`log, g.breaker, b
    ensures g.takes <= old(g.takes) + 5 + (end - from) / 5_000_000_000
  {
    OutageCostsLittle(g.breaker.Now(), from, Attempts(calls), end);
    CallInTurn(g, b, calls);
  }

  /** u's key can be put away at `taken` and picked up at `now` under the same quota. */
  predicate Keeps(u: Entry, q: Quota, taken: int, now: int) {
    && u.level.quota == q && Usable(q) && q.rate > 0.0 && Span(q.rate, q.burst as real) < 9223372036854775808.0
    && u.level.last <= taken && u.lastUsed <= taken <= now && now - u.lastUsed <= MAX_DURATION && u.lastUsed != 0
  }

  /** e has the stamp u had and the tokens it held: less a nanosecond's refill at most, and no
      more than what the stretch before the snapshot earned a second time. */
  ghost predicate ComesBack(u: Entry, e: Entry, q: Quota, taken: int, now: int)
    requires Keeps(u, q, taken, now)
  {
    var kept := TokensAt(u.level, now);
    && e.lastUsed == u.lastUsed && e.level.quota == q
    && Max(0.0, kept) - Refill(q.rate, 1) < TokensAt(e.level, now)
    && TokensAt(e.level, now) <= Min(q.burst as real, Max(0.0, kept + Refill(q.rate, taken - u.lastUsed)))
  }

  lemma SavedComesBack(u: Entry, q: Quota, taken: int, now: int, id: nat)
    requires Keeps(u, q, taken, now)
    ensures ComesBack(u, Newcomer(id, q, State(Number(TokensAt(u.level, taken)), u.lastUsed), true, now), q, taken, now)
  {
    EvictThenRestore(u.level, u.lastUsed, taken, now);
    RestoreReads(q, Number(TokensAt(u.level, taken)), u.lastUsed, now);
  }

  /** Evict on a store that takes it. */
  method PutAway(r: Registry, key: Key)
    requires r.Valid() && Has(r.shards, r.home, key) && r.state.Persists()
    requires r.state.store.replies(r.state.Calls()).Accepts(1)
    modifies r`locked, r`shards, r`live, r`evictions, r`told, r`readings, r`breaches, r.state.store
    ensures r.Valid() && !Has(r.shards, r.home, key) && |r.shards| == |old(r.shards)| && Placed(r.shards, r.home)
    ensures var u := old(Find(r.shards, r.home, key));
            && key in r.state.store.saved
            && r.state.store.saved[key]
               == State(Number(TokensAt(u.level, r.clock(old(r.readings)))), u.lastUsed)
    ensures r.readings == old(r.readings) + 1
  {
    var had, ok := r.Evict(key);
  }

  /** A key evicted onto a store that takes it, and asked for again with nobody else about,
      comes back. */
  method EvictThenGet(r: Registry, key: Key) returns (e: Entry)
    requires r.Valid() && Has(r.shards, r.home, key) && r.state.Persists()
    requires r.state.store.replies(r.state.Calls()).Accepts(1)
    requires Keeps(Find(r.shards, r.home, key), r.quotaFor(key), r.clock(r.readings), r.clock(r.readings + 1))
    modifies r`locked, r`shards, r`live, r`evictions, r`told, r`readings, r`breaches, r`nextId
    modifies r.state`warnings, r.state.store
    ensures ComesBack(old(Find(r.shards, r.home, key)), e, r.quotaFor(key),
                      r.clock(old(r.readings)), r.clock(old(r.readings) + 1))
  {
    ghost var u := Find(r.shards, r.home, key);
    ghost var q, taken, now := r.quotaFor(key), r.clock(r.readings), r.clock(r.readings + 1);
    PutAway(r, key);
    SavedComesBack(u, q, taken, now, r.nextId);
    e := r.GetOrCreate(key, true, r.shards);
  }
}
