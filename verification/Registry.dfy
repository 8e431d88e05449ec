/** The key registry, one call at a time (registry/registry.go, registry/gc.go), and the
    teardown built on it (limiter/lifecycle.go).

    Every call into the owner is a method that requires no shard lock to be held, so that
    discipline is checked at each call site. Where a call gives up its locks half way,
    what others leave behind meanwhile is a parameter; how whole calls interleave is
    RegistryRuns' subject. */
module Registry {
  import opened Reals
  import opened Buckets
  import opened Persist

  datatype Reason = Idle | Explicit | Shutdown

  datatype Eviction = Eviction(reason: Reason, snap: Snapshot)

  const UNSAVED: State := State(Number(0.0), 0)

  /** A key's state. `id` stands for the address of its allocation. */
  datatype Entry = Entry(id: nat, level: Level, lastUsed: int) {
    function Snap(key: Key, now: int): Snapshot {
      Snapshot(key, TokensAt(level, now), lastUsed)
    }
  }

  /** A key's first entry: restored when something was saved, full otherwise. */
  function Newcomer(id: nat, q: Quota, st: State, found: bool, now: int): Entry {
    Entry(id, if found then Restored(q, st.tokens, st.lastUsed, now) else Fresh(q),
          if found && st.lastUsed != 0 then st.lastUsed else now)
  }

  /** e holds what was saved and has been earned since, as far as the burst allows, less a
      nanosecond's refill at most. A count that is no number counts as nothing, and an instant
      yet to come has earned nothing. */
  ghost predicate PicksUp(e: Entry, q: Quota, st: State, now: int) {
    var kept := if st.tokens.Number? then st.tokens.value else 0.0;
    var gone := if st.lastUsed < now then now - st.lastUsed else 0;
    && e.level.quota == q && e.lastUsed == (if st.lastUsed != 0 then st.lastUsed else now)
    && (Usable(q) ==> 0.0 <= TokensAt(e.level, now) <= Max(0.0, kept + Refill(q.rate, gone)))
    && (Usable(q) && q.rate > 0.0 && gone <= MAX_DURATION && Span(q.rate, q.burst as real) < 9223372036854775808.0 ==>
          TokensAt(e.level, now) > Min(q.burst as real, kept + Refill(q.rate, gone)) - Refill(q.rate, 1))
  }

  /** e is as good as new. */
  ghost predicate StartsFull(e: Entry, q: Quota, now: int) {
    && e.level.quota == q && e.lastUsed == now
    && (Usable(q) ==> forall u :: TokensAt(e.level, u) == q.burst as real)
  }

  /** What a key's first entry holds. */
  lemma NewcomerHolds(id: nat, q: Quota, st: State, found: bool, now: int)
    ensures var e := Newcomer(id, q, st, found, now);
            e.id == id && if found then PicksUp(e, q, st, now) else StartsFull(e, q, now)
  {
    if Usable(q) {
      RestoreCredits(q, st.tokens, st.lastUsed, now);
      RestoreReads(q, st.tokens, st.lastUsed, now);
      forall u
        ensures TokensAt(Fresh(q), u) == q.burst as real
      {
        FreshIsFull(q, u);
      }
    }
  }

  type Shards = seq<map<Key, Entry>>

  /** Key holds state in memory. `home` is shardIndex: any assignment of keys to shards. */
  predicate Has(shards: Shards, home: Key -> nat, key: Key) {
    home(key) < |shards| && key in shards[home(key)]
  }

  function Find(shards: Shards, home: Key -> nat, key: Key): Entry
    requires Has(shards, home, key)
  {
    shards[home(key)][key]
  }

  /** Each key sits in the shard it hashes to. */
  predicate Placed(shards: Shards, home: Key -> nat) {
    forall i, key {:trigger key in shards[i]} :: 0 <= i < |shards| && key in shards[i] ==> home(key) == i
  }

  function Sizes(shards: Shards): seq<int> {
    seq(|shards|, i requires 0 <= i < |shards| => |shards[i]|)
  }

  /** Which entries a walk wants. */
  datatype Want = All | IdleSince(cutoff: int) {
    predicate Takes(e: Entry) {
      All? || e.lastUsed < cutoff
    }
  }

  function Picked(m: map<Key, Entry>, want: Want): set<Key> {
    set key | key in m && want.Takes(m[key])
  }

  /** The wanted keys of the first n shards. */
  function PickedUpTo(shards: Shards, n: nat, want: Want): set<Key>
    requires n <= |shards|
  {
    if n == 0 then {} else PickedUpTo(shards, n - 1, want) + Picked(shards[n - 1], want)
  }

  function Wanted(shards: Shards, want: Want): set<Key> {
    PickedUpTo(shards, |shards|, want)
  }

  function Population(shards: Shards): set<Key> {
    Wanted(shards, All)
  }

  /** The same map without the keys that are gone. */
  function Without(shards: Shards, gone: set<Key>): Shards {
    seq(|shards|, i requires 0 <= i < |shards| => shards[i] - gone)
  }

  function Put(shards: Shards, i: nat, key: Key, e: Entry): Shards
    requires i < |shards|
  {
    shards[i := shards[i][key := e]]
  }

  function Sum(live: seq<int>, n: nat): int
    requires n <= |live|
  {
    if n == 0 then 0 else Sum(live, n - 1) + live[n - 1]
  }

  lemma {:induction false} PickedUpToHas(shards: Shards, home: Key -> nat, n: nat, want: Want, key: Key)
    requires Placed(shards, home) && n <= |shards|
    ensures key in PickedUpTo(shards, n, want)
            <==> Has(shards, home, key) && home(key) < n && want.Takes(Find(shards, home, key))
    decreases n
  {
    if n > 0 {
      PickedUpToHas(shards, home, n - 1, want, key);
    }
  }

  lemma NextShardIsNew(shards: Shards, home: Key -> nat, n: nat, want: Want)
    requires Placed(shards, home) && n < |shards|
    ensures PickedUpTo(shards, n, want) !! Picked(shards[n], want)
  {
    forall key | key in PickedUpTo(shards, n, want)
      ensures key !in Picked(shards[n], want)
    {
      PickedUpToHas(shards, home, n, want, key);
    }
  }

  lemma AllOfAShard(m: map<Key, Entry>)
    ensures Picked(m, All) == m.Keys && |Picked(m, All)| == |m|
  {
  }

  lemma NextKeys(shards: Shards, home: Key -> nat, n: nat)
    requires Placed(shards, home) && n < |shards|
    ensures PickedUpTo(shards, n + 1, All) == PickedUpTo(shards, n, All) + shards[n].Keys
    ensures PickedUpTo(shards, n, All) !! shards[n].Keys
  {
    NextShardIsNew(shards, home, n, All);
    AllOfAShard(shards[n]);
  }

  lemma DisjointSize(a: set<Key>, b: set<Key>)
    requires a !! b
    ensures |a + b| == |a| + |b|
  {
  }

  lemma NextSize(shards: Shards, home: Key -> nat, n: nat)
    requires Placed(shards, home) && 0 < n <= |shards|
    ensures |PickedUpTo(shards, n, All)| == |PickedUpTo(shards, n - 1, All)| + |shards[n - 1]|
  {
    NextShardIsNew(shards, home, n - 1, All);
    AllOfAShard(shards[n - 1]);
    DisjointSize(PickedUpTo(shards, n - 1, All), Picked(shards[n - 1], All));
  }

  lemma SumNext(shards: Shards, n: nat)
    requires 0 < n <= |shards|
    ensures Sum(Sizes(shards), n) == Sum(Sizes(shards), n - 1) + |shards[n - 1]|
  {
  }

  /** Registry.Keys adds up to the population. */
  lemma {:induction false} SumIsSize(shards: Shards, home: Key -> nat, n: nat)
    requires Placed(shards, home) && n <= |shards|
    ensures Sum(Sizes(shards), n) == |PickedUpTo(shards, n, All)|
    decreases n
  {
    if n > 0 {
      SumIsSize(shards, home, n - 1);
      NextSize(shards, home, n);
      SumNext(shards, n);
    }
  }

  lemma {:induction false} EmptyUpTo(shards: Shards, n: nat, want: Want)
    requires n <= |shards| && forall i :: 0 <= i < n ==> shards[i] == map[]
    ensures PickedUpTo(shards, n, want) == {}
    decreases n
  {
    if n > 0 {
      EmptyUpTo(shards, n - 1, want);
    }
  }

  lemma TakeIsWithout(shards: Shards, home: Key -> nat, key: Key)
    requires Placed(shards, home) && home(key) < |shards|
    ensures shards[home(key) := shards[home(key)] - {key}] == Without(shards, {key})
    ensures Placed(Without(shards, {key}), home)
  {
    forall i | 0 <= i < |shards| && i != home(key)
      ensures shards[i] == shards[i] - {key}
    {
      assert key !in shards[i];
    }
  }

  lemma TakeSize(m: map<Key, Entry>, key: Key)
    ensures |m - {key}| == |m| - if key in m then 1 else 0
  {
    assert (m - {key}).Keys == m.Keys - {key};
  }

  lemma PutSize(m: map<Key, Entry>, key: Key, e: Entry)
    requires key !in m
    ensures |m[key := e]| == |m| + 1
  {
    assert m[key := e].Keys == m.Keys + {key};
  }

  lemma WithoutNothing(shards: Shards)
    ensures Without(shards, {}) == shards
  {
    forall i | 0 <= i < |shards|
      ensures Without(shards, {})[i] == shards[i]
    {
      assert shards[i] - {} == shards[i];
    }
  }

  lemma WithoutTwice(shards: Shards, a: set<Key>, b: set<Key>)
    ensures Without(Without(shards, a), b) == Without(shards, a + b)
  {
    forall i | 0 <= i < |shards|
      ensures Without(Without(shards, a), b)[i] == Without(shards, a + b)[i]
    {
      assert shards[i] - a - b == shards[i] - (a + b);
    }
  }

  /** Visiting one more key of a walk. */
  lemma WalkNext(picked: set<Key>, rest: set<Key>, key: Key)
    requires key in rest
    ensures key in picked ==> picked - (rest - {key}) == picked - rest + {key} && key !in picked - rest
    ensures key !in picked ==> picked - (rest - {key}) == picked - rest
  {
  }

  // -------------------------------------------------------------- what a sweep may take

  /** Exactly the keys last used before the cutoff are gone, and the others have the entry
      they had. */
  ghost predicate IdleGone(before: Shards, after: Shards, home: Key -> nat, cutoff: int) {
    forall key {:trigger Has(after, home, key)} ::
      && (Has(after, home, key) <==> Has(before, home, key) && Find(before, home, key).lastUsed >= cutoff)
      && (Has(after, home, key) ==> Find(after, home, key) == Find(before, home, key))
  }

  /** Of what the others left exactly those keys are gone that were last used before the
      cutoff when the sweep saw them and still have the entry it saw, not touched since. */
  ghost predicate UntouchedGone(seen: Shards, left: Shards, after: Shards, home: Key -> nat, cutoff: int) {
    forall key {:trigger Has(after, home, key)} ::
      && (Has(after, home, key) <==>
            Has(left, home, key)
            && !(Has(seen, home, key) && Find(seen, home, key).lastUsed < cutoff
                 && Find(left, home, key).id == Find(seen, home, key).id
                 && Find(left, home, key).lastUsed == Find(seen, home, key).lastUsed))
      && (Has(after, home, key) ==> Find(after, home, key) == Find(left, home, key))
  }

  lemma WithoutHas(shards: Shards, home: Key -> nat, gone: set<Key>, key: Key)
    ensures Has(Without(shards, gone), home, key) <==> Has(shards, home, key) && key !in gone
    ensures Has(Without(shards, gone), home, key) ==>
              Find(Without(shards, gone), home, key) == Find(shards, home, key)
  {
  }

  /** Every key but this one has the entry it had, or none as before. */
  ghost predicate SameBut(before: Shards, after: Shards, home: Key -> nat, key: Key) {
    forall k {:trigger Has(after, home, k)} :: k != key ==>
      && (Has(after, home, k) <==> Has(before, home, k))
      && (Has(after, home, k) ==> Find(after, home, k) == Find(before, home, k))
  }

  lemma PutIsOne(shards: Shards, home: Key -> nat, key: Key, e: Entry)
    requires home(key) < |shards|
    ensures SameBut(shards, Put(shards, home(key), key, e), home, key)
  {
  }

  lemma WithoutIsOne(shards: Shards, home: Key -> nat, key: Key)
    ensures SameBut(shards, Without(shards, {key}), home, key) && !Has(Without(shards, {key}), home, key)
  {
    forall k | k != key
      ensures Has(Without(shards, {key}), home, k) <==> Has(shards, home, k)
      ensures Has(shards, home, k) ==> Find(Without(shards, {key}), home, k) == Find(shards, home, k)
    {
      WithoutHas(shards, home, {key}, k);
    }
  }

  /** The population is every key on the map. */
  lemma EveryKeyCounts(shards: Shards, home: Key -> nat, key: Key)
    requires Placed(shards, home)
    ensures key in Population(shards) <==> Has(shards, home, key)
  {
    PickedUpToHas(shards, home, |shards|, All, key);
  }

  lemma SweptIdle(shards: Shards, home: Key -> nat, cutoff: int)
    requires Placed(shards, home)
    ensures IdleGone(shards, Without(shards, Wanted(shards, IdleSince(cutoff))), home, cutoff)
  {
    var gone := Wanted(shards, IdleSince(cutoff));
    forall key
      ensures Has(Without(shards, gone), home, key)
              <==> Has(shards, home, key) && Find(shards, home, key).lastUsed >= cutoff
      ensures Has(Without(shards, gone), home, key) ==>
                Find(Without(shards, gone), home, key) == Find(shards, home, key)
    {
      PickedUpToHas(shards, home, |shards|, IdleSince(cutoff), key);
      WithoutHas(shards, home, gone, key);
    }
  }

  lemma SweptUntouched(expired: seq<Seen>, seen: Shards, left: Shards, home: Key -> nat, cutoff: int, now: int)
    requires Placed(seen, home) && Lists(expired, Wanted(seen, IdleSince(cutoff)), seen, home, now)
    ensures UntouchedGone(seen, left, Without(left, Unmoved(expired, left, home)), home, cutoff)
  {
    var gone := Unmoved(expired, left, home);
    var idle := Wanted(seen, IdleSince(cutoff));
    OnceNames(expired, idle);
    forall key
      ensures Has(Without(left, gone), home, key) <==>
                Has(left, home, key)
                && !(Has(seen, home, key) && Find(seen, home, key).lastUsed < cutoff
                     && Find(left, home, key).id == Find(seen, home, key).id
                     && Find(left, home, key).lastUsed == Find(seen, home, key).lastUsed)
      ensures Has(Without(left, gone), home, key) ==>
                Find(Without(left, gone), home, key) == Find(left, home, key)
    {
      PickedUpToHas(seen, home, |seen|, IdleSince(cutoff), key);
      UnmovedKeys(expired, left, home, key);
      WithoutHas(left, home, gone, key);
      if key in idle {
        var k :| 0 <= k < |expired| && Names(expired)[k] == key;
        assert expired[k].snap.key == key && Shows(expired[k], seen, home, now);
      }
    }
  }

  // -------------------------------------------------------- listing keys exactly once

  /** expiredEntry: the entry met on a walk, where, and what it held. */
  datatype Seen = Seen(id: nat, shard: nat, snap: Snapshot)

  function Snaps(seen: seq<Seen>): seq<Snapshot> {
    seq(|seen|, i requires 0 <= i < |seen| => seen[i].snap)
  }

  function Names(seen: seq<Seen>): seq<Key> {
    seq(|seen|, i requires 0 <= i < |seen| => seen[i].snap.key)
  }

  /** The list names every one of the keys, exactly once each. */
  ghost predicate Once(seen: seq<Seen>, keys: set<Key>) {
    multiset(Names(seen)) == multiset(keys)
  }

  /** x is what a walk at `now` finds under its key. */
  predicate Shows(x: Seen, shards: Shards, home: Key -> nat, now: int) {
    && Has(shards, home, x.snap.key) && x.shard == home(x.snap.key)
    && var e := Find(shards, home, x.snap.key);
       x.id == e.id && x.snap.tokens == TokensAt(e.level, now) && x.snap.lastUsed == e.lastUsed
  }

  /** The list is the wanted part of the map, each key once, as it was at `now`. */
  ghost predicate Lists(seen: seq<Seen>, keys: set<Key>, shards: Shards, home: Key -> nat, now: int) {
    Once(seen, keys) && forall k :: 0 <= k < |seen| ==> Shows(seen[k], shards, home, now)
  }

  lemma ListsNothing(shards: Shards, home: Key -> nat, now: int)
    ensures Lists([], {}, shards, home, now)
  {
  }

  lemma OnceGrows(seen: seq<Seen>, keys: set<Key>, x: Seen)
    requires Once(seen, keys) && x.snap.key !in keys
    ensures Once(seen + [x], keys + {x.snap.key})
  {
    assert Names(seen + [x]) == Names(seen) + [x.snap.key];
    assert multiset(keys + {x.snap.key}) == multiset(keys) + multiset{x.snap.key};
  }

  lemma OnceJoins(a: seq<Seen>, ka: set<Key>, b: seq<Seen>, kb: set<Key>)
    requires Once(a, ka) && Once(b, kb) && ka !! kb
    ensures Once(a + b, ka + kb)
  {
    assert Names(a + b) == Names(a) + Names(b);
    assert multiset(ka + kb) == multiset(ka) + multiset(kb);
  }

  lemma OnceNames(seen: seq<Seen>, keys: set<Key>)
    requires Once(seen, keys)
    ensures |seen| == |keys|
    ensures forall k :: 0 <= k < |seen| ==> seen[k].snap.key in keys
    ensures forall key :: key in keys ==> key in Names(seen)
    ensures forall i, j :: 0 <= i < j < |seen| ==> seen[i].snap.key != seen[j].snap.key
  {
    var names := Names(seen);
    assert |multiset(names)| == |names| && |multiset(keys)| == |keys|;
    forall key
      ensures key in keys <==> key in names
    {
      assert key in multiset(names) <==> key in multiset(keys);
    }
    forall k | 0 <= k < |seen|
      ensures seen[k].snap.key in keys
    {
      assert names[k] in names;
    }
    forall i, j | 0 <= i < j < |seen|
      ensures seen[i].snap.key != seen[j].snap.key
    {
      TwiceCounts(names, i, j);
      assert names[i] == seen[i].snap.key && names[j] == seen[j].snap.key;
    }
  }

  lemma TwiceCounts(names: seq<Key>, i: nat, j: nat)
    requires i < j < |names|
    ensures names[i] == names[j] ==> multiset(names)[names[i]] >= 2
  {
    assert names == names[..j] + [names[j]] + names[j + 1..];
    assert names[..j][i] in multiset(names[..j]);
  }

  /** One more shard walked. */
  lemma ListsMore(seen: seq<Seen>, part: seq<Seen>, shards: Shards, home: Key -> nat, i: nat, want: Want, now: int)
    requires Placed(shards, home) && i < |shards|
    requires Lists(seen, PickedUpTo(shards, i, want), shards, home, now)
    requires Lists(part, Picked(shards[i], want), shards, home, now)
    ensures Lists(seen + part, PickedUpTo(shards, i + 1, want), shards, home, now)
  {
    NextShardIsNew(shards, home, i, want);
    OnceJoins(seen, PickedUpTo(shards, i, want), part, Picked(shards[i], want));
  }

  /** The first n shards are empty, the rest as they were. */
  predicate HalfCleared(shards: Shards, before: Shards, n: nat) {
    && |shards| == |before| && n <= |shards|
    && forall k :: 0 <= k < |shards| ==> shards[k] == if k < n then map[] else before[k]
  }

  /** What is listed of one shard depends on that shard alone. */
  lemma SameShardLists(part: seq<Seen>, shards: Shards, before: Shards, home: Key -> nat, i: nat, want: Want, now: int)
    requires Placed(shards, home) && i < |shards| == |before| && shards[i] == before[i]
    requires Lists(part, Picked(shards[i], want), shards, home, now)
    ensures Lists(part, Picked(before[i], want), before, home, now)
  {
    OnceNames(part, Picked(shards[i], want));
    forall k | 0 <= k < |part|
      ensures Shows(part[k], before, home, now)
    {
      assert Shows(part[k], shards, home, now) && part[k].snap.key in shards[i];
    }
  }

  /** How far a walk of every shard is: `count` wanted keys met, and listed when asked. */
  ghost predicate Dropped(dropped: seq<Seen>, count: int, before: Shards, home: Key -> nat, i: nat, want: Want,
                          listed: bool, now: int)
    requires i <= |before|
  {
    && count == |PickedUpTo(before, i, want)|
    && if listed then Lists(dropped, PickedUpTo(before, i, want), before, home, now) && |dropped| == count
       else dropped == []
  }

  lemma DroppedMore(dropped: seq<Seen>, count: int, part: seq<Seen>, half: Shards, before: Shards, home: Key -> nat,
                    i: nat, want: Want, listed: bool, now: int)
    requires Placed(before, home) && Placed(half, home) && i < |before| == |half| && half[i] == before[i]
    requires Dropped(dropped, count, before, home, i, want, listed, now)
    requires if listed then Lists(part, Picked(half[i], want), half, home, now) else part == []
    ensures Dropped(dropped + part, count + |Picked(before[i], want)|, before, home, i + 1, want, listed, now)
  {
    NextShardIsNew(before, home, i, want);
    DisjointSize(PickedUpTo(before, i, want), Picked(before[i], want));
    if listed {
      SameShardLists(part, half, before, home, i, want, now);
      ListsMore(dropped, part, before, home, i, want, now);
      OnceNames(part, Picked(before[i], want));
    }
  }

  /** From `from` on, what the owner was told is what the entries on the map held at `now`. */
  ghost predicate Tells(told: seq<Eviction>, from: nat, reason: Reason, shards: Shards, home: Key -> nat, now: int) {
    from <= |told| && forall i :: from <= i < |told| ==>
      && told[i].reason == reason && Has(shards, home, told[i].snap.key)
      && told[i].snap.tokens == TokensAt(Find(shards, home, told[i].snap.key).level, now)
      && told[i].snap.lastUsed == Find(shards, home, told[i].snap.key).lastUsed
  }

  lemma ReportsTell(told: seq<Eviction>, seen: seq<Seen>, reason: Reason, shards: Shards, home: Key -> nat, now: int)
    requires forall k :: 0 <= k < |seen| ==> Shows(seen[k], shards, home, now)
    ensures Tells(told + Reports(seen, reason), |told|, reason, shards, home, now)
  {
    var all := told + Reports(seen, reason);
    forall i | |told| <= i < |all|
      ensures all[i].reason == reason && all[i].snap == seen[i - |told|].snap
      ensures Shows(seen[i - |told|], shards, home, now)
    {
    }
  }

  function Reports(seen: seq<Seen>, reason: Reason): seq<Eviction> {
    seq(|seen|, i requires 0 <= i < |seen| => Eviction(reason, seen[i].snap))
  }

  lemma ReportsJoin(told: seq<Eviction>, a: seq<Seen>, b: seq<Seen>, reason: Reason)
    ensures told + Reports(a + b, reason) == told + Reports(a, reason) + Reports(b, reason)
  {
  }

  lemma NextShardKept(half: Shards, before: Shards, home: Key -> nat, i: nat, want: Want)
    requires Placed(before, home) && i < |before| && half == Without(before, PickedUpTo(before, i, want))
    ensures half[i] == before[i]
    ensures Without(half, Picked(before[i], want)) == Without(before, PickedUpTo(before, i + 1, want))
  {
    forall key | key in before[i]
      ensures key !in PickedUpTo(before, i, want)
    {
      PickedUpToHas(before, home, i, want, key);
    }
    WithoutTwice(before, PickedUpTo(before, i, want), Picked(before[i], want));
  }

  /** Phase 3's guard: the key still maps to the entry seen, with the stamp it had. */
  predicate Still(x: Seen, shards: Shards, home: Key -> nat) {
    && Has(shards, home, x.snap.key) && Find(shards, home, x.snap.key).id == x.id
    && Find(shards, home, x.snap.key).lastUsed == x.snap.lastUsed
  }

  function Remaining(seen: seq<Seen>, shards: Shards, home: Key -> nat): seq<Seen> {
    if seen == [] then []
    else
      var x := seen[|seen| - 1];
      var init := Remaining(seen[..|seen| - 1], shards, home);
      if Still(x, shards, home) then init + [x] else init
  }

  function Unmoved(seen: seq<Seen>, shards: Shards, home: Key -> nat): set<Key> {
    if seen == [] then {}
    else
      var x := seen[|seen| - 1];
      var init := Unmoved(seen[..|seen| - 1], shards, home);
      if Still(x, shards, home) then init + {x.snap.key} else init
  }

  /** The keys sweeping deletes are those seen that stayed as they were seen. */
  lemma {:induction false} UnmovedKeys(seen: seq<Seen>, shards: Shards, home: Key -> nat, key: Key)
    ensures key in Unmoved(seen, shards, home)
            <==> exists k :: 0 <= k < |seen| && seen[k].snap.key == key && Still(seen[k], shards, home)
    decreases |seen|
  {
    if seen != [] {
      var last := |seen| - 1;
      UnmovedKeys(seen[..last], shards, home, key);
      if k :| 0 <= k < last && seen[..last][k].snap.key == key && Still(seen[..last][k], shards, home) {
        assert seen[k] == seen[..last][k];
      }
      if k :| 0 <= k < last && seen[k].snap.key == key && Still(seen[k], shards, home) {
        assert seen[k] == seen[..last][k];
      }
    }
  }

  lemma {:induction false} RemainingShow(seen: seq<Seen>, left: Shards, shards: Shards, home: Key -> nat, now: int)
    requires forall k :: 0 <= k < |seen| ==> Shows(seen[k], shards, home, now)
    ensures forall k :: 0 <= k < |Remaining(seen, left, home)| ==>
              Shows(Remaining(seen, left, home)[k], shards, home, now)
    decreases |seen|
  {
    if seen != [] {
      RemainingShow(seen[..|seen| - 1], left, shards, home, now);
    }
  }

  /** What a persisting sweep comes to: with nobody idle nothing is touched, and otherwise the
      idle ones go that were not used again, and the owner is told what they held. */
  ghost predicate Swept(before: Shards, left: Shards, after: Shards, told: seq<Eviction>, from: nat, nobody: bool,
                        home: Key -> nat, cutoff: int, now: int) {
    if nobody then after == before && IdleGone(before, after, home, cutoff)
    else UntouchedGone(before, left, after, home, cutoff) && Tells(told, from, Idle, before, home, now)
  }

  lemma SweptAsSeen(expired: seq<Seen>, before: Shards, left: Shards, told: seq<Eviction>, home: Key -> nat,
                    cutoff: int, now: int)
    requires Placed(before, home) && Lists(expired, Wanted(before, IdleSince(cutoff)), before, home, now)
    ensures expired == [] ==> Swept(before, left, before, told, |told|, true, home, cutoff, now)
    ensures Swept(before, left, Without(left, Unmoved(expired, left, home)),
                  told + Reports(Remaining(expired, left, home), Idle), |told|, false, home, cutoff, now)
  {
    SweptUntouched(expired, before, left, home, cutoff, now);
    RemainingShow(expired, left, before, home, now);
    ReportsTell(told, Remaining(expired, left, home), Idle, before, home, now);
    if expired == [] {
      SweptIdle(before, home, cutoff);
      WithoutNothing(before);
      OnceNames(expired, Wanted(before, IdleSince(cutoff)));
    }
  }

  lemma {:induction false} RemainingOnce(seen: seq<Seen>, keys: set<Key>, shards: Shards, home: Key -> nat)
    requires Once(seen, keys)
    ensures Once(Remaining(seen, shards, home), Unmoved(seen, shards, home))
    decreases |seen|
  {
    if seen != [] {
      var last := |seen| - 1;
      OnceButLast(seen, keys);
      RemainingOnce(seen[..last], keys - {seen[last].snap.key}, shards, home);
      NotAmong(seen, keys, shards, home, last);
      OnceGrows(Remaining(seen[..last], shards, home), Unmoved(seen[..last], shards, home), seen[last]);
    }
  }

  lemma OnceButLast(seen: seq<Seen>, keys: set<Key>)
    requires Once(seen, keys) && seen != []
    ensures Once(seen[..|seen| - 1], keys - {seen[|seen| - 1].snap.key})
  {
    var last := |seen| - 1;
    var key := seen[last].snap.key;
    OnceNames(seen, keys);
    assert Names(seen) == Names(seen[..last]) + [key];
    assert multiset(keys - {key}) == multiset(keys) - multiset{key};
  }

  lemma NotAmong(seen: seq<Seen>, keys: set<Key>, shards: Shards, home: Key -> nat, k: nat)
    requires Once(seen, keys) && k < |seen|
    ensures seen[k].snap.key !in Unmoved(seen[..k], shards, home)
  {
    OnceNames(seen, keys);
    UnmovedKeys(seen[..k], shards, home, seen[k].snap.key);
  }

  lemma OneMoreDeleted(seen: seq<Seen>, keys: set<Key>, before: Shards, home: Key -> nat, k: nat)
    requires Once(seen, keys) && k < |seen|
    ensures var half := Without(before, Unmoved(seen[..k], before, home));
            && (Still(seen[k], half, home) <==> Still(seen[k], before, home))
            && Unmoved(seen[..k + 1], before, home) == (if Still(seen[k], before, home)
                 then Unmoved(seen[..k], before, home) + {seen[k].snap.key} else Unmoved(seen[..k], before, home))
            && Remaining(seen[..k + 1], before, home) == (if Still(seen[k], before, home)
                 then Remaining(seen[..k], before, home) + [seen[k]] else Remaining(seen[..k], before, home))
            && Without(half, {seen[k].snap.key})
               == Without(before, Unmoved(seen[..k], before, home) + {seen[k].snap.key})
  {
    NotAmong(seen, keys, before, home, k);
    assert seen[..k + 1][..k] == seen[..k];
    WithoutTwice(before, Unmoved(seen[..k], before, home), {seen[k].snap.key});
  }

  // ---------------------------------------------------------------- quota changes

  /** The quota each key is given, and the clock whose n-th reading `nth` says is its. */
  datatype Terms = Terms(quotaFor: Key -> Quota, clock: int -> int) {
    function Renew(key: Key, e: Entry, n: int): Entry {
      e.(level := Requota(e.level, clock(n), quotaFor(key)))
    }
  }

  /** The map with the quotas of some keys renewed, and nothing else changed. */
  function Reloaded(shards: Shards, nth: map<Key, int>, terms: Terms): Shards {
    seq(|shards|, i requires 0 <= i < |shards| =>
      map key | key in shards[i] :: if key in nth then terms.Renew(key, shards[i][key], nth[key]) else shards[i][key])
  }

  lemma ReloadedNothing(shards: Shards, terms: Terms)
    ensures Reloaded(shards, map[], terms) == shards
  {
    forall i | 0 <= i < |shards|
      ensures Reloaded(shards, map[], terms)[i] == shards[i]
    {
    }
  }

  lemma ReloadedNext(shards: Shards, home: Key -> nat, nth: map<Key, int>, terms: Terms, key: Key, n: int)
    requires Placed(shards, home) && Has(shards, home, key) && key !in nth
    ensures var half := Reloaded(shards, nth, terms);
            && Has(half, home, key) && Find(half, home, key) == Find(shards, home, key)
            && Put(half, home(key), key, terms.Renew(key, Find(shards, home, key), n))
               == Reloaded(shards, nth[key := n], terms)
  {
    var half := Reloaded(shards, nth, terms);
    var full := Reloaded(shards, nth[key := n], terms);
    forall i | 0 <= i < |shards|
      ensures Put(half, home(key), key, terms.Renew(key, Find(shards, home, key), n))[i] == full[i]
    {
      assert i != home(key) ==> key !in shards[i];
    }
  }

  function NameSet(seen: seq<Seen>): set<Key> {
    set k | 0 <= k < |seen| :: seen[k].snap.key
  }

  /** The keys renewed once k of a shard's batch are, `base` having been before. */
  function DoneAfter(base: set<Key>, batch: seq<Seen>, k: nat): set<Key>
    requires k <= |batch|
  {
    base + NameSet(batch[..k])
  }

  lemma BatchStarts(base: set<Key>, batch: seq<Seen>)
    ensures DoneAfter(base, batch, 0) == base
  {
  }

  lemma BatchNext(base: set<Key>, batch: seq<Seen>, keys: set<Key>, k: nat)
    requires Once(batch, keys) && base !! keys && k < |batch|
    ensures batch[k].snap.key in keys && batch[k].snap.key !in DoneAfter(base, batch, k)
    ensures DoneAfter(base, batch, k + 1) == DoneAfter(base, batch, k) + {batch[k].snap.key}
  {
    OnceNames(batch, keys);
  }

  lemma BatchEnds(base: set<Key>, batch: seq<Seen>, keys: set<Key>)
    requires Once(batch, keys)
    ensures DoneAfter(base, batch, |batch|) == base + keys
  {
    OnceNames(batch, keys);
    assert batch[..|batch|] == batch;
    forall key
      ensures key in NameSet(batch) <==> key in keys
    {
      if key in keys {
        var k :| 0 <= k < |batch| && Names(batch)[k] == key;
        assert batch[k].snap.key == key;
      }
    }
  }

  /** A reload keeps every key, its identity and its stamp, and of its tokens all that fit
      under the new ceiling. */
  lemma ReloadKeepsTokens(shards: Shards, home: Key -> nat, nth: map<Key, int>, terms: Terms, key: Key)
    requires Placed(shards, home) && nth.Keys == Population(shards)
    ensures var after := Reloaded(shards, nth, terms);
            && (Has(after, home, key) <==> Has(shards, home, key))
            && (Has(shards, home, key) ==>
                  && key in nth
                  && var was, now, q := Find(shards, home, key), Find(after, home, key), terms.quotaFor(key);
                  && now.id == was.id && now.lastUsed == was.lastUsed && now.level.quota == q
                  && TokensAt(now.level, terms.clock(nth[key]))
                     == Min(q.burst as real, TokensAt(was.level, terms.clock(nth[key]))))
  {
    PickedUpToHas(shards, home, |shards|, All, key);
    if Has(shards, home, key) {
      RequotaKeepsTokens(Find(shards, home, key).level, terms.clock(nth[key]), terms.quotaFor(key));
    }
  }

  /** A persisting sweep that nobody interferes with deletes exactly what an in-place
      sweep deletes. */
  lemma SweepsAgree(expired: seq<Seen>, keys: set<Key>, shards: Shards, home: Key -> nat, now: int)
    requires Lists(expired, keys, shards, home, now)
    ensures Unmoved(expired, shards, home) == keys
  {
    OnceNames(expired, keys);
    forall key
      ensures key in Unmoved(expired, shards, home) <==> key in keys
    {
      UnmovedKeys(expired, shards, home, key);
      if key in keys {
        var k :| 0 <= k < |expired| && Names(expired)[k] == key;
        assert Shows(expired[k], shards, home, now) && Still(expired[k], shards, home);
      }
    }
  }

  // ------------------------------------------------------------------- the registry

  class Registry {
    const home: Key -> nat
    const state: Persistence            // behind Persists, Load, Save and Flush
    const quotaFor: Key -> Quota
    const idleExpiry: int
    var observed: bool                  // Observes
    var shards: Shards
    var live: seq<int>
    var evictions: int
    var nextId: nat
    var told: seq<Eviction>             // every OnEvict call so far
    var locked: bool                    // a shard lock is held
    const clock: int -> int             // what Now answers, reading by reading
    var readings: nat                   // how often it was read,
    var breaches: nat                   // ... and how often with a shard lock held

    predicate Good()
      reads this
    {
      Placed(shards, home) && live == Sizes(shards)
    }

    ghost predicate Valid()
      reads this
    {
      !locked && Good() && forall key :: home(key) < |shards|
    }

    constructor (n: nat, home: Key -> nat, state: Persistence, quotaFor: Key -> Quota, clock: int -> int,
                 idleExpiry: int, observed: bool)
      requires forall key :: home(key) < n
      ensures Valid() && Population(shards) == {} && |shards| == n && evictions == 0 && told == []
      ensures this.home == home && this.state == state && this.quotaFor == quotaFor && this.clock == clock
      ensures this.idleExpiry == idleExpiry && this.observed == observed && readings == breaches == 0
    {
      this.home, this.state, this.quotaFor, this.clock := home, state, quotaFor, clock;
      readings, breaches := 0, 0;
      this.idleExpiry, this.observed := idleExpiry, observed;
      shards := seq(n, i => map[]);
      live := seq(n, i => 0);
      evictions, nextId, told, locked := 0, 0, [], false;
      new;
      EmptyUpTo(shards, n, All);
    }

    // The owner's side. None of it may run with a shard held shut, but for Now, which keeps
    // a record of when it did.

    method Now() returns (now: int)
      modifies this`readings, this`breaches
      ensures now == clock(old(readings)) && readings == old(readings) + 1
      ensures breaches == old(breaches) + if locked then 1 else 0
    {
      now := clock(readings);
      readings := readings + 1;
      if locked {
        breaches := breaches + 1;
      }
    }

    method Load(key: Key, reachable: bool) returns (st: State, found: bool)
      requires !locked && state.Persists()
      modifies state`warnings
      ensures found <==> reachable && key in state.store.saved
      ensures st == if found then state.store.saved[key] else UNSAVED
    {
      st, found := state.Load(key, reachable);
    }

    method Save(sn: Snapshot) returns (ok: bool)
      requires !locked && state.Persists()
      modifies state.store
      ensures ok <==> state.store.replies(old(state.Calls())).Accepts(1)
      ensures state.store.saved == if state.store.replies(old(state.Calls())).took(0)
        then old(state.store.saved)[sn.key := sn.ToState()] else old(state.store.saved)
    {
      ok := state.Save(sn);
    }

    method Flush(snaps: seq<Snapshot>)
      requires !locked && state.Persists()
      modifies state`warnings, state.store
      ensures old(state.store.calls) <= state.store.calls
      ensures var made := state.store.calls[|old(state.store.calls)|..];
        && Joined(made) == snaps
        && state.store.saved == SavedBy(old(state.store.saved), state.store.replies, |old(state.store.calls)|, made)
    {
      state.Flush(snaps);
    }

    method QuotaFor(key: Key) returns (q: Quota)
      requires !locked
      ensures q == quotaFor(key)
    {
      q := quotaFor(key);
    }

    method OnEvict(e: Eviction)
      requires !locked
      modifies this`told
      ensures told == old(told) + [e]
    {
      told := told + [e];
    }

    method Lock()
      requires !locked
      modifies this`locked
      ensures locked
    {
      locked := true;
    }

    method Unlock()
      requires locked
      modifies this`locked
      ensures !locked
    {
      locked := false;
    }

    /** Everyone else, running while this call holds no lock: they leave any population. */
    method Others(left: Shards)
      requires Valid() && |left| == |shards| && Placed(left, home)
      modifies this`shards, this`live
      ensures Valid() && shards == left
    {
      shards, live := left, Sizes(left);
    }

    // ------------------------------------------------------------------- one key

    /** newEntry: full, or restored from what was saved. It reads the owner's clock under the
        shard lock. */
    method NewEntry(q: Quota, st: State, found: bool) returns (e: Entry)
      requires locked
      modifies this`nextId, this`readings, this`breaches
      ensures e == Newcomer(old(nextId), q, st, found, clock(old(readings)))
      ensures if found then PicksUp(e, q, st, clock(old(readings))) else StartsFull(e, q, clock(old(readings)))
      ensures nextId == old(nextId) + 1 && readings == old(readings) + 1 && breaches == old(breaches) + 1
    {
      var now := Now();
      NewcomerHolds(nextId, q, st, found, now);
      var level := Fresh(q);
      var stamp := 0;
      if found {
        level := Restored(q, st.tokens, st.lastUsed, now);
        stamp := st.lastUsed;
      }
      if stamp == 0 {
        stamp := now;
      }
      e := Entry(nextId, level, stamp);
      nextId := nextId + 1;
    }

    method Insert(key: Key, e: Entry)
      requires locked && Good() && home(key) < |shards| && key !in shards[home(key)]
      modifies this`shards, this`live
      ensures Good() && shards == Put(old(shards), home(key), key, e)
    {
      var i := home(key);
      PutSize(shards[i], key, e);
      shards := shards[i := shards[i][key := e]];
      live := live[i := live[i] + 1];
    }

    /** delete(sh.keys, key), and the counter beside it. */
    method Delete(key: Key)
      requires locked && Good() && home(key) < |shards| && key in shards[home(key)]
      modifies this`shards, this`live
      ensures Good() && shards == Without(old(shards), {key})
    {
      var i := home(key);
      TakeSize(shards[i], key);
      TakeIsWithout(shards, home, key);
      shards := shards[i := shards[i] - {key}];
      live := live[i := live[i] - 1];
    }

    /** The entry on the map wins: one that was there, or one somebody else put there while
        the store and the quota were asked, in which case the answer is thrown away. The
        owner's clock is read under the shard lock exactly when the key is absent at both
        looks, once. */
    method GetOrCreate(key: Key, reachable: bool, left: Shards) returns (e: Entry)
      requires Valid() && |left| == |shards| && Placed(left, home)
      modifies this`locked, this`shards, this`live, this`nextId, this`readings, this`breaches, state`warnings
      ensures Valid() && Has(shards, home, key) && e == Find(shards, home, key)
      ensures old(Has(shards, home, key)) ==> shards == old(shards)
      ensures !old(Has(shards, home, key)) && Has(left, home, key) ==> shards == left
      ensures !old(Has(shards, home, key)) && !Has(left, home, key) ==>
        var now := clock(old(readings));
        && shards == Put(left, home(key), key, e) && e.id == old(nextId) && SameBut(left, shards, home, key)
        && if state.Persists() && reachable && key in state.store.saved
           then PicksUp(e, quotaFor(key), state.store.saved[key], now)
                && e == Newcomer(old(nextId), quotaFor(key), state.store.saved[key], true, now)
           else StartsFull(e, quotaFor(key), now)
      ensures breaches == old(breaches) + if !old(Has(shards, home, key)) && !Has(left, home, key) then 1 else 0
      ensures readings - old(readings) == breaches - old(breaches)
    {
      Lock();
      if key in shards[home(key)] {
        e := shards[home(key)][key];
        Unlock();
        return;
      }
      Unlock();
      var st, found := UNSAVED, false;
      if state.Persists() {
        st, found := Load(key, reachable);
      }
      var q := QuotaFor(key);
      Others(left);
      Lock();
      if key in shards[home(key)] {
        e := shards[home(key)][key];
        Unlock();
        return;
      }
      e := NewEntry(q, st, found);
      PutIsOne(shards, home, key, e);
      Insert(key, e);
      Unlock();
    }

    method Report(e: Eviction)
      requires !locked
      modifies this`evictions, this`told
      ensures evictions == old(evictions) + 1 && told == old(told) + [e]
    {
      evictions := evictions + 1;
      OnEvict(e);
    }

    method ReportAll(seen: seq<Seen>, reason: Reason)
      requires !locked
      modifies this`evictions, this`told
      ensures evictions == old(evictions) + |seen| && told == old(told) + Reports(seen, reason)
    {
      for i := 0 to |seen|
        invariant evictions == old(evictions) + i
        invariant told == old(told) + Reports(seen[..i], reason)
      {
        Report(Eviction(reason, seen[i].snap));
        assert Reports(seen[..i], reason) + [Eviction(reason, seen[i].snap)] == Reports(seen[..i + 1], reason);
      }
      assert seen[..|seen|] == seen;
    }

    /** Deletes first and saves after: a save that fails loses the key's state, unless it was
        written even so, and is returned as an error, not reported as an eviction. */
    method Evict(key: Key) returns (had: bool, ok: bool)
      requires Valid()
      modifies this`locked, this`shards, this`live, this`evictions, this`told, this`readings, this`breaches, state.store
      ensures Valid() && had == old(Has(shards, home, key)) && shards == Without(old(shards), {key})
      ensures SameBut(old(shards), shards, home, key) && !Has(shards, home, key)
      ensures ok <==> had && state.Persists() ==> state.store.replies(old(state.Calls())).Accepts(1)
      ensures evictions == old(evictions) + (if had && ok then 1 else 0) && breaches == old(breaches)
      ensures readings == old(readings) + 1
      ensures had ==>
        var u := old(Find(shards, home, key));
        var held := TokensAt(u.level, clock(old(readings)));
        && told == old(told) + (if ok then [Eviction(Explicit, Snapshot(key, held, u.lastUsed))] else [])
        && (state.Persists() ==>
              state.store.saved == (if state.store.replies(old(state.Calls())).took(0)
                                    then old(state.store.saved)[key := State(Number(held), u.lastUsed)]
                                    else old(state.store.saved)))
      ensures !had ==> told == old(told) && (state.Persists() ==> state.store.saved == old(state.store.saved))
    {
      var now := Now();
      ok := true;
      ghost var before := shards;
      TakeIsWithout(shards, home, key);
      WithoutIsOne(shards, home, key);
      Lock();
      had := key in shards[home(key)];
      if !had {
        Unlock();
        assert before[home(key)] - {key} == before[home(key)];
        return;
      }
      var u := shards[home(key)][key];
      Delete(key);
      Unlock();
      var sn := u.Snap(key, now);
      if state.Persists() {
        ok := Save(sn);
        if !ok {
          return;
        }
      }
      Report(Eviction(Explicit, sn));
    }

    // ------------------------------------------------------------------ whole walks

    /** One shard's wanted entries, in some order. */
    method Walk(i: nat, want: Want, now: int) returns (seen: seq<Seen>)
      requires locked && i < |shards| && Placed(shards, home)
      ensures Lists(seen, Picked(shards[i], want), shards, home, now)
    {
      seen := [];
      ListsNothing(shards, home, now);
      var rest := shards[i].Keys;
      ghost var picked: set<Key> := {};
      while rest != {}
        invariant rest <= shards[i].Keys
        invariant picked == Picked(shards[i], want) - rest
        invariant Lists(seen, picked, shards, home, now)
        decreases |rest|
      {
        var key :| key in rest;
        WalkNext(Picked(shards[i], want), rest, key);
        rest := rest - {key};
        var e := shards[i][key];
        if want.Takes(e) {
          var x := Seen(e.id, i, e.Snap(key, now));
          OnceGrows(seen, picked, x);
          seen := seen + [x];
          picked := picked + {key};
        }
      }
    }

    /** Every key on the map, each exactly once, with what it held when the clock was read. */
    method SnapshotAll() returns (all: seq<Seen>)
      requires Valid()
      modifies this`locked, this`readings, this`breaches
      ensures Valid() && Lists(all, Population(shards), shards, home, clock(old(readings)))
      ensures readings == old(readings) + 1 && breaches == old(breaches)
    {
      var now := Now();
      all := Collect(All, now);
    }

    /** Reads every shard under its own lock, touching nothing: all of SnapshotAll, and
        phase 1 of Sweep. */
    method Collect(want: Want, now: int) returns (seen: seq<Seen>)
      requires Valid()
      modifies this`locked
      ensures Valid() && Lists(seen, Wanted(shards, want), shards, home, now)
    {
      seen := [];
      ListsNothing(shards, home, now);
      for i := 0 to |shards|
        invariant !locked && Lists(seen, PickedUpTo(shards, i, want), shards, home, now)
      {
        Lock();
        var part := Walk(i, want, now);
        Unlock();
        ListsMore(seen, part, shards, home, i, want, now);
        seen := seen + part;
      }
    }

    /** Empties one shard under its lock, listing what it held when somebody listens. */
    method ClearShard(i: nat, now: int) returns (infos: seq<Seen>, n: nat)
      requires Valid() && i < |shards|
      modifies this`locked, this`shards, this`live
      ensures Valid() && shards == old(shards)[i := map[]] && n == |old(shards)[i]|
      ensures if observed then Lists(infos, Picked(old(shards)[i], All), old(shards), home, now) else infos == []
    {
      Lock();
      infos := [];
      if observed {
        infos := Walk(i, All, now);
      }
      n := |shards[i]|;
      shards := shards[i := map[]];
      live := live[i := 0];
      Unlock();
    }

    /** One shard of DropAll: cleared under its lock, reported after. */
    method DropShard(i: nat, now: int, ghost before: Shards, ghost dropped: seq<Seen>, ghost count: nat)
      returns (infos: seq<Seen>, n: nat)
      requires Valid() && Placed(before, home) && HalfCleared(shards, before, i) && i < |before|
      requires Dropped(dropped, count, before, home, i, All, observed, now)
      modifies this`locked, this`shards, this`live, this`evictions, this`told
      ensures Valid() && HalfCleared(shards, before, i + 1)
      ensures Dropped(dropped + infos, count + n, before, home, i + 1, All, observed, now)
      ensures evictions == old(evictions) + |infos| && told == old(told) + Reports(infos, Shutdown)
    {
      ghost var half := shards;
      infos, n := ClearShard(i, now);
      AllOfAShard(before[i]);
      DroppedMore(dropped, count, infos, half, before, home, i, All, observed, now);
      ReportAll(infos, Shutdown);
    }

    /** Every shard in turn. */
    method DropShards(now: int) returns (ghost dropped: seq<Seen>, count: nat)
      requires Valid()
      modifies this`locked, this`shards, this`live, this`evictions, this`told
      ensures Valid() && HalfCleared(shards, old(shards), |old(shards)|)
      ensures Dropped(dropped, count, old(shards), home, |old(shards)|, All, observed, now)
      ensures evictions == old(evictions) + |dropped| && told == old(told) + Reports(dropped, Shutdown)
    {
      dropped, count := [], 0;
      ghost var before := shards;
      ListsNothing(before, home, now);
      for i := 0 to |shards|
        invariant Valid() && HalfCleared(shards, before, i)
        invariant Dropped(dropped, count, before, home, i, All, observed, now)
        invariant evictions == old(evictions) + |dropped| && told == old(told) + Reports(dropped, Shutdown)
      {
        var infos, n := DropShard(i, now, before, dropped, count);
        ReportsJoin(old(told), dropped, infos, Shutdown);
        count := count + n;
        dropped := dropped + infos;
      }
    }

    /** Empties the map, and counts every key dropped whether or not anyone listens. */
    method DropAll() returns (ghost dropped: seq<Seen>)
      requires Valid()
      modifies this`locked, this`shards, this`live, this`evictions, this`told, this`readings, this`breaches
      ensures Valid() && Population(shards) == {} && breaches == old(breaches)
      ensures forall key :: !Has(shards, home, key)
      ensures evictions == old(evictions) + |old(Population(shards))|
      ensures told == old(told) + Reports(dropped, Shutdown)
      ensures if observed then Lists(dropped, old(Population(shards)), old(shards), home, clock(old(readings)))
              else dropped == []
      ensures Tells(told, |old(told)|, Shutdown, old(shards), home, clock(old(readings)))
    {
      var notify := observed;
      var now := Now();
      dropped := DropAt(now, notify);
      forall key
        ensures !Has(shards, home, key)
      {
        EveryKeyCounts(shards, home, key);
      }
      ReportsTell(old(told), dropped, Shutdown, old(shards), home, now);
    }

    method DropAt(now: int, notify: bool) returns (ghost dropped: seq<Seen>)
      requires Valid() && notify == observed
      modifies this`locked, this`shards, this`live, this`evictions, this`told
      ensures Valid() && Population(shards) == {}
      ensures evictions == old(evictions) + |old(Population(shards))|
      ensures told == old(told) + Reports(dropped, Shutdown)
      ensures if observed then Lists(dropped, old(Population(shards)), old(shards), home, now) else dropped == []
    {
      var count;
      dropped, count := DropShards(now);
      if !notify {
        evictions := evictions + count;
      }
      EmptyUpTo(shards, |shards|, All);
    }

    // ---------------------------------------------------------------- quota changes

    function Given(): Terms {
      Terms(quotaFor, clock)
    }

    /** SetQuotaAt on one entry's bucket, which has a lock of its own, at a clock reading of
        its own. */
    method SetQuota(key: Key)
      requires Valid() && Has(shards, home, key)
      modifies this`shards, this`readings, this`breaches
      ensures Valid() && readings == old(readings) + 1 && breaches == old(breaches)
      ensures shards
              == Put(old(shards), home(key), key, Given().Renew(key, Find(old(shards), home, key), old(readings)))
    {
      var now := Now();
      var q := QuotaFor(key);
      var e := shards[home(key)][key];
      shards := shards[home(key) := shards[home(key)][key := e.(level := Requota(e.level, now, q))]];
      assert shards[home(key)].Keys == old(shards)[home(key)].Keys;
    }

    /** How far Reload is: the keys renewed, each at a reading made since `from`. */
    ghost predicate Renewing(before: Shards, nth: map<Key, int>, done: set<Key>, from: nat)
      reads this
    {
      && Valid() && Placed(before, home) && shards == Reloaded(before, nth, Given()) && nth.Keys == done
      && from <= readings && forall key :: key in nth ==> from <= nth[key] < readings
    }

    /** One entry of a shard's batch. */
    method ReloadNext(x: Seen, ghost before: Shards, ghost nth: map<Key, int>, ghost done: set<Key>, ghost from: nat)
      returns (ghost nth': map<Key, int>)
      requires Renewing(before, nth, done, from) && Has(before, home, x.snap.key) && x.snap.key !in done
      modifies this`shards, this`readings, this`breaches
      ensures Renewing(before, nth', done + {x.snap.key}, from) && breaches == old(breaches)
    {
      ReloadedNext(before, home, nth, Given(), x.snap.key, readings);
      nth' := nth[x.snap.key := readings];
      SetQuota(x.snap.key);
    }

    /** One shard of Reload: its keys copied under the lock, their quotas set after. */
    method ReloadShard(i: nat, ghost before: Shards, ghost nth: map<Key, int>, ghost done: set<Key>, ghost from: nat)
      returns (ghost nth': map<Key, int>)
      requires Renewing(before, nth, done, from) && i < |before| && done !! before[i].Keys
      modifies this`locked, this`shards, this`readings, this`breaches
      ensures Renewing(before, nth', done + before[i].Keys, from) && breaches == old(breaches)
    {
      nth' := nth;
      ghost var keys := before[i].Keys;
      assert Picked(shards[i], All) == keys;
      Lock();
      var batch := Walk(i, All, 0);
      Unlock();
      BatchStarts(done, batch);
      for k := 0 to |batch|
        invariant Renewing(before, nth', DoneAfter(done, batch, k), from) && breaches == old(breaches)
      {
        BatchNext(done, batch, keys, k);
        assert batch[k].snap.key in before[i];
        nth' := ReloadNext(batch[k], before, nth', DoneAfter(done, batch, k), from);
      }
      BatchEnds(done, batch, keys);
    }

    /** Reload: every key on the map is given the quota in force for it, at a clock reading
        of its own. */
    method Reload() returns (ghost nth: map<Key, int>)
      requires Valid()
      modifies this`locked, this`shards, this`readings, this`breaches
      ensures Valid() && breaches == old(breaches)
      ensures shards == Reloaded(old(shards), nth, Given()) && nth.Keys == Population(old(shards))
      ensures forall key :: key in nth ==> old(readings) <= nth[key] < readings
    {
      nth := map[];
      ghost var before, from := shards, readings;
      ReloadedNothing(shards, Given());
      for i := 0 to |shards|
        invariant |shards| == |before| && Renewing(before, nth, PickedUpTo(before, i, All), from)
        invariant breaches == old(breaches)
      {
        NextKeys(before, home, i);
        nth := ReloadShard(i, before, nth, PickedUpTo(before, i, All), from);
      }
    }

    /** ReloadKey: the same for one key, which is not created if it is not there. */
    method ReloadKey(key: Key) returns (had: bool)
      requires Valid()
      modifies this`locked, this`shards, this`readings, this`breaches
      ensures Valid() && had == old(Has(shards, home, key)) && breaches == old(breaches)
      ensures shards == Reloaded(old(shards), if had then map[key := old(readings)] else map[], Given())
    {
      Lock();
      had := key in shards[home(key)];
      Unlock();
      ReloadedNothing(shards, Given());
      if had {
        ReloadedNext(shards, home, map[], Given(), key, readings);
        SetQuota(key);
      }
    }

    // ------------------------------------------------------------------ the idle sweep

    /** Phase 3 for one key: delete it if it is still the same entry with the same stamp. */
    method DeleteIfStill(x: Seen) returns (gone: bool)
      requires Valid() && x.shard == home(x.snap.key)
      modifies this`locked, this`shards, this`live
      ensures Valid() && gone == Still(x, old(shards), home)
      ensures shards == if gone then Without(old(shards), {x.snap.key}) else old(shards)
    {
      Lock();
      gone := x.snap.key in shards[x.shard]
           && shards[x.shard][x.snap.key].id == x.id && shards[x.shard][x.snap.key].lastUsed == x.snap.lastUsed;
      if gone {
        Delete(x.snap.key);
      }
      Unlock();
    }

    /** Phase 3. */
    method DeleteExpired(expired: seq<Seen>, ghost keys: set<Key>) returns (evicted: seq<Seen>)
      requires Valid() && Once(expired, keys)
      requires forall k :: 0 <= k < |expired| ==> expired[k].shard == home(expired[k].snap.key)
      modifies this`locked, this`shards, this`live
      ensures Valid() && evicted == Remaining(expired, old(shards), home)
      ensures shards == Without(old(shards), Unmoved(expired, old(shards), home))
    {
      evicted := [];
      ghost var before := shards;
      WithoutNothing(shards);
      for k := 0 to |expired|
        invariant Valid() && evicted == Remaining(expired[..k], before, home)
        invariant shards == Without(before, Unmoved(expired[..k], before, home))
      {
        OneMoreDeleted(expired, keys, before, home, k);
        var gone := DeleteIfStill(expired[k]);
        if gone {
          evicted := evicted + [expired[k]];
        }
      }
      assert expired[..|expired|] == expired;
    }

    /** How far the walk of a shard is that deletes as it goes: `rest` is still to visit. */
    ghost predicate Sweeping(before: Shards, idle: set<Key>, rest: set<Key>, dropped: seq<Seen>, n: nat, now: int)
      reads this
    {
      && locked && Good() && shards == Without(before, idle - rest) && n == |idle - rest|
      && if observed then Lists(dropped, idle - rest, before, home, now) else dropped == []
    }

    method VisitKey(i: nat, key: Key, cutoff: int, now: int, dropped: seq<Seen>, n: nat,
                    ghost before: Shards, ghost idle: set<Key>, ghost rest: set<Key>)
      returns (dropped': seq<Seen>, n': nat)
      requires Sweeping(before, idle, rest, dropped, n, now) && Placed(before, home) && i < |before|
      requires idle == Picked(before[i], IdleSince(cutoff)) && key in rest && key in before[i]
      modifies this`shards, this`live
      ensures Sweeping(before, idle, rest - {key}, dropped', n', now)
    {
      WalkNext(idle, rest, key);
      assert shards[i] == before[i] - (idle - rest);
      dropped', n' := dropped, n;
      var e := shards[i][key];
      if e.lastUsed < cutoff {
        WithoutTwice(before, idle - rest, {key});
        Delete(key);
        n' := n + 1;
        if observed {
          var x := Seen(e.id, i, e.Snap(key, now));
          OnceGrows(dropped, idle - rest, x);
          dropped' := dropped + [x];
        }
      }
    }

    /** sweepInPlace on one shard. */
    method SweepShard(i: nat, cutoff: int, now: int) returns (dropped: seq<Seen>, n: nat)
      requires Valid() && i < |shards|
      modifies this`locked, this`shards, this`live
      ensures Valid() && shards == Without(old(shards), Picked(old(shards)[i], IdleSince(cutoff)))
      ensures n == |Picked(old(shards)[i], IdleSince(cutoff))|
      ensures if observed then Lists(dropped, Picked(old(shards)[i], IdleSince(cutoff)), old(shards), home, now)
              else dropped == []
    {
      ghost var before := shards;
      ghost var idle := Picked(shards[i], IdleSince(cutoff));
      Lock();
      dropped, n := [], 0;
      ListsNothing(shards, home, now);
      var rest := shards[i].Keys;
      assert idle - rest == {};
      WithoutNothing(shards);
      while rest != {}
        invariant rest <= before[i].Keys && Sweeping(before, idle, rest, dropped, n, now)
        decreases |rest|
      {
        var key :| key in rest;
        dropped, n := VisitKey(i, key, cutoff, now, dropped, n, before, idle, rest);
        rest := rest - {key};
      }
      assert idle - rest == idle;
      Unlock();
    }

    /** How far an in-place sweep is after i shards. */
    ghost predicate SweptUpTo(i: nat, cutoff: int, now: int, before: Shards, all: seq<Seen>, n: int)
      requires i <= |before|
      reads this
    {
      && Valid() && Placed(before, home) && shards == Without(before, PickedUpTo(before, i, IdleSince(cutoff)))
      && Dropped(all, n, before, home, i, IdleSince(cutoff), observed, now)
    }

    method SweepNext(i: nat, cutoff: int, now: int, ghost before: Shards, ghost all: seq<Seen>, ghost n: nat)
      returns (part: seq<Seen>, k: nat)
      requires i < |before| && SweptUpTo(i, cutoff, now, before, all, n)
      modifies this`locked, this`shards, this`live
      ensures SweptUpTo(i + 1, cutoff, now, before, all + part, n + k)
    {
      ghost var half := shards;
      NextShardKept(half, before, home, i, IdleSince(cutoff));
      part, k := SweepShard(i, cutoff, now);
      DroppedMore(all, n, part, half, before, home, i, IdleSince(cutoff), observed, now);
    }

    /** Every shard in turn. */
    method SweepShards(cutoff: int, now: int) returns (all: seq<Seen>, n: nat)
      requires Valid()
      modifies this`locked, this`shards, this`live
      ensures SweptUpTo(|old(shards)|, cutoff, now, old(shards), all, n)
    {
      all, n := [], 0;
      ghost var before := shards;
      ListsNothing(before, home, now);
      WithoutNothing(shards);
      for i := 0 to |shards|
        invariant |shards| == |before| && SweptUpTo(i, cutoff, now, before, all, n)
      {
        var part, k := SweepNext(i, cutoff, now, before, all, n);
        n := n + k;
        all := all + part;
      }
    }

    /** With nothing to persist: every idle key goes, and every one is counted whether or
        not anyone listens. */
    method SweepInPlace(cutoff: int) returns (ghost dropped: seq<Seen>)
      requires Valid()
      modifies this`locked, this`shards, this`live, this`evictions, this`told, this`readings, this`breaches
      ensures Valid() && IdleGone(old(shards), shards, home, cutoff)
      ensures Tells(told, |old(told)|, Idle, old(shards), home, clock(old(readings)))
      ensures shards == Without(old(shards), Wanted(old(shards), IdleSince(cutoff)))
      ensures evictions == old(evictions) + |Wanted(old(shards), IdleSince(cutoff))| && breaches == old(breaches)
      ensures told == old(told) + Reports(dropped, Idle)
      ensures if observed
        then Lists(dropped, Wanted(old(shards), IdleSince(cutoff)), old(shards), home, clock(old(readings)))
        else dropped == []
    {
      var notify := observed;
      var now := Now();
      SweptIdle(shards, home, cutoff);
      dropped := SweepAt(cutoff, now, notify);
      ReportsTell(old(told), dropped, Idle, old(shards), home, now);
    }

    method SweepAt(cutoff: int, now: int, notify: bool) returns (ghost dropped: seq<Seen>)
      requires Valid() && notify == observed
      modifies this`locked, this`shards, this`live, this`evictions, this`told
      ensures Valid() && shards == Without(old(shards), Wanted(old(shards), IdleSince(cutoff)))
      ensures evictions == old(evictions) + |Wanted(old(shards), IdleSince(cutoff))|
      ensures told == old(told) + Reports(dropped, Idle)
      ensures if observed then Lists(dropped, Wanted(old(shards), IdleSince(cutoff)), old(shards), home, now)
              else dropped == []
    {
      var all, n := SweepShards(cutoff, now);
      dropped := all;
      if !notify {
        evictions := evictions + n;
        return;
      }
      ReportAll(all, Idle);
    }

    /** Sweep. `left` is what everyone else made of the map while the flush ran. */
    method Sweep(left: Shards) returns (ghost expired: seq<Seen>)
      requires Valid() && |left| == |shards| && Placed(left, home)
      modifies this`locked, this`shards, this`live, this`evictions, this`told, this`readings, this`breaches
      modifies state`warnings, state.store
      ensures Valid() && breaches == old(breaches)
      ensures !state.Persists() ==> IdleGone(old(shards), shards, home, clock(old(readings)) - idleExpiry)
      ensures state.Persists() ==>
        Swept(old(shards), left, shards, told, |old(told)|, expired == [],
              home, clock(old(readings)) - idleExpiry, clock(old(readings)))
      ensures !state.Persists() ==>
        var idle := Wanted(old(shards), IdleSince(clock(old(readings)) - idleExpiry));
        && shards == Without(old(shards), idle) && evictions == old(evictions) + |idle|
        && (state.store != null ==> state.store.calls == old(state.store.calls))
      ensures state.Persists() ==>
        var now := clock(old(readings));
        && Lists(expired, Wanted(old(shards), IdleSince(now - idleExpiry)), old(shards), home, now)
        && (expired == [] ==> shards == old(shards) && evictions == old(evictions))
        && (expired != [] ==>
              && shards == Without(left, Unmoved(expired, left, home))
              && evictions == old(evictions) + |Unmoved(expired, left, home)|
              && told == old(told) + Reports(Remaining(expired, left, home), Idle))
        && old(state.store.calls) <= state.store.calls
        && Joined(state.store.calls[|old(state.store.calls)|..]) == Snaps(expired)
    {
      expired := [];
      var now := Now();
      if state.Persists() {
        expired := SweepStored(now, left);
      } else {
        ghost var dropped := SweepInPlace(now - idleExpiry);
      }
    }

    /** The persisting sweep, and what it comes to key by key. */
    method SweepStored(now: int, left: Shards) returns (ghost expired: seq<Seen>)
      requires Valid() && |left| == |shards| && Placed(left, home) && state.Persists()
      modifies this`locked, this`shards, this`live, this`evictions, this`told, state`warnings, state.store
      ensures Valid()
      ensures Swept(old(shards), left, shards, told, |old(told)|, expired == [], home, now - idleExpiry, now)
      ensures Lists(expired, Wanted(old(shards), IdleSince(now - idleExpiry)), old(shards), home, now)
      ensures expired == [] ==> shards == old(shards) && evictions == old(evictions)
      ensures expired != [] ==>
        && shards == Without(left, Unmoved(expired, left, home))
        && evictions == old(evictions) + |Unmoved(expired, left, home)|
        && told == old(told) + Reports(Remaining(expired, left, home), Idle)
      ensures old(state.store.calls) <= state.store.calls
      ensures Joined(state.store.calls[|old(state.store.calls)|..]) == Snaps(expired)
    {
      ghost var before, was := shards, told;
      expired := SweepPersisting(now, left);
      SweptAsSeen(expired, before, left, was, home, now - idleExpiry, now);
    }

    /** The three phases. */
    method SweepPersisting(now: int, left: Shards) returns (ghost expired: seq<Seen>)
      requires Valid() && |left| == |shards| && Placed(left, home) && state.Persists()
      modifies this`locked, this`shards, this`live, this`evictions, this`told, state`warnings, state.store
      ensures Valid()
      ensures Lists(expired, Wanted(old(shards), IdleSince(now - idleExpiry)), old(shards), home, now)
      ensures expired == [] ==> shards == old(shards) && evictions == old(evictions)
      ensures expired != [] ==>
        && shards == Without(left, Unmoved(expired, left, home))
        && evictions == old(evictions) + |Unmoved(expired, left, home)|
        && told == old(told) + Reports(Remaining(expired, left, home), Idle)
      ensures old(state.store.calls) <= state.store.calls
      ensures Joined(state.store.calls[|old(state.store.calls)|..]) == Snaps(expired)
    {
      var cutoff := now - idleExpiry;
      var seen := Collect(IdleSince(cutoff), now);
      expired := seen;
      if |seen| == 0 {
        assert state.store.calls[|state.store.calls|..] == [];
        return;
      }
      Flush(Snaps(seen));
      Others(left);
      DeleteSeen(seen, Wanted(old(shards), IdleSince(cutoff)));
    }

    /** Phase 3, and its reports. */
    method DeleteSeen(seen: seq<Seen>, ghost keys: set<Key>)
      requires Valid() && Once(seen, keys)
      requires forall k :: 0 <= k < |seen| ==> seen[k].shard == home(seen[k].snap.key)
      modifies this`locked, this`shards, this`live, this`evictions, this`told
      ensures Valid() && shards == Without(old(shards), Unmoved(seen, old(shards), home))
      ensures evictions == old(evictions) + |Unmoved(seen, old(shards), home)|
      ensures told == old(told) + Reports(Remaining(seen, old(shards), home), Idle)
    {
      ghost var left := shards;
      var evicted := DeleteExpired(seen, keys);
      RemainingOnce(seen, keys, left, home);
      OnceNames(evicted, Unmoved(seen, left, home));
      ReportAll(evicted, Idle);
    }
  }

  // -------------------------------------------------------------------- the teardown

  /** On a store that accepts every write, what was listed can be read back. */
  lemma ListedIsSaved(all: seq<Seen>, keys: set<Key>, shards: Shards, home: Key -> nat, now: int,
                      m: Saved, replies: nat -> Reply, n: nat, calls: seq<seq<Snapshot>>, key: Key)
    requires Lists(all, keys, shards, home, now) && key in keys
    requires Joined(calls) == Snaps(all) && Accepting(replies, n, calls)
    ensures Has(shards, home, key) && key in SavedBy(m, replies, n, calls)
    ensures SavedBy(m, replies, n, calls)[key]
            == State(Number(TokensAt(Find(shards, home, key).level, now)), Find(shards, home, key).lastUsed)
  {
    OnceNames(all, keys);
    var k :| 0 <= k < |all| && Names(all)[k] == key;
    AcceptedWritesAll(m, replies, n, calls);
    assert Shows(all[k], shards, home, now);
    forall j | k < j < |all|
      ensures Snaps(all)[j].key != Snaps(all)[k].key
    {
      assert all[k].snap.key != all[j].snap.key;
    }
    WrittenReads(m, Snaps(all), k);
  }

  /** The body of Limiter.finish once everyone has left: with persistence on, the flush is
      handed every key the drop then discards, each exactly once; afterwards no key is left
      and Evictions has grown by their number, whether or not anyone listens. */
  method Teardown(r: Registry) returns (ghost flushed: seq<Seen>, ghost dropped: seq<Seen>)
    requires r.Valid()
    modifies r`locked, r`shards, r`live, r`evictions, r`told, r`readings, r`breaches, r.state`warnings, r.state.store
    ensures r.Valid() && Population(r.shards) == {} && r.breaches == old(r.breaches)
    ensures r.evictions == old(r.evictions) + |old(Population(r.shards))|
    ensures r.told == old(r.told) + Reports(dropped, Shutdown)
    ensures r.observed ==>
      exists later :: Lists(dropped, old(Population(r.shards)), old(r.shards), r.home, later)
                      && Tells(r.told, |old(r.told)|, Shutdown, old(r.shards), r.home, later)
    ensures !r.observed ==> dropped == []
    ensures r.state.Persists() ==>
      && Lists(flushed, old(Population(r.shards)), old(r.shards), r.home, r.clock(old(r.readings)))
      && old(r.state.store.calls) <= r.state.store.calls
      && Joined(r.state.store.calls[|old(r.state.store.calls)|..]) == Snaps(flushed)
      && (Accepting(r.state.store.replies, |old(r.state.store.calls)|,
                    r.state.store.calls[|old(r.state.store.calls)|..]) ==>
            forall key :: key in old(Population(r.shards)) ==>
              && Has(old(r.shards), r.home, key) && key in r.state.store.saved
              && var u := Find(old(r.shards), r.home, key);
                 r.state.store.saved[key]
                 == State(Number(TokensAt(u.level, r.clock(old(r.readings)))), u.lastUsed))
    ensures !r.state.Persists() && r.state.store != null ==> unchanged(r.state.store)
  {
    flushed := [];
    if r.state.Persists() {
      ghost var now := r.clock(r.readings);
      var all := r.SnapshotAll();
      flushed := all;
      r.Flush(Snaps(all));
      ghost var made := r.state.store.calls[|old(r.state.store.calls)|..];
      if Accepting(r.state.store.replies, |old(r.state.store.calls)|, made) {
        forall key | key in old(Population(r.shards))
          ensures Has(old(r.shards), r.home, key) && key in r.state.store.saved
          ensures r.state.store.saved[key]
                  == State(Number(TokensAt(Find(old(r.shards), r.home, key).level, now)),
                           Find(old(r.shards), r.home, key).lastUsed)
        {
          ListedIsSaved(all, old(Population(r.shards)), old(r.shards), r.home, now,
                        old(r.state.store.saved), r.state.store.replies, |old(r.state.store.calls)|, made, key);
        }
      }
    }
    dropped := r.DropAll();
  }
}
