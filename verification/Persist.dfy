/** What persisting a key means (limiter/persist.go), over a store seen as a map whose
    writes may fail. */
module Persist {
  import opened Reals

  type Key = string

  /** store.State: a store may hand back any float64. */
  datatype State = State(tokens: Float, lastUsed: int)

  datatype Snapshot = Snapshot(key: Key, tokens: real, lastUsed: int) {
    function ToState(): State {
      State(Number(tokens), lastUsed)
    }
  }

  type Saved = map<Key, State>

  /** The map after writing the entries in order. */
  function Written(m: Saved, batch: seq<Snapshot>): Saved {
    if batch == [] then m
    else Written(m, batch[..|batch| - 1])[batch[|batch| - 1].key := batch[|batch| - 1].ToState()]
  }

  function Joined(calls: seq<seq<Snapshot>>): seq<Snapshot> {
    if calls == [] then [] else Joined(calls[..|calls| - 1]) + calls[|calls| - 1]
  }

  function Singles(snaps: seq<Snapshot>): seq<seq<Snapshot>> {
    seq(|snaps|, i requires 0 <= i < |snaps| => [snaps[i]])
  }

  const CHUNK: nat := 512

  /** What the batch path sends. */
  function Chunks(snaps: seq<Snapshot>): seq<seq<Snapshot>> {
    if snaps == [] then []
    else [snaps[..Bound(CHUNK, |snaps|)]] + Chunks(snaps[Bound(CHUNK, |snaps|)..])
  }

  /** Every call full but the last, none empty. */
  predicate Packed(calls: seq<seq<Snapshot>>) {
    && (forall i :: 0 <= i < |calls| - 1 ==> |calls[i]| == 512)
    && (forall i :: 0 <= i < |calls| ==> 1 <= |calls[i]| <= 512)
  }

  lemma {:induction false} WrittenJoins(m: Saved, a: seq<Snapshot>, b: seq<Snapshot>)
    ensures Written(m, a + b) == Written(Written(m, a), b)
    decreases |b|
  {
    if b == [] {
      assert a + b == a;
    } else {
      assert (a + b)[..|a + b| - 1] == a + b[..|b| - 1];
      WrittenJoins(m, a, b[..|b| - 1]);
    }
  }

  lemma {:induction false} JoinedAppends(calls: seq<seq<Snapshot>>, more: seq<seq<Snapshot>>)
    ensures Joined(calls + more) == Joined(calls) + Joined(more)
    decreases |more|
  {
    if more == [] {
      assert calls + more == calls;
    } else {
      assert (calls + more)[..|calls + more| - 1] == calls + more[..|more| - 1];
      JoinedAppends(calls, more[..|more| - 1]);
    }
  }

  lemma {:induction false} ChunksJoin(snaps: seq<Snapshot>)
    ensures Joined(Chunks(snaps)) == snaps
    decreases |snaps|
  {
    if snaps != [] {
      var k := Bound(CHUNK, |snaps|);
      ChunksJoin(snaps[k..]);
      JoinedAppends([snaps[..k]], Chunks(snaps[k..]));
      assert [snaps[..k]][..0] == [];
      assert snaps[..k] + snaps[k..] == snaps;
    }
  }

  lemma {:induction false} ChunksPack(snaps: seq<Snapshot>)
    ensures Packed(Chunks(snaps)) && (snaps != [] ==> Chunks(snaps) != [])
    decreases |snaps|
  {
    if snaps != [] {
      var k := Bound(CHUNK, |snaps|);
      var rest := Chunks(snaps[k..]);
      ChunksPack(snaps[k..]);
      forall i | 0 <= i < |Chunks(snaps)|
        ensures 1 <= |Chunks(snaps)[i]| <= CHUNK
        ensures i < |Chunks(snaps)| - 1 ==> |Chunks(snaps)[i]| == CHUNK
      {
        assert Chunks(snaps)[i] == if i == 0 then snaps[..k] else rest[i - 1];
      }
    }
  }

  /** The chunks are the input in order, in full batches but for the last, none empty. */
  lemma ChunksPartition(snaps: seq<Snapshot>)
    ensures Joined(Chunks(snaps)) == snaps && Packed(Chunks(snaps))
  {
    ChunksJoin(snaps);
    ChunksPack(snaps);
  }

  lemma {:induction false} SinglesJoin(snaps: seq<Snapshot>)
    ensures Joined(Singles(snaps)) == snaps
    decreases |snaps|
  {
    if snaps != [] {
      var init := snaps[..|snaps| - 1];
      assert Singles(snaps)[..|snaps| - 1] == Singles(init);
      SinglesJoin(init);
      assert init + [snaps[|snaps| - 1]] == snaps;
    }
  }

  /** How one write goes: which of its entries it puts in the store, whatever subset; and it
      may report an error all the same, a timeout say. Success means that all are in. */
  datatype Reply = Reply(took: nat -> bool, error: bool) {
    predicate Accepts(size: nat) {
      !error && forall i :: 0 <= i < size ==> took(i)
    }
  }

  /** The entries of a batch that were taken. */
  function Landed(batch: seq<Snapshot>, took: nat -> bool): seq<Snapshot> {
    if batch == [] then []
    else
      var last := |batch| - 1;
      Landed(batch[..last], took) + if took(last) then [batch[last]] else []
  }

  lemma {:induction false} AllLand(batch: seq<Snapshot>, took: nat -> bool)
    requires forall i :: 0 <= i < |batch| ==> took(i)
    ensures Landed(batch, took) == batch
    decreases |batch|
  {
    if batch != [] {
      AllLand(batch[..|batch| - 1], took);
    }
  }

  lemma {:induction false} LandedAvoids(batch: seq<Snapshot>, took: nat -> bool, key: Key)
    requires forall i :: 0 <= i < |batch| ==> batch[i].key != key
    ensures forall i :: 0 <= i < |Landed(batch, took)| ==> Landed(batch, took)[i].key != key
    decreases |batch|
  {
    if batch != [] {
      LandedAvoids(batch[..|batch| - 1], took, key);
    }
  }

  lemma LandsOne(sn: Snapshot, took: nat -> bool)
    ensures Landed([sn], took) == if took(0) then [sn] else []
  {
    assert [sn][..0] == [];
  }

  /** The store after a run of calls, call number n + i answered by replies(n + i). */
  function SavedBy(m: Saved, replies: nat -> Reply, n: nat, calls: seq<seq<Snapshot>>): Saved {
    if calls == [] then m
    else
      var last := |calls| - 1;
      Written(SavedBy(m, replies, n, calls[..last]), Landed(calls[last], replies(n + last).took))
  }

  function Bound(k: nat, n: nat): (b: nat)
    ensures b <= n && b <= k && (b == k || b == n)
  {
    if k < n then k else n
  }

  ghost predicate Accepting(replies: nat -> Reply, n: nat, calls: seq<seq<Snapshot>>) {
    forall i :: 0 <= i < |calls| ==> replies(n + i).Accepts(|calls[i]|)
  }

  /** On calls the store accepts, how the snapshots were cut up is invisible. */
  lemma {:induction false} AcceptedWritesAll(m: Saved, replies: nat -> Reply, n: nat, calls: seq<seq<Snapshot>>)
    requires Accepting(replies, n, calls)
    ensures SavedBy(m, replies, n, calls) == Written(m, Joined(calls))
    decreases |calls|
  {
    if calls != [] {
      var last := |calls| - 1;
      AcceptedWritesAll(m, replies, n, calls[..last]);
      AcceptedLands(m, replies, n, calls);
      WrittenJoins(m, Joined(calls[..last]), calls[last]);
    }
  }

  lemma AcceptedLands(m: Saved, replies: nat -> Reply, n: nat, calls: seq<seq<Snapshot>>)
    requires calls != [] && Accepting(replies, n, calls)
    ensures var last := |calls| - 1;
            SavedBy(m, replies, n, calls) == Written(SavedBy(m, replies, n, calls[..last]), calls[last])
  {
    var last := |calls| - 1;
    assert replies(n + last).Accepts(|calls[last]|);
    AllLand(calls[last], replies(n + last).took);
  }

  /** The batch path and the one-call-per-key path leave the same map on a store that
      accepts every write, however its calls are numbered. */
  lemma BatchingIsInvisible(m: Saved, snaps: seq<Snapshot>, calls: seq<seq<Snapshot>>,
                            replies: nat -> Reply, n: nat, one: nat -> Reply, k: nat)
    requires Joined(calls) == snaps && Accepting(replies, n, calls) && Accepting(one, k, Singles(snaps))
    ensures SavedBy(m, replies, n, calls) == SavedBy(m, one, k, Singles(snaps)) == Written(m, snaps)
  {
    AcceptedWritesAll(m, replies, n, calls);
    AcceptedWritesAll(m, one, k, Singles(snaps));
    SinglesJoin(snaps);
  }

  /** What a map of distinct snapshots reads back, key by key. */
  lemma {:induction false} WrittenReads(m: Saved, snaps: seq<Snapshot>, i: nat)
    requires i < |snaps| && forall j :: i < j < |snaps| ==> snaps[j].key != snaps[i].key
    ensures snaps[i].key in Written(m, snaps) && Written(m, snaps)[snaps[i].key] == snaps[i].ToState()
    decreases |snaps|
  {
    if i < |snaps| - 1 {
      WrittenReads(m, snaps[..|snaps| - 1], i);
    }
  }

  /** And it touches no other key. */
  lemma {:induction false} WrittenSpares(m: Saved, snaps: seq<Snapshot>, key: Key)
    requires forall i :: 0 <= i < |snaps| ==> snaps[i].key != key
    ensures key in Written(m, snaps) <==> key in m
    ensures key in m ==> Written(m, snaps)[key] == m[key]
    decreases |snaps|
  {
    if snaps != [] {
      WrittenSpares(m, snaps[..|snaps| - 1], key);
    }
  }

  /** A caller's store. `calls` is every write it was asked for, in order. */
  class Store {
    const batches: bool          // implements store.BatchStore
    const replies: nat -> Reply  // to its calls in order
    var saved: Saved
    var calls: seq<seq<Snapshot>>

    constructor (batches: bool, replies: nat -> Reply, saved: Saved)
      ensures this.batches == batches && this.replies == replies && this.saved == saved && calls == []
    {
      this.batches, this.replies, this.saved, this.calls := batches, replies, saved, [];
    }

    method SaveBatch(batch: seq<Snapshot>) returns (ok: bool)
      modifies this
      ensures calls == old(calls) + [batch]
      ensures saved == Written(old(saved), Landed(batch, replies(|old(calls)|).took))
      ensures ok <==> replies(|old(calls)|).Accepts(|batch|)
    {
      var reply := replies(|calls|);
      ok := reply.Accepts(|batch|);
      saved := Written(saved, Landed(batch, reply.took));
      calls := calls + [batch];
    }

    method Save(sn: Snapshot) returns (ok: bool)
      modifies this
      ensures calls == old(calls) + [[sn]]
      ensures saved == Written(old(saved), Landed([sn], replies(|old(calls)|).took))
      ensures ok <==> replies(|old(calls)|).Accepts(1)
    {
      ok := SaveBatch([sn]);
    }
  }

  /** How many of the calls numbered n, n + 1, … failed. */
  function Failures(replies: nat -> Reply, n: nat, calls: seq<seq<Snapshot>>): nat {
    if calls == [] then 0
    else Failures(replies, n, calls[..|calls| - 1])
         + if replies(n + |calls| - 1).Accepts(|calls[|calls| - 1]|) then 0 else 1
  }

  /** A snapshot whose call was accepted is in the store, unless a later snapshot has
      the same key: a failed call never costs the others anything. */
  lemma {:induction false} AcceptedCallIsSaved(m: Saved, replies: nat -> Reply, n: nat, calls: seq<seq<Snapshot>>,
                                              c: nat, i: nat)
    requires c < |calls| && i < |calls[c]| && replies(n + c).Accepts(|calls[c]|)
    requires forall d, j :: c <= d < |calls| && 0 <= j < |calls[d]| && (d > c || j > i)
               ==> calls[d][j].key != calls[c][i].key
    ensures calls[c][i].key in SavedBy(m, replies, n, calls)
    ensures SavedBy(m, replies, n, calls)[calls[c][i].key] == calls[c][i].ToState()
    decreases |calls|
  {
    var last := |calls| - 1;
    var before := SavedBy(m, replies, n, calls[..last]);
    var took := replies(n + last).took;
    if c < last {
      AcceptedCallIsSaved(m, replies, n, calls[..last], c, i);
      forall j | 0 <= j < |calls[last]|
        ensures calls[last][j].key != calls[c][i].key
      {
      }
      LandedAvoids(calls[last], took, calls[c][i].key);
      WrittenSpares(before, Landed(calls[last], took), calls[c][i].key);
    } else {
      AllLand(calls[last], took);
      WrittenReads(before, calls[last], i);
    }
  }

  /** One call more. */
  lemma CallMade(m: Saved, replies: nat -> Reply, n: nat, made: seq<seq<Snapshot>>, batch: seq<Snapshot>)
    ensures SavedBy(m, replies, n, made + [batch])
            == Written(SavedBy(m, replies, n, made), Landed(batch, replies(n + |made|).took))
    ensures Failures(replies, n, made + [batch])
            == Failures(replies, n, made) + if replies(n + |made|).Accepts(|batch|) then 0 else 1
  {
    assert (made + [batch])[..|made|] == made;
  }

  /** The chunks still to send once `made` are. */
  ghost predicate Ahead(made: seq<seq<Snapshot>>, snaps: seq<Snapshot>, start: nat) {
    made + Chunks(snaps[Bound(start, |snaps|)..]) == Chunks(snaps)
  }

  lemma NextChunk(made: seq<seq<Snapshot>>, snaps: seq<Snapshot>, start: nat, end: nat)
    requires Ahead(made, snaps, start) && start < |snaps| && end == Bound(start + CHUNK, |snaps|)
    ensures Ahead(made + [snaps[start..end]], snaps, start + CHUNK)
  {
    var rest := snaps[start..];
    var k := Bound(CHUNK, |rest|);
    assert rest[..k] == snaps[start..end];
    assert rest[k..] == snaps[end..];
    assert made + [snaps[start..end]] + Chunks(snaps[end..]) == made + ([snaps[start..end]] + Chunks(snaps[end..]));
  }

  lemma AllSent(made: seq<seq<Snapshot>>, snaps: seq<Snapshot>, start: nat)
    requires Ahead(made, snaps, start) && start >= |snaps|
    ensures made == Chunks(snaps)
  {
    assert made + Chunks([]) == made;
  }

  lemma NoneSent(snaps: seq<Snapshot>)
    ensures Ahead([], snaps, 0)
  {
    assert snaps[Bound(0, |snaps|)..] == snaps;
  }

  /** The inner loop of flush, refilling its one batch. */
  method Filled(snaps: seq<Snapshot>, start: nat, end: nat) returns (batch: seq<Snapshot>)
    requires start <= end <= |snaps|
    ensures batch == snaps[start..end]
  {
    batch := [];
    for i := start to end
      invariant batch == snaps[start..i]
    {
      batch := batch + [snaps[i]];
    }
  }

  /** limiter.persistence. */
  class Persistence {
    const store: Store?
    const shadowed: bool         // a shared quota is configured
    var warnings: nat            // failures logged

    constructor (store: Store?, shadowed: bool)
      ensures this.store == store && this.shadowed == shadowed && warnings == 0
    {
      this.store, this.shadowed, this.warnings := store, shadowed, 0;
    }

    predicate Persists() {
      store != null && !shadowed
    }

    /** How many writes the store has been asked for. */
    function Calls(): nat
      reads store
    {
      if store == null then 0 else |store.calls|
    }

    /** A store error counts as "nothing saved". */
    method Load(key: Key, reachable: bool) returns (st: State, found: bool)
      requires Persists()
      modifies this`warnings
      ensures found <==> reachable && key in store.saved
      ensures st == if found then store.saved[key] else State(Number(0.0), 0)
      ensures warnings == old(warnings) + if reachable then 0 else 1
    {
      st, found := State(Number(0.0), 0), false;
      if !reachable {
        warnings := warnings + 1;
      } else if key in store.saved {
        st, found := store.saved[key], true;
      }
    }

    /** Backs Evict, so the failure is returned rather than logged. It may have been written
        even so. */
    method Save(sn: Snapshot) returns (ok: bool)
      requires Persists()
      modifies store
      ensures store.calls == old(store.calls) + [[sn]]
      ensures ok <==> store.replies(|old(store.calls)|).Accepts(1)
      ensures store.saved == if store.replies(|old(store.calls)|).took(0)
        then old(store.saved)[sn.key := sn.ToState()] else old(store.saved)
    {
      LandsOne(sn, store.replies(|store.calls|).took);
      ok := store.Save(sn);
    }

    /** Hands every snapshot to the store exactly once and in order, whatever fails on
        the way: in batches of at most CHUNK, full but for the last, when the store
        takes batches, and one by one when it does not. */
    method Flush(snaps: seq<Snapshot>)
      modifies this`warnings, store
      ensures !Persists() ==> warnings == old(warnings) && (store != null ==> unchanged(store))
      ensures Persists() ==>
        && |store.calls| >= |old(store.calls)| && store.calls[..|old(store.calls)|] == old(store.calls)
        && var made := store.calls[|old(store.calls)|..];
           var n := |old(store.calls)|;
           && Joined(made) == snaps
           && (if store.batches then Packed(made) else made == Singles(snaps))
           && store.saved == SavedBy(old(store.saved), store.replies, n, made)
           && warnings == old(warnings) + Failures(store.replies, n, made)
    {
      if !Persists() || |snaps| == 0 {
        return;
      }
      if store.batches {
        FlushBatches(snaps);
        assert store.calls[|old(store.calls)|..] == Chunks(snaps);
        ChunksPartition(snaps);
      } else {
        FlushEach(snaps);
        assert store.calls[|old(store.calls)|..] == Singles(snaps);
        SinglesJoin(snaps);
      }
    }

    /** The store and the log stand where `made` calls after `was` put them. */
    ghost predicate Sent(made: seq<seq<Snapshot>>, was: seq<seq<Snapshot>>, saved: Saved, warned: nat)
      reads this, store
    {
      && Persists() && store.calls == was + made
      && store.saved == SavedBy(saved, store.replies, |was|, made)
      && warnings == warned + Failures(store.replies, |was|, made)
    }

    /** SaveBatch, whose failure is logged and nothing more. */
    method SaveOrWarn(batch: seq<Snapshot>, ghost made: seq<seq<Snapshot>>,
                      ghost was: seq<seq<Snapshot>>, ghost saved: Saved, ghost warned: nat)
      requires Sent(made, was, saved, warned)
      modifies this`warnings, store
      ensures Sent(made + [batch], was, saved, warned)
    {
      CallMade(saved, store.replies, |was|, made, batch);
      var ok := store.SaveBatch(batch);
      if !ok {
        warnings := warnings + 1;
      }
    }

    method FlushBatches(snaps: seq<Snapshot>)
      requires Persists()
      modifies this`warnings, store
      ensures Sent(Chunks(snaps), old(store.calls), old(store.saved), old(warnings))
    {
      ghost var made: seq<seq<Snapshot>> := [];
      var batch: seq<Snapshot>;
      var start := 0;
      NoneSent(snaps);
      while start < |snaps|
        invariant Ahead(made, snaps, start)
        invariant Sent(made, old(store.calls), old(store.saved), old(warnings))
      {
        var end := Bound(start + CHUNK, |snaps|);
        batch := Filled(snaps, start, end);
        NextChunk(made, snaps, start, end);
        SaveOrWarn(batch, made, old(store.calls), old(store.saved), old(warnings));
        made := made + [batch];
        start := start + CHUNK;
      }
      AllSent(made, snaps, start);
    }

    method FlushEach(snaps: seq<Snapshot>)
      requires Persists()
      modifies this`warnings, store
      ensures Sent(Singles(snaps), old(store.calls), old(store.saved), old(warnings))
    {
      for i := 0 to |snaps|
        invariant Sent(Singles(snaps[..i]), old(store.calls), old(store.saved), old(warnings))
      {
        assert Singles(snaps[..i]) + [[snaps[i]]] == Singles(snaps[..i + 1]);
        SaveOrWarn([snaps[i]], Singles(snaps[..i]), old(store.calls), old(store.saved), old(warnings));
      }
      assert snaps[..|snaps|] == snaps;
    }
  }
}
