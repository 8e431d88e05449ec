/** The sharded key registry under concurrency (registry/registry.go, registry/gc.go).

    A step is one atomic access: a section run under a shard lock is split wherever it lets
    go of the state, so that an entry may be touched, which takes no lock, between the test
    a sweep makes and the deletion that follows. Any number of threads interleave theirs.
    An entry's identity is its index in `entries`, as the code's is its pointer. */
module RegistryRuns {

  type Key = string
  type Id = nat
  type Tid = nat

  /** What became of an entry; `Gone` entries are off the map and not yet counted. */
  datatype Fate = Live | Gone(owner: Tid) | Counted | SaveFailed

  datatype Entry = Entry(key: Key, lastUsed: int, fate: Fate)

  /** expiredEntry: what a persisting sweep remembers of one idle key. */
  datatype Seen = Seen(id: Id, lastUsed: int)

  /** `known` remembers how many entries there were when phase 1 ended. */
  datatype Pc =
    | Idle
    | Look(key: Key)                                    // GetOrCreate: read-locked lookup
    | Load(key: Key)                                    // hooks, store load, quota: no lock
    | Insert(key: Key)                                  // write-locked re-check and insert
    | Use(id: Id)                                       // has the entry; about to Touch it: no lock
    | Remove(key: Key)                                  // Evict: write-locked delete
    | Save                                              // Evict: store write, no lock
    | Collect(cutoff: int, shard: nat, seen: seq<Seen>) // Sweep, phase 1, between two shards
    | Gather(cutoff: int, shard: nat, seen: seq<Seen>, todo: seq<Id>) // ... in one, read-locked
    | Flush(seen: seq<Seen>, known: nat)                // Sweep, phase 2: no lock
    | Delete(seen: seq<Seen>, next: nat, known: nat)    // Sweep, phase 3: about to lock and test
    | Doom(seen: seq<Seen>, next: nat, known: nat)      // ... tested, write-locked, about to delete
    | InPlace(cutoff: int, shard: nat, notify: bool)    // sweepInPlace, between two shards
    | Visit(cutoff: int, shard: nat, notify: bool, todo: seq<Id>) // ... write-locked, about to test
    | Reap(cutoff: int, shard: nat, notify: bool, todo: seq<Id>)  // ... and about to delete
    | DropAll(shard: nat, notify: bool)
    | Report                                            // count and notify, one by one: no lock

  /** `gone` lists the entries this thread removed and has not counted yet. */
  datatype Thread = Thread(pc: Pc, gone: seq<Id>)

  datatype State = State(
    home: Key -> nat,            // shardIndex: any assignment of keys to shards
    shards: seq<map<Key, Id>>,
    live: seq<int>,
    entries: seq<Entry>,
    evictions: int,
    flushed: set<Seen>,          // everything any sweep has handed to Flush
    threads: map<Tid, Thread>)

  /** Choices left open: map iteration order, clock readings, and whether Save worked. */
  datatype Event =
    | Start(t: Tid, pc: Pc)
    | Step(t: Tid, order: seq<Id>, stamp: int, ok: bool)

  predicate Shaped(s: State) {
    && |s.live| == |s.shards|
    && forall id :: 0 <= id < |s.entries| ==> s.home(s.entries[id].key) < |s.shards|
  }

  predicate Mapped(s: State, key: Key) {
    s.home(key) < |s.shards| && key in s.shards[s.home(key)]
  }

  function Lookup(s: State, key: Key): Id
    requires Mapped(s, key)
  {
    s.shards[s.home(key)][key]
  }

  /** Entry id is the one its key maps to. */
  predicate Current(s: State, id: Id) {
    id < |s.entries| && Mapped(s, s.entries[id].key) && Lookup(s, s.entries[id].key) == id
  }

  /** Every id of the list names one of the first n entries. */
  predicate Known(ids: seq<Id>, n: nat) {
    forall i :: 0 <= i < |ids| ==> ids[i] < n
  }

  predicate Distinct(ids: seq<Id>) {
    forall i, j :: 0 <= i < j < |ids| ==> ids[i] != ids[j]
  }

  predicate InShard(s: State, i: nat, id: Id) {
    Current(s, id) && s.home(s.entries[id].key) == i
  }

  /** Different entries, all on shard i. */
  predicate OnShard(s: State, i: nat, ids: seq<Id>) {
    Distinct(ids) && forall k :: 0 <= k < |ids| ==> InShard(s, i, ids[k])
  }

  /** `order` is some iteration order over shard i. */
  ghost predicate WalksAll(s: State, i: nat, order: seq<Id>) {
    OnShard(s, i, order) && forall id :: InShard(s, i, id) ==> id in order
  }

  // ------------------------------------------------- what a step does to shared state

  function WithPc(s: State, t: Tid, pc: Pc): State
    requires t in s.threads
  {
    s.(threads := s.threads[t := s.threads[t].(pc := pc)])
  }

  /** Insert a new entry for key and bump the shard's live count. */
  function Put(s: State, key: Key, stamp: int): State
    requires s.home(key) < |s.shards| == |s.live|
  {
    var i := s.home(key);
    var shard: map<Key, Id> := s.shards[i] + map[key := |s.entries|];
    s.(shards := s.shards[i := shard],
       live := s.live[i := s.live[i] + 1],
       entries := s.entries + [Entry(key, stamp, Live)])
  }

  function Marked(s: State, id: Id, fate: Fate): seq<Entry>
    requires id < |s.entries|
  {
    s.entries[id := s.entries[id].(fate := fate)]
  }

  /** Delete entry id from its shard on behalf of thread t. */
  function TakeOut(s: State, t: Tid, id: Id): (s': State)
    requires Shaped(s) && id < |s.entries| && t in s.threads
    ensures Shaped(s') && |s'.entries| == |s.entries| && t in s'.threads
  {
    var key := s.entries[id].key;
    var i := s.home(key);
    s.(shards := s.shards[i := s.shards[i] - {key}],
       live := s.live[i := s.live[i] - 1],
       entries := Marked(s, id, Gone(t)),
       threads := s.threads[t := s.threads[t].(gone := s.threads[t].gone + [id])])
  }

  /** Clear a shard in one section. */
  function TakeAll(s: State, t: Tid, ids: seq<Id>): (s': State)
    requires Shaped(s) && t in s.threads && Known(ids, |s.entries|)
    ensures t in s'.threads
    decreases |ids|
  {
    if ids == [] then s else TakeAll(TakeOut(s, t, ids[0]), t, ids[1..])
  }

  /** report: count the first entry this thread still owes. */
  function CountFirst(s: State, t: Tid): State
    requires t in s.threads && s.threads[t].gone != [] && s.threads[t].gone[0] < |s.entries|
  {
    var th := s.threads[t];
    s.(entries := Marked(s, th.gone[0], Counted),
       evictions := s.evictions + 1,
       threads := s.threads[t := th.(gone := th.gone[1..])])
  }

  /** evictions.Add of everything owed, in one go. */
  function CountAll(s: State, t: Tid): (s': State)
    requires t in s.threads && Known(s.threads[t].gone, |s.entries|)
    ensures t in s'.threads
    decreases if t in s.threads then |s.threads[t].gone| else 0
  {
    if s.threads[t].gone == [] then s else CountAll(CountFirst(s, t), t)
  }

  /** An Evict whose Save failed reports nothing. */
  function GiveUp(s: State, t: Tid): State
    requires t in s.threads && |s.threads[t].gone| == 1 && s.threads[t].gone[0] < |s.entries|
  {
    s.(entries := Marked(s, s.threads[t].gone[0], SaveFailed),
       threads := s.threads[t := s.threads[t].(gone := [])])
  }

  /** Entry.Touch, which no lock guards. */
  function Touched(s: State, id: Id, stamp: int): State
    requires id < |s.entries|
  {
    s.(entries := s.entries[id := s.entries[id].(lastUsed := stamp)])
  }

  datatype Act =
    | Keep
    | Create(key: Key, stamp: int)
    | Touch(id: Id, stamp: int)
    | Take(id: Id)
    | Clear(shard: nat, ids: seq<Id>)
    | CountOne
    | CountEach
    | Forfeit
    | Hand(seen: seq<Seen>)

  predicate Doable(s: State, t: Tid, a: Act) {
    && t in s.threads && Shaped(s)
    && match a
       case Keep => true
       case Create(key, _) => s.home(key) < |s.shards| && !Mapped(s, key)
       case Touch(id, _) => id < |s.entries|
       case Take(id) => Current(s, id)
       case Clear(i, ids) => OnShard(s, i, ids)
       case CountOne => s.threads[t].gone != [] && s.threads[t].gone[0] < |s.entries|
       case CountEach => Known(s.threads[t].gone, |s.entries|)
       case Forfeit => |s.threads[t].gone| == 1 && s.threads[t].gone[0] < |s.entries|
       case Hand(_) => true
  }

  function Perform(s: State, t: Tid, a: Act): (s': State)
    requires Doable(s, t, a)
    ensures t in s'.threads
  {
    match a
    case Keep => s
    case Create(key, stamp) => Put(s, key, stamp)
    case Touch(id, stamp) => Touched(s, id, stamp)
    case Take(id) => TakeOut(s, t, id)
    case Clear(_, ids) => TakeAll(s, t, ids)
    case CountOne => CountFirst(s, t)
    case CountEach => CountAll(s, t)
    case Forfeit => GiveUp(s, t)
    case Hand(seen) => s.(flushed := s.flushed + set x | x in seen)
  }

  // ------------------------------------------------------------------------ the code

  /** DropAll reports one shard's removals before it clears the next. */
  predicate Owing(th: Thread) {
    th.pc.DropAll? && th.pc.notify && th.gone != []
  }

  /** Phase 3's test: still the same entry, not touched since. */
  predicate Untouched(s: State, x: Seen) {
    Current(s, x.id) && s.entries[x.id].lastUsed == x.lastUsed
  }

  /** What thread th does next, and where it goes. */
  function Plan(s: State, th: Thread, order: seq<Id>, stamp: int, ok: bool): (Act, Pc)
    requires ThreadOk(s, th)
  {
    match th.pc
    case Idle => (Keep, Idle)
    case Look(key) => (Keep, if Mapped(s, key) then Use(Lookup(s, key)) else Load(key))
    case Load(key) => (Keep, Insert(key))
    case Insert(key) =>
      if Mapped(s, key) then (Keep, Use(Lookup(s, key))) else (Create(key, stamp), Use(|s.entries|))
    case Use(id) => (Touch(id, stamp), Idle)
    case Remove(key) => if Mapped(s, key) then (Take(Lookup(s, key)), Save) else (Keep, Idle)
    case Save => if ok then (Keep, Report) else (Forfeit, Idle)
    case Report => if th.gone == [] then (Keep, Idle) else (CountOne, Report)
    case Collect(cutoff, i, seen) =>
      if i < |s.shards| then (Keep, Gather(cutoff, i, seen, order))
      else (Keep, if seen == [] then Idle else Flush(seen, |s.entries|))
    case Gather(cutoff, i, seen, todo) =>
      if todo == [] then (Keep, Collect(cutoff, i + 1, seen))
      else (Keep, Gather(cutoff, i, seen + Glance(s, todo[0], cutoff), todo[1..]))
    case Flush(seen, known) => (Hand(seen), Delete(seen, 0, known))
    case Delete(seen, next, known) =>
      if next == |seen| then (Keep, Report)
      else (Keep, if Untouched(s, seen[next]) then Doom(seen, next, known) else Delete(seen, next + 1, known))
    case Doom(seen, next, known) => (Take(seen[next].id), Delete(seen, next + 1, known))
    case InPlace(cutoff, i, notify) =>
      if i < |s.shards| then (Keep, Visit(cutoff, i, notify, order))
      else if notify then (Keep, Report)
      else (CountEach, Idle)
    case Visit(cutoff, i, notify, todo) =>
      if todo == [] then (Keep, InPlace(cutoff, i + 1, notify))
      else (Keep, if s.entries[todo[0]].lastUsed < cutoff then Reap(cutoff, i, notify, todo)
                  else Visit(cutoff, i, notify, todo[1..]))
    case Reap(cutoff, i, notify, todo) => (Take(todo[0]), Visit(cutoff, i, notify, todo[1..]))
    case DropAll(i, notify) =>
      if Owing(th) then (CountOne, th.pc)
      else if i < |s.shards| then (Clear(i, order), DropAll(i + 1, notify))
      else (CountEach, Idle)
  }

  /** One read of a walk: the stamp that is compared is the stamp that is kept. */
  function Glance(s: State, id: Id, cutoff: int): seq<Seen>
    requires id < |s.entries|
  {
    if s.entries[id].lastUsed < cutoff then [Seen(id, s.entries[id].lastUsed)] else []
  }

  predicate Entrance(pc: Pc) {
    pc.Look? || pc.Remove? || (pc.Collect? && pc.shard == 0 && pc.seen == [])
    || (pc.InPlace? && pc.shard == 0) || (pc.DropAll? && pc.shard == 0)
  }

  // ----------------------------------------------------------------------- the locks

  const NONE: int := -1

  function HomeOf(s: State, id: Id): int {
    if id < |s.entries| then s.home(s.entries[id].key) else NONE
  }

  /** The shard a thread at pc has write-locked. */
  function Writing(s: State, pc: Pc): int {
    match pc
    case Doom(seen, next, _) => if next < |seen| then HomeOf(s, seen[next].id) else NONE
    case Visit(_, i, _, _) => i
    case Reap(_, i, _, _) => i
    case _ => NONE
  }

  /** ... and read-locked. */
  function Reading(pc: Pc): int {
    if pc.Gather? then pc.shard else NONE
  }

  /** The shard its next step has to write-lock first. */
  function WantsWrite(s: State, th: Thread): int {
    match th.pc
    case Insert(key) => s.home(key)
    case Remove(key) => s.home(key)
    case Delete(seen, next, _) => if next < |seen| then HomeOf(s, seen[next].id) else NONE
    case InPlace(_, i, _) => if i < |s.shards| then i else NONE
    case DropAll(i, _) => if i < |s.shards| && !Owing(th) then i else NONE
    case _ => NONE
  }

  function WantsRead(s: State, th: Thread): int {
    match th.pc
    case Look(key) => s.home(key)
    case Collect(_, i, _) => if i < |s.shards| then i else NONE
    case _ => NONE
  }

  /** Every other thread lets t have what it wants. */
  predicate Granted(s: State, t: Tid)
    requires t in s.threads
  {
    var w, r := WantsWrite(s, s.threads[t]), WantsRead(s, s.threads[t]);
    forall u :: u in s.threads && u != t ==>
      && (w != NONE ==> Writing(s, s.threads[u].pc) != w && Reading(s.threads[u].pc) != w)
      && (r != NONE ==> Writing(s, s.threads[u].pc) != r)
  }

  ghost predicate Enabled(s: State, e: Event) {
    match e
    case Start(t, pc) => (t in s.threads ==> s.threads[t] == Thread(Idle, [])) && Entrance(pc)
    case Step(t, order, _, _) =>
      && t in s.threads && !s.threads[t].pc.Idle? && Granted(s, t)
      && (match s.threads[t].pc
          case Insert(key) => s.home(key) < |s.shards|
          case Collect(_, i, _) => i < |s.shards| ==> WalksAll(s, i, order)
          case InPlace(_, i, _) => i < |s.shards| ==> WalksAll(s, i, order)
          case DropAll(i, _) => i < |s.shards| && !Owing(s.threads[t]) ==> WalksAll(s, i, order)
          case _ => true)
  }

  // ------------------------------------------------------------------ invariants

  predicate Placed(s: State) {
    forall i, key {:trigger key in s.shards[i]} :: 0 <= i < |s.shards| && key in s.shards[i] ==>
      && s.home(key) == i && s.shards[i][key] < |s.entries|
      && s.entries[s.shards[i][key]].key == key && s.entries[s.shards[i][key]].fate.Live?
  }

  predicate LiveMapped(s: State) {
    forall id {:trigger Current(s, id)} :: 0 <= id < |s.entries| && s.entries[id].fate.Live? ==> Current(s, id)
  }

  predicate Sized(s: State) {
    |s.live| == |s.shards| && forall i :: 0 <= i < |s.shards| ==> s.live[i] == |s.shards[i]|
  }

  /** A removed entry is on its remover's list. */
  predicate Traced(s: State, id: Id)
    requires id < |s.entries| && s.entries[id].fate.Gone?
  {
    s.entries[id].fate.owner in s.threads && id in s.threads[s.entries[id].fate.owner].gone
  }

  /** Each thread's list names, once each, exactly the entries it took and owes. */
  predicate Owned(s: State) {
    && (forall t :: t in s.threads ==> Distinct(s.threads[t].gone))
    && (forall t, i :: t in s.threads && 0 <= i < |s.threads[t].gone| ==>
          s.threads[t].gone[i] < |s.entries| && s.entries[s.threads[t].gone[i]].fate == Gone(t))
    && (forall id {:trigger Traced(s, id)} :: 0 <= id < |s.entries| && s.entries[id].fate.Gone? ==> Traced(s, id))
  }

  datatype Kind = IsLive | IsGone | IsCounted | IsFailed

  function KindOf(e: Entry): Kind {
    match e.fate
    case Live => IsLive
    case Gone(_) => IsGone
    case Counted => IsCounted
    case SaveFailed => IsFailed
  }

  function Tally(entries: seq<Entry>, kind: Kind): nat {
    if entries == [] then 0
    else Tally(entries[..|entries| - 1], kind) + if KindOf(entries[|entries| - 1]) == kind then 1 else 0
  }

  function Sum(live: seq<int>): int {
    if live == [] then 0 else Sum(live[..|live| - 1]) + live[|live| - 1]
  }

  /** Registry.Keys */
  function Keys(s: State): int {
    Sum(s.live)
  }

  predicate Counts(s: State) {
    s.evictions == Tally(s.entries, IsCounted) && Keys(s) == Tally(s.entries, IsLive)
  }

  predicate Core(s: State) {
    Shaped(s) && Placed(s) && LiveMapped(s) && Sized(s) && Owned(s) && Counts(s)
  }

  predicate SeenBelow(seen: seq<Seen>, n: nat) {
    forall x :: x in seen ==> x.id < n
  }

  /** What each program point of one thread may rely on. */
  predicate ThreadOk(s: State, th: Thread) {
    match th.pc
    case Save => |th.gone| == 1
    case Use(id) => th.gone == [] && id < |s.entries|
    case Collect(_, _, seen) => th.gone == [] && SeenBelow(seen, |s.entries|)
    case Gather(_, _, seen, todo) => th.gone == [] && SeenBelow(seen, |s.entries|) && Known(todo, |s.entries|)
    case Flush(seen, known) => th.gone == [] && known <= |s.entries| && SeenBelow(seen, known)
    case Delete(seen, next, known) =>
      next <= |seen| && known <= |s.entries| && SeenBelow(seen, known) && forall x :: x in seen ==> x in s.flushed
    case Doom(seen, next, known) =>
      && next < |seen| && known <= |s.entries| && SeenBelow(seen, known) && (forall x :: x in seen ==> x in s.flushed)
      && Current(s, seen[next].id)
    case InPlace(_, _, _) => true
    case Visit(_, i, _, todo) => OnShard(s, i, todo)
    case Reap(_, i, _, todo) => todo != [] && OnShard(s, i, todo)
    case DropAll(_, _) => true
    case Report => true
    case _ => th.gone == []
  }

  /** What one thread write-locks the other neither reads nor writes. */
  predicate Apart(s: State, one: Pc, other: Pc) {
    Writing(s, one) != NONE ==> Writing(s, other) != Writing(s, one) && Reading(other) != Writing(s, one)
  }

  predicate Exclusive(s: State) {
    forall t, u {:trigger Apart(s, s.threads[t].pc, s.threads[u].pc)} ::
      t in s.threads && u in s.threads && t != u ==> Apart(s, s.threads[t].pc, s.threads[u].pc)
  }

  predicate Inv(s: State) {
    Core(s) && Exclusive(s) && forall t :: t in s.threads ==> ThreadOk(s, s.threads[t])
  }

  // ------------------------------------------------------------ counting, one by one

  lemma {:induction false} TallyUpdate(entries: seq<Entry>, id: nat, e: Entry, kind: Kind)
    requires id < |entries|
    ensures Tally(entries[id := e], kind)
            == Tally(entries, kind) - (if KindOf(entries[id]) == kind then 1 else 0)
               + (if KindOf(e) == kind then 1 else 0)
    decreases |entries|
  {
    var last := |entries| - 1;
    if id < last {
      assert entries[id := e][..last] == entries[..last][id := e];
      TallyUpdate(entries[..last], id, e, kind);
    } else {
      assert entries[id := e][..last] == entries[..last];
    }
  }

  lemma TallyAppend(entries: seq<Entry>, e: Entry, kind: Kind)
    ensures Tally(entries + [e], kind) == Tally(entries, kind) + if KindOf(e) == kind then 1 else 0
  {
    assert (entries + [e])[..|entries|] == entries;
  }

  lemma {:induction false} TallyTotal(entries: seq<Entry>)
    ensures Tally(entries, IsLive) + Tally(entries, IsGone) + Tally(entries, IsCounted) + Tally(entries, IsFailed)
            == |entries|
    decreases |entries|
  {
    if entries != [] {
      TallyTotal(entries[..|entries| - 1]);
    }
  }

  lemma {:induction false} SumUpdate(live: seq<int>, i: nat, n: int)
    requires i < |live|
    ensures Sum(live[i := n]) == Sum(live) - live[i] + n
    decreases |live|
  {
    var last := |live| - 1;
    if i < last {
      assert live[i := n][..last] == live[..last][i := n];
      SumUpdate(live[..last], i, n);
    } else {
      assert live[i := n][..last] == live[..last];
    }
  }

  // --------------------------------------------------- what each act preserves

  lemma PutMap(s: State, key: Key, stamp: int)
    requires Shaped(s) && Placed(s) && LiveMapped(s) && s.home(key) < |s.shards| && !Mapped(s, key)
    ensures Shaped(Put(s, key, stamp)) && Placed(Put(s, key, stamp)) && LiveMapped(Put(s, key, stamp))
  {
    var s' := Put(s, key, stamp);
    forall x | 0 <= x < |s'.entries| && s'.entries[x].fate.Live?
      ensures Current(s', x)
    {
      if x < |s.entries| {
        assert s'.entries[x] == s.entries[x];
        assert Current(s, x);
      }
    }
  }

  lemma PutSized(s: State, key: Key, stamp: int)
    requires Sized(s) && s.home(key) < |s.shards| && !Mapped(s, key)
    ensures Sized(Put(s, key, stamp)) && Keys(Put(s, key, stamp)) == Keys(s) + 1
  {
    var s' := Put(s, key, stamp);
    var i := s.home(key);
    SumUpdate(s.live, i, s.live[i] + 1);
    assert s'.shards[i].Keys == s.shards[i].Keys + {key};
    assert |s'.shards[i]| == |s.shards[i]| + 1;
  }

  lemma PutTallies(s: State, key: Key, stamp: int)
    requires s.home(key) < |s.shards| == |s.live|
    ensures Tally(Put(s, key, stamp).entries, IsLive) == Tally(s.entries, IsLive) + 1
    ensures Tally(Put(s, key, stamp).entries, IsCounted) == Tally(s.entries, IsCounted)
  {
    TallyAppend(s.entries, Entry(key, stamp, Live), IsLive);
    TallyAppend(s.entries, Entry(key, stamp, Live), IsCounted);
  }

  lemma PutKeeps(s: State, key: Key, stamp: int)
    requires Core(s) && s.home(key) < |s.shards| && !Mapped(s, key)
    ensures Core(Put(s, key, stamp))
  {
    PutMap(s, key, stamp);
    PutSized(s, key, stamp);
    PutTallies(s, key, stamp);
    PutOwned(s, key, stamp);
  }

  lemma PutOwned(s: State, key: Key, stamp: int)
    requires Shaped(s) && Owned(s) && s.home(key) < |s.shards|
    ensures Owned(Put(s, key, stamp))
  {
    var s' := Put(s, key, stamp);
    forall x | 0 <= x < |s'.entries| && s'.entries[x].fate.Gone?
      ensures Traced(s', x)
    {
      assert Traced(s, x);
    }
  }

  lemma TouchMap(s: State, id: Id, stamp: int)
    requires Shaped(s) && Placed(s) && LiveMapped(s) && Sized(s) && Counts(s) && id < |s.entries|
    ensures Shaped(Touched(s, id, stamp)) && Placed(Touched(s, id, stamp)) && LiveMapped(Touched(s, id, stamp))
    ensures Sized(Touched(s, id, stamp)) && Counts(Touched(s, id, stamp))
  {
    var s' := Touched(s, id, stamp);
    TallyUpdate(s.entries, id, s.entries[id].(lastUsed := stamp), IsLive);
    TallyUpdate(s.entries, id, s.entries[id].(lastUsed := stamp), IsCounted);
    forall x | 0 <= x < |s'.entries| && s'.entries[x].fate.Live?
      ensures Current(s', x)
    {
      assert Current(s, x);
    }
  }

  lemma TouchOwned(s: State, id: Id, stamp: int)
    requires Owned(s) && id < |s.entries|
    ensures Owned(Touched(s, id, stamp))
  {
    var s' := Touched(s, id, stamp);
    forall x | 0 <= x < |s'.entries| && s'.entries[x].fate.Gone?
      ensures Traced(s', x)
    {
      assert Traced(s, x);
    }
  }

  lemma TakeOutMap(s: State, t: Tid, id: Id)
    requires Shaped(s) && Placed(s) && LiveMapped(s)
    requires t in s.threads && id < |s.entries| && s.entries[id].fate.Live?
    ensures Placed(TakeOut(s, t, id)) && LiveMapped(TakeOut(s, t, id))
  {
    var s' := TakeOut(s, t, id);
    assert Current(s, id);
    forall x | 0 <= x < |s'.entries| && s'.entries[x].fate.Live?
      ensures Current(s', x)
    {
      assert x != id;
      assert Current(s, x);
    }
  }

  lemma TakeOutCounts(s: State, t: Tid, id: Id)
    requires Shaped(s) && LiveMapped(s) && Sized(s) && Counts(s)
    requires t in s.threads && id < |s.entries| && s.entries[id].fate.Live?
    ensures Sized(TakeOut(s, t, id)) && Counts(TakeOut(s, t, id))
  {
    var s' := TakeOut(s, t, id);
    var key := s.entries[id].key;
    var i := s.home(key);
    assert Current(s, id);
    SumUpdate(s.live, i, s.live[i] - 1);
    TallyUpdate(s.entries, id, s.entries[id].(fate := Gone(t)), IsLive);
    TallyUpdate(s.entries, id, s.entries[id].(fate := Gone(t)), IsCounted);
    assert s'.shards[i].Keys == s.shards[i].Keys - {key};
    assert |s'.shards[i]| == |s.shards[i]| - 1;
  }

  lemma TakeOutKeeps(s: State, t: Tid, id: Id)
    requires Core(s) && t in s.threads && id < |s.entries| && s.entries[id].fate.Live?
    ensures Core(TakeOut(s, t, id))
  {
    TakeOutMap(s, t, id);
    TakeOutCounts(s, t, id);
    TakeOutOwned(s, t, id);
  }

  lemma TakeOutOwned(s: State, t: Tid, id: Id)
    requires Shaped(s) && Owned(s) && t in s.threads && id < |s.entries| && s.entries[id].fate.Live?
    ensures Owned(TakeOut(s, t, id))
  {
    var s' := TakeOut(s, t, id);
    assert s'.threads[t].gone[|s.threads[t].gone|] == id;
    forall x | 0 <= x < |s'.entries| && s'.entries[x].fate.Gone?
      ensures Traced(s', x)
    {
      if x != id {
        assert Traced(s, x);
      }
    }
  }

  /** Changing the fate of an entry already off the map disturbs nothing on it. */
  lemma FateMap(s: State, s': State, id: Id, fate: Fate)
    requires Shaped(s) && Placed(s) && LiveMapped(s) && Sized(s)
    requires id < |s.entries| && s.entries[id].fate.Gone? && !fate.Live?
    requires s'.home == s.home && s'.shards == s.shards && s'.live == s.live && s'.entries == Marked(s, id, fate)
    ensures Shaped(s') && Placed(s') && LiveMapped(s') && Sized(s')
    ensures Tally(s'.entries, IsLive) == Tally(s.entries, IsLive)
    ensures Tally(s'.entries, IsCounted) == Tally(s.entries, IsCounted) + if fate.Counted? then 1 else 0
  {
    TallyUpdate(s.entries, id, s.entries[id].(fate := fate), IsLive);
    TallyUpdate(s.entries, id, s.entries[id].(fate := fate), IsCounted);
    forall x | 0 <= x < |s'.entries| && s'.entries[x].fate.Live?
      ensures Current(s', x)
    {
      assert Current(s, x);
    }
  }

  lemma CountFirstOwned(s: State, t: Tid)
    requires Owned(s) && t in s.threads && s.threads[t].gone != []
    ensures Owned(CountFirst(s, t))
  {
    var id := s.threads[t].gone[0];
    var s' := CountFirst(s, t);
    forall u, i | u in s'.threads && 0 <= i < |s'.threads[u].gone|
      ensures s'.threads[u].gone[i] < |s'.entries| && s'.entries[s'.threads[u].gone[i]].fate == Gone(u)
    {
      if u == t {
        assert s'.threads[t].gone[i] == s.threads[t].gone[i + 1];
      }
    }
    forall x | 0 <= x < |s'.entries| && s'.entries[x].fate.Gone?
      ensures Traced(s', x)
    {
      assert Traced(s, x);
    }
  }

  lemma CountFirstKeeps(s: State, t: Tid)
    requires Core(s) && t in s.threads && s.threads[t].gone != []
    ensures Core(CountFirst(s, t))
  {
    FateMap(s, CountFirst(s, t), s.threads[t].gone[0], Counted);
    CountFirstOwned(s, t);
  }

  lemma GiveUpOwned(s: State, t: Tid)
    requires Owned(s) && t in s.threads && |s.threads[t].gone| == 1
    ensures Owned(GiveUp(s, t))
  {
    var s' := GiveUp(s, t);
    forall x | 0 <= x < |s'.entries| && s'.entries[x].fate.Gone?
      ensures Traced(s', x)
    {
      assert Traced(s, x);
    }
  }

  lemma GiveUpKeeps(s: State, t: Tid)
    requires Core(s) && t in s.threads && |s.threads[t].gone| == 1
    ensures Core(GiveUp(s, t))
  {
    FateMap(s, GiveUp(s, t), s.threads[t].gone[0], SaveFailed);
    GiveUpOwned(s, t);
  }

  /** Nothing but where threads are and what was flushed has changed. */
  ghost predicate Same(s: State, s': State) {
    && s'.home == s.home && s'.shards == s.shards && s'.live == s.live
    && s'.entries == s.entries && s'.evictions == s.evictions
    && s.threads.Keys <= s'.threads.Keys
    && forall t :: t in s'.threads ==> s'.threads[t].gone == if t in s.threads then s.threads[t].gone else []
  }

  lemma SameMap(s: State, s': State)
    requires Same(s, s') && Placed(s) && LiveMapped(s)
    ensures Placed(s') && LiveMapped(s')
  {
    forall x | 0 <= x < |s'.entries| && s'.entries[x].fate.Live?
      ensures Current(s', x)
    {
      assert Current(s, x);
    }
  }

  lemma SameOwned(s: State, s': State)
    requires Same(s, s') && Owned(s)
    ensures Owned(s')
  {
    forall x | 0 <= x < |s'.entries| && s'.entries[x].fate.Gone?
      ensures Traced(s', x)
    {
      assert Traced(s, x);
    }
  }

  /** Only the map, the fates and what threads owe matter to Core. */
  lemma SameKeeps(s: State, s': State)
    requires Same(s, s') && Core(s)
    ensures Core(s')
  {
    SameMap(s, s');
    SameOwned(s, s');
  }

  /** Removing a batch is removing each: the batch need only be distinct and live. */
  lemma {:induction false} TakeAllKeeps(s: State, t: Tid, ids: seq<Id>)
    requires Core(s) && t in s.threads && Known(ids, |s.entries|) && Distinct(ids)
    requires forall i :: 0 <= i < |ids| ==> s.entries[ids[i]].fate.Live?
    ensures Core(TakeAll(s, t, ids))
    decreases |ids|
  {
    if ids != [] {
      var next := TakeOut(s, t, ids[0]);
      TakeOutKeeps(s, t, ids[0]);
      TakeAllKeeps(next, t, ids[1..]);
    }
  }

  lemma {:induction false} TakeAllEffect(s: State, t: Tid, ids: seq<Id>)
    requires Shaped(s) && t in s.threads && Known(ids, |s.entries|)
    ensures SameSize(s, TakeAll(s, t, ids), t) && TakeAll(s, t, ids).evictions == s.evictions
    ensures TakeAll(s, t, ids).threads[t] == Thread(s.threads[t].pc, s.threads[t].gone + ids)
    ensures forall k {:trigger TakeAll(s, t, ids).entries[k]} :: 0 <= k < |s.entries| ==>
              TakeAll(s, t, ids).entries[k]
              == if k in ids then s.entries[k].(fate := Gone(t)) else s.entries[k]
    decreases |ids|
  {
    if ids != [] {
      TakeAllEffect(TakeOut(s, t, ids[0]), t, ids[1..]);
      assert s.threads[t].gone + [ids[0]] + ids[1..] == s.threads[t].gone + ids;
    } else {
      assert s.threads[t].gone + ids == s.threads[t].gone;
    }
  }

  /** Nothing but the owner's list, the map and the fates changed. */
  ghost predicate SameSize(s: State, s': State, t: Tid) {
    && |s'.entries| == |s.entries| && |s'.shards| == |s.shards| && s'.home == s.home
    && s'.flushed == s.flushed && s'.threads.Keys == s.threads.Keys
    && forall u :: u in s.threads && u != t ==> s'.threads[u] == s.threads[u]
  }

  lemma {:induction false} CountAllKeeps(s: State, t: Tid)
    requires Core(s) && t in s.threads
    ensures Core(CountAll(s, t))
    decreases |s.threads[t].gone|
  {
    if s.threads[t].gone != [] {
      CountFirstKeeps(s, t);
      CountAllKeeps(CountFirst(s, t), t);
    }
  }

  /** Counting in bulk and reporting one by one come to the same tally. */
  lemma {:induction false} CountAllEffect(s: State, t: Tid)
    requires t in s.threads && Known(s.threads[t].gone, |s.entries|)
    ensures SameSize(s, CountAll(s, t), t) && CountAll(s, t).shards == s.shards
    ensures CountAll(s, t).threads[t] == Thread(s.threads[t].pc, [])
    ensures CountAll(s, t).evictions == s.evictions + |s.threads[t].gone|
    ensures forall k {:trigger CountAll(s, t).entries[k]} :: 0 <= k < |s.entries| ==>
              CountAll(s, t).entries[k]
              == if k in s.threads[t].gone then s.entries[k].(fate := Counted) else s.entries[k]
    decreases |s.threads[t].gone|
  {
    if s.threads[t].gone != [] {
      CountAllEffect(CountFirst(s, t), t);
    }
  }

  // ---------------------------------------------------------------- every step

  lemma MappedIsCurrent(s: State, key: Key)
    requires Placed(s) && Mapped(s, key)
    ensures Current(s, Lookup(s, key)) && s.entries[Lookup(s, key)].key == key
  {
    assert key in s.shards[s.home(key)];
  }

  lemma CurrentIsLive(s: State, id: Id)
    requires Core(s) && id < |s.entries|
    ensures Current(s, id) <==> s.entries[id].fate.Live?
  {
    if Current(s, id) {
      assert s.entries[id].key in s.shards[s.home(s.entries[id].key)];
    }
  }

  lemma OnShardIsLive(s: State, i: nat, ids: seq<Id>)
    requires Core(s) && OnShard(s, i, ids)
    ensures Known(ids, |s.entries|) && forall k :: 0 <= k < |ids| ==> s.entries[ids[k]].fate.Live?
  {
    forall k | 0 <= k < |ids|
      ensures ids[k] < |s.entries| && s.entries[ids[k]].fate.Live?
    {
      assert InShard(s, i, ids[k]);
      CurrentIsLive(s, ids[k]);
    }
  }

  lemma PerformKeeps(s: State, t: Tid, a: Act)
    requires Core(s) && Doable(s, t, a)
    ensures Core(Perform(s, t, a))
  {
    match a
    case Keep =>
    case Create(key, stamp) => PutKeeps(s, key, stamp);
    case Touch(id, stamp) => TouchKeeps(s, id, stamp);
    case Take(id) =>
      CurrentIsLive(s, id);
      TakeOutKeeps(s, t, id);
    case Clear(i, ids) =>
      OnShardIsLive(s, i, ids);
      TakeAllKeeps(s, t, ids);
    case CountOne => CountFirstKeeps(s, t);
    case CountEach => CountAllKeeps(s, t);
    case Forfeit => GiveUpKeeps(s, t);
    case Hand(_) => SameKeeps(s, Perform(s, t, a));
  }

  lemma TouchKeeps(s: State, id: Id, stamp: int)
    requires Core(s) && id < |s.entries|
    ensures Core(Touched(s, id, stamp))
  {
    TouchMap(s, id, stamp);
    TouchOwned(s, id, stamp);
  }

  /** What an act does to what its thread owes. */
  function GoneAfter(gone: seq<Id>, a: Act): seq<Id> {
    match a
    case Take(id) => gone + [id]
    case Clear(_, ids) => gone + ids
    case CountOne => if gone == [] then [] else gone[1..]
    case CountEach => []
    case Forfeit => []
    case _ => gone
  }

  /** The one shard an act may remove entries from. */
  function ActShard(s: State, a: Act): int {
    match a
    case Take(id) => HomeOf(s, id)
    case Clear(i, _) => i
    case _ => NONE
  }

  /** What a step leaves alone: entries and flushed only grow, keys are fixed, an entry off
      the map never becomes live again, and only the acting thread changes. */
  ghost predicate Onward(s: State, s': State, t: Tid) {
    && s'.home == s.home && |s'.shards| == |s.shards|
    && |s.entries| <= |s'.entries| && s.flushed <= s'.flushed && s.evictions <= s'.evictions
    && (forall id {:trigger s'.entries[id]} :: 0 <= id < |s.entries| ==>
          s'.entries[id].key == s.entries[id].key && (s'.entries[id].fate.Live? ==> s.entries[id].fate.Live?))
    && s'.threads.Keys == s.threads.Keys + {t}
    && (forall u :: u in s.threads && u != t ==> s'.threads[u] == s.threads[u])
  }

  lemma ClearOnward(s: State, t: Tid, ids: seq<Id>)
    requires Core(s) && t in s.threads && Known(ids, |s.entries|)
    ensures Onward(s, TakeAll(s, t, ids), t)
    ensures TakeAll(s, t, ids).threads[t] == Thread(s.threads[t].pc, s.threads[t].gone + ids)
  {
    TakeAllEffect(s, t, ids);
    var s' := TakeAll(s, t, ids);
    assert s.threads.Keys + {t} == s.threads.Keys;
    forall id | 0 <= id < |s.entries|
      ensures s'.entries[id].key == s.entries[id].key
      ensures s'.entries[id].fate.Live? ==> s.entries[id].fate.Live?
    {
    }
  }

  lemma CountEachOnward(s: State, t: Tid)
    requires Core(s) && t in s.threads && Known(s.threads[t].gone, |s.entries|)
    ensures Onward(s, CountAll(s, t), t) && CountAll(s, t).threads[t] == Thread(s.threads[t].pc, [])
  {
    CountAllEffect(s, t);
    var s' := CountAll(s, t);
    assert s.threads.Keys + {t} == s.threads.Keys;
    forall id | 0 <= id < |s.entries|
      ensures s'.entries[id].key == s.entries[id].key
      ensures s'.entries[id].fate.Live? ==> s.entries[id].fate.Live?
    {
    }
  }

  lemma PerformOnward(s: State, t: Tid, a: Act)
    requires Core(s) && Doable(s, t, a)
    ensures Onward(s, Perform(s, t, a), t)
    ensures Perform(s, t, a).threads[t] == Thread(s.threads[t].pc, GoneAfter(s.threads[t].gone, a))
  {
    assert s.threads.Keys + {t} == s.threads.Keys;
    if a.Clear? {
      OnShardIsLive(s, a.shard, a.ids);
      ClearOnward(s, t, a.ids);
    } else if a.CountEach? {
      CountEachOnward(s, t);
    }
  }

  lemma ClearLeaves(s: State, t: Tid, i: nat, ids: seq<Id>, x: Id)
    requires Core(s) && t in s.threads && OnShard(s, i, ids) && Known(ids, |s.entries|)
    requires Current(s, x) && x !in ids
    ensures Current(TakeAll(s, t, ids), x)
  {
    TakeAllEffect(s, t, ids);
    OnShardIsLive(s, i, ids);
    TakeAllKeeps(s, t, ids);
    CurrentIsLive(s, x);
    CurrentIsLive(TakeAll(s, t, ids), x);
  }

  /** An entry stays on the map unless the act removes it. */
  lemma PerformLeaves(s: State, t: Tid, a: Act, x: Id)
    requires Core(s) && Doable(s, t, a) && Current(s, x)
    requires a.Take? ==> a.id != x
    requires a.Clear? ==> x !in a.ids
    ensures Current(Perform(s, t, a), x)
  {
    PerformKeeps(s, t, a);
    PerformOnward(s, t, a);
    if a.Clear? {
      OnShardIsLive(s, a.shard, a.ids);
      ClearLeaves(s, t, a.shard, a.ids, x);
    } else if a.CountEach? {
      CountAllEffect(s, t);
    } else {
      CurrentIsLive(s, x);
      LiveStays(s, t, a, x);
      CurrentIsLive(Perform(s, t, a), x);
    }
  }

  lemma LiveStays(s: State, t: Tid, a: Act, x: Id)
    requires Core(s) && Doable(s, t, a) && x < |s.entries| && s.entries[x].fate.Live?
    requires !a.Clear? && !a.CountEach? && (a.Take? ==> a.id != x)
    ensures x < |Perform(s, t, a).entries| && Perform(s, t, a).entries[x].fate.Live?
  {
    if a.CountOne? || a.Forfeit? {
      assert s.entries[s.threads[t].gone[0]].fate == Gone(t);
    }
  }

  predicate StepReady(s: State, t: Tid, order: seq<Id>) {
    Core(s) && Poised(s, t, order)
  }

  /** Where thread t is and the order it is about to walk in are in order. */
  predicate Poised(s: State, t: Tid, order: seq<Id>) {
    t in s.threads && ThreadOk(s, s.threads[t])
    && (s.threads[t].pc.Insert? ==> s.home(s.threads[t].pc.key) < |s.shards|)
    && (s.threads[t].pc.DropAll? && s.threads[t].pc.shard < |s.shards| && !Owing(s.threads[t])
        ==> OnShard(s, s.threads[t].pc.shard, order))
    && ((s.threads[t].pc.InPlace? || s.threads[t].pc.Collect?) && s.threads[t].pc.shard < |s.shards|
        ==> OnShard(s, s.threads[t].pc.shard, order))
  }

  lemma EnabledIsReady(s: State, t: Tid, order: seq<Id>, stamp: int, ok: bool)
    requires Inv(s) && Enabled(s, Step(t, order, stamp, ok))
    ensures StepReady(s, t, order)
  {
  }

  lemma TakesCurrent(s: State, t: Tid, order: seq<Id>, stamp: int, ok: bool)
    requires StepReady(s, t, order) && (s.threads[t].pc.Remove? || s.threads[t].pc.Doom? || s.threads[t].pc.Reap?)
    ensures Doable(s, t, Plan(s, s.threads[t], order, stamp, ok).0)
  {
    var pc := s.threads[t].pc;
    if pc.Remove? && Mapped(s, pc.key) {
      MappedIsCurrent(s, pc.key);
    } else if pc.Reap? {
      assert InShard(s, pc.shard, pc.todo[0]);
    }
  }

  lemma OwesKnown(s: State, t: Tid)
    requires Owned(s) && t in s.threads
    ensures Known(s.threads[t].gone, |s.entries|)
  {
  }

  lemma OthersDoable(s: State, t: Tid, order: seq<Id>, stamp: int, ok: bool)
    requires Poised(s, t, order) && Shaped(s) && Known(s.threads[t].gone, |s.entries|)
    requires !(s.threads[t].pc.Remove? || s.threads[t].pc.Doom? || s.threads[t].pc.Reap?)
    ensures Doable(s, t, Plan(s, s.threads[t], order, stamp, ok).0)
  {
  }

  lemma PlanIsDoable(s: State, t: Tid, order: seq<Id>, stamp: int, ok: bool)
    requires StepReady(s, t, order)
    ensures Doable(s, t, Plan(s, s.threads[t], order, stamp, ok).0)
  {
    var pc := s.threads[t].pc;
    if pc.Remove? || pc.Doom? || pc.Reap? {
      TakesCurrent(s, t, order, stamp, ok);
    } else {
      OwesKnown(s, t);
      OthersDoable(s, t, order, stamp, ok);
    }
  }

  function StepOf(s: State, t: Tid, order: seq<Id>, stamp: int, ok: bool): State
    requires StepReady(s, t, order)
  {
    PlanIsDoable(s, t, order, stamp, ok);
    var (a, pc) := Plan(s, s.threads[t], order, stamp, ok);
    WithPc(Perform(s, t, a), t, pc)
  }

  /** Only the map, the entries and what was flushed matter to a thread. */
  lemma ThreadOkHere(s: State, t: Tid, pc: Pc, th: Thread)
    requires t in s.threads
    ensures ThreadOk(WithPc(s, t, pc), th) <==> ThreadOk(s, th)
  {
  }

  lemma KeptSeen(seen: seq<Seen>, n: nat, more: seq<Seen>)
    requires SeenBelow(seen, n) && SeenBelow(more, n)
    ensures SeenBelow(seen + more, n)
  {
  }

  lemma RestOnShard(s: State, i: nat, ids: seq<Id>)
    requires OnShard(s, i, ids) && ids != []
    ensures OnShard(s, i, ids[1..]) && InShard(s, i, ids[0])
    ensures forall k :: 0 <= k < |ids[1..]| ==> ids[1..][k] != ids[0]
  {
    assert forall k :: 0 <= k < |ids[1..]| ==> ids[1..][k] == ids[k + 1];
  }

  lemma OtherShard(s: State, i: nat, id: Id, j: nat, ids: seq<Id>)
    requires InShard(s, i, id) && OnShard(s, j, ids) && i != j
    ensures id !in ids
  {
    forall k | 0 <= k < |ids|
      ensures ids[k] != id
    {
      assert InShard(s, j, ids[k]);
    }
  }

  /** What is on a shard stays on it while nothing is taken from that shard. */
  lemma OnShardStays(s: State, t: Tid, a: Act, i: nat, ids: seq<Id>)
    requires Core(s) && Doable(s, t, a) && OnShard(s, i, ids)
    requires a.Take? ==> ActShard(s, a) != i || a.id !in ids
    requires a.Clear? ==> a.shard != i
    ensures OnShard(Perform(s, t, a), i, ids)
  {
    PerformOnward(s, t, a);
    forall k | 0 <= k < |ids|
      ensures InShard(Perform(s, t, a), i, ids[k])
    {
      assert InShard(s, i, ids[k]);
      if a.Clear? {
        OtherShard(s, i, ids[k], a.shard, a.ids);
      }
      PerformLeaves(s, t, a, ids[k]);
    }
  }

  // The program point each step arrives at is in order.

  lemma QuietlyOk(s: State, t: Tid, order: seq<Id>, stamp: int, ok: bool)
    requires StepReady(s, t, order) && Plan(s, s.threads[t], order, stamp, ok).0.Keep?
    requires !s.threads[t].pc.Gather? && !s.threads[t].pc.Visit? && !s.threads[t].pc.Delete?
    ensures ThreadOk(s, Thread(Plan(s, s.threads[t], order, stamp, ok).1, s.threads[t].gone))
  {
    var pc := s.threads[t].pc;
    if (pc.Look? || pc.Insert?) && Mapped(s, pc.key) {
      MappedIsCurrent(s, pc.key);
    } else if pc.Collect? && pc.shard < |s.shards| {
      OnShardIsLive(s, pc.shard, order);
    }
  }

  lemma GatherOk(s: State, t: Tid, order: seq<Id>, stamp: int, ok: bool)
    requires StepReady(s, t, order) && s.threads[t].pc.Gather?
    ensures ThreadOk(s, Thread(Plan(s, s.threads[t], order, stamp, ok).1, s.threads[t].gone))
  {
    var pc := s.threads[t].pc;
    if pc.todo != [] {
      KeptSeen(pc.seen, |s.entries|, Glance(s, pc.todo[0], pc.cutoff));
      assert Known(pc.todo[1..], |s.entries|);
    }
  }

  lemma VisitOk(s: State, t: Tid, order: seq<Id>, stamp: int, ok: bool)
    requires StepReady(s, t, order) && s.threads[t].pc.Visit?
    ensures ThreadOk(s, Thread(Plan(s, s.threads[t], order, stamp, ok).1, s.threads[t].gone))
  {
    var pc := s.threads[t].pc;
    if pc.todo != [] {
      RestOnShard(s, pc.shard, pc.todo);
    }
  }

  lemma DeleteOk(s: State, t: Tid, order: seq<Id>, stamp: int, ok: bool)
    requires StepReady(s, t, order) && s.threads[t].pc.Delete?
    ensures ThreadOk(s, Thread(Plan(s, s.threads[t], order, stamp, ok).1, s.threads[t].gone))
  {
  }

  lemma ReapOk(s: State, t: Tid, order: seq<Id>, stamp: int, ok: bool)
    requires StepReady(s, t, order) && s.threads[t].pc.Reap?
    ensures var (a, pc) := Plan(s, s.threads[t], order, stamp, ok);
            Doable(s, t, a) && ThreadOk(Perform(s, t, a), Thread(pc, GoneAfter(s.threads[t].gone, a)))
  {
    var pc := s.threads[t].pc;
    PlanIsDoable(s, t, order, stamp, ok);
    RestOnShard(s, pc.shard, pc.todo);
    assert pc.todo[0] !in pc.todo[1..];
    OnShardStays(s, t, Take(pc.todo[0]), pc.shard, pc.todo[1..]);
  }

  /** A new entry, and the touch of one. */
  lemma UsingOk(s: State, t: Tid, order: seq<Id>, stamp: int, ok: bool)
    requires Poised(s, t, order) && Doable(s, t, Plan(s, s.threads[t], order, stamp, ok).0)
    requires (s.threads[t].pc.Insert? || s.threads[t].pc.Use?)
    requires !Plan(s, s.threads[t], order, stamp, ok).0.Keep?
    ensures var (a, pc) := Plan(s, s.threads[t], order, stamp, ok);
            ThreadOk(Perform(s, t, a), Thread(pc, GoneAfter(s.threads[t].gone, a)))
  {
  }

  lemma TakingOk(s: State, t: Tid, order: seq<Id>, stamp: int, ok: bool)
    requires Poised(s, t, order) && Doable(s, t, Plan(s, s.threads[t], order, stamp, ok).0)
    requires (s.threads[t].pc.Remove? || s.threads[t].pc.Doom?)
    requires !Plan(s, s.threads[t], order, stamp, ok).0.Keep?
    ensures var (a, pc) := Plan(s, s.threads[t], order, stamp, ok);
            ThreadOk(Perform(s, t, a), Thread(pc, GoneAfter(s.threads[t].gone, a)))
  {
  }

  lemma FlushingOk(s: State, t: Tid, order: seq<Id>, stamp: int, ok: bool)
    requires StepReady(s, t, order) && s.threads[t].pc.Flush?
    ensures var (a, pc) := Plan(s, s.threads[t], order, stamp, ok);
            Doable(s, t, a) && ThreadOk(Perform(s, t, a), Thread(pc, GoneAfter(s.threads[t].gone, a)))
  {
  }

  lemma EndingOk(s: State, t: Tid, order: seq<Id>, stamp: int, ok: bool)
    requires Poised(s, t, order) && Doable(s, t, Plan(s, s.threads[t], order, stamp, ok).0)
    requires s.threads[t].pc.Save? || s.threads[t].pc.Report? || s.threads[t].pc.InPlace? || s.threads[t].pc.DropAll?
    requires !Plan(s, s.threads[t], order, stamp, ok).0.Keep?
    ensures var (a, pc) := Plan(s, s.threads[t], order, stamp, ok);
            ThreadOk(Perform(s, t, a), Thread(pc, GoneAfter(s.threads[t].gone, a)))
  {
  }

  /** The acts after which the thread holds no lock. */
  lemma ActingOk(s: State, t: Tid, order: seq<Id>, stamp: int, ok: bool)
    requires StepReady(s, t, order) && !s.threads[t].pc.Reap?
    requires !Plan(s, s.threads[t], order, stamp, ok).0.Keep?
    ensures var (a, pc) := Plan(s, s.threads[t], order, stamp, ok);
            Doable(s, t, a) && ThreadOk(Perform(s, t, a), Thread(pc, GoneAfter(s.threads[t].gone, a)))
  {
    var pc := s.threads[t].pc;
    PlanIsDoable(s, t, order, stamp, ok);
    if pc.Insert? || pc.Use? {
      UsingOk(s, t, order, stamp, ok);
    } else if pc.Remove? || pc.Doom? {
      TakingOk(s, t, order, stamp, ok);
    } else if pc.Flush? {
      FlushingOk(s, t, order, stamp, ok);
    } else {
      EndingOk(s, t, order, stamp, ok);
    }
  }

  lemma ArrivesOk(s: State, t: Tid, order: seq<Id>, stamp: int, ok: bool)
    requires StepReady(s, t, order)
    ensures var (a, pc) := Plan(s, s.threads[t], order, stamp, ok);
            Doable(s, t, a) && ThreadOk(Perform(s, t, a), Thread(pc, GoneAfter(s.threads[t].gone, a)))
  {
    var pc := s.threads[t].pc;
    PlanIsDoable(s, t, order, stamp, ok);
    if pc.Reap? {
      ReapOk(s, t, order, stamp, ok);
    } else if !Plan(s, s.threads[t], order, stamp, ok).0.Keep? {
      ActingOk(s, t, order, stamp, ok);
    } else if pc.Gather? {
      GatherOk(s, t, order, stamp, ok);
    } else if pc.Visit? {
      VisitOk(s, t, order, stamp, ok);
    } else if pc.Delete? {
      DeleteOk(s, t, order, stamp, ok);
    } else {
      QuietlyOk(s, t, order, stamp, ok);
    }
  }

  // ---------------------------------------------------------- what the locks are for

  /** A step removes entries only from a shard it has locked. */
  lemma ActsUnderLock(s: State, t: Tid, order: seq<Id>, stamp: int, ok: bool)
    requires StepReady(s, t, order)
    ensures var h := ActShard(s, Plan(s, s.threads[t], order, stamp, ok).0);
            h == NONE || h == Writing(s, s.threads[t].pc) || h == WantsWrite(s, s.threads[t])
  {
    var pc := s.threads[t].pc;
    if pc.Remove? && Mapped(s, pc.key) {
      MappedIsCurrent(s, pc.key);
    } else if pc.Reap? {
      assert InShard(s, pc.shard, pc.todo[0]);
    }
  }

  /** And holds afterwards only what it held or was granted. */
  lemma LocksAsGranted(s: State, t: Tid, order: seq<Id>, stamp: int, ok: bool)
    requires StepReady(s, t, order)
    ensures var pc := Plan(s, s.threads[t], order, stamp, ok).1;
            && (Writing(s, pc) == NONE || Writing(s, pc) == Writing(s, s.threads[t].pc)
                || Writing(s, pc) == WantsWrite(s, s.threads[t]))
            && (Reading(pc) == NONE || Reading(pc) == Reading(s.threads[t].pc)
                || Reading(pc) == WantsRead(s, s.threads[t]))
  {
  }

  lemma WritingStays(s: State, s': State, t: Tid, pc: Pc)
    requires Onward(s, s', t)
    requires pc.Doom? && pc.next < |pc.seen| ==> pc.seen[pc.next].id < |s.entries|
    ensures Writing(s', pc) == Writing(s, pc)
  {
  }

  /** What thread u holds locked stays out of reach of thread t's step. */
  lemma OutOfReach(s: State, t: Tid, order: seq<Id>, stamp: int, ok: bool, u: Tid)
    requires StepReady(s, t, order) && Exclusive(s) && Granted(s, t) && u in s.threads && u != t
    requires Writing(s, s.threads[u].pc) != NONE
    ensures ActShard(s, Plan(s, s.threads[t], order, stamp, ok).0) != Writing(s, s.threads[u].pc)
  {
    ActsUnderLock(s, t, order, stamp, ok);
    assert Apart(s, s.threads[t].pc, s.threads[u].pc);
  }

  lemma OtherOk(s: State, t: Tid, order: seq<Id>, stamp: int, ok: bool, u: Tid)
    requires StepReady(s, t, order) && Exclusive(s) && Granted(s, t)
    requires u in s.threads && u != t && ThreadOk(s, s.threads[u])
    ensures Doable(s, t, Plan(s, s.threads[t], order, stamp, ok).0)
    ensures ThreadOk(Perform(s, t, Plan(s, s.threads[t], order, stamp, ok).0), s.threads[u])
  {
    PlanIsDoable(s, t, order, stamp, ok);
    var a := Plan(s, s.threads[t], order, stamp, ok).0;
    var pc := s.threads[u].pc;
    PerformOnward(s, t, a);
    if pc.Visit? || pc.Reap? {
      OutOfReach(s, t, order, stamp, ok, u);
      OnShardStays(s, t, a, pc.shard, pc.todo);
    } else if pc.Doom? {
      OutOfReach(s, t, order, stamp, ok, u);
      var id := pc.seen[pc.next].id;
      if a.Clear? {
        OtherShard(s, s.home(s.entries[id].key), id, a.shard, a.ids);
      }
      PerformLeaves(s, t, a, id);
    } else {
      UnlockedOk(s, Perform(s, t, a), t, s.threads[u]);
    }
  }

  lemma UnlockedOk(s: State, s': State, t: Tid, th: Thread)
    requires Onward(s, s', t) && ThreadOk(s, th) && !th.pc.Visit? && !th.pc.Reap? && !th.pc.Doom?
    ensures ThreadOk(s', th)
  {
  }

  /** Where t arrives it is apart from everybody else. */
  lemma ArrivesApart(s: State, t: Tid, order: seq<Id>, stamp: int, ok: bool, u: Tid)
    requires StepReady(s, t, order) && Exclusive(s) && Granted(s, t) && u in s.threads && u != t
    ensures var pc := Plan(s, s.threads[t], order, stamp, ok).1;
            Apart(s, pc, s.threads[u].pc) && Apart(s, s.threads[u].pc, pc)
  {
    LocksAsGranted(s, t, order, stamp, ok);
    assert Apart(s, s.threads[t].pc, s.threads[u].pc) && Apart(s, s.threads[u].pc, s.threads[t].pc);
  }

  lemma ApartStays(s: State, s': State, t: Tid, one: Pc, other: Pc)
    requires Onward(s, s', t) && Apart(s, one, other)
    requires one.Doom? && one.next < |one.seen| ==> one.seen[one.next].id < |s.entries|
    requires other.Doom? && other.next < |other.seen| ==> other.seen[other.next].id < |s.entries|
    ensures Apart(s', one, other)
  {
    WritingStays(s, s', t, one);
    WritingStays(s, s', t, other);
  }

  lemma OthersApart(s: State, s': State, t: Tid, v: Tid, u: Tid)
    requires Inv(s) && Onward(s, s', t) && v in s.threads && u in s.threads && v != u && v != t && u != t
    ensures Apart(s', s'.threads[v].pc, s'.threads[u].pc)
  {
    assert Apart(s, s.threads[v].pc, s.threads[u].pc);
    assert ThreadOk(s, s.threads[v]) && ThreadOk(s, s.threads[u]);
    ApartStays(s, s', t, s.threads[v].pc, s.threads[u].pc);
  }

  lemma PairApart(s: State, s': State, t: Tid, order: seq<Id>, stamp: int, ok: bool, u: Tid)
    requires StepReady(s, t, order) && Inv(s) && Granted(s, t) && Onward(s, s', t)
    requires t in s'.threads && s'.threads[t].pc == Plan(s, s.threads[t], order, stamp, ok).1
    requires u in s'.threads && u != t
    ensures Apart(s', s'.threads[t].pc, s'.threads[u].pc) && Apart(s', s'.threads[u].pc, s'.threads[t].pc)
  {
    ArrivesBelow(s, t, order, stamp, ok);
    assert ThreadOk(s, s.threads[u]);
    ArrivesApart(s, t, order, stamp, ok, u);
    ApartStays(s, s', t, s'.threads[t].pc, s'.threads[u].pc);
    ApartStays(s, s', t, s'.threads[u].pc, s'.threads[t].pc);
  }

  /** Locks stay exclusive. */
  lemma StaysExclusive(s: State, s': State, t: Tid, order: seq<Id>, stamp: int, ok: bool)
    requires StepReady(s, t, order) && Inv(s) && Granted(s, t) && Onward(s, s', t)
    requires t in s'.threads && s'.threads[t].pc == Plan(s, s.threads[t], order, stamp, ok).1
    ensures Exclusive(s')
  {
    forall v, u | v in s'.threads && u in s'.threads && v != u
      ensures Apart(s', s'.threads[v].pc, s'.threads[u].pc)
    {
      if v != t && u != t {
        OthersApart(s, s', t, v, u);
      } else {
        PairApart(s, s', t, order, stamp, ok, if v == t then u else v);
      }
    }
  }

  lemma ArrivesBelow(s: State, t: Tid, order: seq<Id>, stamp: int, ok: bool)
    requires StepReady(s, t, order)
    ensures var pc := Plan(s, s.threads[t], order, stamp, ok).1;
            pc.Doom? && pc.next < |pc.seen| ==> pc.seen[pc.next].id < |s.entries|
  {
  }

  lemma StepMoves(s: State, t: Tid, order: seq<Id>, stamp: int, ok: bool)
    requires StepReady(s, t, order)
    ensures var (a, pc) := Plan(s, s.threads[t], order, stamp, ok);
            var s' := StepOf(s, t, order, stamp, ok);
            && Core(s') && Onward(s, s', t) && t in s'.threads
            && s'.threads[t] == Thread(pc, GoneAfter(s.threads[t].gone, a))
  {
    PlanIsDoable(s, t, order, stamp, ok);
    var (a, pc) := Plan(s, s.threads[t], order, stamp, ok);
    PerformKeeps(s, t, a);
    PerformOnward(s, t, a);
    SameKeeps(Perform(s, t, a), StepOf(s, t, order, stamp, ok));
  }

  lemma StepThreadOk(s: State, t: Tid, order: seq<Id>, stamp: int, ok: bool, u: Tid)
    requires StepReady(s, t, order) && Inv(s) && Granted(s, t)
    requires u in s.threads && StepOf(s, t, order, stamp, ok).threads.Keys == s.threads.Keys
    requires u != t ==> StepOf(s, t, order, stamp, ok).threads[u] == s.threads[u]
    ensures ThreadOk(StepOf(s, t, order, stamp, ok), StepOf(s, t, order, stamp, ok).threads[u])
  {
    var (a, pc) := Plan(s, s.threads[t], order, stamp, ok);
    PlanIsDoable(s, t, order, stamp, ok);
    if u == t {
      StepMoves(s, t, order, stamp, ok);
      ArrivesOk(s, t, order, stamp, ok);
      ThreadOkHere(Perform(s, t, a), t, pc, Thread(pc, GoneAfter(s.threads[t].gone, a)));
    } else {
      OtherOk(s, t, order, stamp, ok, u);
      ThreadOkHere(Perform(s, t, a), t, pc, s.threads[u]);
    }
  }

  lemma StepGood(s: State, t: Tid, order: seq<Id>, stamp: int, ok: bool)
    requires Inv(s) && Enabled(s, Step(t, order, stamp, ok))
    ensures StepReady(s, t, order) && Inv(StepOf(s, t, order, stamp, ok))
    ensures Onward(s, StepOf(s, t, order, stamp, ok), t)
  {
    EnabledIsReady(s, t, order, stamp, ok);
    StepMoves(s, t, order, stamp, ok);
    var s' := StepOf(s, t, order, stamp, ok);
    StaysExclusive(s, s', t, order, stamp, ok);
    forall u | u in s'.threads
      ensures ThreadOk(s', s'.threads[u])
    {
      StepThreadOk(s, t, order, stamp, ok, u);
    }
  }

  // ----------------------------------------------------------------------- runs

  ghost function Apply(s: State, e: Event): State
    requires Inv(s) && Enabled(s, e)
  {
    match e
    case Start(t, pc) => s.(threads := s.threads[t := Thread(pc, [])])
    case Step(t, order, stamp, ok) =>
      EnabledIsReady(s, t, order, stamp, ok);
      StepOf(s, t, order, stamp, ok)
  }

  lemma StartMoves(s: State, t: Tid, pc: Pc)
    requires Inv(s) && Enabled(s, Start(t, pc))
    ensures Core(Apply(s, Start(t, pc))) && Onward(s, Apply(s, Start(t, pc)), t)
  {
    SameKeeps(s, Apply(s, Start(t, pc)));
  }

  lemma StartsApart(s: State, s': State, t: Tid, v: Tid, u: Tid)
    requires Inv(s) && Onward(s, s', t) && t in s'.threads && Entrance(s'.threads[t].pc)
    requires v in s'.threads && u in s'.threads && v != u
    ensures Apart(s', s'.threads[v].pc, s'.threads[u].pc)
  {
    if v == t || u == t {
      assert Writing(s', s'.threads[t].pc) == NONE && Reading(s'.threads[t].pc) == NONE;
    } else {
      OthersApart(s, s', t, v, u);
    }
  }

  lemma StartGood(s: State, t: Tid, pc: Pc)
    requires Inv(s) && Enabled(s, Start(t, pc))
    ensures Inv(Apply(s, Start(t, pc))) && Onward(s, Apply(s, Start(t, pc)), t)
  {
    var s' := Apply(s, Start(t, pc));
    StartMoves(s, t, pc);
    forall v, u | v in s'.threads && u in s'.threads && v != u
      ensures Apart(s', s'.threads[v].pc, s'.threads[u].pc)
    {
      StartsApart(s, s', t, v, u);
    }
    forall u | u in s'.threads
      ensures ThreadOk(s', s'.threads[u])
    {
      StartThreadOk(s, t, pc, u);
    }
  }

  lemma StartThreadOk(s: State, t: Tid, pc: Pc, u: Tid)
    requires Inv(s) && Enabled(s, Start(t, pc)) && (u == t || u in s.threads)
    ensures var s' := Apply(s, Start(t, pc)); u in s'.threads && ThreadOk(s', s'.threads[u])
  {
    if u != t {
      assert ThreadOk(s, s.threads[u]);
    }
  }

  lemma StepKeepsInv(s: State, e: Event)
    requires Inv(s) && Enabled(s, e)
    ensures Inv(Apply(s, e)) && Onward(s, Apply(s, e), e.t)
  {
    match e
    case Start(t, pc) => StartGood(s, t, pc);
    case Step(t, order, stamp, ok) => StepGood(s, t, order, stamp, ok);
  }

  ghost predicate Legal(s: State, es: seq<Event>)
    requires Inv(s)
    decreases |es|
  {
    es == [] || (Enabled(s, es[0]) && (StepKeepsInv(s, es[0]); Legal(Apply(s, es[0]), es[1..])))
  }

  ghost function Exec(s: State, es: seq<Event>): (s': State)
    requires Inv(s) && Legal(s, es)
    ensures Inv(s')
    decreases |es|
  {
    if es == [] then s else (StepKeepsInv(s, es[0]); Exec(Apply(s, es[0]), es[1..]))
  }

  function Init(home: Key -> nat, n: nat): State {
    State(home, seq(n, i => map[]), seq(n, i => 0), [], 0, {}, map[])
  }

  lemma {:induction false} SumOfZeros(n: nat)
    ensures Sum(seq(n, i => 0)) == 0
  {
    if n > 0 {
      assert seq(n, i => 0)[..n - 1] == seq(n - 1, i => 0);
      SumOfZeros(n - 1);
    }
  }

  lemma InitInv(home: Key -> nat, n: nat)
    ensures Inv(Init(home, n))
  {
    SumOfZeros(n);
  }

  ghost predicate RunsFrom(home: Key -> nat, n: nat, es: seq<Event>, s: State) {
    InitInv(home, n);
    Legal(Init(home, n), es) && s == Exec(Init(home, n), es)
  }

  ghost predicate Reachable(s: State) {
    exists home, n, es :: RunsFrom(home, n, es, s)
  }

  lemma ReachableKeepsInv(s: State)
    requires Reachable(s)
    ensures Inv(s)
  {
    var home, n, es :| RunsFrom(home, n, es, s);
    InitInv(home, n);
    assert Inv(Exec(Init(home, n), es));
  }

  // ----------------------------------------------- refinement to one flat map

  /** What a step is seen to do: hand an entry to a caller, create one, remove some. */
  datatype Label = Tau | Found(key: Key, id: Id) | Created(key: Key, id: Id) | Removed(ids: seq<Id>)

  function ActLabel(s: State, a: Act): Label {
    match a
    case Create(key, _) => Created(key, |s.entries|)
    case Take(id) => Removed([id])
    case Clear(_, ids) => Removed(ids)
    case _ => Tau
  }

  function LabelOf(s: State, e: Event): Label
    requires Inv(s)
  {
    if e.Start? || e.t !in s.threads then Tau
    else
      var th := s.threads[e.t];
      if (th.pc.Look? || th.pc.Insert?) && Mapped(s, th.pc.key) then Found(th.pc.key, Lookup(s, th.pc.key))
      else ActLabel(s, Plan(s, th, e.order, e.stamp, e.ok).0)
  }

  /** The one map the shards stand for. */
  function Flat(s: State): map<Key, Id> {
    map i, key | 0 <= i < |s.shards| && key in s.shards[i] && s.home(key) == i :: key := s.shards[i][key]
  }

  /** What the flat map is allowed to do. */
  ghost predicate FlatStep(m: map<Key, Id>, m': map<Key, Id>, did: Label) {
    match did
    case Tau => m' == m
    case Found(key, id) => key in m && m[key] == id && m' == m
    case Created(key, id) => key !in m && m' == m[key := id]
    case Removed(ids) => m' == map key | key in m && m[key] !in ids :: m[key]
  }

  lemma FlatIsLookup(s: State, key: Key)
    ensures key in Flat(s) <==> Mapped(s, key)
    ensures Mapped(s, key) ==> Flat(s)[key] == Lookup(s, key)
  {
  }

  lemma TakeOutFlat(s: State, t: Tid, id: Id, key: Key)
    requires Core(s) && t in s.threads && Current(s, id)
    ensures Mapped(TakeOut(s, t, id), key) <==> Mapped(s, key) && Lookup(s, key) != id
    ensures Mapped(TakeOut(s, t, id), key) ==> Lookup(TakeOut(s, t, id), key) == Lookup(s, key)
  {
    if Mapped(s, key) {
      assert key in s.shards[s.home(key)];
    }
  }

  lemma {:induction false} TakeAllFlat(s: State, t: Tid, ids: seq<Id>, key: Key)
    requires Core(s) && t in s.threads && Known(ids, |s.entries|) && Distinct(ids)
    requires forall i :: 0 <= i < |ids| ==> s.entries[ids[i]].fate.Live?
    ensures Mapped(TakeAll(s, t, ids), key) <==> Mapped(s, key) && Lookup(s, key) !in ids
    ensures Mapped(TakeAll(s, t, ids), key) ==> Lookup(TakeAll(s, t, ids), key) == Lookup(s, key)
    decreases |ids|
  {
    if ids != [] {
      assert Current(s, ids[0]);
      TakeOutFlat(s, t, ids[0], key);
      TakeOutKeeps(s, t, ids[0]);
      TakeAllFlat(TakeOut(s, t, ids[0]), t, ids[1..], key);
    }
  }

  /** What a step does to one key. */
  ghost predicate KeyStep(s: State, s': State, did: Label, key: Key) {
    match did
    case Created(k, id) =>
      Mapped(s', key) == (Mapped(s, key) || key == k)
      && (Mapped(s', key) ==> Lookup(s', key) == if key == k then id else Lookup(s, key))
    case Removed(ids) =>
      Mapped(s', key) == (Mapped(s, key) && Lookup(s, key) !in ids)
      && (Mapped(s', key) ==> Lookup(s', key) == Lookup(s, key))
    case _ => Mapped(s', key) == Mapped(s, key) && (Mapped(s, key) ==> Lookup(s', key) == Lookup(s, key))
  }

  lemma ActKey(s: State, t: Tid, a: Act, key: Key)
    requires Core(s) && Doable(s, t, a)
    ensures KeyStep(s, Perform(s, t, a), ActLabel(s, a), key)
  {
    if a.Take? {
      TakeOutFlat(s, t, a.id, key);
    } else if a.Clear? {
      OnShardIsLive(s, a.shard, a.ids);
      TakeAllFlat(s, t, a.ids, key);
    } else if a.CountEach? {
      CountAllEffect(s, t);
    }
  }

  lemma StepKey(s: State, t: Tid, order: seq<Id>, stamp: int, ok: bool, key: Key)
    requires Inv(s) && Enabled(s, Step(t, order, stamp, ok))
    ensures KeyStep(s, Apply(s, Step(t, order, stamp, ok)), LabelOf(s, Step(t, order, stamp, ok)), key)
  {
    EnabledIsReady(s, t, order, stamp, ok);
    PlanIsDoable(s, t, order, stamp, ok);
    ActKey(s, t, Plan(s, s.threads[t], order, stamp, ok).0, key);
  }

  lemma EveryKeySteps(s: State, e: Event)
    requires Inv(s) && Enabled(s, e)
    ensures forall key {:trigger KeyStep(s, Apply(s, e), LabelOf(s, e), key)} ::
              KeyStep(s, Apply(s, e), LabelOf(s, e), key)
  {
    forall key
      ensures KeyStep(s, Apply(s, e), LabelOf(s, e), key)
    {
      if e.Step? {
        StepKey(s, e.t, e.order, e.stamp, e.ok, key);
      }
    }
  }

  lemma LabelFits(s: State, e: Event)
    requires Inv(s) && Enabled(s, e)
    ensures var did := LabelOf(s, e);
            (did.Found? ==> Mapped(s, did.key) && Lookup(s, did.key) == did.id)
            && (did.Created? ==> !Mapped(s, did.key))
  {
    if e.Step? {
      EnabledIsReady(s, e.t, e.order, e.stamp, e.ok);
      PlanIsDoable(s, e.t, e.order, e.stamp, e.ok);
    }
  }

  /** The sharded registry refines one flat map: every step is a lookup, an insertion
      under an absent key, a removal, or nothing, of that map. */
  lemma StepRefinesFlat(s: State, e: Event)
    requires Inv(s) && Enabled(s, e)
    ensures FlatStep(Flat(s), Flat(Apply(s, e)), LabelOf(s, e))
  {
    EveryKeySteps(s, e);
    LabelFits(s, e);
    KeysMakeFlat(s, Apply(s, e), LabelOf(s, e));
  }

  lemma FlatMatches(s: State, m: map<Key, Id>)
    requires forall key :: key in m <==> Mapped(s, key)
    requires forall key :: key in m ==> m[key] == Lookup(s, key)
    ensures Flat(s) == m
  {
    forall key
      ensures key in Flat(s) <==> key in m
      ensures key in m ==> Flat(s)[key] == m[key]
    {
      FlatIsLookup(s, key);
    }
  }

  /** The map FlatStep allows. */
  function Stepped(m: map<Key, Id>, did: Label): map<Key, Id> {
    match did
    case Created(key, id) => m[key := id]
    case Removed(ids) => map key | key in m && m[key] !in ids :: m[key]
    case _ => m
  }

  lemma KeysMakeFlat(s: State, s': State, did: Label)
    requires forall key {:trigger KeyStep(s, s', did, key)} :: KeyStep(s, s', did, key)
    requires did.Found? ==> Mapped(s, did.key) && Lookup(s, did.key) == did.id
    requires did.Created? ==> !Mapped(s, did.key)
    ensures FlatStep(Flat(s), Flat(s'), did)
  {
    var m := Stepped(Flat(s), did);
    forall key
      ensures key in m <==> Mapped(s', key)
      ensures key in m ==> m[key] == Lookup(s', key)
    {
      FlatIsLookup(s, key);
      assert KeyStep(s, s', did, key);
    }
    FlatMatches(s', m);
    if did.Found? || did.Created? {
      FlatIsLookup(s, did.key);
    }
  }

  // --------------------------------------------------------------- main results

  /** A removed entry never returns, whatever happens next. */
  lemma {:induction false} RemovedNeverReturns(s: State, es: seq<Event>, id: Id)
    requires Inv(s) && Legal(s, es) && id < |s.entries| && !s.entries[id].fate.Live?
    ensures id < |Exec(s, es).entries| && !Current(Exec(s, es), id)
    decreases |es|
  {
    if es == [] {
      CurrentIsLive(s, id);
    } else {
      StepKeepsInv(s, es[0]);
      RemovedNeverReturns(Apply(s, es[0]), es[1..], id);
    }
  }

  lemma {:induction false} KeyIsFixed(s: State, es: seq<Event>, id: Id)
    requires Inv(s) && Legal(s, es) && id < |s.entries|
    ensures id < |Exec(s, es).entries| && Exec(s, es).entries[id].key == s.entries[id].key
    decreases |es|
  {
    if es != [] {
      StepKeepsInv(s, es[0]);
      KeyIsFixed(Apply(s, es[0]), es[1..], id);
    }
  }

  /** Whoever is handed an entry is handed the one the key maps to. */
  lemma HandedIsCurrent(s: State, e: Event)
    requires Inv(s) && Enabled(s, e) && (LabelOf(s, e).Found? || LabelOf(s, e).Created?)
    ensures Inv(Apply(s, e)) && Current(Apply(s, e), LabelOf(s, e).id)
    ensures Apply(s, e).entries[LabelOf(s, e).id].key == LabelOf(s, e).key
  {
    StepKeepsInv(s, e);
    var s' := Apply(s, e);
    var did := LabelOf(s, e);
    StepRefinesFlat(s, e);
    FlatIsLookup(s', did.key);
    assert did.key in s'.shards[s'.home(did.key)];
  }

  /** While an entry stays on the map it is what its key maps to. */
  lemma StaysCurrent(s: State, es: seq<Event>, id: Id)
    requires Inv(s) && Legal(s, es) && id < |s.entries|
    ensures id < |Exec(s, es).entries| && Exec(s, es).entries[id].key == s.entries[id].key
    ensures Exec(s, es).entries[id].fate.Live? ==> Current(Exec(s, es), id)
  {
    KeyIsFixed(s, es, id);
    CurrentIsLive(Exec(s, es), id);
  }

  /** Between an entry's insertion and its removal every caller asking for its key is
      handed that entry: a caller of e2 handed another one than a caller of e1, found or
      newly created, any number of steps earlier, proves that the first was removed in
      between. */
  lemma CallersShareTheEntry(s: State, e1: Event, mid: State, es: seq<Event>, end: State, e2: Event)
    requires Inv(s) && Enabled(s, e1) && mid == Apply(s, e1) && Inv(mid)
    requires Legal(mid, es) && end == Exec(mid, es) && Enabled(end, e2)
    requires LabelOf(s, e1).Found? || LabelOf(s, e1).Created?
    requires LabelOf(end, e2).Found? || LabelOf(end, e2).Created?
    requires LabelOf(end, e2).key == LabelOf(s, e1).key
    ensures LabelOf(s, e1).id < |end.entries|
    ensures LabelOf(end, e2).id == LabelOf(s, e1).id || !end.entries[LabelOf(s, e1).id].fate.Live?
  {
    HandedIsCurrent(s, e1);
    StaysCurrent(mid, es, LabelOf(s, e1).id);
    LabelFits(end, e2);
  }

  /** In every reachable state, Registry.Keys and Registry.Evictions against every entry ever
      inserted: each is on the map, counted, removed and still to be reported, or lost to
      a failed Save; and each live counter is the size of its shard. */
  lemma InsertionsAreAccountedFor(s: State)
    requires Reachable(s)
    ensures |s.entries| == Keys(s) + s.evictions + Tally(s.entries, IsGone) + Tally(s.entries, IsFailed)
    ensures s.evictions == Tally(s.entries, IsCounted)
    ensures |s.live| == |s.shards| && forall i :: 0 <= i < |s.shards| ==> s.live[i] == |s.shards[i]|
    ensures forall i, key {:trigger key in s.shards[i]} ::
              0 <= i < |s.shards| && key in s.shards[i] ==> s.home(key) == i
  {
    ReachableKeepsInv(s);
    TallyTotal(s.entries);
  }

  /** Two threads never hold one shard, unless both only read it. */
  lemma WritersAreAlone(s: State, t: Tid, u: Tid)
    requires Reachable(s) && t in s.threads && u in s.threads && t != u && Writing(s, s.threads[t].pc) != NONE
    ensures Writing(s, s.threads[u].pc) != Writing(s, s.threads[t].pc)
    ensures Reading(s.threads[u].pc) != Writing(s, s.threads[t].pc)
  {
    ReachableKeepsInv(s);
    assert Apart(s, s.threads[t].pc, s.threads[u].pc);
  }
}
