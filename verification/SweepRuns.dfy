/** The sweep among everything else (registry/gc.go:100-188): what a persisting sweep deletes,
    with which stamp, and the touch it does not see. The steps are RegistryRuns'. */
module SweepRuns {
  import opened RegistryRuns

  // ------------------------------------------------------------ the persisting sweep

  /** Thread t is about to delete what phase 3 has just tested. */
  predicate Dooming(s: State, t: Tid) {
    t in s.threads && s.threads[t].pc.Doom? && s.threads[t].pc.next < |s.threads[t].pc.seen|
  }

  function Doomed(s: State, t: Tid): Seen
    requires Dooming(s, t)
  {
    s.threads[t].pc.seen[s.threads[t].pc.next]
  }

  /** A sweep comes to delete an entry only by finding it on the map with the stamp it was
      seen with. */
  lemma TestReadsTheStamp(s: State, e: Event)
    requires Inv(s) && Enabled(s, e) && e.Step? && !s.threads[e.t].pc.Doom? && Dooming(Apply(s, e), e.t)
    ensures var x := Doomed(Apply(s, e), e.t);
            Current(s, x.id) && s.entries[x.id].lastUsed == x.lastUsed && Apply(s, e).entries == s.entries
  {
  }

  /** Its walk picks an entry up exactly when that was last used before the cutoff, with the
      stamp it compared, and passes it by otherwise. */
  lemma WalkReadsTheStamp(s: State, e: Event)
    requires Inv(s) && Enabled(s, e) && e.Step? && s.threads[e.t].pc.Gather? && s.threads[e.t].pc.todo != []
    ensures var pc := s.threads[e.t].pc;
            var id := pc.todo[0];
            && id < |s.entries| && Apply(s, e).threads[e.t].pc
               == Gather(pc.cutoff, pc.shard,
                         pc.seen + (if s.entries[id].lastUsed < pc.cutoff
                                    then [Seen(id, s.entries[id].lastUsed)] else []),
                         pc.todo[1..])
  {
  }

  /** An in-place sweep comes to delete an entry exactly when that was last used before the
      cutoff. */
  lemma VisitReadsTheStamp(s: State, e: Event)
    requires Inv(s) && Enabled(s, e) && e.Step? && s.threads[e.t].pc.Visit? && s.threads[e.t].pc.todo != []
    ensures var id := s.threads[e.t].pc.todo[0];
            && Current(s, id) && Apply(s, e).entries == s.entries
            && (Apply(s, e).threads[e.t].pc.Reap? <==> s.entries[id].lastUsed < s.threads[e.t].pc.cutoff)
  {
    assert ThreadOk(s, s.threads[e.t]) && InShard(s, s.threads[e.t].pc.shard, s.threads[e.t].pc.todo[0]);
  }

  lemma DoomTakes(s: State, e: Event)
    requires Inv(s) && Enabled(s, e) && e.Step? && Dooming(s, e.t)
    ensures Current(s, Doomed(s, e.t).id)
    ensures Apply(s, e).entries == TakeOut(s, e.t, Doomed(s, e.t).id).entries
    ensures Apply(s, e).shards == TakeOut(s, e.t, Doomed(s, e.t).id).shards && Apply(s, e).home == s.home
  {
  }

  /** A persisting sweep deletes only an entry that is still its key's, that existed when its
      snapshot was complete, and that was handed to Flush with the very stamp its test read. */
  lemma SweepDeletesOnlyFlushed(s: State, e: Event)
    requires Inv(s) && Enabled(s, e) && e.Step? && Dooming(s, e.t)
    ensures LabelOf(s, e) == Removed([Doomed(s, e.t).id]) && Current(s, Doomed(s, e.t).id)
    ensures Doomed(s, e.t).id < s.threads[e.t].pc.known <= |s.entries| && Doomed(s, e.t) in s.flushed
    ensures !Current(Apply(s, e), Doomed(s, e.t).id)
  {
    var x := Doomed(s, e.t);
    assert ThreadOk(s, s.threads[e.t]) && x in s.threads[e.t].pc.seen;
    DoomTakes(s, e);
    TakeOutFlat(s, e.t, x.id, s.entries[x.id].key);
  }

  /** The event stamps entry id. */
  predicate Touches(s: State, e: Event, id: Id) {
    e.Step? && e.t in s.threads && s.threads[e.t].pc == Use(id)
  }

  lemma OnlyTouchesStamp(s: State, e: Event, id: Id)
    requires Inv(s) && Enabled(s, e) && id < |s.entries|
    ensures id < |Apply(s, e).entries|
    ensures Apply(s, e).entries[id].lastUsed == if Touches(s, e, id) then e.stamp else s.entries[id].lastUsed
  {
    if e.Step? {
      EnabledIsReady(s, e.t, e.order, e.stamp, e.ok);
      PlanIsDoable(s, e.t, e.order, e.stamp, e.ok);
      ActStamps(s, e.t, Plan(s, s.threads[e.t], e.order, e.stamp, e.ok).0, id);
    }
  }

  lemma ActStamps(s: State, t: Tid, a: Act, id: Id)
    requires Core(s) && Doable(s, t, a) && id < |s.entries|
    ensures id < |Perform(s, t, a).entries|
    ensures Perform(s, t, a).entries[id].lastUsed
            == if a.Touch? && a.id == id then a.stamp else s.entries[id].lastUsed
  {
    if a.Clear? {
      OnShardIsLive(s, a.shard, a.ids);
      TakeAllEffect(s, t, a.ids);
    } else if a.CountEach? {
      CountAllEffect(s, t);
    }
  }

  /** No step of the run is thread t's. */
  predicate NotBy(es: seq<Event>, t: Tid) {
    forall i :: 0 <= i < |es| ==> es[i].t != t
  }

  lemma StepSpares(s: State, e: Event, t: Tid)
    requires Inv(s) && Enabled(s, e) && t in s.threads && e.t != t
    ensures Inv(Apply(s, e)) && t in Apply(s, e).threads && Apply(s, e).threads[t] == s.threads[t]
  {
    StepKeepsInv(s, e);
  }

  lemma {:induction false} ThreadWaits(s: State, es: seq<Event>, t: Tid)
    requires Inv(s) && Legal(s, es) && t in s.threads && NotBy(es, t)
    ensures t in Exec(s, es).threads && Exec(s, es).threads[t] == s.threads[t]
    decreases |es|
  {
    if es != [] {
      assert es[0].t != t && NotBy(es[1..], t);
      StepSpares(s, es[0], t);
      ThreadWaits(Apply(s, es[0]), es[1..], t);
    }
  }

  /** From a sweep's test on, whatever the others do before it deletes, the entry stays its
      key's. */
  lemma DoomHolds(s: State, es: seq<Event>, t: Tid)
    requires Inv(s) && Legal(s, es) && Dooming(s, t) && NotBy(es, t)
    ensures Dooming(Exec(s, es), t) && Doomed(Exec(s, es), t) == Doomed(s, t)
    ensures Current(Exec(s, es), Doomed(s, t).id)
  {
    ThreadWaits(s, es, t);
    assert ThreadOk(Exec(s, es), Exec(s, es).threads[t]);
  }

  /** A thread other than t has entry id and is about to touch it. */
  predicate InHand(s: State, id: Id, t: Tid) {
    exists u :: u in s.threads && u != t && s.threads[u].pc == Use(id)
  }

  /** Nobody comes to hold an entry while its shard is write-locked by somebody else. */
  lemma NoNewHolder(s: State, t: Tid, order: seq<Id>, stamp: int, ok: bool, id: Id, u: Tid)
    requires Core(s) && u in s.threads && ThreadOk(s, s.threads[u]) && Granted(s, u)
    requires t in s.threads && u != t && id < |s.entries| && Writing(s, s.threads[t].pc) == HomeOf(s, id)
    requires s.threads[u].pc != Use(id)
    ensures Plan(s, s.threads[u], order, stamp, ok).1 != Use(id)
  {
    var pc := s.threads[u].pc;
    if (pc.Look? || pc.Insert?) && Mapped(s, pc.key) {
      MappedIsCurrent(s, pc.key);
    }
  }

  lemma StepsElsewhere(s: State, e: Event, t: Tid)
    requires Inv(s) && Enabled(s, e) && Dooming(s, t) && e.t != t && !InHand(s, Doomed(s, t).id, t)
    ensures e.t in Apply(s, e).threads && Apply(s, e).threads[e.t].pc != Use(Doomed(s, t).id)
  {
    assert ThreadOk(s, s.threads[t]);
    if e.Step? {
      EnabledIsReady(s, e.t, e.order, e.stamp, e.ok);
      StepMoves(s, e.t, e.order, e.stamp, e.ok);
      NoNewHolder(s, t, e.order, e.stamp, e.ok, Doomed(s, t).id, e.t);
    }
  }

  lemma StaysOutOfHand(s: State, e: Event, t: Tid)
    requires Inv(s) && Enabled(s, e) && Dooming(s, t) && e.t != t && !InHand(s, Doomed(s, t).id, t)
    ensures Inv(Apply(s, e)) && !InHand(Apply(s, e), Doomed(s, t).id, t)
  {
    StepKeepsInv(s, e);
    StepsElsewhere(s, e, t);
  }

  lemma {:induction false} StampHolds(s: State, es: seq<Event>, t: Tid)
    requires Inv(s) && Legal(s, es) && Dooming(s, t) && NotBy(es, t) && !InHand(s, Doomed(s, t).id, t)
    requires Doomed(s, t).id < |s.entries|
    ensures Doomed(s, t).id < |Exec(s, es).entries|
    ensures Exec(s, es).entries[Doomed(s, t).id].lastUsed == s.entries[Doomed(s, t).id].lastUsed
    decreases |es|
  {
    if es != [] {
      assert es[0].t != t && NotBy(es[1..], t);
      StaysOutOfHand(s, es[0], t);
      StepSpares(s, es[0], t);
      OnlyTouchesStamp(s, es[0], Doomed(s, t).id);
      StampHolds(Apply(s, es[0]), es[1..], t);
    }
  }

  /** Whatever es does before thread t deletes, the entry carries the stamp t tested. */
  ghost predicate Survives(s: State, es: seq<Event>, t: Tid)
    requires Inv(s) && Dooming(s, t)
  {
    Legal(s, es) && NotBy(es, t) ==>
      Doomed(s, t).id < |Exec(s, es).entries|
      && Exec(s, es).entries[Doomed(s, t).id].lastUsed == Doomed(s, t).lastUsed
  }

  lemma OneStep(s: State, e: Event)
    requires Inv(s) && Enabled(s, e)
    ensures Legal(s, [e]) && Exec(s, [e]) == Apply(s, e)
  {
    StepKeepsInv(s, e);
    OneFirst(s, e, []);
    assert [e] + [] == [e];
  }

  lemma UseIsEnabled(s: State, u: Tid, id: Id, stamp: int)
    requires u in s.threads && s.threads[u].pc == Use(id)
    ensures Enabled(s, Step(u, [], stamp, true))
  {
  }

  lemma SlipsIn(s: State, t: Tid, u: Tid)
    requires Inv(s) && Dooming(s, t) && Untouched(s, Doomed(s, t))
    requires u in s.threads && u != t && s.threads[u].pc == Use(Doomed(s, t).id)
    ensures !Survives(s, [Step(u, [], Doomed(s, t).lastUsed + 1, true)], t)
  {
    var e := Step(u, [], Doomed(s, t).lastUsed + 1, true);
    UseIsEnabled(s, u, Doomed(s, t).id, e.stamp);
    OneStep(s, e);
    OnlyTouchesStamp(s, e, Doomed(s, t).id);
  }

  /** A flushed entry goes with the very stamp that was flushed, whatever the others do
      between test and deletion, if and only if at the test nobody else already has the
      entry in hand: the lock the sweep holds keeps out all who have yet to look it up. */
  lemma FlushedStampSurvives(s: State, t: Tid)
    requires Inv(s) && Dooming(s, t) && Untouched(s, Doomed(s, t))
    ensures (forall es {:trigger Survives(s, es, t)} :: Survives(s, es, t)) <==> !InHand(s, Doomed(s, t).id, t)
  {
    if InHand(s, Doomed(s, t).id, t) {
      var u :| u in s.threads && u != t && s.threads[u].pc == Use(Doomed(s, t).id);
      SlipsIn(s, t, u);
    } else {
      forall es
        ensures Survives(s, es, t)
      {
        if Legal(s, es) && NotBy(es, t) {
          StampHolds(s, es, t);
        }
      }
    }
  }

  // ---------------------------------------------------- what a sweep may ever delete

  predicate Sweeping(s: State, t: Tid) {
    t in s.threads && (s.threads[t].pc.Flush? || s.threads[t].pc.Delete? || s.threads[t].pc.Doom?)
  }

  /** Throughout the run thread t stays in the same sweep. */
  ghost predicate SameSweep(s: State, es: seq<Event>, t: Tid)
    requires Inv(s) && Legal(s, es)
    decreases |es|
  {
    Sweeping(s, t)
    && (es != [] ==> (StepKeepsInv(s, es[0]); SameSweep(Apply(s, es[0]), es[1..], t)))
  }

  lemma PlanRemembers(s: State, th: Thread, order: seq<Id>, stamp: int, ok: bool)
    requires ThreadOk(s, th) && (th.pc.Flush? || th.pc.Delete? || th.pc.Doom?)
    ensures var pc := Plan(s, th, order, stamp, ok).1;
            pc.Flush? || pc.Delete? || pc.Doom? ==> pc.seen == th.pc.seen
  {
  }

  /** One step of anyone leaves a sweep in progress with the snapshot it had. */
  lemma StepRemembers(s: State, e: Event, t: Tid)
    requires Inv(s) && Enabled(s, e) && Sweeping(s, t) && Sweeping(Apply(s, e), t)
    requires Onward(s, Apply(s, e), e.t)
    ensures Apply(s, e).threads[t].pc.seen == s.threads[t].pc.seen
  {
    if e.t == t && e.Step? {
      EnabledIsReady(s, t, e.order, e.stamp, e.ok);
      StepMoves(s, t, e.order, e.stamp, e.ok);
      PlanRemembers(s, s.threads[t], e.order, e.stamp, e.ok);
    }
  }

  lemma {:induction false} SweepRemembers(s: State, es: seq<Event>, t: Tid)
    requires Inv(s) && Legal(s, es) && SameSweep(s, es, t)
    ensures Sweeping(Exec(s, es), t)
    ensures Exec(s, es).threads[t].pc.seen == s.threads[t].pc.seen
    decreases |es|
  {
    if es != [] {
      StepKeepsInv(s, es[0]);
      assert Sweeping(Apply(s, es[0]), t);
      StepRemembers(s, es[0], t);
      SweepRemembers(Apply(s, es[0]), es[1..], t);
    }
  }

  lemma SweepSawKnown(s: State, t: Tid)
    requires Inv(s) && Sweeping(s, t)
    ensures forall x :: x in s.threads[t].pc.seen ==> x.id < |s.entries|
  {
    assert ThreadOk(s, s.threads[t]);
  }

  /** An entry inserted once phase 1 has ended is out of this sweep's reach. */
  lemma SweepSparesTheNew(s: State, es: seq<Event>, t: Tid, born: nat)
    requires Inv(s) && Legal(s, es) && t in s.threads && born >= |s.entries|
    requires Sweeping(s, t) && SameSweep(s, es, t)
    ensures Sweeping(Exec(s, es), t)
    ensures forall x :: x in Exec(s, es).threads[t].pc.seen ==> x.id < born
  {
    SweepRemembers(s, es, t);
    SweepSawKnown(s, t);
  }

  // --------------------------------------------- the touch a sweep does not see

  lemma OneFirst(s: State, e: Event, es: seq<Event>)
    requires Inv(s) && Enabled(s, e) && Inv(Apply(s, e)) && Legal(Apply(s, e), es)
    ensures Legal(s, [e] + es) && Exec(s, [e] + es) == Exec(Apply(s, e), es)
  {
    assert ([e] + es)[1..] == es;
  }

  lemma {:induction false} OneMore(s: State, es: seq<Event>, e: Event)
    requires Inv(s) && Legal(s, es) && Enabled(Exec(s, es), e)
    ensures Legal(s, es + [e]) && Exec(s, es + [e]) == Apply(Exec(s, es), e)
    decreases |es|, 1
  {
    if es == [] {
      StepKeepsInv(s, e);
      OneFirst(s, e, []);
      assert es + [e] == [e] + [];
    } else {
      OneMoreThen(s, es, e);
    }
  }

  lemma {:induction false} OneMoreThen(s: State, es: seq<Event>, e: Event)
    requires es != [] && Inv(s) && Legal(s, es) && Enabled(Exec(s, es), e)
    ensures Legal(s, es + [e]) && Exec(s, es + [e]) == Apply(Exec(s, es), e)
    decreases |es|, 0
  {
    StepKeepsInv(s, es[0]);
    OneMore(Apply(s, es[0]), es[1..], e);
    OneFirst(s, es[0], es[1..] + [e]);
    Regroup(es, e);
  }

  lemma Regroup(es: seq<Event>, e: Event)
    requires es != []
    ensures [es[0]] + (es[1..] + [e]) == es + [e]
  {
  }

  lemma ReachesOn(s: State, e: Event)
    requires Reachable(s) && Inv(s) && Enabled(s, e)
    ensures Reachable(Apply(s, e))
  {
    var home, n, es :| RunsFrom(home, n, es, s);
    InitInv(home, n);
    OneMore(Init(home, n), es, e);
    assert RunsFrom(home, n, es + [e], Apply(s, e));
  }

  /** Apply, worked out for states known piece by piece. */
  ghost predicate Next(s: State, e: Event, s': State) {
    && Enabled(s, e)
    && match e
       case Start(t, pc) => s' == s.(threads := s.threads[t := Thread(pc, [])])
       case Step(t, order, stamp, ok) =>
         && ThreadOk(s, s.threads[t])
         && var (a, pc) := Plan(s, s.threads[t], order, stamp, ok);
            Doable(s, t, a) && s' == WithPc(Perform(s, t, a), t, pc)
  }

  lemma NextIsApply(s: State, e: Event, s': State)
    requires Inv(s) && Next(s, e, s')
    ensures Enabled(s, e) && Apply(s, e) == s'
  {
  }

  lemma NextIsReachable(s: State, e: Event, s': State)
    requires Reachable(s) && Next(s, e, s')
    ensures Reachable(s')
  {
    ReachableKeepsInv(s);
    ReachesOn(s, e);
  }

  const OneShard: Key -> nat := _ => 0
  const Glimpse: Seen := Seen(0, 1)

  /** One shard, on which thread 0 is about to insert an entry. */
  function Before(caller: Pc): State {
    State(OneShard, [map[]], [0], [], 0, {}, map[0 := Thread(caller, [])])
  }

  /** ... and has inserted it. */
  function After(stamp: int, flushed: set<Seen>, threads: map<Tid, Thread>): State {
    State(OneShard, [map["k" := 0]], [1], [Entry("k", stamp, Live)], 0, flushed, threads)
  }

  /** ... and a sweep, thread 1, is under way. */
  function Sharing(stamp: int, flushed: set<Seen>, caller: Pc, sweep: Pc): State {
    After(stamp, flushed, map[0 := Thread(caller, []), 1 := Thread(sweep, [])])
  }

  /** The run: a key is inserted and touched, goes idle, and is collected and flushed; its
      next request looks it up, the sweep tests it, the request touches it. */
  function Frame(i: nat): State {
    match i
    case 0 => Before(Look("k"))
    case 1 => Before(Load("k"))
    case 2 => Before(Insert("k"))
    case 3 => After(1, {}, map[0 := Thread(Use(0), [])])
    case 4 => After(1, {}, map[0 := Thread(Idle, [])])
    case 5 => Sharing(1, {}, Idle, Collect(10, 0, []))
    case 6 => Sharing(1, {}, Idle, Gather(10, 0, [], [0]))
    case 7 => Sharing(1, {}, Idle, Gather(10, 0, [Glimpse], []))
    case 8 => Sharing(1, {}, Idle, Collect(10, 1, [Glimpse]))
    case 9 => Sharing(1, {}, Idle, Flush([Glimpse], 1))
    case 10 => Sharing(1, {Glimpse}, Idle, Delete([Glimpse], 0, 1))
    case 11 => Sharing(1, {Glimpse}, Look("k"), Delete([Glimpse], 0, 1))
    case 12 => Sharing(1, {Glimpse}, Use(0), Delete([Glimpse], 0, 1))
    case 13 => Sharing(1, {Glimpse}, Use(0), Doom([Glimpse], 0, 1))
    case _ => Sharing(20, {Glimpse}, Idle, Doom([Glimpse], 0, 1))
  }

  function Script(i: nat): Event {
    match i
    case 4 => Start(1, Collect(10, 0, []))
    case 5 => Step(1, [0], 1, true)
    case 10 => Start(0, Look("k"))
    case 11 => Step(0, [], 1, true)
    case 13 => Step(0, [], 20, true)
    case _ => if i < 4 then Step(0, [], 1, true) else Step(1, [], 1, true)
  }

  lemma FirstFrame()
    ensures Next(Init(OneShard, 1), Start(0, Look("k")), Frame(0))
  {
    var s := Init(OneShard, 1);
    assert s.shards == [map[]] && s.live == [0];
    assert s.threads[0 := Thread(Look("k"), [])] == Before(Look("k")).threads;
  }

  lemma CallerComes()
    ensures Reachable(Frame(0))
  {
    InitInv(OneShard, 1);
    assert RunsFrom(OneShard, 1, [], Init(OneShard, 1));
    FirstFrame();
    NextIsReachable(Init(OneShard, 1), Start(0, Look("k")), Frame(0));
  }

  lemma FramesLooking(i: nat)
    requires i < 2
    ensures Next(Frame(i), Script(i), Frame(i + 1))
  {
    var pc := Plan(Frame(i), Frame(i).threads[0], [], 1, true).1;
    assert Frame(i).threads[0 := Thread(pc, [])] == Frame(i + 1).threads;
  }

  lemma FrameCreating()
    ensures Next(Frame(2), Script(2), Frame(3))
  {
    assert Frame(2).threads[0 := Thread(Use(0), [])] == Frame(3).threads;
    var none: map<Key, Id> := map[];
    assert none + map["k" := 0] == map["k" := 0] && Frame(2).shards == [none];
    assert Frame(2).shards[0 := none + map["k" := 0]] == Frame(3).shards;
    assert [] + [Entry("k", 1, Live)] == Frame(3).entries && [0][0 := 0 + 1] == [1];
    assert Put(Frame(2), "k", 1).(threads := Frame(3).threads) == Frame(3);
  }

  lemma FrameTouching()
    ensures Next(Frame(3), Script(3), Frame(4))
  {
    assert WithPc(Touched(Frame(3), 0, 1), 0, Idle) == Frame(4);
  }

  lemma FrameStarting()
    ensures Next(Frame(4), Script(4), Frame(5))
  {
    assert Frame(4).threads[1 := Thread(Collect(10, 0, []), [])] == Frame(5).threads;
  }

  lemma FrameWalking()
    ensures Next(Frame(5), Script(5), Frame(6))
  {
    assert InShard(Frame(5), 0, 0) && WalksAll(Frame(5), 0, [0]);
    assert Frame(5).threads[1 := Thread(Gather(10, 0, [], [0]), [])] == Frame(6).threads;
  }

  lemma FrameGlancing()
    ensures Next(Frame(6), Script(6), Frame(7))
  {
    assert [] + Glance(Frame(6), 0, 10) == [Glimpse] && [0][1..] == [];
    assert Frame(6).threads[1 := Thread(Gather(10, 0, [Glimpse], []), [])] == Frame(7).threads;
  }

  lemma FrameLeaving()
    ensures Next(Frame(7), Script(7), Frame(8))
  {
    assert Frame(7).threads[1 := Thread(Collect(10, 1, [Glimpse]), [])] == Frame(8).threads;
  }

  lemma FrameCollected()
    ensures Next(Frame(8), Script(8), Frame(9))
  {
    assert Frame(8).threads[1 := Thread(Flush([Glimpse], 1), [])] == Frame(9).threads;
  }

  lemma FrameFlushing()
    ensures Next(Frame(9), Script(9), Frame(10))
  {
    assert {} + (set x | x in [Glimpse]) == {Glimpse};
    assert Frame(9).threads[1 := Thread(Delete([Glimpse], 0, 1), [])] == Frame(10).threads;
  }

  lemma FrameReturning()
    ensures Next(Frame(10), Script(10), Frame(11))
  {
    assert Frame(10).threads[0 := Thread(Look("k"), [])] == Frame(11).threads;
  }

  lemma FrameFinding()
    ensures Next(Frame(11), Script(11), Frame(12))
  {
    assert Frame(11).threads[0 := Thread(Use(0), [])] == Frame(12).threads;
  }

  lemma FrameTesting()
    ensures Next(Frame(12), Script(12), Frame(13))
  {
    assert Current(Frame(12), 0);
    assert Frame(12).threads[1 := Thread(Doom([Glimpse], 0, 1), [])] == Frame(13).threads;
  }

  lemma FrameMissed()
    ensures Next(Frame(13), Script(13), Frame(14))
  {
    assert Frame(13).threads[0 := Thread(Idle, [])] == Frame(14).threads;
  }

  lemma FrameGoes(i: nat)
    requires i < 14
    ensures Next(Frame(i), Script(i), Frame(i + 1))
  {
    match i
    case 2 => FrameCreating();
    case 3 => FrameTouching();
    case 4 => FrameStarting();
    case 5 => FrameWalking();
    case 6 => FrameGlancing();
    case 7 => FrameLeaving();
    case 8 => FrameCollected();
    case 9 => FrameFlushing();
    case 10 => FrameReturning();
    case 11 => FrameFinding();
    case 12 => FrameTesting();
    case 13 => FrameMissed();
    case _ => FramesLooking(i);
  }

  lemma {:induction false} FrameIsReachable(i: nat)
    requires i <= 14
    ensures Reachable(Frame(i))
  {
    if i == 0 {
      CallerComes();
    } else {
      FrameIsReachable(i - 1);
      FrameGoes(i - 1);
      NextIsReachable(Frame(i - 1), Script(i - 1), Frame(i));
    }
  }

  lemma LastFrame(e: Event)
    requires e == Step(1, [], 20, true)
    ensures Enabled(Frame(14), e) && Dooming(Frame(14), 1) && Doomed(Frame(14), 1) == Glimpse
    ensures Frame(14).entries == [Entry("k", 20, Live)] && Seen(0, 20) !in Frame(14).flushed
  {
  }

  /** A caller's touch can fall between the test and the deletion: this reachable sweep is
      about to delete an entry whose stamp no Flush was handed. */
  lemma SweepLosesATouch() returns (s: State, e: Event, id: Id)
    ensures Reachable(s) && Inv(s) && Enabled(s, e) && LabelOf(s, e) == Removed([id])
    ensures Current(s, id) && Seen(id, s.entries[id].lastUsed) !in s.flushed
  {
    FrameIsReachable(14);
    s, e, id := Frame(14), Step(1, [], 20, true), 0;
    ReachableKeepsInv(s);
    LastFrame(e);
    SweepDeletesOnlyFlushed(s, e);
  }
}
