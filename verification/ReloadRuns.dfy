/** Reload beside everything else (registry/registry.go:349-378): the interleavings of
    RegistryRuns, with which answer of the owner's QuotaFor each bucket enforces. Answers are
    numbered: `hook` is the current one, and a change of the hook is the next number. */
module ReloadRuns {
  import R = RegistryRuns
  import S = SweepRuns

  type Tid = R.Tid
  type Id = R.Id

  datatype Fetched = Nothing | Answer(n: nat)

  /** A Reload: the next shard to gather, the entries of the last one still to be set, and
      the answer already fetched for the first of them. */
  datatype Walk = Walk(shard: nat, todo: seq<Id>, fetched: Fetched)

  /** `quota` and `writer` say of each entry which answer it enforces and who set it;
      `resolved` which answer a thread takes along on its way to insert. */
  datatype State = State(
    reg: R.State,
    hook: nat,
    quota: seq<nat>,
    writer: seq<Tid>,
    resolved: map<Tid, nat>,
    walks: map<Tid, Walk>)

  datatype Event =
    | Base(e: R.Event)                  // any step of RegistryRuns
    | Change                            // the owner's answers change
    | Reload(t: Tid)
    | Gather(t: Tid, order: seq<Id>)    // one shard's entries, read-locked
    | Fetch(t: Tid)                     // QuotaFor: no lock
    | Set(t: Tid)                       // SetQuotaAt: no lock

  predicate Busy(s: State, t: Tid) {
    t in s.walks && s.walks[t].todo != []
  }

  ghost predicate Enabled(s: State, e: Event) {
    match e
    case Base(e') => R.Enabled(s.reg, e') && e'.t !in s.walks
    case Change => true
    case Reload(t) => t !in s.walks && t !in s.reg.threads
    case Gather(t, order) =>
      && t in s.walks && s.walks[t].todo == [] && s.walks[t].shard < |s.reg.shards|
      && R.WalksAll(s.reg, s.walks[t].shard, order)
      && forall u :: u in s.reg.threads ==> R.Writing(s.reg, s.reg.threads[u].pc) != s.walks[t].shard
    case Fetch(t) => Busy(s, t) && s.walks[t].fetched.Nothing?
    case Set(t) => Busy(s, t) && s.walks[t].fetched.Answer?
  }

  /** QuotaFor is asked on the way to the insertion. */
  predicate Resolves(s: State, e: R.Event) {
    e.Step? && e.t in s.reg.threads && s.reg.threads[e.t].pc.Load?
  }

  ghost function AfterBase(s: State, e: R.Event): State
    requires R.Inv(s.reg) && R.Enabled(s.reg, e)
  {
    var reg := R.Apply(s.reg, e);
    var resolved := if Resolves(s, e) then s.resolved[e.t := s.hook] else s.resolved;
    if |reg.entries| == |s.reg.entries| then s.(reg := reg, resolved := resolved)
    else
      s.(reg := reg,
         quota := s.quota + [if e.t in s.resolved then s.resolved[e.t] else s.hook],
         writer := s.writer + [e.t])
  }

  predicate WalkOk(s: State, t: Tid)
    requires t in s.walks
  {
    && (forall id :: id in s.walks[t].todo ==> id < |s.reg.entries|)
    && (s.walks[t].fetched.Answer? ==> s.walks[t].fetched.n <= s.hook)
  }

  predicate Inv(s: State) {
    && R.Inv(s.reg) && |s.quota| == |s.writer| == |s.reg.entries|
    && (forall t :: t in s.walks ==> WalkOk(s, t))
    && (forall t :: t in s.reg.threads && s.reg.threads[t].pc.Insert? ==> t in s.resolved)
  }

  function AfterSet(s: State, t: Tid): (s': State)
    requires Busy(s, t) && s.walks[t].fetched.Answer? && s.walks[t].todo[0] < |s.quota| == |s.writer|
    ensures |s'.quota| == |s.quota| && |s'.writer| == |s.writer|
  {
    var w := s.walks[t];
    s.(quota := s.quota[w.todo[0] := w.fetched.n], writer := s.writer[w.todo[0] := t],
       walks := s.walks[t := Walk(w.shard, w.todo[1..], Nothing)])
  }

  ghost function Apply(s: State, e: Event): State
    requires Inv(s) && Enabled(s, e)
  {
    match e
    case Base(e') => AfterBase(s, e')
    case Change => s.(hook := s.hook + 1)
    case Reload(t) => s.(walks := s.walks[t := Walk(0, [], Nothing)])
    case Gather(t, order) => s.(walks := s.walks[t := Walk(s.walks[t].shard + 1, order, Nothing)])
    case Fetch(t) => s.(walks := s.walks[t := s.walks[t].(fetched := Answer(s.hook))])
    case Set(t) =>
      assert WalkOk(s, t) && s.walks[t].todo[0] in s.walks[t].todo;
      AfterSet(s, t)
  }

  // ------------------------------------------------------------------ invariants

  /** What a step of the registry does to what Reload looks at. */
  ghost predicate Grows(s: R.State, s': R.State, e: R.Event) {
    && R.Inv(s') && R.Onward(s, s', e.t) && |s'.entries| <= |s.entries| + 1
    && (|s'.entries| > |s.entries| ==> e.t in s.threads && s.threads[e.t].pc.Insert?)
    && (e.t in s'.threads && s'.threads[e.t].pc.Insert? ==> e.Step? && e.t in s.threads && s.threads[e.t].pc.Load?)
  }

  lemma ActAdds(s: R.State, t: Tid, a: R.Act)
    requires R.Core(s) && R.Doable(s, t, a)
    ensures |R.Perform(s, t, a).entries| == |s.entries| + if a.Create? then 1 else 0
  {
    if a.Clear? {
      R.OnShardIsLive(s, a.shard, a.ids);
      R.TakeAllEffect(s, t, a.ids);
    } else if a.CountEach? {
      R.CountAllEffect(s, t);
    }
  }

  lemma OnlyInsertsCreate(s: R.State, th: R.Thread, order: seq<Id>, stamp: int, ok: bool)
    requires R.ThreadOk(s, th)
    ensures R.Plan(s, th, order, stamp, ok).0.Create? ==> th.pc.Insert?
    ensures R.Plan(s, th, order, stamp, ok).1.Insert? ==> th.pc.Load?
  {
  }

  lemma BaseGrows(s: R.State, e: R.Event)
    requires R.Inv(s) && R.Enabled(s, e)
    ensures Grows(s, R.Apply(s, e), e)
  {
    R.StepKeepsInv(s, e);
    if e.Step? {
      var a := R.Plan(s, s.threads[e.t], e.order, e.stamp, e.ok).0;
      R.EnabledIsReady(s, e.t, e.order, e.stamp, e.ok);
      R.PlanIsDoable(s, e.t, e.order, e.stamp, e.ok);
      R.StepMoves(s, e.t, e.order, e.stamp, e.ok);
      OnlyInsertsCreate(s, s.threads[e.t], e.order, e.stamp, e.ok);
      ActAdds(s, e.t, a);
    }
  }

  lemma BaseWalkOk(s: State, e: R.Event, t: Tid)
    requires R.Inv(s.reg) && R.Enabled(s.reg, e) && |R.Apply(s.reg, e).entries| >= |s.reg.entries|
    requires t in s.walks && WalkOk(s, t)
    ensures t in AfterBase(s, e).walks && WalkOk(AfterBase(s, e), t)
  {
  }

  lemma BaseKeepsInv(s: State, e: R.Event)
    requires Inv(s) && Enabled(s, Base(e)) && Grows(s.reg, R.Apply(s.reg, e), e)
    ensures Inv(AfterBase(s, e))
  {
    var s' := AfterBase(s, e);
    forall t | t in s'.walks
      ensures WalkOk(s', t)
    {
      BaseWalkOk(s, e, t);
    }
  }

  lemma GatherKnows(s: State, t: Tid, order: seq<Id>)
    requires Inv(s) && Enabled(s, Gather(t, order))
    ensures forall id :: id in order ==> id < |s.reg.entries|
  {
    forall k | 0 <= k < |order|
      ensures order[k] < |s.reg.entries|
    {
      assert R.InShard(s.reg, s.walks[t].shard, order[k]);
    }
  }

  lemma StepKeepsInv(s: State, e: Event)
    requires Inv(s) && Enabled(s, e)
    ensures Inv(Apply(s, e))
  {
    match e {
      case Base(e') =>
        BaseGrows(s.reg, e');
        BaseKeepsInv(s, e');
      case Gather(t, order) =>
        GatherKnows(s, t, order);
        OwnKeepsInv(s, e);
      case _ => OwnKeepsInv(s, e);
    }
  }

  lemma OwnKeepsInv(s: State, e: Event)
    requires Inv(s) && Enabled(s, e) && !e.Base?
    requires e.Gather? ==> forall id :: id in e.order ==> id < |s.reg.entries|
    ensures Inv(Apply(s, e))
  {
    var s' := Apply(s, e);
    forall t | t in s'.walks
      ensures WalkOk(s', t)
    {
      if t in s.walks {
        assert WalkOk(s, t);
        RestKnown(s.walks[t].todo, |s.reg.entries|);
      }
    }
  }

  lemma RestKnown(todo: seq<Id>, n: nat)
    requires forall id :: id in todo ==> id < n
    ensures todo != [] ==> forall id :: id in todo[1..] ==> id < n
  {
    if todo != [] {
      forall id | id in todo[1..]
        ensures id < n
      {
        assert id in todo;
      }
    }
  }

  ghost predicate Legal(s: State, es: seq<Event>)
    requires Inv(s)
    decreases |es|
  {
    es == [] || (Enabled(s, es[0]) && (StepKeepsInv(s, es[0]); Legal(Apply(s, es[0]), es[1..])))
  }

  ghost function Exec(s: State, es: seq<Event>): (s': State)
    requires Inv(s) && Legal(s, es)
    ensures Inv(s')
    decreases |es|
  {
    if es == [] then s else (StepKeepsInv(s, es[0]); Exec(Apply(s, es[0]), es[1..]))
  }

  // --------------------------------------------------------------- what a reload renews

  /** Thread t holds an answer older than number v, about to give it to a bucket. */
  predicate Holds(s: State, v: nat, t: Tid) {
    || (t in s.reg.threads && s.reg.threads[t].pc.Insert? && t in s.resolved && s.resolved[t] < v)
    || (t in s.walks && s.walks[t].fetched.Answer? && s.walks[t].fetched.n < v)
  }

  /** Entry id enforces answer v or a later one, or was given its quota by one of `elders`. */
  predicate Renewed(s: State, v: nat, elders: set<Tid>, id: Id)
    requires id < |s.quota| == |s.writer|
  {
    s.quota[id] >= v || s.writer[id] in elders
  }

  predicate IsPassed(s: State, r: Tid, id: Id)
    requires r in s.walks && id < |s.reg.entries|
  {
    && s.reg.entries[id].fate.Live? && s.reg.home(s.reg.entries[id].key) < s.walks[r].shard
    && id !in s.walks[r].todo
  }

  /** All along Reload r, begun at answer v when `elders` held older ones. */
  ghost predicate Under(s: State, v: nat, elders: set<Tid>, r: Tid) {
    && Inv(s) && s.hook >= v && r in s.walks
    && (s.walks[r].fetched.Answer? ==> s.walks[r].fetched.n >= v)
    && (forall t :: Holds(s, v, t) ==> t in elders)
    && (forall id {:trigger IsPassed(s, r, id)} :: 0 <= id < |s.reg.entries| && IsPassed(s, r, id) ==>
          Renewed(s, v, elders, id))
  }

  lemma BaseElders(s: State, e: R.Event, v: nat, elders: set<Tid>, r: Tid)
    requires Under(s, v, elders, r) && Enabled(s, Base(e)) && Grows(s.reg, R.Apply(s.reg, e), e)
    ensures forall t :: Holds(AfterBase(s, e), v, t) ==> t in elders
  {
    var s' := AfterBase(s, e);
    forall t | Holds(s', v, t)
      ensures t in elders
    {
      assert t != e.t ==> Holds(s, v, t);
    }
  }

  lemma PassedBefore(s: State, s': State, t: Tid, r: Tid, id: Id)
    requires R.Onward(s.reg, s'.reg, t) && s'.walks == s.walks && r in s.walks
    requires id < |s.reg.entries| && IsPassed(s', r, id)
    ensures IsPassed(s, r, id)
  {
  }

  /** A new entry's answer is the one its inserter brought along. */
  lemma NewRenewed(s: State, e: R.Event, v: nat, elders: set<Tid>, r: Tid)
    requires Under(s, v, elders, r) && R.Enabled(s.reg, e) && Grows(s.reg, R.Apply(s.reg, e), e)
    requires |R.Apply(s.reg, e).entries| > |s.reg.entries|
    ensures e.t in s.resolved && (s.resolved[e.t] >= v || e.t in elders)
  {
    assert s.resolved[e.t] < v ==> Holds(s, v, e.t);
  }

  lemma OldQuota(s: State, e: R.Event, id: Id)
    requires R.Inv(s.reg) && R.Enabled(s.reg, e) && id < |s.quota| == |s.writer|
    ensures id < |AfterBase(s, e).quota| && AfterBase(s, e).quota[id] == s.quota[id]
    ensures id < |AfterBase(s, e).writer| && AfterBase(s, e).writer[id] == s.writer[id]
    ensures AfterBase(s, e).walks == s.walks
  {
  }

  lemma BaseRenewed(s: State, e: R.Event, v: nat, elders: set<Tid>, r: Tid, id: Id)
    requires Under(s, v, elders, r) && Enabled(s, Base(e)) && Grows(s.reg, R.Apply(s.reg, e), e)
    requires Inv(AfterBase(s, e)) && id < |AfterBase(s, e).reg.entries| && IsPassed(AfterBase(s, e), r, id)
    ensures Renewed(AfterBase(s, e), v, elders, id)
  {
    if id < |s.reg.entries| {
      OldQuota(s, e, id);
      PassedBefore(s, AfterBase(s, e), e.t, r, id);
    } else {
      NewRenewed(s, e, v, elders, r);
    }
  }

  lemma BaseUnder(s: State, e: R.Event, v: nat, elders: set<Tid>, r: Tid)
    requires Under(s, v, elders, r) && Enabled(s, Base(e)) && Grows(s.reg, R.Apply(s.reg, e), e)
    requires Inv(AfterBase(s, e))
    ensures Under(AfterBase(s, e), v, elders, r)
  {
    var s' := AfterBase(s, e);
    BaseElders(s, e, v, elders, r);
    forall id | 0 <= id < |s'.reg.entries| && IsPassed(s', r, id)
      ensures Renewed(s', v, elders, id)
    {
      BaseRenewed(s, e, v, elders, r, id);
    }
  }

  lemma GatherUnder(s: State, t: Tid, order: seq<Id>, v: nat, elders: set<Tid>, r: Tid)
    requires Under(s, v, elders, r) && Enabled(s, Gather(t, order)) && Inv(Apply(s, Gather(t, order)))
    ensures Under(Apply(s, Gather(t, order)), v, elders, r)
  {
    var s' := Apply(s, Gather(t, order));
    forall u | Holds(s', v, u)
      ensures u in elders
    {
      assert Holds(s, v, u);
    }
    forall id | 0 <= id < |s'.reg.entries| && IsPassed(s', r, id)
      ensures Renewed(s', v, elders, id)
    {
      assert R.Current(s.reg, id);
      assert t == r ==> !R.InShard(s.reg, s.walks[t].shard, id);
      assert IsPassed(s, r, id);
    }
  }

  lemma SetElders(s: State, t: Tid, v: nat, u: Tid)
    requires Busy(s, t) && s.walks[t].fetched.Answer? && s.walks[t].todo[0] < |s.quota| == |s.writer|
    requires Holds(AfterSet(s, t), v, u)
    ensures Holds(s, v, u)
  {
  }

  /** What t leaves behind it was passed before, but for the entry it has just set. */
  lemma SetPassed(s: State, t: Tid, r: Tid, id: Id)
    requires Busy(s, t) && s.walks[t].fetched.Answer? && s.walks[t].todo[0] < |s.quota| == |s.writer|
    requires r in s.walks && id < |s.reg.entries| && id != s.walks[t].todo[0] && IsPassed(AfterSet(s, t), r, id)
    ensures IsPassed(s, r, id)
  {
    assert s.walks[t].todo == [s.walks[t].todo[0]] + s.walks[t].todo[1..];
  }

  lemma SetUnder(s: State, t: Tid, v: nat, elders: set<Tid>, r: Tid)
    requires Under(s, v, elders, r) && Enabled(s, Set(t)) && Inv(Apply(s, Set(t)))
    ensures Under(Apply(s, Set(t)), v, elders, r)
  {
    var s' := Apply(s, Set(t));
    assert WalkOk(s, t) && s.walks[t].todo[0] in s.walks[t].todo;
    forall u | Holds(s', v, u)
      ensures u in elders
    {
      SetElders(s, t, v, u);
    }
    forall id | 0 <= id < |s'.reg.entries| && IsPassed(s', r, id)
      ensures Renewed(s', v, elders, id)
    {
      if id == s.walks[t].todo[0] {
        assert s.walks[t].fetched.n < v ==> Holds(s, v, t);
      } else {
        SetPassed(s, t, r, id);
      }
    }
  }

  lemma QuietUnder(s: State, e: Event, v: nat, elders: set<Tid>, r: Tid)
    requires Under(s, v, elders, r) && Enabled(s, e) && (e.Change? || e.Reload? || e.Fetch?) && Inv(Apply(s, e))
    ensures Under(Apply(s, e), v, elders, r)
  {
    var s' := Apply(s, e);
    forall u | Holds(s', v, u)
      ensures u in elders
    {
      assert Holds(s, v, u);
    }
    forall id | 0 <= id < |s'.reg.entries| && IsPassed(s', r, id)
      ensures Renewed(s', v, elders, id)
    {
      assert IsPassed(s, r, id);
    }
  }

  lemma StepUnder(s: State, e: Event, v: nat, elders: set<Tid>, r: Tid)
    requires Under(s, v, elders, r) && Enabled(s, e) && Inv(Apply(s, e))
    ensures Under(Apply(s, e), v, elders, r)
  {
    match e {
      case Base(e') =>
        BaseGrows(s.reg, e');
        BaseUnder(s, e', v, elders, r);
      case Gather(t, order) => GatherUnder(s, t, order, v, elders, r);
      case Set(t) => SetUnder(s, t, v, elders, r);
      case _ => QuietUnder(s, e, v, elders, r);
    }
  }

  lemma {:induction false} RunUnder(s: State, es: seq<Event>, v: nat, elders: set<Tid>, r: Tid)
    requires Inv(s) && Legal(s, es) && Under(s, v, elders, r)
    ensures Under(Exec(s, es), v, elders, r)
    decreases |es|
  {
    if es != [] {
      StepKeepsInv(s, es[0]);
      StepUnder(s, es[0], v, elders, r);
      RunUnder(Apply(s, es[0]), es[1..], v, elders, r);
    }
  }

  predicate Begun(s: State, r: Tid) {
    r in s.walks && s.walks[r] == Walk(0, [], Nothing)
  }

  predicate Done(s: State, r: Tid) {
    r in s.walks && s.walks[r].shard == |s.reg.shards| && s.walks[r].todo == []
  }

  /** Once a Reload is done, whatever ran beside it, every key on the map enforces an answer
      at least as new as the one in force when it began, unless it was given an older one by
      a call that already held that when the Reload began: a GetOrCreate on its way to
      insert, or another Reload on its way to SetQuotaAt. */
  lemma ReloadRenews(s: State, es: seq<Event>, r: Tid, elders: set<Tid>, id: Id)
    requires Inv(s) && Legal(s, es) && Begun(s, r) && Done(Exec(s, es), r)
    requires forall t :: Holds(s, s.hook, t) ==> t in elders
    requires id < |Exec(s, es).reg.entries| && Exec(s, es).reg.entries[id].fate.Live?
    ensures Renewed(Exec(s, es), s.hook, elders, id)
  {
    RunUnder(s, es, s.hook, elders, r);
    assert IsPassed(Exec(s, es), r, id);
  }

  /** So with nobody holding an older answer when it begins, it reaches every key. */
  lemma ReloadReachesEveryKey(s: State, es: seq<Event>, r: Tid, key: R.Key)
    requires Inv(s) && Legal(s, es) && Begun(s, r) && Done(Exec(s, es), r)
    requires forall t :: !Holds(s, s.hook, t)
    requires R.Mapped(Exec(s, es).reg, key)
    ensures R.Lookup(Exec(s, es).reg, key) < |Exec(s, es).quota|
    ensures Exec(s, es).quota[R.Lookup(Exec(s, es).reg, key)] >= s.hook
  {
    R.MappedIsCurrent(Exec(s, es).reg, key);
    R.CurrentIsLive(Exec(s, es).reg, R.Lookup(Exec(s, es).reg, key));
    ReloadRenews(s, es, r, {}, R.Lookup(Exec(s, es).reg, key));
  }

  // ------------------------------------------------------- the key a reload does not reach

  function Init(home: R.Key -> nat, n: nat): State {
    State(R.Init(home, n), 0, [], [], map[], map[])
  }

  lemma InitInv(home: R.Key -> nat, n: nat)
    ensures Inv(Init(home, n))
  {
    R.InitInv(home, n);
  }

  ghost predicate RunsFrom(home: R.Key -> nat, n: nat, es: seq<Event>, s: State) {
    InitInv(home, n);
    Legal(Init(home, n), es) && s == Exec(Init(home, n), es)
  }

  ghost predicate Reachable(s: State) {
    exists home, n, es :: RunsFrom(home, n, es, s)
  }

  lemma OneFirst(s: State, e: Event, es: seq<Event>)
    requires Inv(s) && Enabled(s, e) && Inv(Apply(s, e)) && Legal(Apply(s, e), es)
    ensures Legal(s, [e] + es) && Exec(s, [e] + es) == Exec(Apply(s, e), es)
  {
    assert ([e] + es)[1..] == es;
  }

  lemma {:induction false} OneMore(s: State, es: seq<Event>, e: Event)
    requires Inv(s) && Legal(s, es) && Enabled(Exec(s, es), e)
    ensures Legal(s, es + [e]) && Exec(s, es + [e]) == Apply(Exec(s, es), e)
    decreases |es|, 1
  {
    if es == [] {
      StepKeepsInv(s, e);
      OneFirst(s, e, []);
      assert es + [e] == [e] + [];
    } else {
      OneMoreThen(s, es, e);
    }
  }

  lemma {:induction false} OneMoreThen(s: State, es: seq<Event>, e: Event)
    requires es != [] && Inv(s) && Legal(s, es) && Enabled(Exec(s, es), e)
    ensures Legal(s, es + [e]) && Exec(s, es + [e]) == Apply(Exec(s, es), e)
    decreases |es|, 0
  {
    StepKeepsInv(s, es[0]);
    OneMore(Apply(s, es[0]), es[1..], e);
    OneFirst(s, es[0], es[1..] + [e]);
    Regroup(es, e);
  }

  lemma Regroup(es: seq<Event>, e: Event)
    requires es != []
    ensures [es[0]] + (es[1..] + [e]) == es + [e]
  {
  }

  lemma ReachesOn(s: State, e: Event, s': State)
    requires Reachable(s) && Inv(s) && Enabled(s, e) && s' == Apply(s, e)
    ensures Reachable(s') && Inv(s')
  {
    var home, n, es :| RunsFrom(home, n, es, s);
    InitInv(home, n);
    OneMore(Init(home, n), es, e);
    assert RunsFrom(home, n, es + [e], s');
    StepKeepsInv(s, e);
  }

  /** The frames of SweepRuns, in which a caller is on its way to insert. */
  function Frame(i: nat, hook: nat, resolved: map<Tid, nat>, walks: map<Tid, Walk>): State {
    State(S.Frame(i), hook, [], [], resolved, walks)
  }

  lemma CallerLooks()
    ensures Reachable(Frame(0, 0, map[], map[])) && Inv(Frame(0, 0, map[], map[]))
  {
    var s := Init(S.OneShard, 1);
    InitInv(S.OneShard, 1);
    assert RunsFrom(S.OneShard, 1, [], s);
    S.FirstFrame();
    S.NextIsApply(R.Init(S.OneShard, 1), R.Start(0, R.Look("k")), S.Frame(0));
    ReachesOn(s, Base(R.Start(0, R.Look("k"))), Frame(0, 0, map[], map[]));
  }

  lemma CallerLoads()
    ensures Reachable(Frame(1, 0, map[], map[])) && Inv(Frame(1, 0, map[], map[]))
  {
    CallerLooks();
    S.FrameGoes(0);
    S.NextIsApply(S.Frame(0), S.Script(0), S.Frame(1));
    ReachesOn(Frame(0, 0, map[], map[]), Base(S.Script(0)), Frame(1, 0, map[], map[]));
  }

  lemma CallerResolves()
    ensures Reachable(Frame(2, 0, map[0 := 0], map[])) && Inv(Frame(2, 0, map[0 := 0], map[]))
  {
    CallerLoads();
    S.FrameGoes(1);
    S.NextIsApply(S.Frame(1), S.Script(1), S.Frame(2));
    ReachesOn(Frame(1, 0, map[], map[]), Base(S.Script(1)), Frame(2, 0, map[0 := 0], map[]));
  }

  const FRESH := Walk(0, [], Nothing)

  lemma ThenReloads()
    ensures Reachable(Frame(2, 1, map[0 := 0], map[1 := FRESH])) && Inv(Frame(2, 1, map[0 := 0], map[1 := FRESH]))
  {
    CallerResolves();
    ReachesOn(Frame(2, 0, map[0 := 0], map[]), Change, Frame(2, 1, map[0 := 0], map[]));
    assert map[][1 := FRESH] == map[1 := FRESH];
    ReachesOn(Frame(2, 1, map[0 := 0], map[]), Reload(1), Frame(2, 1, map[0 := 0], map[1 := FRESH]));
  }

  const PASSED := Walk(1, [], Nothing)

  lemma ReloadPasses()
    ensures var s, e := Frame(2, 1, map[0 := 0], map[1 := FRESH]), Gather(1, []);
            Enabled(s, e) && (Inv(s) ==> Apply(s, e) == Frame(2, 1, map[0 := 0], map[1 := PASSED]))
  {
    assert R.WalksAll(S.Frame(2), 0, []);
    assert map[1 := FRESH][1 := PASSED] == map[1 := PASSED];
  }

  lemma InsertsThere()
    requires R.Inv(S.Frame(2))
    ensures R.Enabled(S.Frame(2), S.Script(2)) && R.Apply(S.Frame(2), S.Script(2)) == S.Frame(3)
  {
    S.FrameGoes(2);
    S.NextIsApply(S.Frame(2), S.Script(2), S.Frame(3));
  }

  lemma Inserts(s: State, e: R.Event, reg: R.State)
    requires R.Inv(s.reg) && R.Enabled(s.reg, e) && R.Apply(s.reg, e) == reg && |reg.entries| > |s.reg.entries|
    requires !Resolves(s, e) && e.t in s.resolved
    ensures AfterBase(s, e)
            == State(reg, s.hook, s.quota + [s.resolved[e.t]], s.writer + [e.t], s.resolved, s.walks)
  {
  }

  lemma ThirdScript()
    ensures var s, e := Frame(2, 1, map[0 := 0], map[1 := PASSED]), S.Script(2);
            !Resolves(s, e) && e.t == 0 && |S.Frame(3).entries| > |s.reg.entries|
  {
  }

  lemma CallerInserts(s: State)
    requires R.Inv(s.reg) && s == Frame(2, 1, map[0 := 0], map[1 := PASSED])
    requires R.Enabled(s.reg, S.Script(2)) && R.Apply(s.reg, S.Script(2)) == S.Frame(3)
    ensures Enabled(s, Base(S.Script(2)))
    ensures AfterBase(s, S.Script(2)) == State(S.Frame(3), 1, [0], [0], map[0 := 0], map[1 := PASSED])
  {
    ThirdScript();
    Inserts(s, S.Script(2), S.Frame(3));
    assert [] + [0] == [0];
  }

  lemma TwoSteps(s: State, e: Event, s1: State, f: Event, s2: State)
    requires Inv(s) && Enabled(s, e) && Apply(s, e) == s1 && Inv(s1) && Enabled(s1, f) && Apply(s1, f) == s2 && Inv(s2)
    ensures Legal(s, [e] + ([f] + [])) && Exec(s, [e] + ([f] + [])) == s2
  {
    OneFirst(s1, f, []);
    OneFirst(s, e, [f] + []);
  }

  lemma MissedEnds(s: State, end: State)
    requires s == Frame(2, 1, map[0 := 0], map[1 := FRESH])
    requires end == State(S.Frame(3), 1, [0], [0], map[0 := 0], map[1 := PASSED])
    ensures Begun(s, 1) && Done(end, 1)
    ensures |end.reg.entries| == |end.quota| == 1 && end.reg.entries[0].fate.Live? && end.quota[0] < s.hook
  {
  }

  lemma MissedRun(s: State, es: seq<Event>, end: State)
    requires Inv(s) && s == Frame(2, 1, map[0 := 0], map[1 := FRESH])
    requires es == [Gather(1, [])] + ([Base(S.Script(2))] + [])
    requires end == State(S.Frame(3), 1, [0], [0], map[0 := 0], map[1 := PASSED])
    ensures Legal(s, es) && Exec(s, es) == end
  {
    var passed := Frame(2, 1, map[0 := 0], map[1 := PASSED]);
    ReloadPasses();
    StepKeepsInv(s, Gather(1, []));
    InsertsThere();
    CallerInserts(passed);
    StepKeepsInv(passed, Base(S.Script(2)));
    TwoSteps(s, Gather(1, []), passed, Base(S.Script(2)), end);
  }

  /** The exception is real: a caller resolves its quota, the owner's answer changes, Reload
      passes the still empty shard, and the caller inserts with the old answer. */
  lemma ReloadMissesAKey() returns (s: State, es: seq<Event>, end: State, id: Id)
    ensures Reachable(s) && Inv(s) && Begun(s, 1) && Legal(s, es) && Exec(s, es) == end && Done(end, 1)
    ensures id < |end.reg.entries| == |end.quota| && end.reg.entries[id].fate.Live? && end.quota[id] < s.hook
  {
    s := Frame(2, 1, map[0 := 0], map[1 := FRESH]);
    end := State(S.Frame(3), 1, [0], [0], map[0 := 0], map[1 := PASSED]);
    es, id := [Gather(1, [])] + ([Base(S.Script(2))] + []), 0;
    ThenReloads();
    MissedRun(s, es, end);
    MissedEnds(s, end);
  }
}
