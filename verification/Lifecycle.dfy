/** The Limiter's lifetime (limiter/lifecycle.go): the enter/leave barrier every request
    passes, Close and Shutdown, the once-only teardown, and the GC goroutine, as program
    counters over the shared state. Any number of threads, in any order. */
module Lifecycle {

  type Tid = nat

  /** The body of finish, each stage naming what comes next. */
  datatype Stage = Cancel | AwaitGc | AwaitActive | Flushing | Drop | CloseStore | Leave

  datatype Pc =
    | Idle
    | Inside                    // a request between enter and leave
    | Storing                   // the same, in Load or Save
    | SetFlag(graceful: bool)   // Close or Shutdown, about to refuse new requests
    | Select                    // Shutdown: everyone left, or the caller's ctx expired
    | Drain                     // Shutdown, expired: cancelled everyone, waiting them out
    | AtOnce                    // about to enter closeOnce
    | Body(stage: Stage)        // inside closeOnce
    | Returned

  datatype Gc = Resting | Sweeping | SweepFlushing | Exited

  datatype Once = Never | Running(t: Tid) | Done

  datatype State = State(
    persists: bool,
    closable: bool,             // the store is an io.Closer
    shuttingDown: bool,
    cancelled: bool,            // the Limiter's own context
    active: int,                // activeWg
    gc: Gc,
    once: Once,
    threads: map<Tid, Pc>,
    teardowns: nat,             // how often the body was entered,
    flushes: nat,               // ... finished its flush,
    drops: nat,                 // ... dropped the population,
    closes: nat)                // ... and closed the store

  datatype Call = Request | Close | Shutdown

  /** `choice` resolves what the code leaves open: whether a request does more store I/O or
      leaves, whether ctx expired, whether the GC's tick or its cancellation is taken. */
  datatype Event = Start(t: Tid, call: Call) | Step(t: Tid, choice: bool) | Collect(choice: bool)

  predicate Within(pc: Pc) {
    pc.Inside? || pc.Storing?
  }

  predicate Closer(pc: Pc) {
    !pc.Idle? && !Within(pc) && !pc.Returned?
  }

  /** Store I/O in progress. */
  predicate InStore(pc: Pc) {
    pc.Storing? || pc == Body(Flushing)
  }

  predicate Closed(s: State) {
    s.closes > 0
  }

  function Inhabitants(threads: map<Tid, Pc>): set<Tid> {
    set t | t in threads && Within(threads[t])
  }

  // ------------------------------------------------------------------------ the steps

  function At(s: State, t: Tid, pc: Pc): State {
    s.(threads := s.threads[t := pc])
  }

  predicate CanStep(s: State, t: Tid, choice: bool)
    requires t in s.threads
  {
    match s.threads[t]
    case Idle => false
    case Returned => false
    case Select => choice || s.active == 0
    case Drain => s.active == 0
    case AtOnce => !s.once.Running?
    case Body(stage) =>
      (match stage
       case AwaitGc => s.gc == Exited
       case AwaitActive => s.active == 0
       case _ => true)
    case _ => true
  }

  predicate Enabled(s: State, e: Event) {
    match e
    case Start(t, _) => t !in s.threads || s.threads[t].Idle? || s.threads[t].Returned?
    case Step(t, choice) => t in s.threads && CanStep(s, t, choice)
    case Collect(choice) =>
      (match s.gc
       case Resting => choice || s.cancelled
       case Sweeping => choice ==> s.persists
       case SweepFlushing => true
       case Exited => false)
  }

  function Begin(s: State, t: Tid, call: Call): State {
    match call
    case Request => if s.shuttingDown then At(s, t, Idle) else At(s, t, Inside).(active := s.active + 1)
    case Close => At(s, t, SetFlag(false))
    case Shutdown => At(s, t, SetFlag(true))
  }

  function NextStage(s: State, stage: Stage): Pc {
    match stage
    case Cancel => Body(AwaitGc)
    case AwaitGc => Body(AwaitActive)
    case AwaitActive => Body(if s.persists then Flushing else Drop)
    case Flushing => Body(Drop)
    case Drop => Body(CloseStore)
    case CloseStore => Body(Leave)
    case Leave => Returned
  }

  function NextPc(s: State, pc: Pc, choice: bool): Pc {
    match pc
    case Inside => if choice then Storing else Idle
    case Storing => Inside
    case SetFlag(graceful) => if graceful then Select else AtOnce
    case Select => if choice then Drain else AtOnce
    case Drain => AtOnce
    case AtOnce => if s.once.Done? then Returned else Body(Cancel)
    case Body(stage) => NextStage(s, stage)
    case _ => pc
  }

  /** Where the thread goes, and beside that the one thing its step does. */
  function Proceed(s: State, t: Tid, choice: bool): State
    requires t in s.threads
  {
    var pc := s.threads[t];
    State(
      s.persists,
      s.closable,
      s.shuttingDown || pc.SetFlag?,
      s.cancelled || pc == Body(Cancel) || (pc.Select? && choice),
      s.active - (if pc.Inside? && !choice then 1 else 0),
      s.gc,
      if pc.AtOnce? && !s.once.Done? then Running(t) else if pc == Body(Leave) then Done else s.once,
      s.threads[t := NextPc(s, pc, choice)],
      s.teardowns + (if pc.AtOnce? && !s.once.Done? then 1 else 0),
      s.flushes + (if pc == Body(Flushing) then 1 else 0),
      s.drops + (if pc == Body(Drop) then 1 else 0),
      s.closes + (if pc == Body(CloseStore) && s.closable then 1 else 0))
  }

  function Sweep(s: State, choice: bool): State {
    match s.gc
    case Resting => s.(gc := if choice then Sweeping else Exited)
    case Sweeping => s.(gc := if choice then SweepFlushing else Resting)
    case SweepFlushing => s.(gc := Sweeping)
    case Exited => s
  }

  function Apply(s: State, e: Event): State
    requires Enabled(s, e)
  {
    match e
    case Start(t, call) => Begin(s, t, call)
    case Step(t, choice) => Proceed(s, t, choice)
    case Collect(choice) => Sweep(s, choice)
  }

  // ---------------------------------------------------------------------- invariants

  function Rank(stage: Stage): nat {
    match stage
    case Cancel => 0
    case AwaitGc => 1
    case AwaitActive => 2
    case Flushing => 3
    case Drop => 4
    case CloseStore => 5
    case Leave => 6
  }

  /** How far the one teardown got: -1 before it starts, 7 once it is over. */
  function Progress(s: State): int {
    match s.once
    case Never => -1
    case Done => 7
    case Running(t) => if t in s.threads && s.threads[t].Body? then Rank(s.threads[t].stage) else 0
  }

  predicate ThreadOk(s: State, t: Tid)
    requires t in s.threads
  {
    match s.threads[t]
    case Select => s.shuttingDown
    case Drain => s.shuttingDown && s.cancelled
    case AtOnce => s.shuttingDown
    case Body(_) => s.once == Running(t)
    case Returned => s.once.Done?
    case _ => true
  }

  /** What the teardown having reached a stage says about everything else. */
  predicate Milestones(s: State, p: int) {
    && (p >= 0 ==> s.shuttingDown)
    && (p >= 1 ==> s.cancelled)
    && (p >= 2 ==> s.gc == Exited)
    && (p >= 3 ==> s.active == 0)
    && s.teardowns == (if p >= 0 then 1 else 0)
    && s.flushes == (if p >= 4 && s.persists then 1 else 0)
    && s.drops == (if p >= 5 then 1 else 0)
    && s.closes == (if p >= 6 && s.closable then 1 else 0)
  }

  predicate Inv(s: State) {
    && s.active == |Inhabitants(s.threads)|
    && (forall t :: t in s.threads ==> ThreadOk(s, t))
    && (s.once.Running? ==> s.once.t in s.threads && s.threads[s.once.t].Body?)
    && (Progress(s) == Rank(Flushing) ==> s.persists)
    && Milestones(s, Progress(s))
    && (s.gc == SweepFlushing ==> s.persists)
    && (s.gc == Exited ==> s.cancelled)
  }

  lemma MoveWithin(threads: map<Tid, Pc>, t: Tid, pc: Pc)
    ensures var was := t in threads && Within(threads[t]);
            |Inhabitants(threads[t := pc])|
            == |Inhabitants(threads)| + (if Within(pc) then 1 else 0) - (if was then 1 else 0)
  {
    var a, b := Inhabitants(threads), Inhabitants(threads[t := pc]);
    if Within(pc) {
      assert b == a + {t};
    } else {
      assert b == a - {t};
    }
  }

  lemma SomebodyWithin(s: State, t: Tid)
    requires Inv(s) && t in s.threads && Within(s.threads[t])
    ensures s.active > 0
  {
    assert t in Inhabitants(s.threads);
  }

  // One lemma for each kind of step.

  lemma BeginKeepsInv(s: State, t: Tid, call: Call)
    requires Inv(s) && Enabled(s, Start(t, call))
    ensures Inv(Begin(s, t, call))
  {
    var pc := if !call.Request? then SetFlag(call.Shutdown?) else if s.shuttingDown then Idle else Inside;
    MoveWithin(s.threads, t, pc);
  }

  lemma LeaveKeepsInv(s: State, t: Tid)
    requires Inv(s) && t in s.threads && s.threads[t].Inside?
    ensures Inv(Proceed(s, t, false))
  {
    SomebodyWithin(s, t);
    MoveWithin(s.threads, t, Idle);
  }

  lemma StoreKeepsInv(s: State, t: Tid, choice: bool)
    requires Inv(s) && t in s.threads && Within(s.threads[t]) && (s.threads[t].Inside? ==> choice)
    ensures Inv(Proceed(s, t, choice))
  {
    MoveWithin(s.threads, t, if s.threads[t].Storing? then Inside else Storing);
  }

  lemma FlagKeepsInv(s: State, t: Tid, choice: bool)
    requires Inv(s) && t in s.threads && s.threads[t].SetFlag?
    ensures Inv(Proceed(s, t, choice))
  {
    MoveWithin(s.threads, t, if s.threads[t].graceful then Select else AtOnce);
  }

  lemma SelectKeepsInv(s: State, t: Tid, choice: bool)
    requires Inv(s) && Enabled(s, Step(t, choice)) && (s.threads[t].Select? || s.threads[t].Drain?)
    ensures Inv(Proceed(s, t, choice))
  {
    MoveWithin(s.threads, t, if s.threads[t].Select? && choice then Drain else AtOnce);
    assert ThreadOk(s, t);
  }

  lemma LateKeepsInv(s: State, t: Tid, choice: bool)
    requires Inv(s) && t in s.threads && s.threads[t].AtOnce? && s.once.Done?
    ensures Inv(Proceed(s, t, choice))
  {
    MoveWithin(s.threads, t, Returned);
  }

  lemma FirstKeepsInv(s: State, t: Tid, choice: bool)
    requires Inv(s) && t in s.threads && s.threads[t].AtOnce? && s.once.Never?
    ensures Inv(Proceed(s, t, choice))
  {
    assert ThreadOk(s, t);
    MoveWithin(s.threads, t, Body(Cancel));
  }

  lemma BodyKeepsInv(s: State, t: Tid, stage: Stage, choice: bool)
    requires Inv(s) && t in s.threads && s.threads[t] == Body(stage) && CanStep(s, t, choice) && !stage.Leave?
    ensures Inv(Proceed(s, t, choice))
  {
    assert ThreadOk(s, t);
    MoveWithin(s.threads, t, NextStage(s, stage));
  }

  lemma EndKeepsInv(s: State, t: Tid, choice: bool)
    requires Inv(s) && t in s.threads && s.threads[t] == Body(Leave)
    ensures Inv(Proceed(s, t, choice))
  {
    assert ThreadOk(s, t);
    MoveWithin(s.threads, t, Returned);
  }

  lemma SweepKeepsInv(s: State, choice: bool)
    requires Inv(s) && Enabled(s, Collect(choice))
    ensures Inv(Sweep(s, choice))
  {
  }

  lemma ProceedKeepsInv(s: State, t: Tid, choice: bool)
    requires Inv(s) && Enabled(s, Step(t, choice))
    ensures Inv(Proceed(s, t, choice))
  {
    var pc := s.threads[t];
    if pc.Inside? && !choice {
      LeaveKeepsInv(s, t);
    } else if Within(pc) {
      StoreKeepsInv(s, t, choice);
    } else if pc.SetFlag? {
      FlagKeepsInv(s, t, choice);
    } else if pc.Select? || pc.Drain? {
      SelectKeepsInv(s, t, choice);
    } else if pc.Body? {
      if pc.stage.Leave? {
        EndKeepsInv(s, t, choice);
      } else {
        BodyKeepsInv(s, t, pc.stage, choice);
      }
    } else if s.once.Done? {
      LateKeepsInv(s, t, choice);
    } else {
      FirstKeepsInv(s, t, choice);
    }
  }

  lemma StepKeepsInv(s: State, e: Event)
    requires Inv(s) && Enabled(s, e)
    ensures Inv(Apply(s, e))
  {
    match e
    case Start(t, call) => BeginKeepsInv(s, t, call);
    case Collect(choice) => SweepKeepsInv(s, choice);
    case Step(t, choice) => ProceedKeepsInv(s, t, choice);
  }

  // --------------------------------------------------------------------------- runs

  predicate Legal(s: State, es: seq<Event>)
    decreases |es|
  {
    es == [] || (Enabled(s, es[0]) && Legal(Apply(s, es[0]), es[1..]))
  }

  function Exec(s: State, es: seq<Event>): State
    requires Legal(s, es)
    decreases |es|
  {
    if es == [] then s else Exec(Apply(s, es[0]), es[1..])
  }

  function Init(persists: bool, closable: bool): State {
    State(persists, closable, false, false, 0, Resting, Never, map[], 0, 0, 0, 0)
  }

  lemma {:induction false} RunKeepsInv(s: State, es: seq<Event>)
    requires Inv(s) && Legal(s, es)
    ensures Inv(Exec(s, es))
    decreases |es|
  {
    if es != [] {
      StepKeepsInv(s, es[0]);
      RunKeepsInv(Apply(s, es[0]), es[1..]);
    }
  }

  ghost predicate RunsFrom(persists: bool, closable: bool, es: seq<Event>, s: State) {
    Legal(Init(persists, closable), es) && s == Exec(Init(persists, closable), es)
  }

  ghost predicate Reachable(s: State) {
    exists persists, closable, es :: RunsFrom(persists, closable, es, s)
  }

  lemma ReachableInv(s: State)
    requires Reachable(s)
    ensures Inv(s)
  {
    var persists, closable, es :| RunsFrom(persists, closable, es, s);
    assert Inhabitants(map[]) == {};
    RunKeepsInv(Init(persists, closable), es);
  }

  // ------------------------------------------------------------------- main results

  /** Nobody is in the store: no request, no sweep, no final flush. */
  predicate Quiet(s: State) {
    s.active == 0 && s.gc != SweepFlushing && forall t :: t in s.threads ==> !InStore(s.threads[t])
  }

  lemma ClosedIsQuiet(s: State)
    requires Inv(s) && Closed(s)
    ensures Quiet(s)
  {
    forall t | t in s.threads
      ensures !InStore(s.threads[t])
    {
      assert ThreadOk(s, t);
      assert Within(s.threads[t]) ==> t in Inhabitants(s.threads);
    }
  }

  /** Once the store is closed nothing is in it, and nothing can get into it again. */
  lemma {:induction false} ClosedStoreIsLeftAlone(s: State, es: seq<Event>)
    requires Inv(s) && Closed(s) && Legal(s, es)
    ensures Closed(Exec(s, es)) && Quiet(Exec(s, es))
    decreases |es|
  {
    if es == [] {
      ClosedIsQuiet(s);
    } else {
      StepKeepsInv(s, es[0]);
      ClosedStoreIsLeftAlone(Apply(s, es[0]), es[1..]);
    }
  }

  /** The same from the start: in any run, whatever comes after the store was closed. */
  lemma NothingTouchesAClosedStore(s: State, es: seq<Event>)
    requires Reachable(s) && Closed(s) && Legal(s, es)
    ensures Closed(Exec(s, es)) && Quiet(Exec(s, es))
  {
    ReachableInv(s);
    ClosedStoreIsLeftAlone(s, es);
  }

  /** The teardown is entered at most once, does each thing at most once, and by the time
      any Close or Shutdown has returned it did all of it exactly once. */
  lemma TeardownRunsOnce(s: State, t: Tid)
    requires Reachable(s) && t in s.threads
    ensures s.teardowns <= 1 && s.flushes <= 1 && s.drops <= 1 && s.closes <= 1
    ensures s.threads[t].Returned? ==>
      && s.teardowns == 1 && s.drops == 1
      && s.flushes == (if s.persists then 1 else 0) && s.closes == (if s.closable then 1 else 0)
  {
    ReachableInv(s);
    assert ThreadOk(s, t);
  }

  /** Whatever the teardown does to state it does after the GC exited and everyone left,
      and in order: flush before drop before close. */
  lemma TeardownWaitsForEveryone(s: State, e: Event)
    requires Reachable(s) && Enabled(s, e)
    ensures var s' := Apply(s, e);
      (s'.flushes > s.flushes || s'.drops > s.drops || s'.closes > s.closes) ==>
        && s.active == 0 && Inhabitants(s.threads) == {} && s.gc == Exited && s.shuttingDown
        && (s'.drops > s.drops ==> s.flushes == (if s.persists then 1 else 0))
        && (s'.closes > s.closes ==> s.drops == 1)
  {
    ReachableInv(s);
    OnlyTheBodyTearsDown(s, e);
    if e.Step? && s.threads[e.t].Body? {
      assert ThreadOk(s, e.t);
    }
  }

  lemma OnlyTheBodyTearsDown(s: State, e: Event)
    requires Enabled(s, e)
    ensures Apply(s, e).flushes > s.flushes ==> e.Step? && s.threads[e.t] == Body(Flushing)
    ensures Apply(s, e).drops > s.drops ==> e.Step? && s.threads[e.t] == Body(Drop)
    ensures Apply(s, e).closes > s.closes ==> e.Step? && s.threads[e.t] == Body(CloseStore)
  {
  }

  /** The barrier: once shutting down, those inside only ever get fewer. */
  lemma {:induction false} NobodyEntersAfterTheFlag(s: State, es: seq<Event>)
    requires s.shuttingDown && Legal(s, es)
    ensures Exec(s, es).shuttingDown && Inhabitants(Exec(s, es).threads) <= Inhabitants(s.threads)
    decreases |es|
  {
    if es != [] {
      OneStepAfterTheFlag(s, es[0]);
      NobodyEntersAfterTheFlag(Apply(s, es[0]), es[1..]);
    }
  }

  lemma OneStepAfterTheFlag(s: State, e: Event)
    requires s.shuttingDown && Enabled(s, e)
    ensures Apply(s, e).shuttingDown && Inhabitants(Apply(s, e).threads) <= Inhabitants(s.threads)
  {
    match e
    case Start(t, call) =>
      assert Begin(s, t, call).threads == s.threads[t := if call.Request? then Idle else SetFlag(call.Shutdown?)];
    case Collect(choice) =>
      assert Sweep(s, choice).threads == s.threads;
    case Step(t, choice) =>
      MovesOnlyItself(s, t, choice);
  }

  lemma MovesOnlyItself(s: State, t: Tid, choice: bool)
    requires t in s.threads
    ensures var s' := Proceed(s, t, choice);
            && t in s'.threads && s'.threads == s.threads[t := s'.threads[t]]
            && (Within(s'.threads[t]) ==> Within(s.threads[t])) && (s.shuttingDown ==> s'.shuttingDown)
  {
  }

  // ------------------------------------------------------------------ no deadlock

  function Storers(threads: map<Tid, Pc>): set<Tid> {
    set t | t in threads && threads[t].Storing?
  }

  function CloserRank(pc: Pc): nat {
    match pc
    case SetFlag(_) => 4
    case Select => 3
    case Drain => 3
    case AtOnce => 2
    case Body(_) => 1
    case _ => 0
  }

  function GcRank(gc: Gc): nat {
    match gc
    case SweepFlushing => 3
    case Sweeping => 2
    case Resting => 1
    case Exited => 0
  }

  /** Steps at most between thread t and its return, if everyone helps. */
  function Distance(s: State, t: Tid): int
    requires t in s.threads
  {
    CloserRank(s.threads[t]) + (7 - Progress(s)) + GcRank(s.gc) + |Inhabitants(s.threads)| + |Storers(s.threads)|
  }

  lemma MoveStoring(threads: map<Tid, Pc>, t: Tid, pc: Pc)
    requires t in threads
    ensures |Storers(threads[t := pc])|
            == |Storers(threads)| + (if pc.Storing? then 1 else 0) - (if threads[t].Storing? then 1 else 0)
  {
    var a, b := Storers(threads), Storers(threads[t := pc]);
    if pc.Storing? {
      assert b == a + {t};
    } else {
      assert b == a - {t};
    }
  }

  /** Event e helps thread t on its way out of Close or Shutdown. */
  ghost predicate Helps(s: State, e: Event, t: Tid)
    requires t in s.threads
  {
    && Enabled(s, e) && !e.Start?
    && t in Apply(s, e).threads && (Closer(Apply(s, e).threads[t]) || Apply(s, e).threads[t].Returned?)
    && Distance(Apply(s, e), t) < Distance(s, t)
  }

  /** A request finishing its store I/O, or leaving. */
  lemma InsiderHelps(s: State, t: Tid, u: Tid)
    requires Inv(s) && t in s.threads && Closer(s.threads[t]) && u in s.threads && Within(s.threads[u])
    ensures Helps(s, Step(u, false), t)
  {
    MoveWithin(s.threads, u, NextPc(s, s.threads[u], false));
    MoveStoring(s.threads, u, NextPc(s, s.threads[u], false));
  }

  lemma GcHelps(s: State, t: Tid)
    requires Inv(s) && t in s.threads && Closer(s.threads[t]) && s.cancelled && s.gc != Exited
    ensures Helps(s, Collect(false), t)
  {
    assert Sweep(s, false).threads == s.threads;
  }

  /** The closer itself. */
  lemma CloserHelps(s: State, t: Tid)
    requires Inv(s) && t in s.threads && Closer(s.threads[t]) && !s.threads[t].Body? && CanStep(s, t, false)
    ensures Helps(s, Step(t, false), t)
  {
    MoveWithin(s.threads, t, NextPc(s, s.threads[t], false));
    MoveStoring(s.threads, t, NextPc(s, s.threads[t], false));
  }

  /** Whoever runs the teardown. */
  lemma BodyHelps(s: State, t: Tid, u: Tid)
    requires Inv(s) && t in s.threads && Closer(s.threads[t])
    requires u in s.threads && s.threads[u].Body? && CanStep(s, u, false)
    ensures Helps(s, Step(u, false), t)
  {
    assert ThreadOk(s, u);
    MoveWithin(s.threads, u, NextPc(s, s.threads[u], false));
    MoveStoring(s.threads, u, NextPc(s, s.threads[u], false));
  }

  lemma SomeoneInside(s: State) returns (u: Tid)
    requires Inv(s) && s.active != 0
    ensures u in s.threads && Within(s.threads[u])
  {
    u :| u in Inhabitants(s.threads);
  }

  /** While a Close or Shutdown has not returned, some step is possible that brings it
      nearer, with no new call and no expiring ctx. */
  lemma SomeoneHelps(s: State, t: Tid) returns (e: Event)
    requires Inv(s) && t in s.threads && Closer(s.threads[t])
    ensures Helps(s, e, t)
  {
    var u := if s.threads[t].AtOnce? && s.once.Running? then s.once.t else t;
    e := Step(u, false);
    assert ThreadOk(s, u);
    if CanStep(s, u, false) {
      if s.threads[u].Body? {
        BodyHelps(s, t, u);
      } else {
        CloserHelps(s, t);
      }
    } else if s.threads[u] == Body(AwaitGc) {
      GcHelps(s, t);
      e := Collect(false);
    } else {
      u := SomeoneInside(s);
      InsiderHelps(s, t, u);
      e := Step(u, false);
    }
  }

  /** From any reachable state in which a Close or Shutdown is under way it can return:
      closing never deadlocks. */
  lemma {:induction false} ClosingCanFinish(s: State, t: Tid) returns (es: seq<Event>)
    requires Inv(s) && t in s.threads && (Closer(s.threads[t]) || s.threads[t].Returned?)
    ensures Legal(s, es) && |es| <= Distance(s, t) && forall i :: 0 <= i < |es| ==> !es[i].Start?
    ensures t in Exec(s, es).threads && Exec(s, es).threads[t].Returned?
    decreases Distance(s, t)
  {
    if s.threads[t].Returned? {
      es := [];
    } else {
      var e := SomeoneHelps(s, t);
      StepKeepsInv(s, e);
      var rest := ClosingCanFinish(Apply(s, e), t);
      es := [e] + rest;
    }
  }
}
