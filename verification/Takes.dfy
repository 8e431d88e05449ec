/** Concurrent backend calls around one breaker: Gate.Take and Gate.wait
    (gate/gate.go:148-194, gate/admit.go:150-192), each atomic operation on the
    breaker or a counter being one step, for any number of calls in flight. */
module Takes {
  import opened Breakers

  type Id = nat

  datatype Pc =
    | Admitted    // breaker.Allow said yes; takes not yet counted
    | Calling     // counted; the backend is being asked
    | Erred       // failure counted; the breaker not yet told
    | Blocked     // breaker.Allow said no; failure not yet counted
    | Refusing    // breaker told of success; refusal not yet counted
    | Granted | Refused | Failing | Left | Short   // resolved
    | Silent      // Gate.wait returned on the owner's shutdown without a report

  /** `probe`: the breaker let it through as a half-open probe. */
  datatype Call = Call(pc: Pc, waits: bool, probe: bool)

  /** `prober` remembers who last claimed the half-open probe. */
  datatype State = State(
    breaker: Circuit,
    calls: map<Id, Call>,
    takes: int, refused: int, errors: int,
    ownerDone: bool,
    prober: Id)

  const INITIAL := State(CLOSED, map[], 0, 0, 0, false, 0)

  datatype Event =
    | Ask(call: Id, now: int, waits: bool)   // breaker.Allow
    | CountTake(call: Id)                    // takes.Add
    | CountShort(call: Id)                   // failures.Add for a short-circuit
    | Answer(call: Id, granted: bool)        // the backend answered; breaker.Succeeded
    | CountRefusal(call: Id)                 // refused.Add
    | Err(call: Id)                          // the backend failed; failures.Add
    | Report(call: Id, now: int)             // breaker.Failed
    | Abandon(call: Id)                      // caller or owner gone; breaker.Abandoned
    | CloseOwner
    | LeaveSilently(call: Id)                // wait, with the owner's context done

  predicate At(s: State, c: Id, pc: Pc) {
    c in s.calls && s.calls[c].pc == pc
  }

  predicate Enabled(s: State, e: Event) {
    match e
    case Ask(c, _, _) => c !in s.calls
    case CountTake(c) => At(s, c, Admitted)
    case CountShort(c) => At(s, c, Blocked)
    case Answer(c, granted) => At(s, c, Calling) && (s.calls[c].waits ==> granted)
    case CountRefusal(c) => At(s, c, Refusing)
    case Err(c) => At(s, c, Calling)
    case Report(c, _) => At(s, c, Erred)
    case Abandon(c) => At(s, c, Calling) && !(s.calls[c].waits && s.ownerDone)
    case CloseOwner => true
    case LeaveSilently(c) => At(s, c, Calling) && s.calls[c].waits && s.ownerDone
  }

  function Goto(s: State, c: Id, pc: Pc): State
    requires c in s.calls
  {
    s.(calls := s.calls[c := s.calls[c].(pc := pc)])
  }

  predicate ClaimsProbe(b: Circuit, now: int) {
    Admits(b, now) && b.openTill.Until?
  }

  function Apply(s: State, e: Event): State
    requires Enabled(s, e)
  {
    match e
    case Ask(c, now, waits) =>
      s.(breaker := AfterAllow(s.breaker, now),
         calls := s.calls[c := Call(if Admits(s.breaker, now) then Admitted else Blocked, waits,
                                    ClaimsProbe(s.breaker, now))],
         prober := if ClaimsProbe(s.breaker, now) then c else s.prober)
    case CountTake(c) => Goto(s, c, Calling).(takes := s.takes + 1)
    case CountShort(c) => Goto(s, c, Short).(errors := s.errors + 1)
    case Answer(c, granted) => Goto(s, c, if granted then Granted else Refusing).(breaker := CLOSED)
    case CountRefusal(c) => Goto(s, c, Refused).(refused := s.refused + 1)
    case Err(c) => Goto(s, c, Erred).(errors := s.errors + 1)
    case Report(c, now) => Goto(s, c, Failing).(breaker := AfterFail(s.breaker, now))
    case Abandon(c) => Goto(s, c, Left).(breaker := AfterAbandon(s.breaker))
    case CloseOwner => s.(ownerDone := true)
    case LeaveSilently(c) => Goto(s, c, Silent)
  }

  predicate Legal(s: State, es: seq<Event>)
    decreases |es|
  {
    es == [] || (Enabled(s, es[0]) && Legal(Apply(s, es[0]), es[1..]))
  }

  function Exec(s: State, es: seq<Event>): State
    requires Legal(s, es)
    decreases |es|
  {
    if es == [] then s else Exec(Apply(s, es[0]), es[1..])
  }

  ghost predicate Reachable(s: State) {
    exists es :: Legal(INITIAL, es) && s == Exec(INITIAL, es)
  }

  // ------------------------------------------------------------------ invariant

  /** Admitted by the breaker and still owing it a report. */
  predicate InFlight(k: Call) {
    k.pc.Admitted? || k.pc.Calling? || k.pc.Erred?
  }

  function In(calls: map<Id, Call>, pc: Pc): set<Id> {
    set c | c in calls && calls[c].pc == pc
  }

  /** How many calls stand at pc. */
  function Tally(calls: map<Id, Call>, pc: Pc): nat {
    |In(calls, pc)|
  }

  predicate ProbeHeld(s: State) {
    s.breaker.probing ==>
      s.prober in s.calls && (InFlight(s.calls[s.prober]) || s.calls[s.prober].pc.Silent?)
  }

  predicate SilenceNeedsShutdown(s: State) {
    forall c :: c in s.calls && s.calls[c].pc.Silent? ==> s.ownerDone && s.calls[c].waits
  }

  /** Calls that reached the backend, by what became of them. */
  function Asked(calls: map<Id, Call>): nat {
    Tally(calls, Granted) + Tally(calls, Refusing) + Tally(calls, Refused) + Tally(calls, Failing)
    + Tally(calls, Left) + Tally(calls, Silent) + Tally(calls, Calling) + Tally(calls, Erred)
  }

  predicate TakesAddUp(s: State) {
    s.takes == Asked(s.calls)
  }

  predicate RefusalsAddUp(s: State) {
    s.refused == Tally(s.calls, Refused)
  }

  predicate ErrorsAddUp(s: State) {
    s.errors == Tally(s.calls, Short) + Tally(s.calls, Failing) + Tally(s.calls, Erred)
  }

  predicate Inv(s: State) {
    Sane(s.breaker) && ProbeHeld(s) && SilenceNeedsShutdown(s)
    && TakesAddUp(s) && RefusalsAddUp(s) && ErrorsAddUp(s)
  }

  /** Moving one call changes the tally of where it left and of where it went. */
  lemma Moved(calls: map<Id, Call>, c: Id, k: Call, pc: Pc)
    ensures Tally(calls[c := k], pc) == Tally(calls, pc) - Was(calls, c, pc) + (if k.pc == pc then 1 else 0)
  {
    if k.pc == pc {
      assert In(calls[c := k], pc) == In(calls, pc) + {c};
    } else {
      assert In(calls[c := k], pc) == In(calls, pc) - {c};
    }
  }

  function Was(calls: map<Id, Call>, c: Id, pc: Pc): nat {
    if c in calls && calls[c].pc == pc then 1 else 0
  }

  function Reached(calls: map<Id, Call>, c: Id): nat {
    if c in calls && !(calls[c].pc in {Admitted, Blocked, Short}) then 1 else 0
  }

  lemma AskedMoved(calls: map<Id, Call>, c: Id, k: Call)
    ensures Asked(calls[c := k]) == Asked(calls) - Reached(calls, c) + Reached(calls[c := k], c)
  {
    Moved(calls, c, k, Granted);
    Moved(calls, c, k, Refusing);
    Moved(calls, c, k, Refused);
    Moved(calls, c, k, Failing);
    Moved(calls, c, k, Left);
    Moved(calls, c, k, Silent);
    Moved(calls, c, k, Calling);
    Moved(calls, c, k, Erred);
  }

  lemma StepTakes(s: State, e: Event)
    requires TakesAddUp(s) && Enabled(s, e)
    ensures TakesAddUp(Apply(s, e))
  {
    var s' := Apply(s, e);
    if e.CloseOwner? {
      assert s'.calls == s.calls;
    } else {
      assert s'.calls == s.calls[e.call := s'.calls[e.call]];
      AskedMoved(s.calls, e.call, s'.calls[e.call]);
    }
  }

  lemma StepErrors(s: State, e: Event)
    requires RefusalsAddUp(s) && ErrorsAddUp(s) && Enabled(s, e)
    ensures RefusalsAddUp(Apply(s, e)) && ErrorsAddUp(Apply(s, e))
  {
    if !e.CloseOwner? {
      var k := Apply(s, e).calls[e.call];
      Moved(s.calls, e.call, k, Refused);
      Moved(s.calls, e.call, k, Short);
      Moved(s.calls, e.call, k, Failing);
      Moved(s.calls, e.call, k, Erred);
    }
  }

  lemma StepProbeHeld(s: State, e: Event)
    requires Sane(s.breaker) && ProbeHeld(s) && Enabled(s, e)
    ensures Sane(Apply(s, e).breaker) && ProbeHeld(Apply(s, e))
  {
  }

  lemma StepSilence(s: State, e: Event)
    requires SilenceNeedsShutdown(s) && Enabled(s, e)
    ensures SilenceNeedsShutdown(Apply(s, e))
  {
  }

  lemma StepKeepsInv(s: State, e: Event)
    requires Inv(s) && Enabled(s, e)
    ensures Inv(Apply(s, e))
  {
    StepProbeHeld(s, e);
    StepSilence(s, e);
    StepTakes(s, e);
    StepErrors(s, e);
  }

  lemma {:induction false} RunKeepsInv(s: State, es: seq<Event>)
    requires Inv(s) && Legal(s, es)
    ensures Inv(Exec(s, es))
    decreases |es|
  {
    if es != [] {
      StepKeepsInv(s, es[0]);
      RunKeepsInv(Apply(s, es[0]), es[1..]);
    }
  }

  lemma InitialInv()
    ensures Inv(INITIAL)
  {
    assert forall pc :: In(INITIAL.calls, pc) == {};
  }

  lemma ReachableKeepsInv(s: State)
    requires Reachable(s)
    ensures Inv(s)
  {
    var es :| Legal(INITIAL, es) && s == Exec(INITIAL, es);
    InitialInv();
    RunKeepsInv(INITIAL, es);
  }

  // ---------------------------------------------------------------- main results

  /** The breaker's half-open claim always has a claimant: while nobody has left
      silently, a set probe flag belongs to a call still in flight. */
  lemma ProbeHasAHolder(s: State)
    requires Reachable(s) && s.breaker.probing
    ensures s.breaker.openTill.Until? && 0 <= s.breaker.failures < THRESHOLD
    ensures s.prober in s.calls
    ensures InFlight(s.calls[s.prober]) || (s.calls[s.prober].pc.Silent? && s.ownerDone)
  {
    ReachableKeepsInv(s);
  }

  /** Of the ways a call can end after the breaker let it through, exactly one keeps a
      claimed probe: a waiting call leaving while the owner shuts down. */
  lemma ResolvingReleasesTheProbe(s: State, e: Event)
    requires Reachable(s) && Enabled(s, e) && (e.Answer? || e.Report? || e.Abandon? || e.LeaveSilently?)
    ensures Apply(s, e).breaker.probing <==> s.breaker.probing && e.LeaveSilently?
    ensures e.LeaveSilently? ==> s.calls[e.call].waits && s.ownerDone
    ensures !Apply(s, e).breaker.probing ==> exists now :: Admits(Apply(s, e).breaker, now)
  {
    ReachableStep(s, e);
    ReachableKeepsInv(Apply(s, e));
    StuckMeansForever(Apply(s, e).breaker);
  }

  predicate Stuck(b: Circuit) {
    b.openTill.Until? && b.probing
  }

  predicate Idle(s: State) {
    forall c :: c in s.calls ==> !InFlight(s.calls[c])
  }

  /** Stuck means what it says: no instant is ever admitted again. */
  lemma StuckMeansForever(b: Circuit)
    ensures Stuck(b) <==> forall now :: !Admits(b, now)
  {
    if b.openTill.Until? && !b.probing {
      assert Admits(b, b.openTill.at);
    } else if b.openTill.Zero? {
      assert Admits(b, 0);
    }
  }

  /** With nothing in flight a stuck breaker means that its last prober left through
      Gate.wait's shutdown branch; short of a shutdown some later call is admitted. */
  lemma StuckOnlyAfterSilence(s: State)
    requires Reachable(s) && Idle(s)
    ensures Stuck(s.breaker) ==> s.ownerDone && s.prober in s.calls && s.calls[s.prober].pc.Silent?
    ensures !s.ownerDone ==> exists now :: Admits(s.breaker, now)
  {
    ReachableKeepsInv(s);
    StuckMeansForever(s.breaker);
  }

  lemma StuckStep(s: State, e: Event)
    requires Idle(s) && Stuck(s.breaker) && Enabled(s, e)
    ensures Idle(Apply(s, e)) && Stuck(Apply(s, e).breaker)
  {
    var next := Apply(s, e);
    forall c | c in next.calls
      ensures !InFlight(next.calls[c])
    {
      assert c in s.calls ==> !InFlight(s.calls[c]);
    }
    if !e.Ask? && !e.CloseOwner? {
      assert !InFlight(s.calls[e.call]);
    }
  }

  lemma {:induction false} StuckStays(s: State, es: seq<Event>)
    requires Idle(s) && Stuck(s.breaker) && Legal(s, es)
    ensures Idle(Exec(s, es)) && Stuck(Exec(s, es).breaker)
    decreases |es|
  {
    if es != [] {
      StuckStep(s, es[0]);
      StuckStays(Apply(s, es[0]), es[1..]);
    }
  }

  lemma {:induction false} UnusedId(ids: set<Id>) returns (c: Id)
    ensures c !in ids && forall d :: d in ids ==> d < c
    decreases |ids|
  {
    if ids == {} {
      c := 0;
    } else {
      var d :| d in ids;
      var above := UnusedId(ids - {d});
      c := if d < above then above else d + 1;
      forall e | e in ids
        ensures e < c
      {
        assert e != d ==> e in ids - {d};
      }
    }
  }

  predicate IdleAfter(s: State, es: seq<Event>) {
    Legal(s, es) ==> Idle(Exec(s, es))
  }

  /** With nothing in flight, no continuation whatever lets another call through exactly
      when the breaker is stuck. */
  lemma StuckIsForGood(s: State)
    requires Idle(s)
    ensures Stuck(s.breaker) <==> forall es {:trigger IdleAfter(s, es)} :: IdleAfter(s, es)
  {
    if Stuck(s.breaker) {
      forall es
        ensures IdleAfter(s, es)
      {
        if Legal(s, es) {
          StuckStays(s, es);
        }
      }
    } else {
      StuckMeansForever(s.breaker);
      var now :| Admits(s.breaker, now);
      var c := UnusedId(s.calls.Keys);
      var next := Apply(s, Ask(c, now, false));
      var es := [Ask(c, now, false)];
      assert es[1..] == [] && Legal(next, []) && Exec(next, []) == next;
      assert Legal(s, es) && Exec(s, es) == next;
      assert c in next.calls && InFlight(next.calls[c]) && !IdleAfter(s, es);
    }
  }

  // ------------------------------------------------------------ one probe at a time

  predicate Busy(s: State, c: Id) {
    c in s.calls && InFlight(s.calls[c])
  }

  /** Call p's probe is claimed and out. */
  predicate Probing(s: State, p: Id) {
    Sane(s.breaker) && s.breaker.probing && s.prober == p && Busy(s, p)
  }

  ghost predicate Alone(s: State, p: Id) {
    forall c :: Busy(s, c) ==> c == p
  }

  /** The run lets another call through, while p's probe is still out at its end. */
  ghost predicate LetsAnotherIn(s: State, es: seq<Event>, p: Id) {
    Legal(s, es) && Busy(Exec(s, es), p) && exists c :: c !in s.calls && Busy(Exec(s, es), c)
  }

  lemma AloneStep(s: State, e: Event, p: Id)
    requires Probing(s, p) && Alone(s, p) && Enabled(s, e) && Busy(Apply(s, e), p)
    ensures Probing(Apply(s, e), p) && Alone(Apply(s, e), p)
  {
    forall c | Busy(Apply(s, e), c)
      ensures c == p
    {
      assert c in s.calls && InFlight(s.calls[c]) ==> Busy(s, c);
    }
    if e.Answer? || e.Report? || e.Abandon? {
      assert Busy(s, e.call);
    }
  }

  lemma {:induction false} GoneIsGone(s: State, es: seq<Event>, p: Id)
    requires Legal(s, es) && p in s.calls && !Busy(s, p)
    ensures !Busy(Exec(s, es), p)
    decreases |es|
  {
    if es != [] {
      GoneIsGone(Apply(s, es[0]), es[1..], p);
    }
  }

  lemma {:induction false} StaysAlone(s: State, es: seq<Event>, p: Id)
    requires Probing(s, p) && Alone(s, p) && Legal(s, es)
    ensures Busy(Exec(s, es), p) ==> Alone(Exec(s, es), p)
    decreases |es|
  {
    if es != [] {
      var next := Apply(s, es[0]);
      if Busy(next, p) {
        AloneStep(s, es[0], p);
        StaysAlone(next, es[1..], p);
      } else {
        GoneIsGone(next, es[1..], p);
      }
    }
  }

  /** A call in flight can report at once, and clears whatever claim there is. */
  lemma ReportsSoon(s: State, d: Id) returns (es: seq<Event>)
    requires Sane(s.breaker) && Busy(s, d)
    ensures Legal(s, es) && !Exec(s, es).breaker.probing && Exec(s, es).calls.Keys == s.calls.Keys
    ensures forall c :: c in s.calls && c != d ==> Exec(s, es).calls[c] == s.calls[c]
  {
    if s.calls[d].pc.Erred? {
      ExecAppend(s, [], Report(d, 0));
      es := [] + [Report(d, 0)];
    } else if s.calls[d].pc.Calling? {
      ExecAppend(s, [], Answer(d, true));
      es := [] + [Answer(d, true)];
    } else {
      ExecAppend(s, [], CountTake(d));
      var called := [] + [CountTake(d)];
      ExecAppend(s, called, Answer(d, true));
      es := called + [Answer(d, true)];
    }
  }

  lemma ThenAsks(s: State, es: seq<Event>, p: Id) returns (all: seq<Event>)
    requires Legal(s, es) && !Exec(s, es).breaker.probing && Exec(s, es).calls.Keys == s.calls.Keys
    requires Busy(Exec(s, es), p)
    ensures LetsAnotherIn(s, all, p)
  {
    var end := Exec(s, es);
    StuckMeansForever(end.breaker);
    var now :| Admits(end.breaker, now);
    var c := UnusedId(end.calls.Keys);
    ExecAppend(s, es, Ask(c, now, false));
    all := es + [Ask(c, now, false)];
    assert c !in s.calls && Busy(Exec(s, all), c);
  }

  /** While call p's probe is out, another call can be let through if and only if some call
      other than p is in flight already: one let through before the breaker opened may
      report first, and whatever it reports clears p's claim. */
  lemma ProbeKeepsOthersOutWhen(s: State, p: Id)
    requires Probing(s, p)
    ensures (exists es :: LetsAnotherIn(s, es, p)) <==> !Alone(s, p)
  {
    if Alone(s, p) {
      forall es
        ensures !LetsAnotherIn(s, es, p)
      {
        if Legal(s, es) {
          StaysAlone(s, es, p);
        }
      }
    } else {
      var d :| Busy(s, d) && d != p;
      var es := ReportsSoon(s, d);
      assert Busy(Exec(s, es), p);
      var all := ThenAsks(s, es, p);
    }
  }

  /** "Exactly one probe through, and every other caller refused until that probe reports
      back" is not kept: five calls open the breaker while a sixth is still out; the
      sixth gives up, which clears the claim of the probe, and another is let through. */
  lemma TwoProbesCanBeOut()
    ensures exists s, c, d ::
              && Reachable(s) && c != d && c in s.calls && d in s.calls
              && InFlight(s.calls[c]) && InFlight(s.calls[d]) && s.calls[c].probe && s.calls[d].probe
  {
    var s := FailTimes(THRESHOLD - 1);
    var early: Id, c: Id, d: Id := THRESHOLD - 1, THRESHOLD + 1, THRESHOLD + 2;
    ReachableStep(s, Ask(early, 0, false));
    s := Apply(s, Ask(early, 0, false));
    ReachableStep(s, CountTake(early));
    s := Apply(s, CountTake(early));
    s := FailOnce(s, THRESHOLD);
    assert s.breaker == Reopened(0);
    ReachableStep(s, Ask(c, COOLDOWN, false));
    s := Apply(s, Ask(c, COOLDOWN, false));
    ReachableStep(s, Abandon(early));
    s := Apply(s, Abandon(early));
    ReachableStep(s, Ask(d, COOLDOWN, false));
    s := Apply(s, Ask(d, COOLDOWN, false));
    assert InFlight(s.calls[c]) && InFlight(s.calls[d]);
  }

  lemma ReachableStep(s: State, e: Event)
    requires Reachable(s) && Enabled(s, e)
    ensures Reachable(Apply(s, e))
  {
    var es :| Legal(INITIAL, es) && s == Exec(INITIAL, es);
    ExecAppend(INITIAL, es, e);
  }

  lemma {:induction false} ExecAppend(s: State, es: seq<Event>, e: Event)
    requires Legal(s, es) && Enabled(Exec(s, es), e)
    ensures Legal(s, es + [e]) && Exec(s, es + [e]) == Apply(Exec(s, es), e)
    decreases |es|
  {
    if es == [] {
      assert [e][1..] == [];
    } else {
      assert (es + [e])[1..] == es[1..] + [e];
      ExecAppend(Apply(s, es[0]), es[1..], e);
    }
  }

  /** A call that asks at instant 0 and fails. */
  lemma FailOnce(s: State, c: Id) returns (s': State)
    requires Reachable(s) && c !in s.calls && s.breaker.openTill.Zero? && !s.breaker.probing
    ensures Reachable(s') && s'.breaker == AfterFail(s.breaker, 0)
    ensures s'.calls == s.calls[c := Call(Failing, false, false)]
  {
    s' := Apply(s, Ask(c, 0, false));
    ReachableStep(s, Ask(c, 0, false));
    ReachableStep(s', CountTake(c));
    s' := Apply(s', CountTake(c));
    ReachableStep(s', Err(c));
    s' := Apply(s', Err(c));
    ReachableStep(s', Report(c, 0));
    s' := Apply(s', Report(c, 0));
  }

  lemma {:induction false} FailTimes(n: nat) returns (s: State)
    requires n <= THRESHOLD
    ensures Reachable(s)
    ensures s.breaker == if n < THRESHOLD then Circuit(n, Zero, false) else Reopened(0)
    ensures forall c :: c in s.calls ==> c < n && s.calls[c].pc.Failing?
  {
    if n == 0 {
      assert Legal(INITIAL, []) && INITIAL == Exec(INITIAL, []);
      s := INITIAL;
    } else {
      var before := FailTimes(n - 1);
      s := FailOnce(before, n - 1);
    }
  }

  /** "Every path out of a guarded call must call one of them" is not kept: five
      failures open the breaker, a waiting call claims the probe, the owner shuts
      down, and the claim is never released. */
  lemma ShutdownCanStrandTheProbe()
    ensures exists s :: Reachable(s) && Idle(s) && Stuck(s.breaker)
  {
    var s := FailTimes(THRESHOLD);
    var c: Id := THRESHOLD;
    ReachableStep(s, Ask(c, COOLDOWN, true));
    s := Apply(s, Ask(c, COOLDOWN, true));
    ReachableStep(s, CountTake(c));
    s := Apply(s, CountTake(c));
    ReachableStep(s, CloseOwner);
    s := Apply(s, CloseOwner);
    ReachableStep(s, LeaveSilently(c));
    s := Apply(s, LeaveSilently(c));
    assert Idle(s) && Stuck(s.breaker);
  }

  /** The three public counters against what became of each call. */
  lemma CountersAddUp(s: State)
    requires Reachable(s)
    ensures s.takes == Tally(s.calls, Granted) + (s.refused + Tally(s.calls, Refusing))
                       + Tally(s.calls, Failing) + Tally(s.calls, Left) + Tally(s.calls, Silent)
                       + Tally(s.calls, Calling) + Tally(s.calls, Erred)
    ensures s.errors == Tally(s.calls, Short) + Tally(s.calls, Failing) + Tally(s.calls, Erred)
  {
    ReachableKeepsInv(s);
  }
}
