/** What one call does is a run of the fleet: the log that Allow, Acquire, Wait or a
    reservation leaves (Gates, Reservations), woven with whatever every other call does, is a
    legal execution of Fleet. */
module Acquires {
  import opened Buckets
  import opened Breakers
  import opened Gates
  import F = Fleet

  type Id = F.Id

  /** The caller's own calls are numbered from `base` on, one per token it takes. */
  predicate Mine(e: F.Event, base: Id) {
    match e
    case Begin(c, _, _) => c >= base
    case Ask(c) => c >= base
    case Fail(c, _) => c >= base
    case Admit(c) => c >= base
    case Doom(c) => c >= base
    case Cancel(c, _) => c >= base
    case KeepLate(c) => c >= base
    case Release(c, _) => c >= base
    case _ => false
  }

  predicate NotMine(es: seq<F.Event>, base: Id) {
    forall i :: 0 <= i < |es| ==> !Mine(es[i], base)
  }

  /** What precedes one operation: the others' events; and whether a question that brought
      no answer was charged all the same. */
  datatype Turn = Turn(others: seq<F.Event>, charged: bool)

  /** An operation as the fleet sees it. c is the caller's current call, b its shadow. */
  function Events(p: Phase, policy: Policy, act: Act, charged: bool, c: Id, b: Id): seq<F.Event> {
    match act
    case Reserve(_, at, _) => [F.Begin(c, b, at)]
    case Ask(_, _, o, _, _) =>
      if o.Consent? || o.Refusal? then [F.Ask(c)]
      else [F.Fail(c, charged), if Proceeds(o, policy) then F.Admit(c) else F.Doom(c)]
    case Cancel(_, _, at, _) => if p.Due? then [F.Cancel(c, at)] else [F.Doom(c), F.Cancel(c, at)]
    case Throttled => []
    case Park(_, _, o, _, _) =>
      if o.Consent? then [F.WaitGrant]
      else (if charged then [F.Stray] else []) + if NoAnswer(o) && policy.Allow? then [F.WaveThrough] else []
    case Wake(_) => [F.Fail(c, false), F.Admit(c)]
    case Keep => [F.KeepLate(c)]
    case Release(_, _, at, _) => [F.Release(c, at)]
    case Rest(_) => []
  }

  /** A token given back makes the next one another call's. */
  function NextCall(p: Phase, policy: Policy, act: Act, c: Id): Id {
    if (act.Cancel? || act.Release?) && Moved(p, policy, act).Free? then c + 1 else c
  }

  function CallAfter(p: Phase, policy: Policy, log: seq<Act>, c: Id): Id
    decreases |log|
  {
    if log == [] then c else CallAfter(Moved(p, policy, log[0]), policy, log[1..], NextCall(p, policy, log[0], c))
  }

  /** The fleet is as the operation found it, and the backend answers as it was answered. */
  predicate Meets(s: F.State, act: Act, charged: bool, b: Id) {
    match act
    case Reserve(found, at, _) => b in s.shadows && s.shadows[b] == found && at <= s.now
    case Ask(_, at, o, _, _) =>
      && at <= s.now && (o.Consent? ==> F.BackendHas(s)) && (o.Refusal? ==> !F.BackendHas(s))
      && (charged ==> F.BackendHas(s) && !o.ShortCircuit?)
    case Cancel(found, _, at, _) => b in s.shadows && s.shadows[b] == found && at <= s.now
    case Throttled => true
    case Park(_, _, o, _, _) =>
      (o.Consent? ==> F.BackendHas(s)) && (charged ==> F.BackendHas(s) && !o.ShortCircuit?)
    case Wake(at) => at <= s.now
    case Keep => true
    case Release(found, _, at, _) => b in s.shadows && s.shadows[b] == found && at <= s.now
    case Rest(_) => true
  }

  /** And is left as the operation left it. */
  predicate Leaves(s: F.State, act: Act, b: Id) {
    act.Reserve? || act.Cancel? || act.Release? ==> b in s.shadows && s.shadows[b] == act.left
  }

  function Woven(p: Phase, policy: Policy, log: seq<Act>, turns: seq<Turn>, c: Id, b: Id): seq<F.Event>
    requires |turns| == |log|
    decreases |log|
  {
    if log == [] then []
    else
      turns[0].others + Events(p, policy, log[0], turns[0].charged, c, b)
      + Woven(Moved(p, policy, log[0]), policy, log[1..], turns[1..], NextCall(p, policy, log[0], c), b)
  }

  /** Before each operation the others do something legal of their own, after which the fleet
      is as the operation finds it. */
  ghost predicate Agrees(s: F.State, p: Phase, policy: Policy, log: seq<Act>, turns: seq<Turn>, c: Id, base: Id, b: Id)
    requires |turns| == |log|
    decreases |log|
  {
    log == [] ||
      (F.Legal(s, turns[0].others) && NotMine(turns[0].others, base)
       && var s1 := F.Exec(s, turns[0].others);
          var own := Events(p, policy, log[0], turns[0].charged, c, b);
          && Meets(s1, log[0], turns[0].charged, b)
          && (F.Legal(s1, own) ==>
                Agrees(F.Exec(s1, own), Moved(p, policy, log[0]), policy, log[1..], turns[1..],
                       NextCall(p, policy, log[0], c), base, b)))
  }

  /** Each operation did to the fleet's shadow what it did to the caller's. */
  ghost predicate Reflects(s: F.State, p: Phase, policy: Policy, log: seq<Act>, turns: seq<Turn>, c: Id, b: Id)
    requires |turns| == |log|
    decreases |log|
  {
    log == [] ||
      (F.Legal(s, turns[0].others)
       && var s1 := F.Exec(s, turns[0].others);
          var own := Events(p, policy, log[0], turns[0].charged, c, b);
          && F.Legal(s1, own) && Leaves(F.Exec(s1, own), log[0], b)
          && Reflects(F.Exec(s1, own), Moved(p, policy, log[0]), policy, log[1..], turns[1..],
                      NextCall(p, policy, log[0], c), b))
  }

  predicate Owned(s: F.State, c: Id, status: F.Status, k: Ticket, b: Id) {
    F.CallIn(s, c, status) && s.calls[c].ticket == k && s.calls[c].bucket == b
  }

  function StatusOn(on: Grounds): F.Status {
    match on
    case Paid => F.Granted
    case ByPolicy => F.Fallback
    case Unasked => F.Late
  }

  /** The caller's calls so far are all returned, but for the one in hand. */
  predicate Stands(s: F.State, p: Phase, c: Id, base: Id, b: Id) {
    && base <= c
    && (forall i :: base <= i < c ==> i in s.calls && s.calls[i].status.Returned?)
    && (forall i :: i in s.calls ==> i <= c)
    && match p
       case Held(k) => Owned(s, c, F.Held, k, b)
       case Pending(k) => Owned(s, c, F.Held, k, b)
       case Due(k) => Owned(s, c, F.Doomed, k, b)
       case Kept(k, on) => Owned(s, c, StatusOn(on), k, b)
       case Gone(k) => Owned(s, c, F.Lost, k, b)
       case Wrong => false
       case _ => c !in s.calls
  }

  // ------------------------------------------------------------ one operation

  /** Operation `act` of the caller, as a step of the fleet. */
  ghost predicate Fits(s: F.State, p: Phase, policy: Policy, act: Act, charged: bool, c: Id, base: Id, b: Id) {
    F.WellFormed(s) && Stands(s, p, c, base, b) && Meets(s, act, charged, b) && Moved(p, policy, act) != Wrong
  }

  ghost predicate Goes(s: F.State, p: Phase, policy: Policy, act: Act, charged: bool, c: Id, base: Id, b: Id) {
    var own := Events(p, policy, act, charged, c, b);
    && F.Legal(s, own) && Leaves(F.Exec(s, own), act, b)
    && Stands(F.Exec(s, own), Moved(p, policy, act), NextCall(p, policy, act, c), base, b)
  }

  lemma TwoEvents(s: F.State, e: F.Event, f: F.Event)
    requires F.Enabled(s, e) && F.Enabled(F.Apply(s, e), f)
    ensures F.Legal(s, [e, f]) && F.Exec(s, [e, f]) == F.Apply(F.Apply(s, e), f)
  {
    assert [e, f][1..] == [f];
    F.OneEvent(F.Apply(s, e), f);
  }

  /** A shadow's own ticket can always be cancelled at the instant it was taken. */
  lemma HeldInTime(s: F.State, c: Id)
    requires F.WellFormed(s) && c in s.calls
    ensures InTime(s.calls[c].ticket, s.calls[c].ticket.taken)
  {
  }

  /** The caller's call in hand gets another status, and nothing else matters. */
  lemma Restatus(s: F.State, s': F.State, p: Phase, p': Phase, c: Id, base: Id, b: Id, status: F.Status)
    requires Stands(s, p, c, base, b) && c in s.calls && s'.shadows.Keys == s.shadows.Keys
    requires s'.calls == s.calls[c := s.calls[c].(status := status)]
    requires p.Held? || p.Pending?
    requires (p'.Due? && status == F.Doomed) || (p'.Kept? && status == StatusOn(p'.on))
    requires p'.k == p.k
    ensures Stands(s', p', c, base, b)
  {
  }

  lemma ReserveGoes(s: F.State, p: Phase, policy: Policy, act: Act, charged: bool, c: Id, base: Id, b: Id)
    requires Fits(s, p, policy, act, charged, c, base, b) && act.Reserve?
    ensures Goes(s, p, policy, act, charged, c, base, b)
  {
    F.OneEvent(s, F.Begin(c, b, act.at));
  }

  lemma AnswerGoes(s: F.State, p: Phase, policy: Policy, act: Act, charged: bool, c: Id, base: Id, b: Id)
    requires Fits(s, p, policy, act, charged, c, base, b)
    requires act.Ask? && (act.outcome.Consent? || act.outcome.Refusal?)
    ensures Goes(s, p, policy, act, charged, c, base, b)
  {
    F.OneEvent(s, F.Ask(c));
  }

  lemma SilenceGoes(s: F.State, p: Phase, policy: Policy, act: Act, charged: bool, c: Id, base: Id, b: Id)
    requires Fits(s, p, policy, act, charged, c, base, b)
    requires act.Ask? && !act.outcome.Consent? && !act.outcome.Refusal?
    ensures Goes(s, p, policy, act, charged, c, base, b)
  {
    var proceeds := Proceeds(act.outcome, policy);
    SilentEvents(s, c, charged, proceeds);
    Restatus(s, F.Exec(s, Events(p, policy, act, charged, c, b)), p, Moved(p, policy, act), c, base, b,
             if proceeds then F.Fallback else F.Doomed);
  }

  lemma SilentEvents(s: F.State, c: Id, charged: bool, proceeds: bool)
    requires F.Enabled(s, F.Fail(c, charged))
    ensures var own := [F.Fail(c, charged), if proceeds then F.Admit(c) else F.Doom(c)];
            && F.Legal(s, own) && F.Exec(s, own).shadows == s.shadows
            && F.Exec(s, own).calls
               == s.calls[c := s.calls[c].(status := if proceeds then F.Fallback else F.Doomed)]
  {
    if proceeds {
      TwoEvents(s, F.Fail(c, charged), F.Admit(c));
    } else {
      TwoEvents(s, F.Fail(c, charged), F.Doom(c));
    }
  }

  lemma CancelGoes(s: F.State, p: Phase, policy: Policy, act: Act, charged: bool, c: Id, base: Id, b: Id)
    requires Fits(s, p, policy, act, charged, c, base, b) && act.Cancel?
    ensures Goes(s, p, policy, act, charged, c, base, b)
  {
    HeldInTime(s, c);
    if p.Due? {
      F.OneEvent(s, F.Cancel(c, act.at));
    } else {
      GiveUpGoes(s, p, policy, act, charged, c, base, b);
    }
  }

  lemma GivenUpEvents(s: F.State, c: Id, at: int)
    requires F.CallIn(s, c, F.Held) && at <= s.now
    ensures var own := [F.Doom(c), F.Cancel(c, at)];
            var k, b := s.calls[c].ticket, s.calls[c].bucket;
            && F.Legal(s, own) && F.Exec(s, own).shadows == s.shadows[b := Cancelled(s.shadows[b], k, at)]
            && F.Exec(s, own).calls
               == s.calls[c := s.calls[c].(status := if InTime(k, at) then F.Returned else F.Lost)]
  {
    TwoEvents(s, F.Doom(c), F.Cancel(c, at));
  }

  lemma GiveUpGoes(s: F.State, p: Phase, policy: Policy, act: Act, charged: bool, c: Id, base: Id, b: Id)
    requires Fits(s, p, policy, act, charged, c, base, b) && act.Cancel? && !p.Due?
    requires InTime(act.ticket, act.ticket.taken)
    ensures Goes(s, p, policy, act, charged, c, base, b)
  {
    GivenUpEvents(s, c, act.at);
  }

  lemma ParkGoes(s: F.State, p: Phase, policy: Policy, act: Act, charged: bool, c: Id, base: Id, b: Id)
    requires Fits(s, p, policy, act, charged, c, base, b) && act.Park?
    ensures Goes(s, p, policy, act, charged, c, base, b)
  {
    if act.outcome.Consent? {
      F.OneEvent(s, F.WaitGrant);
    } else if NoAnswer(act.outcome) && policy.Allow? {
      WaveGoes(s, p, policy, act, charged, c, base, b);
    } else if charged {
      F.OneEvent(s, F.Stray);
      assert [F.Stray] + [] == [F.Stray];
    }
  }

  lemma WaveGoes(s: F.State, p: Phase, policy: Policy, act: Act, charged: bool, c: Id, base: Id, b: Id)
    requires Fits(s, p, policy, act, charged, c, base, b) && act.Park? && NoAnswer(act.outcome) && policy.Allow?
    ensures Goes(s, p, policy, act, charged, c, base, b)
  {
    if charged {
      TwoEvents(s, F.Stray, F.WaveThrough);
      assert [F.Stray] + [F.WaveThrough] == [F.Stray, F.WaveThrough];
    } else {
      F.OneEvent(s, F.WaveThrough);
      assert [] + [F.WaveThrough] == [F.WaveThrough];
    }
  }

  lemma WakeGoes(s: F.State, p: Phase, policy: Policy, act: Act, charged: bool, c: Id, base: Id, b: Id)
    requires Fits(s, p, policy, act, charged, c, base, b) && act.Wake?
    ensures Goes(s, p, policy, act, charged, c, base, b)
  {
    SilentEvents(s, c, false, true);
    Restatus(s, F.Exec(s, Events(p, policy, act, charged, c, b)), p, Moved(p, policy, act), c, base, b, F.Fallback);
  }

  lemma KeepGoes(s: F.State, p: Phase, policy: Policy, act: Act, charged: bool, c: Id, base: Id, b: Id)
    requires Fits(s, p, policy, act, charged, c, base, b) && act.Keep?
    ensures Goes(s, p, policy, act, charged, c, base, b)
  {
    F.OneEvent(s, F.KeepLate(c));
  }

  lemma ReleaseGoes(s: F.State, p: Phase, policy: Policy, act: Act, charged: bool, c: Id, base: Id, b: Id)
    requires Fits(s, p, policy, act, charged, c, base, b) && act.Release?
    ensures Goes(s, p, policy, act, charged, c, base, b)
  {
    F.OneEvent(s, F.Release(c, act.at));
  }

  lemma ActGoes(s: F.State, p: Phase, policy: Policy, act: Act, charged: bool, c: Id, base: Id, b: Id)
    requires Fits(s, p, policy, act, charged, c, base, b)
    ensures Goes(s, p, policy, act, charged, c, base, b)
  {
    if act.Reserve? {
      ReserveGoes(s, p, policy, act, charged, c, base, b);
    } else if act.Cancel? {
      CancelGoes(s, p, policy, act, charged, c, base, b);
    } else if act.Ask? && (act.outcome.Consent? || act.outcome.Refusal?) {
      AnswerGoes(s, p, policy, act, charged, c, base, b);
    } else if act.Ask? {
      SilenceGoes(s, p, policy, act, charged, c, base, b);
    } else {
      QuieterGoes(s, p, policy, act, charged, c, base, b);
    }
  }

  lemma QuieterGoes(s: F.State, p: Phase, policy: Policy, act: Act, charged: bool, c: Id, base: Id, b: Id)
    requires Fits(s, p, policy, act, charged, c, base, b) && !act.Reserve? && !act.Cancel? && !act.Ask?
    ensures Goes(s, p, policy, act, charged, c, base, b)
  {
    match act
    case Park(_, _, _, _, _) => ParkGoes(s, p, policy, act, charged, c, base, b);
    case Wake(_) => WakeGoes(s, p, policy, act, charged, c, base, b);
    case Keep => KeepGoes(s, p, policy, act, charged, c, base, b);
    case Release(_, _, _, _) => ReleaseGoes(s, p, policy, act, charged, c, base, b);
    case _ =>
  }

  // ---------------------------------------------------------------- the others

  lemma OtherEvent(s: F.State, e: F.Event, p: Phase, c: Id, base: Id, b: Id)
    requires F.Enabled(s, e) && !Mine(e, base) && Stands(s, p, c, base, b)
    ensures Stands(F.Apply(s, e), p, c, base, b)
  {
    F.StepOnward(s, e);
    assert forall i :: i >= base ==> (i in F.Apply(s, e).calls <==> i in s.calls)
                                     && (i in s.calls ==> F.Apply(s, e).calls[i] == s.calls[i]);
  }

  lemma {:induction false} OthersKeep(s: F.State, es: seq<F.Event>, p: Phase, c: Id, base: Id, b: Id)
    requires F.WellFormed(s) && F.Legal(s, es) && NotMine(es, base) && Stands(s, p, c, base, b)
    ensures F.WellFormed(F.Exec(s, es)) && Stands(F.Exec(s, es), p, c, base, b)
    decreases |es|
  {
    if es != [] {
      F.StepWellFormed(s, es[0]);
      OtherEvent(s, es[0], p, c, base, b);
      OthersKeep(F.Apply(s, es[0]), es[1..], p, c, base, b);
    }
  }

  lemma {:induction false} RunWellFormed(s: F.State, es: seq<F.Event>)
    requires F.WellFormed(s) && F.Legal(s, es)
    ensures F.WellFormed(F.Exec(s, es))
    decreases |es|
  {
    if es != [] {
      F.StepWellFormed(s, es[0]);
      RunWellFormed(F.Apply(s, es[0]), es[1..]);
    }
  }

  // ------------------------------------------------------------------ whole logs

  lemma {:induction false} WrongStays(policy: Policy, log: seq<Act>)
    ensures Standing(Wrong, policy, log) == Wrong
    decreases |log|
  {
    if log != [] {
      WrongStays(policy, log[1..]);
    }
  }

  lemma Joined(s: F.State, x: seq<F.Event>, y: seq<F.Event>, z: seq<F.Event>)
    requires F.Legal(s, x) && F.Legal(F.Exec(s, x), y) && F.Legal(F.Exec(F.Exec(s, x), y), z)
    ensures F.Legal(s, x + y + z) && F.Exec(s, x + y + z) == F.Exec(F.Exec(F.Exec(s, x), y), z)
  {
    F.ExecJoins(s, x, y);
    F.ExecJoins(s, x + y, z);
  }

  /** The first operation of the log, and what precedes it. */
  lemma FirstGoes(s: F.State, p: Phase, policy: Policy, log: seq<Act>, turns: seq<Turn>, c: Id, base: Id, b: Id)
    requires |turns| == |log| && log != [] && F.WellFormed(s) && Stands(s, p, c, base, b)
    requires Agrees(s, p, policy, log, turns, c, base, b) && Moved(p, policy, log[0]) != Wrong
    ensures F.Legal(s, turns[0].others)
    ensures var s1 := F.Exec(s, turns[0].others);
            var own := Events(p, policy, log[0], turns[0].charged, c, b);
            && F.Legal(s1, own) && F.WellFormed(F.Exec(s1, own)) && Leaves(F.Exec(s1, own), log[0], b)
            && Stands(F.Exec(s1, own), Moved(p, policy, log[0]), NextCall(p, policy, log[0], c), base, b)
  {
    var s1 := F.Exec(s, turns[0].others);
    OthersKeep(s, turns[0].others, p, c, base, b);
    ActGoes(s1, p, policy, log[0], turns[0].charged, c, base, b);
    RunWellFormed(s1, Events(p, policy, log[0], turns[0].charged, c, b));
  }

  /** Any log that is not wrong, woven with anything the others do, is a legal run of the
      fleet, and leaves the caller's calls as the log says. */
  lemma {:induction false} LogIsAFleetRun(s: F.State, p: Phase, policy: Policy, log: seq<Act>, turns: seq<Turn>,
                                         c: Id, base: Id, b: Id)
    requires |turns| == |log| && F.WellFormed(s) && Stands(s, p, c, base, b)
    requires Agrees(s, p, policy, log, turns, c, base, b) && Standing(p, policy, log) != Wrong
    ensures var run := Woven(p, policy, log, turns, c, b);
            F.Legal(s, run) && Stands(F.Exec(s, run), Standing(p, policy, log), CallAfter(p, policy, log, c), base, b)
    ensures Reflects(s, p, policy, log, turns, c, b)
    decreases |log|
  {
    if log != [] {
      var p', c' := Moved(p, policy, log[0]), NextCall(p, policy, log[0], c);
      var own := Events(p, policy, log[0], turns[0].charged, c, b);
      if p' == Wrong {
        WrongStays(policy, log[1..]);
      }
      FirstGoes(s, p, policy, log, turns, c, base, b);
      var s1 := F.Exec(s, turns[0].others);
      LogIsAFleetRun(F.Exec(s1, own), p', policy, log[1..], turns[1..], c', base, b);
      Joined(s, turns[0].others, own, Woven(p', policy, log[1..], turns[1..], c', b));
    }
  }

  /** No call of the fleet is the caller's yet. */
  predicate Newcomer(s: F.State, base: Id) {
    forall i :: i in s.calls ==> i < base
  }

  /** All the caller's calls are returned, except perhaps `kept`. */
  predicate AllReturned(s: F.State, base: Id, kept: Id) {
    forall i :: i in s.calls && i >= base && i != kept ==> s.calls[i].status.Returned?
  }

  /** From s the caller's log, woven with the others' turns, is a legal run of the fleet that
      does to the shadow what the log says; the calls it takes its tokens with all end
      returned, but for the last where the log keeps its token (or loses it). */
  ghost predicate IsAFleetRun(s: F.State, policy: Policy, log: seq<Act>, turns: seq<Turn>, base: Id, b: Id)
    requires |turns| == |log|
  {
    var run := Woven(Free, policy, log, turns, base, b);
    var last := CallAfter(Free, policy, log, base);
    && F.Legal(s, run) && Reflects(s, Free, policy, log, turns, base, b)
    && AllReturned(F.Exec(s, run), base, last)
    && match Standing(Free, policy, log)
       case Kept(_, on) => F.CallIn(F.Exec(s, run), last, StatusOn(on))
       case Gone(_) => F.CallIn(F.Exec(s, run), last, F.Lost)
       case Free => last !in F.Exec(s, run).calls
       case Served => last !in F.Exec(s, run).calls
       case Fallen => last !in F.Exec(s, run).calls
       case _ => true
  }

  /** The others leave the caller's calls alone, and the fleet is as each operation finds it. */
  ghost predicate Plays(s: F.State, policy: Policy, log: seq<Act>, turns: seq<Turn>, base: Id, b: Id) {
    F.WellFormed(s) && Newcomer(s, base) && |turns| == |log| && Agrees(s, Free, policy, log, turns, base, base, b)
  }

  lemma SoundLogRuns(s: F.State, policy: Policy, log: seq<Act>, turns: seq<Turn>, base: Id, b: Id)
    requires Plays(s, policy, log, turns, base, b) && Standing(Free, policy, log) != Wrong
    ensures IsAFleetRun(s, policy, log, turns, base, b)
  {
    assert Stands(s, Free, base, base, b);
    LogIsAFleetRun(s, Free, policy, log, turns, base, base, b);
  }

  /** Whatever the other calls do meanwhile, Acquire is a run of the fleet: with nil the one
      token it keeps is Granted when the backend consented and Fallback when the policy stood
      in for it, every other is returned; with an error, or still waiting, all are. */
  lemma AcquireIsAFleetRun(s: F.State, policy: Policy, rounds: seq<Round>, turns: seq<Turn>, base: Id, b: Id)
    requires AllProper(rounds) && Plays(s, policy, Acquired(policy, rounds, false).1, turns, base, b)
    ensures var (result, log) := Acquired(policy, rounds, false);
            && IsAFleetRun(s, policy, log, turns, base, b)
            && (if result == Returned(Nil) then Standing(Free, policy, log).Kept?
                else Standing(Free, policy, log) == Free)
  {
    AcquireHoldsItsPromise(policy, rounds, false);
    SoundLogRuns(s, policy, Acquired(policy, rounds, false).1, turns, base, b);
  }

  /** And so is Allow, */
  lemma AllowIsAFleetRun(s: F.State, policy: Policy, found: Level, now: int, circuit: Circuit, asked: int,
                         answer: Answer, later: int, refound: Level, turns: seq<Turn>, base: Id, b: Id)
    requires Usable(found.quota) && now <= asked
    requires Plays(s, policy, AllowActs(policy, found, now, circuit, asked, answer, later, refound), turns, base, b)
    ensures IsAFleetRun(s, policy, AllowActs(policy, found, now, circuit, asked, answer, later, refound),
                        turns, base, b)
  {
    AllowKeepsOrReturns(policy, found, now, circuit, asked, answer, later, refound);
    SoundLogRuns(s, policy, AllowActs(policy, found, now, circuit, asked, answer, later, refound), turns, base, b);
  }

  /** ... the waiting path, */
  lemma WaitIsAFleetRun(s: F.State, policy: Policy, found: Level, circuit: Circuit, now: int, answer: Answer,
                        later: int, start: int, fate: Fate, turns: seq<Turn>, base: Id, b: Id)
    requires (answer.Answered? ==> answer.grant.ok) && Awaited(found, start, fate)
    requires Plays(s, policy, WaitActs(policy, found, circuit, now, answer, later, start, fate), turns, base, b)
    ensures IsAFleetRun(s, policy, WaitActs(policy, found, circuit, now, answer, later, start, fate), turns, base, b)
  {
    WaitServesOrKeeps(policy, found, circuit, now, answer, later, start, fate);
    SoundLogRuns(s, policy, WaitActs(policy, found, circuit, now, answer, later, start, fate), turns, base, b);
  }

  /** The reservation is OK: the token was kept. */
  predicate IsOk(policy: Policy, found: Level, now: int, circuit: Circuit, asked: int, answer: Answer) {
    TicketAt(found, now).DelayedAt(now) || Proceeds(Classify(circuit, asked, answer), policy)
  }

  /** ... and a reservation, cancelled or not. */
  lemma ReservationIsAFleetRun(s: F.State, policy: Policy, found: Level, now: int, circuit: Circuit, asked: int,
                               answer: Answer, later: int, refound: Level, cancel: seq<Act>, turns: seq<Turn>,
                               base: Id, b: Id)
    requires Usable(found.quota) && now <= asked
    requires cancel == [] || (IsOk(policy, found, now, circuit, asked, answer) && |cancel| == 1 && cancel[0].Release?
                              && cancel[0] == ReleaseAct(cancel[0].found, TicketAt(found, now), cancel[0].at))
    requires Plays(s, policy, ReserveActs(policy, found, now, circuit, asked, answer, later, refound) + cancel,
                   turns, base, b)
    ensures IsAFleetRun(s, policy, ReserveActs(policy, found, now, circuit, asked, answer, later, refound) + cancel,
                        turns, base, b)
  {
    var log := ReserveActs(policy, found, now, circuit, asked, answer, later, refound);
    ReserveKeepsOrReturns(policy, found, now, circuit, asked, answer, later, refound);
    if cancel == [] {
      assert log + cancel == log;
    } else {
      var k := TicketAt(found, now);
      assert cancel == [ReleaseAct(cancel[0].found, k, cancel[0].at)];
      ReleaseReturns(policy, log, cancel[0].found, k, cancel[0].at, Standing(Free, policy, log).on);
    }
    SoundLogRuns(s, policy, log + cancel, turns, base, b);
  }

  /** Such runs exist: one undisturbed round that the backend consents to. */
  lemma AnUndisturbedAcquire(s: F.State, policy: Policy, r: Round, base: Id, b: Id)
    requires F.WellFormed(s) && Newcomer(s, base) && b in s.shadows
    requires F.BackendHas(s) && TokensAt(s.shadows[b], s.now) >= 1.0
    requires r.found == s.shadows[b] && r.now == r.asked == s.now
    requires r.circuit == CLOSED && r.answer == Answered(Grant(true, 0))
    ensures var (result, log) := Acquired(policy, [r], false);
            && result == Returned(Nil) && log == [ReserveAct(r.found, r.now), Asks(r)]
            && Plays(s, policy, log, [Turn([], false), Turn([], false)], base, b)
  {
    var first := ReserveAct(r.found, r.now);
    var log := [first, Asks(r)];
    ReserveReads(r.found, r.now, r.now);
    TicketReadyWhenPaid(r.found, r.now, r.now);
    assert Acquired(policy, [r], false).1 == log;
    assert Stands(s, Free, base, base, b);
    F.OneEvent(s, F.Begin(base, b, r.now));
    assert log[1..] == [Asks(r)];
    assert [Turn([], false), Turn([], false)][1..] == [Turn([], false)];
    var s' := F.Exec(s, Events(Free, policy, first, false, base, b));
    assert Agrees(s', Held(TicketAt(r.found, r.now)), policy, [Asks(r)], [Turn([], false)], base, base, b);
  }
}
