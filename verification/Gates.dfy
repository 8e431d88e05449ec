/** The shared-quota decision for one replica: gate/gate.go and gate/admit.go. */
module Gates {
  import opened Reals
  import opened Buckets
  import opened Breakers

  // ------------------------------------------------------------ poll schedule

  const MIN_POLL: int := 10_000_000
  const MAX_POLL: int := 30_000_000_000

  /** How long to wait after a refusal the backend did not schedule. */
  function FallbackDelay(rate: real, wild: int): int {
    if rate <= 0.0 then MIN_POLL
    else
      var d := ToDuration(1000000000.0 / rate, wild);
      var floored := if d >= MIN_POLL then d else MIN_POLL;
      if floored <= MAX_POLL then floored else MAX_POLL
  }

  function RetryDelay(retryAfter: int, rate: real, wild: int): int {
    if retryAfter > 0 then retryAfter else FallbackDelay(rate, wild)
  }

  /** Two's-complement wrap of an int64 sum. */
  function Wrap64(x: int): int {
    if x > MAX_DURATION then x - 0x1_0000_0000_0000_0000 else x
  }

  /** pollDelay: d plus a jitter drawn from [0, d/2], added as int64. */
  function PollDelay(d: int, jitter: int): int {
    if d <= 0 then 0 else Wrap64(d + jitter)
  }

  predicate JitterOf(d: int, jitter: int) {
    0 <= jitter && (d > 0 ==> jitter <= d / 2)
  }

  lemma FallbackIsBounded(rate: real, wild: int)
    ensures 10_000_000 <= FallbackDelay(rate, wild) <= 30_000_000_000
  {
  }

  /** d is the time one token takes at this rate, cut to a nanosecond, but no less than ten
      milliseconds and no more than thirty seconds; a key that earns nothing waits the least.
      A period of more than 292 years fits no Duration, and only the bounds are left of it. */
  ghost predicate OnePeriod(rate: real, d: int) {
    && 10_000_000 <= d <= 30_000_000_000
    && (rate <= 0.0 ==> d == 10_000_000)
    && (rate > 0.0 ==>
          && (Span(rate, 1.0) < 10000000.0 ==> d == 10_000_000)
          && (10000000.0 <= Span(rate, 1.0) <= 30000000000.0 ==> Refill(rate, d) <= 1.0 < Refill(rate, d + 1))
          && (30000000000.0 < Span(rate, 1.0) < 9223372036854775808.0 ==> d == 30_000_000_000))
  }

  lemma FallbackIsOnePeriod(rate: real, wild: int)
    ensures OnePeriod(rate, FallbackDelay(rate, wild))
  {
    if rate > 0.0 {
      var d := FallbackDelay(rate, wild);
      assert Span(rate, 1.0) == 1000000000.0 / rate by {
        assert 1.0 / rate * 1000000000.0 == 1000000000.0 / rate;
      }
      assert Span(rate, 1.0) >= 0.0;
      SpanInvertsRefill(rate, 1.0, d);
      SpanInvertsRefill(rate, 1.0, d + 1);
    }
  }

  /** The backend's own schedule when it sent one, and otherwise the time of one token. */
  ghost predicate Honours(delay: int, retryAfter: int, rate: real) {
    if retryAfter > 0 then delay == retryAfter else OnePeriod(rate, delay)
  }

  lemma RetryHonours(retryAfter: int, rate: real, wild: int)
    ensures Honours(RetryDelay(retryAfter, rate, wild), retryAfter, rate)
  {
    FallbackIsOnePeriod(rate, wild);
  }

  /** Every possible draw keeps the poll in [d, d + d/2] exactly when d + d/2 fits a
      Duration. A backend may send any RetryAfter, and past that point the sum wraps
      negative and the sleep is skipped. */
  lemma PollDelayStaysInRange(d: int)
    requires 0 < d <= MAX_DURATION
    ensures (forall j :: JitterOf(d, j) ==> d <= PollDelay(d, j) <= d + d / 2) <==> d + d / 2 <= MAX_DURATION
  {
    if d + d / 2 > MAX_DURATION {
      assert JitterOf(d, d / 2);
      assert PollDelay(d, d / 2) < 0;
    }
  }

  lemma PollDelayCanWrap()
    ensures JitterOf(MAX_DURATION, MAX_DURATION / 2) && PollDelay(MAX_DURATION, MAX_DURATION / 2) < 0
  {
  }

  // ---------------------------------------------------------------------- Take

  datatype Policy = FallbackLocal | Deny | Allow

  datatype Error = Nil | Unavailable | Closed | CallerGone | Unsatisfiable | Interrupted

  datatype Grant = Grant(ok: bool, retryAfter: int)

  const NO_GRANT := Grant(false, 0)

  /** What comes back from the backend: an answer, or an error together with who had
      given up by then. */
  datatype Answer = Answered(grant: Grant) | Broken(ownerDone: bool, callerDone: bool)

  datatype Outcome = ShortCircuit | Quit | Failure | Refusal | Consent

  function Classify(b: Circuit, now: int, answer: Answer): Outcome {
    if !Admits(b, now) then ShortCircuit
    else match answer
      case Answered(g) => if g.ok then Consent else Refusal
      case Broken(owner, caller) => if owner || caller then Quit else Failure
  }

  /** No answer at all: what Errors counts, and what the policy decides. */
  predicate NoAnswer(o: Outcome) {
    o.ShortCircuit? || o.Failure?
  }

  /** Whether the request proceeds. */
  predicate Proceeds(o: Outcome, policy: Policy) {
    o.Consent? || (NoAnswer(o) && !policy.Deny?)
  }

  function BreakerAfter(b: Circuit, now: int, o: Outcome, later: int): Circuit {
    match o
    case ShortCircuit => b
    case Quit => AfterAbandon(AfterAllow(b, now))
    case Failure => AfterFail(AfterAllow(b, now), later)
    case Refusal => CLOSED
    case Consent => CLOSED
  }

  /** What Take returns as its error. */
  function TakeError(o: Outcome, policy: Policy, answer: Answer): Error {
    if o.Quit? then (if answer.Broken? && answer.ownerDone then Closed else CallerGone)
    else if NoAnswer(o) && policy.Deny? then Unavailable
    else Nil
  }

  /** A call abandoned with no other in flight leaves no trace on the breaker: it neither
      closes it, nor counts against it, nor keeps the probe. Takes.ProbeKeepsOthersOutWhen
      says what it can do to the probe of another call. */
  lemma QuitLeavesNoTrace(b: Circuit, now: int, later: int)
    requires Sane(b) && Admits(b, now)
    ensures BreakerAfter(b, now, Quit, later).failures == b.failures
    ensures BreakerAfter(b, now, Quit, later).openTill == b.openTill
    ensures Admits(BreakerAfter(b, now, Quit, later), now)
  {
  }

  // --------------------------------------------------------------- what a gate does

  /** One operation on the shadow or the backend: what it found and what it left. Other
      calls move both between any two of them. */
  datatype Act =
    | Reserve(found: Level, at: int, left: Level)
    | Cancel(found: Level, ticket: Ticket, at: int, left: Level)
    | Throttled
    | Ask(circuit: Circuit, at: int, outcome: Outcome, later: int, after: Circuit)    // Take
    | Park(circuit: Circuit, at: int, outcome: Outcome, later: int, after: Circuit)   // a parking backend's Wait
    | Wake(at: int)                                                                   // the wait for a token is over
    | Keep                                                                            // a delayed token, not asked for
    | Release(found: Level, ticket: Ticket, at: int, left: Level)                     // Reservation.Cancel
    | Rest(ns: int)                                                                   // a timer between two polls

  function ReserveAct(found: Level, at: int): Act {
    Reserve(found, at, Reserved(found, at))
  }

  function CancelAct(found: Level, k: Ticket, at: int): Act {
    Cancel(found, k, at, Cancelled(found, k, at))
  }

  function ReleaseAct(found: Level, k: Ticket, at: int): Act {
    Release(found, k, at, Cancelled(found, k, at))
  }

  function AskAct(circuit: Circuit, at: int, answer: Answer, later: int): Act {
    var o := Classify(circuit, at, answer);
    Ask(circuit, at, o, later, BreakerAfter(circuit, at, o, later))
  }

  /** Why a token was kept: the backend consented, the policy stood in for it, or it was
      delayed and nobody asked. */
  datatype Grounds = Paid | ByPolicy | Unasked

  /** What a log says of the caller's token: none taken, taken and not asked for, to be
      returned, kept; on the waiting path the backend did not answer and the shadow is to be
      waited on, is being waited on, was given up on too late, or the caller was let through
      without it. Wrong: two tokens at once, a question asked before its token's time or
      without one, a cancel of anything but the token held, or of a token to ask for at any
      instant but the one it was taken at, an operation with another effect than its own, or
      anything but giving it back after the token was kept. */
  datatype Phase =
    | Free
    | Held(k: Ticket)
    | Due(k: Ticket)
    | Kept(k: Ticket, on: Grounds)
    | Fallen
    | Pending(k: Ticket)
    | Gone(k: Ticket)
    | Served
    | Wrong

  function Moved(p: Phase, policy: Policy, act: Act): Phase {
    match act
    case Reserve(found, at, left) =>
      if left != Reserved(found, at) then Wrong
      else if p.Free? then Held(TicketAt(found, at))
      else if p.Fallen? then Pending(TicketAt(found, at))
      else Wrong
    case Ask(circuit, at, o, later, after) =>
      if p.Held? && !p.k.DelayedAt(at) && after == BreakerAfter(circuit, at, o, later)
      then (if Proceeds(o, policy) then Kept(p.k, if o.Consent? then Paid else ByPolicy) else Due(p.k))
      else Wrong
    case Cancel(found, k, at, left) =>
      if left != Cancelled(found, k, at) then Wrong
      else if (p.Held? || p.Due?) && k == p.k && at == k.taken then Free
      else if p.Pending? && k == p.k then (if InTime(k, at) then Free else Gone(k))
      else Wrong
    case Throttled => if p.Free? || p.Held? || p.Due? then p else Wrong
    case Park(circuit, at, o, later, after) =>
      if p.Free? && Parks(circuit, at, o, later, after) then AfterPark(o, policy) else Wrong
    case Wake(at) => if p.Pending? && !p.k.DelayedAt(at) then Kept(p.k, ByPolicy) else Wrong
    case Keep => if p.Held? && p.k.DelayedAt(p.k.taken) then Kept(p.k, Unasked) else Wrong
    case Release(found, k, at, left) =>
      if left != Cancelled(found, k, at) || !p.Kept? || k != p.k then Wrong
      else if InTime(k, at) then Free
      else p
    case Rest(_) => if p.Free? then p else Wrong
  }

  /** A parking backend consents or does not answer. The breaker hears of it as of any other
      question, except when the owner shuts down. */
  predicate Parks(circuit: Circuit, at: int, o: Outcome, later: int, after: Circuit) {
    !o.Refusal? && (after == BreakerAfter(circuit, at, o, later) || (o.Quit? && after == AfterAllow(circuit, at)))
  }

  function AfterPark(o: Outcome, policy: Policy): Phase {
    if o.Consent? || (NoAnswer(o) && policy.Allow?) then Served
    else if NoAnswer(o) && policy.FallbackLocal? then Fallen
    else Free
  }

  function Standing(p: Phase, policy: Policy, log: seq<Act>): Phase
    decreases |log|
  {
    if log == [] then p else Standing(Moved(p, policy, log[0]), policy, log[1..])
  }

  lemma {:induction false} StandingComposes(p: Phase, policy: Policy, x: seq<Act>, y: seq<Act>)
    ensures Standing(p, policy, x + y) == Standing(Standing(p, policy, x), policy, y)
    decreases |x|
  {
    if x == [] {
      assert x + y == y;
    } else {
      assert (x + y)[1..] == x[1..] + y;
      StandingComposes(Moved(p, policy, x[0]), policy, x[1..], y);
    }
  }

  lemma StandingAfter(p: Phase, policy: Policy, x: seq<Act>, act: Act)
    ensures Standing(p, policy, x + [act]) == Moved(Standing(p, policy, x), policy, act)
  {
    StandingComposes(p, policy, x, [act]);
    assert [act][1..] == [];
  }

  /** What is counted of a log. */
  datatype Counter = Takes | Refusals | Failures | Throttles

  predicate Ticks(what: Counter, act: Act) {
    match what
    case Takes => (act.Ask? || act.Park?) && !act.outcome.ShortCircuit?
    case Refusals => act.Ask? && act.outcome.Refusal?
    case Failures => (act.Ask? || act.Park?) && NoAnswer(act.outcome)
    case Throttles => act.Throttled?
  }

  function Total(what: Counter, log: seq<Act>): nat {
    if log == [] then 0 else (if Ticks(what, log[0]) then 1 else 0) + Total(what, log[1..])
  }

  lemma {:induction false} TotalsAdd(what: Counter, x: seq<Act>, y: seq<Act>)
    ensures Total(what, x + y) == Total(what, x) + Total(what, y)
    decreases |x|
  {
    if x == [] {
      assert x + y == y;
    } else {
      assert (x + y)[1..] == x[1..] + y;
      TotalsAdd(what, x[1..], y);
    }
  }

  lemma TotalAfter(what: Counter, x: seq<Act>, act: Act)
    ensures Total(what, x + [act]) == Total(what, x) + if Ticks(what, act) then 1 else 0
  {
    TotalsAdd(what, x, [act]);
    assert [act][1..] == [];
  }

  /** The gate's counters. */
  datatype Tally = Tally(takes: int, refused: int, failures: int)

  function Plus(t: Tally, log: seq<Act>): Tally {
    Tally(t.takes + Total(Takes, log), t.refused + Total(Refusals, log), t.failures + Total(Failures, log))
  }

  lemma PlusAdds(t: Tally, x: seq<Act>, y: seq<Act>)
    ensures Plus(t, x + y) == Plus(Plus(t, x), y)
  {
    TotalsAdd(Takes, x, y);
    TotalsAdd(Refusals, x, y);
    TotalsAdd(Failures, x, y);
  }

  // ------------------------------------------------------------------ Gate.Allow

  /** What Allow does to a shadow it finds so, and `refound` when it cancels. */
  function AllowActs(policy: Policy, found: Level, now: int, circuit: Circuit, asked: int, answer: Answer, later: int,
                     refound: Level): seq<Act> {
    var k := TicketAt(found, now);
    var opening := [ReserveAct(found, now)];
    var asking := AskAct(circuit, asked, answer, later);
    var back := CancelAct(refound, k, now);
    if !k.ok || k.DelayedAt(now) then opening + [back]
    else if Proceeds(asking.outcome, policy) then opening + [asking]
    else opening + [asking] + [back]
  }

  function GroundsOf(o: Outcome): Grounds {
    if o.Consent? then Paid else ByPolicy
  }

  /** Allow keeps exactly one token when it says yes, asks nothing for a token it has not
      got, and otherwise returns what it took at the instant it took it. */
  lemma AllowKeepsOrReturns(policy: Policy, found: Level, now: int, circuit: Circuit, asked: int, answer: Answer,
                            later: int, refound: Level)
    requires Usable(found.quota) && now <= asked
    ensures var o := Classify(circuit, asked, answer);
            var k := TicketAt(found, now);
            Standing(Free, policy, AllowActs(policy, found, now, circuit, asked, answer, later, refound))
            == if !k.DelayedAt(now) && Proceeds(o, policy) then Kept(k, GroundsOf(o)) else Free
  {
    var opening := [ReserveAct(found, now)];
    var asking := AskAct(circuit, asked, answer, later);
    var back := CancelAct(refound, TicketAt(found, now), now);
    TicketReadyWhenPaid(found, now, now);
    assert [] + opening == opening;
    StandingAfter(Free, policy, [], ReserveAct(found, now));
    StandingAfter(Free, policy, opening, back);
    StandingAfter(Free, policy, opening, asking);
    StandingAfter(Free, policy, opening + [asking], back);
  }

  // ----------------------------------------------- Limiter.Reserve, Reservation.Cancel

  /** What Reserve does with a backend: only a token that is there at once is asked for. */
  function ReserveActs(policy: Policy, found: Level, now: int, circuit: Circuit, asked: int, answer: Answer, later: int,
                       refound: Level): seq<Act> {
    var k := TicketAt(found, now);
    var opening := [ReserveAct(found, now)];
    var asking := AskAct(circuit, asked, answer, later);
    if k.DelayedAt(now) then opening + [Keep]
    else if Proceeds(asking.outcome, policy) then opening + [asking]
    else opening + [asking] + [CancelAct(refound, k, now)]
  }

  /** A reservation that is not OK has returned its token; one that is holds it, delayed and
      unasked, or asked for. */
  lemma ReserveKeepsOrReturns(policy: Policy, found: Level, now: int, circuit: Circuit, asked: int, answer: Answer,
                              later: int, refound: Level)
    requires Usable(found.quota) && now <= asked
    ensures var o := Classify(circuit, asked, answer);
            var k := TicketAt(found, now);
            Standing(Free, policy, ReserveActs(policy, found, now, circuit, asked, answer, later, refound))
            == if k.DelayedAt(now) then Kept(k, Unasked)
               else if Proceeds(o, policy) then Kept(k, GroundsOf(o))
               else Free
  {
    var opening := [ReserveAct(found, now)];
    var asking := AskAct(circuit, asked, answer, later);
    TicketReadyWhenPaid(found, now, now);
    assert [] + opening == opening;
    StandingAfter(Free, policy, [], ReserveAct(found, now));
    StandingAfter(Free, policy, opening, Keep);
    StandingAfter(Free, policy, opening, asking);
    StandingAfter(Free, policy, opening + [asking], CancelAct(refound, TicketAt(found, now), now));
  }

  /** Giving it back returns it exactly when that comes in time. */
  lemma ReleaseReturns(policy: Policy, log: seq<Act>, refound: Level, k: Ticket, at: int, on: Grounds)
    requires Standing(Free, policy, log) == Kept(k, on)
    ensures Standing(Free, policy, log + [ReleaseAct(refound, k, at)]) == if InTime(k, at) then Free else Kept(k, on)
  {
    StandingAfter(Free, policy, log, ReleaseAct(refound, k, at));
  }

  // ---------------------------------------------------------------- Gate.Acquire

  /** Everything one round of the polling loop meets: the quota it reads, the shadow as the
      others left it when it reserves and when it cancels, the breaker as they left it when
      it asks, the clock, the sleeps and the backend. */
  datatype Round = Round(
    quota: Quota,
    found: Level,
    now: int,        // when it reserves
    woken: bool,     // the wait for the reserved token ran its course
    circuit: Circuit,
    asked: int,      // when Take is called
    answer: Answer,
    later: int,      // when Take records a failure
    replied: int,    // when Take has returned
    refound: Level,
    jitter: int,
    wild: int,
    rested: bool)    // the sleep between polls ran its course

  /** Parked: the calls so far did not decide it. */
  datatype Result = Returned(err: Error) | Parked

  datatype Verdict = Stop(err: Error) | Again

  function Report(reported: bool): seq<Act> {
    if reported then [] else [Throttled]
  }

  function Waits(r: Round): bool {
    TicketAt(r.found, r.now).DelayedAt(r.now)
  }

  function Outcomes(r: Round): Outcome {
    Classify(r.circuit, r.asked, r.answer)
  }

  predicate Refused(r: Round) {
    Outcomes(r).Refusal?
  }

  function Retry(r: Round): int
    requires Refused(r)
  {
    RetryDelay(r.answer.grant.retryAfter, r.quota.rate, r.wild)
  }

  /** What the poll sleeps after a refusal. */
  function Resting(r: Round): Act {
    Rest(if Refused(r) then PollDelay(Retry(r), r.jitter) else 0)
  }

  function Asks(r: Round): Act {
    AskAct(r.circuit, r.asked, r.answer, r.later)
  }

  function Returns(r: Round): Act {
    CancelAct(r.refound, TicketAt(r.found, r.now), r.now)
  }

  function Opening(r: Round, reported: bool): seq<Act> {
    [ReserveAct(r.found, r.now)] + if Waits(r) then Report(reported) else []
  }

  /** One round of the loop: whether it decides, and what it does. */
  function Once(policy: Policy, r: Round, reported: bool): (Verdict, seq<Act>) {
    var opening := Opening(r, reported);
    var o := Outcomes(r);
    if !TicketAt(r.found, r.now).ok then (Stop(Unsatisfiable), [])
    else if Waits(r) && !r.woken then (Stop(Interrupted), opening + [Returns(r)])
    else if Proceeds(o, policy) then (Stop(Nil), opening + [Asks(r)])
    else if o.Refusal? then
      (if r.rested then Again else Stop(Interrupted),
       opening + [Asks(r)] + [Returns(r)] + Report(reported || Waits(r)) + [Resting(r)])
    else (Stop(TakeError(o, policy, r.answer)), opening + [Asks(r)] + [Returns(r)])
  }

  /** The operations Acquire performs over the given rounds, and how it ends. */
  function Acquired(policy: Policy, rounds: seq<Round>, reported: bool): (Result, seq<Act>)
    decreases |rounds|
  {
    if rounds == [] then (Parked, [])
    else
      var (verdict, acts) := Once(policy, rounds[0], reported);
      match verdict
      case Stop(err) => (Returned(err), acts)
      case Again =>
        var (result, more) := Acquired(policy, rounds[1..], true);
        (result, acts + more)
  }

  /** After i rounds the loop has done `done` and has the rest of the rounds to go. */
  ghost predicate Along(policy: Policy, rounds: seq<Round>, i: nat, reported: bool, done: seq<Act>) {
    && i <= |rounds|
    && Acquired(policy, rounds, false)
       == (Acquired(policy, rounds[i..], reported).0, done + Acquired(policy, rounds[i..], reported).1)
  }

  lemma AcquiredUnfolds(policy: Policy, rounds: seq<Round>, reported: bool)
    requires rounds != []
    ensures var (verdict, acts) := Once(policy, rounds[0], reported);
            var rest := Acquired(policy, rounds[1..], true);
            Acquired(policy, rounds, reported)
            == if verdict.Stop? then (Returned(verdict.err), acts) else (rest.0, acts + rest.1)
  {
  }

  lemma Reassociate(x: seq<Act>, y: seq<Act>, z: seq<Act>)
    ensures x + (y + z) == (x + y) + z
  {
  }

  lemma AlongNext(policy: Policy, rounds: seq<Round>, i: nat, reported: bool, done: seq<Act>, acts: seq<Act>)
    requires i < |rounds| && Along(policy, rounds, i, reported, done) && acts == Once(policy, rounds[i], reported).1
    ensures var verdict := Once(policy, rounds[i], reported).0;
            && (verdict.Stop? ==> Acquired(policy, rounds, false) == (Returned(verdict.err), done + acts))
            && (verdict.Again? ==> Along(policy, rounds, i + 1, true, done + acts))
  {
    assert rounds[i..][0] == rounds[i] && rounds[i..][1..] == rounds[i + 1..];
    AcquiredUnfolds(policy, rounds[i..], reported);
    Reassociate(done, acts, Acquired(policy, rounds[i + 1..], true).1);
  }

  lemma AlongEnds(policy: Policy, rounds: seq<Round>, i: nat, reported: bool, done: seq<Act>)
    requires i == |rounds| && Along(policy, rounds, i, reported, done)
    ensures Acquired(policy, rounds, false) == (Parked, done)
  {
    assert rounds[i..] == [] && done + [] == done;
  }

  /** Quotas are normalised, and nothing is asked before the reservation or, when the sleep
      for the token ran its course, before the token's time. */
  predicate Proper(r: Round) {
    && Usable(r.found.quota) && Usable(r.refound.quota) && r.now <= r.asked
    && (Waits(r) && r.woken ==> !TicketAt(r.found, r.now).DelayedAt(r.asked))
  }

  predicate AllProper(rounds: seq<Round>) {
    forall i :: 0 <= i < |rounds| ==> Proper(rounds[i])
  }

  lemma ReportStands(p: Phase, policy: Policy, reported: bool)
    requires p.Free? || p.Held? || p.Due?
    ensures Standing(p, policy, Report(reported)) == p
    ensures Total(Throttles, Report(reported)) == if reported then 0 else 1
  {
    assert [Throttled][1..] == [];
  }

  lemma OpeningStands(policy: Policy, r: Round, reported: bool)
    ensures Standing(Free, policy, Opening(r, reported)) == Held(TicketAt(r.found, r.now))
    ensures Total(Throttles, Opening(r, reported)) == if Waits(r) && !reported then 1 else 0
  {
    var first := [ReserveAct(r.found, r.now)];
    var rest := if Waits(r) then Report(reported) else [];
    assert first[1..] == [];
    StandingComposes(Free, policy, first, rest);
    TotalsAdd(Throttles, first, rest);
    ReportStands(Held(TicketAt(r.found, r.now)), policy, reported);
  }

  /** One round: it ends holding its token exactly when it stops with nil, and otherwise has
      returned it. */
  lemma OnceStands(policy: Policy, r: Round, reported: bool)
    requires Proper(r)
    ensures var (verdict, acts) := Once(policy, r, reported);
            && Standing(Free, policy, acts)
               == (if verdict == Stop(Nil) then Kept(TicketAt(r.found, r.now), GroundsOf(Outcomes(r))) else Free)
            && Total(Throttles, acts) == if !reported && HeldUp(r) then 1 else 0
  {
    var opening := Opening(r, reported);
    OpeningStands(policy, r, reported);
    TicketReadyWhenPaid(r.found, r.now, r.now);
    StaleReserveReads(r.found, r.now, if r.now < r.found.last then r.found.last else r.now);
    OnceSettles(policy, r, opening, reported);
  }

  /** The caller has to wait, for a token or after a refusal. */
  predicate HeldUp(r: Round) {
    TokensAt(r.found, r.now) < 1.0 || TurnedDown(r)
  }

  lemma OnceSettles(policy: Policy, r: Round, opening: seq<Act>, reported: bool)
    requires Proper(r) && Standing(Free, policy, opening) == Held(TicketAt(r.found, r.now))
    ensures Standing(Free, policy, opening + [Returns(r)]) == Free
    ensures Total(Throttles, opening + [Returns(r)]) == Total(Throttles, opening)
    ensures !Waits(r) || r.woken ==>
              && Standing(Free, policy, opening + [Asks(r)])
                 == (if Proceeds(Outcomes(r), policy) then Kept(TicketAt(r.found, r.now), GroundsOf(Outcomes(r)))
                     else Due(TicketAt(r.found, r.now)))
              && (!Proceeds(Outcomes(r), policy) ==>
                    && Standing(Free, policy, opening + [Asks(r)] + [Returns(r)]) == Free
                    && Standing(Free, policy, opening + [Asks(r)] + [Returns(r)] + Report(reported || Waits(r))
                                              + [Resting(r)]) == Free)
    ensures Total(Throttles, opening + [Asks(r)]) == Total(Throttles, opening)
    ensures Total(Throttles, opening + [Asks(r)] + [Returns(r)]) == Total(Throttles, opening)
    ensures Total(Throttles, opening + [Asks(r)] + [Returns(r)] + Report(reported || Waits(r)) + [Resting(r)])
            == Total(Throttles, opening) + if reported || Waits(r) then 0 else 1
  {
    TicketReadyWhenPaid(r.found, r.now, r.now);
    StandingAfter(Free, policy, opening, Returns(r));
    StandingAfter(Free, policy, opening, Asks(r));
    StandingAfter(Free, policy, opening + [Asks(r)], Returns(r));
    StandingComposes(Free, policy, opening + [Asks(r)] + [Returns(r)], Report(reported || Waits(r)));
    ReportStands(Free, policy, reported || Waits(r));
    TotalAfter(Throttles, opening, Returns(r));
    TotalAfter(Throttles, opening, Asks(r));
    TotalAfter(Throttles, opening + [Asks(r)], Returns(r));
    TotalsAdd(Throttles, opening + [Asks(r)] + [Returns(r)], Report(reported || Waits(r)));
    StandingAfter(Free, policy, opening + [Asks(r)] + [Returns(r)] + Report(reported || Waits(r)), Resting(r));
    TotalAfter(Throttles, opening + [Asks(r)] + [Returns(r)] + Report(reported || Waits(r)), Resting(r));
  }

  /** Whatever the others do, the backend answers and wherever the caller gives up: nil
      keeps exactly one token and an error none, each earlier round returned its own at its
      own instant, an Ask that lets the request through is the last thing done, and
      Throttled was reported once if the caller had to wait at all, and not otherwise. */
  lemma {:induction false} AcquireHoldsItsPromise(policy: Policy, rounds: seq<Round>, reported: bool)
    requires AllProper(rounds)
    ensures var (result, log) := Acquired(policy, rounds, reported);
            && (if result == Returned(Nil) then Standing(Free, policy, log).Kept?
                else Standing(Free, policy, log) == Free)
            && Total(Throttles, log) == if !reported && rounds != [] && HeldUp(rounds[0]) then 1 else 0
    decreases |rounds|
  {
    if rounds != [] {
      var (verdict, acts) := Once(policy, rounds[0], reported);
      OnceStands(policy, rounds[0], reported);
      OnceEnds(policy, rounds[0], reported);
      if verdict.Again? {
        AcquireHoldsItsPromise(policy, rounds[1..], true);
        StandingComposes(Free, policy, acts, Acquired(policy, rounds[1..], true).1);
        TotalsAdd(Throttles, acts, Acquired(policy, rounds[1..], true).1);
      }
    }
  }

  lemma ReportCounts(what: Counter, reported: bool)
    requires !what.Throttles?
    ensures Total(what, Report(reported)) == 0
  {
    assert [Throttled][1..] == [];
  }

  /** A round counts as its one question does, if it asks it. */
  lemma OnceCounts(policy: Policy, r: Round, reported: bool, t: Tally)
    ensures var asked := TicketAt(r.found, r.now).ok && (!Waits(r) || r.woken);
            Plus(t, Once(policy, r, reported).1)
            == Tally(t.takes + (if asked && Ticks(Takes, Asks(r)) then 1 else 0),
                     t.refused + (if asked && Ticks(Refusals, Asks(r)) then 1 else 0),
                     t.failures + if asked && Ticks(Failures, Asks(r)) then 1 else 0)
  {
    OnceCountsOf(policy, r, reported, Takes);
    OnceCountsOf(policy, r, reported, Refusals);
    OnceCountsOf(policy, r, reported, Failures);
  }

  lemma OpeningCounts(r: Round, reported: bool, what: Counter)
    requires what != Throttles
    ensures Total(what, Opening(r, reported)) == 0
  {
    var first := ReserveAct(r.found, r.now);
    assert [first] == [] + [first];
    TotalAfter(what, [], first);
    ReportCounts(what, reported);
    TotalsAdd(what, [first], if Waits(r) then Report(reported) else []);
  }

  lemma OnceCountsOf(policy: Policy, r: Round, reported: bool, what: Counter)
    requires what != Throttles
    ensures Total(what, Once(policy, r, reported).1)
            == if TicketAt(r.found, r.now).ok && (!Waits(r) || r.woken) && Ticks(what, Asks(r)) then 1 else 0
  {
    var opening := Opening(r, reported);
    OpeningCounts(r, reported, what);
    ReportCounts(what, reported || Waits(r));
    TotalAfter(what, opening, Returns(r));
    TotalAfter(what, opening, Asks(r));
    TotalAfter(what, opening + [Asks(r)], Returns(r));
    TotalsAdd(what, opening + [Asks(r)] + [Returns(r)], Report(reported || Waits(r)));
    TotalAfter(what, opening + [Asks(r)] + [Returns(r)] + Report(reported || Waits(r)), Resting(r));
  }

  // ---------------------------------------------------------------- how it ends

  /** The round gets as far as asking: a token was there, or the wait for one ran its
      course. */
  predicate Clear(r: Round) {
    TokensAt(r.found, r.now) >= 1.0 || r.woken
  }

  predicate TurnedDown(r: Round) {
    Clear(r) && Admits(r.circuit, r.asked) && r.answer.Answered? && !r.answer.grant.ok
  }

  /** No answer came, and nobody had left. */
  predicate Unheard(r: Round) {
    !Admits(r.circuit, r.asked) || r.answer == Broken(false, false)
  }

  predicate LetBy(policy: Policy, r: Round) {
    Clear(r) && ((Admits(r.circuit, r.asked) && r.answer.Answered? && r.answer.grant.ok)
                 || (Unheard(r) && !policy.Deny?))
  }

  /** Refused, and slept out in full. */
  predicate SleptOut(r: Round) {
    TurnedDown(r) && r.rested
  }

  predicate AllSlept(rounds: seq<Round>, n: nat) {
    forall i :: 0 <= i < n && i < |rounds| ==> SleptOut(rounds[i])
  }

  /** How Acquire ends with a round that is not. */
  predicate Ends(policy: Policy, r: Round, result: Result) {
    && result.Returned?
    && (result.err == Nil <==> LetBy(policy, r))
    && (result.err == Interrupted <==> !Clear(r) || (TurnedDown(r) && !r.rested))
    && (result.err == Unavailable <==> Clear(r) && Unheard(r) && policy.Deny?)
    && (result.err == Closed <==>
          Clear(r) && Admits(r.circuit, r.asked) && r.answer.Broken? && r.answer.ownerDone)
    && (result.err == CallerGone <==>
          Clear(r) && Admits(r.circuit, r.asked) && r.answer.Broken? && !r.answer.ownerDone && r.answer.callerDone)
  }

  /** The loop goes on for as long as it is refused and sleeps its refusals out, and the
      first round of another kind decides. */
  ghost predicate Decided(policy: Policy, rounds: seq<Round>, result: Result) {
    && (result.Parked? <==> AllSlept(rounds, |rounds|))
    && forall n {:trigger rounds[n]} :: 0 <= n < |rounds| && AllSlept(rounds, n) && !SleptOut(rounds[n]) ==>
         Ends(policy, rounds[n], result)
  }

  /** One round of Acquire goes on or ends as its own course says. */
  lemma OnceEnds(policy: Policy, r: Round, reported: bool)
    requires Proper(r)
    ensures Once(policy, r, reported).0.Again? <==> SleptOut(r)
    ensures Once(policy, r, reported).0.Stop? ==> Ends(policy, r, Returned(Once(policy, r, reported).0.err))
  {
    TicketReadyWhenPaid(r.found, r.now, r.now);
    StaleReserveReads(r.found, r.now, if r.now < r.found.last then r.found.last else r.now);
  }

  lemma {:induction false} AcquireIsDecided(policy: Policy, rounds: seq<Round>, reported: bool)
    requires AllProper(rounds)
    ensures Decided(policy, rounds, Acquired(policy, rounds, reported).0)
    decreases |rounds|
  {
    if rounds != [] {
      OnceEnds(policy, rounds[0], reported);
      if SleptOut(rounds[0]) {
        AcquireIsDecided(policy, rounds[1..], true);
        SleptOn(rounds);
        forall n | 0 <= n < |rounds| && AllSlept(rounds, n) && !SleptOut(rounds[n])
          ensures Ends(policy, rounds[n], Acquired(policy, rounds, reported).0)
        {
          assert rounds[n] == rounds[1..][n - 1] && AllSlept(rounds[1..], n - 1);
        }
      } else {
        assert !AllSlept(rounds, 1);
      }
    }
  }

  lemma SleptOn(rounds: seq<Round>)
    requires rounds != [] && SleptOut(rounds[0])
    ensures AllSlept(rounds[1..], |rounds| - 1) <==> AllSlept(rounds, |rounds|)
  {
    if AllSlept(rounds[1..], |rounds| - 1) {
      forall i | 0 <= i < |rounds|
        ensures SleptOut(rounds[i])
      {
        assert i > 0 ==> rounds[i] == rounds[1..][i - 1];
      }
    }
  }

  // ------------------------------------------------------------------- its pace

  function AskTimes(log: seq<Act>): seq<int> {
    if log == [] then []
    else if log[0].Ask? then [log[0].at] + AskTimes(log[1..])
    else AskTimes(log[1..])
  }

  lemma {:induction false} AskTimesCompose(x: seq<Act>, y: seq<Act>)
    ensures AskTimes(x + y) == AskTimes(x) + AskTimes(y)
    decreases |x|
  {
    if x == [] {
      assert x + y == y;
    } else {
      assert (x + y)[1..] == x[1..] + y && (x + y)[0] == x[0];
      AskTimesCompose(x[1..], y);
    }
  }

  lemma AskTimesAfter(x: seq<Act>, act: Act)
    ensures AskTimes(x + [act]) == AskTimes(x) + if act.Ask? then [act.at] else []
  {
    AskTimesCompose(x, [act]);
    assert [act][1..] == [];
  }

  lemma ReportsAskNothing(reported: bool)
    ensures AskTimes(Report(reported)) == []
  {
    assert [Throttled][1..] == [];
  }

  lemma OpeningAsksNothing(r: Round, reported: bool)
    ensures AskTimes(Opening(r, reported)) == []
  {
    assert [ReserveAct(r.found, r.now)] == [] + [ReserveAct(r.found, r.now)];
    AskTimesAfter([], ReserveAct(r.found, r.now));
    ReportsAskNothing(reported);
    AskTimesCompose([ReserveAct(r.found, r.now)], if Waits(r) then Report(reported) else []);
  }

  lemma OnceAsksOnce(policy: Policy, r: Round, reported: bool)
    ensures AskTimes(Once(policy, r, reported).1) == [r.asked] || AskTimes(Once(policy, r, reported).1) == []
    ensures Once(policy, r, reported).0.Again? ==> AskTimes(Once(policy, r, reported).1) == [r.asked]
  {
    var opening := Opening(r, reported);
    OpeningAsksNothing(r, reported);
    ReportsAskNothing(reported || Waits(r));
    AskTimesAfter(opening, Returns(r));
    AskTimesAfter(opening, Asks(r));
    AskTimesAfter(opening + [Asks(r)], Returns(r));
    AskTimesCompose(opening + [Asks(r)] + [Returns(r)], Report(reported || Waits(r)));
    AskTimesAfter(opening + [Asks(r)] + [Returns(r)] + Report(reported || Waits(r)), Resting(r));
  }

  /** The k-th Take is the k-th round's, and every round before the last Take was a
      refusal whose poll sleep ran its course. */
  lemma {:induction false} AsksFollowRounds(policy: Policy, rounds: seq<Round>, reported: bool)
    ensures var asks := AskTimes(Acquired(policy, rounds, reported).1);
            && |asks| <= |rounds|
            && (forall i :: 0 <= i < |asks| ==> asks[i] == rounds[i].asked)
            && (forall i :: 0 <= i < |asks| - 1 ==> Refused(rounds[i]) && rounds[i].rested)
    decreases |rounds|
  {
    if rounds != [] {
      var (verdict, acts) := Once(policy, rounds[0], reported);
      OnceAsksOnce(policy, rounds[0], reported);
      if verdict.Again? {
        AsksFollowRounds(policy, rounds[1..], true);
        AskTimesCompose(acts, Acquired(policy, rounds[1..], true).1);
      }
    }
  }

  /** What the log's timers between two polls were set to. */
  function RestTimes(log: seq<Act>): seq<int> {
    if log == [] then []
    else if log[0].Rest? then [log[0].ns] + RestTimes(log[1..])
    else RestTimes(log[1..])
  }

  lemma {:induction false} RestTimesCompose(x: seq<Act>, y: seq<Act>)
    ensures RestTimes(x + y) == RestTimes(x) + RestTimes(y)
    decreases |x|
  {
    if x == [] {
      assert x + y == y;
    } else {
      assert (x + y)[1..] == x[1..] + y && (x + y)[0] == x[0];
      RestTimesCompose(x[1..], y);
    }
  }

  lemma RestTimesAfter(x: seq<Act>, act: Act)
    ensures RestTimes(x + [act]) == RestTimes(x) + if act.Rest? then [act.ns] else []
  {
    RestTimesCompose(x, [act]);
    assert [act][1..] == [];
  }

  lemma ReportsRestNot(reported: bool)
    ensures RestTimes(Report(reported)) == []
  {
    assert [Throttled][1..] == [];
  }

  lemma OnceRests(policy: Policy, r: Round, reported: bool)
    requires Once(policy, r, reported).0.Again?
    ensures RestTimes(Once(policy, r, reported).1) == [PollDelay(Retry(r), r.jitter)]
  {
    var first := ReserveAct(r.found, r.now);
    var opening := Opening(r, reported);
    assert [first] == [] + [first];
    RestTimesAfter([], first);
    ReportsRestNot(reported);
    RestTimesCompose([first], if Waits(r) then Report(reported) else []);
    ReportsRestNot(reported || Waits(r));
    RestTimesAfter(opening, Asks(r));
    RestTimesAfter(opening + [Asks(r)], Returns(r));
    RestTimesCompose(opening + [Asks(r)] + [Returns(r)], Report(reported || Waits(r)));
    RestTimesAfter(opening + [Asks(r)] + [Returns(r)] + Report(reported || Waits(r)), Resting(r));
  }

  /** The k-th timer is the k-th round's. */
  lemma {:induction false} RestsFollowRounds(policy: Policy, rounds: seq<Round>, reported: bool, i: nat)
    requires i + 1 < |AskTimes(Acquired(policy, rounds, reported).1)|
    ensures i < |rounds| && Refused(rounds[i]) && rounds[i].rested
    ensures i < |RestTimes(Acquired(policy, rounds, reported).1)|
    ensures RestTimes(Acquired(policy, rounds, reported).1)[i] == PollDelay(Retry(rounds[i]), rounds[i].jitter)
    decreases |rounds|
  {
    AsksFollowRounds(policy, rounds, reported);
    var (verdict, acts) := Once(policy, rounds[0], reported);
    OnceAsksOnce(policy, rounds[0], reported);
    if verdict.Again? {
      OnceRests(policy, rounds[0], reported);
      AskTimesCompose(acts, Acquired(policy, rounds[1..], true).1);
      RestTimesCompose(acts, Acquired(policy, rounds[1..], true).1);
      if i > 0 {
        RestsFollowRounds(policy, rounds[1..], true, i - 1);
      }
    }
  }

  /** A timer that ran its course ran for at least what it was set to, and nothing
      happens before what it waits for. */
  predicate Timely(rounds: seq<Round>, log: seq<Act>) {
    forall i :: 0 <= i < |rounds| - 1 && i < |RestTimes(log)| && rounds[i].rested ==>
      && rounds[i].asked <= rounds[i].replied
      && rounds[i].replied + RestTimes(log)[i] <= rounds[i + 1].now <= rounds[i + 1].asked
  }

  /** The drawn jitter is in range and the sum does not overflow. */
  predicate Fits(r: Round)
    requires Refused(r)
  {
    JitterOf(Retry(r), r.jitter) && Retry(r) + r.jitter <= MAX_DURATION
  }

  /** Consecutive Takes of one Acquire are at least as far apart as the backend asked for,
      when it did, and otherwise at least the time of one token. */
  lemma TakesAreSpaced(policy: Policy, rounds: seq<Round>, reported: bool, i: nat)
    requires Timely(rounds, Acquired(policy, rounds, reported).1)
    requires i + 1 < |AskTimes(Acquired(policy, rounds, reported).1)|
    requires i < |rounds| && Refused(rounds[i]) ==> Fits(rounds[i])
    ensures i + 1 < |rounds| && rounds[i].answer.Answered? && !rounds[i].answer.grant.ok
    ensures var asks := AskTimes(Acquired(policy, rounds, reported).1);
            var retryAfter := rounds[i].answer.grant.retryAfter;
            && (retryAfter > 0 ==> asks[i + 1] - asks[i] >= retryAfter)
            && (retryAfter <= 0 ==> exists d :: OnePeriod(rounds[i].quota.rate, d) && asks[i + 1] - asks[i] >= d)
  {
    AsksFollowRounds(policy, rounds, reported);
    RestsFollowRounds(policy, rounds, reported, i);
    RetryHonours(rounds[i].answer.grant.retryAfter, rounds[i].quota.rate, rounds[i].wild);
    assert OnePeriod(rounds[i].quota.rate, Retry(rounds[i])) || rounds[i].answer.grant.retryAfter > 0;
  }

  /** Hence n refusals the backend did not schedule take at least (n - 1) * 10ms: the
      poll cannot spin. */
  lemma {:induction false} UnscheduledPollsDoNotSpin(policy: Policy, rounds: seq<Round>, reported: bool, n: nat)
    requires Timely(rounds, Acquired(policy, rounds, reported).1)
    requires 0 < n <= |AskTimes(Acquired(policy, rounds, reported).1)|
    requires forall r :: r in rounds && Refused(r) ==> Fits(r) && r.answer.grant.retryAfter <= 0
    ensures var asks := AskTimes(Acquired(policy, rounds, reported).1);
            asks[n - 1] - asks[0] >= (n - 1) * 10_000_000
    decreases n
  {
    if n > 1 {
      UnscheduledPollsDoNotSpin(policy, rounds, reported, n - 1);
      AsksFollowRounds(policy, rounds, reported);
      TakesAreSpaced(policy, rounds, reported, n - 2);
    }
  }

  // ------------------------------------------------------------------- Gate.wait

  /** What waitFallback returns. */
  function FallbackError(policy: Policy, found: Level, now: int, fate: Fate): Error {
    match policy
    case Deny => Unavailable
    case Allow => Nil
    case FallbackLocal => if WaitSucceeds(found, now, fate) then Nil else Interrupted
  }

  function ParkAct(circuit: Circuit, at: int, answer: Answer, later: int): Act {
    var o := Classify(circuit, at, answer);
    Park(circuit, at, o, later,
         if o.Quit? && answer.Broken? && answer.ownerDone then AfterAllow(circuit, at)
         else BreakerAfter(circuit, at, o, later))
  }

  /** What Bucket.Wait does to the shadow. */
  function FallbackActs(found: Level, start: int, fate: Fate): seq<Act> {
    match fate
    case Declined => []
    case RunsOut(until) =>
      [ReserveAct(found, start)] + [Wake(if TicketAt(found, start).DelayedAt(start) then until else start)]
    case GivenUp(at, refound) =>
      [ReserveAct(found, start)]
      + [if TicketAt(found, start).DelayedAt(start) then CancelAct(refound, TicketAt(found, start), at)
         else Wake(start)]
  }

  function WaitActs(policy: Policy, found: Level, circuit: Circuit, now: int, answer: Answer, later: int, start: int,
                    fate: Fate): seq<Act> {
    [ParkAct(circuit, now, answer, later)]
    + if NoAnswer(Classify(circuit, now, answer)) && policy.FallbackLocal? then FallbackActs(found, start, fate) else []
  }

  /** A wait that runs its course has waited for the token's time. */
  predicate Awaited(found: Level, start: int, fate: Fate) {
    fate.RunsOut? && TicketAt(found, start).DelayedAt(start) ==> !TicketAt(found, start).DelayedAt(fate.until)
  }

  /** How the waiting path leaves the caller. */
  function WaitPhase(policy: Policy, found: Level, o: Outcome, start: int, fate: Fate): Phase {
    var k := TicketAt(found, start);
    if !NoAnswer(o) || !policy.FallbackLocal? then AfterPark(o, policy)
    else if fate.Declined? then Fallen
    else if WaitSucceeds(found, start, fate) then Kept(k, ByPolicy)
    else if InTime(k, fate.at) then Free
    else Gone(k)
  }

  lemma FallbackStands(policy: Policy, found: Level, o: Outcome, start: int, fate: Fate)
    requires NoAnswer(o) && policy.FallbackLocal? && Awaited(found, start, fate)
    ensures Standing(Fallen, policy, FallbackActs(found, start, fate)) == WaitPhase(policy, found, o, start, fate)
  {
    var first := [ReserveAct(found, start)];
    assert [] + first == first;
    StandingAfter(Fallen, policy, [], ReserveAct(found, start));
    match fate {
      case Declined =>
      case RunsOut(until) =>
        StandingAfter(Fallen, policy, first, Wake(if TicketAt(found, start).DelayedAt(start) then until else start));
      case GivenUp(at, refound) =>
        StandingAfter(Fallen, policy, first, CancelAct(refound, TicketAt(found, start), at));
        StandingAfter(Fallen, policy, first, Wake(start));
    }
  }

  /** A parked caller is let through by the backend, by shared.Allow, or with a token of the
      shadow, kept; and in no other way, under FallbackLocal least of all. */
  lemma WaitServesOrKeeps(policy: Policy, found: Level, circuit: Circuit, now: int, answer: Answer, later: int,
                          start: int, fate: Fate)
    requires (answer.Answered? ==> answer.grant.ok) && Awaited(found, start, fate)
    ensures Standing(Free, policy, WaitActs(policy, found, circuit, now, answer, later, start, fate))
            == WaitPhase(policy, found, Classify(circuit, now, answer), start, fate)
  {
    var o := Classify(circuit, now, answer);
    var park := [ParkAct(circuit, now, answer, later)];
    assert [] + park == park && park + [] == park;
    StandingAfter(Free, policy, [], ParkAct(circuit, now, answer, later));
    if NoAnswer(o) && policy.FallbackLocal? {
      FallbackStands(policy, found, o, start, fate);
      StandingComposes(Free, policy, park, FallbackActs(found, start, fate));
    }
  }

  // ------------------------------------------------------------------- the gate

  class Gate {
    const policy: Policy
    const breaker: Breaker
    var takes: int
    var refused: int
    var failures: int
    ghost var log: seq<Act>     // what Allow and Acquire did, operation by operation

    constructor (policy: Policy)
      ensures this.policy == policy && fresh(breaker) && breaker.Now() == CLOSED
      ensures takes == refused == failures == 0 && log == []
    {
      this.policy := policy;
      breaker := new Breaker();
      takes, refused, failures, log := 0, 0, 0, [];
    }

    /** onUnavailable: the failure policy. */
    method Unanswered() returns (ok: bool, err: Error)
      ensures ok <==> !policy.Deny?
      ensures err == if ok then Nil else Unavailable
    {
      match policy {
        case Deny => ok, err := false, Unavailable;
        case Allow => ok, err := true, Nil;
        case FallbackLocal => ok, err := true, Nil;
      }
    }

    function Counts(): Tally
      reads this
    {
      Tally(takes, refused, failures)
    }

    /** One question to the backend. `answer` is what it would say if asked, `later` the
        instant a failure is recorded at. Whatever it answers is passed on, and leaves the
        breaker closed; whoever has left is told so, whatever the policy; the policy decides
        only when no answer came, which counts against the breaker if it was asked for. */
    method Take(now: int, answer: Answer, later: int) returns (grant: Grant, ok: bool, err: Error)
      modifies this`takes, this`refused, this`failures, breaker
      ensures var admitted := Admits(old(breaker.Now()), now);
              var silent := !admitted || answer == Broken(false, false);
              && takes == old(takes) + (if admitted then 1 else 0)
              && refused == old(refused) + (if admitted && answer.Answered? && !answer.grant.ok then 1 else 0)
              && failures == old(failures) + (if silent then 1 else 0)
              && (admitted && answer.Answered? ==>
                    (grant, ok, err) == (answer.grant, answer.grant.ok, Nil) && forall u :: Admits(breaker.Now(), u))
              && (silent ==> (grant, ok, err) == (NO_GRANT, !policy.Deny?, if policy.Deny? then Unavailable else Nil))
              && (admitted && answer.Broken? && answer.ownerDone ==> (grant, ok, err) == (NO_GRANT, false, Closed))
              && (admitted && answer.Broken? && !answer.ownerDone && answer.callerDone ==>
                    (grant, ok, err) == (NO_GRANT, false, CallerGone))
              && (!admitted ==> breaker.Now() == old(breaker.Now()))
              && (admitted && silent ==> breaker.Now() == AfterFail(AfterAllow(old(breaker.Now()), now), later))
              && (admitted && !silent && answer.Broken? ==>
                    breaker.Now() == AfterAbandon(AfterAllow(old(breaker.Now()), now)))
      ensures old(Sane(breaker.Now())) ==> Sane(breaker.Now())
      ensures var o := Classify(old(breaker.Now()), now, answer);
              && breaker.Now() == BreakerAfter(old(breaker.Now()), now, o, later)
              && ok == Proceeds(o, policy) && err == TakeError(o, policy, answer)
    {
      var admitted := breaker.Allow(now);
      if !admitted {
        failures := failures + 1;
        ok, err := Unanswered();
        return NO_GRANT, ok, err;
      }
      takes := takes + 1;
      match answer {
        case Broken(ownerDone, callerDone) =>
          if ownerDone {
            breaker.Abandon();
            return NO_GRANT, false, Closed;
          }
          if callerDone {
            breaker.Abandon();
            return NO_GRANT, false, CallerGone;
          }
          failures := failures + 1;
          breaker.Fail(later);
          ok, err := Unanswered();
          return NO_GRANT, ok, err;
        case Answered(g) =>
          breaker.Succeed();
          if !g.ok {
            refused := refused + 1;
          }
          return g, g.ok, Nil;
      }
    }

    /** The non-blocking decision. It lets a request through exactly when the shadow
        holds a token and the backend consents (or the policy stands in for it), and
        then keeps the token; a refusal by the shadow asks the backend nothing. A refusal
        on either ground returns the token to what the others have left, `refound`; with
        nobody else about it costs the shadow nothing, and gains it the time `now` was
        behind its last update. */
    method Allow(b: Bucket, now: int, asked: int, answer: Answer, later: int, wild: int, refound: Level)
      returns (ok: bool, delay: int)
      requires b.Valid() && Usable(refound.quota)
      modifies this`takes, this`refused, this`failures, this`log, breaker, b
      ensures b.Valid()
      ensures log == old(log)
                     + AllowActs(policy, old(b.limiter), now, old(breaker.Now()), asked, answer, later, refound)
      ensures var shadow := TokensAt(old(b.limiter), now) >= 1.0;
              var admitted := Admits(old(breaker.Now()), asked);
              var silent := !admitted || answer == Broken(false, false);
              && (ok <==> shadow && ((admitted && answer.Answered? && answer.grant.ok) || (silent && !policy.Deny?)))
              && (ok ==> b.limiter == Reserved(old(b.limiter), now) && delay == 0)
              && (!shadow ==> breaker.Now() == old(breaker.Now()) && takes == old(takes)
                              && refused == old(refused) && failures == old(failures)
                              && delay == DelayAt(b.limiter, now, wild))
              && (shadow ==> breaker.Now()
                             == BreakerAfter(old(breaker.Now()), asked,
                                             Classify(old(breaker.Now()), asked, answer), later)
                             && takes == old(takes) + (if admitted then 1 else 0)
                             && refused == old(refused)
                                           + (if admitted && answer.Answered? && !answer.grant.ok then 1 else 0)
                             && failures == old(failures) + (if silent then 1 else 0))
              && (shadow && !ok ==>
                    Honours(delay, if admitted && answer.Answered? then answer.grant.retryAfter else 0,
                            old(b.quota).rate))
      ensures !ok ==> b.limiter == Cancelled(refound, TicketAt(old(b.limiter), now), now)
      ensures !ok && refound == Reserved(old(b.limiter), now) ==> PutBack(old(b.limiter), now, b.limiter)
    {
      ghost var before := b.limiter;
      StaleReserveReads(before, now, if now < before.last then before.last else now);
      TicketReadyWhenPaid(before, now, now);
      CancelPutsBack(before, now);
      var res := b.ReserveAt(now);
      log := log + [Reserve(before, now, b.limiter)];
      if !res.ok || res.DelayedAt(now) {
        GiveBack(b, res, refound, now);
        delay := DelayAt(b.limiter, now, wild);
        return false, delay;
      }
      var q := b.quota;
      log := log + [AskAct(breaker.Now(), asked, answer, later)];
      var grant, granted, err := Take(asked, answer, later);
      RetryHonours(grant.retryAfter, q.rate, wild);
      if granted && err == Nil {
        return true, 0;
      }
      GiveBack(b, res, refound, now);
      return false, RetryDelay(grant.retryAfter, q.rate, wild);
    }

    method OthersCall(circuit: Circuit)
      modifies breaker
      ensures breaker.Now() == circuit
    {
      breaker.failures, breaker.openTill, breaker.probing := circuit.failures, circuit.openTill, circuit.probing;
    }

    /** CancelAt, on the shadow as the others left it. */
    method GiveBack(b: Bucket, res: Ticket, refound: Level, at: int)
      requires Usable(refound.quota)
      modifies this`log, b
      ensures b.Valid() && b.limiter == Cancelled(refound, res, at)
      ensures log == old(log) + [CancelAct(refound, res, at)]
    {
      b.OthersMove(refound);
      ghost var found := b.limiter;
      b.CancelAt(res, at);
      log := log + [Cancel(found, res, at, b.limiter)];
    }

    /** The polling loop. */
    method Acquire(b: Bucket, rounds: seq<Round>) returns (result: Result)
      requires b.Valid() && AllProper(rounds)
      modifies this`takes, this`refused, this`failures, this`log, breaker, b
      ensures b.Valid()
      ensures Decided(policy, rounds, result) && result == Acquired(policy, rounds, false).0
      ensures log == old(log) + Acquired(policy, rounds, false).1
      ensures Counts() == Plus(old(Counts()), Acquired(policy, rounds, false).1)
    {
      AcquireIsDecided(policy, rounds, false);
      var reported := false;
      var i := 0;
      ghost var done: seq<Act> := [];
      assert rounds[0..] == rounds;
      assert [] + Acquired(policy, rounds, false).1 == Acquired(policy, rounds, false).1;
      while i < |rounds|
        invariant 0 <= i <= |rounds| && b.Valid()
        invariant Along(policy, rounds, i, reported, done)
        invariant log == old(log) + done && Counts() == Plus(old(Counts()), done)
      {
        var verdict;
        verdict, reported, done := Turn(b, rounds, i, reported, done, old(log), old(Counts()));
        if verdict.Stop? {
          return Returned(verdict.err);
        }
        i := i + 1;
      }
      AlongEnds(policy, rounds, i, reported, done);
      return Parked;
    }

    /** The i-th round, and how far the loop has come after it. */
    method Turn(b: Bucket, rounds: seq<Round>, i: nat, reported: bool,
                ghost done: seq<Act>, ghost was: seq<Act>, ghost base: Tally)
      returns (verdict: Verdict, told: bool, ghost all: seq<Act>)
      requires b.Valid() && AllProper(rounds) && i < |rounds| && Along(policy, rounds, i, reported, done)
      requires log == was + done && Counts() == Plus(base, done)
      modifies this`takes, this`refused, this`failures, this`log, breaker, b
      ensures b.Valid() && log == was + all && Counts() == Plus(base, all)
      ensures verdict.Stop? ==> Acquired(policy, rounds, false) == (Returned(verdict.err), all)
      ensures verdict.Again? ==> Along(policy, rounds, i + 1, told, all)
    {
      ghost var acts := Once(policy, rounds[i], reported).1;
      AlongNext(policy, rounds, i, reported, done, acts);
      PlusAdds(base, done, acts);
      Reassociate(was, done, acts);
      all := done + acts;
      verdict, told := Poll(b, rounds[i], reported);
    }

    /** The body of that loop; `told` is the captured reported flag afterwards. */
    method Poll(b: Bucket, r: Round, reported: bool) returns (verdict: Verdict, told: bool)
      requires b.Valid() && Proper(r)
      modifies this`takes, this`refused, this`failures, this`log, breaker, b
      ensures b.Valid()
      ensures verdict == Once(policy, r, reported).0 && (verdict.Again? ==> told)
      ensures log == old(log) + Once(policy, r, reported).1
      ensures Counts() == Plus(old(Counts()), Once(policy, r, reported).1)
    {
      OnceCounts(policy, r, reported, Counts());
      var res;
      res, told := TakeToken(b, r, reported);
      if res.DelayedAt(r.now) && !r.woken {
        GiveBack(b, res, r.refound, r.now);
        return Stop(Interrupted), told;
      }
      var grant, ok, err := AskFor(r);
      if err != Nil {
        GiveBack(b, res, r.refound, r.now);
        return Stop(err), told;
      }
      if ok {
        return Stop(Nil), told;
      }
      GiveBack(b, res, r.refound, r.now);
      log := log + Report(told);
      log := log + [Rest(PollDelay(RetryDelay(grant.retryAfter, r.quota.rate, r.wild), r.jitter))];
      return if r.rested then Again else Stop(Interrupted), true;
    }

    /** Reserve, and tell the owner if there is a wait and it has not been told. */
    method TakeToken(b: Bucket, r: Round, reported: bool) returns (res: Ticket, told: bool)
      requires Proper(r)
      modifies this`log, b
      ensures b.Valid() && res == TicketAt(r.found, r.now) && res.ok && told == (reported || Waits(r))
      ensures log == old(log) + Opening(r, reported)
    {
      b.OthersMove(r.found);
      ghost var found := b.limiter;
      res := b.ReserveAt(r.now);
      log := log + [Reserve(found, r.now, b.limiter)];
      told := reported;
      if res.DelayedAt(r.now) {
        log := log + Report(told);
        told := true;
      }
    }

    method AskFor(r: Round) returns (grant: Grant, ok: bool, err: Error)
      modifies this`takes, this`refused, this`failures, this`log, breaker
      ensures ok == Proceeds(Outcomes(r), policy) && err == TakeError(Outcomes(r), policy, r.answer)
      ensures Refused(r) ==> r.answer.Answered? && grant == r.answer.grant
      ensures log == old(log) + [Asks(r)]
      ensures takes == old(takes) + if Ticks(Takes, Asks(r)) then 1 else 0
      ensures refused == old(refused) + if Ticks(Refusals, Asks(r)) then 1 else 0
      ensures failures == old(failures) + if Ticks(Failures, Asks(r)) then 1 else 0
    {
      OthersCall(r.circuit);
      ghost var circuit := breaker.Now();
      var given, granted, error := Take(r.asked, r.answer, r.later);
      log := log + [Ask(circuit, r.asked, Classify(circuit, r.asked, r.answer), r.later, breaker.Now())];
      return given, granted, error;
    }

    /** Gate.wait: a backend that parks the caller. `fate` is how Bucket.Wait fares if the
        fallback has to wait on the shadow, from `start` on. */
    method Wait(b: Bucket, now: int, answer: Answer, later: int, start: int, fate: Fate) returns (err: Error)
      requires b.Valid() && (fate.GivenUp? ==> Usable(fate.found.quota))
      requires answer.Answered? ==> answer.grant.ok
      modifies this`takes, this`failures, this`log, breaker, b
      ensures b.Valid()
      ensures log == old(log)
                     + WaitActs(policy, old(b.limiter), old(breaker.Now()), now, answer, later, start, fate)
      ensures var was := old(breaker.Now());
              var admitted := Admits(was, now);
              var silent := !admitted || answer == Broken(false, false);
              && takes == old(takes) + (if admitted then 1 else 0)
              && failures == old(failures) + (if silent then 1 else 0)
              && (admitted && answer.Answered? ==> err == Nil && forall u :: Admits(breaker.Now(), u))
              && (!admitted ==> breaker.Now() == was)
              && (admitted && silent ==> breaker.Now() == AfterFail(AfterAllow(was, now), later))
              && (admitted && answer.Broken? && answer.ownerDone ==>
                    err == Closed && breaker.Now() == AfterAllow(was, now))
              && (admitted && answer.Broken? && !answer.ownerDone && answer.callerDone ==>
                    err == CallerGone && breaker.Now() == AfterAbandon(AfterAllow(was, now)))
              && (silent && policy.Deny? ==> err == Unavailable)
              && (silent && policy.Allow? ==> err == Nil)
              && (silent && policy.FallbackLocal? ==>
                    err == (if WaitSucceeds(old(b.limiter), start, fate) then Nil else Interrupted)
                    && Waited(old(b.limiter), start, fate, b.limiter))
              && (!silent || !policy.FallbackLocal? ==> b.limiter == old(b.limiter))
    {
      var o := ParkCaller(now, answer, later);
      if o.Consent? {
        return Nil;
      }
      if o.Quit? {
        return if answer.ownerDone then Closed else CallerGone;
      }
      err := WaitFallback(b, start, fate);
    }

    /** The question of the waiting path. */
    method ParkCaller(now: int, answer: Answer, later: int) returns (o: Outcome)
      requires answer.Answered? ==> answer.grant.ok
      modifies this`takes, this`failures, this`log, breaker
      ensures o == Classify(old(breaker.Now()), now, answer)
      ensures var admitted := Admits(old(breaker.Now()), now);
              && (o.ShortCircuit? <==> !admitted) && (o.Consent? <==> admitted && answer.Answered?)
              && (o.Failure? <==> admitted && answer == Broken(false, false)) && !o.Refusal?
              && takes == old(takes) + (if admitted then 1 else 0)
              && failures == old(failures) + (if o.ShortCircuit? || o.Failure? then 1 else 0)
              && (!admitted ==> breaker.Now() == old(breaker.Now()))
              && (o.Consent? ==> forall u :: Admits(breaker.Now(), u))
              && (o.Failure? ==> breaker.Now() == AfterFail(AfterAllow(old(breaker.Now()), now), later))
              && (o.Quit? ==> breaker.Now() == if answer.ownerDone then AfterAllow(old(breaker.Now()), now)
                                               else AfterAbandon(AfterAllow(old(breaker.Now()), now)))
      ensures log == old(log) + [ParkAct(old(breaker.Now()), now, answer, later)]
    {
      ghost var found := breaker.Now();
      var admitted := breaker.Allow(now);
      if !admitted {
        failures := failures + 1;
        o := ShortCircuit;
      } else {
        takes := takes + 1;
        if answer.Answered? {
          breaker.Succeed();
          o := Consent;
        } else if answer.ownerDone {
          o := Quit;
        } else if answer.callerDone {
          breaker.Abandon();
          o := Quit;
        } else {
          failures := failures + 1;
          breaker.Fail(later);
          o := Failure;
        }
      }
      log := log + [Park(found, now, o, later, breaker.Now())];
    }

    method WaitFallback(b: Bucket, start: int, fate: Fate) returns (err: Error)
      requires b.Valid() && (fate.GivenUp? ==> Usable(fate.found.quota))
      modifies this`log, b
      ensures b.Valid()
      ensures err == FallbackError(policy, old(b.limiter), start, fate)
      ensures policy.FallbackLocal? ==> Waited(old(b.limiter), start, fate, b.limiter)
      ensures !policy.FallbackLocal? ==> b.limiter == old(b.limiter)
      ensures log == old(log) + if policy.FallbackLocal? then FallbackActs(old(b.limiter), start, fate) else []
    {
      match policy {
        case Deny => return Unavailable;
        case Allow => return Nil;
        case FallbackLocal =>
          log := log + FallbackActs(b.limiter, start, fate);
          var ok := b.WaitAt(start, fate);
          return if ok then Nil else Interrupted;
      }
    }
  }
}
