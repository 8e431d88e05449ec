/** The circuit breaker (breaker/breaker.go): its transitions, the class that makes
    them in place, and how many calls it lets reach a dead dependency. */
module Breakers {

  const THRESHOLD: int := 5
  const COOLDOWN: int := 5_000_000_000

  /** openTill: the zero Time while closed. */
  datatype Till = Zero | Until(at: int)

  datatype Circuit = Circuit(failures: int, openTill: Till, probing: bool)

  const CLOSED := Circuit(0, Zero, false)

  /** What every reachable breaker satisfies. */
  predicate Sane(b: Circuit) {
    0 <= b.failures < THRESHOLD && (b.probing ==> b.openTill.Until?)
  }

  predicate Admits(b: Circuit, now: int) {
    b.openTill.Zero? || (now >= b.openTill.at && !b.probing)
  }

  function AfterAllow(b: Circuit, now: int): Circuit {
    if Admits(b, now) && b.openTill.Until? then b.(probing := true) else b
  }

  function Reopened(now: int): Circuit {
    Circuit(0, Until(now + COOLDOWN), false)
  }

  function AfterFail(b: Circuit, now: int): Circuit {
    if b.probing || b.failures + 1 >= THRESHOLD then Reopened(now) else b.(failures := b.failures + 1)
  }

  function AfterAbandon(b: Circuit): Circuit {
    b.(probing := false)
  }

  class Breaker {
    var failures: int
    var openTill: Till
    var probing: bool

    function Now(): Circuit
      reads this
    {
      Circuit(failures, openTill, probing)
    }

    constructor ()
      ensures Now() == CLOSED
    {
      failures, openTill, probing := 0, Zero, false;
    }

    method Allow(now: int) returns (ok: bool)
      modifies this
      ensures ok == Admits(old(Now()), now)
      ensures Now() == AfterAllow(old(Now()), now)
      ensures old(Sane(Now())) ==> Sane(Now())
    {
      match openTill {
        case Zero =>
          ok := true;
        case Until(at) =>
          if now < at {
            ok := false;
          } else if probing {
            ok := false;
          } else {
            probing := true;
            ok := true;
          }
      }
    }

    method Succeed()
      modifies this
      ensures Now() == CLOSED
    {
      failures := 0;
      openTill := Zero;
      probing := false;
    }

    method Fail(now: int)
      modifies this
      ensures Now() == AfterFail(old(Now()), now)
      ensures old(Sane(Now())) ==> Sane(Now())
      ensures !probing
    {
      if probing {
        probing := false;
        openTill := Until(now + COOLDOWN);
        failures := 0;
        return;
      }
      failures := failures + 1;
      if failures >= THRESHOLD {
        openTill := Until(now + COOLDOWN);
        failures := 0;
      }
    }

    method Abandon()
      modifies this
      ensures Now() == AfterAbandon(old(Now()))
      ensures old(Sane(Now())) ==> Sane(Now())
    {
      probing := false;
    }
  }

  // ------------------------------------------------- the price of a dead backend

  /** One call: when it asked the breaker, and when its failure was recorded. */
  datatype Attempt = Attempt(asked: int, answered: int)

  /** Calls resolved one at a time at non-decreasing instants, all asked by `end`. */
  predicate InTurn(from: int, calls: seq<Attempt>, end: int)
    decreases |calls|
  {
    calls != [] ==>
      from <= calls[0].asked <= end && calls[0].asked <= calls[0].answered
      && InTurn(calls[0].answered, calls[1..], end)
  }

  function AfterAttempt(b: Circuit, call: Attempt): Circuit {
    if Admits(b, call.asked) then AfterFail(AfterAllow(b, call.asked), call.answered) else AfterAllow(b, call.asked)
  }

  /** How many of the calls reach the backend when every one that does fails. */
  function Reached(b: Circuit, calls: seq<Attempt>): nat
    decreases |calls|
  {
    if calls == [] then 0
    else (if Admits(b, calls[0].asked) then 1 else 0) + Reached(AfterAttempt(b, calls[0]), calls[1..])
  }

  /** How many calls a breaker that is open until `till` may still let out by `end`. */
  function Probes(from: int, till: int, end: int): nat {
    var first := if till < from then from else till;
    if end < first then 0 else (end - first) / COOLDOWN + 1
  }

  lemma ProbesShrink(from: int, later: int, till: int, end: int)
    requires from <= later
    ensures Probes(later, till, end) <= Probes(from, till, end)
  {
  }

  lemma {:induction false} OpenBound(b: Circuit, from: int, calls: seq<Attempt>, end: int)
    requires Sane(b) && b.openTill.Until? && InTurn(from, calls, end)
    ensures Reached(b, calls) <= Probes(from, b.openTill.at, end)
    decreases |calls|
  {
    if calls != [] {
      var call := calls[0];
      var next := AfterAttempt(b, call);
      OpenBound(next, call.answered, calls[1..], end);
      if Admits(b, call.asked) {
        assert next == Reopened(call.answered);
        assert Probes(call.answered, call.answered + COOLDOWN, end) + 1
            <= (if end < call.answered then 0 else (end - call.answered) / COOLDOWN) + 1;
      } else {
        ProbesShrink(from, call.answered, b.openTill.at, end);
      }
    }
  }

  lemma {:induction false} ClosedBound(b: Circuit, from: int, calls: seq<Attempt>, end: int)
    requires Sane(b) && b.openTill.Zero? && InTurn(from, calls, end) && from <= end
    ensures Reached(b, calls) <= THRESHOLD - b.failures + (end - from) / COOLDOWN
    decreases |calls|
  {
    if calls != [] {
      var call := calls[0];
      var next := AfterAttempt(b, call);
      if next.openTill.Until? {
        OpenBound(next, call.answered, calls[1..], end);
      } else if call.answered <= end {
        ClosedBound(next, call.answered, calls[1..], end);
      } else {
        assert Reached(next, calls[1..]) == 0;
      }
    }
  }

  /** From any reachable breaker state, at most Threshold + floor(W / Cooldown) calls
      reach a backend that is down, in any window of length W. */
  lemma OutageCostsLittle(b: Circuit, start: int, calls: seq<Attempt>, end: int)
    requires Sane(b) && start <= end && InTurn(start, calls, end)
    ensures Reached(b, calls) <= THRESHOLD + (end - start) / COOLDOWN
  {
    if b.openTill.Until? {
      OpenBound(b, start, calls, end);
    } else {
      ClosedBound(b, start, calls, end);
    }
  }

  /** The bound is attained: five failures at once, then one probe per cooldown. */
  function Probing(at: int, n: nat): seq<Attempt>
    decreases n
  {
    if n == 0 then [] else [Attempt(at, at)] + Probing(at + COOLDOWN, n - 1)
  }

  lemma {:induction false} ProbingReaches(at: int, n: nat)
    ensures InTurn(at - COOLDOWN, Probing(at, n), at - COOLDOWN + n * COOLDOWN)
    ensures Reached(Circuit(0, Until(at), false), Probing(at, n)) == n
    decreases n
  {
    if n > 0 {
      ProbingReaches(at + COOLDOWN, n - 1);
      assert Probing(at, n)[1..] == Probing(at + COOLDOWN, n - 1);
    }
  }

  lemma OutageBoundIsTight(start: int, n: nat)
    ensures exists calls, end ::
              && end == start + n * COOLDOWN && InTurn(start, calls, end)
              && Reached(CLOSED, calls) == THRESHOLD + (end - start) / COOLDOWN
  {
    var now := Attempt(start, start);
    var probes := Probing(start + COOLDOWN, n);
    var end := start + n * COOLDOWN;
    ProbingReaches(start + COOLDOWN, n);
    var b0 := CLOSED;
    var c5 := [now] + probes;
    var c4 := [now] + c5;
    var c3 := [now] + c4;
    var c2 := [now] + c3;
    var c1 := [now] + c2;
    assert c5[1..] == probes && c4[1..] == c5 && c3[1..] == c4 && c2[1..] == c3 && c1[1..] == c2;
    assert Reached(Circuit(4, Zero, false), c5) == 1 + n;
    assert Reached(Circuit(3, Zero, false), c4) == 2 + n;
    assert Reached(Circuit(2, Zero, false), c3) == 3 + n;
    assert Reached(Circuit(1, Zero, false), c2) == 4 + n;
    assert Reached(CLOSED, c1) == 5 + n;
    assert InTurn(start, c5, end) && InTurn(start, c4, end) && InTurn(start, c3, end);
    assert InTurn(start, c2, end) && InTurn(start, c1, end);
  }
}
