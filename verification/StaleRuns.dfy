/** Runs of the fleet on instants that lie in the past: what Fleet's bounds cannot do
    without, and when a local refusal as of an old instant is still sound. */
module StaleRuns {
  import opened Reals
  import opened Buckets
  import opened Fleet

  lemma Then(s: State, xs: seq<Event>, e: Event)
    requires Legal(s, xs) && Enabled(Exec(s, xs), e)
    ensures Legal(s, xs + [e]) && Exec(s, xs + [e]) == Apply(Exec(s, xs), e)
  {
    assert [e][1..] == [];
    ExecJoins(s, xs, [e]);
  }

  // ------------------------------------------------ what the bounds cannot do without

  const QUOTA := Quota(0.1, 2)
  const SLOW := Quota(0.1, 1)
  const T: int := 10 * SECOND

  /** One shadow's level, the clock, and how many calls shadow 0 admitted by `end`. */
  predicate Stands(s: State, level: Level, now: int, end: int, admitted: nat) {
    && 0 in s.shadows && s.shadows[0] == level && s.now == now && Usable(level.quota)
    && Count(s.calls, Admitted({0}, end)) == admitted
  }

  /** The run acts on buckets as of no instant before t. */
  predicate NotBefore(es: seq<Event>, t: int) {
    forall i :: 0 <= i < |es| && (es[i].Begin? || es[i].Cancel? || es[i].Release?) ==> es[i].at >= t
  }

  lemma {:induction false} NoEdge(s: State, es: seq<Event>, b: Id, start: int)
    requires Legal(s, es) && NotBefore(es, start)
    ensures EdgeIn(s, es, b, start) == 0
    decreases |es|
  {
    if es != [] {
      NoEdge(Apply(s, es[0]), es[1..], b, start);
    }
  }

  lemma {:induction false} RewindsJoin(s: State, xs: seq<Event>, ys: seq<Event>, b: Id)
    requires Legal(s, xs) && Legal(Exec(s, xs), ys) && Legal(s, xs + ys)
    ensures RewindsIn(s, xs + ys, b) == RewindsIn(s, xs, b) + RewindsIn(Exec(s, xs), ys, b)
    decreases |xs|
  {
    if xs == [] {
      assert xs + ys == ys;
    } else {
      assert (xs + ys)[0] == xs[0] && (xs + ys)[1..] == xs[1..] + ys;
      RewindsJoin(Apply(s, xs[0]), xs[1..], ys, b);
    }
  }

  lemma Reserves(s: State, level: Level, now: int, end: int, admitted: nat, c: Id, at: int)
    requires Stands(s, level, now, end, admitted) && c !in s.calls && at <= now
    ensures Enabled(s, Begin(c, 0, at))
    ensures Stands(Apply(s, Begin(c, 0, at)), Reserved(level, at), now, end, admitted)
    ensures Apply(s, Begin(c, 0, at)).calls == s.calls[c := Call(0, TicketAt(level, at), Held)]
  {
    CountUpdate(s.calls, c, Call(0, TicketAt(level, at), Held), Admitted({0}, end));
  }

  lemma Settles(s: State, level: Level, now: int, end: int, admitted: nat, c: Id, e: Event, status: Status)
    requires Stands(s, level, now, end, admitted) && c in s.calls && s.calls[c].bucket == 0 && Enabled(s, e)
    requires (e == Fail(c, false) && status == Failed) || (e == Doom(c) && status == Doomed)
    ensures Stands(Apply(s, e), level, now, end, admitted)
    ensures Apply(s, e).calls == s.calls[c := s.calls[c].(status := status)]
  {
    assert !Holds(Admitted({0}, end), s.calls[c]);
    CountUpdate(s.calls, c, s.calls[c].(status := status), Admitted({0}, end));
  }

  lemma LetsIn(s: State, level: Level, now: int, end: int, admitted: nat, c: Id)
    requires Stands(s, level, now, end, admitted) && CallIn(s, c, Failed) && s.calls[c].bucket == 0
    requires !s.calls[c].ticket.DelayedAt(end)
    ensures Stands(Apply(s, Admit(c)), level, now, end, admitted + 1)
    ensures Apply(s, Admit(c)).calls == s.calls[c := s.calls[c].(status := Fallback)]
  {
    CountUpdate(s.calls, c, s.calls[c].(status := Fallback), Admitted({0}, end));
  }

  lemma PutsBack(s: State, level: Level, now: int, end: int, admitted: nat, c: Id, at: int)
    requires Stands(s, level, now, end, admitted) && CallIn(s, c, Doomed) && s.calls[c].bucket == 0
    requires at <= now && InTime(s.calls[c].ticket, at)
    ensures Stands(Apply(s, Cancel(c, at)), Cancelled(level, s.calls[c].ticket, at), now, end, admitted)
    ensures Apply(s, Cancel(c, at)).calls == s.calls[c := s.calls[c].(status := Returned)]
  {
    CountUpdate(s.calls, c, s.calls[c].(status := Returned), Admitted({0}, end));
  }

  /** A call that finds a token as of instant `at`, gets no answer and falls back. */
  lemma FallsBack(s: State, level: Level, now: int, admitted: nat, c: Id, at: int) returns (es: seq<Event>)
    requires Stands(s, level, now, now, admitted) && TokensAt(level, at) >= 1.0 && c !in s.calls && at <= now
    ensures Legal(s, es) && Stands(Exec(s, es), Reserved(level, at), now, now, admitted + 1)
    ensures Exec(s, es).calls == s.calls[c := Call(0, TicketAt(level, at), Fallback)]
    ensures es == [Begin(c, 0, at)] + [Fail(c, false)] + [Admit(c)]
  {
    var e1, e2, e3 := Begin(c, 0, at), Fail(c, false), Admit(c);
    var left := Reserved(level, at);
    Reserves(s, level, now, now, admitted, c, at);
    ReadyAtOnce(level, at);
    var s1 := Apply(s, e1);
    Settles(s1, left, now, now, admitted, c, e2, Failed);
    var s2 := Apply(s1, e2);
    LetsIn(s2, left, now, now, admitted, c);
    assert [e1][1..] == [];
    Then(s, [e1], e2);
    Then(s, [e1] + [e2], e3);
    es := [e1] + [e2] + [e3];
  }

  lemma {:induction false} NoRewinds(s: State, es: seq<Event>, b: Id)
    requires Legal(s, es) && forall i :: 0 <= i < |es| ==> !es[i].Begin? && !es[i].Cancel? && !es[i].Release?
    ensures RewindsIn(s, es, b) == 0
    decreases |es|
  {
    if es != [] {
      NoRewinds(Apply(s, es[0]), es[1..], b);
    }
  }

  lemma FallingRewinds(s: State, c: Id, at: int, es: seq<Event>)
    requires Legal(s, es) && es == [Begin(c, 0, at)] + [Fail(c, false)] + [Admit(c)]
    ensures RewindsIn(s, es, 0) == Rewind(s, es[0], 0)
  {
    NoRewinds(Apply(s, es[0]), es[1..], 0);
  }

  lemma ReadyAtOnce(level: Level, at: int)
    requires TokensAt(level, at) >= 1.0
    ensures TicketAt(level, at).ok ==> TicketAt(level, at).ready == At(at as real)
  {
  }

  /** A full shadow on its own, `after` the start. */
  lemma Opening(q: Quota, after: nat, end: int) returns (s: State)
    requires Usable(q)
    ensures Reachable(s) && Quiet(s, 0) && Stands(s, Fresh(q), after, end, 0) && s.calls == map[]
    ensures s.backend == Fresh(q)
  {
    var es := [Attach(0, 0), Tick(after)];
    var s1 := Apply(Init(q, 0), Attach(0, 0));
    s := Apply(s1, Tick(after));
    assert es[1..] == [Tick(after)] && es[1..][1..] == [];
    assert Legal(s, []) && Legal(s1, es[1..]) && Exec(s1, es[1..]) == s;
    assert Legal(Init(q, 0), es) && Exec(Init(q, 0), es) == s;
    assert Matching(s.calls, Unsettled(0)) == {} && Matching(s.calls, Pending(0, s.now)) == {};
    assert Matching(s.calls, Admitted({0}, end)) == {};
  }

  /** Two calls reserve at instant 0 */
  lemma TwoReserve(s: State) returns (es: seq<Event>)
    requires Stands(s, Fresh(QUOTA), 0, T, 0) && s.calls == map[]
    ensures Legal(s, es) && Stands(Exec(s, es), Level(0.0, 0, QUOTA), 0, T, 0) && NotBefore(es, 0)
    ensures Exec(s, es).calls == map[0 := GivenUp.(status := Held), 1 := GivenUp.(status := Held)]
  {
    var k := Ticket(true, 0, At(0.0));
    Reserves(s, Fresh(QUOTA), 0, T, 0, 0, 0);
    assert Reserved(Fresh(QUOTA), 0) == Level(1.0, 0, QUOTA) && TicketAt(Fresh(QUOTA), 0) == k;
    es := [Begin(0, 0, 0)];
    assert es[1..] == [];
    Reserves(Exec(s, es), Level(1.0, 0, QUOTA), 0, T, 0, 1, 0);
    assert Reserved(Level(1.0, 0, QUOTA), 0) == Level(0.0, 0, QUOTA) && TicketAt(Level(1.0, 0, QUOTA), 0) == k;
    Then(s, es, Begin(1, 0, 0));
    es := es + [Begin(1, 0, 0)];
  }

  /** ... and are refused; ten seconds pass. */
  lemma Refused(s: State) returns (es: seq<Event>)
    requires Stands(s, Fresh(QUOTA), 0, T, 0) && s.calls == map[]
    ensures Legal(s, es) && Stands(Exec(s, es), Level(0.0, 0, QUOTA), T, T, 0) && NotBefore(es, 0)
    ensures Exec(s, es).calls == map[0 := GivenUp, 1 := GivenUp]
  {
    es := TwoReserve(s);
    Settles(Exec(s, es), Level(0.0, 0, QUOTA), 0, T, 0, 0, Doom(0), Doomed);
    Then(s, es, Doom(0));
    es := es + [Doom(0)];
    Settles(Exec(s, es), Level(0.0, 0, QUOTA), 0, T, 0, 1, Doom(1), Doomed);
    Then(s, es, Doom(1));
    es := es + [Doom(1)];
    Then(s, es, Tick(T));
    es := es + [Tick(T)];
  }

  const GivenUp := Call(0, Ticket(true, 0, At(0.0)), Doomed)

  /** And then, at instant T, four calls are let through by the fallback while the two
      refused ones give their reservations back as of instant 0. */
  lemma Spree(s: State) returns (es: seq<Event>)
    requires Stands(s, Level(0.0, 0, QUOTA), T, T, 0) && s.calls == map[0 := GivenUp, 1 := GivenUp]
    ensures Legal(s, es) && Stands(Exec(s, es), Level(0.0, T, QUOTA), T, T, 4) && NotBefore(es, 0)
  {
    var one := Round(s, Level(0.0, 0, QUOTA), 0, 0, 2);
    var two := Round(Exec(s, one), Level(1.0, 0, QUOTA), 1, 1, 3);
    ExecJoins(s, one, two);
    es := one + two;
    var more := Twice(Exec(s, es));
    ExecJoins(s, es, more);
    es := es + more;
  }

  lemma Twice(s: State) returns (es: seq<Event>)
    requires Stands(s, Level(2.0, 0, QUOTA), T, T, 2) && 4 !in s.calls && 5 !in s.calls
    ensures Legal(s, es) && Stands(Exec(s, es), Level(0.0, T, QUOTA), T, T, 4) && NotBefore(es, T)
  {
    assert Reserved(Level(2.0, 0, QUOTA), T) == Level(1.0, T, QUOTA);
    assert Reserved(Level(1.0, T, QUOTA), T) == Level(0.0, T, QUOTA);
    var three := FallsBack(s, Level(2.0, 0, QUOTA), T, 2, 4, T);
    var four := FallsBack(Exec(s, three), Level(1.0, T, QUOTA), T, 3, 5, T);
    ExecJoins(s, three, four);
    es := three + four;
  }

  /** One admission, then one of the old reservations put back. */
  lemma Round(s: State, level: Level, admitted: nat, first: Id, c: Id) returns (es: seq<Event>)
    requires Stands(s, level, T, T, admitted) && level.last == 0 && level.quota == QUOTA && 0.0 <= level.tokens <= 1.0
    requires CallIn(s, first, Doomed) && s.calls[first] == GivenUp && c !in s.calls
    ensures Legal(s, es) && Stands(Exec(s, es), Level(level.tokens + 1.0, 0, QUOTA), T, T, admitted + 1)
    ensures forall d :: d in s.calls && d != first ==> d in Exec(s, es).calls && Exec(s, es).calls[d] == s.calls[d]
    ensures (forall d :: d in Exec(s, es).calls ==> d in s.calls || d == c) && NotBefore(es, 0)
  {
    assert Refill(0.1, T) == 1.0;
    var one := FallsBack(s, level, T, admitted, c, T);
    var s1 := Exec(s, one);
    var left := Level(level.tokens, T, QUOTA);
    assert Reserved(level, T) == left;
    PutsBack(s1, left, T, T, admitted + 1, first, 0);
    Then(s, one, Cancel(first, 0));
    es := one + [Cancel(first, 0)];
  }

  /** The rewinds count: over ten seconds at 0.1 a second, with a burst of two and no
      instant from before the window, the bucket lets four calls through, one more than
      burst + rate * W. */
  lemma StaleCancelsAdmitMore()
    ensures exists s, es ::
              && Reachable(s) && Legal(s, es) && Quiet(s, 0) && EdgeIn(s, es, 0, s.now) == 0
              && Growth(s, Exec(s, es), {0}) as real > Allowance(s, Exec(s, es), 0)
  {
    var s := Opening(QUOTA, 0, T);
    var xs := Refused(s);
    var ys := Spree(Exec(s, xs));
    ExecJoins(s, xs, ys);
    NoEdge(s, xs + ys, 0, 0);
    var end := Exec(s, xs + ys);
    assert Matching(s.calls, Admitted({0}, 0)) == {};
    assert Growth(s, end, {0}) == 4;
    assert Allowance(s, end, 0) == 3.0;
  }

  /** At one instant two calls fall back, the first as of ten seconds ago. */
  lemma TwoAtOnce() returns (s: State, es: seq<Event>)
    ensures Reachable(s) && Legal(s, es) && Quiet(s, 0) && Stands(s, Fresh(SLOW), T, T, 0) && s.backend == Fresh(SLOW)
    ensures Stands(Exec(s, es), Level(0.0, T, SLOW), T, T, 2) && RewindsIn(s, es, 0) == 0 && NotBefore(es, 0)
  {
    s := Opening(SLOW, T, T);
    assert Refill(0.1, T) == 1.0 && Refill(0.1, 0) == 0.0;
    assert Reserved(Fresh(SLOW), 0) == Level(0.0, 0, SLOW);
    assert Reserved(Level(0.0, 0, SLOW), T) == Level(0.0, T, SLOW);
    var xs := FallsBack(s, Fresh(SLOW), T, 0, 0, 0);
    var ys := FallsBack(Exec(s, xs), Level(0.0, 0, SLOW), T, 1, 1, T);
    ExecJoins(s, xs, ys);
    FallingRewinds(s, 0, 0, xs);
    FallingRewinds(Exec(s, xs), 1, T, ys);
    RewindsJoin(s, xs, ys, 0);
    es := xs + ys;
  }

  /** And so does the edge, which is attained: in no time at all, with a burst of one and no
      update behind another, two calls are let through, one of them as of an instant ten
      seconds old. */
  lemma StaleReadingsAdmitMore()
    ensures exists s, es ::
              && Reachable(s) && Legal(s, es) && Quiet(s, 0) && Exec(s, es).now == s.now && RewindsIn(s, es, 0) == 0
              && Growth(s, Exec(s, es), {0}) as real > Allowance(s, Exec(s, es), 0)
              && Growth(s, Exec(s, es), {0}) as real == Allowance(s, Exec(s, es), EdgeIn(s, es, 0, s.now))
  {
    var s, es := TwoAtOnce();
    var end := Exec(s, es);
    assert Refill(0.1, T) == 1.0 && Refill(0.1, 0) == 0.0;
    assert Growth(s, end, {0}) == 2 && Allowance(s, end, 0) == 1.0 && Allowance(s, end, T) == 2.0;
    BucketGrowsAtMost(s, es, 0);
    EdgeAtMost(s, es, 0, T, 0);
    AllowanceGrows(s, end, EdgeIn(s, es, 0, T), T);
  }

  lemma {:induction false} EdgeAtMost(s: State, es: seq<Event>, b: Id, start: int, from: int)
    requires Legal(s, es) && NotBefore(es, from) && from <= start
    ensures EdgeIn(s, es, b, start) <= start - from
    decreases |es|
  {
    if es != [] {
      EdgeAtMost(Apply(s, es[0]), es[1..], b, start, from);
    }
  }

  // -------------------------------------------------- refusing as of an old instant

  /** Every token of bucket b and of the backend spent on granted calls. */
  lemma Spend(s: State, b: Id, next: Id, left: nat) returns (es: seq<Event>)
    requires Inv(s) && b in s.shadows && (forall c :: c in s.calls ==> c < next)
    requires Shadow(s, b) == left as real && Backend(s) == left as real && Count(s.calls, Uncharged(b)) == 0
    ensures Legal(s, es) && b in Exec(s, es).shadows && Exec(s, es).now == s.now
    ensures Shadow(Exec(s, es), b) == 0.0 && Backend(Exec(s, es)) == 0.0
    ensures Count(Exec(s, es).calls, Uncharged(b)) == 0
    decreases left
  {
    if left == 0 {
      es := [];
    } else {
      var one := SpendOne(s, b, next);
      var s1 := Exec(s, one);
      RunKeepsInv(s, one);
      var rest := Spend(s1, b, next + 1, left - 1);
      ExecJoins(s, one, rest);
      es := one + rest;
    }
  }

  lemma SpendOne(s: State, b: Id, next: Id) returns (es: seq<Event>)
    requires Inv(s) && b in s.shadows && (forall c :: c in s.calls ==> c < next)
    requires Shadow(s, b) >= 1.0 && Backend(s) >= 1.0 && Count(s.calls, Uncharged(b)) == 0
    ensures Legal(s, es) && b in Exec(s, es).shadows && Exec(s, es).now == s.now
    ensures Shadow(Exec(s, es), b) == Shadow(s, b) - 1.0 && Backend(Exec(s, es)) == Backend(s) - 1.0
    ensures Count(Exec(s, es).calls, Uncharged(b)) == 0 && forall c :: c in Exec(s, es).calls ==> c < next + 1
  {
    var k := Call(b, TicketAt(s.shadows[b], s.now), Held);
    var e1, e2 := Begin(next, b, s.now), Fleet.Ask(next);
    var s1 := Apply(s, e1);
    CountUpdate(s.calls, next, k, Uncharged(b));
    CountUpdate(s1.calls, next, k.(status := Granted), Uncharged(b));
    ReserveReads(s.shadows[b], s.now, s.now);
    ReserveReads(s.backend, s.now, s.now);
    TicketReadyWhenPaid(s.shadows[b], s.now, s.now);
    assert [e1][1..] == [];
    Then(s, [e1], e2);
    es := [e1] + [e2];
  }

  /** The longest span in which no whole token is earned. */
  lemma JustShort(rate: real) returns (x: nat)
    requires rate > 0.0
    ensures Refill(rate, x) < 1.0 <= Refill(rate, x + 1)
  {
    var d := Span(rate, 1.0).Floor;
    SpanInvertsRefill(rate, 1.0, d);
    SpanInvertsRefill(rate, 1.0, d + 1);
    RefillNothing(rate);
    assert Span(rate, 1.0) >= 0.0;
    if Refill(rate, d) < 1.0 {
      x := d;
    } else {
      SpanInvertsRefill(rate, 1.0, d - 1);
      x := d - 1;
    }
  }

  /** A shadow that owes nothing refuses as of an instant `gap` ago. */
  predicate RefusesLate(s: State, b: Id, gap: nat) {
    && b in s.shadows && Count(s.calls, Uncharged(b)) == 0
    && TicketAt(s.shadows[b], s.now - gap).DelayedAt(s.now - gap)
  }

  /** Under quota q no such refusal ever costs a grant. */
  ghost predicate LateRefusalsAreSound(q: Quota, gap: nat) {
    forall s, b {:trigger RefusesLate(s, b, gap)} ::
      Reachable(s) && s.backend.quota == q && RefusesLate(s, b, gap) ==> !BackendHas(s)
  }

  /** Bucket and backend spent together, */
  lemma BothSpent(q: Quota) returns (s: State)
    requires Usable(q)
    ensures Reachable(s) && WellFormed(s) && s.backend.quota == q && 0 in s.shadows
    ensures Shadow(s, 0) == 0.0 && Backend(s) == 0.0 && Count(s.calls, Uncharged(0)) == 0
  {
    var s0 := Opening(q, 0, 0);
    ReachableKeepsInv(s0);
    assert Matching(s0.calls, Uncharged(0)) == {};
    var es := SpendAll(s0, q);
    s := Exec(s0, es);
    RunKeepsInv(s0, es);
    StaysReachable(s0, es);
  }

  lemma ReachesOn(s: State, e: Event)
    requires Reachable(s) && Enabled(s, e)
    ensures Reachable(Apply(s, e))
  {
    OneEvent(s, e);
    StaysReachable(s, [e]);
  }

  lemma LateLevels(s: State, x: nat, gap: nat)
    requires WellFormed(s) && 0 in s.shadows && gap > 0 && Count(s.calls, Uncharged(0)) == 0
    requires Shadow(s, 0) == 0.0 && Backend(s) == 0.0
    requires Refill(s.backend.quota.rate, x) < 1.0 <= Refill(s.backend.quota.rate, x + 1)
    ensures RefusesLate(Apply(s, Tick(x + gap)), 0, gap) && BackendHas(Apply(s, Tick(x + gap)))
  {
    var at := s.now + x;
    ReadsCompose(s.shadows[0], s.now, at);
    ReadsCompose(s.backend, s.now, at + gap);
    RefillMonotone(s.backend.quota.rate, x + 1, x + gap);
    TicketReadyWhenPaid(s.shadows[0], at, at);
    StaleReserveReads(s.shadows[0], at, at);
  }

  /** ... and then time for not quite a token and the gap. */
  lemma LateRefusal(q: Quota, gap: nat) returns (s: State)
    requires Usable(q) && q.rate > 0.0 && gap > 0
    ensures Reachable(s) && s.backend.quota == q && RefusesLate(s, 0, gap) && BackendHas(s)
  {
    var x := JustShort(q.rate);
    var spent := BothSpent(q);
    s := Apply(spent, Tick(x + gap));
    LateLevels(spent, x, gap);
    ReachesOn(spent, Tick(x + gap));
  }

  lemma SpendAll(s: State, q: Quota) returns (es: seq<Event>)
    requires Inv(s) && s.calls == map[] && s.backend == Fresh(q) && Stands(s, Fresh(q), s.now, 0, 0)
    requires Count(s.calls, Uncharged(0)) == 0
    ensures Legal(s, es) && 0 in Exec(s, es).shadows && Exec(s, es).now == s.now
    ensures Shadow(Exec(s, es), 0) == 0.0 && Backend(Exec(s, es)) == 0.0
    ensures Count(Exec(s, es).calls, Uncharged(0)) == 0
  {
    FreshIsFull(q, s.now);
    es := Spend(s, 0, 0, q.burst);
  }

  /** A refusal as of an instant `gap` ago proves in every reachable state that the backend
      would have refused if and only if the key earns nothing or the gap is none. */
  lemma LateRefusalsAreSoundWhen(q: Quota, gap: nat)
    requires Usable(q)
    ensures LateRefusalsAreSound(q, gap) <==> q.rate == 0.0 || gap == 0
  {
    if q.rate == 0.0 || gap == 0 {
      forall s, b | Reachable(s) && s.backend.quota == q && RefusesLate(s, b, gap)
        ensures !BackendHas(s)
      {
        LocalRefusalIsSound(s, b, s.now - gap);
        assert Refill(q.rate, gap) == 0.0;
      }
    } else {
      var s := LateRefusal(q, gap);
      assert RefusesLate(s, 0, gap);
    }
  }
}
