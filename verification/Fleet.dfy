/** The shared quota across a fleet: any number of replicas, each consulting local
    shadow buckets that may only refuse, and one backend that grants.

    Every atomic operation the code performs on a bucket or the backend is one
    event, so an execution is a sequence of events and any interleaving of calls
    is one. One key, one fixed quota, one clock. */
module Fleet {
  import opened Reals
  import opened Buckets

  type Id = nat

  /** Where one call stands after reserving on a shadow. */
  datatype Status =
    | Held       // reserved; the backend has not answered
    | Failed     // no answer: backend error, open breaker, caller or owner gone
    | Doomed     // refused one way or another; its reservation is still to be cancelled
    | Returned   // cancelled
    | Lost       // given up after its time: spent and of no use to anybody
    | Granted    // admitted by the backend
    | Fallback   // admitted by the failure policy without the backend
    | Late       // Reserve kept a delayed token: OK, and the backend was never asked

  datatype Call = Call(bucket: Id, ticket: Ticket, status: Status)

  /** `shadows` holds every bucket object ever created, including those no longer in
      any registry but still referenced by calls in flight; `current` is each
      replica's registered one. `grants` counts tokens the backend gave out. */
  datatype State = State(
    now: int,
    backend: Level,
    shadows: map<Id, Level>,
    current: map<Id, Id>,
    calls: map<Id, Call>,
    grants: nat)

  datatype Event =
    | Tick(span: nat)
    | Attach(replica: Id, bucket: Id)    // first sight of the key: a full bucket
    | Drop(replica: Id)                  // sweep, Evict or DropAll forget it
    | Begin(call: Id, bucket: Id, at: int) // ReserveAt, at a clock reading taken then or before
    | Ask(call: Id)                      // Take answered, granting or refusing
    | Fail(call: Id, charged: bool)      // Take not answered, charged or not
    | Admit(call: Id)                    // FallbackLocal or Allow let a failed call through
    | Doom(call: Id)                     // Deny, abandoned, delayed Allow, interrupted sleep
    | Cancel(call: Id, at: int)          // CancelAt, as of a clock reading likewise
    | KeepLate(call: Id)                 // Reserve returns OK with a positive delay
    | Release(call: Id, at: int)         // Reservation.Cancel, at a clock reading likewise
    | WaitGrant                          // a parking backend served a caller directly
    | WaveThrough                        // it did not answer, and Allow let its caller through
    | Stray                              // it charged a caller whom the answer never reached

  function Init(q: Quota, now: int): State {
    State(now, Fresh(q), map[], map[], map[], 0)
  }

  /** The backend's contract: charge one token if it holds one, else nothing. */
  predicate BackendHas(s: State) {
    TokensAt(s.backend, s.now) >= 1.0
  }

  function Charged(s: State): State {
    s.(backend := Reserved(s.backend, s.now), grants := s.grants + 1)
  }

  predicate CallIn(s: State, c: Id, status: Status) {
    c in s.calls && s.calls[c].status == status && s.calls[c].bucket in s.shadows
  }

  predicate Enabled(s: State, e: Event) {
    match e
    case Tick(_) => true
    case Attach(r, b) => r !in s.current && b !in s.shadows
    case Drop(r) => r in s.current
    case Begin(c, b, at) => c !in s.calls && b in s.shadows && at <= s.now
    case Ask(c) => CallIn(s, c, Held) && !s.calls[c].ticket.DelayedAt(s.now)
    case Fail(c, charged) =>
      CallIn(s, c, Held) && !s.calls[c].ticket.DelayedAt(s.now) && (charged ==> BackendHas(s))
    case Admit(c) => CallIn(s, c, Failed)
    case Doom(c) => CallIn(s, c, Failed) || CallIn(s, c, Held)
    case Cancel(c, at) => at <= s.now && CallIn(s, c, Doomed)
    case KeepLate(c) => CallIn(s, c, Held) && s.calls[c].ticket.DelayedAt(s.calls[c].ticket.taken)
    case Release(c, at) =>
      at <= s.now && (CallIn(s, c, Granted) || CallIn(s, c, Fallback) || CallIn(s, c, Late))
    case WaitGrant => BackendHas(s)
    case WaveThrough => true
    case Stray => BackendHas(s)
  }

  function WithStatus(s: State, c: Id, status: Status): State
    requires c in s.calls
  {
    s.(calls := s.calls[c := s.calls[c].(status := status)])
  }

  /** Cancel call c's reservation as of instant t. A cancel that comes too late
      changes nothing and leaves the call's status alone. */
  function Refund(s: State, c: Id, t: int): State
    requires c in s.calls && s.calls[c].bucket in s.shadows
  {
    var k := s.calls[c].ticket;
    var b := s.calls[c].bucket;
    if InTime(k, t) then WithStatus(s, c, Returned).(shadows := s.shadows[b := Cancelled(s.shadows[b], k, t)]) else s
  }

  function Apply(s: State, e: Event): State
    requires Enabled(s, e)
  {
    match e
    case Tick(d) => s.(now := s.now + d)
    case Attach(r, b) =>
      s.(shadows := s.shadows[b := Fresh(s.backend.quota)], current := s.current[r := b])
    case Drop(r) => s.(current := s.current - {r})
    case Begin(c, b, at) =>
      s.(shadows := s.shadows[b := Reserved(s.shadows[b], at)],
         calls := s.calls[c := Call(b, TicketAt(s.shadows[b], at), Held)])
    case Ask(c) =>
      if BackendHas(s) then Charged(WithStatus(s, c, Granted)) else WithStatus(s, c, Doomed)
    case Fail(c, charged) =>
      if charged then Charged(WithStatus(s, c, Failed)) else WithStatus(s, c, Failed)
    case Admit(c) => WithStatus(s, c, Fallback)
    case Doom(c) => WithStatus(s, c, Doomed)
    case Cancel(c, at) => if InTime(s.calls[c].ticket, at) then Refund(s, c, at) else WithStatus(s, c, Lost)
    case KeepLate(c) => WithStatus(s, c, Late)
    case Release(c, at) => Refund(s, c, at)
    case WaitGrant => Charged(s)
    case WaveThrough => s
    case Stray => Charged(s)
  }

  predicate Legal(s: State, es: seq<Event>)
    decreases |es|
  {
    es == [] || (Enabled(s, es[0]) && Legal(Apply(s, es[0]), es[1..]))
  }

  function Exec(s: State, es: seq<Event>): State
    requires Legal(s, es)
    decreases |es|
  {
    if es == [] then s else Exec(Apply(s, es[0]), es[1..])
  }

  lemma {:induction false} ExecJoins(s: State, xs: seq<Event>, ys: seq<Event>)
    requires Legal(s, xs) && Legal(Exec(s, xs), ys)
    ensures Legal(s, xs + ys) && Exec(s, xs + ys) == Exec(Exec(s, xs), ys)
    decreases |xs|
  {
    if xs == [] {
      assert xs + ys == ys;
    } else {
      assert (xs + ys)[0] == xs[0] && (xs + ys)[1..] == xs[1..] + ys;
      ExecJoins(Apply(s, xs[0]), xs[1..], ys);
    }
  }

  ghost predicate Reachable(s: State) {
    exists q, t, es :: Usable(q) && t >= ZERO_TIME && Legal(Init(q, t), es) && s == Exec(Init(q, t), es)
  }

  lemma OneEvent(s: State, e: Event)
    requires Enabled(s, e)
    ensures Legal(s, [e]) && Exec(s, [e]) == Apply(s, e)
  {
    assert [e][1..] == [];
  }

  lemma StaysReachable(s: State, run: seq<Event>)
    requires Reachable(s) && Legal(s, run)
    ensures Reachable(Exec(s, run))
  {
    var q, t, es :| Usable(q) && t >= ZERO_TIME && Legal(Init(q, t), es) && s == Exec(Init(q, t), es);
    ExecJoins(Init(q, t), es, run);
  }

  // ------------------------------------------------------------- what is counted

  /** A class of calls, for counting. */
  datatype Query =
    | Unsettled(b: Id)               // reservations on b still to be settled
    | Uncharged(b: Id)               // tokens of b the backend was not (yet) charged for
    | Kept(bs: set<Id>)              // tokens of the buckets bs kept
    | Waiting(bs: set<Id>, u: int)   // ... and not yet usable at u
    | Pending(b: Id, u: int)         // tokens of b out, not yet usable at u
    | Admitted(bs: set<Id>, u: int)  // tokens of the buckets bs kept and usable at u
    | Out(b: Id)                     // tokens of b taken, neither returned nor lost

  /** Let through, on whatever grounds. */
  predicate IsKept(status: Status) {
    status.Granted? || status.Fallback? || status.Late?
  }

  predicate IsOut(status: Status) {
    !status.Returned? && !status.Lost?
  }

  predicate Holds(q: Query, k: Call) {
    match q
    case Unsettled(b) => k.bucket == b && (k.status.Held? || k.status.Failed? || k.status.Doomed?)
    case Uncharged(b) => k.bucket == b && !k.status.Returned? && !k.status.Granted?
    case Kept(bs) => k.bucket in bs && IsKept(k.status)
    case Waiting(bs, u) => k.bucket in bs && IsKept(k.status) && k.ticket.DelayedAt(u)
    case Pending(b, u) => k.bucket == b && IsOut(k.status) && k.ticket.DelayedAt(u)
    case Admitted(bs, u) => k.bucket in bs && IsKept(k.status) && !k.ticket.DelayedAt(u)
    case Out(b) => k.bucket == b && IsOut(k.status)
  }

  function Matching(calls: map<Id, Call>, q: Query): set<Id> {
    set c | c in calls && Holds(q, calls[c])
  }

  function Count(calls: map<Id, Call>, q: Query): nat {
    |Matching(calls, q)|
  }

  function Shadow(s: State, b: Id): real
    requires b in s.shadows
  {
    TokensAt(s.shadows[b], s.now)
  }

  function Backend(s: State): real {
    TokensAt(s.backend, s.now)
  }

  // ------------------------------------------------------------------ invariants

  predicate WellFormed(s: State) {
    && Usable(s.backend.quota)
    && ZERO_TIME <= s.backend.last <= s.now
    && (forall b :: b in s.shadows ==>
          s.shadows[b].quota == s.backend.quota && s.shadows[b].last <= s.now)
    && (forall c :: c in s.calls ==>
          && s.calls[c].bucket in s.shadows && s.calls[c].ticket.ok
          && s.calls[c].ticket.taken <= s.now
          && (s.calls[c].ticket.ready.At? ==> s.calls[c].ticket.ready.ns >= s.calls[c].ticket.taken as real))
    && (forall r :: r in s.current ==> s.current[r] in s.shadows)
  }

  /** ADR 0004's shadowTokens >= sharedTokens, strengthened until it is inductive. */
  predicate ShadowCovers(s: State, b: Id)
    requires b in s.shadows
  {
    Shadow(s, b) + Count(s.calls, Uncharged(b)) as real >= Backend(s)
  }

  /** At every later instant the tokens still waiting for their delay account for
      the whole of what a shadow owes. */
  ghost predicate DebtIsPending(s: State, b: Id)
    requires b in s.shadows
  {
    forall u :: u >= s.now ==> DebtAt(s, b, u)
  }

  ghost predicate Inv(s: State) {
    && WellFormed(s)
    && 0.0 <= Backend(s)
    && forall b :: b in s.shadows ==> ShadowCovers(s, b) && DebtIsPending(s, b)
  }

  // ---------------------------------------------------------------- small lemmas

  lemma BeginWellFormed(s: State, c: Id, b: Id, at: int)
    requires WellFormed(s) && Enabled(s, Begin(c, b, at))
    ensures WellFormed(Apply(s, Begin(c, b, at)))
  {
    TicketReadyWhenPaid(s.shadows[b], at, at);
    TicketNotEarly(s.shadows[b], at);
  }

  lemma StatusWellFormed(s: State, c: Id, status: Status)
    requires WellFormed(s) && c in s.calls
    ensures WellFormed(WithStatus(s, c, status))
  {
  }

  lemma RefundWellFormed(s: State, c: Id, t: int)
    requires WellFormed(s) && c in s.calls && t <= s.now
    ensures WellFormed(Refund(s, c, t))
  {
    StatusWellFormed(s, c, Returned);
  }

  lemma ChargeWellFormed(s: State)
    requires WellFormed(s)
    ensures WellFormed(Charged(s))
  {
  }

  lemma StepWellFormed(s: State, e: Event)
    requires WellFormed(s) && Enabled(s, e)
    ensures WellFormed(Apply(s, e))
  {
    match e {
      case Begin(c, b, at) => BeginWellFormed(s, c, b, at);
      case Ask(c) =>
        StatusWellFormed(s, c, if BackendHas(s) then Granted else Doomed);
        ChargeWellFormed(WithStatus(s, c, Granted));
      case Fail(c, _) =>
        StatusWellFormed(s, c, Failed);
        ChargeWellFormed(WithStatus(s, c, Failed));
      case Admit(c) => StatusWellFormed(s, c, Fallback);
      case Doom(c) => StatusWellFormed(s, c, Doomed);
      case KeepLate(c) => StatusWellFormed(s, c, Late);
      case Cancel(c, at) =>
        RefundWellFormed(s, c, at);
        StatusWellFormed(s, c, Lost);
      case Release(c, at) => RefundWellFormed(s, c, at);
      case WaitGrant => ChargeWellFormed(s);
      case Stray => ChargeWellFormed(s);
      case _ =>
    }
  }

  lemma StepOnward(s: State, e: Event)
    requires Enabled(s, e)
    ensures Apply(s, e).backend.quota == s.backend.quota
    ensures Apply(s, e).now >= s.now && s.shadows.Keys <= Apply(s, e).shadows.Keys
  {
  }

  /** What an event does to the backend's count at the new instant. */
  lemma StepBackend(s: State, e: Event)
    requires WellFormed(s) && Enabled(s, e) && 0.0 <= Backend(s)
    ensures var s' := Apply(s, e);
            var charged := if s'.grants > s.grants then 1.0 else 0.0;
            && s.grants <= s'.grants <= s.grants + 1
            && 0.0 <= Backend(s')
            && Backend(s') == Min(s.backend.quota.burst as real,
                 Backend(s) - charged + Refill(s.backend.quota.rate, s'.now - s.now))
  {
    assert Refill(s.backend.quota.rate, 0) == 0.0;
    ReserveReads(s.backend, s.now, s.now);
    match e {
      case Tick(d) =>
        ReadsCompose(s.backend, s.now, s.now + d);
        RefillMonotone(s.backend.quota.rate, 0, d);
      case _ =>
    }
  }

  lemma CountUpdate(calls: map<Id, Call>, c: Id, k: Call, q: Query)
    ensures Count(calls[c := k], q)
            == Count(calls, q) - (if c in calls && Holds(q, calls[c]) then 1 else 0) + (if Holds(q, k) then 1 else 0)
  {
    if Holds(q, k) {
      CountGains(calls, c, k, q);
    } else {
      CountLoses(calls, c, k, q);
    }
  }

  lemma CountGains(calls: map<Id, Call>, c: Id, k: Call, q: Query)
    requires Holds(q, k)
    ensures Count(calls[c := k], q) == Count(calls, q) + if c in Matching(calls, q) then 0 else 1
  {
    var now, was := Matching(calls[c := k], q), Matching(calls, q);
    forall d
      ensures d in now <==> d in was + {c}
    {
    }
    assert now == was + {c};
  }

  lemma CountLoses(calls: map<Id, Call>, c: Id, k: Call, q: Query)
    requires !Holds(q, k)
    ensures Count(calls[c := k], q) == Count(calls, q) - if c in Matching(calls, q) then 1 else 0
  {
    var now, was := Matching(calls[c := k], q), Matching(calls, q);
    forall d
      ensures d in now <==> d in was - {c}
    {
    }
    assert now == was - {c};
  }

  lemma SubsetSize(a: set<Id>, b: set<Id>)
    requires a <= b
    ensures |a| <= |b|
  {
    assert b == a + (b - a);
  }

  lemma CancelEffect(s: State, c: Id, t: int, u: int)
    requires WellFormed(s) && c in s.calls && t <= s.now <= u && InTime(s.calls[c].ticket, t)
    ensures var b := s.calls[c].bucket;
            && TokensAt(Refund(s, c, t).shadows[b], u)
               == Min(s.backend.quota.burst as real, TokensAt(s.shadows[b], u) + 1.0 + Behind(s.shadows[b], t))
            && Behind(s.shadows[b], t) >= 0.0
  {
    CancelReads(s.shadows[s.calls[c].bucket], s.calls[c].ticket, t, u);
    BehindIsPositive(s.shadows[s.calls[c].bucket], t);
  }

  /** Time passing helps both counts alike until the cap, where both agree. */
  lemma TickCovers(s: State, d: nat, b: Id)
    requires Inv(s) && b in s.shadows
    ensures ShadowCovers(Apply(s, Tick(d)), b)
  {
    StepBackend(s, Tick(d));
    ReadsCompose(s.shadows[b], s.now, s.now + d);
  }

  /** A reservation moves one token from the shadow to the uncharged. */
  lemma BeginCovers(s: State, c: Id, b: Id, b': Id, at: int)
    requires Inv(s) && Enabled(s, Begin(c, b', at)) && b in s.shadows
    ensures ShadowCovers(Apply(s, Begin(c, b', at)), b)
  {
    CountUpdate(s.calls, c, Call(b', TicketAt(s.shadows[b'], at), Held), Uncharged(b));
    StaleReserveReads(s.shadows[b'], at, s.now);
  }

  /** Cancelling moves it back; at the cap the shadow is full and covers anything. */
  lemma RefundCovers(s: State, c: Id, t: int, b: Id)
    requires Inv(s) && c in s.calls && t <= s.now && b in s.shadows
    requires s.calls[c].status != Returned
    ensures ShadowCovers(Refund(s, c, t), b)
  {
    var k := s.calls[c];
    if InTime(k.ticket, t) {
      CountUpdate(s.calls, c, k.(status := Returned), Uncharged(b));
      CancelEffect(s, c, t, s.now);
    }
  }

  /** A status change that leaves the backend alone and the token uncharged. */
  lemma StatusCovers(s: State, c: Id, status: Status, b: Id)
    requires Inv(s) && c in s.calls && b in s.shadows
    requires s.calls[c].status in {Held, Failed, Doomed, Fallback, Late}
    requires status in {Held, Failed, Doomed, Fallback, Late, Lost}
    ensures ShadowCovers(WithStatus(s, c, status), b)
  {
    CountUpdate(s.calls, c, s.calls[c].(status := status), Uncharged(b));
  }

  lemma ChargeCovers(s: State, b: Id)
    requires WellFormed(s) && b in s.shadows && BackendHas(s)
    requires Shadow(s, b) + Count(s.calls, Uncharged(b)) as real >= Backend(s) - 1.0
    ensures ShadowCovers(Charged(s), b)
  {
    ReserveReads(s.backend, s.now, s.now);
  }

  /** The backend's answer: a grant charges both sides, a refusal neither. */
  lemma AskCovers(s: State, c: Id, b: Id)
    requires Inv(s) && Enabled(s, Ask(c)) && b in s.shadows
    ensures ShadowCovers(Apply(s, Ask(c)), b)
  {
    if BackendHas(s) {
      CountUpdate(s.calls, c, s.calls[c].(status := Granted), Uncharged(b));
      ChargeCovers(WithStatus(s, c, Granted), b);
    } else {
      StatusCovers(s, c, Doomed, b);
    }
  }

  lemma FailCovers(s: State, c: Id, charged: bool, b: Id)
    requires Inv(s) && Enabled(s, Fail(c, charged)) && b in s.shadows
    ensures ShadowCovers(Apply(s, Fail(c, charged)), b)
  {
    StatusCovers(s, c, Failed, b);
    if charged {
      ChargeCovers(WithStatus(s, c, Failed), b);
    }
  }

  lemma AttachCovers(s: State, r: Id, b: Id, b': Id)
    requires Inv(s) && Enabled(s, Attach(r, b')) && b in Apply(s, Attach(r, b')).shadows
    ensures ShadowCovers(Apply(s, Attach(r, b')), b)
  {
    FreshIsFull(s.backend.quota, s.now);
    if b in s.shadows {
      assert ShadowCovers(s, b);
    }
  }

  lemma CancelCovers(s: State, c: Id, at: int, b: Id)
    requires Inv(s) && Enabled(s, Cancel(c, at)) && b in s.shadows
    ensures ShadowCovers(Apply(s, Cancel(c, at)), b)
  {
    if InTime(s.calls[c].ticket, at) {
      RefundCovers(s, c, at, b);
    } else {
      StatusCovers(s, c, Lost, b);
    }
  }

  lemma SettlingCovers(s: State, e: Event, b: Id)
    requires Inv(s) && Enabled(s, e) && Settling(e) && b in s.shadows
    ensures b in Apply(s, e).shadows && ShadowCovers(Apply(s, e), b)
  {
    match e {
      case Ask(c) => AskCovers(s, c, b);
      case Fail(c, charged) => FailCovers(s, c, charged, b);
      case Admit(c) => StatusCovers(s, c, Fallback, b);
      case Doom(c) => StatusCovers(s, c, Doomed, b);
      case KeepLate(c) => StatusCovers(s, c, Late, b);
      case _ =>
    }
  }

  lemma StepCovers(s: State, e: Event, b: Id)
    requires Inv(s) && Enabled(s, e) && b in Apply(s, e).shadows
    ensures ShadowCovers(Apply(s, e), b)
  {
    if e.Attach? {
      AttachCovers(s, e.replica, b, e.bucket);
    } else if Settling(e) {
      SettlingCovers(s, e, b);
    } else {
      assert ShadowCovers(s, b);
      match e {
        case Tick(d) => TickCovers(s, d, b);
        case Begin(c, b', at) => BeginCovers(s, c, b, b', at);
        case Cancel(c, at) => CancelCovers(s, c, at, b);
        case Release(c, at) => RefundCovers(s, c, at, b);
        case WaitGrant => ChargeCovers(s, b);
        case Stray => ChargeCovers(s, b);
        case _ =>
      }
    }
  }

  ghost predicate DebtAt(s: State, b: Id, u: int)
    requires b in s.shadows
  {
    TokensAt(s.shadows[b], u) + Count(s.calls, Pending(b, u)) as real >= 0.0
  }

  lemma BeginDebt(s: State, c: Id, b: Id, b': Id, at: int, u: int)
    requires Inv(s) && Enabled(s, Begin(c, b', at)) && b in s.shadows && u >= s.now && DebtAt(s, b, u)
    ensures DebtAt(Apply(s, Begin(c, b', at)), b, u)
  {
    CountUpdate(s.calls, c, Call(b', TicketAt(s.shadows[b'], at), Held), Pending(b, u));
    StaleReserveReads(s.shadows[b'], at, u);
    TicketReadyWhenPaid(s.shadows[b'], at, u);
  }

  lemma RefundDebt(s: State, c: Id, t: int, b: Id, u: int)
    requires Inv(s) && c in s.calls && t <= s.now <= u && b in s.shadows && DebtAt(s, b, u)
    ensures DebtAt(Refund(s, c, t), b, u)
  {
    var k := s.calls[c];
    if InTime(k.ticket, t) {
      CountUpdate(s.calls, c, k.(status := Returned), Pending(b, u));
      CancelEffect(s, c, t, u);
    }
  }

  /** A token given up after its time is owed no more. */
  lemma CancelDebt(s: State, c: Id, at: int, b: Id, u: int)
    requires Inv(s) && Enabled(s, Cancel(c, at)) && at <= s.now <= u && b in s.shadows && DebtAt(s, b, u)
    ensures DebtAt(Apply(s, Cancel(c, at)), b, u)
  {
    if InTime(s.calls[c].ticket, at) {
      RefundDebt(s, c, at, b, u);
    } else {
      CountUpdate(s.calls, c, s.calls[c].(status := Lost), Pending(b, u));
    }
  }

  lemma StatusDebt(s: State, c: Id, status: Status, b: Id, u: int)
    requires c in s.calls && b in s.shadows && DebtAt(s, b, u)
    requires IsOut(s.calls[c].status) && IsOut(status)
    ensures DebtAt(WithStatus(s, c, status), b, u)
  {
    CountUpdate(s.calls, c, s.calls[c].(status := status), Pending(b, u));
  }

  /** The events that only change a call's status. */
  predicate Settling(e: Event) {
    e.Ask? || e.Fail? || e.Admit? || e.Doom? || e.KeepLate?
  }

  lemma SettlingDebt(s: State, e: Event, b: Id, u: int)
    requires Enabled(s, e) && Settling(e) && b in s.shadows && DebtAt(s, b, u)
    ensures b in Apply(s, e).shadows && DebtAt(Apply(s, e), b, u)
  {
    match e {
      case Ask(c) => StatusDebt(s, c, if BackendHas(s) then Granted else Doomed, b, u);
      case Fail(c, _) => StatusDebt(s, c, Failed, b, u);
      case Admit(c) => StatusDebt(s, c, Fallback, b, u);
      case Doom(c) => StatusDebt(s, c, Doomed, b, u);
      case KeepLate(c) => StatusDebt(s, c, Late, b, u);
      case _ =>
    }
  }

  lemma StepDebt(s: State, e: Event, b: Id, u: int)
    requires Inv(s) && Enabled(s, e) && b in Apply(s, e).shadows && u >= Apply(s, e).now
    ensures DebtAt(Apply(s, e), b, u)
  {
    if b !in s.shadows {
      FreshIsFull(s.backend.quota, u);
    } else {
      assert DebtIsPending(s, b) && DebtAt(s, b, u);
      if Settling(e) {
        SettlingDebt(s, e, b, u);
      } else if e.Begin? {
        BeginDebt(s, e.call, b, e.bucket, e.at, u);
      } else if e.Cancel? {
        CancelDebt(s, e.call, e.at, b, u);
      } else if e.Release? {
        RefundDebt(s, e.call, e.at, b, u);
      }
    }
  }

  lemma StepKeepsInv(s: State, e: Event)
    requires Inv(s) && Enabled(s, e)
    ensures Inv(Apply(s, e))
  {
    var s' := Apply(s, e);
    StepWellFormed(s, e);
    StepOnward(s, e);
    StepBackend(s, e);
    forall b | b in s'.shadows
      ensures ShadowCovers(s', b) && DebtIsPending(s', b)
    {
      StepCovers(s, e, b);
      forall u | u >= s'.now
        ensures DebtAt(s', b, u)
      {
        StepDebt(s, e, b, u);
      }
    }
  }

  lemma {:induction false} RunKeepsInv(s: State, es: seq<Event>)
    requires Inv(s) && Legal(s, es)
    ensures Inv(Exec(s, es))
    ensures Exec(s, es).backend.quota == s.backend.quota
    ensures Exec(s, es).now >= s.now && s.shadows.Keys <= Exec(s, es).shadows.Keys
    decreases |es|
  {
    if es != [] {
      StepKeepsInv(s, es[0]);
      StepOnward(s, es[0]);
      RunKeepsInv(Apply(s, es[0]), es[1..]);
    }
  }

  lemma ReachableKeepsInv(s: State)
    requires Reachable(s)
    ensures Inv(s)
  {
    var q, t, es :| Usable(q) && t >= ZERO_TIME && Legal(Init(q, t), es) && s == Exec(Init(q, t), es);
    FreshIsFull(q, t);
    RunKeepsInv(Init(q, t), es);
  }

  // ---------------------------------------------------------------- main results

  /** In every reachable state every shadow, dropped or current, holds at least what
      the backend holds less the tokens it gave out uncharged. */
  lemma ShadowsCoverTheBackend(s: State, b: Id)
    requires Reachable(s) && b in s.shadows
    ensures Shadow(s, b) + Count(s.calls, Uncharged(b)) as real >= Backend(s)
  {
    ReachableKeepsInv(s);
  }

  /** A bucket that makes a call wait as of instant t has less than a token then, and by
      now at most what it earned since. */
  lemma RefusalBounds(s: Level, t: int, now: int)
    requires Usable(s.quota) && t <= now && s.last <= now && TicketAt(s, t).DelayedAt(t)
    ensures TokensAt(s, now) < 1.0 + Refill(s.quota.rate, now - t)
  {
    TicketReadyWhenPaid(s, t, t);
    StaleReserveReads(s, t, now);
    RefillNothing(s.quota.rate);
    if t < s.last {
      RefillMonotone(s.quota.rate, 0, s.last - t);
      RefillAdds(s.quota.rate, now - s.last, s.last - t);
      assert now - s.last + (s.last - t) == now - t;
    } else {
      ReadsCompose(s, t, now);
    }
  }

  /** So a local refusal by a shadow that owes nothing, as of a clock reading however old,
      proves that the backend holds less than a token and what was earned since: as of the
      present, that it would have refused, and skipping the round-trip loses no grant. */
  lemma LocalRefusalIsSound(s: State, b: Id, at: int)
    requires Reachable(s) && b in s.shadows && Count(s.calls, Uncharged(b)) == 0
    requires at <= s.now && TicketAt(s.shadows[b], at).DelayedAt(at)
    ensures Backend(s) < 1.0 + Refill(s.backend.quota.rate, s.now - at)
    ensures at == s.now ==> !BackendHas(s)
  {
    ReachableKeepsInv(s);
    assert ShadowCovers(s, b);
    RefusalBounds(s.shadows[b], at, s.now);
    RefillNothing(s.backend.quota.rate);
  }

  /** The cover cannot be improved on: for every number of uncharged tokens some
      reachable shadow falls short of the backend by exactly that many, so the bare
      inequality shadow >= backend fails as soon as one token is outstanding. */
  lemma CoverIsTight(q: Quota, t: int, owed: nat)
    requires Usable(q) && t >= ZERO_TIME
    ensures exists s, b ::
              && Reachable(s) && b in s.shadows && Count(s.calls, Uncharged(b)) == owed
              && Shadow(s, b) + owed as real == Backend(s)
  {
    var s := Apply(Init(q, t), Attach(0, 0));
    FreshIsFull(q, t);
    StepKeepsInv(Init(q, t), Attach(0, 0));
    assert Matching(s.calls, Uncharged(0)) == {};
    var es := Owe(s, 0, 0, owed);
    var all := [Attach(0, 0)] + es;
    assert all[1..] == es;
    assert Legal(Init(q, t), all) && Exec(Init(q, t), all) == Exec(s, es);
    assert Reachable(Exec(s, es));
  }

  lemma Owe(s: State, b: Id, next: Id, owed: nat) returns (es: seq<Event>)
    requires Inv(s) && b in s.shadows && forall c :: c in s.calls ==> c < next
    ensures Legal(s, es) && b in Exec(s, es).shadows
    ensures Backend(Exec(s, es)) == Backend(s)
    ensures Shadow(Exec(s, es), b) == Shadow(s, b) - owed as real
    ensures Count(Exec(s, es).calls, Uncharged(b)) == Count(s.calls, Uncharged(b)) + owed
    decreases owed
  {
    if owed == 0 {
      es := [];
    } else {
      var e := Begin(next, b, s.now);
      CountUpdate(s.calls, next, Call(b, TicketAt(s.shadows[b], s.now), Held), Uncharged(b));
      ReserveReads(s.shadows[b], s.now, s.now);
      StepKeepsInv(s, e);
      var rest := Owe(Apply(s, e), b, next + 1, owed - 1);
      es := [e] + rest;
      assert es[1..] == rest;
    }
  }

  // ------------------------------------------------- a debt a full shadow forgives

  predicate Full(s: State, b: Id) {
    b in s.shadows && Shadow(s, b) >= s.backend.quota.burst as real
  }

  function Less(debt: nat): nat {
    if debt == 0 then 0 else debt - 1
  }

  /** What b owes after an event. A full shadow covers any backend, so it owes nothing,
      however many tokens it once gave out uncharged. */
  function OwedNext(s: State, e: Event, b: Id, debt: nat): nat
    requires Enabled(s, e)
  {
    if Full(Apply(s, e), b) || b !in s.shadows then 0
    else match e
      case Begin(_, b', _) => if b' == b then debt + 1 else debt
      case Ask(c) => if s.calls[c].bucket == b && BackendHas(s) then Less(debt) else debt
      case Cancel(c, at) => OwedRefund(s, c, at, b, debt)
      case Release(c, at) => OwedRefund(s, c, at, b, debt)
      case _ => debt
  }

  function OwedRefund(s: State, c: Id, t: int, b: Id, debt: nat): nat
    requires c in s.calls
  {
    if s.calls[c].bucket == b && InTime(s.calls[c].ticket, t) then Less(debt) else debt
  }

  function Owed(s: State, es: seq<Event>, b: Id, debt: nat): nat
    requires Legal(s, es)
    decreases |es|
  {
    if es == [] then debt else Owed(Apply(s, es[0]), es[1..], b, OwedNext(s, es[0], b, debt))
  }

  predicate DebtCovers(s: State, b: Id, debt: nat) {
    b in s.shadows ==> Shadow(s, b) + debt as real >= Backend(s) && debt <= Count(s.calls, Uncharged(b))
  }

  lemma TickForgives(s: State, d: nat, b: Id, debt: nat)
    requires Inv(s) && DebtCovers(s, b, debt)
    ensures DebtCovers(Apply(s, Tick(d)), b, OwedNext(s, Tick(d), b, debt))
  {
    StepBackend(s, Tick(d));
    if b in s.shadows {
      ReadsCompose(s.shadows[b], s.now, s.now + d);
    }
  }

  lemma BeginForgives(s: State, c: Id, b': Id, at: int, b: Id, debt: nat)
    requires Inv(s) && Enabled(s, Begin(c, b', at)) && DebtCovers(s, b, debt)
    ensures DebtCovers(Apply(s, Begin(c, b', at)), b, OwedNext(s, Begin(c, b', at), b, debt))
  {
    CountUpdate(s.calls, c, Call(b', TicketAt(s.shadows[b'], at), Held), Uncharged(b));
    StaleReserveReads(s.shadows[b'], at, s.now);
  }

  lemma StatusForgives(s: State, c: Id, status: Status, b: Id, debt: nat)
    requires Inv(s) && c in s.calls && DebtCovers(s, b, debt)
    requires s.calls[c].status in {Held, Failed, Doomed, Fallback, Late}
    requires status in {Held, Failed, Doomed, Fallback, Late, Lost}
    ensures DebtCovers(WithStatus(s, c, status), b, debt)
  {
    CountUpdate(s.calls, c, s.calls[c].(status := status), Uncharged(b));
  }

  lemma ChargeForgives(s: State, b: Id, debt: nat)
    requires WellFormed(s) && BackendHas(s) && DebtCovers(s, b, debt)
    ensures DebtCovers(Charged(s), b, debt)
  {
    ReserveReads(s.backend, s.now, s.now);
  }

  lemma GrantForgives(s: State, c: Id, b: Id, debt: nat)
    requires Inv(s) && Enabled(s, Ask(c)) && BackendHas(s) && DebtCovers(s, b, debt)
    ensures DebtCovers(Apply(s, Ask(c)), b, if s.calls[c].bucket == b then Less(debt) else debt)
  {
    CountUpdate(s.calls, c, s.calls[c].(status := Granted), Uncharged(b));
    ReserveReads(s.backend, s.now, s.now);
  }

  lemma RefundForgives(s: State, c: Id, t: int, b: Id, debt: nat)
    requires Inv(s) && c in s.calls && t <= s.now && DebtCovers(s, b, debt)
    requires s.calls[c].status != Returned
    ensures DebtCovers(Refund(s, c, t), b, OwedRefund(s, c, t, b, debt))
  {
    if InTime(s.calls[c].ticket, t) {
      CountUpdate(s.calls, c, s.calls[c].(status := Returned), Uncharged(b));
      CancelEffect(s, c, t, s.now);
    }
  }

  lemma CancelForgives(s: State, c: Id, at: int, b: Id, debt: nat)
    requires Inv(s) && Enabled(s, Cancel(c, at)) && DebtCovers(s, b, debt)
    ensures DebtCovers(Apply(s, Cancel(c, at)), b, OwedRefund(s, c, at, b, debt))
  {
    if InTime(s.calls[c].ticket, at) {
      RefundForgives(s, c, at, b, debt);
    } else {
      StatusForgives(s, c, Lost, b, debt);
    }
  }

  lemma FullCovers(s: State, b: Id)
    requires Full(s, b)
    ensures DebtCovers(s, b, 0)
  {
  }

  lemma FailForgives(s: State, c: Id, charged: bool, b: Id, debt: nat)
    requires Inv(s) && Enabled(s, Fail(c, charged)) && DebtCovers(s, b, debt)
    ensures DebtCovers(Apply(s, Fail(c, charged)), b, debt)
  {
    StatusForgives(s, c, Failed, b, debt);
    if charged {
      ChargeForgives(WithStatus(s, c, Failed), b, debt);
    }
  }

  lemma SettlingForgives(s: State, e: Event, b: Id, debt: nat)
    requires Inv(s) && Enabled(s, e) && Settling(e) && DebtCovers(s, b, debt)
    requires b in s.shadows && !Full(Apply(s, e), b)
    ensures DebtCovers(Apply(s, e), b, OwedNext(s, e, b, debt))
  {
    match e {
      case Ask(c) =>
        if BackendHas(s) {
          GrantForgives(s, c, b, debt);
        } else {
          StatusForgives(s, c, Doomed, b, debt);
        }
      case Fail(c, charged) => FailForgives(s, c, charged, b, debt);
      case Admit(c) => StatusForgives(s, c, Fallback, b, debt);
      case Doom(c) => StatusForgives(s, c, Doomed, b, debt);
      case KeepLate(c) => StatusForgives(s, c, Late, b, debt);
      case _ =>
    }
  }

  lemma StepForgives(s: State, e: Event, b: Id, debt: nat)
    requires Inv(s) && Enabled(s, e) && DebtCovers(s, b, debt)
    ensures DebtCovers(Apply(s, e), b, OwedNext(s, e, b, debt))
  {
    if Full(Apply(s, e), b) {
      FullCovers(Apply(s, e), b);
    } else if b !in s.shadows {
      FreshIsFull(s.backend.quota, s.now);
    } else if Settling(e) {
      SettlingForgives(s, e, b, debt);
    } else if e.Tick? {
      TickForgives(s, e.span, b, debt);
    } else if e.Begin? {
      BeginForgives(s, e.call, e.bucket, e.at, b, debt);
    } else if e.Cancel? {
      CancelForgives(s, e.call, e.at, b, debt);
    } else if e.Release? {
      RefundForgives(s, e.call, e.at, b, debt);
    } else if e.WaitGrant? || e.Stray? {
      ChargeForgives(s, b, debt);
    }
  }

  lemma {:induction false} RunForgives(s: State, es: seq<Event>, b: Id, debt: nat)
    requires Inv(s) && Legal(s, es) && DebtCovers(s, b, debt)
    ensures DebtCovers(Exec(s, es), b, Owed(s, es, b, debt))
    decreases |es|
  {
    if es != [] {
      StepKeepsInv(s, es[0]);
      StepForgives(s, es[0], b, debt);
      RunForgives(Apply(s, es[0]), es[1..], b, OwedNext(s, es[0], b, debt));
    }
  }

  /** Along any run from the start a shadow plus what it owes covers the backend, and it
      never owes more than the tokens it has out uncharged. So a refusal is sound again as
      soon as the shadow has been full since its last uncharged token. */
  lemma RefusalIsSoundOnceForgiven(q: Quota, t: int, es: seq<Event>, b: Id, at: int)
    requires Usable(q) && t >= ZERO_TIME && Legal(Init(q, t), es) && b in Exec(Init(q, t), es).shadows
    requires at <= Exec(Init(q, t), es).now
    ensures var s := Exec(Init(q, t), es);
            var owed := Owed(Init(q, t), es, b, 0);
            && Shadow(s, b) + owed as real >= Backend(s) && owed <= Count(s.calls, Uncharged(b))
            && (owed == 0 && TicketAt(s.shadows[b], at).DelayedAt(at) ==>
                  Backend(s) < 1.0 + Refill(q.rate, s.now - at) && (at == s.now ==> !BackendHas(s)))
  {
    var s := Exec(Init(q, t), es);
    FreshIsFull(q, t);
    RunForgives(Init(q, t), es, b, 0);
    RunKeepsInv(Init(q, t), es);
    RefillNothing(q.rate);
    if TicketAt(s.shadows[b], at).DelayedAt(at) {
      RefusalBounds(s.shadows[b], at, s.now);
    }
  }

  // ----------------------------------------------------- how much is let through

  /** Whether an event lets a request of the buckets bs through. */
  predicate Admits(s: State, e: Event, bs: set<Id>)
    requires Enabled(s, e)
  {
    match e
    case Ask(c) => BackendHas(s) && s.calls[c].bucket in bs
    case Admit(c) => s.calls[c].bucket in bs
    case KeepLate(c) => s.calls[c].bucket in bs
    case _ => false
  }

  predicate LetsThrough(s: State, e: Event)
    requires Enabled(s, e)
  {
    (e.Ask? && BackendHas(s)) || e.Admit? || e.KeepLate? || e.WaitGrant? || e.WaveThrough?
  }

  predicate Unpaid(e: Event) {
    e.Admit? || e.KeepLate? || e.WaveThrough?
  }

  function UnpaidIn(es: seq<Event>): nat {
    if es == [] then 0 else (if Unpaid(es[0]) then 1 else 0) + UnpaidIn(es[1..])
  }

  /** Tokens of the backend whose answer was lost. */
  function WastedIn(es: seq<Event>): nat {
    if es == [] then 0 else (if es[0].Stray? || (es[0].Fail? && es[0].charged) then 1 else 0) + WastedIn(es[1..])
  }

  /** Requests let through along a run, by whichever path. */
  function LetIn(s: State, es: seq<Event>): nat
    requires Legal(s, es)
    decreases |es|
  {
    if es == [] then 0 else (if LetsThrough(s, es[0]) then 1 else 0) + LetIn(Apply(s, es[0]), es[1..])
  }

  /** What the backend gave out and what it has left never exceed what it had and
      earned, whatever the replicas do. */
  lemma {:induction false} BackendConserves(s: State, es: seq<Event>)
    requires WellFormed(s) && 0.0 <= Backend(s) && Legal(s, es)
    ensures (Exec(s, es).grants - s.grants) as real + Backend(Exec(s, es))
            <= Backend(s) + Refill(s.backend.quota.rate, Exec(s, es).now - s.now)
    decreases |es|
  {
    var rate := s.backend.quota.rate;
    if es == [] {
      RefillNothing(rate);
    } else {
      var next := Apply(s, es[0]);
      var end := Exec(s, es);
      StepBackend(s, es[0]);
      StepWellFormed(s, es[0]);
      StepOnward(s, es[0]);
      BackendConserves(next, es[1..]);
      assert next.now - s.now + (end.now - next.now) == end.now - s.now;
      RefillChain(rate, next.now - s.now, end.now - next.now, Backend(s) - (next.grants - s.grants) as real,
                  Backend(next), Backend(end) + (end.grants - next.grants) as real);
    }
  }

  /** Every request let through along a run was paid for by the backend or let through by
      an event that asks nobody, and each of the backend's tokens let one through or was
      lost with its answer. */
  lemma {:induction false} LetThroughIsPaid(s: State, es: seq<Event>)
    requires Legal(s, es)
    ensures LetIn(s, es) + WastedIn(es) == Exec(s, es).grants - s.grants + UnpaidIn(es)
    decreases |es|
  {
    if es != [] {
      LetThroughIsPaid(Apply(s, es[0]), es[1..]);
    }
  }

  /** So over any stretch of any execution the whole fleet, however many replicas it
      has, lets through at most burst + rate * W requests, less the backend's tokens whose
      answer was lost, plus those let through without asking. */
  lemma FleetAdmitsAtMost(s: State, es: seq<Event>)
    requires Reachable(s) && Legal(s, es)
    ensures (LetIn(s, es) + WastedIn(es) - UnpaidIn(es)) as real
            <= s.backend.quota.burst as real
               + Refill(s.backend.quota.rate, Exec(s, es).now - s.now)
  {
    ReachableKeepsInv(s);
    RunKeepsInv(s, es);
    BackendConserves(s, es);
    LetThroughIsPaid(s, es);
  }

  /** Whether an event brings bucket b's count to an instant of its own. */
  predicate Acts(s: State, e: Event, b: Id)
    requires Enabled(s, e)
  {
    match e
    case Begin(_, b', _) => b' == b
    case Cancel(c, at) => s.calls[c].bucket == b && InTime(s.calls[c].ticket, at)
    case Release(c, at) => s.calls[c].bucket == b && InTime(s.calls[c].ticket, at)
    case _ => false
  }

  /** By how much it moves the bucket back. */
  function Rewind(s: State, e: Event, b: Id): (span: int)
    requires Enabled(s, e)
    ensures span >= 0
  {
    if Acts(s, e, b) && e.at < s.shadows[b].last then s.shadows[b].last - e.at else 0
  }

  function RewindsIn(s: State, es: seq<Event>, b: Id): (span: int)
    requires Legal(s, es)
    ensures span >= 0
    decreases |es|
  {
    if es == [] then 0 else Rewind(s, es[0], b) + RewindsIn(Apply(s, es[0]), es[1..], b)
  }

  /** How far before `start` the oldest instant lies that bucket b is brought to. */
  function EdgeIn(s: State, es: seq<Event>, b: Id, start: int): (edge: int)
    requires Legal(s, es)
    ensures edge >= 0
    decreases |es|
  {
    if es == [] then 0
    else
      var here := if Acts(s, es[0], b) && es[0].at < start then start - es[0].at else 0;
      var rest := EdgeIn(Apply(s, es[0]), es[1..], b, start);
      if here >= rest then here else rest
  }

  /** What a bucket can still be made to give out at `now`, by updates as of no instant
      before `floor`. */
  function Worth(s: Level, floor: int, now: int): real {
    var from := if s.last < floor then floor else s.last;
    TokensAt(s, from) + Refill(s.quota.rate, now - from)
  }

  lemma WorthStarts(s: Level, floor: int, now: int)
    requires Usable(s.quota) && s.last <= now && floor <= now
    ensures Worth(s, floor, now) <= s.quota.burst as real + Refill(s.quota.rate, now - floor)
    ensures TokensAt(s, now) <= Worth(s, floor, now)
  {
    var from := if s.last < floor then floor else s.last;
    ReadsCompose(s, from, now);
    RefillMonotone(s.quota.rate, now - from, now - floor);
  }

  lemma WorthTicks(s: Level, floor: int, now: int, d: nat)
    ensures Worth(s, floor, now + d) == Worth(s, floor, now) + Refill(s.quota.rate, d)
  {
    var from := if s.last < floor then floor else s.last;
    RefillAdds(s.quota.rate, now - from, d);
    assert now - from + d == now + d - from;
  }

  /** Bringing the count to `at` adds at most the stretch it rewinds. */
  lemma WorthAdvances(s: Level, floor: int, at: int, now: int)
    requires Usable(s.quota) && floor <= at <= now && s.last <= now
    ensures TokensAt(s, at) + Refill(s.quota.rate, now - at) <= Worth(s, floor, now) + Behind(s, at)
  {
    RefillNothing(s.quota.rate);
    if at < s.last {
      RefillAdds(s.quota.rate, now - s.last, s.last - at);
      assert now - s.last + (s.last - at) == now - at;
    } else {
      var from := if s.last < floor then floor else s.last;
      ReadsCompose(s, from, at);
      RefillAdds(s.quota.rate, at - from, now - at);
      assert at - from + (now - at) == now - from;
    }
  }

  /** Tokens bucket b may still give out or has out. A bucket not yet created will start
      full. */
  function Budget(s: State, b: Id, floor: int): real {
    (if b in s.shadows then Worth(s.shadows[b], floor, s.now)
     else s.backend.quota.burst as real + Refill(s.backend.quota.rate, s.now - floor))
    + Count(s.calls, Out(b)) as real
  }

  lemma RefundBudget(s: State, c: Id, t: int, b: Id, floor: int)
    requires WellFormed(s) && c in s.calls && floor <= t <= s.now && IsOut(s.calls[c].status)
    ensures Budget(Refund(s, c, t), b, floor)
            <= Budget(s, b, floor)
               + if InTime(s.calls[c].ticket, t) && s.calls[c].bucket == b then Behind(s.shadows[b], t) else 0.0
  {
    var k := s.calls[c];
    if InTime(k.ticket, t) {
      CountUpdate(s.calls, c, k.(status := Returned), Out(b));
      WorthAdvances(s.shadows[k.bucket], floor, t, s.now);
    }
  }

  lemma BeginBudget(s: State, c: Id, b: Id, b': Id, at: int, floor: int)
    requires WellFormed(s) && Enabled(s, Begin(c, b', at)) && (b' == b ==> floor <= at)
    ensures Budget(Apply(s, Begin(c, b', at)), b, floor)
            <= Budget(s, b, floor) + if b' == b then Behind(s.shadows[b], at) else 0.0
  {
    CountUpdate(s.calls, c, Call(b', TicketAt(s.shadows[b'], at), Held), Out(b));
    if b' == b {
      WorthAdvances(s.shadows[b], floor, at, s.now);
    }
  }

  lemma StatusBudget(s: State, c: Id, status: Status, b: Id, floor: int)
    requires c in s.calls && IsOut(s.calls[c].status) && !status.Returned?
    ensures Budget(WithStatus(s, c, status), b, floor) <= Budget(s, b, floor)
  {
    CountUpdate(s.calls, c, s.calls[c].(status := status), Out(b));
  }

  lemma TickBudget(s: State, d: nat, b: Id, floor: int)
    requires WellFormed(s)
    ensures Budget(Apply(s, Tick(d)), b, floor) <= Budget(s, b, floor) + Refill(s.backend.quota.rate, d)
  {
    if b in s.shadows {
      WorthTicks(s.shadows[b], floor, s.now, d);
    } else {
      RefillAdds(s.backend.quota.rate, s.now - floor, d);
      assert s.now - floor + d == s.now + d - floor;
    }
  }

  lemma AttachBudget(s: State, r: Id, b: Id, b': Id, floor: int)
    requires WellFormed(s) && Enabled(s, Attach(r, b')) && floor <= s.now
    ensures Budget(Apply(s, Attach(r, b')), b, floor) <= Budget(s, b, floor)
  {
    WorthStarts(Fresh(s.backend.quota), floor, s.now);
  }

  /** An event that brings b to an instant before the floor is outside the window's edge. */
  predicate Within(s: State, e: Event, b: Id, floor: int)
    requires Enabled(s, e)
  {
    Acts(s, e, b) ==> floor <= e.at
  }

  lemma ReturnBudget(s: State, e: Event, b: Id, floor: int)
    requires WellFormed(s) && Enabled(s, e) && (e.Cancel? || e.Release?) && Within(s, e, b, floor)
    ensures Budget(Apply(s, e), b, floor) <= Budget(s, b, floor) + Refill(s.backend.quota.rate, Rewind(s, e, b))
  {
    RefillNothing(s.backend.quota.rate);
    if !InTime(s.calls[e.call].ticket, e.at) {
      if e.Cancel? {
        StatusBudget(s, e.call, Lost, b, floor);
      }
    } else if s.calls[e.call].bucket == b {
      RefundBudget(s, e.call, e.at, b, floor);
    } else {
      CountUpdate(s.calls, e.call, s.calls[e.call].(status := Returned), Out(b));
    }
  }

  lemma StepBudget(s: State, e: Event, b: Id, floor: int)
    requires WellFormed(s) && Enabled(s, e) && floor <= s.now && Within(s, e, b, floor)
    ensures Budget(Apply(s, e), b, floor)
            <= Budget(s, b, floor) + Refill(s.backend.quota.rate, Apply(s, e).now - s.now + Rewind(s, e, b))
  {
    RefillNothing(s.backend.quota.rate);
    match e {
      case Tick(d) => TickBudget(s, d, b, floor);
      case Attach(r, b') => AttachBudget(s, r, b, b', floor);
      case Begin(c, b', at) => BeginBudget(s, c, b, b', at, floor);
      case Ask(c) => StatusBudget(s, c, if BackendHas(s) then Granted else Doomed, b, floor);
      case Fail(c, _) => StatusBudget(s, c, Failed, b, floor);
      case Admit(c) => StatusBudget(s, c, Fallback, b, floor);
      case Doom(c) => StatusBudget(s, c, Doomed, b, floor);
      case KeepLate(c) => StatusBudget(s, c, Late, b, floor);
      case Cancel(_, _) => ReturnBudget(s, e, b, floor);
      case Release(_, _) => ReturnBudget(s, e, b, floor);
      case _ =>
    }
  }

  /** What bucket b earns along a run, event by event. */
  function Accrued(s: State, es: seq<Event>, b: Id): real
    requires Legal(s, es)
    decreases |es|
  {
    if es == [] then 0.0
    else
      var next := Apply(s, es[0]);
      Refill(s.backend.quota.rate, next.now - s.now + Rewind(s, es[0], b)) + Accrued(next, es[1..], b)
  }

  lemma {:induction false} AccruedIsRefill(s: State, es: seq<Event>, b: Id)
    requires Legal(s, es)
    ensures Accrued(s, es, b) == Refill(s.backend.quota.rate, Exec(s, es).now - s.now + RewindsIn(s, es, b))
    decreases |es|
  {
    if es == [] {
      RefillNothing(s.backend.quota.rate);
    } else {
      var next := Apply(s, es[0]);
      StepOnward(s, es[0]);
      AccruedIsRefill(next, es[1..], b);
      RefillAdds(s.backend.quota.rate, next.now - s.now + Rewind(s, es[0], b),
                 Exec(s, es).now - next.now + RewindsIn(next, es[1..], b));
    }
  }

  lemma {:induction false} RunBudget(s: State, es: seq<Event>, b: Id, start: int, floor: int)
    requires WellFormed(s) && Legal(s, es) && floor <= start <= s.now && EdgeIn(s, es, b, start) <= start - floor
    ensures Budget(Exec(s, es), b, floor) <= Budget(s, b, floor) + Accrued(s, es, b)
    decreases |es|
  {
    if es != [] {
      StepBudget(s, es[0], b, floor);
      StepWellFormed(s, es[0]);
      StepOnward(s, es[0]);
      RunBudget(Apply(s, es[0]), es[1..], b, start, floor);
    }
  }

  lemma CountDisjoint(calls: map<Id, Call>, p: Query, q: Query, r: Query)
    requires forall k :: !(Holds(p, k) && Holds(q, k)) && (Holds(p, k) || Holds(q, k) ==> Holds(r, k))
    ensures Count(calls, p) + Count(calls, q) <= Count(calls, r)
  {
    SubsetSize(Matching(calls, p) + Matching(calls, q), Matching(calls, r));
  }

  lemma CountCover(calls: map<Id, Call>, p: Query, q: Query, r: Query)
    requires forall k :: Holds(r, k) ==> Holds(p, k) || Holds(q, k)
    ensures Count(calls, r) <= Count(calls, p) + Count(calls, q)
  {
    SubsetSize(Matching(calls, r), Matching(calls, p) + Matching(calls, q));
  }

  /** Nothing of b is unsettled and no kept token is still waiting. */
  predicate Quiet(s: State, b: Id) {
    Count(s.calls, Unsettled(b)) == 0 && Count(s.calls, Pending(b, s.now)) == 0
  }

  lemma QuietBudget(s: State, b: Id)
    requires Quiet(s, b)
    ensures Count(s.calls, Out(b)) <= Count(s.calls, Admitted({b}, s.now))
  {
    CountCover(s.calls, Unsettled(b), Kept({b}), Out(b));
    CountCover(s.calls, Admitted({b}, s.now), Pending(b, s.now), Kept({b}));
  }

  lemma AdmittedWithinBudget(s: State, b: Id, floor: int)
    requires Inv(s) && floor <= s.now
    ensures Count(s.calls, Admitted({b}, s.now)) as real <= Budget(s, b, floor)
  {
    CountDisjoint(s.calls, Admitted({b}, s.now), Pending(b, s.now), Out(b));
    if b in s.shadows {
      assert DebtAt(s, b, s.now);
      WorthStarts(s.shadows[b], floor, s.now);
    } else {
      RefillNothing(s.backend.quota.rate);
      RefillMonotone(s.backend.quota.rate, 0, s.now - floor);
    }
  }

  /** What one bucket can let through from s to s', with `lag` of edge and rewinds in all. */
  function Allowance(s: State, s': State, lag: int): real {
    s.backend.quota.burst as real + Refill(s.backend.quota.rate, s'.now - s.now + lag)
  }

  /** Edge and rewinds of bucket b along a run. */
  function LagIn(s: State, es: seq<Event>, b: Id): int
    requires Legal(s, es)
  {
    EdgeIn(s, es, b, s.now) + RewindsIn(s, es, b)
  }

  function Growth(s: State, s': State, bs: set<Id>): int {
    Count(s'.calls, Admitted(bs, s'.now)) - Count(s.calls, Admitted(bs, s.now))
  }

  /** Requests of the buckets bs let through along a run, */
  function AdmissionsIn(s: State, es: seq<Event>, bs: set<Id>): nat
    requires Legal(s, es)
    decreases |es|
  {
    if es == [] then 0 else (if Admits(s, es[0], bs) then 1 else 0) + AdmissionsIn(Apply(s, es[0]), es[1..], bs)
  }

  /** ... and tokens of theirs that somebody let through gave back. */
  function GivenBackIn(s: State, es: seq<Event>, bs: set<Id>): nat
    requires Legal(s, es)
    decreases |es|
  {
    if es == [] then 0 else (if GivesBack(s, es[0], bs) then 1 else 0) + GivenBackIn(Apply(s, es[0]), es[1..], bs)
  }

  predicate GivesBack(s: State, e: Event, bs: set<Id>)
    requires Enabled(s, e)
  {
    e.Release? && s.calls[e.call].bucket in bs && InTime(s.calls[e.call].ticket, e.at)
  }

  lemma StatusKept(s: State, c: Id, status: Status, bs: set<Id>)
    requires c in s.calls
    ensures Count(WithStatus(s, c, status).calls, Kept(bs))
            == Count(s.calls, Kept(bs)) - (if Holds(Kept(bs), s.calls[c]) then 1 else 0)
               + if s.calls[c].bucket in bs && IsKept(status) then 1 else 0
  {
    CountUpdate(s.calls, c, s.calls[c].(status := status), Kept(bs));
  }

  lemma StepKept(s: State, e: Event, bs: set<Id>)
    requires Enabled(s, e)
    ensures Count(Apply(s, e).calls, Kept(bs))
            == Count(s.calls, Kept(bs)) + (if Admits(s, e, bs) then 1 else 0) - if GivesBack(s, e, bs) then 1 else 0
  {
    match e {
      case Begin(c, b, at) => CountUpdate(s.calls, c, Call(b, TicketAt(s.shadows[b], at), Held), Kept(bs));
      case Ask(c) => StatusKept(s, c, if BackendHas(s) then Granted else Doomed, bs);
      case Fail(c, _) => StatusKept(s, c, Failed, bs);
      case Admit(c) => StatusKept(s, c, Fallback, bs);
      case Doom(c) => StatusKept(s, c, Doomed, bs);
      case KeepLate(c) => StatusKept(s, c, Late, bs);
      case Cancel(c, at) => StatusKept(s, c, if InTime(s.calls[c].ticket, at) then Returned else Lost, bs);
      case Release(c, _) => StatusKept(s, c, Returned, bs);
      case _ =>
    }
  }

  lemma {:induction false} RunKept(s: State, es: seq<Event>, bs: set<Id>)
    requires Legal(s, es)
    ensures Count(Exec(s, es).calls, Kept(bs))
            == Count(s.calls, Kept(bs)) + AdmissionsIn(s, es, bs) - GivenBackIn(s, es, bs)
    decreases |es|
  {
    if es != [] {
      StepKept(s, es[0], bs);
      RunKept(Apply(s, es[0]), es[1..], bs);
    }
  }

  lemma KeptSplits(calls: map<Id, Call>, bs: set<Id>, u: int)
    ensures Count(calls, Kept(bs)) == Count(calls, Admitted(bs, u)) + Count(calls, Waiting(bs, u))
  {
    CountCover(calls, Admitted(bs, u), Waiting(bs, u), Kept(bs));
    CountDisjoint(calls, Admitted(bs, u), Waiting(bs, u), Kept(bs));
  }

  /** Whatever was let through has grown the tokens in use, waits for its time, or makes up
      for one given back. */
  lemma AdmissionsGrow(s: State, es: seq<Event>, bs: set<Id>)
    requires Legal(s, es)
    ensures AdmissionsIn(s, es, bs)
            <= Growth(s, Exec(s, es), bs) + GivenBackIn(s, es, bs)
               + Count(Exec(s, es).calls, Waiting(bs, Exec(s, es).now))
               - Count(s.calls, Waiting(bs, s.now))
  {
    RunKept(s, es, bs);
    KeptSplits(s.calls, bs, s.now);
    KeptSplits(Exec(s, es).calls, bs, Exec(s, es).now);
  }

  lemma QuietStart(s: State, b: Id, edge: nat)
    requires WellFormed(s) && Quiet(s, b)
    ensures Budget(s, b, s.now - edge)
            <= Count(s.calls, Admitted({b}, s.now)) as real + s.backend.quota.burst as real
               + Refill(s.backend.quota.rate, edge)
  {
    QuietBudget(s, b);
    if b in s.shadows {
      WorthStarts(s.shadows[b], s.now - edge, s.now);
    }
  }

  lemma WindowEarns(s: State, es: seq<Event>, b: Id)
    requires WellFormed(s) && Legal(s, es)
    ensures var edge := EdgeIn(s, es, b, s.now);
            Budget(Exec(s, es), b, s.now - edge)
            <= Budget(s, b, s.now - edge)
               + Refill(s.backend.quota.rate, Exec(s, es).now - s.now + RewindsIn(s, es, b))
  {
    RunBudget(s, es, b, s.now, s.now - EdgeIn(s, es, b, s.now));
    AccruedIsRefill(s, es, b);
  }

  lemma WindowTotal(s: State, es: seq<Event>, b: Id)
    requires WellFormed(s) && Legal(s, es) && Quiet(s, b)
    ensures Budget(Exec(s, es), b, s.now - EdgeIn(s, es, b, s.now))
            <= Count(s.calls, Admitted({b}, s.now)) as real + Allowance(s, Exec(s, es), LagIn(s, es, b))
  {
    var edge := EdgeIn(s, es, b, s.now);
    var span := Exec(s, es).now - s.now + RewindsIn(s, es, b);
    WindowEarns(s, es, b);
    QuietStart(s, b, edge);
    RefillAdds(s.backend.quota.rate, edge, span);
    assert edge + span == Exec(s, es).now - s.now + LagIn(s, es, b);
  }

  lemma ReachableWithinBudget(s: State, es: seq<Event>, b: Id, floor: int)
    requires Reachable(s) && Legal(s, es) && floor <= s.now
    ensures WellFormed(s)
    ensures Count(Exec(s, es).calls, Admitted({b}, Exec(s, es).now)) as real <= Budget(Exec(s, es), b, floor)
  {
    ReachableKeepsInv(s);
    RunKeepsInv(s, es);
    AdmittedWithinBudget(Exec(s, es), b, floor);
  }

  lemma BucketGrowsAtMost(s: State, es: seq<Event>, b: Id)
    requires Reachable(s) && Legal(s, es) && Quiet(s, b)
    ensures Growth(s, Exec(s, es), {b}) as real <= Allowance(s, Exec(s, es), LagIn(s, es, b))
  {
    ReachableWithinBudget(s, es, b, s.now - EdgeIn(s, es, b, s.now));
    WindowTotal(s, es, b);
  }

  /** One bucket, every entry point, any pattern of refusals, failures and error policy:
      over a window opening quiet it lets through at most burst + rate * (W + edge +
      rewinds), plus what was given back meanwhile, plus what still waits for its time at
      the end. `edge` is how far the oldest instant used lies before the window; `rewinds`
      adds up how far updates as of an instant in the bucket's own past move it back. With
      current instants both are nothing. */
  lemma BucketAdmitsAtMost(s: State, es: seq<Event>, b: Id)
    requires Reachable(s) && Legal(s, es) && Quiet(s, b)
    ensures var end := Exec(s, es);
            AdmissionsIn(s, es, {b}) as real
            <= s.backend.quota.burst as real
               + Refill(s.backend.quota.rate, end.now - s.now + EdgeIn(s, es, b, s.now) + RewindsIn(s, es, b))
               + GivenBackIn(s, es, {b}) as real + Count(end.calls, Waiting({b}, end.now)) as real
  {
    BucketGrowsAtMost(s, es, b);
    AdmissionsGrow(s, es, {b});
  }

  lemma GrowthSplits(s: State, s': State, b: Id, rest: set<Id>)
    requires b !in rest
    ensures Growth(s, s', {b} + rest) <= Growth(s, s', {b}) + Growth(s, s', rest)
  {
    CountCover(s'.calls, Admitted({b}, s'.now), Admitted(rest, s'.now), Admitted({b} + rest, s'.now));
    CountDisjoint(s.calls, Admitted({b}, s.now), Admitted(rest, s.now), Admitted({b} + rest, s.now));
  }

  /** n times `each`, added up so that no proof has to multiply. */
  function Times(n: nat, each: real): real {
    if n == 0 then 0.0 else each + Times(n - 1, each)
  }

  lemma {:induction false} TimesMultiplies(n: nat, each: real)
    ensures Times(n, each) == n as real * each
  {
    if n > 0 {
      TimesMultiplies(n - 1, each);
    }
  }

  lemma AllowanceGrows(s: State, s': State, lag: int, more: int)
    requires s.backend.quota.rate >= 0.0 && lag <= more
    ensures Allowance(s, s', lag) <= Allowance(s, s', more)
  {
    RefillMonotone(s.backend.quota.rate, s'.now - s.now + lag, s'.now - s.now + more);
  }

  predicate GrewAtMost(s: State, s': State, b: Id, each: real) {
    Growth(s, s', {b}) as real <= each
  }

  lemma {:induction false} GrowthAmong(s: State, s': State, bs: set<Id>, each: real)
    requires forall b {:trigger GrewAtMost(s, s', b, each)} :: b in bs ==> GrewAtMost(s, s', b, each)
    ensures Growth(s, s', bs) as real <= Times(|bs|, each)
    decreases |bs|
  {
    if bs == {} {
      assert Matching(s'.calls, Admitted(bs, s'.now)) == {};
    } else {
      var b :| b in bs;
      var rest := bs - {b};
      assert GrewAtMost(s, s', b, each);
      GrowthAmong(s, s', rest, each);
      assert bs == {b} + rest;
      GrowthSplits(s, s', b, rest);
    }
  }

  /** N buckets, one per replica while each stays in memory, let through at most N times
      that: the documented degradation when no answer comes from the backend. `lag` bounds
      each bucket's edge and rewinds together. */
  lemma BucketsAdmitAtMost(s: State, es: seq<Event>, bs: set<Id>, lag: nat)
    requires Reachable(s) && Legal(s, es)
    requires forall b {:trigger Quiet(s, b)} :: b in bs ==> Quiet(s, b) && LagIn(s, es, b) <= lag
    ensures var end := Exec(s, es);
            AdmissionsIn(s, es, bs) as real
            <= Times(|bs|, Allowance(s, end, lag))
               + GivenBackIn(s, es, bs) as real + Count(end.calls, Waiting(bs, end.now)) as real
  {
    var s' := Exec(s, es);
    ReachableKeepsInv(s);
    forall b | b in bs
      ensures GrewAtMost(s, s', b, Allowance(s, s', lag))
    {
      assert Quiet(s, b);
      BucketGrowsAtMost(s, es, b);
      AllowanceGrows(s, s', LagIn(s, es, b), lag);
    }
    GrowthAmong(s, s', bs, Allowance(s, s', lag));
    AdmissionsGrow(s, es, bs);
  }
}
