/** One Take or Wait of a gate, with nobody in between, is a run of the machine of Takes: the
    class and the machine do the same to the breaker and to the counters. */
module TakeRuns {
  import opened Breakers
  import opened Gates
  import T = Takes

  type Id = T.Id

  /** What Gate.Take does, step by step. */
  function TakeEvents(b: Circuit, c: Id, now: int, answer: Answer, later: int): seq<T.Event> {
    if !Admits(b, now) then [T.Ask(c, now, false), T.CountShort(c)]
    else match answer
      case Answered(g) =>
        if g.ok then [T.Ask(c, now, false), T.CountTake(c), T.Answer(c, true)]
        else [T.Ask(c, now, false), T.CountTake(c), T.Answer(c, false), T.CountRefusal(c)]
      case Broken(owner, caller) =>
        if owner || caller then [T.Ask(c, now, false), T.CountTake(c), T.Abandon(c)]
        else [T.Ask(c, now, false), T.CountTake(c), T.Err(c), T.Report(c, later)]
  }

  /** ... and what Gate.Wait does; a parking backend that answers has consented. */
  function WaitEvents(b: Circuit, c: Id, now: int, answer: Answer, later: int): seq<T.Event> {
    if !Admits(b, now) then [T.Ask(c, now, true), T.CountShort(c)]
    else match answer
      case Answered(_) => [T.Ask(c, now, true), T.CountTake(c), T.Answer(c, true)]
      case Broken(owner, caller) =>
        if owner then [T.Ask(c, now, true), T.CountTake(c), T.LeaveSilently(c)]
        else if caller then [T.Ask(c, now, true), T.CountTake(c), T.Abandon(c)]
        else [T.Ask(c, now, true), T.CountTake(c), T.Err(c), T.Report(c, later)]
  }

  lemma Two(s: T.State, e: T.Event, f: T.Event)
    requires T.Enabled(s, e) && T.Enabled(T.Apply(s, e), f)
    ensures T.Legal(s, [e, f]) && T.Exec(s, [e, f]) == T.Apply(T.Apply(s, e), f)
  {
    T.ExecAppend(s, [], e);
    assert [] + [e] == [e] && [e] + [f] == [e, f];
    T.ExecAppend(s, [e], f);
  }

  lemma Three(s: T.State, e: T.Event, f: T.Event, g: T.Event)
    requires T.Enabled(s, e) && T.Enabled(T.Apply(s, e), f) && T.Enabled(T.Apply(T.Apply(s, e), f), g)
    ensures T.Legal(s, [e, f, g]) && T.Exec(s, [e, f, g]) == T.Apply(T.Apply(T.Apply(s, e), f), g)
  {
    Two(s, e, f);
    T.ExecAppend(s, [e, f], g);
    assert [e, f] + [g] == [e, f, g];
  }

  lemma Four(s: T.State, e: T.Event, f: T.Event, g: T.Event, h: T.Event)
    requires T.Enabled(s, e) && T.Enabled(T.Apply(s, e), f) && T.Enabled(T.Apply(T.Apply(s, e), f), g)
    requires T.Enabled(T.Apply(T.Apply(T.Apply(s, e), f), g), h)
    ensures T.Legal(s, [e, f, g, h])
    ensures T.Exec(s, [e, f, g, h]) == T.Apply(T.Apply(T.Apply(T.Apply(s, e), f), g), h)
  {
    Three(s, e, f, g);
    T.ExecAppend(s, [e, f, g], h);
    assert [e, f, g] + [h] == [e, f, g, h];
  }

  /** The counters have grown by these, and nobody else's call has moved. */
  predicate Counted(s: T.State, s': T.State, c: Id, takes: int, refused: int, errors: int) {
    && s'.takes == s.takes + takes && s'.refused == s.refused + refused && s'.errors == s.errors + errors
    && s'.calls.Keys == s.calls.Keys + {c} && forall d :: d in s.calls && d != c ==> s'.calls[d] == s.calls[d]
  }

  /** The events are a run that ends the call and leaves this breaker behind. */
  predicate Ends(s: T.State, es: seq<T.Event>, c: Id, after: Circuit, takes: int, refused: int, errors: int) {
    T.Legal(s, es)
    && var s' := T.Exec(s, es);
       Counted(s, s', c, takes, refused, errors) && s'.breaker == after && !T.InFlight(s'.calls[c])
  }

  lemma CutShort(s: T.State, c: Id, now: int, waits: bool)
    requires c !in s.calls && !Admits(s.breaker, now)
    ensures Ends(s, [T.Ask(c, now, waits), T.CountShort(c)], c, s.breaker, 0, 0, 1)
  {
    Two(s, T.Ask(c, now, waits), T.CountShort(c));
  }

  lemma Granted(s: T.State, c: Id, now: int, waits: bool)
    requires c !in s.calls && Admits(s.breaker, now)
    ensures Ends(s, [T.Ask(c, now, waits), T.CountTake(c), T.Answer(c, true)], c, CLOSED, 1, 0, 0)
  {
    Three(s, T.Ask(c, now, waits), T.CountTake(c), T.Answer(c, true));
  }

  lemma Refused(s: T.State, c: Id, now: int)
    requires c !in s.calls && Admits(s.breaker, now)
    ensures Ends(s, [T.Ask(c, now, false), T.CountTake(c), T.Answer(c, false), T.CountRefusal(c)], c, CLOSED, 1, 1, 0)
  {
    Four(s, T.Ask(c, now, false), T.CountTake(c), T.Answer(c, false), T.CountRefusal(c));
  }

  lemma Abandoned(s: T.State, c: Id, now: int, waits: bool)
    requires c !in s.calls && Admits(s.breaker, now) && !(waits && s.ownerDone)
    ensures Ends(s, [T.Ask(c, now, waits), T.CountTake(c), T.Abandon(c)], c,
                 AfterAbandon(AfterAllow(s.breaker, now)), 1, 0, 0)
  {
    Three(s, T.Ask(c, now, waits), T.CountTake(c), T.Abandon(c));
  }

  lemma Failed(s: T.State, c: Id, now: int, waits: bool, later: int)
    requires c !in s.calls && Admits(s.breaker, now)
    ensures Ends(s, [T.Ask(c, now, waits), T.CountTake(c), T.Err(c), T.Report(c, later)], c,
                 AfterFail(AfterAllow(s.breaker, now), later), 1, 0, 1)
  {
    Four(s, T.Ask(c, now, waits), T.CountTake(c), T.Err(c), T.Report(c, later));
  }

  lemma LeftSilently(s: T.State, c: Id, now: int)
    requires c !in s.calls && Admits(s.breaker, now) && s.ownerDone
    ensures Ends(s, [T.Ask(c, now, true), T.CountTake(c), T.LeaveSilently(c)], c, AfterAllow(s.breaker, now), 1, 0, 0)
  {
    Three(s, T.Ask(c, now, true), T.CountTake(c), T.LeaveSilently(c));
  }

  /** Gate.Take's contract, of the machine. */
  lemma TakeIsARun(s: T.State, c: Id, now: int, answer: Answer, later: int)
    requires c !in s.calls
    ensures var admitted := Admits(s.breaker, now);
            var silent := !admitted || answer == Broken(false, false);
            Ends(s, TakeEvents(s.breaker, c, now, answer, later), c,
                 BreakerAfter(s.breaker, now, Classify(s.breaker, now, answer), later),
                 if admitted then 1 else 0, if admitted && answer.Answered? && !answer.grant.ok then 1 else 0,
                 if silent then 1 else 0)
  {
    if !Admits(s.breaker, now) {
      CutShort(s, c, now, false);
    } else if answer.Answered? {
      if answer.grant.ok {
        Granted(s, c, now, false);
      } else {
        Refused(s, c, now);
      }
    } else if answer.ownerDone || answer.callerDone {
      Abandoned(s, c, now, false);
    } else {
      Failed(s, c, now, false, later);
    }
  }

  /** And Gate.Wait's. */
  lemma WaitIsARun(s: T.State, c: Id, now: int, answer: Answer, later: int)
    requires c !in s.calls && (answer.Answered? ==> answer.grant.ok)
    requires answer.Broken? ==> answer.ownerDone == s.ownerDone
    ensures var admitted := Admits(s.breaker, now);
            var silent := !admitted || answer == Broken(false, false);
            Ends(s, WaitEvents(s.breaker, c, now, answer, later), c,
                 if admitted && answer.Broken? && answer.ownerDone then AfterAllow(s.breaker, now)
                 else BreakerAfter(s.breaker, now, Classify(s.breaker, now, answer), later),
                 if admitted then 1 else 0, 0, if silent then 1 else 0)
  {
    if !Admits(s.breaker, now) {
      CutShort(s, c, now, true);
    } else if answer.Answered? {
      Granted(s, c, now, true);
    } else if answer.ownerDone {
      LeftSilently(s, c, now);
    } else if answer.callerDone {
      Abandoned(s, c, now, true);
    } else {
      Failed(s, c, now, true, later);
    }
  }
}
