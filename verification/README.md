# pace, verified

A Dafny model of pace, a per-key rate limiter, with proofs of what its design rests on.
Four stateful parts interact in it, and each is modelled as the code is written: the
classes as classes with the same fields, the pure code as functions, and whatever runs
concurrently as a machine whose events are the code's atomic sections, proved about every
execution of any number of threads or replicas.

| file | what it models |
|---|---|
| `Reals.dfy` | instants and durations in integer nanoseconds, tokens and rates in exact arithmetic |
| `Buckets.dfy` | the token bucket: restore, drain instant, quota change in place, reserve, cancel |
| `Fleet.dfy` | N replicas' shadow buckets and one granting backend, every operation one event |
| `StaleRuns.dfy` | runs of the fleet on old instants: what its bounds need, and when an old refusal is sound |
| `Breakers.dfy` | the circuit breaker, and what an outage costs |
| `Takes.dfy` | backend calls in flight around one breaker and the gate's counters |
| `TakeRuns.dfy` | one Take or Wait of a gate, as a run of that machine |
| `Gates.dfy` | the gate of one replica: Take, Allow, the polling Acquire, the waiting path |
| `Acquires.dfy` | what one Acquire, Allow, Wait or reservation does, as a run of the fleet |
| `Reservations.dfy` | Limiter.Reserve and Reservation.Cancel |
| `RegistryRuns.dfy` | the sharded key map under concurrency, locks, tests and deletions as separate steps |
| `SweepRuns.dfy` | what a sweep deletes among those steps, and the touch it does not see |
| `ReloadRuns.dfy` | Reload beside everything RegistryRuns does |
| `Registry.dfy` | the same registry as a class, lock discipline checked, and the teardown |
| `Clients.dfy` | what several operations in a row come to: calling a dead backend, evicting and asking again |
| `Persist.dfy` | what is written to a store, in which calls |
| `Lifecycle.dfy` | the enter/leave barrier, Close, Shutdown, the once-only teardown, the GC loop |
| `Configs.dfy` | resolving a configuration, powers of two, the shard index |
| `Rates.dfy` | reading and writing rates |

`dafny verify dfyconfig.toml` checks all of it.

## How the main results fit together

* **The shadow inequality.** ADR 0004 argues from `shadowTokens >= sharedTokens`. As
  written that is not inductive and not even true: a reservation in flight, a fallback
  admission and a delayed Reserve each debit a shadow without charging the backend. The
  invariant that holds over all runs adds back the tokens a shadow gave out uncharged
  (`Fleet.ShadowsCoverTheBackend`); it cannot be weakened by even one token
  (`Fleet.CoverIsTight`). A shadow that owes nothing and refuses as of an instant proves
  that the backend holds less than one token and what was earned since, so as of the present
  that it would refuse (`Fleet.LocalRefusalIsSound`); a debt is forgiven once the shadow has
  been full (`Fleet.RefusalIsSoundOnceForgiven`).
* **What is let through.** Over a window of length W opening quiet, one bucket lets through
  at most burst + rate·(W + edge + rewinds), plus what was given back meanwhile, plus what
  still waits for its time, on any path and under any failures. The edge is one term, how
  far before the window the oldest instant lies that the bucket is brought to; the rewinds
  add up how far updates as of an instant in the bucket's own past move it back. Neither can
  be dropped, and the edge is attained (`StaleRuns.StaleReadingsAdmitMore`,
  `StaleRuns.StaleCancelsAdmitMore`). N buckets let through at most N times that, and the
  backend's grants alone come to at most burst + rate·W whatever N is.
* **One call is a run of the fleet.** Acquire, Allow, the waiting path and reservations run
  on a real bucket and breaker and log every operation with what it found and left; any log
  that never takes two tokens or returns the wrong one, woven with whatever all other calls
  do, is a legal execution of the fleet, and Acquire's ends with every token returned, or
  with exactly one kept when it returns nil (`Gates.AcquireHoldsItsPromise`,
  `Acquires.AcquireIsAFleetRun` and its siblings).
* **The registry refines one flat map.** Every step of every interleaving is a lookup, an
  insertion under an absent key, a removal, or nothing, of the one map the shards stand
  for; from that follow that a removed entry never returns, that callers share the entry,
  that insertions are all accounted for, and that a sweep deletes only what it flushed with
  the stamp its test read.
* **A reload reaches every key** but those given an older answer by a call that already held
  it when the reload began (`ReloadRuns.ReloadRenews`).
* **Nothing touches a closed store,** the teardown happens once and after everyone left,
  and closing can always finish.

## Where code and documentation disagree

The code is what is modelled; these are the places where a claim made about it is false,
each with the exact condition under which it holds.

* `store/store.go:11` says Tokens is the count at LastUsed, while a snapshot reads it at
  the moment of the snapshot (`registry/registry.go:319-325`). The two agree exactly when
  nothing was earned in between: no time has passed since LastUsed or the bucket's last
  update, the key earns nothing, or its bucket was full (`Buckets.SnapshotIsHonest`), and a restore after an
  eviction credits at most that stretch twice (`Buckets.EvictThenRestore`).
* `registry/gc.go:164-168` says nothing is lost because a key that made a request after the
  snapshot keeps its bucket. `Entry.Touch` takes no lock (`registry/registry.go:149`), so it
  can fall between the test and the deletion (`registry/gc.go:172-173`): in
  `SweepRuns.SweepLosesATouch` a reachable sweep deletes an entry whose stamp no Flush was
  handed. Whatever the others do between test and deletion, the entry goes with the stamp
  that was flushed, if and only if at the test nobody else has it in hand
  (`SweepRuns.FlushedStampSurvives`): the lock keeps out all who have yet to look it up.
* `gate/admit.go:24-31` skips the round-trip because a refusing shadow proves that the
  backend would refuse. The instant it refuses as of was read before the reservation, and by
  then the backend may have earned a token: a refusal `gap` old is sound in every reachable
  state if and only if the key earns nothing or the gap is none
  (`StaleRuns.LateRefusalsAreSoundWhen`); `Fleet.LocalRefusalIsSound` bounds what is lost.
* `limiter/limiter.go:192-193` says that a key not in memory needs nothing from ReloadQuotas
  because its bucket is resolved fresh. GetOrCreate resolves the quota before it takes the
  lock, so a key can be inserted with the old one after Reload has passed its shard
  (`ReloadRuns.ReloadMissesAKey`). With nobody holding an older answer when it begins a
  reload reaches every key (`ReloadRuns.ReloadReachesEveryKey`).
* The registry's package comment says no lock is held across a call back into the owner
  (`registry/registry.go:9-14`), and `newEntry` reads the owner's clock under a shard lock
  (`registry/registry.go:273`, `:282`). `Registry.Registry.GetOrCreate` commits exactly one
  such breach when the key is absent at both of its looks, and none otherwise; every other
  operation is proved to commit none, and every other callback to run unlocked.
* `gate/admit.go:53-58` cancels at the instant the token was taken so that the refund does
  not depend on the clock. By then others may have moved the bucket on, and an update in a
  bucket's past rewinds it. Such a cancel returns exactly its token if and only if the rate
  is zero or that token fills the bucket, and otherwise mints the stretch it lies behind
  (`Buckets.StaleCancelMints`); the same holds of a quota set in the past
  (`Buckets.RewindMints`), which is why Reload reads the clock key by key.
* `breaker/breaker.go:36-38` lets exactly one probe through and refuses everybody else until
  that probe reports back. A call let through before the breaker opened may report first,
  and clears the claim: two probes can be out at once (`Takes.TwoProbesCanBeOut`). While a
  probe is out another call can be let through if and only if some call other than the
  prober's is in flight already (`Takes.ProbeKeepsOthersOutWhen`).
* `breaker/breaker.go:47-50` wants every path out of a guarded call to report. `Gate.wait`
  leaves without a report when the owner shuts down (`gate/admit.go:180-181`). Of all the
  ways out it is the only one that keeps a claimed probe (`Takes.ResolvingReleasesTheProbe`),
  and it can leave the breaker shut for good (`Takes.ShutdownCanStrandTheProbe`,
  `Takes.StuckIsForGood`).
* ADR 0004 promises one Take per admitted request. Reserve keeps a token whose delay is
  positive without asking (`limiter/reserve.go:84`); it asks exactly when the token was
  there at once (`Reservations.Reservation.constructor`).
* `pollDelay` is documented to lie in [d, 1.5d]. The sum is an int64, so this holds exactly
  when d + d/2 fits one (`Gates.PollDelayStaysInRange`); a backend may send more.
* `bucket/parse.go:57-58` says ParseLimit accepts what String prints. It refuses the "0" of
  a rate at or below zero and the numeral of a NaN, and reads a true infinity back as `Inf`;
  the round trip holds exactly for the numbers above zero (`Rates.RoundTrip`).
* `bucket/rate.go:43-44` says the unit String picks keeps the number at or above one. It does
  exactly for rates of at least one an hour (`Rates.TextInShortestPeriod`).
* Evict deletes before it saves (`registry/gc.go:36-53`), so the order the sweep keeps does
  not extend to it: a failed save loses the state (`Registry.Registry.Evict`).

## Assumptions

* golang.org/x/time/rate is not in the repository. `Buckets.Level` is what pace relies on:
  a full start, lazy refill capped at the burst, reservations that may go below zero with
  a delay of exactly deficit over rate, and a cancel that returns the whole token, capped,
  at once. Every update, a cancel included, moves the bucket to the instant it is given,
  even when that lies in the past. The library's partial refund when later reservations
  exist is not modelled.
* Reading the clock and acting on it are two things: every instant a call passes to a bucket
  may lie behind the bucket and behind the clock by any amount.
* Tokens and rates are reals. Nanosecond truncation is kept wherever the code converts to
  a Duration: the drain instant, DelayAt and FallbackDelay. A conversion that does not fit
  yields an arbitrary value (`wild`).
* Of strconv, `Rates.RoundTrip` assumes that the one number a rate is printed as is read back
  from its text; `Rates.RationalsRoundTrip` has a reader and a printer that do so for every
  rational number.
* A timer that ran its course ran for what the log says it was set to, and nothing is asked of the backend
  before the reservation it follows (`Gates.Proper`, `Gates.Timely`).
* In the fleet there are one key, one fixed quota and one clock; the backend is its
  contract in `shared/shared.go:24-35`.
* Clock readings, random draws, map iteration order, what a backend or a store answers and
  what other goroutines do between two lock sections are parameters, so each statement
  holds for all of them.
* A request inside the barrier eventually does its next step; `Lifecycle.ClosingCanFinish`
  says such steps suffice, not that a scheduler takes them.

## Model

| member | source | states |
|---|---|---|
| Buckets.FreshIsFull | bucket/bucket.go:61-67 | a new bucket reads as its whole burst at every instant |
| Buckets.ReadsCompose | bucket/bucket.go:144-145 | when a bucket was last brought up to date cannot be observed, and reads only grow |
| Buckets.ReserveReads | bucket/bucket.go:188-193 | a reservation costs exactly one token at its instant and at most one at any later one |
| Buckets.StaleReserveReads | gate/admit.go:104-105 | a reservation as of an instant the bucket or the clock is past costs at most one token and earns at most the time it lags behind |
| Buckets.TicketReadyWhenPaid | bucket/bucket.go:199-200 | the delay reported is over at an instant if and only if the bucket owes nothing by then |
| Buckets.CancelReads | bucket/bucket.go:202-210 | a cancel in time returns one token, capped at the burst, at every later instant, plus the stretch it lies behind the last update |
| Buckets.StaleCancelMints | gate/admit.go:53-58 | a cancel behind the last update returns exactly its token iff the rate is zero or the token fills the bucket |
| Buckets.CancelUndoesReserve | gate/admit.go:35-38 | reserving and cancelling at that instant is invisible to every later read, but for the stretch the instant lies behind the last update |
| Buckets.CancelWhileWaiting | bucket/bucket.go:212-219 | so is giving up at any instant up to the token's time |
| Buckets.DelayIsExact | bucket/bucket.go:221-237 | DelayAt is the least wait up to its truncated nanosecond: no token sooner, one right after; nothing when a token is there or none will ever be |
| Buckets.RestoreReads | bucket/bucket.go:99-142 | a restored bucket stays in [0, burst] for any saved count, never above what was earned and less than a nanosecond's refill below it |
| Buckets.RestoreCredits | bucket/bucket.go:98-142 | it reads what was saved plus what was earned since, up to the burst and less a nanosecond's refill at most; a count that is no number counts as nothing, an instant yet to come earned nothing |
| Buckets.SnapshotIsHonest | registry/registry.go:312-325 | the count stored beside LastUsed is the count at LastUsed iff no time has passed since it or since a later update of the bucket, the rate is zero, or the bucket was full |
| Buckets.EvictThenRestore | registry/registry.go:280-293 | evict then restore keeps what the key had, less at most one nanosecond's refill, and adds at most the refill between LastUsed and the snapshot |
| Buckets.RequotaKeepsTokens | bucket/bucket.go:161-178 | a quota change leaves exactly the tokens held, cut to the new burst |
| Buckets.ReloadsMintNothing | registry/registry.go:349-397 | over any run of requests and reloads, grants plus what is left never exceed what was there plus the integral of the rate |
| Buckets.ReloadsStayUnderBurst | bucket/bucket.go:161-182 | hence grants are at most the initial burst plus that integral |
| Buckets.RewindMints | registry/registry.go:352-356 | a quota set at an instant in the bucket's past mints the rewound stretch, and is harmless iff the rate is zero or the bucket full |
| Buckets.Bucket.constructor | bucket/bucket.go:61-67 | the new bucket reads as its whole burst at every instant |
| Buckets.Bucket.Restore | bucket/bucket.go:99-127 | the same of the bucket itself |
| Buckets.Bucket.SetQuotaAt | bucket/bucket.go:173-178 | published quota and limiter agree, and the tokens are kept up to the new burst |
| Buckets.Bucket.AllowAt | bucket/bucket.go:180-182 | a token is spent iff a whole one was there; a refusal changes nothing |
| Buckets.Bucket.ReserveAt | bucket/bucket.go:188-193 | it always succeeds, the count falls by one token at its instant, and the ticket is delayed at a later instant iff the bucket owes tokens then |
| Buckets.Bucket.CancelAt | bucket/bucket.go:202-210 | one token more at every later read, capped, plus the stretch rewound; nothing at all when it comes too late |
| Buckets.Bucket.WaitAt | bucket/bucket.go:212-219 | a wait that succeeds costs one token; one declined, or given up by the token's time, costs nothing at any later read; given up after it, the token is lost |
| Fleet.StepKeepsInv | gate/admit.go:20-58 | every atomic step of every call keeps the strengthened shadow inequality for every shadow |
| Fleet.ShadowsCoverTheBackend | docs/adr/0004-shared-quota-is-approximate.md:23-38 | in every reachable state each shadow plus what it gave out uncharged is at least the backend's count |
| Fleet.LocalRefusalIsSound | gate/admit.go:24-31 | a shadow owing nothing that refuses as of any past instant proves the backend holds less than a token and what was earned since; as of the present, that it would refuse |
| StaleRuns.LateRefusalsAreSoundWhen | gate/admit.go:39-46 | refusals as of an instant `gap` ago are sound in every reachable state iff the rate is zero or the gap is none |
| Fleet.RefusalIsSoundOnceForgiven | docs/adr/0004-shared-quota-is-approximate.md:23-33 | along any run, what a shadow gave out uncharged since it was last full covers the gap to the backend, so a refusal as of any instant is as sound whenever that is nothing |
| Fleet.CoverIsTight | docs/adr/0004-shared-quota-is-approximate.md:23-33 | for every number of uncharged tokens a reachable shadow is short by exactly that many, so the bare inequality fails from one on |
| Fleet.BackendConserves | shared/shared.go:24-35 | grants plus what the backend has left never exceed what it had and earned, whatever replicas do |
| Fleet.LetThroughIsPaid | gate/admit.go:98-211 | over any run, requests let through by whichever path equal the backend's grants plus those admitted by policy or as a delayed Reserve, less the grants whose answer was lost |
| Fleet.FleetAdmitsAtMost | docs/adr/0004-shared-quota-is-approximate.md:43-48 | the whole fleet lets through at most burst + rate·W plus those let through without asking, less the grants lost, for any N |
| Fleet.BucketAdmitsAtMost | gate/admit.go:39-63 | one bucket lets through at most burst + rate·(W + edge + rewinds), plus what was given back, plus what still waits, in a window opening quiet, under any refusals, failures, policy and stale instants |
| StaleRuns.StaleCancelsAdmitMore | gate/admit.go:53-58 | a reachable run with no edge in which stale cancels make a bucket admit more than burst + rate·W |
| StaleRuns.StaleReadingsAdmitMore | gate/admit.go:104-105 | a reachable run without rewinds that exceeds burst + rate·W and attains the bound with its edge |
| Fleet.BucketsAdmitAtMost | gate/gate.go:222-234 | N buckets, the edge and rewinds of each at most lag, let through at most N·(burst + rate·(W + lag)), plus what was given back, plus what still waits |
| Breakers.Breaker.Allow | breaker/breaker.go:53-69 | admits when closed, or as the one probe after the cooldown, claiming it |
| Breakers.Breaker.Succeed | breaker/breaker.go:71-78 | closes the breaker from any state |
| Breakers.Breaker.Fail | breaker/breaker.go:80-98 | a failed probe reopens at once, the Threshold-th failure opens; failures stay below Threshold |
| Breakers.Breaker.Abandon | breaker/breaker.go:100-109 | releases the probe and touches nothing else |
| Breakers.OutageCostsLittle | breaker/breaker.go:24-30 | at most Threshold + floor(W / Cooldown) calls reach a dead backend in any window, from any sane state |
| Breakers.OutageBoundIsTight | breaker/breaker.go:24-30 | and for every number of cooldowns some sequence of calls attains it |
| Takes.StepKeepsInv | gate/gate.go:148-194 | every atomic step keeps probe ownership and all three counters in balance |
| Takes.ProbeHasAHolder | breaker/breaker.go:42-51 | a claimed probe implies open, failures below Threshold, and a claimant in flight (or gone silently at shutdown) |
| Takes.ResolvingReleasesTheProbe | gate/admit.go:175-189 | each way out of a call releases a claimed probe, except exactly wait's shutdown branch |
| Takes.StuckMeansForever | breaker/breaker.go:55-69 | a breaker that is open with its probe claimed admits no instant ever, and only such a one |
| Takes.StuckOnlyAfterSilence | gate/admit.go:180-181 | with nothing in flight and no shutdown some later call is admitted |
| Takes.StuckIsForGood | breaker/breaker.go:55-69 | with nothing in flight, the breaker is stuck iff no continuation ever lets a call through |
| Takes.ShutdownCanStrandTheProbe | gate/admit.go:180-181 | a run of the code that leaves the breaker stuck |
| Takes.ProbeKeepsOthersOutWhen | breaker/breaker.go:36-38 | with a probe out, some run lets another call through before it is back iff some other call is in flight now |
| Takes.TwoProbesCanBeOut | breaker/breaker.go:36-38 | a reachable state with two probes in flight |
| Takes.CountersAddUp | gate/gate.go:148-194 | takes and failures equal the calls that ended each way plus those in flight |
| Gates.FallbackIsBounded | gate/gate.go:258-286 | FallbackDelay lies between ten milliseconds and thirty seconds for every rate |
| Gates.FallbackIsOnePeriod | gate/gate.go:278-286 | it is one token-period cut to a nanosecond, ten milliseconds for a shorter one or no rate, thirty seconds for a longer one |
| Gates.RetryHonours | gate/gate.go:209-220 | the backend's own schedule when it sent one, otherwise that period |
| Gates.PollDelayStaysInRange | gate/gate.go:236-253 | every draw stays in [d, d + d/2] iff d + d/2 fits a Duration |
| Gates.PollDelayCanWrap | gate/gate.go:247-253 | a RetryAfter and a draw for which the sum is negative |
| Gates.QuitLeavesNoTrace | gate/gate.go:175-182 | with no other call in between, a call its caller abandons neither closes, nor charges, nor blocks the breaker (otherwise see Takes.ProbeKeepsOthersOutWhen) |
| Gates.AllowKeepsOrReturns | gate/admit.go:39-63 | Allow's operations keep exactly one token when it says yes and otherwise return it at its own instant, asking only for a token that is there |
| Gates.ReserveKeepsOrReturns | limiter/reserve.go:66-104 | a reservation that is OK holds its token, delayed and unasked or asked for; one that is not has returned it |
| Gates.OnceStands | gate/admit.go:98-134 | one round ends holding its token iff it returns nil, and has otherwise cancelled it at its own instant |
| Gates.AcquireIsDecided | gate/admit.go:98-134 | the loop is still going iff every round was refused and slept out; the first other round decides: nil iff let through by the backend or the policy, Interrupted iff a sleep was cut short, Unavailable iff Deny met no answer, Closed or CallerGone iff the owner or the caller had gone |
| Gates.AcquireHoldsItsPromise | gate/admit.go:83-135 | for every sequence of answers, interferences and cancellations: nil keeps exactly one token, its last operation the question that let it through, an error keeps none, nothing is asked before the token's time, Throttled fires once if the caller had to wait at all and not otherwise |
| Gates.AsksFollowRounds | gate/admit.go:98-134 | the k-th Take is the k-th round's, and all before the last were refused and slept out |
| Gates.TakesAreSpaced | gate/admit.go:127-133 | consecutive Takes are at least as far apart as the backend said, when it did, and otherwise at least one token-period |
| Gates.UnscheduledPollsDoNotSpin | gate/gate.go:258-262 | n unscheduled refusals take at least (n-1)·10ms |
| Gates.Gate.Take | gate/gate.go:148-194 | an answer is passed on and leaves the breaker admitting at every instant; the policy decides only when none came, which counts against the breaker if it was asked for; who has left is told so whatever the policy; each counter |
| TakeRuns.TakeIsARun | gate/gate.go:148-194 | Take does to breaker and counters what a run of the machine of concurrent calls does |
| TakeRuns.WaitIsARun | gate/admit.go:150-192 | and so does Wait |
| Clients.CallDeadBackend | gate/gate.go:164-188 | of any sequence of Takes and Waits made in turn while no answer comes, at most five and one every five seconds reach the backend |
| Gates.Gate.Unanswered | gate/gate.go:222-234 | only Deny refuses when there is no answer |
| Gates.Gate.Allow | gate/admit.go:39-63 | lets through iff the shadow holds a token and the backend or the policy consents; a refusal reports exactly the backend's delay, or one token-period when it named none, returns the token to what others have left, and undisturbed is invisible to every later read but for the stretch a stale instant rewinds |
| Gates.Gate.Acquire | gate/admit.go:83-135 | run on a bucket and breaker that others move between its operations, through Take: it ends as the rounds decide, and every operation's effect and the counters are theirs |
| Acquires.LogIsAFleetRun | gate/admit.go:83-135 | any log that is not wrong, woven with anything other calls do, is a legal execution of the fleet with the same effects on the shadow |
| Acquires.AcquireIsAFleetRun | gate/admit.go:83-135 | so is every Acquire: on nil one call Granted or, without an answer, Fallback, all its others returned; otherwise all returned |
| Acquires.AllowIsAFleetRun | gate/admit.go:39-63 | and every Allow |
| Acquires.WaitIsAFleetRun | gate/admit.go:150-211 | and every call on the waiting path: let through without a token, with one of the shadow by policy, refused with all returned, or its token lost when given up too late |
| Acquires.ReservationIsAFleetRun | limiter/reserve.go:50-148 | and every reservation, cancelled or not |
| Acquires.AnUndisturbedAcquire | gate/admit.go:98-126 | such a run exists from every state in which shadow and backend hold a token |
| Gates.WaitServesOrKeeps | gate/admit.go:150-211 | a parked caller is let through by the backend, by shared.Allow, or with a token of the shadow kept, and in no other way |
| Gates.Gate.Wait | gate/admit.go:150-192 | the parking path, its counters, the failure that counts against the breaker, the shutdown branch that tells it nothing; without an answer FallbackLocal spends a token of the shadow or fails, and the other policies and outcomes leave it alone |
| Gates.Gate.WaitFallback | gate/admit.go:194-211 | the policy without a reservation in hand: FallbackLocal waits on the bucket, the others leave it alone |
| Reservations.Reservation.constructor | limiter/reserve.go:50-104 | the backend is asked iff the token is there at once; OK keeps the token, a refusal gives it back invisibly and quotes the backend's delay, or one token-period when it named none |
| Reservations.Reservation.Cancel | limiter/reserve.go:124-148 | one token back, at most once, and none after the delay or when not OK; a stale instant also rewinds |
| RegistryRuns.StepKeepsInv | registry/gc.go:32-224 | every step, with a lock-free Touch possible anywhere, keeps shards, live counters, entries, debts and locks consistent, for any number of threads |
| RegistryRuns.WritersAreAlone | registry/registry.go:151-160 | no two threads are on one shard unless both only read it |
| RegistryRuns.StepRefinesFlat | registry/registry.go:225-278 | each step is a lookup, an insertion under an absent key, a removal or nothing of one flat map |
| RegistryRuns.RemovedNeverReturns | registry/gc.go:58-98 | an entry off the map is never on it again in any continuation |
| RegistryRuns.HandedIsCurrent | registry/registry.go:238-278 | whoever is handed an entry is handed the one its key maps to at that moment |
| RegistryRuns.StaysCurrent | registry/registry.go:266-278 | an entry not removed is what its key maps to, however long after |
| RegistryRuns.CallersShareTheEntry | registry/registry.go:251-277 | two callers handed different entries of a key, found or created, prove the first was removed in between |
| RegistryRuns.InsertionsAreAccountedFor | registry/gc.go:8-56 | insertions equal Keys + Evictions + removed but unreported + Evicts whose Save failed; live equals each shard's size; keys sit in their own shard |
| RegistryRuns.CountAllEffect | registry/gc.go:93-97 | counting a drop in bulk has the effect of counting it key by key |
| SweepRuns.TestReadsTheStamp | registry/gc.go:169-183 | a sweep goes on to delete only what it finds on the map, in the same entry, with the stamp it was seen with |
| SweepRuns.WalkReadsTheStamp | registry/gc.go:131-149 | phase 1 picks an entry up iff it was last used before the cutoff, with the stamp it compared |
| SweepRuns.VisitReadsTheStamp | registry/gc.go:203-215 | an in-place sweep goes on to delete an entry iff it was last used before the cutoff |
| SweepRuns.SweepDeletesOnlyFlushed | registry/gc.go:157-183 | what it deletes existed when its snapshot ended, is still its key's, and was flushed with the stamp the test read |
| SweepRuns.FlushedStampSurvives | registry/gc.go:164-173 | from the test on, no run of the others changes the entry's stamp before it is deleted iff nobody else has the entry in hand at the test |
| SweepRuns.SweepLosesATouch | registry/gc.go:172-173 | a reachable sweep about to delete an entry whose stamp no Flush was handed |
| SweepRuns.SweepRemembers | registry/gc.go:120-188 | what a sweep may delete is fixed from the end of phase 1 on, whatever runs beside it |
| SweepRuns.SweepSparesTheNew | registry/gc.go:164-183 | an entry created after its snapshot is never among what a sweep deletes |
| ReloadRuns.ReloadRenews | registry/registry.go:349-378 | when a Reload is done, beside anything, every key on the map has the answer in force when it began or a later one, or was given an older one by a call that held it then |
| ReloadRuns.ReloadReachesEveryKey | limiter/limiter.go:186-195 | with no such call it has renewed every key |
| ReloadRuns.ReloadMissesAKey | registry/registry.go:266-277 | a reachable run in which an inserter's older answer outlives a Reload |
| Registry.SumIsSize | registry/registry.go:300-306 | the live counters add up to the number of keys on the map |
| Registry.Registry.Load | registry/registry.go:99-101 | what was saved for the key, if reachable; callable only with no shard lock held, as every call site is proved to do |
| Registry.Registry.Save | registry/registry.go:103-106 | the state, saved if the store took it; callable only with no shard lock held |
| Registry.Registry.Flush | registry/registry.go:108-112 | the whole batch reaches the store in order; callable only with no shard lock held |
| Registry.Registry.NewEntry | registry/registry.go:280-293 | with something saved the tokens saved and earned since and the saved stamp, otherwise full at every instant and stamped now; one clock reading, under the lock |
| Registry.Registry.GetOrCreate | registry/registry.go:240-278 | the entry on the map wins, one a rival inserted while no lock was held included; otherwise one new entry is inserted, holding what was saved and earned since or else full, and no other key changes; the clock is read under the lock once iff the key is absent at both looks |
| Clients.EvictThenGet | registry/registry.go:240-293 | a key evicted onto an accepting store and asked for again has its stamp and its tokens, within EvictThenRestore's two bounds |
| Registry.Registry.Evict | registry/gc.go:32-56 | exactly that key goes; its tokens at the clock reading and its stamp are saved and reported iff the save works, lost and unreported otherwise |
| Registry.Registry.Reload | registry/registry.go:349-378 | exactly every key on the map gets its quota, at a clock reading of its own taken with no lock held; no key, identity or stamp changes |
| Registry.Registry.ReloadKey | registry/registry.go:380-397 | the same for one key, which is not created when absent |
| Registry.ReloadKeepsTokens | registry/registry.go:349-378 | a reloaded key holds exactly its tokens cut to the new burst, under the new quota |
| Registry.Registry.Walk | registry/gc.go:131-149 | one shard's wanted keys, each once, with what they held |
| Registry.Registry.SnapshotAll | registry/registry.go:333-347 | every key on the map exactly once, with what it held, and nothing touched |
| Registry.Registry.DropAll | registry/gc.go:58-98 | empties the map, counts every key whether or not anyone listens, reports each once, with what it held, if someone does |
| Registry.Registry.SweepInPlace | registry/gc.go:190-224 | exactly the keys last used before the cutoff go and the others keep their entry; all counted, each reported once with what it held iff observed |
| Registry.Registry.Sweep | registry/gc.go:100-188 | exactly the keys go that were last used before now less the idle expiry and whose entry and stamp are unchanged after the flush; every other key keeps its entry; the flush got every idle key once, and the owner is told what each held |
| Registry.RemainingOnce | registry/gc.go:164-186 | what phase 3 reports names each deleted key exactly once |
| Registry.UnmovedKeys | registry/gc.go:169-183 | a key is deleted iff some entry seen still stands there with the stamp it was seen with |
| Registry.SweepsAgree | registry/gc.go:112-118 | with nobody interfering a persisting sweep deletes what an in-place one deletes |
| Registry.ListedIsSaved | limiter/lifecycle.go:133-137 | on an accepting store each listed key reads back the state it was listed with |
| Registry.Teardown | limiter/lifecycle.go:129-141 | the flush is handed every key the drop discards, each once; then no key is left and Evictions grew by their number; an accepting store holds each key's tokens at the clock reading and its stamp |
| Persist.ChunksPartition | limiter/persist.go:95-130 | the batches are the input in order, none empty, at most 512, full but for the last |
| Persist.BatchingIsInvisible | limiter/persist.go:98-140 | on an accepting store both paths leave the same map, the one writing in order leaves |
| Persist.AcceptedCallIsSaved | limiter/persist.go:123-138 | a snapshot in an accepted call is saved whatever subset of theirs the other calls wrote, unless a later one has its key |
| Persist.WrittenReads | store/store.go:34-40 | the last state written for a key is what it reads back |
| Persist.WrittenSpares | store/store.go:34-40 | a write touches no other key |
| Persist.Persistence.Load | limiter/persist.go:67-80 | a store error counts as nothing saved, and is logged |
| Persist.Persistence.Save | limiter/persist.go:82-93 | the store's failure is returned; whether it was written all the same is the store's affair |
| Persist.Persistence.Flush | limiter/persist.go:98-140 | every snapshot is handed over exactly once in order whatever fails, each failure logged, and nothing at all when not persisting |
| Lifecycle.StepKeepsInv | limiter/lifecycle.go:32-169 | every step of requests, closers and the GC keeps the teardown's milestones |
| Lifecycle.NothingTouchesAClosedStore | limiter/lifecycle.go:114-125 | once the store is closed no thread is in Load, Save or Flush, now or in any continuation |
| Lifecycle.TeardownRunsOnce | limiter/lifecycle.go:126-154 | the teardown runs at most once, and completely by the time any Close or Shutdown returned |
| Lifecycle.TeardownWaitsForEveryone | limiter/lifecycle.go:130-151 | flush, drop and close happen in that order, after the GC exited and the active count is zero |
| Lifecycle.NobodyEntersAfterTheFlag | limiter/lifecycle.go:83-100 | after the flag is set those inside only get fewer |
| Lifecycle.SomeoneHelps | limiter/lifecycle.go:123-125 | while a closer has not returned some step brings it nearer, with no new call and no expiring context |
| Lifecycle.ClosingCanFinish | limiter/lifecycle.go:123-155 | from every state with a Close or Shutdown under way there is a finite run in which it returns |
| Configs.PowerTest | limiter/validate.go:28-29 | n & (n-1) == 0 iff n is a power of two |
| Configs.MaskIsRemainder | registry/registry.go:212-223 | masking with a power of two less one is the remainder |
| Configs.ShardIndex | registry/registry.go:203-223 | the index is the FNV-1a hash modulo the shard count, and in range |
| Configs.FnvVectors | registry/registry.go:203-223 | that hash gives the published value on two test vectors |
| Configs.RoundUpPowerOfTwo | config/config.go:310-325 | the least power of two at least n, for every n in bounds |
| Configs.WithDefaults | config/config.go:246-280 | what was given stays, and what every other field becomes; the engine accepts the result |
| Configs.Resolve | config/config.go:204-244 | resolves iff rate, URL and shard count are usable, naming the first that is not, to the configuration given with every optional field filled in, and only to what limiter.validate and registry.New accept; resolved ones are fixed points |
| Rates.SpaceIsIgnored | bucket/parse.go:48-49 | whitespace anywhere changes no answer |
| Rates.CaseIsIgnored | bucket/parse.go:48-49 | nor does case |
| Rates.MapOrderIsIgnored | bucket/parse.go:117-121 | nor the order Go ranges over its map in |
| Rates.SlashedMeans | bucket/parse.go:107-116 | number, slash, period means the number over the period's length |
| Rates.SlashedParses | bucket/parse.go:71-116 | before a slash a number above zero is shared out over the second, minute or hour behind it, in any of its fifteen spellings; zero or less, no number, NaN and too large are each refused as such, and so is any other period |
| Rates.ShorthandParses | bucket/parse.go:30-35 | the same for rps, rpm and rph |
| Rates.WordsParse | bucket/parse.go:60-69 | nothing is refused as empty, the three words mean no limit |
| Rates.NothingElseParses | bucket/parse.go:112-127 | any other text names no period |
| Rates.ShorthandAgrees | bucket/parse.go:42-46 | 6rpm and 6/min are one rate, likewise rps and rph, whatever stands in front |
| Rates.AcceptedIsPositive | bucket/parse.go:52-55 | whatever is accepted is finite and above zero |
| Rates.RoundTrip | bucket/rate.go:45-60 | ParseLimit of String gives the limit back iff it is a number above zero |
| Rates.TextInShortestPeriod | bucket/rate.go:43-60 | String prints the rate over the shortest of second, minute and hour in which it comes to one or more, over the hour if none; so the number is at least one iff the rate is one an hour or more |
| Rates.SomePrinterInverts | bucket/rate.go:45-60 | what RoundTrip assumes of strconv some reader and printer provide, for every rational and every non-number |
| Rates.RationalsRoundTrip | bucket/rate.go:45-60 | with them, every rational rate above zero and no other rational survives the round trip |

## Left out

* client/, urlx, observe, stats, hooks and error texts: I/O, formatting and reporting.
* Normalising a quota (`limiter/quota.go`, `usableRate`): a case split; quotas are taken as normalised, rate zero or positive and burst at least one.
* Infinite rates inside buckets and the fleet: such a key skips the backend and the arithmetic.
* Reloads and differing clocks inside the fleet model; several keys in it, which share nothing but the breaker.
* Timers, contexts and `rand` themselves: a sleep that ran its course, a context that expired and a drawn jitter are parameters.
* Bucket.Wait's own timer: how a wait ends is a parameter, its pacing is the library's.
* Contents of buckets inside RegistryRuns: there an entry is an identity, a key and a stamp.
* store/memory, the conformance suites, examples, benchmarks and cache-line padding.
- Gates.Gate.Acquire: each Take is one step of it, so what other calls do to the breaker within a Take is in Takes and not here; the branch for a bucket that can never satisfy a request is left out of the loop because a normalised quota rules it out (`Buckets.Bucket.ReserveAt`).
- Acquires.AcquireIsAFleetRun: the fleet has one fixed quota, so a reload in the middle of a call is in Gates and not here.
- Gates.Gate.Wait: as for Acquire, what other calls do to the breaker while the caller is parked is in Takes.
- Registry.Registry.GetOrCreate: entries are values with an identity, so a Touch through an entry handed out earlier shows in RegistryRuns and not here.
- Registry.Registry.Reload: entries evicted while their shard's batch is worked off, whose buckets the code still sets, are in ReloadRuns and not here; ReloadRuns in turn knows which answer a bucket enforces and not its tokens.
- Registry.Registry.Sweep: what others do is gathered into one step while the flush runs; steps between single deletions, and a Touch between a test and its deletion, are in RegistryRuns and SweepRuns.
- Persist.Persistence.Flush: the reused batch slice is a fresh value each time, so a store that kept the slice and saw it overwritten is not modelled.
- Lifecycle.ClosingCanFinish: a request waiting for its token is always able to go on, so the statement is about the barrier and not about how long a wait lasts.
- Rates.CaseIsIgnored: letters are folded as Go folds them where a rate can contain the result; another letter stands for itself, which no period, word or numeral contains either way.
