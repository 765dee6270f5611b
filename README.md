# Airport resource arbiter, modelled in Dafny

The airport simulator runs one thread per flight. Each flight lands, deboards
and takes off, and on the way it competes for three capacity-limited resource
pools: 3 runways, 5 gates and 2 control-tower slots. Each pool is guarded by
an *arbiter*: a mutex, three condition variables (critical, international,
domestic), a count of free units and counts of waiting critical and
international requesters. Waiters are admitted in strict tier order:
critical before international before domestic. A requester that waits too
long is promoted to critical, and one that waits longer still crashes.

Two revisions are modelled.

- `trabalho.c` (module `Trabalho`):
  - All three arbiters count free units.
  - A request gives up after a one-second attempt.
  - A flight retries a whole phase plan after a give-up.
- `v3Trabalho.c` (module `V3Trabalho`):
  - The tower counts its users instead of its free slots.
  - A critical requester ignores its timeouts.
  - A request never gives up, and a flight never retries.
  - Every crash path gives back what the flight holds.

Two modules are shared between the revisions:

- `Arbitration`: the admission predicate and the choice of the tier a release wakes.
- `Bookkeeping`: the log of one flight's acquisitions and releases, and the set of resource kinds it holds.

A critical section of the source is the code between locking an arbiter's
mutex and unlocking it or sleeping on one of its condition variables. The
methods of an `Arbiter` class (a `Tower` class for the v3 tower) are the
atomic steps of these sections: entering and leaving a wait slice, the
timeout check, the grant and the release. Each changes only the fields it
names. `Request` strings the steps together into the whole wait loop of one
request:

- A sequence of wake-ups (`Wake(timedOut, now)`) stands in for the condition-variable waits and the clock.
- If that sequence runs out, the reply is `StillWaiting`.

The lifecycles run over an oracle of the replies their acquisitions get, in
order. They return:

- the log of takes and gives, which is proved legal (a flight never takes a kind it holds, nor gives one it does not);
- the sequence of statuses the flight went through.

A `Journey` function of each revision states where the replies lead: the
final status and the statuses on the way. A log function of each revision
(`TripLog`, `LifeLog`) states the events the replies lead to: each phase's
takes, the gives after a give-up or a crash, and the release after the
phase's operation. Each `Lifecycle` method is proved to end exactly as its
`Journey` says, with exactly that log. In the first revision a phase's retry
loop is the function `PhaseRun`, which repeats the pass `Attempt` until a
pass does not end in a give-up.

`Bookkeeping.NetTracksHolding` is a counter balance over one flight's log:
for each kind, the takes minus the gives equal the change in whether the
flight holds that kind. So a log that ends holding nothing gives back every
unit it took. The log is a record of the acquisitions and releases; it is not
replayed against the arbiter objects.

Behaviour of the code kept as written:

- **Release order after a phase's operation.** It is fixed per phase: landing gives back the runway then the tower; deboarding the tower then the gate (the first revision); takeoff the gate, the runway, then the tower. It is not the reverse of acquisition order.
- **Wait start in the first revision.** It is set once, when landing begins (`trabalho.c:108`); the resets for deboarding and takeoff are commented out. So the promotion and crash thresholds measure time since landing began. The second revision resets it at every request.
- **Crash on the second acquisition in the first revision.** During landing and deboarding the flight returns without releasing the resource it already holds. Only takeoff releases before the crash check.
- **Give-up in the first revision.** A give-up keeps the critical flag set, and leaves the promoting arbiter's critical counter raised.
- **No backoff counter.** Neither revision has one (the "deadlocks avoided" counter is never incremented), and the backoff between retries is a random sleep.
- **The tower in the second revision** uses the same three-tier predicate as the pools, on a user count.
- **The gate in the second revision** is kept from deboarding into takeoff.

The two defects of the first revision are modelled as written and exhibited by concrete scenarios:

- `Trabalho.LandingCrashKeepsRunway` and `Trabalho.LandingCrashLeaksRunway` show the leak. A runway granted and then a crash waiting for the tower leave the runway held, both after the pass and at the end of the flight's whole log.
- `Trabalho.StrandedPromotion` shows the stranded counter, through `Request`. Promotion and a give-up happen at one wake on the runway arbiter, and a grant of the tower follows. The runway arbiter's critical counter stays at 1 and the tower's drops to -1. Once the runway is free again, every non-critical requester still must wait.

For the first revision, `Trabalho.Lifecycle` states the weaker truth. After a
landing or deboarding crash the flight may still hold the first resource of
the phase plan. Only after a takeoff crash does it hold nothing.

In the second revision a finished request always leaves the flight
non-critical, and it moves the arbiter's critical counter only by the flag
the flight brought in. Flights are created non-critical (`v3Trabalho.c:97`),
so in the lifecycle every promotion is undone by the grant on the same
arbiter.

## Model

| member | source | states |
|---|---|---|
| Arbitration.TierOf | trabalho.c:268 | a critical requester sleeps on the critical queue and any other on the queue of its category, each case if and only if |
| Arbitration.WakeTier | trabalho.c:326-328 | a release wakes the critical tier exactly when a critical waiter is counted, else the international tier exactly when an international one is, else the domestic tier |
| Arbitration.MustWait | trabalho.c:262-264 | a requester waits exactly when no unit is free or its tier ranks below the tier a release would wake |
| Arbitration.AdmittedIffTierReached | trabalho.c:262-264 | with a free unit, a requester may proceed if and only if its tier ranks at least as high as the tier a release would wake |
| Arbitration.CriticalWaiterHoldsBackOthers | trabalho.c:263 | while a critical waiter is counted, no non-critical requester proceeds, whatever the free units |
| Arbitration.InternationalWaiterHoldsBackDomestic | trabalho.c:264 | while an international waiter is counted, no non-critical domestic requester proceeds |
| Arbitration.HigherTiersAdmittedFirst | trabalho.c:262-264 | admission is monotone in tier: whenever a domestic requester may proceed so may an international one, and whenever a non-critical one may so may a critical one |
| Arbitration.CriticalWaitsOnlyForUnit | v3Trabalho.c:179-181 | a critical requester waits if and only if no unit is free |
| Bookkeeping.Takes | trabalho.c:196-203 | acquiring a plan logs one take per resource, in plan order |
| Bookkeeping.Gives | trabalho.c:243-245 | giving back a list logs one give per resource, in that order |
| Bookkeeping.NetTracksHolding | trabalho.c:316-325 | along a legal log, units of a kind taken minus units given back equal the change in whether the flight holds that kind (counter balance) |
| Bookkeeping.TakesAll | v3Trabalho.c:121-127 | taking distinct kinds not yet held is legal and adds exactly those kinds |
| Bookkeeping.GivesAll | trabalho.c:206-207 | giving back distinct held kinds is legal and removes exactly those kinds |
| Trabalho.StatusText | trabalho.c:393-403 | the report text is "ACIDENTE" exactly for an accident and "Concluido" exactly for a completed flight |
| Trabalho.StatusTextInjective | trabalho.c:393-403 | no two statuses print the same text |
| Trabalho.Flight.constructor | trabalho.c:78-82 | a new flight has its id and category, awaits landing and is not critical |
| Trabalho.Statistics.constructor | trabalho.c:362-365 | every statistic starts at zero |
| Trabalho.Decide | trabalho.c:281-311 | crash exactly when the wait since landing reaches 90 s; otherwise promotion exactly when not yet critical and the wait is at least 60 s, and, independently, give-up exactly when the attempt has lasted 1 s |
| Trabalho.PromotionWindow | trabalho.c:286-306 | promotion happens only to a non-critical requester and only between 60 s and 90 s, so never twice before a grant clears the flag; the crash check takes precedence |
| Trabalho.Arbiter.constructor | trabalho.c:336-345 | an arbiter starts with every unit free and no waiter counted |
| Trabalho.Arbiter.EnterSlice | trabalho.c:270 | before a wait slice the international counter goes up by one exactly for an international non-critical requester |
| Trabalho.Arbiter.LeaveSlice | trabalho.c:279 | after the slice the same requester takes itself off again |
| Trabalho.Arbiter.Timeout | trabalho.c:281-311 | the action is Decide's; a crash marks the flight, counts it and uncounts a critical flight without clearing its flag; a promotion sets the flag and raises the critical counter and the alert count by one; nothing else changes |
| Trabalho.Arbiter.Grant | trabalho.c:316-317 | free units drop by exactly one; a critical requester's flag is cleared and the critical counter drops by one; nothing else changes |
| Trabalho.Arbiter.Release | trabalho.c:322-332 | free units rise by exactly one and the tier woken is WakeTier of the waiter counts |
| Trabalho.Arbiter.Request | trabalho.c:254-320 | the international counter is restored; a grant takes one unit and leaves the flag clear; a grant is given only when the wait condition fails on the incoming counters and flag as raised by any promotion, and conversely a requester the wait condition admits on entry is granted at once, with no wake used and no promotion; a crash or a request still waiting ends with the wait condition holding on the raised counters, and a give-up with it holding on the raised or on the incoming counters (a promotion and a give-up can come from the same wake); every other reply leaves the free units alone; a crash comes only from a timed-out wake 90 s or more after the wait start, and marks and counts the flight; a give-up comes only from a timed-out wake 1 s or more into the attempt and before 90 s; every earlier timed-out wake was below both limits; a promotion comes only from a timed-out wake between 60 s and 90 s, and without one a flight that came in non-critical saw no timed-out wake from 60 s on; a grant or crash moves the critical counter by minus the incoming flag; a give-up keeps the flag and the critical counter raised by the promotion; a request still waiting has used every wake |
| Trabalho.Airport.constructor | trabalho.c:334-366 | 3 runways, 5 gates and 2 tower slots, all free, no waiter, zero statistics |
| Trabalho.StrandedPromotion | trabalho.c:281-320 | driven through Request: a domestic flight waiting since 0 that asks for a taken runway at 60 s and wakes timed out at 61 s gives up, promoted; the free tower is then granted to it; the runway's critical counter is stuck at 1, the tower's is -1, and once the runway is given back and free a non-critical newcomer must still wait |
| Trabalho.Plan | trabalho.c:110-239 | each phase plan lists the phase's resources once each; international plans take the tower last and domestic plans take it first; in takeoff the gate comes before the runway |
| Trabalho.ReleaseOrder | trabalho.c:146-245 | after each phase's operation exactly the phase's resources are given back, each once |
| Trabalho.PlansInvertTowerOrder | trabalho.c:111-125 | in every phase both categories need the same resources, and an international flight's first resource is one a domestic flight takes after the tower (the lock inversion) |
| Trabalho.Attempt | trabalho.c:110-142 | a pass stops holding all exactly at the end of the plan, uses no more replies than there are, and a give-up or crash consumes one reply more than the grants |
| Trabalho.AttemptReplies | trabalho.c:110-142 | every reply before a pass stops is a grant; it retries exactly after a give-up reply, is fatal exactly after a crash reply, and is blocked only at the end of the replies or on a reply still waiting |
| Trabalho.AttemptLog | trabalho.c:110-142 | a pass logs one take per granted resource in plan order, then gives back everything it took, in plan order, after a give-up or a takeoff crash, and nothing else |
| Trabalho.AttemptHolding | trabalho.c:195-239 | every pass is legal and leaves the flight holding the whole plan, nothing after a give-up or a takeoff crash, and otherwise what it acquired |
| Trabalho.LandingCrashKeepsRunway | trabalho.c:113-119 | an international flight granted the runway that crashes waiting for the tower ends holding the runway |
| Trabalho.LandingCrashLeaksRunway | trabalho.c:113-119 | over a whole life: an international flight granted the runway that crashes waiting for the tower ends in an accident after landing, and its whole log leaves it holding the runway |
| Trabalho.PhaseRun | trabalho.c:110-142 | the retry loop never ends on a give-up, uses no more replies than there are, and holds all exactly at the end of the plan |
| Trabalho.PassHolding | trabalho.c:110-142 | a pass of the retry loop from holding nothing keeps the log legal and leaves held what the pass's stop says: nothing after a give-up or a takeoff crash, otherwise what it acquired |
| Trabalho.PassStep | trabalho.c:110-142 | a pass that gives up resumes the loop after its replies, with the same end and the rest of the same log; any other stop is where PhaseRun ends, and the log so far is all of RunLog |
| Trabalho.RunPhase | trabalho.c:110-142 | the retry loop ends where PhaseRun says (the stop, the plan position, the replies used); its log is RunLog, the logs of PhaseRun's passes in order; the log is legal and leaves the flight holding what the last pass holds: every earlier pass gave back all it took |
| Trabalho.FlyPhase | trabalho.c:106-147 | the phase completes exactly when PhaseRun holds the whole plan and crashes exactly when PhaseRun stops on a crash, counting the crash; the log is PhaseLog: the retry loop's passes and, on completion, the phase's resources given back in the phase's release order; a completed phase holds nothing afterwards; a phase stopped short holds exactly what PhaseRun's last pass holds, so a landing or deboarding crash keeps what it acquired and a takeoff crash keeps nothing; a phase still waiting holds only phase resources |
| Trabalho.Lifecycle | trabalho.c:97-251 | the final status, the last phase and the statuses on the way are exactly Journey's for the replies; the log is TripLog, each phase's PhaseLog up to the first phase that does not hold its plan; the wait start is the landing start; the log is legal; Settled: a completed flight holds nothing and is counted a success; a crashed flight is counted a crash and holds at most the first resource of its phase plan, nothing after a takeoff crash; a flight still in a phase holds only that phase's resources and is counted neither way |
| Trabalho.Depart | trabalho.c:149-251 | after landing, deboarding and takeoff end exactly as Departure says; the log is DepartureLog, the deboarding PhaseLog and, once deboarding holds its plan, the takeoff PhaseLog; the log is legal; the holdings and statistics are Settled as for Lifecycle |
| Trabalho.Leave | trabalho.c:195-249 | takeoff ends exactly as Liftoff says; the log is the takeoff PhaseLog, legal; completed, the flight holds nothing and is counted a success; crashed, it holds nothing and is counted a crash; still waiting, it holds only takeoff resources |
| Trabalho.Journey | trabalho.c:97-251 | the statuses go landing, deboarding, takeoff, completed, possibly cut short by an accident, ending in the final status; the flight completes exactly when it passed through all three phases |
| Trabalho.Departure | trabalho.c:150-251 | from deboarding on, the same path guarantees as Journey |
| Trabalho.Liftoff | trabalho.c:195-251 | from takeoff on, the same path guarantees as Journey, with at least three statuses; the flight completes exactly when the statuses are landing, deboarding, takeoff, completed |
| Trabalho.PhaseDecisive | trabalho.c:110-142 | with replies that only grant or crash a phase makes one pass: it holds its plan, using one reply per resource, exactly when the next replies for its plan are all grants, and otherwise crashes |
| Trabalho.DecisiveReplies | trabalho.c:97-251 | with replies that only grant or crash, a flight completes exactly when its first seven replies are all grants and crashes exactly when one of them is a crash |
| Trabalho.DecisiveDeparture | trabalho.c:150-251 | the same after landing, for the next five replies |
| V3Trabalho.StatusText | v3Trabalho.c:375-383 | the report text is "ACIDENTE (Starvation)" exactly for an accident and "Concluido" exactly for a completed flight |
| V3Trabalho.CategoryText | v3Trabalho.c:374 | "Internacional" exactly for international flights and "Domestico" exactly for domestic ones |
| V3Trabalho.TextsInjective | v3Trabalho.c:374-383 | no two statuses and no two categories print the same text |
| V3Trabalho.Flight.constructor | v3Trabalho.c:95-97 | a new flight has its id and category, is scheduled and is not critical |
| V3Trabalho.Statistics.constructor | v3Trabalho.c:342-343 | every statistic starts at zero |
| V3Trabalho.Decide | v3Trabalho.c:203-218 | crash exactly for a non-critical requester whose request has waited 15 s; promotion exactly for a non-critical requester between 10 s and 15 s |
| V3Trabalho.CriticalOnlyWaits | v3Trabalho.c:203 | a critical requester's timeouts change nothing, and a non-critical one's change something exactly from 10 s on |
| V3Trabalho.Arbiter.constructor | v3Trabalho.c:317-323 | a pool starts with every unit free and no waiter counted |
| V3Trabalho.Arbiter.EnterSlice | v3Trabalho.c:185-192 | choosing the queue raises the international counter exactly for an international non-critical requester |
| V3Trabalho.Arbiter.LeaveSlice | v3Trabalho.c:199-201 | after the slice the same requester takes itself off again |
| V3Trabalho.Arbiter.Timeout | v3Trabalho.c:203-218 | the action is Decide's; a crash marks and counts the flight; a promotion sets the flag and raises the critical counter and the alert count by one |
| V3Trabalho.Arbiter.Grant | v3Trabalho.c:222-226 | free units drop by exactly one; a critical requester's flag is cleared and the critical counter drops by one |
| V3Trabalho.Arbiter.Release | v3Trabalho.c:231-243 | free units rise by exactly one and the tier woken is WakeTier of the waiter counts |
| V3Trabalho.Arbiter.Request | v3Trabalho.c:171-229 | the wait start is the request's start; the international counter is restored; exactly a grant takes one unit, and only when the wait condition fails on the incoming counters and flag as raised by any promotion; conversely a requester the wait condition admits on entry is granted at once, with no wake used and no promotion, and every other reply ends with the wait condition holding on the raised counters; exactly a crash marks and counts the flight, only from a timed-out wake 15 s or more after the start, and only for a flight neither critical on entry nor promoted; a promotion comes only from a timed-out wake between 10 s and 15 s, to a flight that came in non-critical, and without one such a flight saw no timed-out wake from 10 s on; every finished request leaves the flag clear and moves the critical counter only by minus the incoming flag, so a promotion is undone on the same arbiter; a request still waiting has used every wake |
| V3Trabalho.TowerMatchesPool | v3Trabalho.c:253-255 | the tower's user-count condition admits exactly whom a pool with capacity minus users free units would |
| V3Trabalho.TowerMustWait | v3Trabalho.c:253-255 | a tower requester waits exactly when the users fill the capacity or its tier ranks below the tier a release would wake |
| V3Trabalho.Tower.constructor | v3Trabalho.c:319 | the tower starts with no users and no waiter counted |
| V3Trabalho.Tower.EnterSlice | v3Trabalho.c:257-265 | choosing the queue raises the tower's international counter exactly for an international non-critical requester |
| V3Trabalho.Tower.LeaveSlice | v3Trabalho.c:271-273 | after the slice the same requester takes itself off again |
| V3Trabalho.Tower.Timeout | v3Trabalho.c:275-288 | as for a pool: the action is Decide's, with a crash marking and counting, a promotion flagging and counting |
| V3Trabalho.Tower.Grant | v3Trabalho.c:292-296 | users rise by exactly one; a critical requester's flag is cleared and the critical counter drops by one |
| V3Trabalho.Tower.Release | v3Trabalho.c:302-314 | users drop by exactly one and the tier woken is WakeTier of the waiter counts |
| V3Trabalho.Tower.Request | v3Trabalho.c:245-300 | as for a pool request, with one more user exactly on a grant; a grant only when the tower's user-count wait condition fails on the incoming counters and flag as raised by any promotion, conversely an immediate grant with no wake used when that condition admits the requester on entry, and otherwise a reply that ends with the condition holding on the raised counters |
| V3Trabalho.Airport.constructor | v3Trabalho.c:316-344 | 3 runways and 5 gates free, a tower of capacity 2 with no users, no waiter, zero statistics |
| V3Trabalho.LandingPlan | v3Trabalho.c:121-127 | landing needs the runway and the tower once each, and takes the tower first exactly for domestic flights |
| V3Trabalho.DeboardingPlan | v3Trabalho.c:135-136 | deboarding needs the gate and the tower once each, the tower second |
| V3Trabalho.TakeoffPlan | v3Trabalho.c:145-158 | takeoff, besides the gate already held, needs the runway and the tower once each, the tower first exactly for domestic flights |
| V3Trabalho.PairReply | v3Trabalho.c:121-127 | a phase's two acquisitions come to a grant exactly when both replies are grants, and to a crash exactly when the first is a crash or the first is a grant and the second a crash |
| V3Trabalho.Admitted | v3Trabalho.c:121-127 | the number of a phase's two acquisitions granted before the first that is not: two exactly when PairReply is a grant, the first reply a grant whenever one is admitted, and otherwise the first reply not granted is the one PairReply reports |
| V3Trabalho.PairLogHolding | v3Trabalho.c:121-127 | a phase's acquisition log is legal from what the flight carries; after a crash it holds nothing, otherwise what it carried and the kinds granted |
| V3Trabalho.PhaseLogHolding | v3Trabalho.c:119-164 | a whole phase's log is legal from what the flight carries; granted, it holds what it carried and took minus what it gave back; crashed, nothing; still waiting, what it carried and the kinds granted |
| V3Trabalho.Abort | v3Trabalho.c:146-157 | a crash marks and counts the flight and gives back, legally, everything it holds; still waiting changes nothing |
| V3Trabalho.AcquirePair | v3Trabalho.c:121-127 | both acquired exactly when PairReply is a grant, and then two replies are used; an accident exactly when PairReply is a crash; the log is PairLog: a take of each kind granted, in plan order, and after a crash a give of every kind carried and then of every kind just taken; the log is legal; all acquired means carried plus plan held; a crash means nothing held and one crash counted; still waiting means between the carried and all held |
| V3Trabalho.Land | v3Trabalho.c:119-131 | landing completes exactly when both of its replies are grants and crashes exactly when PairReply is a crash; the log is the landing PhaseLog: PairLog, then on completion the runway and the tower given back in that order; a completed landing holds nothing; a crash holds nothing; a landing still waiting holds only runway and tower |
| V3Trabalho.Deboard | v3Trabalho.c:133-139 | deboarding completes exactly when both of its replies are grants and crashes exactly when PairReply is a crash; the log is the deboarding PhaseLog: PairLog, then on completion the tower given back; a completed deboarding holds exactly the gate; a crash holds nothing |
| V3Trabalho.TakeOff | v3Trabalho.c:144-164 | takeoff completes exactly when both of its replies are grants and crashes exactly when PairReply is a crash; the log is the takeoff PhaseLog with the gate carried: PairLog, then on completion the gate, the runway and the tower given back in that order; starting with the gate, a completed takeoff or a crash holds nothing, and a takeoff still waiting still holds the gate |
| V3Trabalho.Lifecycle | v3Trabalho.c:116-169 | the final status and the statuses on the way are exactly Journey's for the replies; the log is LifeLog, each phase's PhaseLog up to the first phase not granted both; the log is legal; completed and crashed flights both hold nothing, counted as a success or a crash; a flight stopped in landing or deboarding holds only that phase's resources, and one stopped in takeoff still holds its gate |
| V3Trabalho.Depart | v3Trabalho.c:133-169 | after landing, deboarding, the wait and takeoff end exactly as Journey says; the log is DepartLog, the deboarding PhaseLog and, once deboarding is granted, the takeoff PhaseLog; the log is legal; completed and crashed flights hold nothing, counted as a success or a crash; one stopped in deboarding holds only gate and tower, and one stopped in takeoff still holds its gate |
| V3Trabalho.Journey | v3Trabalho.c:116-169 | the statuses go landing, deboarding, awaiting takeoff, takeoff, completed, possibly cut short by an accident, ending in the final status |
| V3Trabalho.LifeLogNoLeak | v3Trabalho.c:116-169 | no leak: a flight's LifeLog is legal; completed or crashed, it holds nothing and for every kind the takes equal the gives; stopped in landing it holds only runway and tower, in deboarding only gate and tower, and in takeoff still its gate |
| V3Trabalho.LandingHolding | v3Trabalho.c:119-131 | the landing log is legal from nothing held, holds only runway and tower, and holds nothing unless the flight is still waiting |
| V3Trabalho.DepartureHolding | v3Trabalho.c:133-169 | the deboarding and takeoff log is legal from nothing held; completed or crashed, it holds nothing; stopped in deboarding, only gate and tower; stopped in takeoff, still the gate |
| V3Trabalho.DeboardingHolding | v3Trabalho.c:133-139 | the deboarding log is legal from nothing held and holds only gate and tower: exactly the gate once granted, nothing after a crash |
| V3Trabalho.TakeoffHolding | v3Trabalho.c:144-164 | the takeoff log is legal from the gate held; granted or crashed, it holds nothing; still waiting, it still holds the gate |
| V3Trabalho.CompletesIffAllGranted | v3Trabalho.c:116-169 | a flight completes exactly when its first six acquisitions are all granted |
| V3Trabalho.CrashIffFirstRefusalIsCrash | v3Trabalho.c:116-169 | a flight crashes exactly when the first of its six acquisitions that is not granted is answered by a crash |

## Left out

- Threads, mutexes, condition variables, broadcasts and joins. Each critical section is an atomic method, and no other flight acts inside a `Request`. There is no deadlock-freedom or liveness claim.
- Real time and sleeps. Elapsed times and the clock are integer parameters; operation and backoff sleeps are no-ops. The float multipliers of the first revision's sleeps go with them.
- Randomness. The category is an input; the backoff delay is dropped.
- Logging, the final report, and the generator loops of `main`.
- The "deadlocks avoided" and "deadlock incidents" counters. Neither is ever incremented. The `Deadlock` status of the second revision is declared but never assigned.
- The statistics mutex.
- The "Desconhecido" default of the status texts. It is reached only by a value outside the enumeration.
- Trabalho.Lifecycle: when a phase is still waiting, the model reports only what the flight holds. It does not report which resource it waits for.
- Trabalho.Lifecycle: the oracle gives the reply of each request, not the wake-ups inside it. A lifecycle and the arbiters' `Request` are connected only through the `Reply` values.
- V3Trabalho.Lifecycle: as above, the replies come from an oracle rather than from `Request` runs.
