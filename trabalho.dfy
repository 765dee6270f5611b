/** The first simulator revision (trabalho.c): three arbiters that all count
    free units, a per-attempt give-up inside the wait loop, and a flight
    lifecycle that retries a whole phase plan after a give-up.

    The arbiter methods below are the steps of the source's critical
    sections (the code between locking an arbiter's mutex and unlocking it
    or sleeping on one of its condition variables); each step is atomic, and
    `Request` strings them together into one request's wait loop. Threads,
    clocks and sleeps are left out: elapsed times are parameters, and the
    outcomes of waits come from oracles. */
module Trabalho {
  import opened Arbitration
  import opened Bookkeeping

  const RunwayCount: nat := 3
  const GateCount: nat := 5
  const TowerCapacity: nat := 2
  const AttemptTimeoutSeconds: int := 1
  const StarvationAlertSeconds: int := 60
  const CrashSeconds: int := 90

  datatype Status = Awaiting | Landing | Deboarding | TakingOff | Completed | Accident

  /** The report's text for a status. */
  function StatusText(s: Status): (text: string)
    ensures text == "ACIDENTE" <==> s == Accident
    ensures text == "Concluido" <==> s == Completed
  {
    match s
    case Awaiting => "Aguardando"
    case Landing => "Em Pouso/Decolagem"
    case Deboarding => "Em Desembarque"
    case TakingOff => "Em Decolagem"
    case Completed => "Concluido"
    case Accident => "ACIDENTE"
  }

  /** The report never shows two statuses the same way. */
  lemma StatusTextInjective(s: Status, t: Status)
    ensures StatusText(s) == StatusText(t) ==> s == t
  {
  }

  class Flight {
    const id: int
    const category: Category
    var status: Status
    var isCritical: bool
    /** When the flight started waiting: set once, when landing begins. */
    var waitStart: int

    /** A flight as the generator creates it. */
    constructor (id: int, category: Category)
      ensures this.id == id && this.category == category
      ensures status == Awaiting && !isCritical
    {
      this.id := id;
      this.category := category;
      status := Awaiting;
      isCritical := false;
      waitStart := 0;
    }
  }

  /** The shared counters of the final report (the backoff counter, which
      nothing ever increments, is left out). */
  class Statistics {
    var succeeded: nat
    var crashed: nat
    var starvationAlerts: nat

    constructor ()
      ensures succeeded == 0 && crashed == 0 && starvationAlerts == 0
    {
      succeeded, crashed, starvationAlerts := 0, 0, 0;
    }
  }

  /** What a timed-out wait slice decides: the flight crashes, or it goes on,
      possibly promoted to critical and possibly giving up this attempt. */
  datatype TimeoutAction = Crash | Continue(promote: bool, giveUp: bool)

  /** The timeout rules: `elapsed` is the time since the flight's wait start,
      `attemptElapsed` the time since this request took the lock. */
  function Decide(elapsed: int, attemptElapsed: int, critical: bool): (a: TimeoutAction)
    ensures a.Crash? <==> elapsed >= CrashSeconds
    ensures a.Continue? ==> (a.promote <==> !critical && StarvationAlertSeconds <= elapsed)
    ensures a.Continue? ==> (a.giveUp <==> attemptElapsed >= AttemptTimeoutSeconds)
  {
    if elapsed >= CrashSeconds then Crash
    else Continue(StarvationAlertSeconds <= elapsed && !critical,
                  attemptElapsed >= AttemptTimeoutSeconds)
  }

  /** Promotion happens only between the alert and the crash threshold and
      never to a requester that is already critical, so it happens at most
      once until a grant clears the flag. */
  lemma PromotionWindow(elapsed: int, attemptElapsed: int, critical: bool)
    ensures var a := Decide(elapsed, attemptElapsed, critical);
            a.Continue? && a.promote ==> !critical && StarvationAlertSeconds <= elapsed < CrashSeconds
    ensures var a := Decide(elapsed, attemptElapsed, true);
            !(a.Continue? && a.promote)
  {
  }

  /** What a request returns: the unit, a give-up of this attempt, a crash,
      or (when the oracle of wake-ups runs out) nothing yet. */
  datatype Reply = Granted | GaveUp | Crashed | StillWaiting

  /** One end of a wait slice: whether it timed out, and the clock then. */
  datatype Wake = Wake(timedOut: bool, now: int)

  /** One resource pool: free units, and the number of critical and of
      international requesters currently waiting. */
  class Arbiter {
    const capacity: nat
    var available: int
    var waitingCritical: int
    var waitingInternational: int

    /** The critical counter has no invariant here: it can go negative or
        stay raised (see Request). */
    ghost predicate Valid()
      reads this
    {
      0 <= available <= capacity && waitingInternational >= 0
    }

    ghost predicate Idle()
      reads this
    {
      Valid() && available == capacity && waitingCritical == 0 && waitingInternational == 0
    }

    constructor (capacity: nat)
      ensures this.capacity == capacity && Idle()
    {
      this.capacity := capacity;
      available := capacity;
      waitingCritical := 0;
      waitingInternational := 0;
    }

    /** Must flight `f` (keep) waiting here? */
    predicate Blocks(f: Flight)
      reads this, f
    {
      MustWait(available, waitingCritical, waitingInternational, f.category, f.isCritical)
    }

    /** Before a wait slice: an international, non-critical requester counts
        itself among the international waiters. */
    method EnterSlice(f: Flight)
      requires Valid()
      modifies this`waitingInternational
      ensures Valid()
      ensures waitingInternational
              == old(waitingInternational) + Bit(f.category == International && !f.isCritical)
    {
      if f.category == International && !f.isCritical {
        waitingInternational := waitingInternational + 1;
      }
    }

    /** After a wait slice, before any promotion: the same requester uncounts
        itself again. */
    method LeaveSlice(f: Flight)
      requires Valid()
      requires f.category == International && !f.isCritical ==> waitingInternational >= 1
      modifies this`waitingInternational
      ensures Valid()
      ensures waitingInternational
              == old(waitingInternational) - Bit(f.category == International && !f.isCritical)
    {
      if f.category == International && !f.isCritical {
        waitingInternational := waitingInternational - 1;
      }
    }

    /** After a timed-out slice: crash (uncounting a critical requester),
        or promote and/or give up as Decide says. */
    method Timeout(f: Flight, stats: Statistics, elapsed: int, attemptElapsed: int)
      returns (action: TimeoutAction)
      requires Valid()
      modifies this`waitingCritical, f`status, f`isCritical, stats`crashed, stats`starvationAlerts
      ensures Valid()
      ensures action == Decide(elapsed, attemptElapsed, old(f.isCritical))
      ensures action.Crash? ==>
                && f.status == Accident && stats.crashed == old(stats.crashed) + 1
                && f.isCritical == old(f.isCritical)
                && waitingCritical == old(waitingCritical) - Bit(old(f.isCritical))
                && stats.starvationAlerts == old(stats.starvationAlerts)
      ensures action.Continue? ==>
                && f.status == old(f.status) && stats.crashed == old(stats.crashed)
                && f.isCritical == (old(f.isCritical) || action.promote)
                && waitingCritical == old(waitingCritical) + Bit(action.promote)
                && stats.starvationAlerts == old(stats.starvationAlerts) + Bit(action.promote)
    {
      action := Decide(elapsed, attemptElapsed, f.isCritical);
      if action.Crash? {
        f.status := Accident;
        stats.crashed := stats.crashed + 1;
        if f.isCritical {
          waitingCritical := waitingCritical - 1;
        }
      } else if action.promote {
        f.isCritical := true;
        waitingCritical := waitingCritical + 1;
        stats.starvationAlerts := stats.starvationAlerts + 1;
      }
    }

    /** Leaving the wait loop: take one unit; a critical requester clears its
        flag and uncounts itself from this arbiter's critical waiters. */
    method Grant(f: Flight)
      requires Valid() && !Blocks(f)
      modifies this`available, this`waitingCritical, f`isCritical
      ensures Valid()
      ensures available == old(available) - 1
      ensures !f.isCritical
      ensures waitingCritical == old(waitingCritical) - Bit(old(f.isCritical))
    {
      available := available - 1;
      if f.isCritical {
        f.isCritical := false;
        waitingCritical := waitingCritical - 1;
      }
    }

    /** Give one unit back (the caller holds one) and wake the highest tier
        that has a counted waiter. */
    method Release() returns (woken: Tier)
      requires Valid() && available < capacity
      modifies this`available
      ensures Valid()
      ensures available == old(available) + 1
      ensures woken == WakeTier(waitingCritical, waitingInternational)
    {
      available := available + 1;
      woken := WakeTier(waitingCritical, waitingInternational);
    }

    /** A whole request: the wait loop, driven by the wake-ups in `wakes`,
        with `now` the clock when the lock was taken. Other flights do not
        act while it runs; `used` counts the wake-ups consumed. A grant
        happens only once the admission check passes; a crash happens at the
        first timed-out wake-up 90 s after the wait start, a give-up at the
        first timed-out wake-up one second into the attempt, and no earlier
        wake-up reaches either threshold. The critical counter is balanced
        only relative to the flag the flight brings in: a flight that
        arrives critical (after a give-up elsewhere) takes one off this
        arbiter's counter on a grant or a crash, and a give-up after a
        promotion leaves the flag set and this counter raised. */
    method Request(f: Flight, stats: Statistics, now: int, wakes: seq<Wake>)
      returns (reply: Reply, ghost promoted: bool, ghost used: nat)
      requires Valid()
      modifies this`available, this`waitingCritical, this`waitingInternational
      modifies f`status, f`isCritical, stats`crashed, stats`starvationAlerts
      ensures Valid()
      ensures waitingInternational == old(waitingInternational)
      ensures reply == Granted ==> available == old(available) - 1 && !f.isCritical
      ensures reply != Granted ==> available == old(available)
      ensures reply == Crashed ==> f.status == Accident && stats.crashed == old(stats.crashed) + 1
      ensures reply != Crashed ==> f.status == old(f.status) && stats.crashed == old(stats.crashed)
      ensures promoted ==> !old(f.isCritical)
      ensures stats.starvationAlerts == old(stats.starvationAlerts) + Bit(promoted)
      ensures reply == Granted || reply == Crashed ==>
                waitingCritical == old(waitingCritical) - Bit(old(f.isCritical))
      ensures reply != Granted ==> f.isCritical == (old(f.isCritical) || promoted)
      ensures reply == GaveUp || reply == StillWaiting ==>
                waitingCritical == old(waitingCritical) + Bit(promoted)
      ensures used <= |wakes|
      ensures reply == StillWaiting ==> used == |wakes|
      ensures reply == Granted ==>
                !MustWait(old(available), old(waitingCritical) + Bit(promoted), old(waitingInternational),
                          f.category, old(f.isCritical) || promoted)
      ensures !MustWait(old(available), old(waitingCritical), old(waitingInternational), f.category, old(f.isCritical))
              ==> reply == Granted && used == 0 && !promoted
      ensures reply == Crashed || reply == StillWaiting ==>
                MustWait(old(available), old(waitingCritical) + Bit(promoted), old(waitingInternational),
                         f.category, old(f.isCritical) || promoted)
      ensures reply == GaveUp ==>
                || MustWait(old(available), old(waitingCritical) + Bit(promoted), old(waitingInternational),
                            f.category, old(f.isCritical) || promoted)
                || (promoted && MustWait(old(available), old(waitingCritical), old(waitingInternational),
                                         f.category, old(f.isCritical)))
      ensures reply == Crashed || reply == GaveUp ==> 0 < used && wakes[used - 1].timedOut
      ensures reply == Crashed ==> wakes[used - 1].now - f.waitStart >= CrashSeconds
      ensures reply == GaveUp ==>
                && wakes[used - 1].now - f.waitStart < CrashSeconds
                && wakes[used - 1].now - now >= AttemptTimeoutSeconds
      ensures forall j :: 0 <= j < used - Bit(reply == Crashed || reply == GaveUp) && wakes[j].timedOut ==>
                wakes[j].now - f.waitStart < CrashSeconds && wakes[j].now - now < AttemptTimeoutSeconds
      ensures promoted ==>
                exists j :: 0 <= j < used && wakes[j].timedOut
                            && StarvationAlertSeconds <= wakes[j].now - f.waitStart < CrashSeconds
      ensures !old(f.isCritical) && !promoted ==>
                forall j :: 0 <= j < used - Bit(reply == Crashed) && wakes[j].timedOut ==>
                  wakes[j].now - f.waitStart < StarvationAlertSeconds
    {
      var attemptStart := now;
      var i := 0;
      promoted := false;
      while Blocks(f)
        invariant Valid()
        invariant 0 <= i <= |wakes|
        invariant forall j :: 0 <= j < i && wakes[j].timedOut ==>
                    wakes[j].now - f.waitStart < CrashSeconds && wakes[j].now - now < AttemptTimeoutSeconds
        invariant promoted ==>
                    exists j :: 0 <= j < i && wakes[j].timedOut
                                && StarvationAlertSeconds <= wakes[j].now - f.waitStart < CrashSeconds
        invariant !old(f.isCritical) && !promoted ==>
                    forall j :: 0 <= j < i && wakes[j].timedOut ==> wakes[j].now - f.waitStart < StarvationAlertSeconds
        invariant available == old(available)
        invariant waitingInternational == old(waitingInternational)
        invariant f.status == old(f.status) && stats.crashed == old(stats.crashed)
        invariant promoted ==> !old(f.isCritical)
        invariant f.isCritical == (old(f.isCritical) || promoted)
        invariant waitingCritical == old(waitingCritical) + Bit(promoted)
        invariant stats.starvationAlerts == old(stats.starvationAlerts) + Bit(promoted)
        invariant !MustWait(old(available), old(waitingCritical), old(waitingInternational), f.category, old(f.isCritical))
                  ==> i == 0 && !promoted
        decreases |wakes| - i
      {
        ghost var promotedBefore := promoted;
        if i == |wakes| {
          reply, used := StillWaiting, i;
          return;
        }
        var wake := wakes[i];
        i := i + 1;
        EnterSlice(f);
        LeaveSlice(f);
        if wake.timedOut {
          var action := Timeout(f, stats, wake.now - f.waitStart, wake.now - attemptStart);
          if action.Crash? {
            reply, used := Crashed, i;
            return;
          }
          if action.promote {
            promoted := true;
          }
          if action.giveUp {
            reply, used := GaveUp, i;
            return;
          }
        }
      }
      Grant(f);
      reply, used := Granted, i;
    }
  }

  /** The airport as the simulation starts: every unit free, nobody waiting,
      every statistic zero. */
  class Airport {
    const runways: Arbiter
    const gates: Arbiter
    const tower: Arbiter
    const stats: Statistics

    constructor ()
      ensures fresh(runways) && fresh(gates) && fresh(tower) && fresh(stats)
      ensures runways.capacity == RunwayCount && runways.Idle()
      ensures gates.capacity == GateCount && gates.Idle()
      ensures tower.capacity == TowerCapacity && tower.Idle()
      ensures stats.succeeded == 0 && stats.crashed == 0 && stats.starvationAlerts == 0
    {
      runways := new Arbiter(RunwayCount);
      gates := new Arbiter(GateCount);
      tower := new Arbiter(TowerCapacity);
      stats := new Statistics();
    }
  }

  /** A give-up leaves the critical flag set and the counter of the arbiter
      that promoted the flight raised; the flight's next grant, on another
      arbiter, then lowers that other arbiter's counter. Here the runway is
      held by another flight; a domestic flight that has waited since 0 asks
      for it at 60 and wakes timed out at 61, past the alert threshold and a
      full attempt: it is promoted and gives up. It is then granted the free
      tower. After the runway is given back, a runway is free and yet every
      non-critical requester must wait. */
  method StrandedPromotion() returns (gaveUp: bool, stranded: int, borrowed: int, blocked: bool)
    ensures gaveUp
    ensures stranded == 1 && borrowed == -1
    ensures blocked
  {
    var stats := new Statistics();
    var runways := new Arbiter(1);
    var tower := new Arbiter(1);
    var other := new Flight(2, International);
    runways.Grant(other);
    var flight := new Flight(1, Domestic);
    flight.waitStart := 0;
    var reply, promoted, used := runways.Request(flight, stats, 60, [Wake(true, 61)]);
    gaveUp := reply == GaveUp;
    assert promoted;
    var towerReply, towerPromoted, towerUsed := tower.Request(flight, stats, 61, []);
    assert towerReply == Granted;
    var woken := runways.Release();
    var newcomer := new Flight(3, International);
    stranded, borrowed, blocked := runways.waitingCritical, tower.waitingCritical, runways.Blocks(newcomer);
  }

  datatype Phase = LandingPhase | DeboardingPhase | TakeoffPhase

  function PhaseStatus(phase: Phase): Status
  {
    match phase
    case LandingPhase => Landing
    case DeboardingPhase => Deboarding
    case TakeoffPhase => TakingOff
  }

  /** The resources a phase needs together. */
  function PhaseResources(phase: Phase): set<Resource>
  {
    match phase
    case LandingPhase => {Runway, Tower}
    case DeboardingPhase => {Gate, Tower}
    case TakeoffPhase => {Gate, Runway, Tower}
  }

  /** The phase plan: the order in which a flight of `category` acquires the
      phase's resources. International flights take the tower last and
      domestic flights take it first; in takeoff the gate comes before the
      runway. */
  function Plan(phase: Phase, category: Category): (plan: seq<Resource>)
    ensures 2 <= |plan| && Distinct(plan) && Members(plan) == PhaseResources(phase)
    ensures category == International ==> plan[|plan| - 1] == Tower
    ensures category == Domestic ==> plan[0] == Tower
    ensures forall i, j :: 0 <= i < |plan| && 0 <= j < |plan| && plan[i] == Gate && plan[j] == Runway ==> i < j
  {
    match phase
    case LandingPhase =>
      if category == International then [Runway, Tower] else [Tower, Runway]
    case DeboardingPhase =>
      if category == International then [Gate, Tower] else [Tower, Gate]
    case TakeoffPhase =>
      if category == International then [Gate, Runway, Tower] else [Tower, Gate, Runway]
  }

  /** The order in which a phase's resources are given back once its
      operation is over (the same for both categories). */
  function ReleaseOrder(phase: Phase): (order: seq<Resource>)
    ensures Distinct(order) && Members(order) == PhaseResources(phase)
  {
    match phase
    case LandingPhase => [Runway, Tower]
    case DeboardingPhase => [Tower, Gate]
    case TakeoffPhase => [Gate, Runway, Tower]
  }

  /** The lock inversion the plans set up on purpose: in every phase both
      categories need the same resources, and an international flight may
      hold its first resource while it waits for the tower that a domestic
      flight holds while it waits for the rest. */
  lemma PlansInvertTowerOrder(phase: Phase)
    ensures Members(Plan(phase, International)) == Members(Plan(phase, Domestic))
    ensures Plan(phase, International)[0] != Tower
    ensures Plan(phase, International)[0] in Plan(phase, Domestic)[1..]
  {
  }

  /** How one pass over a phase plan ends: all held, give-up (retry the
      plan), crash, or stopped while still waiting. */
  datatype Stop = AllHeld | Retry | Fatal | Blocked

  /** A pass stopped at plan position `at`, having used `used` replies and
      produced `log`. */
  datatype Pass = Pass(stop: Stop, at: nat, used: nat, log: seq<Event>)

  /** The resources of the phase held when a pass stops: none after a
      give-up, none after a crash when `releaseOnCrash`, and otherwise those
      acquired so far. */
  function Holding(plan: seq<Resource>, stop: Stop, at: nat, releaseOnCrash: bool): set<Resource>
    requires at <= |plan|
  {
    if stop == Retry || (stop == Fatal && releaseOnCrash) then {} else Members(plan[..at])
  }

  /** One pass of a phase's retry loop from plan position `k` (`plan[..k]`
      already held): acquire in plan order while the replies grant; on a
      give-up give back what is held, in plan order; on a crash give it back
      only when `releaseOnCrash` (takeoff), and otherwise keep it (landing
      and deboarding return at once). */
  function Attempt(plan: seq<Resource>, k: nat, replies: seq<Reply>, releaseOnCrash: bool): (p: Pass)
    requires k <= |plan|
    ensures k <= p.at <= |plan| && p.at - k <= |replies|
    ensures p.stop == AllHeld <==> p.at == |plan|
    ensures p.used <= |replies|
    ensures p.used == p.at - k + Bit(p.stop == Retry || p.stop == Fatal)
    decreases |plan| - k
  {
    if k == |plan| then Pass(AllHeld, k, 0, [])
    else if replies == [] then Pass(Blocked, k, 0, [])
    else match replies[0]
      case Granted =>
        var rest := Attempt(plan, k + 1, replies[1..], releaseOnCrash);
        Pass(rest.stop, rest.at, rest.used + 1, [Take(plan[k])] + rest.log)
      case GaveUp => Pass(Retry, k, 1, Gives(plan[..k]))
      case Crashed => Pass(Fatal, k, 1, if releaseOnCrash then Gives(plan[..k]) else [])
      case StillWaiting => Pass(Blocked, k, 0, [])
  }

  /** The replies a pass reads: a grant for each resource it acquires, then
      a give-up when it retries, a crash when it is fatal, and the end of
      the replies or a reply still waiting when it is blocked. */
  lemma {:induction false} AttemptReplies(plan: seq<Resource>, k: nat, replies: seq<Reply>, releaseOnCrash: bool)
    requires k <= |plan|
    ensures var p := Attempt(plan, k, replies, releaseOnCrash);
            && (forall j :: 0 <= j < p.at - k ==> replies[j] == Granted)
            && (p.stop == Retry ==> p.at - k < |replies| && replies[p.at - k] == GaveUp)
            && (p.stop == Fatal ==> p.at - k < |replies| && replies[p.at - k] == Crashed)
            && (p.stop == Blocked ==> p.at - k == |replies| || replies[p.at - k] == StillWaiting)
    decreases |plan| - k
  {
    if k < |plan| && replies != [] && replies[0] == Granted {
      AttemptReplies(plan, k + 1, replies[1..], releaseOnCrash);
      var rest := Attempt(plan, k + 1, replies[1..], releaseOnCrash);
      assert forall j :: 1 <= j < rest.at - k ==> replies[j] == replies[1..][j - 1];
    }
  }

  /** A pass is legal from what it starts with (`plan[..k]`), and it leaves
      the flight holding exactly Holding: the whole plan, nothing after a
      give-up or a cleaned-up crash, the resources acquired so far
      otherwise. */
  lemma {:induction false} AttemptHolding(plan: seq<Resource>, k: nat, replies: seq<Reply>, releaseOnCrash: bool)
    requires Distinct(plan) && k <= |plan|
    ensures var p := Attempt(plan, k, replies, releaseOnCrash);
            && Legal(Members(plan[..k]), p.log)
            && After(Members(plan[..k]), p.log) == Holding(plan, p.stop, p.at, releaseOnCrash)
    decreases |plan| - k
  {
    if k == |plan| || replies == [] {
    } else if replies[0] == Granted {
      AttemptHolding(plan, k + 1, replies[1..], releaseOnCrash);
      TakeNext(plan, k, Attempt(plan, k + 1, replies[1..], releaseOnCrash).log);
    } else if replies[0] == GaveUp || replies[0] == Crashed {
      GiveBackPrefix(plan, k);
    }
  }

  /** Taking the next resource of a plan turns holding `plan[..k]` into
      holding `plan[..k + 1]`. */
  lemma TakeNext(plan: seq<Resource>, k: nat, rest: seq<Event>)
    requires Distinct(plan) && k < |plan|
    ensures Legal(Members(plan[..k]), [Take(plan[k])] + rest) == Legal(Members(plan[..k + 1]), rest)
    ensures After(Members(plan[..k]), [Take(plan[k])] + rest) == After(Members(plan[..k + 1]), rest)
  {
    assert plan[..k + 1] == plan[..k] + [plan[k]];
    assert Members(plan[..k + 1]) == Members(plan[..k]) + {plan[k]};
    assert plan[k] !in Members(plan[..k]);
    var log := [Take(plan[k])] + rest;
    assert log[0] == Take(plan[k]) && log[1..] == rest;
  }

  /** Giving back, in plan order, everything acquired so far leaves
      nothing held. */
  lemma GiveBackPrefix(plan: seq<Resource>, k: nat)
    requires Distinct(plan) && k <= |plan|
    ensures Legal(Members(plan[..k]), Gives(plan[..k])) && After(Members(plan[..k]), Gives(plan[..k])) == {}
  {
    assert forall i :: 0 <= i < k ==> plan[..k][i] in Members(plan[..k]);
    GivesAll(Members(plan[..k]), plan[..k]);
  }

  /** The events of a pass: one take per resource acquired, in plan order,
      followed, after a give-up or a cleaned-up crash, by one give per
      resource held, in plan order. */
  lemma {:induction false} AttemptLog(plan: seq<Resource>, k: nat, replies: seq<Reply>, releaseOnCrash: bool)
    requires k <= |plan|
    ensures var p := Attempt(plan, k, replies, releaseOnCrash);
            p.log == Takes(plan[k..p.at]) + CleanUp(plan, p.stop, p.at, releaseOnCrash)
    decreases |plan| - k
  {
    if k == |plan| || replies == [] || replies[0] != Granted {
      assert plan[k..k] == [];
    } else {
      AttemptLog(plan, k + 1, replies[1..], releaseOnCrash);
      GrantedLog(plan, k, replies, releaseOnCrash);
    }
  }

  /** AttemptLog's step: a grant puts the take of `plan[k]` before the log of
      the rest of the pass. */
  lemma GrantedLog(plan: seq<Resource>, k: nat, replies: seq<Reply>, releaseOnCrash: bool)
    requires k < |plan| && replies != [] && replies[0] == Granted
    requires var rest := Attempt(plan, k + 1, replies[1..], releaseOnCrash);
             rest.log == Takes(plan[k + 1..rest.at]) + CleanUp(plan, rest.stop, rest.at, releaseOnCrash)
    ensures var p := Attempt(plan, k, replies, releaseOnCrash);
            p.log == Takes(plan[k..p.at]) + CleanUp(plan, p.stop, p.at, releaseOnCrash)
  {
    var rest := Attempt(plan, k + 1, replies[1..], releaseOnCrash);
    var p := Attempt(plan, k, replies, releaseOnCrash);
    assert p == Pass(rest.stop, rest.at, rest.used + 1, [Take(plan[k])] + rest.log);
    var head, tail := Takes(plan[k + 1..rest.at]), CleanUp(plan, rest.stop, rest.at, releaseOnCrash);
    TakesStep(plan, k, rest.at);
    Associative([Take(plan[k])], head, tail);
  }

  lemma Associative(a: seq<Event>, b: seq<Event>, c: seq<Event>)
    ensures a + (b + c) == (a + b) + c
  {
  }

  /** The gives that end a pass: everything held, in plan order, after a
      give-up or a cleaned-up crash; none otherwise. */
  function CleanUp(plan: seq<Resource>, stop: Stop, at: nat, releaseOnCrash: bool): seq<Event>
    requires at <= |plan|
  {
    if stop == Retry || (stop == Fatal && releaseOnCrash) then Gives(plan[..at]) else []
  }

  lemma TakesStep(plan: seq<Resource>, k: nat, at: nat)
    requires k < at <= |plan|
    ensures Takes(plan[k..at]) == [Take(plan[k])] + Takes(plan[k + 1..at])
  {
    assert plan[k..at][0] == plan[k] && plan[k..at][1..] == plan[k + 1..at];
  }

  /** An international flight granted the runway that then crashes waiting
      for the tower returns still holding the runway. */
  lemma LandingCrashKeepsRunway()
    ensures var p := Attempt(Plan(LandingPhase, International), 0, [Granted, Crashed], false);
            p.stop == Fatal && After({}, p.log) == {Runway}
  {
    var p := Attempt(Plan(LandingPhase, International), 0, [Granted, Crashed], false);
    assert p.at == 1;
    AttemptHolding(Plan(LandingPhase, International), 0, [Granted, Crashed], false);
    assert Plan(LandingPhase, International)[..1] == [Runway];
    assert Members([Runway]) == {Runway};
  }

  /** Where a phase's retry loop ends: the last pass's stop and plan
      position, and the number of replies used by all passes together. */
  datatype End = End(stop: Stop, at: nat, used: nat)

  /** What a phase's retry loop does with the replies from position `from`,
      after passes that used `skipped` replies: passes over the plan until
      one does not end in a give-up. A phase starts with `skipped == 0`. */
  function PhaseRun(plan: seq<Resource>, replies: seq<Reply>, from: nat, releaseOnCrash: bool, skipped: nat): (e: End)
    requires from <= |replies|
    ensures from + e.used - skipped <= |replies|
    ensures e.stop != Retry && e.at <= |plan|
    ensures e.stop == AllHeld <==> e.at == |plan|
    decreases |replies| - from
  {
    var p := Attempt(plan, 0, replies[from..], releaseOnCrash);
    if p.stop == Retry then PhaseRun(plan, replies, from + p.used, releaseOnCrash, skipped + p.used)
    else End(p.stop, p.at, skipped + p.used)
  }

  /** The retry loop's step: a run that resumes at `from` after `skipped`
      replies, and whose pass there gives up, resumes after that pass too. */
  lemma PhaseRunRetry(plan: seq<Resource>, replies: seq<Reply>, start: nat, releaseOnCrash: bool,
                      from: nat, skipped: nat, p: Pass)
    requires start <= from <= |replies|
    requires PhaseRun(plan, replies, from, releaseOnCrash, skipped) == PhaseRun(plan, replies, start, releaseOnCrash, 0)
    requires p == Attempt(plan, 0, replies[from..], releaseOnCrash) && p.stop == Retry
    ensures from + p.used <= |replies|
    ensures PhaseRun(plan, replies, from + p.used, releaseOnCrash, skipped + p.used)
            == PhaseRun(plan, replies, start, releaseOnCrash, 0)
  {
  }

  /** The log of a phase's retry loop from position `from`: the log of each
      pass PhaseRun makes, in order. */
  function RunLog(plan: seq<Resource>, replies: seq<Reply>, from: nat, releaseOnCrash: bool): seq<Event>
    requires from <= |replies|
    decreases |replies| - from
  {
    var p := Attempt(plan, 0, replies[from..], releaseOnCrash);
    if p.stop == Retry then p.log + RunLog(plan, replies, from + p.used, releaseOnCrash) else p.log
  }

  /** One pass of the retry loop, resumed at `from` after `skipped` replies
      with a log that holds nothing: the log stays legal and holds what the
      pass holds; a pass that gives up leaves the loop's invariant in place
      after it, and any other pass ends the run and its log. */
  /** The retry loop resumed at `next`, after `skipped` replies and with
      `log` written so far, ends as it would have from `start` and finishes
      the log it would have written. */
  ghost predicate Resumes(plan: seq<Resource>, replies: seq<Reply>, start: nat, releaseOnCrash: bool,
                          next: nat, skipped: nat, log: seq<Event>)
    requires start <= next <= |replies|
  {
    && PhaseRun(plan, replies, next, releaseOnCrash, skipped) == PhaseRun(plan, replies, start, releaseOnCrash, 0)
    && log + RunLog(plan, replies, next, releaseOnCrash) == RunLog(plan, replies, start, releaseOnCrash)
  }

  /** One pass of the retry loop from a state that holds nothing keeps the
      log legal and leaves held what the pass's stop says. */
  lemma PassHolding(plan: seq<Resource>, replies: seq<Reply>, releaseOnCrash: bool,
                    from: nat, log: seq<Event>, p: Pass)
    requires from <= |replies| && Distinct(plan)
    requires Legal({}, log) && After({}, log) == {}
    requires p == Attempt(plan, 0, replies[from..], releaseOnCrash)
    ensures Legal({}, log + p.log) && After({}, log + p.log) == Holding(plan, p.stop, p.at, releaseOnCrash)
  {
    AttemptHolding(plan, 0, replies[from..], releaseOnCrash);
    assert Members(plan[..0]) == {};
    AfterAppend({}, log, p.log);
  }

  /** One pass of the retry loop: a retry resumes the loop further on, and
      any other stop is where the loop from `start` ends, with its whole log
      written. */
  lemma PassStep(plan: seq<Resource>, replies: seq<Reply>, start: nat, releaseOnCrash: bool,
                 from: nat, skipped: nat, log: seq<Event>, p: Pass)
    requires start <= from <= |replies|
    requires Resumes(plan, replies, start, releaseOnCrash, from, skipped, log)
    requires p == Attempt(plan, 0, replies[from..], releaseOnCrash)
    ensures from + p.used <= |replies|
    ensures p.stop == Retry ==> Resumes(plan, replies, start, releaseOnCrash, from + p.used, skipped + p.used, log + p.log)
    ensures p.stop != Retry ==>
              && PhaseRun(plan, replies, start, releaseOnCrash, 0) == End(p.stop, p.at, skipped + p.used)
              && log + p.log == RunLog(plan, replies, start, releaseOnCrash)
  {
    if p.stop == Retry {
      PhaseRunRetry(plan, replies, start, releaseOnCrash, from, skipped, p);
      Associative(log, p.log, RunLog(plan, replies, from + p.used, releaseOnCrash));
    }
  }

  /** A phase's retry loop: passes over the plan, consuming `replies` from
      position `from`, until a pass does not end in a give-up (the random
      backoff between passes is a no-op). It ends where PhaseRun says, with
      a legal log that leaves the flight holding what the last pass holds:
      each earlier pass gives back everything it took. */
  method RunPhase(plan: seq<Resource>, releaseOnCrash: bool, replies: seq<Reply>, from: nat)
    returns (stop: Stop, at: nat, next: nat, log: seq<Event>)
    requires from <= |replies| && Distinct(plan)
    ensures var e := PhaseRun(plan, replies, from, releaseOnCrash, 0);
            stop == e.stop && at == e.at && next == from + e.used
    ensures log == RunLog(plan, replies, from, releaseOnCrash)
    ensures Legal({}, log) && After({}, log) == Holding(plan, stop, at, releaseOnCrash)
  {
    next := from;
    log := [];
    ghost var skipped: nat := 0;
    while true
      invariant from <= next <= |replies| && next == from + skipped
      invariant Resumes(plan, replies, from, releaseOnCrash, next, skipped, log)
      invariant Legal({}, log) && After({}, log) == {}
      decreases |replies| - next
    {
      var pass := Attempt(plan, 0, replies[next..], releaseOnCrash);
      PassHolding(plan, replies, releaseOnCrash, next, log, pass);
      PassStep(plan, replies, from, releaseOnCrash, next, skipped, log, pass);
      if pass.stop != Retry {
        stop, at, next, log := pass.stop, pass.at, next + pass.used, log + pass.log;
        return;
      }
      log, next, skipped := log + pass.log, next + pass.used, skipped + pass.used;
    }
  }

  /** Giving back a phase's resources in release order, after the phase
      held all of them, leaves the flight holding nothing. */
  lemma ReleaseEmptiesPhase(log: seq<Event>, phase: Phase)
    requires Legal({}, log) && After({}, log) == PhaseResources(phase)
    ensures Legal({}, log + Gives(ReleaseOrder(phase)))
    ensures After({}, log + Gives(ReleaseOrder(phase))) == {}
  {
    var order := ReleaseOrder(phase);
    assert forall i :: 0 <= i < |order| ==> order[i] in Members(order);
    GivesAll(After({}, log), order);
    AfterAppend({}, log, Gives(order));
  }

  /** The resources a crash in `phase` can leave a flight holding: nothing
      in takeoff, which cleans up first, and at most the first resource of
      the plan in landing and deboarding, which return at once. */
  function CrashResidue(phase: Phase, category: Category): set<Resource>
  {
    if phase == TakeoffPhase then {} else {Plan(phase, category)[0]}
  }

  /** How a flight's status at the end of its life so far shows in what it
      holds and in the counters, from `succeeded0` and `crashed0` before:
      completed, it holds nothing and counts one success; crashed, it counts
      one crash and holds at most what the crashed phase keeps; still in
      `phase`, it holds only that phase's resources and counts nothing. */
  ghost predicate Settled(status: Status, phase: Phase, category: Category, held: set<Resource>,
                          succeeded0: int, crashed0: int, succeeded: int, crashed: int)
  {
    && (status == Completed || status == Accident || status == PhaseStatus(phase))
    && (status == Completed ==> held == {} && succeeded == succeeded0 + 1 && crashed == crashed0)
    && (status == Accident ==>
          held <= CrashResidue(phase, category) && crashed == crashed0 + 1 && succeeded == succeeded0)
    && (status == PhaseStatus(phase) ==>
          held <= PhaseResources(phase) && succeeded == succeeded0 && crashed == crashed0)
  }

  /** The log of one phase of a flight of `category` from position `from`:
      its retry loop's log and, once the loop holds the plan, the phase's
      resources given back in release order. */
  function PhaseLog(phase: Phase, category: Category, replies: seq<Reply>, from: nat): seq<Event>
    requires from <= |replies|
  {
    var plan := Plan(phase, category);
    var loop := RunLog(plan, replies, from, phase == TakeoffPhase);
    if PhaseRun(plan, replies, from, phase == TakeoffPhase, 0).stop == AllHeld
    then loop + Gives(ReleaseOrder(phase))
    else loop
  }

  /** One phase of a flight's life: enter the phase's status, run its retry
      loop, and when every resource is held (the operation itself is a
      sleep) give them all back in release order. A crash in the loop marks
      the flight and counts it, as the arbiter's crash branch does. `done`
      says the phase completed. */
  method FlyPhase(flight: Flight, stats: Statistics, phase: Phase, replies: seq<Reply>, from: nat)
    returns (done: bool, next: nat, log: seq<Event>)
    requires from <= |replies|
    modifies flight`status, stats`crashed
    ensures var e := PhaseRun(Plan(phase, flight.category), replies, from, phase == TakeoffPhase, 0);
            && (done <==> e.stop == AllHeld)
            && (flight.status == Accident <==> e.stop == Fatal)
            && next == from + e.used
    ensures log == PhaseLog(phase, flight.category, replies, from)
    ensures Legal({}, log)
    ensures flight.status == Accident || flight.status == PhaseStatus(phase)
    ensures done ==> flight.status == PhaseStatus(phase) && After({}, log) == {}
    ensures var e := PhaseRun(Plan(phase, flight.category), replies, from, phase == TakeoffPhase, 0);
            !done ==> After({}, log) == Holding(Plan(phase, flight.category), e.stop, e.at, phase == TakeoffPhase)
    ensures stats.crashed == old(stats.crashed) + Bit(flight.status == Accident)
    ensures flight.status == Accident ==> After({}, log) <= CrashResidue(phase, flight.category)
    ensures After({}, log) <= PhaseResources(phase)
  {
    flight.status := PhaseStatus(phase);
    var plan := Plan(phase, flight.category);
    var releaseOnCrash := phase == TakeoffPhase;
    var stop, at;
    stop, at, next, log := RunPhase(plan, releaseOnCrash, replies, from);
    if stop == Fatal {
      flight.status := Accident;
      stats.crashed := stats.crashed + 1;
    }
    if stop != AllHeld {
      HoldingBounds(plan, stop, at, releaseOnCrash);
      done := false;
      return;
    }
    assert plan[..at] == plan;
    ReleaseEmptiesPhase(log, phase);
    log := log + Gives(ReleaseOrder(phase));
    done := true;
  }

  /** A flight's life: landing, deboarding and takeoff, each phase run by its
      retry loop over the replies its acquisitions get, in order; `clock` is
      the time landing starts. `phase` is the last phase the flight entered.
      A completed flight holds nothing; a flight that crashed in takeoff
      holds nothing either, but one that crashed on the second acquisition
      of landing or deboarding is left holding the first resource of that
      phase's plan. */
  method Lifecycle(flight: Flight, stats: Statistics, replies: seq<Reply>, clock: int)
    returns (log: seq<Event>, trace: seq<Status>, phase: Phase)
    modifies flight`status, flight`waitStart, stats`succeeded, stats`crashed
    ensures flight.waitStart == clock
    ensures Outcome(flight.status, phase, trace) == Journey(flight.category, replies)
    ensures log == TripLog(flight.category, replies)
    ensures Legal({}, log)
    ensures Settled(flight.status, phase, flight.category, After({}, log),
                    old(stats.succeeded), old(stats.crashed), stats.succeeded, stats.crashed)
  {
    flight.waitStart := clock;
    ghost var category := flight.category;
    phase := LandingPhase;
    var done, next;
    done, next, log := FlyPhase(flight, stats, LandingPhase, replies, 0);
    trace := [Landing];
    assert flight.category == category && flight.waitStart == clock;
    if !done {
      TripStops(category, replies);
      if flight.status == Accident {
        trace := trace + [Accident];
      }
      return;
    }
    TripContinues(category, replies, next);
    var rest;
    rest, trace, phase := Depart(flight, stats, replies, next);
    assert flight.category == category && flight.waitStart == clock;
    AfterAppend({}, log, rest);
    log := log + rest;
  }

  /** The rest of a landed flight's life, from the reply at `from`:
      deboarding, then what Leave does, as Departure says. */
  method Depart(flight: Flight, stats: Statistics, replies: seq<Reply>, from: nat)
    returns (log: seq<Event>, trace: seq<Status>, phase: Phase)
    requires from <= |replies|
    modifies flight`status, stats`succeeded, stats`crashed
    ensures Outcome(flight.status, phase, trace) == Departure(flight.category, replies, from)
    ensures log == DepartureLog(flight.category, replies, from)
    ensures Legal({}, log)
    ensures Settled(flight.status, phase, flight.category, After({}, log),
                    old(stats.succeeded), old(stats.crashed), stats.succeeded, stats.crashed)
  {
    ghost var category := flight.category;
    phase := DeboardingPhase;
    var done, next;
    done, next, log := FlyPhase(flight, stats, DeboardingPhase, replies, from);
    trace := [Landing, Deboarding];
    assert flight.category == category;
    ghost var deboarding := PhaseRun(Plan(DeboardingPhase, category), replies, from, false, 0);
    assert (done <==> deboarding.stop == AllHeld) && (flight.status == Accident <==> deboarding.stop == Fatal);
    if !done {
      DepartureStops(category, replies, from);
      if flight.status == Accident {
        trace := trace + [Accident];
      }
      return;
    }
    DepartureContinues(category, replies, from, next);
    DepartureLogContinues(category, replies, from, next);
    var rest;
    rest, trace, phase := Leave(flight, stats, replies, next);
    assert flight.category == category;
    AfterAppend({}, log, rest);
    log := log + rest;
  }

  /** Journey and TripLog when the landing loop stops short of its plan:
      the flight's life and log end with landing. */
  lemma TripStops(category: Category, replies: seq<Reply>)
    requires PhaseRun(Plan(LandingPhase, category), replies, 0, false, 0).stop != AllHeld
    ensures Journey(category, replies)
            == Stopped(PhaseRun(Plan(LandingPhase, category), replies, 0, false, 0), LandingPhase, [Landing])
    ensures TripLog(category, replies) == PhaseLog(LandingPhase, category, replies, 0)
  {
  }

  /** Journey and TripLog when the landing loop holds its plan: the rest
      is the departure from where landing stopped. */
  lemma TripContinues(category: Category, replies: seq<Reply>, next: nat)
    requires PhaseRun(Plan(LandingPhase, category), replies, 0, false, 0).stop == AllHeld
    requires next == PhaseRun(Plan(LandingPhase, category), replies, 0, false, 0).used
    ensures next <= |replies|
    ensures Journey(category, replies) == Departure(category, replies, next)
    ensures TripLog(category, replies) == PhaseLog(LandingPhase, category, replies, 0) + DepartureLog(category, replies, next)
  {
  }

  /** The landing leak over a whole life: an international flight granted
      the runway that crashes waiting for the tower ends in an accident, and
      its log leaves it holding the runway. */
  lemma LandingCrashLeaksRunway()
    ensures Journey(International, [Granted, Crashed]) == Outcome(Accident, LandingPhase, [Landing, Accident])
    ensures After({}, TripLog(International, [Granted, Crashed])) == {Runway}
  {
    var replies := [Granted, Crashed];
    var plan := Plan(LandingPhase, International);
    assert replies[0..] == replies;
    LandingCrashKeepsRunway();
    var p := Attempt(plan, 0, replies[0..], false);
    assert PhaseRun(plan, replies, 0, false, 0).stop == Fatal;
    assert RunLog(plan, replies, 0, false) == p.log;
    TripStops(International, replies);
  }

  /** Departure and DepartureLog when the deboarding loop stops short of
      its plan: the flight stays there. */
  lemma DepartureStops(category: Category, replies: seq<Reply>, from: nat)
    requires from <= |replies|
    requires PhaseRun(Plan(DeboardingPhase, category), replies, from, false, 0).stop != AllHeld
    ensures Departure(category, replies, from)
            == Stopped(PhaseRun(Plan(DeboardingPhase, category), replies, from, false, 0),
                       DeboardingPhase, [Landing, Deboarding])
    ensures DepartureLog(category, replies, from) == PhaseLog(DeboardingPhase, category, replies, from)
  {
  }

  /** Departure when the deboarding loop holds its plan: the flight's life
      goes on with takeoff from where deboarding stopped. */
  lemma DepartureContinues(category: Category, replies: seq<Reply>, from: nat, next: nat)
    requires from <= |replies|
    requires PhaseRun(Plan(DeboardingPhase, category), replies, from, false, 0).stop == AllHeld
    requires next == from + PhaseRun(Plan(DeboardingPhase, category), replies, from, false, 0).used
    ensures next <= |replies|
    ensures Departure(category, replies, from) == Liftoff(category, replies, next)
  {
  }

  /** DepartureLog when the deboarding loop holds its plan: the deboarding
      log, then the takeoff log from where deboarding stopped. */
  lemma DepartureLogContinues(category: Category, replies: seq<Reply>, from: nat, next: nat)
    requires from <= |replies|
    requires PhaseRun(Plan(DeboardingPhase, category), replies, from, false, 0).stop == AllHeld
    requires next == from + PhaseRun(Plan(DeboardingPhase, category), replies, from, false, 0).used
    ensures next <= |replies|
    ensures DepartureLog(category, replies, from)
            == PhaseLog(DeboardingPhase, category, replies, from) + PhaseLog(TakeoffPhase, category, replies, next)
  {
    var tail := PhaseLog(TakeoffPhase, category, replies, next);
    assert (if PhaseRun(Plan(DeboardingPhase, category), replies, from, false, 0).stop != AllHeld then [] else tail) == tail;
  }

  /** A deboarded flight's takeoff from the reply at `from`, and its
      completion once takeoff holds its plan, as Liftoff says. */
  method Leave(flight: Flight, stats: Statistics, replies: seq<Reply>, from: nat)
    returns (log: seq<Event>, trace: seq<Status>, phase: Phase)
    requires from <= |replies|
    modifies flight`status, stats`succeeded, stats`crashed
    ensures Outcome(flight.status, phase, trace) == Liftoff(flight.category, replies, from)
    ensures log == PhaseLog(TakeoffPhase, flight.category, replies, from)
    ensures phase == TakeoffPhase
    ensures Legal({}, log)
    ensures Settled(flight.status, phase, flight.category, After({}, log),
                    old(stats.succeeded), old(stats.crashed), stats.succeeded, stats.crashed)
  {
    phase := TakeoffPhase;
    var done, next;
    done, next, log := FlyPhase(flight, stats, TakeoffPhase, replies, from);
    trace := [Landing, Deboarding, TakingOff];
    if !done {
      if flight.status == Accident {
        trace := trace + [Accident];
      }
      return;
    }
    flight.status := Completed;
    trace := trace + [Completed];
    stats.succeeded := stats.succeeded + 1;
  }

  /** How a flight's life ends: its final status, the last phase it
      entered and the statuses it went through. */
  datatype Outcome = Outcome(status: Status, phase: Phase, trace: seq<Status>)

  /** A phase's retry loop stopped short of holding its plan: a crash ends
      the flight in an accident, anything else leaves it in the phase. */
  function Stopped(e: End, phase: Phase, trace: seq<Status>): Outcome
  {
    if e.stop == Fatal then Outcome(Accident, phase, trace + [Accident])
    else Outcome(PhaseStatus(phase), phase, trace)
  }

  /** A flight's life as the replies it gets decide it: landing from the
      first reply, then what Departure makes of the replies after it. */
  function Journey(category: Category, replies: seq<Reply>): (o: Outcome)
    ensures FollowsPath(o.trace, [Landing, Deboarding, TakingOff, Completed], Accident)
    ensures o.status == o.trace[|o.trace| - 1]
    ensures o.status == Completed <==> o.trace == [Landing, Deboarding, TakingOff, Completed]
  {
    var landing := PhaseRun(Plan(LandingPhase, category), replies, 0, false, 0);
    if landing.stop != AllHeld then Stopped(landing, LandingPhase, [Landing])
    else Departure(category, replies, landing.used)
  }

  /** A landed flight's life from the reply at `from`: deboarding, then
      takeoff (which cleans up on a crash) from where deboarding stopped, and
      completion once takeoff holds its plan. */
  function Departure(category: Category, replies: seq<Reply>, from: nat): (o: Outcome)
    requires from <= |replies|
    ensures FollowsPath(o.trace, [Landing, Deboarding, TakingOff, Completed], Accident) && 2 <= |o.trace|
    ensures o.status == o.trace[|o.trace| - 1]
    ensures o.status == Completed <==> o.trace == [Landing, Deboarding, TakingOff, Completed]
  {
    var deboarding := PhaseRun(Plan(DeboardingPhase, category), replies, from, false, 0);
    if deboarding.stop != AllHeld then Stopped(deboarding, DeboardingPhase, [Landing, Deboarding])
    else Liftoff(category, replies, from + deboarding.used)
  }

  /** A deboarded flight's life from the reply at `from`: takeoff, which
      cleans up on a crash, and completion once it holds its plan. */
  function Liftoff(category: Category, replies: seq<Reply>, from: nat): (o: Outcome)
    requires from <= |replies|
    ensures FollowsPath(o.trace, [Landing, Deboarding, TakingOff, Completed], Accident) && 3 <= |o.trace|
    ensures o.status == o.trace[|o.trace| - 1]
    ensures o.status == Completed <==> o.trace == [Landing, Deboarding, TakingOff, Completed]
  {
    var takeoff := PhaseRun(Plan(TakeoffPhase, category), replies, from, true, 0);
    if takeoff.stop != AllHeld then Stopped(takeoff, TakeoffPhase, [Landing, Deboarding, TakingOff])
    else Outcome(Completed, TakeoffPhase, [Landing, Deboarding, TakingOff, Completed])
  }

  /** A flight's log as the replies it gets decide it: the landing phase's
      log, then, once it lands, what DepartureLog makes of the replies after
      it. */
  function TripLog(category: Category, replies: seq<Reply>): seq<Event>
  {
    var landing := PhaseRun(Plan(LandingPhase, category), replies, 0, false, 0);
    var log := PhaseLog(LandingPhase, category, replies, 0);
    if landing.stop != AllHeld then log else log + DepartureLog(category, replies, landing.used)
  }

  /** A landed flight's log from the reply at `from`: the deboarding phase's
      log and, once deboarding holds its plan, the takeoff phase's. */
  function DepartureLog(category: Category, replies: seq<Reply>, from: nat): seq<Event>
    requires from <= |replies|
  {
    var deboarding := PhaseRun(Plan(DeboardingPhase, category), replies, from, false, 0);
    PhaseLog(DeboardingPhase, category, replies, from)
      + if deboarding.stop != AllHeld then [] else PhaseLog(TakeoffPhase, category, replies, from + deboarding.used)
  }

  /** With replies that only grant or crash, a phase's loop makes one pass:
      it holds its plan, using one reply per resource, exactly when the next
      |plan| replies are all grants, and crashes otherwise. */
  lemma PhaseDecisive(plan: seq<Resource>, replies: seq<Reply>, from: nat, releaseOnCrash: bool)
    requires from + |plan| <= |replies|
    requires forall j :: from <= j < from + |plan| ==> replies[j] == Granted || replies[j] == Crashed
    ensures var e := PhaseRun(plan, replies, from, releaseOnCrash, 0);
            && (e.stop == AllHeld || e.stop == Fatal)
            && (e.stop == AllHeld <==> forall j :: from <= j < from + |plan| ==> replies[j] == Granted)
            && (e.stop == AllHeld ==> e.used == |plan|)
  {
    var rest := replies[from..];
    AttemptReplies(plan, 0, rest, releaseOnCrash);
    var p := Attempt(plan, 0, rest, releaseOnCrash);
    assert forall j :: from <= j < from + |plan| ==> replies[j] == rest[j - from];
    if p.stop != AllHeld {
      assert rest[p.at] == replies[from + p.at];
    }
  }

  /** Replies that only grant or crash decide a flight in its first seven
      (two for landing, two for deboarding, three for takeoff): it completes
      exactly when all seven are grants, and crashes otherwise. */
  lemma DecisiveReplies(category: Category, replies: seq<Reply>)
    requires 7 <= |replies|
    requires forall j :: 0 <= j < 7 ==> replies[j] == Granted || replies[j] == Crashed
    ensures Journey(category, replies).status == Completed <==> forall j :: 0 <= j < 7 ==> replies[j] == Granted
    ensures Journey(category, replies).status == Accident <==> exists j :: 0 <= j < 7 && replies[j] == Crashed
  {
    var landing := PhaseRun(Plan(LandingPhase, category), replies, 0, false, 0);
    PhaseDecisive(Plan(LandingPhase, category), replies, 0, false);
    if landing.stop != AllHeld {
      assert replies[0] != Granted || replies[1] != Granted;
    } else {
      DecisiveDeparture(category, replies);
    }
  }

  /** DecisiveReplies after a landing on the first two replies: the next
      five decide the rest of the flight. */
  lemma DecisiveDeparture(category: Category, replies: seq<Reply>)
    requires 7 <= |replies|
    requires forall j :: 2 <= j < 7 ==> replies[j] == Granted || replies[j] == Crashed
    ensures Departure(category, replies, 2).status == Completed <==> forall j :: 2 <= j < 7 ==> replies[j] == Granted
    ensures Departure(category, replies, 2).status == Accident <==> exists j :: 2 <= j < 7 && replies[j] == Crashed
  {
    var deboarding := PhaseRun(Plan(DeboardingPhase, category), replies, 2, false, 0);
    PhaseDecisive(Plan(DeboardingPhase, category), replies, 2, false);
    if deboarding.stop != AllHeld {
      assert replies[2] != Granted || replies[3] != Granted;
    } else {
      PhaseDecisive(Plan(TakeoffPhase, category), replies, 4, true);
    }
  }

  /** What a stopped pass can leave held: part of the plan, and after a
      crash on a two-resource plan at most its first resource. */
  lemma HoldingBounds(plan: seq<Resource>, stop: Stop, at: nat, releaseOnCrash: bool)
    requires at < |plan|
    ensures Holding(plan, stop, at, releaseOnCrash) <= Members(plan)
    ensures |plan| == 2 ==> Holding(plan, stop, at, releaseOnCrash) <= {plan[0]}
  {
    if at == 1 {
      assert plan[..1] == [plan[0]];
    }
  }
}
