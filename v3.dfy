/** The second simulator revision (v3Trabalho.c): runway and gate pools that
    count free units, a control tower that counts its users, timeouts that a
    critical requester ignores, no give-up inside a request, and a flight
    lifecycle with no retry that releases what it holds on every crash.

    As in the first revision, the arbiter methods are the atomic steps of
    the critical sections, elapsed times are parameters and the outcomes of
    waits come from oracles. */
module V3Trabalho {
  import opened Arbitration
  import opened Bookkeeping

  const RunwayCount: nat := 3
  const GateCount: nat := 5
  const TowerCapacity: nat := 2
  const CriticalAlertSeconds: int := 10
  const CrashSeconds: int := 15

  /** Deadlock is declared but never assigned. */
  datatype Status =
    Scheduled | Landing | Deboarding | AwaitingTakeoff | TakingOff | Completed | Accident | Deadlock

  /** The report's text for a status. */
  function StatusText(s: Status): (text: string)
    ensures text == "ACIDENTE (Starvation)" <==> s == Accident
    ensures text == "Concluido" <==> s == Completed
  {
    match s
    case Scheduled => "Agendado"
    case Landing => "Pousando"
    case Deboarding => "Desembarcando"
    case AwaitingTakeoff => "Aguardando Decolagem"
    case TakingOff => "Decolando"
    case Completed => "Concluido"
    case Accident => "ACIDENTE (Starvation)"
    case Deadlock => "DEADLOCK"
  }

  /** The report's text for a flight category. */
  function CategoryText(c: Category): (text: string)
    ensures text == "Internacional" <==> c == International
    ensures text == "Domestico" <==> c == Domestic
  {
    match c
    case International => "Internacional"
    case Domestic => "Domestico"
  }

  /** No two statuses, and no two categories, print the same way. */
  lemma TextsInjective(s: Status, t: Status, c: Category, d: Category)
    ensures StatusText(s) == StatusText(t) ==> s == t
    ensures CategoryText(c) == CategoryText(d) ==> c == d
  {
  }

  class Flight {
    const id: int
    const category: Category
    var status: Status
    var isCritical: bool
    /** When the current request started waiting. */
    var waitStart: int

    /** A flight as the generator creates it. */
    constructor (id: int, category: Category)
      ensures this.id == id && this.category == category
      ensures status == Scheduled && !isCritical
    {
      this.id := id;
      this.category := category;
      status := Scheduled;
      isCritical := false;
      waitStart := 0;
    }
  }

  /** The shared counters of the final report (the deadlock counter, which
      nothing ever increments, is left out). */
  class Statistics {
    var succeeded: nat
    var crashed: nat
    var starvationAlerts: nat

    constructor ()
      ensures succeeded == 0 && crashed == 0 && starvationAlerts == 0
    {
      succeeded, crashed, starvationAlerts := 0, 0, 0;
    }
  }

  /** What a timed-out wait slice decides. */
  datatype TimeoutAction = Crash | Promote | KeepWaiting

  /** The timeout rules: a critical requester ignores its timeouts; any
      other crashes once `elapsed` (since this request started) reaches the
      crash threshold, and is promoted once it reaches the alert threshold. */
  function Decide(elapsed: int, critical: bool): (a: TimeoutAction)
    ensures a == Crash <==> !critical && elapsed >= CrashSeconds
    ensures a == Promote <==> !critical && CriticalAlertSeconds <= elapsed < CrashSeconds
  {
    if critical then KeepWaiting
    else if elapsed >= CrashSeconds then Crash
    else if elapsed >= CriticalAlertSeconds then Promote
    else KeepWaiting
  }

  /** A critical requester neither crashes nor is promoted again: once
      promoted, the only way out of the wait loop is a grant. */
  lemma CriticalOnlyWaits(elapsed: int)
    ensures Decide(elapsed, true) == KeepWaiting
    ensures Decide(elapsed, false) != KeepWaiting <==> elapsed >= CriticalAlertSeconds
  {
  }

  /** What a request returns: the unit, a crash, or (when the oracle of
      wake-ups runs out) nothing yet. There is no give-up. */
  datatype Reply = Granted | Crashed | StillWaiting

  /** One end of a wait slice: whether it timed out, and the clock then. */
  datatype Wake = Wake(timedOut: bool, now: int)

  /** A runway or gate pool: free units, and the number of critical and of
      international requesters currently waiting. */
  class Arbiter {
    const capacity: nat
    var available: int
    var waitingCritical: int
    var waitingInternational: int

    ghost predicate Valid()
      reads this
    {
      0 <= available <= capacity && waitingInternational >= 0
    }

    ghost predicate Idle()
      reads this
    {
      Valid() && available == capacity && waitingCritical == 0 && waitingInternational == 0
    }

    constructor (capacity: nat)
      ensures this.capacity == capacity && Idle()
    {
      this.capacity := capacity;
      available := capacity;
      waitingCritical := 0;
      waitingInternational := 0;
    }

    /** Must flight `f` (keep) waiting here? */
    predicate Blocks(f: Flight)
      reads this, f
    {
      MustWait(available, waitingCritical, waitingInternational, f.category, f.isCritical)
    }

    /** Choosing the queue: an international, non-critical requester counts
        itself among the international waiters. */
    method EnterSlice(f: Flight)
      requires Valid()
      modifies this`waitingInternational
      ensures Valid()
      ensures waitingInternational
              == old(waitingInternational) + Bit(f.category == International && !f.isCritical)
    {
      if f.isCritical {
      } else if f.category == International {
        waitingInternational := waitingInternational + 1;
      }
    }

    /** After the slice: the same requester uncounts itself. */
    method LeaveSlice(f: Flight)
      requires Valid()
      requires f.category == International && !f.isCritical ==> waitingInternational >= 1
      modifies this`waitingInternational
      ensures Valid()
      ensures waitingInternational
              == old(waitingInternational) - Bit(f.category == International && !f.isCritical)
    {
      if !f.isCritical && f.category == International {
        waitingInternational := waitingInternational - 1;
      }
    }

    /** After a timed-out slice: crash, promote, or keep waiting, as Decide
        says for the time since this request started. */
    method Timeout(f: Flight, stats: Statistics, elapsed: int) returns (action: TimeoutAction)
      requires Valid()
      modifies this`waitingCritical, f`status, f`isCritical, stats`crashed, stats`starvationAlerts
      ensures Valid()
      ensures action == Decide(elapsed, old(f.isCritical))
      ensures f.status == (if action == Crash then Accident else old(f.status))
      ensures stats.crashed == old(stats.crashed) + Bit(action == Crash)
      ensures f.isCritical == (old(f.isCritical) || action == Promote)
      ensures waitingCritical == old(waitingCritical) + Bit(action == Promote)
      ensures stats.starvationAlerts == old(stats.starvationAlerts) + Bit(action == Promote)
    {
      action := Decide(elapsed, f.isCritical);
      if action == Crash {
        f.status := Accident;
        stats.crashed := stats.crashed + 1;
      } else if action == Promote {
        f.isCritical := true;
        waitingCritical := waitingCritical + 1;
        stats.starvationAlerts := stats.starvationAlerts + 1;
      }
    }

    /** Leaving the wait loop: take one unit; a critical requester clears its
        flag and uncounts itself. */
    method Grant(f: Flight)
      requires Valid() && !Blocks(f)
      modifies this`available, this`waitingCritical, f`isCritical
      ensures Valid()
      ensures available == old(available) - 1
      ensures !f.isCritical
      ensures waitingCritical == old(waitingCritical) - Bit(old(f.isCritical))
    {
      available := available - 1;
      if f.isCritical {
        f.isCritical := false;
        waitingCritical := waitingCritical - 1;
      }
    }

    /** Give one unit back (the caller holds one) and wake the highest tier
        that has a counted waiter. */
    method Release() returns (woken: Tier)
      requires Valid() && available < capacity
      modifies this`available
      ensures Valid()
      ensures available == old(available) + 1
      ensures woken == WakeTier(waitingCritical, waitingInternational)
    {
      available := available + 1;
      woken := WakeTier(waitingCritical, waitingInternational);
    }

    /** A whole request, with the wait start reset to `now` and the wait loop
        driven by the wake-ups in `wakes`; other flights do not act while it
        runs, and `used` counts the wake-ups consumed. A grant happens only
        once the admission check passes, a crash only at a timed-out wake-up
        15 s into the request, and a promotion at a timed-out wake-up
        between 10 s and 15 s. A finished request leaves the flight non-critical, and moves
        this arbiter's critical counter only by the flag the flight brought
        in: a promotion here is undone by the grant here, because a critical
        requester cannot crash. A flight of the lifecycle always comes in
        non-critical, so the counter ends where it was. */
    method Request(f: Flight, stats: Statistics, now: int, wakes: seq<Wake>)
      returns (reply: Reply, ghost promoted: bool, ghost used: nat)
      requires Valid()
      modifies this`available, this`waitingCritical, this`waitingInternational
      modifies f`status, f`isCritical, f`waitStart, stats`crashed, stats`starvationAlerts
      ensures Valid()
      ensures f.waitStart == now
      ensures waitingInternational == old(waitingInternational)
      ensures available == old(available) - Bit(reply == Granted)
      ensures f.status == (if reply == Crashed then Accident else old(f.status))
      ensures stats.crashed == old(stats.crashed) + Bit(reply == Crashed)
      ensures stats.starvationAlerts == old(stats.starvationAlerts) + Bit(promoted)
      ensures promoted ==> !old(f.isCritical)
      ensures reply == Crashed ==> !promoted && !old(f.isCritical)
      ensures reply != StillWaiting ==>
                !f.isCritical && waitingCritical == old(waitingCritical) - Bit(old(f.isCritical))
      ensures reply == StillWaiting ==>
                && f.isCritical == (old(f.isCritical) || promoted)
                && waitingCritical == old(waitingCritical) + Bit(promoted)
      ensures used <= |wakes|
      ensures reply == StillWaiting ==> used == |wakes|
      ensures !MustWait(old(available), old(waitingCritical), old(waitingInternational), f.category, old(f.isCritical))
              ==> reply == Granted && used == 0 && !promoted
      ensures reply != Granted ==>
                MustWait(old(available), old(waitingCritical) + Bit(promoted), old(waitingInternational),
                         f.category, old(f.isCritical) || promoted)
      ensures reply == Granted ==>
                !MustWait(old(available), old(waitingCritical) + Bit(promoted), old(waitingInternational),
                          f.category, old(f.isCritical) || promoted)
      ensures reply == Crashed ==>
                0 < used && wakes[used - 1].timedOut && wakes[used - 1].now - now >= CrashSeconds
      ensures promoted ==>
                exists j :: 0 <= j < used && wakes[j].timedOut
                            && CriticalAlertSeconds <= wakes[j].now - now < CrashSeconds
      ensures !old(f.isCritical) && !promoted ==>
                forall j :: 0 <= j < used - Bit(reply == Crashed) && wakes[j].timedOut ==>
                  wakes[j].now - now < CriticalAlertSeconds
    {
      f.waitStart := now;
      var i := 0;
      promoted := false;
      while Blocks(f)
        invariant Valid()
        invariant 0 <= i <= |wakes|
        invariant f.waitStart == now
        invariant promoted ==>
                    exists j :: 0 <= j < i && wakes[j].timedOut
                                && CriticalAlertSeconds <= wakes[j].now - now < CrashSeconds
        invariant !old(f.isCritical) && !promoted ==>
                    forall j :: 0 <= j < i && wakes[j].timedOut ==> wakes[j].now - now < CriticalAlertSeconds
        invariant available == old(available)
        invariant waitingInternational == old(waitingInternational)
        invariant f.status == old(f.status) && stats.crashed == old(stats.crashed)
        invariant promoted ==> !old(f.isCritical)
        invariant f.isCritical == (old(f.isCritical) || promoted)
        invariant waitingCritical == old(waitingCritical) + Bit(promoted)
        invariant stats.starvationAlerts == old(stats.starvationAlerts) + Bit(promoted)
        invariant !MustWait(old(available), old(waitingCritical), old(waitingInternational), f.category, old(f.isCritical))
                  ==> i == 0 && !promoted
        decreases |wakes| - i
      {
        if i == |wakes| {
          reply, used := StillWaiting, i;
          return;
        }
        var wake := wakes[i];
        i := i + 1;
        EnterSlice(f);
        LeaveSlice(f);
        if wake.timedOut {
          var action := Timeout(f, stats, wake.now - f.waitStart);
          if action == Crash {
            reply, used := Crashed, i;
            return;
          }
          if action == Promote {
            promoted := true;
          }
        }
      }
      Grant(f);
      reply, used := Granted, i;
    }
  }

  /** The tower's wait-loop condition, on the number of users rather than
      free slots. */
  predicate TowerMustWait(users: int, capacity: int, waitingCritical: int, waitingInternational: int,
                          category: Category, critical: bool): (wait: bool)
    ensures wait <==> || users >= capacity
                      || Rank(WakeTier(waitingCritical, waitingInternational)) < Rank(TierOf(category, critical))
  {
    || users >= capacity
    || (!critical && waitingCritical > 0)
    || (category == Domestic && !critical && waitingInternational > 0)
  }

  /** Counting users up to the capacity is counting free slots down to zero:
      the tower admits exactly whom a pool with `capacity - users` free units
      would admit. */
  lemma TowerMatchesPool(users: int, capacity: int, waitingCritical: int, waitingInternational: int,
                         category: Category, critical: bool)
    requires 0 <= users <= capacity
    ensures TowerMustWait(users, capacity, waitingCritical, waitingInternational, category, critical)
            == MustWait(capacity - users, waitingCritical, waitingInternational, category, critical)
  {
  }

  /** The control tower: the number of flights using it, and its critical
      and international waiters. */
  class Tower {
    const capacity: nat
    var users: int
    var waitingCritical: int
    var waitingInternational: int

    ghost predicate Valid()
      reads this
    {
      0 <= users <= capacity && waitingInternational >= 0
    }

    ghost predicate Idle()
      reads this
    {
      Valid() && users == 0 && waitingCritical == 0 && waitingInternational == 0
    }

    constructor (capacity: nat)
      ensures this.capacity == capacity && Idle()
    {
      this.capacity := capacity;
      users := 0;
      waitingCritical := 0;
      waitingInternational := 0;
    }

    predicate Blocks(f: Flight)
      reads this, f
    {
      TowerMustWait(users, capacity, waitingCritical, waitingInternational, f.category, f.isCritical)
    }

    method EnterSlice(f: Flight)
      requires Valid()
      modifies this`waitingInternational
      ensures Valid()
      ensures waitingInternational
              == old(waitingInternational) + Bit(f.category == International && !f.isCritical)
    {
      if f.isCritical {
      } else if f.category == International {
        waitingInternational := waitingInternational + 1;
      }
    }

    method LeaveSlice(f: Flight)
      requires Valid()
      requires f.category == International && !f.isCritical ==> waitingInternational >= 1
      modifies this`waitingInternational
      ensures Valid()
      ensures waitingInternational
              == old(waitingInternational) - Bit(f.category == International && !f.isCritical)
    {
      if !f.isCritical && f.category == International {
        waitingInternational := waitingInternational - 1;
      }
    }

    method Timeout(f: Flight, stats: Statistics, elapsed: int) returns (action: TimeoutAction)
      requires Valid()
      modifies this`waitingCritical, f`status, f`isCritical, stats`crashed, stats`starvationAlerts
      ensures Valid()
      ensures action == Decide(elapsed, old(f.isCritical))
      ensures f.status == (if action == Crash then Accident else old(f.status))
      ensures stats.crashed == old(stats.crashed) + Bit(action == Crash)
      ensures f.isCritical == (old(f.isCritical) || action == Promote)
      ensures waitingCritical == old(waitingCritical) + Bit(action == Promote)
      ensures stats.starvationAlerts == old(stats.starvationAlerts) + Bit(action == Promote)
    {
      action := Decide(elapsed, f.isCritical);
      if action == Crash {
        f.status := Accident;
        stats.crashed := stats.crashed + 1;
      } else if action == Promote {
        f.isCritical := true;
        waitingCritical := waitingCritical + 1;
        stats.starvationAlerts := stats.starvationAlerts + 1;
      }
    }

    /** Leaving the wait loop: one more user; a critical requester clears its
        flag and uncounts itself. */
    method Grant(f: Flight)
      requires Valid() && !Blocks(f)
      modifies this`users, this`waitingCritical, f`isCritical
      ensures Valid()
      ensures users == old(users) + 1
      ensures !f.isCritical
      ensures waitingCritical == old(waitingCritical) - Bit(old(f.isCritical))
    {
      users := users + 1;
      if f.isCritical {
        f.isCritical := false;
        waitingCritical := waitingCritical - 1;
      }
    }

    /** One user leaves (the caller is one) and the highest tier with a
        counted waiter is woken. */
    method Release() returns (woken: Tier)
      requires Valid() && users > 0
      modifies this`users
      ensures Valid()
      ensures users == old(users) - 1
      ensures woken == WakeTier(waitingCritical, waitingInternational)
    {
      users := users - 1;
      woken := WakeTier(waitingCritical, waitingInternational);
    }

    /** A whole tower request; the same promises as a pool request, with the
        tower's admission check and one more user on a grant. */
    method Request(f: Flight, stats: Statistics, now: int, wakes: seq<Wake>)
      returns (reply: Reply, ghost promoted: bool, ghost used: nat)
      requires Valid()
      modifies this`users, this`waitingCritical, this`waitingInternational
      modifies f`status, f`isCritical, f`waitStart, stats`crashed, stats`starvationAlerts
      ensures Valid()
      ensures f.waitStart == now
      ensures waitingInternational == old(waitingInternational)
      ensures users == old(users) + Bit(reply == Granted)
      ensures f.status == (if reply == Crashed then Accident else old(f.status))
      ensures stats.crashed == old(stats.crashed) + Bit(reply == Crashed)
      ensures stats.starvationAlerts == old(stats.starvationAlerts) + Bit(promoted)
      ensures promoted ==> !old(f.isCritical)
      ensures reply == Crashed ==> !promoted && !old(f.isCritical)
      ensures reply != StillWaiting ==>
                !f.isCritical && waitingCritical == old(waitingCritical) - Bit(old(f.isCritical))
      ensures reply == StillWaiting ==>
                && f.isCritical == (old(f.isCritical) || promoted)
                && waitingCritical == old(waitingCritical) + Bit(promoted)
      ensures used <= |wakes|
      ensures reply == StillWaiting ==> used == |wakes|
      ensures !TowerMustWait(old(users), capacity, old(waitingCritical), old(waitingInternational), f.category, old(f.isCritical))
              ==> reply == Granted && used == 0 && !promoted
      ensures reply != Granted ==>
                TowerMustWait(old(users), capacity, old(waitingCritical) + Bit(promoted), old(waitingInternational),
                              f.category, old(f.isCritical) || promoted)
      ensures reply == Granted ==>
                !TowerMustWait(old(users), capacity, old(waitingCritical) + Bit(promoted),
                               old(waitingInternational), f.category, old(f.isCritical) || promoted)
      ensures reply == Crashed ==>
                0 < used && wakes[used - 1].timedOut && wakes[used - 1].now - now >= CrashSeconds
      ensures promoted ==>
                exists j :: 0 <= j < used && wakes[j].timedOut
                            && CriticalAlertSeconds <= wakes[j].now - now < CrashSeconds
      ensures !old(f.isCritical) && !promoted ==>
                forall j :: 0 <= j < used - Bit(reply == Crashed) && wakes[j].timedOut ==>
                  wakes[j].now - now < CriticalAlertSeconds
    {
      f.waitStart := now;
      var i := 0;
      promoted := false;
      while Blocks(f)
        invariant Valid()
        invariant 0 <= i <= |wakes|
        invariant f.waitStart == now
        invariant promoted ==>
                    exists j :: 0 <= j < i && wakes[j].timedOut
                                && CriticalAlertSeconds <= wakes[j].now - now < CrashSeconds
        invariant !old(f.isCritical) && !promoted ==>
                    forall j :: 0 <= j < i && wakes[j].timedOut ==> wakes[j].now - now < CriticalAlertSeconds
        invariant users == old(users)
        invariant waitingInternational == old(waitingInternational)
        invariant f.status == old(f.status) && stats.crashed == old(stats.crashed)
        invariant promoted ==> !old(f.isCritical)
        invariant f.isCritical == (old(f.isCritical) || promoted)
        invariant waitingCritical == old(waitingCritical) + Bit(promoted)
        invariant stats.starvationAlerts == old(stats.starvationAlerts) + Bit(promoted)
        invariant !TowerMustWait(old(users), capacity, old(waitingCritical), old(waitingInternational), f.category, old(f.isCritical))
                  ==> i == 0 && !promoted
        decreases |wakes| - i
      {
        if i == |wakes| {
          reply, used := StillWaiting, i;
          return;
        }
        var wake := wakes[i];
        i := i + 1;
        EnterSlice(f);
        LeaveSlice(f);
        if wake.timedOut {
          var action := Timeout(f, stats, wake.now - f.waitStart);
          if action == Crash {
            reply, used := Crashed, i;
            return;
          }
          if action == Promote {
            promoted := true;
          }
        }
      }
      Grant(f);
      reply, used := Granted, i;
    }
  }

  /** The airport as the simulation starts. */
  class Airport {
    const runways: Arbiter
    const gates: Arbiter
    const tower: Tower
    const stats: Statistics

    constructor ()
      ensures fresh(runways) && fresh(gates) && fresh(tower) && fresh(stats)
      ensures runways.capacity == RunwayCount && runways.Idle()
      ensures gates.capacity == GateCount && gates.Idle()
      ensures tower.capacity == TowerCapacity && tower.Idle()
      ensures stats.succeeded == 0 && stats.crashed == 0 && stats.starvationAlerts == 0
    {
      runways := new Arbiter(RunwayCount);
      gates := new Arbiter(GateCount);
      tower := new Tower(TowerCapacity);
      stats := new Statistics();
    }
  }

  /** Landing: international flights take the runway, then the tower;
      domestic flights the tower, then the runway. */
  function LandingPlan(category: Category): (plan: seq<Resource>)
    ensures |plan| == 2 && Distinct(plan) && Members(plan) == {Runway, Tower}
    ensures plan[0] == Tower <==> category == Domestic
  {
    match category
    case International => [Runway, Tower]
    case Domestic => [Tower, Runway]
  }

  /** Deboarding: the gate, then the tower, for both categories. */
  function DeboardingPlan(): (plan: seq<Resource>)
    ensures |plan| == 2 && Distinct(plan) && Members(plan) == {Gate, Tower} && plan[1] == Tower
  {
    [Gate, Tower]
  }

  /** Takeoff, with the gate still held from deboarding: international
      flights take the runway, then the tower; domestic flights the tower,
      then the runway. */
  function TakeoffPlan(category: Category): (plan: seq<Resource>)
    ensures |plan| == 2 && Distinct(plan) && Members(plan) == {Runway, Tower} && Gate !in plan
    ensures plan[0] == Tower <==> category == Domestic
  {
    LandingPlan(category)
  }

  /** The reply to the acquisition at position `i` of the oracle; past its
      end the flight is still waiting. */
  function ReplyAt(replies: seq<Reply>, i: nat): Reply
  {
    if i < |replies| then replies[i] else StillWaiting
  }

  /** What a phase's two acquisitions from position `from` come to: the
      first reply that is not a grant, or a grant when both are granted. */
  function PairReply(replies: seq<Reply>, from: nat): (r: Reply)
    ensures r == Granted <==> ReplyAt(replies, from) == Granted && ReplyAt(replies, from + 1) == Granted
    ensures r == Crashed <==>
              || ReplyAt(replies, from) == Crashed
              || (ReplyAt(replies, from) == Granted && ReplyAt(replies, from + 1) == Crashed)
  {
    if ReplyAt(replies, from) != Granted then ReplyAt(replies, from) else ReplyAt(replies, from + 1)
  }

  /** Giving back, in order, distinct kinds that are exactly what is held is
      legal and leaves nothing held. */
  lemma GiveBackAll(holding: seq<Resource>)
    requires Distinct(holding)
    ensures Legal(Members(holding), Gives(holding))
    ensures After(Members(holding), Gives(holding)) == {}
  {
    assert forall i :: 0 <= i < |holding| ==> holding[i] in Members(holding);
    GivesAll(Members(holding), holding);
  }

  /** Taking one kind not held is legal and adds it. */
  lemma TakeOne(held: set<Resource>, r: Resource)
    requires r !in held
    ensures Legal(held, [Take(r)]) && After(held, [Take(r)]) == held + {r}
  {
    assert [Take(r)][1..] == [];
  }

  /** How many of a phase's two acquisitions from position `from` are
      granted before the first that is not. */
  function Admitted(replies: seq<Reply>, from: nat): (n: nat)
    ensures n <= 2
    ensures n == 2 <==> PairReply(replies, from) == Granted
    ensures 0 < n ==> ReplyAt(replies, from) == Granted
    ensures n < 2 ==> ReplyAt(replies, from + n) == PairReply(replies, from)
  {
    if ReplyAt(replies, from) != Granted then 0
    else if ReplyAt(replies, from + 1) != Granted then 1
    else 2
  }

  /** The log of a phase's two acquisitions while holding `carried`: a take
      of each kind granted, in plan order, and after a crash a give of
      everything held, the carried kinds first and then the kinds just
      taken. */
  function PairLog(carried: seq<Resource>, plan: seq<Resource>, replies: seq<Reply>, from: nat): seq<Event>
    requires |plan| == 2
  {
    var taken := plan[..Admitted(replies, from)];
    Takes(taken) + (if PairReply(replies, from) == Crashed then Gives(carried + taken) else [])
  }

  /** A phase's acquisition log is legal from what it carries; after a crash
      nothing is held, otherwise what it carries and the kinds granted. */
  lemma PairLogHolding(carried: seq<Resource>, plan: seq<Resource>, replies: seq<Reply>, from: nat)
    requires |plan| == 2 && Distinct(carried + plan)
    ensures Legal(Members(carried), PairLog(carried, plan, replies, from))
    ensures After(Members(carried), PairLog(carried, plan, replies, from)) ==
              if PairReply(replies, from) == Crashed then {}
              else Members(carried + plan[..Admitted(replies, from)])
  {
    var n := Admitted(replies, from);
    var taken := plan[..n];
    var held := carried + taken;
    forall i, j | 0 <= i < j < |held| ensures held[i] != held[j] {
      assert held[i] == (carried + plan)[i] && held[j] == (carried + plan)[j];
    }
    forall i, j | 0 <= i < j < |taken| ensures taken[i] != taken[j] {
      assert taken[i] == held[|carried| + i] && taken[j] == held[|carried| + j];
    }
    forall i | 0 <= i < |taken| ensures taken[i] !in Members(carried) {
      assert taken[i] == held[|carried| + i];
      assert forall k :: 0 <= k < |carried| ==> carried[k] == held[k];
    }
    TakesAll(Members(carried), taken);
    assert Members(carried) + Members(taken) == Members(held);
    var rest := if PairReply(replies, from) == Crashed then Gives(held) else [];
    if PairReply(replies, from) == Crashed {
      GiveBackAll(held);
    }
    AfterAppend(Members(carried), Takes(taken), rest);
  }

  /** The log of a whole phase: its acquisitions and, once both are
      granted, the kinds of `release` given back in that order. */
  function PhaseLog(carried: seq<Resource>, plan: seq<Resource>, release: seq<Resource>,
                    replies: seq<Reply>, from: nat): seq<Event>
    requires |plan| == 2
  {
    PairLog(carried, plan, replies, from) + (if PairReply(replies, from) == Granted then Gives(release) else [])
  }

  /** A phase's log is legal from what it carries; once granted, it holds
      what it carried and took minus what it gave back. */
  lemma PhaseLogHolding(carried: seq<Resource>, plan: seq<Resource>, release: seq<Resource>,
                        replies: seq<Reply>, from: nat)
    requires |plan| == 2 && Distinct(carried + plan)
    requires Distinct(release) && Members(release) <= Members(carried + plan)
    ensures Legal(Members(carried), PhaseLog(carried, plan, release, replies, from))
    ensures After(Members(carried), PhaseLog(carried, plan, release, replies, from)) ==
              if PairReply(replies, from) == Granted then Members(carried + plan) - Members(release)
              else if PairReply(replies, from) == Crashed then {}
              else Members(carried + plan[..Admitted(replies, from)])
  {
    PairLogHolding(carried, plan, replies, from);
    var acquired := PairLog(carried, plan, replies, from);
    if PairReply(replies, from) == Granted {
      assert plan[..2] == plan;
      assert forall i :: 0 <= i < |release| ==> release[i] in Members(release);
      GivesAll(Members(carried + plan), release);
      AfterAppend(Members(carried), acquired, Gives(release));
    } else {
      assert acquired + [] == acquired;
    }
  }

  /** The failure path of an acquisition: on a crash the flight is marked
      and counted, and gives back everything it holds, in order; still
      waiting, nothing happens. */
  method Abort(flight: Flight, stats: Statistics, reply: Reply, holding: seq<Resource>)
    returns (log: seq<Event>)
    requires reply != Granted && Distinct(holding)
    modifies flight`status, stats`crashed
    ensures log == if reply == Crashed then Gives(holding) else []
    ensures Legal(Members(holding), log)
    ensures reply == Crashed ==>
              && After(Members(holding), log) == {}
              && flight.status == Accident && stats.crashed == old(stats.crashed) + 1
    ensures reply == StillWaiting ==>
              && After(Members(holding), log) == Members(holding)
              && flight.status == old(flight.status) && stats.crashed == old(stats.crashed)
  {
    if reply == Crashed {
      flight.status := Accident;
      stats.crashed := stats.crashed + 1;
      GiveBackAll(holding);
      log := Gives(holding);
    } else {
      log := [];
    }
  }

  /** Acquire the two resources of `plan` in order while already holding
      `carried`, each acquisition answered by the next reply. On a crash the
      flight gives back what it carried and what this phase took, so it
      holds nothing. */
  method AcquirePair(flight: Flight, stats: Statistics, carried: seq<Resource>, plan: seq<Resource>,
                     replies: seq<Reply>, from: nat)
    returns (acquired: bool, next: nat, log: seq<Event>)
    requires |plan| == 2 && Distinct(carried + plan)
    requires flight.status != Accident
    modifies flight`status, stats`crashed
    ensures from <= next <= from + 2
    ensures acquired <==> PairReply(replies, from) == Granted
    ensures flight.status == Accident <==> PairReply(replies, from) == Crashed
    ensures log == PairLog(carried, plan, replies, from)
    ensures acquired ==> next == from + 2 && log == Takes(plan)
    ensures Legal(Members(carried), log)
    ensures acquired ==>
              && After(Members(carried), log) == Members(carried + plan)
              && flight.status == old(flight.status) && stats.crashed == old(stats.crashed)
    ensures !acquired && flight.status == Accident ==>
              After(Members(carried), log) == {} && stats.crashed == old(stats.crashed) + 1
    ensures !acquired && flight.status != Accident ==>
              && Members(carried) <= After(Members(carried), log) <= Members(carried + plan)
              && stats.crashed == old(stats.crashed)
    ensures flight.status == old(flight.status) || flight.status == Accident
  {
    assert forall i :: 0 <= i < |carried| ==> (carried + plan)[i] == carried[i];
    assert (carried + plan)[|carried|] == plan[0];
    assert Distinct(carried);
    next := from;
    var reply := ReplyAt(replies, next);
    if reply != Granted {
      log := Abort(flight, stats, reply, carried);
      acquired := false;
      next := next + Bit(reply == Crashed);
      assert plan[..0] == [] && Takes([]) == [];
      assert carried + [] == carried && [] + log == log;
    } else {
      var first := carried + [plan[0]];
      assert Distinct(first) by {
        assert forall i :: 0 <= i < |first| ==> first[i] == (carried + plan)[i];
      }
      next := next + 1;
      reply := ReplyAt(replies, next);
      if reply != Granted {
        var part := Abort(flight, stats, reply, first);
        log := [Take(plan[0])] + part;
        acquired := false;
        next := next + Bit(reply == Crashed);
        assert plan[..1] == [plan[0]] && Takes([plan[0]]) == [Take(plan[0])];
      } else {
        log := [Take(plan[0]), Take(plan[1])];
        next := next + 1;
        acquired := true;
        assert plan[..2] == plan && log == Takes(plan);
      }
    }
    PairLogHolding(carried, plan, replies, from);
    assert plan[..2] == plan;
  }

  /** Giving back, in order, exactly the kinds held leaves nothing held. */
  lemma ReleaseAll(log: seq<Event>, release: seq<Resource>)
    requires Distinct(release)
    requires Legal({}, log) && After({}, log) == Members(release)
    ensures Legal({}, log + Gives(release)) && After({}, log + Gives(release)) == {}
  {
    GiveBackAll(release);
    AfterAppend({}, log, Gives(release));
  }

  /** After deboarding, giving back the tower leaves only the gate held. */
  lemma ReleaseTowerKeepGate(log: seq<Event>)
    requires Legal({}, log) && After({}, log) == {Gate, Tower}
    ensures Legal({}, log + [Give(Tower)]) && After({}, log + [Give(Tower)]) == {Gate}
  {
    assert [Give(Tower)][1..] == [];
    AfterAppend({}, log, [Give(Tower)]);
  }

  /** Landing: the landing plan from nothing held; once both are held, the
      runway and then the tower are given back. */
  method Land(flight: Flight, stats: Statistics, replies: seq<Reply>)
    returns (done: bool, next: nat, log: seq<Event>)
    requires flight.status != Accident
    modifies flight`status, stats`crashed
    ensures done <==> PairReply(replies, 0) == Granted
    ensures flight.status == Accident <==> PairReply(replies, 0) == Crashed
    ensures done ==> next == 2
    ensures log == PhaseLog([], LandingPlan(flight.category), [Runway, Tower], replies, 0)
    ensures Legal({}, log)
    ensures flight.status == Accident || flight.status == Landing
    ensures done ==> flight.status == Landing && After({}, log) == {}
    ensures flight.status == Accident ==> After({}, log) == {} && stats.crashed == old(stats.crashed) + 1
    ensures !done && flight.status == Landing ==> After({}, log) <= {Runway, Tower}
    ensures flight.status == Landing ==> stats.crashed == old(stats.crashed)
  {
    flight.status := Landing;
    var plan := LandingPlan(flight.category);
    assert Members([]) == {} && [] + plan == plan;
    var acquired, part;
    acquired, next, part := AcquirePair(flight, stats, [], plan, replies, 0);
    log := part;
    done := acquired;
    if acquired {
      ReleaseAll(log, [Runway, Tower]);
      log := log + Gives([Runway, Tower]);
    } else {
      assert log + [] == log;
    }
  }

  /** Deboarding: the gate and then the tower from nothing held; once both
      are held, only the tower is given back and the gate is kept. */
  method Deboard(flight: Flight, stats: Statistics, replies: seq<Reply>, from: nat)
    returns (done: bool, next: nat, log: seq<Event>)
    requires flight.status != Accident
    modifies flight`status, stats`crashed
    ensures done <==> PairReply(replies, from) == Granted
    ensures flight.status == Accident <==> PairReply(replies, from) == Crashed
    ensures done ==> next == from + 2
    ensures log == PhaseLog([], DeboardingPlan(), [Tower], replies, from)
    ensures Legal({}, log)
    ensures flight.status == Accident || flight.status == Deboarding
    ensures done ==> flight.status == Deboarding && After({}, log) == {Gate}
    ensures flight.status == Accident ==> After({}, log) == {} && stats.crashed == old(stats.crashed) + 1
    ensures !done && flight.status == Deboarding ==> After({}, log) <= {Gate, Tower}
    ensures flight.status == Deboarding ==> stats.crashed == old(stats.crashed)
  {
    flight.status := Deboarding;
    var plan := DeboardingPlan();
    assert Members([]) == {} && [] + plan == plan;
    var acquired, part;
    acquired, next, part := AcquirePair(flight, stats, [], plan, replies, from);
    log := part;
    done := acquired;
    if acquired {
      ReleaseTowerKeepGate(log);
      log := log + [Give(Tower)];
      assert Gives([Tower]) == [Give(Tower)];
    } else {
      assert log + [] == log;
    }
  }

  /** Takeoff, holding the gate: the takeoff plan; once all three are held,
      the gate, the runway and the tower are given back. */
  method TakeOff(flight: Flight, stats: Statistics, replies: seq<Reply>, from: nat)
    returns (done: bool, next: nat, log: seq<Event>)
    requires flight.status != Accident
    modifies flight`status, stats`crashed
    ensures done <==> PairReply(replies, from) == Granted
    ensures flight.status == Accident <==> PairReply(replies, from) == Crashed
    ensures done ==> next == from + 2
    ensures log == PhaseLog([Gate], TakeoffPlan(flight.category), [Gate, Runway, Tower], replies, from)
    ensures Legal({Gate}, log)
    ensures flight.status == Accident || flight.status == TakingOff
    ensures done ==> flight.status == TakingOff && After({Gate}, log) == {}
    ensures flight.status == Accident ==> After({Gate}, log) == {} && stats.crashed == old(stats.crashed) + 1
    ensures !done && flight.status == TakingOff ==> Gate in After({Gate}, log)
    ensures flight.status == TakingOff ==> stats.crashed == old(stats.crashed)
  {
    flight.status := TakingOff;
    var plan := TakeoffPlan(flight.category);
    assert Members([Gate]) == {Gate};
    var acquired, part;
    acquired, next, part := AcquirePair(flight, stats, [Gate], plan, replies, from);
    log := part;
    done := acquired;
    if acquired {
      GiveBackAll([Gate, Runway, Tower]);
      assert Members([Gate] + plan) == Members([Gate, Runway, Tower]);
      AfterAppend({Gate}, log, Gives([Gate, Runway, Tower]));
      log := log + Gives([Gate, Runway, Tower]);
    } else {
      assert log + [] == log;
    }
  }

  /** A flight's life: landing, deboarding, the wait before takeoff, and
      takeoff, each acquisition answered by the next reply of the oracle.
      There is no retry: a crash ends the life, and every crash path gives
      back whatever the flight holds, including the gate it keeps from
      deboarding into takeoff. */
  method Lifecycle(flight: Flight, stats: Statistics, replies: seq<Reply>)
    returns (log: seq<Event>, trace: seq<Status>)
    requires flight.status != Accident
    modifies flight`status, stats`succeeded, stats`crashed
    ensures Outcome(flight.status, trace) == Journey(replies)
    ensures log == LifeLog(flight.category, replies)
    ensures Legal({}, log)
    ensures flight.status == Completed ==>
              && After({}, log) == {}
              && stats.succeeded == old(stats.succeeded) + 1 && stats.crashed == old(stats.crashed)
    ensures flight.status == Accident ==>
              && After({}, log) == {}
              && stats.crashed == old(stats.crashed) + 1 && stats.succeeded == old(stats.succeeded)
    ensures flight.status == Landing ==> After({}, log) <= {Runway, Tower}
    ensures flight.status == Deboarding ==> After({}, log) <= {Gate, Tower}
    ensures flight.status == TakingOff ==> Gate in After({}, log)
    ensures flight.status != Completed && flight.status != Accident ==>
              stats.succeeded == old(stats.succeeded) && stats.crashed == old(stats.crashed)
  {
    ghost var category := flight.category;
    var done, next, part := Land(flight, stats, replies);
    log, trace := part, [Landing];
    assert flight.category == category;
    if !done {
      LifeStops(category, replies);
      if flight.status == Accident {
        trace := trace + [Accident];
      }
      return;
    }
    LifeContinues(category, replies);
    var rest;
    rest, trace := Depart(flight, stats, replies);
    assert flight.category == category;
    AfterAppend({}, log, rest);
    log := log + rest;
  }

  /** The rest of a flight's life once it has landed: deboarding, the wait
      before takeoff, and takeoff, from position 2 of the oracle. */
  method Depart(flight: Flight, stats: Statistics, replies: seq<Reply>)
    returns (log: seq<Event>, trace: seq<Status>)
    requires flight.status == Landing && PairReply(replies, 0) == Granted
    modifies flight`status, stats`succeeded, stats`crashed
    ensures Outcome(flight.status, trace) == Journey(replies)
    ensures log == DepartLog(flight.category, replies)
    ensures Legal({}, log)
    ensures flight.status == Completed ==>
              && After({}, log) == {}
              && stats.succeeded == old(stats.succeeded) + 1 && stats.crashed == old(stats.crashed)
    ensures flight.status == Accident ==>
              && After({}, log) == {}
              && stats.crashed == old(stats.crashed) + 1 && stats.succeeded == old(stats.succeeded)
    ensures flight.status == Deboarding ==> After({}, log) <= {Gate, Tower}
    ensures flight.status == TakingOff ==> Gate in After({}, log)
    ensures flight.status != Completed && flight.status != Accident ==>
              stats.succeeded == old(stats.succeeded) && stats.crashed == old(stats.crashed)
  {
    ghost var category := flight.category;
    var done, next, part := Deboard(flight, stats, replies, 2);
    log, trace := part, [Landing, Deboarding];
    if !done {
      DepartStops(category, replies);
      if flight.status == Accident {
        trace := trace + [Accident];
      }
      return;
    }

    flight.status := AwaitingTakeoff;
    trace := [Landing, Deboarding, AwaitingTakeoff];
    done, next, part := TakeOff(flight, stats, replies, next);
    assert flight.category == category;
    DepartContinues(category, replies);
    AfterAppend({}, log, part);
    log, trace := log + part, [Landing, Deboarding, AwaitingTakeoff, TakingOff];
    if !done {
      if flight.status == Accident {
        trace := trace + [Accident];
      }
      return;
    }

    flight.status := Completed;
    trace := trace + [Completed];
    stats.succeeded := stats.succeeded + 1;
  }

  /** How a flight's life ends: its final status and the statuses it went
      through. */
  datatype Outcome = Outcome(status: Status, trace: seq<Status>)

  /** A phase whose acquisitions came to `reply` other than a grant: a crash
      ends the flight in an accident, a wait leaves it in `status`. */
  function Stopped(reply: Reply, status: Status, trace: seq<Status>): Outcome
  {
    if reply == Crashed then Outcome(Accident, trace + [Accident]) else Outcome(status, trace)
  }

  /** A flight's life as the replies it gets decide it: each phase answered
      by the next two replies, landing, deboarding, the wait before takeoff
      and takeoff, until a phase is not granted both. */
  function Journey(replies: seq<Reply>): (o: Outcome)
    ensures FollowsPath(o.trace, [Landing, Deboarding, AwaitingTakeoff, TakingOff, Completed], Accident)
    ensures o.status == o.trace[|o.trace| - 1]
  {
    if PairReply(replies, 0) != Granted then Stopped(PairReply(replies, 0), Landing, [Landing])
    else if PairReply(replies, 2) != Granted then Stopped(PairReply(replies, 2), Deboarding, [Landing, Deboarding])
    else if PairReply(replies, 4) != Granted then
      Stopped(PairReply(replies, 4), TakingOff, [Landing, Deboarding, AwaitingTakeoff, TakingOff])
    else Outcome(Completed, [Landing, Deboarding, AwaitingTakeoff, TakingOff, Completed])
  }

  /** The log of deboarding and, once deboarding is granted, takeoff. */
  function DepartLog(category: Category, replies: seq<Reply>): seq<Event>
  {
    var deboarding := PhaseLog([], DeboardingPlan(), [Tower], replies, 2);
    if PairReply(replies, 2) != Granted then deboarding
    else deboarding + PhaseLog([Gate], TakeoffPlan(category), [Gate, Runway, Tower], replies, 4)
  }

  /** A flight's log as the replies it gets decide it: the log of each
      phase in turn, up to the first phase that is not granted both. */
  function LifeLog(category: Category, replies: seq<Reply>): seq<Event>
  {
    var landing := PhaseLog([], LandingPlan(category), [Runway, Tower], replies, 0);
    if PairReply(replies, 0) != Granted then landing else landing + DepartLog(category, replies)
  }

  /** Journey and DepartLog when landing is granted and deboarding is not
      granted both: the flight's life and log end with deboarding. */
  lemma DepartStops(category: Category, replies: seq<Reply>)
    requires PairReply(replies, 0) == Granted && PairReply(replies, 2) != Granted
    ensures Journey(replies) == Stopped(PairReply(replies, 2), Deboarding, [Landing, Deboarding])
    ensures DepartLog(category, replies) == PhaseLog([], DeboardingPlan(), [Tower], replies, 2)
  {
  }

  /** Journey and DepartLog when landing and deboarding are granted both:
      the log goes on with takeoff, which decides the rest of the life. */
  lemma DepartContinues(category: Category, replies: seq<Reply>)
    requires PairReply(replies, 0) == Granted && PairReply(replies, 2) == Granted
    ensures Journey(replies)
            == if PairReply(replies, 4) != Granted
               then Stopped(PairReply(replies, 4), TakingOff, [Landing, Deboarding, AwaitingTakeoff, TakingOff])
               else Outcome(Completed, [Landing, Deboarding, AwaitingTakeoff, TakingOff, Completed])
    ensures DepartLog(category, replies)
            == PhaseLog([], DeboardingPlan(), [Tower], replies, 2)
               + PhaseLog([Gate], TakeoffPlan(category), [Gate, Runway, Tower], replies, 4)
  {
  }

  /** Journey and LifeLog when landing is not granted both: the flight's
      life and log end with landing. */
  lemma LifeStops(category: Category, replies: seq<Reply>)
    requires PairReply(replies, 0) != Granted
    ensures Journey(replies) == Stopped(PairReply(replies, 0), Landing, [Landing])
    ensures LifeLog(category, replies) == PhaseLog([], LandingPlan(category), [Runway, Tower], replies, 0)
  {
  }

  /** LifeLog when landing is granted both: the landing log, then the
      departure log. */
  lemma LifeContinues(category: Category, replies: seq<Reply>)
    requires PairReply(replies, 0) == Granted
    ensures LifeLog(category, replies)
            == PhaseLog([], LandingPlan(category), [Runway, Tower], replies, 0) + DepartLog(category, replies)
  {
  }

  /** No leak: a flight's log is legal, and a flight that completes or
      crashes holds nothing at the end and has given back every unit it
      took; a flight still waiting holds only kinds of the phase it waits
      in, and in takeoff still the gate. */
  lemma LifeLogNoLeak(category: Category, replies: seq<Reply>)
    ensures Legal({}, LifeLog(category, replies))
    ensures Journey(replies).status == Completed || Journey(replies).status == Accident ==>
              && After({}, LifeLog(category, replies)) == {}
              && forall r :: Net(LifeLog(category, replies), r) == 0
    ensures Journey(replies).status == Landing ==> After({}, LifeLog(category, replies)) <= {Runway, Tower}
    ensures Journey(replies).status == Deboarding ==> After({}, LifeLog(category, replies)) <= {Gate, Tower}
    ensures Journey(replies).status == TakingOff ==> Gate in After({}, LifeLog(category, replies))
  {
    var log := LifeLog(category, replies);
    var landing := PhaseLog([], LandingPlan(category), [Runway, Tower], replies, 0);
    LandingHolding(category, replies);
    if PairReply(replies, 0) == Granted {
      DepartureHolding(category, replies);
      AfterAppend({}, landing, DepartLog(category, replies));
    }
    if Journey(replies).status == Completed || Journey(replies).status == Accident {
      forall r ensures Net(log, r) == 0 {
        NetTracksHolding({}, log, r);
      }
    }
  }

  /** The landing log: legal from nothing held, and leaving nothing held
      unless the flight is still waiting for a landing resource. */
  lemma LandingHolding(category: Category, replies: seq<Reply>)
    ensures Legal({}, PhaseLog([], LandingPlan(category), [Runway, Tower], replies, 0))
    ensures After({}, PhaseLog([], LandingPlan(category), [Runway, Tower], replies, 0)) <= {Runway, Tower}
    ensures PairReply(replies, 0) != StillWaiting ==>
              After({}, PhaseLog([], LandingPlan(category), [Runway, Tower], replies, 0)) == {}
  {
    var plan := LandingPlan(category);
    assert Members([]) == {} && [] + plan == plan && Members([Runway, Tower]) == {Runway, Tower};
    PhaseLogHolding([], plan, [Runway, Tower], replies, 0);
    assert Members([] + plan[..Admitted(replies, 0)]) <= Members(plan);
  }

  /** Deboarding and takeoff, from nothing held: legal, and leaving nothing
      held once the flight completes or crashes. */
  lemma DepartureHolding(category: Category, replies: seq<Reply>)
    requires PairReply(replies, 0) == Granted
    ensures Legal({}, DepartLog(category, replies))
    ensures Journey(replies).status == Completed || Journey(replies).status == Accident ==>
              After({}, DepartLog(category, replies)) == {}
    ensures Journey(replies).status == Deboarding ==> After({}, DepartLog(category, replies)) <= {Gate, Tower}
    ensures Journey(replies).status == TakingOff ==> Gate in After({}, DepartLog(category, replies))
  {
    var deboarding := PhaseLog([], DeboardingPlan(), [Tower], replies, 2);
    DeboardingHolding(replies);
    if PairReply(replies, 2) == Granted {
      var takeoff := PhaseLog([Gate], TakeoffPlan(category), [Gate, Runway, Tower], replies, 4);
      TakeoffHolding(category, replies);
      AfterAppend({}, deboarding, takeoff);
      assert Journey(replies).status ==
               if PairReply(replies, 4) == Granted then Completed
               else if PairReply(replies, 4) == Crashed then Accident
               else TakingOff;
    } else {
      assert Journey(replies).status == if PairReply(replies, 2) == Crashed then Accident else Deboarding;
    }
  }

  /** The deboarding log, from nothing held: legal, leaving only the gate
      once granted, nothing after a crash, and kinds of deboarding while it
      waits. */
  lemma DeboardingHolding(replies: seq<Reply>)
    ensures Legal({}, PhaseLog([], DeboardingPlan(), [Tower], replies, 2))
    ensures After({}, PhaseLog([], DeboardingPlan(), [Tower], replies, 2)) <= {Gate, Tower}
    ensures PairReply(replies, 2) == Granted ==> After({}, PhaseLog([], DeboardingPlan(), [Tower], replies, 2)) == {Gate}
    ensures PairReply(replies, 2) == Crashed ==> After({}, PhaseLog([], DeboardingPlan(), [Tower], replies, 2)) == {}
  {
    var plan := DeboardingPlan();
    assert Members([]) == {} && [] + plan == plan && Members([Tower]) == {Tower};
    PhaseLogHolding([], plan, [Tower], replies, 2);
    assert Members([] + plan[..Admitted(replies, 2)]) <= Members(plan);
  }

  /** The takeoff log, from the gate held: legal, leaving nothing held
      once granted or crashed, and still the gate while waiting. */
  lemma TakeoffHolding(category: Category, replies: seq<Reply>)
    ensures Legal({Gate}, PhaseLog([Gate], TakeoffPlan(category), [Gate, Runway, Tower], replies, 4))
    ensures PairReply(replies, 4) != StillWaiting ==>
              After({Gate}, PhaseLog([Gate], TakeoffPlan(category), [Gate, Runway, Tower], replies, 4)) == {}
    ensures Gate in After({Gate}, PhaseLog([Gate], TakeoffPlan(category), [Gate, Runway, Tower], replies, 4))
              || PairReply(replies, 4) != StillWaiting
  {
    var plan := TakeoffPlan(category);
    assert Members([Gate]) == {Gate};
    assert Members([Gate] + plan) == {Gate, Runway, Tower} == Members([Gate, Runway, Tower]);
    assert Distinct([Gate] + plan);
    PhaseLogHolding([Gate], plan, [Gate, Runway, Tower], replies, 4);
    assert ([Gate] + plan[..Admitted(replies, 4)])[0] == Gate;
  }

  /** A flight completes exactly when its first six acquisitions are all
      granted. */
  lemma CompletesIffAllGranted(replies: seq<Reply>)
    ensures Journey(replies).status == Completed <==> forall j :: 0 <= j < 6 ==> ReplyAt(replies, j) == Granted
  {
  }

  /** A flight crashes exactly when the first of its six acquisitions that is
      not granted is answered by a crash. */
  lemma CrashIffFirstRefusalIsCrash(replies: seq<Reply>)
    ensures Journey(replies).status == Accident <==>
              exists i :: 0 <= i < 6 && ReplyAt(replies, i) == Crashed
                          && forall j :: 0 <= j < i ==> ReplyAt(replies, j) == Granted
  {
  }
}
