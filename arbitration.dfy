/** Three-tier admission and wake-up rules shared by every arbiter of the
    simulator (runway pool, gate pool, control tower), in both revisions.

    A requester is critical once it has waited past the starvation alert;
    otherwise its tier is its flight category. Critical requesters come before
    international ones, which come before domestic ones. */
module Arbitration {

  datatype Category = Domestic | International

  /** The three wait queues (condition variables) of an arbiter. */
  datatype Tier = CriticalTier | InternationalTier | DomesticTier

  /** Priority of a tier: 0 is served first. */
  function Rank(t: Tier): nat
  {
    match t
    case CriticalTier => 0
    case InternationalTier => 1
    case DomesticTier => 2
  }

  /** 1 for true, 0 for false: how much a flag contributes to a counter. */
  function Bit(b: bool): int
  {
    if b then 1 else 0
  }

  /** The queue a blocked requester sleeps on: critical requesters on the
      critical queue, the others on the queue of their category. */
  function TierOf(category: Category, critical: bool): (t: Tier)
    ensures t == CriticalTier <==> critical
    ensures t == InternationalTier <==> !critical && category == International
    ensures t == DomesticTier <==> !critical && category == Domestic
  {
    if critical then CriticalTier
    else match category
      case International => InternationalTier
      case Domestic => DomesticTier
  }

  /** The wait-loop condition: the requester must (keep) waiting when no unit
      is free, when it is not critical and a critical requester waits, or when
      it is domestic, not critical, and an international requester waits.
      There is no domestic waiter counter: domestic waiters never hold anyone
      back. */
  predicate MustWait(available: int, waitingCritical: int, waitingInternational: int,
                     category: Category, critical: bool): (wait: bool)
    ensures wait <==> || available == 0
                      || Rank(WakeTier(waitingCritical, waitingInternational)) < Rank(TierOf(category, critical))
  {
    || available == 0
    || (!critical && waitingCritical > 0)
    || (category == Domestic && !critical && waitingInternational > 0)
  }

  /** The one queue a release broadcasts to: the critical queue if anyone is
      counted there, else the international queue if anyone is counted there,
      else the domestic queue. */
  function WakeTier(waitingCritical: int, waitingInternational: int): (t: Tier)
    ensures t == CriticalTier <==> waitingCritical > 0
    ensures t == InternationalTier <==> waitingCritical <= 0 && waitingInternational > 0
    ensures t == DomesticTier <==> waitingCritical <= 0 && waitingInternational <= 0
  {
    if waitingCritical > 0 then CriticalTier
    else if waitingInternational > 0 then InternationalTier
    else DomesticTier
  }

  /** With a free unit, a requester may proceed exactly when its tier ranks at
      least as high as the tier a release would wake: release and admission
      agree on who is next. */
  lemma AdmittedIffTierReached(available: int, waitingCritical: int, waitingInternational: int,
                               category: Category, critical: bool)
    requires available > 0
    ensures !MustWait(available, waitingCritical, waitingInternational, category, critical)
            <==> Rank(TierOf(category, critical)) <= Rank(WakeTier(waitingCritical, waitingInternational))
  {
  }

  /** While a critical requester is counted, no non-critical requester of
      either category may proceed, however many units are free. */
  lemma CriticalWaiterHoldsBackOthers(available: int, waitingCritical: int, waitingInternational: int,
                                      category: Category)
    requires waitingCritical > 0
    ensures MustWait(available, waitingCritical, waitingInternational, category, false)
  {
  }

  /** While an international requester is counted, no non-critical domestic
      requester may proceed. */
  lemma InternationalWaiterHoldsBackDomestic(available: int, waitingCritical: int, waitingInternational: int)
    requires waitingInternational > 0
    ensures MustWait(available, waitingCritical, waitingInternational, Domestic, false)
  {
  }

  /** Admission is monotone in the tier order: whenever a domestic requester
      may proceed, so may an international one, and whenever a non-critical
      requester may proceed, so may a critical one. */
  lemma HigherTiersAdmittedFirst(available: int, waitingCritical: int, waitingInternational: int,
                                 category: Category)
    ensures !MustWait(available, waitingCritical, waitingInternational, Domestic, false)
            ==> !MustWait(available, waitingCritical, waitingInternational, International, false)
    ensures !MustWait(available, waitingCritical, waitingInternational, category, false)
            ==> !MustWait(available, waitingCritical, waitingInternational, category, true)
  {
  }

  /** A critical requester waits only for a free unit. */
  lemma CriticalWaitsOnlyForUnit(available: int, waitingCritical: int, waitingInternational: int,
                                 category: Category)
    ensures MustWait(available, waitingCritical, waitingInternational, category, true) <==> available == 0
  {
  }
}
