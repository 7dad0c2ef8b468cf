/** What the gates and allowances come to, in numbers, for every billing row. */
module QuotaNumbers {
  import opened Prelude
  import opened Plans
  import opened Billing
  import opened TokenLedger
  import opened Quota

  /** On trial, or past due on a trial that was never paid. */
  predicate OnTrial(org: OrgRow) {
    org.status == Some(Trialing) || (org.status == Some(PastDue) && org.firstPaidAt.None?)
  }

  /** Past due, and seven days or longer since it began. */
  predicate DeclinedForAWeek(org: OrgRow, now: nat) {
    org.status == Some(PastDue) && org.pastDueSince.Some? && now >= org.pastDueSince.value + 604_800_000
  }

  /** Who may use the service at all, and which of the two refusals the others hear. */
  lemma AccessMeans(org: OrgRow, now: nat)
    ensures Subscribed(org, now) == PaymentFailed <==> org.plan != Sponsored && DeclinedForAWeek(org, now)
    ensures Subscribed(org, now) == SubscriptionRequired
      <==> org.plan != Sponsored && org.status !in {Some(Active), Some(Trialing), Some(PastDue)}
    ensures Subscribed(org, now) == Open
      <==> || org.plan == Sponsored
           || org.status == Some(Active) || org.status == Some(Trialing)
           || (org.status == Some(PastDue) && !DeclinedForAWeek(org, now))
    ensures OrgBilling(org, now).trialing <==> OnTrial(org)
    ensures OrgBilling(org, now).access.graceEndsAt ==
      if org.status == Some(PastDue) && org.pastDueSince.Some? then Some(org.pastDueSince.value + 604_800_000) else None
  {
  }

  /** With access, an admin's number decides alone; else the trial's 300 or the plan's, and 5000 a seat. */
  lemma SendingMeans(org: OrgRow, used: nat, now: nat)
    ensures Subscribed(org, now) != Open ==> CanSend(org, used, now) == Subscribed(org, now)
    ensures Subscribed(org, now) == Open ==> CanSend(org, used, now) == Open || CanSend(org, used, now) == OverLimit
    ensures Subscribed(org, now) == Open ==>
      (CanSend(org, used, now) == Open <==>
        if org.messageOverride.Some? then used < org.messageOverride.value
        else if OnTrial(org) then used < 300 + 5_000 * org.seats
        else match org.plan
          case Starter => used < 5_000 + 5_000 * org.seats
          case Pro => used < 20_000 + 5_000 * org.seats
          case Business => used < 100_000 + 5_000 * org.seats
          case Sponsored => true)
  {
    AccessMeans(org, now);
  }

  /** The token allowance is the plan's and a million a seat, on trial or not; sponsored has no end. */
  lemma AllowanceMeans(org: OrgRow, now: nat)
    ensures OrgBilling(org, now).limits.aiTokens ==
      match org.plan
      case Starter => Some(1_000_000 + 1_000_000 * org.seats)
      case Pro => Some(5_000_000 + 1_000_000 * org.seats)
      case Business => Some(10_000_000 + 1_000_000 * org.seats)
      case Sponsored => None
    ensures OrgBilling(org, now).limits.waNumbers ==
      match org.plan
      case Starter => Some(1)
      case Pro => Some(3)
      case Business => Some(10)
      case Sponsored => None
  {
  }

  /**
   * Over a whole history of runs and packs an included run may start exactly
   * while the month's free part is under the allowance or bought tokens remain.
   */
  lemma BudgetMeans(h: seq<Entry>, org: OrgRow, period: nat, now: nat)
    ensures HasBudget(LedgerOf(h), period, OrgBilling(org, now).limits.aiTokens)
      <==> || TotalDrawn(h) < DistinctCredits(h)
           || match org.plan
              case Starter => FreeIn(h, period) < 1_000_000 + 1_000_000 * org.seats
              case Pro => FreeIn(h, period) < 5_000_000 + 1_000_000 * org.seats
              case Business => FreeIn(h, period) < 10_000_000 + 1_000_000 * org.seats
              case Sponsored => true
  {
    AllowanceMeans(org, now);
    BudgetOverHistory(h, period, OrgBilling(org, now).limits.aiTokens);
  }

  /** A run within what is left of the allowance is free; past it, bought tokens cover what they can. */
  lemma RunMeans(l: Ledger, org: OrgRow, tokens: nat, agent: Option<string>, period: nat, day: nat, now: nat)
    requires l.paid >= 0 && tokens > 0
    ensures var allowance := OrgBilling(org, now).limits.aiTokens;
      var l' := Recorded(l, Usage(tokens, agent, period, day, allowance));
      var used := UsedIn(l, period);
      && (allowance.None? || used + tokens <= allowance.value ==>
            UsedIn(l', period) == used + tokens && l'.paid == l.paid)
      && (allowance.Some? && used <= allowance.value < used + tokens ==>
            && UsedIn(l', period) == allowance.value
            && l'.paid == Max(0, l.paid - (used + tokens - allowance.value)))
      && (allowance.Some? && used > allowance.value ==>
            UsedIn(l', period) == used && l'.paid == Max(0, l.paid - tokens))
  {
  }
}
