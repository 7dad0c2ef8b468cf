/** The quota gates as they run, over one organization's billing row and token meter. */
module Quota {
  import opened Prelude
  import opened Plans
  import opened Billing
  import opened TokenLedger

  /** Whether the organization may still start an included-AI run. */
  predicate HasBudget(l: Ledger, period: nat, limit: Option<nat>) {
    limit.None? || UsedIn(l, period) < limit.value || l.paid > 0
  }

  /**
   * The budget gate and the meter agree: the gate is open exactly when a run
   * of any positive length would have a token covered by one of the buckets.
   */
  lemma BudgetMeansCovered(l: Ledger, u: Usage)
    requires l.paid >= 0 && u.tokens > 0
    ensures HasBudget(l, u.period, u.limit) <==> FreePart(l, u) + DrawnPart(l, u) > 0
  {
  }

  /** Over a whole history the gate reads: allowance left this month, or credits not yet drawn. */
  lemma BudgetOverHistory(h: seq<Entry>, period: nat, limit: Option<nat>)
    ensures HasBudget(LedgerOf(h), period, limit)
      <==> limit.None? || FreeIn(h, period) < limit.value || TotalDrawn(h) < DistinctCredits(h)
  {
    LedgerConserves(h);
    assert UsedIn(LedgerOf(h), period) == FreeIn(h, period);
  }

  class QuotaService {
    var row: OrgRow
    const meter: Meter

    constructor (row: OrgRow, meter: Meter)
      ensures this.row == row && this.meter == meter
    {
      this.row := row;
      this.meter := meter;
    }

    /** Builds the limits in a copy of the plan's, field by field. */
    method ReadLimits(now: nat) returns (r: OrgLimits)
      ensures r == OrgBilling(row, now)
    {
      var access := AccessOf(row.status, row.firstPaidAt, row.pastDueSince, now);
      var trialing := row.status == Some(Trialing) || access.trialCaps;
      var limits := LimitsOf(row.plan);
      if trialing {
        limits := limits.(messages := Some(MinOf(limits.messages, TRIAL_MESSAGES)));
      }
      if row.seats > 0 {
        if limits.messages.Some? {
          limits := limits.(messages := Some(limits.messages.value + row.seats * SEAT_MESSAGES));
        }
        if limits.aiTokens.Some? {
          limits := limits.(aiTokens := Some(limits.aiTokens.value + row.seats * SEAT_TOKENS));
        }
      }
      if row.messageOverride.Some? {
        limits := limits.(messages := row.messageOverride);
      }
      r := OrgLimits(trialing, limits, access);
    }

    method AssertCanSend(used: nat, now: nat) returns (gate: Gate)
      ensures gate == CanSend(row, used, now)
    {
      var billing := ReadLimits(now);
      if RequiresSubscription(row.plan) {
        if billing.access.blocked { return PaymentFailed; }
        if row.status != Some(Active) && row.status != Some(Trialing) && row.status != Some(PastDue) {
          return SubscriptionRequired;
        }
      }
      if billing.limits.messages.Some? && used >= billing.limits.messages.value { return OverLimit; }
      return Open;
    }

    method HasIncludedAiBudget(period: nat, now: nat) returns (has: bool)
      ensures has == HasBudget(meter.View(), period, OrgBilling(row, now).limits.aiTokens)
    {
      var billing := ReadLimits(now);
      var used := if period in meter.months then meter.months[period] else 0;
      if billing.limits.aiTokens.None? || used < billing.limits.aiTokens.value { return true; }
      return meter.paid > 0;
    }

    /** Meters a run against the allowance in force at the time. */
    method RecordRun(tokens: int, agent: Option<string>, period: nat, day: nat, now: nat)
      requires meter.paid >= 0
      modifies meter
      ensures meter.View() ==
        Recorded(old(meter.View()), Usage(tokens, agent, period, day, OrgBilling(row, now).limits.aiTokens))
    {
      var billing := ReadLimits(now);
      meter.RecordAiTokens(Usage(tokens, agent, period, day, billing.limits.aiTokens));
    }
  }
}
