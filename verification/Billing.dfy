/**
 * The organization's billing row: how Stripe events rewrite it, and what the
 * quota gates read off it. Properties are over whole event histories.
 */
module Billing {
  import opened Prelude
  import opened Plans
  import TokenLedger

  datatype OrgRow = OrgRow(
    plan: Plan, status: Option<Status>, subscriptionId: Option<string>, priceId: Option<string>,
    periodEnd: Option<nat>, seats: nat, firstPaidAt: Option<nat>, pastDueSince: Option<nat>,
    messageOverride: Option<nat>)

  datatype Item = Item(price: string, quantity: Option<nat>, periodEnd: Option<nat>)

  datatype Subscription = Subscription(id: string, status: Status, items: seq<Item>)

  function FirstTier(items: seq<Item>, env: Env): Option<Item> {
    if items == [] then None
    else if PlanForPrice(items[0].price, env).Some? then Some(items[0])
    else FirstTier(items[1..], env)
  }

  function FirstAddon(items: seq<Item>, env: Env): Option<Item> {
    if items == [] then None
    else if IsAddonPrice(items[0].price, env) then Some(items[0])
    else FirstAddon(items[1..], env)
  }

  function OrElse<T>(a: Option<T>, b: Option<T>): Option<T> {
    if a.Some? then a else b
  }

  /**
   * The row after a subscription event processed at `now`. Without a tier item
   * the price id is undefined, which the database client leaves unwritten.
   */
  function Sync(env: Env, org: OrgRow, sub: Subscription, now: nat): OrgRow {
    if org.plan == Sponsored then org
    else
      var tier := FirstTier(sub.items, env);
      var addon := FirstAddon(sub.items, env);
      var canceled := sub.status == Canceled;
      var sold := if tier.Some? then PlanForPrice(tier.value.price, env) else None;
      org.(
        subscriptionId := if canceled then None else Some(sub.id),
        priceId := if canceled then None else if tier.Some? then Some(tier.value.price) else org.priceId,
        plan := if sold.Some? then sold.value else org.plan,
        status := Some(sub.status),
        periodEnd := if tier.Some? && tier.value.periodEnd != Some(0) then tier.value.periodEnd else None,
        seats := if canceled || addon.None? || addon.value.quantity.None? then 0 else addon.value.quantity.value,
        firstPaidAt := OrElse(org.firstPaidAt, if sub.status == Active then Some(now) else None),
        pastDueSince := if sub.status == PastDue then OrElse(org.pastDueSince, Some(now)) else None)
  }

  /** A subscription event and the time it was processed. */
  datatype Delivery = Delivery(sub: Subscription, at: nat)

  function RowAfter(env: Env, org: OrgRow, h: seq<Delivery>): OrgRow {
    if h == [] then org
    else Sync(env, RowAfter(env, org, h[..|h| - 1]), h[|h| - 1].sub, h[|h| - 1].at)
  }

  /** An organization on a purchasable plan that Stripe has never reported on. */
  predicate NeverBilled(org: OrgRow) {
    org.plan != Sponsored && org.status.None? && org.firstPaidAt.None? && org.pastDueSince.None? && org.seats == 0
  }

  // ---------------------------------------------------------------- event order within a subscription

  predicate AtMostOne(items: seq<Item>, test: Item -> bool) {
    forall i, j | 0 <= i < |items| && 0 <= j < |items| && test(items[i]) && test(items[j]) :: i == j
  }

  function IsTierItem(env: Env): Item -> bool {
    (i: Item) => PlanForPrice(i.price, env).Some?
  }

  function IsAddonItem(env: Env): Item -> bool {
    (i: Item) => IsAddonPrice(i.price, env)
  }

  lemma {:induction false} FirstTierFound(items: seq<Item>, env: Env)
    ensures var r := FirstTier(items, env); r.Some? ==> r.value in items && IsTierItem(env)(r.value)
    ensures FirstTier(items, env).None? ==> forall i | i in items :: !IsTierItem(env)(i)
  {
    if items != [] { FirstTierFound(items[1..], env); }
  }

  lemma {:induction false} FirstAddonFound(items: seq<Item>, env: Env)
    ensures var r := FirstAddon(items, env); r.Some? ==> r.value in items && IsAddonItem(env)(r.value)
    ensures FirstAddon(items, env).None? ==> forall i | i in items :: !IsAddonItem(env)(i)
  {
    if items != [] { FirstAddonFound(items[1..], env); }
  }

  /** The only item that passes a test is the same wherever it stands. */
  lemma OnlyOne(items: seq<Item>, others: seq<Item>, test: Item -> bool, x: Item, y: Item)
    requires multiset(items) == multiset(others) && AtMostOne(others, test)
    requires x in items && test(x) && y in others && test(y)
    ensures x == y
  {
    assert x in multiset(others);
    var i :| 0 <= i < |others| && others[i] == x;
    var j :| 0 <= j < |others| && others[j] == y;
  }

  lemma TierInAnyOrder(items: seq<Item>, others: seq<Item>, env: Env)
    requires multiset(items) == multiset(others) && AtMostOne(others, IsTierItem(env))
    ensures FirstTier(items, env) == FirstTier(others, env)
  {
    FirstTierFound(items, env);
    FirstTierFound(others, env);
    hide FirstTier, AtMostOne, PlanForPrice;
    var x, y := FirstTier(items, env), FirstTier(others, env);
    if x.Some? { assert x.value in multiset(others); }
    if y.Some? { assert y.value in multiset(items); }
    if x.Some? && y.Some? { OnlyOne(items, others, IsTierItem(env), x.value, y.value); }
  }

  lemma AddonInAnyOrder(items: seq<Item>, others: seq<Item>, env: Env)
    requires multiset(items) == multiset(others) && AtMostOne(others, IsAddonItem(env))
    ensures FirstAddon(items, env) == FirstAddon(others, env)
  {
    FirstAddonFound(items, env);
    FirstAddonFound(others, env);
    hide FirstAddon, AtMostOne, IsAddonPrice;
    var x, y := FirstAddon(items, env), FirstAddon(others, env);
    if x.Some? { assert x.value in multiset(others); }
    if y.Some? { assert y.value in multiset(items); }
    if x.Some? && y.Some? { OnlyOne(items, others, IsAddonItem(env), x.value, y.value); }
  }

  /** Stripe does not order the items; with one tier and one add-on the row does not depend on the order. */
  lemma ItemOrderDoesNotMatter(env: Env, org: OrgRow, sub: Subscription, items: seq<Item>, now: nat)
    requires multiset(items) == multiset(sub.items)
    requires AtMostOne(sub.items, IsTierItem(env)) && AtMostOne(sub.items, IsAddonItem(env))
    ensures Sync(env, org, sub.(items := items), now) == Sync(env, org, sub, now)
  {
    TierInAnyOrder(items, sub.items, env);
    AddonInAnyOrder(items, sub.items, env);
  }

  // ---------------------------------------------------------------- histories

  ghost predicate FirstActiveAt(h: seq<Delivery>, k: nat) {
    k < |h| && h[k].sub.status == Active && forall i | 0 <= i < k :: h[i].sub.status != Active
  }

  /** The unbroken past_due stretch the history ends in starts at event k. */
  ghost predicate StretchStartsAt(h: seq<Delivery>, k: nat) {
    && k < |h| && (forall i | k <= i < |h| :: h[i].sub.status == PastDue)
    && (k > 0 ==> h[k - 1].sub.status != PastDue)
  }

  /** What one event does to the fields the clocks and gates read. */
  lemma SyncClocks(env: Env, org: OrgRow, sub: Subscription, now: nat)
    requires org.plan != Sponsored
    ensures var r := Sync(env, org, sub, now);
      && r.plan != Sponsored && r.messageOverride == org.messageOverride && r.status == Some(sub.status)
      && r.firstPaidAt == OrElse(org.firstPaidAt, if sub.status == Active then Some(now) else None)
      && r.pastDueSince == if sub.status == PastDue then OrElse(org.pastDueSince, Some(now)) else None
  {
  }

  lemma {:induction false} HistoryKeepsPlanAndStatus(env: Env, org: OrgRow, h: seq<Delivery>)
    requires NeverBilled(org)
    ensures var r := RowAfter(env, org, h);
      && r.plan != Sponsored && r.messageOverride == org.messageOverride
      && r.status == (if h == [] then None else Some(h[|h| - 1].sub.status))
  {
    hide Sync;
    if h != [] {
      HistoryKeepsPlanAndStatus(env, org, h[..|h| - 1]);
      SyncClocks(env, RowAfter(env, org, h[..|h| - 1]), h[|h| - 1].sub, h[|h| - 1].at);
    }
  }

  /** firstPaidAt is the time of the first active event and never changes after it. */
  lemma {:induction false} FirstPaidIsFirstActive(env: Env, org: OrgRow, h: seq<Delivery>)
    requires NeverBilled(org)
    ensures var r := RowAfter(env, org, h);
      && (r.firstPaidAt.Some? <==> exists k: nat :: FirstActiveAt(h, k))
      && (forall k: nat | FirstActiveAt(h, k) :: r.firstPaidAt == Some(h[k].at))
  {
    hide Sync;
    if h != [] {
      var front := h[..|h| - 1];
      FirstPaidIsFirstActive(env, org, front);
      HistoryKeepsPlanAndStatus(env, org, front);
      SyncClocks(env, RowAfter(env, org, front), h[|front|].sub, h[|front|].at);
      FirstActiveExtends(h);
      hide FirstActiveAt;
      assert (exists k: nat :: FirstActiveAt(h, k)) <==>
             (exists k: nat :: FirstActiveAt(front, k)) || FirstActiveAt(h, |front|);
    }
  }

  /** pastDueSince is the start of the past_due stretch the history ends in. */
  lemma {:induction false} PastDueSinceIsStretchStart(env: Env, org: OrgRow, h: seq<Delivery>)
    requires NeverBilled(org)
    ensures var r := RowAfter(env, org, h);
      && (r.pastDueSince.Some? <==> exists k: nat :: StretchStartsAt(h, k))
      && (forall k: nat | StretchStartsAt(h, k) :: r.pastDueSince == Some(h[k].at))
  {
    hide Sync;
    if h != [] {
      var front := h[..|h| - 1];
      PastDueSinceIsStretchStart(env, org, front);
      HistoryKeepsPlanAndStatus(env, org, front);
      SyncClocks(env, RowAfter(env, org, front), h[|front|].sub, h[|front|].at);
      StretchExtends(h);
    }
  }

  lemma FirstActiveExtends(h: seq<Delivery>)
    requires h != []
    ensures var front := h[..|h| - 1];
      && (forall k: nat | k < |front| :: FirstActiveAt(h, k) <==> FirstActiveAt(front, k))
      && (FirstActiveAt(h, |front|) <==> h[|front|].sub.status == Active && !exists k: nat :: FirstActiveAt(front, k))
  {
    var front := h[..|h| - 1];
    if forall k: nat :: !FirstActiveAt(front, k) {
      NoneActive(front, |front|);
    }
  }

  lemma {:induction false} NoneActive(h: seq<Delivery>, n: nat)
    requires n <= |h| && forall k: nat :: !FirstActiveAt(h, k)
    ensures forall i | 0 <= i < n :: h[i].sub.status != Active
  {
    if n > 0 {
      NoneActive(h, n - 1);
      assert !FirstActiveAt(h, n - 1);
    }
  }

  lemma StretchExtends(h: seq<Delivery>)
    requires h != []
    ensures var front, last := h[..|h| - 1], h[|h| - 1].sub.status;
      && (forall k: nat | k < |front| :: StretchStartsAt(h, k) <==> last == PastDue && StretchStartsAt(front, k))
      && (StretchStartsAt(h, |front|) <==> last == PastDue && !exists k: nat :: StretchStartsAt(front, k))
  {
    var front := h[..|h| - 1];
    if |front| > 0 && front[|front| - 1].sub.status == PastDue {
      var k := StretchStart(front);
    }
  }

  lemma {:induction false} StretchStart(h: seq<Delivery>) returns (k: nat)
    requires h != [] && h[|h| - 1].sub.status == PastDue
    ensures StretchStartsAt(h, k)
  {
    var n := |h| - 1;
    if n == 0 || h[n - 1].sub.status != PastDue {
      k := n;
    } else {
      k := StretchStart(h[..n]);
      assert forall i | k <= i < n :: h[i] == h[..n][i];
    }
  }

  /** Processing the last event again, at any later time, changes nothing. */
  lemma RedeliveryIsANoOp(env: Env, org: OrgRow, h: seq<Delivery>, at: nat)
    requires h != []
    ensures RowAfter(env, org, h + [h[|h| - 1].(at := at)]) == RowAfter(env, org, h)
  {
    var again := h + [h[|h| - 1].(at := at)];
    assert again[..|h|] == h;
  }

  /** The row already reads, clocks aside, as the subscription's event would leave it. */
  predicate AlreadySays(env: Env, r: OrgRow, sub: Subscription) {
    var tier, addon := FirstTier(sub.items, env), FirstAddon(sub.items, env);
    var canceled := sub.status == Canceled;
    && r.status == Some(sub.status)
    && r.subscriptionId == (if canceled then None else Some(sub.id))
    && r.periodEnd == (if tier.Some? && tier.value.periodEnd != Some(0) then tier.value.periodEnd else None)
    && r.seats == (if canceled || addon.None? || addon.value.quantity.None? then 0 else addon.value.quantity.value)
    && (canceled ==> r.priceId.None?)
    && (tier.Some? ==> Some(r.plan) == PlanForPrice(tier.value.price, env))
    && (tier.Some? && !canceled ==> r.priceId == Some(tier.value.price))
  }

  lemma {:induction false} ActiveIsPaid(env: Env, org: OrgRow, h: seq<Delivery>, i: nat)
    requires NeverBilled(org) && i < |h| && h[i].sub.status == Active
    ensures RowAfter(env, org, h).firstPaidAt.Some?
  {
    hide Sync;
    var front := h[..|h| - 1];
    HistoryKeepsPlanAndStatus(env, org, front);
    SyncClocks(env, RowAfter(env, org, front), h[|front|].sub, h[|front|].at);
    if i < |front| { ActiveIsPaid(env, org, front, i); }
  }

  /**
   * An event of the history delivered again after others, at any time: it never
   * moves the first payment, and is harmless if and only if the row still
   * reads as that event left it.
   */
  lemma EarlierEventAgain(env: Env, org: OrgRow, h: seq<Delivery>, i: nat, at: nat)
    requires NeverBilled(org) && i < |h|
    ensures var r, again := RowAfter(env, org, h), RowAfter(env, org, h + [h[i].(at := at)]);
      && again.firstPaidAt == r.firstPaidAt
      && (again == r <==> AlreadySays(env, r, h[i].sub))
  {
    var r := RowAfter(env, org, h);
    var e := h[i].(at := at);
    assert (h + [e])[..|h|] == h;
    HistoryKeepsPlanAndStatus(env, org, h);
    if e.sub.status == Active { ActiveIsPaid(env, org, h, i); }
    PastDueClock(env, org, h);
    SyncSaysIt(env, r, e.sub, at);
  }

  lemma PastDueClock(env: Env, org: OrgRow, h: seq<Delivery>)
    requires NeverBilled(org)
    ensures var r := RowAfter(env, org, h); r.status == Some(PastDue) <==> r.pastDueSince.Some?
  {
    hide Sync;
    if h != [] {
      var front := h[..|h| - 1];
      HistoryKeepsPlanAndStatus(env, org, front);
      SyncClocks(env, RowAfter(env, org, front), h[|front|].sub, h[|front|].at);
    }
  }

  /** With its clocks where the event would leave them, the row stays exactly when it already says it. */
  lemma SyncSaysIt(env: Env, r: OrgRow, sub: Subscription, now: nat)
    requires r.plan != Sponsored && (r.status == Some(PastDue) <==> r.pastDueSince.Some?)
    requires sub.status == Active ==> r.firstPaidAt.Some?
    ensures Sync(env, r, sub, now).firstPaidAt == r.firstPaidAt
    ensures Sync(env, r, sub, now) == r <==> AlreadySays(env, r, sub)
  {
    FirstTierFound(sub.items, env);
    hide FirstTier, FirstAddon;
  }

  /** A late repeat that is not harmless: past due, paid, and the first event again puts the row past due. */
  lemma LateRepeatRegresses(env: Env, org: OrgRow, due: Delivery, paid: Delivery, at: nat)
    requires NeverBilled(org) && due.sub.status == PastDue && paid.sub.status == Active
    ensures RowAfter(env, org, [due, paid]).status == Some(Active)
    ensures RowAfter(env, org, [due, paid] + [due.(at := at)]).status == Some(PastDue)
  {
    HistoryKeepsPlanAndStatus(env, org, [due, paid]);
    HistoryKeepsPlanAndStatus(env, org, [due, paid] + [due.(at := at)]);
  }

  /** Access is refused for a declined card exactly when a past_due stretch has lasted the grace period. */
  lemma BlockedAfterGrace(env: Env, org: OrgRow, h: seq<Delivery>, now: nat)
    requires NeverBilled(org)
    ensures var r := RowAfter(env, org, h);
      AccessOf(r.status, r.firstPaidAt, r.pastDueSince, now).blocked
      <==> exists k: nat :: StretchStartsAt(h, k) && now >= h[k].at + 604_800_000
  {
    HistoryKeepsPlanAndStatus(env, org, h);
    PastDueSinceIsStretchStart(env, org, h);
    var r := RowAfter(env, org, h);
    if r.pastDueSince.Some? {
      var k: nat :| StretchStartsAt(h, k);
      assert r.pastDueSince == Some(h[k].at) && h[|h| - 1].sub.status == PastDue;
    }
  }

  // ---------------------------------------------------------------- the gates

  datatype OrgLimits = OrgLimits(trialing: bool, limits: Limits, access: PastDueAccess)

  function MinOf(a: Option<nat>, b: nat): nat {
    if a.None? then b else Min(a.value, b)
  }

  function PlusSeats(limit: Option<nat>, seats: nat, each: nat): Option<nat> {
    if limit.Some? then Some(limit.value + seats * each) else None
  }

  /**
   * The limits in force: plan, trial cap, seat allowances, then the admin
   * override. A trial keeps its plan's number allowance.
   */
  function OrgBilling(org: OrgRow, now: nat): OrgLimits {
    var access := AccessOf(org.status, org.firstPaidAt, org.pastDueSince, now);
    var trialing := org.status == Some(Trialing) || access.trialCaps;
    var plan := LimitsOf(org.plan);
    var capped := if trialing then plan.(messages := Some(MinOf(plan.messages, TRIAL_MESSAGES))) else plan;
    var seated := capped.(messages := PlusSeats(capped.messages, org.seats, SEAT_MESSAGES),
                         aiTokens := PlusSeats(capped.aiTokens, org.seats, SEAT_TOKENS));
    OrgLimits(trialing, if org.messageOverride.Some? then seated.(messages := org.messageOverride) else seated, access)
  }

  datatype Gate = Open | PaymentFailed | SubscriptionRequired | OverLimit

  function Subscribed(org: OrgRow, now: nat): Gate {
    if !RequiresSubscription(org.plan) then Open
    else if OrgBilling(org, now).access.blocked then PaymentFailed
    else if org.status == Some(Active) || org.status == Some(Trialing) || org.status == Some(PastDue)
    then Open
    else SubscriptionRequired
  }

  /** The send gate, with `used` messages counted this month. */
  function CanSend(org: OrgRow, used: nat, now: nat): Gate {
    var gate := Subscribed(org, now);
    if gate != Open then gate
    else
      var limit := OrgBilling(org, now).limits.messages;
      if limit.Some? && used >= limit.value then OverLimit else Open
  }

  /** The Instagram seats the last event left, read off its add-on item. */
  function SeatsOf(env: Env, h: seq<Delivery>): nat {
    if h == [] then 0
    else
      var sub := h[|h| - 1].sub;
      var addon := FirstAddon(sub.items, env);
      if sub.status == Canceled || addon.None? || addon.value.quantity.None? then 0 else addon.value.quantity.value
  }

  /**
   * A bounced trial never unlocks the plan. With no active event in its
   * history and no admin override, an organization may send exactly when its
   * last event is trialing, or past_due within the grace period, and its usage
   * is below the trial cap plus the seat allowances.
   */
  lemma BouncedTrialStaysCapped(env: Env, org: OrgRow, h: seq<Delivery>, used: nat, now: nat)
    requires NeverBilled(org) && org.messageOverride.None?
    requires forall i | 0 <= i < |h| :: h[i].sub.status != Active
    ensures var r := RowAfter(env, org, h);
      CanSend(r, used, now) == Open <==>
        && h != []
        && (h[|h| - 1].sub.status == Trialing
            || (h[|h| - 1].sub.status == PastDue
                && forall k: nat | StretchStartsAt(h, k) :: now < h[k].at + 604_800_000))
        && used < 300 + 5_000 * SeatsOf(env, h)
  {
    HistoryKeepsPlanAndStatus(env, org, h);
    FirstPaidIsFirstActive(env, org, h);
    BlockedAfterGrace(env, org, h, now);
    var r := RowAfter(env, org, h);
    SeatsFollowLastEvent(env, org, h);
    if h != [] && h[|h| - 1].sub.status == PastDue {
      var k := StretchStart(h);
    }
  }

  lemma SeatsFollowLastEvent(env: Env, org: OrgRow, h: seq<Delivery>)
    requires NeverBilled(org)
    ensures RowAfter(env, org, h).seats == SeatsOf(env, h)
  {
    if h != [] { HistoryKeepsPlanAndStatus(env, org, h[..|h| - 1]); }
  }

  // ---------------------------------------------------------------- event routing

  /** A webhook event as the handler routes it; ids and amounts that only go to logs are dropped. */
  datatype StripeEvent =
    | SubscriptionChanged(sub: Subscription)
    | InvoicePaymentFailed
    | CheckoutCompleted(oneOff: bool, packTokens: nat, named: bool, session: string, subscription: Option<Subscription>)
    | TrialWillEnd
    | Unhandled

  datatype Account = Account(row: OrgRow, ledger: TokenLedger.Ledger)

  predicate IsTokenPack(e: StripeEvent) {
    e.CheckoutCompleted? && e.oneOff && e.packTokens > 0 && e.named
  }

  function Handled(env: Env, a: Account, e: StripeEvent, now: nat): Account {
    match e
    case SubscriptionChanged(sub) => a.(row := Sync(env, a.row, sub, now))
    case CheckoutCompleted(_, tokens, _, session, sub) =>
      if IsTokenPack(e) then a.(ledger := TokenLedger.Bought(a.ledger, TokenLedger.Purchase(session, tokens)))
      else if sub.Some? then a.(row := Sync(env, a.row, sub.value, now))
      else a
    case InvoicePaymentFailed | TrialWillEnd | Unhandled => a
  }

  /** Any event delivered twice in a row, at whatever times, counts once. */
  lemma EventsAreIdempotent(env: Env, a: Account, e: StripeEvent, t: nat, again: nat)
    ensures Handled(env, Handled(env, a, e, t), e, again) == Handled(env, a, e, t)
  {
    if IsTokenPack(e) {
      var p := TokenLedger.Purchase(e.session, e.packTokens);
      assert TokenLedger.HasPurchase(a.ledger.purchases + [p], e.session) by {
        assert p in a.ledger.purchases + [p];
      }
      assert TokenLedger.HasPurchase(Handled(env, a, e, t).ledger.purchases, e.session);
    }
  }

  class BillingService {
    const env: Env
    var row: OrgRow
    const meter: TokenLedger.Meter

    ghost function View(): Account
      reads this, meter
    {
      Account(row, meter.View())
    }

    constructor (env: Env, row: OrgRow, meter: TokenLedger.Meter)
      ensures this.env == env && this.meter == meter && this.row == row
    {
      this.env := env;
      this.row := row;
      this.meter := meter;
    }

    method SyncSubscription(sub: Subscription, now: nat)
      modifies this
      ensures row == Sync(env, old(row), sub, now)
    {
      if row.plan == Sponsored { return; }
      var tier: Option<Item> := None;
      var addon: Option<Item> := None;
      for i := 0 to |sub.items|
        invariant FirstTier(sub.items, env) == OrElse(tier, FirstTier(sub.items[i..], env))
        invariant FirstAddon(sub.items, env) == OrElse(addon, FirstAddon(sub.items[i..], env))
      {
        var item := sub.items[i];
        assert sub.items[i..][1..] == sub.items[i + 1..];
        if tier.None? && PlanForPrice(item.price, env).Some? { tier := Some(item); }
        if addon.None? && IsAddonPrice(item.price, env) { addon := Some(item); }
      }
      var canceled := sub.status == Canceled;
      if tier.Some? && PlanForPrice(tier.value.price, env).Some? {
        row := row.(plan := PlanForPrice(tier.value.price, env).value);
      }
      row := row.(
        subscriptionId := if canceled then None else Some(sub.id),
        priceId := if canceled then None else if tier.Some? then Some(tier.value.price) else row.priceId,
        status := Some(sub.status),
        periodEnd := if tier.Some? && tier.value.periodEnd != Some(0) then tier.value.periodEnd else None,
        seats := if !canceled && addon.Some? && addon.value.quantity.Some? then addon.value.quantity.value else 0);
      if row.firstPaidAt.None? && sub.status == Active { row := row.(firstPaidAt := Some(now)); }
      if sub.status != PastDue {
        row := row.(pastDueSince := None);
      } else if row.pastDueSince.None? {
        row := row.(pastDueSince := Some(now));
      }
    }

    method HandleEvent(e: StripeEvent, now: nat)
      modifies this, meter
      ensures View() == Handled(env, old(View()), e, now)
    {
      match e {
        case SubscriptionChanged(sub) => SyncSubscription(sub, now);
        case CheckoutCompleted(_, tokens, _, session, sub) =>
          if IsTokenPack(e) {
            var _ := meter.CreditAiTokens(TokenLedger.Purchase(session, tokens));
          } else if sub.Some? {
            SyncSubscription(sub.value, now);
          }
        case _ =>
      }
    }
  }
}
