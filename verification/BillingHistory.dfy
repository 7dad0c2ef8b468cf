/**
 * Whole histories of one organization: webhook events as they arrive and
 * metered runs between them. What the row and the ledger hold at the end is
 * read off the events themselves.
 */
module BillingHistory {
  import opened Prelude
  import opened Plans
  import opened Billing
  import opened TokenLedger

  /** A webhook event, or a run metered against the allowance in force, and when it happened. */
  datatype Happening =
    | Came(e: StripeEvent, at: nat)
    | Ran(tokens: int, agent: Option<string>, period: nat, day: nat, at: nat)

  function After(env: Env, a: Account, hs: seq<Happening>): Account {
    if hs == [] then a
    else
      var before := After(env, a, hs[..|hs| - 1]);
      match hs[|hs| - 1]
      case Came(e, at) => Handled(env, before, e, at)
      case Ran(tokens, agent, period, day, at) =>
        before.(ledger := Recorded(before.ledger,
          Usage(tokens, agent, period, day, OrgBilling(before.row, at).limits.aiTokens)))
  }

  /** A paid one-off checkout of a token pack by a named organization. */
  predicate IsPack(x: Happening) {
    x.Came? && x.e.CheckoutCompleted? && x.e.oneOff && x.e.packTokens > 0 && x.e.named
  }

  /** The subscription an event brings: a change of one, or a checkout that is not a token pack. */
  function Carried(x: Happening): Option<Subscription> {
    if x.Ran? then None
    else match x.e
      case SubscriptionChanged(sub) => Some(sub)
      case CheckoutCompleted(_, _, _, _, sub) => if IsPack(x) then None else sub
      case InvoicePaymentFailed | TrialWillEnd | Unhandled => None
  }

  /** The subscriptions of a history, in order. */
  function SubsOf(hs: seq<Happening>): seq<Delivery> {
    if hs == [] then []
    else
      var last := hs[|hs| - 1];
      SubsOf(hs[..|hs| - 1]) + if Carried(last).Some? then [Delivery(Carried(last).value, last.at)] else []
  }

  /** The token-pack credits and the runs of a history, in order. */
  function EntriesOf(env: Env, row: OrgRow, hs: seq<Happening>): seq<Entry> {
    if hs == [] then []
    else
      var front, last := hs[..|hs| - 1], hs[|hs| - 1];
      EntriesOf(env, row, front) +
      if IsPack(last) then [Credited(Purchase(last.e.session, last.e.packTokens))]
      else if last.Ran? then
        var limits := OrgBilling(RowAfter(env, row, SubsOf(front)), last.at).limits;
        [Used(Usage(last.tokens, last.agent, last.period, last.day, limits.aiTokens))]
      else []
  }

  lemma OneMoreDelivery(env: Env, row: OrgRow, h: seq<Delivery>, d: Delivery)
    ensures RowAfter(env, row, h + [d]) == Sync(env, RowAfter(env, row, h), d.sub, d.at)
  {
    assert (h + [d])[..|h|] == h;
  }

  lemma OneMoreEntry(es: seq<Entry>, e: Entry)
    ensures LedgerOf(es + [e]) == Booked(LedgerOf(es), e)
  {
    assert (es + [e])[..|es|] == es;
  }

  lemma OneMoreSub(env: Env, row: OrgRow, hs: seq<Happening>)
    requires hs != []
    ensures var front, last := hs[..|hs| - 1], hs[|hs| - 1];
      RowAfter(env, row, SubsOf(hs)) ==
        if Carried(last).Some? then Sync(env, RowAfter(env, row, SubsOf(front)), Carried(last).value, last.at)
        else RowAfter(env, row, SubsOf(front))
  {
    var front, last := hs[..|hs| - 1], hs[|hs| - 1];
    assert SubsOf(front) + [] == SubsOf(front);
    if Carried(last).Some? {
      OneMoreDelivery(env, row, SubsOf(front), Delivery(Carried(last).value, last.at));
    }
    hide Sync, RowAfter;
  }

  lemma OneMoreInLedger(env: Env, row: OrgRow, hs: seq<Happening>)
    requires hs != []
    ensures var front, last := hs[..|hs| - 1], hs[|hs| - 1];
      var l := LedgerOf(EntriesOf(env, row, front));
      LedgerOf(EntriesOf(env, row, hs)) ==
        if IsPack(last) then Bought(l, Purchase(last.e.session, last.e.packTokens))
        else if last.Ran? then
          Recorded(l, Usage(last.tokens, last.agent, last.period, last.day,
            OrgBilling(RowAfter(env, row, SubsOf(front)), last.at).limits.aiTokens))
        else l
  {
    var front, last := hs[..|hs| - 1], hs[|hs| - 1];
    var es := EntriesOf(env, row, front);
    assert es + [] == es;
    if IsPack(last) {
      OneMoreEntry(es, Credited(Purchase(last.e.session, last.e.packTokens)));
    } else if last.Ran? {
      var limits := OrgBilling(RowAfter(env, row, SubsOf(front)), last.at).limits;
      OneMoreEntry(es, Used(Usage(last.tokens, last.agent, last.period, last.day, limits.aiTokens)));
    }
    hide Recorded, Bought, OrgBilling, RowAfter, LedgerOf, SubsOf;
  }

  /** The row follows the subscriptions and the ledger the packs and runs, and nothing else moves either. */
  lemma {:induction false} AccountIsItsHistory(env: Env, row: OrgRow, hs: seq<Happening>)
    ensures After(env, Account(row, EmptyLedger), hs)
      == Account(RowAfter(env, row, SubsOf(hs)), LedgerOf(EntriesOf(env, row, hs)))
  {
    if hs != [] {
      hide Sync, OrgBilling, Recorded, Bought, RowAfter, LedgerOf, SubsOf, EntriesOf;
      AccountIsItsHistory(env, row, hs[..|hs| - 1]);
      OneMoreSub(env, row, hs);
      OneMoreInLedger(env, row, hs);
    }
  }

  // ---------------------------------------------------------------- the row

  /** Item `j` is the first of the list whose price passes the test. */
  ghost predicate FirstAt(items: seq<Item>, test: Item -> bool, j: nat) {
    j < |items| && test(items[j]) && forall i | 0 <= i < j :: !test(items[i])
  }

  lemma {:induction false} FirstTierAt(items: seq<Item>, env: Env)
    ensures forall j: nat | FirstAt(items, IsTierItem(env), j) :: FirstTier(items, env) == Some(items[j])
    ensures FirstTier(items, env).Some? ==> exists j: nat :: FirstAt(items, IsTierItem(env), j)
  {
    if items != [] && !IsTierItem(env)(items[0]) {
      FirstTierAt(items[1..], env);
      FirstShifts(items, IsTierItem(env));
    } else if items != [] {
      assert FirstAt(items, IsTierItem(env), 0);
    }
  }

  lemma {:induction false} FirstAddonAt(items: seq<Item>, env: Env)
    ensures forall j: nat | FirstAt(items, IsAddonItem(env), j) :: FirstAddon(items, env) == Some(items[j])
    ensures FirstAddon(items, env).Some? ==> exists j: nat :: FirstAt(items, IsAddonItem(env), j)
  {
    if items != [] && !IsAddonItem(env)(items[0]) {
      FirstAddonAt(items[1..], env);
      FirstShifts(items, IsAddonItem(env));
    } else if items != [] {
      assert FirstAt(items, IsAddonItem(env), 0);
    }
  }

  lemma FirstShifts(items: seq<Item>, test: Item -> bool)
    requires items != [] && !test(items[0])
    ensures !FirstAt(items, test, 0)
    ensures forall j: nat :: FirstAt(items, test, j + 1) <==> FirstAt(items[1..], test, j)
  {
    forall j: nat ensures FirstAt(items, test, j + 1) <==> FirstAt(items[1..], test, j) {
      if FirstAt(items[1..], test, j) {
        forall i | 0 <= i < j + 1 ensures !test(items[i]) {
          if i > 0 { assert items[i] == items[1..][i - 1]; }
        }
      }
      if FirstAt(items, test, j + 1) {
        forall i | 0 <= i < j ensures !test(items[1..][i]) { assert items[1..][i] == items[i + 1]; }
      }
    }
  }

  /** The environment variable names this price. */
  predicate Names(env: Env, variable: string, price: string) {
    price != "" && variable in env && env[variable] == price
  }

  /** A price is a plan's by its monthly or its annual variable, the cheaper plan first; a seat's by its own. */
  lemma PricesMean(env: Env, price: string)
    ensures var starter := Names(env, "STRIPE_PRICE_STARTER", price) || Names(env, "STRIPE_PRICE_STARTER_YEAR", price);
      var pro := Names(env, "STRIPE_PRICE_PRO", price) || Names(env, "STRIPE_PRICE_PRO_YEAR", price);
      var business := Names(env, "STRIPE_PRICE_BUSINESS", price) || Names(env, "STRIPE_PRICE_BUSINESS_YEAR", price);
      && (PlanForPrice(price, env) == Some(Starter) <==> starter)
      && (PlanForPrice(price, env) == Some(Pro) <==> pro && !starter)
      && (PlanForPrice(price, env) == Some(Business) <==> business && !pro && !starter)
      && PlanForPrice(price, env) != Some(Sponsored)
    ensures IsAddonPrice(price, env) <==> Names(env, "STRIPE_PRICE_INSTAGRAM_SEAT", price)
  {
  }

  ghost predicate HasTier(env: Env, sub: Subscription) {
    exists j: nat :: FirstAt(sub.items, IsTierItem(env), j)
  }

  ghost predicate HasAddon(env: Env, sub: Subscription) {
    exists j: nat :: FirstAt(sub.items, IsAddonItem(env), j)
  }

  /** What one event writes besides the clocks: the first plan item's, the first seat item's, or none's. */
  lemma EventWrites(env: Env, org: OrgRow, sub: Subscription, now: nat)
    requires org.plan != Sponsored
    ensures var r := Sync(env, org, sub, now);
      && r.subscriptionId == (if sub.status == Canceled then None else Some(sub.id))
      && (forall j: nat | FirstAt(sub.items, IsTierItem(env), j) ::
            && Some(r.plan) == PlanForPrice(sub.items[j].price, env)
            && r.priceId == (if sub.status == Canceled then None else Some(sub.items[j].price))
            && r.periodEnd == if sub.items[j].periodEnd == Some(0) then None else sub.items[j].periodEnd)
      && (!HasTier(env, sub) ==>
            && r.plan == org.plan && r.periodEnd.None?
            && r.priceId == if sub.status == Canceled then None else org.priceId)
      && (forall j: nat | FirstAt(sub.items, IsAddonItem(env), j) && sub.status != Canceled ::
            r.seats == if sub.items[j].quantity.Some? then sub.items[j].quantity.value else 0)
      && (sub.status == Canceled || !HasAddon(env, sub) ==> r.seats == 0)
  {
    FirstTierAt(sub.items, env);
    FirstAddonAt(sub.items, env);
    FirstTierFound(sub.items, env);
    hide FirstTier, FirstAddon, PlanForPrice, IsAddonPrice;
  }

  /** Item `j` of event `k` is the last of the history to have sold a plan. */
  ghost predicate LastSale(env: Env, h: seq<Delivery>, k: nat, j: nat) {
    k < |h| && FirstAt(h[k].sub.items, IsTierItem(env), j) && forall m | k < m < |h| :: !HasTier(env, h[m].sub)
  }

  /** One more event leaves the plan alone unless it has a plan item, and then it is that item's. */
  lemma PlanStep(env: Env, org: OrgRow, front: seq<Delivery>, last: Delivery)
    requires NeverBilled(org)
    ensures !HasTier(env, last.sub) ==> RowAfter(env, org, front + [last]).plan == RowAfter(env, org, front).plan
    ensures forall j: nat | FirstAt(last.sub.items, IsTierItem(env), j) ::
      Some(RowAfter(env, org, front + [last]).plan) == PlanForPrice(last.sub.items[j].price, env)
  {
    HistoryKeepsPlanAndStatus(env, org, front);
    EventWrites(env, RowAfter(env, org, front), last.sub, last.at);
    OneMoreDelivery(env, org, front, last);
    hide Sync, PlanForPrice, HasTier, FirstAt;
  }

  /** The plan is the one last sold, canceled or not. */
  lemma {:induction false} PlanIsLastSold(env: Env, org: OrgRow, h: seq<Delivery>, k: nat, j: nat)
    requires NeverBilled(org) && LastSale(env, h, k, j)
    ensures Some(RowAfter(env, org, h).plan) == PlanForPrice(h[k].sub.items[j].price, env)
  {
    var front, last := h[..|h| - 1], h[|h| - 1];
    assert h == front + [last];
    PlanStep(env, org, front, last);
    hide RowAfter, HasTier, PlanForPrice;
    if k < |front| { PlanIsLastSold(env, org, front, k, j); }
  }

  lemma {:induction false} NothingSold(env: Env, org: OrgRow, h: seq<Delivery>)
    requires NeverBilled(org) && forall k | 0 <= k < |h| :: !HasTier(env, h[k].sub)
    ensures RowAfter(env, org, h).plan == org.plan
  {
    if h != [] {
      var front, last := h[..|h| - 1], h[|h| - 1];
      assert h == front + [last];
      PlanStep(env, org, front, last);
      NothingSold(env, org, front);
    }
  }

  /** Stripe never touches a sponsored organization. */
  lemma {:induction false} SponsoredIsLeftAlone(env: Env, row: OrgRow, h: seq<Delivery>)
    requires row.plan == Sponsored
    ensures RowAfter(env, row, h) == row
  {
    if h != [] { SponsoredIsLeftAlone(env, row, h[..|h| - 1]); }
  }

  /**
   * Over any mix of events and runs the status is that of the last
   * subscription, the first payment the first active one, and the past-due
   * clock the start of the past-due stretch the subscriptions end in.
   */
  lemma ClocksOfHistory(env: Env, row: OrgRow, hs: seq<Happening>)
    requires NeverBilled(row)
    ensures var r, h := After(env, Account(row, EmptyLedger), hs).row, SubsOf(hs);
      && r.plan != Sponsored && r.messageOverride == row.messageOverride
      && r.status == (if h == [] then None else Some(h[|h| - 1].sub.status))
      && (r.firstPaidAt.Some? <==> exists k: nat :: FirstActiveAt(h, k))
      && (forall k: nat | FirstActiveAt(h, k) :: r.firstPaidAt == Some(h[k].at))
      && (r.pastDueSince.Some? <==> exists k: nat :: StretchStartsAt(h, k))
      && (forall k: nat | StretchStartsAt(h, k) :: r.pastDueSince == Some(h[k].at))
  {
    AccountIsItsHistory(env, row, hs);
    HistoryKeepsPlanAndStatus(env, row, SubsOf(hs));
    FirstPaidIsFirstActive(env, row, SubsOf(hs));
    PastDueSinceIsStretchStart(env, row, SubsOf(hs));
  }

  /** The plan in force was the last sold, and the seats are those on the last subscription's seat item. */
  lemma PlanAndSeatsOfHistory(env: Env, row: OrgRow, hs: seq<Happening>)
    requires NeverBilled(row)
    ensures var r, h := After(env, Account(row, EmptyLedger), hs).row, SubsOf(hs);
      && (forall k: nat, j: nat | LastSale(env, h, k, j) ::
            Some(r.plan) == PlanForPrice(h[k].sub.items[j].price, env))
      && ((forall k | 0 <= k < |h| :: !HasTier(env, h[k].sub)) ==> r.plan == row.plan)
      && (h == [] ==> r.seats == 0)
      && (h != [] ==> var sub := h[|h| - 1].sub;
            && (sub.status == Canceled || !HasAddon(env, sub) ==> r.seats == 0)
            && (forall j: nat | FirstAt(sub.items, IsAddonItem(env), j) && sub.status != Canceled ::
                  r.seats == if sub.items[j].quantity.Some? then sub.items[j].quantity.value else 0))
  {
    var h := SubsOf(hs);
    AccountIsItsHistory(env, row, hs);
    forall k: nat, j: nat | LastSale(env, h, k, j)
      ensures Some(RowAfter(env, row, h).plan) == PlanForPrice(h[k].sub.items[j].price, env)
    {
      PlanIsLastSold(env, row, h, k, j);
    }
    if forall k | 0 <= k < |h| :: !HasTier(env, h[k].sub) { NothingSold(env, row, h); }
    hide LastSale, HasTier;
    if h != [] {
      var front, last := h[..|h| - 1], h[|h| - 1];
      HistoryKeepsPlanAndStatus(env, row, front);
      EventWrites(env, RowAfter(env, row, front), last.sub, last.at);
      hide Sync;
    }
  }

  /** A declined card blocks access exactly seven days after the past-due stretch began. */
  lemma BlockedSevenDaysLater(env: Env, row: OrgRow, hs: seq<Happening>, now: nat)
    requires NeverBilled(row)
    ensures Subscribed(After(env, Account(row, EmptyLedger), hs).row, now) == PaymentFailed
      <==> exists k: nat :: StretchStartsAt(SubsOf(hs), k) && now >= SubsOf(hs)[k].at + 604_800_000
  {
    AccountIsItsHistory(env, row, hs);
    HistoryKeepsPlanAndStatus(env, row, SubsOf(hs));
    BlockedAfterGrace(env, row, SubsOf(hs), now);
  }

  /** An organization that never paid stays under 300 messages and 5000 for each seat, whatever its plan. */
  lemma UnpaidStaysCapped(env: Env, row: OrgRow, hs: seq<Happening>, used: nat, now: nat)
    requires NeverBilled(row) && row.messageOverride.None?
    requires forall i | 0 <= i < |SubsOf(hs)| :: SubsOf(hs)[i].sub.status != Active
    ensures var r, h := After(env, Account(row, EmptyLedger), hs).row, SubsOf(hs);
      CanSend(r, used, now) == Open <==>
        && h != [] && used < 300 + 5_000 * r.seats
        && (h[|h| - 1].sub.status == Trialing
            || (h[|h| - 1].sub.status == PastDue
                && forall k: nat | StretchStartsAt(h, k) :: now < h[k].at + 604_800_000))
  {
    AccountIsItsHistory(env, row, hs);
    BouncedTrialStaysCapped(env, row, SubsOf(hs), used, now);
    SeatsFollowLastEvent(env, row, SubsOf(hs));
    HistoryKeepsPlanAndStatus(env, row, SubsOf(hs));
  }

  // ---------------------------------------------------------------- the ledger

  /** Some token-pack checkout of the history is of this session. */
  ghost predicate BoughtBy(hs: seq<Happening>, session: string) {
    exists i | 0 <= i < |hs| :: IsPack(hs[i]) && hs[i].e.session == session
  }

  /** The tokens of every pack, each checkout session counted at its first event. */
  ghost function PacksBought(hs: seq<Happening>): nat {
    if hs == [] then 0
    else
      var front, last := hs[..|hs| - 1], hs[|hs| - 1];
      PacksBought(front) + if IsPack(last) && !BoughtBy(front, last.e.session) then last.e.packTokens else 0
  }

  /** All tokens of the runs of a history, a run of none or fewer counting nothing. */
  function TokensRun(hs: seq<Happening>): nat {
    if hs == [] then 0
    else TokensRun(hs[..|hs| - 1]) + if hs[|hs| - 1].Ran? then Max(0, hs[|hs| - 1].tokens) else 0
  }

  lemma OneMoreEvent(hs: seq<Happening>, x: Happening, s: string)
    ensures BoughtBy(hs + [x], s) <==> BoughtBy(hs, s) || (IsPack(x) && x.e.session == s)
  {
    if BoughtBy(hs, s) {
      var i :| 0 <= i < |hs| && IsPack(hs[i]) && hs[i].e.session == s;
      assert (hs + [x])[i] == hs[i];
    }
    assert (hs + [x])[|hs|] == x;
  }

  lemma OneMoreCredit(es: seq<Entry>, e: Entry, s: string)
    ensures Replays(es + [e], s) <==> Replays(es, s) || (e.Credited? && e.p.session == s)
    ensures (es + [e])[..|es|] == es
  {
    if Replays(es, s) {
      var i :| 0 <= i < |es| && es[i].Credited? && es[i].p.session == s;
      assert (es + [e])[i] == es[i];
    }
    assert (es + [e])[|es|] == e;
  }

  lemma {:induction false} CreditsArePacks(env: Env, row: OrgRow, hs: seq<Happening>, s: string)
    ensures Replays(EntriesOf(env, row, hs), s) <==> BoughtBy(hs, s)
  {
    if hs != [] {
      var front, last := hs[..|hs| - 1], hs[|hs| - 1];
      CreditsArePacks(env, row, front, s);
      assert front + [last] == hs;
      OneMoreEvent(front, last, s);
      var es, before := EntriesOf(env, row, hs), EntriesOf(env, row, front);
      assert before + [] == before;
      if IsPack(last) || last.Ran? {
        assert es == before + [es[|before|]];
        OneMoreCredit(before, es[|before|], s);
      }
      hide OrgBilling, RowAfter, Replays, BoughtBy;
    }
  }

  lemma {:induction false} PacksAreCredits(env: Env, row: OrgRow, hs: seq<Happening>)
    ensures DistinctCredits(EntriesOf(env, row, hs)) == PacksBought(hs)
    ensures TotalRecorded(EntriesOf(env, row, hs)) == TokensRun(hs)
  {
    hide OrgBilling, RowAfter, Replays, BoughtBy;
    if hs != [] {
      var front, last := hs[..|hs| - 1], hs[|hs| - 1];
      PacksAreCredits(env, row, front);
      var es, before := EntriesOf(env, row, hs), EntriesOf(env, row, front);
      assert before + [] == before;
      if IsPack(last) || last.Ran? { assert es[..|es| - 1] == before; }
      if IsPack(last) { CreditsArePacks(env, row, front, last.e.session); }
    }
  }

  /**
   * Over any mix of events and runs every token run is on a daily row, and the
   * balance is what the packs bought, each checkout once, less what was drawn.
   */
  lemma LedgerOfHistory(env: Env, row: OrgRow, hs: seq<Happening>)
    ensures var l, es := After(env, Account(row, EmptyLedger), hs).ledger, EntriesOf(env, row, hs);
      && l.paid == PacksBought(hs) - TotalDrawn(es) && l.paid >= 0
      && SumDays(l.days) == TokensRun(hs)
      && (forall p :: UsedIn(l, p) == FreeIn(es, p))
  {
    AccountIsItsHistory(env, row, hs);
    LedgerConserves(EntriesOf(env, row, hs));
    PacksAreCredits(env, row, hs);
  }

  /** A failed invoice, the end of a trial and every event not handled leave the account as it was. */
  lemma OtherEventsChangeNothing(env: Env, a: Account, hs: seq<Happening>, e: StripeEvent, at: nat)
    requires e == InvoicePaymentFailed || e == TrialWillEnd || e == Unhandled
    ensures After(env, a, hs + [Came(e, at)]) == After(env, a, hs)
  {
    assert (hs + [Came(e, at)])[..|hs|] == hs;
  }
}
