/** The plan table, price lookup and the grace period of a declined card. */
module Plans {
  import opened Prelude

  datatype Plan = Starter | Pro | Business | Sponsored

  datatype Status = Active | Trialing | PastDue | Canceled | Unpaid | Incomplete | IncompleteExpired | Paused

  /** Monthly limits; None is unlimited. */
  datatype Limits = Limits(messages: Option<nat>, aiTokens: Option<nat>, waNumbers: Option<nat>)

  /** Environment variable name to Stripe price id. */
  type Env = map<string, string>

  const SEAT_MESSAGES := 5_000
  const SEAT_TOKENS := 1_000_000
  const TRIAL_MESSAGES := 300
  const GRACE_MS := 7 * 24 * 60 * 60 * 1000
  const SEAT_PRICE_ENV := "STRIPE_PRICE_INSTAGRAM_SEAT"

  function LimitsOf(p: Plan): Limits {
    match p
    case Starter => Limits(Some(5_000), Some(1_000_000), Some(1))
    case Pro => Limits(Some(20_000), Some(5_000_000), Some(3))
    case Business => Limits(Some(100_000), Some(10_000_000), Some(10))
    case Sponsored => Limits(None, None, None)
  }

  /** The monthly and annual price variables of the purchasable plans. */
  function PriceEnvs(p: Plan): seq<string> {
    match p
    case Starter => ["STRIPE_PRICE_STARTER", "STRIPE_PRICE_STARTER_YEAR"]
    case Pro => ["STRIPE_PRICE_PRO", "STRIPE_PRICE_PRO_YEAR"]
    case Business => ["STRIPE_PRICE_BUSINESS", "STRIPE_PRICE_BUSINESS_YEAR"]
    case Sponsored => []
  }

  predicate RequiresSubscription(p: Plan) {
    PriceEnvs(p) != []
  }

  predicate Sells(p: Plan, price: string, env: Env) {
    exists v | v in PriceEnvs(p) :: v in env && env[v] == price
  }

  /** The plans in the order the table lists them, which is the order they are tried in. */
  function TableOrder(p: Plan): nat {
    match p
    case Starter => 0
    case Pro => 1
    case Business => 2
    case Sponsored => 3
  }

  /** The first plan of the table sold at this price. */
  function PlanForPrice(price: string, env: Env): (r: Option<Plan>)
    ensures r.Some? <==> price != "" && exists p :: Sells(p, price, env)
    ensures r.Some? ==> Sells(r.value, price, env) && RequiresSubscription(r.value)
    ensures r.Some? ==> forall p | TableOrder(p) < TableOrder(r.value) :: !Sells(p, price, env)
  {
    if price == "" then None
    else if Sells(Starter, price, env) then Some(Starter)
    else if Sells(Pro, price, env) then Some(Pro)
    else if Sells(Business, price, env) then Some(Business)
    else None
  }

  predicate IsAddonPrice(price: string, env: Env) {
    price != "" && SEAT_PRICE_ENV in env && env[SEAT_PRICE_ENV] == price
  }

  datatype PastDueAccess = PastDueAccess(trialCaps: bool, blocked: bool, graceEndsAt: Option<nat>)

  function AccessOf(
      status: Option<Status>, firstPaidAt: Option<nat>, pastDueSince: Option<nat>, now: nat): PastDueAccess
  {
    if status != Some(PastDue) then PastDueAccess(false, false, None)
    else
      var ends := if pastDueSince.Some? then Some(pastDueSince.value + GRACE_MS) else None;
      PastDueAccess(firstPaidAt.None?, ends.Some? && now >= ends.value, ends)
  }
}
