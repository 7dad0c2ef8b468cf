/**
 * The two-bucket AI-token meter of one organization: a monthly allowance that
 * is spent first, a purchased balance that covers the overflow, and reporting
 * rows that count everything.
 */
module TokenLedger {
  import opened Prelude

  datatype DayRow = DayRow(agent: Option<string>, day: nat, tokens: nat)

  datatype Purchase = Purchase(session: string, tokens: nat)

  /** `months` maps a period to the allowance spent in it. */
  datatype Ledger = Ledger(months: map<nat, nat>, paid: int, days: seq<DayRow>, purchases: seq<Purchase>)

  const EmptyLedger := Ledger(map[], 0, [], [])

  /** One metered run: its tokens, who spent them and when, and the allowance in force. */
  datatype Usage = Usage(tokens: int, agent: Option<string>, period: nat, day: nat, limit: Option<nat>)

  datatype Entry = Used(u: Usage) | Credited(p: Purchase)

  function UsedIn(l: Ledger, period: nat): nat {
    if period in l.months then l.months[period] else 0
  }

  /** The part of a run the monthly allowance pays. */
  function FreePart(l: Ledger, u: Usage): nat {
    if u.tokens <= 0 then 0
    else if u.limit.None? then u.tokens
    else Min(u.tokens, Max(0, u.limit.value - UsedIn(l, u.period)))
  }

  /** The rest of the run. */
  function PaidPart(l: Ledger, u: Usage): nat {
    Max(0, u.tokens) - FreePart(l, u)
  }

  /** What the run takes from the purchased balance, which never goes below zero. */
  function DrawnPart(l: Ledger, u: Usage): int {
    Min(PaidPart(l, u), l.paid)
  }

  predicate IsRowOf(r: DayRow, u: Usage) {
    r.agent == u.agent && r.day == u.day
  }

  /** The daily rows with the run added to its row. */
  function Reported(days: seq<DayRow>, u: Usage): seq<DayRow>
    requires u.tokens > 0
  {
    if days == [] then [DayRow(u.agent, u.day, u.tokens)]
    else if IsRowOf(days[0], u) then [days[0].(tokens := days[0].tokens + u.tokens)] + days[1..]
    else [days[0]] + Reported(days[1..], u)
  }

  function Recorded(l: Ledger, u: Usage): Ledger {
    if u.tokens <= 0 then l
    else l.(
      months := if FreePart(l, u) > 0 then l.months[u.period := UsedIn(l, u.period) + FreePart(l, u)] else l.months,
      paid := if PaidPart(l, u) > 0 then Max(0, l.paid - PaidPart(l, u)) else l.paid,
      days := Reported(l.days, u))
  }

  predicate HasPurchase(ps: seq<Purchase>, session: string) {
    exists p :: p in ps && p.session == session
  }

  function Bought(l: Ledger, p: Purchase): Ledger {
    if HasPurchase(l.purchases, p.session) then l
    else l.(purchases := l.purchases + [p], paid := l.paid + p.tokens)
  }

  function Booked(l: Ledger, e: Entry): Ledger {
    match e
    case Used(u) => Recorded(l, u)
    case Credited(p) => Bought(l, p)
  }

  /** The ledger after a whole history. */
  function LedgerOf(h: seq<Entry>): Ledger {
    if h == [] then EmptyLedger else Booked(LedgerOf(h[..|h| - 1]), h[|h| - 1])
  }

  // ---------------------------------------------------------------- reference totals

  function SumDays(days: seq<DayRow>): nat {
    if days == [] then 0 else days[0].tokens + SumDays(days[1..])
  }

  /** All tokens of the runs with a positive count. */
  function TotalRecorded(h: seq<Entry>): nat {
    if h == [] then 0
    else TotalRecorded(h[..|h| - 1]) + if h[|h| - 1].Used? then Max(0, h[|h| - 1].u.tokens) else 0
  }

  /** The tokens recorded for one agent on one day. */
  function RecordedFor(h: seq<Entry>, agent: Option<string>, day: nat): nat {
    if h == [] then 0
    else
      var e := h[|h| - 1];
      RecordedFor(h[..|h| - 1], agent, day)
      + if e.Used? && e.u.agent == agent && e.u.day == day then Max(0, e.u.tokens) else 0
  }

  function FreeIn(h: seq<Entry>, period: nat): nat {
    if h == [] then 0
    else
      var e := h[|h| - 1];
      FreeIn(h[..|h| - 1], period)
      + if e.Used? && e.u.period == period then FreePart(LedgerOf(h[..|h| - 1]), e.u) else 0
  }

  function TotalDrawn(h: seq<Entry>): int {
    if h == [] then 0
    else
      var e := h[|h| - 1];
      TotalDrawn(h[..|h| - 1]) + if e.Used? then DrawnPart(LedgerOf(h[..|h| - 1]), e.u) else 0
  }

  /** Some earlier entry credits the same checkout session. */
  predicate Replays(h: seq<Entry>, session: string) {
    exists i | 0 <= i < |h| :: h[i].Credited? && h[i].p.session == session
  }

  /** The credits of distinct checkout sessions, each at its first delivery. */
  function DistinctCredits(h: seq<Entry>): nat {
    if h == [] then 0
    else
      var e := h[|h| - 1];
      DistinctCredits(h[..|h| - 1])
      + if e.Credited? && !Replays(h[..|h| - 1], e.p.session) then e.p.tokens else 0
  }

  // ---------------------------------------------------------------- one run

  /**
   * A run splits exactly; its free part never pushes the month past the
   * allowance in force; and the purchased balance is touched only once that
   * allowance is fully spent.
   */
  lemma RunSplits(l: Ledger, u: Usage)
    requires l.paid >= 0
    ensures var l' := Recorded(l, u);
      && FreePart(l, u) + PaidPart(l, u) == Max(0, u.tokens)
      && (forall p :: UsedIn(l', p) == UsedIn(l, p) + if p == u.period then FreePart(l, u) else 0)
      && (FreePart(l, u) > 0 && u.limit.Some? ==> UsedIn(l', u.period) <= u.limit.value)
      && (PaidPart(l, u) > 0 ==> u.limit.Some? && UsedIn(l', u.period) >= u.limit.value)
      && l'.paid == l.paid - DrawnPart(l, u)
      && 0 <= DrawnPart(l, u) <= PaidPart(l, u) && l'.paid >= 0
      && (l'.paid > 0 ==> DrawnPart(l, u) == PaidPart(l, u))
  {
  }

  lemma {:induction false} ReportedAdds(days: seq<DayRow>, u: Usage)
    requires u.tokens > 0 && Distinct(days, RowKey)
    ensures SumDays(Reported(days, u)) == SumDays(days) + u.tokens
    ensures Distinct(Reported(days, u), RowKey)
    ensures forall k ::
      TokensAt(Reported(days, u), k) == TokensAt(days, k) + if k == (u.agent, u.day) then u.tokens else 0
    ensures forall r | r in Reported(days, u) ::
      RowKey(r) == (u.agent, u.day) || exists x :: x in days && RowKey(x) == RowKey(r)
  {
    if days != [] {
      DistinctTail(days);
      if IsRowOf(days[0], u) {
        SameKeysDistinct(days, Reported(days, u));
      } else {
        ReportedAdds(days[1..], u);
        DistinctCons(days[0], Reported(days[1..], u));
      }
    }
  }

  function RowKey(r: DayRow): (Option<string>, nat) {
    (r.agent, r.day)
  }

  /** The count on the row of a key. */
  function TokensAt(days: seq<DayRow>, k: (Option<string>, nat)): nat {
    if days == [] then 0
    else if RowKey(days[0]) == k then days[0].tokens
    else TokensAt(days[1..], k)
  }

  lemma DistinctTail(days: seq<DayRow>)
    requires days != [] && Distinct(days, RowKey)
    ensures Distinct(days[1..], RowKey) && forall x | x in days[1..] :: RowKey(x) != RowKey(days[0])
  {
    forall i, j | 0 <= i < j < |days[1..]| ensures RowKey(days[1..][i]) != RowKey(days[1..][j]) {
      assert RowKey(days[i + 1]) != RowKey(days[j + 1]);
    }
    forall x | x in days[1..] ensures RowKey(x) != RowKey(days[0]) {
      var i :| 0 <= i < |days[1..]| && days[1..][i] == x;
      assert RowKey(days[0]) != RowKey(days[i + 1]);
    }
  }

  lemma DistinctCons(r: DayRow, rest: seq<DayRow>)
    requires Distinct(rest, RowKey) && forall x | x in rest :: RowKey(x) != RowKey(r)
    ensures Distinct([r] + rest, RowKey)
  {
  }

  lemma SameKeysDistinct(a: seq<DayRow>, b: seq<DayRow>)
    requires Distinct(a, RowKey) && |a| == |b| && forall i | 0 <= i < |a| :: RowKey(a[i]) == RowKey(b[i])
    ensures Distinct(b, RowKey)
  {
    forall i, j | 0 <= i < j < |b| ensures RowKey(b[i]) != RowKey(b[j]) {
      assert RowKey(a[i]) != RowKey(a[j]);
    }
  }

  // ---------------------------------------------------------------- whole histories

  lemma {:induction false} PurchasesAreFirstCredits(h: seq<Entry>)
    ensures forall s :: HasPurchase(LedgerOf(h).purchases, s) <==> Replays(h, s)
  {
    if h != [] {
      var front, e := h[..|h| - 1], h[|h| - 1];
      PurchasesAreFirstCredits(front);
      forall s ensures HasPurchase(LedgerOf(h).purchases, s) <==> Replays(h, s) {
        assert Replays(h, s) <==> Replays(front, s) || (e.Credited? && e.p.session == s) by {
          if Replays(front, s) {
            var i :| 0 <= i < |front| && front[i].Credited? && front[i].p.session == s;
            assert h[i] == front[i];
          }
        }
        if e.Credited? && !HasPurchase(LedgerOf(front).purchases, e.p.session) {
          var ps := LedgerOf(front).purchases;
          assert e.p in ps + [e.p];
          assert forall p | p in ps :: p in ps + [e.p];
        }
      }
    }
  }

  /** The reporting rows hold every token recorded, one row per agent and day. */
  lemma {:induction false} DaysConserve(h: seq<Entry>)
    ensures var days := LedgerOf(h).days;
      && SumDays(days) == TotalRecorded(h)
      && Distinct(days, RowKey)
      && (forall agent, day :: TokensAt(days, (agent, day)) == RecordedFor(h, agent, day))
  {
    hide Distinct, Reported;
    if h != [] {
      var front, e := h[..|h| - 1], h[|h| - 1];
      DaysConserve(front);
      if e.Used? && e.u.tokens > 0 { ReportedAdds(LedgerOf(front).days, e.u); }
    } else {
      NoRowsDistinct();
    }
  }

  lemma NoRowsDistinct()
    ensures Distinct<DayRow, (Option<string>, nat)>([], RowKey)
  {
  }

  /** The months hold the free parts, and the balance the credits less what was drawn. */
  lemma {:induction false} BucketsConserve(h: seq<Entry>)
    ensures var l := LedgerOf(h);
      && (forall p :: UsedIn(l, p) == FreeIn(h, p))
      && l.paid == DistinctCredits(h) - TotalDrawn(h)
      && l.paid >= 0
  {
    if h != [] {
      var front, e := h[..|h| - 1], h[|h| - 1];
      BucketsConserve(front);
      if e.Used? {
        RunSplits(LedgerOf(front), e.u);
        hide Recorded;
      } else {
        PurchasesAreFirstCredits(front);
      }
    }
  }

  /** Nothing is lost or doubled over any sequential history of runs and purchases. */
  lemma LedgerConserves(h: seq<Entry>)
    ensures var l := LedgerOf(h);
      && SumDays(l.days) == TotalRecorded(h)
      && Distinct(l.days, RowKey)
      && (forall agent, day :: TokensAt(l.days, (agent, day)) == RecordedFor(h, agent, day))
      && (forall p :: UsedIn(l, p) == FreeIn(h, p))
      && l.paid == DistinctCredits(h) - TotalDrawn(h)
      && l.paid >= 0
  {
    DaysConserve(h);
    BucketsConserve(h);
  }

  /** A redelivered checkout session changes nothing. */
  lemma ReplayedPurchaseIsIgnored(h: seq<Entry>, p: Purchase)
    requires Replays(h, p.session)
    ensures LedgerOf(h + [Credited(p)]) == LedgerOf(h)
  {
    PurchasesAreFirstCredits(h);
    assert (h + [Credited(p)])[..|h|] == h;
  }

  // ---------------------------------------------------------------- the service

  class Meter {
    var months: map<nat, nat>
    var paid: int
    var days: seq<DayRow>
    var purchases: seq<Purchase>

    ghost function View(): Ledger
      reads this
    {
      Ledger(months, paid, days, purchases)
    }

    constructor ()
      ensures View() == EmptyLedger
    {
      months, paid, days, purchases := map[], 0, [], [];
    }

    /** Finds the (agent, day) row and increments it, or creates it. */
    method Report(u: Usage)
      requires u.tokens > 0
      modifies this`days
      ensures days == Reported(old(days), u)
    {
      var i := 0;
      while i < |days| && !IsRowOf(days[i], u)
        invariant i <= |days| && days == old(days)
        invariant Reported(days, u) == days[..i] + Reported(days[i..], u)
      {
        assert days[i..][1..] == days[i + 1..];
        assert days[..i] + [days[i]] == days[..i + 1];
        i := i + 1;
      }
      if i < |days| {
        assert days[i..][1..] == days[i + 1..];
        days := days[i := days[i].(tokens := days[i].tokens + u.tokens)];
        assert days == old(days)[..i] + [days[i]] + old(days)[i + 1..];
      } else {
        days := days + [DayRow(u.agent, u.day, u.tokens)];
      }
    }

    method RecordAiTokens(u: Usage)
      requires paid >= 0
      modifies this
      ensures View() == Recorded(old(View()), u)
    {
      if u.tokens <= 0 { return; }
      var used := if u.period in months then months[u.period] else 0;
      var freeLeft := if u.limit.None? then u.tokens else Max(0, u.limit.value - used);
      var fromFree := Min(u.tokens, freeLeft);
      var fromPaid := u.tokens - fromFree;
      if fromFree > 0 {
        months := months[u.period := used + fromFree];
      }
      if fromPaid > 0 {
        paid := paid - fromPaid;
        if paid < 0 { paid := 0; }
      }
      Report(u);
    }

    method CreditAiTokens(p: Purchase) returns (credited: bool)
      modifies this
      ensures View() == Bought(old(View()), p)
      ensures credited == !HasPurchase(old(purchases), p.session)
    {
      if exists x :: x in purchases && x.session == p.session { return false; }
      purchases := purchases + [p];
      paid := paid + p.tokens;
      return true;
    }
  }
}
