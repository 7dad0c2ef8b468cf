/** Daily activity for the admin chart: a zero-filled window of UTC days. */
module Timeseries {
  import opened Prelude

  const DAY_MS := 86_400_000
  const DEFAULT_DAYS := 30
  const MIN_DAYS := 7
  const MAX_DAYS := 90

  /** A UTC calendar day is named by its number since the epoch; Dafny's division floors. */
  type Day = int

  datatype MessageRow = MessageRow(day: Day, total: nat, inbound: nat, outbound: nat)

  /** The row's `day` is an instant, not a day number. */
  datatype TokenRow = TokenRow(day: int, tokens: nat)

  datatype Point = Point(day: Day, messages: nat, inbound: nat, outbound: nat, tokens: nat)

  datatype Totals = Totals(messages: nat, inbound: nat, outbound: nat, tokens: nat)

  function DayOf(instant: int): Day {
    instant / DAY_MS
  }

  function StartOfDay(instant: int): int {
    DayOf(instant) * DAY_MS
  }

  /** A requested window, None when it does not parse as a finite number. */
  function ClampDays(raw: Option<int>): (r: nat)
    ensures MIN_DAYS <= r <= MAX_DAYS
    ensures raw.Some? && MIN_DAYS <= raw.value <= MAX_DAYS ==> r == raw.value
    ensures raw.None? || raw.value <= 0 ==> r == DEFAULT_DAYS
    ensures raw.Some? && raw.value > MAX_DAYS ==> r == MAX_DAYS
    ensures raw.Some? && 0 < raw.value < MIN_DAYS ==> r == MIN_DAYS
  {
    if raw.None? || raw.value <= 0 then DEFAULT_DAYS
    else Min(MAX_DAYS, Max(MIN_DAYS, raw.value))
  }

  function WindowStart(days: nat, now: int): int {
    StartOfDay(now) - (days - 1) * DAY_MS
  }

  // ---------------------------------------------------------------- reference sums

  /** Tokens of the rows from day `lo` up to, not including, day `hi`. */
  function TokensIn(rows: seq<TokenRow>, lo: Day, hi: Day): nat {
    if rows == [] then 0
    else
      var r := rows[|rows| - 1];
      TokensIn(rows[..|rows| - 1], lo, hi) + if lo <= DayOf(r.day) < hi then r.tokens else 0
  }

  function TokensOn(rows: seq<TokenRow>, day: Day): nat {
    if rows == [] then 0
    else TokensOn(rows[..|rows| - 1], day) + if DayOf(rows[|rows| - 1].day) == day then rows[|rows| - 1].tokens else 0
  }

  function Plus(a: Totals, b: Totals): Totals {
    Totals(a.messages + b.messages, a.inbound + b.inbound, a.outbound + b.outbound, a.tokens + b.tokens)
  }

  const Zero := Totals(0, 0, 0, 0)

  function Amount(r: MessageRow): Totals {
    Totals(r.total, r.inbound, r.outbound, 0)
  }

  function MessagesIn(rows: seq<MessageRow>, lo: Day, hi: Day): Totals {
    if rows == [] then Zero
    else
      var r := rows[|rows| - 1];
      Plus(MessagesIn(rows[..|rows| - 1], lo, hi), if lo <= r.day < hi then Amount(r) else Zero)
  }

  /** The last row of a day, which is the one a map built in order keeps. */
  function LastOn(rows: seq<MessageRow>, day: Day): Option<MessageRow> {
    if rows == [] then None
    else if rows[|rows| - 1].day == day then Some(rows[|rows| - 1])
    else LastOn(rows[..|rows| - 1], day)
  }

  function PointOn(messages: seq<MessageRow>, tokens: seq<TokenRow>, day: Day): Point {
    var m := LastOn(messages, day);
    if m.Some? then Point(day, m.value.total, m.value.inbound, m.value.outbound, TokensOn(tokens, day))
    else Point(day, 0, 0, 0, TokensOn(tokens, day))
  }

  function TotalsOf(p: Point): Totals {
    Totals(p.messages, p.inbound, p.outbound, p.tokens)
  }

  /** The sum of the `k` points before a day. */
  function Before(messages: seq<MessageRow>, tokens: seq<TokenRow>, until: Day, k: nat): Totals
    decreases k
  {
    if k == 0 then Zero
    else Plus(Before(messages, tokens, until - 1, k - 1), TotalsOf(PointOn(messages, tokens, until - 1)))
  }

  // ---------------------------------------------------------------- the series

  method IndexMessages(messages: seq<MessageRow>) returns (byDay: map<Day, MessageRow>)
    ensures forall d :: LastOn(messages, d) == if d in byDay then Some(byDay[d]) else None
  {
    byDay := map[];
    for i := 0 to |messages|
      invariant forall d :: LastOn(messages[..i], d) == if d in byDay then Some(byDay[d]) else None
    {
      assert messages[..i + 1][..i] == messages[..i];
      byDay := byDay[messages[i].day := messages[i]];
    }
    assert messages[..|messages|] == messages;
  }

  method IndexTokens(tokens: seq<TokenRow>) returns (byDay: map<Day, nat>)
    ensures forall d :: TokensOn(tokens, d) == if d in byDay then byDay[d] else 0
  {
    byDay := map[];
    for i := 0 to |tokens|
      invariant forall d :: TokensOn(tokens[..i], d) == if d in byDay then byDay[d] else 0
    {
      assert tokens[..i + 1][..i] == tokens[..i];
      var k := DayOf(tokens[i].day);
      byDay := byDay[k := (if k in byDay then byDay[k] else 0) + tokens[i].tokens];
    }
    assert tokens[..|tokens|] == tokens;
  }

  /**
   * Exactly `days` consecutive UTC days, today last, each with its own rows'
   * counts; and totals that are the sums of the rows inside the window, given
   * one message row a day and any number of token rows.
   */
  method BuildTimeseries(days: nat, now: int, messages: seq<MessageRow>, tokens: seq<TokenRow>)
    returns (from: int, series: seq<Point>, totals: Totals)
    ensures from % DAY_MS == 0 && DayOf(from) == DayOf(now) - days + 1
    ensures |series| == days
    ensures forall i | 0 <= i < days :: series[i] == PointOn(messages, tokens, DayOf(now) - days + 1 + i)
    ensures totals.tokens == TokensIn(tokens, DayOf(from), DayOf(now) + 1)
    ensures Distinct(messages, DayKey) ==>
      totals.(tokens := 0) == MessagesIn(messages, DayOf(from), DayOf(now) + 1)
  {
    hide MessagesIn, TokensIn, LastOn, TokensOn, Distinct;
    from := WindowStart(days, now);
    var first := DayOf(now) - days + 1;
    assert from == first * DAY_MS;

    var msgByDay := IndexMessages(messages);
    var tokByDay := IndexTokens(tokens);
    series, totals := [], Zero;
    for i := 0 to days
      invariant |series| == i
      invariant forall j | 0 <= j < i :: series[j] == PointOn(messages, tokens, first + j)
      invariant totals == Before(messages, tokens, first + i, i)
    {
      var day := DayOf(from + i * DAY_MS);
      DayOfDays(first, i);
      var t := if day in tokByDay then tokByDay[day] else 0;
      var point := if day in msgByDay
        then Point(day, msgByDay[day].total, msgByDay[day].inbound, msgByDay[day].outbound, t)
        else Point(day, 0, 0, 0, t);
      series := series + [point];
      totals := Plus(totals, TotalsOf(point));
    }
    DayOfDays(first, 0);
    TokensAddUp(messages, tokens, first + days, days);
    if Distinct(messages, DayKey) {
      MessagesAddUp(messages, tokens, first + days, days);
    }
  }

  function DayKey(r: MessageRow): Day {
    r.day
  }

  lemma DayOfDays(first: int, i: int)
    ensures DayOf(first * DAY_MS + i * DAY_MS) == first + i
  {
    assert first * DAY_MS + i * DAY_MS == (first + i) * DAY_MS;
  }

  // ---------------------------------------------------------------- day by day is all at once

  lemma {:induction false} TokensByDay(rows: seq<TokenRow>, lo: Day, hi: Day)
    requires lo <= hi
    ensures TokensIn(rows, lo, hi + 1) == TokensIn(rows, lo, hi) + TokensOn(rows, hi)
    ensures TokensIn(rows, lo, lo) == 0
  {
    if rows != [] { TokensByDay(rows[..|rows| - 1], lo, hi); }
  }

  lemma {:induction false} TokensAddUp(messages: seq<MessageRow>, tokens: seq<TokenRow>, until: Day, k: nat)
    ensures Before(messages, tokens, until, k).tokens == TokensIn(tokens, until - k, until)
    decreases k
  {
    if k == 0 {
      TokensByDay(tokens, until, until);
    } else {
      TokensAddUp(messages, tokens, until - 1, k - 1);
      TokensByDay(tokens, until - k, until - 1);
    }
  }

  lemma {:induction false} LastOnIsARow(rows: seq<MessageRow>, day: Day)
    ensures LastOn(rows, day).Some? <==> exists r :: r in rows && r.day == day
    ensures LastOn(rows, day).Some? ==> LastOn(rows, day).value in rows && LastOn(rows, day).value.day == day
  {
    if rows != [] {
      var front := rows[..|rows| - 1];
      LastOnIsARow(front, day);
      assert rows == front + [rows[|rows| - 1]];
    }
  }

  lemma {:induction false} NoDaysNoMessages(rows: seq<MessageRow>, lo: Day)
    ensures MessagesIn(rows, lo, lo) == Zero
  {
    if rows != [] { NoDaysNoMessages(rows[..|rows| - 1], lo); }
  }

  function AmountOn(rows: seq<MessageRow>, day: Day): Totals {
    var r := LastOn(rows, day);
    if r.Some? then Amount(r.value) else Zero
  }

  lemma {:induction false} MessagesByDay(rows: seq<MessageRow>, lo: Day, hi: Day)
    requires lo <= hi && Distinct(rows, DayKey)
    ensures MessagesIn(rows, lo, hi + 1) == Plus(MessagesIn(rows, lo, hi), AmountOn(rows, hi))
  {
    hide Plus;
    if rows == [] {
      PlusLaws(Zero, Zero, Zero);
    } else {
      var front, r := rows[..|rows| - 1], rows[|rows| - 1];
      assert Distinct(front, DayKey) && LastOn(front, r.day).None? by {
        assert rows == front + [r];
        DistinctSnoc(front, r, DayKey);
        LastOnIsARow(front, r.day);
      }
      MessagesByDay(front, lo, hi);
      MessagesSnoc(front, r, lo, hi);
      assert rows == front + [r];
    }
  }

  /** One more row, the first of its day, adds to both sides alike. */
  lemma MessagesSnoc(front: seq<MessageRow>, r: MessageRow, lo: Day, hi: Day)
    requires lo <= hi && LastOn(front, r.day).None?
    requires MessagesIn(front, lo, hi + 1) == Plus(MessagesIn(front, lo, hi), AmountOn(front, hi))
    ensures MessagesIn(front + [r], lo, hi + 1) == Plus(MessagesIn(front + [r], lo, hi), AmountOn(front + [r], hi))
  {
    hide Plus;
    var rows := front + [r];
    assert rows[..|front|] == front && rows[|front|] == r;
    var a, b, c := MessagesIn(front, lo, hi), AmountOn(front, hi), Amount(r);
    PlusLaws(a, b, c);
    if r.day == hi {
      assert b == Zero;
      assert MessagesIn(rows, lo, hi + 1) == Plus(Plus(a, Zero), c);
      assert MessagesIn(rows, lo, hi) == Plus(a, Zero);
    } else if lo <= r.day < hi {
      assert MessagesIn(rows, lo, hi + 1) == Plus(Plus(a, b), c);
      assert MessagesIn(rows, lo, hi) == Plus(a, c);
    }
  }

  lemma PlusLaws(a: Totals, b: Totals, c: Totals)
    ensures Plus(Plus(a, b), c) == Plus(Plus(a, c), b)
    ensures Plus(a, Zero) == a && Plus(Plus(a, b), Zero) == Plus(a, b)
  {
  }

  lemma WithoutTokens(a: Totals, b: Totals)
    ensures Plus(a, b).(tokens := 0) == Plus(a.(tokens := 0), b.(tokens := 0))
  {
  }

  lemma {:induction false} MessagesAddUp(messages: seq<MessageRow>, tokens: seq<TokenRow>, until: Day, k: nat)
    requires Distinct(messages, DayKey)
    ensures Before(messages, tokens, until, k).(tokens := 0) == MessagesIn(messages, until - k, until)
    decreases k
  {
    hide Plus;
    if k == 0 {
      NoDaysNoMessages(messages, until);
    } else {
      MessagesAddUp(messages, tokens, until - 1, k - 1);
      MessagesByDay(messages, until - k, until - 1);
      var a, day := Before(messages, tokens, until - 1, k - 1), TotalsOf(PointOn(messages, tokens, until - 1));
      assert day.(tokens := 0) == AmountOn(messages, until - 1);
      WithoutTokens(a, day);
    }
  }

  // ---------------------------------------------------------------- days and points, in numbers

  /** A day is 24 hours of milliseconds from a UTC midnight, before the epoch as after it. */
  lemma DayMeans(instant: int, d: Day)
    ensures DayOf(instant) == d <==> 86_400_000 * d <= instant < 86_400_000 * (d + 1)
  {
  }

  /** A window is 7 to 90 days, 30 when none is asked for. */
  lemma WindowMeans(raw: Option<int>)
    ensures ClampDays(raw) ==
      match raw
      case None => 30
      case Some(n) => if n <= 0 then 30 else if n < 7 then 7 else if n > 90 then 90 else n
  {
  }

  /** A point shows its day's message row, or zeros, and the tokens of all the rows of its day. */
  lemma PointMeans(messages: seq<MessageRow>, tokens: seq<TokenRow>, day: Day)
    requires Distinct(messages, DayKey)
    ensures var p := PointOn(messages, tokens, day);
      && p.day == day && p.tokens == TokensIn(tokens, day, day + 1)
      && (forall r | r in messages && r.day == day ::
            p.messages == r.total && p.inbound == r.inbound && p.outbound == r.outbound)
      && ((forall r | r in messages :: r.day != day) ==> p.messages == 0 && p.inbound == 0 && p.outbound == 0)
  {
    LastOnIsARow(messages, day);
    TokensByDay(tokens, day, day);
    forall r, x | r in messages && x in messages && r.day == day && x.day == day ensures r == x {
      var i :| 0 <= i < |messages| && messages[i] == r;
      var j :| 0 <= j < |messages| && messages[j] == x;
      assert i < j ==> DayKey(messages[i]) != DayKey(messages[j]);
      assert j < i ==> DayKey(messages[j]) != DayKey(messages[i]);
    }
  }
}
