/**
 * What an import makes of its cells and rows, in terms of the characters and
 * of the rows before: numbers, blanks, skips, new contacts and changed ones.
 */
module ContactsMeaning {
  import opened Prelude
  import opened ContactsImport
  import opened ContactsChunking

  // ---------------------------------------------------------------- numbers

  predicate IsDigit(c: char) {
    '0' <= c <= '9'
  }

  lemma {:induction false} DigitsOfBoth(a: string, b: string)
    ensures Digits(a + b) == Digits(a) + Digits(b)
  {
    if a == "" {
      assert a + b == b;
    } else {
      assert (a + b)[1..] == a[1..] + b;
      DigitsOfBoth(a[1..], b);
    }
  }

  lemma {:induction false} DigitsOfDigits(s: string)
    requires forall c | c in s :: IsDigit(c)
    ensures Digits(s) == s
  {
    if s != "" {
      assert s[0] in s && forall c | c in s[1..] :: c in s;
      DigitsOfDigits(s[1..]);
    }
  }

  /** A number of 5 to 20 digits is itself. */
  lemma PlainNumberIsItself(s: string)
    requires 5 <= |s| <= 20 && forall c | c in s :: IsDigit(c)
    ensures Normalize(s) == Some(s)
  {
    DigitsOfDigits(s);
  }

  /** Any other character, at any place, changes nothing. */
  lemma OtherCharactersDoNotCount(a: string, c: char, b: string)
    requires !IsDigit(c)
    ensures Normalize(a + [c] + b) == Normalize(a + b)
  {
    DigitsOfBoth(a + [c], b);
    DigitsOfBoth(a, [c]);
    DigitsOfBoth(a, b);
    assert [c][1..] == "" && Digits([c]) == "" && Digits(a) + "" == Digits(a);
    assert Digits(a + [c] + b) == Digits(a + b);
  }

  /** The places of a cell that hold a digit. */
  function DigitPlaces(s: string): set<nat> {
    set i: nat | i < |s| && IsDigit(s[i])
  }

  lemma {:induction false} DigitsCounted(s: string)
    ensures |Digits(s)| == |DigitPlaces(s)|
    ensures forall c | c in Digits(s) :: IsDigit(c)
  {
    if s != "" {
      var n := |s| - 1;
      var front, last := s[..n], s[n..];
      assert s == front + last && last[1..] == "";
      DigitsOfBoth(front, last);
      DigitsCounted(front);
      assert DigitPlaces(s) == DigitPlaces(front) + if IsDigit(s[n]) then {n} else {};
    }
  }

  /** A cell has a number exactly when 5 to 20 of its characters are digits, and the number is digits only. */
  lemma NumbersHaveFiveToTwentyDigits(s: string)
    ensures Normalize(s).Some? <==> 5 <= |DigitPlaces(s)| <= 20
    ensures Normalize(s).Some? ==>
      |Normalize(s).value| == |DigitPlaces(s)| && forall c | c in Normalize(s).value :: IsDigit(c)
  {
    DigitsCounted(s);
  }

  // ---------------------------------------------------------------- blanks

  lemma {:induction false} TrimLeftOf(pad: string, s: string)
    requires forall c | c in pad :: IsSpace(c)
    requires s == "" || !IsSpace(s[0])
    ensures TrimLeft(pad + s) == s
  {
    if pad == "" {
      assert pad + s == s;
    } else {
      assert pad[0] in pad && (pad + s)[1..] == pad[1..] + s && forall c | c in pad[1..] :: c in pad;
      TrimLeftOf(pad[1..], s);
    }
  }

  lemma {:induction false} TrimRightOf(s: string, pad: string)
    requires forall c | c in pad :: IsSpace(c)
    requires s == "" || !IsSpace(s[|s| - 1])
    ensures TrimRight(s + pad) == s
  {
    if pad == "" {
      assert s + pad == s;
    } else {
      var n := |pad| - 1;
      assert pad[n] in pad && (s + pad)[..|s + pad| - 1] == s + pad[..n] && forall c | c in pad[..n] :: c in pad;
      TrimRightOf(s, pad[..n]);
    }
  }

  /** A cell is what is left between its blanks, and nothing when it is all blanks or not there. */
  lemma CleanMeans(before: string, s: string, after: string)
    requires forall c | c in before + after :: IsSpace(c)
    requires s == "" || (!IsSpace(s[0]) && !IsSpace(s[|s| - 1]))
    ensures Clean(Some(before + s + after)) == if s == "" then None else Some(s)
    ensures Clean(None).None?
  {
    assert forall c | c in before :: c in before + after;
    assert forall c | c in after :: c in before + after;
    if s == "" {
      assert before + s + after == before + after + "";
      TrimLeftOf(before + after, "");
    } else {
      assert before + s + after == before + (s + after);
      TrimLeftOf(before, s + after);
      TrimRightOf(s, after);
    }
  }

  /** The blanks are the white space and line ends of the language, listed. */
  lemma BlanksMean(c: char)
    ensures IsSpace(c) <==>
      || c in " \t\n\r\U{000B}\U{000C}\U{00A0}\U{1680}\U{2028}\U{2029}\U{202F}\U{205F}\U{3000}\U{FEFF}"
      || c in "\U{2000}\U{2001}\U{2002}\U{2003}\U{2004}\U{2005}\U{2006}\U{2007}\U{2008}\U{2009}\U{200A}"
  {
  }

  // ---------------------------------------------------------------- rows

  /** The row has a number and no earlier row has the same. */
  predicate FirstOfNumber(rows: seq<Row>, i: nat)
    requires i < |rows|
  {
    Normalize(rows[i].phone).Some? && forall j | 0 <= j < i :: Normalize(rows[j].phone) != Normalize(rows[i].phone)
  }

  predicate AgentKnown(row: Row, known: set<string>) {
    Clean(row.agent).Some? ==> Clean(row.agent).value in known
  }

  /** Why a row is skipped, if it is. */
  predicate SkippedFor(rows: seq<Row>, i: nat, known: set<string>, reason: Reason)
    requires i < |rows|
  {
    match reason
    case InvalidPhone => Normalize(rows[i].phone).None?
    case DuplicateInBatch => Normalize(rows[i].phone).Some? && !FirstOfNumber(rows, i)
    case UnknownAgent => FirstOfNumber(rows, i) && !AgentKnown(rows[i], known)
  }

  predicate Counted(rows: seq<Row>, i: nat, known: set<string>)
    requires i < |rows|
  {
    FirstOfNumber(rows, i) && AgentKnown(rows[i], known)
  }

  /** The contact a row describes on top of the one known, whose name stays when the row has none. */
  function Described(row: Row, current: Contact): Contact {
    Contact(current.phone, if Clean(row.name).Some? then Clean(row.name) else current.name, Clean(row.agent))
  }

  lemma PatchMeans(row: Row, c: Contact)
    ensures var p := PatchFor(c, Clean(row.name), Clean(row.agent));
      Patched(c, p) == Described(row, c) && (p == Patch(None, None) <==> Described(row, c) == c)
  {
  }

  lemma SeenMeans(rows: seq<Row>, n: nat)
    requires n < |rows| && Normalize(rows[n].phone).Some?
    ensures Normalize(rows[n].phone).value !in SeenPhones(rows[..n]) <==> FirstOfNumber(rows, n)
  {
    if FirstOfNumber(rows, n) {
      forall r | r in rows[..n] ensures Normalize(r.phone) != Normalize(rows[n].phone) {
        var j :| 0 <= j < n && rows[j] == r;
      }
    } else {
      var j :| 0 <= j < n && Normalize(rows[j].phone) == Normalize(rows[n].phone);
      assert rows[..n][j] == rows[j] && rows[j] in rows[..n];
    }
  }

  /** What the next row adds to a plan. */
  lemma RowMeans(rows: seq<Row>, n: nat, existing: seq<Existing>, known: set<string>)
    requires n < |rows|
    ensures var p, q := PlanRows(rows[..n], existing, known), PlanRows(rows[..n + 1], existing, known);
      && (forall reason | SkippedFor(rows, n, known, reason) :: q == p.(skipped := p.skipped + [Skip(n, reason)]))
      && (Counted(rows, n, known) ==>
            var phone := Normalize(rows[n].phone).value;
            var current := Find(existing, phone);
            && (current.None? ==>
                  q == p.(creates := p.creates + [Contact(Some(phone), Clean(rows[n].name), Clean(rows[n].agent))]))
            && (current.Some? && Described(rows[n], current.value.contact) == current.value.contact ==>
                  q == p.(same := p.same + 1))
            && (current.Some? && Described(rows[n], current.value.contact) != current.value.contact ==>
                  && q.updates != [] && q == p.(updates := p.updates + [q.updates[|q.updates| - 1]])
                  && q.updates[|q.updates| - 1].id == current.value.id
                  && Patched(current.value.contact, q.updates[|q.updates| - 1].patch)
                     == Described(rows[n], current.value.contact)))
  {
    assert rows[..n + 1][..n] == rows[..n] && rows[..n + 1][n] == rows[n];
    if Normalize(rows[n].phone).Some? {
      SeenMeans(rows, n);
      var current := Find(existing, Normalize(rows[n].phone).value);
      if current.Some? { PatchMeans(rows[n], current.value.contact); }
    }
    hide Find, Normalize, Clean, SeenPhones, FirstOfNumber, PatchFor, Patched, Described;
  }

  /** A row is skipped for a reason exactly when that reason is its own. */
  lemma {:induction false} SkipsOfPrefix(
      rows: seq<Row>, n: nat, existing: seq<Existing>, known: set<string>, i: nat, reason: Reason)
    requires n <= |rows|
    ensures Skip(i, reason) in PlanRows(rows[..n], existing, known).skipped
      <==> i < n && SkippedFor(rows, i, known, reason)
  {
    if n > 0 {
      SkipsOfPrefix(rows, n - 1, existing, known, i, reason);
      RowMeans(rows, n - 1, existing, known);
      WhyOnlyOne(rows, n - 1, known);
      hide PlanRows, SkippedFor, Counted, Described, Patched, Find, Normalize, Clean;
    }
  }

  /** Every row is counted or skipped, for one reason. */
  lemma WhyOnlyOne(rows: seq<Row>, i: nat, known: set<string>)
    requires i < |rows|
    ensures Counted(rows, i, known) <==> forall reason :: !SkippedFor(rows, i, known, reason)
    ensures forall r1, r2 | SkippedFor(rows, i, known, r1) && SkippedFor(rows, i, known, r2) :: r1 == r2
    ensures SkippedFor(rows, i, known, InvalidPhone) || SkippedFor(rows, i, known, DuplicateInBatch)
      || SkippedFor(rows, i, known, UnknownAgent) || Counted(rows, i, known)
  {
    FirstHasNumber(rows, i);
    hide Normalize, AgentKnown, FirstOfNumber;
    if !Counted(rows, i, known) {
      assert SkippedFor(rows, i, known, InvalidPhone) || SkippedFor(rows, i, known, DuplicateInBatch)
        || SkippedFor(rows, i, known, UnknownAgent);
    }
  }

  lemma FirstHasNumber(rows: seq<Row>, i: nat)
    requires i < |rows|
    ensures FirstOfNumber(rows, i) ==> Normalize(rows[i].phone).Some?
  {
  }

  /** The row is counted and its number is of no known contact. */
  predicate CreatesFrom(rows: seq<Row>, i: nat, existing: seq<Existing>, known: set<string>, c: Contact)
    requires i < |rows|
  {
    && Counted(rows, i, known) && Normalize(rows[i].phone).Some?
    && Find(existing, Normalize(rows[i].phone).value).None?
    && c == Contact(Normalize(rows[i].phone), Clean(rows[i].name), Clean(rows[i].agent))
  }

  /** The row is counted, its number is of the contact `u.id`, and the update makes it what the row describes. */
  predicate ChangesFrom(rows: seq<Row>, i: nat, existing: seq<Existing>, known: set<string>, u: Change)
    requires i < |rows|
  {
    && Counted(rows, i, known) && Normalize(rows[i].phone).Some?
    && var current := Find(existing, Normalize(rows[i].phone).value);
    && current.Some? && u.id == current.value.id
    && Described(rows[i], current.value.contact) != current.value.contact
    && Patched(current.value.contact, u.patch) == Described(rows[i], current.value.contact)
  }

  lemma {:induction false} CreatesOfPrefix(
      rows: seq<Row>, n: nat, existing: seq<Existing>, known: set<string>, c: Contact)
    requires n <= |rows|
    ensures c in PlanRows(rows[..n], existing, known).creates
      <==> exists i :: 0 <= i < n && CreatesFrom(rows, i, existing, known, c)
  {
    if n > 0 {
      CreatesOfPrefix(rows, n - 1, existing, known, c);
      RowMeans(rows, n - 1, existing, known);
      WhyOnlyOne(rows, n - 1, known);
      FirstHasNumber(rows, n - 1);
      assert CreatesFrom(rows, n - 1, existing, known, c) <==>
        && c in PlanRows(rows[..n], existing, known).creates
        && PlanRows(rows[..n], existing, known).creates != PlanRows(rows[..n - 1], existing, known).creates
        && c == PlanRows(rows[..n], existing, known).creates[|PlanRows(rows[..n - 1], existing, known).creates|];
      hide PlanRows, SkippedFor, Described, Patched, Find, Normalize, Clean, CreatesFrom, Counted;
    }
  }

  /** Every update makes of a contact what some row describes. */
  lemma {:induction false} ChangesOfPrefix(
      rows: seq<Row>, n: nat, existing: seq<Existing>, known: set<string>, u: Change)
    requires n <= |rows| && u in PlanRows(rows[..n], existing, known).updates
    ensures exists i :: 0 <= i < n && ChangesFrom(rows, i, existing, known, u)
  {
    var p := PlanRows(rows[..n - 1], existing, known);
    if u in p.updates {
      ChangesOfPrefix(rows, n - 1, existing, known, u);
    } else {
      RowMeans(rows, n - 1, existing, known);
      WhyOnlyOne(rows, n - 1, known);
      FirstHasNumber(rows, n - 1);
      hide PlanRows, SkippedFor, Described, Patched, Find, Normalize, Clean;
      assert ChangesFrom(rows, n - 1, existing, known, u);
    }
  }

  lemma {:induction false} ChangedRowsChange(
      rows: seq<Row>, n: nat, existing: seq<Existing>, known: set<string>, i: nat, current: Existing)
    requires i < n <= |rows| && Counted(rows, i, known) && Normalize(rows[i].phone).Some?
    requires Find(existing, Normalize(rows[i].phone).value) == Some(current)
    requires Described(rows[i], current.contact) != current.contact
    ensures exists u :: u in PlanRows(rows[..n], existing, known).updates
                        && u.id == current.id
                        && Patched(current.contact, u.patch) == Described(rows[i], current.contact)
  {
    var p, q := PlanRows(rows[..n - 1], existing, known), PlanRows(rows[..n], existing, known);
    RowMeans(rows, n - 1, existing, known);
    WhyOnlyOne(rows, n - 1, known);
    hide PlanRows, SkippedFor, Described, Patched, Find, Normalize, Clean, Counted;
    if i < n - 1 {
      ChangedRowsChange(rows, n - 1, existing, known, i, current);
      var u :| u in p.updates && u.id == current.id
               && Patched(current.contact, u.patch) == Described(rows[i], current.contact);
      assert u in q.updates;
    } else {
      assert q.updates[|q.updates| - 1] in q.updates;
    }
  }

  lemma {:induction false} UpdatedAt(book: Book, changes: seq<Change>, u: Change)
    requires Distinct(changes, IdOfChange) && u in changes && u.id < |book|
    ensures Updated(book, changes)[u.id] == Patched(book[u.id], u.patch)
  {
    var k := |changes| - 1;
    var front, last := changes[..k], changes[k];
    assert changes == front + [last];
    DistinctSnoc(front, last, IdOfChange);
    if u in front {
      UpdatedAt(book, front, u);
      assert IdOfChange(u) != IdOfChange(last);
    } else {
      UpdatedElsewhere(book, front, u.id);
    }
  }

  /** A contact the book holds becomes what the counted row of its number describes, and no other is touched. */
  lemma KnownContactsFollowRows(book: Book, rows: seq<Row>, known: set<string>, j: nat)
    requires UniquePhones(book) && j < |book|
    ensures var after := Applied(book, PlanRows(rows, Whole(book), known))[j];
      && (forall i | 0 <= i < |rows| && Counted(rows, i, known) && Normalize(rows[i].phone) == book[j].phone ::
            after == Described(rows[i], book[j]))
      && ((forall i | 0 <= i < |rows| && Counted(rows, i, known) :: Normalize(rows[i].phone) != book[j].phone)
            ==> after == book[j])
  {
    var existing := Whole(book);
    var p := PlanRows(rows, existing, known);
    assert rows[..|rows|] == rows;
    PlanNeverDoubles(rows, book, known);
    hide PlanRows, Counted, Described, Patched, Whole, Normalize, UniquePhones, Distinct, Updated;
    if u :| u in p.updates && u.id == j {
      ChangesOfPrefix(rows, |rows|, existing, known, u);
      var i :| 0 <= i < |rows| && ChangesFrom(rows, i, existing, known, u);
      ChangeIsOfTheNumber(book, rows, i, known, u);
      OneRowPerNumber(rows, i, known);
      UpdatedAt(book, p.updates, u);
    } else {
      UpdatedElsewhere(book, p.updates, j);
      forall i | 0 <= i < |rows| && Counted(rows, i, known) && Normalize(rows[i].phone) == book[j].phone
        ensures Described(rows[i], book[j]) == book[j]
      {
        CountedHasNumber(rows, i, known);
        var phone := Normalize(rows[i].phone).value;
        WholeHoldsAll(book, phone);
        UniqueInBook(book, j, phone);
        if Described(rows[i], book[j]) != book[j] {
          ChangedRowsChange(rows, |rows|, existing, known, i, Existing(j, book[j]));
        }
      }
    }
  }

  lemma CountedHasNumber(rows: seq<Row>, i: nat, known: set<string>)
    requires i < |rows| && Counted(rows, i, known)
    ensures Normalize(rows[i].phone).Some?
  {
  }

  lemma OneRowPerNumber(rows: seq<Row>, i: nat, known: set<string>)
    requires i < |rows| && Counted(rows, i, known)
    ensures forall k |
      0 <= k < |rows| && Counted(rows, k, known) && Normalize(rows[k].phone) == Normalize(rows[i].phone) :: k == i
  {
    hide Normalize, Clean;
  }

  lemma ChangeIsOfTheNumber(book: Book, rows: seq<Row>, i: nat, known: set<string>, u: Change)
    requires i < |rows| && ChangesFrom(rows, i, Whole(book), known, u) && u.id < |book|
    ensures Normalize(rows[i].phone) == book[u.id].phone
    ensures Patched(book[u.id], u.patch) == Described(rows[i], book[u.id])
  {
    WholeHoldsAll(book, Normalize(rows[i].phone).value);
  }

  /** The contacts added are those the counted rows of unknown numbers describe. */
  lemma NewContactsFollowRows(book: Book, rows: seq<Row>, known: set<string>, c: Contact)
    ensures var after := Applied(book, PlanRows(rows, Whole(book), known));
      |after| >= |book| &&
      (c in after[|book|..] <==>
        exists i :: 0 <= i < |rows| && Counted(rows, i, known)
          && (forall j | 0 <= j < |book| :: book[j].phone != Normalize(rows[i].phone))
          && c == Contact(Normalize(rows[i].phone), Clean(rows[i].name), Clean(rows[i].agent)))
  {
    var p := PlanRows(rows, Whole(book), known);
    assert rows[..|rows|] == rows && Applied(book, p)[|book|..] == p.creates;
    CreatesOfPrefix(rows, |rows|, Whole(book), known, c);
    forall i | 0 <= i < |rows|
      ensures CreatesFrom(rows, i, Whole(book), known, c) <==>
        && Counted(rows, i, known) && (forall j | 0 <= j < |book| :: book[j].phone != Normalize(rows[i].phone))
        && c == Contact(Normalize(rows[i].phone), Clean(rows[i].name), Clean(rows[i].agent))
    {
      if Counted(rows, i, known) {
        CountedHasNumber(rows, i, known);
        WholeHoldsAll(book, Normalize(rows[i].phone).value);
      }
    }
    hide PlanRows, Counted, Whole, Normalize, Clean, CreatesFrom;
  }

  /** An agent is found when some row posts its id as it is stored. */
  lemma KnownMeans(rows: seq<Row>, agents: set<string>, id: string)
    ensures id in KnownAgents(rows, agents)
      <==> id in agents && exists r :: r in rows && r.agent == Some(id) && Clean(r.agent).Some?
  {
  }

  /**
   * A batch is refused exactly when it adds contacts past 5000; otherwise the
   * book is that of its plan over the whole book, and a row is skipped exactly
   * for a reason of its own.
   */
  lemma ImportMeans(book: Book, rows: seq<Row>, agents: set<string>)
    ensures var r, known := Import(book, rows, agents), KnownAgents(rows, agents);
      var plan := PlanRows(rows, Whole(book), known);
      && (r.OverCap? <==> plan.creates != [] && |book| + |plan.creates| > 5000)
      && (r.Imported? ==> r.plan == plan && r.book == Applied(book, plan) && |r.book| == |book| + |plan.creates|)
      && (forall i: nat, reason ::
            Skip(i, reason) in plan.skipped <==> i < |rows| && SkippedFor(rows, i, known, reason))
  {
    var known := KnownAgents(rows, agents);
    FetchedPlanIsWholePlan(book, rows, known);
    forall i: nat, reason
      ensures Skip(i, reason) in PlanRows(rows, Whole(book), known).skipped
        <==> i < |rows| && SkippedFor(rows, i, known, reason)
    {
      assert rows[..|rows|] == rows;
      SkipsOfPrefix(rows, |rows|, Whole(book), known, i, reason);
    }
    hide PlanRows, SkippedFor, Whole, KnownAgents, Fetch, AskedPhones;
  }
}
