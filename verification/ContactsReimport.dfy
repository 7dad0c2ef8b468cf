/**
 * What an import leaves behind: afterwards the book says what the rows say, so
 * importing the same rows again changes nothing.
 */
module ContactsReimport {
  import opened Prelude
  import opened ContactsImport
  import opened ContactsChunking

  /** The row is its number's first in the batch and names no unknown agent. */
  predicate Counts(rows: seq<Row>, k: nat, known: set<string>)
    requires k < |rows|
  {
    && Normalize(rows[k].phone).Some? && Normalize(rows[k].phone).value !in SeenPhones(rows[..k])
    && (Clean(rows[k].agent).Some? ==> Clean(rows[k].agent).value in known)
  }

  /** The book says about the row's number what the row says. */
  ghost predicate Settled(book: Book, row: Row)
    requires Normalize(row.phone).Some?
  {
    var e := InBook(book, Normalize(row.phone).value);
    && e.Some? && e.value.contact.agent == Clean(row.agent)
    && (Clean(row.name).Some? ==> e.value.contact.name == Clean(row.name))
  }

  lemma SettledDependsOnNumber(book: Book, after: Book, row: Row)
    requires Normalize(row.phone).Some?
    requires InBook(book, Normalize(row.phone).value) == InBook(after, Normalize(row.phone).value)
    ensures Settled(book, row) == Settled(after, row)
  {
  }

  /** A counted row of a number new to the book appends one settled contact. */
  lemma CreateSettles(before: Book, row: Row, phone: string)
    requires UniquePhones(before) && Normalize(row.phone) == Some(phone) && InBook(before, phone) == None
    ensures var after := before + [Contact(Some(phone), Clean(row.name), Clean(row.agent))];
      && UniquePhones(after) && Settled(after, row)
      && forall other | other != phone :: InBook(after, other) == InBook(before, other)
  {
    var after := before + [Contact(Some(phone), Clean(row.name), Clean(row.agent))];
    assert UniquePhones(after);
    UniqueInBook(after, |before|, phone);
    OtherNumbersKept(before, after, phone);
  }

  /** A counted row of a known number settles the one contact holding it. */
  lemma UpdateSettles(before: Book, row: Row, i: nat, phone: string)
    requires UniquePhones(before) && Normalize(row.phone) == Some(phone)
    requires i < |before| && before[i].phone == Some(phone)
    ensures var after := before[i := Patched(before[i], PatchFor(before[i], Clean(row.name), Clean(row.agent)))];
      && UniquePhones(after) && Settled(after, row)
      && forall other | other != phone :: InBook(after, other) == InBook(before, other)
  {
    var after := before[i := Patched(before[i], PatchFor(before[i], Clean(row.name), Clean(row.agent)))];
    assert UniquePhones(after);
    UniqueInBook(after, i, phone);
    OtherNumbersKept(before, after, phone);
  }

  /** The book a decided row leads to, from the book of the rows before it. */
  function StepBook(book: Book, before: Book, row: Row, phone: string): Book {
    var e := InBook(book, phone);
    if e.None? then before + [Contact(Some(phone), Clean(row.name), Clean(row.agent))]
    else if e.value.id < |before| then
      before[e.value.id := Patched(before[e.value.id], PatchFor(e.value.contact, Clean(row.name), Clean(row.agent)))]
    else before
  }

  lemma DecidedApplied(book: Book, p: Plan, row: Row, k: nat, phone: string, known: set<string>)
    requires Clean(row.agent).Some? ==> Clean(row.agent).value in known
    requires forall u | u in p.updates :: u.id < |book|
    ensures var q := Decided(p, row, k, phone, InBook(book, phone), known);
      Applied(book, q) == StepBook(book, Applied(book, p), row, phone)
  {
    var e := InBook(book, phone);
    var q := Decided(p, row, k, phone, e, known);
    if e.Some? {
      var patch := PatchFor(e.value.contact, Clean(row.name), Clean(row.agent));
      var b := Updated(book, p.updates);
      if patch == Patch(None, None) {
        assert b[e.value.id := Patched(b[e.value.id], patch)] == b;
      } else {
        assert q.updates[..|p.updates|] == p.updates;
        assert (b + p.creates)[e.value.id := Patched(b[e.value.id], patch)]
            == b[e.value.id := Patched(b[e.value.id], patch)] + p.creates;
      }
    }
  }

  /** The step from the applied front of a batch to the applied batch. */
  lemma AppliedStep(book: Book, rows: seq<Row>, known: set<string>)
    requires UniquePhones(book) && rows != []
    ensures var k := |rows| - 1;
            var before := Applied(book, PlanRows(rows[..k], Whole(book), known));
            var after := Applied(book, PlanRows(rows, Whole(book), known));
      UniquePhones(before) &&
      if Counts(rows, k, known) then
        var phone := Normalize(rows[k].phone).value;
        var e := InBook(book, phone);
        after == StepBook(book, before, rows[k], phone)
        && (e.None? ==> InBook(before, phone) == None)
        && (e.Some? ==> e.value.id < |before| && before[e.value.id] == e.value.contact)
      else after == before
  {
    hide Decided, Updated, Find;
    var k := |rows| - 1;
    var front, row := rows[..k], rows[k];
    var p := PlanRows(front, Whole(book), known);
    PlanNeverDoubles(front, book, known);
    AppliedKeepsBook(book, front, p);
    var phone := Normalize(row.phone);
    if Counts(rows, k, known) {
      WholeHoldsAll(book, phone.value);
      DecidedApplied(book, p, row, k, phone.value, known);
      var e := InBook(book, phone.value);
      if e.Some? { UpdatedElsewhere(book, p.updates, e.value.id); }
    } else if phone.Some? && phone.value !in SeenPhones(front) {
      UnknownAgentSkips(p, row, k, phone.value, Find(Whole(book), phone.value), known);
    }
  }

  lemma UnknownAgentSkips(p: Plan, row: Row, k: nat, phone: string, current: Option<Existing>, known: set<string>)
    requires Clean(row.agent).Some? && Clean(row.agent).value !in known
    ensures Decided(p, row, k, phone, current, known) == p.(skipped := p.skipped + [Skip(k, UnknownAgent)])
  {
  }

  /** How the last row of a batch changes the applied book. */
  lemma AppliedSnoc(book: Book, rows: seq<Row>, known: set<string>)
    requires UniquePhones(book) && rows != []
    ensures var k := |rows| - 1;
            var before := Applied(book, PlanRows(rows[..k], Whole(book), known));
            var after := Applied(book, PlanRows(rows, Whole(book), known));
      && (Counts(rows, k, known) ==> Settled(after, rows[k]))
      && (forall phone | Normalize(rows[k].phone) != Some(phone) || phone in SeenPhones(rows[..k])
            :: InBook(after, phone) == InBook(before, phone))
  {
    hide PlanRows, Applied, Settled;
    AppliedStep(book, rows, known);
    var k := |rows| - 1;
    var before := Applied(book, PlanRows(rows[..k], Whole(book), known));
    if Counts(rows, k, known) {
      var phone := Normalize(rows[k].phone).value;
      var e := InBook(book, phone);
      if e.None? { CreateSettles(before, rows[k], phone); }
      else { UpdateSettles(before, rows[k], e.value.id, phone); }
    }
  }

  lemma OtherNumbersKept(before: Book, after: Book, phone: string)
    requires UniquePhones(before) && UniquePhones(after) && |before| <= |after|
    requires forall i | 0 <= i < |before| :: after[i].phone == before[i].phone
    requires forall i | 0 <= i < |before| && before[i].phone != Some(phone) :: after[i] == before[i]
    requires forall i | |before| <= i < |after| :: after[i].phone == Some(phone)
    ensures forall other | other != phone :: InBook(after, other) == InBook(before, other)
  {
    forall other | other != phone ensures InBook(after, other) == InBook(before, other) {
      var e := InBook(before, other);
      if e.Some? {
        UniqueInBook(after, e.value.id, other);
      } else {
        AbsentFromBook(after, other);
      }
    }
  }

  lemma {:induction false} ImportSettles(book: Book, rows: seq<Row>, known: set<string>)
    requires UniquePhones(book)
    ensures forall k: nat | k < |rows| && Counts(rows, k, known) ::
              Settled(Applied(book, PlanRows(rows, Whole(book), known)), rows[k])
  {
    if rows != [] {
      var n := |rows| - 1;
      var front := rows[..n];
      ImportSettles(book, front, known);
      AppliedSnoc(book, rows, known);
      forall k: nat | k < |rows| && Counts(rows, k, known)
        ensures Settled(Applied(book, PlanRows(rows, Whole(book), known)), rows[k])
      {
        if k < n {
          assert front[..k] == rows[..k] && front[k] == rows[k];
          assert Counts(front, k, known);
          assert Normalize(rows[k].phone).value in SeenPhones(front) by { assert front[k] in front; }
          SettledDependsOnNumber(Applied(book, PlanRows(front, Whole(book), known)),
                                 Applied(book, PlanRows(rows, Whole(book), known)), rows[k]);
        }
      }
    }
  }

  lemma {:induction false} SettledPlansNothing(rows: seq<Row>, n: nat, before: Book, after: Book, known: set<string>)
    requires n <= |rows| && forall k: nat | k < |rows| && Counts(rows, k, known) :: Settled(after, rows[k])
    ensures var p, q := PlanRows(rows[..n], Whole(before), known), PlanRows(rows[..n], Whole(after), known);
      q.creates == [] && q.updates == [] && q.skipped == p.skipped
  {
    if n > 0 {
      SettledPlansNothing(rows, n - 1, before, after, known);
      assert rows[..n][..n - 1] == rows[..n - 1];
      var phone := Normalize(rows[n - 1].phone);
      if phone.Some? && phone.value !in SeenPhones(rows[..n - 1]) {
        WholeHoldsAll(after, phone.value);
        var agent := Clean(rows[n - 1].agent);
        assert agent.Some? ==> agent.value !in known || Counts(rows, n - 1, known);
        assert Clean(rows[n - 1].agent).None? ==> Counts(rows, n - 1, known);
      }
    }
  }

  /** Importing the same rows into the book they produced creates and updates nothing and skips the same rows. */
  lemma ImportIsIdempotent(book: Book, rows: seq<Row>, agents: set<string>)
    requires UniquePhones(book) && Import(book, rows, agents).Imported?
    ensures var first := Import(book, rows, agents);
            var again := Import(first.book, rows, agents);
      && again.Imported? && again.book == first.book
      && again.plan.creates == [] && again.plan.updates == [] && again.plan.skipped == first.plan.skipped
      && again.plan.same == |rows| - |first.plan.skipped|
  {
    var known := KnownAgents(rows, agents);
    var first := Import(book, rows, agents);
    FetchedPlanIsWholePlan(book, rows, known);
    FetchedPlanIsWholePlan(first.book, rows, known);
    ImportSettles(book, rows, known);
    SettledPlansNothing(rows, |rows|, book, first.book, known);
    assert rows[..|rows|] == rows;
    PlanAccountsForEveryRow(rows, Whole(first.book), known);
    var q := PlanRows(rows, Whole(first.book), known);
    assert Applied(first.book, q) == first.book;
  }
}
