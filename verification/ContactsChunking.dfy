/**
 * A spreadsheet is posted in chunks: what the chunks together do to the book,
 * and exactly when that is what the one-shot import does.
 */
module ContactsChunking {
  import opened Prelude
  import opened ContactsImport

  // ---------------------------------------------------------------- applying a plan

  lemma {:induction false} UpdatedPrefix(book: Book, changes: seq<Change>, tail: seq<Contact>)
    requires forall u | u in changes :: u.id < |book|
    ensures Updated(book + tail, changes) == Updated(book, changes) + tail
  {
    if changes != [] { UpdatedPrefix(book, changes[..|changes| - 1], tail); }
  }

  lemma {:induction false} UpdatedTwice(book: Book, a: seq<Change>, b: seq<Change>)
    ensures Updated(book, a + b) == Updated(Updated(book, a), b)
  {
    if b == [] {
      assert a + b == a;
    } else {
      assert (a + b)[..|a + b| - 1] == a + b[..|b| - 1];
      UpdatedTwice(book, a, b[..|b| - 1]);
    }
  }

  lemma {:induction false} UpdatedElsewhere(book: Book, changes: seq<Change>, i: nat)
    requires i < |book| && forall u | u in changes :: u.id != i
    ensures Updated(book, changes)[i] == book[i]
  {
    if changes != [] { UpdatedElsewhere(book, changes[..|changes| - 1], i); }
  }

  lemma UniqueInBook(book: Book, i: nat, phone: string)
    requires UniquePhones(book) && i < |book| && book[i].phone == Some(phone)
    ensures InBook(book, phone) == Some(Existing(i, book[i]))
  {
    assert InBook(book, phone).Some?;
  }

  lemma AbsentFromBook(book: Book, phone: string)
    requires forall i | 0 <= i < |book| :: book[i].phone != Some(phone)
    ensures InBook(book, phone) == None
  {
  }

  /** Applying a plan keeps numbers unique and leaves every contact outside the batch as it was. */
  lemma AppliedKeepsBook(book: Book, rows: seq<Row>, p: Plan)
    requires UniquePhones(book) && PlanOf(p, rows, book)
    ensures UniquePhones(Applied(book, p)) && |Applied(book, p)| == |book| + |p.creates|
    ensures forall phone | phone !in SeenPhones(rows) :: InBook(Applied(book, p), phone) == InBook(book, phone)
  {
    var after := Applied(book, p);
    forall i, j | 0 <= i < j < |after| && after[i].phone.Some? ensures after[i].phone != after[j].phone {
      if j >= |book| {
        assert p.creates[j - |book|] in p.creates;
        if i >= |book| { assert PhoneOf(p.creates[i - |book|]) != PhoneOf(p.creates[j - |book|]); }
      } else {
        assert after[i].phone == book[i].phone && after[j].phone == book[j].phone;
      }
    }
    forall phone | phone !in SeenPhones(rows) ensures InBook(after, phone) == InBook(book, phone) {
      var e := InBook(book, phone);
      if e.Some? {
        UpdatedElsewhere(book, p.updates, e.value.id);
        UniqueInBook(after, e.value.id, phone);
      } else {
        forall i | 0 <= i < |after| ensures after[i].phone != Some(phone) {
          if i >= |book| { assert p.creates[i - |book|] in p.creates; }
        }
        AbsentFromBook(after, phone);
      }
    }
  }

  // ---------------------------------------------------------------- splitting a batch

  function ShiftSkips(s: seq<Skip>, offset: nat): seq<Skip> {
    seq(|s|, i requires 0 <= i < |s| => Skip(s[i].row + offset, s[i].reason))
  }

  /** The plan of a second batch, reported after a first one of n rows. */
  function Joined(a: Plan, b: Plan, n: nat): Plan {
    Plan(a.creates + b.creates, a.updates + b.updates, a.same + b.same, a.skipped + ShiftSkips(b.skipped, n))
  }

  lemma ShiftSnoc(s: seq<Skip>, x: Skip, offset: nat)
    ensures ShiftSkips(s + [x], offset) == ShiftSkips(s, offset) + [Skip(x.row + offset, x.reason)]
  {
  }

  lemma PlanSnoc(rows: seq<Row>, row: Row, existing: seq<Existing>, known: set<string>)
    ensures PlanRows(rows + [row], existing, known)
         == NextPlan(PlanRows(rows, existing, known), SeenPhones(rows), row, |rows|, existing, known)
  {
    assert (rows + [row])[..|rows|] == rows;
  }

  /** Planning two batches with no number in common is planning both at once. */
  lemma {:induction false} PlanOfBoth(a: seq<Row>, b: seq<Row>, existing: seq<Existing>, known: set<string>)
    requires SeenPhones(a) !! SeenPhones(b)
    ensures PlanRows(a + b, existing, known) == Joined(PlanRows(a, existing, known), PlanRows(b, existing, known), |a|)
  {
    hide NextPlan;
    if b == [] {
      assert a + b == a;
    } else {
      hide Joined, SeenPhones, PlanRows;
      var front, row := b[..|b| - 1], b[|b| - 1];
      assert b == front + [row];
      SeenSnoc(front, row);
      PlanOfBoth(a, front, existing, known);
      PlanOfBothSnoc(a, front, row, existing, known);
      assert a + b == a + front + [row];
    }
  }

  lemma PlanOfBothSnoc(a: seq<Row>, b: seq<Row>, row: Row, existing: seq<Existing>, known: set<string>)
    requires PlanRows(a + b, existing, known) == Joined(PlanRows(a, existing, known), PlanRows(b, existing, known), |a|)
    requires Normalize(row.phone).Some? ==> Normalize(row.phone).value !in SeenPhones(a)
    ensures PlanRows(a + b + [row], existing, known)
         == Joined(PlanRows(a, existing, known), PlanRows(b + [row], existing, known), |a|)
  {
    hide NextPlan, Joined, SeenPhones, PlanRows;
    var pa, pb := PlanRows(a, existing, known), PlanRows(b, existing, known);
    SeenOfBoth(a, b);
    PlanSnoc(a + b, row, existing, known);
    PlanSnoc(b, row, existing, known);
    JoinedNext(pa, pb, |a|, SeenPhones(a), SeenPhones(b), row, |b|, existing, known);
  }

  /** A row whose number the first batch lacks is planned alike in the second batch and in both. */
  lemma JoinedNext(a: Plan, b: Plan, n: nat, seenA: set<string>, seenB: set<string>,
                   row: Row, k: nat, existing: seq<Existing>, known: set<string>)
    requires Normalize(row.phone).Some? ==> Normalize(row.phone).value !in seenA
    ensures NextPlan(Joined(a, b, n), seenA + seenB, row, n + k, existing, known)
         == Joined(a, NextPlan(b, seenB, row, k, existing, known), n)
  {
    hide Joined, Decided;
    JoinedSnoc(a, b, n, row, k, existing, known);
    JoinedSkip(a, b, n, k, InvalidPhone);
    JoinedSkip(a, b, n, k, DuplicateInBatch);
  }

  lemma JoinedSkip(a: Plan, b: Plan, n: nat, k: nat, why: Reason)
    ensures var j := Joined(a, b, n);
      Joined(a, b.(skipped := b.skipped + [Skip(k, why)]), n) == j.(skipped := j.skipped + [Skip(n + k, why)])
  {
    ShiftSnoc(b.skipped, Skip(k, why), n);
    var shifted := ShiftSkips(b.skipped, n);
    assert a.skipped + shifted + [Skip(n + k, why)] == a.skipped + (shifted + [Skip(n + k, why)]);
  }

  lemma SeenOfBoth(a: seq<Row>, b: seq<Row>)
    ensures SeenPhones(a + b) == SeenPhones(a) + SeenPhones(b)
  {
    assert forall r | r in a :: r in a + b;
    assert forall r | r in b :: r in a + b;
  }

  lemma JoinedSnoc(a: Plan, b: Plan, n: nat, row: Row, k: nat, existing: seq<Existing>, known: set<string>)
    ensures forall phone :: Decided(Joined(a, b, n), row, n + k, phone, Find(existing, phone), known)
                         == Joined(a, Decided(b, row, k, phone, Find(existing, phone), known), n)
  {
    ShiftSnoc(b.skipped, Skip(k, UnknownAgent), n);
    forall phone
      ensures Decided(Joined(a, b, n), row, n + k, phone, Find(existing, phone), known)
           == Joined(a, Decided(b, row, k, phone, Find(existing, phone), known), n)
    {
      var name, agent := Clean(row.name), Clean(row.agent);
      var c := Contact(Some(phone), name, agent);
      assert a.creates + b.creates + [c] == a.creates + (b.creates + [c]);
      var current := Find(existing, phone);
      if current.Some? {
        var u := Change(current.value.id, PatchFor(current.value.contact, name, agent));
        assert a.updates + b.updates + [u] == a.updates + (b.updates + [u]);
      }
    }
  }

  // ---------------------------------------------------------------- chunks

  /** The import of one batch after another, stopping at the cap. */
  function Then(first: Result, n: nat, rows: seq<Row>, agents: set<string>): Result {
    match first
    case OverCap => OverCap
    case Imported(book, plan) =>
      match Import(book, rows, agents)
      case OverCap => OverCap
      case Imported(after, more) => Imported(after, Joined(plan, more, n))
  }

  function Flat(chunks: seq<seq<Row>>): seq<Row> {
    if chunks == [] then [] else Flat(chunks[..|chunks| - 1]) + chunks[|chunks| - 1]
  }

  /** The chunks posted in order, until one is refused. */
  function ImportChunks(book: Book, chunks: seq<seq<Row>>, agents: set<string>): Result {
    if chunks == [] then Imported(book, EmptyPlan)
    else
      var k := |chunks| - 1;
      Then(ImportChunks(book, chunks[..k], agents), |Flat(chunks[..k])|, chunks[k], agents)
  }

  /** No two chunks share a normalized number. */
  ghost predicate ChunksApart(chunks: seq<seq<Row>>) {
    forall i, j | 0 <= i < j < |chunks| :: SeenPhones(chunks[i]) !! SeenPhones(chunks[j])
  }

  /** The chunks' plans side by side, each against the original book and the agents its own rows name. */
  function OwnPlans(book: Book, chunks: seq<seq<Row>>, agents: set<string>): Plan {
    if chunks == [] then EmptyPlan
    else
      var k := |chunks| - 1;
      Joined(OwnPlans(book, chunks[..k], agents), PlanRows(chunks[k], Whole(book), KnownAgents(chunks[k], agents)),
             |Flat(chunks[..k])|)
  }

  /** The same with one set of known agents for all. */
  function SharedPlans(book: Book, chunks: seq<seq<Row>>, known: set<string>): Plan {
    if chunks == [] then EmptyPlan
    else
      var k := |chunks| - 1;
      Joined(SharedPlans(book, chunks[..k], known), PlanRows(chunks[k], Whole(book), known), |Flat(chunks[..k])|)
  }

  lemma ApartFront(chunks: seq<seq<Row>>, k: nat)
    requires ChunksApart(chunks) && k <= |chunks|
    ensures ChunksApart(chunks[..k])
  {
    forall i, j | 0 <= i < j < k ensures SeenPhones(chunks[..k][i]) !! SeenPhones(chunks[..k][j]) {
      assert SeenPhones(chunks[i]) !! SeenPhones(chunks[j]);
    }
  }

  lemma {:induction false} FlatPhones(chunks: seq<seq<Row>>, phones: set<string>)
    requires forall c | c in chunks :: SeenPhones(c) !! phones
    ensures SeenPhones(Flat(chunks)) !! phones
  {
    if chunks != [] {
      var k := |chunks| - 1;
      FlatPhones(chunks[..k], phones);
      SeenOfBoth(Flat(chunks[..k]), chunks[k]);
      assert chunks[k] in chunks;
    }
  }

  /** The last chunk shares no number with the rows before it. */
  lemma LastApart(chunks: seq<seq<Row>>)
    requires ChunksApart(chunks) && chunks != []
    ensures SeenPhones(Flat(chunks[..|chunks| - 1])) !! SeenPhones(chunks[|chunks| - 1])
  {
    var k := |chunks| - 1;
    forall c | c in chunks[..k] ensures SeenPhones(c) !! SeenPhones(chunks[k]) {
      var i :| 0 <= i < k && chunks[i] == c;
    }
    FlatPhones(chunks[..k], SeenPhones(chunks[k]));
  }

  lemma {:induction false} SharedPlansAreOnePlan(book: Book, chunks: seq<seq<Row>>, known: set<string>)
    requires ChunksApart(chunks)
    ensures SharedPlans(book, chunks, known) == PlanRows(Flat(chunks), Whole(book), known)
  {
    hide PlanRows, Joined, ChunksApart, SeenPhones;
    if chunks != [] {
      var k := |chunks| - 1;
      ApartFront(chunks, k);
      LastApart(chunks);
      SharedPlansAreOnePlan(book, chunks[..k], known);
      PlanOfBoth(Flat(chunks[..k]), chunks[k], Whole(book), known);
    } else {
      EmptyBatch(book, known);
    }
  }

  lemma EmptyBatch(book: Book, known: set<string>)
    ensures PlanRows([], Whole(book), known) == EmptyPlan
  {
  }

  // ---------------------------------------------------------------- what the chunks do to the book

  lemma AppliedJoined(book: Book, a: Plan, b: Plan, n: nat)
    requires (forall u | u in a.updates :: u.id < |book|) && (forall u | u in b.updates :: u.id < |book|)
    ensures Applied(book, Joined(a, b, n)) == Applied(Applied(book, a), b)
  {
    UpdatedTwice(book, a.updates, b.updates);
    UpdatedPrefix(Updated(book, a.updates), b.updates, a.creates);
  }

  lemma DistinctBoth<T, K(!new)>(xs: seq<T>, ys: seq<T>, key: T -> K)
    requires Distinct(xs, key) && Distinct(ys, key) && forall x, y | x in xs && y in ys :: key(x) != key(y)
    ensures Distinct(xs + ys, key)
  {
  }

  /** Plans of batches with no number in common are together a plan of both. */
  lemma JoinedIsPlanOf(a: Plan, b: Plan, n: nat, rowsA: seq<Row>, rowsB: seq<Row>, book: Book)
    requires PlanOf(a, rowsA, book) && PlanOf(b, rowsB, book) && SeenPhones(rowsA) !! SeenPhones(rowsB)
    ensures PlanOf(Joined(a, b, n), rowsA + rowsB, book)
  {
    SeenOfBoth(rowsA, rowsB);
    forall x, y | x in a.creates && y in b.creates ensures PhoneOf(x) != PhoneOf(y) {}
    forall x, y | x in a.updates && y in b.updates ensures IdOfChange(x) != IdOfChange(y) {}
    DistinctBoth(a.creates, b.creates, PhoneOf);
    DistinctBoth(a.updates, b.updates, IdOfChange);
    hide Distinct, SeenPhones;
  }

  lemma {:induction false} OwnPlansArePlanOf(book: Book, chunks: seq<seq<Row>>, agents: set<string>)
    requires UniquePhones(book) && ChunksApart(chunks)
    ensures PlanOf(OwnPlans(book, chunks, agents), Flat(chunks), book)
  {
    if chunks != [] {
      hide PlanOf, Joined, ChunksApart, UniquePhones, PlanRows, SeenPhones;
      var k := |chunks| - 1;
      ApartFront(chunks, k);
      LastApart(chunks);
      OwnPlansArePlanOf(book, chunks[..k], agents);
      PlanNeverDoubles(chunks[k], book, KnownAgents(chunks[k], agents));
      JoinedIsPlanOf(OwnPlans(book, chunks[..k], agents),
                     PlanRows(chunks[k], Whole(book), KnownAgents(chunks[k], agents)),
                     |Flat(chunks[..k])|, Flat(chunks[..k]), chunks[k], book);
    }
  }

  /** Planning a batch whose numbers an applied plan did not touch does not depend on that plan. */
  lemma LaterPlanUnmoved(book: Book, before: seq<Row>, p: Plan, rows: seq<Row>, known: set<string>)
    requires UniquePhones(book) && PlanOf(p, before, book) && SeenPhones(before) !! SeenPhones(rows)
    ensures PlanRows(rows, Whole(Applied(book, p)), known) == PlanRows(rows, Whole(book), known)
  {
    hide PlanOf, PlanRows, Applied, UniquePhones, Whole;
    AppliedKeepsBook(book, before, p);
    forall r | r in rows && Normalize(r.phone).Some?
      ensures Find(Whole(Applied(book, p)), Normalize(r.phone).value) == Find(Whole(book), Normalize(r.phone).value)
    {
      WholeHoldsAll(Applied(book, p), Normalize(r.phone).value);
      WholeHoldsAll(book, Normalize(r.phone).value);
      assert Normalize(r.phone).value in SeenPhones(rows);
    }
    PlanDependsOnRows(rows, Whole(Applied(book, p)), known, Whole(book), known);
  }

  /** The cap leaves room for the creates. */
  predicate Fits(book: Book, creates: seq<Contact>) {
    creates == [] || |creates| <= MAX_CONTACTS - |book|
  }

  lemma ImportIsPlanned(book: Book, rows: seq<Row>, agents: set<string>)
    ensures var p := PlanRows(rows, Whole(book), KnownAgents(rows, agents));
      Import(book, rows, agents) == if Fits(book, p.creates) then Imported(Applied(book, p), p) else OverCap
  {
    FetchedPlanIsWholePlan(book, rows, KnownAgents(rows, agents));
  }

  /** The chunks leave the book their own plans lead to, or hit the cap exactly when those together do not fit. */
  lemma {:induction false} ImportChunksExactly(book: Book, chunks: seq<seq<Row>>, agents: set<string>)
    requires UniquePhones(book) && ChunksApart(chunks)
    ensures var p := OwnPlans(book, chunks, agents);
      ImportChunks(book, chunks, agents) == if Fits(book, p.creates) then Imported(Applied(book, p), p) else OverCap
  {
    if chunks == [] {
      assert Applied(book, EmptyPlan) == book;
    } else {
      hide PlanOf, PlanRows, ChunksApart, UniquePhones, SeenPhones, Import, Updated;
      var k := |chunks| - 1;
      var front, last, n := chunks[..k], chunks[k], |Flat(chunks[..k])|;
      var p, q := OwnPlans(book, front, agents), PlanRows(last, Whole(book), KnownAgents(last, agents));
      ApartFront(chunks, k);
      LastApart(chunks);
      ImportChunksExactly(book, front, agents);
      OwnPlansArePlanOf(book, front, agents);
      PlanNeverDoubles(last, book, KnownAgents(last, agents));
      LaterPlanUnmoved(book, Flat(front), p, last, KnownAgents(last, agents));
      ImportIsPlanned(Applied(book, p), last, agents);
      JoinedApplied(book, p, q, n, Flat(front), last);
    }
  }

  lemma JoinedApplied(book: Book, p: Plan, q: Plan, n: nat, rowsP: seq<Row>, rowsQ: seq<Row>)
    requires PlanOf(p, rowsP, book) && PlanOf(q, rowsQ, book)
    ensures Applied(book, Joined(p, q, n)) == Applied(Applied(book, p), q)
    ensures |Applied(book, p)| == |book| + |p.creates|
  {
    AppliedJoined(book, p, q, n);
  }

  // ---------------------------------------------------------------- the exact condition

  /**
   * The row is its number's first in its chunk and names, once trimmed, an
   * agent that some row of the whole import spells as stored but no row of its
   * own chunk does.
   */
  predicate Loses(rows: seq<Row>, k: nat, known: set<string>, all: set<string>)
    requires k < |rows|
  {
    && Normalize(rows[k].phone).Some? && Normalize(rows[k].phone).value !in SeenPhones(rows[..k])
    && Clean(rows[k].agent).Some? && Clean(rows[k].agent).value in all && Clean(rows[k].agent).value !in known
  }

  predicate LosesNone(rows: seq<Row>, known: set<string>, all: set<string>) {
    forall k | 0 <= k < |rows| :: !Loses(rows, k, known, all)
  }

  /** Knowing fewer agents skips each lost row, and changes nothing else. */
  lemma {:induction false} KnowingLess(rows: seq<Row>, existing: seq<Existing>, known: set<string>, all: set<string>)
    requires known <= all
    ensures var p, q := PlanRows(rows, existing, known), PlanRows(rows, existing, all);
      if LosesNone(rows, known, all) then p == q else |p.skipped| > |q.skipped|
  {
    hide Loses, NextPlan;
    if rows != [] {
      var k := |rows| - 1;
      var front := rows[..k];
      KnowingLess(front, existing, known, all);
      LosesNoneSnoc(rows, known, all);
      NextKnowingLess(rows, PlanRows(front, existing, known), PlanRows(front, existing, all), existing, known, all);
    }
  }

  lemma LosesNoneSnoc(rows: seq<Row>, known: set<string>, all: set<string>)
    requires rows != []
    ensures LosesNone(rows, known, all)
      <==> LosesNone(rows[..|rows| - 1], known, all) && !Loses(rows, |rows| - 1, known, all)
  {
    var k := |rows| - 1;
    forall i | 0 <= i < k ensures Loses(rows[..k], i, known, all) == Loses(rows, i, known, all) {
      assert rows[..k][..i] == rows[..i];
    }
  }

  lemma NextKnowingLess(
      rows: seq<Row>, p: Plan, q: Plan, existing: seq<Existing>, known: set<string>, all: set<string>)
    requires rows != [] && known <= all
    ensures var k := |rows| - 1;
      var seen := SeenPhones(rows[..k]);
      var p', q' := NextPlan(p, seen, rows[k], k, existing, known), NextPlan(q, seen, rows[k], k, existing, all);
      if Loses(rows, k, known, all) then |p'.skipped| == |p.skipped| + 1 && q'.skipped == q.skipped
      else (p == q ==> p' == q') && |p'.skipped| - |p.skipped| == |q'.skipped| - |q.skipped|
  {
  }

  /** Every chunk plans as if it knew what the whole import knows. */
  ghost predicate NoChunkLoses(chunks: seq<seq<Row>>, agents: set<string>, all: set<string>) {
    forall c | c in chunks :: LosesNone(c, KnownAgents(c, agents), all)
  }

  lemma {:induction false} OwnAgainstShared(book: Book, chunks: seq<seq<Row>>, agents: set<string>, all: set<string>)
    requires forall c | c in chunks :: KnownAgents(c, agents) <= all
    ensures var p, q := OwnPlans(book, chunks, agents), SharedPlans(book, chunks, all);
      if NoChunkLoses(chunks, agents, all) then p == q else |p.skipped| > |q.skipped|
  {
    hide LosesNone, PlanRows;
    if chunks != [] {
      var k := |chunks| - 1;
      var front, last := chunks[..k], chunks[k];
      assert chunks == front + [last];
      OwnAgainstShared(book, front, agents, all);
      KnowingLess(last, Whole(book), KnownAgents(last, agents), all);
    }
  }

  lemma {:induction false} FlatKnows(chunks: seq<seq<Row>>, agents: set<string>)
    ensures forall c | c in chunks :: KnownAgents(c, agents) <= KnownAgents(Flat(chunks), agents)
  {
    if chunks != [] {
      var k := |chunks| - 1;
      assert chunks == chunks[..k] + [chunks[k]];
      FlatKnows(chunks[..k], agents);
    }
  }

  /**
   * Chunked import is one-shot import exactly when no row depends on another
   * chunk to spell its agent's id: without such a row the results are equal,
   * cap included; with one they differ whenever the one-shot import goes through.
   */
  lemma ChunksAgreeExactly(book: Book, chunks: seq<seq<Row>>, agents: set<string>)
    requires UniquePhones(book) && ChunksApart(chunks)
    ensures NoChunkLoses(chunks, agents, KnownAgents(Flat(chunks), agents))
      ==> ImportChunks(book, chunks, agents) == Import(book, Flat(chunks), agents)
    ensures Import(book, Flat(chunks), agents).Imported? ==>
      (ImportChunks(book, chunks, agents) == Import(book, Flat(chunks), agents)
       <==> NoChunkLoses(chunks, agents, KnownAgents(Flat(chunks), agents)))
  {
    hide PlanRows, Applied, NoChunkLoses, ChunksApart, UniquePhones;
    var all := KnownAgents(Flat(chunks), agents);
    ImportIsPlanned(book, Flat(chunks), agents);
    SharedPlansAreOnePlan(book, chunks, all);
    FlatKnows(chunks, agents);
    OwnAgainstShared(book, chunks, agents, all);
    ImportChunksExactly(book, chunks, agents);
  }

  lemma JoinedToNothing(p: Plan)
    ensures Joined(EmptyPlan, p, 0) == p
  {
    assert ShiftSkips(p.skipped, 0) == p.skipped;
  }

  /** The same for two chunks: the rows that may be lost are read off the two chunks. */
  lemma TwoChunksAgreeExactly(book: Book, a: seq<Row>, b: seq<Row>, agents: set<string>)
    requires UniquePhones(book) && SeenPhones(a) !! SeenPhones(b) && Import(book, a + b, agents).Imported?
    ensures var all := KnownAgents(a + b, agents);
      Then(Import(book, a, agents), |a|, b, agents) == Import(book, a + b, agents)
      <==> LosesNone(a, KnownAgents(a, agents), all) && LosesNone(b, KnownAgents(b, agents), all)
  {
    hide Import, LosesNone, UniquePhones, SeenPhones, Joined;
    var chunks := [a, b];
    TwoChunksUnrolled(book, a, b, agents);
    ChunksAgreeExactly(book, chunks, agents);
    assert a in chunks && b in chunks;
  }

  lemma TwoChunksUnrolled(book: Book, a: seq<Row>, b: seq<Row>, agents: set<string>)
    ensures Flat([a, b]) == a + b
    ensures ImportChunks(book, [a, b], agents) == Then(Import(book, a, agents), |a|, b, agents)
  {
    hide Import, Joined;
    assert [a, b][..1] == [a] && [a][..0] == [];
    assert Flat([a]) == a;
    var first := Import(book, a, agents);
    if first.Imported? { JoinedToNothing(first.plan); }
    assert ImportChunks(book, [a], agents) == first;
  }

  /** Agent ids are posted as the organization stores them, which is what the dialog's picker yields. */
  predicate AgentsTrimmed(rows: seq<Row>) {
    forall r | r in rows && Clean(r.agent).Some? :: Clean(r.agent) == r.agent
  }

  /** With trimmed ids no row is lost, so any division into chunks is the one-shot import. */
  lemma ChunkedImportIsOneShot(book: Book, chunks: seq<seq<Row>>, agents: set<string>)
    requires UniquePhones(book) && ChunksApart(chunks) && forall c | c in chunks :: AgentsTrimmed(c)
    ensures ImportChunks(book, chunks, agents) == Import(book, Flat(chunks), agents)
  {
    forall c | c in chunks ensures LosesNone(c, KnownAgents(c, agents), KnownAgents(Flat(chunks), agents)) {
      forall k | 0 <= k < |c| ensures !Loses(c, k, KnownAgents(c, agents), KnownAgents(Flat(chunks), agents)) {
        assert c[k] in c;
      }
    }
    ChunksAgreeExactly(book, chunks, agents);
  }

  lemma OneRow(row: Row)
    ensures SeenPhones([row]) == if Normalize(row.phone).Some? then {Normalize(row.phone).value} else {}
    ensures [row][..0] == [] && SeenPhones([]) == {}
  {
    SeenSnoc([], row);
    assert [] + [row] == [row];
  }

  /** The smallest case: a padded id, and in the other chunk the same id as stored. */
  lemma PaddedAgentIdBreaksChunking(book: Book, neat: Row, padded: Row, id: string)
    requires UniquePhones(book) && Import(book, [neat] + [padded], {id}).Imported?
    requires Normalize(neat.phone).Some? && Normalize(padded.phone).Some?
    requires Normalize(neat.phone) != Normalize(padded.phone)
    requires neat.agent == Some(id) && Clean(neat.agent) == Some(id)
    requires padded.agent != Some(id) && Clean(padded.agent) == Some(id)
    ensures Then(Import(book, [neat], {id}), 1, [padded], {id}) != Import(book, [neat] + [padded], {id})
  {
    OneRow(neat);
    OneRow(padded);
    var both := [neat] + [padded];
    assert neat in both && id in KnownAgents(both, {id}) && id !in KnownAgents([padded], {id});
    assert Loses([padded], 0, KnownAgents([padded], {id}), KnownAgents(both, {id}));
    TwoChunksAgreeExactly(book, [neat], [padded], {id});
  }
}
