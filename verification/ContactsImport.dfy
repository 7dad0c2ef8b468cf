/**
 * Bulk contact import: the planner that decides row by row, the transaction
 * around it, and the method that runs each as the source does. A contact's id
 * is its position in the book.
 */
module ContactsImport {
  import opened Prelude

  datatype Row = Row(phone: string, name: Option<string>, agent: Option<string>)

  datatype Contact = Contact(phone: Option<string>, name: Option<string>, agent: Option<string>)

  type Book = seq<Contact>

  datatype Existing = Existing(id: nat, contact: Contact)

  datatype Patch = Patch(name: Option<string>, agent: Option<Option<string>>)

  datatype Change = Change(id: nat, patch: Patch)

  datatype Reason = InvalidPhone | DuplicateInBatch | UnknownAgent

  datatype Skip = Skip(row: nat, reason: Reason)

  datatype Plan = Plan(creates: seq<Contact>, updates: seq<Change>, same: nat, skipped: seq<Skip>)

  const EmptyPlan := Plan([], [], 0, [])

  const MAX_CONTACTS := 5000

  // ---------------------------------------------------------------- cells

  function Digits(s: string): string {
    if s == "" then ""
    else (if '0' <= s[0] <= '9' then [s[0]] else "") + Digits(s[1..])
  }

  /** Digits with country code, or None when the cell cannot be a phone number. */
  function Normalize(raw: string): Option<string> {
    var digits := Digits(raw);
    if 5 <= |digits| <= 20 then Some(digits) else None
  }

  /** White space and line ends, as trimming knows them. */
  predicate IsSpace(c: char) {
    || c == ' ' || c == '\t' || c == '\n' || c == '\r' || c == '\U{000B}' || c == '\U{000C}' || c == '\U{00A0}'
    || c == '\U{1680}' || '\U{2000}' <= c <= '\U{200A}' || c == '\U{2028}' || c == '\U{2029}' || c == '\U{202F}'
    || c == '\U{205F}' || c == '\U{3000}' || c == '\U{FEFF}'
  }

  function TrimLeft(s: string): string {
    if s != "" && IsSpace(s[0]) then TrimLeft(s[1..]) else s
  }

  function TrimRight(s: string): string {
    if s != "" && IsSpace(s[|s| - 1]) then TrimRight(s[..|s| - 1]) else s
  }

  function Trim(s: string): string {
    TrimRight(TrimLeft(s))
  }

  /** Trimmed, or None when blank. */
  function Clean(raw: Option<string>): Option<string> {
    if raw.None? || Trim(raw.value) == "" then None else Some(Trim(raw.value))
  }

  // ---------------------------------------------------------------- the planner

  /** The contact the planner's phone map holds for a number. */
  function Find(existing: seq<Existing>, phone: string): (r: Option<Existing>)
    ensures r.Some? ==> r.value in existing && r.value.contact.phone == Some(phone)
  {
    if existing == [] then None
    else
      var last := existing[|existing| - 1];
      if last.contact.phone == Some(phone) then Some(last) else Find(existing[..|existing| - 1], phone)
  }

  function SeenPhones(rows: seq<Row>): set<string> {
    set r | r in rows && Normalize(r.phone).Some? :: Normalize(r.phone).value
  }

  function PatchFor(c: Contact, name: Option<string>, agent: Option<string>): Patch {
    Patch(if name.Some? && name != c.name then name else None,
          if agent != c.agent then Some(agent) else None)
  }

  /** The plan with one row added, a first occurrence of its number. */
  function Decided(p: Plan, row: Row, index: nat, phone: string, current: Option<Existing>, known: set<string>): Plan {
    var agent := Clean(row.agent);
    if agent.Some? && agent.value !in known then p.(skipped := p.skipped + [Skip(index, UnknownAgent)])
    else
      var name := Clean(row.name);
      if current.None? then p.(creates := p.creates + [Contact(Some(phone), name, agent)])
      else
        var patch := PatchFor(current.value.contact, name, agent);
        if patch == Patch(None, None) then p.(same := p.same + 1)
        else p.(updates := p.updates + [Change(current.value.id, patch)])
  }

  /** The plan with one more row, the numbers seen so far given. */
  function NextPlan(
      p: Plan, seen: set<string>, row: Row, index: nat, existing: seq<Existing>, known: set<string>): Plan
  {
    var phone := Normalize(row.phone);
    if phone.None? then p.(skipped := p.skipped + [Skip(index, InvalidPhone)])
    else if phone.value in seen then p.(skipped := p.skipped + [Skip(index, DuplicateInBatch)])
    else Decided(p, row, index, phone.value, Find(existing, phone.value), known)
  }

  function PlanRows(rows: seq<Row>, existing: seq<Existing>, known: set<string>): Plan {
    if rows == [] then EmptyPlan
    else
      var k := |rows| - 1;
      NextPlan(PlanRows(rows[..k], existing, known), SeenPhones(rows[..k]), rows[k], k, existing, known)
  }

  method PlanImport(rows: seq<Row>, existing: seq<Existing>, known: set<string>) returns (plan: Plan)
    ensures plan == PlanRows(rows, existing, known)
  {
    plan := EmptyPlan;
    var seen: set<string> := {};
    for index := 0 to |rows|
      invariant plan == PlanRows(rows[..index], existing, known)
      invariant seen == SeenPhones(rows[..index])
    {
      var row := rows[index];
      assert rows[..index + 1] == rows[..index] + [row];
      assert rows[..index + 1][..index] == rows[..index];
      SeenSnoc(rows[..index], row);
      var phone := Normalize(row.phone);
      if phone.None? {
        plan := plan.(skipped := plan.skipped + [Skip(index, InvalidPhone)]);
      } else if phone.value in seen {
        plan := plan.(skipped := plan.skipped + [Skip(index, DuplicateInBatch)]);
      } else {
        seen := seen + {phone.value};
        plan := Decided(plan, row, index, phone.value, Find(existing, phone.value), known);
      }
    }
    assert rows[..|rows|] == rows;
  }

  lemma SeenSnoc(rows: seq<Row>, row: Row)
    ensures SeenPhones(rows + [row])
         == SeenPhones(rows) + if Normalize(row.phone).Some? then {Normalize(row.phone).value} else {}
  {
    assert forall r | r in rows :: r in rows + [row];
    assert row in rows + [row];
  }

  // ---------------------------------------------------------------- the transaction

  /** The contacts holding one of the numbers, in book order. */
  function Fetch(book: Book, phones: set<string>): seq<Existing> {
    if book == [] then []
    else
      var k := |book| - 1;
      Fetch(book[..k], phones)
      + if book[k].phone.Some? && book[k].phone.value in phones then [Existing(k, book[k])] else []
  }

  /** The numbers the batch asks the book for: the digits of every row, of whatever length. */
  function AskedPhones(rows: seq<Row>): set<string> {
    set r | r in rows && Digits(r.phone) != "" :: Digits(r.phone)
  }

  /** The agents the batch finds: looked up by the ids as posted, not as trimmed. */
  function KnownAgents(rows: seq<Row>, agents: set<string>): set<string> {
    set r | r in rows && Clean(r.agent).Some? && r.agent.value in agents :: r.agent.value
  }

  function Patched(c: Contact, p: Patch): Contact {
    c.(name := if p.name.Some? then p.name else c.name, agent := if p.agent.Some? then p.agent.value else c.agent)
  }

  function Updated(book: Book, changes: seq<Change>): (r: Book)
    ensures |r| == |book| && forall i | 0 <= i < |r| :: r[i].phone == book[i].phone
  {
    if changes == [] then book
    else
      var u := changes[|changes| - 1];
      var b := Updated(book, changes[..|changes| - 1]);
      if u.id < |b| then b[u.id := Patched(b[u.id], u.patch)] else b
  }

  function Applied(book: Book, p: Plan): Book {
    Updated(book, p.updates) + p.creates
  }

  /** createMany with skipDuplicates: a contact whose number is taken is passed over. */
  function Created(book: Book, cs: seq<Contact>): Book {
    if cs == [] then book
    else
      var b := Created(book, cs[..|cs| - 1]);
      var c := cs[|cs| - 1];
      if forall x | x in b :: x.phone != c.phone then b + [c] else b
  }

  lemma {:induction false} NewContactsAreCreated(book: Book, cs: seq<Contact>)
    requires forall i | 0 <= i < |cs| :: forall c | c in book :: c.phone != cs[i].phone
    requires Distinct(cs, PhoneOf)
    ensures Created(book, cs) == book + cs
  {
    if cs != [] {
      var k := |cs| - 1;
      NewContactsAreCreated(book, cs[..k]);
      forall x | x in book + cs[..k] ensures x.phone != cs[k].phone {
        if x !in book {
          var i :| 0 <= i < k && cs[i] == x;
          assert PhoneOf(cs[i]) != PhoneOf(cs[k]);
        }
      }
      assert book + cs == book + cs[..k] + [cs[k]];
    }
  }

  datatype Result = Imported(book: Book, plan: Plan) | OverCap

  /** One batch: all of it, or none when the organization's cap would be passed. */
  function Import(book: Book, rows: seq<Row>, agents: set<string>): Result {
    var plan := PlanRows(rows, Fetch(book, AskedPhones(rows)), KnownAgents(rows, agents));
    if plan.creates != [] && |plan.creates| > MAX_CONTACTS - |book| then OverCap
    else Imported(Applied(book, plan), plan)
  }

  class ContactBook {
    var book: Book
    const agents: set<string>

    constructor (book: Book, agents: set<string>)
      ensures this.book == book && this.agents == agents
    {
      this.book := book;
      this.agents := agents;
    }

    method CreateMany(cs: seq<Contact>)
      modifies this`book
      ensures book == Created(old(book), cs)
    {
      for i := 0 to |cs|
        invariant book == Created(old(book), cs[..i])
      {
        assert cs[..i + 1][..i] == cs[..i];
        if forall c | c in book :: c.phone != cs[i].phone {
          book := book + [cs[i]];
        }
      }
      assert cs[..|cs|] == cs;
    }

    method ImportChunk(rows: seq<Row>) returns (r: Result)
      requires UniquePhones(book)
      modifies this`book
      ensures r == Import(old(book), rows, agents)
      ensures book == if r.Imported? then r.book else old(book)
    {
      hide PlanRows, UniquePhones, Distinct, Fetch, AskedPhones, KnownAgents, Created;
      var plan := PlanImport(rows, Fetch(book, AskedPhones(rows)), KnownAgents(rows, agents));
      CreatesAreNew(book, rows, KnownAgents(rows, agents));
      UpdatesAreInBook(rows, Fetch(book, AskedPhones(rows)), KnownAgents(rows, agents), book);
      ghost var before := book;
      if |plan.creates| > 0 {
        var room := MAX_CONTACTS - |book|;
        if |plan.creates| > room { return OverCap; }
        CreateMany(plan.creates);
        NewContactsAreCreated(before, plan.creates);
      }
      assert book == before + plan.creates;
      for i := 0 to |plan.updates|
        invariant book == Updated(before, plan.updates[..i]) + plan.creates
      {
        var u := plan.updates[i];
        assert plan.updates[..i + 1][..i] == plan.updates[..i];
        book := book[u.id := Patched(book[u.id], u.patch)];
      }
      assert plan.updates[..|plan.updates|] == plan.updates;
      return Imported(book, plan);
    }
  }

  // ---------------------------------------------------------------- the book

  function PhoneOf(c: Contact): Option<string> {
    c.phone
  }

  /** The unique index on (organization, phone number). */
  ghost predicate UniquePhones(book: Book) {
    forall i, j | 0 <= i < j < |book| && book[i].phone.Some? :: book[i].phone != book[j].phone
  }

  /** What the book as a whole holds for a number. */
  function InBook(book: Book, phone: string): (r: Option<Existing>)
    ensures r.Some? ==>
      r.value.id < |book| && book[r.value.id] == r.value.contact && r.value.contact.phone == Some(phone)
    ensures r.None? ==> forall i | 0 <= i < |book| :: book[i].phone != Some(phone)
  {
    if book == [] then None
    else
      var k := |book| - 1;
      if book[k].phone == Some(phone) then Some(Existing(k, book[k])) else InBook(book[..k], phone)
  }

  lemma {:induction false} FetchHoldsAsked(book: Book, phones: set<string>, phone: string)
    requires phone in phones
    ensures Find(Fetch(book, phones), phone) == InBook(book, phone)
  {
    if book != [] {
      var k := |book| - 1;
      FetchHoldsAsked(book[..k], phones, phone);
      var front := Fetch(book[..k], phones);
      if book[k].phone.Some? && book[k].phone.value in phones {
        assert Fetch(book, phones) == front + [Existing(k, book[k])];
        assert Fetch(book, phones)[..|front|] == front;
      } else {
        assert Fetch(book, phones) == front;
      }
    }
  }

  lemma NormalizedIsAsked(rows: seq<Row>, r: Row)
    requires r in rows && Normalize(r.phone).Some?
    ensures Normalize(r.phone).value in AskedPhones(rows)
  {
  }

  /** A plan depends on the book only through the numbers of its rows, and on the agents through their ids. */
  lemma {:induction false} PlanDependsOnRows(
      rows: seq<Row>, e1: seq<Existing>, k1: set<string>, e2: seq<Existing>, k2: set<string>)
    requires forall r | r in rows && Normalize(r.phone).Some? ::
               Find(e1, Normalize(r.phone).value) == Find(e2, Normalize(r.phone).value)
    requires forall r | r in rows && Clean(r.agent).Some? :: Clean(r.agent).value in k1 <==> Clean(r.agent).value in k2
    ensures PlanRows(rows, e1, k1) == PlanRows(rows, e2, k2)
  {
    if rows != [] {
      var k := |rows| - 1;
      assert rows[k] in rows;
      forall r | r in rows[..k] ensures r in rows {}
      PlanDependsOnRows(rows[..k], e1, k1, e2, k2);
    }
  }

  /** Every book contact, as the planner would see it. */
  function Whole(book: Book): seq<Existing> {
    Fetch(book, set c | c in book && c.phone.Some? :: c.phone.value)
  }

  lemma WholeHoldsAll(book: Book, phone: string)
    ensures Find(Whole(book), phone) == InBook(book, phone)
  {
    var phones := set c | c in book && c.phone.Some? :: c.phone.value;
    if phone in phones {
      FetchHoldsAsked(book, phones, phone);
    } else {
      FetchIsFromPhones(book, phones);
      assert forall i | 0 <= i < |book| :: book[i] in book;
    }
  }

  lemma {:induction false} FetchIsFromPhones(book: Book, phones: set<string>)
    ensures forall e | e in Fetch(book, phones) :: e.contact.phone.Some? && e.contact.phone.value in phones
                                                  && e.id < |book| && book[e.id] == e.contact
  {
    if book != [] { FetchIsFromPhones(book[..|book| - 1], phones); }
  }

  /** Planning against the fetched contacts is planning against the whole book. */
  lemma FetchedPlanIsWholePlan(book: Book, rows: seq<Row>, known: set<string>)
    ensures PlanRows(rows, Fetch(book, AskedPhones(rows)), known) == PlanRows(rows, Whole(book), known)
  {
    forall r | r in rows && Normalize(r.phone).Some?
      ensures Find(Fetch(book, AskedPhones(rows)), Normalize(r.phone).value)
           == Find(Whole(book), Normalize(r.phone).value)
    {
      NormalizedIsAsked(rows, r);
      FetchHoldsAsked(book, AskedPhones(rows), Normalize(r.phone).value);
      WholeHoldsAll(book, Normalize(r.phone).value);
    }
    PlanDependsOnRows(rows, Fetch(book, AskedPhones(rows)), known, Whole(book), known);
  }

  // ---------------------------------------------------------------- what a plan never does

  /** Every row is planned exactly once, and the skips name distinct rows in order. */
  lemma {:induction false} PlanAccountsForEveryRow(rows: seq<Row>, existing: seq<Existing>, known: set<string>)
    ensures var p := PlanRows(rows, existing, known);
      && |p.creates| + |p.updates| + p.same + |p.skipped| == |rows|
      && (forall i | 0 <= i < |p.skipped| :: p.skipped[i].row < |rows|)
      && (forall i, j | 0 <= i < j < |p.skipped| :: p.skipped[i].row < p.skipped[j].row)
  {
    if rows != [] { PlanAccountsForEveryRow(rows[..|rows| - 1], existing, known); }
  }

  /** The planned creates and updates come from numbers of the batch. */
  ghost predicate PlanOf(p: Plan, rows: seq<Row>, book: Book) {
    && (forall c | c in p.creates :: c.phone.Some? && c.phone.value in SeenPhones(rows) && c.name != Some("")
                                     && forall i | 0 <= i < |book| :: book[i].phone != c.phone)
    && (forall u | u in p.updates :: u.id < |book|
                                     && book[u.id].phone.Some? && book[u.id].phone.value in SeenPhones(rows)
                                     && u.patch != Patch(None, None) && u.patch.name != Some(""))
    && Distinct(p.creates, PhoneOf) && Distinct(p.updates, IdOfChange)
  }

  function IdOfChange(u: Change): nat {
    u.id
  }

  /** Deciding a row of a fresh number keeps a plan free of doubles. */
  lemma DecidedKeepsPlanOf(p: Plan, rows: seq<Row>, row: Row, phone: string, book: Book, known: set<string>)
    requires PlanOf(p, rows, book) && Normalize(row.phone) == Some(phone) && phone !in SeenPhones(rows)
    ensures PlanOf(Decided(p, row, |rows|, phone, InBook(book, phone), known), rows + [row], book)
  {
    SeenSnoc(rows, row);
    var current, name, agent := InBook(book, phone), Clean(row.name), Clean(row.agent);
    if current.None? {
      DistinctSnoc(p.creates, Contact(Some(phone), name, agent), PhoneOf);
    } else {
      DistinctSnoc(p.updates, Change(current.value.id, PatchFor(current.value.contact, name, agent)), IdOfChange);
    }
  }

  /**
   * No plan creates a number the book holds or creates one twice, updates a
   * contact twice, or blanks a name.
   */
  lemma {:induction false} PlanNeverDoubles(rows: seq<Row>, book: Book, known: set<string>)
    requires UniquePhones(book)
    ensures PlanOf(PlanRows(rows, Whole(book), known), rows, book)
  {
    if rows != [] {
      var k := |rows| - 1;
      var front, row := rows[..k], rows[k];
      PlanNeverDoubles(front, book, known);
      assert rows == front + [row];
      SeenSnoc(front, row);
      var p := PlanRows(front, Whole(book), known);
      var phone := Normalize(row.phone);
      if phone.Some? && phone.value !in SeenPhones(front) {
        hide PlanOf, Decided;
        WholeHoldsAll(book, phone.value);
        DecidedKeepsPlanOf(p, front, row, phone.value, book, known);
      }
    }
  }

  lemma CreatesAreNew(book: Book, rows: seq<Row>, known: set<string>)
    requires UniquePhones(book)
    ensures var p := PlanRows(rows, Fetch(book, AskedPhones(rows)), known);
      && Distinct(p.creates, PhoneOf)
      && forall i | 0 <= i < |p.creates| ::
           p.creates[i].phone.Some? && forall c | c in book :: c.phone != p.creates[i].phone
  {
    FetchedPlanIsWholePlan(book, rows, known);
    PlanNeverDoubles(rows, book, known);
    var p := PlanRows(rows, Whole(book), known);
    forall i | 0 <= i < |p.creates| ensures p.creates[i] in p.creates {}
  }

  lemma UpdatesAreInBook(rows: seq<Row>, existing: seq<Existing>, known: set<string>, book: Book)
    requires existing == Fetch(book, AskedPhones(rows))
    ensures var p := PlanRows(rows, existing, known); forall i | 0 <= i < |p.updates| :: p.updates[i].id < |book|
  {
    FetchIsFromPhones(book, AskedPhones(rows));
    UpdatesAreExisting(rows, existing, known);
  }

  lemma {:induction false} UpdatesAreExisting(rows: seq<Row>, existing: seq<Existing>, known: set<string>)
    ensures forall u | u in PlanRows(rows, existing, known).updates :: exists e :: e in existing && e.id == u.id
  {
    if rows != [] { UpdatesAreExisting(rows[..|rows| - 1], existing, known); }
  }
}
