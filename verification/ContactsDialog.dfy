/**
 * The client half of the import: the dialog drops rows it can reject itself,
 * then posts the rest in chunks and reports skips by spreadsheet row.
 */
module ContactsDialog {
  import opened Prelude
  import opened ContactsImport
  import opened ContactsChunking

  const CHUNK := 500

  datatype Kept = Kept(sheetRow: nat, row: Row)

  datatype Prepared = Prepared(rows: seq<Kept>, rejected: seq<Skip>)

  function RowsOf(kept: seq<Kept>): (r: seq<Row>)
    ensures |r| == |kept| && forall i | 0 <= i < |r| :: r[i] == kept[i].row
  {
    seq(|kept|, i requires 0 <= i < |kept| => kept[i].row)
  }

  /** What is posted and what is rejected beforehand, of the rows under a header. */
  function Prepare(sheet: seq<Row>, headerRow: nat): Prepared {
    if sheet == [] then Prepared([], [])
    else
      var k := |sheet| - 1;
      var p := Prepare(sheet[..k], headerRow);
      var phone := Normalize(sheet[k].phone);
      if phone.None? then p.(rejected := p.rejected + [Skip(headerRow + 2 + k, InvalidPhone)])
      else if phone.value in SeenPhones(sheet[..k]) then
        p.(rejected := p.rejected + [Skip(headerRow + 2 + k, DuplicateInBatch)])
      else p.(rows := p.rows + [Kept(headerRow + 2 + k, sheet[k])])
  }

  method PrepareRows(sheet: seq<Row>, headerRow: nat) returns (p: Prepared)
    ensures p == Prepare(sheet, headerRow)
  {
    p := Prepared([], []);
    var seen: set<string> := {};
    for i := 0 to |sheet|
      invariant p == Prepare(sheet[..i], headerRow)
      invariant seen == SeenPhones(sheet[..i])
    {
      var row := sheet[i];
      assert sheet[..i + 1] == sheet[..i] + [row];
      assert sheet[..i + 1][..i] == sheet[..i];
      SeenSnoc(sheet[..i], row);
      var phone := Normalize(row.phone);
      if phone.None? {
        p := p.(rejected := p.rejected + [Skip(headerRow + 2 + i, InvalidPhone)]);
      } else if phone.value in seen {
        p := p.(rejected := p.rejected + [Skip(headerRow + 2 + i, DuplicateInBatch)]);
      } else {
        seen := seen + {phone.value};
        p := p.(rows := p.rows + [Kept(headerRow + 2 + i, row)]);
      }
    }
    assert sheet[..|sheet|] == sheet;
  }

  function NumberOf(k: Kept): Option<string> {
    Normalize(k.row.phone)
  }

  /** Posted rows have valid, pairwise different numbers, and every sheet row is posted or rejected. */
  lemma {:induction false} PreparedRowsAreDistinct(sheet: seq<Row>, headerRow: nat)
    ensures var p := Prepare(sheet, headerRow);
      && |p.rows| + |p.rejected| == |sheet|
      && (forall k | k in p.rows :: NumberOf(k).Some? && NumberOf(k).value in SeenPhones(sheet) && k.row in sheet)
      && Distinct(p.rows, NumberOf)
  {
    if sheet != [] {
      var n := |sheet| - 1;
      assert sheet == sheet[..n] + [sheet[n]];
      SeenSnoc(sheet[..n], sheet[n]);
      PreparedRowsAreDistinct(sheet[..n], headerRow);
      DistinctSnoc(Prepare(sheet[..n], headerRow).rows, Kept(headerRow + 2 + n, sheet[n]), NumberOf);
    }
  }

  // ---------------------------------------------------------------- the chunk loop

  function Cut(i: nat, n: nat): nat {
    if i * CHUNK < n then i * CHUNK else n
  }

  /** The first m slices of the posted rows. */
  function Slices(rows: seq<Row>, m: nat): seq<seq<Row>> {
    if m == 0 then []
    else Slices(rows, m - 1) + [rows[Cut(m - 1, |rows|)..Cut(m, |rows|)]]
  }

  lemma CutGrows(i: nat, n: nat)
    ensures Cut(i, n) <= Cut(i + 1, n) <= n
  {
  }

  lemma {:induction false} SliceAt(rows: seq<Row>, m: nat, i: nat)
    requires i < m
    ensures |Slices(rows, m)| == m
    ensures Cut(i, |rows|) <= Cut(i + 1, |rows|) && Slices(rows, m)[i] == rows[Cut(i, |rows|)..Cut(i + 1, |rows|)]
    decreases m
  {
    CutGrows(i, |rows|);
    SlicesCounted(rows, m - 1);
    if i < m - 1 { SliceAt(rows, m - 1, i); }
  }

  lemma {:induction false} SlicesCounted(rows: seq<Row>, m: nat)
    ensures |Slices(rows, m)| == m
  {
    if m > 0 { SlicesCounted(rows, m - 1); }
  }

  lemma {:induction false} SlicesAreTheRows(rows: seq<Row>, m: nat)
    ensures |Slices(rows, m)| == m && Flat(Slices(rows, m)) == rows[..Cut(m, |rows|)]
  {
    SlicesCounted(rows, m);
    if m > 0 {
      SlicesAreTheRows(rows, m - 1);
      CutGrows(m - 1, |rows|);
      SliceAt(rows, m, m - 1);
      assert Slices(rows, m)[..m - 1] == Slices(rows, m - 1);
    }
  }

  lemma SlicesHoldRows(rows: seq<Row>, m: nat)
    ensures forall c | c in Slices(rows, m) :: forall r | r in c :: r in rows
  {
    SlicesCounted(rows, m);
    forall c | c in Slices(rows, m) ensures forall r | r in c :: r in rows {
      var i :| 0 <= i < m && Slices(rows, m)[i] == c;
      SliceAt(rows, m, i);
    }
  }

  lemma RangesApart(kept: seq<Kept>, a: nat, b: nat, c: nat, d: nat)
    requires Distinct(kept, NumberOf) && a <= b <= c <= d <= |kept|
    ensures SeenPhones(RowsOf(kept)[a..b]) !! SeenPhones(RowsOf(kept)[c..d])
  {
    var left, right := RowsOf(kept)[a..b], RowsOf(kept)[c..d];
    forall x, y | x in left && y in right && Normalize(x.phone).Some? ensures Normalize(x.phone) != Normalize(y.phone) {
      var i: nat :| i < |left| && left[i] == x;
      var j: nat :| j < |right| && right[j] == y;
      assert NumberOf(kept[a + i]) != NumberOf(kept[c + j]);
    }
  }

  lemma CutsInOrder(i: nat, j: nat, n: nat)
    requires i < j
    ensures Cut(i, n) <= Cut(i + 1, n) <= Cut(j, n) <= Cut(j + 1, n) <= n
  {
  }

  /** Slices of rows with different numbers share none. */
  lemma SlicesApart(kept: seq<Kept>, m: nat)
    requires Distinct(kept, NumberOf)
    ensures ChunksApart(Slices(RowsOf(kept), m))
  {
    hide Distinct, SeenPhones;
    var n := |kept|;
    SlicesCounted(RowsOf(kept), m);
    forall i, j | 0 <= i < j < m
      ensures SeenPhones(Slices(RowsOf(kept), m)[i]) !! SeenPhones(Slices(RowsOf(kept), m)[j])
    {
      SliceAt(RowsOf(kept), m, i);
      SliceAt(RowsOf(kept), m, j);
      CutsInOrder(i, j, n);
      RangesApart(kept, Cut(i, n), Cut(i + 1, n), Cut(j, n), Cut(j + 1, n));
    }
  }

  /** Skips renamed to the rows the operator sees. */
  function OnSheet(skips: seq<Skip>, kept: seq<Kept>): seq<Skip>
    requires forall i | 0 <= i < |skips| :: skips[i].row < |kept|
  {
    seq(|skips|, i requires 0 <= i < |skips| => Skip(kept[skips[i].row].sheetRow, skips[i].reason))
  }

  datatype Totals = Totals(created: nat, updated: nat, same: nat, skipped: seq<Skip>)

  function TotalsOf(p: Plan, prepared: Prepared): Totals
    requires forall i | 0 <= i < |p.skipped| :: p.skipped[i].row < |prepared.rows|
  {
    Totals(|p.creates|, |p.updates|, p.same, prepared.rejected + OnSheet(p.skipped, prepared.rows))
  }

  lemma ImportSkipsItsRows(book: Book, rows: seq<Row>, agents: set<string>)
    ensures var r := Import(book, rows, agents);
      r.Imported? ==> forall i | 0 <= i < |r.plan.skipped| :: r.plan.skipped[i].row < |rows|
  {
    PlanAccountsForEveryRow(rows, Fetch(book, AskedPhones(rows)), KnownAgents(rows, agents));
  }

  lemma ImportKeepsUnique(book: Book, rows: seq<Row>, agents: set<string>)
    requires UniquePhones(book) && Import(book, rows, agents).Imported?
    ensures UniquePhones(Import(book, rows, agents).book)
  {
    var known := KnownAgents(rows, agents);
    FetchedPlanIsWholePlan(book, rows, known);
    PlanNeverDoubles(rows, book, known);
    AppliedKeepsBook(book, rows, PlanRows(rows, Whole(book), known));
  }

  lemma TotalsStep(plan: Plan, next: Plan, n: nat, m: nat, prepared: Prepared)
    requires n <= m <= |prepared.rows|
    requires forall k | 0 <= k < |plan.skipped| :: plan.skipped[k].row < n
    requires forall k | 0 <= k < |next.skipped| :: next.skipped[k].row < m - n
    ensures var joined, t := Joined(plan, next, n), TotalsOf(plan, prepared);
      && (forall k | 0 <= k < |joined.skipped| :: joined.skipped[k].row < m)
      && TotalsOf(joined, prepared)
         == Totals(t.created + |next.creates|, t.updated + |next.updates|, t.same + next.same,
                   t.skipped + OnSheet(next.skipped, prepared.rows[n..m]))
  {
    var joined := Joined(plan, next, n);
    assert OnSheet(joined.skipped, prepared.rows)
        == OnSheet(plan.skipped, prepared.rows) + OnSheet(next.skipped, prepared.rows[n..m]);
  }

  lemma ChunkStep(start: Book, rows: seq<Row>, i: nat, agents: set<string>)
    ensures ImportChunks(start, Slices(rows, i + 1), agents)
         == Then(ImportChunks(start, Slices(rows, i), agents), Cut(i, |rows|),
                 rows[Cut(i, |rows|)..Cut(i + 1, |rows|)], agents)
  {
    SlicesAreTheRows(rows, i);
    SliceAt(rows, i + 1, i);
    assert Slices(rows, i + 1)[..i] == Slices(rows, i);
  }

  function SliceCount(prepared: Prepared): nat {
    (|prepared.rows| + CHUNK - 1) / CHUNK
  }

  /** The server's book after the first m slices were accepted. */
  ghost predicate ServerHolds(start: Book, prepared: Prepared, agents: set<string>, m: nat, book: Book) {
    var r := ImportChunks(start, Slices(RowsOf(prepared.rows), m), agents);
    r.Imported? && book == r.book
  }

  /** The totals that report the first m slices. */
  ghost predicate DialogReports(start: Book, prepared: Prepared, agents: set<string>, m: nat, totals: Totals) {
    var r := ImportChunks(start, Slices(RowsOf(prepared.rows), m), agents);
    && r.Imported?
    && (forall k | 0 <= k < |r.plan.skipped| :: r.plan.skipped[k].row < |prepared.rows|)
    && totals == TotalsOf(r.plan, prepared)
  }

  ghost predicate Uploaded(start: Book, prepared: Prepared, agents: set<string>, m: nat, book: Book, totals: Totals) {
    ServerHolds(start, prepared, agents, m, book) && DialogReports(start, prepared, agents, m, totals)
  }

  /** The slice after the first m is refused by the server. */
  ghost predicate RefusedAt(start: Book, prepared: Prepared, agents: set<string>, m: nat) {
    m < SliceCount(prepared) && ImportChunks(start, Slices(RowsOf(prepared.rows), m + 1), agents).OverCap?
  }

  /** What the network does with the i-th request; only `Replied` brings the dialog the server's answer. */
  datatype Fate = Replied | NeverSent | ReplyLost

  /**
   * How an upload ends early after m accepted slices: the next one is refused,
   * or never reaches the server, or is applied there without the dialog
   * learning of it. The totals report the m slices in each case.
   */
  ghost predicate CutShort(start: Book, prepared: Prepared, agents: set<string>, fate: Fate, m: nat,
                           book: Book, totals: Totals) {
    && m < SliceCount(prepared)
    && DialogReports(start, prepared, agents, m, totals)
    && (if fate.ReplyLost? && !RefusedAt(start, prepared, agents, m) then
          ServerHolds(start, prepared, agents, m + 1, book)
        else
          ServerHolds(start, prepared, agents, m, book) && (fate.NeverSent? || RefusedAt(start, prepared, agents, m)))
  }

  /**
   * The whole upload. Slices accepted before it is cut short stay applied, and
   * the totals report exactly those the dialog heard of, every skip once under
   * its spreadsheet row. With ids as stored and every reply arriving, it ends
   * as the one-shot import does.
   */
  method Upload(server: ContactBook, prepared: Prepared, fates: nat -> Fate) returns (totals: Totals, failed: bool)
    requires UniquePhones(server.book) && Distinct(prepared.rows, NumberOf)
    modifies server`book
    ensures failed ==> exists m: nat ::
      CutShort(old(server.book), prepared, server.agents, fates(m), m, server.book, totals)
    ensures !failed ==> Uploaded(old(server.book), prepared, server.agents, SliceCount(prepared), server.book, totals)
    ensures AgentsTrimmed(RowsOf(prepared.rows)) && (forall i :: fates(i).Replied?) ==>
      var r := Import(old(server.book), RowsOf(prepared.rows), server.agents);
      && failed == r.OverCap?
      && (!failed ==> server.book == r.book
                      && (forall i | 0 <= i < |r.plan.skipped| :: r.plan.skipped[i].row < |prepared.rows|)
                      && totals == TotalsOf(r.plan, prepared))
  {
    hide Import, ImportChunks, UniquePhones, Distinct, AgentsTrimmed, TotalsOf, Joined, Slices;
    var rows := RowsOf(prepared.rows);
    ghost var start := server.book;
    totals := Totals(0, 0, 0, prepared.rejected);
    ghost var plan := EmptyPlan;
    var total := (|rows| + CHUNK - 1) / CHUNK;
    if AgentsTrimmed(rows) { WholeUpload(start, prepared.rows, total, server.agents); }
    UploadStarts(start, prepared, server.agents);
    var i := 0;
    while i < total
      invariant i <= total
      invariant ImportChunks(start, Slices(rows, i), server.agents) == Imported(server.book, plan)
      invariant UniquePhones(server.book)
      invariant forall k | 0 <= k < |plan.skipped| :: plan.skipped[k].row < Cut(i, |rows|)
      invariant totals == TotalsOf(plan, prepared)
    {
      var n, m := Cut(i, |rows|), Cut(i + 1, |rows|);
      assert Uploaded(start, prepared, server.agents, i, server.book, totals);
      if fates(i).NeverSent? {
        assert CutShort(start, prepared, server.agents, fates(i), i, server.book, totals);
        return totals, true;
      }
      ChunkStep(start, rows, i, server.agents);
      ImportSkipsItsRows(server.book, rows[n..m], server.agents);
      ghost var before := server.book;
      var r := server.ImportChunk(rows[n..m]);
      if r.OverCap? {
        OverCapStays(start, rows, i + 1, total, server.agents);
        assert RefusedAt(start, prepared, server.agents, i);
        assert CutShort(start, prepared, server.agents, fates(i), i, server.book, totals);
        return totals, true;
      }
      ImportKeepsUnique(before, rows[n..m], server.agents);
      TotalsStep(plan, r.plan, n, m, prepared);
      var more := Totals(totals.created + |r.plan.creates|, totals.updated + |r.plan.updates|,
                         totals.same + r.plan.same, totals.skipped + OnSheet(r.plan.skipped, prepared.rows[n..m]));
      plan := Joined(plan, r.plan, n);
      assert Uploaded(start, prepared, server.agents, i + 1, server.book, more);
      if fates(i).ReplyLost? {
        assert !RefusedAt(start, prepared, server.agents, i);
        assert CutShort(start, prepared, server.agents, fates(i), i, server.book, totals);
        return totals, true;
      }
      totals := more;
      i := i + 1;
    }
    failed := false;
  }

  lemma UploadStarts(book: Book, prepared: Prepared, agents: set<string>)
    ensures ImportChunks(book, Slices(RowsOf(prepared.rows), 0), agents) == Imported(book, EmptyPlan)
    ensures TotalsOf(EmptyPlan, prepared) == Totals(0, 0, 0, prepared.rejected)
  {
    assert prepared.rejected + OnSheet([], prepared.rows) == prepared.rejected;
  }

  /** Once a chunk is refused the upload is. */
  lemma {:induction false} OverCapStays(book: Book, rows: seq<Row>, i: nat, m: nat, agents: set<string>)
    requires i <= m && ImportChunks(book, Slices(rows, i), agents).OverCap?
    ensures ImportChunks(book, Slices(rows, m), agents).OverCap?
    decreases m
  {
    hide Import, Joined;
    if i < m {
      OverCapStays(book, rows, i, m - 1, agents);
      SlicesAreTheRows(rows, m);
      assert Slices(rows, m)[..m - 1] == Slices(rows, m - 1);
    }
  }

  lemma WholeUpload(book: Book, kept: seq<Kept>, total: nat, agents: set<string>)
    requires UniquePhones(book) && Distinct(kept, NumberOf) && AgentsTrimmed(RowsOf(kept))
    requires total == (|kept| + CHUNK - 1) / CHUNK
    ensures ImportChunks(book, Slices(RowsOf(kept), total), agents) == Import(book, RowsOf(kept), agents)
  {
    var rows := RowsOf(kept);
    SlicesAreTheRows(rows, total);
    SlicesHoldRows(rows, total);
    SlicesApart(kept, total);
    assert Cut(total, |rows|) == |rows| && rows[..|rows|] == rows;
    forall c | c in Slices(rows, total) ensures AgentsTrimmed(c) {}
    ChunkedImportIsOneShot(book, Slices(rows, total), agents);
  }
}
