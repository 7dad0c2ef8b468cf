/**
 * The dialog's half of an import, by sheet row: what is posted, what is
 * rejected, how the posted rows are cut, and what the operator is told.
 */
module ContactsSheet {
  import opened Prelude
  import opened ContactsImport
  import opened ContactsDialog
  import opened ContactsMeaning

  /** The n-th row under the header is posted when it is its number's first, and otherwise rejected. */
  lemma SheetRowMeans(sheet: seq<Row>, headerRow: nat, n: nat)
    requires n < |sheet|
    ensures var p, q := Prepare(sheet[..n], headerRow), Prepare(sheet[..n + 1], headerRow);
      && (FirstOfNumber(sheet, n) ==> q == p.(rows := p.rows + [Kept(headerRow + n + 2, sheet[n])]))
      && (forall reason | SkippedFor(sheet, n, {}, reason) && reason != UnknownAgent ::
            q == p.(rejected := p.rejected + [Skip(headerRow + n + 2, reason)]))
  {
    assert sheet[..n + 1][..n] == sheet[..n] && sheet[..n + 1][n] == sheet[n];
    if Normalize(sheet[n].phone).Some? { SeenMeans(sheet, n); }
    hide Normalize, SeenPhones, FirstOfNumber;
    if Normalize(sheet[n].phone).None? { FirstHasNumber(sheet, n); }
  }

  /** Row i of the sheet is rejected, and this is how it is reported. */
  predicate RejectedAt(sheet: seq<Row>, headerRow: nat, i: nat, y: Skip)
    requires i < |sheet|
  {
    !FirstOfNumber(sheet, i) && SkippedFor(sheet, i, {}, y.reason) && y.row == headerRow + i + 2
  }

  lemma PostedStep(sheet: seq<Row>, headerRow: nat, n: nat, x: Kept)
    requires n < |sheet|
    ensures var p, q := Prepare(sheet[..n], headerRow), Prepare(sheet[..n + 1], headerRow);
      (x in q.rows) == (x in p.rows || (FirstOfNumber(sheet, n) && x == Kept(headerRow + n + 2, sheet[n])))
  {
    SheetRowMeans(sheet, headerRow, n);
    WhyOnlyOne(sheet, n, {});
    assert SkippedFor(sheet, n, {}, UnknownAgent) ==> FirstOfNumber(sheet, n);
    hide Prepare, SkippedFor, FirstOfNumber;
  }

  lemma RejectedStep(sheet: seq<Row>, headerRow: nat, n: nat, y: Skip)
    requires n < |sheet|
    ensures var p, q := Prepare(sheet[..n], headerRow), Prepare(sheet[..n + 1], headerRow);
      (y in q.rejected) == (y in p.rejected || RejectedAt(sheet, headerRow, n, y))
  {
    SheetRowMeans(sheet, headerRow, n);
    WhyOnlyOne(sheet, n, {});
    assert SkippedFor(sheet, n, {}, UnknownAgent) ==> FirstOfNumber(sheet, n);
    hide Prepare, SkippedFor, FirstOfNumber;
  }

  lemma {:induction false} PostedOfPrefix(sheet: seq<Row>, headerRow: nat, n: nat, x: Kept)
    requires n <= |sheet|
    ensures x in Prepare(sheet[..n], headerRow).rows
      <==> exists i :: 0 <= i < n && FirstOfNumber(sheet, i) && x == Kept(headerRow + i + 2, sheet[i])
  {
    if n > 0 {
      hide Prepare, FirstOfNumber;
      PostedOfPrefix(sheet, headerRow, n - 1, x);
      PostedStep(sheet, headerRow, n - 1, x);
    }
  }

  lemma {:induction false} RejectedOfPrefix(sheet: seq<Row>, headerRow: nat, n: nat, y: Skip)
    requires n <= |sheet|
    ensures y in Prepare(sheet[..n], headerRow).rejected
      <==> exists i :: 0 <= i < n && RejectedAt(sheet, headerRow, i, y)
  {
    if n > 0 {
      hide Prepare, RejectedAt;
      RejectedOfPrefix(sheet, headerRow, n - 1, y);
      RejectedStep(sheet, headerRow, n - 1, y);
    }
  }

  /** The sheet rows posted are the first of each number, and every other is rejected for its reason. */
  lemma SheetMeans(sheet: seq<Row>, headerRow: nat, x: Kept, y: Skip)
    ensures x in Prepare(sheet, headerRow).rows
      <==> exists i :: 0 <= i < |sheet| && FirstOfNumber(sheet, i) && x == Kept(headerRow + i + 2, sheet[i])
    ensures y in Prepare(sheet, headerRow).rejected
      <==> exists i :: 0 <= i < |sheet| && RejectedAt(sheet, headerRow, i, y)
  {
    assert sheet[..|sheet|] == sheet;
    PostedOfPrefix(sheet, headerRow, |sheet|, x);
    RejectedOfPrefix(sheet, headerRow, |sheet|, y);
  }

  /** Slices are of 500 rows in order, the last of what is left. */
  lemma SlicesMean(prepared: Prepared, i: nat)
    requires i < SliceCount(prepared)
    ensures var rows, total := RowsOf(prepared.rows), SliceCount(prepared);
      && |Slices(rows, total)| == total
      && 500 * (total - 1) < |rows| <= 500 * total
      && Slices(rows, total)[i] == rows[500 * i..if i < total - 1 then 500 * (i + 1) else |rows|]
  {
    SliceAt(RowsOf(prepared.rows), SliceCount(prepared), i);
  }

  lemma PostedAreFirsts(prepared: Prepared, k: nat)
    requires Distinct(prepared.rows, NumberOf) && k < |prepared.rows| && NumberOf(prepared.rows[k]).Some?
    ensures FirstOfNumber(RowsOf(prepared.rows), k)
  {
    hide Normalize;
    forall j | 0 <= j < k
      ensures Normalize(RowsOf(prepared.rows)[j].phone) != Normalize(RowsOf(prepared.rows)[k].phone)
    {
      assert NumberOf(prepared.rows[j]) != NumberOf(prepared.rows[k]);
    }
  }

  /** Of the rows posted the server can skip those alone whose agent it does not know. */
  lemma ServerSkipsMean(sheet: seq<Row>, headerRow: nat, book: Book, agents: set<string>, k: nat, reason: Reason)
    ensures var prepared := Prepare(sheet, headerRow);
      var rows := RowsOf(prepared.rows);
      var known := KnownAgents(rows, agents);
      (Skip(k, reason) in PlanRows(rows, Whole(book), known).skipped) ==
        (k < |rows| && reason.UnknownAgent? && !AgentKnown(rows[k], known))
  {
    var prepared := Prepare(sheet, headerRow);
    var rows := RowsOf(prepared.rows);
    PreparedRowsAreDistinct(sheet, headerRow);
    ImportMeans(book, rows, agents);
    if k < |rows| {
      assert prepared.rows[k] in prepared.rows;
      PostedAreFirsts(prepared, k);
      FirstHasNumber(rows, k);
    }
    hide Prepare, PlanRows, Whole, KnownAgents, Normalize, AgentKnown, FirstOfNumber, Distinct;
  }

  lemma SkipsInRange(rows: seq<Row>, existing: seq<Existing>, known: set<string>)
    ensures var p := PlanRows(rows, existing, known); forall k | 0 <= k < |p.skipped| :: p.skipped[k].row < |rows|
  {
    PlanAccountsForEveryRow(rows, existing, known);
  }

  /** A row of the sheet that is posted is shown as skipped exactly when the server skips it. */
  lemma PostedShown(sheet: seq<Row>, headerRow: nat, skipped: seq<Skip>, i: nat, reason: Reason, skips: bool)
    requires i < |sheet|
    requires var kept := Prepare(sheet, headerRow).rows;
      && (forall k | 0 <= k < |skipped| :: skipped[k].row < |kept|)
      && (forall k: nat | k < |kept| && kept[k] == Kept(headerRow + i + 2, sheet[i]) ::
            (Skip(k, reason) in skipped) == skips)
    ensures Skip(headerRow + i + 2, reason) in OnSheet(skipped, Prepare(sheet, headerRow).rows) <==>
              FirstOfNumber(sheet, i) && skips
  {
    var kept := Prepare(sheet, headerRow).rows;
    var x := Kept(headerRow + i + 2, sheet[i]);
    var y := Skip(headerRow + i + 2, reason);
    SheetMeans(sheet, headerRow, x, y);
    ShownMeans(skipped, kept, y);
    hide Prepare, FirstOfNumber, RejectedAt, OnSheet;
    forall k: nat | k < |kept| && kept[k].sheetRow == y.row ensures kept[k] == x {
      SheetMeans(sheet, headerRow, kept[k], y);
    }
    if x in kept {
      var k: nat :| k < |kept| && kept[k] == x;
    }
  }

  /**
   * A whole upload reports a sheet row as skipped exactly when it has no
   * number, repeats an earlier row's, or names an agent that is not known.
   */
  lemma ReportMeans(sheet: seq<Row>, headerRow: nat, book: Book, agents: set<string>, i: nat, reason: Reason)
    requires i < |sheet|
    ensures var prepared := Prepare(sheet, headerRow);
      var known := KnownAgents(RowsOf(prepared.rows), agents);
      var plan := PlanRows(RowsOf(prepared.rows), Whole(book), known);
      && (forall k | 0 <= k < |plan.skipped| :: plan.skipped[k].row < |prepared.rows|)
      && (Skip(headerRow + i + 2, reason) in TotalsOf(plan, prepared).skipped <==> SkippedFor(sheet, i, known, reason))
  {
    var prepared := Prepare(sheet, headerRow);
    var rows := RowsOf(prepared.rows);
    var known := KnownAgents(rows, agents);
    var plan := PlanRows(rows, Whole(book), known);
    var y := Skip(headerRow + i + 2, reason);
    SkipsInRange(rows, Whole(book), known);
    SheetMeans(sheet, headerRow, Kept(headerRow + i + 2, sheet[i]), y);
    FirstHasNumber(sheet, i);
    hide Prepare, PlanRows, Whole, KnownAgents, FirstOfNumber, AgentKnown, OnSheet, Normalize;
    assert RejectedAt(sheet, headerRow, i, y) <==> !FirstOfNumber(sheet, i) && SkippedFor(sheet, i, known, reason);
    hide RejectedAt;
    ReportedByServer(sheet, headerRow, book, agents, i, reason);
  }

  /** What the server skipped is shown under the sheet row that was posted. */
  lemma ShownMeans(skipped: seq<Skip>, kept: seq<Kept>, y: Skip)
    requires forall k | 0 <= k < |skipped| :: skipped[k].row < |kept|
    ensures y in OnSheet(skipped, kept) <==>
      exists k: nat :: k < |kept| && kept[k].sheetRow == y.row && Skip(k, y.reason) in skipped
  {
    var shown := OnSheet(skipped, kept);
    if y in shown {
      var n :| 0 <= n < |shown| && shown[n] == y;
      var k := skipped[n].row;
      assert skipped[n] in skipped && skipped[n] == Skip(k, y.reason);
    }
    if k: nat :| k < |kept| && kept[k].sheetRow == y.row && Skip(k, y.reason) in skipped {
      var n :| 0 <= n < |skipped| && skipped[n] == Skip(k, y.reason);
      assert shown[n] == y;
    }
  }

  lemma ReportedByServer(sheet: seq<Row>, headerRow: nat, book: Book, agents: set<string>, i: nat, reason: Reason)
    requires i < |sheet|
    ensures var prepared := Prepare(sheet, headerRow);
      var known := KnownAgents(RowsOf(prepared.rows), agents);
      var plan := PlanRows(RowsOf(prepared.rows), Whole(book), known);
      && (forall k | 0 <= k < |plan.skipped| :: plan.skipped[k].row < |prepared.rows|)
      && (Skip(headerRow + i + 2, reason) in OnSheet(plan.skipped, prepared.rows) <==>
            FirstOfNumber(sheet, i) && reason.UnknownAgent? && !AgentKnown(sheet[i], known))
  {
    var kept := Prepare(sheet, headerRow).rows;
    var known := KnownAgents(RowsOf(kept), agents);
    var skipped := PlanRows(RowsOf(kept), Whole(book), known).skipped;
    var skips := reason.UnknownAgent? && !AgentKnown(sheet[i], known);
    SkipsInRange(RowsOf(kept), Whole(book), known);
    assert skipped == PlanRows(RowsOf(kept), Whole(book), known).skipped;
    assert forall k | 0 <= k < |skipped| :: skipped[k].row < |RowsOf(kept)|;
    hide Prepare, PlanRows, Whole, KnownAgents, AgentKnown, FirstOfNumber, RejectedAt, OnSheet;
    forall k: nat | k < |kept| && kept[k] == Kept(headerRow + i + 2, sheet[i])
      ensures (Skip(k, reason) in skipped) == skips
    {
      ServerSkipsMean(sheet, headerRow, book, agents, k, reason);
    }
    PostedShown(sheet, headerRow, skipped, i, reason, skips);
  }
}
