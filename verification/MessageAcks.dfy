/**
 * Server acks of WhatsApp sends, which arrive late, repeated and out of order:
 * each one moves the matching rows' status up a chain and never down it.
 */
module MessageAcks {
  import opened Prelude

  datatype Status = Received | Queued | Sent | Delivered | Read | Failed

  /** `error` is the reason given with the last rejection. */
  datatype Row = Row(
    session: string, waMessageId: Option<string>, outbound: bool, status: Status, error: Option<Option<string>>)

  /** One update as the server sends it; `stored` is false when the database refuses the write. */
  datatype Update = Update(id: Option<string>, code: Option<int>, reason: Option<string>, stored: bool)

  predicate Targets(u: Update, session: string, r: Row) {
    && u.id.Some? && u.id.value != "" && u.stored
    && r.outbound && r.session == session && r.waMessageId == u.id
  }

  /** What one update writes to one row. */
  function AckRow(r: Row, session: string, u: Update): Row {
    if !Targets(u, session, r) || u.code.None? then r
    else if u.code.value == 0 then r.(status := Failed, error := Some(if u.reason == Some("") then None else u.reason))
    else if u.code.value == 3 && (r.status.Queued? || r.status.Sent?) then r.(status := Delivered)
    else if u.code.value == 4 && (r.status.Queued? || r.status.Sent? || r.status.Delivered?) then r.(status := Read)
    else r
  }

  function AckedRow(r: Row, session: string, us: seq<Update>): Row {
    if us == [] then r else AckRow(AckedRow(r, session, us[..|us| - 1]), session, us[|us| - 1])
  }

  /** The row as a conditional write leaves it. */
  function Written(
      r: Row, session: string, id: string, from: Option<set<Status>>, to: Status, error: Option<Option<string>>): Row
  {
    if r.outbound && r.session == session && r.waMessageId == Some(id) && (from.None? || r.status in from.value)
    then r.(status := to, error := if error.Some? then error else r.error)
    else r
  }

  class MessageTable {
    var rows: seq<Row>

    constructor (rows: seq<Row>)
      ensures this.rows == rows
    {
      this.rows := rows;
    }

    /** Writes the rows of the session that hold the id, are outbound and, if given, are in one of the states. */
    method UpdateMany(session: string, id: string, from: Option<set<Status>>, to: Status, error: Option<Option<string>>)
      modifies this
      ensures |rows| == |old(rows)|
      ensures forall i | 0 <= i < |rows| :: rows[i] == Written(old(rows)[i], session, id, from, to, error)
    {
      ghost var was := rows;
      for k := 0 to |rows|
        invariant |rows| == |was|
        invariant forall i | k <= i < |rows| :: rows[i] == was[i]
        invariant forall i | 0 <= i < k :: rows[i] == Written(was[i], session, id, from, to, error)
      {
        rows := rows[k := Written(rows[k], session, id, from, to, error)];
      }
    }

    method OnMessageStatusUpdates(session: string, updates: seq<Update>)
      modifies this
      ensures |rows| == |old(rows)|
      ensures forall i | 0 <= i < |rows| :: rows[i] == AckedRow(old(rows)[i], session, updates)
    {
      ghost var was := rows;
      for k := 0 to |updates|
        invariant |rows| == |was|
        invariant forall i | 0 <= i < |rows| :: rows[i] == AckedRow(was[i], session, updates[..k])
      {
        var u := updates[k];
        assert updates[..k + 1][..k] == updates[..k] && updates[..k + 1][k] == u;
        ghost var before := rows;
        assert forall i | 0 <= i < |rows| ::
          AckedRow(was[i], session, updates[..k + 1]) == AckRow(before[i], session, u);
        if u.id.None? || u.id.value == "" || u.code.None? {
          assert rows == before;
          continue;
        }
        if u.code.value == 0 {
          if u.stored {
            UpdateMany(session, u.id.value, None, Failed, Some(if u.reason == Some("") then None else u.reason));
          }
        } else if u.code.value == 4 {
          if u.stored {
            UpdateMany(session, u.id.value, Some({Queued, Sent, Delivered}), Read, None);
          }
        } else if u.code.value == 3 {
          if u.stored {
            UpdateMany(session, u.id.value, Some({Queued, Sent}), Delivered, None);
          }
        }
        assert forall i | 0 <= i < |rows| :: rows[i] == AckRow(before[i], session, u);
      }
      assert updates[..|updates|] == updates;
    }
  }

  // ---------------------------------------------------------------- acks are a join

  /** The chain QUEUED < SENT < DELIVERED < READ < FAILED. */
  function Rank(s: Status): int {
    match s
    case Received => -1
    case Queued => 0
    case Sent => 1
    case Delivered => 2
    case Read => 3
    case Failed => 4
  }

  /** The status an update vouches for. */
  function Vouches(u: Update): Option<Status> {
    if u.code == Some(0) then Some(Failed)
    else if u.code == Some(3) then Some(Delivered)
    else if u.code == Some(4) then Some(Read)
    else None
  }

  /** The statuses the updates vouch for on a row. */
  ghost function AckSet(r: Row, session: string, us: seq<Update>): set<Status> {
    set u | u in us && Targets(u, session, r) && Vouches(u).Some? :: Vouches(u).value
  }

  /** `s` is the highest of the set. */
  ghost predicate IsTop(s: Status, ss: set<Status>) {
    s in ss && forall t | t in ss :: Rank(t) <= Rank(s)
  }

  lemma AckSetSnoc(r: Row, session: string, us: seq<Update>, u: Update)
    ensures AckSet(r, session, us + [u]) == AckSet(r, session, us)
      + if Targets(u, session, r) && Vouches(u).Some? then {Vouches(u).value} else {}
  {
  }

  /** One ack moves the status to the higher of the two. */
  lemma AckIsMax(r: Row, session: string, u: Update)
    requires !r.status.Received?
    ensures var r' := AckRow(r, session, u);
      && (if Targets(u, session, r) && Vouches(u).Some? && Rank(Vouches(u).value) > Rank(r.status)
          then r'.status == Vouches(u).value else r'.status == r.status)
      && r'.(status := r.status, error := r.error) == r && !r'.status.Received?
  {
  }

  /** An outbound row ends at the highest of its own status and those its acks vouch for. */
  lemma {:induction false} AcksAreAJoin(r: Row, session: string, us: seq<Update>)
    requires !r.status.Received?
    ensures var r' := AckedRow(r, session, us);
      && IsTop(r'.status, AckSet(r, session, us) + {r.status})
      && r'.(status := r.status, error := r.error) == r
  {
    if us != [] {
      var front, u := us[..|us| - 1], us[|us| - 1];
      AcksAreAJoin(r, session, front);
      assert us == front + [u];
      AckSetSnoc(r, session, front, u);
      AckIsMax(AckedRow(r, session, front), session, u);
      hide AckSet, AckRow, Vouches;
    }
  }

  /** Order and repetition of acks do not show in the status. */
  lemma OnlyTheSetOfAcksMatters(r: Row, session: string, us: seq<Update>, vs: seq<Update>)
    requires !r.status.Received?
    requires AckSet(r, session, us) == AckSet(r, session, vs)
    ensures AckedRow(r, session, us).status == AckedRow(r, session, vs).status
  {
    AcksAreAJoin(r, session, us);
    AcksAreAJoin(r, session, vs);
  }

  /** Two batches are one: how the server groups updates does not matter either. */
  lemma {:induction false} BatchesConcatenate(r: Row, session: string, us: seq<Update>, vs: seq<Update>)
    ensures AckedRow(AckedRow(r, session, us), session, vs) == AckedRow(r, session, us + vs)
  {
    if vs == [] {
      assert us + vs == us;
    } else {
      BatchesConcatenate(r, session, us, vs[..|vs| - 1]);
      assert (us + vs)[..|us + vs| - 1] == us + vs[..|vs| - 1];
    }
  }

  /** Index of the last rejection of the row, or the length when there is none. */
  ghost predicate IsLastRejection(r: Row, session: string, us: seq<Update>, k: nat) {
    && k < |us| && Targets(us[k], session, r) && us[k].code == Some(0)
    && forall i | k < i < |us| && Targets(us[i], session, r) :: us[i].code != Some(0)
  }

  /** The stored reason, unlike the status, does follow order: it is the last rejection's. */
  lemma {:induction false} LastReasonStays(r: Row, session: string, us: seq<Update>, k: nat)
    requires IsLastRejection(r, session, us, k)
    ensures var r' := AckedRow(r, session, us);
      && r'.status.Failed?
      && r'.error == Some(if us[k].reason == Some("") then None else us[k].reason)
    decreases |us|
  {
    var front := us[..|us| - 1];
    KeepsIdentity(r, session, front);
    if k < |us| - 1 { LastReasonStays(r, session, front, k); }
  }

  lemma {:induction false} KeepsIdentity(r: Row, session: string, us: seq<Update>)
    ensures AckedRow(r, session, us).(status := r.status, error := r.error) == r
  {
    if us != [] { KeepsIdentity(r, session, us[..|us| - 1]); }
  }

  /** A row filed as received answers to rejections only, so the chain is stated without it. */
  lemma {:induction false} ReceivedRowsOnlyFail(r: Row, session: string, us: seq<Update>)
    requires r.status.Received?
    ensures AckedRow(r, session, us).status == if Failed in AckSet(r, session, us) then Failed else Received
  {
    if us != [] {
      var front, u := us[..|us| - 1], us[|us| - 1];
      ReceivedRowsOnlyFail(r, session, front);
      KeepsIdentity(r, session, front);
      assert us == front + [u];
      AckSetSnoc(r, session, front, u);
      hide AckSet;
    }
  }

  /** Some stored update of the id, which is not empty, has this code. */
  predicate Acked(us: seq<Update>, id: Option<string>, code: int) {
    id.Some? && id != Some("") && exists u :: u in us && u.stored && u.id == id && u.code == Some(code)
  }

  lemma VouchedMeans(r: Row, session: string, us: seq<Update>, s: Status)
    ensures s in AckSet(r, session, us) <==>
      && r.outbound && r.session == session
      && match s
         case Delivered => Acked(us, r.waMessageId, 3)
         case Read => Acked(us, r.waMessageId, 4)
         case Failed => Acked(us, r.waMessageId, 0)
         case Received | Queued | Sent => false
  {
  }

  /** A sent row has failed once rejected, else is read once 4 came for it, else delivered once 3 did. */
  lemma AcksMean(r: Row, session: string, us: seq<Update>)
    requires !r.status.Received? && r.outbound && r.session == session
    ensures AckedRow(r, session, us).status ==
      if r.status.Failed? || Acked(us, r.waMessageId, 0) then Failed
      else if r.status.Read? || Acked(us, r.waMessageId, 4) then Read
      else if r.status.Delivered? || Acked(us, r.waMessageId, 3) then Delivered
      else r.status
  {
    AcksAreAJoin(r, session, us);
    VouchedMeans(r, session, us, Failed);
    VouchedMeans(r, session, us, Read);
    VouchedMeans(r, session, us, Delivered);
    var s := AckedRow(r, session, us).status;
    VouchedMeans(r, session, us, s);
    hide AckSet, AckedRow, Acked;
  }

  /** Inbound rows, rows of other sessions and rows no stored update names stay as they are. */
  lemma {:induction false} OtherRowsStay(r: Row, session: string, us: seq<Update>)
    requires || !r.outbound || r.session != session || r.waMessageId.None? || r.waMessageId == Some("")
             || forall u | u in us && u.stored && u.id == r.waMessageId :: u.code !in {Some(0), Some(3), Some(4)}
    ensures AckedRow(r, session, us) == r
  {
    if us != [] {
      var front, u := us[..|us| - 1], us[|us| - 1];
      assert u in us && forall x | x in front :: x in us;
      OtherRowsStay(r, session, front);
    }
  }
}
