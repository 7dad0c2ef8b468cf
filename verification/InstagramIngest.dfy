/**
 * At-most-once ingestion of Instagram webhook deliveries: a ledger of claimed
 * ids, in which every delivery claims its envelope and every message claims
 * its own identity, and the message store behind it.
 */
module InstagramIngest {
  import opened Prelude

  /** Where processing of a claimed message throws, if it does. */
  datatype Fault = Nothing | BeforeThread | BeforeRow | AfterRow

  /** What the database did with one insert into the ledger; only `Goes` tells the caller it succeeded. */
  datatype Insert = Goes | Refused | AnswerLost

  /** One verified delivery; a missing id is the empty string, and `accountId` and `text` may be null. */
  datatype Delivery = Delivery(id: string, event: string, platformMessageId: string, thread: string,
                               accountId: Option<string>, account: string,
                               outgoing: bool, text: Option<string>,
                               envelope: Insert, key: Insert, fault: Fault)

  datatype Source = Api | Device | Contact

  datatype Row = Row(session: string, waMessageId: string, thread: string, source: Source, text: Option<string>)

  /** A message's identity: the event it came under and the platform's id for it. */
  type Identity = (string, string)

  /** What ingestion leaves behind, the ledger aside; `started` and `automated` log calls. */
  datatype Store = Store(rows: seq<Row>, unread: map<(string, string), nat>,
                         started: seq<Identity>, dispatched: seq<Identity>, automated: seq<Identity>)

  datatype State = State(claimed: set<string>, store: Store)

  /** Session of an Instagram account; accounts of nobody here are absent. */
  type Accounts = map<string, string>

  /** What can happen to the store: a webhook delivery, a send of our own being recorded, a thread being read. */
  datatype Happening =
    | Webhook(d: Delivery)
    | OwnSend(session: string, waMessageId: string, thread: string, text: Option<string>)
    | MarkedRead(session: string, thread: string)

  const Fresh := State({}, Store([], map[], [], [], []))

  predicate HasEnvelope(d: Delivery) {
    d.id != "" && d.event != ""
  }

  predicate IsMessageEvent(d: Delivery) {
    && (d.event == "message.received" || d.event == "message.sent")
    && d.platformMessageId != "" && d.thread != ""
    && (d.account != "" || (d.accountId.Some? && d.accountId.value != ""))
  }

  function AccountOf(d: Delivery): string {
    if d.accountId.Some? then d.accountId.value else d.account
  }

  function IdentityOf(d: Delivery): Identity {
    (d.event, d.platformMessageId)
  }

  function KeyOf(m: Identity): string {
    m.0 + ":" + m.1
  }

  predicate Holds(rows: seq<Row>, session: string, waMessageId: string) {
    exists r :: r in rows && r.session == session && r.waMessageId == waMessageId
  }

  function UnreadOf(s: Store, thread: (string, string)): nat {
    if thread in s.unread then s.unread[thread] else 0
  }

  /** The thread upsert that precedes the row. */
  function Touched(s: Store, thread: (string, string), inbound: bool): Store {
    s.(unread := s.unread[thread := UnreadOf(s, thread) + if inbound then 1 else 0])
  }

  function Ingested(s: Store, d: Delivery, accounts: Accounts): Store {
    var s := s.(started := s.started + [IdentityOf(d)]);
    if AccountOf(d) !in accounts then s
    else
      var session := accounts[AccountOf(d)];
      if d.outgoing && Holds(s.rows, session, d.platformMessageId) then s
      else if d.fault.BeforeThread? then s
      else
        var s := Touched(s, (session, d.thread), !d.outgoing);
        if d.fault.BeforeRow? then s
        else
          var row := Row(session, d.platformMessageId, d.thread, if d.outgoing then Device else Contact, d.text);
          var s := s.(rows := s.rows + [row]);
          if d.fault.AfterRow? then s
          else
            var s := s.(dispatched := s.dispatched + [IdentityOf(d)]);
            if d.outgoing then s else s.(automated := s.automated + [IdentityOf(d)])
  }

  /** The claim was answered "new": nothing was there, and the insert went through and said so. */
  predicate Wins(claimed: set<string>, id: string, i: Insert) {
    id !in claimed && i.Goes?
  }

  function Claimed(claimed: set<string>, id: string, i: Insert): set<string> {
    if i.Refused? then claimed else claimed + {id}
  }

  function Handled(s: State, d: Delivery, accounts: Accounts): State {
    if !HasEnvelope(d) then s
    else
      var key := KeyOf(IdentityOf(d));
      var ledger := Claimed(s.claimed, d.id, d.envelope);
      if !Wins(s.claimed, d.id, d.envelope) || !IsMessageEvent(d) then s.(claimed := ledger)
      else if !Wins(ledger, key, d.key) then s.(claimed := Claimed(ledger, key, d.key))
      else State(ledger + {key}, Ingested(s.store, d, accounts))
  }

  function Sent(s: Store, e: Happening): Store
    requires e.OwnSend?
  {
    var s := Touched(s, (e.session, e.thread), false);
    s.(rows := s.rows + [Row(e.session, e.waMessageId, e.thread, Api, e.text)])
  }

  /** Reading an unknown thread is refused and changes nothing. */
  function WasRead(s: Store, thread: (string, string)): Store {
    if thread in s.unread then s.(unread := s.unread[thread := 0]) else s
  }

  function Happened(s: State, e: Happening, accounts: Accounts): State {
    match e
    case Webhook(d) => Handled(s, d, accounts)
    case OwnSend(_, _, _, _) => s.(store := Sent(s.store, e))
    case MarkedRead(session, thread) => s.(store := WasRead(s.store, (session, thread)))
  }

  function After(h: seq<Happening>, accounts: Accounts): State {
    if h == [] then Fresh else Happened(After(h[..|h| - 1], accounts), h[|h| - 1], accounts)
  }

  // ---------------------------------------------------------------- the service

  class IngestService {
    const accounts: Accounts
    var claimed: set<string>
    var rows: seq<Row>
    var unread: map<(string, string), nat>
    var started: seq<Identity>
    var dispatched: seq<Identity>
    var automated: seq<Identity>

    ghost function Kept(): Store
      reads this
    {
      Store(rows, unread, started, dispatched, automated)
    }

    ghost function View(): State
      reads this
    {
      State(claimed, Kept())
    }

    constructor (accounts: Accounts)
      ensures View() == Fresh && this.accounts == accounts
    {
      this.accounts := accounts;
      claimed, rows, unread, started, dispatched, automated := {}, [], map[], [], [], [];
    }

    /** The insert is the claim: it fails on an id that is already there, and on any database error. */
    method Claim(id: string, i: Insert) returns (won: bool)
      modifies this`claimed
      ensures won == Wins(old(claimed), id, i) && claimed == Claimed(old(claimed), id, i)
    {
      won := id !in claimed && i.Goes?;
      if !i.Refused? { claimed := claimed + {id}; }
    }

    method TouchThread(session: string, thread: string, inbound: bool)
      modifies this`unread
      ensures Kept() == Touched(old(Kept()), (session, thread), inbound)
    {
      var key := (session, thread);
      var before := if key in unread then unread[key] else 0;
      unread := unread[key := before + if inbound then 1 else 0];
    }

    method RecordSend(session: string, waMessageId: string, thread: string, text: Option<string>)
      modifies this
      ensures View() == Happened(old(View()), OwnSend(session, waMessageId, thread, text), accounts)
    {
      TouchThread(session, thread, false);
      rows := rows + [Row(session, waMessageId, thread, Api, text)];
    }

    method MarkRead(session: string, thread: string)
      modifies this`unread
      ensures View() == Happened(old(View()), MarkedRead(session, thread), accounts)
    {
      if (session, thread) in unread { unread := unread[(session, thread) := 0]; }
    }

    method IngestMessage(d: Delivery)
      modifies this
      ensures claimed == old(claimed) && Kept() == Ingested(old(Kept()), d, accounts)
    {
      started := started + [IdentityOf(d)];
      var accountId := AccountOf(d);
      if accountId !in accounts { return; }
      var session := accounts[accountId];
      if d.outgoing {
        if exists r :: r in rows && r.session == session && r.waMessageId == d.platformMessageId { return; }
      }
      if d.fault.BeforeThread? { return; }
      TouchThread(session, d.thread, !d.outgoing);
      if d.fault.BeforeRow? { return; }
      var source := if d.outgoing then Device else Contact;
      rows := rows + [Row(session, d.platformMessageId, d.thread, source, d.text)];
      if d.fault.AfterRow? { return; }
      dispatched := dispatched + [IdentityOf(d)];
      if d.outgoing { return; }
      automated := automated + [IdentityOf(d)];
    }

    method Handle(d: Delivery)
      modifies this
      ensures View() == Handled(old(View()), d, accounts)
    {
      if !HasEnvelope(d) { return; }
      var mine := Claim(d.id, d.envelope);
      if !mine || !IsMessageEvent(d) { return; }
      var first := Claim(KeyOf(IdentityOf(d)), d.key);
      if !first { return; }
      IngestMessage(d);
    }
  }

  // ---------------------------------------------------------------- at most once

  lemma KeyIsInjective(a: Delivery, b: Delivery)
    requires IsMessageEvent(a) && IsMessageEvent(b)
    ensures KeyOf(IdentityOf(a)) == KeyOf(IdentityOf(b)) <==> IdentityOf(a) == IdentityOf(b)
  {
    var ka, kb := KeyOf(IdentityOf(a)), KeyOf(IdentityOf(b));
    if ka == kb {
      assert ka[8] == a.event[8] && kb[8] == b.event[8];
      assert a.event == b.event;
      assert a.platformMessageId == ka[|a.event| + 1..];
      assert b.platformMessageId == kb[|b.event| + 1..];
    }
  }

  ghost predicate LogsAgree(s: State) {
    && (forall m | m in s.store.started :: KeyOf(m) in s.claimed)
    && (forall m | m in s.store.dispatched :: m in s.store.started)
    && (forall m | m in s.store.automated :: m in s.store.dispatched)
    && Distinct(s.store.started, Same) && Distinct(s.store.dispatched, Same) && Distinct(s.store.automated, Same)
  }

  function Same(m: Identity): Identity {
    m
  }

  /** A message not started yet is logged once more in each log it gets to. */
  lemma IngestedLogs(s: Store, d: Delivery, accounts: Accounts)
    ensures var s', m := Ingested(s, d, accounts), [IdentityOf(d)];
      && s'.started == s.started + m
      && (s'.dispatched == s.dispatched || s'.dispatched == s.dispatched + m)
      && (s'.automated == s.automated || (s'.automated == s.automated + m && s'.dispatched == s.dispatched + m))
  {
  }

  lemma HandledKeepsLogs(s: State, d: Delivery, accounts: Accounts)
    requires LogsAgree(s)
    ensures LogsAgree(Handled(s, d, accounts))
  {
    var m := IdentityOf(d);
    DistinctSnoc(s.store.started, m, Same);
    DistinctSnoc(s.store.dispatched, m, Same);
    DistinctSnoc(s.store.automated, m, Same);
    IngestedLogs(s.store, d, accounts);
    hide Ingested, Distinct;
  }

  /**
   * Over any deliveries, repeats and thrown exceptions, a message is ingested,
   * announced and answered at most once each.
   */
  lemma {:induction false} AtMostOnce(h: seq<Happening>, accounts: Accounts)
    ensures LogsAgree(After(h, accounts))
  {
    if h != [] {
      var front, e := h[..|h| - 1], h[|h| - 1];
      AtMostOnce(front, accounts);
      if e.Webhook? { HandledKeepsLogs(After(front, accounts), e.d, accounts); }
    }
  }

  /** Once started, a message is never ingested again, even if its one attempt threw. */
  lemma NoSecondAttempt(h: seq<Happening>, d: Delivery, accounts: Accounts)
    requires IdentityOf(d) in After(h, accounts).store.started
    ensures After(h + [Webhook(d)], accounts).store == After(h, accounts).store
  {
    AtMostOnce(h, accounts);
    assert (h + [Webhook(d)])[..|h|] == h;
  }

  // ---------------------------------------------------------------- repeats change nothing

  predicate IsMessage(e: Happening) {
    e.Webhook? && HasEnvelope(e.d) && IsMessageEvent(e.d)
  }

  predicate IsEnveloped(e: Happening) {
    e.Webhook? && HasEnvelope(e.d)
  }

  /** No envelope id reads like a message key. */
  ghost predicate IdsApart(h: seq<Happening>) {
    forall x, y | x in h && y in h && IsEnveloped(x) && IsMessage(y) :: x.d.id != KeyOf(IdentityOf(y.d))
  }

  /** Some delivery left this envelope id in the ledger. */
  predicate EnvelopeLeft(h: seq<Happening>, id: string) {
    exists e :: e in h && IsEnveloped(e) && e.d.id == id && !e.d.envelope.Refused?
  }

  /** The delivery of the message that comes after h gets as far as inserting its key. */
  predicate ReachesKey(h: seq<Happening>, e: Happening) {
    IsMessage(e) && e.d.envelope.Goes? && !EnvelopeLeft(h, e.d.id)
  }

  /** Some delivery left this message's key in the ledger. */
  predicate KeyLeft(h: seq<Happening>, m: Identity) {
    exists j :: 0 <= j < |h| && ReachesKey(h[..j], h[j]) && IdentityOf(h[j].d) == m && !h[j].d.key.Refused?
  }

  /** The delivery that comes after h is the one that ingests its message. */
  predicate Takes(h: seq<Happening>, e: Happening) {
    ReachesKey(h, e) && e.d.key.Goes? && !KeyLeft(h, IdentityOf(e.d))
  }

  lemma EnvelopeLeftSnoc(h: seq<Happening>, e: Happening, id: string)
    ensures EnvelopeLeft(h + [e], id)
      <==> EnvelopeLeft(h, id) || (IsEnveloped(e) && e.d.id == id && !e.d.envelope.Refused?)
  {
    assert forall x | x in h :: x in h + [e];
    assert e in h + [e];
  }

  lemma KeyLeftSnoc(h: seq<Happening>, e: Happening, m: Identity)
    ensures KeyLeft(h + [e], m)
      <==> KeyLeft(h, m) || (ReachesKey(h, e) && IdentityOf(e.d) == m && !e.d.key.Refused?)
  {
    hide EnvelopeLeft, IsMessageEvent;
    var all := h + [e];
    assert all[..|h|] == h && all[|h|] == e;
    assert forall j | 0 <= j < |h| :: all[..j] == h[..j] && all[j] == h[j];
    if KeyLeft(h, m) {
      var j :| 0 <= j < |h| && ReachesKey(h[..j], h[j]) && IdentityOf(h[j].d) == m && !h[j].d.key.Refused?;
      assert ReachesKey(all[..j], all[j]);
    }
    if ReachesKey(h, e) && IdentityOf(e.d) == m && !e.d.key.Refused? {
      assert ReachesKey(all[..|h|], all[|h|]);
    }
  }

  /** The ledger holds exactly the envelope ids and the message keys that deliveries left. */
  ghost predicate LedgerIs(h: seq<Happening>, claimed: set<string>) {
    forall x :: x in claimed <==> EnvelopeLeft(h, x) || exists m :: KeyLeft(h, m) && KeyOf(m) == x
  }

  /** With ids apart, an envelope id is in the ledger only as one. */
  lemma EnvelopeInLedger(h: seq<Happening>, claimed: set<string>, e: Happening)
    requires LedgerIs(h, claimed) && IdsApart(h + [e]) && IsEnveloped(e)
    ensures e.d.id in claimed <==> EnvelopeLeft(h, e.d.id)
  {
    forall m | KeyLeft(h, m) ensures KeyOf(m) != e.d.id {
      var j :| 0 <= j < |h| && ReachesKey(h[..j], h[j]) && IdentityOf(h[j].d) == m && !h[j].d.key.Refused?;
      assert h[j] in h + [e] && e in h + [e];
    }
  }

  /** And a message key only as that message's. */
  lemma KeyInLedger(h: seq<Happening>, claimed: set<string>, e: Happening)
    requires LedgerIs(h, claimed) && IdsApart(h + [e]) && IsMessage(e)
    ensures KeyOf(IdentityOf(e.d)) in claimed <==> KeyLeft(h, IdentityOf(e.d))
  {
    var key := KeyOf(IdentityOf(e.d));
    forall x | x in h && IsEnveloped(x) ensures x.d.id != key {
      assert x in h + [e] && e in h + [e];
    }
    forall m | KeyLeft(h, m) && KeyOf(m) == key ensures m == IdentityOf(e.d) {
      var j :| 0 <= j < |h| && ReachesKey(h[..j], h[j]) && IdentityOf(h[j].d) == m && !h[j].d.key.Refused?;
      KeyIsInjective(h[j].d, e.d);
    }
  }

  lemma LedgerStep(h: seq<Happening>, s: State, e: Happening, accounts: Accounts)
    requires LedgerIs(h, s.claimed) && IdsApart(h + [e])
    ensures LedgerIs(h + [e], Happened(s, e, accounts).claimed)
    ensures Happened(s, e, accounts).store
      == if e.Webhook? then (if Takes(h, e) then Ingested(s.store, e.d, accounts) else s.store)
         else Happened(s, e, accounts).store
  {
    hide Ingested, KeyLeft, EnvelopeLeft;
    forall x { EnvelopeLeftSnoc(h, e, x); }
    forall m { KeyLeftSnoc(h, e, m); }
    if IsEnveloped(e) { EnvelopeInLedger(h, s.claimed, e); }
    if IsMessage(e) {
      var key := KeyOf(IdentityOf(e.d));
      KeyInLedger(h, s.claimed, e);
      assert e in h + [e] && key != e.d.id;
    }
  }

  lemma IdsApartFront(h: seq<Happening>, k: nat)
    requires IdsApart(h) && k <= |h|
    ensures IdsApart(h[..k])
  {
  }

  lemma {:induction false} LedgerHoldsIdsAndKeys(h: seq<Happening>, accounts: Accounts)
    requires IdsApart(h)
    ensures LedgerIs(h, After(h, accounts).claimed)
  {
    if h != [] {
      hide LedgerIs, IdsApart, Happened;
      var front, e := h[..|h| - 1], h[|h| - 1];
      assert h == front + [e];
      IdsApartFront(h, |h| - 1);
      LedgerHoldsIdsAndKeys(front, accounts);
      LedgerStep(front, After(front, accounts), e, accounts);
    } else {
      assert forall m :: !KeyLeft(h, m);
    }
  }

  /** A delivery changes the store exactly when it is the one that takes its message. */
  lemma IngestedExactlyWhenTaken(front: seq<Happening>, e: Happening, accounts: Accounts)
    requires IdsApart(front + [e]) && e.Webhook?
    ensures var s := After(front, accounts);
      Happened(s, e, accounts).store == if Takes(front, e) then Ingested(s.store, e.d, accounts) else s.store
  {
    hide LedgerIs, IdsApart, Happened, Takes, Ingested;
    assert (front + [e])[..|front|] == front;
    IdsApartFront(front + [e], |front|);
    LedgerHoldsIdsAndKeys(front, accounts);
    LedgerStep(front, After(front, accounts), e, accounts);
  }

  /** The history with only the deliveries that take their message. */
  function Firsts(h: seq<Happening>): (r: seq<Happening>)
    ensures forall e | e in r :: e in h
  {
    if h == [] then []
    else
      var front, e := h[..|h| - 1], h[|h| - 1];
      if !e.Webhook? || Takes(front, e) then Firsts(front) + [e] else Firsts(front)
  }

  lemma {:induction false} FirstsLeaveKeys(h: seq<Happening>, e: Happening)
    requires e in Firsts(h) && e.Webhook?
    ensures KeyLeft(h, IdentityOf(e.d))
  {
    hide KeyLeft;
    var front, last := h[..|h| - 1], h[|h| - 1];
    assert h == front + [last];
    KeyLeftSnoc(front, last, IdentityOf(e.d));
    if e in Firsts(front) {
      FirstsLeaveKeys(front, e);
    } else {
      assert e == last && Takes(front, last);
    }
  }

  /** What takes its message in a history still does among the firsts. */
  lemma StillTakes(front: seq<Happening>, e: Happening)
    requires Takes(front, e)
    ensures Takes(Firsts(front), e)
  {
    var fs := Firsts(front);
    if KeyLeft(fs, IdentityOf(e.d)) {
      var j :| 0 <= j < |fs| && ReachesKey(fs[..j], fs[j])
               && IdentityOf(fs[j].d) == IdentityOf(e.d) && !fs[j].d.key.Refused?;
      FirstsLeaveKeys(front, fs[j]);
    }
  }

  /**
   * Whatever is repeated, under the same or fresh envelopes, and whatever the
   * ledger's database refuses, the store is that of the taken deliveries alone.
   */
  lemma {:induction false} FirstOccurrencesDecide(h: seq<Happening>, accounts: Accounts)
    requires IdsApart(h)
    ensures After(h, accounts).store == After(Firsts(h), accounts).store
  {
    hide Takes, Happened, IdsApart;
    if h != [] {
      var front, e := h[..|h| - 1], h[|h| - 1];
      var fs := Firsts(front);
      assert h == front + [e];
      IdsApartFront(h, |h| - 1);
      FirstOccurrencesDecide(front, accounts);
      assert (fs + [e])[..|fs|] == fs;
      if e.Webhook? {
        IngestedExactlyWhenTaken(front, e, accounts);
        if Takes(front, e) {
          StillTakes(front, e);
          ApartAmong(h, fs + [e]);
          IngestedExactlyWhenTaken(fs, e, accounts);
        }
      } else {
        OnlyTheStoreCounts(After(front, accounts), After(fs, accounts), e, accounts);
      }
    }
  }

  lemma ApartAmong(h: seq<Happening>, fs: seq<Happening>)
    requires IdsApart(h) && forall e | e in fs :: e in h
    ensures IdsApart(fs)
  {
  }

  lemma OnlyTheStoreCounts(s: State, t: State, e: Happening, accounts: Accounts)
    requires s.store == t.store && !e.Webhook?
    ensures Happened(s, e, accounts).store == Happened(t, e, accounts).store
  {
  }

  /** Some element delivers the message. */
  predicate Delivers(h: seq<Happening>, m: Identity) {
    exists e :: e in h && IsMessage(e) && IdentityOf(e.d) == m
  }

  /** One envelope id, one payload; and the database refuses no insert. */
  ghost predicate WellIdentified(h: seq<Happening>) {
    && (forall x, y | x in h && y in h && IsEnveloped(x) && IsEnveloped(y) && x.d.id == y.d.id ::
          IsMessage(x) == IsMessage(y) && (IsMessage(x) ==> IdentityOf(x.d) == IdentityOf(y.d)))
    && (forall x | x in h && IsEnveloped(x) :: x.d.envelope.Goes? && x.d.key.Goes?)
  }

  /** Then the delivery that takes a message is its first. */
  lemma {:induction false} FirstDeliveryTakes(front: seq<Happening>, e: Happening)
    requires WellIdentified(front + [e])
    ensures Takes(front, e) <==> IsMessage(e) && !Delivers(front, IdentityOf(e.d))
  {
    var all := front + [e];
    assert e in all && forall x | x in front :: x in all;
    if IsMessage(e) {
      if EnvelopeLeft(front, e.d.id) {
        var x :| x in front && IsEnveloped(x) && x.d.id == e.d.id && !x.d.envelope.Refused?;
        assert IsMessage(x) && IdentityOf(x.d) == IdentityOf(e.d);
      }
      if Delivers(front, IdentityOf(e.d)) { DeliveredLeavesKey(front, IdentityOf(e.d)); }
      if KeyLeft(front, IdentityOf(e.d)) {
        var j :| 0 <= j < |front| && ReachesKey(front[..j], front[j]) && IdentityOf(front[j].d) == IdentityOf(e.d);
        assert front[j] in front;
      }
    }
  }

  lemma {:induction false} DeliveredLeavesKey(h: seq<Happening>, m: Identity)
    requires WellIdentified(h) && Delivers(h, m)
    ensures KeyLeft(h, m)
  {
    var front, e := h[..|h| - 1], h[|h| - 1];
    assert h == front + [e] && e in h;
    assert forall x | x in front :: x in h;
    KeyLeftSnoc(front, e, m);
    if Delivers(front, m) {
      DeliveredLeavesKey(front, m);
    } else {
      assert forall x | x in front && IsEnveloped(x) && x.d.id == e.d.id :: IsMessage(x) && IdentityOf(x.d) == m;
    }
  }

  // ---------------------------------------------------------------- echoes

  /** Ingestion adds no row, or one the session did not hold unless the message is inbound. */
  lemma IngestedRows(s: Store, d: Delivery, accounts: Accounts)
    ensures var rows := Ingested(s, d, accounts).rows;
      || rows == s.rows
      || (&& AccountOf(d) in accounts
          && !(d.outgoing && Holds(s.rows, accounts[AccountOf(d)], d.platformMessageId))
          && rows == s.rows + [Row(accounts[AccountOf(d)], d.platformMessageId, d.thread,
                                   if d.outgoing then Device else Contact, d.text)])
  {
    hide Holds;
  }

  /** And it adds the one unread of an inbound row, or only the unread when the row's insert threw. */
  lemma IngestedUnread(s: Store, d: Delivery, accounts: Accounts, t: (string, string))
    ensures var s' := Ingested(s, d, accounts);
      var added := s'.rows[|s.rows|..];
      && s.rows <= s'.rows && |added| <= 1
      && UnreadOf(s', t) >= UnreadOf(s, t) + InboundIn(added, t)
      && (!d.fault.BeforeRow? ==> UnreadOf(s', t) == UnreadOf(s, t) + InboundIn(added, t))
  {
    hide Holds;
  }

  /** What one happening adds: at most one row, and for an inbound row one unread. */
  lemma AddedRows(s: State, e: Happening, accounts: Accounts) returns (added: seq<Row>)
    ensures Happened(s, e, accounts).store.rows == s.store.rows + added && |added| <= 1
    ensures added != [] && added[0].source.Device? ==> !Holds(s.store.rows, added[0].session, added[0].waMessageId)
    ensures forall t: (string, string) | e != MarkedRead(t.0, t.1) ::
      UnreadOf(Happened(s, e, accounts).store, t) >= UnreadOf(s.store, t) + InboundIn(added, t)
    ensures !e.Webhook? || !e.d.fault.BeforeRow? ==> forall t: (string, string) | e != MarkedRead(t.0, t.1) ::
      UnreadOf(Happened(s, e, accounts).store, t) == UnreadOf(s.store, t) + InboundIn(added, t)
  {
    var now := Happened(s, e, accounts).store.rows;
    added := now[|s.store.rows|..];
    if e.Webhook? {
      IngestedRows(s.store, e.d, accounts);
      forall t { IngestedUnread(s.store, e.d, accounts, t); }
      hide Ingested, Holds;
    }
  }

  lemma {:induction false} RowsOnlyGrow(h: seq<Happening>, k: nat, accounts: Accounts)
    requires k <= |h|
    ensures After(h[..k], accounts).store.rows <= After(h, accounts).store.rows
  {
    hide Happened;
    if k < |h| {
      var front := h[..|h| - 1];
      assert front[..k] == h[..k];
      RowsOnlyGrow(front, k, accounts);
      var _ := AddedRows(After(front, accounts), h[|h| - 1], accounts);
    } else {
      assert h[..k] == h;
    }
  }

  lemma SentIsHeld(s: State, e: Happening, accounts: Accounts)
    requires e.OwnSend?
    ensures Holds(Happened(s, e, accounts).store.rows, e.session, e.waMessageId)
  {
    var rows := Happened(s, e, accounts).store.rows;
    assert rows[|rows| - 1] in rows;
  }

  lemma HeldStaysHeld(rows: seq<Row>, more: seq<Row>, session: string, id: string)
    requires rows <= more && Holds(rows, session, id)
    ensures Holds(more, session, id)
  {
    var r :| r in rows && r.session == session && r.waMessageId == id;
    var i :| 0 <= i < |rows| && rows[i] == r;
    assert more[i] == r;
  }

  lemma EchoIsRecognized(s: State, d: Delivery, accounts: Accounts)
    requires d.outgoing && AccountOf(d) in accounts && Holds(s.store.rows, accounts[AccountOf(d)], d.platformMessageId)
    ensures Handled(s, d, accounts).store.(started := s.store.started) == s.store
  {
  }

  /** The echo of a send that is already recorded adds no row, automates nothing, counts as no unread. */
  lemma EchoAddsNothing(h: seq<Happening>, i: nat, d: Delivery, accounts: Accounts)
    requires i < |h| && h[i].OwnSend? && h[i].waMessageId == d.platformMessageId
    requires d.outgoing && AccountOf(d) in accounts && accounts[AccountOf(d)] == h[i].session
    ensures var s, s' := After(h, accounts).store, After(h + [Webhook(d)], accounts).store;
      s'.(started := s.started) == s
  {
    hide Handled, Holds;
    assert h[..i + 1][..i] == h[..i];
    SentIsHeld(After(h[..i], accounts), h[i], accounts);
    RowsOnlyGrow(h, i + 1, accounts);
    var held, rows := After(h[..i + 1], accounts).store.rows, After(h, accounts).store.rows;
    HeldStaysHeld(held, rows, h[i].session, h[i].waMessageId);
    EchoIsRecognized(After(h, accounts), d, accounts);
    assert (h + [Webhook(d)])[..|h|] == h;
  }

  ghost predicate DeviceRowsLead(rows: seq<Row>) {
    forall i, j | 0 <= i < j < |rows| && rows[j].source.Device? ::
      rows[i].session != rows[j].session || rows[i].waMessageId != rows[j].waMessageId
  }

  /** A row taken for something typed in the app is the first of its id in its session. */
  lemma {:induction false} DeviceRowIsFirst(h: seq<Happening>, accounts: Accounts)
    ensures DeviceRowsLead(After(h, accounts).store.rows)
  {
    hide Happened;
    if h != [] {
      var front, e := h[..|h| - 1], h[|h| - 1];
      DeviceRowIsFirst(front, accounts);
      var added := AddedRows(After(front, accounts), e, accounts);
      var was := After(front, accounts).store.rows;
      assert forall i | 0 <= i < |was| :: was[i] in was;
      assert DeviceRowsLead(was + added);
    }
  }

  function CountOf(rows: seq<Row>, session: string, id: string): nat {
    if rows == [] then 0
    else
      var r := rows[|rows| - 1];
      CountOf(rows[..|rows| - 1], session, id) + if r.session == session && r.waMessageId == id then 1 else 0
  }

  lemma {:induction false} HeldIsCounted(rows: seq<Row>, session: string, id: string)
    ensures Holds(rows, session, id) <==> CountOf(rows, session, id) > 0
  {
    if rows != [] {
      var front, r := rows[..|rows| - 1], rows[|rows| - 1];
      assert rows == front + [r];
      HeldIsCounted(front, session, id);
    }
  }

  /** Of this id in this session the happening is at most an outgoing delivery. */
  predicate AtMostEchoes(e: Happening, session: string, id: string, accounts: Accounts) {
    && (e.OwnSend? ==> e.session != session || e.waMessageId != id)
    && (e.Webhook? && AccountOf(e.d) in accounts && accounts[AccountOf(e.d)] == session && e.d.platformMessageId == id
        ==> e.d.outgoing)
  }

  lemma EchoStep(s: State, e: Happening, session: string, id: string, accounts: Accounts)
    requires AtMostEchoes(e, session, id, accounts) && Holds(s.store.rows, session, id)
    ensures var rows := Happened(s, e, accounts).store.rows;
      CountOf(rows, session, id) == CountOf(s.store.rows, session, id)
  {
    var rows := Happened(s, e, accounts).store.rows;
    if e.Webhook? {
      IngestedRows(s.store, e.d, accounts);
      hide Ingested, Holds;
    }
    if rows != s.store.rows {
      assert rows[..|rows| - 1] == s.store.rows;
    }
  }

  lemma SendAddsOne(front: seq<Happening>, send: Happening, accounts: Accounts)
    requires send.OwnSend?
    ensures var was, rows := After(front, accounts).store.rows, After(front + [send], accounts).store.rows;
      && CountOf(rows, send.session, send.waMessageId) == CountOf(was, send.session, send.waMessageId) + 1
      && Holds(rows, send.session, send.waMessageId)
  {
    assert (front + [send])[..|front|] == front;
    var s := After(front, accounts);
    SentIsHeld(s, send, accounts);
    hide Holds;
    var rows := After(front + [send], accounts).store.rows;
    assert rows[..|rows| - 1] == s.store.rows;
  }

  lemma EchoKeepsCount(h: seq<Happening>, e: Happening, session: string, id: string, accounts: Accounts)
    requires AtMostEchoes(e, session, id, accounts) && Holds(After(h, accounts).store.rows, session, id)
    ensures var was, rows := After(h, accounts).store.rows, After(h + [e], accounts).store.rows;
      CountOf(rows, session, id) == CountOf(was, session, id) && Holds(rows, session, id)
  {
    assert (h + [e])[..|h|] == h;
    EchoStep(After(h, accounts), e, session, id, accounts);
    HeldIsCounted(After(h, accounts).store.rows, session, id);
    HeldIsCounted(After(h + [e], accounts).store.rows, session, id);
    hide Happened, CountOf, Holds;
  }

  /** After a send is recorded its echoes, however many and under whatever envelopes, add no row of its id. */
  lemma {:induction false} SendCountsOnce(
      front: seq<Happening>, send: Happening, rest: seq<Happening>, accounts: Accounts)
    requires send.OwnSend?
    requires forall e | e in rest :: AtMostEchoes(e, send.session, send.waMessageId, accounts)
    ensures var was, rows := After(front, accounts).store.rows, After(front + [send] + rest, accounts).store.rows;
      && CountOf(rows, send.session, send.waMessageId) == CountOf(was, send.session, send.waMessageId) + 1
      && Holds(rows, send.session, send.waMessageId)
  {
    hide Holds, AtMostEchoes, CountOf, After;
    SendAddsOne(front, send, accounts);
    if rest == [] {
      assert front + [send] + rest == front + [send];
    } else {
      var k := |rest| - 1;
      SendCountsOnce(front, send, rest[..k], accounts);
      EchoKeepsCount(front + [send] + rest[..k], rest[k], send.session, send.waMessageId, accounts);
      assert front + [send] + rest == front + [send] + rest[..k] + [rest[k]];
    }
  }

  /** The k-th happening records a row of the id: an own send, or a taken delivery that gets past its row. */
  predicate RecordsAt(h: seq<Happening>, k: nat, session: string, id: string, accounts: Accounts)
    requires k < |h|
  {
    var e := h[k];
    || (e.OwnSend? && e.session == session && e.waMessageId == id)
    || (e.Webhook? && Takes(h[..k], e) && e.d.platformMessageId == id && (e.d.fault.Nothing? || e.d.fault.AfterRow?)
        && AccountOf(e.d) in accounts && accounts[AccountOf(e.d)] == session)
  }

  lemma HeldStep(s: State, e: Happening, session: string, id: string, accounts: Accounts, taken: bool)
    requires e.Webhook? ==>
      Happened(s, e, accounts).store == if taken then Ingested(s.store, e.d, accounts) else s.store
    ensures Holds(Happened(s, e, accounts).store.rows, session, id) <==>
      || Holds(s.store.rows, session, id)
      || (e.OwnSend? && e.session == session && e.waMessageId == id)
      || (e.Webhook? && taken && e.d.platformMessageId == id && (e.d.fault.Nothing? || e.d.fault.AfterRow?)
          && AccountOf(e.d) in accounts && accounts[AccountOf(e.d)] == session)
  {
    hide Handled;
    var was, rows := s.store.rows, Happened(s, e, accounts).store.rows;
    HeldIsCounted(was, session, id);
    HeldIsCounted(rows, session, id);
    if rows != was {
      assert rows[..|rows| - 1] == was;
    }
  }

  /** A row of an id is held exactly when some happening recorded one. */
  lemma {:induction false} HeldExactlyWhenRecorded(h: seq<Happening>, session: string, id: string, accounts: Accounts)
    requires IdsApart(h)
    ensures Holds(After(h, accounts).store.rows, session, id)
      <==> exists k :: 0 <= k < |h| && RecordsAt(h, k, session, id, accounts)
  {
    hide Holds, Takes, IdsApart, Happened;
    if h == [] {
      HeldIsCounted([], session, id);
    } else {
      var n := |h| - 1;
      var front, e := h[..n], h[n];
      assert h == front + [e];
      IdsApartFront(h, n);
      HeldExactlyWhenRecorded(front, session, id, accounts);
      if e.Webhook? { IngestedExactlyWhenTaken(front, e, accounts); }
      HeldStep(After(front, accounts), e, session, id, accounts, e.Webhook? && Takes(front, e));
      assert forall k | 0 <= k < n :: h[..k] == front[..k] && h[k] == front[k];
      assert forall k | 0 <= k < n ::
        RecordsAt(h, k, session, id, accounts) <==> RecordsAt(front, k, session, id, accounts);
      if RecordsAt(h, n, session, id, accounts) { assert h[..n] == front; }
      if k :| 0 <= k < n && RecordsAt(front, k, session, id, accounts) {
        assert RecordsAt(h, k, session, id, accounts);
      }
    }
  }

  /**
   * A send and its echoes leave one row exactly when nothing before the send
   * had recorded its id, over every history before it and every run of echoes
   * after it: recording a send does not look for a row its echo left.
   */
  lemma EchoRace(front: seq<Happening>, send: Happening, rest: seq<Happening>, accounts: Accounts)
    requires IdsApart(front) && send.OwnSend?
    requires forall e | e in rest :: AtMostEchoes(e, send.session, send.waMessageId, accounts)
    ensures CountOf(After(front + [send] + rest, accounts).store.rows, send.session, send.waMessageId) == 1
      <==> !exists k :: 0 <= k < |front| && RecordsAt(front, k, send.session, send.waMessageId, accounts)
  {
    SendCountsOnce(front, send, rest, accounts);
    HeldIsCounted(After(front, accounts).store.rows, send.session, send.waMessageId);
    HeldExactlyWhenRecorded(front, send.session, send.waMessageId, accounts);
  }

  /** The smallest case, for every send and echo: the echo comes first, and two rows of the id are left. */
  lemma EchoFirstLeavesTwo(send: Happening, d: Delivery, accounts: Accounts)
    requires send.OwnSend? && IsMessage(Webhook(d)) && d.outgoing && d.platformMessageId == send.waMessageId
    requires d.envelope.Goes? && d.key.Goes? && d.fault.Nothing? && d.id != KeyOf(IdentityOf(d))
    requires AccountOf(d) in accounts && accounts[AccountOf(d)] == send.session
    ensures CountOf(After([Webhook(d), send], accounts).store.rows, send.session, send.waMessageId) == 2
  {
    hide Handled;
    FreshEchoStored(d, accounts);
    var front := [Webhook(d)];
    assert front[..0] == [] && front + [send] + [] == [Webhook(d), send];
    assert After(front, accounts) == Handled(Fresh, d, accounts);
    SendCountsOnce(front, send, [], accounts);
  }

  lemma FreshEchoStored(d: Delivery, accounts: Accounts)
    requires IsMessage(Webhook(d)) && d.outgoing && AccountOf(d) in accounts
    requires d.envelope.Goes? && d.key.Goes? && d.fault.Nothing? && d.id != KeyOf(IdentityOf(d))
    ensures CountOf(Handled(Fresh, d, accounts).store.rows, accounts[AccountOf(d)], d.platformMessageId) == 1
  {
    hide KeyOf;
    var rows := Handled(Fresh, d, accounts).store.rows;
    assert rows == [Row(accounts[AccountOf(d)], d.platformMessageId, d.thread, Device, d.text)];
    assert rows[..0] == [];
  }

  // ---------------------------------------------------------------- unread counts

  function InboundIn(added: seq<Row>, thread: (string, string)): nat {
    if added != [] && added[0].source.Contact? && (added[0].session, added[0].thread) == thread then 1 else 0
  }

  function InboundRows(rows: seq<Row>, thread: (string, string)): nat {
    if rows == [] then 0
    else InboundRows(rows[..|rows| - 1], thread) + InboundIn(rows[|rows| - 1..], thread)
  }

  /** Event k is where counting starts: the beginning, or just after the thread was last read. */
  ghost predicate LastReadBefore(h: seq<Happening>, k: nat, thread: (string, string)) {
    && k <= |h| && (k == 0 || h[k - 1] == MarkedRead(thread.0, thread.1))
    && forall i | k <= i < |h| :: h[i] != MarkedRead(thread.0, thread.1)
  }

  lemma InboundSnoc(was: seq<Row>, added: seq<Row>, n: nat, thread: (string, string))
    requires n <= |was| && |added| <= 1
    ensures InboundRows((was + added)[n..], thread) == InboundRows(was[n..], thread) + InboundIn(added, thread)
  {
    var rows := (was + added)[n..];
    if added == [] {
      assert rows == was[n..];
    } else {
      assert rows[..|rows| - 1] == was[n..] && rows[|rows| - 1..] == added;
    }
  }

  lemma ReadThreadIsZero(s: State, thread: (string, string), accounts: Accounts)
    ensures var s' := Happened(s, MarkedRead(thread.0, thread.1), accounts);
      UnreadOf(s'.store, thread) == 0 && s'.store.rows == s.store.rows
  {
  }

  /**
   * A thread's unread badge counts the inbound rows stored since the thread was
   * last read, and more only when a row's insert threw since then.
   */
  lemma {:induction false} UnreadCountsRowsSinceRead(
      h: seq<Happening>, k: nat, thread: (string, string), accounts: Accounts)
    requires LastReadBefore(h, k, thread)
    ensures var n, s := |After(h[..k], accounts).store.rows|, After(h, accounts).store;
      && n <= |s.rows| && UnreadOf(s, thread) >= InboundRows(s.rows[n..], thread)
      && ((forall i | k <= i < |h| && h[i].Webhook? :: !h[i].d.fault.BeforeRow?)
          ==> UnreadOf(s, thread) == InboundRows(s.rows[n..], thread))
  {
    hide Happened;
    if k == |h| {
      assert h[..k] == h;
      if k > 0 { ReadThreadIsZero(After(h[..k - 1], accounts), thread, accounts); }
    } else {
      var front, e := h[..|h| - 1], h[|h| - 1];
      assert front[..k] == h[..k];
      UnreadCountsRowsSinceRead(front, k, thread, accounts);
      var was := After(front, accounts).store.rows;
      var added := AddedRows(After(front, accounts), e, accounts);
      InboundSnoc(was, added, |After(h[..k], accounts).store.rows|, thread);
    }
  }
}
