/**
 * What a history of deliveries, sends and reads leaves, read off the history:
 * which messages were announced and which automated, every stored row, and
 * every thread's badge.
 */
module IngestOutcomes {
  import opened Prelude
  import opened InstagramIngest

  /** The session a delivery is for: its account id's, or its account's when it has no id. */
  function SessionOf(d: Delivery, accounts: Accounts): Option<string> {
    match d.accountId
    case Some(a) => if a in accounts then Some(accounts[a]) else None
    case None => if d.account in accounts then Some(accounts[d.account]) else None
  }

  /** A delivery is of a message when it has an envelope, the platform's id, a thread and an account. */
  lemma DeliveryMeans(d: Delivery)
    ensures IsMessage(Webhook(d)) <==>
      && d.id != "" && (d.event == "message.received" || d.event == "message.sent")
      && d.platformMessageId != "" && d.thread != ""
      && (d.account != "" || (d.accountId.Some? && d.accountId.value != ""))
    ensures IsMessage(Webhook(d)) ==> KeyOf(IdentityOf(d)) == d.event + ":" + d.platformMessageId
  {
  }

  /** Some happening before the k-th recorded a row of the message of the k-th. */
  predicate RecordedBefore(h: seq<Happening>, k: nat, session: string, accounts: Accounts)
    requires k < |h| && h[k].Webhook?
  {
    exists j :: 0 <= j < k && RecordsAt(h, j, session, h[k].d.platformMessageId, accounts)
  }

  /** The k-th happening is the delivery that takes its message, for an account of ours. */
  predicate TakenAt(h: seq<Happening>, k: nat, accounts: Accounts)
    requires k < |h|
  {
    h[k].Webhook? && Takes(h[..k], h[k]) && SessionOf(h[k].d, accounts).Some?
  }

  /** And it is from a contact, or is no echo of a row held already. */
  predicate NewsAt(h: seq<Happening>, k: nat, accounts: Accounts)
    requires k < |h|
  {
    && TakenAt(h, k, accounts)
    && (h[k].d.outgoing ==> !RecordedBefore(h, k, SessionOf(h[k].d, accounts).value, accounts))
  }

  predicate IsOf(e: Happening, m: Identity) {
    e.Webhook? && e.d.event == m.0 && e.d.platformMessageId == m.1
  }

  predicate StartedAt(h: seq<Happening>, k: nat, m: Identity)
    requires k < |h|
  {
    IsOf(h[k], m) && Takes(h[..k], h[k])
  }

  predicate AnnouncedAt(h: seq<Happening>, k: nat, m: Identity, accounts: Accounts)
    requires k < |h|
  {
    IsOf(h[k], m) && NewsAt(h, k, accounts) && h[k].d.fault.Nothing?
  }

  predicate AutomatedAt(h: seq<Happening>, k: nat, m: Identity, accounts: Accounts)
    requires k < |h|
  {
    IsOf(h[k], m) && TakenAt(h, k, accounts) && !h[k].d.outgoing && h[k].d.fault.Nothing?
  }

  /** The row the k-th happening stores, if it stores one. */
  function RowAt(h: seq<Happening>, k: nat, accounts: Accounts): seq<Row>
    requires k < |h|
  {
    match h[k]
    case OwnSend(session, id, thread, text) => [Row(session, id, thread, Api, text)]
    case Webhook(d) =>
      if NewsAt(h, k, accounts) && (d.fault.Nothing? || d.fault.AfterRow?) then
        [Row(SessionOf(d, accounts).value, d.platformMessageId, d.thread,
             if d.outgoing then Device else Contact, d.text)]
      else []
    case MarkedRead(_, _) => []
  }

  /** The rows of the first n happenings, in order. */
  function RowsRecorded(h: seq<Happening>, n: nat, accounts: Accounts): seq<Row>
    requires n <= |h|
  {
    if n == 0 then [] else RowsRecorded(h, n - 1, accounts) + RowAt(h, n - 1, accounts)
  }

  /** The contact's messages a thread got since it was last read, one whose row could not be stored included. */
  function Badge(h: seq<Happening>, n: nat, thread: (string, string), accounts: Accounts): nat
    requires n <= |h|
  {
    if n == 0 then 0
    else match h[n - 1]
      case MarkedRead(session, id) => if (session, id) == thread then 0 else Badge(h, n - 1, thread, accounts)
      case OwnSend(_, _, _, _) => Badge(h, n - 1, thread, accounts)
      case Webhook(d) =>
        Badge(h, n - 1, thread, accounts)
        + if TakenAt(h, n - 1, accounts) && !d.outgoing && !d.fault.BeforeThread?
             && (SessionOf(d, accounts).value, d.thread) == thread then 1 else 0
  }

  /** What the message's one ingestion does, field by field. */
  lemma IngestedMeans(s: Store, d: Delivery, accounts: Accounts)
    ensures var s', m := Ingested(s, d, accounts), [(d.event, d.platformMessageId)];
      && s'.started == s.started + m
      && (SessionOf(d, accounts).None? ==> s' == s.(started := s.started + m))
      && (SessionOf(d, accounts).Some? ==>
            var session := SessionOf(d, accounts).value;
            var news := d.outgoing ==> !Holds(s.rows, session, d.platformMessageId);
            var source := if d.outgoing then Device else Contact;
            && s'.rows == s.rows + (if news && (d.fault.Nothing? || d.fault.AfterRow?)
                                    then [Row(session, d.platformMessageId, d.thread, source, d.text)] else [])
            && s'.dispatched == s.dispatched + (if news && d.fault.Nothing? then m else [])
            && s'.automated == s.automated + (if !d.outgoing && d.fault.Nothing? then m else [])
            && forall t :: UnreadOf(s', t) == UnreadOf(s, t)
                 + if !d.outgoing && !d.fault.BeforeThread? && (session, d.thread) == t then 1 else 0)
  {
    hide Holds;
  }

  lemma SendMeans(s: Store, e: Happening)
    requires e.OwnSend?
    ensures var s' := Sent(s, e);
      && s'.rows == s.rows + [Row(e.session, e.waMessageId, e.thread, Api, e.text)]
      && s'.dispatched == s.dispatched && s'.automated == s.automated && s'.started == s.started
      && forall t :: UnreadOf(s', t) == UnreadOf(s, t)
  {
  }

  lemma ReadMeans(s: Store, thread: (string, string))
    ensures var s' := WasRead(s, thread);
      && s'.rows == s.rows && s'.dispatched == s.dispatched && s'.automated == s.automated && s'.started == s.started
      && forall t :: UnreadOf(s', t) == if t == thread then 0 else UnreadOf(s, t)
  {
  }

  /** What held before the last happening of a prefix is what some earlier happening recorded. */
  lemma HeldMeansRecorded(h: seq<Happening>, k: nat, session: string, accounts: Accounts)
    requires IdsApart(h) && k < |h| && h[k].Webhook?
    ensures Holds(After(h[..k], accounts).store.rows, session, h[k].d.platformMessageId)
      <==> RecordedBefore(h, k, session, accounts)
  {
    hide Holds, Takes, IdsApart, After;
    var id := h[k].d.platformMessageId;
    IdsApartFront(h, k);
    HeldExactlyWhenRecorded(h[..k], session, id, accounts);
    forall j | 0 <= j < k
      ensures RecordsAt(h[..k], j, session, id, accounts) <==> RecordsAt(h, j, session, id, accounts)
    {
      assert h[..k][..j] == h[..j] && h[..k][j] == h[j];
    }
  }

  /** The k-th happening leaves the store of the first k, or what one ingestion, send or read makes of it. */
  lemma OneHappening(h: seq<Happening>, k: nat, accounts: Accounts)
    requires IdsApart(h) && k < |h|
    ensures var s := After(h[..k], accounts).store;
      After(h[..k + 1], accounts).store ==
        match h[k]
        case Webhook(d) => (if Takes(h[..k], h[k]) then Ingested(s, d, accounts) else s)
        case OwnSend(_, _, _, _) => Sent(s, h[k])
        case MarkedRead(session, thread) => WasRead(s, (session, thread))
  {
    hide Takes, IdsApart, Ingested;
    assert h[..k + 1][..k] == h[..k] && h[..k] + [h[k]] == h[..k + 1];
    IdsApartFront(h, k + 1);
    if h[k].Webhook? { IngestedExactlyWhenTaken(h[..k], h[k], accounts); }
  }

  /** The k-th happening, as what it adds to each field of the store. */
  lemma HappeningMeans(h: seq<Happening>, k: nat, accounts: Accounts)
    requires IdsApart(h) && k < |h|
    ensures var s, s' := After(h[..k], accounts).store, After(h[..k + 1], accounts).store;
      && s'.rows == s.rows + RowAt(h, k, accounts)
      && (forall m: Identity :: m in s'.started <==> m in s.started || StartedAt(h, k, m))
      && (forall m: Identity :: m in s'.dispatched <==> m in s.dispatched || AnnouncedAt(h, k, m, accounts))
      && (forall m: Identity :: m in s'.automated <==> m in s.automated || AutomatedAt(h, k, m, accounts))
  {
    var s := After(h[..k], accounts).store;
    OneHappening(h, k, accounts);
    match h[k]
    case OwnSend(_, _, _, _) =>
      SendMeans(s, h[k]);
    case MarkedRead(session, thread) =>
      ReadMeans(s, (session, thread));
    case Webhook(d) =>
      IngestedMeans(s, d, accounts);
      if SessionOf(d, accounts).Some? { HeldMeansRecorded(h, k, SessionOf(d, accounts).value, accounts); }
      hide Takes, IdsApart, Ingested, Holds, After, RecordedBefore, SessionOf;
  }

  lemma BadgeStep(h: seq<Happening>, k: nat, t: (string, string), accounts: Accounts)
    requires IdsApart(h) && k < |h|
    requires UnreadOf(After(h[..k], accounts).store, t) == Badge(h, k, t, accounts)
    ensures UnreadOf(After(h[..k + 1], accounts).store, t) == Badge(h, k + 1, t, accounts)
  {
    var s := After(h[..k], accounts).store;
    OneHappening(h, k, accounts);
    match h[k]
    case OwnSend(_, _, _, _) =>
      SendMeans(s, h[k]);
    case MarkedRead(session, thread) =>
      ReadMeans(s, (session, thread));
    case Webhook(d) =>
      IngestedMeans(s, d, accounts);
      hide Takes, IdsApart, Ingested, Holds, After, SessionOf;
  }

  // ---------------------------------------------------------------- whole histories

  lemma {:induction false} RowsAreRecorded(h: seq<Happening>, n: nat, accounts: Accounts)
    requires IdsApart(h) && n <= |h|
    ensures After(h[..n], accounts).store.rows == RowsRecorded(h, n, accounts)
  {
    if n > 0 {
      RowsAreRecorded(h, n - 1, accounts);
      HappeningMeans(h, n - 1, accounts);
    }
  }

  lemma {:induction false} BadgesCount(h: seq<Happening>, n: nat, t: (string, string), accounts: Accounts)
    requires IdsApart(h) && n <= |h|
    ensures UnreadOf(After(h[..n], accounts).store, t) == Badge(h, n, t, accounts)
  {
    if n > 0 {
      BadgesCount(h, n - 1, t, accounts);
      BadgeStep(h, n - 1, t, accounts);
    }
  }

  lemma NothingYet(h: seq<Happening>, accounts: Accounts)
    ensures var s := After(h[..0], accounts).store; s.started == [] && s.dispatched == [] && s.automated == []
  {
  }

  lemma {:induction false} LogsOfPrefix(h: seq<Happening>, n: nat, m: Identity, accounts: Accounts)
    requires IdsApart(h) && n <= |h|
    ensures var s := After(h[..n], accounts).store;
      && (m in s.started <==> exists k :: 0 <= k < n && StartedAt(h, k, m))
      && (m in s.dispatched <==> exists k :: 0 <= k < n && AnnouncedAt(h, k, m, accounts))
      && (m in s.automated <==> exists k :: 0 <= k < n && AutomatedAt(h, k, m, accounts))
  {
    hide IdsApart, After, StartedAt, AnnouncedAt, AutomatedAt, RowAt;
    if n > 0 {
      LogsOfPrefix(h, n - 1, m, accounts);
      HappeningMeans(h, n - 1, accounts);
    } else {
      NothingYet(h, accounts);
    }
  }

  /**
   * A message is automated exactly when the delivery that took it was for an
   * account of ours, from a contact, and nothing threw; and announced exactly
   * when nothing threw and it was from a contact or of no row held already.
   */
  lemma LogsOfHistory(h: seq<Happening>, m: Identity, accounts: Accounts)
    requires IdsApart(h)
    ensures var s := After(h, accounts).store;
      && (m in s.started <==> exists k :: 0 <= k < |h| && StartedAt(h, k, m))
      && (m in s.dispatched <==> exists k :: 0 <= k < |h| && AnnouncedAt(h, k, m, accounts))
      && (m in s.automated <==> exists k :: 0 <= k < |h| && AutomatedAt(h, k, m, accounts))
  {
    LogsOfPrefix(h, |h|, m, accounts);
    assert h[..|h|] == h;
  }

  /** The stored rows and every thread's badge are those the history recorded. */
  lemma StoreOfHistory(h: seq<Happening>, accounts: Accounts)
    requires IdsApart(h)
    ensures After(h, accounts).store.rows == RowsRecorded(h, |h|, accounts)
    ensures forall t :: UnreadOf(After(h, accounts).store, t) == Badge(h, |h|, t, accounts)
  {
    assert h[..|h|] == h;
    RowsAreRecorded(h, |h|, accounts);
    forall t { BadgesCount(h, |h|, t, accounts); }
  }
}
