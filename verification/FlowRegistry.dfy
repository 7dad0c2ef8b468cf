/**
 * The flow table of one organization and the engine's per-session cache over
 * it. Every call is a transition that may end in an exception, including a
 * database failure before or after any of its writes.
 */
module FlowRegistry {
  import opened Prelude
  import opened FlowGraph

  datatype Flow = Flow(session: Option<string>, enabled: bool, graph: Graph)

  datatype FlowRef = FlowRef(id: string, graph: Graph, channel: Channel)

  datatype CacheEntry = CacheEntry(flow: Option<FlowRef>, expires: nat)

  type Flows = map<string, Flow>

  type Cache = map<string, CacheEntry>

  datatype Registry = Registry(flows: Flows, cache: Cache)

  /** What the calls read but never change: the sessions and the referenced ids. */
  datatype Org = Org(sessions: map<string, Channel>, refs: Refs)

  datatype Outcome =
    | Done | FlowNotFound | SessionNotFound | SessionTaken | NotAssigned
    | InvalidGraph | ValidatorThrew | OverQuota | DatabaseFailed

  datatype Call =
    | Create(id: string, draft: Graph, quotaOk: bool)
    | Assign(id: string, session: Option<string>, force: bool)
    | SaveGraph(id: string, graph: Graph)
    | SetEnabled(id: string, enabled: Option<bool>)
    | Remove(id: string)

  /**
   * How the database treats the writes of one call: the first `writes` go
   * through and any further one is refused; when `lost`, the caller gets an
   * exception instead of the answer to the last that went through.
   */
  datatype Database = Database(writes: nat, lost: bool)

  /** The k-th write is stored, whatever the caller sees. */
  predicate Stores(db: Database, k: nat) {
    k <= db.writes
  }

  /** The k-th write is stored and the caller goes on. */
  predicate Answers(db: Database, k: nat) {
    k < db.writes || (k == db.writes && !db.lost)
  }

  const CACHE_MS := 30_000

  function RefsFor(org: Org, session: Option<string>): Refs {
    org.refs.(
      channel := if session.Some? && session.value in org.sessions then Some(org.sessions[session.value]) else None,
      hasWhatsappNumber := Some(Whatsapp in org.sessions.Values))
  }

  ghost predicate Holds(flows: Flows, id: string, session: string) {
    id in flows && flows[id].session == Some(session)
  }

  /** `findUnique({ where: { sessionId } })` */
  ghost function HolderOf(flows: Flows, session: string): (r: Option<string>)
    ensures r.Some? ==> Holds(flows, r.value, session)
    ensures r.None? ==> forall id :: !Holds(flows, id, session)
  {
    if exists id :: Holds(flows, id, session) then
      var id :| Holds(flows, id, session); Some(id)
    else None
  }

  function Detached(f: Flow): Flow {
    f.(session := None, enabled := false)
  }

  function Invalidated(cache: Cache, session: Option<string>): Cache {
    if session.Some? then cache - {session.value} else cache
  }

  /** The exception validation of a live flow ends in, if any. */
  function Refusal(g: Graph, refs: Refs): Outcome {
    match Validate(g, refs)
    case Threw => ValidatorThrew
    case Findings(errors) => if errors == [] then Done else InvalidGraph
  }

  /** A call's last write: stored or not, and followed by the invalidations only when answered. */
  function LastWrite(r: Registry, db: Database, k: nat, flows: Flows, cache: Cache): (Registry, Outcome) {
    if !Stores(db, k) then (r, DatabaseFailed)
    else if !Answers(db, k) then (r.(flows := flows), DatabaseFailed)
    else (Registry(flows, cache), Done)
  }

  ghost function AssignTo(
      org: Org, r: Registry, id: string, session: string, force: bool, db: Database): (Registry, Outcome)
    requires id in r.flows
  {
    var flow := r.flows[id];
    if session !in org.sessions then (r, SessionNotFound)
    else
      var holder := HolderOf(r.flows, session);
      var taken := holder.Some? && holder.value != id;
      if taken && !force then (r, SessionTaken)
      else if taken && !Stores(db, 1) then (r, DatabaseFailed)
      else
        var r1 := if taken then r.(flows := r.flows[holder.value := Detached(r.flows[holder.value])]) else r;
        if taken && !Answers(db, 1) then (r1, DatabaseFailed)
        else
          var refusal := if flow.enabled then Refusal(flow.graph, RefsFor(org, Some(session))) else Done;
          if refusal != Done then (r1, refusal)
          else LastWrite(r1, db, if taken then 2 else 1, r1.flows[id := flow.(session := Some(session))],
                         Invalidated(Invalidated(r.cache, Some(session)), flow.session))
  }

  /** One call, with the database treating its writes as `db` says. */
  ghost function Apply(org: Org, r: Registry, c: Call, db: Database): (Registry, Outcome) {
    if c.Create? then
      if !c.quotaOk then (r, OverQuota)
      else if c.id in r.flows then (r, DatabaseFailed)
      else LastWrite(r, db, 1, r.flows[c.id := Flow(None, false, c.draft)], r.cache)
    else if c.id !in r.flows then (r, FlowNotFound)
    else
      var flow := r.flows[c.id];
      match c
      case Create(_, _, _) => (r, Done)
      case Assign(id, Some(session), force) => AssignTo(org, r, id, session, force, db)
      case Assign(id, None, _) =>
        LastWrite(r, db, 1, r.flows[id := Detached(flow)], Invalidated(r.cache, flow.session))
      case SaveGraph(id, graph) =>
        var refusal := Refusal(graph, RefsFor(org, flow.session));
        if refusal == ValidatorThrew || (refusal == InvalidGraph && flow.enabled) then (r, refusal)
        else LastWrite(r, db, 1, r.flows[id := flow.(graph := graph)], Invalidated(r.cache, flow.session))
      case SetEnabled(id, enabled) =>
        if enabled == Some(true) && flow.session.None? then (r, NotAssigned)
        else
          var refusal := if enabled == Some(true) then Refusal(flow.graph, RefsFor(org, flow.session)) else Done;
          if refusal != Done then (r, refusal)
          else
            var updated := flow.(enabled := if enabled.Some? then enabled.value else flow.enabled);
            LastWrite(r, db, 1, r.flows[id := updated], Invalidated(r.cache, flow.session))
      case Remove(id) =>
        LastWrite(r, db, 1, r.flows - {id}, Invalidated(r.cache, flow.session))
  }

  /** What a fresh read of the session's enabled flow returns. */
  ghost function FreshRead(org: Org, flows: Flows, session: string): Option<FlowRef> {
    var holder := HolderOf(flows, session);
    if holder.Some? && flows[holder.value].enabled then
      Some(FlowRef(holder.value, flows[holder.value].graph,
                   if session in org.sessions then org.sessions[session] else Whatsapp))
    else None
  }

  predicate Live(cache: Cache, session: string, now: nat) {
    session in cache && now < cache[session].expires
  }

  /** The engine's lookup: the cached flow while unexpired, else a fresh read that is cached. */
  ghost function Lookup(org: Org, r: Registry, session: string, now: nat): (Registry, Option<FlowRef>) {
    if Live(r.cache, session, now) then (r, r.cache[session].flow)
    else
      var flow := FreshRead(org, r.flows, session);
      (r.(cache := r.cache[session := CacheEntry(flow, now + CACHE_MS)]), flow)
  }

  // ---------------------------------------------------------------- invariants

  ghost predicate OneFlowPerSession(flows: Flows) {
    forall a, b, s :: Holds(flows, a, s) && Holds(flows, b, s) ==> a == b
  }

  ghost predicate LiveFlowsRun(org: Org, flows: Flows) {
    forall id | id in flows ::
      && (flows[id].session.Some? ==> flows[id].session.value in org.sessions)
      && (flows[id].enabled ==> flows[id].session.Some? && Accepted(flows[id].graph, RefsFor(org, flows[id].session)))
  }

  ghost predicate Inv(org: Org, flows: Flows) {
    OneFlowPerSession(flows) && LiveFlowsRun(org, flows)
  }

  ghost predicate CacheAgrees(org: Org, r: Registry, now: nat) {
    forall s | Live(r.cache, s, now) :: r.cache[s].flow == FreshRead(org, r.flows, s)
  }

  lemma DetachKeepsInv(org: Org, flows: Flows, id: string)
    requires Inv(org, flows) && id in flows
    ensures Inv(org, flows[id := Detached(flows[id])])
  {
    hide Validate;
    var after := flows[id := Detached(flows[id])];
    forall a, b, s | Holds(after, a, s) && Holds(after, b, s) ensures a == b {
      assert Holds(flows, a, s) && Holds(flows, b, s);
    }
  }

  lemma AttachKeepsInv(org: Org, flows: Flows, id: string, session: string)
    requires Inv(org, flows) && id in flows && session in org.sessions
    requires forall x :: Holds(flows, x, session) ==> x == id
    requires flows[id].enabled ==> Accepted(flows[id].graph, RefsFor(org, Some(session)))
    ensures Inv(org, flows[id := flows[id].(session := Some(session))])
  {
    hide Validate;
    var after := flows[id := flows[id].(session := Some(session))];
    forall a, b, s | Holds(after, a, s) && Holds(after, b, s) ensures a == b {
      assert Holds(flows, a, s) || a == id;
      assert Holds(flows, b, s) || b == id;
    }
  }

  /** The rows after the detaching half of an assignment. */
  ghost function Cleared(flows: Flows, id: string, session: string): Flows {
    var holder := HolderOf(flows, session);
    if holder.Some? && holder.value != id then flows[holder.value := Detached(flows[holder.value])] else flows
  }

  lemma ClearedIsFree(org: Org, flows: Flows, id: string, session: string)
    requires Inv(org, flows) && id in flows
    ensures var after := Cleared(flows, id, session);
      && Inv(org, after) && id in after && after[id] == flows[id]
      && (forall x :: Holds(after, x, session) ==> x == id)
  {
    var holder := HolderOf(flows, session);
    if holder.Some? && holder.value != id {
      DetachKeepsInv(org, flows, holder.value);
      var after := Cleared(flows, id, session);
      forall x ensures !Holds(after, x, session) {
        assert Holds(after, x, session) ==> Holds(flows, x, session);
      }
    }
  }

  /** An assignment leaves the rows as they were, cleared, or cleared and attached. */
  lemma AssignRows(org: Org, r: Registry, id: string, session: string, force: bool, db: Database)
    requires id in r.flows
    ensures var flows, cleared := AssignTo(org, r, id, session, force, db).0.flows, Cleared(r.flows, id, session);
      || flows == r.flows
      || flows == cleared
      || (&& flows == cleared[id := r.flows[id].(session := Some(session))] && session in org.sessions
          && (r.flows[id].enabled ==> Accepted(r.flows[id].graph, RefsFor(org, Some(session)))))
  {
    hide Validate;
  }

  lemma AssignKeepsInv(org: Org, r: Registry, id: string, session: string, force: bool, db: Database)
    requires Inv(org, r.flows) && id in r.flows
    ensures Inv(org, AssignTo(org, r, id, session, force, db).0.flows)
  {
    hide Validate, Inv, AssignTo, Cleared;
    AssignRows(org, r, id, session, force, db);
    ClearedIsFree(org, r.flows, id, session);
    if session in org.sessions
       && (r.flows[id].enabled ==> Accepted(r.flows[id].graph, RefsFor(org, Some(session)))) {
      AttachKeepsInv(org, Cleared(r.flows, id, session), id, session);
    }
  }

  lemma RowCallKeepsSessions(org: Org, r: Registry, c: Call, db: Database)
    requires OneFlowPerSession(r.flows) && (c.Assign? && c.id in r.flows ==> c.session.None?)
    ensures OneFlowPerSession(Apply(org, r, c, db).0.flows)
  {
    hide Validate, AssignTo;
    var flows := Apply(org, r, c, db).0.flows;
    forall a, b, s | Holds(flows, a, s) && Holds(flows, b, s) ensures a == b {
      assert Holds(r.flows, a, s) && Holds(r.flows, b, s);
    }
  }

  lemma RowCallKeepsLive(org: Org, r: Registry, c: Call, db: Database)
    requires LiveFlowsRun(org, r.flows) && (c.Assign? && c.id in r.flows ==> c.session.None?)
    ensures LiveFlowsRun(org, Apply(org, r, c, db).0.flows)
  {
    hide Validate, AssignTo, Invalidated;
  }

  /** Each session has at most one flow and each live flow runs, whatever call ends however. */
  lemma ApplyKeepsInv(org: Org, r: Registry, c: Call, db: Database)
    requires Inv(org, r.flows)
    ensures Inv(org, Apply(org, r, c, db).0.flows)
  {
    if c.Assign? && c.session.Some? && c.id in r.flows {
      hide AssignTo;
      AssignKeepsInv(org, r, c.id, c.session.value, c.force, db);
    } else {
      RowCallKeepsSessions(org, r, c, db);
      RowCallKeepsLive(org, r, c, db);
    }
  }

  // ---------------------------------------------------------------- the cache

  /** The graph a row serves to a session. */
  function Serves(flows: Flows, id: string, session: string): Option<Graph> {
    if id in flows && flows[id].session == Some(session) && flows[id].enabled then Some(flows[id].graph) else None
  }

  /** A fresh read of a session changes exactly when what some row serves to it does. */
  lemma ReadFollowsRows(org: Org, flows: Flows, flows': Flows, s: string)
    requires OneFlowPerSession(flows) && OneFlowPerSession(flows')
    ensures FreshRead(org, flows, s) == FreshRead(org, flows', s)
      <==> forall id :: Serves(flows, id, s) == Serves(flows', id, s)
  {
    ReadIsServed(org, flows, s);
    ReadIsServed(org, flows', s);
    hide FreshRead, OneFlowPerSession, Serves;
    var x, y := FreshRead(org, flows, s), FreshRead(org, flows', s);
    if forall id :: Serves(flows, id, s) == Serves(flows', id, s) {
      if x.Some? { assert GraphOf(x, x.value.id) == GraphOf(y, x.value.id); }
      if y.Some? { assert GraphOf(x, y.value.id) == GraphOf(y, y.value.id); }
    }
  }

  /** The graph an answer gives for a row. */
  function GraphOf(read: Option<FlowRef>, id: string): Option<Graph> {
    if read.Some? && read.value.id == id then Some(read.value.graph) else None
  }

  lemma ReadIsServed(org: Org, flows: Flows, s: string)
    requires OneFlowPerSession(flows)
    ensures forall id :: Serves(flows, id, s) == GraphOf(FreshRead(org, flows, s), id)
    ensures FreshRead(org, flows, s).Some?
      ==> FreshRead(org, flows, s).value.channel == if s in org.sessions then org.sessions[s] else Whatsapp
  {
    forall id | Serves(flows, id, s).Some? ensures HolderOf(flows, s) == Some(id) {
      assert Holds(flows, id, s);
    }
  }

  /** What a whole assignment changes of what rows serve. */
  lemma WholeAssignServes(flows: Flows, id: string, s: string)
    requires id in flows && flows[id].session != Some(s) && OneFlowPerSession(flows)
    ensures var after := Cleared(flows, id, s)[id := flows[id].(session := Some(s))];
      && (forall t, x | t != s && x != id :: Serves(after, x, t) == Serves(flows, x, t))
      && (forall t | t != s ::
            Serves(after, id, t) == Serves(flows, id, t) <==> !(flows[id].enabled && flows[id].session == Some(t)))
      && ((forall x :: Serves(after, x, s) == Serves(flows, x, s))
          <==> !flows[id].enabled && forall x :: Serves(flows, x, s) == None)
  {
    var holder := HolderOf(flows, s);
    var after := Cleared(flows, id, s)[id := flows[id].(session := Some(s))];
    forall x | x != id ensures Serves(after, x, s) == None {
      assert Holds(flows, x, s) ==> holder == Some(x);
    }
    if flows[id].enabled {
      assert Serves(after, id, s) != Serves(flows, id, s);
    }
    if x :| Serves(flows, x, s) != None { assert x != id && Serves(after, x, s) != Serves(flows, x, s); }
  }

  /** An answered assignment attached the flow and invalidated the session it took and the one it left. */
  lemma AssignDone(org: Org, r: Registry, id: string, session: string, force: bool, db: Database)
    requires id in r.flows && AssignTo(org, r, id, session, force, db).1 == Done
    ensures var r' := AssignTo(org, r, id, session, force, db).0;
      && r'.flows == Cleared(r.flows, id, session)[id := r.flows[id].(session := Some(session))]
      && r'.cache == Invalidated(Invalidated(r.cache, Some(session)), r.flows[id].session)
  {
    hide Validate;
  }

  lemma AssignKeepsCache(
      org: Org, r: Registry, id: string, session: string, force: bool, db: Database, now: nat)
    requires Inv(org, r.flows) && CacheAgrees(org, r, now) && id in r.flows
    requires AssignTo(org, r, id, session, force, db).1 == Done
    ensures CacheAgrees(org, AssignTo(org, r, id, session, force, db).0, now)
  {
    AssignKeepsInv(org, r, id, session, force, db);
    AssignDone(org, r, id, session, force, db);
    InvSplit(org, r.flows);
    var r' := AssignTo(org, r, id, session, force, db).0;
    InvSplit(org, r'.flows);
    hide Inv, AssignTo, FreshRead, Serves, OneFlowPerSession;
    if r.flows[id].session == Some(session) {
      assert Cleared(r.flows, id, session) == r.flows by { HolderIsUnique(r.flows, id, session); }
      assert r'.flows == r.flows;
    } else {
      WholeAssignServes(r.flows, id, session);
      forall s | Live(r'.cache, s, now) ensures r'.cache[s].flow == FreshRead(org, r'.flows, s) {
        ReadFollowsRows(org, r.flows, r'.flows, s);
        assert Live(r.cache, s, now);
      }
    }
  }

  lemma HolderIsUnique(flows: Flows, id: string, session: string)
    requires OneFlowPerSession(flows) && Holds(flows, id, session)
    ensures HolderOf(flows, session) == Some(id)
  {
  }

  /** A call that returned, or threw before writing anything, keeps every unexpired entry accurate. */
  lemma ApplyKeepsCache(org: Org, r: Registry, c: Call, db: Database, now: nat)
    requires Inv(org, r.flows) && CacheAgrees(org, r, now)
    requires var (r', o) := Apply(org, r, c, db); o == Done || r'.flows == r.flows
    ensures CacheAgrees(org, Apply(org, r, c, db).0, now)
  {
    if Apply(org, r, c, db).1 != Done {
      ThrowingKeepsCache(org, r, c, db);
    } else if c.Assign? && c.session.Some? {
      AssignKeepsCache(org, r, c.id, c.session.value, c.force, db, now);
    } else {
      ApplyKeepsInv(org, r, c, db);
      InvSplit(org, r.flows);
      InvSplit(org, Apply(org, r, c, db).0.flows);
      RowCallKeepsCache(org, r, c, db, now);
    }
  }

  /** A call about one row changes what is served only to the session it invalidates, if any. */
  lemma RowCallKeepsCache(org: Org, r: Registry, c: Call, db: Database, now: nat)
    requires OneFlowPerSession(r.flows) && OneFlowPerSession(Apply(org, r, c, db).0.flows) && CacheAgrees(org, r, now)
    requires Apply(org, r, c, db).1 == Done && (c.Assign? ==> c.session.None?)
    ensures CacheAgrees(org, Apply(org, r, c, db).0, now)
  {
    hide Validate, OneFlowPerSession, FreshRead;
    var r' := Apply(org, r, c, db).0;
    forall s | Live(r'.cache, s, now) ensures r'.cache[s].flow == FreshRead(org, r'.flows, s) {
      assert Live(r.cache, s, now) && r.cache[s] == r'.cache[s];
      forall id ensures Serves(r.flows, id, s) == Serves(r'.flows, id, s) {}
      ReadFollowsRows(org, r.flows, r'.flows, s);
    }
  }

  lemma InvSplit(org: Org, flows: Flows)
    requires Inv(org, flows)
    ensures OneFlowPerSession(flows) && LiveFlowsRun(org, flows)
  {
  }

  /**
   * A call that throws after a write skips its invalidations. The cache is
   * wrong afterwards exactly when an unexpired entry is for a session to which
   * some row serves something else than before.
   */
  lemma LateThrowLeavesStaleEntry(org: Org, r: Registry, c: Call, db: Database, now: nat)
    requires Inv(org, r.flows) && CacheAgrees(org, r, now)
    requires var (r', o) := Apply(org, r, c, db); o != Done && r'.flows != r.flows
    ensures var r' := Apply(org, r, c, db).0;
      && r'.cache == r.cache
      && (CacheAgrees(org, r', now) <==>
            forall s | Live(r.cache, s, now) :: forall id :: Serves(r.flows, id, s) == Serves(r'.flows, id, s))
  {
    ThrowingKeepsCache(org, r, c, db);
    ApplyKeepsInv(org, r, c, db);
    hide Validate, Apply, FreshRead;
    var r' := Apply(org, r, c, db).0;
    forall s { ReadFollowsRows(org, r.flows, r'.flows, s); }
  }

  lemma ThrowingKeepsCache(org: Org, r: Registry, c: Call, db: Database)
    requires Apply(org, r, c, db).1 != Done
    ensures Apply(org, r, c, db).0.cache == r.cache
  {
    hide Validate, HolderOf;
  }

  /** What a stored but unanswered call about one row changes of what rows serve. */
  lemma LostRowServes(org: Org, r: Registry, c: Call, db: Database)
    requires LiveFlowsRun(org, r.flows) && !c.Create? && (c.Assign? ==> c.session.None?)
    requires var (r', o) := Apply(org, r, c, db); o != Done && r'.flows != r.flows
    ensures c.id in r.flows && var flow, flows := r.flows[c.id], Apply(org, r, c, db).0.flows;
      && (forall s, id | id != c.id || flow.session != Some(s) :: Serves(r.flows, id, s) == Serves(flows, id, s))
      && (flow.session.Some? ==>
            (Serves(r.flows, c.id, flow.session.value) == Serves(flows, c.id, flow.session.value)
             <==> !(flow.enabled || c.SetEnabled?)))
  {
    hide Validate, AssignTo, Accepted;
  }

  /** For a call about one row that is the row's own session, if it was or is served from that row. */
  lemma LostAnswerLeavesStaleEntry(org: Org, r: Registry, c: Call, db: Database, now: nat)
    requires Inv(org, r.flows) && CacheAgrees(org, r, now) && !c.Create? && (c.Assign? ==> c.session.None?)
    requires var (r', o) := Apply(org, r, c, db); o != Done && r'.flows != r.flows
    ensures c.id in r.flows && var flow := r.flows[c.id];
      CacheAgrees(org, Apply(org, r, c, db).0, now)
      <==> !(flow.session.Some? && Live(r.cache, flow.session.value, now) && (flow.enabled || c.SetEnabled?))
  {
    LateThrowLeavesStaleEntry(org, r, c, db, now);
    LostRowServes(org, r, c, db);
    hide Inv, CacheAgrees, Apply, Serves;
  }

  /** What detaching the holder of a session changes of what rows serve: that row, in that session. */
  lemma ClearedServes(org: Org, flows: Flows, id: string, s: string)
    requires Cleared(flows, id, s) != flows
    ensures HolderOf(flows, s).Some? && var holder, after := HolderOf(flows, s).value, Cleared(flows, id, s);
      && (forall x, t | x != holder || t != s :: Serves(flows, x, t) == Serves(after, x, t))
      && Serves(after, holder, s).None?
      && (Serves(flows, holder, s).Some? <==> FreshRead(org, flows, s).Some?)
  {
    ServedByHolder(org, flows, s, HolderOf(flows, s).value);
    hide FreshRead;
  }

  /** For an assignment cut short after detaching the holder it is the wanted session, if the holder was live. */
  lemma HalfAssignLeavesStaleEntry(org: Org, r: Registry, c: Call, db: Database, now: nat)
    requires Inv(org, r.flows) && CacheAgrees(org, r, now) && c.Assign? && c.session.Some? && c.id in r.flows
    requires Apply(org, r, c, db).0.flows == Cleared(r.flows, c.id, c.session.value)
    requires var (r', o) := Apply(org, r, c, db); o != Done && r'.flows != r.flows
    ensures var s := c.session.value;
      CacheAgrees(org, Apply(org, r, c, db).0, now) <==> !(Live(r.cache, s, now) && r.cache[s].flow.Some?)
  {
    LateThrowLeavesStaleEntry(org, r, c, db, now);
    var s := c.session.value;
    ClearedServes(org, r.flows, c.id, s);
    hide Inv, Apply, FreshRead, Serves, Cleared, HolderOf;
    if Live(r.cache, s, now) { assert r.cache[s].flow == FreshRead(org, r.flows, s); }
  }

  /** For an assignment whose last answer was lost it is the wanted session and the one the flow left. */
  lemma WholeAssignLeavesStaleEntry(org: Org, r: Registry, c: Call, db: Database, now: nat)
    requires Inv(org, r.flows) && CacheAgrees(org, r, now) && c.Assign? && c.session.Some? && c.id in r.flows
    requires r.flows[c.id].session != c.session
    requires Apply(org, r, c, db).0.flows
      == Cleared(r.flows, c.id, c.session.value)[c.id := r.flows[c.id].(session := c.session)]
    requires Apply(org, r, c, db).1 != Done
    ensures var s, flow := c.session.value, r.flows[c.id];
      CacheAgrees(org, Apply(org, r, c, db).0, now) <==>
        && !(Live(r.cache, s, now) && (flow.enabled || r.cache[s].flow.Some?))
        && !(flow.session.Some? && Live(r.cache, flow.session.value, now) && flow.enabled)
  {
    var s, flow := c.session.value, r.flows[c.id];
    var flows := Apply(org, r, c, db).0.flows;
    assert flows[c.id] != r.flows[c.id];
    LateThrowLeavesStaleEntry(org, r, c, db, now);
    ReadIsServed(org, r.flows, s);
    WholeAssignServes(r.flows, c.id, s);
    hide Validate, Inv, Apply, FreshRead, Serves, Cleared;
    if Live(r.cache, s, now) {
      assert r.cache[s].flow == FreshRead(org, r.flows, s);
    }
  }

  lemma ServedByHolder(org: Org, flows: Flows, s: string, holder: string)
    requires HolderOf(flows, s) == Some(holder)
    ensures Serves(flows, holder, s).Some? <==> FreshRead(org, flows, s).Some?
  {
  }

  /** Both flows with the one graph; the holder live in a session and cached for it. */
  function TwoFlows(holder: string, taker: string, session: string, g: Graph, channel: Channel, now: nat): Registry {
    Registry(map[holder := Flow(Some(session), true, g), taker := Flow(None, false, g)],
             map[session := CacheEntry(Some(FlowRef(holder, g, channel)), now + 1)])
  }

  lemma TwoFlowsAgree(org: Org, holder: string, taker: string, session: string, g: Graph, now: nat)
    requires holder != taker && session in org.sessions && Accepted(g, RefsFor(org, Some(session)))
    ensures var r := TwoFlows(holder, taker, session, g, org.sessions[session], now);
      Inv(org, r.flows) && CacheAgrees(org, r, now) && HolderOf(r.flows, session) == Some(holder)
  {
    hide Validate, Accepted;
    var r := TwoFlows(holder, taker, session, g, org.sessions[session], now);
    assert Holds(r.flows, holder, session);
    HolderIsUnique(r.flows, holder, session);
  }

  /**
   * A forced assignment whose second write is refused, in every organization:
   * the session's flow is gone from the table and still served from the cache.
   */
  lemma ForcedAssignServesTheOldFlow(org: Org, holder: string, taker: string, session: string, g: Graph, now: nat)
    requires holder != taker && session in org.sessions && Accepted(g, RefsFor(org, Some(session)))
    ensures var r := TwoFlows(holder, taker, session, g, org.sessions[session], now);
      var (after, o) := Apply(org, r, Assign(taker, Some(session), true), Database(1, false));
      && CacheAgrees(org, r, now) && o == DatabaseFailed
      && FreshRead(org, after.flows, session) == None && Lookup(org, after, session, now).1.Some?
  {
    hide Validate, Accepted;
    var r := TwoFlows(holder, taker, session, g, org.sessions[session], now);
    TwoFlowsAgree(org, holder, taker, session, g, now);
    var after := Apply(org, r, Assign(taker, Some(session), true), Database(1, false)).0;
    assert after.flows == r.flows[holder := Detached(r.flows[holder])];
    assert forall id :: !Holds(after.flows, id, session);
  }

  /** So does a disabling whose answer is lost. */
  lemma LostDisableServesTheOldFlow(org: Org, holder: string, taker: string, session: string, g: Graph, now: nat)
    requires holder != taker && session in org.sessions && Accepted(g, RefsFor(org, Some(session)))
    ensures var r := TwoFlows(holder, taker, session, g, org.sessions[session], now);
      var (after, o) := Apply(org, r, SetEnabled(holder, Some(false)), Database(1, true));
      && CacheAgrees(org, r, now) && o == DatabaseFailed
      && FreshRead(org, after.flows, session) == None && Lookup(org, after, session, now).1.Some?
  {
    hide Validate, Accepted;
    var r := TwoFlows(holder, taker, session, g, org.sessions[session], now);
    TwoFlowsAgree(org, holder, taker, session, g, now);
    var after := Apply(org, r, SetEnabled(holder, Some(false)), Database(1, true)).0;
    assert forall id :: Holds(after.flows, id, session) ==> !after.flows[id].enabled;
  }

  /** With an accurate cache a lookup returns what a fresh read would, and stays accurate. */
  lemma LookupIsFresh(org: Org, r: Registry, session: string, now: nat)
    requires CacheAgrees(org, r, now)
    ensures var (r', flow) := Lookup(org, r, session, now);
      flow == FreshRead(org, r.flows, session) && r'.flows == r.flows && CacheAgrees(org, r', now)
  {
  }

  // ---------------------------------------------------------------- whole histories

  datatype Op = Do(call: Call, db: Database) | Look(session: string) | Wait(ms: nat)

  ghost function OpStep(org: Org, r: Registry, now: nat, op: Op): (Registry, nat) {
    match op
    case Do(c, db) => (Apply(org, r, c, db).0, now)
    case Look(s) => (Lookup(org, r, s, now).0, now)
    case Wait(ms) => (r, now + ms)
  }

  /** The registry and clock after a history of calls, lookups and waits. */
  ghost function After(org: Org, now: nat, ops: seq<Op>): (Registry, nat) {
    if ops == [] then (Registry(map[], map[]), now)
    else
      var (r, t) := After(org, now, ops[..|ops| - 1]);
      OpStep(org, r, t, ops[|ops| - 1])
  }

  /** No call of the history threw after its first write. */
  ghost predicate NoLateThrow(org: Org, now: nat, ops: seq<Op>) {
    forall k: nat | k < |ops| && ops[k].Do? ::
      var r := After(org, now, ops[..k]).0;
      var (r', o) := Apply(org, r, ops[k].call, ops[k].db);
      o == Done || r'.flows == r.flows
  }

  lemma {:induction false} HistoryKeepsInv(org: Org, now: nat, ops: seq<Op>)
    ensures Inv(org, After(org, now, ops).0.flows)
  {
    hide Apply;
    if ops != [] {
      var k := |ops| - 1;
      HistoryKeepsInv(org, now, ops[..k]);
      var (r, t) := After(org, now, ops[..k]);
      if ops[k].Do? { ApplyKeepsInv(org, r, ops[k].call, ops[k].db); }
    }
  }

  /**
   * Over any history in which no call threw after a write, every lookup
   * answers what a fresh read of the table would.
   */
  lemma {:induction false} HistoryKeepsCache(org: Org, now: nat, ops: seq<Op>)
    requires NoLateThrow(org, now, ops)
    ensures var (r, t) := After(org, now, ops);
      CacheAgrees(org, r, t) && forall s :: Lookup(org, r, s, t).1 == FreshRead(org, r.flows, s)
  {
    hide Apply, Inv, FreshRead;
    if ops != [] {
      var k := |ops| - 1;
      forall m: nat | m < k ensures ops[..k][..m] == ops[..m] {}
      assert NoLateThrow(org, now, ops[..k]);
      HistoryKeepsCache(org, now, ops[..k]);
      HistoryKeepsInv(org, now, ops[..k]);
      var (r, t) := After(org, now, ops[..k]);
      match ops[k]
      case Do(c, db) => ApplyKeepsCache(org, r, c, db, t);
      case Look(s) => LookupIsFresh(org, r, s, t);
      case Wait(_) =>
    }
    var (r, t) := After(org, now, ops);
    forall s ensures Lookup(org, r, s, t).1 == FreshRead(org, r.flows, s) { LookupIsFresh(org, r, s, t); }
  }
}
