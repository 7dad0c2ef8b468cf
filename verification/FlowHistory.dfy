/**
 * What the flow table holds after a history: for each row, the graph, session
 * and enabled flag that were stored last, whatever failed in between.
 */
module FlowHistory {
  import opened Prelude
  import opened FlowGraph
  import opened FlowRegistry

  // ---------------------------------------------------------------- when a call writes

  /** Nobody but the flow itself is attached to the session. */
  ghost predicate FreeFor(flows: Flows, id: string, session: string) {
    forall x :: Holds(flows, x, session) ==> x == id
  }

  /** The write of the call's own row goes through. */
  ghost predicate Writes(org: Org, flows: Flows, c: Call, db: Database) {
    match c
    case Create(id, _, quotaOk) => quotaOk && id !in flows && db.writes >= 1
    case Remove(id) => id in flows && db.writes >= 1
    case SaveGraph(id, graph) =>
      id in flows && db.writes >= 1
      && var verdict := Validate(graph, RefsFor(org, flows[id].session));
         verdict == Findings([]) || (!flows[id].enabled && !verdict.Threw?)
    case SetEnabled(id, enabled) =>
      id in flows && db.writes >= 1
      && (enabled == Some(true) ==>
            flows[id].session.Some? && Accepted(flows[id].graph, RefsFor(org, flows[id].session)))
    case Assign(id, None, _) => id in flows && db.writes >= 1
    case Assign(id, Some(session), force) =>
      id in flows && session in org.sessions
      && (flows[id].enabled ==> Accepted(flows[id].graph, RefsFor(org, Some(session))))
      && (if FreeFor(flows, id, session) then db.writes >= 1 else force && db.writes >= 2)
  }

  /** The call takes the row's session away for another flow. */
  ghost predicate Detaches(org: Org, flows: Flows, c: Call, db: Database, id: string) {
    && c.Assign? && c.session.Some? && c.force && c.id in flows && c.session.value in org.sessions
    && id != c.id && Holds(flows, id, c.session.value) && db.writes >= 1
  }

  /** The row a call leaves under its own id when its write goes through. */
  function Written(c: Call, before: Option<Flow>): Option<Flow>
    requires c.Create? || before.Some?
  {
    match c
    case Create(_, draft, _) => Some(Flow(None, false, draft))
    case Remove(_) => None
    case SaveGraph(_, graph) => Some(Flow(before.value.session, before.value.enabled, graph))
    case SetEnabled(_, enabled) =>
      Some(before.value.(enabled := if enabled.Some? then enabled.value else before.value.enabled))
    case Assign(_, session, _) =>
      Some(Flow(session, session.Some? && before.value.enabled, before.value.graph))
  }

  function RowOf(flows: Flows, id: string): Option<Flow> {
    if id in flows then Some(flows[id]) else None
  }

  lemma HolderIs(flows: Flows, id: string, session: string)
    requires OneFlowPerSession(flows)
    ensures HolderOf(flows, session).Some? && HolderOf(flows, session).value != id <==> !FreeFor(flows, id, session)
    ensures forall x :: Holds(flows, x, session) ==> HolderOf(flows, session) == Some(x)
  {
  }

  /** A call writes its own row exactly so, clears the row it detaches, and touches no other. */
  lemma CallWrites(org: Org, r: Registry, c: Call, db: Database, id: string)
    requires OneFlowPerSession(r.flows)
    ensures RowOf(Apply(org, r, c, db).0.flows, id) ==
      if id == c.id && Writes(org, r.flows, c, db) then Written(c, RowOf(r.flows, id))
      else if Detaches(org, r.flows, c, db, id) then Some(Flow(None, false, r.flows[id].graph))
      else RowOf(r.flows, id)
  {
    hide Validate, OneFlowPerSession;
    if c.Assign? && c.session.Some? {
      HolderIs(r.flows, c.id, c.session.value);
      hide FreeFor, HolderOf, Invalidated;
      if c.id in r.flows {
        AssignWrites(org, r, c.id, c.session.value, c.force, db, id);
      }
    } else {
      hide AssignTo, Invalidated;
    }
  }

  lemma AssignWrites(
      org: Org, r: Registry, id: string, session: string, force: bool, db: Database, x: string)
    requires OneFlowPerSession(r.flows) && id in r.flows
    ensures RowOf(AssignTo(org, r, id, session, force, db).0.flows, x) ==
      var c := Assign(id, Some(session), force);
      if x == id && Writes(org, r.flows, c, db) then Written(c, RowOf(r.flows, x))
      else if Detaches(org, r.flows, c, db, x) then Some(Flow(None, false, r.flows[x].graph))
      else RowOf(r.flows, x)
  {
    HolderIs(r.flows, id, session);
    hide Validate, FreeFor, HolderOf, OneFlowPerSession, Invalidated;
  }

  // ---------------------------------------------------------------- what a call answers

  /** The answer to the write numbered `last`, counted from one, arrived. */
  ghost predicate Answered(db: Database, last: nat) {
    db.writes > last || (db.writes == last && !db.lost)
  }

  /** A call answers normally exactly when its own write went through and the answer to it arrived. */
  lemma DoneMeansWritten(org: Org, r: Registry, c: Call, db: Database)
    requires OneFlowPerSession(r.flows)
    ensures Apply(org, r, c, db).1 == Done <==>
      && Writes(org, r.flows, c, db)
      && Answered(db, if c.Assign? && c.session.Some? && !FreeFor(r.flows, c.id, c.session.value) then 2 else 1)
  {
    hide Validate, OneFlowPerSession;
    if c.Assign? && c.session.Some? {
      HolderIs(r.flows, c.id, c.session.value);
      hide FreeFor, HolderOf, Invalidated;
    } else {
      hide AssignTo, Invalidated;
    }
  }

  /** And the refusals say why it did not. */
  lemma RefusalsMean(org: Org, r: Registry, c: Call, db: Database)
    requires OneFlowPerSession(r.flows)
    ensures var o := Apply(org, r, c, db).1;
      && (o == OverQuota <==> c.Create? && !c.quotaOk)
      && (o == FlowNotFound <==> !c.Create? && c.id !in r.flows)
      && (o == SessionNotFound <==> c.Assign? && c.id in r.flows && c.session.Some? && c.session.value !in org.sessions)
      && (o == SessionTaken <==> c.Assign? && c.id in r.flows && c.session.Some? && c.session.value in org.sessions
                                 && !FreeFor(r.flows, c.id, c.session.value) && !c.force)
      && (o == NotAssigned <==> c.SetEnabled? && c.id in r.flows && c.enabled == Some(true)
                                && r.flows[c.id].session.None?)
  {
    hide Validate, OneFlowPerSession;
    if c.Assign? && c.session.Some? {
      HolderIs(r.flows, c.id, c.session.value);
      hide FreeFor, HolderOf, Invalidated;
    } else {
      hide AssignTo, Invalidated;
    }
  }

  // ---------------------------------------------------------------- histories

  ghost function FlowsAfter(org: Org, now: nat, ops: seq<Op>): Flows {
    After(org, now, ops).0.flows
  }

  /** The last operation of the history writes the row named, or takes its session. */
  ghost predicate LastWrites(org: Org, now: nat, ops: seq<Op>, id: string)
    requires ops != []
  {
    var op := ops[|ops| - 1];
    op.Do? && op.call.id == id && Writes(org, FlowsAfter(org, now, ops[..|ops| - 1]), op.call, op.db)
  }

  ghost predicate LastDetaches(org: Org, now: nat, ops: seq<Op>, id: string)
    requires ops != []
  {
    var op := ops[|ops| - 1];
    op.Do? && Detaches(org, FlowsAfter(org, now, ops[..|ops| - 1]), op.call, op.db, id)
  }

  /** The graph stored last under the id: by a save, or else by the creation; None after a removal. */
  ghost function LastGraph(org: Org, now: nat, ops: seq<Op>, id: string): Option<Graph> {
    if ops == [] then None
    else
      var op := ops[|ops| - 1];
      if LastWrites(org, now, ops, id) && op.call.Create? then Some(op.call.draft)
      else if LastWrites(org, now, ops, id) && op.call.SaveGraph? then Some(op.call.graph)
      else if LastWrites(org, now, ops, id) && op.call.Remove? then None
      else LastGraph(org, now, ops[..|ops| - 1], id)
  }

  /** The session stored last: by an assignment, cleared by another flow's forced one. */
  ghost function LastSession(org: Org, now: nat, ops: seq<Op>, id: string): Option<string> {
    if ops == [] then None
    else
      var op := ops[|ops| - 1];
      if LastDetaches(org, now, ops, id) then None
      else if LastWrites(org, now, ops, id) && (op.call.Create? || op.call.Remove?) then None
      else if LastWrites(org, now, ops, id) && op.call.Assign? then op.call.session
      else LastSession(org, now, ops[..|ops| - 1], id)
  }

  /** Whether the flow was last switched on, with every loss of its session switching it off. */
  ghost function LastEnabled(org: Org, now: nat, ops: seq<Op>, id: string): bool {
    if ops == [] then false
    else
      var op := ops[|ops| - 1];
      if LastDetaches(org, now, ops, id) then false
      else if LastWrites(org, now, ops, id) && (op.call.Create? || op.call.Remove?) then false
      else if LastWrites(org, now, ops, id) && op.call.Assign? && op.call.session.None? then false
      else if LastWrites(org, now, ops, id) && op.call.SetEnabled? && op.call.enabled.Some? then op.call.enabled.value
      else LastEnabled(org, now, ops[..|ops| - 1], id)
  }

  /** Every row of the table is what was stored last under its id, field by field, and there is no other row. */
  lemma {:induction false} TableHoldsWhatWasStored(org: Org, now: nat, ops: seq<Op>, id: string)
    ensures RowOf(FlowsAfter(org, now, ops), id) ==
      var graph := LastGraph(org, now, ops, id);
      if graph.None? then None
      else Some(Flow(LastSession(org, now, ops, id), LastEnabled(org, now, ops, id), graph.value))
    ensures LastGraph(org, now, ops, id).None? ==>
      LastSession(org, now, ops, id).None? && !LastEnabled(org, now, ops, id)
  {
    hide Apply, Validate, Inv, OneFlowPerSession, Writes, Detaches, Lookup;
    if ops != [] {
      var k := |ops| - 1;
      TableHoldsWhatWasStored(org, now, ops[..k], id);
      HistoryKeepsInv(org, now, ops[..k]);
      InvSplit(org, After(org, now, ops[..k]).0.flows);
      var r := After(org, now, ops[..k]).0;
      if ops[k].Do? {
        CallWrites(org, r, ops[k].call, ops[k].db, id);
        WritesNeedsRow(org, r.flows, ops[k].call, ops[k].db, id);
      } else if ops[k].Look? {
        LookKeepsFlows(org, r, ops[k].session, After(org, now, ops[..k]).1);
      }
    }
  }

  lemma LookKeepsFlows(org: Org, r: Registry, session: string, now: nat)
    ensures Lookup(org, r, session, now).0.flows == r.flows
  {
    hide FreshRead;
  }

  lemma WritesNeedsRow(org: Org, flows: Flows, c: Call, db: Database, id: string)
    ensures Writes(org, flows, c, db) ==> (c.Create? <==> c.id !in flows)
    ensures Detaches(org, flows, c, db, id) ==> id in flows && id != c.id
  {
    hide Validate;
  }

  // ---------------------------------------------------------------- the cache's clock

  /** A lookup that reads the table serves its answer for thirty seconds, whatever the table does meanwhile. */
  lemma CachedForThirtySeconds(org: Org, r: Registry, session: string, t: nat, later: nat, flows: Flows)
    requires session !in r.cache || r.cache[session].expires <= t
    ensures var (r', flow) := Lookup(org, r, session, t);
      && flow == FreshRead(org, r.flows, session)
      && Lookup(org, r'.(flows := flows), session, later).1
         == if later < t + 30_000 then flow else FreshRead(org, flows, session)
  {
    hide FreshRead;
  }
}
