/** The flow CRUD service as it runs: rows and cache entries updated in sequence. */
module FlowsService {
  import opened Prelude
  import opened FlowGraph
  import opened FlowRegistry

  class Service {
    const org: Org
    var flows: Flows
    var cache: Cache

    ghost function View(): Registry
      reads this
    {
      Registry(flows, cache)
    }

    constructor (org: Org)
      ensures this.org == org && View() == Registry(map[], map[])
    {
      this.org := org;
      flows, cache := map[], map[];
    }

    method Invalidate(session: Option<string>)
      modifies this`cache
      ensures cache == Invalidated(old(cache), session)
    {
      if session.Some? { cache := cache - {session.value}; }
    }

    method Check(g: Graph, session: Option<string>) returns (o: Outcome)
      ensures o == Refusal(g, RefsFor(org, session))
    {
      var v := ValidateGraph(g, RefsFor(org, session));
      o := if v.Threw? then ValidatorThrew else if v.errors == [] then Done else InvalidGraph;
    }

    method FindHolder(session: string) returns (r: Option<string>)
      requires OneFlowPerSession(flows)
      ensures r == HolderOf(flows, session)
    {
      if exists id :: id in flows && flows[id].session == Some(session) {
        var id :| id in flows && flows[id].session == Some(session);
        assert Holds(flows, id, session);
        r := Some(id);
      } else {
        assert forall id :: !Holds(flows, id, session);
        r := None;
      }
    }

    method CreateFlow(id: string, draft: Graph, quotaOk: bool, db: Database) returns (o: Outcome)
      modifies this
      ensures (View(), o) == Apply(org, old(View()), Create(id, draft, quotaOk), db)
    {
      if !quotaOk { return OverQuota; }
      if !Stores(db, 1) || id in flows { return DatabaseFailed; }
      flows := flows[id := Flow(None, false, draft)];
      return if Answers(db, 1) then Done else DatabaseFailed;
    }

    method AssignSession(id: string, session: Option<string>, force: bool, db: Database) returns (o: Outcome)
      requires OneFlowPerSession(flows)
      modifies this
      ensures (View(), o) == Apply(org, old(View()), Assign(id, session, force), db)
    {
      hide Validate;
      if id !in flows { return FlowNotFound; }
      var flow := flows[id];
      var previous := flow.session;
      if session.None? {
        if !Stores(db, 1) { return DatabaseFailed; }
        flows := flows[id := flow.(session := None, enabled := false)];
        if !Answers(db, 1) { return DatabaseFailed; }
        Invalidate(previous);
        return Done;
      }
      if session.value !in org.sessions { return SessionNotFound; }
      var holder := FindHolder(session.value);
      var last := 1;
      if holder.Some? && holder.value != id {
        if !force { return SessionTaken; }
        if !Stores(db, 1) { return DatabaseFailed; }
        flows := flows[holder.value := Detached(flows[holder.value])];
        if !Answers(db, 1) { return DatabaseFailed; }
        last := 2;
      }
      if flow.enabled {
        var refusal := Check(flow.graph, session);
        if refusal != Done { return refusal; }
      }
      if !Stores(db, last) { return DatabaseFailed; }
      flows := flows[id := flow.(session := session)];
      if !Answers(db, last) { return DatabaseFailed; }
      Invalidate(session);
      Invalidate(previous);
      return Done;
    }

    method Save(id: string, graph: Graph, db: Database) returns (o: Outcome)
      modifies this
      ensures (View(), o) == Apply(org, old(View()), SaveGraph(id, graph), db)
    {
      hide Validate;
      if id !in flows { return FlowNotFound; }
      var flow := flows[id];
      var refusal := Check(graph, flow.session);
      if refusal == ValidatorThrew || (refusal == InvalidGraph && flow.enabled) { return refusal; }
      if !Stores(db, 1) { return DatabaseFailed; }
      flows := flows[id := flow.(graph := graph)];
      if !Answers(db, 1) { return DatabaseFailed; }
      Invalidate(flow.session);
      return Done;
    }

    method Update(id: string, enabled: Option<bool>, db: Database) returns (o: Outcome)
      modifies this
      ensures (View(), o) == Apply(org, old(View()), SetEnabled(id, enabled), db)
    {
      hide Validate;
      if id !in flows { return FlowNotFound; }
      var flow := flows[id];
      if enabled == Some(true) {
        if flow.session.None? { return NotAssigned; }
        var refusal := Check(flow.graph, flow.session);
        if refusal != Done { return refusal; }
      }
      if !Stores(db, 1) { return DatabaseFailed; }
      flows := flows[id := flow.(enabled := if enabled.Some? then enabled.value else flow.enabled)];
      if !Answers(db, 1) { return DatabaseFailed; }
      Invalidate(flow.session);
      return Done;
    }

    method RemoveFlow(id: string, db: Database) returns (o: Outcome)
      modifies this
      ensures (View(), o) == Apply(org, old(View()), Remove(id), db)
    {
      if id !in flows { return FlowNotFound; }
      var session := flows[id].session;
      if !Stores(db, 1) { return DatabaseFailed; }
      flows := flows - {id};
      if !Answers(db, 1) { return DatabaseFailed; }
      Invalidate(session);
      return Done;
    }

    method EnabledFlowFor(session: string, now: nat) returns (flow: Option<FlowRef>)
      requires OneFlowPerSession(flows)
      modifies this`cache
      ensures (View(), flow) == Lookup(org, old(View()), session, now)
    {
      if Live(cache, session, now) { return cache[session].flow; }
      var holder := FindHolder(session);
      flow := None;
      if holder.Some? && flows[holder.value].enabled {
        var channel := if session in org.sessions then org.sessions[session] else Whatsapp;
        flow := Some(FlowRef(holder.value, flows[holder.value].graph, channel));
      }
      cache := cache[session := CacheEntry(flow, now + CACHE_MS)];
    }
  }
}
