/**
 * What every walk over a flow graph keeps: the step limit, independence of
 * the stored order, no dangling edge and no exception on accepted graphs, and
 * no node twice on acyclic ones.
 */
module FlowWalks {
  import opened Prelude
  import opened FlowGraph
  import opened FlowWellFormed
  import opened FlowEngine

  // ---------------------------------------------------------------- the step limit

  lemma ExecuteVisits(mode: Mode, g: Graph, w: World, k: nat, n: Node, st: Stored, rec: Record)
    requires g.Graph? && n.Node?
    ensures Execute(mode, g, w, k, n, st, rec).rec.visited == rec.visited + [n]
  {
    hide Follow, EdgeFrom, Enter, Pick, TextsIn, CandidatesOf, Handoff, Guarded, TagConversationState;
    hide Hits, FirstHit, KnowsKey, TagSeen, OrFallback;
  }

  /** A walk hands one node to `execute` per step, and stops short of the limit or at it. */
  lemma {:induction false} WalkVisits(mode: Mode, g: Graph, w: World, next: Lookup, k: nat, st: Stored, rec: Record)
    requires g.Graph? && InGraph(g, next) && k <= MAX_STEPS && |rec.visited| == k
    ensures var e := Walk(mode, g, w, next, k, st, rec);
      |e.rec.visited| == e.steps <= MAX_STEPS && rec.visited <= e.rec.visited
    decreases MAX_STEPS - k
  {
    hide Execute;
    if next.Found? && k < MAX_STEPS {
      var a := Execute(mode, g, w, k, next.node, st, rec);
      ExecuteVisits(mode, g, w, k, next.node, st, rec);
      WalkVisits(mode, g, w, a.next, k + 1, a.st, a.rec);
    }
  }

  /**
   * On any graph, live or simulated, at most 20 nodes are executed, and
   * without an exception `step_limit` is reported exactly when 20 were.
   */
  lemma StepLimit(mode: Mode, g: Graph, w: World, st: Stored)
    requires g.Graph? && FromTrigger(mode, g, w, st).Some?
    ensures var e := FromTrigger(mode, g, w, st).value;
      |e.rec.visited| <= 20
      && (!e.threw ==> (Concluded(e).outcome == Outcome.StepLimit <==> |e.rec.visited| == 20))
  {
    var t := FindTrigger(g.nodes);
    if t.Found? {
      WalkVisits(mode, g, w, Follow(g, t.node, Text("out")), 0, st, FreshRecord);
      NoNodeReportsTheLimit(mode, g, w, Follow(g, t.node, Text("out")), 0, st, FreshRecord);
    }
  }

  /** No node's own outcome is the limit. */
  lemma ExecuteOutcome(mode: Mode, g: Graph, w: World, k: nat, n: Node, st: Stored, rec: Record)
    requires g.Graph? && n.Node? && rec.outcome != Outcome.StepLimit
    ensures Execute(mode, g, w, k, n, st, rec).rec.outcome != Outcome.StepLimit
  {
    hide Follow, EdgeFrom, Enter, Pick, TextsIn, CandidatesOf, Handoff, Guarded, TagConversationState;
    hide Hits, FirstHit, KnowsKey, TagSeen, OrFallback;
  }

  lemma {:induction false} NoNodeReportsTheLimit(
      mode: Mode, g: Graph, w: World, next: Lookup, k: nat, st: Stored, rec: Record)
    requires g.Graph? && InGraph(g, next) && k <= MAX_STEPS && rec.outcome != Outcome.StepLimit
    ensures Walk(mode, g, w, next, k, st, rec).rec.outcome != Outcome.StepLimit
    decreases MAX_STEPS - k
  {
    hide Execute;
    if next.Found? && k < MAX_STEPS {
      var a := Execute(mode, g, w, k, next.node, st, rec);
      ExecuteOutcome(mode, g, w, k, next.node, st, rec);
      NoNodeReportsTheLimit(mode, g, w, a.next, k + 1, a.st, a.rec);
    }
  }

  // ---------------------------------------------------------------- stored order

  /** Both graphs answer every lookup of the engine alike. */
  ghost predicate SameLookups(g: Graph, h: Graph)
    requires g.Graph? && h.Graph?
  {
    && FindTrigger(g.nodes) == FindTrigger(h.nodes)
    && (forall id :: FindById(g.nodes, id) == FindById(h.nodes, id))
    && (forall id, handle :: EdgeFrom(g.edges, id, handle) == EdgeFrom(h.edges, id, handle))
  }

  lemma {:induction false} FindByIdComplete(nodes: seq<Node>, n: Node)
    requires n in nodes && NoNode !in nodes && forall x, y | x in nodes && y in nodes && x.id == y.id :: x == y
    ensures FindById(nodes, n.id) == Found(n)
  {
    if nodes[0] != n {
      assert nodes == [nodes[0]] + nodes[1..];
      FindByIdComplete(nodes[1..], n);
    }
  }

  lemma {:induction false} FindByIdMisses(nodes: seq<Node>, id: Option<string>)
    requires NoNode !in nodes && forall x | x in nodes :: x.id != id
    ensures FindById(nodes, id) == Nowhere
  {
    if nodes != [] { FindByIdMisses(nodes[1..], id); }
  }

  lemma {:induction false} FindTriggerComplete(nodes: seq<Node>, n: Node)
    requires n in nodes && NoNode !in nodes && IsTrigger(n) && forall x | x in nodes && IsTrigger(x) :: x == n
    ensures FindTrigger(nodes) == Found(n)
  {
    if nodes[0] != n { FindTriggerComplete(nodes[1..], n); }
  }

  lemma TriggerFound(g: Graph) returns (t: Node)
    requires UniqueMatches(g)
    ensures FindTrigger(g.nodes) == Found(t) && IsTrigger(t) && t in g.nodes
    ensures forall x | x in g.nodes && IsTrigger(x) :: x == t
  {
    t :| t in g.nodes && IsTrigger(t);
    FindTriggerComplete(g.nodes, t);
  }

  lemma {:induction false} EdgeFromComplete(edges: seq<Edge>, e: Edge)
    requires e in edges && NoEdge !in edges && !HandleOf(e).Thing?
    requires forall x, y | x in edges && y in edges && OutputOf(x) == OutputOf(y) :: x == y
    ensures EdgeFrom(edges, e.source, HandleOf(e)) == Leads(e)
  {
    if edges[0] != e {
      assert edges == [edges[0]] + edges[1..];
      EdgeFromComplete(edges[1..], e);
    }
  }

  lemma {:induction false} EdgeFromMisses(edges: seq<Edge>, id: Option<string>, handle: Field)
    requires NoEdge !in edges && forall x | x in edges :: !Leaves(x, id, handle)
    ensures EdgeFrom(edges, id, handle) == NoneLeads
  {
    if edges != [] { EdgeFromMisses(edges[1..], id, handle); }
  }

  /** No nulls, one trigger, at most one match for every search, and no edge without a target. */
  ghost predicate UniqueMatches(g: Graph) {
    && g.Graph? && NoNode !in g.nodes && NoEdge !in g.edges
    && (forall x, y | x in g.nodes && y in g.nodes && x.id == y.id :: x == y)
    && (forall x, y | x in g.nodes && y in g.nodes && IsTrigger(x) && IsTrigger(y) :: x == y)
    && (exists x :: x in g.nodes && IsTrigger(x))
    && (forall x, y | x in g.edges && y in g.edges && OutputOf(x) == OutputOf(y) :: x == y)
    && (forall e | e in g.edges :: exists n :: n in g.nodes && n.id == e.target)
  }

  lemma AcceptedLookups(g: Graph, refs: Refs)
    requires Accepted(g, refs)
    ensures UniqueMatches(g) && forall n | n in g.nodes :: GoodNode(n, refs)
  {
    AcceptedExactlyWellFormed(g, refs);
    WellFormedLookups(g, refs);
  }

  lemma WellFormedLookups(g: Graph, refs: Refs)
    requires WellFormed(g, refs)
    ensures UniqueMatches(g)
  {
    hide Configured;
    forall n | n in g.nodes ensures n.Node? { assert GoodNode(n, refs); }
    forall e | e in g.edges ensures e.Edge? { assert GoodEdge(g.nodes, e); }
    forall x, y | x in g.nodes && y in g.nodes && x.id == y.id ensures x == y {
      DistinctMembers(g.nodes, x, y, IdOf);
    }
    forall x, y | x in g.edges && y in g.edges && OutputOf(x) == OutputOf(y) ensures x == y {
      DistinctMembers(g.edges, x, y, OutputOf);
    }
    var t :| 0 <= t < |g.nodes| && IsTrigger(g.nodes[t]);
    assert g.nodes[t] in g.nodes;
    forall e | e in g.edges ensures exists n :: n in g.nodes && n.id == e.target { assert GoodEdge(g.nodes, e); }
  }

  lemma DistinctMembers<T, K(!new)>(xs: seq<T>, x: T, y: T, key: T -> K)
    requires Distinct(xs, key) && x in xs && y in xs && key(x) == key(y)
    ensures x == y
  {
    var i :| 0 <= i < |xs| && xs[i] == x;
    var j :| 0 <= j < |xs| && xs[j] == y;
    assert key(xs[i]) == key(xs[j]);
  }

  lemma LookupsIgnoreOrder(g: Graph, h: Graph)
    requires UniqueMatches(g) && h.Graph?
    requires multiset(h.nodes) == multiset(g.nodes) && multiset(h.edges) == multiset(g.edges)
    ensures SameLookups(g, h)
  {
    assert forall n :: n in h.nodes <==> n in multiset(h.nodes);
    assert forall n :: n in g.nodes <==> n in multiset(g.nodes);
    assert forall e :: e in h.edges <==> e in multiset(h.edges);
    assert forall e :: e in g.edges <==> e in multiset(g.edges);
    var t :| t in g.nodes && IsTrigger(t);
    FindTriggerComplete(g.nodes, t);
    FindTriggerComplete(h.nodes, t);
    forall id ensures FindById(g.nodes, id) == FindById(h.nodes, id) {
      if n :| n in g.nodes && n.id == id {
        FindByIdComplete(g.nodes, n);
        FindByIdComplete(h.nodes, n);
      } else {
        FindByIdMisses(g.nodes, id);
        FindByIdMisses(h.nodes, id);
      }
    }
    forall id, handle ensures EdgeFrom(g.edges, id, handle) == EdgeFrom(h.edges, id, handle) {
      if e :| e in g.edges && Leaves(e, id, handle) {
        EdgeFromComplete(g.edges, e);
        EdgeFromComplete(h.edges, e);
      } else {
        EdgeFromMisses(g.edges, id, handle);
        EdgeFromMisses(h.edges, id, handle);
      }
    }
  }

  lemma SameFollow(g: Graph, h: Graph, n: Node)
    requires g.Graph? && h.Graph? && SameLookups(g, h) && n.Node?
    ensures forall handle :: Follow(g, n, handle) == Follow(h, n, handle)
    ensures forall handle :: Enter(g, EdgeFrom(g.edges, n.id, handle)) == Enter(h, EdgeFrom(h.edges, n.id, handle))
  {
    forall handle ensures Enter(g, EdgeFrom(g.edges, n.id, handle)) == Enter(h, EdgeFrom(h.edges, n.id, handle)) {
      assert EdgeFrom(g.edges, n.id, handle) == EdgeFrom(h.edges, n.id, handle);
    }
  }

  lemma SameDecision(mode: Mode, g: Graph, h: Graph, w: World, input: Inputs, n: Node, st: Stored, rec: Record)
    requires g.Graph? && h.Graph? && SameLookups(g, h) && n.Node?
    ensures ExecuteDecision(mode, g, w, input, n, st, rec) == ExecuteDecision(mode, h, w, input, n, st, rec)
  {
    SameFollow(g, h, n);
    hide Hits, FirstHit, KnowsKey, TagSeen, Follow, SameLookups;
  }

  lemma SameExecute(mode: Mode, g: Graph, h: Graph, w: World, k: nat, n: Node, st: Stored, rec: Record)
    requires g.Graph? && h.Graph? && SameLookups(g, h) && n.Node?
    ensures Execute(mode, g, w, k, n, st, rec) == Execute(mode, h, w, k, n, st, rec)
  {
    SameFollow(g, h, n);
    SameDecision(mode, g, h, w, w.inputs(k), n, st, rec.(visited := rec.visited + [n]));
    assert EdgeFrom(g.edges, n.id, Text("onHandoff")) == EdgeFrom(h.edges, n.id, Text("onHandoff"));
    hide ExecuteDecision, ExecuteAssign, Guarded, TagConversationState, Handoff, Follow, EdgeFrom, Enter, SameLookups;
  }

  lemma {:induction false} SameWalk(
      mode: Mode, g: Graph, h: Graph, w: World, next: Lookup, k: nat, st: Stored, rec: Record)
    requires g.Graph? && h.Graph? && SameLookups(g, h) && InGraph(g, next) && InGraph(h, next) && k <= MAX_STEPS
    ensures Walk(mode, g, w, next, k, st, rec) == Walk(mode, h, w, next, k, st, rec)
    decreases MAX_STEPS - k
  {
    hide Execute;
    if next.Found? && k < MAX_STEPS {
      SameExecute(mode, g, h, w, k, next.node, st, rec);
      var a := Execute(mode, g, w, k, next.node, st, rec);
      SameWalk(mode, g, h, w, a.next, k + 1, a.st, a.rec);
    }
  }

  /**
   * An accepted graph means the same whatever order its nodes and edges are
   * stored in: every live run and every simulation has the same record and
   * leaves the same state, although each lookup takes the first match.
   */
  lemma WalkIgnoresStoredOrder(g: Graph, h: Graph, refs: Refs, w: World, st: Stored)
    requires Accepted(g, refs) && h.Graph?
    requires multiset(h.nodes) == multiset(g.nodes) && multiset(h.edges) == multiset(g.edges)
    ensures Ran(g, w, st) == Ran(h, w, st)
    ensures Simulated(g, w, st) == Simulated(h, w, st)
  {
    hide Validate, Configured, Execute;
    AcceptedLookups(g, refs);
    LookupsIgnoreOrder(g, h);
    var t := FindTrigger(g.nodes);
    if t.Found? {
      SameFollow(g, h, t.node);
      var next := Follow(g, t.node, Text("out"));
      SameWalk(Live, g, h, w, next, 0, st, FreshRecord);
      SameWalk(Dry, g, h, w, next, 0, st, FreshRecord);
    }
  }

  // ---------------------------------------------------------------- no dangling edge, no exception

  /** On an accepted graph a drawn output always leads to its node, and a missing one is just missing. */
  lemma FollowNeverDangles(g: Graph, refs: Refs, n: Node, handle: Field)
    requires g.Graph? && Accepted(g, refs) && n.Node?
    ensures NoEdge !in g.edges && !Follow(g, n, handle).Broke?
    ensures Follow(g, n, handle).Found? <==> exists e :: e in g.edges && Leaves(e, n.id, handle)
    ensures forall e | e in g.edges && Leaves(e, n.id, handle)
              :: Follow(g, n, handle).Found? && Follow(g, n, handle).node.id == e.target
  {
    hide Validate, Configured;
    AcceptedLookups(g, refs);
    FollowFinds(g, n, handle);
  }

  lemma FollowFinds(g: Graph, n: Node, handle: Field)
    requires UniqueMatches(g) && n.Node?
    ensures !EdgeFrom(g.edges, n.id, handle).EdgeBroke? && !Follow(g, n, handle).Broke?
    ensures Follow(g, n, handle).Found? <==> exists e :: e in g.edges && Leaves(e, n.id, handle)
    ensures forall e | e in g.edges && Leaves(e, n.id, handle)
              :: Follow(g, n, handle).Found? && Follow(g, n, handle).node.id == e.target
  {
    if e :| e in g.edges && Leaves(e, n.id, handle) {
      EdgeFromComplete(g.edges, e);
      var t :| t in g.nodes && t.id == e.target;
      FindByIdComplete(g.nodes, t);
      assert Follow(g, n, handle) == Found(t);
      forall x | x in g.edges && Leaves(x, n.id, handle) ensures x == e {
        assert OutputOf(x) == OutputOf(e);
      }
    } else {
      EdgeFromMisses(g.edges, n.id, handle);
    }
  }

  /** No step's outside answers end in an exception the engine does not catch. */
  ghost predicate WorldHolds(w: World) {
    forall k: nat :: var i := w.inputs(k);
      i.decision.Said? && i.intent.Said? && i.contact.Said? && i.sendOk && i.handoffOk
  }

  lemma {:induction false} HitsHold(keywords: seq<Field>, w: World)
    requires forall f | f in keywords :: f.Text?
    ensures Hits(keywords, w).Said?
  {
    if keywords != [] { HitsHold(keywords[1..], w); }
  }

  lemma {:induction false} FirstHitHolds(cases: seq<Branch>, w: World)
    requires forall b | b in cases :: GoodBranch(b, CaseFamily)
    ensures FirstHit(cases, w).Said?
  {
    if cases != [] {
      assert GoodBranch(cases[0], CaseFamily);
      HitsHold(ListOf(cases[0].keywords), w);
      FirstHitHolds(cases[1..], w);
    }
  }

  lemma {:induction false} KnowsKeyHolds(intents: seq<Branch>, key: string)
    requires forall b | b in intents :: b.Branch?
    ensures KnowsKey(intents, key).Said?
  {
    if intents != [] {
      assert intents[0] in intents;
      KnowsKeyHolds(intents[1..], key);
    }
  }

  /** The node hands over to the contact's own agent and has no data to read the options off. */
  predicate TripsOn(n: Node, input: Inputs) {
    && n.Node? && n.kind.AssignContactAgent? && n.data.None?
    && input.contact.Said? && input.contact.value.Some? && input.contact.value.value.Some?
  }

  /** Apart from hand-overs to a contact's agent, a good node has the data it reads. */
  lemma GoodNodeHasData(n: Node, refs: Refs)
    requires GoodNode(n, refs)
    ensures n.data.None? ==> n.kind.Trigger? || n.kind.SaveContact? || n.kind.AssignContactAgent?
  {
  }

  /** While the outside answers hold, a good node throws exactly when it trips. */
  lemma GoodNodeThrowsExactly(
      mode: Mode, g: Graph, refs: Refs, w: World, k: nat, n: Node, st: Stored, rec: Record)
    requires UniqueMatches(g) && WorldHolds(w) && GoodNode(n, refs)
    ensures Execute(mode, g, w, k, n, st, rec).next.Broke? <==> TripsOn(n, w.inputs(k))
  {
    forall h ensures !EdgeFrom(g.edges, n.id, h).EdgeBroke? && !Follow(g, n, h).Broke? {
      FollowFinds(g, n, h);
    }
    assert !Enter(g, EdgeFrom(g.edges, n.id, Text("onHandoff"))).Broke? by {
      assert !Follow(g, n, Text("onHandoff")).Broke?;
    }
    GoodNodeHasData(n, refs);
    if IsDecision(n.kind) {
      GoodDecisionNeverThrows(mode, g, refs, w, k, n, st, rec.(visited := rec.visited + [n]));
    } else if IsTerminal(n.kind) {
      hide ExecuteReply, ExecuteDecision, ExecuteContactAgent, ExecuteAction;
      AssignNeverThrows(mode, refs, w.inputs(k), n, st, rec.(visited := rec.visited + [n]));
    } else if n.kind.AgentReply? {
      hide ExecuteAssign, ExecuteDecision, ExecuteContactAgent, ExecuteAction, Follow, EdgeFrom, Enter, UniqueMatches;
    } else if n.kind.AssignContactAgent? {
      hide ExecuteAssign, ExecuteDecision, ExecuteReply, ExecuteAction, Follow, EdgeFrom, Enter, UniqueMatches;
    } else {
      hide ExecuteAssign, ExecuteDecision, ExecuteReply, ExecuteContactAgent, Follow, EdgeFrom, Enter, UniqueMatches;
    }
  }

  lemma GoodDecisionNeverThrows(mode: Mode, g: Graph, refs: Refs, w: World, k: nat, n: Node, st: Stored, rec: Record)
    requires g.Graph? && WorldHolds(w) && GoodNode(n, refs) && IsDecision(n.kind)
    requires forall h :: !Follow(g, n, h).Broke?
    ensures !ExecuteDecision(mode, g, w, w.inputs(k), n, st, rec).next.Broke?
  {
    if n.kind.Keyword? { HitsHold(ListOf(DataOf(n).keywords), w); }
    if n.kind.KeywordCases? { FirstHitHolds(BranchesOf(n), w); }
    if n.kind.Intent? {
      forall b | b in BranchesOf(n) ensures b.Branch? { assert GoodBranch(b, IntentFamily); }
      if w.inputs(k).intent.value.Some? { KnowsKeyHolds(BranchesOf(n), w.inputs(k).intent.value.value); }
    }
  }

  lemma AssignNeverThrows(mode: Mode, refs: Refs, input: Inputs, n: Node, st: Stored, rec: Record)
    requires GoodNode(n, refs) && IsTerminal(n.kind) && input.handoffOk
    ensures !ExecuteAssign(mode, input, n, st, rec).next.Broke?
  {
    var ids := CandidatesOf(n);
    assert forall f | f in ids :: f.Text?;
    if ids != [] {
      var (picked, _) := Pick(n.kind.AssignGroup?, n, ids, st.counters);
      assert forall f | f in picked :: f in ids;
    }
  }

  /** Some step of the walk tripped. */
  ghost predicate Tripped(w: World, v: seq<Node>, from: nat) {
    exists j: nat :: from <= j < |v| && TripsOn(v[j], w.inputs(j))
  }

  /**
   * How accepted graphs go wrong: while the outside answers hold, a live run
   * or simulation of an accepted graph ends in an exception exactly when some
   * step hands over to the contact's agent at a node stored without data.
   */
  lemma AcceptedWalkThrowsExactly(mode: Mode, g: Graph, refs: Refs, w: World, st: Stored)
    requires Accepted(g, refs) && WorldHolds(w)
    ensures FromTrigger(mode, g, w, st).Some?
    ensures var e := FromTrigger(mode, g, w, st).value; e.threw <==> Tripped(w, e.rec.visited, 0)
  {
    hide Validate, Configured, Execute, UniqueMatches;
    AcceptedLookups(g, refs);
    var t := TriggerFound(g);
    FollowFinds(g, t, Text("out"));
    AcceptedStepsThrowExactly(mode, g, refs, w, Follow(g, t, Text("out")), 0, st, FreshRecord);
  }

  lemma TrippedFrom(w: World, v: seq<Node>, k: nat)
    requires k < |v|
    ensures Tripped(w, v, k) <==> TripsOn(v[k], w.inputs(k)) || Tripped(w, v, k + 1)
  {
    hide TripsOn;
  }

  lemma NotTripped(w: World, v: seq<Node>, k: nat)
    requires |v| <= k
    ensures !Tripped(w, v, k)
  {
  }

  ghost predicate AllGood(g: Graph, refs: Refs) {
    g.Graph? && UniqueMatches(g) && forall n | n in g.nodes :: GoodNode(n, refs)
  }

  /** One step of a walk over good nodes: it throws exactly when it trips. */
  lemma StepThrowsExactly(
      mode: Mode, g: Graph, refs: Refs, w: World, n: Node, k: nat, st: Stored, rec: Record)
    requires AllGood(g, refs) && WorldHolds(w) && n in g.nodes && n.Node?
    ensures var a := Execute(mode, g, w, k, n, st, rec);
      a.rec.visited == rec.visited + [n] && (a.next.Broke? <==> TripsOn(n, w.inputs(k)))
  {
    hide Execute, GoodNode, UniqueMatches, WorldHolds, TripsOn;
    GoodNodeThrowsExactly(mode, g, refs, w, k, n, st, rec);
    ExecuteVisits(mode, g, w, k, n, st, rec);
  }

  /** A walk that has a node to go to visits it next, and goes on from there unless that throws. */
  lemma WalkGoesOn(mode: Mode, g: Graph, w: World, n: Node, k: nat, st: Stored, rec: Record)
    requires g.Graph? && InGraph(g, Found(n)) && k < MAX_STEPS && |rec.visited| == k
    ensures var a, e := Execute(mode, g, w, k, n, st, rec), Walk(mode, g, w, Found(n), k, st, rec);
      && |e.rec.visited| > k && e.rec.visited[k] == n
      && (if a.next.Broke? then e.threw && |e.rec.visited| == k + 1
          else e == Walk(mode, g, w, a.next, k + 1, a.st, a.rec))
  {
    hide Execute;
    var a := Execute(mode, g, w, k, n, st, rec);
    ExecuteVisits(mode, g, w, k, n, st, rec);
    WalkVisits(mode, g, w, a.next, k + 1, a.st, a.rec);
    assert a.rec.visited[k] == n;
  }

  lemma {:induction false} AcceptedStepsThrowExactly(
      mode: Mode, g: Graph, refs: Refs, w: World, next: Lookup, k: nat, st: Stored, rec: Record)
    requires AllGood(g, refs) && WorldHolds(w)
    requires InGraph(g, next) && !next.Broke? && k <= MAX_STEPS && |rec.visited| == k
    ensures var e := Walk(mode, g, w, next, k, st, rec); e.threw <==> Tripped(w, e.rec.visited, k)
    decreases MAX_STEPS - k
  {
    assert g.Graph?;
    hide Execute, AllGood, WorldHolds, TripsOn, Tripped;
    var v := Walk(mode, g, w, next, k, st, rec).rec.visited;
    if next.Found? && k < MAX_STEPS {
      hide Walk;
      StepThrowsExactly(mode, g, refs, w, next.node, k, st, rec);
      WalkGoesOn(mode, g, w, next.node, k, st, rec);
      TrippedFrom(w, v, k);
      var a := Execute(mode, g, w, k, next.node, st, rec);
      if a.next.Broke? {
        NotTripped(w, v, k + 1);
      } else {
        AcceptedStepsThrowExactly(mode, g, refs, w, a.next, k + 1, a.st, a.rec);
      }
    } else {
      NotTripped(w, v, k);
    }
  }

  /** In particular none does when every node that hands over to a contact's agent has data. */
  lemma AcceptedWalkNeverThrows(mode: Mode, g: Graph, refs: Refs, w: World, st: Stored)
    requires Accepted(g, refs) && WorldHolds(w)
    requires forall n | n in g.nodes && n.Node? && n.kind.AssignContactAgent? :: n.data.Some?
    ensures FromTrigger(mode, g, w, st).Some? && !FromTrigger(mode, g, w, st).value.threw
  {
    hide Validate, Configured, Execute, UniqueMatches;
    AcceptedWalkThrowsExactly(mode, g, refs, w, st);
    AcceptedLookups(g, refs);
    var t := TriggerFound(g);
    WalkStaysInGraph(mode, g, w, Follow(g, t, Text("out")), 0, st, FreshRecord);
  }

  lemma {:induction false} WalkStaysInGraph(
      mode: Mode, g: Graph, w: World, next: Lookup, k: nat, st: Stored, rec: Record)
    requires g.Graph? && InGraph(g, next) && k <= MAX_STEPS && forall n | n in rec.visited :: n in g.nodes
    ensures forall n | n in Walk(mode, g, w, next, k, st, rec).rec.visited :: n in g.nodes
    decreases MAX_STEPS - k
  {
    hide Execute;
    if next.Found? && k < MAX_STEPS {
      ExecuteVisits(mode, g, w, k, next.node, st, rec);
      var a := Execute(mode, g, w, k, next.node, st, rec);
      WalkStaysInGraph(mode, g, w, a.next, k + 1, a.st, a.rec);
    }
  }

  // ---------------------------------------------------------------- acyclic graphs

  ghost predicate Linked(g: Graph, a: Option<string>, b: Option<string>)
    requires g.Graph?
  {
    exists e :: e in g.edges && e.Edge? && e.source == a && e.target == b
  }

  /** The ids follow edges of the graph. */
  ghost predicate Path(g: Graph, ids: seq<Option<string>>)
    requires g.Graph?
  {
    forall i | 0 < i < |ids| :: Linked(g, ids[i - 1], ids[i])
  }

  /** No path of at least one edge returns to where it started. */
  ghost predicate Acyclic(g: Graph)
    requires g.Graph?
  {
    forall ids: seq<Option<string>> | 2 <= |ids| && Path(g, ids) :: ids[0] != ids[|ids| - 1]
  }

  function Ids(nodes: seq<Node>): seq<Option<string>> {
    seq(|nodes|, i requires 0 <= i < |nodes| => IdOf(nodes[i]))
  }

  lemma FollowIsLinked(g: Graph, n: Node)
    requires g.Graph? && n.Node?
    ensures forall h :: Follow(g, n, h).Found? ==> Linked(g, n.id, Follow(g, n, h).node.id)
    ensures Enter(g, EdgeFrom(g.edges, n.id, Text("onHandoff"))) == Follow(g, n, Text("onHandoff"))
  {
    forall h | Follow(g, n, h).Found? ensures Linked(g, n.id, Follow(g, n, h).node.id) {
      assert EdgeFrom(g.edges, n.id, h).edge in g.edges;
    }
  }

  lemma DecisionIsLinked(mode: Mode, g: Graph, w: World, input: Inputs, n: Node, st: Stored, rec: Record)
    requires g.Graph? && n.Node?
    ensures var next := ExecuteDecision(mode, g, w, input, n, st, rec).next;
      next.Found? ==> Linked(g, n.id, next.node.id)
  {
    hide Hits, FirstHit, KnowsKey, TagSeen, Linked;
    FollowIsLinked(g, n);
  }

  lemma NextIsLinked(mode: Mode, g: Graph, w: World, k: nat, n: Node, st: Stored, rec: Record)
    requires g.Graph? && n.Node?
    ensures var next := Execute(mode, g, w, k, n, st, rec).next; next.Found? ==> Linked(g, n.id, next.node.id)
  {
    hide ExecuteDecision, Pick, TextsIn, CandidatesOf, Handoff, Guarded, TagConversationState, Linked;
    DecisionIsLinked(mode, g, w, w.inputs(k), n, st, rec.(visited := rec.visited + [n]));
    FollowIsLinked(g, n);
  }

  /** The nodes are stored ones and, after the node the walk started from, follow edges. */
  ghost predicate Trail(g: Graph, from: Node, v: seq<Node>)
    requires g.Graph? && from.Node?
  {
    Path(g, [from.id] + Ids(v)) && forall n | n in v :: n.Node? && n in g.nodes
  }

  function LastId(from: Node, v: seq<Node>): Option<string>
    requires from.Node?
  {
    if v == [] then from.id else IdOf(v[|v| - 1])
  }

  lemma TrailSnoc(g: Graph, from: Node, v: seq<Node>, n: Node)
    requires g.Graph? && from.Node? && Trail(g, from, v)
    requires Linked(g, LastId(from, v), IdOf(n)) && n.Node? && n in g.nodes
    ensures Trail(g, from, v + [n])
  {
    hide Linked;
    assert [from.id] + Ids(v + [n]) == ([from.id] + Ids(v)) + [n.id];
  }

  /** From the trigger on, the executed nodes lie on one path of stored nodes. */
  lemma {:induction false} WalkIsTrail(
      mode: Mode, g: Graph, w: World, from: Node, next: Lookup, k: nat, st: Stored, rec: Record)
    requires g.Graph? && InGraph(g, next) && k <= MAX_STEPS && from.Node? && Trail(g, from, rec.visited)
    requires next.Found? ==> Linked(g, LastId(from, rec.visited), next.node.id)
    ensures Trail(g, from, Walk(mode, g, w, next, k, st, rec).rec.visited)
    decreases MAX_STEPS - k
  {
    hide Execute, Linked, Trail;
    if next.Found? && k < MAX_STEPS {
      var a := Execute(mode, g, w, k, next.node, st, rec);
      ExecuteVisits(mode, g, w, k, next.node, st, rec);
      TrailSnoc(g, from, rec.visited, next.node);
      NextIsLinked(mode, g, w, k, next.node, st, rec);
      WalkIsTrail(mode, g, w, from, a.next, k + 1, a.st, a.rec);
    }
  }

  lemma SubPath(g: Graph, ids: seq<Option<string>>, i: nat, j: nat)
    requires g.Graph? && Path(g, ids) && i < j < |ids| && Acyclic(g)
    ensures ids[i] != ids[j]
  {
    var sub := ids[i..j + 1];
    forall m | 0 < m < |sub| ensures Linked(g, sub[m - 1], sub[m]) {
      assert Linked(g, ids[i + m - 1], ids[i + m]);
    }
    assert sub[0] != sub[|sub| - 1];
  }

  lemma {:induction false} DistinctFits(xs: seq<Node>, s: set<Node>)
    requires (forall x | x in xs :: x in s) && forall i, j | 0 <= i < j < |xs| :: xs[i] != xs[j]
    ensures |xs| <= |s|
  {
    if xs != [] {
      var k := |xs| - 1;
      forall x | x in xs[..k] ensures x in s - {xs[k]} {
        var i :| 0 <= i < k && xs[i] == x;
      }
      DistinctFits(xs[..k], s - {xs[k]});
    }
  }

  function NonTriggers(g: Graph): set<Node>
    requires g.Graph?
  {
    set n | n in g.nodes && n.Node? && !n.kind.Trigger?
  }

  /**
   * On an accepted acyclic graph no node is executed twice and the trigger
   * never is, so with at most 19 other nodes the step limit cannot be reached.
   */
  lemma AcyclicWalksNeverRepeat(mode: Mode, g: Graph, refs: Refs, w: World, st: Stored)
    requires Accepted(g, refs) && Acyclic(g) && FromTrigger(mode, g, w, st).Some?
    ensures var v := FromTrigger(mode, g, w, st).value.rec.visited;
      (forall i, j | 0 <= i < j < |v| :: v[i] != v[j]) && (forall n | n in v :: n in NonTriggers(g))
      && (|NonTriggers(g)| < MAX_STEPS ==> |v| < MAX_STEPS)
  {
    hide Validate, GoodNode, Execute, UniqueMatches, Acyclic;
    AcceptedLookups(g, refs);
    var t := TriggerFound(g);
    var next := Follow(g, t, Text("out"));
    if next.Found? {
      assert EdgeFrom(g.edges, t.id, Text("out")).edge in g.edges;
    }
    assert [t.id] + Ids([]) == [t.id];
    WalkIsTrail(mode, g, w, t, next, 0, st, FreshRecord);
    PathNeverRepeats(g, t, FromTrigger(mode, g, w, st).value.rec.visited);
  }

  lemma PathNeverRepeats(g: Graph, t: Node, v: seq<Node>)
    requires g.Graph? && Acyclic(g) && IsTrigger(t) && (forall x | x in g.nodes && IsTrigger(x) :: x == t)
    requires Path(g, [t.id] + Ids(v)) && forall n | n in v :: n.Node? && n in g.nodes
    ensures (forall i, j | 0 <= i < j < |v| :: v[i] != v[j]) && (forall n | n in v :: n in NonTriggers(g))
    ensures |v| <= |NonTriggers(g)|
  {
    var ids := [t.id] + Ids(v);
    forall i, j | 0 <= i < j < |v| ensures v[i] != v[j] {
      SubPath(g, ids, i + 1, j + 1);
    }
    forall n | n in v ensures n in NonTriggers(g) {
      var i :| 0 <= i < |v| && v[i] == n;
      SubPath(g, ids, 0, i + 1);
      assert !IsTrigger(n);
    }
    DistinctFits(v, NonTriggers(g));
  }
}
