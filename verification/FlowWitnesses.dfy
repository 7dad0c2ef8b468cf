/**
 * Small accepted flows that end otherwise than their author would expect: one
 * that throws, and one that is recorded as cut short although it finished.
 */
module FlowWitnesses {
  import opened Prelude
  import opened FlowGraph
  import opened FlowWellFormed
  import opened FlowEngine
  import opened FlowWalks
  import opened FlowReadBack

  // ---------------------------------------------------------------- a node without data

  /** Hands over to the contact's agent, stored without data. */
  function BareContactNode(id: string): Node {
    Node(Some(id), AssignContactAgent, true, None)
  }

  function HandOverAtOnce(start: string, id: string): Graph {
    Graph([BareTrigger(start), BareContactNode(id)], [Edge(Some(start), Absent, Some(id))])
  }

  lemma OneEdgeIsGood(nodes: seq<Node>, e: Edge)
    requires GoodEdge(nodes, e)
    ensures GoodEdges(nodes, [e])
  {
    hide GoodEdge;
  }

  /** Two good nodes, a trigger and another, with the trigger's output drawn to the other. */
  lemma LinkIsAccepted(a: Node, b: Node, refs: Refs)
    requires GoodNode(a, refs) && GoodNode(b, refs) && a.id != b.id && IsTrigger(a) && !IsTrigger(b)
    requires NoGroupHost(refs) ==> !IsGroupHandoff(b.kind)
    ensures Accepted(Graph([a, b], [Edge(a.id, Absent, b.id)]), refs)
  {
    var nodes, edge := [a, b], Edge(a.id, Absent, b.id);
    assert nodes[0] == a && nodes[1] == b;
    assert Includes(AllowedHandles(a), HandleOf(edge));
    hide GoodNode, Accepted;
    EdgeIsGood(nodes, a, Absent, b);
    hide GoodEdge;
    TwoNodesAreGood(a, b, refs);
    OneEdgeIsGood(nodes, edge);
    AcceptedExactlyWellFormed(Graph(nodes, [edge]), refs);
  }

  /**
   * An accepted flow whose every run and simulation, for a sender saved with a
   * human agent, ends in an exception at its first node.
   */
  lemma BareContactNodeThrows(start: string, id: string, refs: Refs, w: World, st: Stored)
    requires start != "" && id != "" && start != id && !NoGroupHost(refs)
    requires TripsOn(BareContactNode(id), w.inputs(0)) && !st.handedOff
    ensures Accepted(HandOverAtOnce(start, id), refs)
    ensures Ran(HandOverAtOnce(start, id), w, st).1.outcome == Errored
    ensures Simulated(HandOverAtOnce(start, id), w, st).1.outcome == Errored
    ensures !Ran(HandOverAtOnce(start, id), w, st).0.handedOff
  {
    var g := HandOverAtOnce(start, id);
    HandOverLeads(start, id, refs);
    hide Follow, FindTrigger, HandOverAtOnce, Validate;
    BareStepThrows(Live, g, w, BareContactNode(id), st);
    BareStepThrows(Dry, g, w, BareContactNode(id), st);
  }

  lemma HandOverLeads(start: string, id: string, refs: Refs)
    requires start != "" && id != "" && start != id && !NoGroupHost(refs)
    ensures var g := HandOverAtOnce(start, id);
      && Accepted(g, refs) && FindTrigger(g.nodes) == Found(BareTrigger(start)) && BareContactNode(id) in g.nodes
      && Follow(g, BareTrigger(start), Text("out")) == Found(BareContactNode(id))
  {
    var g := HandOverAtOnce(start, id);
    var a, b := BareTrigger(start), BareContactNode(id);
    assert FindTrigger(g.nodes) == Found(a);
    assert g.nodes[1] == b && g.edges[0] == Edge(Some(start), Absent, Some(id));
    assert GoodNode(a, refs) && GoodNode(b, refs);
    hide Validate, Accepted, FindTrigger, GoodNode;
    LinkIsAccepted(a, b, refs);
    OutputLeads(g, refs, a, Text("out"), g.edges[0], b);
  }

  lemma BareStepThrows(mode: Mode, g: Graph, w: World, n: Node, st: Stored)
    requires g.Graph? && TripsOn(n, w.inputs(0)) && n in g.nodes
    ensures var e := Walk(mode, g, w, Found(n), 0, st, FreshRecord); e.threw && e.st == st
  {
    hide ExecuteDecision, ExecuteReply, ExecuteAssign, ExecuteAction, Follow;
    var a := Execute(mode, g, w, 0, n, st, FreshRecord);
    assert a.next == Broke && a.st == st;
    hide Execute;
  }

  // ---------------------------------------------------------------- a handoff at the limit

  datatype LoopIds = LoopIds(start: string, ask: string, human: string) {
    predicate Apart() {
      start != "" && ask != "" && human != "" && start != ask && start != human && ask != human
    }
  }

  function Asking(x: LoopIds, question: string): Node {
    Node(Some(x.ask), AiDecision, true, Some(NoData.(question := Text(question))))
  }

  function HandingOver(x: LoopIds, agent: string): Node {
    Node(Some(x.human), AssignHuman, true, Some(NoData.(humanAgentId := Text(agent))))
  }

  function LoopNodes(x: LoopIds, question: string, agent: string): seq<Node> {
    [BareTrigger(x.start), Asking(x, question), HandingOver(x, agent)]
  }

  function LoopEdges(x: LoopIds): seq<Edge> {
    [Edge(Some(x.start), Absent, Some(x.ask)), Edge(Some(x.ask), Text("yes"), Some(x.ask)),
     Edge(Some(x.ask), Text("no"), Some(x.human))]
  }

  /** Ask again while the answer is yes, then hand over. */
  function AskUntilNo(x: LoopIds, question: string, agent: string): Graph {
    Graph(LoopNodes(x, question, agent), LoopEdges(x))
  }

  lemma LoopNodesAreGood(x: LoopIds, question: string, agent: string, refs: Refs)
    requires x.Apart() && 0 < |question| <= 500 && 0 < |agent| <= 64 && agent in refs.humanAgentIds
    ensures GoodNodes(LoopNodes(x, question, agent), refs) && OneTrigger(LoopNodes(x, question, agent))
  {
    var nodes := LoopNodes(x, question, agent);
    assert GoodNode(BareTrigger(x.start), refs) && GoodNode(Asking(x, question), refs);
    assert GoodNode(HandingOver(x, agent), refs);
    hide GoodNode;
    assert IsTrigger(nodes[0]) && !IsTrigger(nodes[1]) && !IsTrigger(nodes[2]);
  }

  lemma InLoop(x: LoopIds, question: string, agent: string)
    ensures var nodes := LoopNodes(x, question, agent);
      BareTrigger(x.start) in nodes && Asking(x, question) in nodes && HandingOver(x, agent) in nodes
    ensures Edge(Some(x.start), Absent, Some(x.ask)) in LoopEdges(x)
    ensures Edge(Some(x.ask), Text("yes"), Some(x.ask)) in LoopEdges(x)
    ensures Edge(Some(x.ask), Text("no"), Some(x.human)) in LoopEdges(x)
  {
    var nodes, edges := LoopNodes(x, question, agent), LoopEdges(x);
    assert nodes[0] in nodes && nodes[1] in nodes && nodes[2] in nodes;
    assert edges[0] in edges && edges[1] in edges && edges[2] in edges;
  }

  lemma LoopOutputsDiffer(x: LoopIds)
    requires x.Apart()
    ensures Distinct(LoopEdges(x), OutputOf)
  {
    assert "yes" != "no";
  }

  lemma LoopEdgesAreGood(x: LoopIds, question: string, agent: string)
    requires x.Apart()
    ensures GoodEdges(LoopNodes(x, question, agent), LoopEdges(x))
  {
    hide Distinct, GoodEdge, LoopNodes;
    var nodes, edges := LoopNodes(x, question, agent), LoopEdges(x);
    InLoop(x, question, agent);
    assert GoodEdge(nodes, edges[0]) by { EdgeIsGood(nodes, BareTrigger(x.start), Absent, Asking(x, question)); }
    assert GoodEdge(nodes, edges[1]) by {
      assert AllowedHandles(Asking(x, question))[0] == Text("yes");
      EdgeIsGood(nodes, Asking(x, question), Text("yes"), Asking(x, question));
    }
    assert GoodEdge(nodes, edges[2]) by {
      assert AllowedHandles(Asking(x, question))[1] == Text("no");
      EdgeIsGood(nodes, Asking(x, question), Text("no"), HandingOver(x, agent));
    }
    LoopOutputsDiffer(x);
  }

  lemma LoopIsAccepted(x: LoopIds, question: string, agent: string, refs: Refs)
    requires x.Apart() && 0 < |question| <= 500 && 0 < |agent| <= 64 && agent in refs.humanAgentIds
    requires !NoGroupHost(refs)
    ensures Accepted(AskUntilNo(x, question, agent), refs)
  {
    LoopNodesAreGood(x, question, agent, refs);
    LoopEdgesAreGood(x, question, agent);
    AcceptedExactlyWellFormed(AskUntilNo(x, question, agent), refs);
  }

  /** Where the loop's outputs lead. */
  ghost predicate Loops(g: Graph, x: LoopIds, question: string, agent: string) {
    && g.Graph?
    && FindTrigger(g.nodes) == Found(BareTrigger(x.start))
    && Follow(g, BareTrigger(x.start), Text("out")) == Found(Asking(x, question))
    && Follow(g, Asking(x, question), Text("yes")) == Found(Asking(x, question))
    && Follow(g, Asking(x, question), Text("no")) == Found(HandingOver(x, agent))
  }

  lemma LoopTriggerFirst(x: LoopIds, question: string, agent: string)
    ensures FindTrigger(LoopNodes(x, question, agent)) == Found(BareTrigger(x.start))
  {
  }

  lemma LoopLeads(x: LoopIds, question: string, agent: string, refs: Refs)
    requires x.Apart() && 0 < |question| <= 500 && 0 < |agent| <= 64 && agent in refs.humanAgentIds
    requires !NoGroupHost(refs)
    ensures Loops(AskUntilNo(x, question, agent), x, question, agent)
  {
    hide Validate, Accepted, Follow, FindTrigger, LoopNodes, LoopEdges;
    var g := AskUntilNo(x, question, agent);
    LoopTriggerFirst(x, question, agent);
    LoopIsAccepted(x, question, agent, refs);
    InLoop(x, question, agent);
    var ask := Asking(x, question);
    OutputLeads(g, refs, BareTrigger(x.start), Text("out"), Edge(Some(x.start), Absent, Some(x.ask)), ask);
    OutputLeads(g, refs, ask, Text("yes"), Edge(Some(x.ask), Text("yes"), Some(x.ask)), ask);
    OutputLeads(g, refs, ask, Text("no"), Edge(Some(x.ask), Text("no"), Some(x.human)), HandingOver(x, agent));
  }

  /** The model answers yes eighteen times, then no; and the handoff goes through. */
  ghost predicate NoAtTheNineteenth(w: World, agent: string) {
    && (forall k: nat | k < 18 :: w.inputs(k).decision == Said(Some(true)))
    && w.inputs(18).decision == Said(Some(false))
    && w.inputs(19).handoffOk && agent in w.inputs(19).staff
  }

  lemma AskStep(g: Graph, x: LoopIds, question: string, agent: string, w: World, k: nat, st: Stored, rec: Record)
    requires Loops(g, x, question, agent) && w.inputs(k).decision.Said?
    ensures var a := Execute(Live, g, w, k, Asking(x, question), st, rec);
      && a.next == Follow(g, Asking(x, question),
                          Text(if w.inputs(k).decision.value == Some(true) then "yes" else "no"))
      && a.rec.visited == rec.visited + [Asking(x, question)]
  {
    hide ExecuteReply, ExecuteAssign, ExecuteContactAgent, ExecuteAction, Follow, FindTrigger;
  }

  lemma HandOverStep(g: Graph, x: LoopIds, agent: string, w: World, st: Stored, rec: Record)
    requires g.Graph? && w.inputs(19).handoffOk && agent in w.inputs(19).staff
    ensures var a := Execute(Live, g, w, 19, HandingOver(x, agent), st, rec);
      && a.next == Nowhere && a.st.handedOff && a.rec.outcome == HandedOff
      && a.rec.visited == rec.visited + [HandingOver(x, agent)]
  {
    hide ExecuteDecision, ExecuteReply, ExecuteContactAgent, ExecuteAction;
    assert [Text(agent)][1..] == [];
    assert TextsIn([], w.inputs(19).staff) == [];
    assert TextsIn([Text(agent)], w.inputs(19).staff) == [agent];
  }

  lemma {:induction false} LoopRuns(
      g: Graph, x: LoopIds, question: string, agent: string, w: World, k: nat, st: Stored, rec: Record)
    requires Loops(g, x, question, agent) && NoAtTheNineteenth(w, agent) && k <= 18
    ensures var e := Walk(Live, g, w, Follow(g, BareTrigger(x.start), Text("out")), k, st, rec);
      !e.threw && e.steps == MAX_STEPS && e.st.handedOff && e.rec.outcome == HandedOff
    decreases 18 - k
  {
    hide Execute, Follow, FindTrigger;
    var ask := Asking(x, question);
    AskStep(g, x, question, agent, w, k, st, rec);
    var a := Execute(Live, g, w, k, ask, st, rec);
    if k < 18 {
      LoopRuns(g, x, question, agent, w, k + 1, a.st, a.rec);
    } else {
      HandOverStep(g, x, agent, w, a.st, a.rec);
      var b := Execute(Live, g, w, 19, HandingOver(x, agent), a.st, a.rec);
      assert Walk(Live, g, w, b.next, 20, b.st, b.rec) == End(b.st, b.rec, 20, false);
    }
  }

  /**
   * An accepted flow and outside answers with which the live run hands the
   * conversation over at its twentieth node, finished, and is recorded as
   * having hit the step limit.
   */
  lemma HandoffAtTheLimit(x: LoopIds, question: string, agent: string, refs: Refs, w: World, st: Stored)
    requires x.Apart() && 0 < |question| <= 500 && 0 < |agent| <= 64 && agent in refs.humanAgentIds
    requires !NoGroupHost(refs)
    requires NoAtTheNineteenth(w, agent) && !st.handedOff
    ensures Accepted(AskUntilNo(x, question, agent), refs)
    ensures var (after, rec) := Ran(AskUntilNo(x, question, agent), w, st);
      after.handedOff && rec.outcome == Outcome.StepLimit
  {
    hide Validate, Walk, Follow, FindTrigger, AskUntilNo;
    LoopIsAccepted(x, question, agent, refs);
    LoopLeads(x, question, agent, refs);
    LoopRuns(AskUntilNo(x, question, agent), x, question, agent, w, 0, st, FreshRecord);
  }
}
