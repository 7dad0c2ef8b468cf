/**
 * The smallest accepted flow the simulator routes unlike the live engine: it
 * tags the conversation and then decides on that tag.
 */
module FlowReadBack {
  import opened Prelude
  import opened FlowGraph
  import opened FlowWellFormed
  import opened FlowEngine
  import opened FlowWalks
  import opened FlowSimulation

  /** The ids the editor gave the four nodes. */
  datatype Ids = Ids(start: string, tag: string, ask: string, save: string) {
    predicate Apart() {
      && start != "" && tag != "" && ask != "" && save != ""
      && start != tag && start != ask && start != save && tag != ask && tag != save && ask != save
    }
  }

  function Start(x: Ids): Node {
    Node(Some(x.start), Trigger, true, Some(NoData))
  }

  function TagIt(x: Ids, tag: string): Node {
    Node(Some(x.tag), TagConversation, true, Some(NoData.(tagId := Text(tag))))
  }

  function AskIt(x: Ids, tag: string): Node {
    Node(Some(x.ask), TagDecision, true, Some(NoData.(tagId := Text(tag))))
  }

  function Save(x: Ids): Node {
    Node(Some(x.save), SaveContact, true, Some(NoData))
  }

  function Nodes(x: Ids, tag: string): seq<Node> {
    [Start(x), TagIt(x, tag), AskIt(x, tag), Save(x)]
  }

  function Edges(x: Ids): seq<Edge> {
    [Edge(Some(x.start), Absent, Some(x.tag)), Edge(Some(x.tag), Absent, Some(x.ask)),
     Edge(Some(x.ask), Text("yes"), Some(x.save))]
  }

  function TagThenAsk(x: Ids, tag: string): Graph {
    Graph(Nodes(x, tag), Edges(x))
  }

  lemma NodesAreGood(x: Ids, tag: string, refs: Refs)
    requires x.Apart() && 0 < |tag| <= 64 && tag in refs.tagIds
    ensures GoodNodes(Nodes(x, tag), refs) && OneTrigger(Nodes(x, tag))
  {
    var nodes := Nodes(x, tag);
    assert GoodNode(Start(x), refs) && GoodNode(TagIt(x, tag), refs);
    assert GoodNode(AskIt(x, tag), refs) && GoodNode(Save(x), refs);
    hide GoodNode;
    assert IsTrigger(nodes[0]) && !IsTrigger(nodes[1]) && !IsTrigger(nodes[2]) && !IsTrigger(nodes[3]);
  }

  lemma EdgeIsGood(nodes: seq<Node>, a: Node, h: Field, b: Node)
    requires a in nodes && b in nodes && HasId(a) && HasId(b) && !IsTerminal(a.kind)
    requires Includes(AllowedHandles(a), HandleOf(Edge(a.id, h, b.id)))
    ensures GoodEdge(nodes, Edge(a.id, h, b.id))
  {
  }

  lemma InNodes(x: Ids, tag: string)
    ensures Start(x) in Nodes(x, tag) && TagIt(x, tag) in Nodes(x, tag)
    ensures AskIt(x, tag) in Nodes(x, tag) && Save(x) in Nodes(x, tag)
  {
    var nodes := Nodes(x, tag);
    assert nodes[0] == Start(x) && nodes[1] == TagIt(x, tag) && nodes[2] == AskIt(x, tag) && nodes[3] == Save(x);
  }

  lemma EdgesAreGood(x: Ids, tag: string)
    requires x.Apart()
    ensures GoodEdges(Nodes(x, tag), Edges(x))
  {
    hide Distinct, GoodEdge, Nodes;
    var nodes, edges := Nodes(x, tag), Edges(x);
    InNodes(x, tag);
    assert GoodEdge(nodes, edges[0]) by { EdgeIsGood(nodes, Start(x), Absent, TagIt(x, tag)); }
    assert GoodEdge(nodes, edges[1]) by { EdgeIsGood(nodes, TagIt(x, tag), Absent, AskIt(x, tag)); }
    assert GoodEdge(nodes, edges[2]) by {
      assert AllowedHandles(AskIt(x, tag))[0] == Text("yes");
      EdgeIsGood(nodes, AskIt(x, tag), Text("yes"), Save(x));
    }
    OutputsDiffer(x);
  }

  lemma OutputsDiffer(x: Ids)
    requires x.Apart()
    ensures Distinct(Edges(x), OutputOf)
  {
    hide HandleOf;
  }

  lemma TagThenAskIsAccepted(x: Ids, tag: string, refs: Refs)
    requires x.Apart() && 0 < |tag| <= 64 && tag in refs.tagIds && !NoGroupHost(refs)
    ensures Accepted(TagThenAsk(x, tag), refs)
  {
    NodesAreGood(x, tag, refs);
    EdgesAreGood(x, tag);
    AcceptedExactlyWellFormed(TagThenAsk(x, tag), refs);
  }

  /** Where the outputs of the graph lead. */
  ghost predicate Leads(g: Graph, x: Ids, tag: string) {
    && g.Graph?
    && FindTrigger(g.nodes) == Found(Start(x))
    && Follow(g, Start(x), Text("out")) == Found(TagIt(x, tag))
    && Follow(g, TagIt(x, tag), Text("out")) == Found(AskIt(x, tag))
    && Follow(g, AskIt(x, tag), Text("yes")) == Found(Save(x))
    && Follow(g, AskIt(x, tag), Text("no")) == Nowhere
    && Follow(g, Save(x), Text("out")) == Nowhere
  }

  lemma OutputLeads(g: Graph, refs: Refs, a: Node, h: Field, e: Edge, b: Node)
    requires g.Graph? && Accepted(g, refs) && a.Node? && e in g.edges && e.Edge? && Leaves(e, a.id, h)
    requires b in g.nodes && b.Node? && b.id == e.target
    ensures Follow(g, a, h) == Found(b)
  {
    hide Validate;
    FollowNeverDangles(g, refs, a, h);
    AcceptedLookups(g, refs);
  }

  lemma NoOutput(g: Graph, refs: Refs, a: Node, h: Field)
    requires g.Graph? && Accepted(g, refs) && a.Node? && forall e | e in g.edges :: e.Edge? && !Leaves(e, a.id, h)
    ensures Follow(g, a, h) == Nowhere
  {
    hide Validate;
    FollowNeverDangles(g, refs, a, h);
  }

  lemma TagThenAskLeads(x: Ids, tag: string, refs: Refs)
    requires x.Apart() && 0 < |tag| <= 64 && tag in refs.tagIds && !NoGroupHost(refs)
    ensures Leads(TagThenAsk(x, tag), x, tag)
  {
    hide Validate, Accepted, Follow, Nodes, Edges;
    var g := TagThenAsk(x, tag);
    TagThenAskIsAccepted(x, tag, refs);
    InNodes(x, tag);
    EdgesBySource(x);
    TriggerFirst(x, tag);
    OutputLeads(g, refs, Start(x), Text("out"), Edge(Some(x.start), Absent, Some(x.tag)), TagIt(x, tag));
    OutputLeads(g, refs, TagIt(x, tag), Text("out"), Edge(Some(x.tag), Absent, Some(x.ask)), AskIt(x, tag));
    OutputLeads(g, refs, AskIt(x, tag), Text("yes"), Edge(Some(x.ask), Text("yes"), Some(x.save)), Save(x));
    NoOutput(g, refs, AskIt(x, tag), Text("no"));
    NoOutput(g, refs, Save(x), Text("out"));
  }

  lemma TriggerFirst(x: Ids, tag: string)
    ensures FindTrigger(Nodes(x, tag)) == Found(Start(x))
  {
  }

  lemma EdgesBySource(x: Ids)
    requires x.Apart()
    ensures Edge(Some(x.start), Absent, Some(x.tag)) in Edges(x) && Edge(Some(x.tag), Absent, Some(x.ask)) in Edges(x)
    ensures Edge(Some(x.ask), Text("yes"), Some(x.save)) in Edges(x)
    ensures forall e | e in Edges(x) ::
      e.Edge? && !Leaves(e, Some(x.ask), Text("no")) && !Leaves(e, Some(x.save), Text("out"))
  {
    var es := Edges(x);
    assert es[0] == Edge(Some(x.start), Absent, Some(x.tag)) && es[1] == Edge(Some(x.tag), Absent, Some(x.ask));
    assert es[2] == Edge(Some(x.ask), Text("yes"), Some(x.save));
    assert "yes" != "no";
  }

  /** Tagging, in both modes. */
  lemma TagStep(mode: Mode, g: Graph, x: Ids, tag: string, w: World, st: Stored)
    requires Leads(g, x, tag) && st.tags.Some? && (mode.Live? ==> w.inputs(0).effectOk)
    ensures var a := Execute(mode, g, w, 0, TagIt(x, tag), st, FreshRecord);
      && a.next == Found(AskIt(x, tag)) && a.rec.visited == [TagIt(x, tag)]
      && a.st.tags == Some(st.tags.value + if mode.Live? then {tag} else {})
  {
    hide Follow, FindTrigger, ExecuteReply, ExecuteAssign, ExecuteContactAgent, ExecuteDecision;
    assert st.tags.value + {} == st.tags.value;
  }

  /** Deciding on the tag, in both modes. */
  lemma AskStep(mode: Mode, g: Graph, x: Ids, tag: string, w: World, st: Stored, rec: Record)
    requires Leads(g, x, tag) && tag != "" && st.tags.Some? && w.inputs(1).tagLookupOk
    ensures var a := Execute(mode, g, w, 1, AskIt(x, tag), st, rec);
      && a.next == (if tag in st.tags.value then Found(Save(x)) else Nowhere)
      && a.rec.visited == rec.visited + [AskIt(x, tag)]
  {
    hide Follow, FindTrigger, ExecuteReply, ExecuteAssign, ExecuteContactAgent, ExecuteAction;
  }

  lemma SaveStep(mode: Mode, g: Graph, x: Ids, tag: string, w: World, st: Stored, rec: Record)
    requires Leads(g, x, tag)
    ensures var a := Execute(mode, g, w, 2, Save(x), st, rec);
      a.next == Nowhere && a.rec.visited == rec.visited + [Save(x)]
  {
    hide Follow, FindTrigger, ExecuteReply, ExecuteAssign, ExecuteContactAgent, ExecuteDecision;
  }

  /** The live run of any such graph tags, decides for the tag and saves. */
  lemma LiveSaves(g: Graph, x: Ids, tag: string, w: World, st: Stored)
    requires Leads(g, x, tag) && tag != "" && st.tags.Some? && w.inputs(0).effectOk && w.inputs(1).tagLookupOk
    ensures Walk(Live, g, w, Found(TagIt(x, tag)), 0, st, FreshRecord).rec.visited
         == [TagIt(x, tag), AskIt(x, tag), Save(x)]
  {
    hide Execute, Follow, FindTrigger;
    var a1 := Execute(Live, g, w, 0, TagIt(x, tag), st, FreshRecord);
    TagStep(Live, g, x, tag, w, st);
    var a2 := Execute(Live, g, w, 1, AskIt(x, tag), a1.st, a1.rec);
    AskStep(Live, g, x, tag, w, a1.st, a1.rec);
    var a3 := Execute(Live, g, w, 2, Save(x), a2.st, a2.rec);
    SaveStep(Live, g, x, tag, w, a2.st, a2.rec);
    assert Walk(Live, g, w, a3.next, 3, a3.st, a3.rec).rec == a3.rec;
    assert Walk(Live, g, w, a2.next, 2, a2.st, a2.rec).rec == a3.rec;
    assert Walk(Live, g, w, a1.next, 1, a1.st, a1.rec).rec == a3.rec;
  }

  /** The dry run does not see the tag, and nothing is drawn for "no". */
  lemma DryStops(g: Graph, x: Ids, tag: string, w: World, st: Stored)
    requires Leads(g, x, tag) && tag != "" && st.tags.Some? && tag !in st.tags.value && w.inputs(1).tagLookupOk
    ensures Walk(Dry, g, w, Found(TagIt(x, tag)), 0, st, FreshRecord).rec.visited == [TagIt(x, tag), AskIt(x, tag)]
  {
    hide Execute, Follow, FindTrigger;
    var b1 := Execute(Dry, g, w, 0, TagIt(x, tag), st, FreshRecord);
    TagStep(Dry, g, x, tag, w, st);
    var b2 := Execute(Dry, g, w, 1, AskIt(x, tag), b1.st, b1.rec);
    AskStep(Dry, g, x, tag, w, b1.st, b1.rec);
    assert Walk(Dry, g, w, b2.next, 2, b2.st, b2.rec).rec == b2.rec;
    assert Walk(Dry, g, w, b1.next, 1, b1.st, b1.rec).rec == b2.rec;
  }

  /**
   * An accepted flow, and a conversation without the tag. Whatever else the
   * outside world answers, as long as tagging and the tag query work, the live
   * run goes on to save the contact and the simulation stops.
   */
  lemma SimulatorMissesTheTag(x: Ids, tag: string, refs: Refs, w: World, st: Stored)
    requires x.Apart() && 0 < |tag| <= 64 && tag in refs.tagIds && !NoGroupHost(refs)
    requires st.tags.Some? && tag !in st.tags.value && !st.handedOff
    requires w.inputs(0).effectOk && w.inputs(1).tagLookupOk
    ensures Accepted(TagThenAsk(x, tag), refs)
    ensures Ran(TagThenAsk(x, tag), w, st).1.visited == [TagIt(x, tag), AskIt(x, tag), Save(x)]
    ensures Simulated(TagThenAsk(x, tag), w, st).1.visited == [TagIt(x, tag), AskIt(x, tag)]
  {
    hide Follow, FindTrigger, TagThenAsk, Walk, Validate;
    TagThenAskIsAccepted(x, tag, refs);
    TagThenAskLeads(x, tag, refs);
    LiveSaves(TagThenAsk(x, tag), x, tag, w, st);
    DryStops(TagThenAsk(x, tag), x, tag, w, st);
  }
}
