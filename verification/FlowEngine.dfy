/**
 * The flow interpreter: one `Execute` for the live engine and the simulator,
 * and the walk both drive it with. Everything the code asks of the outside
 * world during one step (AI answers, lookups, deliveries) is an input of that
 * step; everything it changes is in `Stored`.
 */
module FlowEngine {
  import opened Prelude
  import opened FlowGraph

  datatype Mode = Live | Dry

  /** The result of `nodes.find`: Broke when the search met a null entry and threw. */
  datatype Lookup = Found(node: Node) | Nowhere | Broke

  datatype EdgeLookup = Leads(edge: Edge) | NoneLeads | EdgeBroke

  /** An awaited answer, or the exception it ended in. */
  datatype Said<+T> = Said(value: T) | Failed

  datatype AgentReply = AgentReply(text: bool, handoff: bool)

  /** What the outside world answers during one step of the walk. */
  datatype Inputs = Inputs(
    decision: Said<Option<bool>>,          // aiDecision: yes, no or undecided
    intent: Said<Option<string>>,          // intent: the key the classifier picked
    tagLookupOk: bool,                     // the conversation query went through
    contact: Said<Option<Option<string>>>, // saved contact, and its human agent
    agentReady: bool,                      // the agent exists, is enabled and in its hours
    reply: Option<AgentReply>,             // what the agent generated, if anything
    quotaOk: bool, driverLive: bool, sendOk: bool,
    fileOk: bool,                          // the library file loads
    effectOk: bool,                        // a guarded effect of this step succeeds
    handoffOk: bool,                       // opening the mirror group does not throw
    staff: set<string>,                    // human agents that still exist
    cost: nat)                             // tokens an AI call of this step burns

  /** `matches(k)`: the message text contains keyword k after normalization. */
  datatype World = World(matches: string -> bool, inputs: nat -> Inputs)

  datatype Effect =
    | CalledWebhook(id: Field) | Tagged(tag: string) | Assigned(user: Field) | SavedContact
    | SentFile(item: Field) | SentReply | HandedTo(humans: seq<string>)
    | RunRow(steps: seq<Node>, outcome: Outcome)

  /** The stored state a walk reads and changes. `tags` is None when the conversation has no row. */
  datatype Stored = Stored(
    tags: Option<set<string>>, paused: bool, handedOff: bool,
    counters: map<Option<string>, nat>, log: seq<Effect>, metered: nat)

  datatype Outcome = Completed | AgentReplied | AgentSkipped | HandedOff | StepLimit | Errored

  /** `steps` is what the code records; `visited` every node handed to `execute`. */
  datatype Record = Record(steps: seq<Node>, visited: seq<Node>, outcome: Outcome)

  const MAX_STEPS := 20

  const FreshRecord := Record([], [], Completed)

  // ---------------------------------------------------------------- following edges

  /** A lookup that found something found a node of this graph. */
  predicate InGraph(g: Graph, r: Lookup)
    requires g.Graph?
  {
    r.Found? ==> r.node.Node? && r.node in g.nodes
  }

  function FindById(nodes: seq<Node>, id: Option<string>): (r: Lookup)
    ensures r.Found? ==> r.node.Node? && r.node in nodes && r.node.id == id
  {
    if nodes == [] then Nowhere
    else if nodes[0].NoNode? then Broke
    else if nodes[0].id == id then Found(nodes[0])
    else FindById(nodes[1..], id)
  }

  function FindTrigger(nodes: seq<Node>): (r: Lookup)
    ensures r.Found? ==> IsTrigger(r.node) && r.node in nodes
  {
    if nodes == [] then Nowhere
    else if nodes[0].NoNode? then Broke
    else if nodes[0].kind.Trigger? then Found(nodes[0])
    else FindTrigger(nodes[1..])
  }

  /** `e.source === id && (e.sourceHandle ?? 'out') === handle` */
  predicate Leaves(e: Edge, id: Option<string>, handle: Field)
    requires e.Edge?
  {
    e.source == id && HandleOf(e) == handle && !handle.Thing?
  }

  function EdgeFrom(edges: seq<Edge>, id: Option<string>, handle: Field): (r: EdgeLookup)
    ensures r.Leads? ==> r.edge in edges && r.edge.Edge? && Leaves(r.edge, id, handle)
  {
    if edges == [] then NoneLeads
    else if edges[0].NoEdge? then EdgeBroke
    else if Leaves(edges[0], id, handle) then Leads(edges[0])
    else EdgeFrom(edges[1..], id, handle)
  }

  function Enter(g: Graph, e: EdgeLookup): (r: Lookup)
    requires g.Graph? && (e.Leads? ==> e.edge.Edge?)
    ensures InGraph(g, r)
  {
    match e
    case NoneLeads => Nowhere
    case EdgeBroke => Broke
    case Leads(edge) => FindById(g.nodes, edge.target)
  }

  function Follow(g: Graph, n: Node, handle: Field): (r: Lookup)
    requires g.Graph? && n.Node?
    ensures InGraph(g, r)
  {
    Enter(g, EdgeFrom(g.edges, n.id, handle))
  }

  /** `next ?? this.follow(graph, node, 'fallback')` */
  function OrFallback(g: Graph, n: Node, next: Lookup): (r: Lookup)
    requires g.Graph? && n.Node? && InGraph(g, next)
    ensures InGraph(g, r)
  {
    if next.Nowhere? then Follow(g, n, Text("fallback")) else next
  }

  // ---------------------------------------------------------------- keywords

  /** Whether some keyword matches; a keyword that is not a string throws. */
  function Hits(keywords: seq<Field>, w: World): Said<bool> {
    if keywords == [] then Said(false)
    else if !keywords[0].Text? then Failed
    else if w.matches(keywords[0].s) then Said(true)
    else Hits(keywords[1..], w)
  }

  function ListOf(list: Option<seq<Field>>): seq<Field> {
    if list.Some? then list.value else []
  }

  /** The first branch whose keywords match. */
  function FirstHit(cases: seq<Branch>, w: World): (r: Said<Option<Branch>>)
    ensures r.Said? && r.value.Some? ==> r.value.value.Branch? && r.value.value in cases
  {
    if cases == [] then Said(None)
    else if cases[0].Hole? then Failed
    else match Hits(ListOf(cases[0].keywords), w)
         case Failed => Failed
         case Said(hit) => if hit then Said(Some(cases[0])) else FirstHit(cases[1..], w)
  }

  /** `intents.some((i) => i.key === key)` */
  function KnowsKey(intents: seq<Branch>, key: string): Said<bool> {
    if intents == [] then Said(false)
    else if intents[0].Hole? then Failed
    else if intents[0].key == Text(key) then Said(true)
    else KnowsKey(intents[1..], key)
  }

  // ---------------------------------------------------------------- one node

  /** The state after one node, and where the walk goes; Broke means the node threw. */
  datatype After = After(st: Stored, rec: Record, next: Lookup)

  function Noted(rec: Record, n: Node): Record {
    rec.(steps := rec.steps + [n])
  }

  predicate TagSeen(n: Node, input: Inputs, st: Stored)
    requires n.Node?
  {
    && Truthy(DataOf(n).tagId) && DataOf(n).tagId.Text? && input.tagLookupOk
    && st.tags.Some? && DataOf(n).tagId.s in st.tags.value
  }

  /** `(x ?? '').trim()` throws on anything but a string. */
  predicate Trimmable(f: Field) {
    f.Absent? || f.Text?
  }

  /** An effect the code wraps in a catch: applied when it succeeds, skipped in a dry run. */
  function Guarded(mode: Mode, ok: bool, st: Stored, e: Effect): Stored {
    if mode.Live? && ok then st.(log := st.log + [e]) else st
  }

  function TagConversationState(mode: Mode, n: Node, input: Inputs, st: Stored): Stored
    requires n.Node?
  {
    if mode.Live? && input.effectOk && DataOf(n).tagId.Text? && st.tags.Some?
    then st.(tags := Some(st.tags.value + {DataOf(n).tagId.s}), log := st.log + [Tagged(DataOf(n).tagId.s)])
    else st
  }

  function ExecuteReply(mode: Mode, g: Graph, input: Inputs, n: Node, st: Stored, rec: Record): (a: After)
    requires g.Graph? && n.Node?
    ensures InGraph(g, a.next)
  {
    var edge := EdgeFrom(g.edges, n.id, Text("onHandoff"));
    if edge.EdgeBroke? then After(st, rec, Broke)
    else
      var skipped := Noted(rec, n).(outcome := AgentSkipped);
      if n.data.None? then After(st, rec, Broke)
      else if !Truthy(DataOf(n).agentId) || !input.agentReady then After(st, skipped, Nowhere)
      else if mode.Live? && (!input.quotaOk || st.paused) then After(st, skipped, Nowhere)
      else
        var st1 := st.(metered := st.metered + input.cost);
        if input.reply.None? then After(st1, skipped, Nowhere)
        else if mode.Live? && !input.driverLive then After(st1, skipped, Nowhere)
        else if mode.Live? && !input.sendOk then After(st1, rec, Broke)
        else
          var reply := input.reply.value;
          var st2 := if mode.Live? && reply.text then st1.(log := st1.log + [SentReply]) else st1;
          var st3 := if mode.Live? && reply.handoff && edge.NoneLeads? then st2.(paused := true) else st2;
          After(st3, Noted(rec, n).(outcome := if reply.handoff then HandedOff else AgentReplied),
                if reply.handoff then Enter(g, edge) else Nowhere)
  }

  /** The counter row of a node after its upsert. */
  function Bumped(counters: map<Option<string>, nat>, id: Option<string>): nat {
    if id in counters then counters[id] + 1 else 1
  }

  /** Which candidates an assign node hands over to, and the counters it leaves behind. */
  function Pick(
      all: bool, n: Node, ids: seq<Field>, counters: map<Option<string>, nat>): (seq<Field>, map<Option<string>, nat>)
    requires n.Node? && ids != []
  {
    if all then (ids, counters)
    else if |ids| == 1 then ([ids[0]], counters)
    else
      var value := Bumped(counters, n.id);
      ([ids[(value - 1) % |ids|]], counters[n.id := value])
  }

  function TextsIn(fs: seq<Field>, staff: set<string>): seq<string> {
    if fs == [] then []
    else (if fs[0].Text? && fs[0].s in staff then [fs[0].s] else []) + TextsIn(fs[1..], staff)
  }

  function Handoff(input: Inputs, n: Node, humans: seq<string>, st: Stored): Said<Stored>
    requires n.Node?
  {
    if !input.handoffOk || !Trimmable(DataOf(n).farewellText) then Failed
    else Said(st.(handedOff := true, log := st.log + [HandedTo(humans)]))
  }

  function CandidatesOf(n: Node): seq<Field>
    requires n.Node?
  {
    if n.kind.AssignHuman? then [DataOf(n).humanAgentId] else ListOf(DataOf(n).humanAgentIds)
  }

  function ExecuteAssign(mode: Mode, input: Inputs, n: Node, st: Stored, rec: Record): After
    requires n.Node?
  {
    if n.data.None? then After(st, rec, Broke)
    else if mode.Dry? then
      if !Trimmable(DataOf(n).farewellText) then After(st, Noted(rec, n), Broke)
      else After(st, Noted(rec, n).(outcome := HandedOff), Nowhere)
    else
      var ids := CandidatesOf(n);
      if ids == [] then After(st, Noted(rec, n), Nowhere)
      else
        var (picked, counters) := Pick(n.kind.AssignGroup?, n, ids, st.counters);
        var st1 := st.(counters := counters);
        if exists f :: f in picked && !f.Text? then After(st1, rec, Broke)
        else
          var humans := TextsIn(picked, input.staff);
          if humans == [] then After(st1, Noted(rec, n), Nowhere)
          else match Handoff(input, n, humans, st1)
               case Failed => After(st1, rec, Broke)
               case Said(st2) => After(st2, Noted(rec, n).(outcome := HandedOff), Nowhere)
  }

  function ExecuteContactAgent(mode: Mode, g: Graph, input: Inputs, n: Node, st: Stored, rec: Record): (a: After)
    requires g.Graph? && n.Node?
    ensures InGraph(g, a.next)
  {
    match input.contact
    case Failed => After(st, rec, Broke)
    case Said(None) => After(st, Noted(rec, n), Follow(g, n, Text("fallback")))
    case Said(Some(None)) => After(st, Noted(rec, n), Follow(g, n, Text("fallback")))
    case Said(Some(Some(human))) =>
      if mode.Dry? then
        if n.data.None? || !Trimmable(DataOf(n).farewellText) then After(st, Noted(rec, n), Broke)
        else After(st, Noted(rec, n).(outcome := HandedOff), Nowhere)
      else if n.data.None? then After(st, rec, Broke)
      else match Handoff(input, n, [human], st)
           case Failed => After(st, Noted(rec, n), Nowhere)
           case Said(st1) => After(st1, Noted(rec, n).(outcome := HandedOff), Nowhere)
  }

  function ExecuteDecision(mode: Mode, g: Graph, w: World, input: Inputs, n: Node, st: Stored, rec: Record): (a: After)
    requires g.Graph? && n.Node?
    ensures InGraph(g, a.next)
  {
    if n.data.None? then After(st, rec, Broke)
    else match n.kind
    case Keyword =>
      (match Hits(ListOf(DataOf(n).keywords), w)
       case Failed => After(st, rec, Broke)
       case Said(hit) => After(st, Noted(rec, n), Follow(g, n, Text(if hit then "yes" else "no"))))
    case KeywordCases =>
      (match FirstHit(BranchesOf(n), w)
       case Failed => After(st, rec, Broke)
       case Said(None) => After(st, Noted(rec, n), Follow(g, n, Text("fallback")))
       case Said(Some(b)) => After(st, Noted(rec, n), OrFallback(g, n, Follow(g, n, b.key))))
    case AiDecision =>
      (match input.decision
       case Failed => After(st, rec, Broke)
       case Said(yes) => After(st.(metered := st.metered + input.cost), Noted(rec, n),
                               Follow(g, n, Text(if yes == Some(true) then "yes" else "no"))))
    case TagDecision =>
      After(st, Noted(rec, n), Follow(g, n, Text(if TagSeen(n, input, st) then "yes" else "no")))
    case Intent =>
      (match input.intent
       case Failed => After(st, rec, Broke)
       case Said(key) =>
         var st1 := st.(metered := st.metered + input.cost);
         if key.None? || key.value == "" then After(st1, Noted(rec, n), Follow(g, n, Text("fallback")))
         else match KnowsKey(BranchesOf(n), key.value)
              case Failed => After(st1, rec, Broke)
              case Said(known) =>
                After(st1, Noted(rec, n),
                      if known then OrFallback(g, n, Follow(g, n, Text(key.value)))
                      else Follow(g, n, Text("fallback"))))
    case _ => After(st, rec, Nowhere)
  }

  /** The action reads data the node does not have; a dry run reads only what it would show. */
  predicate LacksData(mode: Mode, n: Node)
    requires n.Node?
  {
    && n.data.None?
    && (n.kind.SendMedia?
        || (mode.Live? && (n.kind.Webhook? || n.kind.TagConversation? || n.kind.AssignTeammate?)))
  }

  function ExecuteAction(mode: Mode, g: Graph, input: Inputs, n: Node, st: Stored, rec: Record): (a: After)
    requires g.Graph? && n.Node?
    ensures InGraph(g, a.next)
  {
    var next := Follow(g, n, Text("out"));
    if LacksData(mode, n) then After(st, rec, Broke)
    else match n.kind
    case Webhook =>
      After(Guarded(mode, input.effectOk, st, CalledWebhook(DataOf(n).webhookId)), Noted(rec, n), next)
    case TagConversation => After(TagConversationState(mode, n, input, st), Noted(rec, n), next)
    case AssignTeammate =>
      After(Guarded(mode, input.effectOk, st, Assigned(DataOf(n).userId)), Noted(rec, n), next)
    case SaveContact => After(Guarded(mode, input.effectOk, st, SavedContact), Noted(rec, n), next)
    case SendMedia =>
      if !Trimmable(DataOf(n).caption) then After(st, rec, Broke)
      else
        var sends := input.fileOk && input.quotaOk && input.effectOk;
        After(Guarded(mode, sends, st, SentFile(DataOf(n).mediaItemId)), Noted(rec, n), next)
    case _ => After(st, rec, Nowhere)
  }

  predicate IsDecision(k: Kind) {
    k.Keyword? || k.KeywordCases? || k.AiDecision? || k.TagDecision? || k.Intent?
  }

  /** One node, in either mode. */
  function Execute(mode: Mode, g: Graph, w: World, k: nat, n: Node, st: Stored, rec: Record): (a: After)
    requires g.Graph? && n.Node?
    ensures InGraph(g, a.next)
  {
    var entered := rec.(visited := rec.visited + [n]);
    if IsDecision(n.kind) then ExecuteDecision(mode, g, w, w.inputs(k), n, st, entered)
    else if n.kind.AgentReply? then ExecuteReply(mode, g, w.inputs(k), n, st, entered)
    else if IsTerminal(n.kind) then ExecuteAssign(mode, w.inputs(k), n, st, entered)
    else if n.kind.AssignContactAgent? then ExecuteContactAgent(mode, g, w.inputs(k), n, st, entered)
    else ExecuteAction(mode, g, w.inputs(k), n, st, entered)
  }

  // ---------------------------------------------------------------- the walk

  datatype End = End(st: Stored, rec: Record, steps: nat, threw: bool)

  /** At most MAX_STEPS nodes from `next` on, `k` of them done. */
  function Walk(mode: Mode, g: Graph, w: World, next: Lookup, k: nat, st: Stored, rec: Record): End
    requires g.Graph? && InGraph(g, next) && k <= MAX_STEPS
    decreases MAX_STEPS - k
  {
    if next.Broke? then End(st, rec, k, true)
    else if next.Nowhere? || k == MAX_STEPS then End(st, rec, k, false)
    else
      var a := Execute(mode, g, w, k, next.node, st, rec);
      Walk(mode, g, w, a.next, k + 1, a.st, a.rec)
  }

  /** The outcome the code writes after the loop. */
  function Concluded(e: End): Record {
    if e.threw then e.rec.(outcome := Errored)
    else if e.steps >= MAX_STEPS then e.rec.(outcome := StepLimit)
    else e.rec
  }

  /** The walk from the trigger's output; None when the graph has no trigger. */
  function FromTrigger(mode: Mode, g: Graph, w: World, st: Stored): Option<End>
    requires g.Graph?
  {
    match FindTrigger(g.nodes)
    case Broke => Some(End(st, FreshRecord, 0, true))
    case Nowhere => None
    case Found(trigger) => Some(Walk(mode, g, w, Follow(g, trigger, Text("out")), 0, st, FreshRecord))
  }

  /** The dry run of a message against a graph. */
  function Simulated(g: Graph, w: World, st: Stored): (Stored, Record)
    requires g.Graph?
  {
    match FromTrigger(Dry, g, w, st)
    case None => (st, FreshRecord.(outcome := Errored))
    case Some(e) => (e.st, Concluded(e))
  }

  /** A live run; a conversation already handed off is left alone. */
  function Ran(g: Graph, w: World, st: Stored): (Stored, Record)
    requires g.Graph?
  {
    if st.handedOff then (st, FreshRecord)
    else
      var e := FromTrigger(Live, g, w, st);
      var st1 := if e.Some? then e.value.st else st;
      var rec := if e.Some? then Concluded(e.value) else FreshRecord;
      (st1.(log := st1.log + [RunRow(rec.steps, rec.outcome)]), rec)
  }
}
