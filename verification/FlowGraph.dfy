/**
 * The flow graph as the editor stores it, and the validator that reads it.
 * A stored graph is JSON nobody has checked yet, so every field may be
 * missing or of another type. `ValidateGraph` is the loop over that JSON and
 * `Validate` the findings it produces.
 */
module FlowGraph {
  import opened Prelude

  datatype Kind =
    | Trigger | Keyword | KeywordCases | Intent | AiDecision | TagDecision | AgentReply
    | AssignHuman | RoundRobin | Webhook | TagConversation | AssignTeammate | SaveContact
    | AssignGroup | AssignContactAgent | SendMedia | UnknownKind

  /**
   * One JSON value read where a string is expected: undefined or null, a
   * string, a number or boolean, or an array or object. The last two carry
   * the text they convert to.
   */
  datatype Field = Absent | Text(s: string) | Scalar(text: string) | Thing(text: string)

  /** An entry of `cases` or `intents`; Hole is a null entry. */
  datatype Branch = Hole | Branch(key: Field, title: Field, keywords: Option<seq<Field>>)

  /** Node configuration. A list field is None when the JSON value is not an array. */
  datatype Data = Data(
    keywords: Option<seq<Field>>, cases: Option<seq<Branch>>, intents: Option<seq<Branch>>,
    agentId: Field, question: Field, prompt: Field, humanAgentId: Field,
    humanAgentIds: Option<seq<Field>>, webhookId: Field, tagId: Field, userId: Field,
    mediaItemId: Field, caption: Field, groupPrefix: Field, farewellText: Field)

  /** `data` is None when the stored node has no data, or null. */
  datatype Node = NoNode | Node(id: Option<string>, kind: Kind, placed: bool, data: Option<Data>)

  datatype Edge = NoEdge | Edge(source: Option<string>, handle: Field, target: Option<string>)

  datatype Graph = NotAGraph | Graph(nodes: seq<Node>, edges: seq<Edge>)

  datatype Channel = Whatsapp | Instagram

  /** Org-owned ids. A media item carries the channels that can deliver it. */
  datatype Refs = Refs(
    agentIds: set<string>, humanAgentIds: set<string>, webhookIds: set<string>,
    tagIds: set<string>, memberIds: set<string>, mediaItems: map<string, set<Channel>>,
    channel: Option<Channel>, hasWhatsappNumber: Option<bool>)

  datatype Family = CaseFamily | IntentFamily

  datatype Code =
    | GraphShape | GraphEmpty | GraphTooBig
    | NodeIdMissing | NodeIdDupe | NodeUnknownType | NodePosition
    | KeywordList | BranchCount(f: Family) | KeySlug(f: Family) | KeyDupe(f: Family)
    | KeyReserved(f: Family) | BranchLabel(f: Family) | CaseKeywords
    | DecisionAgent | DecisionQuestion | IntentAgent | AgentMissing | StepPromptTooLong
    | HumanMissing | RoundRobinAgents | WebhookMissing | TagMissing | TeammateMissing
    | MediaMissing | MediaUnsupported | CaptionTooLong | GroupPrefixLength | FarewellTooLong
    | TriggerCount | EdgeShape | EdgeUnknownSource | EdgeUnknownTarget | EdgeDupeHandle
    | EdgeFromTerminal | EdgeBadHandle | NodeNeedsWhatsapp

  datatype Finding = Finding(code: Code, node: Option<string>)

  /** A null node or branch makes the validator throw instead of returning findings. */
  datatype Verdict = Findings(errors: seq<Finding>) | Threw

  const MAX_NODES := 50

  const NoData :=
    Data(None, None, None, Absent, Absent, Absent, Absent, None, Absent, Absent, Absent, Absent, Absent, Absent, Absent)

  /** `n.data ?? {}` */
  function DataOf(n: Node): Data
    requires n.Node?
  {
    if n.data.Some? then n.data.value else NoData
  }

  // ---------------------------------------------------------------- field tests

  predicate Truthy(f: Field) {
    match f
    case Absent => false
    case Text(s) => s != ""
    case Scalar(text) => text != "0" && text != "false"
    case Thing(_) => true
  }

  predicate IsStr(f: Field, max: nat) {
    f.Text? && 0 < |f.s| <= max
  }

  predicate IsOptStr(f: Field, max: nat) {
    f.Absent? || f == Text("") || IsStr(f, max)
  }

  predicate IsIdIn(f: Field, ids: set<string>) {
    IsStr(f, 64) && f.s in ids
  }

  predicate SlugChar(c: char) {
    'a' <= c <= 'z' || '0' <= c <= '9' || c == '_' || c == '-'
  }

  /** `String(f ?? '')` */
  function Converted(f: Field): string {
    match f
    case Absent => ""
    case Text(s) => s
    case Scalar(text) => text
    case Thing(text) => text
  }

  /** The pattern reads whatever it is given as a string. */
  predicate IsSlug(f: Field) {
    var s := Converted(f);
    1 <= |s| <= 24 && forall c | c in s :: SlugChar(c)
  }

  /** Membership as `Set.has` and `includes` see it: arrays and objects equal nothing but themselves. */
  predicate Has(fs: set<Field>, f: Field) {
    f in fs && !f.Thing?
  }

  predicate Includes(fs: seq<Field>, f: Field) {
    f in fs && !f.Thing?
  }

  predicate IsKeywordList(kw: Option<seq<Field>>) {
    kw.Some? && 0 < |kw.value| <= 20 && forall k | k in kw.value :: IsStr(k, 80)
  }

  predicate HasId(n: Node) {
    n.Node? && n.id.Some? && n.id.value != ""
  }

  predicate IsTerminal(k: Kind) {
    k.AssignHuman? || k.RoundRobin? || k.AssignGroup?
  }

  predicate IsGroupHandoff(k: Kind) {
    IsTerminal(k) || k.AssignContactAgent?
  }

  predicate HostsGroups(c: Channel) {
    c.Whatsapp?
  }

  // ---------------------------------------------------------------- handles

  /** The keys of a branch list, as stored. */
  function KeysOf(bs: seq<Branch>): seq<Field> {
    if bs == [] then []
    else (if bs[0].Branch? then [bs[0].key] else []) + KeysOf(bs[1..])
  }

  function BranchesOf(n: Node): seq<Branch>
    requires n.Node?
  {
    if n.kind.KeywordCases? && DataOf(n).cases.Some? then DataOf(n).cases.value
    else if n.kind.Intent? && DataOf(n).intents.Some? then DataOf(n).intents.value
    else []
  }

  function AllowedHandles(n: Node): seq<Field>
    requires n.Node?
  {
    match n.kind
    case Keyword | AiDecision | TagDecision => [Text("yes"), Text("no")]
    case KeywordCases | Intent => KeysOf(BranchesOf(n)) + [Text("fallback")]
    case AgentReply => [Text("onHandoff")]
    case AssignContactAgent => [Text("fallback")]
    case Trigger | Webhook | TagConversation | AssignTeammate | SaveContact | SendMedia => [Text("out")]
    case AssignHuman | RoundRobin | AssignGroup | UnknownKind => []
  }

  function HandleOf(e: Edge): Field
    requires e.Edge?
  {
    if e.handle.Absent? then Text("out") else e.handle
  }

  // ---------------------------------------------------------------- findings

  function Check(ok: bool, code: Code, id: Option<string>): seq<Finding> {
    if ok then [] else [Finding(code, id)]
  }

  function KeyFindings(b: Branch, seen: set<Field>, f: Family, id: Option<string>): seq<Finding>
    requires b.Branch?
  {
    if !IsSlug(b.key) then [Finding(KeySlug(f), id)]
    else if Has(seen, b.key) then [Finding(KeyDupe(f), id)]
    else if b.key == Text("fallback") then [Finding(KeyReserved(f), id)]
    else []
  }

  function BranchFindings(b: Branch, seen: set<Field>, f: Family, id: Option<string>): seq<Finding>
    requires b.Branch?
  {
    KeyFindings(b, seen, f, id)
    + Check(IsStr(b.title, 80), BranchLabel(f), id)
    + (if f.CaseFamily? then Check(IsKeywordList(b.keywords), CaseKeywords, id) else [])
  }

  /** The keys accepted so far. */
  function SeenKeys(bs: seq<Branch>, f: Family): set<Field>
    requires Hole !in bs
  {
    if bs == [] then {}
    else
      var k := |bs| - 1;
      var seen := SeenKeys(bs[..k], f);
      if KeyFindings(bs[k], seen, f, None) == [] then seen + {bs[k].key} else seen
  }

  function BranchListFindings(bs: seq<Branch>, f: Family, id: Option<string>): seq<Finding>
    requires Hole !in bs
  {
    if bs == [] then []
    else
      var k := |bs| - 1;
      BranchListFindings(bs[..k], f, id) + BranchFindings(bs[k], SeenKeys(bs[..k], f), f, id)
  }

  lemma NoBranches(f: Family, id: Option<string>)
    ensures BranchListFindings([], f, id) == [] && SeenKeys([], f) == {}
  {
  }

  lemma BranchListStep(bs: seq<Branch>, b: Branch, f: Family, id: Option<string>)
    requires Hole !in bs && b.Branch?
    ensures Hole !in bs + [b]
    ensures BranchListFindings(bs + [b], f, id)
         == BranchListFindings(bs, f, id) + BranchFindings(b, SeenKeys(bs, f), f, id)
    ensures SeenKeys(bs + [b], f) == SeenKeys(bs, f)
      + if IsSlug(b.key) && !Has(SeenKeys(bs, f), b.key) && b.key != Text("fallback") then {b.key} else {}
  {
    var all := bs + [b];
    assert all[..|bs|] == bs && all[|bs|] == b;
  }

  predicate CountedBranches(bs: Option<seq<Branch>>, max: nat) {
    bs.Some? && 0 < |bs.value| <= max
  }

  function BranchesFindings(bs: Option<seq<Branch>>, max: nat, f: Family, id: Option<string>): seq<Finding>
    requires CountedBranches(bs, max) ==> Hole !in bs.value
  {
    if CountedBranches(bs, max) then BranchListFindings(bs.value, f, id)
    else [Finding(BranchCount(f), id)]
  }

  predicate HumanListOk(list: Option<seq<Field>>, refs: Refs) {
    list.Some? && 0 < |list.value| <= 10 && forall x | x in list.value :: x.Text? && x.s in refs.humanAgentIds
  }

  function MediaFindings(n: Node, refs: Refs): seq<Finding>
    requires n.Node?
  {
    (if !IsStr(DataOf(n).mediaItemId, 64) || DataOf(n).mediaItemId.s !in refs.mediaItems
     then [Finding(MediaMissing, n.id)]
     else if refs.channel.Some? && refs.channel.value !in refs.mediaItems[DataOf(n).mediaItemId.s]
     then [Finding(MediaUnsupported, n.id)]
     else [])
    + Check(IsOptStr(DataOf(n).caption, 1024), CaptionTooLong, n.id)
  }

  predicate AgentGone(f: Field, refs: Refs) {
    Truthy(f) && !(f.Text? && f.s in refs.agentIds)
  }

  /** The branch lists the validator walks have no null entry. */
  predicate BranchesReadable(n: Node)
    requires n.Node?
  {
    && (n.kind.KeywordCases? && CountedBranches(DataOf(n).cases, 10) ==> Hole !in DataOf(n).cases.value)
    && (n.kind.Intent? && CountedBranches(DataOf(n).intents, 8) ==> Hole !in DataOf(n).intents.value)
  }

  function ConfigFindings(n: Node, refs: Refs): seq<Finding>
    requires n.Node? && BranchesReadable(n)
  {
    var d := DataOf(n);
    match n.kind
    case Trigger | SaveContact | AssignContactAgent | UnknownKind => []
    case Keyword => Check(IsKeywordList(d.keywords), KeywordList, n.id)
    case KeywordCases => BranchesFindings(d.cases, 10, CaseFamily, n.id)
    case AiDecision =>
      Check(!AgentGone(d.agentId, refs), DecisionAgent, n.id)
      + Check(IsStr(d.question, 500), DecisionQuestion, n.id)
    case Intent =>
      Check(!AgentGone(d.agentId, refs), IntentAgent, n.id)
      + BranchesFindings(d.intents, 8, IntentFamily, n.id)
    case AgentReply =>
      Check(IsIdIn(d.agentId, refs.agentIds), AgentMissing, n.id)
      + Check(IsOptStr(d.prompt, 2000), StepPromptTooLong, n.id)
    case AssignHuman => Check(IsIdIn(d.humanAgentId, refs.humanAgentIds), HumanMissing, n.id)
    case RoundRobin | AssignGroup => Check(HumanListOk(d.humanAgentIds, refs), RoundRobinAgents, n.id)
    case Webhook => Check(IsIdIn(d.webhookId, refs.webhookIds), WebhookMissing, n.id)
    case TagConversation | TagDecision => Check(IsIdIn(d.tagId, refs.tagIds), TagMissing, n.id)
    case AssignTeammate => Check(IsIdIn(d.userId, refs.memberIds), TeammateMissing, n.id)
    case SendMedia => MediaFindings(n, refs)
  }

  function SharedFindings(n: Node): seq<Finding>
    requires n.Node?
  {
    if IsGroupHandoff(n.kind) then
      Check(IsOptStr(DataOf(n).groupPrefix, 40), GroupPrefixLength, n.id)
      + Check(IsOptStr(DataOf(n).farewellText, 500), FarewellTooLong, n.id)
    else []
  }

  function NodeFindings(n: Node, dupe: bool, refs: Refs): seq<Finding>
    requires n.Node? && (HasId(n) ==> BranchesReadable(n))
  {
    if !HasId(n) then [Finding(NodeIdMissing, None)]
    else
      Check(!dupe, NodeIdDupe, n.id)
      + (if n.kind.UnknownKind? then [Finding(NodeUnknownType, n.id)]
         else Check(n.placed, NodePosition, n.id) + ConfigFindings(n, refs) + SharedFindings(n))
  }

  predicate NodesReadable(nodes: seq<Node>) {
    forall n | n in nodes :: n.Node? && (HasId(n) ==> BranchesReadable(n))
  }

  function IdsOf(nodes: seq<Node>): set<string> {
    set n | n in nodes && HasId(n) :: n.id.value
  }

  function NodeListFindings(nodes: seq<Node>, refs: Refs): seq<Finding>
    requires NodesReadable(nodes)
  {
    if nodes == [] then []
    else
      var k := |nodes| - 1;
      NodeListFindings(nodes[..k], refs)
      + NodeFindings(nodes[k], HasId(nodes[k]) && nodes[k].id.value in IdsOf(nodes[..k]), refs)
  }

  /** The last node stored under each id. */
  function ById(nodes: seq<Node>): (m: map<string, Node>)
    ensures m.Keys == IdsOf(nodes)
    ensures forall id | id in m :: m[id] in nodes && HasId(m[id]) && m[id].id.value == id
  {
    if nodes == [] then map[]
    else
      var k := |nodes| - 1;
      var m := ById(nodes[..k]);
      assert nodes == nodes[..k] + [nodes[k]];
      if HasId(nodes[k]) then m[nodes[k].id.value := nodes[k]] else m
  }

  lemma NoNodes(refs: Refs)
    ensures NodesReadable([]) && NodeListFindings([], refs) == [] && IdsOf([]) == {} && ById([]) == map[]
  {
  }

  lemma NodesReadableStep(nodes: seq<Node>, n: Node)
    ensures NodesReadable(nodes + [n]) <==> NodesReadable(nodes) && n.Node? && (HasId(n) ==> BranchesReadable(n))
  {
    assert n in nodes + [n];
    forall x | x in nodes ensures x in nodes + [n] {}
  }

  lemma UnreadableNode(nodes: seq<Node>, n: Node)
    requires n in nodes && !(n.Node? && (HasId(n) ==> BranchesReadable(n)))
    ensures !NodesReadable(nodes)
  {
  }

  lemma NodeListStep(nodes: seq<Node>, n: Node, refs: Refs)
    requires NodesReadable(nodes) && n.Node? && (HasId(n) ==> BranchesReadable(n))
    ensures NodesReadable(nodes + [n])
    ensures NodeListFindings(nodes + [n], refs)
         == NodeListFindings(nodes, refs) + NodeFindings(n, HasId(n) && n.id.value in IdsOf(nodes), refs)
  {
    NodesReadableStep(nodes, n);
    var all := nodes + [n];
    assert all[..|nodes|] == nodes && all[|nodes|] == n;
  }

  lemma NamelessNode(n: Node, refs: Refs)
    requires n.Node? && !HasId(n)
    ensures NodeFindings(n, false, refs) == [Finding(NodeIdMissing, None)]
  {
  }

  lemma IdsStep(nodes: seq<Node>, n: Node)
    ensures IdsOf(nodes + [n]) == IdsOf(nodes) + if HasId(n) then {n.id.value} else {}
    ensures ById(nodes + [n]) == if HasId(n) then ById(nodes)[n.id.value := n] else ById(nodes)
  {
    var all := nodes + [n];
    assert all[..|nodes|] == nodes && all[|nodes|] == n;
    forall x | x in nodes ensures x in all {}
    assert n in all;
  }

  predicate IsTrigger(n: Node) {
    n.Node? && n.kind.Trigger?
  }

  function CountTriggers(nodes: seq<Node>): nat {
    if nodes == [] then 0
    else CountTriggers(nodes[..|nodes| - 1]) + if IsTrigger(nodes[|nodes| - 1]) then 1 else 0
  }

  predicate Shaped(e: Edge) {
    e.Edge? && e.source.Some? && e.target.Some?
  }

  /** The string the validator remembers an output by. */
  function DupeKey(e: Edge): string
    requires Shaped(e)
  {
    e.source.value + "::" + Converted(HandleOf(e))
  }

  function SeenHandles(edges: seq<Edge>, byId: map<string, Node>): set<string> {
    set e | e in edges && Shaped(e) && e.source.value in byId :: DupeKey(e)
  }

  /** The node's outputs can be listed: a branching node has its data, and no null branch. */
  predicate OutputsReadable(n: Node)
    requires n.Node?
  {
    n.kind.KeywordCases? || n.kind.Intent? ==> n.data.Some? && Hole !in BranchesOf(n)
  }

  /** Checking this edge does not throw over its source's outputs. */
  predicate EdgeReadable(e: Edge, byId: map<string, Node>) {
    (Shaped(e) && e.source.value in byId && byId[e.source.value].Node?) ==> OutputsReadable(byId[e.source.value])
  }

  predicate EdgesReadable(edges: seq<Edge>, byId: map<string, Node>) {
    forall e | e in edges :: EdgeReadable(e, byId)
  }

  lemma EdgesReadableStep(edges: seq<Edge>, e: Edge, byId: map<string, Node>)
    ensures EdgesReadable(edges + [e], byId) <==> EdgesReadable(edges, byId) && EdgeReadable(e, byId)
  {
    assert e in edges + [e];
    forall x | x in edges ensures x in edges + [e] {}
  }

  lemma EmptyEdges(byId: map<string, Node>)
    ensures EdgesReadable([], byId) && SeenHandles([], byId) == {}
  {
  }

  lemma UnreadableEdge(edges: seq<Edge>, e: Edge, byId: map<string, Node>)
    requires e in edges && !EdgeReadable(e, byId)
    ensures !EdgesReadable(edges, byId)
  {
  }

  lemma SeenHandlesStep(edges: seq<Edge>, e: Edge, byId: map<string, Node>)
    ensures SeenHandles(edges + [e], byId)
         == SeenHandles(edges, byId) + if Shaped(e) && e.source.value in byId then {DupeKey(e)} else {}
  {
    forall x | x in edges ensures x in edges + [e] {}
    assert e in edges + [e];
  }

  function EdgeFindings(e: Edge, byId: map<string, Node>, seen: set<string>): seq<Finding>
    requires forall id | id in byId :: byId[id].Node?
  {
    if !Shaped(e) then [Finding(EdgeShape, None)]
    else
      Check(e.source.value in byId, EdgeUnknownSource, None)
      + Check(e.target.value in byId, EdgeUnknownTarget, None)
      + (if e.source.value !in byId then []
         else
           var src := byId[e.source.value];
           Check(DupeKey(e) !in seen, EdgeDupeHandle, e.source)
           + (if IsTerminal(src.kind) then [Finding(EdgeFromTerminal, e.source)]
              else Check(Includes(AllowedHandles(src), HandleOf(e)), EdgeBadHandle, e.source)))
  }

  function EdgeListFindings(edges: seq<Edge>, byId: map<string, Node>): seq<Finding>
    requires forall id | id in byId :: byId[id].Node?
  {
    if edges == [] then []
    else
      var k := |edges| - 1;
      EdgeListFindings(edges[..k], byId) + EdgeFindings(edges[k], byId, SeenHandles(edges[..k], byId))
  }

  /** The channel of the session cannot host groups and no WhatsApp number can do it instead. */
  predicate NoGroupHost(refs: Refs) {
    refs.channel.Some? && !HostsGroups(refs.channel.value) && refs.hasWhatsappNumber == Some(false)
  }

  function HostFindings(nodes: seq<Node>): seq<Finding> {
    if nodes == [] then []
    else
      var k := |nodes| - 1;
      HostFindings(nodes[..k])
      + (if nodes[k].Node? && IsGroupHandoff(nodes[k].kind) then [Finding(NodeNeedsWhatsapp, nodes[k].id)] else [])
  }

  predicate Readable(g: Graph)
    requires g.Graph?
  {
    && NodesReadable(g.nodes)
    && EdgesReadable(g.edges, ById(g.nodes))
  }

  function Validate(g: Graph, refs: Refs): Verdict {
    if g.NotAGraph? then Findings([Finding(GraphShape, None)])
    else if g.nodes == [] then Findings([Finding(GraphEmpty, None)])
    else if |g.nodes| > MAX_NODES then Findings([Finding(GraphTooBig, None)])
    else if !Readable(g) then Threw
    else Findings(
      NodeListFindings(g.nodes, refs)
      + Check(CountTriggers(g.nodes) == 1, TriggerCount, None)
      + EdgeListFindings(g.edges, ById(g.nodes))
      + (if NoGroupHost(refs) then HostFindings(g.nodes) else []))
  }

  predicate Accepted(g: Graph, refs: Refs) {
    Validate(g, refs) == Findings([])
  }

  // ---------------------------------------------------------------- the validator

  method CheckBranches(bs: seq<Branch>, f: Family, id: Option<string>) returns (r: Option<seq<Finding>>)
    ensures r == if Hole in bs then None else Some(BranchListFindings(bs, f, id))
  {
    var errors: seq<Finding> := [];
    var seen: set<Field> := {};
    hide BranchListFindings, BranchFindings, SeenKeys;
    NoBranches(f, id);
    for i := 0 to |bs|
      invariant Hole !in bs[..i]
      invariant errors == BranchListFindings(bs[..i], f, id)
      invariant seen == SeenKeys(bs[..i], f)
    {
      var b := bs[i];
      if b.Hole? { return None; }
      BranchListStep(bs[..i], b, f, id);
      assert bs[..i + 1] == bs[..i] + [b];
      errors := errors + BranchFindings(b, seen, f, id);
      if IsSlug(b.key) && !Has(seen, b.key) && b.key != Text("fallback") {
        seen := seen + {b.key};
      }
    }
    assert bs[..|bs|] == bs;
    return Some(errors);
  }

  /** The switch over one node's type; None when a null branch makes it throw. */
  method CheckConfig(n: Node, refs: Refs) returns (r: Option<seq<Finding>>)
    requires n.Node?
    ensures r == if BranchesReadable(n) then Some(ConfigFindings(n, refs)) else None
  {
    hide BranchListFindings, IsKeywordList;
    var d := if n.data.Some? then n.data.value else NoData;
    var errors: seq<Finding> := [];
    match n.kind {
      case Keyword =>
        if !IsKeywordList(d.keywords) { errors := [Finding(KeywordList, n.id)]; }
      case KeywordCases =>
        if d.cases.None? || |d.cases.value| == 0 || |d.cases.value| > 10 {
          errors := [Finding(BranchCount(CaseFamily), n.id)];
        } else {
          var found := CheckBranches(d.cases.value, CaseFamily, n.id);
          if found.None? { return None; }
          errors := found.value;
        }
      case AiDecision =>
        if Truthy(d.agentId) && !(d.agentId.Text? && d.agentId.s in refs.agentIds) {
          errors := [Finding(DecisionAgent, n.id)];
        }
        if !IsStr(d.question, 500) { errors := errors + [Finding(DecisionQuestion, n.id)]; }
      case Intent =>
        if Truthy(d.agentId) && !(d.agentId.Text? && d.agentId.s in refs.agentIds) {
          errors := [Finding(IntentAgent, n.id)];
        }
        if d.intents.None? || |d.intents.value| == 0 || |d.intents.value| > 8 {
          errors := errors + [Finding(BranchCount(IntentFamily), n.id)];
        } else {
          var found := CheckBranches(d.intents.value, IntentFamily, n.id);
          if found.None? { return None; }
          errors := errors + found.value;
        }
      case AgentReply =>
        if !IsStr(d.agentId, 64) || d.agentId.s !in refs.agentIds { errors := [Finding(AgentMissing, n.id)]; }
        if !IsOptStr(d.prompt, 2000) { errors := errors + [Finding(StepPromptTooLong, n.id)]; }
      case AssignHuman =>
        if !IsStr(d.humanAgentId, 64) || d.humanAgentId.s !in refs.humanAgentIds {
          errors := [Finding(HumanMissing, n.id)];
        }
      case RoundRobin | AssignGroup =>
        if d.humanAgentIds.None? || |d.humanAgentIds.value| == 0 || |d.humanAgentIds.value| > 10
           || exists x :: x in d.humanAgentIds.value && !(x.Text? && x.s in refs.humanAgentIds) {
          errors := [Finding(RoundRobinAgents, n.id)];
        }
      case Webhook =>
        if !IsStr(d.webhookId, 64) || d.webhookId.s !in refs.webhookIds { errors := [Finding(WebhookMissing, n.id)]; }
      case TagConversation | TagDecision =>
        if !IsStr(d.tagId, 64) || d.tagId.s !in refs.tagIds { errors := [Finding(TagMissing, n.id)]; }
      case AssignTeammate =>
        if !IsStr(d.userId, 64) || d.userId.s !in refs.memberIds { errors := [Finding(TeammateMissing, n.id)]; }
      case SendMedia =>
        if !IsStr(d.mediaItemId, 64) || d.mediaItemId.s !in refs.mediaItems {
          errors := [Finding(MediaMissing, n.id)];
        } else if refs.channel.Some? && refs.channel.value !in refs.mediaItems[d.mediaItemId.s] {
          errors := [Finding(MediaUnsupported, n.id)];
        }
        if !IsOptStr(d.caption, 1024) { errors := errors + [Finding(CaptionTooLong, n.id)]; }
      case Trigger | SaveContact | AssignContactAgent | UnknownKind =>
    }
    assert errors == ConfigFindings(n, refs);
    r := Some(errors);
  }

  method CheckNode(n: Node, dupe: bool, refs: Refs) returns (r: Option<seq<Finding>>)
    requires HasId(n)
    ensures r == if BranchesReadable(n) then Some(NodeFindings(n, dupe, refs)) else None
  {
    if n.kind.UnknownKind? {
      return Some(Check(!dupe, NodeIdDupe, n.id) + [Finding(NodeUnknownType, n.id)]);
    }
    var config := CheckConfig(n, refs);
    if config.None? { return None; }
    var errors := Check(n.placed, NodePosition, n.id) + config.value + SharedFindings(n);
    return Some(Check(!dupe, NodeIdDupe, n.id) + errors);
  }

  method CheckNodes(nodes: seq<Node>, refs: Refs) returns (r: Option<seq<Finding>>, byId: map<string, Node>)
    ensures r == if NodesReadable(nodes) then Some(NodeListFindings(nodes, refs)) else None
    ensures r.Some? ==> byId == ById(nodes)
  {
    hide NodesReadable, BranchesReadable, NodeListFindings, NodeFindings, IdsOf, ById;
    var errors: seq<Finding> := [];
    var ids: set<string> := {};
    byId := map[];
    NoNodes(refs);
    for i := 0 to |nodes|
      invariant NodesReadable(nodes[..i])
      invariant errors == NodeListFindings(nodes[..i], refs)
      invariant ids == IdsOf(nodes[..i]) && byId == ById(nodes[..i])
    {
      var n := nodes[i];
      assert nodes[..i + 1] == nodes[..i] + [n];
      if n.NoNode? {
        UnreadableNode(nodes, n);
        return None, byId;
      }
      IdsStep(nodes[..i], n);
      if !HasId(n) {
        NamelessNode(n, refs);
        NodeListStep(nodes[..i], n, refs);
        errors := errors + [Finding(NodeIdMissing, None)];
      } else {
        var found := CheckNode(n, n.id.value in ids, refs);
        if found.None? {
          UnreadableNode(nodes, n);
          return None, byId;
        }
        NodeListStep(nodes[..i], n, refs);
        errors := errors + found.value;
        ids := ids + {n.id.value};
        byId := byId[n.id.value := n];
      }
    }
    assert nodes[..|nodes|] == nodes;
    return Some(errors), byId;
  }

  method CheckEdges(edges: seq<Edge>, byId: map<string, Node>) returns (r: Option<seq<Finding>>)
    requires forall id | id in byId :: byId[id].Node?
    ensures r == if EdgesReadable(edges, byId) then Some(EdgeListFindings(edges, byId)) else None
  {
    var errors: seq<Finding> := [];
    var seen: set<string> := {};
    hide EdgeFindings, EdgesReadable, SeenHandles;
    EmptyEdges(byId);
    for i := 0 to |edges|
      invariant EdgesReadable(edges[..i], byId)
      invariant errors == EdgeListFindings(edges[..i], byId)
      invariant seen == SeenHandles(edges[..i], byId)
    {
      var e := edges[i];
      assert edges[..i + 1] == edges[..i] + [e];
      assert edges[..i + 1][..i] == edges[..i];
      EdgesReadableStep(edges[..i], e, byId);
      SeenHandlesStep(edges[..i], e, byId);
      if Shaped(e) && e.source.value in byId && !OutputsReadable(byId[e.source.value]) {
        UnreadableEdge(edges, e, byId);
        return None;
      }
      errors := errors + EdgeFindings(e, byId, seen);
      if Shaped(e) && e.source.value in byId {
        seen := seen + {DupeKey(e)};
      }
    }
    assert edges[..|edges|] == edges;
    return Some(errors);
  }

  /** The length of the filtered list; the nodes are not null by then. */
  method CheckTriggers(nodes: seq<Node>) returns (r: seq<Finding>)
    ensures r == Check(CountTriggers(nodes) == 1, TriggerCount, None)
  {
    var triggers := 0;
    for i := 0 to |nodes|
      invariant triggers == CountTriggers(nodes[..i])
    {
      assert nodes[..i + 1][..i] == nodes[..i];
      if IsTrigger(nodes[i]) { triggers := triggers + 1; }
    }
    assert nodes[..|nodes|] == nodes;
    r := Check(triggers == 1, TriggerCount, None);
  }

  method CheckHosts(nodes: seq<Node>) returns (r: seq<Finding>)
    requires forall n | n in nodes :: n.Node?
    ensures r == HostFindings(nodes)
  {
    r := [];
    for i := 0 to |nodes|
      invariant r == HostFindings(nodes[..i])
    {
      assert nodes[..i + 1][..i] == nodes[..i];
      if IsGroupHandoff(nodes[i].kind) {
        r := r + [Finding(NodeNeedsWhatsapp, nodes[i].id)];
      }
    }
    assert nodes[..|nodes|] == nodes;
  }

  method ValidateGraph(g: Graph, refs: Refs) returns (v: Verdict)
    ensures v == Validate(g, refs)
  {
    if g.NotAGraph? { return Findings([Finding(GraphShape, None)]); }
    if |g.nodes| == 0 { return Findings([Finding(GraphEmpty, None)]); }
    if |g.nodes| > MAX_NODES { return Findings([Finding(GraphTooBig, None)]); }
    hide NodeListFindings, EdgeListFindings, HostFindings, EdgesReadable, ById, CountTriggers;
    var nodeErrors, byId := CheckNodes(g.nodes, refs);
    if nodeErrors.None? { return Threw; }
    var triggerErrors := CheckTriggers(g.nodes);
    var edgeErrors := CheckEdges(g.edges, byId);
    if edgeErrors.None? { return Threw; }
    var errors := nodeErrors.value + triggerErrors + edgeErrors.value;
    if NoGroupHost(refs) {
      var hosts := CheckHosts(g.nodes);
      errors := errors + hosts;
    }
    return Findings(errors);
  }
}
