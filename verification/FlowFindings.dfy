/**
 * What each finding of the validator means: every fault of a graph is
 * reported, under its own code and on its own node, and nothing else is.
 */
module FlowFindings {
  import opened Prelude
  import opened FlowGraph
  import opened FlowWellFormed

  // ---------------------------------------------------------------- what fields must be

  predicate Line(f: Field, max: nat) {
    f.Text? && 1 <= |f.s| <= max
  }

  predicate OptLine(f: Field, max: nat) {
    f.Absent? || (f.Text? && |f.s| <= max)
  }

  predicate Owned(f: Field, ids: set<string>) {
    Line(f, 64) && f.s in ids
  }

  /** One to twenty keywords of at most 80 characters. */
  predicate Keywords(kw: Option<seq<Field>>) {
    kw.Some? && 1 <= |kw.value| <= 20 && forall k | k in kw.value :: Line(k, 80)
  }

  /** One to ten people of the organization. */
  predicate People(list: Option<seq<Field>>, refs: Refs) {
    list.Some? && 1 <= |list.value| <= 10 && forall x | x in list.value :: x.Text? && x.s in refs.humanAgentIds
  }

  /** At most 24 characters of a-z, 0-9, `_` and `-`, and not none. */
  predicate Slug(s: string) {
    1 <= |s| <= 24 && forall c | c in s :: 'a' <= c <= 'z' || '0' <= c <= '9' || c == '_' || c == '-'
  }

  /** No agent is named, or one of the organization's. */
  predicate AgentOrNone(f: Field, refs: Refs) {
    f in {Absent, Text(""), Scalar("0"), Scalar("false")} || (f.Text? && f.s in refs.agentIds)
  }

  predicate HandsToGroup(k: Kind) {
    k in {AssignHuman, RoundRobin, AssignGroup, AssignContactAgent}
  }

  // ---------------------------------------------------------------- branches

  /** An earlier branch has the key of the i-th. */
  predicate KeyTaken(bs: seq<Branch>, i: nat)
    requires i < |bs| && bs[i].Branch?
  {
    !bs[i].key.Thing? && exists j :: 0 <= j < i && bs[j].Branch? && bs[j].key == bs[i].key
  }

  predicate KeyFault(bs: seq<Branch>, i: nat, f: Family, code: Code)
    requires i < |bs| && bs[i].Branch?
  {
    || (code == KeySlug(f) && !Slug(Converted(bs[i].key)))
    || (code == KeyDupe(f) && Slug(Converted(bs[i].key)) && bs[i].key != Text("fallback") && KeyTaken(bs, i))
    || (code == KeyReserved(f) && bs[i].key == Text("fallback"))
  }

  predicate BranchFault(bs: seq<Branch>, i: nat, f: Family, code: Code)
    requires i < |bs| && bs[i].Branch?
  {
    || KeyFault(bs, i, f, code)
    || (code == BranchLabel(f) && !Line(bs[i].title, 80))
    || (code == CaseKeywords && f.CaseFamily? && !Keywords(bs[i].keywords))
  }

  lemma {:induction false} SeenKeysMean(bs: seq<Branch>, f: Family, k: Field)
    requires Hole !in bs
    ensures k in SeenKeys(bs, f) <==>
      Slug(Converted(k)) && k != Text("fallback") && exists j :: 0 <= j < |bs| && bs[j].Branch? && bs[j].key == k
  {
    if bs != [] {
      var n := |bs| - 1;
      assert bs == bs[..n] + [bs[n]];
      SeenKeysMean(bs[..n], f, k);
      BranchListStep(bs[..n], bs[n], f, None);
      if j :| 0 <= j < n && bs[j].Branch? && bs[j].key == k { assert bs[..n][j].key == k; }
      hide SeenKeys, KeyFindings;
    }
  }

  lemma KeySeen(bs: seq<Branch>, n: nat, f: Family)
    requires n < |bs| && Hole !in bs
    ensures Has(SeenKeys(bs[..n], f), bs[n].key) <==>
      Slug(Converted(bs[n].key)) && bs[n].key != Text("fallback") && KeyTaken(bs, n)
  {
    SeenKeysMean(bs[..n], f, bs[n].key);
    hide SeenKeys, Slug, Converted;
    assert forall j | 0 <= j < n :: bs[..n][j] == bs[j];
    if j :| 0 <= j < n && bs[j].Branch? && bs[j].key == bs[n].key { assert bs[..n][j].key == bs[n].key; }
  }

  lemma KeyFindingsMean(bs: seq<Branch>, n: nat, f: Family, id: Option<string>, x: Finding)
    requires n < |bs| && Hole !in bs
    ensures x in KeyFindings(bs[n], SeenKeys(bs[..n], f), f, id) <==> x.node == id && KeyFault(bs, n, f, x.code)
  {
    KeySeen(bs, n, f);
    FallbackIsASlug();
    assert IsSlug(bs[n].key) <==> Slug(Converted(bs[n].key));
    hide SeenKeys, Slug, KeyTaken, Has, IsSlug;
  }

  lemma FallbackIsASlug()
    ensures Slug(Converted(Text("fallback")))
  {
  }

  lemma CheckMeans(ok: bool, code: Code, id: Option<string>, x: Finding)
    ensures x in Check(ok, code, id) <==> !ok && x == Finding(code, id)
  {
  }

  /** The source's tests are those above. */
  lemma TestsMean(f: Field, kw: Option<seq<Field>>, max: nat)
    ensures IsStr(f, max) <==> Line(f, max)
    ensures IsOptStr(f, max) <==> OptLine(f, max)
    ensures IsKeywordList(kw) <==> Keywords(kw)
  {
  }

  lemma BranchStep(bs: seq<Branch>, n: nat, f: Family, id: Option<string>, x: Finding)
    requires n < |bs| && Hole !in bs
    ensures x in BranchFindings(bs[n], SeenKeys(bs[..n], f), f, id) <==> x.node == id && BranchFault(bs, n, f, x.code)
  {
    var b := bs[n];
    KeyFindingsMean(bs, n, f, id, x);
    TestsMean(b.title, b.keywords, 80);
    CheckMeans(IsStr(b.title, 80), BranchLabel(f), id, x);
    CheckMeans(IsKeywordList(b.keywords), CaseKeywords, id, x);
    hide SeenKeys, KeyFindings, KeyFault, Check, IsStr, Line, Keywords, IsKeywordList;
  }

  lemma {:induction false} BranchFindingsOfPrefix(bs: seq<Branch>, n: nat, f: Family, id: Option<string>, x: Finding)
    requires n <= |bs| && Hole !in bs
    ensures x in BranchListFindings(bs[..n], f, id) <==>
      x.node == id && exists i :: 0 <= i < n && BranchFault(bs, i, f, x.code)
  {
    if n > 0 {
      assert bs[..n] == bs[..n - 1] + [bs[n - 1]];
      BranchFindingsOfPrefix(bs, n - 1, f, id, x);
      BranchStep(bs, n - 1, f, id, x);
      BranchListStep(bs[..n - 1], bs[n - 1], f, id);
      hide SeenKeys, BranchFindings, BranchListFindings, BranchFault;
    }
  }

  ghost predicate SomeBranchFault(bs: seq<Branch>, f: Family, code: Code)
    requires Hole !in bs
  {
    exists i :: 0 <= i < |bs| && BranchFault(bs, i, f, code)
  }

  lemma BranchFindingsMean(bs: seq<Branch>, f: Family, id: Option<string>, x: Finding)
    requires Hole !in bs
    ensures x in BranchListFindings(bs, f, id) <==> x.node == id && SomeBranchFault(bs, f, x.code)
  {
    BranchFindingsOfPrefix(bs, |bs|, f, id, x);
    assert bs[..|bs|] == bs;
  }

  // ---------------------------------------------------------------- nodes

  /** The branches of a node, when there are as many as its kind allows. */
  ghost predicate ListFault(bs: Option<seq<Branch>>, max: nat, f: Family, code: Code)
    requires bs.Some? && 1 <= |bs.value| <= max ==> Hole !in bs.value
  {
    if bs.Some? && 1 <= |bs.value| <= max then SomeBranchFault(bs.value, f, code) else code == BranchCount(f)
  }

  predicate MediaFault(d: Data, refs: Refs, code: Code) {
    var there := Owned(d.mediaItemId, refs.mediaItems.Keys);
    || (code == MediaMissing && !there)
    || (code == MediaUnsupported && there
        && refs.channel.Some? && refs.channel.value !in refs.mediaItems[d.mediaItemId.s])
    || (code == CaptionTooLong && !OptLine(d.caption, 1024))
  }

  ghost predicate ConfigFault(n: Node, refs: Refs, code: Code)
    requires n.Node? && BranchesReadable(n)
  {
    var d := DataOf(n);
    match n.kind
    case Trigger | SaveContact | AssignContactAgent | UnknownKind => false
    case Keyword => code == KeywordList && !Keywords(d.keywords)
    case KeywordCases => ListFault(d.cases, 10, CaseFamily, code)
    case AiDecision =>
      || (code == DecisionAgent && !AgentOrNone(d.agentId, refs))
      || (code == DecisionQuestion && !Line(d.question, 500))
    case Intent =>
      (code == IntentAgent && !AgentOrNone(d.agentId, refs)) || ListFault(d.intents, 8, IntentFamily, code)
    case AgentReply =>
      || (code == AgentMissing && !Owned(d.agentId, refs.agentIds))
      || (code == StepPromptTooLong && !OptLine(d.prompt, 2000))
    case AssignHuman => code == HumanMissing && !Owned(d.humanAgentId, refs.humanAgentIds)
    case RoundRobin | AssignGroup => code == RoundRobinAgents && !People(d.humanAgentIds, refs)
    case Webhook => code == WebhookMissing && !Owned(d.webhookId, refs.webhookIds)
    case TagConversation | TagDecision => code == TagMissing && !Owned(d.tagId, refs.tagIds)
    case AssignTeammate => code == TeammateMissing && !Owned(d.userId, refs.memberIds)
    case SendMedia => MediaFault(d, refs, code)
  }

  /** Everything that can be wrong with one node that has an id; `again` when an earlier node has it too. */
  ghost predicate NodeFault(n: Node, again: bool, refs: Refs, code: Code)
    requires n.Node? && BranchesReadable(n)
  {
    || (code == NodeIdDupe && again)
    || (code == NodeUnknownType && n.kind.UnknownKind?)
    || (code == NodePosition && !n.kind.UnknownKind? && !n.placed)
    || ConfigFault(n, refs, code)
    || (code == GroupPrefixLength && HandsToGroup(n.kind) && !OptLine(DataOf(n).groupPrefix, 40))
    || (code == FarewellTooLong && HandsToGroup(n.kind) && !OptLine(DataOf(n).farewellText, 500))
  }

  lemma ListFindingsMean(bs: Option<seq<Branch>>, max: nat, f: Family, id: Option<string>, x: Finding)
    requires bs.Some? && 1 <= |bs.value| <= max ==> Hole !in bs.value
    ensures x in BranchesFindings(bs, max, f, id) <==> x.node == id && ListFault(bs, max, f, x.code)
  {
    if CountedBranches(bs, max) { BranchFindingsMean(bs.value, f, id, x); }
  }

  lemma MediaFindingsMean(n: Node, refs: Refs, x: Finding)
    requires n.Node?
    ensures x in MediaFindings(n, refs) <==> x.node == n.id && MediaFault(DataOf(n), refs, x.code)
  {
  }

  lemma ConfigFindingsMean(n: Node, refs: Refs, x: Finding)
    requires n.Node? && BranchesReadable(n)
    ensures x in ConfigFindings(n, refs) <==> x.node == n.id && ConfigFault(n, refs, x.code)
  {
    var d := DataOf(n);
    if n.kind.KeywordCases? {
      ListFindingsMean(d.cases, 10, CaseFamily, n.id, x);
    } else if n.kind.Intent? {
      ListFindingsMean(d.intents, 8, IntentFamily, n.id, x);
    } else if n.kind.Keyword? {
      TestsMean(Absent, d.keywords, 0);
    } else if n.kind.SendMedia? {
      MediaFindingsMean(n, refs, x);
    }
    hide MediaFindings, MediaFault, BranchesFindings, ListFault, SomeBranchFault, BranchesReadable;
    hide IsKeywordList, Keywords;
  }

  lemma NodeFindingsMean(n: Node, again: bool, refs: Refs, x: Finding)
    requires HasId(n) && BranchesReadable(n)
    ensures x in NodeFindings(n, again, refs) <==> x.node == n.id && NodeFault(n, again, refs, x.code)
  {
    ConfigFindingsMean(n, refs, x);
    assert n.kind.UnknownKind? ==> !ConfigFault(n, refs, x.code);
    assert IsGroupHandoff(n.kind) <==> HandsToGroup(n.kind);
    TestsMean(DataOf(n).groupPrefix, None, 40);
    TestsMean(DataOf(n).farewellText, None, 500);
    hide ConfigFindings, ConfigFault, IsGroupHandoff, HandsToGroup, IsOptStr, OptLine, BranchesReadable;
  }

  /** Node k is reported as `x`: it has no id, or a fault, and an earlier node may have its id. */
  ghost predicate NodeReported(nodes: seq<Node>, k: nat, refs: Refs, x: Finding)
    requires k < |nodes| && NodesReadable(nodes)
  {
    if !HasId(nodes[k]) then x == Finding(NodeIdMissing, None)
    else x.node == nodes[k].id && NodeFault(nodes[k], IdBefore(nodes, k), refs, x.code)
  }

  predicate IdBefore(nodes: seq<Node>, k: nat)
    requires k < |nodes| && HasId(nodes[k])
  {
    exists j :: 0 <= j < k && nodes[j].Node? && nodes[j].id == nodes[k].id
  }

  lemma IdTaken(nodes: seq<Node>, k: nat)
    requires k < |nodes| && HasId(nodes[k])
    ensures nodes[k].id.value in IdsOf(nodes[..k]) <==> IdBefore(nodes, k)
  {
    if j :| 0 <= j < k && nodes[j].Node? && nodes[j].id == nodes[k].id { assert nodes[j] in nodes[..k]; }
  }

  lemma PrefixReadable(nodes: seq<Node>, n: nat)
    requires n <= |nodes| && NodesReadable(nodes)
    ensures NodesReadable(nodes[..n])
    ensures n < |nodes| ==> nodes[n].Node? && (HasId(nodes[n]) ==> BranchesReadable(nodes[n]))
  {
    hide BranchesReadable, HasId;
  }

  lemma ReportedMeans(nodes: seq<Node>, k: nat, refs: Refs, x: Finding)
    requires k < |nodes| && NodesReadable(nodes)
    ensures x in NodeFindings(nodes[k], HasId(nodes[k]) && nodes[k].id.value in IdsOf(nodes[..k]), refs)
      <==> NodeReported(nodes, k, refs, x)
  {
    PrefixReadable(nodes, k);
    hide NodesReadable, BranchesReadable, NodeFault, IdBefore, IdsOf, NodeFindings;
    if HasId(nodes[k]) {
      IdTaken(nodes, k);
      NodeFindingsMean(nodes[k], IdBefore(nodes, k), refs, x);
    } else {
      NamelessNode(nodes[k], refs);
    }
  }

  /** The validator reports `x` for some of the first n nodes. */
  ghost predicate FoundInNodes(nodes: seq<Node>, n: nat, refs: Refs, x: Finding)
    requires n <= |nodes|
  {
    NodesReadable(nodes[..n]) && x in NodeListFindings(nodes[..n], refs)
  }

  lemma NodesStep(nodes: seq<Node>, k: nat, refs: Refs, x: Finding)
    requires k < |nodes| && NodesReadable(nodes)
    ensures FoundInNodes(nodes, k + 1, refs, x) == (FoundInNodes(nodes, k, refs, x) || NodeReported(nodes, k, refs, x))
  {
    PrefixReadable(nodes, k);
    PrefixReadable(nodes, k + 1);
    assert nodes[..k + 1] == nodes[..k] + [nodes[k]];
    hide NodeFindings, NodeListFindings, NodeReported, IdsOf, NodesReadable, BranchesReadable, HasId;
    NodeListStep(nodes[..k], nodes[k], refs);
    ReportedMeans(nodes, k, refs, x);
  }

  lemma NothingFoundYet(nodes: seq<Node>, refs: Refs, x: Finding)
    ensures !FoundInNodes(nodes, 0, refs, x)
  {
  }

  lemma {:induction false} NodesOfPrefix(nodes: seq<Node>, n: nat, refs: Refs, x: Finding)
    requires n <= |nodes| && NodesReadable(nodes)
    ensures FoundInNodes(nodes, n, refs, x) <==> exists k :: 0 <= k < n && NodeReported(nodes, k, refs, x)
  {
    hide FoundInNodes, NodeReported, NodesReadable;
    if n > 0 {
      NodesOfPrefix(nodes, n - 1, refs, x);
      NodesStep(nodes, n - 1, refs, x);
    } else {
      NothingFoundYet(nodes, refs, x);
    }
  }

  lemma NodesMean(nodes: seq<Node>, refs: Refs, x: Finding)
    requires NodesReadable(nodes)
    ensures x in NodeListFindings(nodes, refs) <==> exists k :: 0 <= k < |nodes| && NodeReported(nodes, k, refs, x)
  {
    NodesOfPrefix(nodes, |nodes|, refs, x);
    hide NodeReported, NodeListFindings;
    assert nodes[..|nodes|] == nodes;
  }

  // ---------------------------------------------------------------- edges

  /** Node i is the last stored under its id, which is the one its edges are read against. */
  predicate LastUnder(nodes: seq<Node>, i: nat, id: string)
    requires i < |nodes|
  {
    && id != "" && nodes[i].Node? && nodes[i].id == Some(id)
    && forall j | i < j < |nodes| :: nodes[j].Node? ==> nodes[j].id != Some(id)
  }

  lemma {:induction false} ByIdMeans(nodes: seq<Node>, i: nat, id: string)
    requires i < |nodes| && LastUnder(nodes, i, id)
    ensures id in ById(nodes) && ById(nodes)[id] == nodes[i]
    decreases |nodes|
  {
    var k := |nodes| - 1;
    assert nodes == nodes[..k] + [nodes[k]];
    IdsStep(nodes[..k], nodes[k]);
    hide ById;
    if i < k { ByIdMeans(nodes[..k], i, id); }
  }

  /** The text of the output an edge leaves by; an edge that names none leaves by "out". */
  function OutputText(e: Edge): string
    requires e.Edge?
  {
    match e.handle
    case Absent => "out"
    case Text(s) => s
    case Scalar(text) => text
    case Thing(text) => text
  }

  /** The outputs a node has; one whose key is an array or object can be left by no edge. */
  predicate Legal(n: Node, h: Field)
    requires n.Node?
  {
    match n.kind
    case Keyword | AiDecision | TagDecision => h == Text("yes") || h == Text("no")
    case KeywordCases => h == Text("fallback") || KeyedIn(DataOf(n).cases, h)
    case Intent => h == Text("fallback") || KeyedIn(DataOf(n).intents, h)
    case AgentReply => h == Text("onHandoff")
    case AssignContactAgent => h == Text("fallback")
    case Trigger | Webhook | TagConversation | AssignTeammate | SaveContact | SendMedia => h == Text("out")
    case AssignHuman | RoundRobin | AssignGroup | UnknownKind => false
  }

  predicate KeyedIn(bs: Option<seq<Branch>>, h: Field) {
    bs.Some? && !h.Thing? && exists b :: b in bs.value && b.Branch? && b.key == h
  }

  lemma LegalMeans(n: Node, h: Field)
    requires n.Node?
    ensures Includes(AllowedHandles(n), h) <==> Legal(n, h)
  {
    KeyInKeys(BranchesOf(n), h);
    assert forall b | b in KeysOf(BranchesOf(n)) + [Text("fallback")] ::
      b in KeysOf(BranchesOf(n)) || b == Text("fallback");
    hide KeysOf;
  }

  /** An earlier edge of a known node spells its source and output the same. */
  predicate OutputUsed(edges: seq<Edge>, k: nat, byId: map<string, Node>)
    requires k < |edges| && Shaped(edges[k])
  {
    exists j :: 0 <= j < k && Shaped(edges[j]) && edges[j].source.value in byId
                && edges[j].source.value + "::" + OutputText(edges[j])
                   == edges[k].source.value + "::" + OutputText(edges[k])
  }

  /** Edge k is reported as `x`. */
  predicate EdgeReported(edges: seq<Edge>, k: nat, byId: map<string, Node>, x: Finding)
    requires k < |edges| && forall id | id in byId :: byId[id].Node?
  {
    var e := edges[k];
    if e.NoEdge? || e.source.None? || e.target.None? then x == Finding(EdgeShape, None)
    else
      || (x == Finding(EdgeUnknownSource, None) && e.source.value !in byId)
      || (x == Finding(EdgeUnknownTarget, None) && e.target.value !in byId)
      || (&& e.source.value in byId && x.node == e.source
          && var n := byId[e.source.value];
             || (x.code == EdgeDupeHandle && OutputUsed(edges, k, byId))
             || (x.code == EdgeFromTerminal && n.kind in {AssignHuman, RoundRobin, AssignGroup})
             || (x.code == EdgeBadHandle && n.kind !in {AssignHuman, RoundRobin, AssignGroup}
                 && !Legal(n, if e.handle.Absent? then Text("out") else e.handle)))
  }

  lemma OutputSeen(edges: seq<Edge>, k: nat, byId: map<string, Node>)
    requires k < |edges| && Shaped(edges[k])
    ensures DupeKey(edges[k]) in SeenHandles(edges[..k], byId) <==> OutputUsed(edges, k, byId)
  {
    if j :| 0 <= j < k && Shaped(edges[j]) && edges[j].source.value in byId && DupeKey(edges[j]) == DupeKey(edges[k]) {
      assert edges[j] in edges[..k];
    }
  }

  lemma EdgeFindingsMean(edges: seq<Edge>, k: nat, byId: map<string, Node>, x: Finding)
    requires k < |edges| && forall id | id in byId :: byId[id].Node?
    ensures x in EdgeFindings(edges[k], byId, SeenHandles(edges[..k], byId)) <==> EdgeReported(edges, k, byId, x)
  {
    var e := edges[k];
    if Shaped(e) {
      OutputSeen(edges, k, byId);
      if e.source.value in byId { LegalMeans(byId[e.source.value], HandleOf(e)); }
    }
    hide SeenHandles, OutputUsed, AllowedHandles, Legal, Includes, DupeKey;
  }

  lemma EdgesStep(edges: seq<Edge>, k: nat, byId: map<string, Node>, x: Finding)
    requires k < |edges| && forall id | id in byId :: byId[id].Node?
    ensures (x in EdgeListFindings(edges[..k + 1], byId))
         == (x in EdgeListFindings(edges[..k], byId) || EdgeReported(edges, k, byId, x))
  {
    assert edges[..k + 1][..k] == edges[..k] && edges[..k + 1][k] == edges[k];
    EdgeFindingsMean(edges, k, byId, x);
    hide EdgeFindings, EdgeReported, SeenHandles;
  }

  lemma {:induction false} EdgesOfPrefix(edges: seq<Edge>, n: nat, byId: map<string, Node>, x: Finding)
    requires n <= |edges| && forall id | id in byId :: byId[id].Node?
    ensures x in EdgeListFindings(edges[..n], byId) <==> exists k :: 0 <= k < n && EdgeReported(edges, k, byId, x)
  {
    if n > 0 {
      hide EdgeListFindings, EdgeReported;
      EdgesOfPrefix(edges, n - 1, byId, x);
      EdgesStep(edges, n - 1, byId, x);
    }
  }

  // ---------------------------------------------------------------- the whole graph

  lemma {:induction false} HostsMean(nodes: seq<Node>, x: Finding)
    ensures x in HostFindings(nodes) <==>
      x.code == NodeNeedsWhatsapp && exists n :: n in nodes && n.Node? && HandsToGroup(n.kind) && x.node == n.id
  {
    if nodes != [] {
      var k := |nodes| - 1;
      assert nodes == nodes[..k] + [nodes[k]];
      HostsMean(nodes[..k], x);
    }
  }

  /** Some group handoff sits in a flow of an Instagram session with no WhatsApp number to host it. */
  predicate NeedsWhatsapp(nodes: seq<Node>, refs: Refs, x: Finding) {
    && refs.channel == Some(Instagram) && refs.hasWhatsappNumber == Some(false) && x.code == NodeNeedsWhatsapp
    && exists n :: n in nodes && n.Node? && HandsToGroup(n.kind) && x.node == n.id
  }

  /** Some fault of the graph is reported as `x`. */
  ghost predicate Faulty(g: Graph, refs: Refs, x: Finding)
    requires g.Graph? && NodesReadable(g.nodes)
  {
    || (exists k :: 0 <= k < |g.nodes| && NodeReported(g.nodes, k, refs, x))
    || (x == Finding(TriggerCount, None) && !OneTrigger(g.nodes))
    || (exists k :: 0 <= k < |g.edges| && EdgeReported(g.edges, k, ById(g.nodes), x))
    || NeedsWhatsapp(g.nodes, refs, x)
  }

  lemma TriggersMean(nodes: seq<Node>, x: Finding)
    ensures x in Check(CountTriggers(nodes) == 1, TriggerCount, None)
      <==> x == Finding(TriggerCount, None) && !OneTrigger(nodes)
  {
    TriggersCounted(nodes);
    hide OneTrigger, CountTriggers;
  }

  lemma EdgesMean(edges: seq<Edge>, byId: map<string, Node>, x: Finding)
    requires forall id | id in byId :: byId[id].Node?
    ensures x in EdgeListFindings(edges, byId) <==> exists k :: 0 <= k < |edges| && EdgeReported(edges, k, byId, x)
  {
    EdgesOfPrefix(edges, |edges|, byId, x);
    hide EdgeReported, EdgeListFindings;
    assert edges[..|edges|] == edges;
  }

  lemma InSome<T>(a: seq<T>, b: seq<T>, c: seq<T>, d: seq<T>, x: T)
    ensures x in a + b + c + d <==> x in a || x in b || x in c || x in d
  {
  }

  lemma ReadableParts(g: Graph, refs: Refs)
    requires g.Graph? && 1 <= |g.nodes| <= 50 && Readable(g)
    ensures NodesReadable(g.nodes)
    ensures Validate(g, refs) == Findings(
      NodeListFindings(g.nodes, refs) + Check(CountTriggers(g.nodes) == 1, TriggerCount, None)
      + EdgeListFindings(g.edges, ById(g.nodes)) + if NoGroupHost(refs) then HostFindings(g.nodes) else [])
  {
    hide NodeListFindings, EdgeListFindings, HostFindings, ById, CountTriggers, NodesReadable, EdgesReadable, Check;
  }

  lemma WhatsappMeans(nodes: seq<Node>, refs: Refs, x: Finding)
    ensures NoGroupHost(refs) && x in HostFindings(nodes) <==> NeedsWhatsapp(nodes, refs, x)
  {
    HostsMean(nodes, x);
    hide HostFindings, HandsToGroup;
  }

  /** Every finding is a fault of the graph, and every fault is a finding. */
  lemma FindingsMean(g: Graph, refs: Refs, x: Finding)
    requires g.Graph? && 1 <= |g.nodes| <= 50 && Readable(g)
    ensures NodesReadable(g.nodes) && Validate(g, refs).Findings?
    ensures x in Validate(g, refs).errors <==> Faulty(g, refs, x)
  {
    ReadableParts(g, refs);
    NodesMean(g.nodes, refs, x);
    TriggersMean(g.nodes, x);
    EdgesMean(g.edges, ById(g.nodes), x);
    WhatsappMeans(g.nodes, refs, x);
    hide Validate, NodeListFindings, EdgeListFindings, HostFindings, NodeReported, EdgeReported, ById, OneTrigger,
         CountTriggers, NodesReadable, Readable, Check, NeedsWhatsapp, NoGroupHost;
    InSome(NodeListFindings(g.nodes, refs), Check(CountTriggers(g.nodes) == 1, TriggerCount, None),
           EdgeListFindings(g.edges, ById(g.nodes)), if NoGroupHost(refs) then HostFindings(g.nodes) else [], x);
  }

  /** What is no graph, an empty graph, or one of more than 50 nodes is not looked into. */
  lemma ShapeMeans(g: Graph, refs: Refs)
    ensures g.NotAGraph? ==> Validate(g, refs) == Findings([Finding(GraphShape, None)])
    ensures g.Graph? && |g.nodes| == 0 ==> Validate(g, refs) == Findings([Finding(GraphEmpty, None)])
    ensures g.Graph? && |g.nodes| > 50 ==> Validate(g, refs) == Findings([Finding(GraphTooBig, None)])
  {
  }

  /** The list holds a null entry, and is walked because its length is allowed. */
  predicate NullBranch(bs: Option<seq<Branch>>, max: nat) {
    bs.Some? && 1 <= |bs.value| <= max && exists b :: b in bs.value && b.Hole?
  }

  /** Reading the node throws: it is null, or it has an id and a null branch. */
  predicate ThrowsAtNode(n: Node) {
    || n.NoNode?
    || (&& n.id.Some? && n.id.value != ""
        && ((n.kind.KeywordCases? && NullBranch(DataOf(n).cases, 10))
            || (n.kind.Intent? && NullBranch(DataOf(n).intents, 8))))
  }

  /** Reading the edge throws: its source branches, and has no data or a null branch. */
  predicate ThrowsAtEdge(e: Edge, byId: map<string, Node>) {
    && e.Edge? && e.source.Some? && e.target.Some? && e.source.value in byId
    && var n := byId[e.source.value];
    && n.Node?
    && ((n.kind.KeywordCases? && (n.data.None? || (n.data.value.cases.Some? && Hole in n.data.value.cases.value)))
        || (n.kind.Intent? && (n.data.None? || (n.data.value.intents.Some? && Hole in n.data.value.intents.value))))
  }

  /** The validator throws exactly on a null node, and where it reads the branches of a node that has none to read. */
  lemma ThrowsExactly(g: Graph, refs: Refs)
    ensures Validate(g, refs).Threw? <==>
      && g.Graph? && 1 <= |g.nodes| <= 50
      && ((exists n :: n in g.nodes && ThrowsAtNode(n))
          || exists e :: e in g.edges && ThrowsAtEdge(e, ById(g.nodes)))
  {
    if g.Graph? && 1 <= |g.nodes| <= 50 {
      forall n | n in g.nodes ensures ThrowsAtNode(n) <==> !(n.Node? && (HasId(n) ==> BranchesReadable(n))) {}
      forall e | e in g.edges ensures ThrowsAtEdge(e, ById(g.nodes)) <==> !EdgeReadable(e, ById(g.nodes)) {}
      hide ThrowsAtNode, ThrowsAtEdge, EdgeReadable, BranchesReadable, HasId, ById;
    }
  }
}
