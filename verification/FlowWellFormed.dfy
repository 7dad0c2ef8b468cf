/**
 * What an accepted flow graph is, without reference to how it is checked,
 * and the proof that the validator finds nothing exactly on those graphs.
 */
module FlowWellFormed {
  import opened Prelude
  import opened FlowGraph

  // ---------------------------------------------------------------- the meaning

  function KeyOf(b: Branch): Field {
    if b.Branch? then b.key else Absent
  }

  function IdOf(n: Node): Option<string> {
    if n.Node? then n.id else None
  }

  /** The output an edge leaves, by the text of its handle. */
  function OutputOf(e: Edge): (Option<string>, string) {
    if e.Edge? then (e.source, Converted(HandleOf(e))) else (None, "")
  }

  /** The key converts to a slug and is not the reserved string; a number or an array may pass. */
  ghost predicate GoodBranch(b: Branch, f: Family) {
    && b.Branch? && IsSlug(b.key) && b.key != Text("fallback")
    && IsStr(b.title, 80)
    && (f.CaseFamily? ==> IsKeywordList(b.keywords))
  }

  /** Equal as the language compares them, by value unless they are arrays or objects. */
  predicate SameKey(a: Field, b: Field) {
    a == b && !a.Thing?
  }

  ghost predicate KeysApart(bs: seq<Branch>) {
    forall i, j | 0 <= i < j < |bs| :: !SameKey(KeyOf(bs[i]), KeyOf(bs[j]))
  }

  ghost predicate BranchesWellFormed(bs: seq<Branch>, f: Family) {
    (forall b | b in bs :: GoodBranch(b, f)) && KeysApart(bs)
  }

  ghost predicate Deliverable(f: Field, refs: Refs) {
    && IsStr(f, 64) && f.s in refs.mediaItems
    && (refs.channel.Some? ==> refs.channel.value in refs.mediaItems[f.s])
  }

  /** The node's configuration names only things the organization owns and fits its limits. */
  ghost predicate Configured(n: Node, refs: Refs)
    requires n.Node?
  {
    var d := DataOf(n);
    && (n.kind.Keyword? ==> IsKeywordList(d.keywords))
    && (n.kind.KeywordCases? ==> CountedBranches(d.cases, 10) && BranchesWellFormed(d.cases.value, CaseFamily))
    && (n.kind.Intent? ==> CountedBranches(d.intents, 8) && BranchesWellFormed(d.intents.value, IntentFamily))
    && (n.kind.Intent? || n.kind.AiDecision? ==>
          d.agentId.Absent? || d.agentId == Text("") || d.agentId == Scalar("0") || d.agentId == Scalar("false")
          || (d.agentId.Text? && d.agentId.s in refs.agentIds))
    && (n.kind.AiDecision? ==> IsStr(d.question, 500))
    && (n.kind.AgentReply? ==> IsIdIn(d.agentId, refs.agentIds) && IsOptStr(d.prompt, 2000))
    && (n.kind.AssignHuman? ==> IsIdIn(d.humanAgentId, refs.humanAgentIds))
    && (n.kind.RoundRobin? || n.kind.AssignGroup? ==> HumanListOk(d.humanAgentIds, refs))
    && (n.kind.Webhook? ==> IsIdIn(d.webhookId, refs.webhookIds))
    && (n.kind.TagConversation? || n.kind.TagDecision? ==> IsIdIn(d.tagId, refs.tagIds))
    && (n.kind.AssignTeammate? ==> IsIdIn(d.userId, refs.memberIds))
    && (n.kind.SendMedia? ==> Deliverable(d.mediaItemId, refs) && IsOptStr(d.caption, 1024))
    && (IsGroupHandoff(n.kind) ==> IsOptStr(d.groupPrefix, 40) && IsOptStr(d.farewellText, 500))
  }

  ghost predicate GoodNode(n: Node, refs: Refs) {
    HasId(n) && !n.kind.UnknownKind? && n.placed && Configured(n, refs)
  }

  ghost predicate GoodNodes(nodes: seq<Node>, refs: Refs) {
    (forall n | n in nodes :: GoodNode(n, refs)) && Distinct(nodes, IdOf)
  }

  ghost predicate OneTrigger(nodes: seq<Node>) {
    && (exists i :: 0 <= i < |nodes| && IsTrigger(nodes[i]))
    && (forall i, j | 0 <= i < |nodes| && 0 <= j < |nodes| && IsTrigger(nodes[i]) && IsTrigger(nodes[j]) :: i == j)
  }

  /** The node is the edge's source and has its output. */
  predicate Offers(n: Node, e: Edge) {
    n.Node? && e.Edge? && n.id == e.source && !IsTerminal(n.kind) && Includes(AllowedHandles(n), HandleOf(e))
  }

  /** The edge leaves a legal output of a stored, non-terminal node and enters a stored node. */
  ghost predicate GoodEdge(nodes: seq<Node>, e: Edge) {
    && Shaped(e)
    && (exists n :: n in nodes && Offers(n, e))
    && (exists n :: n in nodes && n.Node? && n.id == e.target)
  }

  ghost predicate GoodEdges(nodes: seq<Node>, edges: seq<Edge>) {
    (forall e | e in edges :: GoodEdge(nodes, e)) && Distinct(edges, OutputOf)
  }

  ghost predicate WellFormed(g: Graph, refs: Refs) {
    && g.Graph? && 1 <= |g.nodes| <= 50
    && GoodNodes(g.nodes, refs)
    && OneTrigger(g.nodes)
    && GoodEdges(g.nodes, g.edges)
    && (NoGroupHost(refs) ==> forall n | n in g.nodes :: !IsGroupHandoff(n.kind))
  }

  // ---------------------------------------------------------------- branches

  lemma BranchClean(b: Branch, seen: set<Field>, f: Family, id: Option<string>)
    requires b.Branch?
    ensures BranchFindings(b, seen, f, id) == [] <==> GoodBranch(b, f) && !Has(seen, b.key)
    ensures GoodBranch(b, f) ==> (KeyFindings(b, seen, f, None) == [] <==> !Has(seen, b.key))
  {
  }

  lemma GoodBranchesSnoc(bs: seq<Branch>, b: Branch, f: Family)
    ensures BranchesWellFormed(bs + [b], f) <==>
            BranchesWellFormed(bs, f) && GoodBranch(b, f) && forall x | x in bs :: !SameKey(KeyOf(x), KeyOf(b))
  {
    var all := bs + [b];
    forall x | x in bs ensures x in all {}
    assert b in all;
    if KeysApart(all) {
      forall x | x in bs ensures !SameKey(KeyOf(x), KeyOf(b)) {
        var i :| 0 <= i < |bs| && bs[i] == x;
        assert all[i] == x && all[|bs|] == b;
      }
      forall i, j | 0 <= i < j < |bs| ensures !SameKey(KeyOf(bs[i]), KeyOf(bs[j])) {
        assert all[i] == bs[i] && all[j] == bs[j];
      }
    }
  }

  ghost predicate SeenIsKeys(bs: seq<Branch>, seen: set<Field>) {
    forall k :: k in seen <==> exists b :: b in bs && b.Branch? && b.key == k
  }

  lemma SeenIsKeysSnoc(bs: seq<Branch>, seen: set<Field>, b: Branch)
    requires SeenIsKeys(bs, seen) && b.Branch? && (forall x | x in bs :: x.Branch?)
    ensures SeenIsKeys(bs + [b], seen + {b.key})
    ensures Has(seen, b.key) <==> exists x :: x in bs && SameKey(KeyOf(x), KeyOf(b))
  {
    forall k ensures k in seen + {b.key} <==> exists x :: x in bs + [b] && x.Branch? && x.key == k {
      if x :| x in bs && x.Branch? && x.key == k { assert x in bs + [b]; }
      if k == b.key { assert b in bs + [b]; }
    }
  }

  lemma {:induction false} BranchListClean(bs: seq<Branch>, f: Family, id: Option<string>)
    requires Hole !in bs
    ensures BranchListFindings(bs, f, id) == [] <==> BranchesWellFormed(bs, f)
    ensures BranchesWellFormed(bs, f) ==> SeenIsKeys(bs, SeenKeys(bs, f))
  {
    if bs != [] {
      hide BranchFindings, KeyFindings, KeysApart, BranchesWellFormed, SeenIsKeys, SeenKeys, BranchListFindings;
      var front, b := bs[..|bs| - 1], bs[|bs| - 1];
      assert bs == front + [b];
      BranchListClean(front, f, id);
      GoodBranchesSnoc(front, b, f);
      BranchClean(b, SeenKeys(front, f), f, id);
      BranchListStep(front, b, f, id);
      if BranchesWellFormed(front, f) && GoodBranch(b, f) {
        forall x | x in front ensures x.Branch? {}
        SeenIsKeysSnoc(front, SeenKeys(front, f), b);
      }
    }
  }

  lemma BranchesClean(bs: Option<seq<Branch>>, max: nat, f: Family, id: Option<string>)
    requires CountedBranches(bs, max) ==> Hole !in bs.value
    ensures BranchesFindings(bs, max, f, id) == [] <==> CountedBranches(bs, max) && BranchesWellFormed(bs.value, f)
  {
    if CountedBranches(bs, max) { BranchListClean(bs.value, f, id); }
  }

  lemma ConfigClean(n: Node, refs: Refs)
    requires HasId(n) && !n.kind.UnknownKind? && BranchesReadable(n)
    ensures ConfigFindings(n, refs) + SharedFindings(n) == [] <==> Configured(n, refs)
  {
    if n.kind.KeywordCases? {
      BranchesClean(DataOf(n).cases, 10, CaseFamily, n.id);
    } else if n.kind.Intent? {
      BranchesClean(DataOf(n).intents, 8, IntentFamily, n.id);
    }
  }

  // ---------------------------------------------------------------- nodes

  lemma NodeClean(n: Node, dupe: bool, refs: Refs)
    requires n.Node? && (HasId(n) ==> BranchesReadable(n))
    ensures NodeFindings(n, dupe, refs) == [] <==> GoodNode(n, refs) && !dupe
  {
    if HasId(n) && !n.kind.UnknownKind? { ConfigClean(n, refs); }
  }

  lemma GoodNodesSnoc(nodes: seq<Node>, n: Node, refs: Refs)
    ensures GoodNodes(nodes + [n], refs) <==>
            GoodNodes(nodes, refs) && GoodNode(n, refs) && !(HasId(n) && n.id.value in IdsOf(nodes))
  {
    DistinctSnoc(nodes, n, IdOf);
    forall x | x in nodes ensures x in nodes + [n] {}
    assert n in nodes + [n];
    if GoodNodes(nodes, refs) && GoodNode(n, refs) {
      forall x | x in nodes ensures HasId(x) { assert GoodNode(x, refs); }
    }
  }

  lemma {:induction false} NodeListClean(nodes: seq<Node>, refs: Refs)
    requires NodesReadable(nodes)
    ensures NodeListFindings(nodes, refs) == [] <==> GoodNodes(nodes, refs)
  {
    if nodes != [] {
      var front, n := nodes[..|nodes| - 1], nodes[|nodes| - 1];
      assert nodes == front + [n];
      NodeListClean(front, refs);
      GoodNodesSnoc(front, n, refs);
      NodeClean(n, HasId(n) && n.id.value in IdsOf(front), refs);
    }
  }

  lemma TriggerSnoc(nodes: seq<Node>, n: Node)
    ensures OneTrigger(nodes + [n]) <==>
            if IsTrigger(n) then forall x | x in nodes :: !IsTrigger(x) else OneTrigger(nodes)
  {
    var all := nodes + [n];
    assert forall i | 0 <= i < |nodes| :: all[i] == nodes[i];
    if IsTrigger(n) {
      assert IsTrigger(all[|nodes|]);
      if OneTrigger(all) {
        forall x | x in nodes ensures !IsTrigger(x) {
          var i :| 0 <= i < |nodes| && nodes[i] == x;
          assert all[i] == x;
        }
      }
    } else if OneTrigger(nodes) {
      var i :| 0 <= i < |nodes| && IsTrigger(nodes[i]);
      assert IsTrigger(all[i]);
    } else if OneTrigger(all) {
      var i :| 0 <= i < |all| && IsTrigger(all[i]);
      assert IsTrigger(nodes[i]);
      forall a, b | 0 <= a < |nodes| && 0 <= b < |nodes| && IsTrigger(nodes[a]) && IsTrigger(nodes[b]) ensures a == b {
        assert IsTrigger(all[a]) && IsTrigger(all[b]);
      }
    }
  }

  lemma {:induction false} TriggersCounted(nodes: seq<Node>)
    ensures CountTriggers(nodes) == 0 <==> forall x | x in nodes :: !IsTrigger(x)
    ensures CountTriggers(nodes) == 1 <==> OneTrigger(nodes)
  {
    if nodes != [] {
      var front, n := nodes[..|nodes| - 1], nodes[|nodes| - 1];
      assert nodes == front + [n];
      TriggersCounted(front);
      TriggerSnoc(front, n);
    }
  }

  lemma {:induction false} HostsClean(nodes: seq<Node>)
    ensures HostFindings(nodes) == [] <==> forall n | n in nodes && n.Node? :: !IsGroupHandoff(n.kind)
  {
    if nodes != [] {
      assert nodes == nodes[..|nodes| - 1] + [nodes[|nodes| - 1]];
      HostsClean(nodes[..|nodes| - 1]);
    }
  }

  // ---------------------------------------------------------------- edges

  predicate NoColon(s: string) {
    ':' !in s
  }

  lemma LastColon(s: string, h: string)
    requires NoColon(h)
    ensures var k := s + "::" + h;
      k[|s| + 1] == ':' && forall i | |s| + 1 < i < |k| :: k[i] != ':'
  {
    var k := s + "::" + h;
    forall i | |s| + 1 < i < |k| ensures k[i] != ':' {
      assert k[i] == h[i - |s| - 2];
    }
  }

  /** The remembered string identifies the output, because no legal handle has a colon. */
  lemma DupeKeyInjective(s1: string, h1: string, s2: string, h2: string)
    requires NoColon(h1) && NoColon(h2) && s1 + "::" + h1 == s2 + "::" + h2
    ensures s1 == s2 && h1 == h2
  {
    var a, b := s1 + "::" + h1, s2 + "::" + h2;
    LastColon(s1, h1);
    LastColon(s2, h2);
    assert |s1| == |s2|;
    assert s1 == a[..|s1|] && s2 == b[..|s2|];
    assert h1 == a[|s1| + 2..] && h2 == b[|s2| + 2..];
  }

  lemma {:induction false} KeyInKeys(bs: seq<Branch>, h: Field)
    ensures h in KeysOf(bs) <==> exists b :: b in bs && b.Branch? && b.key == h
  {
    if bs != [] {
      assert bs == [bs[0]] + bs[1..];
      KeyInKeys(bs[1..], h);
    }
  }

  lemma LegalHandlesHaveNoColon(n: Node, refs: Refs, h: Field)
    requires GoodNode(n, refs) && h in AllowedHandles(n)
    ensures NoColon(Converted(h))
  {
    if n.kind.KeywordCases? || n.kind.Intent? {
      KeyInKeys(BranchesOf(n), h);
      if h != Text("fallback") {
        var b :| b in BranchesOf(n) && b.Branch? && b.key == h;
        assert GoodBranch(b, if n.kind.Intent? then IntentFamily else CaseFamily);
        assert forall c | c in Converted(h) :: SlugChar(c);
      }
    }
  }

  /** With distinct ids the id index returns the one node stored under the id. */
  lemma ByIdIsTheNode(nodes: seq<Node>, refs: Refs, n: Node)
    requires GoodNodes(nodes, refs) && n in nodes
    ensures HasId(n) && n.id.value in ById(nodes) && ById(nodes)[n.id.value] == n
  {
    assert GoodNode(n, refs);
    assert n.id.value in IdsOf(nodes);
    var m := ById(nodes)[n.id.value];
    var i :| 0 <= i < |nodes| && nodes[i] == n;
    var j :| 0 <= j < |nodes| && nodes[j] == m;
    assert IdOf(nodes[i]) == IdOf(nodes[j]);
  }

  /** Apart from duplicates, an edge is found faultless exactly when it is good. */
  lemma EdgeClean(nodes: seq<Node>, refs: Refs, e: Edge, seen: set<string>)
    requires GoodNodes(nodes, refs)
    ensures EdgeFindings(e, ById(nodes), seen) == [] <==> GoodEdge(nodes, e) && DupeKey(e) !in seen
  {
    var byId := ById(nodes);
    if GoodEdge(nodes, e) {
      var n :| n in nodes && Offers(n, e);
      var t :| t in nodes && t.Node? && t.id == e.target;
      ByIdIsTheNode(nodes, refs, n);
      ByIdIsTheNode(nodes, refs, t);
    }
    if EdgeFindings(e, byId, seen) == [] {
      var n, t := byId[e.source.value], byId[e.target.value];
      assert n in nodes && Offers(n, e) && t in nodes && t.id == e.target;
    }
  }

  lemma SameOutputSameKey(nodes: seq<Node>, refs: Refs, e1: Edge, e2: Edge)
    requires GoodNodes(nodes, refs) && GoodEdge(nodes, e1) && GoodEdge(nodes, e2)
    ensures DupeKey(e1) == DupeKey(e2) <==> OutputOf(e1) == OutputOf(e2)
  {
    var n1 :| n1 in nodes && Offers(n1, e1);
    var n2 :| n2 in nodes && Offers(n2, e2);
    LegalHandlesHaveNoColon(n1, refs, HandleOf(e1));
    LegalHandlesHaveNoColon(n2, refs, HandleOf(e2));
    if DupeKey(e1) == DupeKey(e2) {
      DupeKeyInjective(e1.source.value, Converted(HandleOf(e1)), e2.source.value, Converted(HandleOf(e2)));
    }
  }

  /** Among good edges, the remembered strings hold exactly the used outputs. */
  lemma SeenMeansUsed(nodes: seq<Node>, refs: Refs, edges: seq<Edge>, e: Edge)
    requires GoodNodes(nodes, refs) && GoodEdge(nodes, e) && forall x | x in edges :: GoodEdge(nodes, x)
    ensures DupeKey(e) in SeenHandles(edges, ById(nodes)) <==> exists x :: x in edges && OutputOf(x) == OutputOf(e)
  {
    forall x | x in edges
      ensures x.source.value in ById(nodes) && (DupeKey(x) == DupeKey(e) <==> OutputOf(x) == OutputOf(e))
    {
      SameOutputSameKey(nodes, refs, x, e);
      var n :| n in nodes && Offers(n, x);
      ByIdIsTheNode(nodes, refs, n);
    }
  }

  lemma GoodEdgesSnoc(nodes: seq<Node>, refs: Refs, edges: seq<Edge>, e: Edge)
    requires GoodNodes(nodes, refs)
    ensures GoodEdges(nodes, edges + [e]) <==>
            GoodEdges(nodes, edges) && GoodEdge(nodes, e) && DupeKey(e) !in SeenHandles(edges, ById(nodes))
  {
    DistinctSnoc(edges, e, OutputOf);
    forall x | x in edges ensures x in edges + [e] {}
    assert e in edges + [e];
    if GoodEdges(nodes, edges) && GoodEdge(nodes, e) { SeenMeansUsed(nodes, refs, edges, e); }
  }

  lemma {:induction false} EdgeListClean(nodes: seq<Node>, refs: Refs, edges: seq<Edge>)
    requires GoodNodes(nodes, refs)
    ensures EdgeListFindings(edges, ById(nodes)) == [] <==> GoodEdges(nodes, edges)
  {
    if edges != [] {
      hide GoodNodes, GoodEdges, GoodEdge, EdgeFindings, SeenHandles;
      var front, e := edges[..|edges| - 1], edges[|edges| - 1];
      assert edges == front + [e];
      EdgeListClean(nodes, refs, front);
      GoodEdgesSnoc(nodes, refs, front, e);
      EdgeClean(nodes, refs, e, SeenHandles(front, ById(nodes)));
    }
  }

  // ---------------------------------------------------------------- the theorem

  lemma GoodNodesReadable(g: Graph, refs: Refs)
    requires g.Graph? && forall n | n in g.nodes :: GoodNode(n, refs)
    ensures Readable(g)
  {
    forall n | n in g.nodes ensures BranchesReadable(n) && OutputsReadable(n) {
      assert GoodNode(n, refs);
    }
  }

  /** The validator finds nothing exactly on the well-formed graphs. */
  lemma AcceptedExactlyWellFormed(g: Graph, refs: Refs)
    ensures Accepted(g, refs) <==> WellFormed(g, refs)
  {
    if g.Graph? && 1 <= |g.nodes| <= MAX_NODES {
      if GoodNodes(g.nodes, refs) { GoodNodesReadable(g, refs); }
      if Readable(g) {
        NodeListClean(g.nodes, refs);
        TriggersCounted(g.nodes);
        HostsClean(g.nodes);
        if GoodNodes(g.nodes, refs) { EdgeListClean(g.nodes, refs, g.edges); }
      }
    }
  }

  // ---------------------------------------------------------------- keys that are not strings

  /** A number, a boolean or an array passes as a key exactly when its text would, "fallback" aside. */
  lemma ConvertedKeysPass(b: Branch, f: Family, text: string)
    requires b.Branch? && text != "fallback"
    ensures GoodBranch(b.(key := Scalar(text)), f) <==> GoodBranch(b.(key := Text(text)), f)
    ensures GoodBranch(b.(key := Thing(text)), f) <==> GoodBranch(b.(key := Text(text)), f)
  {
  }

  function BareTrigger(id: string): Node {
    Node(Some(id), Trigger, true, Some(NoData))
  }

  function CaseNode(id: string, branch: Branch): Node {
    Node(Some(id), KeywordCases, true, Some(NoData.(cases := Some([branch]))))
  }

  lemma CaseNodeIsGood(id: string, b: Branch, refs: Refs)
    requires id != "" && GoodBranch(b, CaseFamily)
    ensures GoodNode(CaseNode(id, b), refs)
  {
    hide GoodBranch;
    assert KeysApart([b]);
  }

  lemma TwoNodesAreGood(a: Node, b: Node, refs: Refs)
    requires GoodNode(a, refs) && GoodNode(b, refs) && a.id != b.id && IsTrigger(a) && !IsTrigger(b)
    ensures GoodNodes([a, b], refs) && OneTrigger([a, b])
  {
    assert b.Node?;
    hide GoodNode;
    var nodes := [a, b];
    assert IsTrigger(nodes[0]) && !IsTrigger(nodes[1]);
  }

  lemma TwoNodesAlone(a: Node, b: Node, refs: Refs)
    requires GoodNode(a, refs) && GoodNode(b, refs) && a.id != b.id && IsTrigger(a) && !IsTrigger(b)
    requires !NoGroupHost(refs)
    ensures WellFormed(Graph([a, b], []), refs)
  {
    hide GoodNode, GoodNodes, OneTrigger;
    TwoNodesAreGood(a, b, refs);
  }

  /** The validator accepts a graph whose only case key is a number. */
  lemma NumberKeyIsAccepted(start: string, cases: string, title: string, keyword: string, refs: Refs)
    requires start != "" && cases != "" && start != cases && 0 < |title| <= 80 && 0 < |keyword| <= 80
    requires !NoGroupHost(refs)
    ensures var b := Branch(Scalar("5"), Text(title), Some([Text(keyword)]));
      Accepted(Graph([BareTrigger(start), CaseNode(cases, b)], []), refs)
  {
    var b := Branch(Scalar("5"), Text(title), Some([Text(keyword)]));
    assert GoodBranch(b.(key := Text("5")), CaseFamily);
    ConvertedKeysPass(b, CaseFamily, "5");
    assert b.(key := Scalar("5")) == b;
    assert GoodNode(BareTrigger(start), refs);
    hide GoodBranch, GoodNode, Accepted;
    CaseNodeIsGood(cases, b, refs);
    TwoNodesAlone(BareTrigger(start), CaseNode(cases, b), refs);
    AcceptedExactlyWellFormed(Graph([BareTrigger(start), CaseNode(cases, b)], []), refs);
  }
}
