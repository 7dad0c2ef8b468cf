/**
 * What each kind of node means on an accepted graph, said in terms of the edges
 * drawn from it, the stored configuration and the outside answers.
 */
module FlowMeaning {
  import opened Prelude
  import opened FlowGraph
  import opened FlowWellFormed
  import opened FlowEngine
  import opened FlowWalks

  /** The edge is drawn from the node's output; an edge without a handle leaves "out". */
  predicate DrawnFrom(e: Edge, n: Node, output: Field) {
    && e.Edge? && n.Node? && e.source == n.id && !output.Thing?
    && (e.handle == output || (e.handle.Absent? && output == Text("out")))
  }

  predicate HasEdge(g: Graph, n: Node, output: Field)
    requires g.Graph?
  {
    exists e :: e in g.edges && DrawnFrom(e, n, output)
  }

  /** The step leads to the node the edge from the output enters, and nowhere without such an edge. */
  ghost predicate LeadsBy(g: Graph, n: Node, output: Field, next: Lookup)
    requires g.Graph?
  {
    && (next.Found? <==> HasEdge(g, n, output)) && !next.Broke?
    && forall e | e in g.edges && DrawnFrom(e, n, output) ::
         next.Found? && next.node in g.nodes && next.node.Node? && next.node.id == e.target
  }

  /** By the branch's own output when an edge is drawn from it, by "fallback" otherwise. */
  ghost predicate LeadsByBranch(g: Graph, n: Node, output: Field, next: Lookup)
    requires g.Graph?
  {
    if HasEdge(g, n, output) then LeadsBy(g, n, output, next) else LeadsBy(g, n, Text("fallback"), next)
  }

  lemma FollowLeadsBy(g: Graph, refs: Refs, n: Node, output: Field)
    requires Accepted(g, refs) && n.Node? && !output.Absent?
    ensures g.Graph? && LeadsBy(g, n, output, Follow(g, n, output))
  {
    assert g.Graph?;
    hide Validate;
    FollowNeverDangles(g, refs, n, output);
    hide Accepted, Follow;
    forall e | e in g.edges ensures e.Edge? && (DrawnFrom(e, n, output) <==> Leaves(e, n.id, output)) {}
    assert HasEdge(g, n, output) <==> exists e :: e in g.edges && Leaves(e, n.id, output);
  }

  lemma BranchLeadsBy(g: Graph, refs: Refs, n: Node, output: Field)
    requires Accepted(g, refs) && n.Node? && !output.Absent?
    ensures g.Graph? && LeadsByBranch(g, n, output, OrFallback(g, n, Follow(g, n, output)))
  {
    FollowLeadsBy(g, refs, n, output);
    FollowLeadsBy(g, refs, n, Text("fallback"));
    hide Accepted, Follow, HasEdge, LeadsBy;
    LeadsByFound(g, n, output, Follow(g, n, output));
  }

  lemma LeadsByFound(g: Graph, n: Node, output: Field, next: Lookup)
    requires g.Graph? && LeadsBy(g, n, output, next)
    ensures next.Found? <==> HasEdge(g, n, output)
    ensures next.Nowhere? <==> !HasEdge(g, n, output)
  {
  }

  /** The node is stored in an accepted graph, with this configuration. */
  ghost predicate Configures(g: Graph, refs: Refs, n: Node, d: Data) {
    Accepted(g, refs) && g.Graph? && n in g.nodes && n.Node? && n.data == Some(d)
  }

  // ---------------------------------------------------------------- decisions

  /** Some keyword of the list occurs in the message. */
  predicate AnyMatches(keywords: Option<seq<Field>>, w: World) {
    keywords.Some? && exists f :: f in keywords.value && f.Text? && w.matches(f.s)
  }

  lemma Decides(mode: Mode, g: Graph, w: World, k: nat, n: Node, st: Stored, rec: Record)
    requires g.Graph? && n.Node? && IsDecision(n.kind)
    ensures Execute(mode, g, w, k, n, st, rec)
         == ExecuteDecision(mode, g, w, w.inputs(k), n, st, rec.(visited := rec.visited + [n]))
  {
  }

  lemma {:induction false} HitsMeans(keywords: seq<Field>, w: World)
    requires forall f | f in keywords :: f.Text?
    ensures Hits(keywords, w) == Said(exists f :: f in keywords && f.Text? && w.matches(f.s))
  {
    if keywords != [] {
      assert keywords == [keywords[0]] + keywords[1..];
      HitsMeans(keywords[1..], w);
    }
  }

  /** A keyword node leads by "yes" when a keyword of its list occurs, and by "no" otherwise. */
  lemma KeywordMeans(mode: Mode, g: Graph, refs: Refs, w: World, k: nat, n: Node, d: Data, st: Stored, rec: Record)
    requires Configures(g, refs, n, d) && n.kind.Keyword?
    ensures var output := Text(if AnyMatches(d.keywords, w) then "yes" else "no");
      LeadsBy(g, n, output, Execute(mode, g, w, k, n, st, rec).next)
    ensures Execute(mode, g, w, k, n, st, rec).st == st
  {
    GoodKeywords(g, refs, n, d);
    HitsMeans(d.keywords.value, w);
    Decides(mode, g, w, k, n, st, rec);
    FollowLeadsBy(g, refs, n, Text("yes"));
    FollowLeadsBy(g, refs, n, Text("no"));
    hide Accepted, Follow, LeadsBy, Hits, Execute;
  }

  lemma GoodKeywords(g: Graph, refs: Refs, n: Node, d: Data)
    requires Configures(g, refs, n, d) && n.kind.Keyword?
    ensures d.keywords.Some? && forall f | f in d.keywords.value :: f.Text?
  {
    AcceptedLookups(g, refs);
    hide Accepted;
    assert GoodNode(n, refs);
  }

  /** Branch i is the first of the list with a keyword that occurs. */
  ghost predicate FirstMatch(cases: seq<Branch>, w: World, i: nat) {
    && i < |cases| && cases[i].Branch? && AnyMatches(cases[i].keywords, w)
    && forall j | 0 <= j < i :: cases[j].Branch? && !AnyMatches(cases[j].keywords, w)
  }

  lemma {:induction false} FirstHitMeans(cases: seq<Branch>, w: World)
    requires forall b | b in cases :: GoodBranch(b, CaseFamily)
    ensures FirstHit(cases, w).Said?
    ensures forall i: nat | FirstMatch(cases, w, i) :: FirstHit(cases, w) == Said(Some(cases[i]))
    ensures (forall i | 0 <= i < |cases| :: cases[i].Branch? && !AnyMatches(cases[i].keywords, w))
      ==> FirstHit(cases, w) == Said(None)
  {
    if cases != [] {
      assert GoodBranch(cases[0], CaseFamily);
      HitsMeans(ListOf(cases[0].keywords), w);
      FirstHitMeans(cases[1..], w);
      hide GoodBranch;
      forall i: nat | FirstMatch(cases, w, i) && i > 0 ensures FirstMatch(cases[1..], w, i - 1) {
        assert !AnyMatches(cases[0].keywords, w);
      }
    }
  }

  lemma GoodCases(g: Graph, refs: Refs, n: Node, d: Data)
    requires Configures(g, refs, n, d) && n.kind.KeywordCases?
    ensures d.cases.Some? && forall b | b in d.cases.value :: GoodBranch(b, CaseFamily)
  {
    AcceptedLookups(g, refs);
    hide Accepted;
    assert GoodNode(n, refs);
  }

  lemma GoodKey(cases: seq<Branch>, i: nat)
    requires i < |cases| && forall b | b in cases :: GoodBranch(b, CaseFamily)
    ensures cases[i].Branch? && !cases[i].key.Absent?
  {
    assert GoodBranch(cases[i], CaseFamily);
  }

  /**
   * A keyword-cases node leads by the first case with a keyword that occurs, or
   * by "fallback": without such a case, or without an edge drawn from it, as
   * there is none for a key that is an array.
   */
  lemma KeywordCasesMeans(
      mode: Mode, g: Graph, refs: Refs, w: World, k: nat, n: Node, d: Data, st: Stored, rec: Record, i: nat)
    requires Configures(g, refs, n, d) && n.kind.KeywordCases? && d.cases.Some?
    requires FirstMatch(d.cases.value, w, i)
    ensures LeadsByBranch(g, n, d.cases.value[i].key, Execute(mode, g, w, k, n, st, rec).next)
  {
    GoodCases(g, refs, n, d);
    FirstHitMeans(d.cases.value, w);
    Decides(mode, g, w, k, n, st, rec);
    GoodKey(d.cases.value, i);
    BranchLeadsBy(g, refs, n, d.cases.value[i].key);
    hide Accepted, Follow, OrFallback, LeadsByBranch, FirstHit, Execute;
  }

  lemma NoCaseMeans(mode: Mode, g: Graph, refs: Refs, w: World, k: nat, n: Node, d: Data, st: Stored, rec: Record)
    requires Configures(g, refs, n, d) && n.kind.KeywordCases? && d.cases.Some?
    requires forall i | 0 <= i < |d.cases.value| ::
      d.cases.value[i].Branch? && !AnyMatches(d.cases.value[i].keywords, w)
    ensures LeadsBy(g, n, Text("fallback"), Execute(mode, g, w, k, n, st, rec).next)
  {
    GoodCases(g, refs, n, d);
    FirstHitMeans(d.cases.value, w);
    Decides(mode, g, w, k, n, st, rec);
    FollowLeadsBy(g, refs, n, Text("fallback"));
    hide Accepted, Follow, LeadsBy, FirstHit, Execute;
  }

  /** A yes/no question leads by "yes" exactly on a clear yes, and is metered. */
  lemma AiDecisionMeans(mode: Mode, g: Graph, refs: Refs, w: World, k: nat, n: Node, d: Data, st: Stored, rec: Record)
    requires Configures(g, refs, n, d) && n.kind.AiDecision? && w.inputs(k).decision.Said?
    ensures var a := Execute(mode, g, w, k, n, st, rec);
      && LeadsBy(g, n, Text(if w.inputs(k).decision.value == Some(true) then "yes" else "no"), a.next)
      && a.st == st.(metered := st.metered + w.inputs(k).cost)
  {
    Decides(mode, g, w, k, n, st, rec);
    FollowLeadsBy(g, refs, n, Text("yes"));
    FollowLeadsBy(g, refs, n, Text("no"));
    hide Accepted, Follow, LeadsBy, Execute;
  }

  lemma GoodTag(g: Graph, refs: Refs, n: Node, d: Data)
    requires Configures(g, refs, n, d) && (n.kind.TagDecision? || n.kind.TagConversation?)
    ensures d.tagId.Text? && d.tagId.s in refs.tagIds && d.tagId.s != ""
  {
    AcceptedLookups(g, refs);
    hide Accepted;
    assert GoodNode(n, refs);
  }

  /** A tag decision leads by "yes" exactly when the query goes through and the tag is on the conversation. */
  lemma TagDecisionMeans(mode: Mode, g: Graph, refs: Refs, w: World, k: nat, n: Node, d: Data, st: Stored, rec: Record)
    requires Configures(g, refs, n, d) && n.kind.TagDecision?
    ensures d.tagId.Text? && d.tagId.s in refs.tagIds
    ensures var tagged := w.inputs(k).tagLookupOk && st.tags.Some? && d.tagId.s in st.tags.value;
      LeadsBy(g, n, Text(if tagged then "yes" else "no"), Execute(mode, g, w, k, n, st, rec).next)
  {
    GoodTag(g, refs, n, d);
    Decides(mode, g, w, k, n, st, rec);
    FollowLeadsBy(g, refs, n, Text("yes"));
    FollowLeadsBy(g, refs, n, Text("no"));
    hide Accepted, Follow, LeadsBy, Execute;
  }

  /** Some intent of the list has the key. */
  predicate Named(intents: seq<Branch>, key: string) {
    exists b :: b in intents && b.Branch? && b.key == Text(key)
  }

  lemma {:induction false} KnowsKeyMeans(intents: seq<Branch>, key: string)
    requires forall b | b in intents :: b.Branch?
    ensures KnowsKey(intents, key) == Said(Named(intents, key))
  {
    if intents != [] {
      assert intents == [intents[0]] + intents[1..];
      assert intents[0] in intents;
      KnowsKeyMeans(intents[1..], key);
    }
  }

  lemma GoodIntents(g: Graph, refs: Refs, n: Node, d: Data)
    requires Configures(g, refs, n, d) && n.kind.Intent?
    ensures d.intents.Some? && forall b | b in d.intents.value :: b.Branch? && b.key != Text("")
  {
    AcceptedLookups(g, refs);
    hide Accepted;
    assert GoodNode(n, refs);
    forall b | b in d.intents.value ensures b.Branch? && b.key != Text("") { assert GoodBranch(b, IntentFamily); }
  }

  /** The intent the classifier names, if the node has it. */
  function Chosen(intents: seq<Branch>, key: Option<string>): Option<string> {
    if key.Some? && Named(intents, key.value) then key else None
  }

  lemma IntentStep(mode: Mode, g: Graph, w: World, k: nat, n: Node, d: Data, st: Stored, rec: Record)
    requires g.Graph? && n.Node? && n.kind.Intent? && n.data == Some(d) && d.intents.Some? && w.inputs(k).intent.Said?
    requires forall b | b in d.intents.value :: b.Branch? && b.key != Text("")
    ensures var a, key := Execute(mode, g, w, k, n, st, rec), Chosen(d.intents.value, w.inputs(k).intent.value);
      && a.st == st.(metered := st.metered + w.inputs(k).cost)
      && a.next == if key.Some? then OrFallback(g, n, Follow(g, n, Text(key.value))) else Follow(g, n, Text("fallback"))
  {
    Decides(mode, g, w, k, n, st, rec);
    hide Execute, Follow, OrFallback;
    var key := w.inputs(k).intent.value;
    if key.Some? {
      KnowsKeyMeans(d.intents.value, key.value);
      assert key.value == "" ==> !Named(d.intents.value, key.value);
    }
    hide KnowsKey, Named;
  }

  /** An intent node leads by the intent the classifier names, if it has it, by "fallback" otherwise, and is metered. */
  lemma IntentMeans(mode: Mode, g: Graph, refs: Refs, w: World, k: nat, n: Node, d: Data, st: Stored, rec: Record)
    requires Configures(g, refs, n, d) && n.kind.Intent? && w.inputs(k).intent.Said?
    ensures d.intents.Some?
    ensures var a, key := Execute(mode, g, w, k, n, st, rec), w.inputs(k).intent.value;
      && a.st == st.(metered := st.metered + w.inputs(k).cost)
      && (if key.Some? && Named(d.intents.value, key.value) then LeadsByBranch(g, n, Text(key.value), a.next)
          else LeadsBy(g, n, Text("fallback"), a.next))
  {
    GoodIntents(g, refs, n, d);
    IntentStep(mode, g, w, k, n, d, st, rec);
    FollowLeadsBy(g, refs, n, Text("fallback"));
    var key := w.inputs(k).intent.value;
    if key.Some? { BranchLeadsBy(g, refs, n, Text(key.value)); }
    hide Accepted, Follow, OrFallback, LeadsByBranch, LeadsBy, Execute, Named;
  }

  // ---------------------------------------------------------------- replies

  /** The agent is asked for a reply; a live run asks only within quota and while not paused. */
  predicate Asks(mode: Mode, d: Data, input: Inputs, st: Stored) {
    d.agentId.Text? && d.agentId.s != "" && input.agentReady && (mode.Live? ==> input.quotaOk && !st.paused)
  }

  /** A reply comes out: it was generated, and a live one was sent. */
  predicate RepliesWith(mode: Mode, d: Data, input: Inputs, st: Stored) {
    Asks(mode, d, input, st) && input.reply.Some? && (mode.Live? ==> input.driverLive && input.sendOk)
  }

  lemma GoodAgent(g: Graph, refs: Refs, n: Node, d: Data)
    requires Configures(g, refs, n, d) && n.kind.AgentReply?
    ensures d.agentId.Text? && d.agentId.s != ""
  {
    AcceptedLookups(g, refs);
    hide Accepted;
    assert GoodNode(n, refs);
  }

  lemma Replying(mode: Mode, g: Graph, w: World, k: nat, n: Node, st: Stored, rec: Record)
    requires g.Graph? && n.Node? && n.kind.AgentReply?
    ensures Execute(mode, g, w, k, n, st, rec)
         == ExecuteReply(mode, g, w.inputs(k), n, st, rec.(visited := rec.visited + [n]))
  {
  }

  /** What a reply stores, with `drawn` saying whether its handoff output has an edge. */
  lemma ReplyStores(mode: Mode, g: Graph, input: Inputs, n: Node, d: Data, st: Stored, rec: Record, drawn: bool)
    requires g.Graph? && n.Node? && n.data == Some(d) && d.agentId.Text? && d.agentId.s != ""
    requires var e := EdgeFrom(g.edges, n.id, Text("onHandoff")); !e.EdgeBroke? && (e.NoneLeads? <==> !drawn)
    ensures ExecuteReply(mode, g, input, n, st, rec).st == st.(
      metered := st.metered + (if Asks(mode, d, input, st) then input.cost else 0),
      log := st.log + (if mode.Live? && RepliesWith(mode, d, input, st) && input.reply.value.text
                       then [SentReply] else []),
      paused := st.paused
                || (mode.Live? && RepliesWith(mode, d, input, st) && input.reply.value.handoff && !drawn))
  {
    hide EdgeFrom, Enter;
    assert st.log + [] == st.log;
  }

  /** Asking for a reply is metered whatever comes of it; a live reply with text is sent, and nothing else is. */
  lemma ReplyMeans(mode: Mode, g: Graph, refs: Refs, w: World, k: nat, n: Node, d: Data, st: Stored, rec: Record)
    requires Configures(g, refs, n, d) && n.kind.AgentReply?
    ensures var a, input := Execute(mode, g, w, k, n, st, rec), w.inputs(k);
      var replied := RepliesWith(mode, d, input, st);
      && a.st == st.(
           metered := st.metered + (if Asks(mode, d, input, st) then input.cost else 0),
           log := st.log + (if mode.Live? && replied && input.reply.value.text then [SentReply] else []),
           paused := st.paused || (mode.Live? && replied && input.reply.value.handoff
                                   && !HasEdge(g, n, Text("onHandoff"))))
  {
    hide Accepted, Follow, LeadsBy, HasEdge, EdgeFrom, Enter, Execute, ExecuteReply, Asks, RepliesWith;
    GoodAgent(g, refs, n, d);
    ReplyEdge(g, refs, n);
    Replying(mode, g, w, k, n, st, rec);
    ReplyStores(mode, g, w.inputs(k), n, d, st, rec.(visited := rec.visited + [n]), HasEdge(g, n, Text("onHandoff")));
  }

  /** The walk goes on only on a handoff, by the output drawn for it; the outcome says what came of the reply. */
  lemma ReplyLeads(mode: Mode, g: Graph, refs: Refs, w: World, k: nat, n: Node, d: Data, st: Stored, rec: Record)
    requires Configures(g, refs, n, d) && n.kind.AgentReply? && w.inputs(k).sendOk
    ensures var a, input := Execute(mode, g, w, k, n, st, rec), w.inputs(k);
      if !RepliesWith(mode, d, input, st) then a.next == Nowhere && a.rec.outcome == AgentSkipped
      else if !input.reply.value.handoff then a.next == Nowhere && a.rec.outcome == AgentReplied
      else LeadsBy(g, n, Text("onHandoff"), a.next) && a.rec.outcome == HandedOff
  {
    GoodAgent(g, refs, n, d);
    ReplyEdge(g, refs, n);
    Replying(mode, g, w, k, n, st, rec);
    hide Accepted, Follow, LeadsBy, HasEdge, EdgeFrom, Enter, Execute;
  }

  lemma ReplyEdge(g: Graph, refs: Refs, n: Node)
    requires Accepted(g, refs) && n.Node?
    ensures g.Graph? && var e := EdgeFrom(g.edges, n.id, Text("onHandoff"));
      && !e.EdgeBroke? && (e.NoneLeads? <==> !HasEdge(g, n, Text("onHandoff")))
      && LeadsBy(g, n, Text("onHandoff"), Enter(g, e))
  {
    assert g.Graph?;
    FollowLeadsBy(g, refs, n, Text("onHandoff"));
    AcceptedLookups(g, refs);
    FollowFinds(g, n, Text("onHandoff"));
    hide Accepted, Validate, UniqueMatches;
    var h := Text("onHandoff");
    if EdgeFrom(g.edges, n.id, h).NoneLeads? {
      assert Follow(g, n, h) == Nowhere;
    }
  }
}
