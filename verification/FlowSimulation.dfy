/**
 * The simulator against the live engine: it stores nothing but metered
 * tokens, and it visits the same nodes except where a flow reads back a tag
 * it applied itself.
 */
module FlowSimulation {
  import opened Prelude
  import opened FlowGraph
  import opened FlowWellFormed
  import opened FlowEngine
  import opened FlowWalks

  // ---------------------------------------------------------------- a dry run stores nothing

  lemma DryStepKeepsStored(g: Graph, w: World, k: nat, n: Node, st: Stored, rec: Record)
    requires g.Graph? && n.Node?
    ensures var st' := Execute(Dry, g, w, k, n, st, rec).st;
      st' == st.(metered := st'.metered) && st.metered <= st'.metered
  {
  }

  lemma {:induction false} DryWalkKeepsStored(g: Graph, w: World, next: Lookup, k: nat, st: Stored, rec: Record)
    requires g.Graph? && InGraph(g, next) && k <= MAX_STEPS
    ensures var st' := Walk(Dry, g, w, next, k, st, rec).st;
      st' == st.(metered := st'.metered) && st.metered <= st'.metered
    decreases MAX_STEPS - k
  {
    hide Execute;
    if next.Found? && k < MAX_STEPS {
      DryStepKeepsStored(g, w, k, next.node, st, rec);
      var a := Execute(Dry, g, w, k, next.node, st, rec);
      DryWalkKeepsStored(g, w, a.next, k + 1, a.st, a.rec);
    }
  }

  /** On any graph whatsoever, a simulation changes no stored state but the token meter. */
  lemma SimulationStoresNothing(g: Graph, w: World, st: Stored)
    requires g.Graph?
    ensures var st' := Simulated(g, w, st).0;
      st' == st.(metered := st'.metered) && st.metered <= st'.metered
  {
    hide Execute;
    var t := FindTrigger(g.nodes);
    if t.Found? { DryWalkKeepsStored(g, w, Follow(g, t.node, Text("out")), 0, st, FreshRecord); }
  }

  // ---------------------------------------------------------------- one step in both modes

  /** The gates only the live reply has: quota, driver and send. */
  ghost predicate RepliesPass(w: World) {
    forall k: nat :: w.inputs(k).quotaOk && w.inputs(k).driverLive && w.inputs(k).sendOk
  }

  /** Both states describe one conversation, which the live one may have tagged further. */
  predicate SameConversation(live: Stored, dry: Stored) {
    && !live.paused && !dry.paused
    && live.tags.Some? == dry.tags.Some?
    && (dry.tags.Some? ==> dry.tags.value <= live.tags.value)
  }

  /** The tag decision n reads differently in the two states. */
  predicate ReadsApart(n: Node, input: Inputs, live: Stored, dry: Stored)
    requires n.Node?
  {
    n.kind.TagDecision? && TagSeen(n, input, live) && !TagSeen(n, input, dry)
  }

  /** An effect the dry run shows without reading the data whose lack ends the live run. */
  predicate EndsLiveOnly(n: Node)
    requires n.Node?
  {
    n.data.None? && (n.kind.Webhook? || n.kind.TagConversation? || n.kind.AssignTeammate?)
  }

  function NodeOf(r: Lookup): Option<Node> {
    if r.Found? then Some(r.node) else None
  }

  /** The tag node n applies when it is executed live at step k. */
  function Applies(w: World, k: nat, n: Node): set<string>
    requires n.Node?
  {
    if n.kind.TagConversation? && DataOf(n).tagId.Text? && w.inputs(k).effectOk then {DataOf(n).tagId.s} else {}
  }

  /** What both modes leave behind after the same node, started from the same conversation. */
  predicate StepsAgree(g: Graph, w: World, k: nat, n: Node, live: Stored, dry: Stored, a: After, b: After)
    requires g.Graph? && n.Node? && live.tags.Some? == dry.tags.Some?
  {
    && a.rec.visited == b.rec.visited
    && (a.next.Found? || b.next.Found? ==> !a.st.paused && !b.st.paused)
    && (if ReadsApart(n, w.inputs(k), live, dry)
        then NodeOf(a.next) == NodeOf(Follow(g, n, Text("yes"))) && NodeOf(b.next) == NodeOf(Follow(g, n, Text("no")))
        else if EndsLiveOnly(n) then a.next.Broke? && NodeOf(b.next) == NodeOf(Follow(g, n, Text("out")))
        else NodeOf(a.next) == NodeOf(b.next))
    && b.st.tags == dry.tags
    && a.st.tags.Some? == live.tags.Some?
    && (live.tags.Some? ==> a.st.tags.value == live.tags.value + Applies(w, k, n))
  }

  lemma DecisionAgrees(g: Graph, w: World, k: nat, n: Node, live: Stored, dry: Stored, lrec: Record, drec: Record)
    requires g.Graph? && n.Node? && IsDecision(n.kind) && SameConversation(live, dry) && lrec.visited == drec.visited
    ensures StepsAgree(g, w, k, n, live, dry, ExecuteDecision(Live, g, w, w.inputs(k), n, live, lrec),
                                              ExecuteDecision(Dry, g, w, w.inputs(k), n, dry, drec))
  {
    assert live.tags.Some? ==> live.tags.value + {} == live.tags.value;
  }

  lemma ReplyAgrees(g: Graph, w: World, k: nat, n: Node, live: Stored, dry: Stored, lrec: Record, drec: Record)
    requires g.Graph? && n.Node? && n.kind.AgentReply? && RepliesPass(w)
    requires SameConversation(live, dry) && lrec.visited == drec.visited
    ensures StepsAgree(g, w, k, n, live, dry, ExecuteReply(Live, g, w.inputs(k), n, live, lrec),
                                              ExecuteReply(Dry, g, w.inputs(k), n, dry, drec))
  {
    assert live.tags.Some? ==> live.tags.value + {} == live.tags.value;
  }

  lemma HandoffAgrees(g: Graph, w: World, k: nat, n: Node, live: Stored, dry: Stored, lrec: Record, drec: Record)
    requires g.Graph? && n.Node? && SameConversation(live, dry) && lrec.visited == drec.visited
    ensures IsTerminal(n.kind) ==>
      StepsAgree(g, w, k, n, live, dry, ExecuteAssign(Live, w.inputs(k), n, live, lrec),
                                        ExecuteAssign(Dry, w.inputs(k), n, dry, drec))
    ensures n.kind.AssignContactAgent? ==>
      StepsAgree(g, w, k, n, live, dry, ExecuteContactAgent(Live, g, w.inputs(k), n, live, lrec),
                                        ExecuteContactAgent(Dry, g, w.inputs(k), n, dry, drec))
  {
    assert live.tags.Some? ==> live.tags.value + {} == live.tags.value;
  }

  lemma ActionAgrees(g: Graph, w: World, k: nat, n: Node, live: Stored, dry: Stored, lrec: Record, drec: Record)
    requires g.Graph? && n.Node? && !IsDecision(n.kind) && SameConversation(live, dry) && lrec.visited == drec.visited
    ensures StepsAgree(g, w, k, n, live, dry, ExecuteAction(Live, g, w.inputs(k), n, live, lrec),
                                              ExecuteAction(Dry, g, w.inputs(k), n, dry, drec))
  {
    assert live.tags.Some? ==> live.tags.value + {} == live.tags.value;
  }

  lemma StepAgrees(g: Graph, w: World, k: nat, n: Node, live: Stored, dry: Stored, lrec: Record, drec: Record)
    requires g.Graph? && n.Node? && RepliesPass(w) && SameConversation(live, dry) && lrec.visited == drec.visited
    ensures var a, b := Execute(Live, g, w, k, n, live, lrec), Execute(Dry, g, w, k, n, dry, drec);
      StepsAgree(g, w, k, n, live, dry, a, b) && a.rec.visited == lrec.visited + [n]
  {
    hide ExecuteDecision, ExecuteReply, ExecuteAssign, ExecuteContactAgent, ExecuteAction, StepsAgree;
    ExecuteVisits(Live, g, w, k, n, live, lrec);
    var le, de := lrec.(visited := lrec.visited + [n]), drec.(visited := drec.visited + [n]);
    if IsDecision(n.kind) { DecisionAgrees(g, w, k, n, live, dry, le, de); }
    else if n.kind.AgentReply? { ReplyAgrees(g, w, k, n, live, dry, le, de); }
    else if IsTerminal(n.kind) || n.kind.AssignContactAgent? { HandoffAgrees(g, w, k, n, live, dry, le, de); }
    else { ActionAgrees(g, w, k, n, live, dry, le, de); }
  }

  // ---------------------------------------------------------------- the exact condition

  /** The tags the first `j` nodes of a walk apply live. */
  function AppliedBy(w: World, v: seq<Node>, j: nat): set<string>
    requires j <= |v|
  {
    if j == 0 then {}
    else AppliedBy(w, v, j - 1) + if v[j - 1].Node? then Applies(w, j - 1, v[j - 1]) else {}
  }

  /** Whether a decision's two outputs lead to different nodes. */
  predicate Splits(g: Graph, n: Node)
    requires g.Graph? && n.Node?
  {
    NodeOf(Follow(g, n, Text("yes"))) != NodeOf(Follow(g, n, Text("no")))
  }

  /**
   * At step j the walk decides on a tag that is not on the stored
   * conversation but was applied by an earlier node of the same walk, and the
   * decision matters.
   */
  predicate ReadsBackItsTag(g: Graph, w: World, st: Stored, v: seq<Node>, j: nat)
    requires g.Graph? && j < |v|
  {
    && v[j].Node? && v[j].kind.TagDecision? && DataOf(v[j]).tagId.Text? && DataOf(v[j]).tagId.s != ""
    && w.inputs(j).tagLookupOk && st.tags.Some?
    && DataOf(v[j]).tagId.s !in st.tags.value && DataOf(v[j]).tagId.s in AppliedBy(w, v, j)
    && Splits(g, v[j])
  }

  ghost predicate NeverReadsBack(g: Graph, w: World, st: Stored, v: seq<Node>, from: nat)
    requires g.Graph?
  {
    forall j: nat | from <= j < |v| && j < MAX_STEPS - 1 :: !ReadsBackItsTag(g, w, st, v, j)
  }

  /** Step j shows an effect the live run cannot read the data of, and goes on. */
  predicate OutlivesTheRun(g: Graph, v: seq<Node>, j: nat)
    requires g.Graph? && j < |v|
  {
    v[j].Node? && EndsLiveOnly(v[j]) && NodeOf(Follow(g, v[j], Text("out"))) != None
  }

  ghost predicate NeverOutlives(g: Graph, v: seq<Node>, from: nat)
    requires g.Graph?
  {
    forall j: nat | from <= j < |v| && j < MAX_STEPS - 1 :: !OutlivesTheRun(g, v, j)
  }

  lemma {:induction false} AppliedByPrefix(w: World, v: seq<Node>, u: seq<Node>, j: nat)
    requires j <= |v| && v <= u
    ensures AppliedBy(w, v, j) == AppliedBy(w, u, j)
  {
    if j > 0 { AppliedByPrefix(w, v, u, j - 1); }
  }

  lemma WalkStep(mode: Mode, g: Graph, w: World, next: Lookup, k: nat, st: Stored, rec: Record)
    requires g.Graph? && InGraph(g, next) && k <= MAX_STEPS && |rec.visited| == k
    ensures var v := Walk(mode, g, w, next, k, st, rec).rec.visited;
      rec.visited <= v && (if next.Found? && k < MAX_STEPS then |v| > k && v[k] == next.node else v == rec.visited)
  {
    hide Execute;
    WalkVisits(mode, g, w, next, k, st, rec);
    if next.Found? && k < MAX_STEPS {
      ExecuteVisits(mode, g, w, k, next.node, st, rec);
      var a := Execute(mode, g, w, k, next.node, st, rec);
      WalkVisits(mode, g, w, a.next, k + 1, a.st, a.rec);
    }
  }

  /** The states of the two walks after k common steps. */
  ghost predicate InStep(w: World, st: Stored, v: seq<Node>, live: Stored, dry: Stored) {
    && SameConversation(live, dry) && dry.tags == st.tags
    && (st.tags.Some? ==> live.tags.value == st.tags.value + AppliedBy(w, v, |v|))
  }

  /** One common step keeps the walks in step, and parts them exactly when a tag is read apart and matters. */
  lemma StepInStep(g: Graph, w: World, st: Stored, n: Node, live: Stored, dry: Stored, lrec: Record, drec: Record)
    requires g.Graph? && n.Node? && RepliesPass(w)
    requires lrec.visited == drec.visited && InStep(w, st, lrec.visited, live, dry)
    ensures var k := |lrec.visited|;
      var a, b := Execute(Live, g, w, k, n, live, lrec), Execute(Dry, g, w, k, n, dry, drec);
      && a.rec.visited == b.rec.visited == lrec.visited + [n]
      && (NodeOf(a.next) == NodeOf(b.next) <==>
            !(ReadsApart(n, w.inputs(k), live, dry) && Splits(g, n))
            && !(EndsLiveOnly(n) && NodeOf(Follow(g, n, Text("out"))) != None))
      && (a.next.Found? || b.next.Found? ==> InStep(w, st, a.rec.visited, a.st, b.st))
  {
    var k := |lrec.visited|;
    assert ReadsApart(n, w.inputs(k), live, dry) ==> !EndsLiveOnly(n);
    hide Execute, ReadsApart, EndsLiveOnly, Applies;
    StepAgrees(g, w, k, n, live, dry, lrec, drec);
    AppliedByPrefix(w, lrec.visited, lrec.visited + [n], k);
  }

  /** Reading a tag apart, where it matters, is reading back a tag of the walk's own. */
  lemma ReadsApartIsReadBack(g: Graph, w: World, st: Stored, v: seq<Node>, dv: seq<Node>, live: Stored, dry: Stored)
    requires g.Graph? && v <= dv && |v| < |dv| && dv[|v|].Node? && InStep(w, st, v, live, dry)
    ensures ReadsBackItsTag(g, w, st, dv, |v|)
      <==> ReadsApart(dv[|v|], w.inputs(|v|), live, dry) && Splits(g, dv[|v|])
  {
    AppliedByPrefix(w, v, dv, |v|);
  }

  lemma {:induction false} WalksAgreeFrom(
      g: Graph, w: World, st: Stored, lnext: Lookup, dnext: Lookup, k: nat,
      live: Stored, dry: Stored, lrec: Record, drec: Record)
    requires g.Graph? && RepliesPass(w) && InGraph(g, lnext) && InGraph(g, dnext) && NodeOf(lnext) == NodeOf(dnext)
    requires k <= MAX_STEPS && |lrec.visited| == k && lrec.visited == drec.visited
    requires lnext.Found? ==> InStep(w, st, lrec.visited, live, dry)
    ensures var lv := Walk(Live, g, w, lnext, k, live, lrec).rec.visited;
            var dv := Walk(Dry, g, w, dnext, k, dry, drec).rec.visited;
      lv == dv <==> NeverReadsBack(g, w, st, dv, k) && NeverOutlives(g, dv, k)
    decreases MAX_STEPS - k
  {
    hide Execute, InStep, ReadsApart, Splits, ReadsBackItsTag, RepliesPass;
    WalkStep(Live, g, w, lnext, k, live, lrec);
    WalkStep(Dry, g, w, dnext, k, dry, drec);
    if lnext.Found? && k < MAX_STEPS {
      var n := lnext.node;
      var dv := Walk(Dry, g, w, dnext, k, dry, drec).rec.visited;
      var a, b := Execute(Live, g, w, k, n, live, lrec), Execute(Dry, g, w, k, n, dry, drec);
      StepInStep(g, w, st, n, live, dry, lrec, drec);
      ReadsApartIsReadBack(g, w, st, lrec.visited, dv, live, dry);
      WalkStep(Live, g, w, a.next, k + 1, a.st, a.rec);
      WalkStep(Dry, g, w, b.next, k + 1, b.st, b.rec);
      if NodeOf(a.next) == NodeOf(b.next) {
        WalksAgreeFrom(g, w, st, a.next, b.next, k + 1, a.st, b.st, a.rec, b.rec);
        assert !ReadsBackItsTag(g, w, st, dv, k) && !OutlivesTheRun(g, dv, k);
      } else if k + 1 < MAX_STEPS {
        assert ReadsBackItsTag(g, w, st, dv, k) || OutlivesTheRun(g, dv, k);
        assert !(NeverReadsBack(g, w, st, dv, k) && NeverOutlives(g, dv, k));
      }
    }
  }

  /**
   * With the same outside answers and the live reply gates passing, on any
   * graph and any conversation still with the flow, the simulator visits the
   * nodes the live engine visits if and only if its walk never decides on a
   * tag the same walk applied, and never goes on past an effect node without
   * data. (At the twentieth node neither shows any longer.)
   */
  lemma SimulatorRoutesLikeTheEngine(g: Graph, w: World, st: Stored)
    requires g.Graph? && RepliesPass(w) && !st.handedOff && !st.paused
    ensures var v := Simulated(g, w, st).1.visited;
      Ran(g, w, st).1.visited == v <==> NeverReadsBack(g, w, st, v, 0) && NeverOutlives(g, v, 0)
  {
    hide Execute;
    var t := FindTrigger(g.nodes);
    if t.Found? {
      var next := Follow(g, t.node, Text("out"));
      assert st.tags.Some? ==> st.tags.value + {} == st.tags.value;
      WalksAgreeFrom(g, w, st, next, next, 0, st, st, FreshRecord, FreshRecord);
    }
  }

  lemma AcceptedNeverOutlives(g: Graph, refs: Refs, w: World, st: Stored)
    requires Accepted(g, refs)
    ensures NeverOutlives(g, Simulated(g, w, st).1.visited, 0)
  {
    hide Validate, Execute, UniqueMatches, Follow;
    AcceptedLookups(g, refs);
    var t := TriggerFound(g);
    WalkStaysInGraph(Dry, g, w, Follow(g, t, Text("out")), 0, st, FreshRecord);
    forall n | n in g.nodes && n.Node? ensures !EndsLiveOnly(n) {
      GoodNodeHasData(n, refs);
    }
  }

  /** On accepted graphs reading back a tag is the only way to part. */
  lemma AcceptedGraphsRouteAlike(g: Graph, refs: Refs, w: World, st: Stored)
    requires Accepted(g, refs) && RepliesPass(w) && !st.handedOff && !st.paused
    ensures Ran(g, w, st).1.visited == Simulated(g, w, st).1.visited
            <==> NeverReadsBack(g, w, st, Simulated(g, w, st).1.visited, 0)
  {
    hide Execute;
    assert g.Graph?;
    hide Validate;
    AcceptedNeverOutlives(g, refs, w, st);
    SimulatorRoutesLikeTheEngine(g, w, st);
  }

  /** No decision of the walk is on a tag an earlier node of it sets. */
  predicate DecidesBeforeTagging(v: seq<Node>) {
    forall i, j | 0 <= i < j < |v| && v[i].Node? && v[j].Node? && v[i].kind.TagConversation? && v[j].kind.TagDecision?
      :: DataOf(v[i]).tagId != DataOf(v[j]).tagId
  }

  lemma {:induction false} AppliedByComesFrom(w: World, v: seq<Node>, j: nat, tag: string) returns (i: nat)
    requires j <= |v| && tag in AppliedBy(w, v, j)
    ensures i < j && v[i].Node? && v[i].kind.TagConversation? && DataOf(v[i]).tagId == Text(tag)
  {
    if tag in AppliedBy(w, v, j - 1) {
      i := AppliedByComesFrom(w, v, j - 1, tag);
    } else {
      i := j - 1;
    }
  }

  /** What an editor can see on the simulated path is enough for both walks to agree. */
  lemma SimulatorAgreesWhenDecisionsComeFirst(g: Graph, w: World, st: Stored)
    requires g.Graph? && RepliesPass(w) && !st.handedOff && !st.paused
    requires DecidesBeforeTagging(Simulated(g, w, st).1.visited)
    requires NeverOutlives(g, Simulated(g, w, st).1.visited, 0)
    ensures Ran(g, w, st).1.visited == Simulated(g, w, st).1.visited
  {
    hide Execute;
    var v := Simulated(g, w, st).1.visited;
    forall j: nat | j < |v| && j < MAX_STEPS - 1 ensures !ReadsBackItsTag(g, w, st, v, j) {
      if ReadsBackItsTag(g, w, st, v, j) {
        var i := AppliedByComesFrom(w, v, j, DataOf(v[j]).tagId.s);
        assert false;
      }
    }
    SimulatorRoutesLikeTheEngine(g, w, st);
  }
}
