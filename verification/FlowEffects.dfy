/**
 * What hand-overs and effect nodes of an accepted graph do to the stored state,
 * where they lead, and what a whole run leaves on record.
 */
module FlowEffects {
  import opened Prelude
  import opened FlowGraph
  import opened FlowWellFormed
  import opened FlowEngine
  import opened FlowWalks
  import opened FlowMeaning

  // ---------------------------------------------------------------- hand-overs

  lemma {:induction false} TextsInMeans(fs: seq<Field>, staff: set<string>)
    ensures forall p :: p in TextsIn(fs, staff) <==> Text(p) in fs && p in staff
  {
    if fs != [] {
      assert fs == [fs[0]] + fs[1..];
      TextsInMeans(fs[1..], staff);
    }
  }

  /** The candidates an assign node lists. */
  function Listed(n: Node, d: Data): seq<Field>
    requires n.Node?
  {
    if n.kind.AssignHuman? then [d.humanAgentId] else if d.humanAgentIds.Some? then d.humanAgentIds.value else []
  }

  lemma GoodAssign(g: Graph, refs: Refs, n: Node, d: Data)
    requires Configures(g, refs, n, d) && IsTerminal(n.kind)
    ensures Listed(n, d) != [] && (n.kind.AssignHuman? ==> |Listed(n, d)| == 1)
    ensures forall f | f in Listed(n, d) :: f.Text? && f.s in refs.humanAgentIds
    ensures d.farewellText.Absent? || d.farewellText.Text?
  {
    AcceptedLookups(g, refs);
    hide Accepted;
    assert GoodNode(n, refs);
  }

  function CounterBefore(n: Node, st: Stored): nat
    requires n.Node?
  {
    if n.id in st.counters then st.counters[n.id] else 0
  }

  /** A live assignment's candidates: everyone for a group, else the next in rotation. */
  function Due(n: Node, d: Data, st: Stored): seq<Field>
    requires n.Node? && Listed(n, d) != []
  {
    var list := Listed(n, d);
    if n.kind.AssignGroup? then list else [list[CounterBefore(n, st) % |list|]]
  }

  /** Those of the candidates who are still on the staff take over. */
  ghost predicate HandedOver(due: seq<Field>, staff: set<string>, before: Stored, after: Stored) {
    && after.handedOff
    && exists people :: after.log == before.log + [HandedTo(people)]
                        && forall p :: p in people <==> Text(p) in due && p in staff
  }

  lemma AssignStep(g: Graph, w: World, k: nat, n: Node, d: Data, st: Stored, rec: Record)
    requires g.Graph? && n.Node? && IsTerminal(n.kind) && n.data == Some(d) && w.inputs(k).handoffOk
    requires Listed(n, d) != [] && (n.kind.AssignHuman? ==> |Listed(n, d)| == 1)
    requires (forall f | f in Listed(n, d) :: f.Text?) && (d.farewellText.Absent? || d.farewellText.Text?)
    ensures var a := Execute(Live, g, w, k, n, st, rec);
      var people := TextsIn(Due(n, d, st), w.inputs(k).staff);
      && a.next == Nowhere
      && a.st.counters == MovedCounters(n, d, st)
      && a.st == (if people == [] then st.(counters := a.st.counters)
                  else st.(counters := a.st.counters, handedOff := true, log := st.log + [HandedTo(people)]))
      && a.rec.outcome == if people == [] then rec.outcome else HandedOff
  {
    AssignsOnly(Live, g, w, k, n, st, rec);
    PickIsDue(n, d, st);
    hide Execute, Pick, TextsIn;
    forall f | f in Due(n, d, st) ensures f.Text? { assert f in Listed(n, d); }
    hide Due, MovedCounters;
  }

  /** Only a rotation over several candidates moves its counter, by one. */
  function MovedCounters(n: Node, d: Data, st: Stored): map<Option<string>, nat>
    requires n.Node?
  {
    if n.kind.RoundRobin? && |Listed(n, d)| > 1 then st.counters[n.id := CounterBefore(n, st) + 1] else st.counters
  }

  /**
   * A live assign node hands the conversation to the due candidates still on
   * the staff, or to nobody when there is none; only a rotation over several
   * moves its counter, by one.
   */
  lemma AssignMeans(g: Graph, refs: Refs, w: World, k: nat, n: Node, d: Data, st: Stored, rec: Record)
    requires Configures(g, refs, n, d) && IsTerminal(n.kind) && w.inputs(k).handoffOk
    ensures Listed(n, d) != []
    ensures var a, staff := Execute(Live, g, w, k, n, st, rec), w.inputs(k).staff;
      && a.next == Nowhere
      && a.st.counters == (if n.kind.RoundRobin? && |Listed(n, d)| > 1
                           then st.counters[n.id := CounterBefore(n, st) + 1] else st.counters)
      && (if exists f :: f in Due(n, d, st) && f.Text? && f.s in staff
          then HandedOver(Due(n, d, st), staff, st, a.st) && a.rec.outcome == HandedOff
          else a.st == st.(counters := a.st.counters) && a.rec.outcome == rec.outcome)
      && a.st == st.(counters := a.st.counters, handedOff := a.st.handedOff, log := a.st.log)
  {
    hide Accepted, Execute;
    GoodAssign(g, refs, n, d);
    AssignStep(g, w, k, n, d, st, rec);
    var due, staff := Due(n, d, st), w.inputs(k).staff;
    PeopleDue(due, staff);
    hide TextsIn, Due, Listed;
    if TextsIn(due, staff) != [] {
      var people := TextsIn(due, staff);
      assert Execute(Live, g, w, k, n, st, rec).st.log == st.log + [HandedTo(people)];
    }
  }

  lemma PeopleDue(due: seq<Field>, staff: set<string>)
    ensures forall p :: p in TextsIn(due, staff) <==> Text(p) in due && p in staff
    ensures TextsIn(due, staff) != [] <==> exists f :: f in due && f.Text? && f.s in staff
  {
    TextsInMeans(due, staff);
    var people := TextsIn(due, staff);
    if people != [] { assert people[0] in people && Text(people[0]) in due; }
    if f :| f in due && f.Text? && f.s in staff { assert f.s in people; }
  }

  lemma AssignsOnly(mode: Mode, g: Graph, w: World, k: nat, n: Node, st: Stored, rec: Record)
    requires g.Graph? && n.Node? && IsTerminal(n.kind)
    ensures Execute(mode, g, w, k, n, st, rec)
         == ExecuteAssign(mode, w.inputs(k), n, st, rec.(visited := rec.visited + [n]))
  {
  }

  lemma PickIsDue(n: Node, d: Data, st: Stored)
    requires n.Node? && n.data == Some(d) && IsTerminal(n.kind) && Listed(n, d) != []
    requires n.kind.AssignHuman? ==> |Listed(n, d)| == 1
    ensures CandidatesOf(n) == Listed(n, d)
    ensures Pick(n.kind.AssignGroup?, n, Listed(n, d), st.counters) == (Due(n, d, st), MovedCounters(n, d, st))
  {
    var list := Listed(n, d);
    if |list| == 1 {
      assert CounterBefore(n, st) % 1 == 0;
      assert Due(n, d, st) == list;
    }
  }

  lemma FailedAssignStep(g: Graph, w: World, k: nat, n: Node, d: Data, st: Stored, rec: Record)
    requires g.Graph? && n.Node? && IsTerminal(n.kind) && n.data == Some(d) && !w.inputs(k).handoffOk
    requires Listed(n, d) != [] && (n.kind.AssignHuman? ==> |Listed(n, d)| == 1)
    requires forall f | f in Listed(n, d) :: f.Text?
    ensures var a := Execute(Live, g, w, k, n, st, rec);
      && a.st == st.(counters := MovedCounters(n, d, st)) && a.rec.outcome == rec.outcome
      && a.next == if TextsIn(Due(n, d, st), w.inputs(k).staff) != [] then Broke else Nowhere
  {
    AssignsOnly(Live, g, w, k, n, st, rec);
    PickIsDue(n, d, st);
    hide Execute, Pick, TextsIn;
    forall f | f in Due(n, d, st) ensures f.Text? { assert f in Listed(n, d); }
    hide Due, MovedCounters;
  }

  /** A live hand-over that fails ends the walk in an exception, with the counter moved and nothing else. */
  lemma FailedAssignMeans(g: Graph, refs: Refs, w: World, k: nat, n: Node, d: Data, st: Stored, rec: Record)
    requires Configures(g, refs, n, d) && IsTerminal(n.kind) && !w.inputs(k).handoffOk
    ensures Listed(n, d) != []
    ensures var a, staff := Execute(Live, g, w, k, n, st, rec), w.inputs(k).staff;
      && a.st == st.(counters := MovedCounters(n, d, st)) && a.rec.outcome == rec.outcome
      && a.next == if exists f :: f in Due(n, d, st) && f.Text? && f.s in staff then Broke else Nowhere
  {
    hide Accepted, Execute;
    GoodAssign(g, refs, n, d);
    FailedAssignStep(g, w, k, n, d, st, rec);
    PeopleDue(Due(n, d, st), w.inputs(k).staff);
    hide TextsIn, Due, Listed, MovedCounters;
  }

  /** A question that fails ends the walk in an exception and changes nothing. */
  lemma FailedQuestionMeans(mode: Mode, g: Graph, w: World, k: nat, n: Node, st: Stored, rec: Record)
    requires g.Graph? && n.Node?
    requires (n.kind.AiDecision? && w.inputs(k).decision.Failed?) || (n.kind.Intent? && w.inputs(k).intent.Failed?)
    ensures var a := Execute(mode, g, w, k, n, st, rec); a.next.Broke? && a.st == st
  {
    Decides(mode, g, w, k, n, st, rec);
    hide Execute, Follow;
  }

  /** A live reply that cannot be sent ends the walk in an exception, its cost metered and nothing else. */
  lemma FailedReplyMeans(g: Graph, refs: Refs, w: World, k: nat, n: Node, d: Data, st: Stored, rec: Record)
    requires Configures(g, refs, n, d) && n.kind.AgentReply? && !w.inputs(k).sendOk
    requires Asks(Live, d, w.inputs(k), st) && w.inputs(k).reply.Some? && w.inputs(k).driverLive
    ensures var a := Execute(Live, g, w, k, n, st, rec);
      a.next.Broke? && a.st == st.(metered := st.metered + w.inputs(k).cost)
  {
    hide Accepted, Execute, EdgeFrom, Enter, LeadsBy, HasEdge;
    Replying(Live, g, w, k, n, st, rec);
    ReplyEdge(g, refs, n);
  }

  /** A simulated assignment says it would hand over and changes nothing. */
  lemma DryAssignMeans(g: Graph, refs: Refs, w: World, k: nat, n: Node, d: Data, st: Stored, rec: Record)
    requires Configures(g, refs, n, d) && IsTerminal(n.kind)
    ensures var a := Execute(Dry, g, w, k, n, st, rec);
      a.next == Nowhere && a.st == st && a.rec.outcome == HandedOff
  {
    GoodAssign(g, refs, n, d);
    AssignsOnly(Dry, g, w, k, n, st, rec);
    hide Execute;
  }

  lemma ContactStep(mode: Mode, g: Graph, w: World, k: nat, n: Node, d: Data, st: Stored, rec: Record)
    requires g.Graph? && n.Node? && n.kind.AssignContactAgent? && n.data == Some(d) && w.inputs(k).contact.Said?
    requires d.farewellText.Absent? || d.farewellText.Text?
    ensures var a, contact := Execute(mode, g, w, k, n, st, rec), w.inputs(k).contact.value;
      if contact.None? || contact.value.None? then a.next == Follow(g, n, Text("fallback")) && a.st == st
      else if mode.Live? && !w.inputs(k).handoffOk then a.next == Nowhere && a.st == st && a.rec.outcome == rec.outcome
      else
        && a.next == Nowhere && a.rec.outcome == HandedOff
        && a.st == if mode.Dry? then st else st.(handedOff := true, log := st.log + [HandedTo([contact.value.value])])
  {
    hide Follow, ExecuteDecision, ExecuteReply, ExecuteAction, ExecuteAssign;
  }

  /**
   * A contact-agent node hands a sender saved with an agent to that agent, live
   * or in name only when simulated, and sends anyone else on by "fallback". A
   * hand-over that fails ends the walk without one.
   */
  lemma ContactAgentMeans(mode: Mode, g: Graph, refs: Refs, w: World, k: nat, n: Node, d: Data, st: Stored, rec: Record)
    requires Configures(g, refs, n, d) && n.kind.AssignContactAgent? && w.inputs(k).contact.Said?
    ensures var a, contact := Execute(mode, g, w, k, n, st, rec), w.inputs(k).contact.value;
      if contact.None? || contact.value.None? then LeadsBy(g, n, Text("fallback"), a.next) && a.st == st
      else if mode.Live? && !w.inputs(k).handoffOk then a.next == Nowhere && a.st == st && a.rec.outcome == rec.outcome
      else
        && a.next == Nowhere && a.rec.outcome == HandedOff
        && a.st == if mode.Dry? then st else st.(handedOff := true, log := st.log + [HandedTo([contact.value.value])])
  {
    hide Accepted, Execute, Follow, LeadsBy;
    GoodFarewell(g, refs, n, d);
    ContactStep(mode, g, w, k, n, d, st, rec);
    FollowLeadsBy(g, refs, n, Text("fallback"));
  }

  lemma GoodFarewell(g: Graph, refs: Refs, n: Node, d: Data)
    requires Configures(g, refs, n, d) && n.kind.AssignContactAgent?
    ensures d.farewellText.Absent? || d.farewellText.Text?
  {
    AcceptedLookups(g, refs);
    hide Accepted;
    assert GoodNode(n, refs);
  }

  // ---------------------------------------------------------------- effects

  /** The kinds whose one effect is followed by the "out" output. */
  predicate IsEffect(k: Kind) {
    k.Webhook? || k.TagConversation? || k.AssignTeammate? || k.SaveContact? || k.SendMedia?
  }

  /** The state after the node's effect took place. */
  function Affected(n: Node, d: Data, st: Stored): Stored
    requires n.Node? && IsEffect(n.kind)
  {
    if n.kind.Webhook? then st.(log := st.log + [CalledWebhook(d.webhookId)])
    else if n.kind.AssignTeammate? then st.(log := st.log + [Assigned(d.userId)])
    else if n.kind.SaveContact? then st.(log := st.log + [SavedContact])
    else if n.kind.SendMedia? then st.(log := st.log + [SentFile(d.mediaItemId)])
    else if d.tagId.Text? && st.tags.Some?
    then st.(tags := Some(st.tags.value + {d.tagId.s}), log := st.log + [Tagged(d.tagId.s)])
    else st
  }

  lemma GoodEffect(g: Graph, refs: Refs, n: Node)
    requires Accepted(g, refs) && g.Graph? && n in g.nodes && n.Node? && IsEffect(n.kind)
    ensures n.data.Some? || n.kind.SaveContact?
    ensures n.kind.SendMedia? ==> n.data.value.caption.Absent? || n.data.value.caption.Text?
  {
    AcceptedLookups(g, refs);
    hide Accepted;
    assert GoodNode(n, refs);
  }

  /**
   * An effect node always leads by "out". Live, its effect takes place when it
   * goes through, and for a file also when it loads and the quota allows;
   * simulated, never.
   */
  lemma EffectMeans(mode: Mode, g: Graph, refs: Refs, w: World, k: nat, n: Node, st: Stored, rec: Record)
    requires Accepted(g, refs) && g.Graph? && n in g.nodes && n.Node? && IsEffect(n.kind)
    ensures var a, input := Execute(mode, g, w, k, n, st, rec), w.inputs(k);
      && LeadsBy(g, n, Text("out"), a.next)
      && a.st == (if mode.Live? && input.effectOk && (n.kind.SendMedia? ==> input.fileOk && input.quotaOk)
                  then Affected(n, DataOf(n), st) else st)
  {
    hide Accepted, Execute, Follow, LeadsBy;
    GoodEffect(g, refs, n);
    EffectStep(mode, g, w, k, n, st, rec);
    FollowLeadsBy(g, refs, n, Text("out"));
  }

  lemma EffectStep(mode: Mode, g: Graph, w: World, k: nat, n: Node, st: Stored, rec: Record)
    requires g.Graph? && n.Node? && IsEffect(n.kind) && (n.data.Some? || n.kind.SaveContact?)
    requires n.kind.SendMedia? ==> n.data.value.caption.Absent? || n.data.value.caption.Text?
    ensures var a, input := Execute(mode, g, w, k, n, st, rec), w.inputs(k);
      && a.next == Follow(g, n, Text("out"))
      && a.st == (if mode.Live? && input.effectOk && (n.kind.SendMedia? ==> input.fileOk && input.quotaOk)
                  then Affected(n, DataOf(n), st) else st)
  {
    hide Follow, ExecuteDecision, ExecuteReply, ExecuteContactAgent, ExecuteAssign;
  }

  // ---------------------------------------------------------------- the record of a run

  /** A step is recorded unless it threw before its note, or is a trigger or of no known type, which end the walk. */
  lemma StepIsNoted(mode: Mode, g: Graph, w: World, k: nat, n: Node, st: Stored, rec: Record)
    requires g.Graph? && n.Node?
    ensures var a := Execute(mode, g, w, k, n, st, rec);
      || a.rec.steps == rec.steps + [n]
      || (a.rec.steps == rec.steps
          && (a.next.Broke? || (a.next.Nowhere? && (n.kind.Trigger? || n.kind.UnknownKind?))))
  {
    hide Follow, EdgeFrom, Pick, TextsIn, CandidatesOf, Handoff, Guarded, TagConversationState;
    hide Hits, FirstHit, KnowsKey, TagSeen, OrFallback;
  }

  /** What the code records of the executed nodes: all, or all but a last one that threw or is no step. */
  ghost predicate Recorded(rec: Record, threw: bool) {
    || rec.steps == rec.visited
    || (&& rec.visited != [] && rec.steps == rec.visited[..|rec.visited| - 1]
        && var last := rec.visited[|rec.visited| - 1];
           threw || (last.Node? && (last.kind.Trigger? || last.kind.UnknownKind?)))
  }

  lemma {:induction false} WalkIsRecorded(
      mode: Mode, g: Graph, w: World, next: Lookup, k: nat, st: Stored, rec: Record)
    requires g.Graph? && InGraph(g, next) && k <= MAX_STEPS && rec.steps == rec.visited
    ensures var e := Walk(mode, g, w, next, k, st, rec); Recorded(e.rec, e.threw)
    decreases MAX_STEPS - k
  {
    hide Execute;
    if next.Found? && k < MAX_STEPS {
      var n := next.node;
      StepIsNoted(mode, g, w, k, n, st, rec);
      ExecuteVisits(mode, g, w, k, n, st, rec);
      var a := Execute(mode, g, w, k, n, st, rec);
      if a.rec.steps == rec.steps + [n] {
        WalkIsRecorded(mode, g, w, a.next, k + 1, a.st, a.rec);
      } else {
        assert Walk(mode, g, w, next, k, st, rec) == End(a.st, a.rec, k + 1, a.next.Broke?);
        assert a.rec.visited[..|a.rec.visited| - 1] == rec.visited;
      }
    }
  }

  /** A conversation already handed off is left alone, and no run is recorded. */
  lemma HandedOffIsLeftAlone(g: Graph, w: World, st: Stored)
    requires g.Graph? && st.handedOff
    ensures Ran(g, w, st).0 == st && Ran(g, w, st).1.visited == []
  {
  }

  lemma {:induction false} WalkKeepsLog(mode: Mode, g: Graph, w: World, next: Lookup, k: nat, st: Stored, rec: Record)
    requires g.Graph? && InGraph(g, next) && k <= MAX_STEPS
    ensures st.log <= Walk(mode, g, w, next, k, st, rec).st.log
    decreases MAX_STEPS - k
  {
    hide Execute;
    if next.Found? && k < MAX_STEPS {
      StepKeepsLog(mode, g, w, k, next.node, st, rec);
      var a := Execute(mode, g, w, k, next.node, st, rec);
      WalkKeepsLog(mode, g, w, a.next, k + 1, a.st, a.rec);
    }
  }

  lemma DecisionKeepsLog(mode: Mode, g: Graph, w: World, input: Inputs, n: Node, st: Stored, rec: Record)
    requires g.Graph? && n.Node? && IsDecision(n.kind)
    ensures st.log <= ExecuteDecision(mode, g, w, input, n, st, rec).st.log
  {
    hide Follow, Hits, FirstHit, KnowsKey, TagSeen, OrFallback;
  }

  lemma StepKeepsLog(mode: Mode, g: Graph, w: World, k: nat, n: Node, st: Stored, rec: Record)
    requires g.Graph? && n.Node?
    ensures st.log <= Execute(mode, g, w, k, n, st, rec).st.log
  {
    hide Follow, EdgeFrom, Enter, Pick, TextsIn, CandidatesOf, ExecuteDecision;
    if IsDecision(n.kind) { DecisionKeepsLog(mode, g, w, w.inputs(k), n, st, rec.(visited := rec.visited + [n])); }
  }

  /**
   * A live run of an accepted graph starts by the trigger's "out" output, and
   * ends with its own row on the log: every executed node, and how it ended,
   * an exception and the limit of 20 included.
   */
  lemma RunIsRecorded(g: Graph, refs: Refs, w: World, st: Stored)
    requires Accepted(g, refs) && !st.handedOff
    ensures var (after, rec) := Ran(g, w, st);
      && |after.log| > |st.log| && st.log <= after.log
      && after.log[|after.log| - 1] == RunRow(rec.steps, rec.outcome)
      && |rec.visited| <= 20
    ensures FromTrigger(Live, g, w, st).Some?
    ensures var (e, rec) := (FromTrigger(Live, g, w, st).value, Ran(g, w, st).1);
      && rec.visited == e.rec.visited && Recorded(rec, e.threw)
      && (e.threw ==> rec.outcome == Errored)
      && (!e.threw && |rec.visited| == 20 ==> rec.outcome == Outcome.StepLimit)
      && (!e.threw && |rec.visited| < 20 ==> rec.outcome == e.rec.outcome)
  {
    hide Accepted, Execute, Walk, Follow;
    var t, first := StartOf(g, refs);
    WalkKeepsLog(Live, g, w, first, 0, st, FreshRecord);
    WalkVisits(Live, g, w, first, 0, st, FreshRecord);
    WalkIsRecorded(Live, g, w, first, 0, st, FreshRecord);
  }

  lemma StartOf(g: Graph, refs: Refs) returns (t: Node, first: Lookup)
    requires Accepted(g, refs)
    ensures g.Graph? && t.Node? && t in g.nodes && IsTrigger(t) && FindTrigger(g.nodes) == Found(t)
    ensures first == Follow(g, t, Text("out")) && LeadsBy(g, t, Text("out"), first)
  {
    assert g.Graph?;
    AcceptedLookups(g, refs);
    t := TriggerFound(g);
    FollowLeadsBy(g, refs, t, Text("out"));
    first := Follow(g, t, Text("out"));
  }

  /** The first node a run or simulation of an accepted graph executes is the one drawn from the trigger. */
  lemma RunStartsAtTheTrigger(mode: Mode, g: Graph, refs: Refs, w: World, st: Stored)
    requires Accepted(g, refs)
    ensures FromTrigger(mode, g, w, st).Some?
    ensures var v := FromTrigger(mode, g, w, st).value.rec.visited;
      exists t, first :: t in g.nodes && IsTrigger(t) && LeadsBy(g, t, Text("out"), first)
        && (if first.Found? then v != [] && v[0] == first.node else v == [])
  {
    hide Accepted, Execute, Follow;
    var t, first := StartOf(g, refs);
    if first.Found? {
      ExecuteVisits(mode, g, w, 0, first.node, st, FreshRecord);
      var a := Execute(mode, g, w, 0, first.node, st, FreshRecord);
      WalkVisits(mode, g, w, a.next, 1, a.st, a.rec);
    }
    hide LeadsBy;
  }
}
