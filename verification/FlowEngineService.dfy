/**
 * The engine as it runs: a service over the stored state and a recorder that
 * each node writes into, proved to compute `Execute`, `Ran` and `Simulated`.
 */
module FlowEngineService {
  import opened Prelude
  import opened FlowGraph
  import opened FlowEngine

  class Recorder {
    var steps: seq<Node>
    var visited: seq<Node>
    var outcome: Outcome

    ghost function View(): Record
      reads this
    {
      Record(steps, visited, outcome)
    }

    constructor ()
      ensures View() == FreshRecord
    {
      steps, visited, outcome := [], [], Completed;
    }

    method Note(n: Node)
      modifies this`steps
      ensures View() == Noted(old(View()), n)
    {
      steps := steps + [n];
    }
  }

  class Service {
    var stored: Stored

    constructor (st: Stored)
      ensures stored == st
    {
      stored := st;
    }

    method Reply(mode: Mode, g: Graph, input: Inputs, n: Node, rec: Recorder) returns (next: Lookup)
      requires g.Graph? && n.Node?
      modifies this, rec
      ensures After(stored, rec.View(), next) == ExecuteReply(mode, g, input, n, old(stored), old(rec.View()))
    {
      var edge := EdgeFrom(g.edges, n.id, Text("onHandoff"));
      if edge.EdgeBroke? || n.data.None? { return Broke; }
      var replied := None;
      if Truthy(DataOf(n).agentId) && input.agentReady && (mode.Dry? || (input.quotaOk && !stored.paused)) {
        stored := stored.(metered := stored.metered + input.cost);
        replied := input.reply;
      }
      if replied.None? || (mode.Live? && !input.driverLive) {
        rec.Note(n);
        rec.outcome := AgentSkipped;
        return Nowhere;
      }
      if mode.Live? {
        if !input.sendOk { return Broke; }
        if replied.value.text { stored := stored.(log := stored.log + [SentReply]); }
        if replied.value.handoff && edge.NoneLeads? { stored := stored.(paused := true); }
      }
      rec.Note(n);
      rec.outcome := if replied.value.handoff then HandedOff else AgentReplied;
      return if replied.value.handoff then Enter(g, edge) else Nowhere;
    }

    /** Opens the group and records the handoff; false when it throws. */
    method HandOff(input: Inputs, n: Node, humans: seq<string>) returns (ok: bool)
      requires n.Node?
      modifies this
      ensures var h := Handoff(input, n, humans, old(stored));
        ok == h.Said? && stored == if ok then h.value else old(stored)
    {
      if !input.handoffOk || !Trimmable(DataOf(n).farewellText) { return false; }
      stored := stored.(handedOff := true, log := stored.log + [HandedTo(humans)]);
      return true;
    }

    method Assign(mode: Mode, input: Inputs, n: Node, rec: Recorder) returns (next: Lookup)
      requires n.Node?
      modifies this, rec
      ensures After(stored, rec.View(), next) == ExecuteAssign(mode, input, n, old(stored), old(rec.View()))
    {
      if n.data.None? { return Broke; }
      if mode.Dry? {
        rec.Note(n);
        if !Trimmable(DataOf(n).farewellText) { return Broke; }
        rec.outcome := HandedOff;
        return Nowhere;
      }
      var ids := CandidatesOf(n);
      if |ids| > 0 {
        if !n.kind.AssignGroup? && |ids| > 1 {
          var value := if n.id in stored.counters then stored.counters[n.id] + 1 else 1;
          stored := stored.(counters := stored.counters[n.id := value]);
          ids := [ids[(value - 1) % |ids|]];
        }
        assert |ids| == 1 ==> ids == [ids[0]];
        assert (ids, stored.counters) == Pick(n.kind.AssignGroup?, n, CandidatesOf(n), old(stored.counters));
        if exists f :: f in ids && !f.Text? { return Broke; }
        var humans := TextsIn(ids, input.staff);
        if |humans| > 0 {
          var ok := HandOff(input, n, humans);
          if !ok { return Broke; }
          rec.Note(n);
          rec.outcome := HandedOff;
          return Nowhere;
        }
      }
      rec.Note(n);
      return Nowhere;
    }

    method ContactAgent(mode: Mode, g: Graph, input: Inputs, n: Node, rec: Recorder) returns (next: Lookup)
      requires g.Graph? && n.Node?
      modifies this, rec
      ensures After(stored, rec.View(), next) == ExecuteContactAgent(mode, g, input, n, old(stored), old(rec.View()))
    {
      if input.contact.Failed? { return Broke; }
      if input.contact.value.None? || input.contact.value.value.None? {
        rec.Note(n);
        return Follow(g, n, Text("fallback"));
      }
      if mode.Dry? {
        rec.Note(n);
        if n.data.None? || !Trimmable(DataOf(n).farewellText) { return Broke; }
        rec.outcome := HandedOff;
        return Nowhere;
      }
      if n.data.None? { return Broke; }
      var ok := HandOff(input, n, [input.contact.value.value.value]);
      rec.Note(n);
      if ok { rec.outcome := HandedOff; }
      return Nowhere;
    }

    method Decide(mode: Mode, g: Graph, w: World, input: Inputs, n: Node, rec: Recorder) returns (next: Lookup)
      requires g.Graph? && n.Node? && IsDecision(n.kind)
      modifies this, rec
      ensures After(stored, rec.View(), next) == ExecuteDecision(mode, g, w, input, n, old(stored), old(rec.View()))
    {
      if n.data.None? { return Broke; }
      match n.kind {
        case Keyword =>
          var hit := Hits(ListOf(DataOf(n).keywords), w);
          if hit.Failed? { return Broke; }
          next := Follow(g, n, Text(if hit.value then "yes" else "no"));
        case KeywordCases =>
          var hit := FirstHit(BranchesOf(n), w);
          if hit.Failed? { return Broke; }
          next := if hit.value.Some? then Follow(g, n, hit.value.value.key) else Nowhere;
          if next.Nowhere? { next := Follow(g, n, Text("fallback")); }
        case AiDecision =>
          if input.decision.Failed? { return Broke; }
          stored := stored.(metered := stored.metered + input.cost);
          next := Follow(g, n, Text(if input.decision.value == Some(true) then "yes" else "no"));
        case TagDecision =>
          next := Follow(g, n, Text(if TagSeen(n, input, stored) then "yes" else "no"));
        case Intent =>
          if input.intent.Failed? { return Broke; }
          stored := stored.(metered := stored.metered + input.cost);
          next := Nowhere;
          if input.intent.value.Some? && input.intent.value.value != "" {
            var known := KnowsKey(BranchesOf(n), input.intent.value.value);
            if known.Failed? { return Broke; }
            if known.value { next := Follow(g, n, Text(input.intent.value.value)); }
          }
          if next.Nowhere? { next := Follow(g, n, Text("fallback")); }
        case _ => assert false;
      }
      rec.Note(n);
    }

    method Act(mode: Mode, g: Graph, input: Inputs, n: Node, rec: Recorder) returns (next: Lookup)
      requires g.Graph? && n.Node?
      modifies this, rec
      ensures After(stored, rec.View(), next) == ExecuteAction(mode, g, input, n, old(stored), old(rec.View()))
    {
      if LacksData(mode, n) { return Broke; }
      match n.kind {
        case Webhook => stored := Guarded(mode, input.effectOk, stored, CalledWebhook(DataOf(n).webhookId));
        case TagConversation =>
          if mode.Live? && input.effectOk && DataOf(n).tagId.Text? && stored.tags.Some? {
            stored := stored.(tags := Some(stored.tags.value + {DataOf(n).tagId.s}),
                              log := stored.log + [Tagged(DataOf(n).tagId.s)]);
          }
        case AssignTeammate => stored := Guarded(mode, input.effectOk, stored, Assigned(DataOf(n).userId));
        case SaveContact => stored := Guarded(mode, input.effectOk, stored, SavedContact);
        case SendMedia =>
          if !Trimmable(DataOf(n).caption) { return Broke; }
          if input.fileOk && input.quotaOk {
            stored := Guarded(mode, input.effectOk, stored, SentFile(DataOf(n).mediaItemId));
          }
        case _ => return Nowhere;
      }
      rec.Note(n);
      return Follow(g, n, Text("out"));
    }

    /** One node; Broke stands for the exception `run` and `simulate` catch. */
    method ExecuteNode(mode: Mode, g: Graph, w: World, k: nat, n: Node, rec: Recorder) returns (next: Lookup)
      requires g.Graph? && n.Node?
      modifies this, rec
      ensures After(stored, rec.View(), next) == Execute(mode, g, w, k, n, old(stored), old(rec.View()))
    {
      rec.visited := rec.visited + [n];
      var input := w.inputs(k);
      if IsDecision(n.kind) { next := Decide(mode, g, w, input, n, rec); }
      else if n.kind.AgentReply? { next := Reply(mode, g, input, n, rec); }
      else if IsTerminal(n.kind) { next := Assign(mode, input, n, rec); }
      else if n.kind.AssignContactAgent? { next := ContactAgent(mode, g, input, n, rec); }
      else { next := Act(mode, g, input, n, rec); }
    }

    method WalkGraph(mode: Mode, g: Graph, w: World, start: Lookup, rec: Recorder) returns (steps: nat, threw: bool)
      requires g.Graph? && InGraph(g, start)
      modifies this, rec
      ensures End(stored, rec.View(), steps, threw) == Walk(mode, g, w, start, 0, old(stored), old(rec.View()))
    {
      hide Execute;
      var current := start;
      steps := 0;
      while current.Found? && steps < MAX_STEPS
        invariant steps <= MAX_STEPS && InGraph(g, current)
        invariant Walk(mode, g, w, current, steps, stored, rec.View())
               == Walk(mode, g, w, start, 0, old(stored), old(rec.View()))
        decreases MAX_STEPS - steps
      {
        current := ExecuteNode(mode, g, w, steps, current.node, rec);
        steps := steps + 1;
      }
      threw := current.Broke?;
    }

    method Simulate(g: Graph, w: World) returns (rec: Recorder)
      requires g.Graph?
      modifies this
      ensures fresh(rec) && (stored, rec.View()) == Simulated(g, w, old(stored))
    {
      hide Execute;
      rec := new Recorder();
      var trigger := FindTrigger(g.nodes);
      if !trigger.Found? {
        rec.outcome := Errored;
        return;
      }
      var steps, threw := WalkGraph(Dry, g, w, Follow(g, trigger.node, Text("out")), rec);
      if threw {
        rec.outcome := Errored;
      } else if steps >= MAX_STEPS {
        rec.outcome := StepLimit;
      }
    }

    method Run(g: Graph, w: World) returns (rec: Recorder)
      requires g.Graph?
      modifies this
      ensures fresh(rec) && (stored, rec.View()) == Ran(g, w, old(stored))
    {
      hide Execute;
      rec := new Recorder();
      if stored.handedOff { return; }
      var trigger := FindTrigger(g.nodes);
      if trigger.Broke? {
        rec.outcome := Errored;
      } else if trigger.Found? {
        var steps, threw := WalkGraph(Live, g, w, Follow(g, trigger.node, Text("out")), rec);
        if threw {
          rec.outcome := Errored;
        } else if steps >= MAX_STEPS {
          rec.outcome := StepLimit;
        }
      }
      stored := stored.(log := stored.log + [RunRow(rec.steps, rec.outcome)]);
    }
  }
}
