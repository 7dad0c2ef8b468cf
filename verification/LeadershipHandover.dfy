/**
 * Handover over whole runs: yields do not ping-pong, a request is answered
 * once, a lone task always recovers the lock, and a requested handover
 * completes in three ticks.
 */
module LeadershipHandover {
  import opened Prelude
  import opened LeaseStore
  import opened SessionLeadership
  import opened LeadershipRuns

  /** The event makes its task hand the lead over. */
  predicate Yields(cfg: Config, s: Sys, e: Event) {
    && e.TickOf? && Runs(s, e.i)
    && !s.procs[e.i].task.yielded && Step(cfg, s, e).procs[e.i].task.yielded
  }

  /** The event makes its yielded task go for the lock again. */
  predicate Reclaims(cfg: Config, s: Sys, e: Event) {
    e.TickOf? && Runs(s, e.i) && TakesBack(cfg, s.procs[e.i].task, s.store, s.now, e.w)
  }

  function StateAt(cfg: Config, s: Sys, es: seq<Event>, k: nat): Sys
    requires k <= |es|
  {
    Run(cfg, s, es[..k])
  }

  // ------------------------------------------------ how one tick treats the flag

  /** A tick sets the flag only by answering another task's live request, and clears it only by a reclaim. */
  lemma TickAndTheFlag(cfg: Config, id: nat, t: Task, c: Contents, now: nat, w: Weather)
    ensures var r := Tick(cfg, id, t, c, now, w);
      && (t.yielded ==> (r.0.yielded <==> !TakesBack(cfg, t, c, now, w)))
      && (!t.yielded && r.0.yielded ==>
            && Get(c, Handover, now).Some? && c[Handover].owner != id
            && r.0.yieldedAt == now && !r.0.leader)
      && (t.yielded && r.0.yielded ==> r.1 == c && r.0 == t.(yieldedAt := r.0.yieldedAt))
      && (t.yielded && r.0.yielded && !t.stopped && w.probe.Delivered? && Get(c, Lock, now).Some?
          ==> r.0.yieldedAt == now)
      && (r.0.yieldedAt == t.yieldedAt || r.0.yieldedAt == now)
  {
  }

  // ------------------------------------------------ no ping-pong

  function CountYielded(ps: seq<Proc>): nat {
    if ps == [] then 0
    else CountYielded(ps[..|ps| - 1]) + if ps[|ps| - 1].task.yielded then 1 else 0
  }

  function CountYields(cfg: Config, s: Sys, es: seq<Event>): nat {
    if es == [] then 0
    else
      var k := |es| - 1;
      CountYields(cfg, s, es[..k]) + if Yields(cfg, Run(cfg, s, es[..k]), es[k]) then 1 else 0
  }

  ghost predicate NoReclaim(cfg: Config, s: Sys, es: seq<Event>) {
    forall k: nat | k < |es| :: !Reclaims(cfg, Run(cfg, s, es[..k]), es[k])
  }

  lemma {:induction false} CountAfterUpdate(ps: seq<Proc>, i: nat, p: Proc)
    requires i < |ps|
    ensures CountYielded(ps[i := p])
         == CountYielded(ps) + (if p.task.yielded then 1 else 0) - (if ps[i].task.yielded then 1 else 0)
  {
    var n := |ps| - 1;
    if i < n {
      assert ps[i := p][..n] == ps[..n][i := p];
      CountAfterUpdate(ps[..n], i, p);
    } else {
      assert ps[i := p][..n] == ps[..n];
    }
  }

  lemma {:induction false} CountAtMostAll(ps: seq<Proc>)
    ensures CountYielded(ps) <= |ps|
  {
    if ps != [] { CountAtMostAll(ps[..|ps| - 1]); }
  }

  lemma CountAfterStep(cfg: Config, s: Sys, e: Event)
    requires !Reclaims(cfg, s, e)
    ensures CountYielded(Step(cfg, s, e).procs) == CountYielded(s.procs) + if Yields(cfg, s, e) then 1 else 0
  {
    var ps := Step(cfg, s, e).procs;
    match e
    case Advance(_) =>
    case Start => assert ps[..|ps| - 1] == s.procs;
    case Crash(i) => if i < |s.procs| { CountAfterUpdate(s.procs, i, ps[i]); }
    case ReleaseOf(i, _) => if Runs(s, i) { CountAfterUpdate(s.procs, i, ps[i]); }
    case TickOf(i, w) =>
      if Runs(s, i) {
        CountAfterUpdate(s.procs, i, ps[i]);
        TickAndTheFlag(cfg, i, s.procs[i].task, s.store, s.now, w);
      }
  }

  /**
   * In any stretch of a run without a reclaim, the yields are exactly the
   * tasks newly yielded, so there are never more yields than tasks.
   */
  lemma {:induction false} YieldsAreBounded(cfg: Config, s: Sys, es: seq<Event>)
    requires NoReclaim(cfg, s, es)
    ensures CountYields(cfg, s, es) + CountYielded(s.procs) == CountYielded(Run(cfg, s, es).procs)
    ensures CountYields(cfg, s, es) <= |Run(cfg, s, es).procs|
  {
    if es != [] {
      var k := |es| - 1;
      forall m: nat | m < k ensures !Reclaims(cfg, Run(cfg, s, es[..k][..m]), es[..k][m]) {
        assert es[..k][..m] == es[..m];
      }
      YieldsAreBounded(cfg, s, es[..k]);
      CountAfterStep(cfg, Run(cfg, s, es[..k]), es[k]);
    }
    CountAtMostAll(Run(cfg, s, es).procs);
  }

  // ------------------------------------------------ the grace period

  lemma StepMonotone(cfg: Config, s: Sys, e: Event, i: nat)
    requires LeaseInv(cfg, s) && i < |s.procs|
    ensures var s' := Step(cfg, s, e);
      && s.now <= s'.now && |s.procs| <= |s'.procs|
      && s.procs[i].task.yieldedAt <= s'.procs[i].task.yieldedAt
      && (s.procs[i].task.yielded && !s'.procs[i].task.yielded ==> Reclaims(cfg, s, e) && e.i == i)
  {
    if e.TickOf? && Runs(s, e.i) {
      TickAndTheFlag(cfg, e.i, s.procs[e.i].task, s.store, s.now, e.w);
    }
  }

  lemma {:induction false} RunMonotone(cfg: Config, s: Sys, es: seq<Event>, a: nat, b: nat, i: nat)
    requires LeaseInv(cfg, s) && a <= b <= |es| && i < |StateAt(cfg, s, es, a).procs|
    ensures var sa, sb := StateAt(cfg, s, es, a), StateAt(cfg, s, es, b);
      && LeaseInv(cfg, sa) && LeaseInv(cfg, sb)
      && sa.now <= sb.now && |sa.procs| <= |sb.procs|
      && sa.procs[i].task.yieldedAt <= sb.procs[i].task.yieldedAt
    decreases b - a
  {
    LeaseInvRun(cfg, s, es[..a]);
    LeaseInvRun(cfg, s, es[..b]);
    if a < b {
      RunMonotone(cfg, s, es, a, b - 1, i);
      RunStep(cfg, s, es, b - 1);
      StepMonotone(cfg, StateAt(cfg, s, es, b - 1), es[b - 1], i);
    }
  }

  /**
   * A yielded task that does not reclaim leaves the store alone, so it posts
   * no request and attempts no SET; and it reclaims only when every lock read
   * it made in the last `reacquireAfter` found the key free.
   */
  lemma ReclaimNeedsAFreeLockThroughout(cfg: Config, s: Sys, es: seq<Event>, k: nat, q: nat, i: nat)
    requires LeaseInv(cfg, s) && k < q < |es|
    requires es[q].TickOf? && es[q].i == i && Reclaims(cfg, StateAt(cfg, s, es, q), es[q])
    requires Runs(StateAt(cfg, s, es, k), i) && StateAt(cfg, s, es, k).procs[i].task.yielded
    requires es[k].TickOf? && es[k].i == i && !Reclaims(cfg, StateAt(cfg, s, es, k), es[k])
    ensures StateAt(cfg, s, es, k + 1).store == StateAt(cfg, s, es, k).store
    ensures var sk, sq := StateAt(cfg, s, es, k), StateAt(cfg, s, es, q);
      (es[k].w.probe.Delivered? && !sk.procs[i].task.stopped && sq.now - sk.now < cfg.reacquireAfter) ==>
        Get(sk.store, Lock, sk.now).None?
  {
    var sk := StateAt(cfg, s, es, k);
    RunStep(cfg, s, es, k);
    TickAndTheFlag(cfg, i, sk.procs[i].task, sk.store, sk.now, es[k].w);
    RunMonotone(cfg, s, es, k + 1, q, i);
  }

  // ------------------------------------------------ one request, one yield

  /** A task that is yielded at a and not at b reclaimed somewhere in between. */
  lemma {:induction false} ReclaimBetween(cfg: Config, s: Sys, es: seq<Event>, a: nat, b: nat, i: nat) returns (q: nat)
    requires LeaseInv(cfg, s) && a < b <= |es| && i < |StateAt(cfg, s, es, a).procs|
    requires StateAt(cfg, s, es, a).procs[i].task.yielded
    requires i < |StateAt(cfg, s, es, b).procs| && !StateAt(cfg, s, es, b).procs[i].task.yielded
    ensures a <= q < b && es[q].TickOf? && es[q].i == i && Reclaims(cfg, StateAt(cfg, s, es, q), es[q])
    decreases b - a
  {
    RunMonotone(cfg, s, es, a, b - 1, i);
    RunStep(cfg, s, es, b - 1);
    StepMonotone(cfg, StateAt(cfg, s, es, b - 1), es[b - 1], i);
    if StateAt(cfg, s, es, b - 1).procs[i].task.yielded {
      q := b - 1;
    } else {
      q := ReclaimBetween(cfg, s, es, a, b - 1, i);
    }
  }

  /** By the time a yielded task reclaims, the request that made it yield has expired. */
  lemma RequestExpiresBeforeReclaim(cfg: Config, s: Sys, es: seq<Event>, p: nat, q: nat, i: nat)
    requires LeaseInv(cfg, s) && p < q < |es| && cfg.reacquireAfter >= cfg.handoverTtl
    requires es[p].TickOf? && es[p].i == i && Yields(cfg, StateAt(cfg, s, es, p), es[p])
    requires es[q].TickOf? && es[q].i == i && Reclaims(cfg, StateAt(cfg, s, es, q), es[q])
    ensures Handover in StateAt(cfg, s, es, p).store
    ensures StateAt(cfg, s, es, p).store[Handover].expires <= StateAt(cfg, s, es, q).now
  {
    var sp := StateAt(cfg, s, es, p);
    RunStep(cfg, s, es, p);
    LeaseInvRun(cfg, s, es[..p]);
    TickAndTheFlag(cfg, i, sp.procs[i].task, sp.store, sp.now, es[p].w);
    RunMonotone(cfg, s, es, p + 1, q, i);
  }

  /** No stored request ever makes the same task yield twice, in any run. */
  ghost predicate RequestsYieldOnce(cfg: Config) {
    forall s: Sys, es: seq<Event>, p: nat, r: nat ::
      Initial(s) && p < r < |es|
      && es[p].TickOf? && es[r].TickOf? && es[p].i == es[r].i
      && Yields(cfg, StateAt(cfg, s, es, p), es[p]) && Yields(cfg, StateAt(cfg, s, es, r), es[r])
      ==> Handover in StateAt(cfg, s, es, p).store && Handover in StateAt(cfg, s, es, r).store
          && StateAt(cfg, s, es, p).store[Handover] != StateAt(cfg, s, es, r).store[Handover]
  }

  lemma RequestDiffers(cfg: Config, s: Sys, es: seq<Event>, p: nat, r: nat)
    requires Initial(s) && p < r < |es| && cfg.reacquireAfter >= cfg.handoverTtl
    requires es[p].TickOf? && es[r].TickOf? && es[p].i == es[r].i
    requires Yields(cfg, StateAt(cfg, s, es, p), es[p]) && Yields(cfg, StateAt(cfg, s, es, r), es[r])
    ensures Handover in StateAt(cfg, s, es, p).store && Handover in StateAt(cfg, s, es, r).store
    ensures StateAt(cfg, s, es, p).store[Handover] != StateAt(cfg, s, es, r).store[Handover]
  {
    var i := es[p].i;
    var sr := StateAt(cfg, s, es, r);
    RunStep(cfg, s, es, p);
    if p + 1 == r { assert false; }
    var q := ReclaimBetween(cfg, s, es, p + 1, r, i);
    RequestExpiresBeforeReclaim(cfg, s, es, p, q, i);
    RunMonotone(cfg, s, es, p + 1, q, i);
    RunMonotone(cfg, s, es, q, r, i);
    TickAndTheFlag(cfg, i, sr.procs[i].task, sr.store, sr.now, es[r].w);
  }

  /** A concrete run in which one request makes task 0 yield twice. */
  function DoubleYieldRun(cfg: Config): seq<Event> {
    [Start, Start, TickOf(0, Calm), TickOf(1, Calm), TickOf(0, Calm),
     Advance(cfg.reacquireAfter), TickOf(0, Calm), TickOf(0, Calm)]
  }

  /** The cluster of `DoubleYieldRun` once task 0 leads and task 1 has asked for the lead. */
  function AskedState(cfg: Config): Sys {
    Sys(0, map[Lock := Entry(0, cfg.ttl), Handover := Entry(1, cfg.handoverTtl)],
        [Proc(Task(true, Up, false, 0, false, 0, false, 0), false),
         Proc(Task(false, Closed, false, 0, true, 0, false, 0), false)])
  }

  /** The same cluster after the first yield and the grace period. */
  function YieldedState(cfg: Config): Sys {
    Sys(cfg.reacquireAfter, map[Handover := Entry(1, cfg.handoverTtl)],
        [Proc(Task(false, Closed, true, 0, false, 0, false, 0), false),
         Proc(Task(false, Closed, false, 0, true, 0, false, 0), false)])
  }

  lemma DoubleYieldAsks(cfg: Config)
    ensures StateAt(cfg, Sys(0, map[], []), DoubleYieldRun(cfg), 4) == AskedState(cfg)
  {
    var s0, es := Sys(0, map[], []), DoubleYieldRun(cfg);
    RunStep(cfg, s0, es, 0); RunStep(cfg, s0, es, 1); RunStep(cfg, s0, es, 2); RunStep(cfg, s0, es, 3);
    assert es[..0] == [];
    assert StateAt(cfg, s0, es, 2) == Sys(0, map[], [Proc(FreshTask, false), Proc(FreshTask, false)]);
    var s3 := StateAt(cfg, s0, es, 3);
    assert s3.store == map[Lock := Entry(0, cfg.ttl)];
    assert s3.procs[0] == AskedState(cfg).procs[0];
    var s4 := StateAt(cfg, s0, es, 4);
    assert s4.store == AskedState(cfg).store;
    assert s4.procs == AskedState(cfg).procs;
  }

  lemma DoubleYieldYields(cfg: Config)
    ensures Yields(cfg, AskedState(cfg), TickOf(0, Calm))
    ensures Run(cfg, AskedState(cfg), [TickOf(0, Calm), Advance(cfg.reacquireAfter)]) == YieldedState(cfg)
  {
    var s, es := AskedState(cfg), [TickOf(0, Calm), Advance(cfg.reacquireAfter)];
    RunStep(cfg, s, es, 0);
    RunStep(cfg, s, es, 1);
    assert es[..2] == es;
    var s1 := Run(cfg, s, es[..1]);
    assert s1.store == map[Handover := Entry(1, cfg.handoverTtl)];
    assert s1.procs == YieldedState(cfg).procs;
  }

  /** Within the request's life, the yielded task takes the free lock and would yield again. */
  lemma DoubleYieldReclaims(cfg: Config)
    requires cfg.reacquireAfter < cfg.handoverTtl
    ensures var s7 := Step(cfg, YieldedState(cfg), TickOf(0, Calm));
      && Yields(cfg, s7, TickOf(0, Calm))
      && Handover in s7.store && s7.store[Handover] == Entry(1, cfg.handoverTtl)
  {
    var s7 := Step(cfg, YieldedState(cfg), TickOf(0, Calm));
    assert s7.store[Handover] == Entry(1, cfg.handoverTtl);
    assert s7.store[Lock] == Entry(0, cfg.reacquireAfter + cfg.ttl) && s7.procs[0].task.leader;
  }

  lemma ShortGraceYieldsTwice(cfg: Config)
    requires cfg.reacquireAfter < cfg.handoverTtl
    ensures !RequestsYieldOnce(cfg)
  {
    var s0, es := Sys(0, map[], []), DoubleYieldRun(cfg);
    assert Initial(s0);
    DoubleYieldAsks(cfg);
    DoubleYieldYields(cfg);
    assert es[..6] == es[..4] + [TickOf(0, Calm), Advance(cfg.reacquireAfter)];
    RunAppend(cfg, s0, es[..4], [TickOf(0, Calm), Advance(cfg.reacquireAfter)]);
    DoubleYieldReclaims(cfg);
    RunStep(cfg, s0, es, 6);
    hide Run, Step, Yields, Initial;
    var s7 := StateAt(cfg, s0, es, 7);
    assert Yields(cfg, s7, es[7]);
    assert Yields(cfg, StateAt(cfg, s0, es, 4), es[4]);
  }

  /**
   * The exact condition under which a request cannot bounce the lead back and
   * forth: the grace period is at least as long as a request lives.
   */
  lemma OneRequestOneYield(cfg: Config)
    ensures RequestsYieldOnce(cfg) <==> cfg.reacquireAfter >= cfg.handoverTtl
  {
    if cfg.reacquireAfter < cfg.handoverTtl {
      ShortGraceYieldsTwice(cfg);
    } else {
      forall s: Sys, es: seq<Event>, p: nat, r: nat
        | Initial(s) && p < r < |es|
          && es[p].TickOf? && es[r].TickOf? && es[p].i == es[r].i
          && Yields(cfg, StateAt(cfg, s, es, p), es[p]) && Yields(cfg, StateAt(cfg, s, es, r), es[r])
        ensures Handover in StateAt(cfg, s, es, p).store && Handover in StateAt(cfg, s, es, r).store
        ensures StateAt(cfg, s, es, p).store[Handover] != StateAt(cfg, s, es, r).store[Handover]
      {
        RequestDiffers(cfg, s, es, p, r);
      }
    }
  }

  // ------------------------------------------------ progress

  /**
   * A failed deploy never leaves the sockets with nobody: from every reachable
   * state, if all other tasks fall silent, one tick after ttl + reacquireAfter
   * makes any task that is still running the lock owner with its sockets open.
   */
  lemma LoneTaskRecovers(cfg: Config, s: Sys, i: nat)
    requires Reachable(cfg, s) && Runs(s, i) && !s.procs[i].task.stopped
    ensures var s' := Run(cfg, s, [Advance(cfg.ttl + cfg.reacquireAfter), TickOf(i, Calm)]);
      FreshLeader(cfg, s', i) && HasSockets(s'.procs[i].task) && OwnsLock(cfg, s', i)
  {
    ReachableInv(cfg, s);
    var es := [Advance(cfg.ttl + cfg.reacquireAfter), TickOf(i, Calm)];
    RunStep(cfg, s, es, 0);
    RunStep(cfg, s, es, 1);
    assert es[..2] == es;
  }

  /** The leader holds the lock, and another live task's request is there. */
  ghost predicate Requested(cfg: Config, s: Sys, i: nat, j: nat) {
    && i != j && Runs(s, i) && Runs(s, j)
    && s.procs[i].task.leader && !s.procs[i].task.stopped && !s.procs[i].task.yielded
    && !s.procs[j].task.yielded && !s.procs[j].task.stopped
    && Get(s.store, Lock, s.now) == Some(i)
    && Get(s.store, Handover, s.now).Some? && Get(s.store, Handover, s.now) != Some(i)
  }

  lemma WaiterAsks(cfg: Config, s: Sys, i: nat, j: nat)
    requires i != j && Runs(s, i) && Runs(s, j) && Get(s.store, Lock, s.now) == Some(i)
    requires s.procs[i].task.leader && !s.procs[i].task.stopped && !s.procs[i].task.yielded
    requires !s.procs[j].task.yielded && !s.procs[j].task.stopped
    requires Get(s.store, Handover, s.now) != Some(i)
    ensures var s' := Step(cfg, s, TickOf(j, Calm));
      Requested(cfg, s', i, j) && s'.now == s.now && |s'.procs| == |s.procs|
  {
  }

  lemma FreeLockIsTaken(cfg: Config, s: Sys, j: nat)
    requires Runs(s, j) && !s.procs[j].task.yielded && !s.procs[j].task.stopped && Lock !in s.store
    ensures var s' := Step(cfg, s, TickOf(j, Calm));
      && s'.now == s.now && |s'.procs| == |s.procs|
      && (forall i | 0 <= i < |s.procs| && i != j :: s'.procs[i] == s.procs[i])
      && OwnsLock(cfg, s', j) && FreshLeader(cfg, s', j) && HasSockets(s'.procs[j].task)
  {
  }

  lemma LeaderAnswers(cfg: Config, s: Sys, i: nat, j: nat)
    requires Requested(cfg, s, i, j)
    ensures var s' := Step(cfg, s, TickOf(i, Calm));
      && s'.now == s.now && |s'.procs| == |s.procs| && s'.procs[j] == s.procs[j] && !s'.procs[i].crashed
      && Lock !in s'.store && s'.procs[i].task.yielded && !s'.procs[i].task.leader
  {
  }

  /**
   * A requested handover completes in three ticks and no time: the waiting
   * task asks, the leader yields, the waiting task leads. The one thing that
   * can delay it is a live request of the leader's own, which it ignores.
   */
  lemma HandoverCompletes(cfg: Config, s: Sys, i: nat, j: nat)
    requires Reachable(cfg, s) && i != j && FreshLeader(cfg, s, i) && Runs(s, i) && Runs(s, j)
    requires !s.procs[j].task.yielded && !s.procs[j].task.stopped
    requires Get(s.store, Handover, s.now) != Some(i)
    ensures var s' := Run(cfg, s, [TickOf(j, Calm), TickOf(i, Calm), TickOf(j, Calm)]);
      && s'.now == s.now
      && |s'.procs| == |s.procs| && s'.procs[i].task.yielded && !s'.procs[i].task.leader
      && OwnsLock(cfg, s', j) && FreshLeader(cfg, s', j) && HasSockets(s'.procs[j].task)
      && Ready(cfg, s'.procs[j].task, s'.now) && !Ready(cfg, s'.procs[i].task, s'.now)
  {
    ReachableInv(cfg, s);
    assert OwnsLock(cfg, s, i);
    var es := [TickOf(j, Calm), TickOf(i, Calm), TickOf(j, Calm)];
    RunStep(cfg, s, es, 0);
    RunStep(cfg, s, es, 1);
    RunStep(cfg, s, es, 2);
    assert es[..3] == es && es[..0] == [];
    WaiterAsks(cfg, s, i, j);
    LeaderAnswers(cfg, Step(cfg, s, TickOf(j, Calm)), i, j);
    FreeLockIsTaken(cfg, Run(cfg, s, es[..2]), j);
  }
}
