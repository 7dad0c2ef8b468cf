/**
 * The whole cluster: one store, one clock, any number of tasks. A run is any
 * interleaving of task starts, ticks (each with its own network weather),
 * clock advances, crashes and shutdowns.
 */
module LeadershipRuns {
  import opened Prelude
  import opened LeaseStore
  import opened SessionLeadership

  datatype Proc = Proc(task: Task, crashed: bool)

  datatype Sys = Sys(now: nat, store: Contents, procs: seq<Proc>)

  datatype Event =
    | Advance(ms: nat)
    | Start
    | TickOf(i: nat, w: Weather)
    | ReleaseOf(i: nat, d: Delivery)
    | Crash(i: nat)

  predicate Runs(s: Sys, i: nat) {
    i < |s.procs| && !s.procs[i].crashed
  }

  function WithTask(s: Sys, i: nat, r: (Task, Contents)): Sys
    requires i < |s.procs|
  {
    s.(store := r.1, procs := s.procs[i := s.procs[i].(task := r.0)])
  }

  function Step(cfg: Config, s: Sys, e: Event): Sys {
    match e
    case Advance(ms) => s.(now := s.now + ms)
    case Start => s.(procs := s.procs + [Proc(FreshTask, false)])
    case TickOf(i, w) =>
      if Runs(s, i) then WithTask(s, i, Tick(cfg, i, s.procs[i].task, s.store, s.now, w)) else s
    case ReleaseOf(i, d) =>
      if Runs(s, i) then WithTask(s, i, Release(i, s.procs[i].task, s.store, s.now, d)) else s
    case Crash(i) =>
      if i < |s.procs| then s.(procs := s.procs[i := s.procs[i].(crashed := true)]) else s
  }

  /** The state after all of `es`. The state after k events is `Run(cfg, s, es[..k])`. */
  function Run(cfg: Config, s: Sys, es: seq<Event>): Sys {
    if es == [] then s
    else Step(cfg, Run(cfg, s, es[..|es| - 1]), es[|es| - 1])
  }

  /** A cluster before its first task, with the clock anywhere. */
  predicate Initial(s: Sys) {
    s.store == map[] && s.procs == []
  }

  ghost predicate Reachable(cfg: Config, s: Sys) {
    exists s0, es :: Initial(s0) && Run(cfg, s0, es) == s
  }

  lemma RunStep(cfg: Config, s: Sys, es: seq<Event>, k: nat)
    requires k < |es|
    ensures Run(cfg, s, es[..k + 1]) == Step(cfg, Run(cfg, s, es[..k]), es[k])
  {
    assert es[..k + 1][..k] == es[..k];
  }

  lemma {:induction false} RunAppend(cfg: Config, s: Sys, a: seq<Event>, b: seq<Event>)
    ensures Run(cfg, s, a + b) == Run(cfg, Run(cfg, s, a), b)
    decreases |b|
  {
    if b == [] {
      assert a + b == a;
    } else {
      var n := |b| - 1;
      assert (a + b)[..|a + b| - 1] == a + b[..n];
      RunAppend(cfg, s, a, b[..n]);
    }
  }

  // ---------------------------------------------------------------- the lease

  /** The task believes it leads and its last renewal is under one TTL old. */
  predicate FreshLeader(cfg: Config, s: Sys, i: nat) {
    i < |s.procs| && s.procs[i].task.leader && s.now < s.procs[i].task.renewedAt + cfg.ttl
  }

  /** The stored lock is exactly what task i's last renewal wrote. */
  predicate OwnsLock(cfg: Config, s: Sys, i: nat) {
    && i < |s.procs| && Lock in s.store
    && s.store[Lock] == Entry(i, s.procs[i].task.renewedAt + cfg.ttl)
  }

  ghost predicate LeaseInv(cfg: Config, s: Sys) {
    && (forall i: nat :: FreshLeader(cfg, s, i) ==> OwnsLock(cfg, s, i))
    && (forall i: nat | i < |s.procs| :: s.procs[i].task.renewedAt <= s.now && s.procs[i].task.yieldedAt <= s.now)
    && (forall i: nat | i < |s.procs| && s.procs[i].task.leader :: !s.procs[i].task.yielded && !s.procs[i].task.stopped)
    && (Lock in s.store ==> s.store[Lock].expires <= s.now + cfg.ttl)
    && (Handover in s.store ==> s.store[Handover].expires <= s.now + cfg.handoverTtl)
  }

  /** What one tick or one shutdown does to its own task's claim and to the lock. */
  ghost predicate LeaseFrame(cfg: Config, id: nat, t: Task, c: Contents, now: nat, r: (Task, Contents)) {
    && (Get(c, Lock, now).Some? && c[Lock].owner != id ==>
          Lock in r.1 && r.1[Lock] == c[Lock] && (r.0.leader ==> t.leader && r.0.renewedAt == t.renewedAt))
    && ((Get(c, Lock, now).None? || c[Lock].owner == id) && r.0.leader ==>
          || (Lock in r.1 && r.1[Lock] == Entry(id, now + cfg.ttl) && r.0.renewedAt == now)
          || (t.leader && r.0.renewedAt == t.renewedAt && Lock in c && Lock in r.1 && r.1[Lock] == c[Lock])
          || (t.leader && r.0.renewedAt == t.renewedAt && Lock !in c))
    && (r.0.renewedAt == t.renewedAt || r.0.renewedAt == now)
    && (r.0.yieldedAt == t.yieldedAt || r.0.yieldedAt == now)
    && (r.0.leader && (t.leader ==> !t.yielded && !t.stopped) ==> !r.0.yielded && !r.0.stopped)
    && (Lock in r.1 ==> (Lock in c && r.1[Lock] == c[Lock]) || r.1[Lock] == Entry(id, now + cfg.ttl))
    && (Handover in r.1 ==> (Handover in c && r.1[Handover] == c[Handover])
                            || r.1[Handover] == Entry(id, now + cfg.handoverTtl))
  }

  lemma RenewFrame(cfg: Config, id: nat, t: Task, c: Contents, now: nat, w: Weather)
    requires Get(c, Lock, now) == Some(id) && !t.stopped
    ensures LeaseFrame(cfg, id, t, c, now, Renew(cfg, id, t, c, now, w))
  {
    if w.renew.Delivered? {
      var c1 := PExpire(c, Lock, cfg.ttl, now);
      var t1 := t.(renewedAt := now);
      var (t2, c2) := if !t1.leader then BecomeLeader(id, t1, c1, now, w)
                      else if t1.sockets == Closed then (Restore(t1, w), c1)
                      else (t1, c1);
      assert t2.leader && t2.renewedAt == now && t2.yieldedAt == t.yieldedAt && c2[Lock] == Entry(id, now + cfg.ttl);
      assert Handover in c2 ==> Handover in c && c2[Handover] == c[Handover];
      hide BecomeLeader, Restore, PExpire;
      AnswerFrame(id, t2, c2, now, w);
    }
  }

  lemma AnswerFrame(id: nat, t: Task, c: Contents, now: nat, w: Weather)
    ensures var (t', c') := AnswerRequest(id, t, c, now, w);
      && t'.renewedAt == t.renewedAt && (t'.leader ==> t' == t && c' == c)
      && (t'.yieldedAt == t.yieldedAt || t'.yieldedAt == now)
      && (forall k: Key | k in c' :: k in c && c'[k] == c[k])
  {
  }

  lemma ContendFrame(cfg: Config, id: nat, t: Task, c: Contents, now: nat, w: Weather)
    requires !t.stopped
    ensures LeaseFrame(cfg, id, t, c, now, Contend(cfg, id, t, c, now, w))
  {
    if Get(c, Lock, now) == Some(id) && w.claim.Delivered? && w.read.Delivered? {
      RenewFrame(cfg, id, t, c, now, w);
    }
  }

  lemma TickFrame(cfg: Config, id: nat, t: Task, c: Contents, now: nat, w: Weather)
    ensures LeaseFrame(cfg, id, t, c, now, Tick(cfg, id, t, c, now, w))
  {
    if !t.stopped && !t.yielded {
      ContendFrame(cfg, id, t, c, now, w);
    } else if TakesBack(cfg, t, c, now, w) {
      ContendFrame(cfg, id, t.(yielded := false), c, now, w);
    }
  }

  lemma ReleaseFrame(cfg: Config, id: nat, t: Task, c: Contents, now: nat, d: Delivery)
    ensures LeaseFrame(cfg, id, t, c, now, Release(id, t, c, now, d))
  {
  }

  lemma LeaseInvStep(cfg: Config, s: Sys, e: Event)
    requires LeaseInv(cfg, s)
    ensures LeaseInv(cfg, Step(cfg, s, e))
  {
    var s' := Step(cfg, s, e);
    match e
    case Advance(_) =>
      forall i: nat | FreshLeader(cfg, s', i) ensures OwnsLock(cfg, s', i) {
        assert FreshLeader(cfg, s, i);
      }
    case Start =>
      forall i: nat | FreshLeader(cfg, s', i) ensures OwnsLock(cfg, s', i) {
        assert FreshLeader(cfg, s, i);
      }
    case Crash(_) =>
      forall i: nat | FreshLeader(cfg, s', i) ensures OwnsLock(cfg, s', i) {
        assert FreshLeader(cfg, s, i);
      }
    case TickOf(i, w) =>
      if Runs(s, i) {
        TickFrame(cfg, i, s.procs[i].task, s.store, s.now, w);
        FrameKeepsInv(cfg, s, i, Tick(cfg, i, s.procs[i].task, s.store, s.now, w));
      }
    case ReleaseOf(i, d) =>
      if Runs(s, i) {
        ReleaseFrame(cfg, i, s.procs[i].task, s.store, s.now, d);
        FrameKeepsInv(cfg, s, i, Release(i, s.procs[i].task, s.store, s.now, d));
      }
  }

  lemma FrameKeepsInv(cfg: Config, s: Sys, i: nat, r: (Task, Contents))
    requires LeaseInv(cfg, s) && i < |s.procs|
    requires LeaseFrame(cfg, i, s.procs[i].task, s.store, s.now, r)
    ensures LeaseInv(cfg, WithTask(s, i, r))
  {
    var s' := WithTask(s, i, r);
    forall j: nat | FreshLeader(cfg, s', j) ensures OwnsLock(cfg, s', j) {
      if j != i {
        assert FreshLeader(cfg, s, j);
      } else if r.0.renewedAt == s.procs[i].task.renewedAt && s.procs[i].task.leader {
        assert FreshLeader(cfg, s, i);
      }
    }
  }

  lemma {:induction false} LeaseInvRun(cfg: Config, s: Sys, es: seq<Event>)
    requires LeaseInv(cfg, s)
    ensures LeaseInv(cfg, Run(cfg, s, es))
  {
    if es != [] {
      LeaseInvRun(cfg, s, es[..|es| - 1]);
      LeaseInvStep(cfg, Run(cfg, s, es[..|es| - 1]), es[|es| - 1]);
    }
  }

  lemma ReachableInv(cfg: Config, s: Sys)
    requires Reachable(cfg, s)
    ensures LeaseInv(cfg, s)
  {
    var s0, es :| Initial(s0) && Run(cfg, s0, es) == s;
    LeaseInvRun(cfg, s0, es);
  }

  /** Lease safety: a leader that renewed less than a TTL ago is the stored owner, to the millisecond. */
  lemma FreshLeaderHoldsTheLock(cfg: Config, s: Sys, i: nat)
    requires Reachable(cfg, s) && FreshLeader(cfg, s, i)
    ensures Lock in s.store && s.store[Lock] == Entry(i, s.procs[i].task.renewedAt + cfg.ttl)
    ensures Get(s.store, Lock, s.now) == Some(i)
  {
    ReachableInv(cfg, s);
  }

  /** In every reachable state at most one task leads on a renewal under one TTL old. */
  lemma AtMostOneFreshLeader(cfg: Config, s: Sys, i: nat, j: nat)
    requires Reachable(cfg, s) && FreshLeader(cfg, s, i) && FreshLeader(cfg, s, j)
    ensures i == j
  {
    ReachableInv(cfg, s);
    assert OwnsLock(cfg, s, i) && OwnsLock(cfg, s, j);
  }

  /** Every running task that leads has renewed within the last TTL, at every moment of the run. */
  ghost predicate RenewsInTime(cfg: Config, s: Sys, es: seq<Event>) {
    forall k: nat, i: nat | k <= |es| && Runs(Run(cfg, s, es[..k]), i) && Run(cfg, s, es[..k]).procs[i].task.leader
      :: FreshLeader(cfg, Run(cfg, s, es[..k]), i)
  }

  /** Mutual exclusion over whole runs. */
  lemma AtMostOneLeaderThroughoutRun(cfg: Config, s: Sys, es: seq<Event>, k: nat, i: nat, j: nat)
    requires Initial(s) && RenewsInTime(cfg, s, es) && k <= |es|
    requires var m := Run(cfg, s, es[..k]); Runs(m, i) && m.procs[i].task.leader && Runs(m, j) && m.procs[j].task.leader
    ensures i == j
  {
    AtMostOneFreshLeader(cfg, Run(cfg, s, es[..k]), i, j);
  }

  /**
   * The renewal bound cannot be dropped: for every configuration, a leader
   * that is silent for one TTL still believes it leads when the next task
   * has taken the lock.
   */
  lemma SilentLeaderBreaksExclusion(cfg: Config)
    ensures exists s :: Reachable(cfg, s) && Runs(s, 0) && Runs(s, 1)
                        && s.procs[0].task.leader && s.procs[1].task.leader
  {
    var s0 := Sys(0, map[], []);
    var es := [Start, Start, TickOf(0, Calm), Advance(cfg.ttl), TickOf(1, Calm)];
    var s1 := Run(cfg, s0, es[..3]);
    RunStep(cfg, s0, es, 0); RunStep(cfg, s0, es, 1); RunStep(cfg, s0, es, 2);
    RunStep(cfg, s0, es, 3); RunStep(cfg, s0, es, 4);
    assert es[..5] == es;
    assert Reachable(cfg, Run(cfg, s0, es));
  }
}
