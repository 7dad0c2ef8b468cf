/**
 * What the balancer sees: which tasks report ready, and when, over whole runs.
 */
module LeadershipReadiness {
  import opened Prelude
  import opened LeaseStore
  import opened SessionLeadership
  import opened LeadershipRuns
  import opened LeadershipHandover

  /** Readiness of task i as it would answer now. */
  predicate ReadyNow(cfg: Config, s: Sys, i: nat) {
    i < |s.procs| && Ready(cfg, s.procs[i].task, s.now)
  }

  /** A task that yielded reports ready again only after a tick in which it reclaimed. */
  lemma ReadyAgainOnlyByReclaim(cfg: Config, s: Sys, es: seq<Event>, a: nat, b: nat, i: nat) returns (q: nat)
    requires LeaseInv(cfg, s) && a <= b <= |es| && i < |StateAt(cfg, s, es, a).procs|
    requires StateAt(cfg, s, es, a).procs[i].task.yielded && ReadyNow(cfg, StateAt(cfg, s, es, b), i)
    ensures a <= q < b && es[q].TickOf? && es[q].i == i && Reclaims(cfg, StateAt(cfg, s, es, q), es[q])
  {
    LeaseInvRun(cfg, s, es[..a]);
    LeaseInvRun(cfg, s, es[..b]);
    var sb := StateAt(cfg, s, es, b);
    assert !sb.procs[i].task.yielded;
    q := ReclaimBetween(cfg, s, es, a, b, i);
  }

  /** The task neither leads nor has yielded in any state from a to b. */
  ghost predicate OnlyWaits(cfg: Config, s: Sys, es: seq<Event>, a: nat, b: nat, i: nat)
    requires b <= |es|
  {
    forall k: nat | a <= k <= b ::
      var m := StateAt(cfg, s, es, k);
      i < |m.procs| && !m.procs[i].task.leader && !m.procs[i].task.yielded
  }

  lemma WaitingGoesOn(cfg: Config, s: Sys, e: Event, i: nat)
    requires i < |s.procs| && s.procs[i].task.standby && !s.procs[i].task.yielded
    requires !Step(cfg, s, e).procs[i].task.leader && !Step(cfg, s, e).procs[i].task.yielded
    ensures var t := Step(cfg, s, e).procs[i].task; t.standby && t.standbySince == s.procs[i].task.standbySince
  {
  }

  lemma {:induction false} WaitingSince(cfg: Config, s: Sys, es: seq<Event>, a: nat, b: nat, i: nat)
    requires a <= b <= |es| && OnlyWaits(cfg, s, es, a, b, i) && StateAt(cfg, s, es, a).procs[i].task.standby
    ensures var t := StateAt(cfg, s, es, b).procs[i].task;
      t.standby && t.standbySince == StateAt(cfg, s, es, a).procs[i].task.standbySince
    decreases b
  {
    if a < b {
      WaitingSince(cfg, s, es, a, b - 1, i);
      RunStep(cfg, s, es, b - 1);
      var before, after := StateAt(cfg, s, es, b - 1), StateAt(cfg, s, es, b);
      assert !before.procs[i].task.yielded && !after.procs[i].task.leader && !after.procs[i].task.yielded;
      WaitingGoesOn(cfg, before, es[b - 1], i);
    }
  }

  /**
   * A task that waits for another's lock stays out of rotation for exactly its
   * patience, counted from when it began to wait: no leader that never yields
   * blocks a deploy forever, and none is overtaken before.
   */
  lemma WaiterIsReadyExactlyAfterPatience(cfg: Config, s: Sys, es: seq<Event>, a: nat, b: nat, i: nat)
    requires a <= b <= |es| && OnlyWaits(cfg, s, es, a, b, i) && StateAt(cfg, s, es, a).procs[i].task.standby
    ensures ReadyNow(cfg, StateAt(cfg, s, es, b), i)
      <==> StateAt(cfg, s, es, b).now - StateAt(cfg, s, es, a).procs[i].task.standbySince >= cfg.patience
  {
    WaitingSince(cfg, s, es, a, b, i);
  }

  /** A tick that finds the lock with another task starts or continues the wait, and ends any lead. */
  lemma LosersWait(cfg: Config, s: Sys, i: nat, w: Weather)
    requires Runs(s, i) && !s.procs[i].task.stopped && !s.procs[i].task.yielded
    requires Get(s.store, Lock, s.now).Some? && Get(s.store, Lock, s.now) != Some(i)
    requires w.claim.Delivered? && w.read.Delivered?
    ensures var s' := Step(cfg, s, TickOf(i, w)); var t := s'.procs[i].task;
      && t.standby && !t.leader && !HasSockets(t)
      && t.standbySince == (if s.procs[i].task.standby then s.procs[i].task.standbySince else s.now)
  {
  }

  /**
   * From a lost contest on: a task whose tick found the lock with another task,
   * and which only waits from then on, reports ready exactly once its patience
   * has passed since that tick, or since it began to wait if that was earlier.
   */
  lemma LoserIsReadyExactlyAfterPatience(cfg: Config, s: Sys, es: seq<Event>, a: nat, b: nat, i: nat, w: Weather)
    requires a < b <= |es| && es[a] == TickOf(i, w) && OnlyWaits(cfg, s, es, a + 1, b, i)
    requires var sa := StateAt(cfg, s, es, a);
      && Runs(sa, i) && !sa.procs[i].task.stopped && !sa.procs[i].task.yielded
      && Get(sa.store, Lock, sa.now).Some? && Get(sa.store, Lock, sa.now) != Some(i)
      && w.claim.Delivered? && w.read.Delivered?
    ensures var sa := StateAt(cfg, s, es, a);
      var since := if sa.procs[i].task.standby then sa.procs[i].task.standbySince else sa.now;
      ReadyNow(cfg, StateAt(cfg, s, es, b), i) <==> StateAt(cfg, s, es, b).now - since >= cfg.patience
  {
    RunStep(cfg, s, es, a);
    LosersWait(cfg, StateAt(cfg, s, es, a), i, w);
    WaiterIsReadyExactlyAfterPatience(cfg, s, es, a + 1, b, i);
  }

  /** A ready task that leads has its sockets; at most one such task is fresh. */
  lemma ReadyLeadersHaveSockets(cfg: Config, s: Sys, i: nat, j: nat)
    requires Reachable(cfg, s) && ReadyNow(cfg, s, i) && ReadyNow(cfg, s, j)
    requires FreshLeader(cfg, s, i) && FreshLeader(cfg, s, j)
    ensures i == j && HasSockets(s.procs[i].task)
  {
    AtMostOneFreshLeader(cfg, s, i, j);
  }
}
