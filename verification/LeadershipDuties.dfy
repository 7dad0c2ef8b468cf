/**
 * What each move of a task owes the others, whatever the state of the cluster:
 * a take-over leaves no request of its own behind, a renewal holds the lock for
 * a full TTL, a request lives its time, a shutdown frees the lock.
 */
module LeadershipDuties {
  import opened Prelude
  import opened LeaseStore
  import opened SessionLeadership
  import opened LeadershipRuns
  import opened LeadershipHandover
  import opened LeadershipReadiness

  /** The tick makes its task leader. */
  predicate TakesTheLead(cfg: Config, s: Sys, i: nat, w: Weather) {
    Runs(s, i) && !s.procs[i].task.leader && Step(cfg, s, TickOf(i, w)).procs[i].task.leader
  }

  lemma TickClears(cfg: Config, id: nat, t: Task, c: Contents, now: nat, w: Weather)
    requires !t.leader && Tick(cfg, id, t, c, now, w).0.leader && !w.clear.Refused?
    ensures var (t', c') := Tick(cfg, id, t, c, now, w);
      && Get(c', Handover, now) != Some(id) && !t'.standby && !t'.yielded
      && (Get(c, Handover, now).Some? && c[Handover].owner != id ==> Handover in c' && c'[Handover] == c[Handover])
  {
  }

  /**
   * A task that takes the lead removes its own handover request, and no other:
   * otherwise no newer task could ask for the lead until that request expired.
   */
  lemma LeadClearsOwnRequest(cfg: Config, s: Sys, i: nat, w: Weather)
    requires TakesTheLead(cfg, s, i, w) && !w.clear.Refused?
    ensures var s' := Step(cfg, s, TickOf(i, w));
      && Get(s'.store, Handover, s'.now) != Some(i)
      && (Get(s.store, Handover, s.now).Some? && s.store[Handover].owner != i
          ==> Handover in s'.store && s'.store[Handover] == s.store[Handover])
      && !s'.procs[i].task.standby && !s'.procs[i].task.yielded
  {
    TickClears(cfg, i, s.procs[i].task, s.store, s.now, w);
    hide Tick;
  }

  lemma ReachableRun(cfg: Config, s: Sys, es: seq<Event>)
    requires Reachable(cfg, s)
    ensures Reachable(cfg, Run(cfg, s, es))
  {
    var s0, es0 :| Initial(s0) && Run(cfg, s0, es0) == s;
    RunAppend(cfg, s0, es0, es);
  }

  function HandoverRun(i: nat, j: nat): seq<Event> {
    [TickOf(j, Calm), TickOf(i, Calm), TickOf(j, Calm)]
  }

  lemma LeaderAnswersOnly(cfg: Config, s: Sys, i: nat, j: nat)
    requires Requested(cfg, s, i, j)
    ensures var s' := Step(cfg, s, TickOf(i, Calm));
      && Handover in s'.store && s'.store[Handover] == s.store[Handover]
      && (forall k | 0 <= k < |s.procs| && k != i :: s'.procs[k] == s.procs[k])
  {
  }

  lemma WaiterTouchesNoOther(cfg: Config, s: Sys, j: nat)
    requires Runs(s, j)
    ensures var s' := Step(cfg, s, TickOf(j, Calm));
      && |s'.procs| == |s.procs|
      && forall k | 0 <= k < |s.procs| && k != j :: s'.procs[k] == s.procs[k]
  {
  }

  lemma NewLeaderLeavesNoRequest(cfg: Config, s: Sys, j: nat)
    requires Runs(s, j) && !s.procs[j].task.yielded && !s.procs[j].task.stopped && !s.procs[j].task.leader
    requires Lock !in s.store
    ensures Get(Step(cfg, s, TickOf(j, Calm)).store, Handover, s.now) != Some(j)
  {
    FreeLockIsTaken(cfg, s, j);
    LeadClearsOwnRequest(cfg, s, j, Calm);
  }

  /** After a handover the new leader has no request stored, and no third task has moved. */
  lemma HandoverLeavesNoRequest(cfg: Config, s: Sys, i: nat, j: nat)
    requires Reachable(cfg, s) && i != j && FreshLeader(cfg, s, i) && Runs(s, i) && Runs(s, j)
    requires !s.procs[j].task.yielded && !s.procs[j].task.stopped
    requires Get(s.store, Handover, s.now) != Some(i)
    ensures var s' := Run(cfg, s, HandoverRun(i, j));
      && Get(s'.store, Handover, s'.now) != Some(j)
      && |s'.procs| == |s.procs| && !s'.procs[j].crashed
      && (forall k | 0 <= k < |s.procs| && k != i && k != j :: s'.procs[k] == s.procs[k])
  {
    var es := HandoverRun(i, j);
    RunStep(cfg, s, es, 0);
    RunStep(cfg, s, es, 1);
    RunStep(cfg, s, es, 2);
    assert es[..3] == es && es[..0] == [];
    ReachableInv(cfg, s);
    assert OwnsLock(cfg, s, i);
    var s1, s2 := Run(cfg, s, es[..1]), Run(cfg, s, es[..2]);
    WaiterAsks(cfg, s, i, j);
    WaiterTouchesNoOther(cfg, s, j);
    WaiterStillWaits(cfg, s, i, j);
    LeaderAnswers(cfg, s1, i, j);
    LeaderAnswersOnly(cfg, s1, i, j);
    WaiterTouchesNoOther(cfg, s2, j);
    FreeLockIsTaken(cfg, s2, j);
    NewLeaderLeavesNoRequest(cfg, s2, j);
  }

  lemma WaiterStillWaits(cfg: Config, s: Sys, i: nat, j: nat)
    requires i != j && Runs(s, j) && Get(s.store, Lock, s.now) == Some(i)
    requires !s.procs[j].task.yielded && !s.procs[j].task.stopped
    ensures !Step(cfg, s, TickOf(j, Calm)).procs[j].task.leader
  {
  }

  /**
   * Deploys in a row: right after a handover from i to j, one from j to a third
   * task completes as fast, with no assumption on what request was stored.
   */
  lemma SecondHandoverCompletes(cfg: Config, s: Sys, i: nat, j: nat, k: nat)
    requires Reachable(cfg, s) && i != j && FreshLeader(cfg, s, i) && Runs(s, i) && Runs(s, j)
    requires !s.procs[j].task.yielded && !s.procs[j].task.stopped
    requires Get(s.store, Handover, s.now) != Some(i)
    requires k != i && k != j && Runs(s, k) && !s.procs[k].task.yielded && !s.procs[k].task.stopped
    ensures var s' := Run(cfg, s, HandoverRun(i, j) + HandoverRun(j, k));
      && s'.now == s.now && |s'.procs| == |s.procs|
      && OwnsLock(cfg, s', k) && FreshLeader(cfg, s', k) && HasSockets(s'.procs[k].task)
      && s'.procs[j].task.yielded && !s'.procs[j].task.leader
  {
    hide Reachable, Run;
    var m := Run(cfg, s, HandoverRun(i, j));
    HandoverCompletes(cfg, s, i, j);
    HandoverLeavesNoRequest(cfg, s, i, j);
    ReachableRun(cfg, s, HandoverRun(i, j));
    HandoverCompletes(cfg, m, j, k);
    RunAppend(cfg, s, HandoverRun(i, j), HandoverRun(j, k));
  }

  // ---------------------------------------------------------------- renewals

  /** A leader that nobody asks keeps the lock for a full TTL, and has its sockets open. */
  lemma RenewalHolds(cfg: Config, s: Sys, i: nat)
    requires Runs(s, i) && s.procs[i].task.leader && !s.procs[i].task.stopped && !s.procs[i].task.yielded
    requires s.procs[i].task.sockets != Restoring && Get(s.store, Lock, s.now) == Some(i)
    requires Get(s.store, Handover, s.now).None? || Get(s.store, Handover, s.now) == Some(i)
    ensures var s' := Step(cfg, s, TickOf(i, Calm));
      && Lock in s'.store && s'.store[Lock] == Entry(i, s.now + cfg.ttl)
      && s'.procs[i].task.leader && s'.procs[i].task.renewedAt == s.now && HasSockets(s'.procs[i].task)
  {
  }

  /** A take-over whose restore fails leads without sockets, is not ready, and opens them at its next tick. */
  lemma FailedRestoreIsRetried(cfg: Config, s: Sys, i: nat)
    requires Runs(s, i) && !s.procs[i].task.yielded && !s.procs[i].task.stopped && Get(s.store, Lock, s.now).None?
    requires Get(s.store, Handover, s.now).None? || Get(s.store, Handover, s.now) == Some(i)
    ensures var s1 := Step(cfg, s, TickOf(i, Calm.(restoreOk := false)));
      && s1.procs[i].task.leader && !HasSockets(s1.procs[i].task) && !ReadyNow(cfg, s1, i)
      && HasSockets(Step(cfg, s1, TickOf(i, Calm)).procs[i].task)
  {
    var s1 := Step(cfg, s, TickOf(i, Calm.(restoreOk := false)));
    assert s1.store[Lock] == Entry(i, s.now + cfg.ttl) && s1.procs[i].task.sockets == Closed;
    assert Get(s1.store, Handover, s1.now) != Some(i);
    assert Get(s1.store, Handover, s1.now).None?;
    RenewalHolds(cfg, s1, i);
  }

  // ---------------------------------------------------------------- requests

  /** A waiting task's request is stored for its full life, unless a live one is there already, which stays. */
  lemma RequestLivesItsTime(cfg: Config, s: Sys, i: nat, w: Weather)
    requires Runs(s, i) && !s.procs[i].task.stopped && !s.procs[i].task.yielded
    requires Get(s.store, Lock, s.now).Some? && Get(s.store, Lock, s.now) != Some(i)
    requires w.claim.Delivered? && w.read.Delivered? && !w.post.Refused?
    ensures var s' := Step(cfg, s, TickOf(i, w));
      && Handover in s'.store
      && s'.store[Handover] == (if Get(s.store, Handover, s.now).Some? then s.store[Handover]
                                else Entry(i, s.now + cfg.handoverTtl))
      && Lock in s'.store && s'.store[Lock] == s.store[Lock]
  {
  }

  /** The defaults, in milliseconds, keep a request from yielding the lead twice. */
  lemma DefaultsYieldOnce()
    ensures RequestsYieldOnce(Options(20_000, 30_000, 30_000, 60_000))
  {
    OneRequestOneYield(Options(20_000, 30_000, 30_000, 60_000));
  }

  // ---------------------------------------------------------------- starts and shutdowns

  /** A task that has not ticked yet takes traffic: there may be nobody to wait for. */
  lemma NewTaskIsReady(cfg: Config, s: Sys)
    ensures var s' := Step(cfg, s, Start);
      && |s'.procs| == |s.procs| + 1 && Runs(s', |s.procs|) && ReadyNow(cfg, s', |s.procs|)
      && !s'.procs[|s.procs|].task.leader && s'.store == s.store
  {
  }

  /** A leader that shuts down frees the lock at once; any other task that does leaves the store alone. */
  lemma ShutdownFreesTheLock(cfg: Config, s: Sys, i: nat, d: Delivery)
    requires Reachable(cfg, s) && Runs(s, i)
    ensures var s' := Step(cfg, s, ReleaseOf(i, d)); var t := s'.procs[i].task;
      && t.stopped && !t.leader && !HasSockets(t)
      && (FreshLeader(cfg, s, i) && !d.Refused? ==> Lock !in s'.store)
      && (!s.procs[i].task.leader ==> s'.store == s.store)
  {
    ReachableInv(cfg, s);
    if FreshLeader(cfg, s, i) { assert OwnsLock(cfg, s, i); }
  }

  /** A task that has shut down never moves again. */
  lemma StoppedTaskIsIdle(cfg: Config, s: Sys, i: nat, w: Weather)
    requires Runs(s, i) && s.procs[i].task.stopped
    ensures Step(cfg, s, TickOf(i, w)) == s
  {
    assert s.procs[i := s.procs[i]] == s.procs;
  }

  /** So the next task to tick leads in the same instant, without waiting for the lease to run out. */
  lemma SuccessionIsImmediate(cfg: Config, s: Sys, i: nat, j: nat)
    requires Reachable(cfg, s) && i != j && FreshLeader(cfg, s, i) && Runs(s, i) && Runs(s, j)
    requires !s.procs[j].task.yielded && !s.procs[j].task.stopped
    ensures var s' := Step(cfg, Step(cfg, s, ReleaseOf(i, Delivered)), TickOf(j, Calm));
      s'.now == s.now && FreshLeader(cfg, s', j) && HasSockets(s'.procs[j].task)
  {
    ShutdownFreesTheLock(cfg, s, i, Delivered);
    FreeLockIsTaken(cfg, Step(cfg, s, ReleaseOf(i, Delivered)), j);
  }
}
