/**
 * One API task's side of the session-leadership protocol: the transition
 * functions a tick and a shutdown stand for, and the class whose methods
 * execute them step by step against the store.
 */
module SessionLeadership {
  import opened Prelude
  import opened LeaseStore

  /** Redis refuses a non-positive expiry, so both TTLs are positive. */
  datatype Options = Options(ttl: nat, handoverTtl: nat, reacquireAfter: nat, patience: nat) {
    predicate Valid() { 0 < ttl && 0 < handoverTtl }
  }

  type Config = o: Options | o.Valid() witness Options(20_000, 30_000, 30_000, 60_000)

  datatype Sockets = Closed | Restoring | Up

  /**
   * The fields of one task. `renewedAt` is bookkeeping of the model: the time
   * at which this task's last SET NX or PEXPIRE took effect on the server.
   */
  datatype Task = Task(
    leader: bool, sockets: Sockets, yielded: bool, yieldedAt: nat,
    standby: bool, standbySince: nat, stopped: bool, renewedAt: nat)

  const FreshTask := Task(false, Closed, false, 0, false, 0, false, 0)

  /** How the network treats each store call a tick may make, and the restore hook. */
  datatype Weather = Weather(
    probe: Delivery, claim: Delivery, read: Delivery, renew: Delivery, request: Delivery,
    clear: Delivery, drop: Delivery, post: Delivery, restoreOk: bool)

  const Calm := Weather(Delivered, Delivered, Delivered, Delivered, Delivered,
                        Delivered, Delivered, Delivered, true)

  /** Whether the task should take traffic. */
  predicate Ready(cfg: Config, t: Task, now: nat) {
    if t.leader then t.sockets == Up
    else if t.yielded then false
    else if !t.standby then true
    else now - t.standbySince >= cfg.patience
  }

  predicate HasSockets(t: Task) {
    t.leader && t.sockets == Up
  }

  function Restore(t: Task, w: Weather): Task {
    t.(sockets := if w.restoreOk then Up else Closed)
  }

  function BecomeLeader(id: nat, t: Task, c: Contents, now: nat, w: Weather): (Task, Contents) {
    (Restore(t.(leader := true, standby := false, yielded := false), w),
     Through(w.clear, c, DelIfOwned(c, Handover, id, now)))
  }

  function Yield(id: nat, t: Task, c: Contents, now: nat, w: Weather): (Task, Contents) {
    (t.(leader := false, sockets := Closed, yielded := true, yieldedAt := now),
     Through(w.drop, c, DelIfOwned(c, Lock, id, now)))
  }

  /** The tail of a renewal: hand over when a newer task has asked. */
  function AnswerRequest(id: nat, t: Task, c: Contents, now: nat, w: Weather): (Task, Contents) {
    var request := Get(c, Handover, now);
    if w.request.Delivered? && request.Some? && request.value != id then Yield(id, t, c, now, w)
    else (t, c)
  }

  /** The lock is held by this task already. */
  function Renew(cfg: Config, id: nat, t: Task, c: Contents, now: nat, w: Weather): (Task, Contents) {
    var c1 := Through(w.renew, c, PExpire(c, Lock, cfg.ttl, now));
    var t1 := if w.renew.Refused? then t else t.(renewedAt := now);
    if !w.renew.Delivered? then (t1, c1)
    else
      var (t2, c2) := if !t1.leader then BecomeLeader(id, t1, c1, now, w)
                      else if t1.sockets == Closed then (Restore(t1, w), c1)
                      else (t1, c1);
      AnswerRequest(id, t2, c2, now, w)
  }

  /** The lock is held by another task. */
  function StandBy(cfg: Config, id: nat, t: Task, c: Contents, now: nat, w: Weather): (Task, Contents) {
    var t1 := if t.standby then t else t.(standby := true, standbySince := now);
    (if t1.leader then t1.(leader := false, sockets := Closed) else t1,
     Through(w.post, c, SetNx(c, Handover, id, cfg.handoverTtl, now)))
  }

  /** A tick past the yielded check: try to take the lock, else renew it or stand by. */
  function Contend(cfg: Config, id: nat, t: Task, c: Contents, now: nat, w: Weather): (Task, Contents) {
    var free := Get(c, Lock, now).None?;
    var c1 := Through(w.claim, c, SetNx(c, Lock, id, cfg.ttl, now));
    var t1 := if free && !w.claim.Refused? then t.(renewedAt := now) else t;
    if !w.claim.Delivered? then (t1, c1)
    else if free then BecomeLeader(id, t1, c1, now, w)
    else if !w.read.Delivered? then (t1, c1)
    else if Get(c1, Lock, now) == Some(id) then Renew(cfg, id, t1, c1, now, w)
    else StandBy(cfg, id, t1, c1, now, w)
  }

  /** A yielded task takes the lock back only here, once it was free for long enough. */
  predicate TakesBack(cfg: Config, t: Task, c: Contents, now: nat, w: Weather) {
    && !t.stopped && t.yielded && w.probe.Delivered?
    && Get(c, Lock, now).None?
    && now - t.yieldedAt >= cfg.reacquireAfter
  }

  /** One tick, at one instant. */
  function Tick(cfg: Config, id: nat, t: Task, c: Contents, now: nat, w: Weather): (Task, Contents) {
    if t.stopped then (t, c)
    else if !t.yielded then Contend(cfg, id, t, c, now, w)
    else if TakesBack(cfg, t, c, now, w) then Contend(cfg, id, t.(yielded := false), c, now, w)
    else if w.probe.Delivered? && Get(c, Lock, now).Some? then (t.(yieldedAt := now), c)
    else (t, c)
  }

  /** Shutdown: not leader any more, and the lock dropped if it was held. */
  function Release(id: nat, t: Task, c: Contents, now: nat, d: Delivery): (Task, Contents) {
    (t.(stopped := true, leader := false, sockets := Closed),
     if t.leader then Through(d, c, DelIfOwned(c, Lock, id, now)) else c)
  }

  class LeadershipTask {
    const cfg: Config
    const id: nat
    var leader: bool
    var sockets: Sockets
    var yielded: bool
    var yieldedAt: nat
    var standby: bool
    var standbySince: nat
    var stopped: bool
    ghost var renewedAt: nat

    ghost function View(): Task
      reads this
    {
      Task(leader, sockets, yielded, yieldedAt, standby, standbySince, stopped, renewedAt)
    }

    constructor (cfg: Config, id: nat)
      ensures this.cfg == cfg && this.id == id && View() == FreshTask
    {
      this.cfg := cfg;
      this.id := id;
      leader, sockets, yielded, yieldedAt := false, Closed, false, 0;
      standby, standbySince, stopped, renewedAt := false, 0, false, 0;
    }

    method RestoreSockets(w: Weather)
      modifies this`sockets
      ensures View() == Restore(old(View()), w)
    {
      sockets := Restoring;
      if w.restoreOk {
        sockets := Up;
      } else {
        sockets := Closed;
      }
    }

    method TakeLead(store: RedisStore, now: nat, w: Weather)
      modifies this, store
      ensures (View(), store.contents) == BecomeLeader(id, old(View()), old(store.contents), now, w)
    {
      leader := true;
      standby := false;
      yielded := false;
      var _ := store.DeleteIfOwned(Handover, id, now, w.clear);
      RestoreSockets(w);
    }

    method YieldLead(store: RedisStore, now: nat, w: Weather)
      modifies this, store
      ensures (View(), store.contents) == Yield(id, old(View()), old(store.contents), now, w)
    {
      leader := false;
      sockets := Closed;
      yielded := true;
      yieldedAt := now;
      var _ := store.DeleteIfOwned(Lock, id, now, w.drop);
    }

    method MayReacquire(store: RedisStore, now: nat, w: Weather) returns (r: bool)
      requires !stopped && yielded
      modifies this
      ensures r == TakesBack(cfg, old(View()), store.contents, now, w)
      ensures r ==> View() == old(View()).(yielded := false)
      ensures !r ==> (View(), store.contents) == Tick(cfg, id, old(View()), store.contents, now, w)
    {
      var holder := store.ReadKey(Lock, now, w.probe);
      if holder.Threw? { return false; }
      if holder.value.Some? {
        yieldedAt := now;
        return false;
      }
      if now - yieldedAt < cfg.reacquireAfter { return false; }
      yielded := false;
      return true;
    }

    /** The renewing half of a tick, after the lock was read as this task's own. */
    method RenewLease(store: RedisStore, now: nat, w: Weather)
      modifies this, store
      ensures (View(), store.contents) == Renew(cfg, id, old(View()), old(store.contents), now, w)
    {
      var extended := store.ExtendKey(Lock, cfg.ttl, now, w.renew);
      if !w.renew.Refused? { renewedAt := now; }
      if extended.Threw? { return; }
      if !leader {
        TakeLead(store, now, w);
      } else if sockets == Closed {
        RestoreSockets(w);
      }
      var request := store.ReadKey(Handover, now, w.request);
      if request.Answer? && request.value.Some? && request.value.value != id {
        YieldLead(store, now, w);
      }
    }

    method RunTick(store: RedisStore, now: nat, w: Weather)
      modifies this, store
      ensures (View(), store.contents) == Tick(cfg, id, old(View()), old(store.contents), now, w)
    {
      if stopped { return; }
      if yielded {
        var may := MayReacquire(store, now, w);
        if !may { return; }
      }
      var acquired := store.ClaimKey(Lock, id, cfg.ttl, now, w.claim);
      if Get(old(store.contents), Lock, now).None? && !w.claim.Refused? { renewedAt := now; }
      if acquired.Threw? { return; }
      if acquired.value {
        TakeLead(store, now, w);
        return;
      }
      var holder := store.ReadKey(Lock, now, w.read);
      if holder.Threw? { return; }
      if holder.value == Some(id) {
        RenewLease(store, now, w);
        return;
      }
      if !standby {
        standby := true;
        standbySince := now;
      }
      if leader {
        leader := false;
        sockets := Closed;
      }
      var _ := store.ClaimKey(Handover, id, cfg.handoverTtl, now, w.post);
    }

    method Shutdown(store: RedisStore, now: nat, d: Delivery)
      modifies this, store
      ensures (View(), store.contents) == Release(id, old(View()), old(store.contents), now, d)
    {
      stopped := true;
      var held := leader;
      leader := false;
      sockets := Closed;
      if !held { return; }
      var _ := store.DeleteIfOwned(Lock, id, now, d);
    }
  }
}
