/**
 * The leadership protocol at the grain of its awaits. A tick or a shutdown is a
 * thread that sends one store command at a time; the server executes it at one
 * instant, the task handles the answer at another, and anything can happen in
 * between: other tasks' commands, the clock, a second tick of the same task, its
 * own shutdown. A run of one tick with nothing in between is the atomic tick.
 */
module LeadershipAwaits {
  import opened Prelude
  import opened LeaseStore
  import opened SessionLeadership

  /** The awaited calls; `ask` tells a take-over found by renewing, which goes on to ask for requests. */
  datatype Cmd =
    | Probe | Claim | Read | Extend | Clear(ask: bool) | Open(ask: bool) | Request | Drop | Post

  datatype Outcome = Holder(id: Option<nat>) | Won(yes: bool) | Done | Failed

  datatype Thread = Idle | Sent(cmd: Cmd) | Answered(cmd: Cmd, out: Outcome)

  datatype Proc = Proc(task: Task, crashed: bool, threads: seq<Thread>)

  datatype Sys = Sys(now: nat, store: Contents, procs: seq<Proc>)

  datatype Event =
    | Advance(ms: nat)
    | Start
    | BeginTick(i: nat)
    | BeginRelease(i: nat)
    | Serve(i: nat, k: nat, d: Delivery)
    | Resume(i: nat, k: nat)
    | Crash(i: nat)

  // ---------------------------------------------------------------- one thread

  function Begun(t: Task): Thread {
    if t.stopped then Idle else if t.yielded then Sent(Probe) else Sent(Claim)
  }

  /** What the server executes. */
  function Executed(cfg: Config, id: nat, cmd: Cmd, c: Contents, now: nat): Contents {
    match cmd
    case Claim => SetNx(c, Lock, id, cfg.ttl, now)
    case Extend => PExpire(c, Lock, cfg.ttl, now)
    case Clear(_) => DelIfOwned(c, Handover, id, now)
    case Drop => DelIfOwned(c, Lock, id, now)
    case Post => SetNx(c, Handover, id, cfg.handoverTtl, now)
    case _ => c
  }

  function AnswerTo(cmd: Cmd, c: Contents, now: nat): Outcome {
    match cmd
    case Claim => Won(Get(c, Lock, now).None?)
    case Probe => Holder(Get(c, Lock, now))
    case Read => Holder(Get(c, Lock, now))
    case Request => Holder(Get(c, Handover, now))
    case _ => Done
  }

  /** The command renews as far as the task can tell: it won the lock, or extended it unseen. */
  predicate Renews(cmd: Cmd, c: Contents, now: nat) {
    cmd == Extend || (cmd == Claim && Get(c, Lock, now).None?)
  }

  function Served(
      cfg: Config, id: nat, t: Task, cmd: Cmd, c: Contents, now: nat, d: Delivery): (Task, Thread, Contents)
  {
    (if Renews(cmd, c, now) && !d.Refused? then t.(renewedAt := now) else t,
     Answered(cmd, if d.Delivered? then AnswerTo(cmd, c, now) else Failed),
     Through(d, c, Executed(cfg, id, cmd, c, now)))
  }

  /** The part of a shutdown before its await. */
  function Stopping(t: Task): Task {
    t.(stopped := true, leader := false, sockets := Closed)
  }

  function DropIfLed(t: Task): Thread {
    if t.leader then Sent(Drop) else Idle
  }

  function TakingLead(t: Task): Task {
    t.(leader := true, standby := false, yielded := false)
  }

  /** The code from one await to the next. */
  function Resumed(cfg: Config, id: nat, t: Task, cmd: Cmd, out: Outcome, now: nat): (Task, Thread) {
    match cmd
    case Probe =>
      if !out.Holder? then (t, Idle)
      else if out.id.Some? then (t.(yieldedAt := now), Idle)
      else if now - t.yieldedAt < cfg.reacquireAfter then (t, Idle)
      else (t.(yielded := false), Sent(Claim))
    case Claim =>
      if !out.Won? then (t, Idle)
      else if out.yes then (TakingLead(t), Sent(Clear(false)))
      else (t, Sent(Read))
    case Read =>
      if !out.Holder? then (t, Idle)
      else if out.id == Some(id) then (t, Sent(Extend))
      else
        var t1 := if t.standby then t else t.(standby := true, standbySince := now);
        (if t1.leader then t1.(leader := false, sockets := Closed) else t1, Sent(Post))
    case Extend =>
      if out != Done then (t, Idle)
      else if !t.leader then (TakingLead(t), Sent(Clear(true)))
      else if t.sockets == Closed then (t.(sockets := Restoring), Sent(Open(true)))
      else (t, Sent(Request))
    case Clear(ask) => (t.(sockets := Restoring), Sent(Open(ask)))
    case Open(ask) =>
      (t.(sockets := if out.Failed? then Closed else Up), if ask then Sent(Request) else Idle)
    case Request =>
      if out.Holder? && out.id.Some? && out.id.value != id
      then (t.(leader := false, sockets := Closed, yielded := true, yieldedAt := now), Sent(Drop))
      else (t, Idle)
    case Drop => (t, Idle)
    case Post => (t, Idle)
  }

  // ---------------------------------------------------------------- alone, it is the atomic tick

  function DeliveryOf(w: Weather, cmd: Cmd): Delivery {
    match cmd
    case Probe => w.probe
    case Claim => w.claim
    case Read => w.read
    case Extend => w.renew
    case Clear(_) => w.clear
    case Open(_) => if w.restoreOk then Delivered else Refused
    case Request => w.request
    case Drop => w.drop
    case Post => w.post
  }

  function Ahead(a: Thread): nat {
    match a
    case Idle => 0
    case Answered(_, _) => 0
    case Sent(cmd) =>
      match cmd
      case Probe => 9 case Claim => 8 case Read => 7 case Extend => 6 case Clear(_) => 5
      case Open(_) => 4 case Request => 3 case Drop => 2 case Post => 1
  }

  /** A thread run to its end at one instant, with nothing in between. */
  function Alone(cfg: Config, id: nat, t: Task, a: Thread, c: Contents, now: nat, w: Weather): (Task, Contents)
    decreases Ahead(a)
  {
    if !a.Sent? then (t, c)
    else
      var s := Served(cfg, id, t, a.cmd, c, now, DeliveryOf(w, a.cmd));
      var r := Resumed(cfg, id, s.0, a.cmd, s.1.out, now);
      if Ahead(r.1) < Ahead(a) then Alone(cfg, id, r.0, r.1, s.2, now, w) else (r.0, s.2)
  }

  /** The atomic tick is the thread's run with nothing in between. */
  lemma AloneIsAtomic(cfg: Config, id: nat, t: Task, c: Contents, now: nat, w: Weather)
    ensures Alone(cfg, id, t, Begun(t), c, now, w) == Tick(cfg, id, t, c, now, w)
  {
    if !t.stopped {
      if !t.yielded {
        AloneContends(cfg, id, t, c, now, w);
      } else {
        AloneContends(cfg, id, t.(yielded := false), c, now, w);
      }
    }
  }

  /** And a shutdown with nothing in between is the atomic one. */
  lemma AloneShutdownIsAtomic(cfg: Config, id: nat, t: Task, c: Contents, now: nat, w: Weather)
    ensures Alone(cfg, id, Stopping(t), DropIfLed(t), c, now, w) == Release(id, t, c, now, w.drop)
  {
  }

  lemma AloneContends(cfg: Config, id: nat, t: Task, c: Contents, now: nat, w: Weather)
    requires !t.stopped
    ensures Alone(cfg, id, t, Sent(Claim), c, now, w) == Contend(cfg, id, t, c, now, w)
  {
    hide Renew, BecomeLeader;
    var s := Served(cfg, id, t, Claim, c, now, w.claim);
    var r := Resumed(cfg, id, s.0, Claim, s.1.out, now);
    if r.1 == Sent(Read) {
      if Get(s.2, Lock, now) == Some(id) { AloneRenews(cfg, id, r.0, s.2, now, w); }
    } else if r.1 == Sent(Clear(false)) {
      AloneOpens(cfg, id, s.0, false, s.2, now, w);
    }
  }

  lemma AloneOpens(cfg: Config, id: nat, t: Task, ask: bool, c: Contents, now: nat, w: Weather)
    ensures var b := BecomeLeader(id, t, c, now, w);
      Alone(cfg, id, TakingLead(t), Sent(Clear(ask)), c, now, w)
      == if ask then Alone(cfg, id, b.0, Sent(Request), b.1, now, w) else b
  {
  }

  lemma AloneAnswers(cfg: Config, id: nat, t: Task, c: Contents, now: nat, w: Weather)
    ensures Alone(cfg, id, t, Sent(Request), c, now, w) == AnswerRequest(id, t, c, now, w)
  {
  }

  lemma AloneRenews(cfg: Config, id: nat, t: Task, c: Contents, now: nat, w: Weather)
    ensures Alone(cfg, id, t, Sent(Extend), c, now, w) == Renew(cfg, id, t, c, now, w)
  {
    var s := Served(cfg, id, t, Extend, c, now, w.renew);
    if w.renew.Delivered? {
      if !t.leader {
        AloneOpens(cfg, id, s.0, true, s.2, now, w);
        var b := BecomeLeader(id, s.0, s.2, now, w);
        AloneAnswers(cfg, id, b.0, b.1, now, w);
      } else if t.sockets == Closed {
        AloneAnswers(cfg, id, Restore(s.0, w), s.2, now, w);
      } else {
        AloneAnswers(cfg, id, s.0, s.2, now, w);
      }
    }
  }

  // ---------------------------------------------------------------- the cluster

  predicate HasThread(s: Sys, i: nat, k: nat) {
    i < |s.procs| && k < |s.procs[i].threads|
  }

  /**
   * What an event does to its own task and the store. A command already sent is
   * served even when its sender has crashed; an answer is then handled by nobody.
   */
  function Acted(cfg: Config, i: nat, p: Proc, c: Contents, now: nat, e: Event): (Proc, Contents)
    requires !e.Advance? && !e.Start?
  {
    match e
    case Crash(_) => (p.(crashed := true), c)
    case BeginTick(_) => if p.crashed then (p, c) else (p.(threads := p.threads + [Begun(p.task)]), c)
    case BeginRelease(_) =>
      if p.crashed then (p, c)
      else (p.(task := Stopping(p.task), threads := p.threads + [DropIfLed(p.task)]), c)
    case Serve(_, k, d) =>
      if k < |p.threads| && p.threads[k].Sent? then
        var (t, a, c') := Served(cfg, i, p.task, p.threads[k].cmd, c, now, d);
        (p.(task := t, threads := p.threads[k := a]), c')
      else (p, c)
    case Resume(_, k) =>
      if k < |p.threads| && p.threads[k].Answered? && !p.crashed then
        var (t, a) := Resumed(cfg, i, p.task, p.threads[k].cmd, p.threads[k].out, now);
        (p.(task := t, threads := p.threads[k := a]), c)
      else (p, c)
  }

  function Step(cfg: Config, s: Sys, e: Event): Sys {
    match e
    case Advance(ms) => s.(now := s.now + ms)
    case Start => s.(procs := s.procs + [Proc(FreshTask, false, [])])
    case _ =>
      if e.i < |s.procs| then
        var (p, c) := Acted(cfg, e.i, s.procs[e.i], s.store, s.now, e);
        s.(store := c, procs := s.procs[e.i := p])
      else s
  }

  function Run(cfg: Config, s: Sys, es: seq<Event>): Sys {
    if es == [] then s
    else Step(cfg, Run(cfg, s, es[..|es| - 1]), es[|es| - 1])
  }

  predicate Initial(s: Sys) {
    s.store == map[] && s.procs == []
  }

  // ---------------------------------------------------------------- what safety needs

  /** A thread on its way to leading, or to staying leader, on the strength of what it last heard. */
  predicate Promised(i: nat, a: Thread) {
    || a == Answered(Claim, Won(true))
    || a == Answered(Read, Holder(Some(i)))
    || a == Sent(Extend)
    || a == Answered(Extend, Done)
  }

  /** The task leads or is about to say it does. */
  predicate Counts(i: nat, p: Proc) {
    p.task.leader || exists k :: 0 <= k < |p.threads| && Promised(i, p.threads[k])
  }

  predicate Claims(s: Sys, i: nat) {
    i < |s.procs| && Counts(i, s.procs[i])
  }

  predicate UnderTtl(cfg: Config, s: Sys, i: nat) {
    i < |s.procs| && s.now < s.procs[i].task.renewedAt + cfg.ttl
  }

  predicate SendsNow(s: Sys, e: Event, cmd: Cmd) {
    e.Serve? && !e.d.Refused? && HasThread(s, e.i, e.k) && s.procs[e.i].threads[e.k] == Sent(cmd)
  }

  /** The bound on the delay between reading the lock and extending it. */
  predicate ExtendsInTime(cfg: Config, s: Sys, e: Event) {
    SendsNow(s, e, Extend) ==> UnderTtl(cfg, s, e.i)
  }

  /** The lock is not dropped while the same task, under its TTL, leads or has a thread that counts on it. */
  predicate DropsAlone(cfg: Config, s: Sys, e: Event) {
    SendsNow(s, e, Drop) ==> !(Claims(s, e.i) && UnderTtl(cfg, s, e.i))
  }

  predicate OwnsLock(cfg: Config, s: Sys, i: nat) {
    i < |s.procs| && Lock in s.store && s.store[Lock] == Entry(i, s.procs[i].task.renewedAt + cfg.ttl)
  }

  ghost predicate LeaseInv(cfg: Config, s: Sys) {
    && (forall i: nat :: Claims(s, i) && UnderTtl(cfg, s, i) ==> OwnsLock(cfg, s, i))
    && (Lock in s.store ==> OwnsLock(cfg, s, s.store[Lock].owner))
  }

  predicate Quiet(s: Sys, i: nat) {
    i < |s.procs| ==> forall k | 0 <= k < |s.procs[i].threads| :: s.procs[i].threads[k].Idle?
  }

  /** A task's ticks do not overlap each other or its shutdown. */
  predicate BeginsQuiet(s: Sys, e: Event) {
    (e.BeginTick? || e.BeginRelease?) ==> Quiet(s, e.i)
  }

  datatype Rule = InTime | AloneDrops | OneByOne

  predicate Allows(cfg: Config, rule: Rule, s: Sys, e: Event) {
    match rule
    case InTime => ExtendsInTime(cfg, s, e)
    case AloneDrops => DropsAlone(cfg, s, e)
    case OneByOne => BeginsQuiet(s, e)
  }

  /** The run keeps the rule at every event. */
  ghost predicate Obeys(cfg: Config, rule: Rule, s: Sys, es: seq<Event>) {
    forall k | 0 <= k < |es| :: Allows(cfg, rule, Run(cfg, s, es[..k]), es[k])
  }

  lemma ObeysFront(cfg: Config, rule: Rule, s: Sys, es: seq<Event>)
    requires es != [] && Obeys(cfg, rule, s, es)
    ensures Obeys(cfg, rule, s, es[..|es| - 1]) && Allows(cfg, rule, Run(cfg, s, es[..|es| - 1]), es[|es| - 1])
  {
    var front := es[..|es| - 1];
    forall k | 0 <= k < |front| ensures Allows(cfg, rule, Run(cfg, s, front[..k]), front[k]) {
      assert front[..k] == es[..k] && front[k] == es[k];
    }
  }

  lemma ObeysSnoc(cfg: Config, rule: Rule, s: Sys, es: seq<Event>, e: Event)
    requires Obeys(cfg, rule, s, es) && Allows(cfg, rule, Run(cfg, s, es), e)
    ensures Obeys(cfg, rule, s, es + [e]) && Run(cfg, s, es + [e]) == Step(cfg, Run(cfg, s, es), e)
  {
    var all := es + [e];
    assert all[..|es|] == es;
    forall k | 0 <= k < |all| ensures Allows(cfg, rule, Run(cfg, s, all[..k]), all[k]) {
      if k < |es| { assert all[..k] == es[..k]; }
    }
  }

  /** A thread's move makes the task count on the lock only if it did, or by what the thread now holds. */
  lemma CountsThrough(i: nat, p: Proc, k: nat, t: Task, a: Thread)
    requires k < |p.threads|
    ensures Counts(i, p.(task := t, threads := p.threads[k := a])) ==> Counts(i, p) || t.leader || Promised(i, a)
  {
    var p' := p.(task := t, threads := p.threads[k := a]);
    if m :| 0 <= m < |p'.threads| && m != k && Promised(i, p'.threads[m]) {
      assert Promised(i, p.threads[m]);
    }
  }

  /** The cluster after one task's move. */
  function WithProc(s: Sys, i: nat, p: Proc, c: Contents): Sys
    requires i < |s.procs|
  {
    s.(store := c, procs := s.procs[i := p])
  }

  /** Moves that renew nothing and leave the lock alone. */
  lemma PlainMoveKeepsInv(cfg: Config, s: Sys, i: nat, p: Proc, c: Contents)
    requires LeaseInv(cfg, s) && i < |s.procs| && p.task.renewedAt == s.procs[i].task.renewedAt
    requires (Lock in c <==> Lock in s.store) && (Lock in c ==> c[Lock] == s.store[Lock])
    requires Counts(i, p) ==> Claims(s, i) || Get(s.store, Lock, s.now) == Some(i)
    ensures LeaseInv(cfg, WithProc(s, i, p, c))
  {
    var s' := WithProc(s, i, p, c);
    forall j: nat | Claims(s', j) && UnderTtl(cfg, s', j) ensures OwnsLock(cfg, s', j) {
      assert j != i ==> Claims(s, j);
      assert OwnsLock(cfg, s, j);
    }
  }

  /** Moves that write the lock in the task's name, renewing it. */
  lemma RenewingMoveKeepsInv(cfg: Config, s: Sys, i: nat, p: Proc, c: Contents)
    requires LeaseInv(cfg, s) && i < |s.procs| && p.task.renewedAt == s.now
    requires Get(s.store, Lock, s.now).None? || s.store[Lock].owner == i
    requires Lock in c && c[Lock] == Entry(i, s.now + cfg.ttl)
    ensures LeaseInv(cfg, WithProc(s, i, p, c))
  {
    var s' := WithProc(s, i, p, c);
    forall j: nat | Claims(s', j) && UnderTtl(cfg, s', j) ensures OwnsLock(cfg, s', j) {
      assert j != i ==> Claims(s, j);
    }
  }

  /** Dropping the lock of a task that does not, under its TTL, count on it. */
  lemma DropKeepsInv(cfg: Config, s: Sys, i: nat, p: Proc)
    requires LeaseInv(cfg, s) && i < |s.procs| && p.task.renewedAt == s.procs[i].task.renewedAt
    requires !(Counts(i, p) && s.now < p.task.renewedAt + cfg.ttl)
    ensures LeaseInv(cfg, WithProc(s, i, p, DelIfOwned(s.store, Lock, i, s.now)))
  {
    var s' := WithProc(s, i, p, DelIfOwned(s.store, Lock, i, s.now));
    forall j: nat | Claims(s', j) && UnderTtl(cfg, s', j) ensures OwnsLock(cfg, s', j) {
      assert Claims(s, j);
      assert OwnsLock(cfg, s, j);
    }
  }

  lemma ServeKeepsInv(cfg: Config, s: Sys, e: Event)
    requires LeaseInv(cfg, s) && ExtendsInTime(cfg, s, e) && DropsAlone(cfg, s, e)
    requires e.Serve? && HasThread(s, e.i, e.k) && s.procs[e.i].threads[e.k].Sent?
    ensures LeaseInv(cfg, Step(cfg, s, e))
  {
    hide LeaseInv;
    var i, k, d, p := e.i, e.k, e.d, s.procs[e.i];
    var cmd := p.threads[k].cmd;
    var (t', a, c) := Served(cfg, i, p.task, cmd, s.store, s.now, d);
    var p' := p.(task := t', threads := p.threads[k := a]);
    CountsThrough(i, p, k, t', a);
    if cmd == Drop && !d.Refused? {
      DropKeepsInv(cfg, s, i, p');
    } else if Renews(cmd, s.store, s.now) && !d.Refused? {
      if cmd == Extend { ExtendsOwn(cfg, s, i, k); }
      RenewingMoveKeepsInv(cfg, s, i, p', c);
    } else {
      PlainMoveKeepsInv(cfg, s, i, p', c);
    }
  }

  /** An extension in time meets the task's own unexpired lock. */
  lemma ExtendsOwn(cfg: Config, s: Sys, i: nat, k: nat)
    requires LeaseInv(cfg, s) && HasThread(s, i, k) && s.procs[i].threads[k] == Sent(Extend) && UnderTtl(cfg, s, i)
    ensures Get(s.store, Lock, s.now) == Some(i)
  {
    assert Promised(i, s.procs[i].threads[k]);
    assert Claims(s, i);
  }

  lemma ResumeKeepsInv(cfg: Config, s: Sys, e: Event)
    requires LeaseInv(cfg, s)
    requires e.Resume? && HasThread(s, e.i, e.k) && s.procs[e.i].threads[e.k].Answered? && !s.procs[e.i].crashed
    ensures LeaseInv(cfg, Step(cfg, s, e))
  {
    hide LeaseInv;
    var i, p, a := e.i, s.procs[e.i], s.procs[e.i].threads[e.k];
    var (t', a') := Resumed(cfg, i, p.task, a.cmd, a.out, s.now);
    CountsThrough(i, p, e.k, t', a');
    assert t'.leader || Promised(i, a') ==> p.task.leader || Promised(i, a);
    assert p.task.leader || Promised(i, a) ==> Claims(s, i);
    PlainMoveKeepsInv(cfg, s, i, p.(task := t', threads := p.threads[e.k := a']), s.store);
  }

  lemma LeaseInvStep(cfg: Config, s: Sys, e: Event)
    requires LeaseInv(cfg, s) && ExtendsInTime(cfg, s, e) && DropsAlone(cfg, s, e)
    ensures LeaseInv(cfg, Step(cfg, s, e))
  {
    var s' := Step(cfg, s, e);
    if e.Serve? && HasThread(s, e.i, e.k) && s.procs[e.i].threads[e.k].Sent? {
      ServeKeepsInv(cfg, s, e);
    } else if e.Resume? && HasThread(s, e.i, e.k) && s.procs[e.i].threads[e.k].Answered? && !s.procs[e.i].crashed {
      ResumeKeepsInv(cfg, s, e);
    } else {
      forall j: nat | Claims(s', j) && UnderTtl(cfg, s', j) ensures OwnsLock(cfg, s', j) {
        assert Claims(s, j);
      }
    }
  }

  /**
   * The condition on drops is exact: from a state that keeps the lease, an
   * executed drop keeps it if and only if nothing of the task, under its TTL,
   * counts on the lock.
   */
  lemma DropKeepsExactly(cfg: Config, s: Sys, e: Event)
    requires LeaseInv(cfg, s) && SendsNow(s, e, Drop)
    ensures LeaseInv(cfg, Step(cfg, s, e)) <==> !(Claims(s, e.i) && UnderTtl(cfg, s, e.i))
  {
    if Claims(s, e.i) && UnderTtl(cfg, s, e.i) {
      var s' := Step(cfg, s, e);
      StillCounts(e.i, s.procs[e.i], e.k, s'.procs[e.i].threads[e.k]);
      assert Claims(s', e.i) && UnderTtl(cfg, s', e.i) && !OwnsLock(cfg, s', e.i);
    } else {
      LeaseInvStep(cfg, s, e);
    }
  }

  /** A thread that did not count before its move leaves the rest of the task counting. */
  lemma StillCounts(i: nat, p: Proc, k: nat, a: Thread)
    requires k < |p.threads| && Counts(i, p) && !Promised(i, p.threads[k])
    ensures Counts(i, p.(threads := p.threads[k := a]))
  {
    if !p.task.leader {
      var m :| 0 <= m < |p.threads| && Promised(i, p.threads[m]);
      assert Promised(i, p.threads[k := a][m]);
    }
  }

  /**
   * So is the condition on extensions: answered, one keeps the lease if and
   * only if it meets the task's own unexpired lock, which is to say if and only
   * if it lands within the TTL of the renewal before it.
   */
  lemma ExtensionKeepsExactly(cfg: Config, s: Sys, e: Event)
    requires LeaseInv(cfg, s) && SendsNow(s, e, Extend) && e.d.Delivered?
    ensures LeaseInv(cfg, Step(cfg, s, e)) <==> Get(s.store, Lock, s.now) == Some(e.i)
    ensures LeaseInv(cfg, Step(cfg, s, e)) <==> UnderTtl(cfg, s, e.i)
  {
    var s' := Step(cfg, s, e);
    OwnLockIsUnderTtl(cfg, s, e.i, e.k);
    if UnderTtl(cfg, s, e.i) {
      LeaseInvStep(cfg, s, e);
    } else {
      assert Promised(e.i, s'.procs[e.i].threads[e.k]);
      assert Claims(s', e.i) && UnderTtl(cfg, s', e.i) && !OwnsLock(cfg, s', e.i);
    }
  }

  lemma OwnLockIsUnderTtl(cfg: Config, s: Sys, i: nat, k: nat)
    requires LeaseInv(cfg, s) && HasThread(s, i, k) && s.procs[i].threads[k] == Sent(Extend)
    ensures Get(s.store, Lock, s.now) == Some(i) <==> UnderTtl(cfg, s, i)
  {
    assert Promised(i, s.procs[i].threads[k]);
    assert Claims(s, i);
  }

  lemma {:induction false} LeaseInvThroughoutRun(cfg: Config, s: Sys, es: seq<Event>)
    requires Initial(s) && Obeys(cfg, InTime, s, es) && Obeys(cfg, AloneDrops, s, es)
    ensures LeaseInv(cfg, Run(cfg, s, es))
  {
    if es != [] {
      ObeysFront(cfg, InTime, s, es);
      ObeysFront(cfg, AloneDrops, s, es);
      LeaseInvThroughoutRun(cfg, s, es[..|es| - 1]);
      LeaseInvStep(cfg, Run(cfg, s, es[..|es| - 1]), es[|es| - 1]);
    }
  }

  /**
   * At the grain of awaits, with any overlap of ticks and shutdowns: at most one
   * task leads, or is about to, on a renewal under one TTL old, provided that
   * every extension lands within the TTL of the one before it and that a task
   * drops the lock only when nothing of its own still counts on it.
   */
  lemma AtMostOneClaim(cfg: Config, s: Sys, es: seq<Event>, i: nat, j: nat)
    requires Initial(s) && Obeys(cfg, InTime, s, es) && Obeys(cfg, AloneDrops, s, es)
    requires var m := Run(cfg, s, es); Claims(m, i) && UnderTtl(cfg, m, i) && Claims(m, j) && UnderTtl(cfg, m, j)
    ensures i == j
  {
    LeaseInvThroughoutRun(cfg, s, es);
  }

  // ---------------------------------------------------------------- one thread at a time suffices

  /** At most one thread of a task is under way, and none drops the lock of a task that leads. */
  ghost predicate OneUnderWay(s: Sys) {
    forall i: nat, k: nat | HasThread(s, i, k) && !s.procs[i].threads[k].Idle? ::
      && (forall m: nat | HasThread(s, i, m) && m != k :: s.procs[i].threads[m].Idle?)
      && (s.procs[i].threads[k] == Sent(Drop) ==> !s.procs[i].task.leader)
  }

  lemma OneUnderWayStep(cfg: Config, s: Sys, e: Event)
    requires OneUnderWay(s) && BeginsQuiet(s, e)
    ensures OneUnderWay(Step(cfg, s, e)) && DropsAlone(cfg, s, e)
  {
    hide Executed, AnswerTo, Renews;
  }

  lemma {:induction false} OneByOneDropsAlone(cfg: Config, s: Sys, es: seq<Event>)
    requires Initial(s) && Obeys(cfg, OneByOne, s, es)
    ensures OneUnderWay(Run(cfg, s, es)) && Obeys(cfg, AloneDrops, s, es)
  {
    if es != [] {
      var front := es[..|es| - 1];
      ObeysFront(cfg, OneByOne, s, es);
      OneByOneDropsAlone(cfg, s, front);
      OneUnderWayStep(cfg, Run(cfg, s, front), es[|es| - 1]);
      ObeysSnoc(cfg, AloneDrops, s, front, es[|es| - 1]);
      assert es == front + [es[|es| - 1]];
    }
  }

  /** Tasks whose ticks and shutdowns do not overlap need only extend in time. */
  lemma OrderlyTasksExclude(cfg: Config, s: Sys, es: seq<Event>, i: nat, j: nat)
    requires Initial(s) && Obeys(cfg, OneByOne, s, es) && Obeys(cfg, InTime, s, es)
    requires var m := Run(cfg, s, es); Claims(m, i) && UnderTtl(cfg, m, i) && Claims(m, j) && UnderTtl(cfg, m, j)
    ensures i == j
  {
    OneByOneDropsAlone(cfg, s, es);
    AtMostOneClaim(cfg, s, es, i, j);
  }

  // ---------------------------------------------------------------- neither condition can go

  ghost predicate Reaches(cfg: Config, rule: Rule, s: Sys) {
    exists es :: Obeys(cfg, rule, Empty, es) && Run(cfg, Empty, es) == s
  }

  const Empty := Sys(0, map[], [])

  lemma ReachesEmpty(cfg: Config, rule: Rule)
    ensures Reaches(cfg, rule, Empty)
  {
    assert Run(cfg, Empty, []) == Empty && Obeys(cfg, rule, Empty, []);
  }

  lemma Go(cfg: Config, rule: Rule, s: Sys, e: Event)
    requires Reaches(cfg, rule, s) && Allows(cfg, rule, s, e)
    ensures Reaches(cfg, rule, Step(cfg, s, e))
  {
    var es :| Obeys(cfg, rule, Empty, es) && Run(cfg, Empty, es) == s;
    hide Step, Allows;
    ObeysSnoc(cfg, rule, Empty, es, e);
  }

  /** A cluster of two tasks. */
  function Two(now: nat, c: Contents, x: Proc, y: Proc): Sys {
    Sys(now, c, [x, y])
  }

  /** Equal, field by field. */
  predicate Alike(r: (Proc, Contents), p: Proc, c: Contents) {
    r.0.task == p.task && r.0.crashed == p.crashed && r.0.threads == p.threads && r.1 == c
  }

  /** An event of task 0. */
  lemma GoX(cfg: Config, rule: Rule, now: nat, c: Contents, x: Proc, y: Proc, e: Event, x': Proc, c': Contents)
    requires Reaches(cfg, rule, Two(now, c, x, y)) && Allows(cfg, rule, Two(now, c, x, y), e)
    requires !e.Advance? && !e.Start? && e.i == 0 && Alike(Acted(cfg, 0, x, c, now, e), x', c')
    ensures Reaches(cfg, rule, Two(now, c', x', y))
  {
    hide Reaches, Acted, Allows;
    Go(cfg, rule, Two(now, c, x, y), e);
    assert [x, y][0 := x'] == [x', y];
  }

  /** An event of task 1. */
  lemma GoY(cfg: Config, rule: Rule, now: nat, c: Contents, x: Proc, y: Proc, e: Event, y': Proc, c': Contents)
    requires Reaches(cfg, rule, Two(now, c, x, y)) && Allows(cfg, rule, Two(now, c, x, y), e)
    requires !e.Advance? && !e.Start? && e.i == 1 && Alike(Acted(cfg, 1, y, c, now, e), y', c')
    ensures Reaches(cfg, rule, Two(now, c', x, y'))
  {
    hide Reaches, Acted, Allows;
    Go(cfg, rule, Two(now, c, x, y), e);
    assert [x, y][1 := y'] == [x, y'];
  }

  /** A command served and its answer handled, with nothing in between. */
  predicate Turns(cfg: Config, i: nat, p: Proc, c: Contents, now: nat, k: nat, p': Proc, c': Contents) {
    && !p.crashed && now < p.task.renewedAt + cfg.ttl
    && k < |p.threads| && p.threads[k].Sent?
    && var cmd := p.threads[k].cmd;
       var s := Served(cfg, i, p.task, cmd, c, now, Delivered);
       var r := Resumed(cfg, i, s.0, cmd, s.1.out, now);
       p'.task == r.0 && !p'.crashed && p'.threads == p.threads[k := r.1] && c' == s.2
  }

  lemma TurnX(cfg: Config, rule: Rule, now: nat, c: Contents, x: Proc, y: Proc, k: nat, x': Proc, c': Contents)
    requires Reaches(cfg, rule, Two(now, c, x, y)) && rule != AloneDrops && Turns(cfg, 0, x, c, now, k, x', c')
    ensures Reaches(cfg, rule, Two(now, c', x', y))
  {
    hide Reaches, Executed, AnswerTo, Resumed, Renews;
    var m := Acted(cfg, 0, x, c, now, Serve(0, k, Delivered));
    GoX(cfg, rule, now, c, x, y, Serve(0, k, Delivered), m.0, m.1);
    GoX(cfg, rule, now, m.1, m.0, y, Resume(0, k), x', c');
  }

  lemma TurnY(cfg: Config, rule: Rule, now: nat, c: Contents, x: Proc, y: Proc, k: nat, y': Proc, c': Contents)
    requires Reaches(cfg, rule, Two(now, c, x, y)) && rule != AloneDrops && Turns(cfg, 1, y, c, now, k, y', c')
    ensures Reaches(cfg, rule, Two(now, c', x, y'))
  {
    hide Reaches, Executed, AnswerTo, Resumed, Renews;
    var m := Acted(cfg, 1, y, c, now, Serve(1, k, Delivered));
    GoY(cfg, rule, now, c, x, y, Serve(1, k, Delivered), m.0, m.1);
    GoY(cfg, rule, now, m.1, x, m.0, Resume(1, k), y', c');
  }

  /** Tasks 0 and 1 are alive and both lead on renewals under one TTL old. */
  predicate TwoLeaders(cfg: Config, s: Sys) {
    && |s.procs| >= 2 && !s.procs[0].crashed && !s.procs[1].crashed
    && s.procs[0].task.leader && UnderTtl(cfg, s, 0) && s.procs[1].task.leader && UnderTtl(cfg, s, 1)
  }

  const Leading := FreshTask.(leader := true)
  const Opening := Leading.(sockets := Restoring)
  const Leader := Leading.(sockets := Up)
  const Waiting := FreshTask.(standby := true)
  const ReadAsOwn := Answered(Read, Holder(Some(0)))

  function Held(cfg: Config, i: nat): Contents {
    map[Lock := Entry(i, cfg.ttl)]
  }

  function Live(t: Task, threads: seq<Thread>): Proc {
    Proc(t, false, threads)
  }

  /** Task 0 leads, and the tick after has just read the lock as its own. */
  function AboutToExtend(cfg: Config): Sys {
    Two(0, Held(cfg, 0), Live(Leader, [Idle, ReadAsOwn]), Live(FreshTask, []))
  }

  lemma TwoStarted(cfg: Config, rule: Rule)
    ensures Reaches(cfg, rule, Two(0, map[], Live(FreshTask, []), Live(FreshTask, [])))
  {
    ReachesEmpty(cfg, rule);
    hide Reaches, Obeys, Run;
    Go(cfg, rule, Empty, Start);
    Go(cfg, rule, Step(cfg, Empty, Start), Start);
    assert Step(cfg, Step(cfg, Empty, Start), Start) == Two(0, map[], Live(FreshTask, []), Live(FreshTask, []));
  }

  lemma LeaderSeated(cfg: Config, rule: Rule)
    requires rule != AloneDrops
    ensures Reaches(cfg, rule, Two(0, Held(cfg, 0), Live(Leader, [Idle]), Live(FreshTask, [])))
  {
    hide Reaches, Obeys, Run;
    TwoStarted(cfg, rule);
    var y, h := Live(FreshTask, []), Held(cfg, 0);
    GoX(cfg, rule, 0, map[], y, y, BeginTick(0), Live(FreshTask, [Sent(Claim)]), map[]);
    TurnX(cfg, rule, 0, map[], Live(FreshTask, [Sent(Claim)]), y, 0, Live(Leading, [Sent(Clear(false))]), h);
    TurnX(cfg, rule, 0, h, Live(Leading, [Sent(Clear(false))]), y, 0, Live(Opening, [Sent(Open(false))]), h);
    TurnX(cfg, rule, 0, h, Live(Opening, [Sent(Open(false))]), y, 0, Live(Leader, [Idle]), h);
  }

  lemma LeaderAboutToExtend(cfg: Config, rule: Rule)
    requires rule != AloneDrops
    ensures Reaches(cfg, rule, AboutToExtend(cfg))
  {
    hide Reaches, Obeys, Run;
    LeaderSeated(cfg, rule);
    var y, h := Live(FreshTask, []), Held(cfg, 0);
    var x := Live(Leader, [Idle, Sent(Read)]);
    GoX(cfg, rule, 0, h, Live(Leader, [Idle]), y, BeginTick(0), Live(Leader, [Idle, Sent(Claim)]), h);
    TurnX(cfg, rule, 0, h, Live(Leader, [Idle, Sent(Claim)]), y, 1, x, h);
    GoX(cfg, rule, 0, h, x, y, Serve(0, 1, Delivered), Live(Leader, [Idle, ReadAsOwn]), h);
  }

  /** However orderly its ticks, a task whose extension lands one TTL late extends its successor's lock. */
  lemma LateExtensionBreaksExclusion(cfg: Config)
    ensures exists s :: Reaches(cfg, OneByOne, s) && TwoLeaders(cfg, s)
  {
    hide Reaches;
    var ttl, h := cfg.ttl, Held(cfg, 0);
    var x := Live(Leader, [Idle, Sent(Extend)]);
    var x' := Live(Leader.(renewedAt := ttl), [Idle, Answered(Extend, Done)]);
    var y := Live(FreshTask, []);
    var y1 := Live(FreshTask, [Sent(Claim)]);
    var y2 := Live(FreshTask.(renewedAt := ttl), [Answered(Claim, Won(true))]);
    var y3 := Live(Leading.(renewedAt := ttl), [Sent(Clear(false))]);
    var lock: Contents := map[Lock := Entry(1, ttl + ttl)];
    LeaderAboutToExtend(cfg, OneByOne);
    GoX(cfg, OneByOne, 0, h, Live(Leader, [Idle, ReadAsOwn]), y, Resume(0, 1), x, h);
    Go(cfg, OneByOne, Two(0, h, x, y), Advance(ttl));
    GoY(cfg, OneByOne, ttl, h, x, y, BeginTick(1), y1, h);
    GoY(cfg, OneByOne, ttl, h, x, y1, Serve(1, 0, Delivered), y2, lock);
    GoY(cfg, OneByOne, ttl, lock, x, y2, Resume(1, 0), y3, lock);
    GoX(cfg, OneByOne, ttl, lock, x, y3, Serve(0, 1, Delivered), x', lock);
    assert TwoLeaders(cfg, Two(ttl, lock, x', y3));
  }

  const StoppedMidTick := Live(FreshTask.(stopped := true), [Idle, ReadAsOwn, Idle])

  /** Task 0 has shut down and given up the lock while its tick is about to extend it; task 1 has taken it. */
  lemma SuccessorSeated(cfg: Config)
    ensures Reaches(cfg, InTime, Two(0, Held(cfg, 1), StoppedMidTick, Live(Leading, [Sent(Clear(false))])))
  {
    hide Reaches;
    var x1 := Live(FreshTask.(stopped := true), [Idle, ReadAsOwn, Sent(Drop)]);
    var y := Live(FreshTask, []);
    var y1 := Live(FreshTask, [Sent(Claim)]);
    LeaderAboutToExtend(cfg, InTime);
    GoX(cfg, InTime, 0, Held(cfg, 0), Live(Leader, [Idle, ReadAsOwn]), y, BeginRelease(0), x1, Held(cfg, 0));
    TurnX(cfg, InTime, 0, Held(cfg, 0), x1, y, 2, StoppedMidTick, map[]);
    GoY(cfg, InTime, 0, map[], StoppedMidTick, y, BeginTick(1), y1, map[]);
    TurnY(cfg, InTime, 0, map[], StoppedMidTick, y1, 0, Live(Leading, [Sent(Clear(false))]), Held(cfg, 1));
  }

  /** However timely its extensions, a task shut down in the middle of a tick takes the lead back. */
  lemma ShutdownMidTickBreaksExclusion(cfg: Config)
    ensures exists s :: Reaches(cfg, InTime, s) && TwoLeaders(cfg, s) && s.procs[0].task.stopped && s.now == 0
  {
    hide Reaches;
    var stopped := FreshTask.(stopped := true);
    var x3 := Live(stopped, [Idle, Sent(Extend), Idle]);
    var x4 := Live(stopped.(leader := true), [Idle, Sent(Clear(true)), Idle]);
    var y2 := Live(Leading, [Sent(Clear(false))]);
    SuccessorSeated(cfg);
    GoX(cfg, InTime, 0, Held(cfg, 1), StoppedMidTick, y2, Resume(0, 1), x3, Held(cfg, 1));
    TurnX(cfg, InTime, 0, Held(cfg, 1), x3, y2, 1, x4, Held(cfg, 1));
    assert TwoLeaders(cfg, Two(0, Held(cfg, 1), x4, y2));
  }

  function Asked(cfg: Config): Contents {
    map[Lock := Entry(0, cfg.ttl), Handover := Entry(1, cfg.handoverTtl)]
  }

  /** Task 1 has asked for the lock, while a tick of task 0 is about to extend it. */
  lemma NewerTaskAsks(cfg: Config)
    ensures Reaches(cfg, InTime, Two(0, Asked(cfg), Live(Leader, [Idle, ReadAsOwn]), Live(Waiting, [Idle])))
  {
    hide Reaches;
    var h, x := Held(cfg, 0), Live(Leader, [Idle, ReadAsOwn]);
    LeaderAboutToExtend(cfg, InTime);
    GoY(cfg, InTime, 0, h, x, Live(FreshTask, []), BeginTick(1), Live(FreshTask, [Sent(Claim)]), h);
    TurnY(cfg, InTime, 0, h, x, Live(FreshTask, [Sent(Claim)]), 0, Live(FreshTask, [Sent(Read)]), h);
    TurnY(cfg, InTime, 0, h, x, Live(FreshTask, [Sent(Read)]), 0, Live(Waiting, [Sent(Post)]), h);
    TurnY(cfg, InTime, 0, h, x, Live(Waiting, [Sent(Post)]), 0, Live(Waiting, [Idle]), Asked(cfg));
  }

  /** The next tick of task 0 gives the lock up, the earlier one still where it was. */
  lemma OlderTaskYields(cfg: Config)
    ensures Reaches(cfg, InTime, Two(0, map[Handover := Entry(1, cfg.handoverTtl)],
                                     Live(FreshTask.(yielded := true), [Idle, ReadAsOwn, Idle]), Live(Waiting, [Idle])))
  {
    hide Reaches;
    var c, y := Asked(cfg), Live(Waiting, [Idle]);
    var x1 := Live(Leader, [Idle, ReadAsOwn, Sent(Claim)]);
    var x2 := Live(Leader, [Idle, ReadAsOwn, Sent(Read)]);
    var x3 := Live(Leader, [Idle, ReadAsOwn, Sent(Extend)]);
    var x4 := Live(Leader, [Idle, ReadAsOwn, Sent(Request)]);
    var x5 := Live(FreshTask.(yielded := true), [Idle, ReadAsOwn, Sent(Drop)]);
    NewerTaskAsks(cfg);
    GoX(cfg, InTime, 0, c, Live(Leader, [Idle, ReadAsOwn]), y, BeginTick(0), x1, c);
    TurnX(cfg, InTime, 0, c, x1, y, 2, x2, c);
    TurnX(cfg, InTime, 0, c, x2, y, 2, x3, c);
    TurnX(cfg, InTime, 0, c, x3, y, 2, x4, c);
    TurnX(cfg, InTime, 0, c, x4, y, 2, x5, c);
    TurnX(cfg, InTime, 0, c, x5, y, 2, Live(FreshTask.(yielded := true), [Idle, ReadAsOwn, Idle]),
          map[Handover := Entry(1, cfg.handoverTtl)]);
  }

  /** So does a task that hands over in one tick while an earlier one is still about to extend. */
  lemma OverlappingTicksBreakExclusion(cfg: Config)
    ensures exists s :: Reaches(cfg, InTime, s) && TwoLeaders(cfg, s) && !s.procs[0].task.stopped && s.now == 0
  {
    hide Reaches;
    var freed: Contents := map[Handover := Entry(1, cfg.handoverTtl)];
    var taken := freed[Lock := Entry(1, cfg.ttl)];
    var out := FreshTask.(yielded := true);
    var x := Live(out, [Idle, ReadAsOwn, Idle]);
    var x1 := Live(out, [Idle, Sent(Extend), Idle]);
    var x2 := Live(Leading, [Idle, Sent(Clear(true)), Idle]);
    var y1 := Live(Waiting, [Idle, Sent(Claim)]);
    var y2 := Live(Leading, [Idle, Sent(Clear(false))]);
    OlderTaskYields(cfg);
    GoY(cfg, InTime, 0, freed, x, Live(Waiting, [Idle]), BeginTick(1), y1, freed);
    TurnY(cfg, InTime, 0, freed, x, y1, 1, y2, taken);
    GoX(cfg, InTime, 0, taken, x, y2, Resume(0, 1), x1, taken);
    TurnX(cfg, InTime, 0, taken, x1, y2, 1, x2, taken);
    assert TwoLeaders(cfg, Two(0, taken, x2, y2));
  }
}
