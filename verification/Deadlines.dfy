/** The reaper keeps its deadlines: what it claims, it claims exactly when its time has
    come, and nothing else stops a sandbox nobody deleted. */
module Deadlines {
  import opened Collections
  import opened Tables
  import opened Cluster
  import opened Lifecycle
  import opened Invariants
  import Confirmation
  import Rules
  import Tx = Transactions
  import Facts = TransactionFacts

  // ---- One reaper run ----

  lemma ReapStep(s: Sys, locks: Tx.Locks, id: Id)
    requires id in s.db.sandboxes && SandboxOk(s, id)
    ensures var r, db := s.db.sandboxes[id], DbAfter(s, ReapSandboxes(locks));
            var target := if s.cfg.workerLostTimeout > 0 then Rules.ReapTarget(r, id, s.db.workers, s.cfg, s.now, locks) else None;
            && id in db.sandboxes
            && db.sandboxes[id] == (if target.Some? then r.(status := CleanupPending) else r)
            && (Rules.BeforeCleanup(r) ==> Jobs(db.cleanups, id) == Rules.Following(target))
            && (!Rules.BeforeCleanup(r) ==> target.None? && Jobs(db.cleanups, id) == Jobs(s.db.cleanups, id))
  {
    Rules.ReapDecides(s.db, s.cfg, s.now, locks, id);
  }

  /** In every reachable state, one reaper run puts into cleanup exactly the sandboxes
      that outlived their TTL, whose worker stopped mentioning them or is gone, or that
      were never placed in time, save those locked; each gets one job, its first, to stop
      it in the first case and to fail it in the others. */
  lemma ReapsExactly(cfg: Config, now: Time, actions: seq<Action>, locks: Tx.Locks, id: Id)
    requires id in Run(Init(cfg, now), actions).db.sandboxes
    ensures var s := Run(Init(cfg, now), actions);
            var r, db := s.db.sandboxes[id], DbAfter(s, ReapSandboxes(locks));
            var target := if s.cfg.workerLostTimeout > 0 then Rules.ReapTarget(r, id, s.db.workers, s.cfg, s.now, locks) else None;
            && id in db.sandboxes
            && db.sandboxes[id] == (if target.Some? then r.(status := CleanupPending) else r)
            && (Rules.BeforeCleanup(r) ==> Jobs(db.cleanups, id) == Rules.Following(target))
            && (!Rules.BeforeCleanup(r) ==> target.None? && Jobs(db.cleanups, id) == Jobs(s.db.cleanups, id))
  {
    InitInv(cfg, now);
    RunInv(Init(cfg, now), actions);
    assert SandboxOk(Run(Init(cfg, now), actions), id);
    ReapStep(Run(Init(cfg, now), actions), locks, id);
  }

  // ---- Nobody is stopped early ----

  /** The sandbox was created at `createdAt` to live for `ttl`, and is only to be stopped
      if it has. */
  predicate OnTime(db: Db, now: Time, id: Id, createdAt: Time, ttl: int) {
    && id in db.sandboxes && db.sandboxes[id].createdAt == createdAt && db.sandboxes[id].ttl == ttl
    && (Stopped in Jobs(db.cleanups, id) ==> now - createdAt >= Rules.Lifetime(ttl))
  }

  lemma MovesKeepAge(db: Db, db': Db, id: Id, now: Time)
    requires id in db.sandboxes && Moves(db, db', id, now)
    ensures db'.sandboxes[id].createdAt == db.sandboxes[id].createdAt && db'.sandboxes[id].ttl == db.sandboxes[id].ttl
  {
  }

  lemma AttemptStopsNone(s: Sys, a: Attempt, choice: Choice, id: Id)
    ensures Stopped in Jobs(AttemptTx(s, a, choice).cleanups, id) ==> Stopped in Jobs(s.db.cleanups, id)
  {
    Facts.EnqueueAt(s.db.cleanups, {a.id}, Failed, id);
  }

  lemma BeatStopsNone(db: Db, b: Beat, now: Time, id: Id)
    ensures Stopped in Jobs(BeatTx(db, b, now).cleanups, id) ==> Stopped in Jobs(db.cleanups, id)
  {
    if b.complete && Tx.FencedBy(db, b.w, b.token) {
      var first, at := Tx.FirstInventory(db, b.w, b.token), db.workers[b.w].registeredAt;
      Facts.EnqueueAt(db.cleanups, Tx.LostIds(db.sandboxes, b.w, at, first, b.inv) + Tx.DeadIds(db.sandboxes, b.w, b.inv), Failed, id);
    }
  }

  lemma OthersStopNone(s: Sys, a: Action, id: Id)
    requires a != DeleteSandbox(id) && !a.ReapSandboxes?
    ensures Stopped in Jobs(DbAfter(s, a).cleanups, id) ==> Stopped in Jobs(s.db.cleanups, id)
  {
    if a.JobStep? {
      if a.k in s.attempts { AttemptStopsNone(s, s.attempts[a.k], a.choice, id); }
    } else if a.DeliverBeat? {
      BeatStopsNone(s.db, a.beat, s.now, id);
    } else if a.DeleteSandbox? {
      Facts.EnqueueAt(s.db.cleanups, {a.id}, Stopped, id);
    }
  }

  lemma StopNeedsTime(s: Sys, a: Action, id: Id)
    requires id in s.db.sandboxes && SandboxOk(s, id) && a != DeleteSandbox(id)
    ensures Stopped in Jobs(DbAfter(s, a).cleanups, id) ==>
              Stopped in Jobs(s.db.cleanups, id) || Rules.Lived(s.db.sandboxes[id], s.now)
  {
    if a.ReapSandboxes? {
      ReapStep(s, a.locks, id);
    } else {
      OthersStopNone(s, a, id);
    }
  }

  lemma StaysOnTime(s: Sys, db': Db, now': Time, id: Id, createdAt: Time, ttl: int)
    requires OnTime(s.db, s.now, id, createdAt, ttl) && Moves(s.db, db', id, s.now) && s.now <= now'
    requires Stopped in Jobs(db'.cleanups, id) ==>
               Stopped in Jobs(s.db.cleanups, id) || Rules.Lived(s.db.sandboxes[id], s.now)
    ensures OnTime(db', now', id, createdAt, ttl)
  {
    MovesKeepAge(s.db, db', id, s.now);
  }

  lemma StepOnTime(s: Sys, a: Action, id: Id, createdAt: Time, ttl: int)
    requires Inv(s) && OnTime(s.db, s.now, id, createdAt, ttl) && a != DeleteSandbox(id)
    ensures OnTime(Step(s, a).db, Step(s, a).now, id, createdAt, ttl)
  {
    assert SandboxOk(s, id);
    StepMoves(s, a, id);
    StopNeedsTime(s, a, id);
    StaysOnTime(s, DbAfter(s, a), Step(s, a).now, id, createdAt, ttl);
  }

  lemma {:induction false} RunOnTime(s: Sys, actions: seq<Action>, id: Id, createdAt: Time, ttl: int)
    requires Inv(s) && OnTime(s.db, s.now, id, createdAt, ttl) && DeleteSandbox(id) !in actions
    ensures OnTime(Run(s, actions).db, Run(s, actions).now, id, createdAt, ttl)
    decreases actions
  {
    if actions != [] {
      StepInv(s, actions[0]);
      StepOnTime(s, actions[0], id, createdAt, ttl);
      RunOnTime(Step(s, actions[0]), actions[1..], id, createdAt, ttl);
    }
  }

  lemma InsertedOnTime(s: Sys, id: Id, createdAt: Time, ttl: int)
    requires Inv(s) && id !in s.known
    ensures OnTime(DbAfter(s, InsertSandbox(id, createdAt, ttl)), s.now, id, createdAt, ttl)
  {
    assert id in s.db.sandboxes ==> SandboxOk(s, id);
  }

  /** In every run, a sandbox that nobody deletes keeps the lifetime it was created with,
      and is stopped, or is only ever to be stopped, after it has lived that long. */
  lemma StopsOnTime(cfg: Config, now: Time, before: seq<Action>, id: Id, createdAt: Time, ttl: int, after: seq<Action>)
    requires id !in Run(Init(cfg, now), before).known && DeleteSandbox(id) !in after
    ensures var s := Run(Step(Run(Init(cfg, now), before), InsertSandbox(id, createdAt, ttl)), after);
            && id in s.db.sandboxes && s.db.sandboxes[id].createdAt == createdAt && s.db.sandboxes[id].ttl == ttl
            && (s.db.sandboxes[id].status == Stopped || Stopped in Jobs(s.db.cleanups, id) ==>
                  s.now - createdAt >= Rules.Lifetime(ttl))
  {
    var born := Inserted(cfg, now, before, id, createdAt, ttl);
    RunOnTime(born, after, id, createdAt, ttl);
    Confirmation.RunReleases(born, after);
    assert Confirmation.RowReleased(Run(born, after), id);
  }

  lemma Inserted(cfg: Config, now: Time, before: seq<Action>, id: Id, createdAt: Time, ttl: int) returns (born: Sys)
    requires id !in Run(Init(cfg, now), before).known
    ensures born == Step(Run(Init(cfg, now), before), InsertSandbox(id, createdAt, ttl))
    ensures Inv(born) && Confirmation.ReleasesOk(born) && OnTime(born.db, born.now, id, createdAt, ttl)
  {
    var s, a := Run(Init(cfg, now), before), InsertSandbox(id, createdAt, ttl);
    InitInv(cfg, now);
    Confirmation.RunReleases(Init(cfg, now), before);
    InsertedOnTime(s, id, createdAt, ttl);
    StepInv(s, a);
    Confirmation.StepReleases(s, a);
    born := Step(s, a);
  }

  // ---- A worker that falls silent ----

  lemma TickOnly(s: Sys, d: nat)
    ensures DbAfter(s, Tick(d)) == s.db && Step(s, Tick(d)).now == s.now + d && Step(s, Tick(d)).cfg == s.cfg
  {
  }

  lemma SilentTurnsInactive(s: Sys, w: WorkerId)
    requires w in s.db.workers && Rules.FellSilent(s.db.workers[w], s.cfg.heartbeatTimeout, s.now)
    ensures var db := DbAfter(s, ReapWorkers);
            && db.sandboxes == s.db.sandboxes && db.cleanups == s.db.cleanups
            && w in db.workers && db.workers[w].status == Inactive && db.workers[w].inactiveSince == Some(s.now)
  {
    Rules.StaleTakes(s.db, s.cfg.heartbeatTimeout, s.now, w);
  }

  lemma GoneIsReaped(s: Sys, w: WorkerId, id: Id, locks: Tx.Locks)
    requires id in s.db.sandboxes && Rules.HostedBy(s.db.sandboxes[id], w) && Jobs(s.db.cleanups, id) == []
    requires w in s.db.workers && Rules.WorkerGone(s.db.workers[w], s.cfg, s.now) && s.cfg.workerLostTimeout > 0
    requires id !in locks.ttl && id !in locks.liveness
    ensures var db := DbAfter(s, ReapSandboxes(locks));
            && id in db.sandboxes && db.sandboxes[id].status == CleanupPending
            && Jobs(db.cleanups, id) == [if Rules.Lived(s.db.sandboxes[id], s.now) then Stopped else Failed]
  {
    Rules.ReapDecides(s.db, s.cfg, s.now, locks, id);
    assert Rules.Overdue(s.db.sandboxes[id], s.db.workers, s.cfg, s.now);
  }

  /** The two reapers at work on a worker that is silent. */
  function SilenceReaped(s: Sys, d: nat, d': nat, locks: Tx.Locks): Sys {
    Step(Step(Step(Step(s, Tick(d)), ReapWorkers), Tick(d')), ReapSandboxes(locks))
  }

  lemma SilenceIsReaped(s: Sys, w: WorkerId, id: Id, d: nat, d': nat, locks: Tx.Locks)
    requires w in s.db.workers && Rules.FellSilent(s.db.workers[w], s.cfg.heartbeatTimeout, s.now + d)
    requires id in s.db.sandboxes && SandboxOk(s, id) && Rules.HostedBy(s.db.sandboxes[id], w)
    requires d' > s.cfg.workerLostTimeout > 0 && id !in locks.ttl && id !in locks.liveness
    ensures var db := SilenceReaped(s, d, d', locks).db;
            && id in db.sandboxes && db.sandboxes[id].status == CleanupPending
            && Jobs(db.cleanups, id) == [if Rules.Lived(s.db.sandboxes[id], s.now + d + d') then Stopped else Failed]
  {
    var silent := Step(s, Tick(d));
    var marked := Step(silent, ReapWorkers);
    var later := Step(marked, Tick(d'));
    TickOnly(s, d);
    SilentTurnsInactive(silent, w);
    assert marked.db == DbAfter(silent, ReapWorkers) && marked.now == silent.now && marked.cfg == s.cfg;
    TickOnly(marked, d');
    GoneIsReaped(later, w, id, locks);
  }

  /** From every reachable state, once a worker has been silent for the heartbeat timeout
      it is marked, and once the worker-lost timeout has passed too, every sandbox it
      hosts is in cleanup, by its first job. */
  lemma SilentWorkerIsReaped(cfg: Config, now: Time, actions: seq<Action>, s: Sys, w: WorkerId, id: Id, d: nat, d': nat, locks: Tx.Locks)
    requires s == Run(Init(cfg, now), actions)
    requires w in s.db.workers && Rules.FellSilent(s.db.workers[w], s.cfg.heartbeatTimeout, s.now + d)
    requires id in s.db.sandboxes && Rules.HostedBy(s.db.sandboxes[id], w)
    requires d' > s.cfg.workerLostTimeout > 0 && id !in locks.ttl && id !in locks.liveness
    ensures var db := SilenceReaped(s, d, d', locks).db;
            && id in db.sandboxes && db.sandboxes[id].status == CleanupPending
            && Jobs(db.cleanups, id) == [if Rules.Lived(s.db.sandboxes[id], s.now + d + d') then Stopped else Failed]
  {
    InitInv(cfg, now);
    RunInv(Init(cfg, now), actions);
    assert SandboxOk(s, id);
    SilenceIsReaped(s, w, id, d, d', locks);
  }
}
