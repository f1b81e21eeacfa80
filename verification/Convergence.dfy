/** The database and the machines agree again after one round without faults,
    whatever either of them said before.

    The round is a run of the cluster's own steps: the liveness delay passes, the
    worker sends its inventory, the reaper runs, the cleanup jobs run, the worker
    sends its inventory again and the orphan jobs run. */
module Convergence {
  import opened Collections
  import opened Tables
  import opened Cluster
  import opened Lifecycle
  import opened Invariants
  import opened Fencing
  import Tx = Transactions
  import Facts = TransactionFacts

  type Hosts = map<(WorkerId, Id), VmState>

  /** A VM its worker can vouch for. */
  predicate Healthy(st: VmState) {
    st == VmStarting || st == VmRunning || st == VmPaused
  }

  predicate HostsAlive(hosted: Hosts, w: WorkerId, id: Id) {
    (w, id) in hosted && hosted[(w, id)] != VmDead
  }

  predicate HostsHealthy(hosted: Hosts, w: WorkerId, id: Id) {
    (w, id) in hosted && Healthy(hosted[(w, id)])
  }

  predicate HostsAs(hosted: Hosts, w: WorkerId, id: Id, states: set<VmState>) {
    (w, id) in hosted && hosted[(w, id)] in states
  }

  /** An inventory that lists what `w` hosts, each VM under its state. */
  ghost predicate Exact(hosted: Hosts, w: WorkerId, inv: Inventory) {
    && (forall id :: id in inv.live <==> HostsAs(hosted, w, id, {VmStarting, VmPaused}))
    && (forall id :: id in inv.running <==> HostsAs(hosted, w, id, {VmRunning}))
    && (forall id :: id in inv.unknown <==> HostsAs(hosted, w, id, {VmUnknown}))
    && (forall id :: id in inv.dead <==> HostsAs(hosted, w, id, {VmDead}))
  }

  /** The current process of `w` reports what it hosts. */
  ghost predicate Reports(s: Sys, w: WorkerId, b: Beat) {
    && b.w == w && b.complete
    && w in s.db.workers && b.token == s.db.workers[w].token
    && Exact(s.hosted, w, b.inv)
  }

  function Heartbeat(s: Sys, b: Beat): Sys {
    Step(Step(s, SendBeat(b)), DeliverBeat(b))
  }

  const NoLocks := Tx.Locks({}, {}, {})

  /** The fault-free outcome of the call a cleanup attempt stands at. */
  function Good(a: Attempt): Choice {
    if a.Cleanup? && a.pc.CallRemove? then Rpc(Answered) else Proceed
  }

  function GoodStep(s: Sys, k: nat): Sys {
    if k in s.attempts then Step(s, JobStep(k, Good(s.attempts[k]))) else s
  }

  /** One cleanup job run to its end. */
  function Cleaned(s: Sys, k: nat, id: Id, job: nat): Sys {
    GoodStep(GoodStep(GoodStep(GoodStep(Step(s, StartCleanup(k, id, job, false)), k), k), k), k)
  }

  /** Cleanup jobs, each with its sandbox. */
  function CleanAll(s: Sys, k: nat, jobs: seq<(Id, nat)>): Sys
    decreases jobs
  {
    if jobs == [] then s else CleanAll(Cleaned(s, k, jobs[0].0, jobs[0].1), k + 1, jobs[1..])
  }

  function Ids(jobs: seq<(Id, nat)>): seq<Id> {
    seq(|jobs|, i requires 0 <= i < |jobs| => jobs[i].0)
  }

  function RemoveAll(s: Sys, w: WorkerId, ids: seq<Id>): Sys
    decreases ids
  {
    if ids == [] then s else RemoveAll(Step(s, RemoveOrphan(w, ids[0], Answered)), w, ids[1..])
  }

  // ---- An inventory ----

  lemma ExactLists(hosted: Hosts, w: WorkerId, inv: Inventory, id: Id)
    requires Exact(hosted, w, inv)
    ensures inv.Lists(id) <==> (w, id) in hosted
    ensures inv.Vouches(id) <==> HostsHealthy(hosted, w, id)
    ensures id in inv.dead <==> (w, id) in hosted && hosted[(w, id)] == VmDead
  {
    assert id in inv.live <==> HostsAs(hosted, w, id, {VmStarting, VmPaused});
    assert id in inv.running <==> HostsAs(hosted, w, id, {VmRunning});
    assert id in inv.unknown <==> HostsAs(hosted, w, id, {VmUnknown});
    assert id in inv.dead <==> HostsAs(hosted, w, id, {VmDead});
    if (w, id) in hosted {
      match hosted[(w, id)] { case VmStarting => case VmRunning => case VmPaused => case VmUnknown => case VmDead => }
    }
  }

  lemma ReportIsSent(s: Sys, w: WorkerId, b: Beat)
    requires WorkersOk(s) && Reports(s, w, b)
    ensures Step(s, SendBeat(b)) == s.(beats := s.beats + {b})
  {
    assert WorkerOk(s, w);
    forall id | id in b.inv.Ids() ensures (w, id) in s.hosted {
      assert b.inv.Lists(id);
      ExactLists(s.hosted, w, b.inv, id);
    }
    assert b.token in Log(s.issued, w);
    assert Sendable(s, b);
  }

  /** What an accepted, exact inventory leaves behind. */
  ghost predicate Inventoried(s: Sys, s': Sys, w: WorkerId, b: Beat)
    requires w in s.db.workers
  {
    && s'.db == Tx.Heartbeat(s.db, w, b.token, b.report, b.inv, s.now)
    && s'.hosted == s.hosted && s'.now == s.now && s'.cfg == s.cfg
    && s'.attempts == s.attempts && s'.exhausted == s.exhausted
    && Core(s') && WorkersOk(s')
  }

  lemma HeartbeatRuns(s: Sys, w: WorkerId, b: Beat)
    requires Core(s) && WorkersOk(s) && Reports(s, w, b)
    ensures Inventoried(s, Heartbeat(s, b), w, b)
  {
    var sent := Step(s, SendBeat(b));
    ReportIsSent(s, w, b);
    StepCore(s, SendBeat(b));
    StepWorkersOk(s, SendBeat(b));
    StepCore(sent, DeliverBeat(b));
    StepWorkersOk(sent, DeliverBeat(b));
  }

  // ---- After the delay, an inventory and the reaper ----

  /** A row the worker was not able to vouch for has not been seen since `t`. */
  predicate SeenOrVouched(s: Sys, w: WorkerId, id: Id, t: Time)
    requires id in s.db.sandboxes
  {
    ActiveOn(s.db.sandboxes[id], w) ==>
      HostsHealthy(s.hosted, w, id) || SeenAt(s.db.sandboxes[id]) <= t
  }

  lemma InventoryVouches(s: Sys, s': Sys, w: WorkerId, b: Beat, t: Time, id: Id)
    requires Core(s) && Reports(s, w, b) && Inventoried(s, s', w, b)
    requires id in s.db.sandboxes && SeenAt(s.db.sandboxes[id]) <= t
    ensures id in s'.db.sandboxes && SeenOrVouched(s', w, id, t)
  {
    ExactLists(s.hosted, w, b.inv, id);
  }

  lemma UnvouchedIsClaimed(db: Db, cfg: Config, now: Time, w: WorkerId, t: Time, id: Id)
    requires cfg.workerLostTimeout > 0 && w in db.workers
    requires db.workers[w].registeredAt <= t && db.workers[w].lastHeartbeat > t + cfg.livenessTimeout
    requires id in db.sandboxes && ActiveOn(db.sandboxes[id], w) && SeenAt(db.sandboxes[id]) <= t
    ensures var rows := Tx.Reap(db, cfg, now, NoLocks).sandboxes;
            id in rows && !ActiveOn(rows[id], w)
  {
    Facts.ReapChangesItsLists(db, cfg, now, NoLocks, id);
    assert Tx.LivenessExpired(db.sandboxes[id], db.workers, cfg, now);
  }

  lemma ReapNeverActivates(db: Db, cfg: Config, now: Time, w: WorkerId, id: Id)
    requires id in Tx.Reap(db, cfg, now, NoLocks).sandboxes && ActiveOn(Tx.Reap(db, cfg, now, NoLocks).sandboxes[id], w)
    ensures id in db.sandboxes && ActiveOn(db.sandboxes[id], w)
  {
  }

  /** Every active row of `w` has a healthy VM behind it. */
  predicate Backed(s: Sys, w: WorkerId) {
    forall id <- s.db.sandboxes :: ActiveOn(s.db.sandboxes[id], w) ==> HostsHealthy(s.hosted, w, id)
  }

  /** The state after the delay `d`, the inventory `b` and the reaper. */
  function Reaped(s: Sys, d: nat, b: Beat): Sys {
    Step(Heartbeat(Step(s, Tick(d)), b), ReapSandboxes(NoLocks))
  }

  lemma DelayKeeps(s: Sys, d: nat)
    requires Core(s) && WorkersOk(s)
    ensures var s' := Step(s, Tick(d)); s' == s.(now := s.now + d) && Core(s') && WorkersOk(s')
  {
    StepCore(s, Tick(d));
    StepWorkersOk(s, Tick(d));
  }

  lemma ReapBacks(s: Sys, w: WorkerId, t: Time)
    requires s.cfg.workerLostTimeout > 0 && w in s.db.workers
    requires s.db.workers[w].registeredAt <= t && s.db.workers[w].lastHeartbeat > t + s.cfg.livenessTimeout
    requires forall id <- s.db.sandboxes :: SeenOrVouched(s, w, id, t)
    ensures Backed(s.(db := Tx.Reap(s.db, s.cfg, s.now, NoLocks)), w)
  {
    var rows := Tx.Reap(s.db, s.cfg, s.now, NoLocks).sandboxes;
    forall id | id in rows && ActiveOn(rows[id], w) ensures HostsHealthy(s.hosted, w, id) {
      ReapNeverActivates(s.db, s.cfg, s.now, w, id);
      assert SeenOrVouched(s, w, id, t);
      if SeenAt(s.db.sandboxes[id]) <= t {
        UnvouchedIsClaimed(s.db, s.cfg, s.now, w, t, id);
      }
    }
  }

  lemma ReapRuns(s: Sys)
    requires Core(s) && WorkersOk(s)
    ensures var s' := Step(s, ReapSandboxes(NoLocks));
            && s' == s.(db := Tx.Reap(s.db, s.cfg, s.now, NoLocks))
            && s'.db.workers == s.db.workers
            && Core(s') && WorkersOk(s')
  {
    StepCore(s, ReapSandboxes(NoLocks));
    StepWorkersOk(s, ReapSandboxes(NoLocks));
  }

  /** After the inventory, everything of `w` was either vouched for or not seen
      since the delay began. */
  lemma InventoryAfterDelay(s: Sys, w: WorkerId, d: nat, b: Beat)
    requires Core(s) && WorkersOk(s) && Reports(Step(s, Tick(d)), w, b)
    ensures var told := Heartbeat(Step(s, Tick(d)), b);
            && Inventoried(s.(now := s.now + d), told, w, b)
            && (forall id <- told.db.sandboxes :: SeenOrVouched(told, w, id, s.now))
            && w in told.db.workers
            && told.db.workers[w].registeredAt <= s.now
            && told.db.workers[w].lastHeartbeat == s.now + d
            && told.db.workers[w].token == b.token == told.db.workers[w].inventoryToken
  {
    DelayKeeps(s, d);
    var waited := s.(now := s.now + d);
    HeartbeatRuns(waited, w, b);
    var told := Heartbeat(waited, b);
    assert WorkerOk(s, w);
    forall id | id in told.db.sandboxes ensures SeenOrVouched(told, w, id, s.now) {
      assert SandboxOk(s, id);
      if ActiveOn(s.db.sandboxes[id], w) { InventoryVouches(waited, told, w, b, s.now, id); }
    }
  }

  lemma ReapedBacked(s: Sys, w: WorkerId, d: nat, b: Beat)
    requires Core(s) && WorkersOk(s) && s.cfg.workerLostTimeout > 0 && d > s.cfg.livenessTimeout
    requires Reports(Step(s, Tick(d)), w, b)
    ensures var s' := Reaped(s, d, b);
            && Core(s') && WorkersOk(s') && Backed(s', w)
            && s'.hosted == s.hosted && s'.attempts == s.attempts && s'.exhausted == s.exhausted
            && w in s'.db.workers && s'.db.workers[w].token == b.token == s'.db.workers[w].inventoryToken
  {
    InventoryAfterDelay(s, w, d, b);
    var told := Heartbeat(Step(s, Tick(d)), b);
    ReapRuns(told);
    ReapBacks(told, w, s.now);
  }

  // ---- Stuck sandboxes ----

  lemma PastRowKept(db: Db, w: WorkerId, token: int, report: Report, inv: Inventory, now: Time, id: Id)
    requires id in db.sandboxes && PastRunning(db.sandboxes[id].status)
    ensures var rows := Tx.Heartbeat(db, w, token, report, inv, now).sandboxes;
            id in rows && rows[id].status == db.sandboxes[id].status && rows[id].worker == db.sandboxes[id].worker
  {
  }

  lemma PastJobsKept(db: Db, w: WorkerId, token: int, report: Report, inv: Inventory, now: Time, id: Id)
    requires id in db.sandboxes && PastRunning(db.sandboxes[id].status)
    ensures Jobs(Tx.Heartbeat(db, w, token, report, inv, now).cleanups, id) == Jobs(db.cleanups, id)
  {
    if Tx.FencedBy(db, w, token) {
      var ids := Tx.LostIds(db.sandboxes, w, db.workers[w].registeredAt, Tx.FirstInventory(db, w, token), inv)
                 + Tx.DeadIds(db.sandboxes, w, inv);
      Facts.EnqueueAt(db.cleanups, ids, Failed, id);
    }
  }

  lemma ReapJobsKept(db: Db, cfg: Config, now: Time, id: Id)
    requires cfg.workerLostTimeout > 0 && id in db.sandboxes && PastRunning(db.sandboxes[id].status)
    ensures Jobs(Tx.Reap(db, cfg, now, NoLocks).cleanups, id) == Jobs(db.cleanups, id)
  {
    Facts.ReapChangesItsLists(db, cfg, now, NoLocks, id);
  }

  /** Between `s` and `s'`, a row of `w` past running stayed as it was, its jobs too, and
      one that fell has a job. */
  ghost predicate KeepsStuck(s: Sys, s': Sys, w: WorkerId, id: Id) {
    && (id in s'.db.sandboxes ==> id in s.db.sandboxes)
    && (id in s.db.sandboxes ==> Moves(s.db, s'.db, id, s.now) && NoNewLink(s.db, s'.db, id))
    && (id in s.db.sandboxes && PastRunning(s.db.sandboxes[id].status) ==>
          && Jobs(s'.db.cleanups, id) == Jobs(s.db.cleanups, id)
          && s'.db.sandboxes[id].status == s.db.sandboxes[id].status
          && s'.db.sandboxes[id].worker == s.db.sandboxes[id].worker)
    && s'.exhausted == s.exhausted
  }

  lemma StuckKept(s: Sys, s': Sys, w: WorkerId, id: Id)
    requires Core(s) && KeepsStuck(s, s', w, id)
    ensures Stuck(s, w, id) <==> Stuck(s', w, id)
  {
    forall job: nat | id in s.db.sandboxes && PastRunning(s.db.sandboxes[id].status)
      ensures OpenJob(s, id, job) <==> OpenJob(s', id, job)
    {
    }
    if id in s.db.sandboxes && !PastRunning(s.db.sandboxes[id].status) && s'.db.sandboxes[id].status == CleanupPending {
      assert SandboxOk(s, id);
      assert OpenJob(s', id, 0);
    }
  }

  lemma InventoryKeepsStuck(s: Sys, s': Sys, w: WorkerId, b: Beat, id: Id)
    requires w in s.db.workers && Inventoried(s, s', w, b)
    ensures KeepsStuck(s, s', w, id)
  {
    if id in s.db.sandboxes {
      HeartbeatMoves(s.db, w, b.token, b.report, b.inv, s.now, id);
      if PastRunning(s.db.sandboxes[id].status) {
        PastRowKept(s.db, w, b.token, b.report, b.inv, s.now, id);
        PastJobsKept(s.db, w, b.token, b.report, b.inv, s.now, id);
      }
    }
  }

  lemma ReapKeepsStuck(s: Sys, w: WorkerId, id: Id)
    requires s.cfg.workerLostTimeout > 0
    ensures KeepsStuck(s, s.(db := Tx.Reap(s.db, s.cfg, s.now, NoLocks)), w, id)
  {
    if id in s.db.sandboxes {
      ReapMoves(s.db, s.cfg, s.now, NoLocks, id);
      if PastRunning(s.db.sandboxes[id].status) { ReapJobsKept(s.db, s.cfg, s.now, id); }
    }
  }

  lemma ReapedStuck(s: Sys, w: WorkerId, d: nat, b: Beat, id: Id)
    requires Core(s) && WorkersOk(s) && s.cfg.workerLostTimeout > 0 && Reports(Step(s, Tick(d)), w, b)
    ensures Stuck(s, w, id) <==> Stuck(Reaped(s, d, b), w, id)
  {
    InventoryAfterDelay(s, w, d, b);
    DelayKeeps(s, d);
    var waited, told := s.(now := s.now + d), Heartbeat(Step(s, Tick(d)), b);
    ReapRuns(told);
    InventoryKeepsStuck(waited, told, w, b, id);
    ReapKeepsStuck(told, w, id);
    StuckKept(waited, told, w, id);
    StuckKept(told, Reaped(s, d, b), w, id);
    assert Stuck(s, w, id) <==> Stuck(waited, w, id) by {
      assert forall job: nat :: OpenJob(s, id, job) <==> OpenJob(waited, id, job);
    }
  }

  // ---- The cleanup jobs ----

  /** What one cleanup job, run to its end, does: a sandbox waiting for it loses
      its VM and its link and ends; nothing else changes. */
  predicate Cleansed(s: Sys, s': Sys, id: Id)
    requires id in s.db.sandboxes
  {
    var r := s.db.sandboxes[id];
    && s'.db.sandboxes.Keys == s.db.sandboxes.Keys
    && (forall other <- s.db.sandboxes :: other != id ==> s'.db.sandboxes[other] == s.db.sandboxes[other])
    && Terminal(s'.db.sandboxes[id].status) && s'.db.sandboxes[id].worker.None?
    && s'.hosted == (if r.status == CleanupPending && r.worker.Some? then Teardown(s.hosted, r.worker.value, id) else s.hosted)
  }

  /** Everything a cleanup job leaves alone. */
  predicate SameElse(s: Sys, s': Sys) {
    && s'.cfg == s.cfg && s'.now == s.now
    && s'.db.workers == s.db.workers && s'.db.cleanups == s.db.cleanups
    && s'.issued == s.issued && s'.firsts == s.firsts && s'.exhausted == s.exhausted
  }

  lemma StartRuns(s: Sys, k: nat, id: Id, job: nat)
    requires k !in s.attempts && OpenJob(s, id, job)
    ensures var s' := Step(s, StartCleanup(k, id, job, false));
            && s'.attempts == s.attempts[k := Cleanup(id, job, Jobs(s.db.cleanups, id)[job], false, ReadTarget)]
            && s'.db == s.db && s'.hosted == s.hosted && SameElse(s, s')
  {
    assert Remaining(s.attempts, id, job, false) == s.attempts;
  }

  lemma GoodRuns(s: Sys, k: nat)
    requires k in s.attempts && s.attempts[k].Cleanup?
    ensures var a := s.attempts[k];
            var s' := GoodStep(s, k);
            && s'.attempts == s.attempts[k := a.(pc := CleanupNext(s.db, a, Good(a)))]
            && s'.db == (if a.pc.CallRemove? then s.db else CleanupTx(s.db, a.id, a.pc))
            && s'.hosted == (if a.pc.CallRemove? then Teardown(s.hosted, a.pc.w, a.id) else s.hosted)
            && SameElse(s, s')
  {
  }

  lemma EndedRuns(s: Sys, k: nat)
    requires k in s.attempts && s.attempts[k].Cleanup? && s.attempts[k].pc == Ended
    ensures var s' := GoodStep(s, k);
            s'.attempts == s.attempts && s'.db == s.db && s'.hosted == s.hosted && SameElse(s, s')
  {
    GoodRuns(s, k);
  }

  /** The last call: the sandbox is past running and has no link. */
  lemma FinishRuns(s: Sys, k: nat)
    requires k in s.attempts && s.attempts[k].Cleanup? && s.attempts[k].pc.Finish? && AttemptOk(s, s.attempts[k])
    ensures var a := s.attempts[k];
            var s' := GoodStep(s, k);
            && s'.attempts == s.attempts[k := a.(pc := Ended)]
            && s'.hosted == s.hosted && SameElse(s, s')
            && a.id in s.db.sandboxes
            && s'.db.sandboxes.Keys == s.db.sandboxes.Keys
            && (forall other <- s.db.sandboxes :: other != a.id ==> s'.db.sandboxes[other] == s.db.sandboxes[other])
            && Terminal(s'.db.sandboxes[a.id].status) && s'.db.sandboxes[a.id].worker.None?
  {
    GoodRuns(s, k);
  }

  lemma GoodCore(s: Sys, k: nat)
    requires Core(s) && k in s.attempts
    ensures Core(GoodStep(s, k))
  {
    StepCore(s, JobStep(k, Good(s.attempts[k])));
  }

  /** One good step of the cleanup of `id`, from one call to the next. */
  predicate Goes(s: Sys, s': Sys, k: nat, id: Id, pc: CleanupPc) {
    && k in s'.attempts && s'.attempts[k].Cleanup? && s'.attempts[k].id == id && s'.attempts[k].pc == pc
    && s'.attempts.Keys == s.attempts.Keys
    && SameElse(s, s')
  }

  predicate StandsAt(s: Sys, k: nat, id: Id, pc: CleanupPc) {
    && k in s.attempts && s.attempts[k].Cleanup? && s.attempts[k].id == id && s.attempts[k].pc == pc
    && id in s.db.sandboxes
  }

  /** Where the read sends the attempt. */
  function AfterRead(r: Sandbox, target: Status): CleanupPc {
    if Terminal(r.status) then Ended else if r.worker.Some? then CallRemove(r.worker.value) else Finish(target)
  }

  lemma GoRead(s: Sys, k: nat, id: Id)
    requires StandsAt(s, k, id, ReadTarget)
    ensures var s' := GoodStep(s, k);
            Goes(s, s', k, id, AfterRead(s.db.sandboxes[id], s.attempts[k].target)) && s'.db == s.db && s'.hosted == s.hosted
  {
    GoodRuns(s, k);
  }

  lemma GoCall(s: Sys, k: nat, id: Id, w: WorkerId)
    requires StandsAt(s, k, id, CallRemove(w))
    ensures var s' := GoodStep(s, k);
            Goes(s, s', k, id, Unlink(s.attempts[k].target)) && s'.db == s.db && s'.hosted == Teardown(s.hosted, w, id)
  {
    GoodRuns(s, k);
  }

  lemma GoUnlink(s: Sys, k: nat, id: Id, target: Status)
    requires StandsAt(s, k, id, Unlink(target))
    ensures var s' := GoodStep(s, k);
            Goes(s, s', k, id, Finish(target)) && s'.db == Tx.ClearWorker(s.db, id) && s'.hosted == s.hosted
  {
    GoodRuns(s, k);
  }

  lemma GoFinish(s: Sys, k: nat, id: Id, target: Status)
    requires StandsAt(s, k, id, Finish(target)) && AttemptOk(s, s.attempts[k])
    ensures var s' := GoodStep(s, k);
            && Goes(s, s', k, id, Ended) && s'.hosted == s.hosted
            && s'.db.sandboxes.Keys == s.db.sandboxes.Keys
            && (forall other <- s.db.sandboxes :: other != id ==> s'.db.sandboxes[other] == s.db.sandboxes[other])
            && Terminal(s'.db.sandboxes[id].status) && s'.db.sandboxes[id].worker.None?
  {
    FinishRuns(s, k);
  }

  lemma GoNowhere(s: Sys, k: nat, id: Id)
    requires StandsAt(s, k, id, Ended)
    ensures var s' := GoodStep(s, k);
            Goes(s, s', k, id, Ended) && s'.db == s.db && s'.hosted == s.hosted
  {
    EndedRuns(s, k);
  }

  lemma Unlinked(db: Db, id: Id)
    requires id in db.sandboxes && db.sandboxes[id].status == CleanupPending
    ensures var db' := Tx.ClearWorker(db, id);
            && db'.sandboxes.Keys == db.sandboxes.Keys
            && (forall other <- db.sandboxes :: other != id ==> db'.sandboxes[other] == db.sandboxes[other])
            && db'.sandboxes[id].worker.None?
  {
  }

  lemma Started(s: Sys, k: nat, id: Id, job: nat)
    requires Core(s) && k !in s.attempts && id in s.db.sandboxes && OpenJob(s, id, job)
    ensures var s' := Step(s, StartCleanup(k, id, job, false));
            && StandsAt(s', k, id, ReadTarget) && Core(s')
            && s'.db == s.db && s'.hosted == s.hosted && SameElse(s, s')
            && s'.attempts.Keys == s.attempts.Keys + {k}
  {
    StartRuns(s, k, id, job);
    StartKeepsCore(s, k, id, job);
    var s' := Step(s, StartCleanup(k, id, job, false));
    Stands(s', k, s'.attempts[k]);
  }

  lemma Stands(s: Sys, k: nat, a: Attempt)
    requires k in s.attempts && s.attempts[k] == a && a.Cleanup? && a.id in s.db.sandboxes
    ensures StandsAt(s, k, a.id, a.pc)
  {
  }

  lemma StartKeepsCore(s: Sys, k: nat, id: Id, job: nat)
    requires Core(s)
    ensures Core(Step(s, StartCleanup(k, id, job, false)))
  {
    StepCore(s, StartCleanup(k, id, job, false));
  }

  lemma CleansEnded(s: Sys, k: nat, id: Id)
    requires StandsAt(s, k, id, Ended)
    requires Terminal(s.db.sandboxes[id].status) && s.db.sandboxes[id].worker.None?
    ensures var s' := GoodStep(GoodStep(GoodStep(s, k), k), k);
            Cleansed(s, s', id) && SameElse(s, s') && s'.attempts.Keys == s.attempts.Keys
  {
    GoNowhere(s, k, id);
    GoNowhere(GoodStep(s, k), k, id);
    GoNowhere(GoodStep(GoodStep(s, k), k), k, id);
  }

  lemma CleansUnlinked(s: Sys, k: nat, id: Id, target: Status)
    requires StandsAt(s, k, id, Finish(target)) && AttemptOk(s, s.attempts[k])
    ensures var s' := GoodStep(GoodStep(GoodStep(s, k), k), k);
            Cleansed(s, s', id) && SameElse(s, s') && s'.attempts.Keys == s.attempts.Keys
  {
    GoFinish(s, k, id, target);
    GoNowhere(GoodStep(s, k), k, id);
    GoNowhere(GoodStep(GoodStep(s, k), k), k, id);
  }

  lemma CleansLinked(s: Sys, k: nat, id: Id, w: WorkerId)
    requires Core(s) && StandsAt(s, k, id, CallRemove(w))
    requires s.db.sandboxes[id].status == CleanupPending && LinkedTo(s.db.sandboxes[id], w)
    ensures var s' := GoodStep(GoodStep(GoodStep(s, k), k), k);
            Cleansed(s, s', id) && SameElse(s, s') && s'.attempts.Keys == s.attempts.Keys
  {
    var target := s.attempts[k].target;
    var s1 := GoodStep(s, k);
    var s2 := GoodStep(s1, k);
    GoCall(s, k, id, w);
    GoUnlink(s1, k, id, target);
    Unlinked(s.db, id);
    assert AttemptOk(s2, s2.attempts[k]) by {
      GoodCore(s, k);
      GoodCore(s1, k);
    }
    GoFinish(s2, k, id, target);
  }

  lemma CleansFromRead(s: Sys, k: nat, id: Id)
    requires Core(s) && StandsAt(s, k, id, ReadTarget) && PastRunning(s.db.sandboxes[id].status)
    ensures var s' := GoodStep(GoodStep(GoodStep(GoodStep(s, k), k), k), k);
            Cleansed(s, s', id) && SameElse(s, s') && s'.attempts.Keys == s.attempts.Keys
  {
    var r := s.db.sandboxes[id];
    var s1 := GoodStep(s, k);
    assert RowOk(r, s.now) by { assert SandboxOk(s, id); }
    GoRead(s, k, id);
    if Terminal(r.status) {
      CleansEnded(s1, k, id);
    } else {
      assert Core(s1) by { GoodCore(s, k); }
      if r.worker.Some? {
        CleansLinked(s1, k, id, r.worker.value);
      } else {
        assert AttemptOk(s1, s1.attempts[k]);
        CleansUnlinked(s1, k, id, s.attempts[k].target);
      }
    }
  }

  lemma FourGoodCore(s: Sys, k: nat)
    requires Core(s)
    ensures Core(GoodStep(GoodStep(GoodStep(GoodStep(s, k), k), k), k))
  {
    var s1 := GoodStep(s, k);
    if k in s.attempts { GoodCore(s, k); }
    var s2 := GoodStep(s1, k);
    if k in s1.attempts { GoodCore(s1, k); }
    var s3 := GoodStep(s2, k);
    if k in s2.attempts { GoodCore(s2, k); }
    if k in s3.attempts { GoodCore(s3, k); }
  }

  lemma CleanedRuns(s: Sys, k: nat, id: Id, job: nat)
    requires Core(s) && k !in s.attempts && id in s.db.sandboxes && PastRunning(s.db.sandboxes[id].status) && OpenJob(s, id, job)
    ensures var s' := Cleaned(s, k, id, job);
            && Cleansed(s, s', id) && SameElse(s, s') && Core(s')
            && s'.attempts.Keys == s.attempts.Keys + {k}
  {
    var s1 := Step(s, StartCleanup(k, id, job, false));
    Started(s, k, id, job);
    CleansFromRead(s1, k, id);
    FourGoodCore(s1, k);
  }

  /** What a list of cleanup jobs does, each run to its end. */
  predicate AllCleaned(s: Sys, s': Sys, ids: seq<Id>) {
    && s'.db.sandboxes.Keys == s.db.sandboxes.Keys
    && (forall id <- s.db.sandboxes ::
          if id in ids then Terminal(s'.db.sandboxes[id].status) && s'.db.sandboxes[id].worker.None?
          else s'.db.sandboxes[id] == s.db.sandboxes[id])
    && (forall c <- s'.hosted :: c in s.hosted && s'.hosted[c] == s.hosted[c])
    && (forall c <- s.hosted :: c.1 !in ids ==> c in s'.hosted)
  }

  ghost predicate FreshFrom(s: Sys, k: nat) {
    forall j: nat :: j >= k ==> j !in s.attempts
  }

  /** Jobs that are open, of sandboxes past running. */
  predicate AllOpen(s: Sys, jobs: seq<(Id, nat)>) {
    forall c <- jobs :: c.0 in s.db.sandboxes && PastRunning(s.db.sandboxes[c.0].status) && OpenJob(s, c.0, c.1)
  }

  lemma CleanedThenAll(s: Sys, s1: Sys, s': Sys, jobs: seq<(Id, nat)>)
    requires jobs != [] && jobs[0].0 in s.db.sandboxes
    requires Cleansed(s, s1, jobs[0].0) && AllCleaned(s1, s', Ids(jobs[1..]))
    ensures AllCleaned(s, s', Ids(jobs))
  {
    var first, rest := jobs[0].0, Ids(jobs[1..]);
    assert Ids(jobs) == [first] + rest;
    forall id | id in s.db.sandboxes
      ensures if id in Ids(jobs) then Terminal(s'.db.sandboxes[id].status) && s'.db.sandboxes[id].worker.None?
              else s'.db.sandboxes[id] == s.db.sandboxes[id]
    {
      assert id in Ids(jobs) <==> id == first || id in rest;
    }
    forall c | c in s.hosted && c.1 !in Ids(jobs) ensures c in s'.hosted {
      assert c.1 != first && c.1 !in rest;
    }
  }

  lemma StillOpen(s: Sys, s1: Sys, jobs: seq<(Id, nat)>)
    requires jobs != [] && AllOpen(s, jobs) && jobs[0].0 in s.db.sandboxes && Cleansed(s, s1, jobs[0].0) && SameElse(s, s1)
    ensures AllOpen(s1, jobs[1..])
  {
    forall c | c in jobs[1..]
      ensures c.0 in s1.db.sandboxes && PastRunning(s1.db.sandboxes[c.0].status) && OpenJob(s1, c.0, c.1)
    {
      assert c in jobs;
    }
  }

  lemma CleanedOne(s: Sys, k: nat, jobs: seq<(Id, nat)>)
    requires Core(s) && FreshFrom(s, k) && jobs != [] && AllOpen(s, jobs)
    ensures var s1 := Cleaned(s, k, jobs[0].0, jobs[0].1);
            && jobs[0].0 in s.db.sandboxes && Cleansed(s, s1, jobs[0].0) && SameElse(s, s1) && Core(s1)
            && FreshFrom(s1, k + 1) && AllOpen(s1, jobs[1..])
  {
    var s1 := Cleaned(s, k, jobs[0].0, jobs[0].1);
    assert jobs[0] in jobs;
    CleanedRuns(s, k, jobs[0].0, jobs[0].1);
    StillOpen(s, s1, jobs);
    FreshNext(s, s1, k);
  }

  lemma FreshNext(s: Sys, s1: Sys, k: nat)
    requires FreshFrom(s, k) && s1.attempts.Keys == s.attempts.Keys + {k}
    ensures FreshFrom(s1, k + 1)
  {
    forall j: nat | j >= k + 1 ensures j !in s1.attempts {
      assert j !in s.attempts.Keys;
    }
  }

  lemma {:induction false} CleanAllRuns(s: Sys, k: nat, jobs: seq<(Id, nat)>)
    requires Core(s) && FreshFrom(s, k) && AllOpen(s, jobs)
    ensures AllCleaned(s, CleanAll(s, k, jobs), Ids(jobs))
    ensures SameElse(s, CleanAll(s, k, jobs)) && Core(CleanAll(s, k, jobs))
    decreases jobs
  {
    if jobs != [] {
      CleanedOne(s, k, jobs);
      var s1 := Cleaned(s, k, jobs[0].0, jobs[0].1);
      var s' := CleanAll(s1, k + 1, jobs[1..]);
      CleanAllRuns(s1, k + 1, jobs[1..]);
      CleanedThenAll(s, s1, s', jobs);
    }
  }

  lemma WorkersKept(s: Sys, s': Sys, ids: seq<Id>)
    requires WorkersOk(s) && SameElse(s, s') && AllCleaned(s, s', ids)
    ensures WorkersOk(s')
  {
    forall w | w in s'.db.workers ensures WorkerOk(s', w) { assert WorkerOk(s, w); }
    forall id | id in s'.db.sandboxes && s'.db.sandboxes[id].worker.Some?
      ensures s'.db.sandboxes[id].worker.value in s'.db.workers
    {
      assert id !in ids;
    }
  }

  /** A sandbox of `w` that waits for its cleanup, with no job left to attempt: each has
      begun its last attempt, and none has ended it. */
  ghost predicate Stuck(s: Sys, w: WorkerId, id: Id) {
    && id in s.db.sandboxes && LinkedTo(s.db.sandboxes[id], w) && s.db.sandboxes[id].status == CleanupPending
    && forall job: nat :: !OpenJob(s, id, job)
  }

  /** Every row linked to `w` is active and has a healthy VM behind it, or is stuck. */
  ghost predicate Consistent(s: Sys, w: WorkerId) {
    forall id <- s.db.sandboxes :: LinkedTo(s.db.sandboxes[id], w) ==>
      (Active(s.db.sandboxes[id].status) && HostsHealthy(s.hosted, w, id)) || Stuck(s, w, id)
  }

  /** The list holds every sandbox of `w` that waits for its cleanup and is not stuck. */
  ghost predicate Covers(s: Sys, w: WorkerId, ids: seq<Id>) {
    forall id <- s.db.sandboxes ::
      LinkedTo(s.db.sandboxes[id], w) && s.db.sandboxes[id].status == CleanupPending && !Stuck(s, w, id) ==> id in ids
  }

  lemma StuckIsNotCleaned(s: Sys, s': Sys, w: WorkerId, jobs: seq<(Id, nat)>, id: Id)
    requires AllOpen(s, jobs) && AllCleaned(s, s', Ids(jobs)) && SameElse(s, s')
    ensures Stuck(s, w, id) <==> Stuck(s', w, id)
    ensures Stuck(s, w, id) ==> (HostsAlive(s'.hosted, w, id) <==> HostsAlive(s.hosted, w, id))
  {
    if id in s.db.sandboxes && id in Ids(jobs) {
      var i :| 0 <= i < |jobs| && Ids(jobs)[i] == id;
      assert jobs[i] in jobs && OpenJob(s, id, jobs[i].1);
    }
    forall job: nat ensures OpenJob(s, id, job) <==> OpenJob(s', id, job) {
    }
    if Stuck(s, w, id) && (w, id) in s.hosted {
      assert (w, id).1 !in Ids(jobs);
    }
  }

  lemma CleaningSuffices(s: Sys, s': Sys, w: WorkerId, jobs: seq<(Id, nat)>)
    requires Core(s) && Backed(s, w) && AllOpen(s, jobs) && Covers(s, w, Ids(jobs))
    requires AllCleaned(s, s', Ids(jobs)) && SameElse(s, s')
    ensures Consistent(s', w)
  {
    forall id | id in s'.db.sandboxes && LinkedTo(s'.db.sandboxes[id], w) && !Stuck(s', w, id)
      ensures Active(s'.db.sandboxes[id].status) && HostsHealthy(s'.hosted, w, id)
    {
      StuckIsNotCleaned(s, s', w, jobs, id);
      assert SandboxOk(s, id);
      assert id !in Ids(jobs);
      assert ActiveOn(s.db.sandboxes[id], w);
      assert (w, id) in s.hosted && (w, id).1 !in Ids(jobs);
    }
  }

  // ---- The last inventory and the orphan jobs ----

  lemma ActiveStaysActive(s: Sys, s': Sys, w: WorkerId, b: Beat, id: Id)
    requires Reports(s, w, b) && Inventoried(s, s', w, b) && id in s.db.sandboxes
    requires LinkedTo(s.db.sandboxes[id], w) ==> Active(s.db.sandboxes[id].status) && HostsHealthy(s.hosted, w, id)
    ensures id in s'.db.sandboxes
    ensures ActiveOn(s'.db.sandboxes[id], w) <==> LinkedTo(s.db.sandboxes[id], w)
  {
    ExactLists(s.hosted, w, b.inv, id);
  }

  lemma LinkedStaysActive(s: Sys, s': Sys, w: WorkerId, b: Beat, id: Id)
    requires Consistent(s, w) && Reports(s, w, b) && Inventoried(s, s', w, b) && id in s.db.sandboxes
    ensures id in s'.db.sandboxes
    ensures ActiveOn(s'.db.sandboxes[id], w) <==> LinkedTo(s.db.sandboxes[id], w) && !Stuck(s, w, id)
  {
    if Stuck(s, w, id) { InventoryKeepsStuck(s, s', w, b, id); } else { ActiveStaysActive(s, s', w, b, id); }
  }

  lemma OrphansFound(s: Sys, s': Sys, w: WorkerId, b: Beat, id: Id)
    requires Consistent(s, w) && Reports(s, w, b) && Inventoried(s, s', w, b)
    requires (w, id) in s.hosted && !(id in s.db.sandboxes && LinkedTo(s.db.sandboxes[id], w))
    ensures id in Tx.OrphanIds(s.db.sandboxes, w, b.inv)
    ensures (w, id) in s'.db.orphans
  {
    ExactLists(s.hosted, w, b.inv, id);
    assert b.inv.Lists(id);
  }

  lemma {:induction false} RemoveAllRuns(s: Sys, w: WorkerId, ids: seq<Id>)
    requires forall id <- ids :: (w, id) in s.db.orphans
    ensures var s' := RemoveAll(s, w, ids);
            && s'.db == s.db
            && (forall c :: c in s'.hosted <==> c in s.hosted && !(c.0 == w && c.1 in ids))
            && (forall c <- s'.hosted :: s'.hosted[c] == s.hosted[c])
    decreases ids
  {
    if ids != [] {
      var s1 := Step(s, RemoveOrphan(w, ids[0], Answered));
      assert (w, ids[0]) in s.db.orphans;
      assert s1.db == s.db && s1.hosted == Teardown(s.hosted, w, ids[0]);
      RemoveAllRuns(s1, w, ids[1..]);
      assert forall id :: id in ids <==> id == ids[0] || id in ids[1..];
    }
  }

  // ---- The round ----

  /** The orphan jobs the last inventory called for, in any order. */
  ghost predicate OrphansOf(s: Sys, w: WorkerId, b: Beat, ids: seq<Id>) {
    forall id :: id in ids <==> id in Tx.OrphanIds(s.db.sandboxes, w, b.inv)
  }

  lemma LastInventoryAgrees(s: Sys, w: WorkerId, b: Beat, orphans: seq<Id>, id: Id)
    requires Core(s) && WorkersOk(s) && Consistent(s, w) && Reports(s, w, b) && OrphansOf(s, w, b, orphans)
    ensures Agree(RemoveAll(Heartbeat(s, b), w, orphans), w, id) <==> !(Stuck(s, w, id) && HostsAlive(s.hosted, w, id))
  {
    HeartbeatRuns(s, w, b);
    var told := Heartbeat(s, b);
    forall x | x in orphans ensures (w, x) in told.db.orphans {
      assert x in Tx.OrphanIds(s.db.sandboxes, w, b.inv);
    }
    RemoveAllRuns(told, w, orphans);
    AgreesOn(s, told, w, b, orphans, id);
  }

  lemma AgreesLinked(s: Sys, told: Sys, w: WorkerId, b: Beat, orphans: seq<Id>, id: Id)
    requires Consistent(s, w) && OrphansOf(s, w, b, orphans) && told.hosted == s.hosted
    requires id in s.db.sandboxes && LinkedTo(s.db.sandboxes[id], w) && id in told.db.sandboxes
    requires ActiveOn(told.db.sandboxes[id], w) <==> !Stuck(s, w, id)
    ensures id !in orphans
    ensures ActiveOn(told.db.sandboxes[id], w) <==> HostsAlive(told.hosted, w, id) && !Stuck(s, w, id)
  {
    assert Tx.Attributed(s.db.sandboxes, w, id);
  }

  lemma AgreesUnlinked(s: Sys, told: Sys, w: WorkerId, b: Beat, orphans: seq<Id>, id: Id)
    requires Consistent(s, w) && Reports(s, w, b) && Inventoried(s, told, w, b) && OrphansOf(s, w, b, orphans)
    requires !(id in s.db.sandboxes && LinkedTo(s.db.sandboxes[id], w))
    ensures (w, id) in told.hosted ==> id in orphans
    ensures !(id in told.db.sandboxes && ActiveOn(told.db.sandboxes[id], w))
  {
    if id in s.db.sandboxes { LinkedStaysActive(s, told, w, b, id); }
    if (w, id) in s.hosted { OrphansFound(s, told, w, b, id); }
  }

  /** One sandbox, before the orphans are removed. */
  lemma AgreesOn(s: Sys, told: Sys, w: WorkerId, b: Beat, orphans: seq<Id>, id: Id)
    requires Consistent(s, w) && Reports(s, w, b) && Inventoried(s, told, w, b) && OrphansOf(s, w, b, orphans)
    ensures (id in told.db.sandboxes && ActiveOn(told.db.sandboxes[id], w))
            <==> (HostsAlive(told.hosted, w, id) && id !in orphans && !Stuck(s, w, id))
    ensures Stuck(s, w, id) ==> id !in orphans
  {
    if id in s.db.sandboxes && LinkedTo(s.db.sandboxes[id], w) {
      LinkedStaysActive(s, told, w, b, id);
      AgreesLinked(s, told, w, b, orphans, id);
    } else {
      AgreesUnlinked(s, told, w, b, orphans, id);
    }
  }

  /** The database holds the sandbox active on `w` exactly when `w` hosts its VM alive. */
  predicate Agree(s: Sys, w: WorkerId, id: Id) {
    (id in s.db.sandboxes && ActiveOn(s.db.sandboxes[id], w)) <==> HostsAlive(s.hosted, w, id)
  }

  /** From any state of the tables a run can reach, and whatever `w` hosts, one round
      without faults ends with the database and `w` agreeing on a sandbox, unless it was
      stuck to begin with and its VM alive. The cleanup jobs may run in any order, with
      those of other sandboxes, and so may the orphan jobs. */
  lemma OneRoundConverges(s: Sys, w: WorkerId, d: nat, b: Beat, k: nat, jobs: seq<(Id, nat)>, b': Beat, orphans: seq<Id>, id: Id)
    requires Core(s) && WorkersOk(s) && s.cfg.workerLostTimeout > 0
    requires d > s.cfg.livenessTimeout
    requires Reports(Step(s, Tick(d)), w, b)
    requires var reaped := Reaped(s, d, b);
             && AllOpen(reaped, jobs) && Covers(reaped, w, Ids(jobs)) && FreshFrom(reaped, k)
             && Reports(CleanAll(reaped, k, jobs), w, b')
             && OrphansOf(CleanAll(reaped, k, jobs), w, b', orphans)
    ensures Agree(RemoveAll(Heartbeat(CleanAll(Reaped(s, d, b), k, jobs), b'), w, orphans), w, id)
            <==> !(Stuck(s, w, id) && HostsAlive(s.hosted, w, id))
  {
    var reaped := Reaped(s, d, b);
    ReapedBacked(s, w, d, b);
    ReapedStuck(s, w, d, b, id);
    var cleaned := CleanAll(reaped, k, jobs);
    CleanAllRuns(reaped, k, jobs);
    WorkersKept(reaped, cleaned, Ids(jobs));
    CleaningSuffices(reaped, cleaned, w, jobs);
    StuckIsNotCleaned(reaped, cleaned, w, jobs, id);
    LastInventoryAgrees(cleaned, w, b', orphans, id);
  }

  // ---- Rounds exist ----

  lemma {:induction false} Listed(ids: set<Id>) returns (list: seq<Id>)
    ensures forall id :: id in list <==> id in ids
  {
    if ids == {} {
      list := [];
    } else {
      var x :| x in ids;
      var rest := Listed(ids - {x});
      list := [x] + rest;
    }
  }

  lemma {:induction false} FreshKey(keys: set<nat>) returns (k: nat)
    ensures forall j: nat :: j >= k ==> j !in keys
  {
    if keys == {} {
      k := 0;
    } else {
      var x :| x in keys;
      var rest := FreshKey(keys - {x});
      k := Max(rest, x + 1);
      forall j: nat | j >= k ensures j !in keys { assert j !in keys - {x}; }
    }
  }

  lemma ReportExists(s: Sys, w: WorkerId, report: Report) returns (b: Beat)
    requires w in s.db.workers
    ensures Reports(s, w, b)
  {
    var ids := set c | c in s.hosted && c.0 == w :: c.1;
    var live := Listed(set id | id in ids && HostsAs(s.hosted, w, id, {VmStarting, VmPaused}));
    var running := Listed(set id | id in ids && HostsAs(s.hosted, w, id, {VmRunning}));
    var unknown := Listed(set id | id in ids && HostsAs(s.hosted, w, id, {VmUnknown}));
    var dead := Listed(set id | id in ids && HostsAs(s.hosted, w, id, {VmDead}));
    assert forall id :: (w, id) in s.hosted ==> id in ids by {
      forall id | (w, id) in s.hosted ensures id in ids { assert (w, id).0 == w && (w, id).1 == id; }
    }
    b := Beat(w, s.db.workers[w].token, report, true, Inventory(live, running, unknown, dead));
  }

  ghost predicate HasOpenJob(s: Sys, id: Id) {
    exists job: nat :: OpenJob(s, id, job)
  }

  lemma {:induction false} Paired(s: Sys, ids: seq<Id>) returns (jobs: seq<(Id, nat)>)
    requires forall id <- ids :: id in s.db.sandboxes && PastRunning(s.db.sandboxes[id].status)
    requires forall id <- ids :: HasOpenJob(s, id)
    ensures Ids(jobs) == ids && AllOpen(s, jobs)
  {
    if ids == [] {
      jobs := [];
    } else {
      assert ids[0] in ids;
      var job: nat :| OpenJob(s, ids[0], job);
      var rest := Paired(s, ids[1..]);
      jobs := [(ids[0], job)] + rest;
    }
  }

  /** Such a round exists from every state it speaks of. */
  lemma RoundExists(s: Sys, w: WorkerId, d: nat, report: Report)
    returns (b: Beat, k: nat, jobs: seq<(Id, nat)>, b': Beat, orphans: seq<Id>)
    requires Core(s) && WorkersOk(s) && s.cfg.workerLostTimeout > 0 && d > s.cfg.livenessTimeout && w in s.db.workers
    ensures Reports(Step(s, Tick(d)), w, b)
    ensures var reaped := Reaped(s, d, b);
            && AllOpen(reaped, jobs) && Covers(reaped, w, Ids(jobs)) && FreshFrom(reaped, k)
            && Reports(CleanAll(reaped, k, jobs), w, b')
            && OrphansOf(CleanAll(reaped, k, jobs), w, b', orphans)
  {
    DelayKeeps(s, d);
    b := ReportExists(Step(s, Tick(d)), w, report);
    var reaped := Reaped(s, d, b);
    ReapedBacked(s, w, d, b);
    k := FreshKey(reaped.attempts.Keys);
    jobs := OpenJobs(reaped, w);
    CleanAllRuns(reaped, k, jobs);
    var cleaned := CleanAll(reaped, k, jobs);
    b' := ReportExists(cleaned, w, report);
    orphans := Listed(Tx.OrphanIds(cleaned.db.sandboxes, w, b'.inv));
  }

  lemma OpenJobs(s: Sys, w: WorkerId) returns (jobs: seq<(Id, nat)>)
    ensures AllOpen(s, jobs) && Covers(s, w, Ids(jobs))
  {
    var ids := Listed(set id | id in s.db.sandboxes && LinkedTo(s.db.sandboxes[id], w)
                             && s.db.sandboxes[id].status == CleanupPending && !Stuck(s, w, id));
    forall id | id in ids ensures HasOpenJob(s, id) {
      assert !Stuck(s, w, id);
    }
    jobs := Paired(s, ids);
  }

  /** The tables of every reachable state qualify, with any hosts put under them. */
  lemma ReachableStatesQualify(cfg: Config, now: Time, actions: seq<Action>, hosted: Hosts)
    ensures var s := Run(Init(cfg, now), actions).(hosted := hosted); Core(s) && WorkersOk(s)
  {
    InitInv(cfg, now);
    RunWorkersOk(Init(cfg, now), actions);
    CoreIgnoresHosts(Run(Init(cfg, now), actions), hosted);
  }

  lemma CoreIgnoresHosts(s: Sys, hosted: Hosts)
    requires Core(s) && WorkersOk(s)
    ensures Core(s.(hosted := hosted)) && WorkersOk(s.(hosted := hosted))
  {
    var s' := s.(hosted := hosted);
    forall id | id in s'.db.sandboxes ensures SandboxOk(s', id) { assert SandboxOk(s, id); }
    forall k | k in s'.attempts ensures AttemptOk(s', s'.attempts[k]) { assert AttemptOk(s, s.attempts[k]); }
    forall w | w in s'.db.workers ensures WorkerOk(s', w) { assert WorkerOk(s, w); }
  }
}
