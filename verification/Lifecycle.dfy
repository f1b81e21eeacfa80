/** The life of one sandbox row, and the proof that no transaction leaves it. */
module Lifecycle {
  import opened Collections
  import opened Tables
  import opened Transactions
  import Facts = TransactionFacts

  /** What holds of every row: the link to the worker is absent before assignment
      and after the end, present while active, and a row that ever had one was
      seen at a time the clock has reached. */
  predicate RowOk(r: Sandbox, now: Time) {
    && (Early(r.status) ==> r.worker.None?)
    && (Active(r.status) ==> r.worker.Some?)
    && (Terminal(r.status) ==> r.worker.None?)
    && (r.worker.Some? ==> r.lastSeen.Some?)
    && (r.lastSeen.Some? ==> r.lastSeen.value <= now)
  }

  /** Everything one atomic step may do to a row. */
  predicate Follows(r: Sandbox, r': Sandbox, now: Time) {
    || r' == r
    || (Active(r.status) && r' == r.(lastSeen := Some(now)))
    || (r.status == Pending && r' == r.(status := Scheduling))
    || (r.status == Scheduling && r'.worker.Some? && r' == r.(status := Assigned, worker := r'.worker, lastSeen := Some(now)))
    || (r.status == Assigned && r' == r.(status := Starting))
    || (r.status == Starting && r' == r.(status := Running))
    || (r.status == Starting && r' == r.(status := Running, lastSeen := Some(now)))
    || (!PastRunning(r.status) && r' == r.(status := CleanupPending))
    || (Active(r.status) && r' == r.(status := CleanupPending, lastSeen := Some(now)))
    || (r.status == CleanupPending && r' == r.(worker := None))
    || (r.status == CleanupPending && r.worker.None? && (r' == r.(status := Failed) || r' == r.(status := Stopped)))
  }

  /** A row's cleanup jobs beside it: a row that stops being up to running gets
      exactly one job in the same transaction, and gets no job before. */
  predicate JobsFollow(r: Sandbox, r': Sandbox, jobs: seq<Status>, jobs': seq<Status>) {
    if PastRunning(r'.status) && !PastRunning(r.status)
    then jobs' == jobs + [Failed] || jobs' == jobs + [Stopped]
    else jobs' == jobs || (PastRunning(r.status) && jobs' == jobs + [Failed])
  }

  /** Row `id` and its jobs under a transaction from `db` to `db'`. */
  predicate Moves(db: Db, db': Db, id: Id, now: Time)
    requires id in db.sandboxes
  {
    && id in db'.sandboxes
    && Follows(db.sandboxes[id], db'.sandboxes[id], now)
    && JobsFollow(db.sandboxes[id], db'.sandboxes[id], Jobs(db.cleanups, id), Jobs(db'.cleanups, id))
  }

  /** A transaction that chooses no worker for `id`: its link stays, or goes. */
  predicate NoNewLink(db: Db, db': Db, id: Id)
    requires id in db.sandboxes && id in db'.sandboxes
  {
    db'.sandboxes[id].worker == db.sandboxes[id].worker || db'.sandboxes[id].worker.None?
  }

  lemma FollowsKeepsRow(r: Sandbox, r': Sandbox, now: Time)
    requires RowOk(r, now) && Follows(r, r', now)
    ensures RowOk(r', now)
    ensures Rank(r.status) <= Rank(r'.status)
    ensures Terminal(r.status) ==> r' == r
    ensures PastRunning(r.status) && r.worker.None? ==> r'.worker.None?
    ensures r.worker.Some? ==> r'.worker == r.worker || r'.worker.None?
    ensures r.worker.None? && r'.worker.Some? ==> r.status == Scheduling && r'.status == Assigned
    ensures r.lastSeen.Some? ==> r'.lastSeen.Some? && r.lastSeen.value <= r'.lastSeen.value
  {
  }

  // ---- Each transaction moves each row along its life ----

  lemma SetStatusMoves(db: Db, id: Id, to: Status, from: Status, other: Id, now: Time)
    requires other in db.sandboxes
    requires (from, to) in {(Pending, Scheduling), (Assigned, Starting), (Starting, Running)}
    ensures Moves(db, SetStatus(db, id, to, {from}), other, now)
    ensures NoNewLink(db, SetStatus(db, id, to, {from}), other)
  {
  }

  lemma AssignMoves(db: Db, id: Id, w: WorkerId, other: Id, now: Time)
    requires other in db.sandboxes
    ensures Moves(db, Assign(db, id, w, now), other, now)
  {
  }

  lemma EventMoves(db: Db, id: Id, w: WorkerId, token: int, other: Id, now: Time)
    requires other in db.sandboxes
    ensures Moves(db, SetStatusFenced(db, id, w, token, Running, {Starting, Running}), other, now)
    ensures NoNewLink(db, SetStatusFenced(db, id, w, token, Running, {Starting, Running}), other)
  {
  }

  lemma DeleteMoves(db: Db, id: Id, other: Id, now: Time)
    requires other in db.sandboxes
    ensures Moves(db, Delete(db, id), other, now)
    ensures NoNewLink(db, Delete(db, id), other)
  {
    Facts.EnqueueAt(db.cleanups, {id}, Stopped, other);
  }

  lemma GiveUpMoves(db: Db, id: Id, other: Id, now: Time)
    requires other in db.sandboxes
    ensures Moves(db, GiveUp(db, id), other, now)
    ensures NoNewLink(db, GiveUp(db, id), other)
  {
    Facts.EnqueueAt(db.cleanups, {id}, Failed, other);
  }

  lemma ReapMoves(db: Db, cfg: Config, now: Time, locks: Locks, other: Id)
    requires other in db.sandboxes
    ensures Moves(db, Reap(db, cfg, now, locks), other, now)
    ensures NoNewLink(db, Reap(db, cfg, now, locks), other)
  {
    if cfg.workerLostTimeout > 0 {
      Facts.ReapChangesItsLists(db, cfg, now, locks, other);
    }
  }

  lemma HeartbeatMoves(db: Db, w: WorkerId, token: int, report: Report, inv: Inventory, now: Time, other: Id)
    requires other in db.sandboxes
    ensures Moves(db, Heartbeat(db, w, token, report, inv, now), other, now)
    ensures NoNewLink(db, Heartbeat(db, w, token, report, inv, now), other)
  {
    if FencedBy(db, w, token) {
      var first := FirstInventory(db, w, token);
      var registeredAt := db.workers[w].registeredAt;
      var ids := LostIds(db.sandboxes, w, registeredAt, first, inv) + DeadIds(db.sandboxes, w, inv);
      Facts.EnqueueAt(db.cleanups, ids, Failed, other);
    }
  }

  /** The two steps of a cleanup job. The last one finds no link left. */
  lemma UnlinkMoves(db: Db, id: Id, other: Id, now: Time)
    requires other in db.sandboxes
    ensures Moves(db, ClearWorker(db, id), other, now)
    ensures NoNewLink(db, ClearWorker(db, id), other)
  {
  }

  lemma FinishMoves(db: Db, id: Id, target: Status, other: Id, now: Time)
    requires other in db.sandboxes
    requires id in db.sandboxes && PastRunning(db.sandboxes[id].status) && db.sandboxes[id].worker.None?
    requires target == Failed || target == Stopped
    ensures Moves(db, SetStatus(db, id, target, BeforeTerminal), other, now)
    ensures NoNewLink(db, SetStatus(db, id, target, BeforeTerminal), other)
  {
  }
}
