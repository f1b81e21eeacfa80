/** Every database transaction of the orchestrator as a function from the state
    before it to the state after it.

    These are reference definitions: a bulk statement is given by what it decides
    for one row, whatever the number of statements the repository needs for it.
    `Repository.Postgres` holds the statement sequences and is proved against them. */
module Transactions {
  import opened Collections
  import opened Tables

  // ---- Guarded single-row updates ----

  /** UPDATE sandboxes SET status = to WHERE id = id AND status IN (from). */
  predicate Admits(db: Db, id: Id, from: set<Status>) {
    id in db.sandboxes && db.sandboxes[id].status in from
  }

  function SetStatus(db: Db, id: Id, to: Status, from: set<Status>): Db {
    if Admits(db, id, from)
    then db.(sandboxes := db.sandboxes[id := db.sandboxes[id].(status := to)])
    else db
  }

  const BeforeCleanup: set<Status> := {Pending, Scheduling, Assigned, Starting, Running}
  const BeforeTerminal: set<Status> := {CleanupPending, Pending, Scheduling, Assigned, Starting, Running}

  function ClearWorker(db: Db, id: Id): Db {
    if id in db.sandboxes && db.sandboxes[id].status == CleanupPending
    then db.(sandboxes := db.sandboxes[id := db.sandboxes[id].(worker := None)])
    else db
  }

  predicate FencedBy(db: Db, w: WorkerId, token: int) {
    w in db.workers && db.workers[w].token == token
  }

  function SetStatusFenced(db: Db, id: Id, w: WorkerId, token: int, to: Status, from: set<Status>): Db {
    if id in db.sandboxes && LinkedTo(db.sandboxes[id], w) && FencedBy(db, w, token)
    then SetStatus(db, id, to, from)
    else db
  }

  // ---- Assignment ----

  datatype AssignAnswer = AssignedTo | WorkerFull | Moved | NoSandbox | NoWorker

  function AssignAnswerFor(db: Db, id: Id, w: WorkerId): AssignAnswer {
    if w !in db.workers then NoWorker
    else if id !in db.sandboxes then NoSandbox
    else if db.sandboxes[id].status != Scheduling then Moved
    else if |Occupants(db.sandboxes, w)| < db.workers[w].capacity then AssignedTo
    else WorkerFull
  }

  function Assign(db: Db, id: Id, w: WorkerId, now: Time): Db {
    if AssignAnswerFor(db, id, w) == AssignedTo
    then db.(sandboxes := db.sandboxes[id := db.sandboxes[id].(worker := Some(w), status := Assigned, lastSeen := Some(now))])
    else db
  }

  // ---- Claims ----

  function Claimed(rows: map<Id, Sandbox>, ids: set<Id>): map<Id, Sandbox> {
    map id | id in rows :: if id in ids then rows[id].(status := CleanupPending) else rows[id]
  }

  /** Moves `ids` to cleanup_pending and enqueues one cleanup job for each. */
  function Claim(db: Db, ids: set<Id>, target: Status): Db {
    db.(sandboxes := Claimed(db.sandboxes, ids), cleanups := Enqueue(db.cleanups, ids, target))
  }

  predicate TtlExpired(r: Sandbox, now: Time) {
    && (Early(r.status) || Active(r.status))
    && r.createdAt + Min(Max(r.ttl, 0), MAX_TTL_SECONDS) * SECOND <= now
  }

  /** The worker heartbeats but has not vouched for the sandbox for the liveness
      timeout, counted from its registration if that is later; or the worker has
      been inactive for longer than the worker-lost timeout. */
  predicate LivenessExpired(r: Sandbox, workers: map<WorkerId, Worker>, cfg: Config, now: Time) {
    && Active(r.status)
    && r.worker.Some?
    && r.worker.value in workers
    && var w := workers[r.worker.value];
    ( || w.lastHeartbeat > Max(SeenAt(r), w.registeredAt) + cfg.livenessTimeout
      || (w.status == Inactive && w.inactiveSince.Some? && w.inactiveSince.value < now - cfg.workerLostTimeout))
  }

  predicate CreationStalled(r: Sandbox, cfg: Config, now: Time) {
    cfg.createTimeout > 0 && Early(r.status) && r.createdAt < now - cfg.createTimeout
  }

  /** The three claims of one reaper run. Rows locked by a concurrent transaction
      are skipped, each claim seeing its own set of locks. */
  datatype Locks = Locks(ttl: set<Id>, liveness: set<Id>, stalled: set<Id>)

  function TtlIds(rows: map<Id, Sandbox>, now: Time, locked: set<Id>): set<Id> {
    set id | id in rows && id !in locked && TtlExpired(rows[id], now)
  }

  function LivenessIds(rows: map<Id, Sandbox>, workers: map<WorkerId, Worker>, cfg: Config, now: Time, locked: set<Id>): set<Id> {
    set id | id in rows && id !in locked && LivenessExpired(rows[id], workers, cfg, now)
  }

  function StalledIds(rows: map<Id, Sandbox>, cfg: Config, now: Time, locked: set<Id>): set<Id> {
    set id | id in rows && id !in locked && CreationStalled(rows[id], cfg, now)
  }

  function ReapExpired(db: Db, now: Time, locks: Locks): set<Id> {
    TtlIds(db.sandboxes, now, locks.ttl)
  }

  function ReapDead(db: Db, cfg: Config, now: Time, locks: Locks): set<Id> {
    LivenessIds(db.sandboxes, db.workers, cfg, now, locks.liveness) - ReapExpired(db, now, locks)
  }

  function ReapStalled(db: Db, cfg: Config, now: Time, locks: Locks): set<Id> {
    StalledIds(db.sandboxes, cfg, now, locks.stalled) - ReapExpired(db, now, locks)
  }

  function ReapedRow(db: Db, id: Id, cfg: Config, now: Time, locks: Locks): Sandbox
    requires id in db.sandboxes
  {
    var r := db.sandboxes[id];
    if || id in ReapExpired(db, now, locks)
       || id in ReapDead(db, cfg, now, locks)
       || id in ReapStalled(db, cfg, now, locks)
    then r.(status := CleanupPending) else r
  }

  function Reap(db: Db, cfg: Config, now: Time, locks: Locks): Db {
    if cfg.workerLostTimeout <= 0 then db
    else db.(
      sandboxes := map id | id in db.sandboxes :: ReapedRow(db, id, cfg, now, locks),
      cleanups := Enqueue(
        Enqueue(db.cleanups, ReapExpired(db, now, locks), Stopped),
        ReapDead(db, cfg, now, locks) + ReapStalled(db, cfg, now, locks), Failed))
  }

  // ---- Workers ----

  function Registered(db: Db, w: WorkerId, presented: int, report: Report, now: Time): Worker {
    if w in db.workers
    then Worker(report.status, report.capacity, now, Max(db.workers[w].token, presented) + 1,
                db.workers[w].inventoryToken, now, None)
    else Worker(report.status, report.capacity, now, Max(presented, 0) + 1, 0, now, None)
  }

  function Register(db: Db, w: WorkerId, presented: int, report: Report, now: Time): Db {
    db.(workers := db.workers[w := Registered(db, w, presented, report, now)])
  }

  datatype Refusal = Fenced | Unknown

  function WhyRefused(db: Db, w: WorkerId, presented: int): Refusal {
    if w !in db.workers || db.workers[w].token < presented then Unknown else Fenced
  }

  function Refreshed(wr: Worker, report: Report, now: Time): Worker {
    wr.(status := report.status, capacity := report.capacity, lastHeartbeat := now, inactiveSince := None)
  }

  function Refresh(db: Db, w: WorkerId, token: int, report: Report, now: Time): Db {
    if FencedBy(db, w, token)
    then db.(workers := db.workers[w := Refreshed(db.workers[w], report, now)])
    else db
  }

  function StaleRow(wr: Worker, timeout: Time, now: Time): Worker {
    if wr.status == Up && wr.lastHeartbeat < now - timeout
    then wr.(status := Inactive, inactiveSince := Some(now))
    else wr
  }

  const DEFAULT_HEARTBEAT_TIMEOUT: Time := 15 * SECOND

  function EffectiveTimeout(timeout: Time): Time {
    if timeout <= 0 then DEFAULT_HEARTBEAT_TIMEOUT else timeout
  }

  function MarkStale(db: Db, timeout: Time, now: Time): Db {
    db.(workers := map w | w in db.workers :: StaleRow(db.workers[w], EffectiveTimeout(timeout), now))
  }

  // ---- Inventory ----

  /** A sandbox of the worker's previous incarnation: not listed in the first
      inventory and last seen before the worker registered. */
  predicate IsLost(r: Sandbox, id: Id, w: WorkerId, registeredAt: Time, first: bool, inv: Inventory) {
    first && ActiveOn(r, w) && !inv.Lists(id) && SeenAt(r) < registeredAt
  }

  predicate IsDead(r: Sandbox, id: Id, w: WorkerId, inv: Inventory) {
    ActiveOn(r, w) && id in inv.dead
  }

  /** What one inventory decides for one row. */
  function ReconciledRow(r: Sandbox, id: Id, w: WorkerId, registeredAt: Time, first: bool, inv: Inventory, now: Time): Sandbox {
    if !ActiveOn(r, w) then r
    else if IsLost(r, id, w, registeredAt, first, inv) then r.(status := CleanupPending)
    else r.(
      status :=
        if id in inv.dead then CleanupPending
        else if id in inv.running && r.status == Starting then Running
        else r.status,
      lastSeen := if inv.Vouches(id) then Some(now) else r.lastSeen)
  }

  function ReconciledRows(rows: map<Id, Sandbox>, w: WorkerId, registeredAt: Time, first: bool, inv: Inventory, now: Time): map<Id, Sandbox> {
    map id | id in rows :: ReconciledRow(rows[id], id, w, registeredAt, first, inv, now)
  }

  function LostIds(rows: map<Id, Sandbox>, w: WorkerId, registeredAt: Time, first: bool, inv: Inventory): set<Id> {
    set id | id in rows && IsLost(rows[id], id, w, registeredAt, first, inv)
  }

  function DeadIds(rows: map<Id, Sandbox>, w: WorkerId, inv: Inventory): set<Id> {
    set id | id in rows && IsDead(rows[id], id, w, inv)
  }

  predicate Attributed(rows: map<Id, Sandbox>, w: WorkerId, id: Id) {
    id in rows && LinkedTo(rows[id], w) && !Terminal(rows[id].status)
  }

  /** Listed, but not attributed to the worker. */
  function OrphanIds(rows: map<Id, Sandbox>, w: WorkerId, inv: Inventory): set<Id> {
    set id | id in inv.Ids() && !Attributed(rows, w, id)
  }

  function OrphanJobs(w: WorkerId, ids: set<Id>): set<(WorkerId, Id)> {
    set id | id in ids :: (w, id)
  }

  predicate FirstInventory(db: Db, w: WorkerId, token: int) {
    FencedBy(db, w, token) && db.workers[w].inventoryToken != token
  }

  /** The heartbeat transaction: the worker row is refreshed, its inventory is
      reconciled, and the removals it calls for are enqueued. */
  function Heartbeat(db: Db, w: WorkerId, token: int, report: Report, inv: Inventory, now: Time): Db {
    if !FencedBy(db, w, token) then db
    else
      var first := FirstInventory(db, w, token);
      var registeredAt := db.workers[w].registeredAt;
      var rows := db.sandboxes;
      db.(
        sandboxes := ReconciledRows(rows, w, registeredAt, first, inv, now),
        workers := db.workers[w := Refreshed(db.workers[w], report, now).(inventoryToken := token)],
        cleanups := Enqueue(db.cleanups, LostIds(rows, w, registeredAt, first, inv) + DeadIds(rows, w, inv), Failed),
        orphans := db.orphans + OrphanJobs(w, OrphanIds(rows, w, inv)))
  }

  // ---- API and job transactions ----

  function InsertSandbox(db: Db, id: Id, createdAt: Time, ttl: int): Db {
    db.(sandboxes := db.sandboxes[id := Sandbox(Pending, None, None, createdAt, ttl)],
        creates := db.creates + {id})
  }

  /** A user's delete: enqueues the cleanup only if it moved the row. */
  function Delete(db: Db, id: Id): Db {
    if Admits(db, id, BeforeCleanup)
    then SetStatus(db, id, CleanupPending, BeforeCleanup).(cleanups := Enqueue(db.cleanups, {id}, Stopped))
    else db
  }

  /** What the create job commits when it gives up: the cleanup is enqueued
      whether or not the row moved. */
  function GiveUp(db: Db, id: Id): Db {
    SetStatus(db, id, CleanupPending, BeforeCleanup).(cleanups := Enqueue(db.cleanups, {id}, Failed))
  }
}
