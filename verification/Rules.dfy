/** What the statements decide, in the terms of someone who only reads the tables: ages
    in microseconds, counts of rows, lists of IDs.

    Nothing here goes through the definitions of `Transactions`; the lemmas say that
    those decide exactly this. */
module Rules {
  import opened Collections
  import opened Tables
  import Tx = Transactions
  import Facts = TransactionFacts

  // ---- Ages ----

  /** A lifetime in microseconds: none for a negative number of seconds, a hundred years
      at most. */
  function Lifetime(ttl: int): int {
    if ttl < 0 then 0 else if ttl > 3153600000 then 3153600000000000 else ttl * 1000000
  }

  predicate BeforeCleanup(r: Sandbox) {
    r.status in {Pending, Scheduling, Assigned, Starting, Running}
  }

  predicate Lived(r: Sandbox, now: Time) {
    now - r.createdAt >= Lifetime(r.ttl)
  }

  predicate OutlivedTtl(r: Sandbox, now: Time) {
    BeforeCleanup(r) && Lived(r, now)
  }

  /** When the sandbox was last seen: when it was created, if never since. */
  function LastWord(r: Sandbox): Time {
    match r.lastSeen
    case Some(t) => t
    case None => r.createdAt
  }

  predicate HostedBy(r: Sandbox, w: WorkerId) {
    r.worker == Some(w) && r.status in {Assigned, Starting, Running}
  }

  /** The worker went on heartbeating for longer than the liveness timeout after it last
      spoke of the sandbox, and after it registered. */
  predicate Unmentioned(r: Sandbox, wr: Worker, cfg: Config) {
    && wr.lastHeartbeat - LastWord(r) > cfg.livenessTimeout
    && wr.lastHeartbeat - wr.registeredAt > cfg.livenessTimeout
  }

  predicate WorkerGone(wr: Worker, cfg: Config, now: Time) {
    wr.status == Inactive && wr.inactiveSince.Some? && now - wr.inactiveSince.value > cfg.workerLostTimeout
  }

  predicate Overdue(r: Sandbox, workers: map<WorkerId, Worker>, cfg: Config, now: Time) {
    exists w <- workers :: HostedBy(r, w) && (Unmentioned(r, workers[w], cfg) || WorkerGone(workers[w], cfg, now))
  }

  predicate NeverPlaced(r: Sandbox, cfg: Config, now: Time) {
    r.status in {Pending, Scheduling} && cfg.createTimeout > 0 && now - r.createdAt > cfg.createTimeout
  }

  lemma TtlTakes(rows: map<Id, Sandbox>, now: Time, locked: set<Id>, id: Id)
    ensures id in Tx.TtlIds(rows, now, locked) <==> id in rows && id !in locked && OutlivedTtl(rows[id], now)
  {
  }

  lemma LivenessTakes(rows: map<Id, Sandbox>, workers: map<WorkerId, Worker>, cfg: Config, now: Time, locked: set<Id>, id: Id)
    ensures id in Tx.LivenessIds(rows, workers, cfg, now, locked) <==>
            id in rows && id !in locked && Overdue(rows[id], workers, cfg, now)
  {
    if id in rows && Tx.LivenessExpired(rows[id], workers, cfg, now) {
      assert HostedBy(rows[id], rows[id].worker.value);
    }
  }

  lemma StalledTakes(rows: map<Id, Sandbox>, cfg: Config, now: Time, locked: set<Id>, id: Id)
    ensures id in Tx.StalledIds(rows, cfg, now, locked) <==> id in rows && id !in locked && NeverPlaced(rows[id], cfg, now)
  {
  }

  /** The cleanup job one reaper run enqueues for a row, if it does. */
  function ReapTarget(r: Sandbox, id: Id, workers: map<WorkerId, Worker>, cfg: Config, now: Time, locks: Tx.Locks): Option<Status> {
    if OutlivedTtl(r, now) && id !in locks.ttl then Some(Stopped)
    else if Overdue(r, workers, cfg, now) && id !in locks.liveness then Some(Failed)
    else if NeverPlaced(r, cfg, now) && id !in locks.stalled then Some(Failed)
    else None
  }

  function Following(target: Option<Status>): seq<Status> {
    if target.Some? then [target.value] else []
  }

  /** One reaper run, for one row: which job it gets, and that it is in cleanup exactly
      if it gets one. Without a worker-lost timeout nothing happens. */
  lemma ReapDecides(db: Db, cfg: Config, now: Time, locks: Tx.Locks, id: Id)
    requires id in db.sandboxes
    ensures var after, r := Tx.Reap(db, cfg, now, locks), db.sandboxes[id];
            var target := if cfg.workerLostTimeout > 0 then ReapTarget(r, id, db.workers, cfg, now, locks) else None;
            && id in after.sandboxes
            && after.sandboxes[id] == (if target.Some? then r.(status := CleanupPending) else r)
            && Jobs(after.cleanups, id) == Jobs(db.cleanups, id) + Following(target)
  {
    TtlTakes(db.sandboxes, now, locks.ttl, id);
    LivenessTakes(db.sandboxes, db.workers, cfg, now, locks.liveness, id);
    StalledTakes(db.sandboxes, cfg, now, locks.stalled, id);
    if cfg.workerLostTimeout > 0 {
      Facts.ReapChangesItsLists(db, cfg, now, locks, id);
    }
  }

  // ---- Workers ----

  /** The heartbeat timeout in force: fifteen seconds if none is set. */
  function SilenceAllowed(timeout: Time): Time {
    if timeout > 0 then timeout else 15000000
  }

  predicate FellSilent(wr: Worker, timeout: Time, now: Time) {
    wr.status == Up && now - wr.lastHeartbeat > SilenceAllowed(timeout)
  }

  lemma StaleTakes(db: Db, timeout: Time, now: Time, w: WorkerId)
    requires w in db.workers
    ensures var after, wr := Tx.MarkStale(db, timeout, now), db.workers[w];
            && w in after.workers
            && after.workers[w] == if FellSilent(wr, timeout, now) then wr.(status := Inactive, inactiveSince := Some(now)) else wr
  {
  }

  // ---- Rooms ----

  /** The sandboxes a worker is taken to hold. */
  function Held(rows: map<Id, Sandbox>, w: WorkerId): set<Id> {
    set id | id in rows && rows[id].worker == Some(w) && rows[id].status in {Assigned, Starting, Running, CleanupPending}
  }

  /** How an assignment is answered, from the tables as they are. */
  predicate Answers(db: Db, id: Id, w: WorkerId, answer: Tx.AssignAnswer) {
    match answer
    case NoWorker => w !in db.workers
    case NoSandbox => w in db.workers && id !in db.sandboxes
    case Moved => w in db.workers && id in db.sandboxes && db.sandboxes[id].status != Scheduling
    case WorkerFull =>
      w in db.workers && id in db.sandboxes && db.sandboxes[id].status == Scheduling
      && |Held(db.sandboxes, w)| >= db.workers[w].capacity
    case AssignedTo =>
      w in db.workers && id in db.sandboxes && db.sandboxes[id].status == Scheduling
      && |Held(db.sandboxes, w)| < db.workers[w].capacity
  }

  lemma AssignAnswers(db: Db, id: Id, w: WorkerId, answer: Tx.AssignAnswer)
    ensures Tx.AssignAnswerFor(db, id, w) == answer <==> Answers(db, id, w, answer)
  {
    assert Held(db.sandboxes, w) == Occupants(db.sandboxes, w);
  }

  // ---- Inventories ----

  predicate Listed(inv: Inventory, id: Id) {
    id in inv.live + inv.running + inv.unknown + inv.dead
  }

  /** A sandbox of the process before: hosted by the worker, last heard of before this
      process registered, and not listed by it. */
  predicate LeftBehind(r: Sandbox, id: Id, w: WorkerId, registeredAt: Time, inv: Inventory) {
    HostedBy(r, w) && !Listed(inv, id) && LastWord(r) < registeredAt
  }

  predicate ReportedDead(r: Sandbox, id: Id, w: WorkerId, inv: Inventory) {
    HostedBy(r, w) && id in inv.dead
  }

  /** Listed by a worker that the sandbox is not, or no longer, given to. */
  predicate Stray(rows: map<Id, Sandbox>, id: Id, w: WorkerId, inv: Inventory) {
    && Listed(inv, id)
    && (id in rows && rows[id].worker == Some(w) ==> rows[id].status in {Failed, Stopped, CleanedUp})
  }

  lemma InventoryTakes(rows: map<Id, Sandbox>, w: WorkerId, registeredAt: Time, first: bool, inv: Inventory, id: Id)
    ensures id in Tx.LostIds(rows, w, registeredAt, first, inv) <==>
            id in rows && first && LeftBehind(rows[id], id, w, registeredAt, inv)
    ensures id in Tx.DeadIds(rows, w, inv) <==> id in rows && ReportedDead(rows[id], id, w, inv)
    ensures id in Tx.OrphanIds(rows, w, inv) <==> Stray(rows, id, w, inv)
  {
  }

  /** What one inventory does to one row. */
  lemma InventoryDecides(rows: map<Id, Sandbox>, w: WorkerId, registeredAt: Time, first: bool, inv: Inventory, now: Time, id: Id)
    requires id in rows
    ensures var r, r' := rows[id], Tx.ReconciledRow(rows[id], id, w, registeredAt, first, inv, now);
            && (r.status != CleanupPending && r'.status == CleanupPending <==>
                  (first && LeftBehind(r, id, w, registeredAt, inv)) || ReportedDead(r, id, w, inv))
            && (r.status != Running && r'.status == Running <==>
                  r.worker == Some(w) && r.status == Starting && id in inv.running && id !in inv.dead)
            && (r'.status == r.status || r'.status == CleanupPending || r'.status == Running)
            && (HostedBy(r, w) && id in inv.live + inv.running ==> r'.lastSeen == Some(now))
            && (!(HostedBy(r, w) && id in inv.live + inv.running) ==> r'.lastSeen == r.lastSeen)
            && r' == r.(status := r'.status, lastSeen := r'.lastSeen)
  {
  }
}
