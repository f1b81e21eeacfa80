/** The two tables of the orchestrator's database, `sandboxes` and `worker`, the
    job queue stored beside them, and the vocabulary they share.

    Times are the database's clock in microseconds, the resolution of a Postgres
    timestamp. Columns no transition reads (addresses, ports, budgets, usage,
    images, owners) are not part of the rows. */
module Tables {
  import opened Collections

  type Id = string
  type WorkerId = string
  type Time = int

  const SECOND: Time := 1_000_000
  const MAX_TTL_SECONDS: int := 3_153_600_000

  datatype Status =
    | Pending | Scheduling | Assigned | Starting | Running
    | CleanupPending | Failed | Stopped | CleanedUp

  /** The statuses of a sandbox no worker was chosen for yet. */
  predicate Early(s: Status) {
    s == Pending || s == Scheduling
  }

  /** The statuses under which the database says a worker hosts the sandbox. */
  predicate Active(s: Status) {
    s == Assigned || s == Starting || s == Running
  }

  predicate Terminal(s: Status) {
    s == Failed || s == Stopped || s == CleanedUp
  }

  /** Torn down, or being torn down. */
  predicate PastRunning(s: Status) {
    s == CleanupPending || Terminal(s)
  }

  /** How far a sandbox is along its life. */
  function Rank(s: Status): nat {
    match s
    case Pending => 0
    case Scheduling => 1
    case Assigned => 2
    case Starting => 3
    case Running => 4
    case CleanupPending => 5
    case _ => 6
  }

  datatype Sandbox = Sandbox(
    status: Status,
    worker: Option<WorkerId>,
    lastSeen: Option<Time>,
    createdAt: Time,
    ttl: int)

  datatype WorkerStatus = Up | Inactive

  datatype Worker = Worker(
    status: WorkerStatus,
    capacity: int,
    lastHeartbeat: Time,
    token: int,
    inventoryToken: int,
    registeredAt: Time,
    inactiveSince: Option<Time>)

  /** Jobs are rows of the same database, inserted in the transaction that needs
      them. `cleanups` gives, for each sandbox, the target statuses of the cleanup
      jobs enqueued for it so far, oldest first. */
  datatype Db = Db(
    sandboxes: map<Id, Sandbox>,
    workers: map<WorkerId, Worker>,
    creates: set<Id>,
    cleanups: map<Id, seq<Status>>,
    orphans: set<(WorkerId, Id)>)

  /** COALESCE(last_seen_at, created_at). */
  function SeenAt(r: Sandbox): Time {
    if r.lastSeen.Some? then r.lastSeen.value else r.createdAt
  }

  function Max(a: int, b: int): int {
    if a < b then b else a
  }

  function Min(a: int, b: int): int {
    if a < b then a else b
  }

  predicate LinkedTo(r: Sandbox, w: WorkerId) {
    r.worker == Some(w)
  }

  predicate ActiveOn(r: Sandbox, w: WorkerId) {
    LinkedTo(r, w) && Active(r.status)
  }

  /** The rows AssignWorker counts: `cleanup_pending` still holds its VM until the
      cleanup job clears the link. */
  function Occupants(rows: map<Id, Sandbox>, w: WorkerId): set<Id> {
    set id | id in rows && LinkedTo(rows[id], w) && (Active(rows[id].status) || rows[id].status == CleanupPending)
  }

  function Jobs(cleanups: map<Id, seq<Status>>, id: Id): seq<Status> {
    if id in cleanups then cleanups[id] else []
  }

  function Enqueue(cleanups: map<Id, seq<Status>>, ids: set<Id>, target: Status): map<Id, seq<Status>> {
    map id | id in cleanups.Keys + ids :: Jobs(cleanups, id) + (if id in ids then [target] else [])
  }

  /** A worker's complete heartbeat inventory, split by reported state. */
  datatype Inventory = Inventory(live: seq<Id>, running: seq<Id>, unknown: seq<Id>, dead: seq<Id>) {
    function Ids(): seq<Id> {
      live + running + unknown + dead
    }

    predicate Lists(id: Id) {
      id in live || id in running || id in unknown || id in dead
    }

    /** Listed in a state that refreshes its presence. */
    predicate Vouches(id: Id) {
      id in live || id in running
    }
  }

  const EmptyInventory := Inventory([], [], [], [])

  /** What a heartbeat or a registration says of the worker itself. */
  datatype Report = Report(status: WorkerStatus, capacity: int)

  datatype Config = Config(
    heartbeatTimeout: Time,
    livenessTimeout: Time,
    workerLostTimeout: Time,
    createTimeout: Time)
}
