/** The orchestrator, its workers and the network between them as one transition
    system.

    Each database transaction is one atomic step of `Transactions`, stamped by a
    clock that never goes back. A job attempt is a process: it stops between any
    two of its database calls and RPCs, so that everything else runs in between,
    and it may be interrupted anywhere. An enqueued job may be attempted any
    number of times, by attempts that overlap, until its last one: no other attempt
    of a cleanup job goes on or begins after that. An RPC may be lost, may take effect
    without its answer coming back, and may take effect late or more than once.

    The fields from `owner` on record the past for the properties to speak of. No
    step reads them, except that a new sandbox ID is one nothing has named yet,
    and that a worker uses a token it was given. */
module Cluster {
  import opened Collections
  import opened Tables
  import Tx = Transactions

  datatype VmState = VmStarting | VmRunning | VmPaused | VmUnknown | VmDead

  datatype CreatePc =
    | ReadRow | SetScheduling | ReadAgain | Choose | AssignTo(w: WorkerId) | CallCreate(w: WorkerId)
    | SetStarting | Acknowledge | SetRunning | ReadMoved | Fail(last: bool)
    | Completed | Cancelled | Errored

  datatype CleanupPc =
    | ReadTarget | CallRemove(w: WorkerId) | Unlink(target: Status) | Finish(target: Status) | Ended

  datatype Attempt =
    | Create(id: Id, last: bool, at: CreatePc)
    | Cleanup(id: Id, job: nat, target: Status, last: bool, pc: CleanupPc)

  datatype Beat = Beat(w: WorkerId, token: int, report: Report, complete: bool, inv: Inventory)

  /** The worker a sandbox was assigned to, and when. */
  datatype Owner = Owner(w: WorkerId, at: Time)

  datatype Sys = Sys(
    cfg: Config,
    now: Time,
    db: Db,
    attempts: map<nat, Attempt>,
    exhausted: set<(Id, nat)>,
    createCalls: set<(WorkerId, Id)>,
    removeCalls: set<(WorkerId, Id)>,
    hosted: map<(WorkerId, Id), VmState>,
    beats: set<Beat>,
    owner: map<Id, Owner>,
    known: set<Id>,
    issued: map<WorkerId, seq<int>>,
    firsts: map<WorkerId, seq<int>>,
    neglected: set<Id>,
    peak: map<WorkerId, int>,
    confirmed: set<(WorkerId, Id)>,
    abandoned: set<Id>)

  /** How a remote call ends: without effect, with its effect but no answer, or
      answered. */
  datatype Outcome = Lost | Unanswered | Answered

  /** What the environment decides at a step of an attempt: the call goes through,
      fails, or takes effect though the caller sees an error. */
  datatype Choice =
    | Proceed | DbFails | DbUnsure
    | Pick(w: WorkerId) | ClusterFull | NoCandidate
    | Rpc(outcome: Outcome)

  datatype Action =
    | Tick(d: nat)
    | InsertSandbox(id: Id, createdAt: Time, ttl: int)
    | DeleteSandbox(id: Id)
    | Register(w: WorkerId, presented: int, report: Report)
    | SendBeat(beat: Beat)
    | DeliverBeat(beat: Beat)
    | DeliverEvent(w: WorkerId, token: int, id: Id)
    | ReapSandboxes(locks: Tx.Locks)
    | ReapWorkers
    | StartCreate(k: nat, id: Id, last: bool)
    | StartCleanup(k: nat, id: Id, job: nat, last: bool)
    | JobStep(k: nat, choice: Choice)
    | Interrupt(k: nat)
    | RemoveOrphan(w: WorkerId, id: Id, outcome: Outcome)
    | LateCreate(w: WorkerId, id: Id)
    | LateRemove(w: WorkerId, id: Id)
    | VmChanges(w: WorkerId, id: Id, st: VmState)
    | VmVanishes(w: WorkerId, id: Id)
    | AlienVm(w: WorkerId, id: Id, st: VmState)

  function Init(cfg: Config, now: Time): Sys {
    Sys(cfg, now, Db(map[], map[], {}, map[], {}), map[], {}, {}, {}, map[], {}, map[], {}, map[], map[], {}, map[], {}, {})
  }

  // ---- Hosts ----

  /** The worker's create is idempotent: a sandbox already hosted is left as is. */
  function Boot(hosted: map<(WorkerId, Id), VmState>, w: WorkerId, id: Id): map<(WorkerId, Id), VmState> {
    if (w, id) in hosted then hosted else hosted[(w, id) := VmStarting]
  }

  /** A worker that does not host the sandbox has nothing to do, and confirms. */
  function Teardown(hosted: map<(WorkerId, Id), VmState>, w: WorkerId, id: Id): map<(WorkerId, Id), VmState> {
    hosted - {(w, id)}
  }

  predicate Effective(o: Outcome) {
    o != Lost
  }

  // ---- The create job ----

  predicate Succeeds(choice: Choice) {
    choice == Proceed || choice == DbUnsure
  }

  /** `settled`, with `otherwise` for a sandbox still on its way. */
  function Settled(status: Status, otherwise: CreatePc): CreatePc {
    if status == Running then Completed
    else if PastRunning(status) then Cancelled
    else otherwise
  }

  /** Where stepAssign starts, given the row it was handed. */
  function BeginAssign(r: Sandbox): CreatePc {
    if r.worker.Some? then CallCreate(r.worker.value) else Choose
  }

  function Dispatch(r: Sandbox, last: bool): CreatePc {
    match r.status
    case Pending => SetScheduling
    case Scheduling => BeginAssign(r)
    case Assigned => if r.worker.Some? then CallCreate(r.worker.value) else Fail(last)
    case Starting => Acknowledge
    case _ => Settled(r.status, Errored)
  }

  /** After a guarded update: `next` if it moved the row, `moved` if its guard
      rejected it, the failure path if the caller saw an error. */
  function Guarded(db: Db, id: Id, from: Status, last: bool, choice: Choice, next: CreatePc, moved: CreatePc): CreatePc {
    if choice != Proceed then Fail(last) else if Tx.Admits(db, id, {from}) then next else moved
  }

  function AfterAssign(answer: Tx.AssignAnswer, w: WorkerId, last: bool): CreatePc {
    match answer
    case AssignedTo => CallCreate(w)
    case WorkerFull => Choose
    case Moved => ReadMoved
    case _ => Fail(last)
  }

  /** The control flow of an attempt, one call at a time. */
  function CreateNext(db: Db, id: Id, last: bool, at: CreatePc, choice: Choice): CreatePc {
    var found := id in db.sandboxes && choice == Proceed;
    match at
    case ReadRow => if found then Dispatch(db.sandboxes[id], last) else Errored
    case SetScheduling => Guarded(db, id, Pending, last, choice, ReadAgain, ReadMoved)
    case ReadAgain => if found then BeginAssign(db.sandboxes[id]) else Fail(last)
    case Choose =>
      (match choice
       case Pick(w) => AssignTo(w)
       case ClusterFull => Fail(true)
       case _ => Fail(last))
    case AssignTo(w) => if choice == Proceed then AfterAssign(Tx.AssignAnswerFor(db, id, w), w, last) else Fail(last)
    case CallCreate(w) => if choice == Rpc(Answered) then SetStarting else Fail(last)
    case SetStarting => Guarded(db, id, Assigned, last, choice, Acknowledge, Acknowledge)
    case Acknowledge => if found then Settled(db.sandboxes[id].status, SetRunning) else Fail(last)
    case SetRunning => Guarded(db, id, Starting, last, choice, Completed, ReadMoved)
    case ReadMoved => if found then Settled(db.sandboxes[id].status, Fail(last)) else Fail(last)
    case Fail(giveUp) => if giveUp && choice == Proceed then Cancelled else Errored
    case _ => at
  }

  /** The transaction of the call an attempt stands at, if it writes. */
  function CreateTx(db: Db, id: Id, at: CreatePc, now: Time): Db {
    match at
    case SetScheduling => Tx.SetStatus(db, id, Scheduling, {Pending})
    case AssignTo(w) => Tx.Assign(db, id, w, now)
    case SetStarting => Tx.SetStatus(db, id, Starting, {Assigned})
    case SetRunning => Tx.SetStatus(db, id, Running, {Starting})
    case Fail(giveUp) => if giveUp then Tx.GiveUp(db, id) else db
    case _ => db
  }

  // ---- The cleanup job ----

  function CleanupNext(db: Db, a: Attempt, choice: Choice): CleanupPc
    requires a.Cleanup?
  {
    match a.pc
    case ReadTarget =>
      if choice != Proceed || a.id !in db.sandboxes || Terminal(db.sandboxes[a.id].status) then Ended
      else if db.sandboxes[a.id].worker.Some? then CallRemove(db.sandboxes[a.id].worker.value)
      else Finish(a.target)
    case CallRemove(w) =>
      if choice == Rpc(Answered) then Unlink(a.target) else if a.last then Unlink(Failed) else Ended
    case Unlink(target) => if choice == Proceed then Finish(target) else Ended
    case _ => Ended
  }

  function CleanupTx(db: Db, id: Id, pc: CleanupPc): Db {
    match pc
    case Unlink(_) => Tx.ClearWorker(db, id)
    case Finish(target) => Tx.SetStatus(db, id, target, Tx.BeforeTerminal)
    case _ => db
  }

  /** Cleanup job `job` of `id` is enqueued, and its last attempt has not begun. */
  predicate OpenJob(s: Sys, id: Id, job: nat) {
    job < |Jobs(s.db.cleanups, id)| && (id, job) !in s.exhausted
  }

  predicate AttemptsJob(a: Attempt, id: Id, job: nat) {
    a.Cleanup? && a.id == id && a.job == job
  }

  /** The attempts that go on beside a new one of `job`: none of the same job, if it
      is the last. */
  function Remaining(attempts: map<nat, Attempt>, id: Id, job: nat, last: bool): map<nat, Attempt> {
    map k | k in attempts && !(last && AttemptsJob(attempts[k], id, job)) :: attempts[k]
  }

  // ---- Attempts of either job ----

  function Advanced(s: Sys, a: Attempt, choice: Choice): Attempt {
    if a.Create? then a.(at := CreateNext(s.db, a.id, a.last, a.at, choice))
    else a.(pc := CleanupNext(s.db, a, choice))
  }

  function AttemptTx(s: Sys, a: Attempt, choice: Choice): Db {
    if !Succeeds(choice) then s.db
    else if a.Create? then CreateTx(s.db, a.id, a.at, s.now)
    else CleanupTx(s.db, a.id, a.pc)
  }

  /** The attempt stands at an assignment that will go through. */
  predicate Assigns(s: Sys, a: Attempt, choice: Choice) {
    && a.Create? && a.at.AssignTo? && Succeeds(choice)
    && Tx.AssignAnswerFor(s.db, a.id, a.at.w) == Tx.AssignedTo
  }

  predicate CallsCreate(a: Attempt, choice: Choice) {
    a.Create? && a.at.CallCreate? && choice.Rpc?
  }

  predicate CallsRemove(a: Attempt, choice: Choice) {
    a.Cleanup? && a.pc.CallRemove? && choice.Rpc?
  }

  // ---- Workers ----

  function Log(log: map<WorkerId, seq<int>>, w: WorkerId): seq<int> {
    if w in log then log[w] else []
  }

  function Peak(peak: map<WorkerId, int>, w: WorkerId): int {
    if w in peak then peak[w] else 0
  }

  /** The sandboxes a heartbeat of `w` leaves out, or lists without vouching. */
  function Unvouched(rows: map<Id, Sandbox>, w: WorkerId, inv: Inventory): set<Id> {
    set id | id in rows && ActiveOn(rows[id], w) && !inv.Vouches(id)
  }

  function BeatInventory(b: Beat): Inventory {
    if b.complete then b.inv else EmptyInventory
  }

  /** A heartbeat without an inventory only refreshes the worker row. */
  function BeatTx(db: Db, b: Beat, now: Time): Db {
    if b.complete then Tx.Heartbeat(db, b.w, b.token, b.report, b.inv, now)
    else Tx.Refresh(db, b.w, b.token, b.report, now)
  }

  predicate Accepted(s: Sys, b: Beat) {
    b in s.beats && Tx.FencedBy(s.db, b.w, b.token)
  }

  /** A worker lists what it hosts, under a token it was given. */
  predicate Sendable(s: Sys, b: Beat) {
    && b.token in Log(s.issued, b.w)
    && forall id <- b.inv.Ids() :: (b.w, id) in s.hosted
  }

  // ---- One step, component by component ----

  function DbAfter(s: Sys, a: Action): Db {
    match a
    case InsertSandbox(id, createdAt, ttl) => if id in s.known then s.db else Tx.InsertSandbox(s.db, id, createdAt, ttl)
    case DeleteSandbox(id) => Tx.Delete(s.db, id)
    case Register(w, presented, report) => Tx.Register(s.db, w, presented, report, s.now)
    case DeliverBeat(b) => if b in s.beats then BeatTx(s.db, b, s.now) else s.db
    case DeliverEvent(w, token, id) => Tx.SetStatusFenced(s.db, id, w, token, Running, {Starting, Running})
    case ReapSandboxes(locks) => Tx.Reap(s.db, s.cfg, s.now, locks)
    case ReapWorkers => Tx.MarkStale(s.db, s.cfg.heartbeatTimeout, s.now)
    case JobStep(k, choice) => if k in s.attempts then AttemptTx(s, s.attempts[k], choice) else s.db
    case _ => s.db
  }

  function AttemptsAfter(s: Sys, a: Action): map<nat, Attempt> {
    match a
    case StartCreate(k, id, last) =>
      if id in s.db.creates && k !in s.attempts then s.attempts[k := Create(id, last, ReadRow)] else s.attempts
    case StartCleanup(k, id, job, last) =>
      if OpenJob(s, id, job) && k !in s.attempts
      then Remaining(s.attempts, id, job, last)[k := Cleanup(id, job, Jobs(s.db.cleanups, id)[job], last, ReadTarget)]
      else s.attempts
    case JobStep(k, choice) => if k in s.attempts then s.attempts[k := Advanced(s, s.attempts[k], choice)] else s.attempts
    case Interrupt(k) => s.attempts - {k}
    case _ => s.attempts
  }

  function ExhaustedAfter(s: Sys, a: Action): set<(Id, nat)> {
    if a.StartCleanup? && a.last && OpenJob(s, a.id, a.job) && a.k !in s.attempts
    then s.exhausted + {(a.id, a.job)}
    else s.exhausted
  }

  function CreateCallsAfter(s: Sys, a: Action): set<(WorkerId, Id)> {
    if a.JobStep? && a.k in s.attempts && CallsCreate(s.attempts[a.k], a.choice)
    then s.createCalls + {(s.attempts[a.k].at.w, s.attempts[a.k].id)}
    else s.createCalls
  }

  function RemoveCallsAfter(s: Sys, a: Action): set<(WorkerId, Id)> {
    match a
    case JobStep(k, choice) =>
      if k in s.attempts && CallsRemove(s.attempts[k], choice)
      then s.removeCalls + {(s.attempts[k].pc.w, s.attempts[k].id)}
      else s.removeCalls
    case RemoveOrphan(w, id, _) => if (w, id) in s.db.orphans then s.removeCalls + {(w, id)} else s.removeCalls
    case _ => s.removeCalls
  }

  function HostedAfter(s: Sys, a: Action): map<(WorkerId, Id), VmState> {
    match a
    case JobStep(k, choice) =>
      if k !in s.attempts || !choice.Rpc? || !Effective(choice.outcome) then s.hosted
      else if CallsCreate(s.attempts[k], choice) then Boot(s.hosted, s.attempts[k].at.w, s.attempts[k].id)
      else if CallsRemove(s.attempts[k], choice) then Teardown(s.hosted, s.attempts[k].pc.w, s.attempts[k].id)
      else s.hosted
    case RemoveOrphan(w, id, outcome) =>
      if (w, id) in s.db.orphans && Effective(outcome) then Teardown(s.hosted, w, id) else s.hosted
    case LateCreate(w, id) => if (w, id) in s.createCalls then Boot(s.hosted, w, id) else s.hosted
    case LateRemove(w, id) => if (w, id) in s.removeCalls then Teardown(s.hosted, w, id) else s.hosted
    case VmChanges(w, id, st) => if (w, id) in s.hosted then s.hosted[(w, id) := st] else s.hosted
    case VmVanishes(w, id) => Teardown(s.hosted, w, id)
    case AlienVm(w, id, st) => if id in s.db.sandboxes then s.hosted else s.hosted[(w, id) := st]
    case _ => s.hosted
  }

  function BeatsAfter(s: Sys, a: Action): set<Beat> {
    if a.SendBeat? && Sendable(s, a.beat) then s.beats + {a.beat} else s.beats
  }

  function OwnerAfter(s: Sys, a: Action): map<Id, Owner> {
    if a.JobStep? && a.k in s.attempts && Assigns(s, s.attempts[a.k], a.choice)
    then s.owner[s.attempts[a.k].id := Owner(s.attempts[a.k].at.w, s.now)]
    else s.owner
  }

  function KnownAfter(s: Sys, a: Action): set<Id> {
    match a
    case InsertSandbox(id, _, _) => s.known + {id}
    case AlienVm(_, id, _) => s.known + {id}
    case _ => s.known
  }

  function IssuedAfter(s: Sys, a: Action): map<WorkerId, seq<int>> {
    if a.Register?
    then s.issued[a.w := Log(s.issued, a.w) + [Tx.Registered(s.db, a.w, a.presented, a.report, s.now).token]]
    else s.issued
  }

  function FirstsAfter(s: Sys, a: Action): map<WorkerId, seq<int>> {
    if a.DeliverBeat? && Accepted(s, a.beat) && a.beat.complete && Tx.FirstInventory(s.db, a.beat.w, a.beat.token)
    then s.firsts[a.beat.w := Log(s.firsts, a.beat.w) + [a.beat.token]]
    else s.firsts
  }

  function NeglectedAfter(s: Sys, a: Action): set<Id> {
    if a.DeliverBeat? && Accepted(s, a.beat)
    then s.neglected + Unvouched(s.db.sandboxes, a.beat.w, BeatInventory(a.beat))
    else s.neglected
  }

  function PeakAfter(s: Sys, a: Action): map<WorkerId, int> {
    match a
    case Register(w, _, report) => s.peak[w := Max(Peak(s.peak, w), report.capacity)]
    case DeliverBeat(b) => if Accepted(s, b) then s.peak[b.w := Max(Peak(s.peak, b.w), b.report.capacity)] else s.peak
    case _ => s.peak
  }

  /** A worker confirmed the removal of the sandbox. */
  function ConfirmedAfter(s: Sys, a: Action): set<(WorkerId, Id)> {
    if a.JobStep? && a.k in s.attempts && CallsRemove(s.attempts[a.k], a.choice) && a.choice.outcome == Answered
    then s.confirmed + {(s.attempts[a.k].pc.w, s.attempts[a.k].id)}
    else s.confirmed
  }

  /** A last attempt went on without the confirmation. */
  function AbandonedAfter(s: Sys, a: Action): set<Id> {
    if && a.JobStep? && a.k in s.attempts && s.attempts[a.k].Cleanup? && s.attempts[a.k].pc.CallRemove?
       && s.attempts[a.k].last && a.choice != Rpc(Answered)
    then s.abandoned + {s.attempts[a.k].id}
    else s.abandoned
  }

  function Step(s: Sys, a: Action): Sys {
    Sys(s.cfg,
        if a.Tick? then s.now + a.d else s.now,
        DbAfter(s, a),
        AttemptsAfter(s, a),
        ExhaustedAfter(s, a),
        CreateCallsAfter(s, a),
        RemoveCallsAfter(s, a),
        HostedAfter(s, a),
        BeatsAfter(s, a),
        OwnerAfter(s, a),
        KnownAfter(s, a),
        IssuedAfter(s, a),
        FirstsAfter(s, a),
        NeglectedAfter(s, a),
        PeakAfter(s, a),
        ConfirmedAfter(s, a),
        AbandonedAfter(s, a))
  }

  function Run(s: Sys, actions: seq<Action>): Sys
    decreases actions
  {
    if actions == [] then s else Run(Step(s, actions[0]), actions[1..])
  }
}
