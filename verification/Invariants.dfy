/** What holds in every state the cluster can reach, of the sandboxes, the jobs and
    everything in flight between the orchestrator and the workers. */
module Invariants {
  import opened Collections
  import opened Tables
  import opened Cluster
  import opened Lifecycle
  import Tx = Transactions
  import Facts = TransactionFacts

  predicate IsTarget(t: Status) {
    t == Failed || t == Stopped
  }

  /** A sandbox row, its owner and its cleanup jobs agree. */
  predicate SandboxOk(s: Sys, id: Id)
    requires id in s.db.sandboxes
  {
    var r := s.db.sandboxes[id];
    && RowOk(r, s.now)
    && id in s.known
    && (r.worker.Some? ==> id in s.owner && s.owner[id].w == r.worker.value)
    && (id in s.owner ==> !Early(r.status) && r.lastSeen.Some? && s.owner[id].at <= r.lastSeen.value)
    && (PastRunning(r.status) <==> Jobs(s.db.cleanups, id) != [])
    && (forall t <- Jobs(s.db.cleanups, id) :: IsTarget(t))
  }

  predicate RowsOk(s: Sys) {
    && (forall id <- s.db.sandboxes :: SandboxOk(s, id))
    && (forall id <- s.owner :: id in s.db.sandboxes)
    && (forall id <- s.db.cleanups :: id in s.db.sandboxes)
    && (forall id <- s.db.creates :: id in s.db.sandboxes)
  }

  predicate Owns(s: Sys, w: WorkerId, id: Id) {
    id in s.owner && s.owner[id].w == w
  }

  /** What a worker may name: a sandbox it was given, or an ID that is no sandbox
      and never will be. */
  predicate Named(s: Sys, w: WorkerId, id: Id) {
    id in s.known && (id in s.db.sandboxes ==> Owns(s, w, id))
  }

  /** What the orchestrator may remove: no sandbox at all, or one past running. */
  predicate Doomed(s: Sys, id: Id) {
    id in s.known && (id in s.db.sandboxes ==> PastRunning(s.db.sandboxes[id].status))
  }

  predicate NetOk(s: Sys) {
    && (forall c <- s.createCalls :: Owns(s, c.0, c.1))
    && (forall c <- s.removeCalls :: Doomed(s, c.1))
    && (forall c <- s.db.orphans :: Doomed(s, c.1))
    && (forall c <- s.hosted :: Named(s, c.0, c.1))
    && (forall b <- s.beats, id <- b.inv.Ids() :: Named(s, b.w, id))
  }

  predicate AttemptOk(s: Sys, a: Attempt) {
    && a.id in s.db.sandboxes
    && match a
       case Create(id, _, at) =>
         && (at.CallCreate? ==> Owns(s, at.w, id))
         && (at.Completed? ==> Rank(s.db.sandboxes[id].status) >= Rank(Running))
       case Cleanup(id, job, target, _, pc) =>
         && job < |Jobs(s.db.cleanups, id)| && target == Jobs(s.db.cleanups, id)[job] && IsTarget(target)
         && PastRunning(s.db.sandboxes[id].status)
         && (pc.CallRemove? ==> Owns(s, pc.w, id))
         && (pc.Unlink? ==> IsTarget(pc.target))
         && (pc.Finish? ==> IsTarget(pc.target) && s.db.sandboxes[id].worker.None?)
  }

  predicate AttemptsOk(s: Sys) {
    forall k <- s.attempts :: AttemptOk(s, s.attempts[k])
  }

  /** A job whose last attempt has begun is one that was enqueued. */
  predicate ExhaustedOk(s: Sys) {
    forall c <- s.exhausted :: c.0 in s.db.sandboxes && c.1 < |Jobs(s.db.cleanups, c.0)|
  }

  /** The tables and the jobs alone, whatever the hosts and the network hold. */
  predicate Core(s: Sys) {
    RowsOk(s) && AttemptsOk(s) && ExhaustedOk(s)
  }

  predicate Inv(s: Sys) {
    Core(s) && NetOk(s)
  }

  // ---- What never goes back ----

  predicate LaterRow(r: Sandbox, r': Sandbox) {
    && Rank(r.status) <= Rank(r'.status)
    && (PastRunning(r.status) && r.worker.None? ==> r'.worker.None?)
  }

  predicate Extends(s: Sys, s': Sys) {
    && s.now <= s'.now
    && s.known <= s'.known
    && (forall id <- s.owner :: id in s'.owner && s'.owner[id] == s.owner[id])
    && (forall id <- s.db.sandboxes :: id in s'.db.sandboxes && LaterRow(s.db.sandboxes[id], s'.db.sandboxes[id]))
    && (forall id <- s.db.sandboxes :: Jobs(s.db.cleanups, id) <= Jobs(s'.db.cleanups, id))
    && (forall id <- s'.db.sandboxes :: id in s.db.sandboxes || id !in s.known)
  }

  lemma NamedStays(s: Sys, s': Sys, w: WorkerId, id: Id)
    requires Extends(s, s') && Named(s, w, id)
    ensures Named(s', w, id)
  {
  }

  lemma DoomedStays(s: Sys, s': Sys, id: Id)
    requires Extends(s, s') && Doomed(s, id)
    ensures Doomed(s', id)
  {
  }

  lemma AttemptStays(s: Sys, s': Sys, a: Attempt)
    requires Extends(s, s') && AttemptOk(s, a)
    ensures AttemptOk(s', a)
  {
  }

  // ---- One row under one step ----

  lemma CreateTxMoves(db: Db, x: Id, at: CreatePc, now: Time, id: Id)
    requires id in db.sandboxes
    ensures Moves(db, CreateTx(db, x, at, now), id, now)
    ensures !at.AssignTo? ==> NoNewLink(db, CreateTx(db, x, at, now), id)
  {
    match at
    case SetScheduling => SetStatusMoves(db, x, Scheduling, Pending, id, now);
    case AssignTo(w) => AssignMoves(db, x, w, id, now);
    case SetStarting => SetStatusMoves(db, x, Starting, Assigned, id, now);
    case SetRunning => SetStatusMoves(db, x, Running, Starting, id, now);
    case Fail(_) => GiveUpMoves(db, x, id, now);
    case _ =>
  }

  lemma CleanupTxMoves(s: Sys, a: Attempt, id: Id)
    requires a.Cleanup? && id in s.db.sandboxes && AttemptOk(s, a)
    ensures Moves(s.db, CleanupTx(s.db, a.id, a.pc), id, s.now)
    ensures NoNewLink(s.db, CleanupTx(s.db, a.id, a.pc), id)
  {
    match a.pc
    case Unlink(_) => UnlinkMoves(s.db, a.id, id, s.now);
    case Finish(target) => FinishMoves(s.db, a.id, target, id, s.now);
    case _ =>
  }

  predicate Assigning(s: Sys, a: Action, id: Id) {
    a.JobStep? && a.k in s.attempts && Assigns(s, s.attempts[a.k], a.choice) && s.attempts[a.k].id == id
  }

  /** Every step moves every row along its life, its jobs with it, and only an
      assignment of that very row gives it a worker. */
  lemma StepMoves(s: Sys, a: Action, id: Id)
    requires AttemptsOk(s) && id in s.db.sandboxes && id in s.known
    ensures Moves(s.db, DbAfter(s, a), id, s.now)
    ensures !Assigning(s, a, id) ==> NoNewLink(s.db, DbAfter(s, a), id)
  {
    if a.JobStep? {
      JobMoves(s, a.k, a.choice, id);
    } else if a.DeliverBeat? {
      HeartbeatMoves(s.db, a.beat.w, a.beat.token, a.beat.report, a.beat.inv, s.now, id);
    } else {
      OtherMoves(s, a, id);
    }
  }

  lemma OtherMoves(s: Sys, a: Action, id: Id)
    requires id in s.db.sandboxes && id in s.known && !a.JobStep? && !a.DeliverBeat?
    ensures Moves(s.db, DbAfter(s, a), id, s.now) && NoNewLink(s.db, DbAfter(s, a), id)
  {
    match a
    case DeleteSandbox(x) => DeleteMoves(s.db, x, id, s.now);
    case DeliverEvent(w, token, x) => EventMoves(s.db, x, w, token, id, s.now);
    case ReapSandboxes(locks) => ReapMoves(s.db, s.cfg, s.now, locks, id);
    case _ =>
  }

  lemma JobMoves(s: Sys, k: nat, choice: Choice, id: Id)
    requires AttemptsOk(s) && id in s.db.sandboxes
    ensures Moves(s.db, DbAfter(s, JobStep(k, choice)), id, s.now)
    ensures !Assigning(s, JobStep(k, choice), id) ==> NoNewLink(s.db, DbAfter(s, JobStep(k, choice)), id)
  {
    if k in s.attempts && Succeeds(choice) {
      var a := s.attempts[k];
      if a.Create? {
        CreateTxMoves(s.db, a.id, a.at, s.now, id);
      } else {
        CleanupTxMoves(s, a, id);
      }
    }
  }

  // ---- The rows after a step ----

  lemma StepKeys(s: Sys, a: Action, id: Id)
    requires id in DbAfter(s, a).sandboxes && id !in s.db.sandboxes
    ensures a.InsertSandbox? && id == a.id && id !in s.known
  {
  }

  lemma BeatJobKeys(s: Sys, b: Beat, id: Id)
    requires RowsOk(s) && id in BeatTx(s.db, b, s.now).cleanups
    ensures id in s.db.sandboxes
  {
  }

  lemma ReapJobKeys(s: Sys, locks: Tx.Locks, id: Id)
    requires RowsOk(s) && id in Tx.Reap(s.db, s.cfg, s.now, locks).cleanups
    ensures id in s.db.sandboxes
  {
  }

  lemma AttemptAddsItsOwn(s: Sys, a: Attempt, choice: Choice, id: Id)
    requires id in AttemptTx(s, a, choice).cleanups
    ensures id in s.db.cleanups || (id == a.id && a.Create?)
  {
  }

  lemma AttemptJobKeys(s: Sys, a: Attempt, choice: Choice, id: Id)
    requires RowsOk(s) && AttemptOk(s, a) && id in AttemptTx(s, a, choice).cleanups
    ensures id in s.db.sandboxes
  {
    AttemptAddsItsOwn(s, a, choice, id);
  }

  lemma StepJobKeys(s: Sys, a: Action, id: Id)
    requires Core(s) && id in DbAfter(s, a).cleanups
    ensures id in s.db.sandboxes
  {
    if a.JobStep? {
      if a.k in s.attempts { AttemptJobKeys(s, s.attempts[a.k], a.choice, id); }
    } else if a.DeliverBeat? {
      if a.beat in s.beats { BeatJobKeys(s, a.beat, id); }
    } else {
      OtherJobKeys(s, a, id);
    }
  }

  lemma OtherJobKeys(s: Sys, a: Action, id: Id)
    requires RowsOk(s) && !a.JobStep? && !a.DeliverBeat? && id in DbAfter(s, a).cleanups
    ensures id in s.db.sandboxes
  {
    if a.ReapSandboxes? { ReapJobKeys(s, a.locks, id); }
  }

  lemma StepCreates(s: Sys, a: Action, id: Id)
    requires id in DbAfter(s, a).creates
    ensures id in s.db.creates || (a.InsertSandbox? && id == a.id && id in DbAfter(s, a).sandboxes)
  {
  }

  lemma AssigningRow(s: Sys, a: Action, id: Id)
    requires Assigning(s, a, id)
    ensures id in s.db.sandboxes && s.db.sandboxes[id].status == Scheduling
    ensures var w := s.attempts[a.k].at.w;
            && w in s.db.workers
            && id in OwnerAfter(s, a) && OwnerAfter(s, a)[id] == Owner(w, s.now)
            && DbAfter(s, a) == Tx.Assign(s.db, id, w, s.now)
            && DbAfter(s, a).sandboxes == s.db.sandboxes[id := s.db.sandboxes[id].(worker := Some(w), status := Assigned, lastSeen := Some(s.now))]
  {
  }

  lemma JobsFollowOk(r: Sandbox, r': Sandbox, jobs: seq<Status>, jobs': seq<Status>)
    requires JobsFollow(r, r', jobs, jobs') && Rank(r.status) <= Rank(r'.status)
    requires PastRunning(r.status) <==> jobs != []
    requires forall t <- jobs :: IsTarget(t)
    ensures PastRunning(r'.status) <==> jobs' != []
    ensures forall t <- jobs' :: IsTarget(t)
    ensures jobs <= jobs'
  {
  }

  /** Between `s` and `s'`, sandbox `id` kept its owner, or was just assigned. */
  predicate OwnerFollows(s: Sys, s': Sys, id: Id)
    requires id in s.db.sandboxes && id in s'.db.sandboxes
  {
    if id in s.owner then id in s'.owner && s'.owner[id] == s.owner[id] && NoNewLink(s.db, s'.db, id)
    else if id in s'.owner then
      var r' := s'.db.sandboxes[id];
      r'.status == Assigned && r'.worker == Some(s'.owner[id].w) && r'.lastSeen == Some(s'.owner[id].at)
    else NoNewLink(s.db, s'.db, id)
  }

  lemma OwnerKept(s: Sys, s': Sys, a: Action, id: Id)
    requires id in s.db.sandboxes && id in s'.db.sandboxes && !Assigning(s, a, id)
    requires NoNewLink(s.db, s'.db, id) && s'.owner == OwnerAfter(s, a)
    ensures OwnerFollows(s, s', id)
  {
  }

  lemma OwnerGained(s: Sys, s': Sys, a: Action, id: Id)
    requires id in s.db.sandboxes && SandboxOk(s, id) && Assigning(s, a, id)
    requires s'.db == DbAfter(s, a) && s'.owner == OwnerAfter(s, a)
    ensures id in s'.db.sandboxes && OwnerFollows(s, s', id)
  {
    AssigningRow(s, a, id);
  }

  lemma StepOwner(s: Sys, a: Action, s': Sys, id: Id)
    requires Core(s) && id in s.db.sandboxes && s'.db == DbAfter(s, a) && s'.owner == OwnerAfter(s, a)
    ensures id in s'.db.sandboxes && OwnerFollows(s, s', id)
  {
    assert SandboxOk(s, id);
    StepMoves(s, a, id);
    if Assigning(s, a, id) { OwnerGained(s, s', a, id); } else { OwnerKept(s, s', a, id); }
  }

  lemma SandboxKept(s: Sys, s': Sys, id: Id)
    requires id in s.db.sandboxes && SandboxOk(s, id)
    requires Moves(s.db, s'.db, id, s.now) && OwnerFollows(s, s', id)
    requires s.now <= s'.now && id in s'.known
    ensures SandboxOk(s', id)
    ensures LaterRow(s.db.sandboxes[id], s'.db.sandboxes[id])
    ensures Jobs(s.db.cleanups, id) <= Jobs(s'.db.cleanups, id)
  {
    FollowsKeepsRow(s.db.sandboxes[id], s'.db.sandboxes[id], s.now);
    JobsFollowOk(s.db.sandboxes[id], s'.db.sandboxes[id], Jobs(s.db.cleanups, id), Jobs(s'.db.cleanups, id));
  }

  lemma StepSandbox(s: Sys, a: Action, id: Id)
    requires Core(s) && id in s.db.sandboxes
    ensures id in DbAfter(s, a).sandboxes
    ensures SandboxOk(Step(s, a), id)
    ensures LaterRow(s.db.sandboxes[id], DbAfter(s, a).sandboxes[id])
    ensures Jobs(s.db.cleanups, id) <= Jobs(DbAfter(s, a).cleanups, id)
    ensures id in s.owner ==> id in OwnerAfter(s, a) && OwnerAfter(s, a)[id] == s.owner[id]
  {
    StepMoves(s, a, id);
    StepOwner(s, a, Step(s, a), id);
    SandboxKept(s, Step(s, a), id);
  }

  lemma StepInserts(s: Sys, a: Action, id: Id)
    requires Core(s) && id in DbAfter(s, a).sandboxes && id !in s.db.sandboxes
    ensures SandboxOk(Step(s, a), id)
    ensures id !in s.known
  {
    StepKeys(s, a, id);
    assert id !in s.owner && id !in s.db.cleanups;
  }

  lemma StepRowsOk(s: Sys, a: Action)
    requires Core(s)
    ensures RowsOk(Step(s, a))
    ensures Extends(s, Step(s, a))
  {
    var s' := Step(s, a);
    forall id | id in s'.db.sandboxes
      ensures SandboxOk(s', id) && (id in s.db.sandboxes || id !in s.known)
    {
      if id in s.db.sandboxes { StepSandbox(s, a, id); } else { StepInserts(s, a, id); }
    }
    forall id | id in s.db.sandboxes
      ensures id in s'.db.sandboxes && LaterRow(s.db.sandboxes[id], s'.db.sandboxes[id])
      ensures Jobs(s.db.cleanups, id) <= Jobs(s'.db.cleanups, id)
      ensures id in s.owner ==> id in s'.owner && s'.owner[id] == s.owner[id]
    {
      StepSandbox(s, a, id);
    }
    forall id | id in s'.owner ensures id in s'.db.sandboxes {
      if id !in s.owner { assert Assigning(s, a, id); AssigningRow(s, a, id); }
    }
    forall id | id in s'.db.cleanups ensures id in s'.db.sandboxes { StepJobKeys(s, a, id); }
    forall id | id in s'.db.creates ensures id in s'.db.sandboxes { StepCreates(s, a, id); }
  }

  // ---- What is in flight after a step ----

  /** A listed sandbox the database does not attribute to its worker is past
      running, or no sandbox at all: the worker can only list what it was given,
      and an active sandbox is linked to the worker it was given to. */
  lemma OrphanDoomed(s: Sys, b: Beat, id: Id)
    requires Inv(s) && b in s.beats && id in Tx.OrphanIds(s.db.sandboxes, b.w, b.inv)
    ensures Doomed(s, id)
  {
    assert Named(s, b.w, id);
    if id in s.db.sandboxes {
      assert SandboxOk(s, id);
    }
  }

  lemma NewOrphan(db: Db, b: Beat, now: Time, c: (WorkerId, Id))
    requires c in BeatTx(db, b, now).orphans && c !in db.orphans
    ensures c.1 in Tx.OrphanIds(db.sandboxes, b.w, b.inv)
  {
  }

  lemma AttemptsFindNone(s: Sys, a: Attempt, choice: Choice)
    ensures AttemptTx(s, a, choice).orphans == s.db.orphans
  {
  }

  lemma OnlyBeatsFindOrphans(s: Sys, a: Action)
    ensures DbAfter(s, a).orphans == if a.DeliverBeat? && a.beat in s.beats then BeatTx(s.db, a.beat, s.now).orphans else s.db.orphans
  {
    if a.JobStep? {
      if a.k in s.attempts { AttemptsFindNone(s, s.attempts[a.k], a.choice); }
    } else {
      OthersFindNone(s, a);
    }
  }

  lemma OthersFindNone(s: Sys, a: Action)
    requires !a.JobStep?
    ensures DbAfter(s, a).orphans == if a.DeliverBeat? && a.beat in s.beats then BeatTx(s.db, a.beat, s.now).orphans else s.db.orphans
  {
  }

  lemma StepOrphans(s: Sys, a: Action, c: (WorkerId, Id))
    requires Inv(s) && c in DbAfter(s, a).orphans
    ensures Doomed(s, c.1)
  {
    OnlyBeatsFindOrphans(s, a);
    if c !in s.db.orphans {
      NewOrphan(s.db, a.beat, s.now, c);
      OrphanDoomed(s, a.beat, c.1);
    }
  }

  lemma StepRemoveCalls(s: Sys, a: Action, c: (WorkerId, Id))
    requires Inv(s) && c in RemoveCallsAfter(s, a)
    ensures Doomed(s, c.1)
  {
    if a.JobStep? && a.k in s.attempts && CallsRemove(s.attempts[a.k], a.choice) {
      assert AttemptOk(s, s.attempts[a.k]) && SandboxOk(s, s.attempts[a.k].id);
    }
  }

  lemma StepCreateCalls(s: Sys, a: Action, c: (WorkerId, Id))
    requires Inv(s) && c in CreateCallsAfter(s, a)
    ensures Owns(s, c.0, c.1)
  {
    if a.JobStep? && a.k in s.attempts {
      assert AttemptOk(s, s.attempts[a.k]);
    }
  }

  lemma StepHosted(s: Sys, a: Action, c: (WorkerId, Id))
    requires Inv(s) && c in HostedAfter(s, a)
    ensures Named(s, c.0, c.1) || (a.AlienVm? && c.1 == a.id && c.1 !in s.db.sandboxes)
  {
    if c !in s.hosted {
      match a
      case JobStep(k, choice) =>
        assert AttemptOk(s, s.attempts[k]) && SandboxOk(s, s.attempts[k].id);
      case LateCreate(w, id) =>
        assert Owns(s, w, id) && id in s.db.sandboxes && SandboxOk(s, id);
      case _ =>
    }
  }

  lemma StepNetOk(s: Sys, a: Action)
    requires Inv(s) && Extends(s, Step(s, a))
    ensures NetOk(Step(s, a))
  {
    var s' := Step(s, a);
    forall c | c in s'.createCalls ensures Owns(s', c.0, c.1) { StepCreateCalls(s, a, c); }
    forall c | c in s'.removeCalls ensures Doomed(s', c.1) { StepRemoveCalls(s, a, c); DoomedStays(s, s', c.1); }
    forall c | c in s'.db.orphans ensures Doomed(s', c.1) { StepOrphans(s, a, c); DoomedStays(s, s', c.1); }
    forall c | c in s'.hosted ensures Named(s', c.0, c.1) { HostedNamed(s, a, c); }
    forall b, id | b in s'.beats && id in b.inv.Ids() ensures Named(s', b.w, id) {
      assert b !in s.beats ==> (b.w, id) in s.hosted;
      NamedStays(s, s', b.w, id);
    }
  }

  lemma HostedNamed(s: Sys, a: Action, c: (WorkerId, Id))
    requires Inv(s) && Extends(s, Step(s, a)) && c in HostedAfter(s, a)
    ensures Named(Step(s, a), c.0, c.1)
  {
    StepHosted(s, a, c);
    if Named(s, c.0, c.1) { NamedStays(s, Step(s, a), c.0, c.1); }
  }

  // ---- The attempts after a step ----

  lemma CreateReachesCall(s: Sys, a: Attempt, choice: Choice)
    requires a.Create? && AttemptOk(s, a) && SandboxOk(s, a.id)
    requires CreateNext(s.db, a.id, a.last, a.at, choice).CallCreate?
    ensures var w := CreateNext(s.db, a.id, a.last, a.at, choice).w;
            Owns(s, w, a.id) || (Assigns(s, a, choice) && w == a.at.w)
  {
  }

  /** The job completes only on reading the row as running, or on setting it. */
  lemma CreateCompletes(db: Db, a: Attempt, choice: Choice)
    requires a.Create? && a.id in db.sandboxes && !a.at.Completed?
    requires CreateNext(db, a.id, a.last, a.at, choice).Completed?
    ensures choice == Proceed
    ensures || (db.sandboxes[a.id].status == Running && (a.at.ReadRow? || a.at.Acknowledge? || a.at.ReadMoved?))
            || (db.sandboxes[a.id].status == Starting && a.at.SetRunning?)
  {
  }

  lemma CreateAttemptOk(s: Sys, s': Sys, a: Attempt, choice: Choice)
    requires a.Create? && AttemptOk(s, a) && SandboxOk(s, a.id) && Extends(s, s')
    requires s'.db == AttemptTx(s, a, choice)
    requires Assigns(s, a, choice) ==> Owns(s', a.at.w, a.id)
    ensures AttemptOk(s', Advanced(s, a, choice))
  {
    var at := CreateNext(s.db, a.id, a.last, a.at, choice);
    if at.CallCreate? {
      CreateReachesCall(s, a, choice);
    }
    if at.Completed? && !a.at.Completed? {
      CreateCompletes(s.db, a, choice);
      if a.at.SetRunning? {
        assert s'.db == Tx.SetStatus(s.db, a.id, Running, {Starting});
      }
    }
  }

  lemma CleanupAttemptOk(s: Sys, s': Sys, a: Attempt, choice: Choice)
    requires a.Cleanup? && AttemptOk(s, a) && SandboxOk(s, a.id) && Extends(s, s')
    requires s'.db == AttemptTx(s, a, choice)
    ensures AttemptOk(s', Advanced(s, a, choice))
  {
    AttemptStays(s, s', a.(pc := Ended));
    CleanupReaches(s, s'.db, a, choice);
  }

  /** What an attempt goes on to, and what it found for that. */
  lemma CleanupReaches(s: Sys, db': Db, a: Attempt, choice: Choice)
    requires a.Cleanup? && AttemptOk(s, a) && SandboxOk(s, a.id) && db' == AttemptTx(s, a, choice)
    ensures var pc := Advanced(s, a, choice).pc;
            && Advanced(s, a, choice) == a.(pc := pc)
            && (pc.CallRemove? ==> Owns(s, pc.w, a.id))
            && (pc.Unlink? ==> IsTarget(pc.target))
            && (pc.Finish? ==> IsTarget(pc.target) && a.id in db'.sandboxes && db'.sandboxes[a.id].worker.None?)
  {
    if a.pc.Unlink? && choice == Proceed {
      assert db' == Tx.ClearWorker(s.db, a.id);
    }
  }

  lemma StepAttemptsOk(s: Sys, a: Action)
    requires Core(s) && Extends(s, Step(s, a))
    ensures AttemptsOk(Step(s, a))
  {
    var s' := Step(s, a);
    forall k | k in s'.attempts ensures AttemptOk(s', s'.attempts[k]) {
      if k in s.attempts && s'.attempts[k] == s.attempts[k] {
        AttemptStays(s, s', s.attempts[k]);
      } else {
        NewAttemptOk(s, a, k);
      }
    }
  }

  lemma AdvancedOk(s: Sys, k: nat, choice: Choice)
    requires Core(s) && k in s.attempts && Extends(s, Step(s, JobStep(k, choice)))
    ensures AttemptOk(Step(s, JobStep(k, choice)), Advanced(s, s.attempts[k], choice))
  {
    var a, step := s.attempts[k], JobStep(k, choice);
    assert AttemptOk(s, a) && SandboxOk(s, a.id);
    if a.Create? {
      if Assigns(s, a, choice) { AssigningRow(s, step, a.id); }
      CreateAttemptOk(s, Step(s, step), a, choice);
    } else {
      CleanupAttemptOk(s, Step(s, step), a, choice);
    }
  }

  lemma NewAttemptOk(s: Sys, a: Action, k: nat)
    requires Core(s) && Extends(s, Step(s, a))
    requires k in AttemptsAfter(s, a) && !(k in s.attempts && AttemptsAfter(s, a)[k] == s.attempts[k])
    ensures AttemptOk(Step(s, a), AttemptsAfter(s, a)[k])
  {
    if a.JobStep? {
      AdvancedOk(s, k, a.choice);
    } else {
      StartedOk(s, a, k);
      AttemptStays(s, Step(s, a), AttemptsAfter(s, a)[k]);
    }
  }

  lemma StartedOk(s: Sys, a: Action, k: nat)
    requires RowsOk(s) && !a.JobStep? && k in AttemptsAfter(s, a)
    requires !(k in s.attempts && AttemptsAfter(s, a)[k] == s.attempts[k])
    ensures AttemptOk(s, AttemptsAfter(s, a)[k])
  {
    var started := AttemptsAfter(s, a)[k];
    assert started.id in s.db.sandboxes && SandboxOk(s, started.id);
  }

  lemma StepExhaustedOk(s: Sys, a: Action)
    requires Core(s) && Extends(s, Step(s, a))
    ensures ExhaustedOk(Step(s, a))
  {
  }

  // ---- Every reachable state ----

  lemma StepCore(s: Sys, a: Action)
    requires Core(s)
    ensures Core(Step(s, a)) && Extends(s, Step(s, a))
  {
    StepRowsOk(s, a);
    StepAttemptsOk(s, a);
    StepExhaustedOk(s, a);
  }

  lemma StepInv(s: Sys, a: Action)
    requires Inv(s)
    ensures Inv(Step(s, a)) && Extends(s, Step(s, a))
  {
    StepCore(s, a);
    StepNetOk(s, a);
  }

  lemma {:induction false} RunInv(s: Sys, actions: seq<Action>)
    requires Inv(s)
    ensures Inv(Run(s, actions))
    decreases actions
  {
    if actions != [] {
      StepInv(s, actions[0]);
      RunInv(Step(s, actions[0]), actions[1..]);
    }
  }

  lemma InitInv(cfg: Config, now: Time)
    ensures Inv(Init(cfg, now))
  {
  }
}
