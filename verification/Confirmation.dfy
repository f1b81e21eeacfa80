/** What it takes for a sandbox to end: its worker's word, or a last attempt that went
    on without it; and when `stopped` means that the worker gave its word. */
module Confirmation {
  import opened Collections
  import opened Tables
  import opened Cluster
  import opened Lifecycle
  import opened Invariants
  import opened Safety
  import Tx = Transactions

  /** The worker the sandbox was given to confirmed that it is gone. */
  predicate Confirmed(s: Sys, id: Id) {
    id in s.owner && (s.owner[id].w, id) in s.confirmed
  }

  /** The sandbox was given to a worker and is no longer linked to it. */
  predicate LinkLost(s: Sys, id: Id) {
    id in s.owner && id in s.db.sandboxes && s.db.sandboxes[id].worker.None?
  }

  // ---- Attempts ----

  /** No other attempt is of the job of attempt `k`. */
  predicate Alone(s: Sys, k: nat)
    requires k in s.attempts && s.attempts[k].Cleanup?
  {
    forall j <- s.attempts :: j != k ==> !AttemptsJob(s.attempts[j], s.attempts[k].id, s.attempts[k].job)
  }

  /** An attempt that is about to drop the link has the worker's word, or is the last
      and gave up waiting for it. */
  predicate TargetOk(s: Sys, a: Attempt)
    requires a.Cleanup?
  {
    && (a.pc.Unlink? || a.pc.Finish? ==> a.pc.target == a.target || a.pc.target == Failed)
    && (a.pc.Unlink? && !Confirmed(s, a.id) ==> a.last && a.pc.target == Failed && a.id in s.abandoned)
  }

  predicate CleanupOk(s: Sys, k: nat)
    requires k in s.attempts && s.attempts[k].Cleanup?
  {
    var a := s.attempts[k];
    && (a.last <==> (a.id, a.job) in s.exhausted)
    && (a.last ==> Alone(s, k))
    && TargetOk(s, a)
  }

  predicate CleanupsOk(s: Sys) {
    forall k <- s.attempts :: s.attempts[k].Cleanup? ==> CleanupOk(s, k)
  }

  // ---- Rows ----

  /** The only cleanup job of `id` is past its last attempt's call, and all that is
      left of it can only fail the sandbox. */
  predicate Spent(s: Sys, id: Id)
    requires id in s.db.sandboxes
  {
    && (id, 0) in s.exhausted && s.db.sandboxes[id].status != Stopped
    && forall k <- s.attempts :: AttemptsJob(s.attempts[k], id, 0) ==>
         s.attempts[k].pc == Finish(Failed) || s.attempts[k].pc == Ended
  }

  /** A second cleanup job is always to fail the sandbox, and a sandbox stops only if
      its first one says so. */
  predicate JobsOk(db: Db, id: Id)
    requires id in db.sandboxes
  {
    var jobs := Jobs(db.cleanups, id);
    && (forall i :: 1 <= i < |jobs| ==> jobs[i] == Failed)
    && (db.sandboxes[id].status == Stopped ==> Stopped in jobs)
  }

  predicate RowReleased(s: Sys, id: Id)
    requires id in s.db.sandboxes
  {
    && JobsOk(s.db, id)
    && (LinkLost(s, id) && !Confirmed(s, id) ==>
          id in s.abandoned && (|Jobs(s.db.cleanups, id)| == 1 ==> Spent(s, id)))
  }

  predicate ReleasesOk(s: Sys) {
    && CleanupsOk(s)
    && forall id <- s.db.sandboxes :: RowReleased(s, id)
  }

  // ---- A step of an attempt ----

  lemma ConfirmedStays(s: Sys, a: Action, id: Id)
    requires Inv(s) && Confirmed(s, id)
    ensures Confirmed(Step(s, a), id)
  {
    StepInv(s, a);
  }

  /** Where an attempt goes, and what it leaves in the record. */
  lemma AdvancedTarget(s: Sys, k: nat, choice: Choice, s': Sys)
    requires k in s.attempts && s.attempts[k].Cleanup? && AttemptOk(s, s.attempts[k]) && TargetOk(s, s.attempts[k])
    requires s'.confirmed == ConfirmedAfter(s, JobStep(k, choice)) && s'.abandoned == AbandonedAfter(s, JobStep(k, choice))
    requires forall id <- s.owner :: id in s'.owner && s'.owner[id] == s.owner[id]
    ensures TargetOk(s', Advanced(s, s.attempts[k], choice))
  {
  }

  lemma TargetStays(s: Sys, s': Sys, a: Attempt)
    requires a.Cleanup? && TargetOk(s, a) && s.abandoned <= s'.abandoned && (Confirmed(s, a.id) ==> Confirmed(s', a.id))
    ensures TargetOk(s', a)
  {
  }

  /** What is recorded of a step beside the tables. */
  predicate Records(s: Sys, a: Action, s': Sys) {
    && s'.attempts == AttemptsAfter(s, a) && s'.confirmed == ConfirmedAfter(s, a) && s'.abandoned == AbandonedAfter(s, a)
    && forall id <- s.owner :: id in s'.owner && s'.owner[id] == s.owner[id]
  }

  lemma SameTarget(s: Sys, a: Action, s': Sys, k: nat)
    requires CleanupsOk(s) && Records(s, a, s') && k in s.attempts && s.attempts[k].Cleanup?
    ensures TargetOk(s', s.attempts[k])
  {
    assert CleanupOk(s, k);
    TargetStays(s, s', s.attempts[k]);
  }

  lemma StepTarget(s: Sys, a: Action, s': Sys, k: nat)
    requires AttemptsOk(s) && CleanupsOk(s) && Records(s, a, s') && k in s'.attempts && s'.attempts[k].Cleanup?
    ensures TargetOk(s', s'.attempts[k])
  {
    if k in s.attempts && s.attempts[k] == s'.attempts[k] {
      SameTarget(s, a, s', k);
    } else if a.JobStep? {
      assert CleanupOk(s, k) && AttemptOk(s, s.attempts[k]);
      AdvancedTarget(s, k, a.choice, s');
    }
  }

  /** What an attempt is of does not change, and whether it is the last. */
  predicate SameJob(a: Attempt, a': Attempt) {
    a.Cleanup? && a'.Cleanup? && a'.id == a.id && a'.job == a.job && a'.last == a.last
  }

  lemma KeptJob(s: Sys, a: Action, s': Sys, k: nat)
    requires s'.attempts == AttemptsAfter(s, a) && s'.exhausted == ExhaustedAfter(s, a)
    requires CleanupsOk(s) && k in s.attempts && k in s'.attempts && s.attempts[k].Cleanup?
    ensures SameJob(s.attempts[k], s'.attempts[k])
    ensures s'.attempts[k].last <==> (s'.attempts[k].id, s'.attempts[k].job) in s'.exhausted
    ensures s'.attempts[k].last ==> Alone(s', k)
  {
    assert CleanupOk(s, k);
  }

  lemma NewJob(s: Sys, a: Action, s': Sys, k: nat)
    requires s'.attempts == AttemptsAfter(s, a) && s'.exhausted == ExhaustedAfter(s, a)
    requires k !in s.attempts && k in s'.attempts && s'.attempts[k].Cleanup?
    ensures s'.attempts[k].last <==> (s'.attempts[k].id, s'.attempts[k].job) in s'.exhausted
    ensures s'.attempts[k].last ==> Alone(s', k)
  {
  }

  lemma StepCleanup(s: Sys, a: Action, s': Sys, k: nat)
    requires AttemptsOk(s) && CleanupsOk(s) && Records(s, a, s') && s'.exhausted == ExhaustedAfter(s, a)
    requires k in s'.attempts && s'.attempts[k].Cleanup?
    ensures CleanupOk(s', k)
  {
    StepTarget(s, a, s', k);
    if k in s.attempts { KeptJob(s, a, s', k); } else { NewJob(s, a, s', k); }
  }

  lemma StepRecords(s: Sys, a: Action)
    requires Inv(s)
    ensures Records(s, a, Step(s, a))
  {
    StepInv(s, a);
  }

  lemma StepCleanups(s: Sys, a: Action)
    requires Inv(s) && CleanupsOk(s)
    ensures CleanupsOk(Step(s, a))
  {
    var s' := Step(s, a);
    StepRecords(s, a);
    forall k | k in s'.attempts && s'.attempts[k].Cleanup? ensures CleanupOk(s', k) {
      StepCleanup(s, a, s', k);
    }
  }

  // ---- A step of a row ----

  /** The row kept its link and did not end. */
  predicate Holds(r: Sandbox, r': Sandbox) {
    (r.worker.Some? ==> r'.worker.Some?) && (r'.status == Stopped ==> r.status == Stopped)
  }

  lemma BeatHolds(db: Db, b: Beat, now: Time, id: Id)
    requires id in db.sandboxes
    ensures id in BeatTx(db, b, now).sandboxes && Holds(db.sandboxes[id], BeatTx(db, b, now).sandboxes[id])
  {
  }

  lemma ReapHolds(db: Db, cfg: Config, now: Time, locks: Tx.Locks, id: Id)
    requires id in db.sandboxes
    ensures id in Tx.Reap(db, cfg, now, locks).sandboxes
    ensures Holds(db.sandboxes[id], Tx.Reap(db, cfg, now, locks).sandboxes[id])
  {
  }

  lemma CreateHolds(db: Db, x: Id, at: CreatePc, now: Time, id: Id)
    requires id in db.sandboxes
    ensures id in CreateTx(db, x, at, now).sandboxes && Holds(db.sandboxes[id], CreateTx(db, x, at, now).sandboxes[id])
  {
  }

  /** Nothing but a cleanup attempt drops a link or stops a sandbox. */
  lemma OthersHold(s: Sys, a: Action, id: Id)
    requires id in s.db.sandboxes && id in s.known && !a.JobStep?
    ensures id in DbAfter(s, a).sandboxes && Holds(s.db.sandboxes[id], DbAfter(s, a).sandboxes[id])
  {
    match a
    case DeliverBeat(b) => BeatHolds(s.db, b, s.now, id);
    case ReapSandboxes(locks) => ReapHolds(s.db, s.cfg, s.now, locks, id);
    case _ =>
  }

  lemma JobHolds(s: Sys, k: nat, choice: Choice, id: Id)
    requires id in s.db.sandboxes && k in s.attempts
    ensures id in AttemptTx(s, s.attempts[k], choice).sandboxes
    ensures var a := s.attempts[k];
            var r, r' := s.db.sandboxes[id], AttemptTx(s, a, choice).sandboxes[id];
            Holds(r, r') || (a.Cleanup? && a.id == id && Succeeds(choice)
              && ((a.pc.Unlink? && r' == r.(worker := None)) || (a.pc == Finish(Stopped) && r' == r.(status := Stopped))))
  {
    var a := s.attempts[k];
    if Succeeds(choice) && a.Create? { CreateHolds(s.db, a.id, a.at, s.now, id); }
  }

  /** How the row of `id` came to lose its link or to stop. */
  lemma HoldsOrJob(s: Sys, a: Action, id: Id)
    requires id in s.db.sandboxes && id in s.known
    ensures id in DbAfter(s, a).sandboxes
    ensures var r, r' := s.db.sandboxes[id], DbAfter(s, a).sandboxes[id];
            Holds(r, r') || (a.JobStep? && a.k in s.attempts && s.attempts[a.k].Cleanup? && s.attempts[a.k].id == id
              && ((s.attempts[a.k].pc.Unlink? && r' == r.(worker := None))
                  || (s.attempts[a.k].pc == Finish(Stopped) && r' == r.(status := Stopped))))
  {
    if !a.JobStep? {
      OthersHold(s, a, id);
    } else if a.k in s.attempts {
      JobHolds(s, a.k, a.choice, id);
    }
  }

  lemma JobsStay(s: Sys, db': Db, id: Id)
    requires id in s.db.sandboxes && SandboxOk(s, id) && JobsOk(s.db, id) && Moves(s.db, db', id, s.now)
    requires db'.sandboxes[id].status == Stopped && s.db.sandboxes[id].status != Stopped ==> Stopped in Jobs(s.db.cleanups, id)
    ensures JobsOk(db', id)
  {
    var jobs, jobs' := Jobs(s.db.cleanups, id), Jobs(db'.cleanups, id);
    assert Stopped in jobs ==> Stopped in jobs';
  }

  /** A sandbox stops only by a cleanup job that says so. */
  lemma StopsByJob(s: Sys, a: Action, id: Id)
    requires AttemptsOk(s) && CleanupsOk(s) && id in s.db.sandboxes && id in s.known && s.db.sandboxes[id].status != Stopped
    requires id in DbAfter(s, a).sandboxes && DbAfter(s, a).sandboxes[id].status == Stopped
    ensures Stopped in Jobs(s.db.cleanups, id)
  {
    HoldsOrJob(s, a, id);
    assert AttemptOk(s, s.attempts[a.k]) && CleanupOk(s, a.k);
  }

  lemma StepJobs(s: Sys, a: Action, id: Id)
    requires Inv(s) && ReleasesOk(s) && id in s.db.sandboxes
    ensures id in DbAfter(s, a).sandboxes && JobsOk(DbAfter(s, a), id)
  {
    assert SandboxOk(s, id) && RowReleased(s, id);
    StepMoves(s, a, id);
    if s.db.sandboxes[id].status != Stopped && DbAfter(s, a).sandboxes[id].status == Stopped {
      StopsByJob(s, a, id);
    }
    JobsStay(s, DbAfter(s, a), id);
  }

  /** What is left of a spent job stays spent. */
  lemma SpentAttempts(s: Sys, a: Action, s': Sys, id: Id, k: nat)
    requires id in s.db.sandboxes && Spent(s, id) && s'.attempts == AttemptsAfter(s, a)
    requires k in s'.attempts && AttemptsJob(s'.attempts[k], id, 0)
    ensures s'.attempts[k].pc == Finish(Failed) || s'.attempts[k].pc == Ended
  {
  }

  lemma SpentNeverStops(s: Sys, k: nat, id: Id)
    requires AttemptsOk(s) && id in s.db.sandboxes && Spent(s, id) && |Jobs(s.db.cleanups, id)| == 1
    requires k in s.attempts && s.attempts[k].Cleanup? && s.attempts[k].id == id
    ensures s.attempts[k].pc != Finish(Stopped)
  {
    assert AttemptOk(s, s.attempts[k]);
  }

  lemma SpentStays(s: Sys, a: Action, id: Id)
    requires Inv(s) && id in s.db.sandboxes && Spent(s, id) && |Jobs(s.db.cleanups, id)| == 1
    ensures id in DbAfter(s, a).sandboxes && Spent(Step(s, a), id)
  {
    var s' := Step(s, a);
    assert SandboxOk(s, id);
    HoldsOrJob(s, a, id);
    if a.JobStep? && a.k in s.attempts && s.attempts[a.k].Cleanup? && s.attempts[a.k].id == id {
      SpentNeverStops(s, a.k, id);
    }
    forall k | k in s'.attempts && AttemptsJob(s'.attempts[k], id, 0)
      ensures s'.attempts[k].pc == Finish(Failed) || s'.attempts[k].pc == Ended
    {
      SpentAttempts(s, a, s', id, k);
    }
  }

  /** A last attempt that drops the link without the worker's word spends its job. */
  lemma UnlinkSpends(s: Sys, k: nat, choice: Choice, s': Sys, id: Id)
    requires k in s.attempts && s.attempts[k].Cleanup? && s.attempts[k].id == id && s.attempts[k].job == 0
    requires s.attempts[k].pc == Unlink(Failed) && s.attempts[k].last && CleanupOk(s, k)
    requires s'.attempts == s.attempts[k := Advanced(s, s.attempts[k], choice)] && s'.exhausted == s.exhausted
    requires id in s'.db.sandboxes && s'.db.sandboxes[id].status != Stopped
    ensures Spent(s', id)
  {
    assert Alone(s, k);
  }

  lemma OnlyJob(s: Sys, db': Db, id: Id)
    requires id in s.db.sandboxes && id in s.owner && SandboxOk(s, id) && Moves(s.db, db', id, s.now)
    requires s.db.sandboxes[id].worker.None? || s.db.sandboxes[id].status == CleanupPending
    requires |Jobs(db'.cleanups, id)| == 1
    ensures |Jobs(s.db.cleanups, id)| == 1
  {
  }

  lemma LinkWasLost(s: Sys, a: Action, id: Id)
    requires Inv(s) && id in s.db.sandboxes && LinkLost(s, id) && RowReleased(s, id) && !Confirmed(s, id)
    requires |Jobs(DbAfter(s, a).cleanups, id)| == 1
    ensures id in DbAfter(s, a).sandboxes && Spent(Step(s, a), id)
  {
    assert SandboxOk(s, id);
    StepMoves(s, a, id);
    OnlyJob(s, DbAfter(s, a), id);
    SpentStays(s, a, id);
  }

  /** The attempt that has just dropped the link of `id`. */
  lemma DroppedBy(s: Sys, a: Action, id: Id)
    requires Inv(s) && id in s.db.sandboxes && s.db.sandboxes[id].worker.Some?
    requires id in DbAfter(s, a).sandboxes && DbAfter(s, a).sandboxes[id].worker.None?
    ensures a.JobStep? && a.k in s.attempts && s.attempts[a.k].Cleanup? && s.attempts[a.k].id == id && s.attempts[a.k].pc.Unlink?
    ensures s.db.sandboxes[id].status == CleanupPending == DbAfter(s, a).sandboxes[id].status
  {
    assert SandboxOk(s, id);
    HoldsOrJob(s, a, id);
    assert AttemptOk(s, s.attempts[a.k]);
  }

  lemma DropsSpend(s: Sys, k: nat, choice: Choice, s': Sys, id: Id)
    requires k in s.attempts && s.attempts[k].Cleanup? && s.attempts[k].id == id && s.attempts[k].pc.Unlink?
    requires AttemptOk(s, s.attempts[k]) && CleanupOk(s, k) && !Confirmed(s, id)
    requires s'.attempts == s.attempts[k := Advanced(s, s.attempts[k], choice)] && s'.exhausted == s.exhausted
    requires id in s'.db.sandboxes && s'.db.sandboxes[id].status != Stopped
    ensures id in s.abandoned
    ensures |Jobs(s.db.cleanups, id)| == 1 ==> Spent(s', id)
  {
    if |Jobs(s.db.cleanups, id)| == 1 { UnlinkSpends(s, k, choice, s', id); }
  }

  lemma LinkIsLost(s: Sys, a: Action, s': Sys, id: Id)
    requires Inv(s) && CleanupsOk(s) && id in s.db.sandboxes && s.db.sandboxes[id].worker.Some? && !Confirmed(s, id)
    requires s'.db == DbAfter(s, a) && s'.attempts == AttemptsAfter(s, a) && s'.exhausted == ExhaustedAfter(s, a)
    requires id in s'.db.sandboxes && s'.db.sandboxes[id].worker.None?
    ensures id in s.abandoned
    ensures |Jobs(s'.db.cleanups, id)| == 1 ==> Spent(s', id)
  {
    DroppedBy(s, a, id);
    DropsSpend(s, a.k, a.choice, s', id);
    if |Jobs(s'.db.cleanups, id)| == 1 {
      assert SandboxOk(s, id);
      assert SandboxOk(s, id);
    StepMoves(s, a, id);
    OnlyJob(s, DbAfter(s, a), id);
    }
  }

  lemma StepRow(s: Sys, a: Action, id: Id)
    requires Inv(s) && ReleasesOk(s) && id in s.db.sandboxes
    ensures id in DbAfter(s, a).sandboxes && RowReleased(Step(s, a), id)
  {
    StepJobs(s, a, id);
    var s' := Step(s, a);
    if LinkLost(s', id) && !Confirmed(s', id) {
      if Confirmed(s, id) { ConfirmedStays(s, a, id); }
      assert RowReleased(s, id);
      if id !in s.owner {
        assert Assigning(s, a, id);
        AssigningRow(s, a, id);
      } else if s.db.sandboxes[id].worker.Some? {
        LinkIsLost(s, a, s', id);
      } else if |Jobs(s'.db.cleanups, id)| == 1 {
        LinkWasLost(s, a, id);
      }
    }
  }

  lemma NewRow(s: Sys, a: Action, id: Id)
    requires Inv(s) && id !in s.db.sandboxes && id in DbAfter(s, a).sandboxes
    ensures RowReleased(Step(s, a), id)
  {
    StepKeys(s, a, id);
    StepInv(s, a);
    assert SandboxOk(Step(s, a), id);
  }

  lemma StepReleases(s: Sys, a: Action)
    requires Inv(s) && ReleasesOk(s)
    ensures ReleasesOk(Step(s, a))
  {
    var s' := Step(s, a);
    StepCleanups(s, a);
    forall id | id in s'.db.sandboxes ensures RowReleased(s', id) {
      if id in s.db.sandboxes { StepRow(s, a, id); } else { NewRow(s, a, id); }
    }
  }

  lemma {:induction false} RunReleases(s: Sys, actions: seq<Action>)
    requires Inv(s) && ReleasesOk(s)
    ensures Inv(Run(s, actions)) && ReleasesOk(Run(s, actions))
    decreases actions
  {
    if actions != [] {
      StepInv(s, actions[0]);
      StepReleases(s, actions[0]);
      RunReleases(Step(s, actions[0]), actions[1..]);
    }
  }

  // ---- Over every run ----

  /** In every run, a sandbox that was given to a worker reaches failed or stopped
      only after that worker confirmed its removal, or after a last cleanup attempt
      gave up waiting for it. */
  lemma EndsConfirmedOrAbandoned(cfg: Config, now: Time, actions: seq<Action>, id: Id)
    ensures var s := Run(Init(cfg, now), actions);
            id in s.owner ==>
              && id in s.db.sandboxes
              && (Terminal(s.db.sandboxes[id].status) ==> (s.owner[id].w, id) in s.confirmed || id in s.abandoned)
  {
    InitInv(cfg, now);
    RunReleases(Init(cfg, now), actions);
    var s := Run(Init(cfg, now), actions);
    if id in s.owner {
      assert SandboxOk(s, id) && RowReleased(s, id);
    }
  }

  /** In every run, a sandbox given to a worker stops only with that worker's word that
      it is gone, unless a second cleanup job was enqueued for it: a delete's, to stop
      it, and then others, all to fail it. */
  lemma StoppedMeansConfirmed(cfg: Config, now: Time, actions: seq<Action>, id: Id)
    ensures var s := Run(Init(cfg, now), actions);
            id in s.owner && id in s.db.sandboxes && s.db.sandboxes[id].status == Stopped ==>
              var jobs := Jobs(s.db.cleanups, id);
              && jobs != [] && jobs[0] == Stopped && (forall i :: 1 <= i < |jobs| ==> jobs[i] == Failed)
              && ((s.owner[id].w, id) in s.confirmed || |jobs| > 1)
  {
    InitInv(cfg, now);
    RunReleases(Init(cfg, now), actions);
    var s := Run(Init(cfg, now), actions);
    if id in s.owner && id in s.db.sandboxes && s.db.sandboxes[id].status == Stopped { StoppedIsConfirmed(s, id); }
  }

  lemma StoppedIsConfirmed(s: Sys, id: Id)
    requires Inv(s) && ReleasesOk(s) && id in s.owner && id in s.db.sandboxes && s.db.sandboxes[id].status == Stopped
    ensures var jobs := Jobs(s.db.cleanups, id);
            && jobs != [] && jobs[0] == Stopped && (forall i :: 1 <= i < |jobs| ==> jobs[i] == Failed)
            && ((s.owner[id].w, id) in s.confirmed || |jobs| > 1)
  {
    assert SandboxOk(s, id) && RowReleased(s, id);
  }
}
