/** The repositories as they run: one object holding the tables, whose methods
    issue the statements one after the other. Each method is proved to leave the
    tables exactly as the reference transaction of the same name says, and the
    answers it computes on the way to mean what the callers rely on.

    `now` is the transaction's timestamp, the database's clock. */
module Repository {
  import opened Collections
  import opened Tables
  import Tx = Transactions
  import Facts = TransactionFacts
  import Rules

  datatype UpdateAnswer = Updated(row: Sandbox) | Rejected | NoGuard

  class Postgres {
    var sandboxes: map<Id, Sandbox>
    var workers: map<WorkerId, Worker>
    var creates: set<Id>
    var cleanups: map<Id, seq<Status>>
    var orphans: set<(WorkerId, Id)>

    ghost function Contents(): Db
      reads this
    {
      Db(sandboxes, workers, creates, cleanups, orphans)
    }

    constructor ()
      ensures Contents() == Db(map[], map[], {}, map[], {})
    {
      sandboxes, workers, creates, cleanups, orphans := map[], map[], {}, map[], {};
    }

    // ---- Sandboxes ----

    method UpdateStatus(id: Id, to: Status, allowedFrom: set<Status>) returns (answer: UpdateAnswer)
      modifies this`sandboxes
      ensures Contents() == old(Tx.SetStatus(Contents(), id, to, allowedFrom))
      ensures answer.NoGuard? <==> allowedFrom == {}
      ensures answer.Updated? <==> old(Tx.Admits(Contents(), id, allowedFrom))
      ensures answer.Updated? ==> id in sandboxes && answer.row == sandboxes[id] && answer.row.status == to
    {
      if allowedFrom == {} {
        return NoGuard;
      }
      if id in sandboxes && sandboxes[id].status in allowedFrom {
        sandboxes := sandboxes[id := sandboxes[id].(status := to)];
        return Updated(sandboxes[id]);
      }
      return Rejected;
    }

    method UpdateStatusFenced(id: Id, w: WorkerId, token: int, to: Status, allowedFrom: set<Status>) returns (n: nat)
      modifies this`sandboxes
      ensures Contents() == old(Tx.SetStatusFenced(Contents(), id, w, token, to, allowedFrom))
      ensures n == 1 <==> old(Tx.Admits(Contents(), id, allowedFrom) && LinkedTo(sandboxes[id], w)
                              && Tx.FencedBy(Contents(), w, token))
      ensures n <= 1
    {
      n := 0;
      if allowedFrom == {} || id !in sandboxes || sandboxes[id].worker != Some(w) {
        return;
      }
      if w in workers && workers[w].token == token && sandboxes[id].status in allowedFrom {
        sandboxes := sandboxes[id := sandboxes[id].(status := to)];
        n := 1;
      }
    }

    method ClearWorker(id: Id)
      modifies this`sandboxes
      ensures Contents() == old(Tx.ClearWorker(Contents(), id))
      ensures old(id in sandboxes && sandboxes[id].status == CleanupPending) ==>
                forall w :: Occupants(sandboxes, w) == old(Occupants(sandboxes, w)) - {id}
      ensures old(id !in sandboxes || sandboxes[id].status != CleanupPending) ==> sandboxes == old(sandboxes)
    {
      if id in sandboxes && sandboxes[id].status == CleanupPending {
        sandboxes := sandboxes[id := sandboxes[id].(worker := None)];
      }
    }

    /** The worker row is locked, then the rows linked to the worker are counted
        by the statement that assigns. */
    method AssignWorker(id: Id, w: WorkerId, now: Time) returns (answer: Tx.AssignAnswer, row: Option<Sandbox>)
      modifies this`sandboxes
      ensures Contents() == old(Tx.Assign(Contents(), id, w, now))
      ensures old(Rules.Answers(Contents(), id, w, answer))
      ensures answer == Tx.AssignedTo <==> sandboxes != old(sandboxes)
      ensures answer == Tx.AssignedTo ==>
                sandboxes == old(sandboxes)[id := old(sandboxes)[id].(worker := Some(w), status := Assigned, lastSeen := Some(now))]
      ensures row.Some? <==> answer == Tx.AssignedTo
      ensures row.Some? ==> id in sandboxes && row.value == sandboxes[id] && ActiveOn(row.value, w)
    {
      row := None;
      Rules.AssignAnswers(Contents(), id, w, Tx.AssignAnswerFor(Contents(), id, w));
      if w !in workers {
        return Tx.NoWorker, None;
      }
      var capacity := workers[w].capacity;
      var hosted := set i | i in sandboxes && sandboxes[i].worker == Some(w)
                        && sandboxes[i].status in {Assigned, Starting, Running, CleanupPending};
      assert hosted == Occupants(sandboxes, w);
      if id in sandboxes && sandboxes[id].status == Scheduling && |hosted| < capacity {
        sandboxes := sandboxes[id := sandboxes[id].(worker := Some(w), status := Assigned, lastSeen := Some(now))];
        return Tx.AssignedTo, Some(sandboxes[id]);
      }
      if id !in sandboxes {
        return Tx.NoSandbox, None;
      }
      answer := if sandboxes[id].status == Scheduling then Tx.WorkerFull else Tx.Moved;
    }

    // ---- Claims ----
    //
    // A claim takes each row at most once: the rows it answers were before cleanup,
    // and the same claim made again at the same time would find none.

    method ClaimTTLExpired(now: Time, locked: set<Id>) returns (ids: set<Id>)
      modifies this`sandboxes
      ensures ids == old(Tx.TtlIds(sandboxes, now, locked))
      ensures forall id :: id in ids <==> id in old(sandboxes) && id !in locked && Rules.OutlivedTtl(old(sandboxes)[id], now)
      ensures sandboxes == old(Tx.Claimed(sandboxes, ids))
      ensures old(Facts.Unclaimed(sandboxes, ids)) && Tx.TtlIds(sandboxes, now, locked) == {}
    {
      ids := set id | id in sandboxes && id !in locked
                   && sandboxes[id].status in {Pending, Scheduling, Assigned, Starting, Running}
                   && sandboxes[id].createdAt + Min(Max(sandboxes[id].ttl, 0), MAX_TTL_SECONDS) * SECOND <= now;
      forall id { Rules.TtlTakes(sandboxes, now, locked, id); }
      sandboxes := map id | id in sandboxes ::
        if id in ids then sandboxes[id].(status := CleanupPending) else sandboxes[id];
    }

    /** `ok` is false, and nothing is claimed, for a worker-lost timeout that is
        not positive. */
    method ClaimLivenessExpired(cfg: Config, now: Time, locked: set<Id>) returns (ok: bool, ids: set<Id>)
      modifies this`sandboxes
      ensures ok <==> cfg.workerLostTimeout > 0
      ensures ok ==> ids == old(Tx.LivenessIds(sandboxes, workers, cfg, now, locked))
      ensures ok ==> forall id :: id in ids <==>
                id in old(sandboxes) && id !in locked && Rules.Overdue(old(sandboxes)[id], workers, cfg, now)
      ensures ok ==> sandboxes == old(Tx.Claimed(sandboxes, ids))
      ensures ok ==> old(Facts.Unclaimed(sandboxes, ids)) && Tx.LivenessIds(sandboxes, workers, cfg, now, locked) == {}
      ensures !ok ==> sandboxes == old(sandboxes) && ids == {}
    {
      ids := {};
      ok := cfg.workerLostTimeout > 0;
      if !ok {
        return;
      }
      ids := set id | id in sandboxes && id !in locked
                   && sandboxes[id].status in {Assigned, Starting, Running}
                   && sandboxes[id].worker.Some? && sandboxes[id].worker.value in workers
                   && (|| workers[sandboxes[id].worker.value].lastHeartbeat
                          > Max(SeenAt(sandboxes[id]), workers[sandboxes[id].worker.value].registeredAt) + cfg.livenessTimeout
                       || (&& workers[sandboxes[id].worker.value].status == Inactive
                           && workers[sandboxes[id].worker.value].inactiveSince.Some?
                           && workers[sandboxes[id].worker.value].inactiveSince.value < now - cfg.workerLostTimeout));
      assert ids == Tx.LivenessIds(sandboxes, workers, cfg, now, locked);
      forall id { Rules.LivenessTakes(sandboxes, workers, cfg, now, locked, id); }
      Facts.LivenessOnce(sandboxes, workers, cfg, now, locked);
      sandboxes := map id | id in sandboxes ::
        if id in ids then sandboxes[id].(status := CleanupPending) else sandboxes[id];
    }

    method ClaimStalledCreation(cfg: Config, now: Time, locked: set<Id>) returns (ok: bool, ids: set<Id>)
      modifies this`sandboxes
      ensures ok <==> cfg.createTimeout > 0
      ensures ids == old(Tx.StalledIds(sandboxes, cfg, now, locked))
      ensures forall id :: id in ids <==> id in old(sandboxes) && id !in locked && Rules.NeverPlaced(old(sandboxes)[id], cfg, now)
      ensures sandboxes == old(Tx.Claimed(sandboxes, ids))
      ensures old(Facts.Unclaimed(sandboxes, ids)) && Tx.StalledIds(sandboxes, cfg, now, locked) == {}
    {
      ids := {};
      ok := cfg.createTimeout > 0;
      if ok {
        ids := set id | id in sandboxes && id !in locked
                     && sandboxes[id].status in {Pending, Scheduling}
                     && sandboxes[id].createdAt < now - cfg.createTimeout;
      }
      forall id { Rules.StalledTakes(sandboxes, cfg, now, locked, id); }
      sandboxes := map id | id in sandboxes ::
        if id in ids then sandboxes[id].(status := CleanupPending) else sandboxes[id];
    }

    /** One reaper run: the claims, then one insert of all the cleanup jobs, in a
        single transaction. `TransactionFacts.ReapChangesItsLists` says what the
        three answers are. */
    method ReapSandboxes(cfg: Config, now: Time, locks: Tx.Locks) returns (expired: set<Id>, dead: set<Id>, stalled: set<Id>)
      modifies this`sandboxes, this`cleanups
      ensures Contents() == old(Tx.Reap(Contents(), cfg, now, locks))
      ensures cfg.workerLostTimeout > 0 ==>
                && expired == old(Tx.ReapExpired(Contents(), now, locks))
                && dead == old(Tx.ReapDead(Contents(), cfg, now, locks))
                && stalled == old(Tx.ReapStalled(Contents(), cfg, now, locks))
    {
      ghost var before := Contents();
      expired, dead, stalled := {}, {}, {};
      if cfg.workerLostTimeout <= 0 {
        // The second claim fails, and the transaction rolls back the first.
        return;
      }
      expired := ClaimTTLExpired(now, locks.ttl);
      var ok;
      ok, dead := ClaimLivenessExpired(cfg, now, locks.liveness);
      Facts.LivenessAfterTtl(before, cfg, now, locks);
      if cfg.createTimeout > 0 {
        ok, stalled := ClaimStalledCreation(cfg, now, locks.stalled);
      } else {
        Facts.NoStalledClaim(sandboxes, cfg, now, locks.stalled);
      }
      Facts.StalledAfterLiveness(before, cfg, now, locks);
      cleanups := Enqueue(Enqueue(Enqueue(cleanups, expired, Stopped), dead, Failed), stalled, Failed);
      Facts.ReapIsThreeClaims(before, cfg, now, locks);
    }

    // ---- Workers ----

    method Register(w: WorkerId, presented: int, report: Report, now: Time) returns (token: int)
      modifies this`workers
      ensures Contents() == old(Tx.Register(Contents(), w, presented, report, now))
      ensures w in workers && token == workers[w].token
      ensures token > presented
      ensures w in old(workers) ==> token > old(workers)[w].token
      ensures workers == old(workers)[w := workers[w]]
      ensures workers[w].status == report.status && workers[w].capacity == report.capacity
      ensures workers[w].registeredAt == workers[w].lastHeartbeat == now && workers[w].inactiveSince.None?
      ensures workers[w].inventoryToken == if w in old(workers) then old(workers)[w].inventoryToken else 0
    {
      if w in workers {
        token := Max(workers[w].token, presented) + 1;
        workers := workers[w := workers[w].(
          status := report.status, capacity := report.capacity, lastHeartbeat := now,
          inactiveSince := None, token := token, registeredAt := now)];
      } else {
        token := Max(presented, 0) + 1;
        workers := workers[w := Worker(report.status, report.capacity, now, token, 0, now, None)];
      }
    }

    /** Some(refusal) when the presented token is not the current one. */
    method Update(w: WorkerId, token: int, report: Report, now: Time) returns (refused: Option<Tx.Refusal>)
      modifies this`workers
      ensures Contents() == old(Tx.Refresh(Contents(), w, token, report, now))
      ensures refused.None? <==> old(Tx.FencedBy(Contents(), w, token))
      ensures refused.Some? ==> refused.value == old(Tx.WhyRefused(Contents(), w, token))
      ensures refused == Some(Tx.Fenced) ==> w in workers && workers[w].token > token
      ensures refused == Some(Tx.Unknown) ==> w !in workers || workers[w].token < token
      ensures refused.Some? ==> workers == old(workers)
      ensures refused.None? ==>
                && w in old(workers) && old(workers)[w].token == token
                && workers == old(workers)[w := old(workers)[w].(
                     status := report.status, capacity := report.capacity, lastHeartbeat := now, inactiveSince := None)]
    {
      if w in workers && workers[w].token == token {
        workers := workers[w := workers[w].(
          status := report.status, capacity := report.capacity, lastHeartbeat := now, inactiveSince := None)];
        return None;
      }
      if w !in workers {
        return Some(Tx.Unknown);
      }
      if workers[w].token < token {
        return Some(Tx.Unknown);
      }
      return Some(Tx.Fenced);
    }

    method ClaimInventory(w: WorkerId, token: int) returns (first: bool)
      modifies this`workers
      ensures first <==> old(Tx.FirstInventory(Contents(), w, token))
      ensures first <==> old(w in workers && workers[w].token == token && workers[w].inventoryToken != token)
      ensures workers == if first then old(workers)[w := old(workers)[w].(inventoryToken := token)] else old(workers)
      ensures !Tx.FirstInventory(Contents(), w, token)
    {
      first := false;
      if w in workers && workers[w].token == token && workers[w].inventoryToken != token {
        workers := workers[w := workers[w].(inventoryToken := token)];
        first := true;
      }
    }

    method MarkStaleInactive(timeout: Time, now: Time) returns (n: nat)
      modifies this`workers
      ensures Contents() == old(Tx.MarkStale(Contents(), timeout, now))
      ensures workers.Keys == old(workers).Keys
      ensures forall w <- workers :: workers[w] ==
                if Rules.FellSilent(old(workers)[w], timeout, now)
                then old(workers)[w].(status := Inactive, inactiveSince := Some(now)) else old(workers)[w]
      ensures n == |set w | w in old(workers) && w in workers && workers[w] != old(workers)[w]|
    {
      var limit := if timeout <= 0 then Tx.DEFAULT_HEARTBEAT_TIMEOUT else timeout;
      var stale := set w | w in workers && workers[w].status == Up && workers[w].lastHeartbeat < now - limit;
      workers := map w | w in workers ::
        if w in stale then workers[w].(status := Inactive, inactiveSince := Some(now)) else workers[w];
      n := |stale|;
      assert stale == set w | w in old(workers) && w in workers && workers[w] != old(workers)[w];
    }

    // ---- Inventory ----

    method MarkLost(w: WorkerId, inv: Inventory) returns (lost: set<Id>)
      requires w in workers
      modifies this`sandboxes
      ensures lost == old(Tx.LostIds(sandboxes, w, workers[w].registeredAt, true, inv))
      ensures sandboxes == old(Tx.Claimed(sandboxes, lost))
    {
      var ids := inv.Ids();
      lost := set id | id in sandboxes && sandboxes[id].worker == Some(w)
                    && sandboxes[id].status in {Assigned, Starting, Running}
                    && id !in ids && SeenAt(sandboxes[id]) < workers[w].registeredAt;
      sandboxes := map id | id in sandboxes ::
        if id in lost then sandboxes[id].(status := CleanupPending) else sandboxes[id];
    }

    method MarkSeen(w: WorkerId, ids: seq<Id>, now: Time)
      modifies this`sandboxes
      ensures sandboxes == old(Facts.SeenRows(sandboxes, w, ids, now))
    {
      sandboxes := map id | id in sandboxes ::
        if sandboxes[id].worker == Some(w) && id in ids && sandboxes[id].status in {Assigned, Starting, Running}
        then sandboxes[id].(lastSeen := Some(now)) else sandboxes[id];
    }

    method MarkRunning(w: WorkerId, ids: seq<Id>)
      modifies this`sandboxes
      ensures sandboxes == old(Facts.RunningRows(sandboxes, w, ids))
    {
      sandboxes := map id | id in sandboxes ::
        if sandboxes[id].worker == Some(w) && id in ids && sandboxes[id].status == Starting
        then sandboxes[id].(status := Running) else sandboxes[id];
    }

    method MarkDead(w: WorkerId, inv: Inventory) returns (dead: set<Id>)
      modifies this`sandboxes
      ensures dead == old(Tx.DeadIds(sandboxes, w, inv))
      ensures sandboxes == old(Tx.Claimed(sandboxes, dead))
    {
      dead := set id | id in sandboxes && sandboxes[id].worker == Some(w) && id in inv.dead
                    && sandboxes[id].status in {Assigned, Starting, Running};
      sandboxes := map id | id in sandboxes ::
        if id in dead then sandboxes[id].(status := CleanupPending) else sandboxes[id];
    }

    method SelectOrphans(w: WorkerId, inv: Inventory) returns (unattributed: set<Id>)
      ensures unattributed == Tx.OrphanIds(sandboxes, w, inv)
    {
      var ids := inv.Ids();
      unattributed := set id | id in ids
                            && !(id in sandboxes && sandboxes[id].worker == Some(w)
                                 && sandboxes[id].status !in {Failed, Stopped, CleanedUp});
    }

    /** The statements of an inventory, in the order they run. Together they apply
        the one decision of `ReconciledRow` to every row. */
    method ReconcileInventory(w: WorkerId, first: bool, inv: Inventory, now: Time)
      returns (lost: set<Id>, dead: set<Id>, unattributed: set<Id>)
      requires w in workers
      modifies this`sandboxes
      ensures sandboxes == old(Tx.ReconciledRows(sandboxes, w, workers[w].registeredAt, first, inv, now))
      ensures lost == old(Tx.LostIds(sandboxes, w, workers[w].registeredAt, first, inv))
      ensures dead == old(Tx.DeadIds(sandboxes, w, inv))
      ensures unattributed == old(Tx.OrphanIds(sandboxes, w, inv))
      ensures lost !! dead !! unattributed
      ensures forall id :: id in lost <==>
                id in old(sandboxes) && first && Rules.LeftBehind(old(sandboxes)[id], id, w, workers[w].registeredAt, inv)
      ensures forall id :: id in dead <==> id in old(sandboxes) && Rules.ReportedDead(old(sandboxes)[id], id, w, inv)
      ensures forall id :: id in unattributed <==> Rules.Stray(old(sandboxes), id, w, inv)
    {
      ghost var before := sandboxes;
      ghost var registeredAt := workers[w].registeredAt;
      lost, dead, unattributed := {}, {}, {};
      Facts.InventoryAnswers(before, w, registeredAt, first, inv, now);
      forall id { Rules.InventoryTakes(before, w, registeredAt, first, inv, id); }
      if first {
        lost := MarkLost(w, inv);
      } else {
        Facts.NotFirst(before, w, registeredAt, inv);
      }
      Facts.UpdateStatements(before, w, registeredAt, first, inv, now);
      if |inv.Ids()| == 0 {
        Facts.NothingListed(sandboxes, w, inv);
        return;
      }
      if |inv.live + inv.running| > 0 {
        MarkSeen(w, inv.live + inv.running, now);
      }
      if |inv.running| > 0 {
        MarkRunning(w, inv.running);
      }
      if |inv.dead| > 0 {
        dead := MarkDead(w, inv);
      } else {
        Facts.NoneDead(sandboxes, w, inv);
      }
      unattributed := SelectOrphans(w, inv);
    }

    /** The heartbeat transaction. A refused token changes nothing. */
    method ReconcileHeartbeat(w: WorkerId, token: int, report: Report, inv: Inventory, now: Time)
      returns (refused: Option<Tx.Refusal>)
      modifies this
      ensures Contents() == old(Tx.Heartbeat(Contents(), w, token, report, inv, now))
      ensures refused.None? <==> old(Tx.FencedBy(Contents(), w, token))
      ensures refused.Some? ==> refused.value == old(Tx.WhyRefused(Contents(), w, token))
    {
      refused := Update(w, token, report, now);
      if refused.Some? {
        return;
      }
      var first := ClaimInventory(w, token);
      var lost, dead, unattributed := ReconcileInventory(w, first, inv, now);
      cleanups := Enqueue(cleanups, lost + dead, Failed);
      orphans := orphans + set id | id in unattributed :: (w, id);
    }

    // ---- Transactions of the API and of the create job ----

    method InsertSandbox(id: Id, createdAt: Time, ttl: int)
      modifies this`sandboxes, this`creates
      ensures Contents() == old(Tx.InsertSandbox(Contents(), id, createdAt, ttl))
      ensures id in creates && sandboxes == old(sandboxes)[id := sandboxes[id]]
      ensures sandboxes[id] == Sandbox(Pending, None, None, createdAt, ttl)
    {
      sandboxes := sandboxes[id := Sandbox(Pending, None, None, createdAt, ttl)];
      creates := creates + {id};
    }

    method DeleteSandbox(id: Id) returns (claimed: bool)
      modifies this`sandboxes, this`cleanups
      ensures Contents() == old(Tx.Delete(Contents(), id))
      ensures claimed <==> old(id in sandboxes && !PastRunning(sandboxes[id].status))
      ensures claimed ==> Jobs(cleanups, id) == old(Jobs(cleanups, id)) + [Stopped]
    {
      var answer := UpdateStatus(id, CleanupPending, Tx.BeforeCleanup);
      claimed := answer.Updated?;
      if claimed {
        cleanups := Enqueue(cleanups, {id}, Stopped);
      }
    }

    /** maybeCleanup on the last attempt. The number of rows the update moved is
        not looked at. */
    method GiveUp(id: Id)
      modifies this`sandboxes, this`cleanups
      ensures Contents() == old(Tx.GiveUp(Contents(), id))
      ensures id in sandboxes ==> PastRunning(sandboxes[id].status)
      ensures Jobs(cleanups, id) == old(Jobs(cleanups, id)) + [Failed]
    {
      var _ := UpdateStatus(id, CleanupPending, Tx.BeforeCleanup);
      cleanups := Enqueue(cleanups, {id}, Failed);
    }
  }
}
