/** How the statements of one transaction compose. */
module TransactionFacts {
  import opened Collections
  import opened Tables
  import opened Transactions

  // ---- The reaper ----

  ghost function ReapTargets(id: Id, stop: set<Id>, fail: set<Id>): seq<Status> {
    if id in stop then [Stopped] else if id in fail then [Failed] else []
  }

  /** Rows a claim may take: none of them is in cleanup or past it. */
  predicate Unclaimed(rows: map<Id, Sandbox>, ids: set<Id>) {
    forall id <- ids :: id in rows && !PastRunning(rows[id].status)
  }

  lemma LivenessOnce(rows: map<Id, Sandbox>, workers: map<WorkerId, Worker>, cfg: Config, now: Time, locked: set<Id>)
    ensures var ids := LivenessIds(rows, workers, cfg, now, locked);
            Unclaimed(rows, ids) && LivenessIds(Claimed(rows, ids), workers, cfg, now, locked) == {}
  {
  }

  /** The liveness claim, run on the rows the TTL claim left, finds ReapDead. */
  lemma LivenessAfterTtl(db: Db, cfg: Config, now: Time, locks: Locks)
    ensures var rows := Claimed(db.sandboxes, ReapExpired(db, now, locks));
            LivenessIds(rows, db.workers, cfg, now, locks.liveness) == ReapDead(db, cfg, now, locks)
  {
  }

  ghost function AfterTwoClaims(db: Db, cfg: Config, now: Time, locks: Locks): map<Id, Sandbox> {
    Claimed(Claimed(db.sandboxes, ReapExpired(db, now, locks)), ReapDead(db, cfg, now, locks))
  }

  lemma StalledAfterLiveness(db: Db, cfg: Config, now: Time, locks: Locks)
    ensures StalledIds(AfterTwoClaims(db, cfg, now, locks), cfg, now, locks.stalled) == ReapStalled(db, cfg, now, locks)
  {
  }

  lemma NoStalledClaim(rows: map<Id, Sandbox>, cfg: Config, now: Time, locked: set<Id>)
    requires cfg.createTimeout <= 0
    ensures StalledIds(rows, cfg, now, locked) == {}
    ensures Claimed(rows, {}) == rows
  {
  }

  /** The three claim lists of one run are disjoint. */
  lemma ReapListsDisjoint(db: Db, cfg: Config, now: Time, locks: Locks)
    ensures ReapExpired(db, now, locks) !! ReapDead(db, cfg, now, locks) !! ReapStalled(db, cfg, now, locks)
  {
    forall id | id in ReapDead(db, cfg, now, locks) && id in ReapStalled(db, cfg, now, locks)
      ensures false
    {
      assert false;
    }
  }

  lemma ReapIsThreeClaims(db: Db, cfg: Config, now: Time, locks: Locks)
    requires cfg.workerLostTimeout > 0
    ensures Reap(db, cfg, now, locks)
         == Claim(Claim(Claim(db, ReapExpired(db, now, locks), Stopped),
                        ReapDead(db, cfg, now, locks), Failed),
                  ReapStalled(db, cfg, now, locks), Failed)
  {
    var expired, dead, stalled := ReapExpired(db, now, locks), ReapDead(db, cfg, now, locks), ReapStalled(db, cfg, now, locks);
    assert Reap(db, cfg, now, locks).sandboxes == Claimed(Claimed(Claimed(db.sandboxes, expired), dead), stalled);
    ReapListsDisjoint(db, cfg, now, locks);
    EnqueueTwice(Enqueue(db.cleanups, expired, Stopped), dead, stalled, Failed);
  }

  lemma EnqueueTwice(cleanups: map<Id, seq<Status>>, a: set<Id>, b: set<Id>, target: Status)
    requires a !! b
    ensures Enqueue(cleanups, a + b, target) == Enqueue(Enqueue(cleanups, a, target), b, target)
  {
    var once, twice := Enqueue(cleanups, a + b, target), Enqueue(Enqueue(cleanups, a, target), b, target);
    assert once.Keys == twice.Keys;
    forall id | id in once ensures once[id] == twice[id] {
      EnqueueTwiceAt(cleanups, a, b, target, id);
    }
  }

  lemma EnqueueTwiceAt(cleanups: map<Id, seq<Status>>, a: set<Id>, b: set<Id>, target: Status, id: Id)
    requires a !! b
    ensures Jobs(Enqueue(cleanups, a + b, target), id) == Jobs(Enqueue(Enqueue(cleanups, a, target), b, target), id)
  {
    EnqueueAt(cleanups, a + b, target, id);
    EnqueueAt(cleanups, a, target, id);
    EnqueueAt(Enqueue(cleanups, a, target), b, target, id);
    assert id in a ==> id !in b;
  }

  /** One reaper run changes exactly the rows of its three lists: each was still
      up to running, becomes cleanup_pending, and gets one cleanup job, `stopped`
      for the expired ones and `failed` for the others. */
  lemma ReapChangesItsLists(db: Db, cfg: Config, now: Time, locks: Locks, id: Id)
    requires cfg.workerLostTimeout > 0
    requires id in db.sandboxes
    ensures var after := Reap(db, cfg, now, locks);
            var expired := ReapExpired(db, now, locks);
            var failing := ReapDead(db, cfg, now, locks) + ReapStalled(db, cfg, now, locks);
            && id in after.sandboxes
            && (id in expired + failing <==> after.sandboxes[id] != db.sandboxes[id])
            && (id in expired + failing ==>
                  && !PastRunning(db.sandboxes[id].status)
                  && after.sandboxes[id] == db.sandboxes[id].(status := CleanupPending))
            && Jobs(after.cleanups, id) == Jobs(db.cleanups, id) + ReapTargets(id, expired, failing)
  {
    var expired := ReapExpired(db, now, locks);
    var failing := ReapDead(db, cfg, now, locks) + ReapStalled(db, cfg, now, locks);
    EnqueueAt(db.cleanups, expired, Stopped, id);
    EnqueueAt(Enqueue(db.cleanups, expired, Stopped), failing, Failed, id);
  }

  lemma EnqueueAt(cleanups: map<Id, seq<Status>>, ids: set<Id>, target: Status, id: Id)
    ensures Jobs(Enqueue(cleanups, ids, target), id) == Jobs(cleanups, id) + (if id in ids then [target] else [])
  {
  }

  // ---- The inventory ----

  ghost function SeenRows(rows: map<Id, Sandbox>, w: WorkerId, ids: seq<Id>, now: Time): map<Id, Sandbox> {
    map id | id in rows ::
      if ActiveOn(rows[id], w) && id in ids then rows[id].(lastSeen := Some(now)) else rows[id]
  }

  ghost function RunningRows(rows: map<Id, Sandbox>, w: WorkerId, ids: seq<Id>): map<Id, Sandbox> {
    map id | id in rows ::
      if LinkedTo(rows[id], w) && id in ids && rows[id].status == Starting then rows[id].(status := Running) else rows[id]
  }

  lemma NotFirst(rows: map<Id, Sandbox>, w: WorkerId, registeredAt: Time, inv: Inventory)
    ensures LostIds(rows, w, registeredAt, false, inv) == {}
    ensures Claimed(rows, {}) == rows
  {
  }

  lemma NoneDead(rows: map<Id, Sandbox>, w: WorkerId, inv: Inventory)
    requires inv.dead == []
    ensures DeadIds(rows, w, inv) == {}
    ensures Claimed(rows, {}) == rows
  {
  }

  lemma NothingListed(rows: map<Id, Sandbox>, w: WorkerId, inv: Inventory)
    requires inv.Ids() == []
    ensures inv.live + inv.running == [] && inv.running == [] && inv.dead == []
    ensures DeadIds(rows, w, inv) == {} == OrphanIds(rows, w, inv)
    ensures Claimed(rows, {}) == rows
  {
  }

  /** Lost, Dead and Orphans have no sandbox in common, and the orphans are the
      same whether read before or after the updates. */
  lemma InventoryAnswers(rows: map<Id, Sandbox>, w: WorkerId, registeredAt: Time, first: bool, inv: Inventory, now: Time)
    ensures LostIds(rows, w, registeredAt, first, inv) !! DeadIds(rows, w, inv) !! OrphanIds(rows, w, inv)
    ensures OrphanIds(ReconciledRows(rows, w, registeredAt, first, inv, now), w, inv) == OrphanIds(rows, w, inv)
  {
  }

  lemma SeenNone(rows: map<Id, Sandbox>, w: WorkerId, now: Time)
    ensures SeenRows(rows, w, [], now) == rows
  {
  }

  lemma RunningNone(rows: map<Id, Sandbox>, w: WorkerId)
    ensures RunningRows(rows, w, []) == rows
  {
  }

  lemma UpdatesInOrder(rows: map<Id, Sandbox>, w: WorkerId, registeredAt: Time, first: bool, inv: Inventory, now: Time)
    ensures var kept := Claimed(rows, LostIds(rows, w, registeredAt, first, inv));
            var running := RunningRows(SeenRows(kept, w, inv.live + inv.running, now), w, inv.running);
            && DeadIds(running, w, inv) == DeadIds(rows, w, inv)
            && Claimed(running, DeadIds(rows, w, inv)) == ReconciledRows(rows, w, registeredAt, first, inv, now)
  {
  }

  /** The updates that follow the lost statement add up to the row decision. */
  lemma UpdateStatements(rows: map<Id, Sandbox>, w: WorkerId, registeredAt: Time, first: bool, inv: Inventory, now: Time)
    ensures var kept := Claimed(rows, LostIds(rows, w, registeredAt, first, inv));
            var seen := if inv.live + inv.running == [] then kept else SeenRows(kept, w, inv.live + inv.running, now);
            var running := if inv.running == [] then seen else RunningRows(seen, w, inv.running);
            && DeadIds(running, w, inv) == DeadIds(rows, w, inv)
            && Claimed(running, DeadIds(rows, w, inv)) == ReconciledRows(rows, w, registeredAt, first, inv, now)
  {
    var kept := Claimed(rows, LostIds(rows, w, registeredAt, first, inv));
    SeenNone(kept, w, now);
    RunningNone(SeenRows(kept, w, inv.live + inv.running, now), w);
    UpdatesInOrder(rows, w, registeredAt, first, inv, now);
  }

  /** Replaying an inventory for the same token changes no status, calls for no
      removal it has not called for already, and finds the same orphans. */
  lemma ReplayedInventory(db: Db, w: WorkerId, token: int, report: Report, inv: Inventory, now: Time, later: Time)
    requires FencedBy(db, w, token)
    ensures var once := Heartbeat(db, w, token, report, inv, now);
            var twice := Heartbeat(once, w, token, report, inv, later);
            && !FirstInventory(once, w, token)
            && twice.sandboxes.Keys == once.sandboxes.Keys == db.sandboxes.Keys
            && (forall id <- db.sandboxes :: twice.sandboxes[id].status == once.sandboxes[id].status)
            && twice.cleanups == once.cleanups
            && twice.orphans == once.orphans
  {
    var once := Heartbeat(db, w, token, report, inv, now);
    var registeredAt := db.workers[w].registeredAt;
    InventoryAnswers(db.sandboxes, w, registeredAt, FirstInventory(db, w, token), inv, now);
    assert LostIds(once.sandboxes, w, registeredAt, false, inv) + DeadIds(once.sandboxes, w, inv) == {} by {
      ReplayFindsNothing(db.sandboxes, w, registeredAt, FirstInventory(db, w, token), inv, now);
    }
    EnqueueNone(once.cleanups, Failed);
  }

  lemma EnqueueNone(cleanups: map<Id, seq<Status>>, target: Status)
    ensures Enqueue(cleanups, {}, target) == cleanups
  {
    var same := Enqueue(cleanups, {}, target);
    forall id | id in cleanups
      ensures same[id] == cleanups[id]
    {
      EnqueueAt(cleanups, {}, target, id);
    }
  }

  lemma ReplayFindsNothing(rows: map<Id, Sandbox>, w: WorkerId, registeredAt: Time, first: bool, inv: Inventory, now: Time)
    ensures var after := ReconciledRows(rows, w, registeredAt, first, inv, now);
            LostIds(after, w, registeredAt, false, inv) == {} == DeadIds(after, w, inv)
  {
  }
}
