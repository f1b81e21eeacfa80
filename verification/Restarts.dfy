/** What a worker's inventory settles, and what becomes of its sandboxes when it starts
    anew. */
module Restarts {
  import opened Collections
  import opened Tables
  import opened Cluster
  import opened Lifecycle
  import opened Invariants
  import Fencing
  import Rules
  import Tx = Transactions
  import Facts = TransactionFacts

  /** No complete inventory was accepted under the token yet. */
  predicate FirstUnder(s: Sys, b: Beat)
    requires b.w in s.db.workers
  {
    s.db.workers[b.w].inventoryToken != b.token
  }

  /** The sandbox is one that this inventory ends. */
  predicate Ends(s: Sys, b: Beat, id: Id)
    requires b.w in s.db.workers && id in s.db.sandboxes
  {
    || (FirstUnder(s, b) && Rules.LeftBehind(s.db.sandboxes[id], id, b.w, s.db.workers[b.w].registeredAt, b.inv))
    || Rules.ReportedDead(s.db.sandboxes[id], id, b.w, b.inv)
  }

  /** The state of row `id` and its jobs after an inventory that is accepted. */
  predicate Settled(s: Sys, b: Beat, id: Id, db': Db)
    requires b.w in s.db.workers && id in s.db.sandboxes
  {
    var r := s.db.sandboxes[id];
    && id in db'.sandboxes
    && (Ends(s, b, id) ==> db'.sandboxes[id].status == CleanupPending && Jobs(db'.cleanups, id) == [Failed])
    && (!Ends(s, b, id) ==>
          && Jobs(db'.cleanups, id) == Jobs(s.db.cleanups, id)
          && db'.sandboxes[id].status ==
               if r.worker == Some(b.w) && r.status == Starting && id in b.inv.running then Running else r.status)
    && db'.sandboxes[id].lastSeen ==
         (if Rules.HostedBy(r, b.w) && id in b.inv.live + b.inv.running then Some(s.now) else r.lastSeen)
    && db'.sandboxes[id].worker == r.worker
  }

  lemma BeatSettles(s: Sys, b: Beat, id: Id)
    requires Accepted(s, b) && b.complete && id in s.db.sandboxes && SandboxOk(s, id)
    ensures Settled(s, b, id, BeatTx(s.db, b, s.now))
  {
    var rows, at, first := s.db.sandboxes, s.db.workers[b.w].registeredAt, FirstUnder(s, b);
    Rules.InventoryTakes(rows, b.w, at, first, b.inv, id);
    Rules.InventoryDecides(rows, b.w, at, first, b.inv, s.now, id);
    Facts.EnqueueAt(s.db.cleanups, Tx.LostIds(rows, b.w, at, first, b.inv) + Tx.DeadIds(rows, b.w, b.inv), Failed, id);
  }

  lemma BeatFindsStrays(s: Sys, b: Beat, c: (WorkerId, Id))
    requires Accepted(s, b) && b.complete
    ensures c in BeatTx(s.db, b, s.now).orphans <==>
            c in s.db.orphans || (c.0 == b.w && Rules.Stray(s.db.sandboxes, c.1, b.w, b.inv))
  {
    Rules.InventoryTakes(s.db.sandboxes, b.w, s.db.workers[b.w].registeredAt, FirstUnder(s, b), b.inv, c.1);
  }

  /** In every reachable state, an accepted inventory ends exactly the sandboxes its
      worker reports dead and, if it is the first under its token, those it was given
      before it registered and does not list; each by its first cleanup job, to fail it.
      It has exactly the strays it lists removed. */
  lemma InventorySettles(cfg: Config, now: Time, actions: seq<Action>, s: Sys, b: Beat, id: Id, stray: Id)
    requires s == Run(Init(cfg, now), actions) && Accepted(s, b) && b.complete && id in s.db.sandboxes
    ensures Settled(s, b, id, DbAfter(s, DeliverBeat(b)))
    ensures (b.w, stray) in DbAfter(s, DeliverBeat(b)).orphans <==>
            (b.w, stray) in s.db.orphans || Rules.Stray(s.db.sandboxes, stray, b.w, b.inv)
  {
    InitInv(cfg, now);
    RunInv(Init(cfg, now), actions);
    assert SandboxOk(s, id);
    DeliveredSettles(s, b, id, stray);
  }

  lemma DeliveredSettles(s: Sys, b: Beat, id: Id, stray: Id)
    requires Accepted(s, b) && b.complete && id in s.db.sandboxes && SandboxOk(s, id)
    ensures Settled(s, b, id, DbAfter(s, DeliverBeat(b)))
    ensures (b.w, stray) in DbAfter(s, DeliverBeat(b)).orphans <==>
            (b.w, stray) in s.db.orphans || Rules.Stray(s.db.sandboxes, stray, b.w, b.inv)
  {
    BeatSettles(s, b, id);
    BeatFindsStrays(s, b, (b.w, stray));
  }

  /** A heartbeat without an inventory says nothing of the sandboxes: it refreshes its
      worker's row, and does not count as the first inventory. */
  lemma PartialBeat(s: Sys, b: Beat)
    requires Accepted(s, b) && !b.complete
    ensures DbAfter(s, DeliverBeat(b)) ==
              s.db.(workers := s.db.workers[b.w := s.db.workers[b.w].(
                status := b.report.status, capacity := b.report.capacity, lastHeartbeat := s.now, inactiveSince := None)])
  {
  }

  // ---- A new process ----

  /** The worker registers, then sends its first inventory, which arrives. */
  function Restarted(s: Sys, w: WorkerId, presented: int, report: Report, b: Beat): Sys {
    Step(Step(Step(s, Register(w, presented, report)), SendBeat(b)), DeliverBeat(b))
  }

  /** What the new process may send: what it hosts, under the token it was just given. */
  predicate FirstBeat(s: Sys, w: WorkerId, presented: int, report: Report, b: Beat) {
    && b.w == w && b.complete && b.token == Tx.Registered(s.db, w, presented, report, s.now).token
    && forall id <- b.inv.Ids() :: (w, id) in s.hosted
  }

  predicate SameElse(s: Sys, s': Sys) {
    s'.now == s.now && s'.hosted == s.hosted && s'.owner == s.owner && s'.known == s.known
  }

  lemma RegisterAlone(s: Sys, w: WorkerId, presented: int, report: Report)
    requires Fencing.WorkersOk(s)
    ensures var s' := Step(s, Register(w, presented, report));
            var wr := Tx.Registered(s.db, w, presented, report, s.now);
            && s'.db == s.db.(workers := s.db.workers[w := wr]) && SameElse(s, s')
            && wr.registeredAt == s.now && wr.inventoryToken != wr.token && wr.token in Log(s'.issued, w)
  {
    assert w in s.db.workers ==> Fencing.WorkerOk(s, w);
  }

  lemma SendAlone(s: Sys, b: Beat)
    requires Sendable(s, b)
    ensures var s' := Step(s, SendBeat(b)); s'.db == s.db && SameElse(s, s') && b in s'.beats
  {
  }

  /** The new process has registered and its first inventory is on the way. */
  predicate Awaits(s: Sys, sent: Sys, w: WorkerId, b: Beat) {
    && sent.db == s.db.(workers := sent.db.workers) && SameElse(s, sent)
    && Accepted(sent, b) && b.w == w && FirstUnder(sent, b) && sent.db.workers[w].registeredAt == s.now
  }

  lemma RestartBegins(s: Sys, w: WorkerId, presented: int, report: Report, b: Beat)
    requires Fencing.WorkersOk(s) && FirstBeat(s, w, presented, report, b)
    ensures Awaits(s, Step(Step(s, Register(w, presented, report)), SendBeat(b)), w, b)
  {
    RegisterAlone(s, w, presented, report);
    SendAlone(Step(s, Register(w, presented, report)), b);
  }

  lemma AwaitedEnds(s: Sys, sent: Sys, w: WorkerId, b: Beat, id: Id)
    requires Awaits(s, sent, w, b) && b.complete && id in s.db.sandboxes && SandboxOk(s, id)
    requires Rules.HostedBy(s.db.sandboxes[id], w) && Rules.LastWord(s.db.sandboxes[id]) < s.now && !Rules.Listed(b.inv, id)
    ensures var db := BeatTx(sent.db, b, sent.now);
            id in db.sandboxes && db.sandboxes[id].status == CleanupPending && Jobs(db.cleanups, id) == [Failed]
  {
    assert SandboxOk(sent, id);
    BeatSettles(sent, b, id);
  }

  lemma RestartEnds(s: Sys, w: WorkerId, presented: int, report: Report, b: Beat, id: Id)
    requires Fencing.WorkersOk(s) && FirstBeat(s, w, presented, report, b) && id in s.db.sandboxes && SandboxOk(s, id)
    requires Rules.HostedBy(s.db.sandboxes[id], w) && Rules.LastWord(s.db.sandboxes[id]) < s.now && !Rules.Listed(b.inv, id)
    ensures var db := Restarted(s, w, presented, report, b).db;
            id in db.sandboxes && db.sandboxes[id].status == CleanupPending && Jobs(db.cleanups, id) == [Failed]
  {
    var sent := Step(Step(s, Register(w, presented, report)), SendBeat(b));
    RestartBegins(s, w, presented, report, b);
    AwaitedEnds(s, sent, w, b, id);
    assert Step(sent, DeliverBeat(b)).db == BeatTx(sent.db, b, sent.now);
  }

  /** From every reachable state, a sandbox last heard of before a new process of its
      worker registered, and not listed by it, is in cleanup after its first inventory, by
      its first job, to fail it. */
  lemma RestartFailsTheOld(cfg: Config, now: Time, actions: seq<Action>, s: Sys, w: WorkerId, presented: int, report: Report, b: Beat, id: Id)
    requires s == Run(Init(cfg, now), actions) && FirstBeat(s, w, presented, report, b)
    requires id in s.db.sandboxes && Rules.HostedBy(s.db.sandboxes[id], w)
    requires Rules.LastWord(s.db.sandboxes[id]) < s.now && !Rules.Listed(b.inv, id)
    ensures var db := Restarted(s, w, presented, report, b).db;
            id in db.sandboxes && db.sandboxes[id].status == CleanupPending && Jobs(db.cleanups, id) == [Failed]
  {
    InitInv(cfg, now);
    Fencing.RunWorkersOk(Init(cfg, now), actions);
    assert SandboxOk(s, id);
    RestartEnds(s, w, presented, report, b, id);
  }
}
