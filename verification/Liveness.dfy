/** Liveness is measured against the worker, never against the orchestrator's own
    silence. */
module Liveness {
  import opened Collections
  import opened Tables
  import opened Cluster
  import opened Lifecycle
  import opened Invariants
  import opened Fencing
  import Tx = Transactions

  /** Every heartbeat accepted from its worker since the assignment vouched for
      the sandbox. */
  predicate AlwaysVouched(s: Sys, id: Id) {
    id !in s.neglected
  }

  predicate VouchOk(s: Sys, id: Id)
    requires id in s.db.sandboxes
  {
    var r := s.db.sandboxes[id];
    Active(r.status) && r.worker.Some? && r.worker.value in s.db.workers && AlwaysVouched(s, id) ==>
      s.db.workers[r.worker.value].lastHeartbeat <= Max(SeenAt(r), s.db.workers[r.worker.value].registeredAt)
  }

  predicate VouchesOk(s: Sys) {
    forall id <- s.db.sandboxes :: VouchOk(s, id)
  }

  /** A heartbeat that leaves a sandbox vouched for stamps both rows alike. */
  lemma BeatVouches(s: Sys, b: Beat, id: Id)
    requires id in s.db.sandboxes && Accepted(s, b)
    requires ActiveOn(s.db.sandboxes[id], b.w) && id !in Unvouched(s.db.sandboxes, b.w, BeatInventory(b))
    ensures var db := BeatTx(s.db, b, s.now);
            && db.sandboxes[id].lastSeen == Some(s.now)
            && db.workers[b.w].lastHeartbeat == s.now
  {
    assert BeatInventory(b).Vouches(id);
    assert b.complete;
  }

  /** What a step other than an accepted heartbeat does to a worker's clocks. */
  lemma OtherClocks(s: Sys, a: Action, w: WorkerId)
    requires w in s.db.workers && !(a.DeliverBeat? && Accepted(s, a.beat) && a.beat.w == w)
    ensures w in DbAfter(s, a).workers
    ensures var wr, wr' := s.db.workers[w], DbAfter(s, a).workers[w];
            || (wr'.lastHeartbeat == wr.lastHeartbeat && wr'.registeredAt == wr.registeredAt)
            || wr'.lastHeartbeat == wr'.registeredAt
  {
    NoWorkerForgotten(s, a, w);
    if !WritesWorkers(a) { OnlyThreeWriteWorkers(s, a); }
  }

  lemma StillActive(s: Sys, a: Action, id: Id)
    requires Inv(s) && id in s.db.sandboxes && !Assigning(s, a, id)
    requires id in DbAfter(s, a).sandboxes && Active(DbAfter(s, a).sandboxes[id].status)
    ensures var r, r' := s.db.sandboxes[id], DbAfter(s, a).sandboxes[id];
            && Active(r.status) && r.worker.Some? && r.lastSeen.Some?
            && r'.worker == r.worker && r'.lastSeen.Some? && r.lastSeen.value <= r'.lastSeen.value
  {
    assert SandboxOk(s, id);
    StepMoves(s, a, id);
    StillActiveRow(s, DbAfter(s, a), id);
  }

  lemma StillActiveRow(s: Sys, db': Db, id: Id)
    requires id in s.db.sandboxes && SandboxOk(s, id) && Moves(s.db, db', id, s.now) && NoNewLink(s.db, db', id)
    requires Active(db'.sandboxes[id].status)
    ensures var r, r' := s.db.sandboxes[id], db'.sandboxes[id];
            && Active(r.status) && r.worker.Some? && r.lastSeen.Some?
            && r'.worker == r.worker && r'.lastSeen.Some? && r.lastSeen.value <= r'.lastSeen.value
  {
    FollowsKeepsRow(s.db.sandboxes[id], db'.sandboxes[id], s.now);
  }

  /** The three ways an active, vouched row comes out of a step. */
  lemma AssignedVouch(s: Sys, a: Action, id: Id)
    requires WorkersOk(s) && Assigning(s, a, id)
    ensures id in DbAfter(s, a).sandboxes && VouchOk(Step(s, a), id)
  {
    AssigningRow(s, a, id);
    OnlyThreeWriteWorkers(s, a);
    assert WorkerOk(s, s.attempts[a.k].at.w);
  }

  lemma StampedVouch(s': Sys, id: Id, now: Time)
    requires id in s'.db.sandboxes && s'.db.sandboxes[id].lastSeen == Some(now)
    requires var r := s'.db.sandboxes[id];
             r.worker.Some? && r.worker.value in s'.db.workers && s'.db.workers[r.worker.value].lastHeartbeat == now
    ensures VouchOk(s', id)
  {
  }

  lemma KeptVouch(s: Sys, s': Sys, id: Id)
    requires id in s.db.sandboxes && id in s'.db.sandboxes && VouchOk(s, id) && s.neglected <= s'.neglected
    requires var r, r' := s.db.sandboxes[id], s'.db.sandboxes[id];
             && Active(r.status) && r.worker.Some? && r.lastSeen.Some?
             && r'.worker == r.worker && r'.lastSeen.Some? && r.lastSeen.value <= r'.lastSeen.value
             && r.worker.value in s.db.workers && r.worker.value in s'.db.workers
             && var wr, wr' := s.db.workers[r.worker.value], s'.db.workers[r.worker.value];
                || (wr'.lastHeartbeat == wr.lastHeartbeat && wr'.registeredAt == wr.registeredAt)
                || wr'.lastHeartbeat == wr'.registeredAt
    ensures VouchOk(s', id)
  {
  }

  /** What an accepted heartbeat of `w` does to a row linked to it. */
  predicate Stamps(s: Sys, s': Sys, w: WorkerId, id: Id)
    requires id in s.db.sandboxes && id in s'.db.sandboxes
  {
    Active(s.db.sandboxes[id].status) && id !in s'.neglected ==>
      s'.db.sandboxes[id].lastSeen == Some(s.now) && w in s'.db.workers && s'.db.workers[w].lastHeartbeat == s.now
  }

  lemma BeatStamps(s: Sys, b: Beat, s': Sys, id: Id)
    requires Accepted(s, b) && id in s.db.sandboxes && LinkedTo(s.db.sandboxes[id], b.w)
    requires s'.db == BeatTx(s.db, b, s.now) && s'.neglected == NeglectedAfter(s, DeliverBeat(b)) && id in s'.db.sandboxes
    ensures Stamps(s, s', b.w, id)
  {
    if Active(s.db.sandboxes[id].status) && id !in s'.neglected {
      BeatVouches(s, b, id);
    }
  }

  lemma StampedRow(s: Sys, s': Sys, w: WorkerId, id: Id)
    requires id in s.db.sandboxes && LinkedTo(s.db.sandboxes[id], w) && SandboxOk(s, id)
    requires Moves(s.db, s'.db, id, s.now) && NoNewLink(s.db, s'.db, id) && Stamps(s, s', w, id)
    ensures VouchOk(s', id)
  {
    if Active(s'.db.sandboxes[id].status) && id !in s'.neglected {
      StillActiveRow(s, s'.db, id);
      StampedVouch(s', id, s.now);
    }
  }

  lemma BeatVouch(s: Sys, b: Beat, id: Id)
    requires Inv(s) && Accepted(s, b) && id in s.db.sandboxes && LinkedTo(s.db.sandboxes[id], b.w)
    requires id in DbAfter(s, DeliverBeat(b)).sandboxes
    ensures VouchOk(Step(s, DeliverBeat(b)), id)
  {
    assert SandboxOk(s, id);
    StepMoves(s, DeliverBeat(b), id);
    BeatStamps(s, b, Step(s, DeliverBeat(b)), id);
    StampedRow(s, Step(s, DeliverBeat(b)), b.w, id);
  }

  lemma OtherKept(s: Sys, a: Action, s': Sys, id: Id)
    requires Inv(s) && WorkersOk(s) && id in s.db.sandboxes && VouchOk(s, id) && !Assigning(s, a, id)
    requires s'.db == DbAfter(s, a) && s.neglected <= s'.neglected && id in s'.db.sandboxes
    requires !(a.DeliverBeat? && Accepted(s, a.beat) && LinkedTo(s.db.sandboxes[id], a.beat.w))
    ensures VouchOk(s', id)
  {
    if Active(s'.db.sandboxes[id].status) {
      StillActive(s, a, id);
      OtherClocks(s, a, s.db.sandboxes[id].worker.value);
      KeptVouch(s, s', id);
    }
  }

  lemma OtherVouch(s: Sys, a: Action, id: Id)
    requires Inv(s) && WorkersOk(s) && id in s.db.sandboxes && VouchOk(s, id)
    requires id in DbAfter(s, a).sandboxes && !Assigning(s, a, id)
    requires !(a.DeliverBeat? && Accepted(s, a.beat) && LinkedTo(s.db.sandboxes[id], a.beat.w))
    ensures VouchOk(Step(s, a), id)
  {
    OtherKept(s, a, Step(s, a), id);
  }

  lemma StepVouch(s: Sys, a: Action, id: Id)
    requires Inv(s) && WorkersOk(s) && VouchesOk(s)
    requires id in s.db.sandboxes && id in DbAfter(s, a).sandboxes
    ensures VouchOk(Step(s, a), id)
  {
    if Assigning(s, a, id) {
      AssignedVouch(s, a, id);
    } else if a.DeliverBeat? && Accepted(s, a.beat) && LinkedTo(s.db.sandboxes[id], a.beat.w) {
      BeatVouch(s, a.beat, id);
    } else {
      OtherVouch(s, a, id);
    }
  }

  lemma StepVouches(s: Sys, a: Action)
    requires Inv(s) && WorkersOk(s) && VouchesOk(s)
    ensures VouchesOk(Step(s, a))
  {
    var s' := Step(s, a);
    forall id | id in s'.db.sandboxes ensures VouchOk(s', id) {
      if id in s.db.sandboxes { StepVouch(s, a, id); } else { StepKeys(s, a, id); }
    }
  }

  lemma {:induction false} RunVouches(s: Sys, actions: seq<Action>)
    requires Inv(s) && WorkersOk(s) && VouchesOk(s)
    ensures Inv(Run(s, actions)) && WorkersOk(Run(s, actions)) && VouchesOk(Run(s, actions))
    decreases actions
  {
    if actions != [] {
      StepInv(s, actions[0]);
      StepWorkersOk(s, actions[0]);
      StepVouches(s, actions[0]);
      RunVouches(Step(s, actions[0]), actions[1..]);
    }
  }

  /** In every run, the reaper fails a sandbox its worker always vouched for only
      when that worker's last accepted heartbeat or registration is older than the
      heartbeat timeout and the worker-lost timeout together. */
  lemma OnlySilenceFailsTheVouched(cfg: Config, now: Time, actions: seq<Action>, locks: Tx.Locks, id: Id)
    requires cfg.livenessTimeout >= 0
    ensures var s := Run(Init(cfg, now), actions);
            id in Tx.ReapDead(s.db, s.cfg, s.now, locks) && AlwaysVouched(s, id) ==>
              && s.db.sandboxes[id].worker.Some?
              && s.db.sandboxes[id].worker.value in s.db.workers
              && var wr := s.db.workers[s.db.sandboxes[id].worker.value];
                 && wr.registeredAt <= wr.lastHeartbeat
                 && wr.lastHeartbeat + Tx.EffectiveTimeout(s.cfg.heartbeatTimeout) + s.cfg.workerLostTimeout < s.now
  {
    InitInv(cfg, now);
    RunVouches(Init(cfg, now), actions);
    RunConfig(Init(cfg, now), actions);
    var s := Run(Init(cfg, now), actions);
    if id in Tx.ReapDead(s.db, s.cfg, s.now, locks) && AlwaysVouched(s, id) {
      assert VouchOk(s, id);
      assert WorkerOk(s, s.db.sandboxes[id].worker.value);
    }
  }

  lemma {:induction false} RunConfig(s: Sys, actions: seq<Action>)
    ensures Run(s, actions).cfg == s.cfg
    decreases actions
  {
    if actions != [] {
      RunConfig(Step(s, actions[0]), actions[1..]);
    }
  }
}
