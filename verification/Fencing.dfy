/** Worker incarnations: fencing tokens, first inventories and the clocks the
    reapers compare. */
module Fencing {
  import opened Collections
  import opened Tables
  import opened Cluster
  import opened Invariants
  import Tx = Transactions

  predicate Increasing(log: seq<int>) {
    forall i, j :: 0 <= i < j < |log| ==> log[i] < log[j]
  }

  /** The times of a worker row are in the order they were written, all by the
      same clock; a worker is inactive only since a time its last heartbeat was
      already older than the heartbeat timeout. */
  predicate ClocksOk(wr: Worker, cfg: Config, now: Time) {
    && wr.registeredAt <= wr.lastHeartbeat <= now
    && (wr.inactiveSince.Some? ==>
          wr.lastHeartbeat + Tx.EffectiveTimeout(cfg.heartbeatTimeout) < wr.inactiveSince.value <= now)
  }

  predicate TokensOk(wr: Worker, issued: seq<int>, firsts: seq<int>) {
    && wr.token >= 1
    && 0 <= wr.inventoryToken <= wr.token
    && Increasing(issued)
    && issued != []
    && issued[|issued| - 1] == wr.token
    && Increasing(firsts)
    && (forall t <- firsts :: t <= wr.inventoryToken)
  }

  predicate WorkerOk(s: Sys, w: WorkerId)
    requires w in s.db.workers
  {
    && ClocksOk(s.db.workers[w], s.cfg, s.now)
    && TokensOk(s.db.workers[w], Log(s.issued, w), Log(s.firsts, w))
  }

  predicate WorkersOk(s: Sys) {
    && (forall w <- s.db.workers :: WorkerOk(s, w))
    && (forall w <- s.issued :: w in s.db.workers)
    && (forall w <- s.firsts :: w in s.db.workers)
    && (forall id <- s.db.sandboxes :: s.db.sandboxes[id].worker.Some? ==> s.db.sandboxes[id].worker.value in s.db.workers)
  }

  // ---- Which steps write worker rows ----

  predicate WritesWorkers(a: Action) {
    a.Register? || a.DeliverBeat? || a.ReapWorkers?
  }

  lemma OnlyThreeWriteWorkers(s: Sys, a: Action)
    requires !WritesWorkers(a)
    ensures DbAfter(s, a).workers == s.db.workers
  {
  }

  lemma NoWorkerForgotten(s: Sys, a: Action, w: WorkerId)
    requires w in s.db.workers
    ensures w in DbAfter(s, a).workers
    ensures DbAfter(s, a).workers[w].token >= s.db.workers[w].token
    ensures !a.Register? ==> DbAfter(s, a).workers[w].token == s.db.workers[w].token
  {
    if !WritesWorkers(a) { OnlyThreeWriteWorkers(s, a); }
  }

  // ---- Each of them keeps the row ----

  lemma Appended(log: seq<int>, t: int)
    requires Increasing(log) && forall x <- log :: x < t
    ensures Increasing(log + [t])
  {
    var longer := log + [t];
    forall i, j | 0 <= i < j < |longer| ensures longer[i] < longer[j] {
      assert longer[i] == log[i] && log[i] in log;
    }
  }

  lemma RegisterKeeps(s: Sys, w: WorkerId, presented: int, report: Report)
    requires WorkersOk(s)
    ensures var wr := Tx.Registered(s.db, w, presented, report, s.now);
            && ClocksOk(wr, s.cfg, s.now)
            && TokensOk(wr, Log(s.issued, w) + [wr.token], Log(s.firsts, w))
            && (forall t <- Log(s.issued, w) :: t < wr.token)
  {
    var wr := Tx.Registered(s.db, w, presented, report, s.now);
    var issued := Log(s.issued, w);
    if w in s.db.workers {
      assert WorkerOk(s, w);
      assert forall i :: 0 <= i < |issued| ==> issued[i] <= issued[|issued| - 1];
    } else {
      assert issued == [] == Log(s.firsts, w);
    }
    Appended(issued, wr.token);
  }

  lemma BeatKeeps(s: Sys, b: Beat)
    requires WorkersOk(s) && Tx.FencedBy(s.db, b.w, b.token)
    ensures var wr := BeatTx(s.db, b, s.now).workers[b.w];
            var firsts := Log(s.firsts, b.w);
            && ClocksOk(wr, s.cfg, s.now)
            && TokensOk(wr, Log(s.issued, b.w), firsts)
            && (b.complete && Tx.FirstInventory(s.db, b.w, b.token) ==> TokensOk(wr, Log(s.issued, b.w), firsts + [b.token]))
  {
    assert WorkerOk(s, b.w);
    if b.complete && Tx.FirstInventory(s.db, b.w, b.token) {
      Appended(Log(s.firsts, b.w), b.token);
    }
  }

  lemma StaleKeeps(wr: Worker, cfg: Config, now: Time)
    requires ClocksOk(wr, cfg, now)
    ensures ClocksOk(Tx.StaleRow(wr, Tx.EffectiveTimeout(cfg.heartbeatTimeout), now), cfg, now)
  {
  }

  lemma UntouchedWorker(s: Sys, s': Sys, w: WorkerId)
    requires w in s.db.workers && WorkerOk(s, w)
    requires w in s'.db.workers && s'.db.workers[w] == s.db.workers[w]
    requires Log(s'.issued, w) == Log(s.issued, w) && Log(s'.firsts, w) == Log(s.firsts, w)
    requires s'.cfg == s.cfg && s.now <= s'.now
    ensures WorkerOk(s', w)
  {
  }

  lemma RegisterWorker(s: Sys, w: WorkerId, presented: int, report: Report, other: WorkerId)
    requires WorkersOk(s) && other in DbAfter(s, Register(w, presented, report)).workers
    ensures WorkerOk(Step(s, Register(w, presented, report)), other)
  {
    if other == w {
      RegisterKeeps(s, w, presented, report);
    } else {
      UntouchedWorker(s, Step(s, Register(w, presented, report)), other);
    }
  }

  lemma BeatWorker(s: Sys, b: Beat, other: WorkerId)
    requires WorkersOk(s) && other in DbAfter(s, DeliverBeat(b)).workers
    ensures WorkerOk(Step(s, DeliverBeat(b)), other)
  {
    if other == b.w && Accepted(s, b) {
      BeatKeeps(s, b);
    } else {
      UntouchedWorker(s, Step(s, DeliverBeat(b)), other);
    }
  }

  lemma StaleWorker(s: Sys, other: WorkerId)
    requires WorkersOk(s) && other in DbAfter(s, ReapWorkers).workers
    ensures WorkerOk(Step(s, ReapWorkers), other)
  {
    assert WorkerOk(s, other);
    StaleKeeps(s.db.workers[other], s.cfg, s.now);
  }

  lemma QuietWorker(s: Sys, a: Action, other: WorkerId)
    requires WorkersOk(s) && !WritesWorkers(a) && other in DbAfter(s, a).workers
    ensures WorkerOk(Step(s, a), other)
  {
    OnlyThreeWriteWorkers(s, a);
    UntouchedWorker(s, Step(s, a), other);
  }

  lemma StepWorker(s: Sys, a: Action, w: WorkerId)
    requires WorkersOk(s) && w in DbAfter(s, a).workers
    ensures WorkerOk(Step(s, a), w)
  {
    if a.Register? {
      RegisterWorker(s, a.w, a.presented, a.report, w);
    } else if a.DeliverBeat? {
      BeatWorker(s, a.beat, w);
    } else if a.ReapWorkers? {
      StaleWorker(s, w);
    } else {
      QuietWorker(s, a, w);
    }
  }

  lemma StepLink(s: Sys, a: Action, id: Id)
    requires Core(s) && WorkersOk(s) && id in DbAfter(s, a).sandboxes
    ensures var r := DbAfter(s, a).sandboxes[id]; r.worker.Some? ==> r.worker.value in DbAfter(s, a).workers
  {
    if id in s.db.sandboxes {
      assert SandboxOk(s, id);
      StepMoves(s, a, id);
      if Assigning(s, a, id) {
        AssigningRow(s, a, id);
      } else if s.db.sandboxes[id].worker.Some? {
        NoWorkerForgotten(s, a, s.db.sandboxes[id].worker.value);
      }
    } else {
      StepKeys(s, a, id);
    }
  }

  lemma StepWorkersOk(s: Sys, a: Action)
    requires Core(s) && WorkersOk(s)
    ensures WorkersOk(Step(s, a))
  {
    var s' := Step(s, a);
    forall w | w in s'.db.workers ensures WorkerOk(s', w) { StepWorker(s, a, w); }
    forall w | w in s.db.workers ensures w in s'.db.workers { NoWorkerForgotten(s, a, w); }
    forall id | id in s'.db.sandboxes && s'.db.sandboxes[id].worker.Some?
      ensures s'.db.sandboxes[id].worker.value in s'.db.workers
    {
      StepLink(s, a, id);
    }
  }

  lemma {:induction false} RunWorkersOk(s: Sys, actions: seq<Action>)
    requires Inv(s) && WorkersOk(s)
    ensures Inv(Run(s, actions)) && WorkersOk(Run(s, actions))
    decreases actions
  {
    if actions != [] {
      StepInv(s, actions[0]);
      StepWorkersOk(s, actions[0]);
      RunWorkersOk(Step(s, actions[0]), actions[1..]);
    }
  }

  // ---- What fencing promises ----

  /** Tokens handed out for a worker ID strictly increase, in every run: a
      registration gets one above all those before it. And no token is ever
      granted a second first inventory. */
  lemma TokensIncrease(cfg: Config, now: Time, actions: seq<Action>, w: WorkerId, presented: int, report: Report)
    ensures var s := Run(Init(cfg, now), actions);
            && Increasing(Log(s.issued, w))
            && Increasing(Log(s.firsts, w))
            && (forall t <- Log(s.issued, w) :: t < Tx.Registered(s.db, w, presented, report, s.now).token)
  {
    InitInv(cfg, now);
    RunWorkersOk(Init(cfg, now), actions);
    var s := Run(Init(cfg, now), actions);
    RegisterKeeps(s, w, presented, report);
    assert w in s.db.workers ==> WorkerOk(s, w);
  }

  lemma {:induction false} TokenNeverFalls(s: Sys, actions: seq<Action>, w: WorkerId)
    requires w in s.db.workers
    ensures w in Run(s, actions).db.workers
    ensures Run(s, actions).db.workers[w].token >= s.db.workers[w].token
    decreases actions
  {
    if actions != [] {
      NoWorkerForgotten(s, actions[0], w);
      TokenNeverFalls(Step(s, actions[0]), actions[1..], w);
    }
  }

  /** Once a newer process has registered, no heartbeat or event of an older one changes
      the database, however long it goes on and whatever happens meanwhile. That the older
      one never registers again is `Registration.SupersededIsOut`. */
  lemma StaleProcessIsPowerless(s: Sys, actions: seq<Action>, b: Beat, id: Id)
    requires b.w in s.db.workers && b.token < s.db.workers[b.w].token
    ensures var later := Run(s, actions);
            && DbAfter(later, DeliverBeat(b)) == later.db
            && DbAfter(later, DeliverEvent(b.w, b.token, id)) == later.db
            && Tx.WhyRefused(later.db, b.w, b.token) == Tx.Fenced
  {
    TokenNeverFalls(s, actions, b.w);
  }

  /** A first inventory never counts as lost a sandbox assigned since the worker
      registered. */
  lemma LostWereAssignedBefore(s: Sys, b: Beat, first: bool, id: Id)
    requires Inv(s) && b.w in s.db.workers
    requires id in Tx.LostIds(s.db.sandboxes, b.w, s.db.workers[b.w].registeredAt, first, b.inv)
    ensures id in s.owner && s.owner[id].w == b.w
    ensures s.owner[id].at < s.db.workers[b.w].registeredAt
  {
    assert SandboxOk(s, id);
  }
}
