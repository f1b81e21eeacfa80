/** What every run of the cluster keeps: the main theorems about sandboxes and
    their jobs. */
module Safety {
  import opened Collections
  import opened Tables
  import opened Cluster
  import opened Lifecycle
  import opened Invariants
  import Tx = Transactions

  // ---- Runs ----

  lemma {:induction false} RunAppend(s: Sys, first: seq<Action>, rest: seq<Action>)
    ensures Run(s, first + rest) == Run(Run(s, first), rest)
    decreases first
  {
    if first == [] {
      assert first + rest == rest;
    } else {
      assert (first + rest)[1..] == first[1..] + rest;
      RunAppend(Step(s, first[0]), first[1..], rest);
    }
  }

  lemma Reached(cfg: Config, now: Time, actions: seq<Action>)
    ensures Inv(Run(Init(cfg, now), actions))
  {
    InitInv(cfg, now);
    RunInv(Init(cfg, now), actions);
  }

  // ---- Removals ----

  /** However late a cleanup or orphan job runs, no RemoveSandbox names a sandbox
      the database then has active: neither when the orchestrator sends it, nor
      ever after, while it may still be in flight. */
  lemma RemovalsSpareTheActive(cfg: Config, now: Time, actions: seq<Action>, a: Action, more: seq<Action>, w: WorkerId, id: Id)
    requires (w, id) in Step(Run(Init(cfg, now), actions), a).removeCalls
    ensures var sent := Run(Init(cfg, now), actions);
            var later := Run(Step(sent, a), more);
            && (id in sent.db.sandboxes ==> PastRunning(sent.db.sandboxes[id].status))
            && (id in later.db.sandboxes ==> PastRunning(later.db.sandboxes[id].status))
  {
    var sent := Run(Init(cfg, now), actions);
    Reached(cfg, now, actions);
    StepRemoveCalls(sent, a, (w, id));
    StepInv(sent, a);
    DoomedStays(sent, Step(sent, a), id);
    DoomedForever(Step(sent, a), more, id);
  }

  lemma {:induction false} DoomedForever(s: Sys, actions: seq<Action>, id: Id)
    requires Inv(s) && Doomed(s, id)
    ensures Doomed(Run(s, actions), id)
    decreases actions
  {
    if actions != [] {
      StepInv(s, actions[0]);
      DoomedStays(s, Step(s, actions[0]), id);
      DoomedForever(Step(s, actions[0]), actions[1..], id);
    }
  }

  // ---- The life of a row ----

  /** A row some time later: it never goes back, its worker never changes, a link
      dropped is dropped for good, and a terminal row is never written again. */
  predicate Later(r: Sandbox, r': Sandbox) {
    && Rank(r.status) <= Rank(r'.status)
    && (r.worker.Some? ==> r'.worker == r.worker || (r'.worker.None? && PastRunning(r'.status)))
    && (PastRunning(r.status) && r.worker.None? ==> r'.worker.None?)
    && (Terminal(r.status) ==> r' == r)
  }

  lemma LaterTransitive(a: Sandbox, b: Sandbox, c: Sandbox)
    requires Later(a, b) && Later(b, c)
    ensures Later(a, c)
  {
  }

  lemma StepLater(s: Sys, a: Action, id: Id)
    requires Inv(s) && id in s.db.sandboxes
    ensures id in DbAfter(s, a).sandboxes && Later(s.db.sandboxes[id], DbAfter(s, a).sandboxes[id])
  {
    assert SandboxOk(s, id);
    StepMoves(s, a, id);
    FollowsLater(s.db.sandboxes[id], DbAfter(s, a).sandboxes[id], s.now);
  }

  lemma FollowsLater(r: Sandbox, r': Sandbox, now: Time)
    requires RowOk(r, now) && Follows(r, r', now)
    ensures Later(r, r')
  {
  }

  lemma {:induction false} RunLater(s: Sys, actions: seq<Action>, id: Id)
    requires Inv(s) && id in s.db.sandboxes
    ensures id in Run(s, actions).db.sandboxes
    ensures Later(s.db.sandboxes[id], Run(s, actions).db.sandboxes[id])
    decreases actions
  {
    if actions != [] {
      var next := Step(s, actions[0]);
      StepLater(s, actions[0], id);
      StepInv(s, actions[0]);
      RunLater(next, actions[1..], id);
      LaterTransitive(s.db.sandboxes[id], next.db.sandboxes[id], Run(next, actions[1..]).db.sandboxes[id]);
    }
  }

  /** In every run, with any number of interleaved, retried and interrupted jobs:
      the link is absent in pending, scheduling, failed and stopped and present in
      assigned, starting and running; and from any state on, each row only gets
      `Later`. */
  lemma LinkFollowsStatus(cfg: Config, now: Time, actions: seq<Action>, more: seq<Action>, id: Id)
    requires id in Run(Init(cfg, now), actions).db.sandboxes
    ensures var r := Run(Init(cfg, now), actions).db.sandboxes[id];
            && (Early(r.status) || Terminal(r.status) ==> r.worker.None?)
            && (Active(r.status) ==> r.worker.Some?)
    ensures var s := Run(Init(cfg, now), actions);
            id in Run(s, more).db.sandboxes && Later(s.db.sandboxes[id], Run(s, more).db.sandboxes[id])
  {
    Reached(cfg, now, actions);
    var s := Run(Init(cfg, now), actions);
    assert SandboxOk(s, id);
    RunLater(s, more, id);
  }

  // ---- Cleanup jobs ----

  /** The sandbox stops being up to running in step `i` of the run. */
  predicate Past(s: Sys, id: Id) {
    id in s.db.sandboxes && PastRunning(s.db.sandboxes[id].status)
  }

  ghost predicate FallsAt(s: Sys, actions: seq<Action>, i: nat, id: Id)
    requires i < |actions|
  {
    var before, after := Run(s, actions[..i]), Run(s, actions[..i + 1]);
    id in before.db.sandboxes && !Past(before, id) && Past(after, id)
  }

  lemma RunTo(s: Sys, actions: seq<Action>, i: nat, j: nat)
    requires i <= j <= |actions|
    ensures Run(s, actions[..j]) == Run(Run(s, actions[..i]), actions[i..j])
  {
    assert actions[..j] == actions[..i] + actions[i..j];
    RunAppend(s, actions[..i], actions[i..j]);
  }

  /** Each sandbox falls at most once in a run. */
  lemma FallsOnce(s: Sys, actions: seq<Action>, i: nat, j: nat, id: Id)
    requires Inv(s) && i < |actions| && j < |actions|
    requires FallsAt(s, actions, i, id) && FallsAt(s, actions, j, id)
    ensures i == j
  {
    if i < j {
      NoSecondFall(s, actions, i, j, id);
    } else if j < i {
      NoSecondFall(s, actions, j, i, id);
    }
  }

  lemma NoSecondFall(s: Sys, actions: seq<Action>, i: nat, j: nat, id: Id)
    requires Inv(s) && i < j < |actions| && FallsAt(s, actions, i, id)
    ensures !FallsAt(s, actions, j, id)
  {
    StaysPast(s, actions, i + 1, j, id);
  }

  lemma StaysPast(s: Sys, actions: seq<Action>, i: nat, j: nat, id: Id)
    requires Inv(s) && i <= j <= |actions| && Past(Run(s, actions[..i]), id)
    ensures Past(Run(s, actions[..j]), id)
  {
    RunInv(s, actions[..i]);
    RunPast(Run(s, actions[..i]), actions[i..j], id);
    RunTo(s, actions, i, j);
  }

  lemma RunPast(s: Sys, actions: seq<Action>, id: Id)
    requires Inv(s) && Past(s, id)
    ensures Past(Run(s, actions), id)
  {
    RunLater(s, actions, id);
  }

  /** In every reachable state, a row is past running exactly when a cleanup job
      was enqueued for it; and the step it falls in is the one that enqueues its
      first job, one only. */
  lemma OneJobPerFall(cfg: Config, now: Time, actions: seq<Action>, a: Action, id: Id)
    requires id in Run(Init(cfg, now), actions).db.sandboxes
    ensures var s := Run(Init(cfg, now), actions);
            var next := Step(s, a);
            var r := s.db.sandboxes[id];
            && (PastRunning(r.status) <==> Jobs(s.db.cleanups, id) != [])
            && id in next.db.sandboxes
            && var r' := next.db.sandboxes[id];
               && (!PastRunning(r.status) && PastRunning(r'.status) ==> |Jobs(next.db.cleanups, id)| == 1)
               && (!PastRunning(r'.status) ==> Jobs(next.db.cleanups, id) == [])
               && Jobs(s.db.cleanups, id) <= Jobs(next.db.cleanups, id)
  {
    Reached(cfg, now, actions);
    var s := Run(Init(cfg, now), actions);
    assert SandboxOk(s, id);
    StepMoves(s, a, id);
    FollowsKeepsRow(s.db.sandboxes[id], DbAfter(s, a).sandboxes[id], s.now);
    JobsAtFall(s.db.sandboxes[id], DbAfter(s, a).sandboxes[id], Jobs(s.db.cleanups, id), Jobs(DbAfter(s, a).cleanups, id));
  }

  lemma JobsAtFall(r: Sandbox, r': Sandbox, jobs: seq<Status>, jobs': seq<Status>)
    requires JobsFollow(r, r', jobs, jobs') && Rank(r.status) <= Rank(r'.status)
    requires PastRunning(r.status) <==> jobs != []
    ensures !PastRunning(r.status) && PastRunning(r'.status) ==> |jobs'| == 1
    ensures !PastRunning(r'.status) ==> jobs' == []
    ensures jobs <= jobs'
  {
  }

  // ---- The create job ----

  /** Under any interference between its calls, an attempt completes without error
      only in a step that read the row as running or set it so; the sandbox has
      then been up, whatever became of it since. */
  lemma CompletesOnlyRunning(cfg: Config, now: Time, actions: seq<Action>, k: nat, choice: Choice)
    requires var s := Run(Init(cfg, now), actions);
             k in s.attempts && s.attempts[k].Create? && !s.attempts[k].at.Completed?
             && Advanced(s, s.attempts[k], choice).at.Completed?
    ensures var s := Run(Init(cfg, now), actions);
            var next := Step(s, JobStep(k, choice));
            var id := s.attempts[k].id;
            id in next.db.sandboxes && next.db.sandboxes[id].status == Running
  {
    Reached(cfg, now, actions);
    var s := Run(Init(cfg, now), actions);
    assert AttemptOk(s, s.attempts[k]);
    CompletingTx(s, s.attempts[k], choice);
  }

  lemma CompletingTx(s: Sys, a: Attempt, choice: Choice)
    requires a.Create? && AttemptOk(s, a) && !a.at.Completed? && Advanced(s, a, choice).at.Completed?
    ensures var db := AttemptTx(s, a, choice);
            a.id in db.sandboxes && db.sandboxes[a.id].status == Running
  {
    CreateCompletes(s.db, a, choice);
  }

  /** Over all the attempts of its create job, every CreateSandbox call for a
      sandbox goes to one and the same worker, the one it was assigned to. */
  lemma CreatesGoToOneWorker(cfg: Config, now: Time, actions: seq<Action>, id: Id, w: WorkerId, w': WorkerId)
    requires var s := Run(Init(cfg, now), actions); (w, id) in s.createCalls && (w', id) in s.createCalls
    ensures w == w'
    ensures var s := Run(Init(cfg, now), actions); id in s.owner && s.owner[id].w == w
  {
    Reached(cfg, now, actions);
    var s := Run(Init(cfg, now), actions);
    assert Owns(s, (w, id).0, (w, id).1) && Owns(s, (w', id).0, (w', id).1);
  }
}
