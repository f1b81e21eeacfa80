/** Runs in which what the code promises does not come about. */
module Counterexamples {
  import opened Collections
  import opened Tables
  import opened Cluster
  import opened Safety
  import Convergence
  import Tx = Transactions

  /** States a run may pass through: with each, all that one step leads to. */
  ghost predicate Closed(reach: iset<Sys>) {
    forall s, a :: s in reach ==> Step(s, a) in reach
  }

  /** One sandbox, one worker with room for it, and the attempts at hand. */
  ghost predicate Scene(s: Sys, w: WorkerId, id: Id, row: Sandbox, jobs: seq<Status>, attempts: map<nat, Attempt>,
                        exhausted: set<(Id, nat)>) {
    && s.db.sandboxes == map[id := row] && id in s.db.creates
    && w in s.db.workers && s.db.workers[w].capacity > 0
    && Jobs(s.db.cleanups, id) == jobs && s.attempts == attempts && s.exhausted == exhausted && s.confirmed == {}
  }

  /** The sandbox was given to `w`, and `w` hosts its VM. */
  predicate Given(s: Sys, w: WorkerId, id: Id) {
    id in s.owner && s.owner[id].w == w
  }

  predicate Boots(s: Sys, w: WorkerId, id: Id) {
    (w, id) in s.hosted && s.hosted[(w, id)] == VmStarting
  }

  function Row(status: Status, worker: Option<WorkerId>, seen: Option<Time>, at: Time): Sandbox {
    Sandbox(status, worker, seen, at, 0)
  }

  // ---- One step ----

  lemma CreateDoes(reach: iset<Sys>, s: Sys, w: WorkerId, id: Id, row: Sandbox, at: CreatePc, choice: Choice, row': Sandbox, at': CreatePc)
    returns (s': Sys)
    requires Closed(reach) && s in reach && Scene(s, w, id, row, [], map[0 := Create(id, true, at)], {}) && !choice.Rpc?
    requires CreateNext(s.db, id, true, at, choice) == at'
    requires (if Succeeds(choice) then CreateTx(s.db, id, at, s.now) else s.db) == s.db.(sandboxes := map[id := row'])
    ensures s' in reach && Scene(s', w, id, row', [], map[0 := Create(id, true, at')], {})
    ensures s'.now == s.now && s'.hosted == s.hosted
    ensures Assigns(s, Create(id, true, at), choice) && at == AssignTo(w) ==> Given(s', w, id)
  {
    s' := Step(s, JobStep(0, choice));
  }

  lemma CleanupDoes(reach: iset<Sys>, s: Sys, w: WorkerId, id: Id, row: Sandbox, jobs: seq<Status>, exhausted: set<(Id, nat)>,
                    k: nat, a: Attempt, choice: Choice, row': Sandbox, pc': CleanupPc) returns (s': Sys)
    requires Closed(reach) && s in reach && Scene(s, w, id, row, jobs, s.attempts, exhausted) && Given(s, w, id)
    requires k in s.attempts && s.attempts[k] == a && a.Cleanup? && a.id == id && choice != Rpc(Answered)
    requires CleanupNext(s.db, a, choice) == pc'
    requires (if Succeeds(choice) then CleanupTx(s.db, id, a.pc) else s.db) == s.db.(sandboxes := map[id := row'])
    ensures s' in reach && Scene(s', w, id, row', jobs, s.attempts[k := a.(pc := pc')], exhausted) && Given(s', w, id)
  {
    s' := Step(s, JobStep(k, choice));
  }

  lemma CleanupBegins(reach: iset<Sys>, s: Sys, w: WorkerId, id: Id, row: Sandbox, jobs: seq<Status>, exhausted: set<(Id, nat)>,
                      k: nat, job: nat, last: bool) returns (s': Sys)
    requires Closed(reach) && s in reach && Scene(s, w, id, row, jobs, s.attempts, exhausted) && Given(s, w, id)
    requires k !in s.attempts && job < |jobs| && (id, job) !in exhausted
    requires forall j <- s.attempts :: !AttemptsJob(s.attempts[j], id, job)
    ensures s' in reach && Given(s', w, id) && s'.hosted == s.hosted
    ensures Scene(s', w, id, row, jobs, s.attempts[k := Cleanup(id, job, jobs[job], last, ReadTarget)],
                  if last then exhausted + {(id, job)} else exhausted)
  {
    s' := Step(s, StartCleanup(k, id, job, last));
  }

  // ---- A create, overtaken by a delete ----

  lemma Inserted(reach: iset<Sys>, cfg: Config, now: Time, w: WorkerId, id: Id) returns (s: Sys)
    requires Closed(reach) && Init(cfg, now) in reach
    ensures s in reach && s.now == now && s.hosted == map[]
    ensures Scene(s, w, id, Row(Pending, None, None, now), [], map[0 := Create(id, true, ReadRow)], {})
  {
    s := Init(cfg, now);
    s := Step(s, Register(w, 0, Report(Up, 1)));
    s := Step(s, InsertSandbox(id, now, 0));
    s := Step(s, StartCreate(0, id, true));
  }

  lemma Scheduled(reach: iset<Sys>, cfg: Config, now: Time, w: WorkerId, id: Id) returns (s: Sys)
    requires Closed(reach) && Init(cfg, now) in reach
    ensures s in reach && s.now == now && s.hosted == map[]
    ensures Scene(s, w, id, Row(Scheduling, None, None, now), [], map[0 := Create(id, true, AssignTo(w))], {})
  {
    var pending, scheduling := Row(Pending, None, None, now), Row(Scheduling, None, None, now);
    s := Inserted(reach, cfg, now, w, id);
    s := CreateDoes(reach, s, w, id, pending, ReadRow, Proceed, pending, SetScheduling);
    s := CreateDoes(reach, s, w, id, pending, SetScheduling, Proceed, scheduling, ReadAgain);
    s := CreateDoes(reach, s, w, id, scheduling, ReadAgain, Proceed, scheduling, Choose);
    s := CreateDoes(reach, s, w, id, scheduling, Choose, Pick(w), scheduling, AssignTo(w));
  }

  lemma Assigned(reach: iset<Sys>, cfg: Config, now: Time, w: WorkerId, id: Id) returns (s: Sys)
    requires Closed(reach) && Init(cfg, now) in reach
    ensures s in reach && Given(s, w, id) && s.hosted == map[]
    ensures Scene(s, w, id, Row(Status.Assigned, Some(w), Some(now), now), [], map[0 := Create(id, true, CallCreate(w))], {})
  {
    s := Scheduled(reach, cfg, now, w, id);
    var scheduling, linked := Row(Scheduling, None, None, now), Row(Status.Assigned, Some(w), Some(now), now);
    assert Occupants(s.db.sandboxes, w) == {};
    s := CreateDoes(reach, s, w, id, scheduling, AssignTo(w), Proceed, linked, CallCreate(w));
  }

  lemma Claimed(reach: iset<Sys>, cfg: Config, now: Time, w: WorkerId, id: Id) returns (s: Sys)
    requires Closed(reach) && Init(cfg, now) in reach
    ensures s in reach && Given(s, w, id) && s.hosted == map[]
    ensures Scene(s, w, id, Row(CleanupPending, Some(w), Some(now), now), [Stopped], map[0 := Create(id, true, CallCreate(w))], {})
  {
    s := Assigned(reach, cfg, now, w, id);
    s := Step(s, DeleteSandbox(id));
  }

  /** The user deletes the sandbox while its create calls the worker. The call takes
      effect, but its answer is lost. */
  lemma Deleted(reach: iset<Sys>, cfg: Config, now: Time, w: WorkerId, id: Id) returns (s: Sys)
    requires Closed(reach) && Init(cfg, now) in reach
    ensures s in reach && Given(s, w, id) && Boots(s, w, id)
    ensures Scene(s, w, id, Row(CleanupPending, Some(w), Some(now), now), [Stopped], map[0 := Create(id, true, Fail(true))], {})
  {
    s := Claimed(reach, cfg, now, w, id);
    s := Step(s, JobStep(0, Rpc(Unanswered)));
  }

  lemma GivenUp(reach: iset<Sys>, cfg: Config, now: Time, w: WorkerId, id: Id) returns (s: Sys)
    requires Closed(reach) && Init(cfg, now) in reach
    ensures s in reach && Given(s, w, id)
    ensures Scene(s, w, id, Row(CleanupPending, Some(w), Some(now), now), [Stopped, Failed], map[0 := Create(id, true, Cancelled)], {})
  {
    s := Deleted(reach, cfg, now, w, id);
    s := Step(s, JobStep(0, Proceed));
  }

  // ---- Stopped without the worker's word ----

  /** The second job is in its last attempt, and calls the worker. */
  lemma CallsAgain(reach: iset<Sys>, cfg: Config, now: Time, w: WorkerId, id: Id) returns (s: Sys)
    requires Closed(reach) && Init(cfg, now) in reach
    ensures s in reach && Given(s, w, id)
    ensures Scene(s, w, id, Row(CleanupPending, Some(w), Some(now), now), [Stopped, Failed],
                  map[0 := Create(id, true, Cancelled), 1 := Cleanup(id, 1, Failed, true, CallRemove(w))], {(id, 1)})
  {
    s := GivenUp(reach, cfg, now, w, id);
    var linked, jobs := Row(CleanupPending, Some(w), Some(now), now), [Stopped, Failed];
    var a := Cleanup(id, 1, Failed, true, ReadTarget);
    s := CleanupBegins(reach, s, w, id, linked, jobs, {}, 1, 1, true);
    s := CleanupDoes(reach, s, w, id, linked, jobs, {(id, 1)}, 1, a, Proceed, linked, CallRemove(w));
    assert s.attempts == map[0 := Create(id, true, Cancelled), 1 := a.(pc := CallRemove(w))];
  }

  /** It gets no answer, gives up and drops the link. */
  lemma Unlinked(reach: iset<Sys>, cfg: Config, now: Time, w: WorkerId, id: Id) returns (s: Sys)
    requires Closed(reach) && Init(cfg, now) in reach
    ensures s in reach && Given(s, w, id)
    ensures Scene(s, w, id, Row(CleanupPending, None, Some(now), now), [Stopped, Failed],
                  map[0 := Create(id, true, Cancelled), 1 := Cleanup(id, 1, Failed, true, Finish(Failed))], {(id, 1)})
  {
    s := CallsAgain(reach, cfg, now, w, id);
    var linked, unlinked := Row(CleanupPending, Some(w), Some(now), now), Row(CleanupPending, None, Some(now), now);
    var jobs, ended, a := [Stopped, Failed], Create(id, true, Cancelled), Cleanup(id, 1, Failed, true, CallRemove(w));
    s := CleanupDoes(reach, s, w, id, linked, jobs, {(id, 1)}, 1, a, Rpc(Lost), linked, Unlink(Failed));
    s := CleanupDoes(reach, s, w, id, linked, jobs, {(id, 1)}, 1, a.(pc := Unlink(Failed)), Proceed, unlinked, Finish(Failed));
    assert s.attempts == map[0 := ended, 1 := a.(pc := Finish(Failed))];
  }

  /** The first job then finds no link left, and stops the sandbox. */
  lemma Stops(reach: iset<Sys>, cfg: Config, now: Time, w: WorkerId, id: Id) returns (s: Sys)
    requires Closed(reach) && Init(cfg, now) in reach
    ensures s in reach && Given(s, w, id) && s.confirmed == {}
    ensures id in s.db.sandboxes && s.db.sandboxes[id].status == Stopped && Jobs(s.db.cleanups, id) == [Stopped, Failed]
  {
    s := Unlinked(reach, cfg, now, w, id);
    var unlinked, stopped := Row(CleanupPending, None, Some(now), now), Row(Stopped, None, Some(now), now);
    var jobs, a := [Stopped, Failed], Cleanup(id, 0, Stopped, false, ReadTarget);
    s := CleanupBegins(reach, s, w, id, unlinked, jobs, {(id, 1)}, 2, 0, false);
    s := CleanupDoes(reach, s, w, id, unlinked, jobs, {(id, 1)}, 2, a, Proceed, unlinked, Finish(Stopped));
    s := CleanupDoes(reach, s, w, id, unlinked, jobs, {(id, 1)}, 2, a.(pc := Finish(Stopped)), Proceed, stopped, Ended);
  }

  ghost predicate Reached(cfg: Config, now: Time, s: Sys) {
    exists actions :: Run(Init(cfg, now), actions) == s
  }

  lemma ReachedNext(cfg: Config, now: Time, s: Sys, a: Action)
    requires Reached(cfg, now, s)
    ensures Reached(cfg, now, Step(s, a))
  {
    var actions :| Run(Init(cfg, now), actions) == s;
    RunAppend(Init(cfg, now), actions, [a]);
    assert [a][1..] == [];
    assert Run(Init(cfg, now), actions + [a]) == Step(s, a);
  }

  lemma RunsAreClosed(cfg: Config, now: Time) returns (reach: iset<Sys>)
    ensures Closed(reach) && Init(cfg, now) in reach && forall s <- reach :: Reached(cfg, now, s)
  {
    reach := iset s: Sys | Reached(cfg, now, s);
    assert Run(Init(cfg, now), []) == Init(cfg, now);
    forall s, a | s in reach ensures Step(s, a) in reach {
      ReachedNext(cfg, now, s, a);
    }
  }

  /** A sandbox can be stopped though its worker never confirmed its removal: when the
      delete that asked for it overtook a create that then failed for good, so that it
      has a second cleanup job, and that one gave up. */
  lemma StoppedUnconfirmed(cfg: Config, now: Time, w: WorkerId, id: Id) returns (actions: seq<Action>)
    ensures var s := Run(Init(cfg, now), actions);
            && id in s.owner && s.owner[id].w == w && (w, id) !in s.confirmed
            && id in s.db.sandboxes && s.db.sandboxes[id].status == Stopped && Jobs(s.db.cleanups, id) == [Stopped, Failed]
  {
    var reach := RunsAreClosed(cfg, now);
    var s := Stops(reach, cfg, now, w, id);
    actions :| Run(Init(cfg, now), actions) == s;
  }

  // ---- A cleanup cut short for good ----

  /** The only cleanup job is interrupted in its last attempt. Its sandbox is stuck, with
      its VM alive, and no round brings the two together again. */
  lemma CleanupCutShort(cfg: Config, now: Time, w: WorkerId, id: Id) returns (actions: seq<Action>)
    ensures var s := Run(Init(cfg, now), actions);
            Convergence.Stuck(s, w, id) && Convergence.HostsAlive(s.hosted, w, id) && s.attempts == map[]
  {
    var reach := RunsAreClosed(cfg, now);
    var s := CutShort(reach, cfg, now, w, id);
    actions :| Run(Init(cfg, now), actions) == s;
  }

  lemma CutShort(reach: iset<Sys>, cfg: Config, now: Time, w: WorkerId, id: Id) returns (s: Sys)
    requires Closed(reach) && Init(cfg, now) in reach
    ensures s in reach && Convergence.Stuck(s, w, id) && Convergence.HostsAlive(s.hosted, w, id) && s.attempts == map[]
  {
    s := Deleted(reach, cfg, now, w, id);
    var row := Row(CleanupPending, Some(w), Some(now), now);
    s := CleanupBegins(reach, s, w, id, row, [Stopped], {}, 1, 0, true);
    s := Step(s, Interrupt(1));
    s := Step(s, Interrupt(0));
    assert Scene(s, w, id, row, [Stopped], map[], {(id, 0)});
  }
}
