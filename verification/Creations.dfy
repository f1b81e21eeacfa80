/** The create job: what an assignment answers and where the job goes from there, that a
    sandbox is starting only once its worker has taken it, and that a create nothing
    disturbs brings it up. */
module Creations {
  import opened Collections
  import opened Tables
  import opened Cluster
  import opened Lifecycle
  import opened Invariants
  import Rules
  import Tx = Transactions

  // ---- Where an attempt goes ----

  predicate Stands(s: Sys, k: nat, id: Id, last: bool, at: CreatePc) {
    k in s.attempts && s.attempts[k] == Create(id, last, at)
  }

  /** An attempt that asked for worker `w` chooses again only if `w` is full, reads the
      row again only if it left scheduling, and calls the worker only if it was given. */
  lemma AssignmentGoesOn(s: Sys, k: nat, id: Id, last: bool, w: WorkerId, choice: Choice)
    requires Stands(s, k, id, last, AssignTo(w))
    ensures var next := AttemptsAfter(s, JobStep(k, choice));
            && k in next && next[k].Create?
            && (next[k].at == Choose <==> choice == Proceed && Rules.Answers(s.db, id, w, Tx.WorkerFull))
            && (next[k].at == ReadMoved <==> choice == Proceed && Rules.Answers(s.db, id, w, Tx.Moved))
            && (next[k].at == CallCreate(w) <==> choice == Proceed && Rules.Answers(s.db, id, w, Tx.AssignedTo))
            && (next[k].at in {Choose, ReadMoved, CallCreate(w)} || next[k].at == Fail(last))
  {
    var answer := Tx.AssignAnswerFor(s.db, id, w);
    Rules.AssignAnswers(s.db, id, w, Tx.WorkerFull);
    Rules.AssignAnswers(s.db, id, w, Tx.Moved);
    Rules.AssignAnswers(s.db, id, w, Tx.AssignedTo);
  }

  /** Where a new attempt takes up the work: where the row says it was left. */
  predicate TakenUp(s: Sys, id: Id, at: CreatePc) {
    && id in s.db.sandboxes
    && match s.db.sandboxes[id].status
       case Pending => at == SetScheduling
       case Scheduling => at == Choose
       case Assigned => id in s.owner && at == CallCreate(s.owner[id].w)
       case Starting => at == Acknowledge
       case Running => at == Completed
       case _ => at == Cancelled
  }

  lemma ReadTakesUp(s: Sys, k: nat, id: Id, last: bool)
    requires Stands(s, k, id, last, ReadRow) && id in s.db.sandboxes && SandboxOk(s, id)
    ensures TakesUpNext(s, k, id)
  {
  }

  predicate TakesUpNext(s: Sys, k: nat, id: Id) {
    var next := AttemptsAfter(s, JobStep(k, Proceed));
    k in next && next[k].Create? && TakenUp(s, id, next[k].at)
  }

  lemma BegunOk(s: Sys, k: nat, id: Id, last: bool)
    requires Inv(s) && Stands(s, k, id, last, ReadRow)
    ensures id in s.db.sandboxes && SandboxOk(s, id)
  {
    assert AttemptOk(s, s.attempts[k]);
  }

  lemma TakesUp(cfg: Config, now: Time, actions: seq<Action>, s: Sys, k: nat, id: Id, last: bool)
    requires s == Run(Init(cfg, now), actions) && Stands(s, k, id, last, ReadRow)
    ensures TakesUpNext(s, k, id)
  {
    InitInv(cfg, now);
    RunInv(Init(cfg, now), actions);
    BegunOk(s, k, id, last);
    ReadTakesUp(s, k, id, last);
  }

  /** Whatever call fails, the attempt goes to its failure path; only the first read
      leaves without it. */
  lemma FailsInOnePlace(s: Sys, k: nat, id: Id, last: bool, at: CreatePc, choice: Choice)
    requires Stands(s, k, id, last, at) && !(at.ReadRow? || at.Fail? || at.Completed? || at.Cancelled? || at.Errored?)
    requires choice in {DbFails, DbUnsure, NoCandidate, Rpc(Lost), Rpc(Unanswered)}
    ensures var next := AttemptsAfter(s, JobStep(k, choice)); k in next && next[k] == Create(id, last, Fail(last))
  {
  }

  /** The failure path gives up on the last attempt and when the cluster is full: the
      sandbox is past running then, with a cleanup job more. Otherwise it changes nothing. */
  lemma GivesUp(s: Sys, k: nat, id: Id, last: bool, giveUp: bool)
    requires Stands(s, k, id, last, Fail(giveUp)) && id in s.db.sandboxes
    ensures var next, db := AttemptsAfter(s, JobStep(k, Proceed)), DbAfter(s, JobStep(k, Proceed));
            && k in next && next[k] == Create(id, last, if giveUp then Cancelled else Errored)
            && (giveUp ==>
                  && id in db.sandboxes && PastRunning(db.sandboxes[id].status)
                  && Jobs(db.cleanups, id) == Jobs(s.db.cleanups, id) + [Failed])
            && (!giveUp ==> db == s.db)
  {
  }

  /** A full cluster ends the job at once, whatever attempt it is. */
  lemma FullGivesUp(s: Sys, k: nat, id: Id, last: bool)
    requires Stands(s, k, id, last, Choose)
    ensures var next := AttemptsAfter(s, JobStep(k, ClusterFull)); k in next && next[k] == Create(id, last, Fail(true))
  {
  }

  /** A worker's word that a sandbox runs counts from the worker it is linked to, under
      its current token, and for a sandbox that is starting. */
  lemma EventConfirms(s: Sys, w: WorkerId, token: int, id: Id, other: Id)
    requires id in s.db.sandboxes && other in s.db.sandboxes
    ensures var db, r := DbAfter(s, DeliverEvent(w, token, id)), s.db.sandboxes[id];
            var heard := r.worker == Some(w) && w in s.db.workers && s.db.workers[w].token == token && r.status == Starting;
            && db == s.db.(sandboxes := db.sandboxes) && db.sandboxes.Keys == s.db.sandboxes.Keys
            && db.sandboxes[id] == (if heard then r.(status := Running) else r)
            && (other != id ==> db.sandboxes[other] == s.db.sandboxes[other])
  {
  }

  // ---- Starting means taken ----

  /** The creates a worker has answered in this step. */
  function AnsweredIn(s: Sys, a: Action): set<(WorkerId, Id)> {
    if a.JobStep? && a.k in s.attempts && CallsCreate(s.attempts[a.k], a.choice) && a.choice.outcome == Answered
    then {(s.attempts[a.k].at.w, s.attempts[a.k].id)} else {}
  }

  function AnsweredBy(s: Sys, actions: seq<Action>): set<(WorkerId, Id)>
    decreases actions
  {
    if actions == [] then {} else AnsweredIn(s, actions[0]) + AnsweredBy(Step(s, actions[0]), actions[1..])
  }

  lemma AnsweredIsHosted(s: Sys, a: Action, c: (WorkerId, Id))
    requires c in AnsweredIn(s, a)
    ensures c in HostedAfter(s, a)
  {
  }

  predicate Taken(s: Sys, id: Id, answered: set<(WorkerId, Id)>) {
    id in s.owner && (s.owner[id].w, id) in answered
  }

  predicate StartedOk(s: Sys, answered: set<(WorkerId, Id)>) {
    && (forall id <- s.db.sandboxes :: s.db.sandboxes[id].status in {Starting, Running} ==> Taken(s, id, answered))
    && (forall k <- s.attempts :: s.attempts[k].Create? && s.attempts[k].at.SetStarting? ==> Taken(s, s.attempts[k].id, answered))
  }

  lemma TakenStays(s: Sys, s': Sys, id: Id, answered: set<(WorkerId, Id)>, more: set<(WorkerId, Id)>)
    requires Extends(s, s') && Taken(s, id, answered)
    ensures Taken(s', id, answered + more)
  {
  }

  /** Nothing but the step behind an answered create makes a row starting. */
  lemma OnlySetStarting(s: Sys, a: Action, id: Id)
    requires AttemptsOk(s) && id in s.db.sandboxes && id in s.known
    requires id in DbAfter(s, a).sandboxes && DbAfter(s, a).sandboxes[id].status in {Starting, Running}
    requires s.db.sandboxes[id].status !in {Starting, Running}
    ensures a.JobStep? && a.k in s.attempts && s.attempts[a.k].Create? && s.attempts[a.k].at.SetStarting? && s.attempts[a.k].id == id
  {
    StepMoves(s, a, id);
    MovesToStarting(s.db, DbAfter(s, a), id, s.now);
    if a.JobStep? {
      if a.k in s.attempts { AttemptSetsStarting(s, s.attempts[a.k], a.choice, id); }
    } else {
      OthersStartNone(s, a, id);
    }
  }

  lemma MovesToStarting(db: Db, db': Db, id: Id, now: Time)
    requires id in db.sandboxes && Moves(db, db', id, now)
    requires db.sandboxes[id].status !in {Starting, Running} && db'.sandboxes[id].status in {Starting, Running}
    ensures db.sandboxes[id].status == Assigned && db'.sandboxes[id].status == Starting
  {
  }

  lemma AttemptSetsStarting(s: Sys, a: Attempt, choice: Choice, id: Id)
    requires id in s.db.sandboxes && s.db.sandboxes[id].status == Assigned && AttemptOk(s, a)
    requires id in AttemptTx(s, a, choice).sandboxes && AttemptTx(s, a, choice).sandboxes[id].status == Starting
    ensures a.Create? && a.at.SetStarting? && a.id == id
  {
  }

  lemma OthersStartNone(s: Sys, a: Action, id: Id)
    requires !a.JobStep? && id in s.db.sandboxes && s.db.sandboxes[id].status == Assigned && id in s.known
    requires id in DbAfter(s, a).sandboxes
    ensures DbAfter(s, a).sandboxes[id].status != Starting
  {
  }

  /** An attempt is about to set its row starting only right behind an answered create. */
  lemma ReachesSetStarting(s: Sys, a: Action, k: nat)
    requires AttemptsOk(s) && k in AttemptsAfter(s, a) && AttemptsAfter(s, a)[k].Create? && AttemptsAfter(s, a)[k].at.SetStarting?
    requires !(k in s.attempts && s.attempts[k] == AttemptsAfter(s, a)[k])
    ensures a.JobStep? && a.k == k && k in s.attempts && s.attempts[k].Create? && s.attempts[k].at.CallCreate?
    ensures AttemptsAfter(s, a)[k].id == s.attempts[k].id && Owns(s, s.attempts[k].at.w, s.attempts[k].id)
    ensures AnsweredIn(s, a) == {(s.attempts[k].at.w, s.attempts[k].id)}
  {
    if k in s.attempts { assert AttemptOk(s, s.attempts[k]); }
  }

  lemma StepStartedRow(s: Sys, a: Action, s': Sys, answered: set<(WorkerId, Id)>, id: Id)
    requires Inv(s) && StartedOk(s, answered) && Extends(s, s') && s'.db == DbAfter(s, a)
    requires id in s'.db.sandboxes && s'.db.sandboxes[id].status in {Starting, Running}
    ensures Taken(s', id, answered + AnsweredIn(s, a))
  {
    if id !in s.db.sandboxes {
      StepKeys(s, a, id);
    } else {
      assert SandboxOk(s, id);
      if s.db.sandboxes[id].status !in {Starting, Running} { OnlySetStarting(s, a, id); }
      TakenStays(s, s', id, answered, AnsweredIn(s, a));
    }
  }

  lemma StepStartedAttempt(s: Sys, a: Action, s': Sys, answered: set<(WorkerId, Id)>, k: nat)
    requires AttemptsOk(s) && StartedOk(s, answered) && Extends(s, s') && s'.attempts == AttemptsAfter(s, a)
    requires k in s'.attempts && s'.attempts[k].Create? && s'.attempts[k].at.SetStarting?
    ensures Taken(s', s'.attempts[k].id, answered + AnsweredIn(s, a))
  {
    if k in s.attempts && s.attempts[k] == s'.attempts[k] {
      TakenStays(s, s', s.attempts[k].id, answered, AnsweredIn(s, a));
    } else {
      ReachesSetStarting(s, a, k);
    }
  }

  lemma StepStarted(s: Sys, a: Action, answered: set<(WorkerId, Id)>)
    requires Inv(s) && StartedOk(s, answered)
    ensures StartedOk(Step(s, a), answered + AnsweredIn(s, a))
  {
    var s' := Step(s, a);
    StepInv(s, a);
    forall id | id in s'.db.sandboxes && s'.db.sandboxes[id].status in {Starting, Running}
      ensures Taken(s', id, answered + AnsweredIn(s, a))
    {
      StepStartedRow(s, a, s', answered, id);
    }
    forall k | k in s'.attempts && s'.attempts[k].Create? && s'.attempts[k].at.SetStarting?
      ensures Taken(s', s'.attempts[k].id, answered + AnsweredIn(s, a))
    {
      StepStartedAttempt(s, a, s', answered, k);
    }
  }

  lemma {:induction false} RunStarted(s: Sys, actions: seq<Action>, answered: set<(WorkerId, Id)>)
    requires Inv(s) && StartedOk(s, answered)
    ensures StartedOk(Run(s, actions), answered + AnsweredBy(s, actions))
    decreases actions
  {
    if actions == [] {
      assert answered + {} == answered;
    } else {
      StepInv(s, actions[0]);
      StepStarted(s, actions[0], answered);
      RunStarted(Step(s, actions[0]), actions[1..], answered + AnsweredIn(s, actions[0]));
      assert answered + AnsweredIn(s, actions[0]) + AnsweredBy(Step(s, actions[0]), actions[1..]) == answered + AnsweredBy(s, actions);
    }
  }

  /** In every run, a sandbox is starting or running only once the worker it was given to
      has answered its create, and so has hosted it. */
  lemma StartedWasTaken(cfg: Config, now: Time, actions: seq<Action>, id: Id)
    ensures var s := Run(Init(cfg, now), actions);
            id in s.db.sandboxes && s.db.sandboxes[id].status in {Starting, Running} ==>
              id in s.owner && (s.owner[id].w, id) in AnsweredBy(Init(cfg, now), actions)
  {
    InitInv(cfg, now);
    RunStarted(Init(cfg, now), actions, {});
  }

  // ---- A create that nothing disturbs ----

  function Walk(s: Sys, k: nat, choices: seq<Choice>): Sys
    decreases |choices|
  {
    if choices == [] then s else Walk(Step(s, JobStep(k, choices[0])), k, choices[1..])
  }

  lemma WalkOn(s: Sys, k: nat, choice: Choice, rest: seq<Choice>)
    ensures Walk(s, k, [choice] + rest) == Walk(Step(s, JobStep(k, choice)), k, rest)
  {
    assert ([choice] + rest)[1..] == rest;
  }

  lemma StepDoes(s: Sys, k: nat, id: Id, last: bool, at: CreatePc, choice: Choice)
    requires Stands(s, k, id, last, at)
    ensures var s' := Step(s, JobStep(k, choice));
            && Stands(s', k, id, last, CreateNext(s.db, id, last, at, choice))
            && s'.db == (if Succeeds(choice) then CreateTx(s.db, id, at, s.now) else s.db) && s'.now == s.now
            && (!choice.Rpc? ==> s'.hosted == s.hosted)
            && (at.CallCreate? && choice == Rpc(Answered) ==> s'.hosted == Boot(s.hosted, at.w, id))
  {
  }

  predicate Ready(s: Sys, k: nat, id: Id, last: bool, at: CreatePc, row: Sandbox) {
    Stands(s, k, id, last, at) && id in s.db.sandboxes && s.db.sandboxes[id] == row
  }

  /** The attempt is complete, the sandbox runs on `w`, and `w` hosts it. */
  predicate IsUp(s: Sys, k: nat, id: Id, last: bool, w: WorkerId, row: Sandbox) {
    Ready(s, k, id, last, Completed, row.(status := Running)) && (w, id) in s.hosted
  }

  lemma FromSetRunning(s: Sys, k: nat, id: Id, last: bool, w: WorkerId, row: Sandbox)
    requires Ready(s, k, id, last, SetRunning, row) && row.status == Starting && (w, id) in s.hosted
    ensures IsUp(Walk(s, k, [Proceed]), k, id, last, w, row)
  {
    StepDoes(s, k, id, last, SetRunning, Proceed);
    WalkOn(s, k, Proceed, []);
  }

  lemma FromAcknowledge(s: Sys, k: nat, id: Id, last: bool, w: WorkerId, row: Sandbox)
    requires Ready(s, k, id, last, Acknowledge, row) && row.status == Starting && (w, id) in s.hosted
    ensures IsUp(Walk(s, k, [Proceed] + [Proceed]), k, id, last, w, row)
  {
    StepDoes(s, k, id, last, Acknowledge, Proceed);
    FromSetRunning(Step(s, JobStep(k, Proceed)), k, id, last, w, row);
    WalkOn(s, k, Proceed, [Proceed]);
  }

  lemma FromSetStarting(s: Sys, k: nat, id: Id, last: bool, w: WorkerId, row: Sandbox)
    requires Ready(s, k, id, last, SetStarting, row) && row.status == Assigned && (w, id) in s.hosted
    ensures IsUp(Walk(s, k, [Proceed] + ([Proceed] + [Proceed])), k, id, last, w, row)
  {
    StepDoes(s, k, id, last, SetStarting, Proceed);
    FromAcknowledge(Step(s, JobStep(k, Proceed)), k, id, last, w, row.(status := Starting));
    WalkOn(s, k, Proceed, [Proceed] + [Proceed]);
  }

  /** The attempt is over, as the row is: complete if it runs, cancelled if it is past
      that. */
  predicate Over(s: Sys, k: nat, id: Id, last: bool) {
    && id in s.db.sandboxes
    && ((Stands(s, k, id, last, Completed) && s.db.sandboxes[id].status == Running)
        || (Stands(s, k, id, last, Cancelled) && PastRunning(s.db.sandboxes[id].status)))
  }

  predicate OnItsWay(row: Sandbox) {
    row.status == Starting || row.status == Running || PastRunning(row.status)
  }

  lemma OverStays(s: Sys, k: nat, id: Id, last: bool)
    requires Over(s, k, id, last)
    ensures Over(Step(s, JobStep(k, Proceed)), k, id, last)
  {
    StepDoes(s, k, id, last, s.attempts[k].at, Proceed);
  }

  lemma FromReadMoved(s: Sys, k: nat, id: Id, last: bool, row: Sandbox)
    requires Ready(s, k, id, last, ReadMoved, row) && (row.status == Running || PastRunning(row.status))
    ensures Over(Step(s, JobStep(k, Proceed)), k, id, last)
  {
    StepDoes(s, k, id, last, ReadMoved, Proceed);
  }

  lemma SetRunningOver(s: Sys, k: nat, id: Id, last: bool, row: Sandbox)
    requires Ready(s, k, id, last, SetRunning, row) && OnItsWay(row)
    ensures Over(Step(Step(s, JobStep(k, Proceed)), JobStep(k, Proceed)), k, id, last)
  {
    StepDoes(s, k, id, last, SetRunning, Proceed);
    if row.status == Starting {
      OverStays(Step(s, JobStep(k, Proceed)), k, id, last);
    } else {
      FromReadMoved(Step(s, JobStep(k, Proceed)), k, id, last, row);
    }
  }

  /** An attempt that finds its row scheduled by another reads it again, and ends as it
      has, or on the failure path while it is still on its way. */
  lemma OvertakenWhileScheduling(s: Sys, k: nat, id: Id, last: bool, row: Sandbox)
    requires Ready(s, k, id, last, SetScheduling, row) && row.status != Pending
    ensures var s' := Step(Step(s, JobStep(k, Proceed)), JobStep(k, Proceed));
            if row.status == Running || PastRunning(row.status) then Over(s', k, id, last)
            else Ready(s', k, id, last, Fail(last), row)
  {
    StepDoes(s, k, id, last, SetScheduling, Proceed);
    var next := Step(s, JobStep(k, Proceed));
    StepDoes(next, k, id, last, ReadMoved, Proceed);
  }

  lemma AcknowledgeOver(s: Sys, k: nat, id: Id, last: bool, row: Sandbox)
    requires Ready(s, k, id, last, Acknowledge, row) && OnItsWay(row)
    ensures Over(Walk(s, k, [Proceed] + ([Proceed] + ([Proceed] + []))), k, id, last)
  {
    var next := Step(s, JobStep(k, Proceed));
    StepDoes(s, k, id, last, Acknowledge, Proceed);
    WalkOn(s, k, Proceed, [Proceed] + ([Proceed] + []));
    WalkOn(next, k, Proceed, [Proceed] + []);
    WalkOn(Step(next, JobStep(k, Proceed)), k, Proceed, []);
    if row.status == Starting {
      SetRunningOver(next, k, id, last, row);
    } else {
      OverStays(next, k, id, last);
      OverStays(Step(next, JobStep(k, Proceed)), k, id, last);
    }
  }

  /** Whatever other attempts, events and deletes did to the row meanwhile: an attempt
      whose worker has taken the sandbox, and that is not disturbed any more, is complete
      with it running, or cancelled with it past that. */
  lemma EndsAsTheRowDoes(s: Sys, k: nat, id: Id, last: bool, row: Sandbox)
    requires Ready(s, k, id, last, SetStarting, row) && (OnItsWay(row) || row.status == Assigned)
    ensures Over(Walk(s, k, [Proceed] + ([Proceed] + ([Proceed] + ([Proceed] + [])))), k, id, last)
  {
    StepDoes(s, k, id, last, SetStarting, Proceed);
    WalkOn(s, k, Proceed, [Proceed] + ([Proceed] + ([Proceed] + [])));
    var next := Step(s, JobStep(k, Proceed));
    AcknowledgeOver(next, k, id, last, next.db.sandboxes[id]);
  }

  /** What is left of an undisturbed create once its sandbox is assigned. */
  const AfterAssigned: seq<Choice> := [Rpc(Answered)] + ([Proceed] + ([Proceed] + [Proceed]))

  lemma FromCallCreate(s: Sys, k: nat, id: Id, last: bool, w: WorkerId, row: Sandbox)
    requires Ready(s, k, id, last, CallCreate(w), row) && row.status == Assigned
    ensures IsUp(Walk(s, k, AfterAssigned), k, id, last, w, row)
  {
    StepDoes(s, k, id, last, CallCreate(w), Rpc(Answered));
    FromSetStarting(Step(s, JobStep(k, Rpc(Answered))), k, id, last, w, row);
    WalkOn(s, k, Rpc(Answered), [Proceed] + ([Proceed] + [Proceed]));
  }

  /** The row as its assignment leaves it. */
  function Given(row: Sandbox, w: WorkerId, now: Time): Sandbox {
    row.(status := Assigned, worker := Some(w), lastSeen := Some(now))
  }

  lemma FromAssignTo(s: Sys, k: nat, id: Id, last: bool, w: WorkerId, row: Sandbox)
    requires Ready(s, k, id, last, AssignTo(w), row) && Rules.Answers(s.db, id, w, Tx.AssignedTo)
    ensures IsUp(Walk(s, k, [Proceed] + AfterAssigned), k, id, last, w, Given(row, w, s.now))
  {
    Rules.AssignAnswers(s.db, id, w, Tx.AssignedTo);
    StepDoes(s, k, id, last, AssignTo(w), Proceed);
    FromCallCreate(Step(s, JobStep(k, Proceed)), k, id, last, w, Given(row, w, s.now));
    WalkOn(s, k, Proceed, AfterAssigned);
  }

  lemma FromChoose(s: Sys, k: nat, id: Id, last: bool, w: WorkerId, row: Sandbox)
    requires Ready(s, k, id, last, Choose, row) && Rules.Answers(s.db, id, w, Tx.AssignedTo)
    ensures IsUp(Walk(s, k, [Pick(w)] + ([Proceed] + AfterAssigned)), k, id, last, w, Given(row, w, s.now))
  {
    StepDoes(s, k, id, last, Choose, Pick(w));
    FromAssignTo(Step(s, JobStep(k, Pick(w))), k, id, last, w, row);
    WalkOn(s, k, Pick(w), [Proceed] + AfterAssigned);
  }

  lemma FromReadAgain(s: Sys, k: nat, id: Id, last: bool, w: WorkerId, row: Sandbox)
    requires Ready(s, k, id, last, ReadAgain, row) && row.worker.None? && Rules.Answers(s.db, id, w, Tx.AssignedTo)
    ensures IsUp(Walk(s, k, [Proceed] + ([Pick(w)] + ([Proceed] + AfterAssigned))), k, id, last, w, Given(row, w, s.now))
  {
    StepDoes(s, k, id, last, ReadAgain, Proceed);
    FromChoose(Step(s, JobStep(k, Proceed)), k, id, last, w, row);
    WalkOn(s, k, Proceed, [Pick(w)] + ([Proceed] + AfterAssigned));
  }

  lemma SchedulingKeepsRoom(db: Db, id: Id, w: WorkerId)
    requires id in db.sandboxes && db.sandboxes[id].status == Pending
    requires w in db.workers && |Rules.Held(db.sandboxes, w)| < db.workers[w].capacity
    ensures Rules.Answers(Tx.SetStatus(db, id, Scheduling, {Pending}), id, w, Tx.AssignedTo)
  {
    assert Rules.Held(Tx.SetStatus(db, id, Scheduling, {Pending}).sandboxes, w) == Rules.Held(db.sandboxes, w);
  }

  lemma FromSetScheduling(s: Sys, k: nat, id: Id, last: bool, w: WorkerId, row: Sandbox)
    requires Ready(s, k, id, last, SetScheduling, row) && row.status == Pending && row.worker.None?
    requires w in s.db.workers && |Rules.Held(s.db.sandboxes, w)| < s.db.workers[w].capacity
    ensures IsUp(Walk(s, k, [Proceed] + ([Proceed] + ([Pick(w)] + ([Proceed] + AfterAssigned)))), k, id, last, w, Given(row, w, s.now))
  {
    StepDoes(s, k, id, last, SetScheduling, Proceed);
    SchedulingKeepsRoom(s.db, id, w);
    FromReadAgain(Step(s, JobStep(k, Proceed)), k, id, last, w, row.(status := Scheduling));
    WalkOn(s, k, Proceed, [Proceed] + ([Pick(w)] + ([Proceed] + AfterAssigned)));
  }

  /** The choices of a create that nothing disturbs and that is given worker `w`. */
  function Undisturbed(w: WorkerId): seq<Choice> {
    [Proceed] + ([Proceed] + ([Proceed] + ([Pick(w)] + ([Proceed] + AfterAssigned))))
  }

  lemma FromReadRow(s: Sys, k: nat, id: Id, last: bool, w: WorkerId, row: Sandbox)
    requires Ready(s, k, id, last, ReadRow, row) && row.status == Pending && row.worker.None?
    requires w in s.db.workers && |Rules.Held(s.db.sandboxes, w)| < s.db.workers[w].capacity
    ensures IsUp(Walk(s, k, Undisturbed(w)), k, id, last, w, Given(row, w, s.now))
  {
    StepDoes(s, k, id, last, ReadRow, Proceed);
    FromSetScheduling(Step(s, JobStep(k, Proceed)), k, id, last, w, row);
    WalkOn(s, k, Proceed, [Proceed] + ([Proceed] + ([Pick(w)] + ([Proceed] + AfterAssigned))));
  }

  /** From every reachable state, an attempt that stands at its beginning for a pending
      sandbox, is given a worker with room, and is not disturbed, ends with the sandbox
      running on that worker and hosted by it. */
  lemma CreateBringsUp(cfg: Config, now: Time, actions: seq<Action>, s: Sys, k: nat, id: Id, last: bool, w: WorkerId)
    requires s == Run(Init(cfg, now), actions) && Stands(s, k, id, last, ReadRow)
    requires id in s.db.sandboxes && s.db.sandboxes[id].status == Pending
    requires w in s.db.workers && |Rules.Held(s.db.sandboxes, w)| < s.db.workers[w].capacity
    ensures var s', row := Walk(s, k, Undisturbed(w)), s.db.sandboxes[id];
            && Stands(s', k, id, last, Completed) && (w, id) in s'.hosted
            && id in s'.db.sandboxes && s'.db.sandboxes[id] == row.(status := Running, worker := Some(w), lastSeen := Some(s.now))
  {
    InitInv(cfg, now);
    RunInv(Init(cfg, now), actions);
    assert SandboxOk(s, id);
    FromReadRow(s, k, id, last, w, s.db.sandboxes[id]);
  }
}
