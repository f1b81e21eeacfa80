/** The cleanup job: what an attempt that nothing disturbs comes to, and what one that
    gets no answer leaves. */
module Cleanups {
  import opened Collections
  import opened Tables
  import opened Cluster
  import opened Invariants
  import Creations

  predicate Stands(s: Sys, k: nat, a: Attempt, pc: CleanupPc, row: Sandbox)
    requires a.Cleanup?
  {
    k in s.attempts && s.attempts[k] == a.(pc := pc) && a.id in s.db.sandboxes && s.db.sandboxes[a.id] == row
  }

  lemma StepDoes(s: Sys, k: nat, choice: Choice)
    requires k in s.attempts && s.attempts[k].Cleanup?
    ensures var s', a := Step(s, JobStep(k, choice)), s.attempts[k];
            && k in s'.attempts && s'.attempts[k] == a.(pc := CleanupNext(s.db, a, choice))
            && s'.db == (if Succeeds(choice) then CleanupTx(s.db, a.id, a.pc) else s.db)
            && (!choice.Rpc? ==> s'.hosted == s.hosted)
            && (a.pc.CallRemove? && choice == Rpc(Answered) ==> s'.hosted == Teardown(s.hosted, a.pc.w, a.id))
  {
  }

  /** The sandbox has ended as the job says, without a link, and the attempt with it. */
  predicate IsEnded(s: Sys, k: nat, a: Attempt, row: Sandbox, target: Status)
    requires a.Cleanup?
  {
    Stands(s, k, a, Ended, row.(worker := None, status := target))
  }

  lemma FromFinish(s: Sys, k: nat, a: Attempt, row: Sandbox, target: Status)
    requires a.Cleanup? && Stands(s, k, a, Finish(target), row) && row.status == CleanupPending && row.worker.None?
    ensures IsEnded(Step(s, JobStep(k, Proceed)), k, a, row, target) && Step(s, JobStep(k, Proceed)).hosted == s.hosted
  {
    StepDoes(s, k, Proceed);
  }

  lemma FromUnlink(s: Sys, k: nat, a: Attempt, row: Sandbox, target: Status)
    requires a.Cleanup? && Stands(s, k, a, Unlink(target), row) && row.status == CleanupPending
    ensures var s' := Creations.Walk(s, k, [Proceed] + ([Proceed] + []));
            IsEnded(s', k, a, row, target) && s'.hosted == s.hosted
  {
    StepDoes(s, k, Proceed);
    var next := Step(s, JobStep(k, Proceed));
    FromFinish(next, k, a, row.(worker := None), target);
    Creations.WalkOn(s, k, Proceed, [Proceed] + []);
    Creations.WalkOn(next, k, Proceed, []);
  }

  lemma FromCall(s: Sys, k: nat, a: Attempt, row: Sandbox, w: WorkerId)
    requires a.Cleanup? && Stands(s, k, a, CallRemove(w), row) && row.status == CleanupPending
    ensures var s' := Creations.Walk(s, k, [Rpc(Answered)] + ([Proceed] + ([Proceed] + [])));
            IsEnded(s', k, a, row, a.target) && (w, a.id) !in s'.hosted
  {
    StepDoes(s, k, Rpc(Answered));
    FromUnlink(Step(s, JobStep(k, Rpc(Answered))), k, a, row, a.target);
    Creations.WalkOn(s, k, Rpc(Answered), [Proceed] + ([Proceed] + []));
  }

  /** The choices of a cleanup that nothing disturbs: with a call, if there is a link. */
  function Undisturbed(row: Sandbox): seq<Choice> {
    [Proceed] + if row.worker.Some? then [Rpc(Answered)] + ([Proceed] + ([Proceed] + [])) else [Proceed] + []
  }

  lemma FromRead(s: Sys, k: nat, a: Attempt, row: Sandbox)
    requires a.Cleanup? && Stands(s, k, a, ReadTarget, row) && row.status == CleanupPending
    ensures var s' := Creations.Walk(s, k, Undisturbed(row));
            IsEnded(s', k, a, row, a.target) && (row.worker.Some? ==> (row.worker.value, a.id) !in s'.hosted)
  {
    StepDoes(s, k, Proceed);
    var next := Step(s, JobStep(k, Proceed));
    if row.worker.Some? {
      FromCall(next, k, a, row, row.worker.value);
      Creations.WalkOn(s, k, Proceed, [Rpc(Answered)] + ([Proceed] + ([Proceed] + [])));
    } else {
      FromFinish(next, k, a, row, a.target);
      assert row.(worker := None) == row;
      Creations.WalkOn(s, k, Proceed, [Proceed] + []);
      Creations.WalkOn(next, k, Proceed, []);
    }
  }

  /** From every reachable state, an attempt that stands at its beginning for a sandbox in
      cleanup, and is not disturbed, ends it in the status its job was enqueued with, has
      its worker remove it first, and drops the link. */
  lemma CleanupEnds(cfg: Config, now: Time, actions: seq<Action>, s: Sys, k: nat)
    requires s == Run(Init(cfg, now), actions)
    requires k in s.attempts && s.attempts[k].Cleanup? && s.attempts[k].pc.ReadTarget?
    requires s.attempts[k].id in s.db.sandboxes && s.db.sandboxes[s.attempts[k].id].status == CleanupPending
    ensures var a := s.attempts[k];
            var row := s.db.sandboxes[a.id];
            var s' := Creations.Walk(s, k, Undisturbed(row));
            && a.job < |Jobs(s.db.cleanups, a.id)| && a.id in s'.db.sandboxes
            && s'.db.sandboxes[a.id] == row.(worker := None, status := Jobs(s.db.cleanups, a.id)[a.job])
            && (row.worker.Some? ==> (row.worker.value, a.id) !in s'.hosted)
  {
    InitInv(cfg, now);
    RunInv(Init(cfg, now), actions);
    assert AttemptOk(s, s.attempts[k]);
    FromRead(s, k, s.attempts[k], s.db.sandboxes[s.attempts[k].id]);
  }

  /** A call that is not answered changes nothing, unless it is the last attempt's: that
      goes on to drop the link, and to fail the sandbox whatever its job says. */
  lemma UnansweredWaits(s: Sys, k: nat, choice: Choice)
    requires k in s.attempts && s.attempts[k].Cleanup? && s.attempts[k].pc.CallRemove? && choice in {Rpc(Lost), Rpc(Unanswered)}
    ensures var next := AttemptsAfter(s, JobStep(k, choice));
            && DbAfter(s, JobStep(k, choice)) == s.db
            && k in next && next[k] == s.attempts[k].(pc := if s.attempts[k].last then Unlink(Failed) else Ended)
  {
  }
}
