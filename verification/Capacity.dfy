/** How many sandboxes the database lets a worker hold. */
module Capacity {
  import opened Collections
  import opened Tables
  import opened Cluster
  import opened Lifecycle
  import opened Invariants
  import opened Fencing
  import Tx = Transactions

  /** The rows AssignWorker counts are exactly the rows linked to the worker. */
  lemma CountedAreLinked(s: Sys, w: WorkerId)
    requires Inv(s)
    ensures Occupants(s.db.sandboxes, w) == set id | id in s.db.sandboxes && LinkedTo(s.db.sandboxes[id], w)
  {
    forall id | id in s.db.sandboxes && LinkedTo(s.db.sandboxes[id], w)
      ensures id in Occupants(s.db.sandboxes, w)
    {
      assert SandboxOk(s, id);
    }
  }

  /** The step assigns some sandbox to `w`. */
  predicate AssignsTo(s: Sys, a: Action, w: WorkerId) {
    a.JobStep? && a.k in s.attempts && Assigns(s, s.attempts[a.k], a.choice) && s.attempts[a.k].at.w == w
  }

  lemma OccupantWas(s: Sys, a: Action, w: WorkerId, id: Id)
    requires Inv(s) && id in Occupants(DbAfter(s, a).sandboxes, w)
    ensures id in Occupants(s.db.sandboxes, w) || (AssignsTo(s, a, w) && Assigning(s, a, id))
  {
    if id !in s.db.sandboxes {
      StepKeys(s, a, id);
    } else if Assigning(s, a, id) {
      AssigningRow(s, a, id);
    } else {
      assert SandboxOk(s, id);
      StepMoves(s, a, id);
      FollowsKeepsRow(s.db.sandboxes[id], DbAfter(s, a).sandboxes[id], s.now);
    }
  }

  lemma StepOccupancy(s: Sys, a: Action, w: WorkerId)
    requires Inv(s)
    ensures var before, after := |Occupants(s.db.sandboxes, w)|, |Occupants(DbAfter(s, a).sandboxes, w)|;
            if AssignsTo(s, a, w)
            then after <= before + 1 && w in s.db.workers && before < s.db.workers[w].capacity
            else after <= before
  {
    var before, after := Occupants(s.db.sandboxes, w), Occupants(DbAfter(s, a).sandboxes, w);
    forall id | id in after ensures id in before || (AssignsTo(s, a, w) && Assigning(s, a, id)) {
      OccupantWas(s, a, w, id);
    }
    if AssignsTo(s, a, w) {
      assert after <= before + {s.attempts[a.k].id};
      SmallerSet(after, before + {s.attempts[a.k].id});
    } else {
      SmallerSet(after, before);
    }
  }

  predicate PeakOk(s: Sys, w: WorkerId) {
    && |Occupants(s.db.sandboxes, w)| <= Peak(s.peak, w)
    && (w in s.db.workers ==> s.db.workers[w].capacity <= Peak(s.peak, w))
  }

  ghost predicate PeaksOk(s: Sys) {
    forall w :: PeakOk(s, w)
  }

  lemma StepCapacity(s: Sys, a: Action, w: WorkerId)
    requires PeakOk(s, w)
    ensures Peak(s.peak, w) <= Peak(PeakAfter(s, a), w)
    ensures w in DbAfter(s, a).workers ==> DbAfter(s, a).workers[w].capacity <= Peak(PeakAfter(s, a), w)
  {
    if !WritesWorkers(a) { OnlyThreeWriteWorkers(s, a); }
  }

  lemma StepPeaks(s: Sys, a: Action)
    requires Inv(s) && PeaksOk(s)
    ensures PeaksOk(Step(s, a))
  {
    forall w ensures PeakOk(Step(s, a), w) {
      assert PeakOk(s, w);
      StepCapacity(s, a, w);
      StepOccupancy(s, a, w);
    }
  }

  lemma {:induction false} RunPeaks(s: Sys, actions: seq<Action>)
    requires Inv(s) && PeaksOk(s)
    ensures Inv(Run(s, actions)) && PeaksOk(Run(s, actions))
    decreases actions
  {
    if actions != [] {
      StepInv(s, actions[0]);
      StepPeaks(s, actions[0]);
      RunPeaks(Step(s, actions[0]), actions[1..]);
    }
  }

  /** In every run, a worker never holds more sandboxes than the largest capacity
      it ever reported; and no step adds one while it holds its current capacity
      or more, a capacity lowered under what it holds included. */
  lemma NeverOverCapacity(cfg: Config, now: Time, actions: seq<Action>, w: WorkerId, a: Action)
    ensures var s := Run(Init(cfg, now), actions);
            var held := |set id | id in s.db.sandboxes && LinkedTo(s.db.sandboxes[id], w)|;
            var next := Step(s, a);
            var heldNext := |set id | id in next.db.sandboxes && LinkedTo(next.db.sandboxes[id], w)|;
            && held <= Peak(s.peak, w)
            && (w in s.db.workers && held >= s.db.workers[w].capacity ==> heldNext <= held)
  {
    InitInv(cfg, now);
    assert PeaksOk(Init(cfg, now));
    RunPeaks(Init(cfg, now), actions);
    var s := Run(Init(cfg, now), actions);
    assert PeakOk(s, w);
    StepInv(s, a);
    CountedAreLinked(s, w);
    CountedAreLinked(Step(s, a), w);
    StepOccupancy(s, a, w);
  }
}
