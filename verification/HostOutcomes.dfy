/** What an answer of ok means on a worker host: a sandbox that was created is there, one
    that was removed is gone. */
module HostOutcomes {
  import opened Books
  import opened Collections
  import opened Host
  import opened Thin
  import opened HostInvariants
  import opened HostTheorems

  /** The call has its actor's reply, and it is ok. */
  predicate RepliedOk(call: Call) {
    call.pc == Waiting(Some(true)) || call.pc == Returned(Replied(true))
  }

  /** What holds when an actor answers ok to a command of this kind. */
  predicate Fulfilled(first: int, d: Disk, kind: Kind, actor: Actor) {
    match kind
    case Creates => Laid(first, d, actor.id) && actor.vm && actor.watching
    case RemovesIt => actor.vm ==> Gone(d, actor.id)
    case Stops => true
  }

  /** Work only an actor with a VM is at. */
  predicate OfVm(w: Work) {
    !w.MakeDir? && !w.Answering?
  }

  predicate ActorFulfils(s: Sys, svc: Svc)
    requires svc in s.actors
  {
    var actor := s.actors[svc];
    actor.phase.Busy? ==>
      && (OfVm(actor.phase.work) ==> actor.vm)
      && (actor.phase.work.Answering? && actor.phase.work.ok && actor.phase.call in s.calls ==>
            Fulfilled(s.first, s.disk, s.calls[actor.phase.call].kind, actor))
  }

  predicate CallFulfilled(s: Sys, c: CallId)
    requires c in s.calls
  {
    var call := s.calls[c];
    call.kind == RemovesIt && RepliedOk(call) && call.svc in s.actors && s.actors[call.svc].vm ==> Gone(s.disk, call.id)
  }

  ghost predicate OutcomesOk(s: Sys) {
    && (forall svc <- s.actors :: ActorFulfils(s, svc))
    && (forall c <- s.calls :: CallFulfilled(s, c))
  }

  // ---- Who is alone with a sandbox that was removed ----

  lemma RemovedFromActors(s: Sys, c: CallId, svc: Svc)
    requires Core(s) && c in s.calls && s.calls[c].kind == RemovesIt && RepliedOk(s.calls[c]) && Unfinished(s, svc)
    ensures s.actors[svc].id != s.calls[c].id
  {
    assert CallOk(s, c) && ActorOk(s, svc);
    if s.actors[svc].owner.TakenBy? && s.actors[svc].owner.call in s.calls {
      assert CallOk(s, s.actors[svc].owner.call);
    }
  }

  lemma RemovedFromReapers(s: Sys, c: CallId, r: Reaper)
    requires Core(s) && c in s.calls && s.calls[c].kind == RemovesIt && RepliedOk(s.calls[c]) && JobOf(s, r).Some?
    ensures JobOf(s, r).value.id != s.calls[c].id
  {
    assert CallOk(s, c);
    if r.OfCall? { assert CallOk(s, r.call); }
  }

  lemma GoneElsewhere(d: Disk, d': Disk, id: Id, other: Id)
    requires SameBut(d, d', id) && other != id
    ensures Gone(d, other) ==> Gone(d', other)
  {
  }

  lemma FulfilledElsewhere(first: int, d: Disk, d': Disk, id: Id, kind: Kind, actor: Actor)
    requires SameBut(d, d', id) && actor.id != id && Fulfilled(first, d, kind, actor)
    ensures Fulfilled(first, d', kind, actor)
  {
  }

  // ---- A step of an actor's work ----

  /** One step of the work at hand leads to an ok answer only with the work done. */
  lemma WorkFulfils(s: Sys, svc: Svc, luck: Luck, draw: nat, st: State)
    requires 0 < s.first <= MAX_THIN_ID && svc in s.actors && s.actors[svc].phase.Busy? && !s.actors[svc].phase.work.Answering?
    requires ActorOk(s, svc) && ActorFulfils(s, svc) && WorkOk(s.first, s.disk, s.actors[svc].id, s.actors[svc].phase.work)
    ensures var actor, d := Acted(s, svc, luck, draw, st), WorkDisk(s.first, s.disk, s.actors[svc].id, s.actors[svc].phase.work, luck);
            && actor.phase.Busy? && actor.phase.call in s.calls && (OfVm(actor.phase.work) ==> actor.vm)
            && (actor.phase.work.Answering? && actor.phase.work.ok ==>
                  Fulfilled(s.first, d, s.calls[actor.phase.call].kind, actor))
  {
  }

  lemma ActActor(s: Sys, a: Action, s': Sys)
    requires Core(s) && DiskOk(s) && a.Act? && Enabled(s, a) && ActorFulfils(s, a.svc)
    requires s'.first == s.first && s'.actors == ActorsAfter(s, a) && s'.calls == CallsAfter(s, a) && s'.disk == DiskAfter(s, a)
    ensures ActorFulfils(s', a.svc)
  {
    assert ActorOk(s, a.svc);
    if !s.actors[a.svc].phase.work.Answering? {
      WorkFulfils(s, a.svc, a.luck, a.draw, a.st);
    }
  }

  lemma ActOtherActor(s: Sys, a: Action, s': Sys, svc: Svc)
    requires Core(s) && DiskOk(s) && a.Act? && Enabled(s, a) && svc in s.actors && svc != a.svc && ActorFulfils(s, svc)
    requires s'.first == s.first && s'.actors == ActorsAfter(s, a) && s'.calls == CallsAfter(s, a) && s'.disk == DiskAfter(s, a)
    ensures svc in s'.actors && ActorFulfils(s', svc)
  {
    var id := s.actors[a.svc].id;
    assert ActorOk(s, svc) && ActorOk(s, a.svc);
    WorkKeeps(s.first, s.disk, id, s.actors[a.svc].phase.work, a.luck, a.draw);
    if s.actors[svc].phase.Busy? {
      ActorsApart(s, a.svc, svc);
      ActKinds(s, a, s.actors[svc].phase.call);
      ElsewhereFulfils(s, s', svc, id);
    }
  }

  lemma ActKinds(s: Sys, a: Action, c: CallId)
    requires a.Act? && Enabled(s, a) && c in s.calls
    ensures c in CallsAfter(s, a) && CallsAfter(s, a)[c].kind == s.calls[c].kind
  {
  }

  /** A busy actor still fulfils when only the disk of another sandbox changed. */
  lemma ElsewhereFulfils(s: Sys, s': Sys, svc: Svc, id: Id)
    requires svc in s.actors && ActorFulfils(s, svc) && s.actors[svc].phase.Busy? && s.actors[svc].id != id
    requires svc in s'.actors && s'.actors[svc] == s.actors[svc] && s'.first == s.first && SameBut(s.disk, s'.disk, id)
    requires var c := s.actors[svc].phase.call; c in s.calls && c in s'.calls && s'.calls[c].kind == s.calls[c].kind
    ensures ActorFulfils(s', svc)
  {
    var actor := s.actors[svc];
    if actor.phase.work.Answering? && actor.phase.work.ok {
      FulfilledElsewhere(s.first, s.disk, s'.disk, id, s.calls[actor.phase.call].kind, actor);
    }
  }

  lemma ActCall(s: Sys, a: Action, s': Sys, c: CallId)
    requires Core(s) && DiskOk(s) && OutcomesOk(s) && a.Act? && Enabled(s, a)
    requires s'.first == s.first && s'.actors == ActorsAfter(s, a) && s'.calls == CallsAfter(s, a) && s'.disk == DiskAfter(s, a)
    requires c in s'.calls
    ensures CallFulfilled(s', c)
  {
    assert ActorOk(s, a.svc) && ActorFulfils(s, a.svc) && CallOk(s, c) && CallFulfilled(s, c);
    if Answers(s, a) {
      AnsweredCall(s, a, s', c);
    } else {
      WorkedCall(s, a, s', c);
    }
  }

  lemma AnsweredCall(s: Sys, a: Action, s': Sys, c: CallId)
    requires a.Act? && Enabled(s, a) && Answers(s, a) && c in s.calls && 0 < s.first <= MAX_THIN_ID
    requires ActorOk(s, a.svc) && ActorFulfils(s, a.svc) && CallOk(s, c) && CallFulfilled(s, c)
    requires s'.actors == ActorsAfter(s, a) && s'.calls == CallsAfter(s, a) && s'.disk == DiskAfter(s, a) && c in s'.calls
    ensures CallFulfilled(s', c)
  {
  }

  lemma WorkedCall(s: Sys, a: Action, s': Sys, c: CallId)
    requires Core(s) && DiskOk(s) && a.Act? && Enabled(s, a) && !Answers(s, a) && c in s.calls && CallFulfilled(s, c)
    requires s'.actors == ActorsAfter(s, a) && s'.calls == s.calls && s'.disk == DiskAfter(s, a)
    ensures CallFulfilled(s', c)
  {
    var call := s.calls[c];
    assert ActorOk(s, a.svc) && CallOk(s, c);
    if call.kind == RemovesIt && RepliedOk(call) {
      RemovedFromActors(s, c, a.svc);
      WorkKeeps(s.first, s.disk, s.actors[a.svc].id, s.actors[a.svc].phase.work, a.luck, a.draw);
      GoneElsewhere(s.disk, s'.disk, s.actors[a.svc].id, call.id);
    }
  }

  // ---- A step of a reap ----

  lemma ReapKeeps(s: Sys, a: Action, s': Sys)
    requires Core(s) && DiskOk(s) && OutcomesOk(s) && a.ReapStep? && Enabled(s, a) && s' == Step(s, a)
    ensures OutcomesOk(s')
  {
    var job := JobOf(s, a.reaper).value;
    TeardownKeeps(s.first, s.disk, job.id, job.at, a.luck);
    assert SameBut(s.disk, s'.disk, job.id) && s'.actors == s.actors && s'.first == s.first;
    forall svc <- s'.actors ensures ActorFulfils(s', svc) { ReapActor(s, a, s', svc); }
    forall c <- s'.calls ensures CallFulfilled(s', c) { ReapCall(s, a, s', c); }
  }

  lemma ReapActor(s: Sys, a: Action, s': Sys, svc: Svc)
    requires Core(s) && a.ReapStep? && Enabled(s, a) && svc in s.actors && ActorFulfils(s, svc)
    requires s'.first == s.first && s'.actors == s.actors && s'.calls == CallsAfter(s, a)
    requires SameBut(s.disk, s'.disk, JobOf(s, a.reaper).value.id)
    ensures ActorFulfils(s', svc)
  {
    assert ActorOk(s, svc);
    if s.actors[svc].phase.Busy? {
      ReaperApart(s, a.reaper, svc);
      ReapKinds(s, a, s.actors[svc].phase.call);
      ElsewhereFulfils(s, s', svc, JobOf(s, a.reaper).value.id);
    }
  }

  lemma ReapKinds(s: Sys, a: Action, c: CallId)
    requires a.ReapStep? && Enabled(s, a) && c in s.calls
    ensures c in CallsAfter(s, a) && CallsAfter(s, a)[c].kind == s.calls[c].kind
  {
  }

  lemma ReapCall(s: Sys, a: Action, s': Sys, c: CallId)
    requires Core(s) && OutcomesOk(s) && a.ReapStep? && Enabled(s, a)
    requires s'.actors == s.actors && s'.calls == CallsAfter(s, a) && c in s'.calls
    requires SameBut(s.disk, s'.disk, JobOf(s, a.reaper).value.id)
    ensures CallFulfilled(s', c)
  {
    assert CallFulfilled(s, c);
    if s.calls[c].kind == RemovesIt && RepliedOk(s.calls[c]) {
      RemovedFromReapers(s, c, a.reaper);
    }
  }

  // ---- Every other step ----

  lemma DeliveredActor(s: Sys, a: Action, s': Sys)
    requires 0 < s.first <= MAX_THIN_ID && a.Deliver? && Enabled(s, a)
    requires s'.first == s.first && s'.disk == s.disk && s'.actors == ActorsAfter(s, a) && s'.calls == CallsAfter(s, a)
    ensures ActorFulfils(s', s.calls[a.c].svc)
  {
  }

  /** No other step changes what a busy actor is at. */
  lemma SameBusy(s: Sys, a: Action, svc: Svc)
    requires 0 < s.first <= MAX_THIN_ID && !a.Act? && Enabled(s, a) && svc in ActorsAfter(s, a)
    requires a.Deliver? ==> svc != s.calls[a.c].svc
    requires ActorsAfter(s, a)[svc].phase.Busy?
    ensures svc in s.actors && ActorsAfter(s, a)[svc].(owner := s.actors[svc].owner) == s.actors[svc]
  {
  }

  lemma SameKind(s: Sys, a: Action, c: CallId)
    requires Enabled(s, a) && c in s.calls && s.nextCall !in s.calls && c in CallsAfter(s, a)
    ensures CallsAfter(s, a)[c].kind == s.calls[c].kind
  {
  }

  lemma OtherActor(s: Sys, a: Action, s': Sys, svc: Svc)
    requires 0 < s.first <= MAX_THIN_ID && !a.Act? && !a.ReapStep? && Enabled(s, a) && s.nextCall !in s.calls
    requires svc in s.actors ==> ActorFulfils(s, svc) && ActorOk(s, svc)
    requires s'.first == s.first && s'.disk == s.disk && s'.actors == ActorsAfter(s, a) && s'.calls == CallsAfter(s, a)
    requires svc in s'.actors
    ensures ActorFulfils(s', svc)
  {
    if a.Deliver? && svc == s.calls[a.c].svc {
      DeliveredActor(s, a, s');
    } else if s'.actors[svc].phase.Busy? {
      SameBusy(s, a, svc);
      var c := s'.actors[svc].phase.call;
      if c in s'.calls { SameKind(s, a, c); }
      SameFulfils(s, s', svc);
    }
  }

  lemma SameFulfils(s: Sys, s': Sys, svc: Svc)
    requires svc in s.actors && svc in s'.actors && ActorFulfils(s, svc) && s'.first == s.first && s'.disk == s.disk
    requires s'.actors[svc].(owner := s.actors[svc].owner) == s.actors[svc] && s.actors[svc].phase.Busy?
    requires var c := s.actors[svc].phase.call; c in s'.calls ==> c in s.calls && s'.calls[c].kind == s.calls[c].kind
    ensures ActorFulfils(s', svc)
  {
  }

  /** No other step gives a remove an ok reply it did not have. */
  lemma OkWas(s: Sys, a: Action, c: CallId)
    requires !a.Act? && !a.ReapStep? && Enabled(s, a) && c in CallsAfter(s, a) && RepliedOk(CallsAfter(s, a)[c])
    ensures c in s.calls && RepliedOk(s.calls[c])
    ensures CallsAfter(s, a)[c].(pc := s.calls[c].pc) == s.calls[c]
  {
    if !(c in s.calls && CallsAfter(s, a)[c] == s.calls[c]) {
      assert a == TakeReply(c);
    }
  }

  lemma SameVm(s: Sys, a: Action, svc: Svc)
    requires 0 < s.first <= MAX_THIN_ID && !a.Act? && Enabled(s, a) && s.nextSvc !in s.actors
    requires svc in s.actors && svc in ActorsAfter(s, a)
    ensures ActorsAfter(s, a)[svc].vm == s.actors[svc].vm
  {
  }

  lemma OtherCall(s: Sys, a: Action, s': Sys, c: CallId)
    requires 0 < s.first <= MAX_THIN_ID && !a.Act? && !a.ReapStep? && Enabled(s, a) && s.nextSvc !in s.actors
    requires c in s.calls ==> CallFulfilled(s, c) && CallOk(s, c)
    requires s'.disk == s.disk && s'.actors == ActorsAfter(s, a) && s'.calls == CallsAfter(s, a) && c in s'.calls
    ensures CallFulfilled(s', c)
  {
    if RepliedOk(s'.calls[c]) && s'.calls[c].svc in s'.actors {
      OkWas(s, a, c);
      SameVm(s, a, s.calls[c].svc);
    }
  }

  lemma FreshSvc(s: Sys)
    requires ActorsOk(s)
    ensures s.nextSvc !in s.actors
  {
    assert forall svc <- s.actors :: ActorOk(s, svc) && svc < s.nextSvc;
  }

  lemma OtherKeeps(s: Sys, a: Action, s': Sys)
    requires Core(s) && OutcomesOk(s) && !a.Act? && !a.ReapStep? && Enabled(s, a) && s' == Step(s, a)
    ensures OutcomesOk(s')
  {
    FreshCall(s);
    FreshSvc(s);
    forall svc <- s'.actors ensures ActorFulfils(s', svc) {
      assert svc in s.actors ==> ActorFulfils(s, svc) && ActorOk(s, svc);
      OtherActor(s, a, s', svc);
    }
    forall c <- s'.calls ensures CallFulfilled(s', c) {
      assert c in s.calls ==> CallFulfilled(s, c) && CallOk(s, c);
      OtherCall(s, a, s', c);
    }
  }

  lemma ActKeeps(s: Sys, a: Action, s': Sys)
    requires Core(s) && DiskOk(s) && OutcomesOk(s) && a.Act? && Enabled(s, a) && s' == Step(s, a)
    ensures OutcomesOk(s')
  {
    forall svc <- s'.actors ensures ActorFulfils(s', svc) {
      if svc == a.svc { ActActor(s, a, s'); } else { ActOtherActor(s, a, s', svc); }
    }
    forall c <- s'.calls ensures CallFulfilled(s', c) { ActCall(s, a, s', c); }
  }

  lemma StepOutcomes(s: Sys, a: Action)
    requires Core(s) && DiskOk(s) && OutcomesOk(s)
    ensures OutcomesOk(Step(s, a))
  {
    if Enabled(s, a) {
      if a.Act? {
        ActKeeps(s, a, Step(s, a));
      } else if a.ReapStep? {
        ReapKeeps(s, a, Step(s, a));
      } else {
        OtherKeeps(s, a, Step(s, a));
      }
    }
  }

  lemma {:induction false} RunOutcomes(s: Sys, actions: seq<Action>)
    requires Core(s) && DiskOk(s) && OutcomesOk(s)
    ensures Core(Run(s, actions)) && DiskOk(Run(s, actions)) && OutcomesOk(Run(s, actions))
    decreases |actions|
  {
    if actions != [] {
      StepCore(s, actions[0]);
      StepDisk(s, actions[0]);
      StepOutcomes(s, actions[0]);
      RunOutcomes(Step(s, actions[0]), actions[1..]);
    }
  }

  // ---- Over whole runs ----

  /** In every run, as long as a remove holds its actor's ok and the actor had a VM, and
      as long as a reap stands at its end with success, nothing of the sandbox is left on
      disk: neither its device nor its directory. */
  lemma RemovedIsGone(s: Sys, actions: seq<Action>, c: CallId, r: Reaper)
    requires Init(s)
    ensures var s' := Run(s, actions);
            && (c in s'.calls && s'.calls[c].kind == RemovesIt && RepliedOk(s'.calls[c]) && s'.calls[c].svc in s'.actors
                && s'.actors[s'.calls[c].svc].vm ==>
                  s'.calls[c].id !in s'.disk.devices && s'.calls[c].id !in s'.disk.dirs)
            && (JobOf(s', r).Some? && JobOf(s', r).value.at == AtEnd(true) ==>
                  JobOf(s', r).value.id !in s'.disk.devices && JobOf(s', r).value.id !in s'.disk.dirs)
  {
    InitCore(s);
    RunOutcomes(s, actions);
    var s' := Run(s, actions);
    assert c in s'.calls ==> CallFulfilled(s', c);
  }

  /** In every run, an actor answers a create with ok only when the sandbox has its
      directory and its volume, under an ID of a sandbox's, and its VM is watched. */
  lemma CreatedIsThere(s: Sys, actions: seq<Action>, svc: Svc)
    requires Init(s)
    ensures var s' := Run(s, actions);
            svc in s'.actors && s'.actors[svc].phase.Busy? ==>
              var actor := s'.actors[svc];
              actor.phase.work.Answering? && actor.phase.work.ok && actor.phase.call in s'.calls
              && s'.calls[actor.phase.call].kind == Creates ==>
                && actor.vm && actor.watching && actor.id in s'.disk.dirs
                && actor.id in s'.disk.devices && s.first <= s'.disk.devices[actor.id] <= MAX_THIN_ID
  {
    InitCore(s);
    RunOutcomes(s, actions);
    var s' := Run(s, actions);
    assert svc in s'.actors ==> ActorFulfils(s', svc);
  }
}
