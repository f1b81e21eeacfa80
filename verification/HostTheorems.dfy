/** What holds of a worker host in every run: nothing is reaped under a live actor, a
    device never outlives its directory, a call gets its actor's answer, and a dead
    sandbox stays dead. */
module HostTheorems {
  import opened Collections
  import opened Books
  import opened Host
  import opened Thin
  import opened HostInvariants

  // ---- One owner per sandbox ----

  ghost predicate Unfinished(s: Sys, svc: Svc) {
    svc in s.actors && !s.actors[svc].Finished()
  }

  lemma ActorsApart(s: Sys, svc: Svc, other: Svc)
    requires Core(s) && Unfinished(s, svc) && Unfinished(s, other) && svc != other
    ensures s.actors[svc].id != s.actors[other].id
  {
    assert ActorOk(s, svc) && ActorOk(s, other);
    if s.actors[svc].owner.TakenBy? { assert CallOk(s, s.actors[svc].owner.call); }
    if s.actors[other].owner.TakenBy? { assert CallOk(s, s.actors[other].owner.call); }
  }

  lemma ReaperApart(s: Sys, r: Reaper, svc: Svc)
    requires Core(s) && JobOf(s, r).Some? && Unfinished(s, svc)
    ensures JobOf(s, r).value.id != s.actors[svc].id
  {
    assert ActorOk(s, svc);
    if r.OfCall? { assert CallOk(s, r.call); }
    if s.actors[svc].owner.TakenBy? { assert CallOk(s, s.actors[svc].owner.call); }
  }

  lemma ReapersApart(s: Sys, r: Reaper, other: Reaper)
    requires Core(s) && JobOf(s, r).Some? && JobOf(s, other).Some? && r != other
    ensures JobOf(s, r).value.id != JobOf(s, other).value.id
  {
    if r.OfCall? { assert CallOk(s, r.call); }
    if other.OfCall? { assert CallOk(s, other.call); }
  }

  /** Whoever put the deleting mark of `id` is still at it. */
  predicate Holds(s: Sys, h: Holder, id: Id) {
    match h
    case ByRemove(c) => c in s.calls && s.calls[c].kind == RemovesIt && s.calls[c].id == id
    case ByAudit => s.audit.Sweeping? && id in s.audit.claimed
  }

  /** Tracked and marked are disjoint, every mark has exactly one holder, and whoever
      can touch a sandbox's resources is alone with them. */
  ghost predicate Owned(s: Sys) {
    && Disjoint(s.book)
    && (forall id :: id in s.book.deleting <==> exists h :: Holds(s, h, id))
    && (forall h, h', id :: Holds(s, h, id) && Holds(s, h', id) ==> h == h')
    && (forall svc, other :: Unfinished(s, svc) && Unfinished(s, other) && svc != other ==>
          s.actors[svc].id != s.actors[other].id)
    && (forall r, svc :: JobOf(s, r).Some? && Unfinished(s, svc) ==> JobOf(s, r).value.id != s.actors[svc].id)
    && (forall r, r' :: JobOf(s, r).Some? && JobOf(s, r').Some? && r != r' ==>
          JobOf(s, r).value.id != JobOf(s, r').value.id)
  }

  lemma HeldOnce(s: Sys)
    requires Core(s)
    ensures forall id :: id in s.book.deleting <==> exists h :: Holds(s, h, id)
    ensures forall h, h', id :: Holds(s, h, id) && Holds(s, h', id) ==> h == h'
  {
    forall h, id | Holds(s, h, id) ensures id in s.holder && s.holder[id] == h {
      if h.ByRemove? { assert CallOk(s, h.call); }
    }
    forall id | id in s.book.deleting ensures exists h :: Holds(s, h, id) {
      assert HeldRightly(s, id) && Holds(s, s.holder[id], id);
    }
  }

  lemma CoreOwned(s: Sys)
    requires Core(s)
    ensures Owned(s)
  {
    HeldOnce(s);
    forall svc, other | Unfinished(s, svc) && Unfinished(s, other) && svc != other
      ensures s.actors[svc].id != s.actors[other].id
    {
      ActorsApart(s, svc, other);
    }
    forall r, svc | JobOf(s, r).Some? && Unfinished(s, svc) ensures JobOf(s, r).value.id != s.actors[svc].id {
      ReaperApart(s, r, svc);
    }
    forall r, r' | JobOf(s, r).Some? && JobOf(s, r').Some? && r != r'
      ensures JobOf(s, r).value.id != JobOf(s, r').value.id
    {
      ReapersApart(s, r, r');
    }
  }

  // ---- The disk ----

  /** Nothing of the sandbox is left. */
  predicate Gone(d: Disk, id: Id) {
    id !in d.devices && id !in d.dirs
  }

  /** The sandbox has its directory, and its volume under an ID of a sandbox's. */
  predicate Laid(first: int, d: Disk, id: Id) {
    id in d.dirs && id in d.devices && IsSandboxThin(first, d.devices[id])
  }

  ghost predicate TeardownOk(first: int, d: Disk, id: Id, t: Teardown) {
    && (t.AtThin? ==> IsSandboxThin(first, t.thin))
    && (t.AtThin? || t.AtDir? ==> id !in d.devices)
    && (t == AtEnd(true) ==> Gone(d, id))
  }

  ghost predicate WorkOk(first: int, d: Disk, id: Id, w: Work) {
    && (w.Snap? || w.Map? ==> id in d.dirs)
    && (w.Node? || w.Boot? ==> Laid(first, d, id))
    && (w.Map? || w.Unsnap? ==> IsSandboxThin(first, w.thin))
    && (w.Cleaning? ==> TeardownOk(first, d, id, w.at))
  }

  ghost predicate Tidy(first: int, d: Disk) {
    && d.devices.Keys <= d.dirs
    && forall thin <- d.deletes :: IsSandboxThin(first, thin)
  }

  ghost predicate DiskOk(s: Sys) {
    && Tidy(s.first, s.disk)
    && (forall svc <- s.actors :: s.actors[svc].phase.Busy? ==>
          WorkOk(s.first, s.disk, s.actors[svc].id, s.actors[svc].phase.work))
    && (forall r :: JobOf(s, r).Some? ==> TeardownOk(s.first, s.disk, JobOf(s, r).value.id, JobOf(s, r).value.at))
  }

  /** Only the resources of `id` differ. */
  ghost predicate SameBut(d: Disk, d': Disk, id: Id) {
    forall o :: o != id ==>
      && (o in d'.dirs <==> o in d.dirs)
      && (o in d'.devices <==> o in d.devices)
      && (o in d.devices ==> d'.devices[o] == d.devices[o])
  }

  lemma TeardownKeeps(first: int, d: Disk, id: Id, t: Teardown, luck: Luck)
    requires Tidy(first, d) && TeardownOk(first, d, id, t)
    ensures Tidy(first, TeardownDisk(first, d, id, t, luck)) && SameBut(d, TeardownDisk(first, d, id, t, luck), id)
    ensures TeardownOk(first, TeardownDisk(first, d, id, t, luck), id, TeardownNext(first, d.devices, id, t, luck))
  {
  }

  lemma WorkKeeps(first: int, d: Disk, id: Id, w: Work, luck: Luck, draw: nat)
    requires 0 < first <= MAX_THIN_ID && Tidy(first, d) && WorkOk(first, d, id, w)
    ensures Tidy(first, WorkDisk(first, d, id, w, luck)) && SameBut(d, WorkDisk(first, d, id, w, luck), id)
    ensures WorkOk(first, WorkDisk(first, d, id, w, luck), id, WorkNext(first, d.devices, id, w, luck, draw))
  {
    if w.Cleaning? {
      TeardownKeeps(first, d, id, w.at, luck);
    }
  }

  lemma FrameWork(first: int, d: Disk, d': Disk, id: Id, other: Id, w: Work)
    requires SameBut(d, d', id) && other != id && WorkOk(first, d, other, w)
    ensures WorkOk(first, d', other, w)
  {
  }

  lemma FrameTeardown(first: int, d: Disk, d': Disk, id: Id, other: Id, t: Teardown)
    requires SameBut(d, d', id) && other != id && TeardownOk(first, d, other, t)
    ensures TeardownOk(first, d', other, t)
  {
  }

  lemma ActDisk(s: Sys, a: Action)
    requires Core(s) && DiskOk(s) && a.Act? && Enabled(s, a)
    ensures DiskOk(Step(s, a))
  {
    var s' := Step(s, a);
    var actor := s.actors[a.svc];
    var d := DiskAfter(s, a);
    WorkKeeps(s.first, s.disk, actor.id, actor.phase.work, a.luck, a.draw);
    forall svc <- s'.actors | s'.actors[svc].phase.Busy?
      ensures WorkOk(s.first, d, s'.actors[svc].id, s'.actors[svc].phase.work)
    {
      if svc != a.svc {
        ActorsApart(s, a.svc, svc);
        FrameWork(s.first, s.disk, d, actor.id, s.actors[svc].id, s.actors[svc].phase.work);
      }
    }
    forall r | JobOf(s', r).Some? ensures TeardownOk(s.first, d, JobOf(s', r).value.id, JobOf(s', r).value.at) {
      ActKeepsJobs(s, a, s', r);
      ReaperApart(s, r, a.svc);
      FrameTeardown(s.first, s.disk, d, actor.id, JobOf(s, r).value.id, JobOf(s, r).value.at);
    }
  }

  lemma ActKeepsJobs(s: Sys, a: Action, s': Sys, r: Reaper)
    requires Core(s) && a.Act? && Enabled(s, a)
    requires s'.calls == CallsAfter(s, a) && s'.audit == s.audit && s'.recovery == s.recovery
    ensures JobOf(s', r) == JobOf(s, r)
  {
    assert ActorOk(s, a.svc);
  }

  lemma ReapDisk(s: Sys, a: Action)
    requires Core(s) && DiskOk(s) && a.ReapStep? && Enabled(s, a)
    ensures DiskOk(Step(s, a))
  {
    var s' := Step(s, a);
    var job := JobOf(s, a.reaper).value;
    var d := DiskAfter(s, a);
    TeardownKeeps(s.first, s.disk, job.id, job.at, a.luck);
    forall svc <- s'.actors | s'.actors[svc].phase.Busy?
      ensures WorkOk(s.first, d, s'.actors[svc].id, s'.actors[svc].phase.work)
    {
      ReaperApart(s, a.reaper, svc);
      FrameWork(s.first, s.disk, d, job.id, s.actors[svc].id, s.actors[svc].phase.work);
    }
    forall r | JobOf(s', r).Some? ensures TeardownOk(s.first, d, JobOf(s', r).value.id, JobOf(s', r).value.at) {
      if r != a.reaper {
        ReapersApart(s, a.reaper, r);
        FrameTeardown(s.first, s.disk, d, job.id, JobOf(s, r).value.id, JobOf(s, r).value.at);
      }
    }
  }

  lemma OtherWork(s: Sys, a: Action, s': Sys, svc: Svc)
    requires Core(s) && DiskOk(s) && !a.Act? && !a.ReapStep? && Enabled(s, a)
    requires s'.actors == ActorsAfter(s, a) && svc in s'.actors && s'.actors[svc].phase.Busy?
    ensures WorkOk(s.first, s.disk, s'.actors[svc].id, s'.actors[svc].phase.work)
  {
    if a.Deliver? {
      DeliveredWork(s, a, s', svc);
    } else {
      SameWorkElsewhere(s, a, s', svc);
    }
  }

  lemma DeliveredWork(s: Sys, a: Action, s': Sys, svc: Svc)
    requires 0 < s.first <= MAX_THIN_ID && DiskOk(s) && a.Deliver? && Enabled(s, a)
    requires s'.actors == ActorsAfter(s, a) && svc in s'.actors && s'.actors[svc].phase.Busy?
    ensures WorkOk(s.first, s.disk, s'.actors[svc].id, s'.actors[svc].phase.work)
  {
  }

  lemma SameWorkElsewhere(s: Sys, a: Action, s': Sys, svc: Svc)
    requires 0 < s.first <= MAX_THIN_ID && DiskOk(s) && !a.Act? && !a.Deliver? && Enabled(s, a)
    requires s'.actors == ActorsAfter(s, a) && svc in s'.actors && s'.actors[svc].phase.Busy?
    ensures WorkOk(s.first, s.disk, s'.actors[svc].id, s'.actors[svc].phase.work)
  {
    assert svc in s.actors && s'.actors[svc].id == s.actors[svc].id && s'.actors[svc].phase == s.actors[svc].phase;
  }

  lemma OtherCallJob(s: Sys, a: Action, s': Sys, c: CallId)
    requires !a.Act? && !a.ReapStep? && Enabled(s, a) && s'.calls == CallsAfter(s, a) && JobOf(s', OfCall(c)).Some?
    ensures JobOf(s', OfCall(c)) == JobOf(s, OfCall(c)) || JobOf(s', OfCall(c)).value.at == AtVolume
  {
  }

  lemma OtherJob(s: Sys, a: Action, s': Sys, r: Reaper)
    requires DiskOk(s) && !a.Act? && !a.ReapStep? && Enabled(s, a)
    requires s'.calls == CallsAfter(s, a) && s'.audit == AuditAfter(s, a) && s'.recovery == RecoveryAfter(s, a)
    requires JobOf(s', r).Some?
    ensures TeardownOk(s.first, s.disk, JobOf(s', r).value.id, JobOf(s', r).value.at)
  {
    if r.OfCall? {
      OtherCallJob(s, a, s', r.call);
    } else {
      OtherStandingJob(s, a, s', r);
    }
  }

  lemma OtherStandingJob(s: Sys, a: Action, s': Sys, r: Reaper)
    requires !r.OfCall? && !a.Act? && !a.ReapStep? && Enabled(s, a)
    requires s'.audit == AuditAfter(s, a) && s'.recovery == RecoveryAfter(s, a) && JobOf(s', r).Some?
    ensures JobOf(s', r) == JobOf(s, r) || JobOf(s', r).value.at == AtVolume
  {
  }

  lemma StepDisk(s: Sys, a: Action)
    requires Core(s) && DiskOk(s)
    ensures DiskOk(Step(s, a))
  {
    if Enabled(s, a) {
      if a.Act? {
        ActDisk(s, a);
      } else if a.ReapStep? {
        ReapDisk(s, a);
      } else {
        var s' := Step(s, a);
        forall svc <- s'.actors | s'.actors[svc].phase.Busy?
          ensures WorkOk(s.first, s.disk, s'.actors[svc].id, s'.actors[svc].phase.work)
        {
          OtherWork(s, a, s', svc);
        }
        forall r | JobOf(s', r).Some? ensures TeardownOk(s.first, s.disk, JobOf(s', r).value.id, JobOf(s', r).value.at) {
          OtherJob(s, a, s', r);
        }
      }
    }
  }

  lemma {:induction false} RunInv(s: Sys, actions: seq<Action>)
    requires Core(s) && DiskOk(s)
    ensures Core(Run(s, actions)) && DiskOk(Run(s, actions))
    decreases |actions|
  {
    if actions != [] {
      StepCore(s, actions[0]);
      StepDisk(s, actions[0]);
      RunInv(Step(s, actions[0]), actions[1..]);
    }
  }

  // ---- Over whole runs ----

  lemma OwnershipHolds(s: Sys, actions: seq<Action>)
    requires Init(s)
    ensures Owned(Run(s, actions))
  {
    InitCore(s);
    RunInv(s, actions);
    CoreOwned(Run(s, actions));
  }

  /** A sandbox's device exists only while its directory does, and no delete message
      names a base volume. */
  lemma DiskStaysTidy(s: Sys, actions: seq<Action>)
    requires Init(s)
    ensures var d := Run(s, actions).disk;
            && d.devices.Keys <= d.dirs
            && (forall thin <- d.deletes :: s.first <= thin <= MAX_THIN_ID)
            && (forall base: int :: base < s.first ==> base !in d.deletes)
  {
    InitCore(s);
    RunInv(s, actions);
  }

  // ---- do ----

  /** A call that has left `do` has its actor's own reply, or the actor is gone without
      having handled its command. */
  lemma DoReturnsTheReply(s: Sys, actions: seq<Action>, c: CallId)
    requires Init(s) && c in Run(s, actions).calls && Run(s, actions).calls[c].pc.Returned?
    ensures var s' := Run(s, actions);
            match s'.calls[c].pc.outcome
            case Replied(ok) => c in s'.handled && s'.handled[c] == ok
            case Exited => c !in s'.handled && Phased(s', s'.calls[c].svc, Done)
  {
    InitCore(s);
    RunInv(s, actions);
    assert CallOk(Run(s, actions), c);
  }

  predicate GaveUp(s: Sys, c: CallId) {
    && c !in s.handled && c < s.nextCall
    && (c in s.calls ==> s.calls[c].pc == Returned(Exited) || s.calls[c].pc.Reaping?)
  }

  lemma ActorGaveUp(s: Sys, s': Sys, svc: Svc, c: CallId)
    requires Core(s) && GaveUp(s, c) && ActorMoves(s, s', svc)
    ensures GaveUp(s', c)
  {
    assert ActorOk(s, svc);
  }

  lemma OtherGaveUp(s: Sys, a: Action, s': Sys, c: CallId)
    requires GaveUp(s, c) && !ActorAction(a) && Enabled(s, a)
    requires s'.calls == CallsAfter(s, a) && s'.handled == HandledAfter(s, a) && s'.nextCall == NextCall(s, a)
    ensures GaveUp(s', c)
  {
  }

  lemma StepGaveUp(s: Sys, a: Action, c: CallId)
    requires Core(s) && GaveUp(s, c)
    ensures GaveUp(Step(s, a), c)
  {
    if Enabled(s, a) && ActorAction(a) {
      ActorActionMoves(s, a, Step(s, a));
      ActorGaveUp(s, Step(s, a), a.svc, c);
    } else if Enabled(s, a) {
      OtherGaveUp(s, a, Step(s, a), c);
    }
  }

  /** A command its call has given up on is never handled. */
  lemma {:induction false} ExitedIsNeverHandled(s: Sys, actions: seq<Action>, c: CallId)
    requires Core(s) && DiskOk(s) && GaveUp(s, c)
    ensures c !in Run(s, actions).handled
    decreases |actions|
  {
    if actions != [] {
      StepCore(s, actions[0]);
      StepDisk(s, actions[0]);
      StepGaveUp(s, actions[0], c);
      ExitedIsNeverHandled(Step(s, actions[0]), actions[1..], c);
    }
  }

  // ---- States ----

  /** An entry is dead only once its actor is, or can report no more. */
  ghost predicate DeadAt(s: Sys, id: Id)
    requires id in s.book.services
  {
    var e := s.book.services[id];
    e.state == Dead && e.svc in s.actors ==> s.actors[e.svc].state == Dead || s.actors[e.svc].Finished()
  }

  ghost predicate DeadOk(s: Sys) {
    forall id <- s.book.services :: DeadAt(s, id)
  }

  /** What an actor's step reports: nothing at all once it is dead. */
  lemma ActorReports(s: Sys, a: Action) returns (st: State)
    requires ActorAction(a) && Enabled(s, a)
    ensures BookAfter(s, a) == s.book || BookAfter(s, a) == Reported(s.book, s.actors[a.svc].id, a.svc, st)
    ensures s.actors[a.svc].state == Dead || s.actors[a.svc].Finished() ==> BookAfter(s, a) == s.book
  {
    st := if a.Poll? then a.st else if a.Act? then Polled(s.actors[a.svc], a.st) else Dead;
  }

  lemma ActorDeadAt(s: Sys, a: Action, s': Sys, id: Id)
    requires 0 < s.first <= MAX_THIN_ID && ActorAction(a) && Enabled(s, a)
    requires s'.book == BookAfter(s, a) && s'.actors == ActorsAfter(s, a)
    requires id in s.book.services && id in s'.book.services && EntryOk(s, id) && DeadAt(s, id)
    ensures DeadAt(s', id)
  {
  }

  lemma OtherDeadAt(s: Sys, a: Action, s': Sys, id: Id)
    requires 0 < s.first <= MAX_THIN_ID && !ActorAction(a) && Enabled(s, a)
    requires s'.book == BookAfter(s, a) && s'.actors == ActorsAfter(s, a) && id in s'.book.services
    requires id in s.book.services ==> EntryOk(s, id) && DeadAt(s, id) && s.book.services[id].svc < s.nextSvc
    ensures DeadAt(s', id)
  {
  }

  lemma StepDeadOk(s: Sys, a: Action)
    requires Core(s) && DeadOk(s)
    ensures DeadOk(Step(s, a))
  {
    if Enabled(s, a) {
      var s' := Step(s, a);
      forall id <- s'.book.services ensures DeadAt(s', id) {
        assert id in s.book.services ==> EntryOk(s, id) && DeadAt(s, id) && ActorOk(s, s.book.services[id].svc);
        if ActorAction(a) {
          ActorActionMoves(s, a, s');
          ActorDeadAt(s, a, s', id);
        } else {
          OtherDeadAt(s, a, s', id);
        }
      }
    }
  }

  /** An actor's report changes no entry but its own. */
  lemma ReportsStayHome(s: Sys, a: Action, id: Id)
    requires ActorAction(a) && Enabled(s, a) && id in s.book.services
    ensures id in BookAfter(s, a).services
    ensures BookAfter(s, a).services[id] != s.book.services[id] ==> s.book.services[id].svc == a.svc
  {
    var st := ActorReports(s, a);
  }

  lemma ActorKeepsDead(s: Sys, a: Action, id: Id)
    requires ActorAction(a) && Enabled(s, a)
    requires id in s.book.services && s.book.services[id].state == Dead && EntryOk(s, id) && DeadAt(s, id)
    ensures id in BookAfter(s, a).services && BookAfter(s, a).services[id] == s.book.services[id]
  {
    var st := ActorReports(s, a);
  }

  /** The steps that drop the entry of `id`: a remove takes it, its own create fails,
      or the worker crashes. */
  predicate Drops(s: Sys, a: Action, id: Id)
    requires id in s.book.services
  {
    Enabled(s, a) &&
    match a
    case RemoveBegin(o) => o == id
    case CreateEnd(c) => s.calls[c].id == id && s.calls[c].svc == s.book.services[id].svc && s.calls[c].pc.outcome != Replied(true)
    case Crash => true
    case _ => false
  }

  lemma OthersKeepDead(s: Sys, a: Action, id: Id)
    requires !ActorAction(a) && Enabled(s, a) && RecoveryOk(s)
    requires id in s.book.services && s.book.services[id].state == Dead
    ensures var b' := BookAfter(s, a);
            if Drops(s, a, id) then id !in b'.services else id in b'.services && b'.services[id] == s.book.services[id]
  {
  }

  /** A dead entry stays exactly as it is until a step that drops it. */
  lemma StepDead(s: Sys, a: Action, id: Id)
    requires Core(s) && DeadOk(s) && id in s.book.services && s.book.services[id].state == Dead && Enabled(s, a)
    ensures var b' := BookAfter(s, a);
            if Drops(s, a, id) then id !in b'.services else id in b'.services && b'.services[id] == s.book.services[id]
  {
    assert EntryOk(s, id) && DeadAt(s, id);
    if ActorAction(a) { ActorKeepsDead(s, a, id); } else { OthersKeepDead(s, a, id); }
  }

  /** An actor that does not track a sandbox never comes to, except when it is made. */
  lemma TrackingIsKept(s: Sys, a: Action, id: Id, svc: Svc)
    requires Enabled(s, a) && svc < s.nextSvc && TracksAs(BookAfter(s, a), id, svc)
    ensures TracksAs(s.book, id, svc)
  {
    if ActorAction(a) {
      var st := ActorReports(s, a);
    }
  }

  lemma {:induction false} NeverTrackedAgain(s: Sys, actions: seq<Action>, id: Id, svc: Svc)
    requires 0 < s.first <= MAX_THIN_ID && svc < s.nextSvc && !TracksAs(s.book, id, svc)
    ensures !TracksAs(Run(s, actions).book, id, svc)
    decreases |actions|
  {
    if actions != [] {
      if Enabled(s, actions[0]) && TracksAs(Step(s, actions[0]).book, id, svc) {
        TrackingIsKept(s, actions[0], id, svc);
      }
      NeverTrackedAgain(Step(s, actions[0]), actions[1..], id, svc);
    }
  }

  /** No step of the run drops the entry of `id`. */
  predicate NeverDropped(s: Sys, actions: seq<Action>, id: Id)
    requires 0 < s.first <= MAX_THIN_ID
    decreases |actions|
  {
    actions == [] ||
    (id in s.book.services && !Drops(s, actions[0], id) && NeverDropped(Step(s, actions[0]), actions[1..], id))
  }

  lemma {:induction false} DeadStays(s: Sys, actions: seq<Action>, id: Id)
    requires Core(s) && DeadOk(s) && id in s.book.services && s.book.services[id].state == Dead
    ensures var entry, book := s.book.services[id], Run(s, actions).book;
            if NeverDropped(s, actions, id) then id in book.services && book.services[id] == entry
            else !TracksAs(book, id, entry.svc)
    decreases |actions|
  {
    if actions != [] {
      var a, entry := actions[0], s.book.services[id];
      assert EntryOk(s, id) && ActorOk(s, entry.svc);
      StepCore(s, a);
      StepDeadOk(s, a);
      if Enabled(s, a) { StepDead(s, a, id); }
      if Drops(s, a, id) {
        NeverTrackedAgain(Step(s, a), actions[1..], id, entry.svc);
      } else {
        DeadStays(Step(s, a), actions[1..], id);
      }
    }
  }

  lemma {:induction false} ReachableDeadOk(s: Sys, actions: seq<Action>)
    requires Core(s) && DeadOk(s)
    ensures Core(Run(s, actions)) && DeadOk(Run(s, actions))
    decreases |actions|
  {
    if actions != [] {
      StepCore(s, actions[0]);
      StepDeadOk(s, actions[0]);
      ReachableDeadOk(Step(s, actions[0]), actions[1..]);
    }
  }

  /** In every run, a sandbox found dead is still tracked, by the same actor and as dead,
      exactly when no step since dropped its entry; and once dropped, that actor never
      tracks it again. */
  lemma DeadUntilDropped(s: Sys, before: seq<Action>, after: seq<Action>, id: Id)
    requires Init(s)
    requires id in Run(s, before).book.services && Run(s, before).book.services[id].state == Dead
    ensures var found := Run(s, before);
            var svc, book := found.book.services[id].svc, Run(found, after).book;
            && (TracksAs(book, id, svc) <==> NeverDropped(found, after, id))
            && (TracksAs(book, id, svc) ==> book.services[id].state == Dead)
  {
    InitCore(s);
    ReachableDeadOk(s, before);
    DeadStays(Run(s, before), after, id);
  }

  lemma {:induction false} RunStep(s: Sys, actions: seq<Action>, a: Action)
    requires 0 < s.first <= MAX_THIN_ID
    ensures Run(s, actions + [a]) == Step(Run(s, actions), a)
    decreases |actions|
  {
    if actions == [] {
      assert [a][1..] == [];
    } else {
      RunStep(Step(s, actions[0]), actions[1..], a);
      assert (actions + [a])[1..] == actions[1..] + [a];
    }
  }

  /** One create in hand with its actor, and nothing else. */
  ghost predicate Creating(s: Sys, id: Id, c: CallId, svc: Svc, phase: Phase, pc: Pc, st: State) {
    && 0 < s.first <= MAX_THIN_ID
    && s.book.services == map[id := Entry(svc, st)] && s.calls == map[c := Call(Creates, id, svc, pc)]
    && s.actors == map[svc := Actor(id, Tracked, phase, false, false, st)]
  }

  lemma CreateBegins(s: Sys, id: Id)
    requires Init(s) && s.disk.dirs == {} && IsSandboxId(id)
    ensures Creating(Step(Step(s, RecoverDone), CreateBegin(id)), id, s.nextCall, s.nextSvc, Idle, Sending, Starting)
  {
    var s1 := Step(s, RecoverDone);
    assert s1.recovery == Serving && s1.book == s.book && s1.actors == s.actors && s1.calls == s.calls;
  }

  lemma CreateDelivered(s: Sys, id: Id, c: CallId, svc: Svc)
    requires Creating(s, id, c, svc, Idle, Sending, Starting)
    ensures Creating(Step(s, Deliver(c)), id, c, svc, Busy(c, MakeDir), Waiting(None), Starting)
  {
  }

  lemma CreatePanics(s: Sys, id: Id, c: CallId, svc: Svc)
    requires Creating(s, id, c, svc, Busy(c, MakeDir), Waiting(None), Starting)
    ensures Creating(Step(s, Panic(svc)), id, c, svc, Leaving, Waiting(None), Dead)
  {
  }

  lemma CreateCloses(s: Sys, id: Id, c: CallId, svc: Svc)
    requires Creating(s, id, c, svc, Leaving, Waiting(None), Dead)
    ensures Creating(Step(s, Close(svc)), id, c, svc, Done, Waiting(None), Dead)
  {
  }

  lemma CreateSeesDone(s: Sys, id: Id, c: CallId, svc: Svc)
    requires Creating(s, id, c, svc, Done, Waiting(None), Dead)
    ensures Creating(Step(s, SeeDone(c)), id, c, svc, Done, Returned(Exited), Dead)
  {
  }

  lemma CreateDrops(s: Sys, id: Id, c: CallId, svc: Svc)
    requires Creating(s, id, c, svc, Done, Returned(Exited), Dead)
    ensures id !in Step(s, CreateEnd(c)).book.services
  {
  }

  /** A remove is not the only way out: a sandbox whose actor panicked while creating it
      is tracked as dead, and dropped when its create returns. */
  lemma DeadDroppedByItsCreate(s: Sys, id: Id) returns (actions: seq<Action>)
    requires Init(s) && s.disk.dirs == {} && IsSandboxId(id)
    ensures forall a <- actions :: !a.RemoveBegin? && !a.Crash?
    ensures var dead := Run(s, actions);
            && id in dead.book.services && dead.book.services[id].state == Dead
            && id !in Run(s, actions + [CreateEnd(s.nextCall)]).book.services
  {
    var c, svc := s.nextCall, s.nextSvc;
    var begun: seq<Action> := [] + [RecoverDone] + [CreateBegin(id)];
    var panicked := begun + [Deliver(c)] + [Panic(svc)];
    actions := panicked + [Close(svc)] + [SeeDone(c)];
    var t1, t2, t3 := Run(s, begun), Run(s, panicked), Run(s, actions);
    assert Creating(t1, id, c, svc, Idle, Sending, Starting) by {
      RunTwo(s, [], RecoverDone, CreateBegin(id));
      CreateBegins(s, id);
    }
    assert Creating(t2, id, c, svc, Leaving, Waiting(None), Dead) by {
      RunTwo(s, begun, Deliver(c), Panic(svc));
      CreateDelivered(t1, id, c, svc);
      CreatePanics(Step(t1, Deliver(c)), id, c, svc);
    }
    assert Creating(t3, id, c, svc, Done, Returned(Exited), Dead) by {
      RunTwo(s, panicked, Close(svc), SeeDone(c));
      CreateCloses(t2, id, c, svc);
      CreateSeesDone(Step(t2, Close(svc)), id, c, svc);
    }
    RunStep(s, actions, CreateEnd(c));
    CreateDrops(t3, id, c, svc);
  }

  lemma RunTwo(s: Sys, actions: seq<Action>, a: Action, b: Action)
    requires 0 < s.first <= MAX_THIN_ID
    ensures Run(s, actions + [a] + [b]) == Step(Step(Run(s, actions), a), b)
  {
    RunStep(s, actions, a);
    RunStep(s, actions + [a], b);
  }
}
