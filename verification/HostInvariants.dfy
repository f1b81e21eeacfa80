/** What every step of a worker host keeps: who owns each sandbox's disk resources. */
module HostInvariants {
  import opened Collections
  import opened Books
  import opened Host
  import opened Thin

  // ---- The ownership invariant ----

  predicate EntryOk(s: Sys, id: Id)
    requires id in s.book.services
  {
    var svc := s.book.services[id].svc;
    svc in s.actors && s.actors[svc].id == id && s.actors[svc].owner == Tracked
  }

  ghost predicate EntriesOk(s: Sys) {
    forall id <- s.book.services :: EntryOk(s, id)
  }

  /** A command's work ends in an answer; a remove, and a create that fails, end the
      actor with it. */
  predicate WorkFits(kind: Kind, w: Work) {
    match kind
    case Creates => !w.Stopping? && (w.Cleaning? ==> w.after != Removes) && (w.Answering? && !w.ok ==> w.exit)
    case Stops => w.Stopping? || (w.Answering? && !w.exit)
    case RemovesIt => (w.Cleaning? && w.after == Removes) || (w.Answering? && w.exit)
  }

  /** Call `c` is a remove of `id`, in hand with its actor. */
  predicate RemoveInDo(s: Sys, c: CallId, svc: Svc, id: Id) {
    c in s.calls && s.calls[c].kind == RemovesIt && s.calls[c].svc == svc && s.calls[c].id == id && s.calls[c].InDo()
  }

  predicate OwnerOk(s: Sys, svc: Svc, actor: Actor) {
    match actor.owner
    case Tracked => TracksAs(s.book, actor.id, svc)
    case TakenBy(c) => actor.Finished() || RemoveInDo(s, c, svc, actor.id)
    case Dropped => actor.Finished()
  }

  predicate BusyOk(s: Sys, svc: Svc, actor: Actor) {
    actor.phase.Busy? ==>
      var c := actor.phase.call;
      c in s.calls && s.calls[c].svc == svc && s.calls[c].pc == Waiting(None) && WorkFits(s.calls[c].kind, actor.phase.work)
  }

  predicate ActorOk(s: Sys, svc: Svc)
    requires svc in s.actors
  {
    svc < s.nextSvc && OwnerOk(s, svc, s.actors[svc]) && BusyOk(s, svc, s.actors[svc])
  }

  ghost predicate ActorsOk(s: Sys) {
    forall svc <- s.actors :: ActorOk(s, svc)
  }

  /** A reply that ended the actor found it past its last command. */
  predicate ReplyOk(s: Sys, c: CallId, call: Call, ok: bool)
    requires call.svc in s.actors
  {
    && c in s.handled && s.handled[c] == ok
    && (call.kind == RemovesIt || (call.kind == Creates && !ok) ==> s.actors[call.svc].Finished())
  }

  predicate PcOk(s: Sys, c: CallId, call: Call)
    requires call.svc in s.actors
  {
    match call.pc
    case Sending => c !in s.handled
    case Waiting(reply) => if reply.Some? then ReplyOk(s, c, call, reply.value) else c !in s.handled
    case Returned(outcome) =>
      if outcome.Replied? then ReplyOk(s, c, call, outcome.ok) else c !in s.handled && s.actors[call.svc].phase.Done?
    case Reaping(_) => call.kind == RemovesIt && c !in s.handled && s.actors[call.svc].phase.Done?
  }

  predicate LinksOk(s: Sys, c: CallId)
    requires c in s.calls
  {
    var call := s.calls[c];
    && c < s.nextCall && call.svc in s.actors && s.actors[call.svc].id == call.id
    && (call.kind == RemovesIt ==> call.id in s.holder && s.holder[call.id] == ByRemove(c))
  }

  predicate CallOk(s: Sys, c: CallId)
    requires c in s.calls
  {
    LinksOk(s, c) && PcOk(s, c, s.calls[c])
  }

  ghost predicate CallsOk(s: Sys) {
    forall c <- s.calls :: CallOk(s, c)
  }

  predicate HeldRightly(s: Sys, id: Id)
    requires id in s.holder
  {
    match s.holder[id]
    case ByRemove(c) => c in s.calls && s.calls[c].kind == RemovesIt && s.calls[c].id == id
    case ByAudit => s.audit.Sweeping? && id in s.audit.claimed
  }

  ghost predicate HolderOk(s: Sys) {
    && s.holder.Keys == s.book.deleting
    && forall id <- s.holder :: HeldRightly(s, id)
  }

  ghost predicate AuditOk(s: Sys) {
    s.audit.Sweeping? ==>
      && (forall id <- s.audit.claimed :: id in s.holder && s.holder[id] == ByAudit)
      && (s.audit.job.Some? ==> s.audit.job.value.id in s.audit.claimed)
  }

  ghost predicate RecoveryOk(s: Sys) {
    s.recovery.Recovering? ==>
      && s.calls == map[] && s.holder == map[] && s.audit == Resting
      && s.recovery.todo !! s.book.services.Keys
      && (s.recovery.job.Some? ==>
            s.recovery.job.value.id !in s.recovery.todo && s.recovery.job.value.id !in s.book.services)
  }

  ghost predicate HandledOk(s: Sys) {
    forall c <- s.handled :: c < s.nextCall
  }

  ghost predicate Core(s: Sys) {
    && 0 < s.first <= MAX_THIN_ID
    && Disjoint(s.book) && EntriesOk(s) && ActorsOk(s) && CallsOk(s) && HolderOk(s) && AuditOk(s) && RecoveryOk(s)
    && HandledOk(s)
  }

  // ---- An actor's own steps keep it ----

  predicate ActorAction(a: Action) {
    a.Act? || a.Poll? || a.SeeExit? || a.Panic? || a.Quit? || a.Close?
  }

  /** The same sandboxes are tracked, by the same actors, and the same removed. */
  ghost predicate SameTracking(b: Book, b': Book) {
    && b'.deleting == b.deleting && b'.services.Keys == b.services.Keys
    && forall id <- b.services :: b'.services[id].svc == b.services[id].svc
  }

  predicate SameWork(actor: Actor, actor': Actor) {
    actor'.phase.Busy? ==>
      && actor.phase.Busy? && actor'.phase.call == actor.phase.call
      && (WorkFits(Creates, actor.phase.work) ==> WorkFits(Creates, actor'.phase.work))
      && (WorkFits(Stops, actor.phase.work) ==> WorkFits(Stops, actor'.phase.work))
      && (WorkFits(RemovesIt, actor.phase.work) ==> WorkFits(RemovesIt, actor'.phase.work))
  }

  predicate Progresses(actor: Actor, actor': Actor) {
    && actor'.id == actor.id && actor'.owner == actor.owner
    && (actor.Finished() ==> actor'.Finished()) && (actor.phase.Done? ==> actor'.phase.Done?)
  }

  /** The actor has answered the call it was busy with. */
  predicate AnswersCall(s: Sys, s': Sys, actor: Actor, actor': Actor) {
    && actor.phase.Busy? && actor.phase.work.Answering? && actor.phase.call in s.calls
    && var c, ok := actor.phase.call, actor.phase.work.ok;
    && s'.calls == s.calls[c := s.calls[c].(pc := Waiting(Some(ok)))] && s'.handled == s.handled[c := ok]
    && actor'.phase == if actor.phase.work.exit then Leaving else Idle
  }

  ghost predicate ActorMoves(s: Sys, s': Sys, svc: Svc) {
    && svc in s.actors && svc in s'.actors && s'.actors == s.actors[svc := s'.actors[svc]]
    && var actor, actor' := s.actors[svc], s'.actors[svc];
    && SameTracking(s.book, s'.book) && Progresses(actor, actor')
    && s'.first == s.first && s'.holder == s.holder && s'.audit == s.audit && s'.recovery == s.recovery
    && s'.nextSvc == s.nextSvc && s'.nextCall == s.nextCall
    && (AnswersCall(s, s', actor, actor') || (s'.calls == s.calls && s'.handled == s.handled && SameWork(actor, actor')))
  }

  lemma WorkStaysFit(first: int, devices: map<Id, int>, id: Id, w: Work, luck: Luck, draw: nat, kind: Kind)
    requires 0 < first <= MAX_THIN_ID && !w.Answering? && WorkFits(kind, w)
    ensures WorkFits(kind, WorkNext(first, devices, id, w, luck, draw))
  {
  }

  lemma ActKeepsWork(s: Sys, svc: Svc, luck: Luck, draw: nat, st: State)
    requires 0 < s.first <= MAX_THIN_ID && svc in s.actors && s.actors[svc].phase.Busy? && !s.actors[svc].phase.work.Answering?
    ensures SameWork(s.actors[svc], Acted(s, svc, luck, draw, st))
  {
    var actor := s.actors[svc];
    forall kind | WorkFits(kind, actor.phase.work)
      ensures WorkFits(kind, WorkNext(s.first, s.disk.devices, actor.id, actor.phase.work, luck, draw))
    {
      WorkStaysFit(s.first, s.disk.devices, actor.id, actor.phase.work, luck, draw, kind);
    }
  }

  lemma ActMoves(s: Sys, a: Action)
    requires Core(s) && a.Act? && Enabled(s, a)
    ensures ActorMoves(s, Step(s, a), a.svc)
  {
    if !s.actors[a.svc].phase.work.Answering? {
      ActKeepsWork(s, a.svc, a.luck, a.draw, a.st);
    } else {
      assert ActorOk(s, a.svc);
    }
  }

  lemma ReportMoves(s: Sys, a: Action)
    requires 0 < s.first <= MAX_THIN_ID && (a.Poll? || a.SeeExit? || a.Panic?) && Enabled(s, a)
    ensures ActorMoves(s, Step(s, a), a.svc)
  {
  }

  lemma LeaveMoves(s: Sys, a: Action)
    requires 0 < s.first <= MAX_THIN_ID && (a.Quit? || a.Close?) && Enabled(s, a)
    ensures ActorMoves(s, Step(s, a), a.svc)
  {
  }

  lemma ActorActionMoves(s: Sys, a: Action, s': Sys)
    requires Core(s) && ActorAction(a) && Enabled(s, a) && s' == Step(s, a)
    ensures ActorMoves(s, s', a.svc)
  {
    if a.Act? {
      ActMoves(s, a);
    } else if a.Quit? || a.Close? {
      LeaveMoves(s, a);
    } else {
      ReportMoves(s, a);
    }
  }

  lemma MovesKeepsActors(s: Sys, s': Sys, svc: Svc, other: Svc)
    requires ActorMoves(s, s', svc) && other in s'.actors && ActorOk(s, svc) && ActorOk(s, other)
    ensures ActorOk(s', other)
  {
  }

  lemma MovesKeepsCalls(s: Sys, s': Sys, svc: Svc, c: CallId)
    requires Core(s) && ActorMoves(s, s', svc) && c in s'.calls
    ensures CallOk(s', c)
  {
    assert CallOk(s, c) && ActorOk(s, svc);
  }

  lemma MovesKeepsHolder(s: Sys, s': Sys, svc: Svc)
    requires Core(s) && ActorMoves(s, s', svc)
    ensures HolderOk(s')
  {
    forall id <- s'.holder ensures HeldRightly(s', id) {
      assert HeldRightly(s, id);
    }
  }

  lemma MovesKeepsRest(s: Sys, s': Sys, svc: Svc)
    requires Core(s) && ActorMoves(s, s', svc)
    ensures Disjoint(s'.book) && EntriesOk(s') && AuditOk(s') && RecoveryOk(s') && HandledOk(s')
  {
    forall id <- s'.book.services ensures EntryOk(s', id) {
      assert EntryOk(s, id);
    }
    assert ActorOk(s, svc);
  }

  lemma MovesKeepsCore(s: Sys, s': Sys, svc: Svc)
    requires Core(s) && ActorMoves(s, s', svc)
    ensures Core(s')
  {
    forall other <- s'.actors ensures ActorOk(s', other) {
      assert ActorOk(s, svc) && ActorOk(s, other);
      MovesKeepsActors(s, s', svc, other);
    }
    forall c <- s'.calls ensures CallOk(s', c) { MovesKeepsCalls(s, s', svc, c); }
    MovesKeepsHolder(s, s', svc);
    MovesKeepsRest(s, s', svc);
  }

  // ---- So does every other step ----

  predicate Begins(a: Action) {
    a.CreateBegin? || a.StopBegin? || a.RemoveBegin?
  }

  predicate InDo(a: Action) {
    a.ReapBegin? || a.Deliver? || a.TakeReply? || a.SeeDone?
  }

  predicate Ends(a: Action) {
    a.CreateEnd? || a.StopEnd? || a.RemoveEnd?
  }

  lemma FreshCall(s: Sys)
    requires CallsOk(s)
    ensures s.nextCall !in s.calls
  {
    assert forall c <- s.calls :: CallOk(s, c) && c < s.nextCall;
  }

  lemma StepDisjoint(s: Sys, a: Action)
    requires Core(s) && !ActorAction(a) && Enabled(s, a)
    ensures Disjoint(BookAfter(s, a))
  {
  }

  lemma StepEntriesOnBegin(s: Sys, a: Action, s': Sys, id: Id)
    requires Begins(a)
    requires Core(s) && !ActorAction(a) && Enabled(s, a) && s'.book == BookAfter(s, a) && s'.actors == ActorsAfter(s, a)
    requires id in s'.book.services
    ensures EntryOk(s', id)
  {
  }

  lemma StepEntriesInDo(s: Sys, a: Action, s': Sys, id: Id)
    requires InDo(a)
    requires Core(s) && !ActorAction(a) && Enabled(s, a) && s'.book == BookAfter(s, a) && s'.actors == ActorsAfter(s, a)
    requires id in s'.book.services
    ensures EntryOk(s', id)
  {
  }

  lemma StepEntriesOnEnd(s: Sys, a: Action, s': Sys, id: Id)
    requires Ends(a)
    requires Core(s) && !ActorAction(a) && Enabled(s, a) && s'.book == BookAfter(s, a) && s'.actors == ActorsAfter(s, a)
    requires id in s'.book.services
    ensures EntryOk(s', id)
  {
  }

  lemma StepEntriesOtherwise(s: Sys, a: Action, s': Sys, id: Id)
    requires !Begins(a) && !InDo(a) && !Ends(a)
    requires Core(s) && !ActorAction(a) && Enabled(s, a) && s'.book == BookAfter(s, a) && s'.actors == ActorsAfter(s, a)
    requires id in s'.book.services
    ensures EntryOk(s', id)
  {
  }

  lemma StepEntries(s: Sys, a: Action, s': Sys, id: Id)
    requires Core(s) && !ActorAction(a) && Enabled(s, a) && s'.book == BookAfter(s, a) && s'.actors == ActorsAfter(s, a)
    requires id in s'.book.services
    ensures EntryOk(s', id)
  {
    if Begins(a) { StepEntriesOnBegin(s, a, s', id); }
    else if InDo(a) { StepEntriesInDo(s, a, s', id); }
    else if Ends(a) { StepEntriesOnEnd(s, a, s', id); }
    else { StepEntriesOtherwise(s, a, s', id); }
  }

  lemma StepOwnerOnBegin(s: Sys, a: Action, s': Sys, svc: Svc)
    requires Begins(a)
    requires 0 < s.first <= MAX_THIN_ID && (svc in s.actors ==> ActorOk(s, svc)) && EntriesOk(s) && s.nextCall !in s.calls && Enabled(s, a) && s'.book == BookAfter(s, a) && s'.actors == ActorsAfter(s, a)
    requires s'.calls == CallsAfter(s, a) && s'.nextSvc == NextSvc(s, a) && svc in s'.actors
    ensures svc < s'.nextSvc && OwnerOk(s', svc, s'.actors[svc])
  {
  }

  lemma StepOwnerInDo(s: Sys, a: Action, s': Sys, svc: Svc)
    requires InDo(a)
    requires 0 < s.first <= MAX_THIN_ID && svc in s.actors && ActorOk(s, svc) && a.c in s.calls && CallOk(s, a.c) && Enabled(s, a) && s'.book == BookAfter(s, a) && s'.actors == ActorsAfter(s, a)
    requires s'.calls == CallsAfter(s, a) && s'.nextSvc == NextSvc(s, a) && svc in s'.actors
    ensures svc < s'.nextSvc && OwnerOk(s', svc, s'.actors[svc])
  {
  }

  lemma StepOwnerOnEnd(s: Sys, a: Action, s': Sys, svc: Svc)
    requires Ends(a) && 0 < s.first <= MAX_THIN_ID && svc in s.actors && ActorOk(s, svc) && EntriesOk(s)
    requires Enabled(s, a) && s'.book == BookAfter(s, a) && s'.actors == ActorsAfter(s, a)
    requires s'.calls == CallsAfter(s, a) && s'.nextSvc == s.nextSvc && CallOk(s, a.c)
    ensures svc < s'.nextSvc && svc in s'.actors && OwnerOk(s', svc, s'.actors[svc])
  {
  }

  lemma StepOwnerOtherwise(s: Sys, a: Action, s': Sys, svc: Svc)
    requires !Begins(a) && !InDo(a) && !Ends(a)
    requires Core(s) && !ActorAction(a) && Enabled(s, a) && s'.book == BookAfter(s, a) && s'.actors == ActorsAfter(s, a)
    requires s'.calls == CallsAfter(s, a) && s'.nextSvc == NextSvc(s, a) && svc in s'.actors
    ensures svc < s'.nextSvc && OwnerOk(s', svc, s'.actors[svc])
  {
  }

  lemma StepOwner(s: Sys, a: Action, s': Sys, svc: Svc)
    requires Core(s) && !ActorAction(a) && Enabled(s, a) && s'.book == BookAfter(s, a) && s'.actors == ActorsAfter(s, a)
    requires s'.calls == CallsAfter(s, a) && s'.nextSvc == NextSvc(s, a) && svc in s'.actors
    ensures svc < s'.nextSvc && OwnerOk(s', svc, s'.actors[svc])
  {
    if Begins(a) {
      assert svc in s.actors ==> ActorOk(s, svc);
      FreshCall(s);
      StepOwnerOnBegin(s, a, s', svc);
    }
    else if InDo(a) {
      assert ActorOk(s, svc) && CallOk(s, a.c);
      StepOwnerInDo(s, a, s', svc);
    }
    else if Ends(a) {
      assert ActorOk(s, svc) && CallOk(s, a.c);
      StepOwnerOnEnd(s, a, s', svc);
    }
    else { StepOwnerOtherwise(s, a, s', svc); }
  }

  lemma StepBusyOnBegin(s: Sys, a: Action, s': Sys, svc: Svc)
    requires Begins(a)
    requires Core(s) && !ActorAction(a) && Enabled(s, a) && s'.actors == ActorsAfter(s, a) && s'.calls == CallsAfter(s, a)
    requires svc in s'.actors
    ensures BusyOk(s', svc, s'.actors[svc])
  {
  }

  lemma StepBusyInDo(s: Sys, a: Action, s': Sys, svc: Svc)
    requires InDo(a)
    requires Core(s) && !ActorAction(a) && Enabled(s, a) && s'.actors == ActorsAfter(s, a) && s'.calls == CallsAfter(s, a)
    requires svc in s'.actors
    ensures BusyOk(s', svc, s'.actors[svc])
  {
  }

  lemma StepBusyOnEnd(s: Sys, a: Action, s': Sys, svc: Svc)
    requires Ends(a)
    requires Core(s) && !ActorAction(a) && Enabled(s, a) && s'.actors == ActorsAfter(s, a) && s'.calls == CallsAfter(s, a)
    requires svc in s'.actors
    ensures BusyOk(s', svc, s'.actors[svc])
  {
  }

  lemma StepBusyOtherwise(s: Sys, a: Action, s': Sys, svc: Svc)
    requires !Begins(a) && !InDo(a) && !Ends(a)
    requires Core(s) && !ActorAction(a) && Enabled(s, a) && s'.actors == ActorsAfter(s, a) && s'.calls == CallsAfter(s, a)
    requires svc in s'.actors
    ensures BusyOk(s', svc, s'.actors[svc])
  {
  }

  lemma StepBusy(s: Sys, a: Action, s': Sys, svc: Svc)
    requires Core(s) && !ActorAction(a) && Enabled(s, a) && s'.actors == ActorsAfter(s, a) && s'.calls == CallsAfter(s, a)
    requires svc in s'.actors
    ensures BusyOk(s', svc, s'.actors[svc])
  {
    if Begins(a) { StepBusyOnBegin(s, a, s', svc); }
    else if InDo(a) { StepBusyInDo(s, a, s', svc); }
    else if Ends(a) { StepBusyOnEnd(s, a, s', svc); }
    else { StepBusyOtherwise(s, a, s', svc); }
  }

  lemma StepLinksOnBegin(s: Sys, a: Action, s': Sys, c: CallId)
    requires Begins(a)
    requires Core(s) && !ActorAction(a) && Enabled(s, a) && s'.actors == ActorsAfter(s, a) && s'.calls == CallsAfter(s, a)
    requires s'.holder == HolderAfter(s, a) && s'.nextCall == NextCall(s, a) && c in s'.calls
    ensures LinksOk(s', c)
  {
  }

  lemma StepLinksInDo(s: Sys, a: Action, s': Sys, c: CallId)
    requires InDo(a)
    requires Core(s) && !ActorAction(a) && Enabled(s, a) && s'.actors == ActorsAfter(s, a) && s'.calls == CallsAfter(s, a)
    requires s'.holder == HolderAfter(s, a) && s'.nextCall == NextCall(s, a) && c in s'.calls
    ensures LinksOk(s', c)
  {
  }

  lemma StepLinksOnEnd(s: Sys, a: Action, s': Sys, c: CallId)
    requires Ends(a)
    requires Core(s) && !ActorAction(a) && Enabled(s, a) && s'.actors == ActorsAfter(s, a) && s'.calls == CallsAfter(s, a)
    requires s'.holder == HolderAfter(s, a) && s'.nextCall == NextCall(s, a) && c in s'.calls
    ensures LinksOk(s', c)
  {
  }

  lemma StepLinksOtherwise(s: Sys, a: Action, s': Sys, c: CallId)
    requires !Begins(a) && !InDo(a) && !Ends(a)
    requires 0 < s.first <= MAX_THIN_ID && HolderOk(s) && AuditOk(s) && RecoveryOk(s) && (c in s.calls ==> LinksOk(s, c)) && !ActorAction(a) && Enabled(s, a) && s'.actors == ActorsAfter(s, a) && s'.calls == CallsAfter(s, a)
    requires s'.holder == HolderAfter(s, a) && s'.nextCall == NextCall(s, a) && c in s'.calls
    ensures LinksOk(s', c)
  {
  }

  lemma StepLinks(s: Sys, a: Action, s': Sys, c: CallId)
    requires Core(s) && !ActorAction(a) && Enabled(s, a) && s'.actors == ActorsAfter(s, a) && s'.calls == CallsAfter(s, a)
    requires s'.holder == HolderAfter(s, a) && s'.nextCall == NextCall(s, a) && c in s'.calls
    ensures LinksOk(s', c)
  {
    if Begins(a) { StepLinksOnBegin(s, a, s', c); }
    else if InDo(a) { StepLinksInDo(s, a, s', c); }
    else if Ends(a) { StepLinksOnEnd(s, a, s', c); }
    else {
      assert c in s.calls ==> CallOk(s, c);
      StepLinksOtherwise(s, a, s', c);
    }
  }

  lemma StepPcOnBegin(s: Sys, a: Action, s': Sys, c: CallId)
    requires Begins(a)
    requires Core(s) && !ActorAction(a) && Enabled(s, a) && s'.actors == ActorsAfter(s, a) && s'.calls == CallsAfter(s, a)
    requires s'.handled == HandledAfter(s, a) && c in s'.calls && s'.calls[c].svc in s'.actors
    ensures PcOk(s', c, s'.calls[c])
  {
  }

  lemma StepPcInDo(s: Sys, a: Action, s': Sys, c: CallId)
    requires InDo(a)
    requires 0 < s.first <= MAX_THIN_ID && c in s.calls && CallOk(s, c) && Enabled(s, a) && s'.actors == ActorsAfter(s, a) && s'.calls == CallsAfter(s, a)
    requires s'.handled == HandledAfter(s, a) && c in s'.calls && s'.calls[c].svc in s'.actors
    ensures PcOk(s', c, s'.calls[c])
  {
  }

  lemma StepPcOnEnd(s: Sys, a: Action, s': Sys, c: CallId)
    requires Ends(a)
    requires Core(s) && !ActorAction(a) && Enabled(s, a) && s'.actors == ActorsAfter(s, a) && s'.calls == CallsAfter(s, a)
    requires s'.handled == HandledAfter(s, a) && c in s'.calls && s'.calls[c].svc in s'.actors
    ensures PcOk(s', c, s'.calls[c])
  {
  }

  lemma StepPcOtherwise(s: Sys, a: Action, s': Sys, c: CallId)
    requires !Begins(a) && !InDo(a) && !Ends(a)
    requires Core(s) && !ActorAction(a) && Enabled(s, a) && s'.actors == ActorsAfter(s, a) && s'.calls == CallsAfter(s, a)
    requires s'.handled == HandledAfter(s, a) && c in s'.calls && s'.calls[c].svc in s'.actors
    ensures PcOk(s', c, s'.calls[c])
  {
  }

  lemma StepPc(s: Sys, a: Action, s': Sys, c: CallId)
    requires Core(s) && !ActorAction(a) && Enabled(s, a) && s'.actors == ActorsAfter(s, a) && s'.calls == CallsAfter(s, a)
    requires s'.handled == HandledAfter(s, a) && c in s'.calls && s'.calls[c].svc in s'.actors
    ensures PcOk(s', c, s'.calls[c])
  {
    if Begins(a) { StepPcOnBegin(s, a, s', c); }
    else if InDo(a) {
      assert CallOk(s, c);
      StepPcInDo(s, a, s', c);
    }
    else if Ends(a) { StepPcOnEnd(s, a, s', c); }
    else { StepPcOtherwise(s, a, s', c); }
  }

  lemma StepHolderOnBegin(s: Sys, a: Action, s': Sys)
    requires Begins(a)
    requires HolderOk(s) && s.nextCall !in s.calls && Enabled(s, a) && s'.book == BookAfter(s, a) && s'.calls == CallsAfter(s, a)
    requires s'.audit == AuditAfter(s, a) && s'.holder == HolderAfter(s, a)
    ensures HolderOk(s')
  {
  }

  lemma StepHolderInDo(s: Sys, a: Action, s': Sys)
    requires InDo(a)
    requires HolderOk(s) && Enabled(s, a) && s'.book == BookAfter(s, a) && s'.calls == CallsAfter(s, a)
    requires s'.audit == AuditAfter(s, a) && s'.holder == HolderAfter(s, a)
    ensures HolderOk(s')
  {
  }

  lemma StepHolderOnEnd(s: Sys, a: Action, s': Sys)
    requires Ends(a)
    requires HolderOk(s) && Enabled(s, a) && s'.book == BookAfter(s, a) && s'.calls == CallsAfter(s, a)
    requires s'.audit == AuditAfter(s, a) && s'.holder == HolderAfter(s, a)
    ensures HolderOk(s')
  {
  }

  lemma StepHolderOtherwise(s: Sys, a: Action, s': Sys)
    requires !Begins(a) && !InDo(a) && !Ends(a)
    requires HolderOk(s) && AuditOk(s) && Disjoint(s.book) && !ActorAction(a) && Enabled(s, a) && s'.book == BookAfter(s, a) && s'.calls == CallsAfter(s, a)
    requires s'.audit == AuditAfter(s, a) && s'.holder == HolderAfter(s, a)
    ensures HolderOk(s')
  {
  }

  lemma StepHolder(s: Sys, a: Action, s': Sys)
    requires Core(s) && !ActorAction(a) && Enabled(s, a) && s'.book == BookAfter(s, a) && s'.calls == CallsAfter(s, a)
    requires s'.audit == AuditAfter(s, a) && s'.holder == HolderAfter(s, a)
    ensures HolderOk(s')
  {
    if Begins(a) {
      FreshCall(s);
      StepHolderOnBegin(s, a, s');
    }
    else if InDo(a) { StepHolderInDo(s, a, s'); }
    else if Ends(a) { StepHolderOnEnd(s, a, s'); }
    else { StepHolderOtherwise(s, a, s'); }
  }

  lemma StepAuditOnRemove(s: Sys, a: Action, s': Sys)
    requires Core(s) && (a.RemoveBegin? || a.RemoveEnd?) && Enabled(s, a) && s'.audit == s.audit && s'.holder == HolderAfter(s, a)
    ensures AuditOk(s')
  {
    if a.RemoveEnd? { assert CallOk(s, a.c); }
  }

  lemma StepAuditOtherwise(s: Sys, a: Action, s': Sys)
    requires AuditOk(s) && !a.RemoveBegin? && !a.RemoveEnd? && !ActorAction(a) && Enabled(s, a)
    requires s'.audit == AuditAfter(s, a) && s'.holder == HolderAfter(s, a)
    ensures AuditOk(s')
  {
  }

  lemma StepAudit(s: Sys, a: Action, s': Sys)
    requires Core(s) && !ActorAction(a) && Enabled(s, a) && s'.audit == AuditAfter(s, a) && s'.holder == HolderAfter(s, a)
    ensures AuditOk(s')
  {
    if a.RemoveBegin? || a.RemoveEnd? { StepAuditOnRemove(s, a, s'); } else { StepAuditOtherwise(s, a, s'); }
  }

  lemma StepRecovery(s: Sys, a: Action, s': Sys)
    requires Core(s) && !ActorAction(a) && Enabled(s, a) && s'.book == BookAfter(s, a) && s'.calls == CallsAfter(s, a)
    requires s'.audit == AuditAfter(s, a) && s'.holder == HolderAfter(s, a) && s'.recovery == RecoveryAfter(s, a)
    ensures RecoveryOk(s')
  {
  }

  lemma StepHandled(s: Sys, a: Action, s': Sys)
    requires Core(s) && !ActorAction(a) && Enabled(s, a) && s'.handled == HandledAfter(s, a) && s'.nextCall == NextCall(s, a)
    ensures HandledOk(s')
  {
  }

  lemma StepCore(s: Sys, a: Action)
    requires Core(s)
    ensures Core(Step(s, a))
  {
    if Enabled(s, a) && ActorAction(a) {
      ActorActionMoves(s, a, Step(s, a));
      MovesKeepsCore(s, Step(s, a), a.svc);
    } else if Enabled(s, a) {
      var s' := Step(s, a);
      StepDisjoint(s, a);
      forall id <- s'.book.services ensures EntryOk(s', id) { StepEntries(s, a, s', id); }
      forall svc <- s'.actors ensures ActorOk(s', svc) {
        StepOwner(s, a, s', svc);
        StepBusy(s, a, s', svc);
      }
      forall c <- s'.calls ensures CallOk(s', c) {
        StepLinks(s, a, s', c);
        StepPc(s, a, s', c);
      }
      StepHolder(s, a, s');
      StepAudit(s, a, s');
      StepRecovery(s, a, s');
      StepHandled(s, a, s');
    }
  }

  lemma InitCore(s: Sys)
    requires Init(s)
    ensures Core(s)
  {
  }
}
