/** A worker host as a state machine: the manager's records, one actor per sandbox, the
    API calls in flight, the audit, start-up recovery, and the disk they work on.

    A step is one critical section, one exchange on a channel, or one operation on the
    disk. A worker may crash between any two steps; only the disk survives it. */
module Host {
  import opened Collections
  import opened Books
  import opened Thin

  type CallId = nat

  // ---- Tearing a sandbox down ----

  /** How an operation on the disk turns out; `HalfDone` failed after it took effect. */
  datatype Luck = Fine | Fails | HalfDone

  /** Where a teardown is: before the volume's device is removed, before its thin ID is
      freed, before the directory is removed, or at its end. */
  datatype Teardown = AtVolume | AtThin(thin: int) | AtDir | AtEnd(ok: bool)

  /** The sandboxes with a directory; those with a mapped device, and the thin ID its
      table names; and the thin IDs that delete messages have named. */
  datatype Disk = Disk(dirs: set<Id>, devices: map<Id, int>, deletes: seq<int>)

  function TeardownNext(first: int, devices: map<Id, int>, id: Id, t: Teardown, luck: Luck): Teardown {
    match t
    case AtVolume =>
      if luck != Fine then AtEnd(false)
      else if id !in devices then AtDir
      else if IsSandboxThin(first, devices[id]) then AtThin(devices[id])
      else AtEnd(false)
    case AtThin(_) => if luck == Fine then AtDir else AtEnd(false)
    case AtDir => AtEnd(luck == Fine)
    case AtEnd(ok) => AtEnd(ok)
  }

  function TeardownDisk(first: int, d: Disk, id: Id, t: Teardown, luck: Luck): Disk {
    match t
    case AtVolume =>
      if luck != Fails && id in d.devices && IsSandboxThin(first, d.devices[id])
      then d.(devices := d.devices - {id}) else d
    case AtThin(thin) => d.(deletes := d.deletes + [thin])
    case AtDir => if luck == Fails then d else d.(dirs := d.dirs - {id})
    case AtEnd(_) => d
  }

  // ---- Actors ----

  datatype After = NodeFailed | CreateFails | Removes

  /** What an actor still does with the command at hand. */
  datatype Work =
    | MakeDir
    | Snap
    | Map(thin: int)
    | Unsnap(thin: int)
    | Node
    | Boot
    | Cleaning(at: Teardown, after: After)
    | Stopping
    | Answering(ok: bool, exit: bool)

  /** `Leaving` is past its last command; `Done` has closed its done channel. */
  datatype Phase = Idle | Busy(call: CallId, work: Work) | Leaving | Done

  /** Who answers for an actor: the entry that tracks it, the remove that took it, or
      nobody once its create failed. */
  datatype Owner = Tracked | TakenBy(call: CallId) | Dropped

  datatype Actor = Actor(id: Id, owner: Owner, phase: Phase, vm: bool, watching: bool, state: State) {
    /** It can no longer touch the disk. */
    predicate Finished() {
      phase.Leaving? || phase.Done?
    }
  }

  /** A VM's commands begin here. A second create is refused, and ends the actor. */
  function FirstWork(kind: Kind, vm: bool): Work {
    match kind
    case Creates => if vm then Answering(false, true) else MakeDir
    case Stops => if vm then Stopping else Answering(true, false)
    case RemovesIt => if vm then Cleaning(AtVolume, Removes) else Answering(true, true)
  }

  function WorkNext(first: int, devices: map<Id, int>, id: Id, w: Work, luck: Luck, draw: nat): Work
    requires 0 < first <= MAX_THIN_ID
  {
    match w
    case MakeDir => if luck == Fine then Snap else Answering(false, true)
    case Snap => if luck == Fine then Map(Drawn(first, draw)) else Cleaning(AtVolume, CreateFails)
    case Map(thin) => if luck == Fine && id !in devices then Node else Unsnap(thin)
    case Unsnap(_) => Cleaning(AtVolume, CreateFails)
    case Node => if luck == Fine then Boot else Cleaning(AtVolume, NodeFailed)
    case Boot => if luck == Fine then Answering(true, false) else Cleaning(AtVolume, CreateFails)
    case Cleaning(at, after) =>
      if after == NodeFailed && (at.AtEnd? || at.AtDir?) then Cleaning(AtVolume, CreateFails)
      else if at.AtEnd? then Answering(after == Removes && at.ok && luck == Fine, true)
      else Cleaning(TeardownNext(first, devices, id, at, luck), after)
    case Stopping => Answering(luck == Fine, false)
    case Answering(ok, exit) => w
  }

  function WorkDisk(first: int, d: Disk, id: Id, w: Work, luck: Luck): Disk {
    match w
    case MakeDir => if luck == Fails then d else d.(dirs := d.dirs + {id})
    case Map(thin) =>
      if luck == Fails || id in d.devices then d
      else d.(devices := d.devices[id := if luck == Fine then thin else NO_THIN])
    case Unsnap(thin) => d.(deletes := d.deletes + [thin])
    case Cleaning(at, after) =>
      if after == NodeFailed && at.AtDir? then d else TeardownDisk(first, d, id, at, luck)
    case _ => d
  }

  // ---- Calls ----

  datatype Kind = Creates | Stops | RemovesIt

  datatype Outcome = Replied(ok: bool) | Exited

  /** Where a call is in handing its command to the actor and waiting for the reply, and
      after that: a remove whose actor was gone reaps. */
  datatype Pc = Sending | Waiting(reply: Option<bool>) | Returned(outcome: Outcome) | Reaping(at: Teardown)

  datatype Call = Call(kind: Kind, id: Id, svc: Svc, pc: Pc) {
    predicate InDo() {
      pc.Sending? || pc.Waiting?
    }
  }

  // ---- The host ----

  datatype Job = Job(id: Id, at: Teardown)

  datatype Audit = Resting | Listed(ids: set<Id>) | Sweeping(claimed: set<Id>, job: Option<Job>)

  datatype Recovery = Serving | Recovering(todo: set<Id>, job: Option<Job>)

  /** Who put a sandbox's deleting mark. */
  datatype Holder = ByRemove(call: CallId) | ByAudit

  datatype Reaper = OfCall(call: CallId) | OfAudit | OfRecovery

  datatype Sys = Sys(
    first: int,
    book: Book,
    actors: map<Svc, Actor>,
    calls: map<CallId, Call>,
    audit: Audit,
    recovery: Recovery,
    disk: Disk,
    holder: map<Id, Holder>,
    handled: map<CallId, bool>,
    nextSvc: Svc,
    nextCall: CallId)

  datatype Action =
    | CreateBegin(id: Id)
    | CreateEnd(c: CallId)
    | StopBegin(id: Id)
    | StopEnd(c: CallId)
    | RemoveBegin(id: Id)
    | ReapBegin(c: CallId)
    | RemoveEnd(c: CallId)
    | Deliver(c: CallId)
    | TakeReply(c: CallId)
    | SeeDone(c: CallId)
    | Act(svc: Svc, luck: Luck, draw: nat, st: State)
    | Poll(svc: Svc, st: State)
    | SeeExit(svc: Svc)
    | Panic(svc: Svc)
    | Quit(svc: Svc)
    | Close(svc: Svc)
    | AuditList
    | AuditClaim
    | AuditStart(id: Id)
    | AuditRelease
    | AuditRest
    | CheckLiveness
    | SetCapacity(n: int)
    | ReapStep(reaper: Reaper, luck: Luck)
    | Crash
    | RecoverAdopt(id: Id, st: State)
    | RecoverReap(id: Id)
    | RecoverNext
    | RecoverDone

  // ---- When an action may happen ----

  predicate CallAt(s: Sys, c: CallId, kind: Kind) {
    c in s.calls && s.calls[c].kind == kind
  }

  /** The step a reaper is at. */
  function JobOf(s: Sys, r: Reaper): Option<Job> {
    match r
    case OfCall(c) =>
      if c in s.calls && s.calls[c].pc.Reaping? then Some(Job(s.calls[c].id, s.calls[c].pc.at)) else None
    case OfAudit => if s.audit.Sweeping? then s.audit.job else None
    case OfRecovery => if s.recovery.Recovering? then s.recovery.job else None
  }

  predicate Phased(s: Sys, svc: Svc, phase: Phase) {
    svc in s.actors && s.actors[svc].phase == phase
  }

  predicate Enabled(s: Sys, a: Action) {
    match a
    case CreateBegin(id) => s.recovery.Serving? && CreateAnswerFor(s.book, id) == Registers
    case CreateEnd(c) => CallAt(s, c, Creates) && s.calls[c].pc.Returned?
    case StopBegin(id) => s.recovery.Serving? && id in s.book.services
    case StopEnd(c) => CallAt(s, c, Stops) && s.calls[c].pc.Returned?
    case RemoveBegin(id) => s.recovery.Serving? && RemoveAnswerFor(s.book, id).Takes?
    case ReapBegin(c) => CallAt(s, c, RemovesIt) && s.calls[c].pc == Returned(Exited)
    case RemoveEnd(c) =>
      CallAt(s, c, RemovesIt) &&
      ((s.calls[c].pc.Returned? && s.calls[c].pc.outcome.Replied?) || (s.calls[c].pc.Reaping? && s.calls[c].pc.at.AtEnd?))
    case Deliver(c) => c in s.calls && s.calls[c].pc.Sending? && Phased(s, s.calls[c].svc, Idle)
    case TakeReply(c) => c in s.calls && s.calls[c].pc.Waiting? && s.calls[c].pc.reply.Some?
    case SeeDone(c) =>
      c in s.calls && Phased(s, s.calls[c].svc, Done) &&
      (s.calls[c].pc.Sending? || s.calls[c].pc == Waiting(None))
    case Act(svc, _, _, _) => svc in s.actors && s.actors[svc].phase.Busy?
    case Poll(svc, _) => Phased(s, svc, Idle) && s.actors[svc].vm && s.actors[svc].state != Dead
    case SeeExit(svc) => Phased(s, svc, Idle) && s.actors[svc].watching
    case Panic(svc) => svc in s.actors && !s.actors[svc].Finished()
    case Quit(svc) => Phased(s, svc, Idle)
    case Close(svc) => Phased(s, svc, Leaving)
    case AuditList => s.recovery.Serving? && s.audit.Resting?
    case AuditClaim => s.audit.Listed?
    case AuditStart(id) => s.audit.Sweeping? && s.audit.job.None? && id in s.audit.claimed
    case AuditRelease => s.audit.Sweeping? && s.audit.job.Some? && s.audit.job.value.at.AtEnd?
    case AuditRest => s.audit == Sweeping({}, None)
    case CheckLiveness => true
    case SetCapacity(_) => true
    case ReapStep(r, _) => JobOf(s, r).Some?
    case Crash => true
    case RecoverAdopt(id, _) => s.recovery.Recovering? && s.recovery.job.None? && id in s.recovery.todo
    case RecoverReap(id) => s.recovery.Recovering? && s.recovery.job.None? && id in s.recovery.todo
    case RecoverNext => s.recovery.Recovering? && s.recovery.job.Some? && s.recovery.job.value.at.AtEnd?
    case RecoverDone => s.recovery == Recovering({}, None)
  }

  // ---- What an action does ----

  /** An actor's setState: a state that is new to it is recorded and reported. */
  function Reporting(b: Book, svc: Svc, actor: Actor, st: State): Book {
    if actor.state == st then b else Reported(b, actor.id, svc, st)
  }

  /** The state poll leaves an actor in. */
  function Polled(actor: Actor, st: State): State {
    if actor.state == Dead then Dead else st
  }

  predicate Boots(actor: Actor, luck: Luck) {
    actor.phase.Busy? && actor.phase.work.Boot? && luck == Fine
  }

  function DoneSvcs(actors: map<Svc, Actor>): set<Svc> {
    set svc | svc in actors && actors[svc].phase.Done?
  }

  function BookAfter(s: Sys, a: Action): Book
    requires Enabled(s, a)
  {
    match a
    case CreateBegin(id) => Registered(s.book, id, s.nextSvc)
    case CreateEnd(c) =>
      if s.calls[c].pc.outcome == Replied(true) then s.book else CreateFailed(s.book, s.calls[c].id, s.calls[c].svc)
    case RemoveBegin(id) => Taken(s.book, id)
    case RemoveEnd(c) => Released(s.book, s.calls[c].id)
    case Act(svc, luck, _, st) =>
      if Boots(s.actors[svc], luck) then Reporting(s.book, svc, s.actors[svc], Polled(s.actors[svc], st)) else s.book
    case Poll(svc, st) => Reporting(s.book, svc, s.actors[svc], st)
    case SeeExit(svc) => Reporting(s.book, svc, s.actors[svc], Dead)
    case Panic(svc) => Reporting(s.book, svc, s.actors[svc], Dead)
    case AuditClaim => Claimed(s.book, s.audit.ids)
    case AuditRelease => Released(s.book, s.audit.job.value.id)
    case CheckLiveness => LivenessChecked(s.book, DoneSvcs(s.actors))
    case SetCapacity(n) => s.book.(capacity := n)
    case Crash => Book(map[], {}, 0)
    case RecoverAdopt(id, st) => s.book.(services := s.book.services[id := Entry(s.nextSvc, st)])
    case _ => s.book
  }

  function Acted(s: Sys, svc: Svc, luck: Luck, draw: nat, st: State): Actor
    requires svc in s.actors && s.actors[svc].phase.Busy? && 0 < s.first <= MAX_THIN_ID
  {
    var actor := s.actors[svc];
    var w := actor.phase.work;
    if w.Answering? then actor.(phase := if w.exit then Leaving else Idle)
    else
      var next := WorkNext(s.first, s.disk.devices, actor.id, w, luck, draw);
      actor.(
        phase := actor.phase.(work := next),
        vm := actor.vm || (w.MakeDir? && luck == Fine),
        watching := actor.watching || Boots(actor, luck),
        state := if Boots(actor, luck) then Polled(actor, st) else actor.state)
  }

  function ActorsAfter(s: Sys, a: Action): map<Svc, Actor>
    requires Enabled(s, a) && 0 < s.first <= MAX_THIN_ID
  {
    match a
    case CreateBegin(id) => s.actors[s.nextSvc := Actor(id, Tracked, Idle, false, false, Starting)]
    case CreateEnd(c) =>
      var call := s.calls[c];
      if call.pc.outcome != Replied(true) && TracksAs(s.book, call.id, call.svc) && call.svc in s.actors
      then s.actors[call.svc := s.actors[call.svc].(owner := Dropped)] else s.actors
    case RemoveBegin(id) =>
      var svc := s.book.services[id].svc;
      if svc in s.actors then s.actors[svc := s.actors[svc].(owner := TakenBy(s.nextCall))] else s.actors
    case Deliver(c) =>
      var svc := s.calls[c].svc;
      s.actors[svc := s.actors[svc].(phase := Busy(c, FirstWork(s.calls[c].kind, s.actors[svc].vm)))]
    case Act(svc, luck, draw, st) => s.actors[svc := Acted(s, svc, luck, draw, st)]
    case Poll(svc, st) => s.actors[svc := s.actors[svc].(state := st)]
    case SeeExit(svc) => s.actors[svc := s.actors[svc].(state := Dead, watching := false)]
    case Panic(svc) => s.actors[svc := s.actors[svc].(state := Dead, phase := Leaving)]
    case Quit(svc) => s.actors[svc := s.actors[svc].(phase := Leaving)]
    case Close(svc) => s.actors[svc := s.actors[svc].(phase := Done)]
    case Crash => map[]
    case RecoverAdopt(id, st) => s.actors[s.nextSvc := Actor(id, Tracked, Idle, true, true, st)]
    case _ => s.actors
  }

  /** The call an actor answers with this action, if it does. */
  predicate Answers(s: Sys, a: Action) {
    a.Act? && a.svc in s.actors && s.actors[a.svc].phase.Busy? && s.actors[a.svc].phase.work.Answering?
  }

  function CallsAfter(s: Sys, a: Action): map<CallId, Call>
    requires Enabled(s, a)
  {
    match a
    case CreateBegin(id) => s.calls[s.nextCall := Call(Creates, id, s.nextSvc, Sending)]
    case StopBegin(id) => s.calls[s.nextCall := Call(Stops, id, s.book.services[id].svc, Sending)]
    case RemoveBegin(id) => s.calls[s.nextCall := Call(RemovesIt, id, s.book.services[id].svc, Sending)]
    case CreateEnd(c) => s.calls - {c}
    case StopEnd(c) => s.calls - {c}
    case RemoveEnd(c) => s.calls - {c}
    case ReapBegin(c) => s.calls[c := s.calls[c].(pc := Reaping(AtVolume))]
    case Deliver(c) => s.calls[c := s.calls[c].(pc := Waiting(None))]
    case TakeReply(c) => s.calls[c := s.calls[c].(pc := Returned(Replied(s.calls[c].pc.reply.value)))]
    case SeeDone(c) => s.calls[c := s.calls[c].(pc := Returned(Exited))]
    case Act(svc, _, _, _) =>
      if Answers(s, a) && s.actors[svc].phase.call in s.calls then
        var c := s.actors[svc].phase.call;
        s.calls[c := s.calls[c].(pc := Waiting(Some(s.actors[svc].phase.work.ok)))]
      else s.calls
    case ReapStep(r, luck) =>
      if r.OfCall? then
        var job := JobOf(s, r).value;
        s.calls[r.call := s.calls[r.call].(pc := Reaping(TeardownNext(s.first, s.disk.devices, job.id, job.at, luck)))]
      else s.calls
    case Crash => map[]
    case _ => s.calls
  }

  function Advanced(s: Sys, job: Job, luck: Luck): Job {
    job.(at := TeardownNext(s.first, s.disk.devices, job.id, job.at, luck))
  }

  function AuditAfter(s: Sys, a: Action): Audit
    requires Enabled(s, a)
  {
    match a
    case AuditList => Listed(s.disk.dirs)
    case AuditClaim => Sweeping(Orphans(s.book, s.audit.ids), None)
    case AuditStart(id) => s.audit.(job := Some(Job(id, AtVolume)))
    case AuditRelease => Sweeping(s.audit.claimed - {s.audit.job.value.id}, None)
    case AuditRest => Resting
    case ReapStep(r, luck) => if r.OfAudit? then s.audit.(job := Some(Advanced(s, s.audit.job.value, luck))) else s.audit
    case Crash => Resting
    case _ => s.audit
  }

  function RecoveryAfter(s: Sys, a: Action): Recovery
    requires Enabled(s, a)
  {
    match a
    case Crash => Recovering(s.disk.dirs, None)
    case RecoverAdopt(id, _) => s.recovery.(todo := s.recovery.todo - {id})
    case RecoverReap(id) => Recovering(s.recovery.todo - {id}, Some(Job(id, AtVolume)))
    case RecoverNext => s.recovery.(job := None)
    case RecoverDone => Serving
    case ReapStep(r, luck) =>
      if r.OfRecovery? then s.recovery.(job := Some(Advanced(s, s.recovery.job.value, luck))) else s.recovery
    case _ => s.recovery
  }

  function DiskAfter(s: Sys, a: Action): Disk
    requires Enabled(s, a)
  {
    match a
    case Act(svc, luck, _, _) => WorkDisk(s.first, s.disk, s.actors[svc].id, s.actors[svc].phase.work, luck)
    case ReapStep(r, luck) => TeardownDisk(s.first, s.disk, JobOf(s, r).value.id, JobOf(s, r).value.at, luck)
    case _ => s.disk
  }

  function HolderAfter(s: Sys, a: Action): map<Id, Holder>
    requires Enabled(s, a)
  {
    match a
    case RemoveBegin(id) => s.holder[id := ByRemove(s.nextCall)]
    case RemoveEnd(c) => s.holder - {s.calls[c].id}
    case AuditClaim => s.holder + map id | id in Orphans(s.book, s.audit.ids) :: ByAudit
    case AuditRelease => s.holder - {s.audit.job.value.id}
    case Crash => map[]
    case _ => s.holder
  }

  function HandledAfter(s: Sys, a: Action): map<CallId, bool>
    requires Enabled(s, a)
  {
    if Answers(s, a) then s.handled[s.actors[a.svc].phase.call := s.actors[a.svc].phase.work.ok] else s.handled
  }

  function NextSvc(s: Sys, a: Action): Svc {
    if a.CreateBegin? || a.RecoverAdopt? then s.nextSvc + 1 else s.nextSvc
  }

  function NextCall(s: Sys, a: Action): CallId {
    if a.CreateBegin? || a.StopBegin? || a.RemoveBegin? then s.nextCall + 1 else s.nextCall
  }

  function Step(s: Sys, a: Action): Sys
    requires 0 < s.first <= MAX_THIN_ID
  {
    if !Enabled(s, a) then s
    else
      Sys(s.first, BookAfter(s, a), ActorsAfter(s, a), CallsAfter(s, a), AuditAfter(s, a), RecoveryAfter(s, a),
          DiskAfter(s, a), HolderAfter(s, a), HandledAfter(s, a),
          NextSvc(s, a), NextCall(s, a))
  }

  function Run(s: Sys, actions: seq<Action>): (s': Sys)
    requires 0 < s.first <= MAX_THIN_ID
    ensures s'.first == s.first
    decreases |actions|
  {
    if actions == [] then s else Run(Step(s, actions[0]), actions[1..])
  }

  /** A worker that starts on a host where some sandboxes were left behind, each
      device with its directory. */
  predicate Init(s: Sys) {
    && 0 < s.first <= MAX_THIN_ID
    && s.book == Book(map[], {}, 0) && s.actors == map[] && s.calls == map[] && s.holder == map[] && s.handled == map[]
    && s.audit == Resting && s.recovery == Recovering(s.disk.dirs, None)
    && s.disk.devices.Keys <= s.disk.dirs && s.disk.deletes == []
  }
}
