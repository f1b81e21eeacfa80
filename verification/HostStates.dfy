/** The states a worker host lists: what its actors last saw, and DEAD for good reason. */
module HostStates {
  import opened Books
  import opened Collections
  import opened Host
  import opened Thin
  import opened HostInvariants
  import opened HostTheorems

  /** An entry holds what its actor last saw, or was found dead. */
  predicate Agrees(s: Sys, id: Id)
    requires id in s.book.services
  {
    var e := s.book.services[id];
    e.state == Dead || (e.svc in s.actors && s.actors[e.svc].state == e.state)
  }

  ghost predicate StatesAgree(s: Sys) {
    forall id <- s.book.services :: Agrees(s, id)
  }

  lemma ActorAgrees(s: Sys, a: Action, s': Sys, id: Id)
    requires 0 < s.first <= MAX_THIN_ID && ActorAction(a) && Enabled(s, a)
    requires s'.book == BookAfter(s, a) && s'.actors == ActorsAfter(s, a)
    requires id in s.book.services && id in s'.book.services && EntryOk(s, id) && Agrees(s, id)
    ensures Agrees(s', id)
  {
  }

  lemma OtherAgrees(s: Sys, a: Action, s': Sys, id: Id)
    requires 0 < s.first <= MAX_THIN_ID && !ActorAction(a) && Enabled(s, a)
    requires s'.book == BookAfter(s, a) && s'.actors == ActorsAfter(s, a) && id in s'.book.services
    requires id in s.book.services ==> EntryOk(s, id) && Agrees(s, id) && s.book.services[id].svc < s.nextSvc
    ensures Agrees(s', id)
  {
  }

  lemma StepAgrees(s: Sys, a: Action)
    requires Core(s) && StatesAgree(s)
    ensures StatesAgree(Step(s, a))
  {
    if Enabled(s, a) {
      var s' := Step(s, a);
      forall id <- s'.book.services ensures Agrees(s', id) {
        assert id in s.book.services ==> EntryOk(s, id) && Agrees(s, id) && ActorOk(s, s.book.services[id].svc);
        if ActorAction(a) {
          ActorActionMoves(s, a, s');
          ActorAgrees(s, a, s', id);
        } else {
          OtherAgrees(s, a, s', id);
        }
      }
    }
  }

  lemma {:induction false} RunAgrees(s: Sys, actions: seq<Action>)
    requires Core(s) && StatesAgree(s)
    ensures Core(Run(s, actions)) && StatesAgree(Run(s, actions))
    decreases |actions|
  {
    if actions != [] {
      StepCore(s, actions[0]);
      StepAgrees(s, actions[0]);
      RunAgrees(Step(s, actions[0]), actions[1..]);
    }
  }

  /** In every run, what is listed of a sandbox is what its actor last saw, unless it was
      found dead. */
  lemma ListsWhatActorsSaw(s: Sys, actions: seq<Action>, id: Id)
    requires Init(s) && id in Run(s, actions).book.services
    ensures var s' := Run(s, actions);
            var e := s'.book.services[id];
            e.svc in s'.actors && s'.actors[e.svc].id == id && (e.state == Dead || e.state == s'.actors[e.svc].state)
  {
    InitCore(s);
    RunAgrees(s, actions);
    assert EntryOk(Run(s, actions), id) && Agrees(Run(s, actions), id);
  }

  lemma EndOfVmIsDead(s: Sys, a: Action, id: Id)
    requires Enabled(s, a) && (a.SeeExit? || a.Panic?) && TracksAs(s.book, id, a.svc)
    requires EntryOk(s, id) && Agrees(s, id)
    ensures id in BookAfter(s, a).services && BookAfter(s, a).services[id] == Entry(a.svc, Dead)
  {
  }

  /** Whether an actor has a VM, over every run: it was adopted with one, or its create has
      made the directory; so the only removes that touch nothing are of sandboxes whose
      create never began or never got that far. */
  lemma VmIsKept(s: Sys, a: Action, svc: Svc)
    requires Core(s) && Enabled(s, a) && svc in s.actors && svc in ActorsAfter(s, a)
    ensures s.actors[svc].vm ==> ActorsAfter(s, a)[svc].vm
    ensures !s.actors[svc].vm && ActorsAfter(s, a)[svc].vm ==>
              a.Act? && a.svc == svc && a.luck == Fine && s.actors[svc].phase.Busy? && s.actors[svc].phase.work.MakeDir?
  {
    assert ActorOk(s, svc);
  }

  /** In every run, once an actor sees its VM exit, or panics, its sandbox is listed DEAD;
      and once the audit has looked, so is every sandbox whose actor is gone. */
  lemma EndsAreListed(s: Sys, actions: seq<Action>, a: Action, id: Id)
    requires Init(s) && id in Run(s, actions).book.services && Enabled(Run(s, actions), a)
    ensures var s' := Run(s, actions);
            var book := BookAfter(s', a);
            && ((a.SeeExit? || a.Panic?) && s'.book.services[id].svc == a.svc ==>
                  id in book.services && book.services[id] == Entry(a.svc, Dead))
            && (a.CheckLiveness? && Phased(s', s'.book.services[id].svc, Done) ==>
                  id in book.services && book.services[id] == Entry(s'.book.services[id].svc, Dead))
  {
    InitCore(s);
    RunAgrees(s, actions);
    var s' := Run(s, actions);
    assert EntryOk(s', id) && Agrees(s', id);
    if (a.SeeExit? || a.Panic?) && s'.book.services[id].svc == a.svc {
      EndOfVmIsDead(s', a, id);
    } else if a.CheckLiveness? {
      GoneIsDead(s', id);
    }
  }

  /** A sandbox found alive at start-up is tracked in the state it was found in, by an
      actor that has its VM and watches it; a new one starts with neither. */
  lemma ActorsBegin(s: Sys, id: Id, st: State)
    requires 0 < s.first <= MAX_THIN_ID
    ensures Enabled(s, RecoverAdopt(id, st)) ==>
              var actors, book := ActorsAfter(s, RecoverAdopt(id, st)), BookAfter(s, RecoverAdopt(id, st));
              && actors == s.actors[s.nextSvc := Actor(id, Tracked, Idle, true, true, st)]
              && book == s.book.(services := s.book.services[id := Entry(s.nextSvc, st)])
    ensures Enabled(s, CreateBegin(id)) ==>
              var actors, book := ActorsAfter(s, CreateBegin(id)), BookAfter(s, CreateBegin(id));
              && actors == s.actors[s.nextSvc := Actor(id, Tracked, Idle, false, false, Starting)]
              && book == s.book.(services := s.book.services[id := Entry(s.nextSvc, Starting)])
  {
  }

  lemma GoneIsDead(s: Sys, id: Id)
    requires id in s.book.services && Enabled(s, CheckLiveness)
    ensures Phased(s, s.book.services[id].svc, Done) ==>
              id in BookAfter(s, CheckLiveness).services
              && BookAfter(s, CheckLiveness).services[id] == Entry(s.book.services[id].svc, Dead)
  {
  }
}
