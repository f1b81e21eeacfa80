/** The worker's sandbox manager: each method is one of its critical sections, the
    stretch of code that runs under its mutex. */
module SandboxManager {
  import opened Books

  datatype Listed = Listed(id: Id, state: State)

  /** The sandboxes that are not left to look at have been marked as they should be. */
  ghost predicate Marked(before: Book, services: map<Id, Entry>, dead: set<Id>, left: set<Id>, done: set<Svc>) {
    && services.Keys == before.services.Keys && left <= services.Keys
    && (forall id :: id in dead <==> id in ActorGone(before, done) && id !in left)
    && (forall id <- services :: services[id] ==
          if id in dead then before.services[id].(state := Dead) else before.services[id])
  }

  lemma MarksOne(before: Book, services: map<Id, Entry>, dead: set<Id>, left: set<Id>, done: set<Svc>, id: Id)
    requires Marked(before, services, dead, left, done) && id in left
    requires services[id].svc in done && services[id].state != Dead
    ensures Marked(before, services[id := services[id].(state := Dead)], dead + {id}, left - {id}, done)
  {
  }

  class Manager {
    var services: map<Id, Entry>
    var deleting: set<Id>
    var capacity: int

    function Contents(): Book
      reads this
    {
      Book(services, deleting, capacity)
    }

    constructor ()
      ensures Contents() == Book(map[], {}, 0)
    {
      services, deleting, capacity := map[], {}, 0;
    }

    method SetCapacity(n: int)
      modifies this
      ensures Contents() == old(Contents()).(capacity := n)
    {
      capacity := n;
    }

    /** Create, up to where its actor starts. `svc` is the actor it makes. */
    method BeginCreate(id: Id, svc: Svc) returns (answer: CreateAnswer)
      modifies this
      ensures answer == CreateAnswerFor(old(Contents()), id)
      ensures answer == InvalidId <==> !IsSandboxId(id)
      ensures answer == AlreadyTracked <==> IsSandboxId(id) && id in old(services)
      ensures answer == BeingRemoved <==> IsSandboxId(id) && id !in old(services) && id in old(deleting)
      ensures answer == AtCapacity <==>
                && IsSandboxId(id) && id !in old(services) && id !in old(deleting)
                && old(0 < capacity <= |services| + |deleting|)
      ensures answer == Registers ==> services == old(services)[id := Entry(svc, Starting)] && deleting == old(deleting)
      ensures answer != Registers ==> services == old(services) && deleting == old(deleting)
      ensures Contents() == if answer == Registers then Registered(old(Contents()), id, svc) else old(Contents())
      ensures old(Disjoint(Contents())) ==> Disjoint(Contents())
    {
      if !IsSandboxId(id) {
        return InvalidId;
      }
      if id in services {
        return AlreadyTracked;
      }
      if id in deleting {
        return BeingRemoved;
      }
      var hosted := |services| + |deleting|;
      if capacity > 0 && hosted >= capacity {
        return AtCapacity;
      }
      services := services[id := Entry(svc, Starting)];
      return Registers;
    }

    /** What Create does when its actor refused or was gone. */
    method EndCreate(id: Id, svc: Svc)
      modifies this
      ensures Contents() == CreateFailed(old(Contents()), id, svc)
      ensures old(Disjoint(Contents())) ==> Disjoint(Contents())
      ensures !TracksAs(Contents(), id, svc)
      ensures forall o, other :: old(TracksAs(Contents(), o, other)) && (o != id || other != svc) ==>
                TracksAs(Contents(), o, other) && services[o] == old(services)[o]
    {
      if id in services && services[id].svc == svc {
        services := services - {id};
      }
    }

    method BeginRemove(id: Id) returns (answer: RemoveAnswer)
      modifies this
      ensures answer == RemoveAnswerFor(old(Contents()), id)
      ensures answer == Invalid <==> !IsSandboxId(id)
      ensures answer == AlreadyRemoving <==> IsSandboxId(id) && id in old(deleting)
      ensures answer == NotFound <==> IsSandboxId(id) && id !in old(deleting) && id !in old(services)
      ensures answer.Takes? ==> id in old(services) && answer.svc == old(services)[id].svc
      ensures answer.Takes? ==> services == old(services) - {id} && deleting == old(deleting) + {id}
      ensures Contents() == if answer.Takes? then Taken(old(Contents()), id) else old(Contents())
      ensures old(Disjoint(Contents())) ==> Disjoint(Contents())
    {
      if !IsSandboxId(id) {
        return Invalid;
      }
      if id in deleting {
        return AlreadyRemoving;
      }
      if id !in services {
        return NotFound;
      }
      var e := services[id];
      services, deleting := services - {id}, deleting + {id};
      return Takes(e.svc);
    }

    method Release(id: Id)
      modifies this
      ensures Contents() == Released(old(Contents()), id)
      ensures old(Disjoint(Contents())) ==> Disjoint(Contents())
      ensures old(Disjoint(Contents()) && id in deleting && IsSandboxId(id)) ==>
                CreateAnswerFor(Contents(), id) == Registers || CreateAnswerFor(Contents(), id) == AtCapacity
      ensures forall o :: o != id ==> RemoveAnswerFor(Contents(), o) == old(RemoveAnswerFor(Contents(), o))
    {
      deleting := deleting - {id};
    }

    /** Claims every sandbox found on disk that nobody owns. */
    method Claim(onDisk: seq<Id>) returns (orphans: seq<Id>)
      modifies this
      ensures Contents() == Claimed(old(Contents()), set id | id in onDisk)
      ensures (set id | id in orphans) == Orphans(old(Contents()), set id | id in onDisk)
      ensures forall id :: id in orphans <==> id in onDisk && id !in old(services) && id !in old(deleting)
      ensures services == old(services) && deleting == old(deleting) + set id | id in orphans
      ensures forall i, j :: 0 <= i < j < |orphans| ==> orphans[i] != orphans[j]
      ensures old(Disjoint(Contents())) ==> Disjoint(Contents())
    {
      orphans := [];
      var i := 0;
      while i < |onDisk|
        invariant 0 <= i <= |onDisk|
        invariant services == old(services) && capacity == old(capacity)
        invariant deleting == old(deleting) + set id | id in orphans
        invariant forall id :: id in orphans <==> id in onDisk[..i] && id !in services && id !in old(deleting)
        invariant forall j, k :: 0 <= j < k < |orphans| ==> orphans[j] != orphans[k]
      {
        var id := onDisk[i];
        if id !in services && id !in deleting {
          deleting := deleting + {id};
          orphans := orphans + [id];
        }
        i := i + 1;
      }
      assert onDisk[..i] == onDisk;
    }

    method Report(id: Id, svc: Svc, st: State) returns (forwards: bool)
      modifies this
      ensures Contents() == Reported(old(Contents()), id, svc, st)
      ensures forwards == TracksAs(old(Contents()), id, svc)
      ensures forwards <==> TracksAs(Contents(), id, svc)
      ensures forwards ==> services[id].state == st
      ensures forall o, other :: TracksAs(Contents(), o, other) <==> old(TracksAs(Contents(), o, other))
      ensures forall o <- services :: services[o] != old(services)[o] ==> o == id && old(services)[o].svc == svc
    {
      if id !in services || services[id].svc != svc {
        return false;
      }
      services := services[id := Entry(svc, st)];
      return true;
    }

    /** Marks dead every tracked sandbox whose actor is in `done`. */
    method CheckLiveness(done: set<Svc>) returns (dead: set<Id>)
      modifies this
      ensures Contents() == LivenessChecked(old(Contents()), done)
      ensures dead == ActorGone(old(Contents()), done)
      ensures forall id :: id in dead <==> id in old(services) && old(services)[id].svc in done && old(services)[id].state != Dead
      ensures services.Keys == old(services).Keys
      ensures forall id <- services :: services[id] == if id in dead then old(services)[id].(state := Dead) else old(services)[id]
    {
      ghost var before := Contents();
      dead := {};
      var left := services.Keys;
      while left != {}
        invariant deleting == before.deleting && capacity == before.capacity
        invariant Marked(before, services, dead, left, done)
        decreases |left|
      {
        var id :| id in left;
        var e := services[id];
        ghost var was := services;
        if e.svc in done && e.state != Dead {
          services := services[id := e.(state := Dead)];
          MarksOne(before, was, dead, left, done, id);
          dead := dead + {id};
        }
        left := left - {id};
      }
      assert services == LivenessChecked(before, done).services;
    }

    /** Every tracked sandbox with its state; those being removed are left out. */
    method Snapshot() returns (out: seq<Listed>)
      ensures forall l :: l in out <==> l.id in services && services[l.id].state == l.state
      ensures |out| == |services|
    {
      out := [];
      var left := services.Keys;
      while left != {}
        invariant left <= services.Keys
        invariant forall l :: l in out <==> l.id in services && l.id !in left && services[l.id].state == l.state
        invariant |out| + |left| == |services|
        decreases |left|
      {
        var id :| id in left;
        left := left - {id};
        out := out + [Listed(id, services[id].state)];
      }
    }
  }
}
