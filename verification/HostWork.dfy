/** An actor's work from its beginning to its answer: what it comes to when nothing goes
    wrong, and how a create that fails cleans up after itself. */
module HostWork {
  import opened Books
  import opened Collections
  import opened Host
  import opened Thin
  import opened HostTheorems
  import opened VolumeSteps

  predicate AllFine(turns: seq<Turn>) {
    forall i :: 0 <= i < |turns| ==> turns[i].luck == Fine
  }

  lemma FineThen(turn: Turn, turns: seq<Turn>)
    requires turn.luck == Fine && AllFine(turns)
    ensures AllFine([turn] + turns)
  {
  }

  /** A device a teardown can remove: none, or one of a sandbox's volume. */
  predicate Removable(first: int, d: Disk, id: Id) {
    id in d.devices ==> IsSandboxThin(first, d.devices[id])
  }

  const GoOn := Turn(Fine, 0)

  // ---- Tearing down ----

  lemma EndsCleaning(first: int, d: Disk, id: Id, after: After) returns (turns: seq<Turn>)
    requires 0 < first <= MAX_THIN_ID && after != NodeFailed
    ensures AllFine(turns) && WorkRun(first, Worked(d, Cleaning(AtEnd(true), after)), id, turns) == Worked(d, Answering(after == Removes, true))
  {
    turns := [GoOn] + [];
    WorkThen(first, Worked(d, Cleaning(AtEnd(true), after)), id, GoOn, []);
  }

  lemma FromDir(first: int, d: Disk, id: Id, after: After) returns (turns: seq<Turn>)
    requires 0 < first <= MAX_THIN_ID && after != NodeFailed && id !in d.devices
    ensures AllFine(turns)
    ensures WorkRun(first, Worked(d, Cleaning(AtDir, after)), id, turns) == Worked(d.(dirs := d.dirs - {id}), Answering(after == Removes, true))
  {
    var rest := EndsCleaning(first, d.(dirs := d.dirs - {id}), id, after);
    turns := [GoOn] + rest;
    FineThen(GoOn, rest);
    WorkThen(first, Worked(d, Cleaning(AtDir, after)), id, GoOn, rest);
  }

  lemma FromThin(first: int, d: Disk, id: Id, thin: int, after: After) returns (turns: seq<Turn>)
    requires 0 < first <= MAX_THIN_ID && after != NodeFailed && id !in d.devices
    ensures AllFine(turns)
    ensures WorkRun(first, Worked(d, Cleaning(AtThin(thin), after)), id, turns) ==
              Worked(d.(dirs := d.dirs - {id}, deletes := d.deletes + [thin]), Answering(after == Removes, true))
  {
    var rest := FromDir(first, d.(deletes := d.deletes + [thin]), id, after);
    turns := [GoOn] + rest;
    FineThen(GoOn, rest);
    WorkThen(first, Worked(d, Cleaning(AtThin(thin), after)), id, GoOn, rest);
  }

  /** The disk without the sandbox, its thin ID freed. */
  function Without(d: Disk, id: Id): Disk {
    Disk(d.dirs - {id}, d.devices - {id}, if id in d.devices then d.deletes + [d.devices[id]] else d.deletes)
  }

  /** A cleanup that nothing goes wrong in removes the device, frees its ID, removes the
      directory, and answers: ok to a remove, not ok to a create. */
  lemma CleansUp(first: int, d: Disk, id: Id, after: After) returns (turns: seq<Turn>)
    requires 0 < first <= MAX_THIN_ID && after != NodeFailed && Removable(first, d, id)
    ensures AllFine(turns)
    ensures WorkRun(first, Worked(d, Cleaning(AtVolume, after)), id, turns) == Worked(Without(d, id), Answering(after == Removes, true))
    ensures Gone(Without(d, id), id)
  {
    var start, rest := Worked(d, Cleaning(AtVolume, after)), [];
    if id in d.devices {
      rest := FromThin(first, d.(devices := d.devices - {id}), id, d.devices[id], after);
    } else {
      assert d.devices - {id} == d.devices;
      rest := FromDir(first, d, id, after);
    }
    turns := [GoOn] + rest;
    FineThen(GoOn, rest);
    WorkThen(first, start, id, GoOn, rest);
  }

  // ---- A remove ----

  /** An actor with a VM that is told to remove it, and has no bad luck, answers ok with
      nothing left. */
  lemma RemoveRemoves(first: int, d: Disk, id: Id) returns (turns: seq<Turn>)
    requires 0 < first <= MAX_THIN_ID && Removable(first, d, id)
    ensures AllFine(turns)
    ensures WorkRun(first, Worked(d, FirstWork(RemovesIt, true)), id, turns) == Worked(Without(d, id), Answering(true, true))
  {
    turns := CleansUp(first, d, id, Removes);
  }

  // ---- A create ----

  /** The disk with the sandbox on it. */
  function With(d: Disk, id: Id, thin: int): Disk {
    d.(dirs := d.dirs + {id}, devices := d.devices[id := thin])
  }

  lemma FromBoot(first: int, d: Disk, id: Id) returns (turns: seq<Turn>)
    requires 0 < first <= MAX_THIN_ID
    ensures AllFine(turns) && WorkRun(first, Worked(d, Node), id, turns) == Worked(d, Answering(true, false))
  {
    turns := [GoOn] + ([GoOn] + []);
    WorkThen(first, Worked(d, Node), id, GoOn, [GoOn] + []);
    WorkThen(first, Worked(d, Boot), id, GoOn, []);
  }

  lemma FromMap(first: int, d: Disk, id: Id, thin: int) returns (turns: seq<Turn>)
    requires 0 < first <= MAX_THIN_ID && id !in d.devices
    ensures AllFine(turns)
    ensures WorkRun(first, Worked(d, Map(thin)), id, turns) == Worked(d.(devices := d.devices[id := thin]), Answering(true, false))
  {
    var rest := FromBoot(first, d.(devices := d.devices[id := thin]), id);
    turns := [GoOn] + rest;
    FineThen(GoOn, rest);
    WorkThen(first, Worked(d, Map(thin)), id, GoOn, rest);
  }

  /** A new actor that is told to create, and has no bad luck, makes the directory, maps a
      volume under the ID it draws, boots, and answers ok. */
  lemma CreateCreates(first: int, d: Disk, id: Id, draw: nat) returns (turns: seq<Turn>)
    requires 0 < first <= MAX_THIN_ID && id !in d.devices
    ensures AllFine(turns)
    ensures WorkRun(first, Worked(d, FirstWork(Creates, false)), id, turns) == Worked(With(d, id, Drawn(first, draw)), Answering(true, false))
    ensures Laid(first, With(d, id, Drawn(first, draw)), id)
  {
    var made, snap := d.(dirs := d.dirs + {id}), Turn(Fine, draw);
    var rest := FromMap(first, made, id, Drawn(first, draw));
    FineThen(snap, rest);
    FineThen(GoOn, [snap] + rest);
    turns := [GoOn] + ([snap] + rest);
    WorkThen(first, Worked(d, MakeDir), id, GoOn, [snap] + rest);
    WorkThen(first, Worked(made, Snap), id, snap, rest);
  }

  /** Where a create has got to when a step of it fails. */
  predicate Midway(w: Work) {
    w.Snap? || w.Map? || w.Node? || w.Boot?
  }

  lemma AfterFailure(first: int, d: Disk, id: Id, w: Work) returns (turns: seq<Turn>)
    requires 0 < first <= MAX_THIN_ID && Midway(w) && Removable(first, d, id)
    ensures AllFine(turns)
    ensures var failed := WorkOnce(first, Worked(d, w), id, Turn(Fails, 0));
            var left := WorkRun(first, failed, id, turns);
            left.work == Answering(false, true) && Gone(left.disk, id)
  {
    if w.Map? {
      var freed := d.(deletes := d.deletes + [w.thin]);
      var rest := CleansUp(first, freed, id, CreateFails);
      turns := [GoOn] + rest;
      FineThen(GoOn, rest);
      WorkThen(first, Worked(d, Unsnap(w.thin)), id, GoOn, rest);
    } else if w.Node? {
      turns := AfterNode(first, d, id);
    } else {
      turns := CleansUp(first, d, id, CreateFails);
    }
  }

  /** A failed node has its volume removed twice: at once, and by the cleanup. */
  lemma AfterNode(first: int, d: Disk, id: Id) returns (turns: seq<Turn>)
    requires 0 < first <= MAX_THIN_ID && Removable(first, d, id)
    ensures AllFine(turns)
    ensures var left := WorkRun(first, Worked(d, Cleaning(AtVolume, NodeFailed)), id, turns);
            left.work == Answering(false, true) && Gone(left.disk, id)
  {
    var at, unmapped := Cleaning(AtVolume, NodeFailed), d.(devices := d.devices - {id});
    var freed := if id in d.devices then unmapped.(deletes := d.deletes + [d.devices[id]]) else d;
    var rest := CleansUp(first, freed, id, CreateFails);
    FineThen(GoOn, rest);
    FineThen(GoOn, [GoOn] + rest);
    WorkThen(first, Worked(freed, Cleaning(AtDir, NodeFailed)), id, GoOn, rest);
    if id in d.devices {
      FineThen(GoOn, [GoOn] + ([GoOn] + rest));
      turns := [GoOn] + ([GoOn] + ([GoOn] + rest));
      WorkThen(first, Worked(d, at), id, GoOn, [GoOn] + ([GoOn] + rest));
      WorkThen(first, Worked(unmapped, Cleaning(AtThin(d.devices[id]), NodeFailed)), id, GoOn, [GoOn] + rest);
    } else {
      turns := [GoOn] + ([GoOn] + rest);
      WorkThen(first, Worked(d, at), id, GoOn, [GoOn] + rest);
    }
  }

  /** Wherever a create fails once it has its directory, it can clean up after itself, and
      if nothing goes wrong in that it answers with nothing left. */
  lemma FailedCreateCleansUp(first: int, d: Disk, id: Id, w: Work) returns (turns: seq<Turn>)
    requires 0 < first <= MAX_THIN_ID && Midway(w) && Removable(first, d, id)
    ensures turns != [] && turns[0].luck == Fails && AllFine(turns[1..])
    ensures var left := WorkRun(first, Worked(d, w), id, turns);
            left.work == Answering(false, true) && Gone(left.disk, id)
  {
    var rest := AfterFailure(first, d, id, w);
    turns := [Turn(Fails, 0)] + rest;
    WorkThen(first, Worked(d, w), id, Turn(Fails, 0), rest);
    assert turns[1..] == rest;
  }

  // ---- A stop ----

  /** A stop of a running VM is answered by how the kill went. */
  lemma StopAnswersForTheKill(first: int, d: Disk, id: Id, luck: Luck)
    requires 0 < first <= MAX_THIN_ID
    ensures WorkOnce(first, Worked(d, FirstWork(Stops, true)), id, Turn(luck, 0)) == Worked(d, Answering(luck == Fine, false))
  {
  }
}
