/** The two views of a volume's life agree: what the pool's operations do to the kernel's
    tables is what the worker host's create, cleanup and reap steps do to its disk. */
module VolumeSteps {
  import opened Collections
  import opened Host
  import opened Thin
  import Books
  import Pool

  /** The thin ID a device's table names, as far as a sandbox's is concerned. */
  function ThinOf(p: Pool.Settings, table: seq<Pool.Line>): int {
    var id := Pool.SandboxThinId(p, table);
    if id.Some? then id.value else NO_THIN
  }

  /** Every sandbox ID is one a volume can be named after. */
  lemma SandboxesHaveVolumes(id: Books.Id)
    requires Books.IsSandboxId(id)
    ensures Pool.VolumeName(id) == Some("fire2-sb-" + id)
  {
    forall i | 0 <= i < 36 ensures Pool.IsNameChar(id[i]) {
      assert i in {8, 13, 18, 23} || Books.IsHex(id[i]);
    }
  }

  predicate Mapped(v: Pool.Volumes, id: Books.Id) {
    Pool.VolumeName(id).Some? && Pool.VolumeName(id).value in v.devices
  }

  /** `d` is what the host sees of the kernel's volumes. */
  ghost predicate Shows(p: Pool.Settings, v: Pool.Volumes, d: Disk) {
    && d.deletes == v.deletes
    && (forall id :: id in d.devices <==> Mapped(v, id))
    && (forall id <- d.devices :: Mapped(v, id) && d.devices[id] == ThinOf(p, v.devices[Pool.VolumeName(id).value]))
  }

  // ---- Runs of one teardown, and of one command's work ----

  /** Where a teardown is, and the disk it left. */
  datatype Torn = Torn(disk: Disk, at: Teardown)

  function TearRun(first: int, t: Torn, id: Books.Id, lucks: seq<Luck>): Torn
    decreases |lucks|
  {
    if lucks == [] then t
    else
      TearRun(first,
              Torn(TeardownDisk(first, t.disk, id, t.at, lucks[0]), TeardownNext(first, t.disk.devices, id, t.at, lucks[0])),
              id, lucks[1..])
  }

  /** What is left of a command's work, and the disk it left. */
  datatype Worked = Worked(disk: Disk, work: Work)

  /** How a step of it turns out, and the random number it draws. */
  datatype Turn = Turn(luck: Luck, draw: nat)

  function WorkOnce(first: int, w: Worked, id: Books.Id, turn: Turn): Worked
    requires 0 < first <= MAX_THIN_ID
  {
    Worked(WorkDisk(first, w.disk, id, w.work, turn.luck), WorkNext(first, w.disk.devices, id, w.work, turn.luck, turn.draw))
  }

  function WorkRun(first: int, w: Worked, id: Books.Id, turns: seq<Turn>): Worked
    requires 0 < first <= MAX_THIN_ID
    decreases |turns|
  {
    if turns == [] then w else WorkRun(first, WorkOnce(first, w, id, turns[0]), id, turns[1..])
  }

  lemma TearOnce(first: int, t: Torn, id: Books.Id, luck: Luck)
    ensures TearRun(first, t, id, [luck]) ==
              Torn(TeardownDisk(first, t.disk, id, t.at, luck), TeardownNext(first, t.disk.devices, id, t.at, luck))
  {
    assert [luck][1..] == [];
  }

  lemma TearTwice(first: int, t: Torn, id: Books.Id, luck: Luck, then_: Luck)
    ensures TearRun(first, t, id, [luck, then_]) == TearRun(first, TearRun(first, t, id, [luck]), id, [then_])
  {
    assert [luck, then_][1..] == [then_];
    TearOnce(first, t, id, luck);
  }

  // ---- A remove ----

  lemma Unmapped(p: Pool.Settings, v: Pool.Volumes, d: Disk, id: Books.Id)
    requires Shows(p, v, d) && id in d.devices
    ensures Shows(p, v.(devices := v.devices - {Pool.VolumeName(id).value}), d.(devices := d.devices - {id}))
  {
    var name := Pool.VolumeName(id).value;
    forall o | o in d.devices && o != id ensures Pool.VolumeName(o).value != name {
      if Pool.VolumeName(o).value == name { Pool.VolumeNamesDiffer(id, o); }
    }
  }

  /** The first step of a remove, up to the device and its node. */
  function FirstLuck(v: Pool.Volumes, name: string, faults: Pool.Faults): Luck {
    if faults.read || (name in v.devices && faults.unmap) then Fails
    else if faults.unnode then HalfDone
    else Fine
  }

  /** Removing a sandbox's volume is a run of its teardown, up to its directory: it goes
      on to the directory exactly when the remove succeeds. */
  lemma RemoveIsTeardown(p: Pool.Settings, v: Pool.Volumes, d: Disk, id: Books.Id, faults: Pool.Faults)
    returns (lucks: seq<Luck>)
    requires 0 < p.first <= MAX_THIN_ID && Pool.VolumeName(id).Some? && Shows(p, v, d)
    ensures var name := Pool.VolumeName(id).value;
            var torn := TearRun(p.first, Torn(d, AtVolume), id, lucks);
            && Shows(p, Pool.Removed(p, v, name, faults), torn.disk)
            && torn.at == if Pool.RemoveSucceeds(p, v, name, faults) then AtDir else AtEnd(false)
    ensures |lucks| == 1 || (|lucks| == 2 && TearRun(p.first, Torn(d, AtVolume), id, lucks[..1]).at.AtThin?)
  {
    var name := Pool.VolumeName(id).value;
    var luck := FirstLuck(v, name, faults);
    lucks := [luck];
    TearOnce(p.first, Torn(d, AtVolume), id, luck);
    if id in d.devices && Pool.SandboxThinId(p, v.devices[name]).Some? && luck != Fails {
      Unmapped(p, v, d, id);
      if luck == Fine {
        var free := if faults.free then Fails else Fine;
        lucks := [luck, free];
        assert lucks[..1] == [luck];
        TearTwice(p.first, Torn(d, AtVolume), id, luck, free);
        TearOnce(p.first, TearRun(p.first, Torn(d, AtVolume), id, [luck]), id, free);
      }
    }
  }

  // ---- A create ----

  lemma WorkThen(first: int, w: Worked, id: Books.Id, turn: Turn, turns: seq<Turn>)
    requires 0 < first <= MAX_THIN_ID
    ensures WorkRun(first, w, id, [turn] + turns) == WorkRun(first, WorkOnce(first, w, id, turn), id, turns)
  {
    assert ([turn] + turns)[1..] == turns;
  }

  lemma NewDevice(p: Pool.Settings, v: Pool.Volumes, d: Disk, id: Books.Id, table: seq<Pool.Line>)
    requires Shows(p, v, d) && Pool.VolumeName(id).Some?
    ensures Shows(p, v.(devices := v.devices[Pool.VolumeName(id).value := table]),
                  d.(devices := d.devices[id := ThinOf(p, table)]))
  {
    var name := Pool.VolumeName(id).value;
    forall o | o != id && Pool.VolumeName(o).Some? ensures Pool.VolumeName(o).value != name {
      if Pool.VolumeName(o).value == name { Pool.VolumeNamesDiffer(id, o); }
    }
  }

  /** A create that could not make its node removes the volume again, and starts its
      cleanup over. */
  lemma UndoesNode(p: Pool.Settings, v: Pool.Volumes, d: Disk, id: Books.Id, faults: Pool.Faults)
    returns (turns: seq<Turn>)
    requires 0 < p.first <= MAX_THIN_ID && Pool.VolumeName(id).Some? && Shows(p, v, d)
    ensures var worked := WorkRun(p.first, Worked(d, Cleaning(AtVolume, NodeFailed)), id, turns);
            && Shows(p, Pool.Removed(p, v, Pool.VolumeName(id).value, faults), worked.disk)
            && worked.work == Cleaning(AtVolume, CreateFails)
  {
    var start := Worked(d, Cleaning(AtVolume, NodeFailed));
    var lucks := RemoveIsTeardown(p, v, d, id, faults);
    var torn := TearRun(p.first, Torn(d, AtVolume), id, lucks);
    var first, last := Turn(lucks[0], 0), Turn(Fine, 0);
    var one := WorkOnce(p.first, start, id, first);
    TearOnce(p.first, Torn(d, AtVolume), id, lucks[0]);
    WorkThen(p.first, Worked(torn.disk, Cleaning(torn.at, NodeFailed)), id, last, []);
    if |lucks| == 1 {
      assert lucks == [lucks[0]];
      turns := [first] + ([last] + []);
      WorkThen(p.first, start, id, first, [last] + []);
    } else {
      assert lucks == [lucks[0], lucks[1]] && lucks[..1] == [lucks[0]];
      TearTwice(p.first, Torn(d, AtVolume), id, lucks[0], lucks[1]);
      TearOnce(p.first, TearRun(p.first, Torn(d, AtVolume), id, [lucks[0]]), id, lucks[1]);
      var second := Turn(lucks[1], 0);
      turns := [first] + ([second] + ([last] + []));
      WorkThen(p.first, start, id, first, [second] + ([last] + []));
      WorkThen(p.first, one, id, second, [last] + []);
    }
  }

  lemma SnapDraws(first: int, d: Disk, id: Books.Id, thin: int)
    requires 0 < first <= MAX_THIN_ID && IsSandboxThin(first, thin)
    ensures WorkOnce(first, Worked(d, Snap), id, Turn(Fine, thin - first)) == Worked(d, Map(thin))
  {
    DrawsEvery(first, thin);
  }

  /** Creating a sandbox's volume is a run of the actor's work from its snapshot on: it
      comes to boot the VM exactly when the create succeeds, and to its cleanup if not. */
  lemma CreateIsWork(p: Pool.Settings, v: Pool.Volumes, d: Disk, id: Books.Id, table: seq<Pool.Line>, thin: int, faults: Pool.Faults)
    returns (turns: seq<Turn>)
    requires 0 < p.first <= MAX_THIN_ID && Pool.VolumeName(id).Some? && Shows(p, v, d)
    requires Pool.SandboxThinId(p, table) == Some(thin)
    ensures var name := Pool.VolumeName(id).value;
            var worked := WorkRun(p.first, Worked(d, Snap), id, turns);
            && Shows(p, Pool.Mapped(p, v, name, table, thin, faults), worked.disk)
            && worked.work == if Pool.MapSucceeds(v, name, faults) then Boot else Cleaning(AtVolume, CreateFails)
  {
    var snap := Turn(Fine, thin - p.first);
    SnapDraws(p.first, d, id, thin);
    var rest := MapIsWork(p, v, d, id, table, thin, faults);
    turns := [snap] + rest;
    WorkThen(p.first, Worked(d, Snap), id, snap, rest);
  }

  lemma MapIsWork(p: Pool.Settings, v: Pool.Volumes, d: Disk, id: Books.Id, table: seq<Pool.Line>, thin: int, faults: Pool.Faults)
    returns (turns: seq<Turn>)
    requires 0 < p.first <= MAX_THIN_ID && Pool.VolumeName(id).Some? && Shows(p, v, d)
    requires Pool.SandboxThinId(p, table) == Some(thin)
    ensures var name := Pool.VolumeName(id).value;
            var worked := WorkRun(p.first, Worked(d, Map(thin)), id, turns);
            && Shows(p, Pool.Mapped(p, v, name, table, thin, faults), worked.disk)
            && worked.work == if Pool.MapSucceeds(v, name, faults) then Boot else Cleaning(AtVolume, CreateFails)
  {
    var name := Pool.VolumeName(id).value;
    var start := Worked(d, Map(thin));
    if faults.map_ || name in v.devices {
      turns := GivesUp(p, v, d, id, table, thin, faults);
    } else {
      NewDevice(p, v, d, id, table);
      var mapped := WorkOnce(p.first, start, id, Turn(Fine, 0));
      var node := Turn(if faults.node then Fails else Fine, 0);
      var undo: seq<Turn> := [];
      if faults.node {
        undo := UndoesNode(p, v.(devices := v.devices[name := table]), mapped.disk, id, faults);
      }
      turns := [Turn(Fine, 0)] + ([node] + undo);
      WorkThen(p.first, start, id, Turn(Fine, 0), [node] + undo);
      WorkThen(p.first, mapped, id, node, undo);
    }
  }

  lemma GivesUp(p: Pool.Settings, v: Pool.Volumes, d: Disk, id: Books.Id, table: seq<Pool.Line>, thin: int, faults: Pool.Faults)
    returns (turns: seq<Turn>)
    requires 0 < p.first <= MAX_THIN_ID && Pool.VolumeName(id).Some? && Shows(p, v, d)
    requires faults.map_ || Pool.VolumeName(id).value in v.devices
    ensures var worked := WorkRun(p.first, Worked(d, Map(thin)), id, turns);
            && Shows(p, Pool.Mapped(p, v, Pool.VolumeName(id).value, table, thin, faults), worked.disk)
            && worked.work == Cleaning(AtVolume, CreateFails)
  {
    var start, luck := Worked(d, Map(thin)), if faults.undoMap then HalfDone else Fails;
    NewDevice(p, v, d, id, []);
    turns := [Turn(luck, 0)] + ([Turn(Fine, 0)] + []);
    WorkThen(p.first, start, id, Turn(luck, 0), [Turn(Fine, 0)] + []);
    WorkThen(p.first, WorkOnce(p.first, start, id, Turn(luck, 0)), id, Turn(Fine, 0), []);
  }
}
