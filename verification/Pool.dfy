/** The thin pool: its settings, and how sandbox volumes are created in it and removed
    from it. The kernel's view of the pool is the state; each of its operations may
    fail. */
module Pool {
  import opened Collections
  import opened Thin
  import Bytes
  import opened Decimals

  const CREATE_ATTEMPTS := 16
  const VOLUME_PREFIX := "fire2-sb-"

  datatype Settings = Settings(name: string, dir: string, first: int)

  function Get(vars: map<string, string>, key: string): string {
    if key in vars then vars[key] else ""
  }

  /** The pool the settings file describes. Without a valid first sandbox ID there is
      none. */
  function LoadPool(vars: map<string, string>): (p: Option<Settings>)
    ensures p.Some? ==> 0 < p.value.first <= MAX_THIN_ID
    ensures p.Some? ==> "POOL_NAME" in vars && "POOL_DIR" in vars && vars["POOL_NAME"] == p.value.name != "" && vars["POOL_DIR"] == p.value.dir != ""
  {
    var name, dir := Get(vars, "POOL_NAME"), Get(vars, "POOL_DIR");
    var first := ParseUint(Get(vars, "FIRST_SANDBOX_ID"), Bytes.TWO_32);
    if name == "" || dir == "" || first.None? || first.value == 0 || first.value > MAX_THIN_ID then None
    else Some(Settings(name, dir, first.value))
  }

  datatype Base = Base(thin: int, sectors: int)

  /** The base volume sits below every sandbox volume. */
  function LoadBase(p: Settings, vars: map<string, string>): (b: Option<Base>)
    ensures b.Some? ==> 0 < b.value.thin < p.first && !IsSandboxThin(p.first, b.value.thin) && b.value.sectors > 0
  {
    var thin := ParseUint(Get(vars, "BASE_THIN_ID"), Bytes.TWO_32);
    var sectors := ParseUint(Get(vars, "BASE_SECTORS"), Bytes.TWO_64);
    if thin.None? || thin.value == 0 || thin.value >= p.first || sectors.None? || sectors.value == 0 then None
    else Some(Base(thin.value, sectors.value))
  }

  /** A settings file that names a pool is read as that pool, if its first sandbox ID is
      one a volume can have; and not at all if it is not. */
  lemma PoolReadsBack(vars: map<string, string>, name: string, dir: string, first: nat)
    requires "POOL_NAME" in vars && vars["POOL_NAME"] == name && "POOL_DIR" in vars && vars["POOL_DIR"] == dir
    requires "FIRST_SANDBOX_ID" in vars && vars["FIRST_SANDBOX_ID"] == Decimal(first)
    ensures LoadPool(vars) ==
              if name != "" && dir != "" && 0 < first <= MAX_THIN_ID then Some(Settings(name, dir, first)) else None
  {
    ParsesBack(first, Bytes.TWO_32);
  }

  /** So is a base file: a volume below the pool's sandboxes, of the size it gives. */
  lemma BaseReadsBack(p: Settings, vars: map<string, string>, thin: nat, sectors: nat)
    requires 0 < p.first <= MAX_THIN_ID
    requires "BASE_THIN_ID" in vars && vars["BASE_THIN_ID"] == Decimal(thin)
    requires "BASE_SECTORS" in vars && vars["BASE_SECTORS"] == Decimal(sectors)
    ensures LoadBase(p, vars) ==
              if 0 < thin < p.first && 0 < sectors < 0x1_0000_0000_0000_0000 then Some(Base(thin, sectors)) else None
  {
    ParsesBack(thin, Bytes.TWO_32);
    ParsesBack(sectors, Bytes.TWO_64);
  }

  predicate IsNameChar(c: char) {
    'A' <= c <= 'Z' || 'a' <= c <= 'z' || '0' <= c <= '9' || c == '_' || c == '-'
  }

  /** The device name of a sandbox's volume, for an ID a device name can hold. */
  function VolumeName(id: string): Option<string> {
    if 1 <= |id| <= 64 && forall i :: 0 <= i < |id| ==> IsNameChar(id[i]) then Some(VOLUME_PREFIX + id) else None
  }

  /** Sandboxes do not share a volume. */
  lemma VolumeNamesDiffer(id: string, other: string)
    requires VolumeName(id).Some? && VolumeName(id) == VolumeName(other)
    ensures id == other
  {
    assert (VOLUME_PREFIX + id)[|VOLUME_PREFIX|..] == id;
    assert (VOLUME_PREFIX + other)[|VOLUME_PREFIX|..] == other;
  }

  // ---- Tables ----

  /** A line of a device's table, as a status call prints it. */
  datatype Line = Line(typ: string, params: string)

  /** The thin ID of a sandbox volume, and of nothing else. */
  function SandboxThinId(p: Settings, table: seq<Line>): (id: Option<int>)
    ensures id.Some? ==> IsSandboxThin(p.first, id.value)
  {
    if |table| == 1 && table[0].typ == "thin" && |Fields(table[0].params)| == 2 then
      var id := ParseUint(Fields(table[0].params)[1], Bytes.TWO_32);
      if id.Some? && p.first <= id.value <= MAX_THIN_ID then Some(id.value) else None
    else None
  }

  /** The table the kernel prints of thin volume `thin` of the pool at `device`. */
  function ThinTable(device: string, thin: nat): seq<Line> {
    [Line("thin", device + " " + Decimal(thin))]
  }

  /** A volume's ID is read back from its table, and refused when it is not a sandbox's. */
  lemma ThinIdReadsBack(p: Settings, device: string, thin: nat)
    requires IsWord(device)
    ensures SandboxThinId(p, ThinTable(device, thin)) == if IsSandboxThin(p.first, thin) then Some(thin) else None
  {
    var digits := Decimal(thin);
    assert IsWord(digits);
    TwoWords(device, digits);
    ParsesBack(thin, Bytes.TWO_32);
  }

  // ---- Volumes ----

  /** Which of the kernel's operations fail, in the order a call makes them. */
  datatype Faults = Faults(map_: bool, undoMap: bool, node: bool, read: bool, unmap: bool, unnode: bool, free: bool) {
    predicate UndoWorks() {
      !read && !unmap && !unnode && !free
    }
  }

  const NoFaults := Faults(false, false, false, false, false, false, false)

  /** What the kernel holds: the pool's thin volumes, the tables of the mapped devices, and
      the IDs that delete messages have named. */
  datatype Volumes = Volumes(thins: set<int>, devices: map<string, seq<Line>>, deletes: seq<int>)

  function Freed(v: Volumes, thin: int, fails: bool): Volumes {
    Volumes(if fails then v.thins else v.thins - {thin}, v.devices, v.deletes + [thin])
  }

  /** What a remove leaves. */
  function Removed(p: Settings, v: Volumes, name: string, faults: Faults): Volumes {
    if faults.read || faults.unmap || name !in v.devices || SandboxThinId(p, v.devices[name]).None? then v
    else
      var thin, u := SandboxThinId(p, v.devices[name]).value, v.(devices := v.devices - {name});
      if faults.unnode then u else Freed(u, thin, faults.free)
  }

  predicate RemoveSucceeds(p: Settings, v: Volumes, name: string, faults: Faults) {
    && !faults.read && !faults.unnode
    && (name in v.devices ==> SandboxThinId(p, v.devices[name]).Some? && !faults.unmap && !faults.free)
  }

  /** What a create leaves, once it has snapshotted the base into `thin`. */
  function Mapped(p: Settings, v: Volumes, name: string, table: seq<Line>, thin: int, faults: Faults): Volumes {
    if faults.map_ || name in v.devices then
      Freed(if faults.undoMap && name !in v.devices then v.(devices := v.devices[name := []]) else v, thin, faults.free)
    else
      var u := v.(devices := v.devices[name := table]);
      if faults.node then Removed(p, u, name, faults) else u
  }

  predicate MapSucceeds(v: Volumes, name: string, faults: Faults) {
    !faults.map_ && !faults.node && name !in v.devices
  }

  /** Base volumes are as they were, and every new delete message names a sandbox's. */
  ghost predicate SparesBases(p: Settings, v: Volumes, v': Volumes) {
    && (forall thin :: thin < p.first ==> (thin in v'.thins <==> thin in v.thins))
    && v.deletes <= v'.deletes
    && forall i :: |v.deletes| <= i < |v'.deletes| ==> IsSandboxThin(p.first, v'.deletes[i])
  }

  /** A create touches its own device only, and one that fails leaves nothing behind,
      unless undoing it failed as well. */
  lemma CreatesOrUndoes(p: Settings, v: Volumes, name: string, table: seq<Line>, thin: int, faults: Faults)
    requires SandboxThinId(p, table) == Some(thin) && thin !in v.thins
    ensures var snapped := v.(thins := v.thins + {thin});
            var v' := Mapped(p, snapped, name, table, thin, faults);
            && SparesBases(p, v, v') && v'.devices - {name} == v.devices - {name}
            && (name in v.devices ==> v'.devices == v.devices)
            && (if MapSucceeds(snapped, name, faults) then v' == snapped.(devices := v.devices[name := table])
                else !faults.undoMap && faults.UndoWorks() ==> v'.devices == v.devices && v'.thins == v.thins)
  {
  }

  /** Every attempt before `k` drew an ID that was taken, and attempt `k` was not made
      or broke. */
  ghost predicate StopsAt(p: Settings, draws: nat -> nat, broken: nat -> bool, thins: set<int>, k: nat)
    requires 0 < p.first <= MAX_THIN_ID
  {
    && (k == 16 || (k < 16 && broken(k)))
    && forall j: nat :: j < k ==> !broken(j) && Drawn(p.first, draws(j)) in thins
  }

  class Kernel {
    /** The pool's device number, as it appears in tables. */
    const device: string
    var thins: set<int>
    var devices: map<string, seq<Line>>
    var deletes: seq<int>

    ghost function Contents(): Volumes
      reads this
    {
      Volumes(thins, devices, deletes)
    }

    ghost predicate Valid()
      reads this
    {
      IsWord(device)
    }

    constructor (device: string)
      requires IsWord(device)
      ensures Valid() && thins == {} && devices == map[] && deletes == []
    {
      this.device, thins, devices, deletes := device, {}, map[], [];
    }

    /** A fresh volume of a sandbox was snapshotted as `thin`, and mapped or given up. */
    twostate predicate Creates(p: Settings, name: string, thin: int, faults: Faults, ok: bool)
      reads this
    {
      && IsSandboxThin(p.first, thin) && thin !in old(thins) && thin >= 0
      && var snapped := old(Contents()).(thins := old(thins) + {thin});
      Contents() == Mapped(p, snapped, name, ThinTable(device, thin), thin, faults) && ok == MapSucceeds(snapped, name, faults)
    }

    method Free(thin: int, fails: bool) returns (ok: bool)
      modifies this
      ensures ok == !fails && Contents() == Freed(old(Contents()), thin, fails)
    {
      deletes := deletes + [thin];
      if fails {
        return false;
      }
      thins := thins - {thin};
      return true;
    }

    /** Draws IDs until one is free. `broken(k)`: attempt `k` fails for another reason. */
    method CreateSnapshot(p: Settings, draws: nat -> nat, broken: nat -> bool) returns (thin: Option<int>)
      requires 0 < p.first <= MAX_THIN_ID
      modifies this
      ensures devices == old(devices) && deletes == old(deletes)
      ensures thin.Some? ==>
                IsSandboxThin(p.first, thin.value) && thin.value !in old(thins) && thins == old(thins) + {thin.value}
      ensures thin.None? ==>
                && thins == old(thins)
                && exists k: nat :: StopsAt(p, draws, broken, thins, k)
    {
      var k: nat := 0;
      while k < CREATE_ATTEMPTS
        invariant k <= CREATE_ATTEMPTS
        invariant thins == old(thins) && devices == old(devices) && deletes == old(deletes)
        invariant forall j: nat :: j < k ==> !broken(j) && Drawn(p.first, draws(j)) in thins
      {
        var id := Drawn(p.first, draws(k));
        if broken(k) {
          assert StopsAt(p, draws, broken, thins, k);
          return None;
        }
        if id !in thins {
          thins := thins + {id};
          return Some(id);
        }
        k := k + 1;
      }
      assert StopsAt(p, draws, broken, thins, k);
      return None;
    }

    /** Removes a volume. What is not a sandbox's volume is left alone. */
    method RemoveVolume(p: Settings, name: string, faults: Faults) returns (ok: bool)
      requires 0 < p.first <= MAX_THIN_ID && Valid()
      modifies this
      ensures Contents() == Removed(p, old(Contents()), name, faults)
      ensures ok <==> RemoveSucceeds(p, old(Contents()), name, faults)
      ensures SparesBases(p, old(Contents()), Contents())
      ensures ok ==> name !in devices
      ensures devices == old(devices) || devices == old(devices) - {name}
      ensures name in old(devices) && SandboxThinId(p, old(devices)[name]).None? ==>
                !ok && thins == old(thins) && devices == old(devices)
      ensures faults == NoFaults && name in old(devices) && SandboxThinId(p, old(devices)[name]).Some? ==>
                && ok && devices == old(devices) - {name}
                && thins == old(thins) - {SandboxThinId(p, old(devices)[name]).value}
    {
      if faults.read {
        return false;
      }
      if name !in devices {
        return !faults.unnode;
      }
      var thin := SandboxThinId(p, devices[name]);
      if thin.None? || faults.unmap {
        return false;
      }
      devices := devices - {name};
      if faults.unnode {
        return false;
      }
      ok := Free(thin.value, faults.free);
    }

    /** Snapshots the base into a new volume. A failed create leaves no device of its
        own behind unless removing it failed as well. */
    method CreateVolume(p: Settings, name: string, draws: nat -> nat, broken: nat -> bool, faults: Faults)
      returns (ok: bool)
      requires 0 < p.first <= MAX_THIN_ID && Valid()
      modifies this
      ensures (!ok && Contents() == old(Contents())) || exists thin :: Creates(p, name, thin, faults, ok)
      ensures SparesBases(p, old(Contents()), Contents())
      ensures name in old(devices) ==> !ok && devices == old(devices)
      ensures devices - {name} == old(devices) - {name}
      ensures !ok && !faults.undoMap && faults.UndoWorks() ==> devices == old(devices) && thins == old(thins)
      ensures ok ==>
                && name in devices && devices == old(devices)[name := devices[name]]
                && SandboxThinId(p, devices[name]).Some?
                && SandboxThinId(p, devices[name]).value !in old(thins)
                && thins == old(thins) + {SandboxThinId(p, devices[name]).value}
    {
      ghost var before := Contents();
      var thin := CreateSnapshot(p, draws, broken);
      if thin.None? {
        return false;
      }
      ThinIdReadsBack(p, device, thin.value);
      CreatesOrUndoes(p, before, name, ThinTable(device, thin.value), thin.value, faults);
      ok := MapVolume(p, name, thin.value, faults);
      assert Creates(p, name, thin.value, faults, ok);
    }

    /** The second half of a create: maps the snapshot, or takes it back. */
    method MapVolume(p: Settings, name: string, thin: nat, faults: Faults) returns (ok: bool)
      requires 0 < p.first <= MAX_THIN_ID && Valid()
      modifies this
      ensures Contents() == Mapped(p, old(Contents()), name, ThinTable(device, thin), thin, faults)
      ensures ok <==> MapSucceeds(old(Contents()), name, faults)
    {
      if faults.map_ || name in devices {
        if faults.undoMap && name !in devices {
          devices := devices[name := []];
        }
        var _ := Free(thin, faults.free);
        return false;
      }
      devices := devices[name := ThinTable(device, thin)];
      if faults.node {
        var _ := RemoveVolume(p, name, faults);
        return false;
      }
      return true;
    }
  }
}
