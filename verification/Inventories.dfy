/** Splitting a heartbeat's inventory entries into the four lists of an inventory. */
module Inventories {
  import opened Collections
  import opened Tables
  import Text

  datatype State = Unspecified | Starting | Running | Paused | Dead | Unknown

  datatype Entry = Entry(sandboxId: string, state: State)

  function EntryId(e: Entry): string {
    Text.TrimSpace(e.sandboxId)
  }

  ghost function EntryIds(entries: seq<Entry>): (ids: seq<Id>)
    ensures |ids| == |entries|
  {
    seq(|entries|, k requires 0 <= k < |entries| => EntryId(entries[k]))
  }

  /** Entry `k` is the first to name its sandbox. */
  ghost predicate First(ids: seq<Id>, k: int)
    requires 0 <= k < |ids|
  {
    ids[k] != "" && ids[k] !in ids[..k]
  }

  /** The list a state files a sandbox under. */
  function Under(inv: Inventory, state: State): seq<Id> {
    match state
    case Running => inv.running
    case Starting | Paused => inv.live
    case Dead => inv.dead
    case Unknown | Unspecified => inv.unknown
  }

  /** No sandbox is listed twice, in one list or in two. */
  ghost predicate Partitions(inv: Inventory) {
    && Distinct(inv.live) && Distinct(inv.running) && Distinct(inv.unknown) && Distinct(inv.dead)
    && (forall id <- inv.live :: id !in inv.running && id !in inv.unknown && id !in inv.dead)
    && (forall id <- inv.running :: id !in inv.unknown && id !in inv.dead)
    && (forall id <- inv.unknown :: id !in inv.dead)
  }

  /** The first `i` entries, split. */
  ghost predicate Split(entries: seq<Entry>, ids: seq<Id>, i: nat, inv: Inventory)
    requires i <= |ids| == |entries|
  {
    && Partitions(inv)
    && (forall id :: inv.Lists(id) <==> id != "" && id in ids[..i])
    && (forall k :: 0 <= k < i && First(ids, k) ==> ids[k] in Under(inv, entries[k].state))
  }

  method FromEntries(entries: seq<Entry>) returns (inv: Inventory)
    ensures Partitions(inv)
    ensures forall id :: inv.Lists(id) <==> id != "" && id in EntryIds(entries)
    ensures forall k :: 0 <= k < |entries| && First(EntryIds(entries), k) ==>
              && (EntryIds(entries)[k] in inv.running <==> entries[k].state == State.Running)
              && (EntryIds(entries)[k] in inv.live <==> entries[k].state in {State.Starting, Paused})
              && (EntryIds(entries)[k] in inv.dead <==> entries[k].state == Dead)
              && (EntryIds(entries)[k] in inv.unknown <==> entries[k].state in {Unknown, Unspecified})
  {
    inv := EmptyInventory;
    ghost var ids := EntryIds(entries);
    var seen: set<Id> := {};
    var i := 0;
    while i < |entries|
      invariant 0 <= i <= |entries| && Split(entries, ids, i, inv)
      invariant forall id :: id in seen <==> inv.Lists(id)
    {
      var id := EntryId(entries[i]);
      if id != "" && id !in seen {
        seen := seen + {id};
        FilesOne(inv, id, entries[i].state);
        FileKeepsSplit(entries, ids, i, inv);
        inv := Filed(inv, id, entries[i].state);
      } else {
        SkipKeepsSplit(entries, ids, i, inv);
      }
      i := i + 1;
    }
    assert ids[..i] == ids;
  }

  function Filed(inv: Inventory, id: Id, state: State): Inventory {
    match state
    case Running => inv.(running := inv.running + [id])
    case Starting | Paused => inv.(live := inv.live + [id])
    case Dead => inv.(dead := inv.dead + [id])
    case Unknown | Unspecified => inv.(unknown := inv.unknown + [id])
  }

  lemma FilesOne(inv: Inventory, id: Id, state: State)
    requires Partitions(inv) && !inv.Lists(id)
    ensures Partitions(Filed(inv, id, state))
    ensures forall o :: Filed(inv, id, state).Lists(o) <==> inv.Lists(o) || o == id
    ensures id in Under(Filed(inv, id, state), state)
    ensures forall s, o <- Under(inv, s) :: o in Under(Filed(inv, id, state), s)
  {
  }

  lemma OneMore(ids: seq<Id>, i: nat)
    requires i < |ids|
    ensures forall id :: id in ids[..i + 1] <==> id in ids[..i] || id == ids[i]
  {
    assert ids[..i + 1] == ids[..i] + [ids[i]];
  }

  lemma SkipKeepsSplit(entries: seq<Entry>, ids: seq<Id>, i: nat, inv: Inventory)
    requires i < |ids| == |entries| && Split(entries, ids, i, inv)
    requires ids[i] == "" || inv.Lists(ids[i])
    ensures Split(entries, ids, i + 1, inv)
  {
    OneMore(ids, i);
  }

  lemma FileKeepsSplit(entries: seq<Entry>, ids: seq<Id>, i: nat, inv: Inventory)
    requires i < |ids| == |entries| && Split(entries, ids, i, inv)
    requires ids[i] != "" && !inv.Lists(ids[i])
    ensures Split(entries, ids, i + 1, Filed(inv, ids[i], entries[i].state))
  {
    var filed := Filed(inv, ids[i], entries[i].state);
    FilesOne(inv, ids[i], entries[i].state);
    OneMore(ids, i);
    forall k | 0 <= k <= i && First(ids, k) ensures ids[k] in Under(filed, entries[k].state) {
      if k < i {
        assert ids[k] in Under(inv, entries[k].state);
      }
    }
  }
}
