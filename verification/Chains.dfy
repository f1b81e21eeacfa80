/** Records in a buffer, each of which says where the following one is. */
module Chains {
  /** How to read the record at an offset: what it holds, and where the next one is.
      A record is read whole when its `size` bytes lie within `limit`. */
  datatype Reader<T> = Reader(size: nat, limit: nat, item: nat -> T, next: nat -> nat)

  /** All of `count` records, the first at `off`, lie within the limit. */
  predicate Fits<T>(r: Reader<T>, off: nat, count: nat)
    decreases count
  {
    count > 0 ==> off + r.size <= r.limit && Fits(r, r.next(off), count - 1)
  }

  function Items<T>(r: Reader<T>, off: nat, count: nat): (items: seq<T>)
    ensures |items| == count
    decreases count
  {
    if count == 0 then [] else [r.item(off)] + Items(r, r.next(off), count - 1)
  }

  /** The records at `offs` follow each other and hold `items`. */
  ghost predicate Follow<T>(r: Reader<T>, offs: seq<nat>, items: seq<T>) {
    && |offs| == |items| + 1
    && forall i {:trigger items[i]} :: 0 <= i < |items| ==>
         offs[i] + r.size <= r.limit && r.item(offs[i]) == items[i] && r.next(offs[i]) == offs[i + 1]
  }

  lemma {:induction false} FollowedItems<T>(r: Reader<T>, offs: seq<nat>, items: seq<T>, k: nat)
    requires Follow(r, offs, items) && k <= |items|
    ensures Fits(r, offs[k], |items| - k) && Items(r, offs[k], |items| - k) == items[k..]
    decreases |items| - k
  {
    if k < |items| {
      assert items[k..] == [items[k]] + items[k + 1..];
      FollowedItems(r, offs, items, k + 1);
    }
  }

  /** Reads `count` records from the start, or finds that one does not fit. */
  method Collect<T>(r: Reader<T>, count: nat) returns (fits: bool, items: seq<T>)
    ensures fits == Fits(r, 0, count)
    ensures fits ==> items == Items(r, 0, count)
  {
    items := [];
    var off: nat := 0;
    while |items| < count
      invariant |items| <= count
      invariant Fits(r, 0, count) == Fits(r, off, count - |items|)
      invariant Items(r, 0, count) == items + Items(r, off, count - |items|)
    {
      if off + r.size > r.limit {
        return false, items;
      }
      items, off := items + [r.item(off)], r.next(off);
    }
    fits := true;
  }
}
