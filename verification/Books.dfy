/** The worker manager's records, and what each of its critical sections does to them.

    A sandbox whose ID is tracked in `services` or marked in `deleting` owns its
    resources on disk. */
module Books {
  type Id = string

  /** Identifies the actor of one sandbox; a sandbox created anew gets another one. */
  type Svc = nat

  datatype State = Starting | Running | Paused | Unknown | Dead

  datatype Entry = Entry(svc: Svc, state: State)

  /** `capacity` is not a limit unless positive. */
  datatype Book = Book(services: map<Id, Entry>, deleting: set<Id>, capacity: int)

  // ---- Sandbox IDs ----

  predicate IsHex(c: char) {
    '0' <= c <= '9' || 'a' <= c <= 'f' || 'A' <= c <= 'F'
  }

  /** A UUID in its 36-character form. */
  predicate IsSandboxId(name: string) {
    && |name| == 36
    && forall i :: 0 <= i < 36 ==> if i in {8, 13, 18, 23} then name[i] == '-' else IsHex(name[i])
  }

  ghost predicate HexDigits(s: string, n: nat) {
    |s| == n && forall c <- s :: c in "0123456789abcdefABCDEF"
  }

  /** A sandbox ID is five groups of hex digits, eight, four, four, four and twelve of
      them, with dashes between: no slash, no dot, nothing that leads out of a directory. */
  lemma SandboxIdShape(name: string)
    ensures IsSandboxId(name) <==>
              exists a, b, c, d, e ::
                && HexDigits(a, 8) && HexDigits(b, 4) && HexDigits(c, 4) && HexDigits(d, 4) && HexDigits(e, 12)
                && name == a + "-" + b + "-" + c + "-" + d + "-" + e
  {
    if IsSandboxId(name) {
      var a, b, c, d, e := name[..8], name[9..13], name[14..18], name[19..23], name[24..];
      HexSlice(name, 0, 8);
      HexSlice(name, 9, 13);
      HexSlice(name, 14, 18);
      HexSlice(name, 19, 23);
      HexSlice(name, 24, 36);
      assert name == a + "-" + b + "-" + c + "-" + d + "-" + e;
      assert HexDigits(a, 8) && HexDigits(b, 4) && HexDigits(c, 4) && HexDigits(d, 4) && HexDigits(e, 12);
    }
    forall a, b, c, d, e
      | && HexDigits(a, 8) && HexDigits(b, 4) && HexDigits(c, 4) && HexDigits(d, 4) && HexDigits(e, 12)
        && name == a + "-" + b + "-" + c + "-" + d + "-" + e
      ensures IsSandboxId(name)
    {
      GroupsAreId(name, a, b, c, d, e);
    }
  }

  lemma HexSlice(name: string, i: nat, j: nat)
    requires i <= j <= |name| && forall k :: i <= k < j ==> IsHex(name[k])
    ensures HexDigits(name[i..j], j - i)
  {
    forall c <- name[i..j] ensures c in "0123456789abcdefABCDEF" {
      var k :| 0 <= k < j - i && name[i..j][k] == c;
      HexIsDigit(name[i + k]);
    }
  }

  lemma HexIsDigit(c: char)
    ensures IsHex(c) <==> c in "0123456789abcdefABCDEF"
  {
  }

  lemma GroupsAreId(name: string, a: string, b: string, c: string, d: string, e: string)
    requires HexDigits(a, 8) && HexDigits(b, 4) && HexDigits(c, 4) && HexDigits(d, 4) && HexDigits(e, 12)
    requires name == a + "-" + b + "-" + c + "-" + d + "-" + e
    ensures IsSandboxId(name)
  {
    assert name[8] == name[13] == name[18] == name[23] == '-';
    forall i | 0 <= i < 36 && i !in {8, 13, 18, 23} ensures IsHex(name[i]) {
      var ch := if i < 8 then a[i] else if i < 13 then b[i - 9] else if i < 18 then c[i - 14] else if i < 23 then d[i - 19] else e[i - 24];
      assert name[i] == ch;
      HexIsDigit(ch);
    }
  }

  // ---- Create ----

  datatype CreateAnswer = InvalidId | AlreadyTracked | BeingRemoved | AtCapacity | Registers

  function CreateAnswerFor(b: Book, id: Id): CreateAnswer {
    if !IsSandboxId(id) then InvalidId
    else if id in b.services then AlreadyTracked
    else if id in b.deleting then BeingRemoved
    else if b.capacity > 0 && |b.services| + |b.deleting| >= b.capacity then AtCapacity
    else Registers
  }

  function Registered(b: Book, id: Id, svc: Svc): Book {
    b.(services := b.services[id := Entry(svc, Starting)])
  }

  predicate TracksAs(b: Book, id: Id, svc: Svc) {
    id in b.services && b.services[id].svc == svc
  }

  /** A failed create drops the entry, unless a remove has already taken it. */
  function CreateFailed(b: Book, id: Id, svc: Svc): Book {
    if TracksAs(b, id, svc) then b.(services := b.services - {id}) else b
  }

  // ---- Remove ----

  datatype RemoveAnswer = Invalid | AlreadyRemoving | NotFound | Takes(svc: Svc)

  function RemoveAnswerFor(b: Book, id: Id): RemoveAnswer {
    if !IsSandboxId(id) then Invalid
    else if id in b.deleting then AlreadyRemoving
    else if id !in b.services then NotFound
    else Takes(b.services[id].svc)
  }

  function Taken(b: Book, id: Id): Book {
    b.(services := b.services - {id}, deleting := b.deleting + {id})
  }

  function Released(b: Book, id: Id): Book {
    b.(deleting := b.deleting - {id})
  }

  // ---- Audit ----

  /** What the disk reconciliation claims of the sandboxes it found on disk. */
  function Orphans(b: Book, onDisk: set<Id>): set<Id> {
    onDisk - b.services.Keys - b.deleting
  }

  function Claimed(b: Book, onDisk: set<Id>): Book {
    b.(deleting := b.deleting + Orphans(b, onDisk))
  }

  /** Tracked sandboxes whose actor is gone. */
  function ActorGone(b: Book, done: set<Svc>): set<Id> {
    set id | id in b.services && b.services[id].svc in done && b.services[id].state != Dead
  }

  function LivenessChecked(b: Book, done: set<Svc>): Book {
    b.(services := map id | id in b.services ::
         if id in ActorGone(b, done) then b.services[id].(state := Dead) else b.services[id])
  }

  // ---- Reports ----

  function Reported(b: Book, id: Id, svc: Svc, st: State): Book {
    if TracksAs(b, id, svc) then b.(services := b.services[id := Entry(svc, st)]) else b
  }

  /** A sandbox is tracked or being removed, never both. */
  predicate Disjoint(b: Book) {
    b.services.Keys !! b.deleting
  }
}
