/** Device-mapper tables as bytes: the target specs a table load sends, and those a
    table status call gives back. The layout is that of linux/dm-ioctl.h. */
module DeviceMapper {
  import opened Bytes
  import Chains

  const HEADER_SIZE := 312
  const OFF_VERSION := 0
  const OFF_DATA_SIZE := 12
  const OFF_DATA_START := 16
  const OFF_TARGET_COUNT := 20
  const OFF_NAME := 48
  const NAME_SIZE := 128

  const SPEC_SIZE := 40
  const OFF_SPEC_LENGTH := 8
  const OFF_SPEC_NEXT := 20
  const OFF_SPEC_TYPE := 24
  const TARGET_TYPE_SIZE := 16

  type Uint64 = v: int | 0 <= v < TWO_64

  /** One line of a table. Texts are bytes. */
  datatype Target = Target(start: Uint64, length: Uint64, typ: seq<Byte>, params: seq<Byte>)

  datatype Result<T> = Ok(value: T) | Error

  function Align8(n: nat): (r: nat)
    ensures n <= r < n + 8
  {
    (n + 7) / 8 * 8
  }

  /** The only multiple of eight among the eight numbers from `n` on. */
  lemma Align8Aligns(n: nat)
    ensures Align8(n) % 8 == 0
    ensures forall m: nat :: n <= m < n + 8 && m % 8 == 0 ==> m == Align8(n)
  {
  }

  // ---- Encoding ----

  function SpecSize(t: Target): nat {
    Align8(SPEC_SIZE + |t.params| + 1)
  }

  predicate TypeFits(t: Target) {
    |t.typ| < TARGET_TYPE_SIZE
  }

  /** A spec and its params, with `next` in its next field. */
  function Spec(e: Endian, t: Target, next: nat): (s: seq<Byte>)
    requires TypeFits(t)
    ensures |s| == SpecSize(t)
  {
    PutUint(e, t.start, 8) + PutUint(e, t.length, 8) + Zeros(4) + PutUint(e, next, 4)
      + (t.typ + Zeros(TARGET_TYPE_SIZE - |t.typ|))
      + (t.params + Zeros(SpecSize(t) - SPEC_SIZE - |t.params|))
  }

  /** Where spec `i` of a table starts. */
  function Offset(ts: seq<Target>, i: nat): nat
    requires i <= |ts|
  {
    if i == 0 then 0 else Offset(ts, i - 1) + SpecSize(ts[i - 1])
  }

  /** Where the spec after a spec of `size` at `off` starts, counted as a next field
      counts it: from its own spec, as a load does, or from the start of the data, as
      a status call does. */
  function Next(off: nat, size: nat, relative: bool): nat {
    if relative then size else off + size
  }

  function Specs(e: Endian, ts: seq<Target>, relative: bool): (specs: seq<seq<Byte>>)
    requires forall t <- ts :: TypeFits(t)
    ensures |specs| == |ts|
  {
    seq(|ts|, i requires 0 <= i < |ts| => Spec(e, ts[i], Next(Offset(ts, i), SpecSize(ts[i]), relative)))
  }

  function Encoded(e: Endian, ts: seq<Target>): seq<Byte>
    requires forall t <- ts :: TypeFits(t)
  {
    Join(Specs(e, ts, true))
  }

  lemma OverZeros(a: seq<Byte>, n: nat, skip: nat, bytes: seq<Byte>)
    requires skip + |bytes| <= n
    ensures Written(a + Zeros(n), |a| + skip, bytes) == a + Zeros(skip) + bytes + Zeros(n - skip - |bytes|)
  {
  }

  method EncodeSpec(e: Endian, t: Target) returns (s: seq<Byte>)
    requires TypeFits(t)
    ensures s == Spec(e, t, SpecSize(t))
  {
    var size := SpecSize(t);
    s := WriteSpec(size, PutUint(e, t.start, 8), PutUint(e, t.length, 8), PutUint(e, size, 4), t.typ, t.params);
  }

  method WriteSpec(size: nat, start: seq<Byte>, length: seq<Byte>, next: seq<Byte>, typ: seq<Byte>, params: seq<Byte>)
    returns (s: seq<Byte>)
    requires |start| == 8 && |length| == 8 && |next| == 4 && |typ| <= TARGET_TYPE_SIZE && SPEC_SIZE + |params| <= size
    ensures s == start + length + Zeros(4) + next + (typ + Zeros(16 - |typ|)) + (params + Zeros(size - 40 - |params|))
  {
    var spec := new Byte[size](_ => 0);
    assert spec[..] == Zeros(size);
    Copy(spec, 0, start);
    Copy(spec, OFF_SPEC_LENGTH, length);
    Copy(spec, OFF_SPEC_NEXT, next);
    Copy(spec, OFF_SPEC_TYPE, typ);
    Copy(spec, SPEC_SIZE, params);
    SpecIsWritten(size, start, length, next, typ, params);
    s := spec[..];
  }

  lemma SpecIsWritten(size: nat, start: seq<Byte>, length: seq<Byte>, next: seq<Byte>, typ: seq<Byte>, params: seq<Byte>)
    requires |start| == 8 && |length| == 8 && |next| == 4 && |typ| <= 16 && 40 + |params| <= size
    ensures Written(Written(Written(Written(Written(Zeros(size), 0, start), 8, length), 20, next), 24, typ), 40, params)
            == start + length + Zeros(4) + next + (typ + Zeros(16 - |typ|)) + (params + Zeros(size - 40 - |params|))
  {
    var fields := start + length + Zeros(4) + next;
    var s1 := Written(Zeros(size), 0, start);
    assert s1 == start + Zeros(size - 8) by {
      assert [] + Zeros(size) == Zeros(size);
      OverZeros([], size, 0, start);
    }
    var s2 := Written(s1, 8, length);
    assert s2 == start + length + Zeros(size - 16) by { OverZeros(start, size - 8, 0, length); }
    var s3 := Written(s2, 20, next);
    assert s3 == fields + Zeros(size - 24) by { OverZeros(start + length, size - 16, 4, next); }
    var s4 := Written(s3, 24, typ);
    assert s4 == fields + typ + Zeros(size - 24 - |typ|) by { OverZeros(fields, size - 24, 0, typ); }
    OverZeros(fields + typ, size - 24 - |typ|, 16 - |typ|, params);
    var gap, rest := Zeros(16 - |typ|), Zeros(size - 40 - |params|);
    assert fields + typ + gap + params + rest == fields + (typ + gap) + (params + rest);
  }

  method EncodeTargets(e: Endian, ts: seq<Target>) returns (r: Result<seq<Byte>>)
    ensures r.Ok? <==> forall t <- ts :: TypeFits(t)
    ensures r.Ok? ==> r.value == Encoded(e, ts)
  {
    var out: seq<Byte> := [];
    var i := 0;
    assert ts[..0] == [];
    while i < |ts|
      invariant 0 <= i <= |ts|
      invariant forall t <- ts[..i] :: TypeFits(t)
      invariant out == Encoded(e, ts[..i])
    {
      if |ts[i].typ| >= TARGET_TYPE_SIZE {
        assert ts[i] in ts && !TypeFits(ts[i]);
        return Error;
      }
      var spec := EncodeSpec(e, ts[i]);
      EncodedUpTo(e, ts, i);
      out := out + spec;
      i := i + 1;
    }
    assert ts[..i] == ts;
    return Ok(out);
  }

  lemma EncodedUpTo(e: Endian, ts: seq<Target>, i: nat)
    requires i < |ts| && TypeFits(ts[i]) && forall t <- ts[..i] :: TypeFits(t)
    ensures forall t <- ts[..i + 1] :: TypeFits(t)
    ensures Encoded(e, ts[..i + 1]) == Encoded(e, ts[..i]) + Spec(e, ts[i], SpecSize(ts[i]))
  {
    assert ts[..i + 1] == ts[..i] + [ts[i]];
    EncodedOneMore(e, ts[..i], ts[i]);
  }

  lemma EncodedOneMore(e: Endian, ts: seq<Target>, t: Target)
    requires forall u <- ts + [t] :: TypeFits(u)
    ensures Encoded(e, ts + [t]) == Encoded(e, ts) + Spec(e, t, SpecSize(t))
  {
    assert Specs(e, ts + [t], true) == Specs(e, ts, true) + [Spec(e, t, SpecSize(t))];
    JoinOneMore(Specs(e, ts, true), Spec(e, t, SpecSize(t)));
  }

  // ---- Decoding ----

  function Uint32At(e: Endian, s: seq<Byte>, off: nat): nat
    requires off + 4 <= |s|
  {
    GetUint(e, s, off, 4)
  }

  function Uint64At(e: Endian, s: seq<Byte>, off: nat): Uint64
    requires off + 8 <= |s|
  {
    ValueIsBounded(e, s, off, 8, 0);
    Powers();
    GetUint(e, s, off, 8)
  }

  /** The target a spec at `off` holds. */
  function TargetAt(e: Endian, data: seq<Byte>, off: nat): Target
    requires off + SPEC_SIZE <= |data|
  {
    Target(
      Uint64At(e, data, off),
      Uint64At(e, data, off + OFF_SPEC_LENGTH),
      CString(data, off + OFF_SPEC_TYPE, off + OFF_SPEC_TYPE + TARGET_TYPE_SIZE),
      CString(data, off + SPEC_SIZE, |data|))
  }

  function NextAt(e: Endian, data: seq<Byte>, off: nat): nat
    requires off + SPEC_SIZE <= |data|
  {
    Uint32At(e, data, off + OFF_SPEC_NEXT)
  }

  /** Reading the specs of a table one after the other. The next field of each counts
      from its own start, as in a load, or from the start of the data, as in a status
      call's answer. */
  function Reading(e: Endian, data: seq<Byte>, relative: bool): Chains.Reader<Target> {
    Chains.Reader(
      SPEC_SIZE,
      |data|,
      (off: nat) => if off + SPEC_SIZE <= |data| then TargetAt(e, data, off) else Target(0, 0, [], []),
      (off: nat) => if off + SPEC_SIZE > |data| then 0
             else if relative then off + NextAt(e, data, off) else NextAt(e, data, off))
  }

  predicate HeaderFits(e: Endian, buf: seq<Byte>)
  {
    && |buf| >= HEADER_SIZE
    && Uint32At(e, buf, OFF_DATA_START) <= Uint32At(e, buf, OFF_DATA_SIZE) <= |buf|
  }

  /** What a status call wrote, between data_start and data_size. */
  function Data(e: Endian, buf: seq<Byte>): seq<Byte>
    requires HeaderFits(e, buf)
  {
    buf[Uint32At(e, buf, OFF_DATA_START)..Uint32At(e, buf, OFF_DATA_SIZE)]
  }

  function Count(e: Endian, buf: seq<Byte>): nat
    requires HeaderFits(e, buf)
  {
    Uint32At(e, buf, OFF_TARGET_COUNT)
  }

  /** On any buffer: an error, or exactly as many targets as the header declares. */
  method DecodeTargets(e: Endian, buf: seq<Byte>) returns (r: Result<seq<Target>>)
    ensures r.Ok? <==> HeaderFits(e, buf) && Chains.Fits(Reading(e, Data(e, buf), false), 0, Count(e, buf))
    ensures r.Ok? ==> r.value == Chains.Items(Reading(e, Data(e, buf), false), 0, Count(e, buf))
    ensures r.Ok? ==> |r.value| == Count(e, buf)
  {
    if |buf| < HEADER_SIZE {
      return Error;
    }
    var count := Uint32At(e, buf, OFF_TARGET_COUNT);
    var dataStart := Uint32At(e, buf, OFF_DATA_START);
    var dataSize := Uint32At(e, buf, OFF_DATA_SIZE);
    if dataSize > |buf| || dataStart > dataSize {
      return Error;
    }
    var fits, ts := Chains.Collect(Reading(e, buf[dataStart..dataSize], false), count);
    r := if fits then Ok(ts) else Error;
  }

  // ---- Round trip ----

  ghost function CutTexts(t: Target): Target {
    t.(typ := Cut(t.typ), params := Cut(t.params))
  }

  ghost function CutAll(ts: seq<Target>): (cs: seq<Target>)
    ensures |cs| == |ts|
  {
    seq(|ts|, i requires 0 <= i < |ts| => CutTexts(ts[i]))
  }

  /** The spec of `t` is at `off`, its texts ended by a NUL and its next field `next`. */
  ghost predicate SpecAt(e: Endian, data: seq<Byte>, off: nat, t: Target, next: nat) {
    && off + SPEC_SIZE + |t.params| < |data| && TypeFits(t)
    && data[off..off + 8] == PutUint(e, t.start, 8)
    && data[off + 8..off + 16] == PutUint(e, t.length, 8)
    && data[off + 20..off + 24] == PutUint(e, next, 4)
    && TextIsAt(data, off + 24, t.typ)
    && TextIsAt(data, off + 40, t.params)
  }

  lemma Slices(a: seq<Byte>, start: seq<Byte>, length: seq<Byte>, status: seq<Byte>, next: seq<Byte>, typ: seq<Byte>,
               params: seq<Byte>, c: seq<Byte>, data: seq<Byte>)
    requires |start| == 8 && |length| == 8 && |status| == 4 && |next| == 4 && |typ| == 16
    requires data == a + (start + length + status + next + typ + params) + c
    ensures data[|a|..|a| + 8] == start && data[|a| + 8..|a| + 16] == length
    ensures data[|a| + 20..|a| + 24] == next && data[|a| + 24..|a| + 40] == typ
    ensures data[|a| + 40..|a| + 40 + |params|] == params
  {
  }

  /** A spec as it goes over the wire: sector start, length, a status, the offset of the
      next one, the type in sixteen bytes, then the params, a NUL and padding. */
  lemma SpecOnTheWire(e: Endian, t: Target, next: nat)
    requires TypeFits(t)
    ensures var s := Spec(e, t, next);
            && |s| % 8 == 0 && 40 + |t.params| < |s| <= 48 + |t.params|
            && s[0..8] == PutUint(e, t.start, 8) && s[8..16] == PutUint(e, t.length, 8)
            && s[16..20] == [0, 0, 0, 0] && s[20..24] == PutUint(e, next, 4)
            && s[24..40] == t.typ + Zeros(16 - |t.typ|)
            && s[40..] == t.params + Zeros(|s| - 40 - |t.params|)
  {
    Align8Aligns(SPEC_SIZE + |t.params| + 1);
    SpecFields(PutUint(e, t.start, 8), PutUint(e, t.length, 8), Zeros(4), PutUint(e, next, 4),
               t.typ + Zeros(16 - |t.typ|), t.params + Zeros(SpecSize(t) - 40 - |t.params|), Spec(e, t, next));
    assert Zeros(4) == [0, 0, 0, 0];
  }

  lemma SpecFields(start: seq<Byte>, length: seq<Byte>, status: seq<Byte>, next: seq<Byte>, typ: seq<Byte>, params: seq<Byte>, s: seq<Byte>)
    requires |start| == 8 && |length| == 8 && |status| == 4 && |next| == 4 && |typ| == 16
    requires s == start + length + status + next + typ + params
    ensures s[0..8] == start && s[8..16] == length && s[16..20] == status
    ensures s[20..24] == next && s[24..40] == typ && s[40..] == params
  {
  }

  lemma PaddedIsAt(data: seq<Byte>, off: nat, text: seq<Byte>, n: nat)
    requires n > 0 && off + |text| + n <= |data|
    requires data[off..off + |text| + n] == text + Zeros(n)
    ensures TextIsAt(data, off, text)
  {
    var padded := data[off..off + |text| + n];
    assert data[off + |text|] == padded[|text|];
    assert padded[..|text|] == text;
    forall i | 0 <= i < |text| ensures data[off..off + |text|][i] == text[i] {
      assert data[off + i] == padded[i];
    }
  }

  lemma SpecIsAt(e: Endian, t: Target, next: nat, a: seq<Byte>, c: seq<Byte>, data: seq<Byte>)
    requires TypeFits(t) && data == a + Spec(e, t, next) + c
    ensures SpecAt(e, data, |a|, t, next)
  {
    var m, n := TARGET_TYPE_SIZE - |t.typ|, SpecSize(t) - SPEC_SIZE - |t.params|;
    Slices(a, PutUint(e, t.start, 8), PutUint(e, t.length, 8), Zeros(4), PutUint(e, next, 4),
           t.typ + Zeros(m), t.params + Zeros(n), c, data);
    PaddedIsAt(data, |a| + 24, t.typ, m);
    PaddedIsAt(data, |a| + 40, t.params, n);
  }

  lemma NumbersOf(e: Endian, data: seq<Byte>, off: nat, t: Target, next: nat)
    requires SpecAt(e, data, off, t, next) && next < TWO_32
    ensures Uint64At(e, data, off) == t.start && Uint64At(e, data, off + 8) == t.length
    ensures NextAt(e, data, off) == next
  {
    Powers();
    UintRoundTrip(e, data, off, t.start, 8);
    UintRoundTrip(e, data, off + 8, t.length, 8);
    UintRoundTrip(e, data, off + 20, next, 4);
  }

  lemma TargetOf(e: Endian, data: seq<Byte>, off: nat, t: Target, next: nat)
    requires SpecAt(e, data, off, t, next) && next < TWO_32
    ensures TargetAt(e, data, off) == CutTexts(t) && NextAt(e, data, off) == next
  {
    NumbersOf(e, data, off, t, next);
    CStringCuts(data, off + 24, off + 40, t.typ);
    CStringCuts(data, off + 40, |data|, t.params);
  }

  lemma {:induction false} OffsetGrows(ts: seq<Target>, i: nat, j: nat)
    requires i <= j <= |ts|
    ensures Offset(ts, i) <= Offset(ts, j)
    decreases j
  {
    if i < j {
      OffsetGrows(ts, i, j - 1);
    }
  }

  ghost function Offsets(ts: seq<Target>): (offs: seq<nat>)
    ensures |offs| == |ts| + 1 && offs[0] == 0
    ensures forall i {:trigger ts[i]} :: 0 <= i < |ts| ==> offs[i + 1] == offs[i] + SpecSize(ts[i])
  {
    seq(|ts| + 1, i requires 0 <= i <= |ts| => Offset(ts, i))
  }

  lemma SpecsLength(e: Endian, ts: seq<Target>, relative: bool, i: nat)
    requires i <= |ts| && forall t <- ts :: TypeFits(t)
    ensures |Join(Specs(e, ts, relative)[..i])| == Offset(ts, i)
  {
    JoinLength(Specs(e, ts, relative), Offsets(ts), i);
  }

  lemma Middle(before: seq<Byte>, spec: seq<Byte>, after: seq<Byte>, data: seq<Byte>)
    requires before + spec + after <= data
    ensures data == before + spec + data[|before| + |spec|..]
  {
  }

  lemma SpecStarts(e: Endian, ts: seq<Target>, relative: bool, data: seq<Byte>, i: nat)
    requires i < |ts| && forall t <- ts :: TypeFits(t)
    requires Join(Specs(e, ts, relative)) <= data
    ensures SpecAt(e, data, Offset(ts, i), ts[i], Next(Offset(ts, i), SpecSize(ts[i]), relative))
  {
    var specs := Specs(e, ts, relative);
    JoinSplit(specs, i);
    SpecsLength(e, ts, relative, i);
    var before := Join(specs[..i]);
    Middle(before, specs[i], Join(specs[i + 1..]), data);
    SpecIsAt(e, ts[i], Next(Offset(ts, i), SpecSize(ts[i]), relative), before, data[|before| + |specs[i]|..], data);
  }

  /** Spec `i` of the table is where the table has it. */
  ghost predicate SpecLaid(e: Endian, ts: seq<Target>, relative: bool, data: seq<Byte>, i: nat)
    requires i < |ts|
  {
    SpecAt(e, data, Offset(ts, i), ts[i], Next(Offset(ts, i), SpecSize(ts[i]), relative))
  }

  /** The data holds the table. Of the last spec it needs no more than its params and
      the NUL behind them. */
  ghost predicate Laid(e: Endian, ts: seq<Target>, relative: bool, data: seq<Byte>) {
    forall i :: 0 <= i < |ts| ==> SpecLaid(e, ts, relative, data, i)
  }

  lemma JoinedIsLaid(e: Endian, ts: seq<Target>, relative: bool, data: seq<Byte>)
    requires (forall t <- ts :: TypeFits(t)) && Join(Specs(e, ts, relative)) <= data
    ensures Laid(e, ts, relative, data)
  {
    forall i | 0 <= i < |ts| ensures SpecLaid(e, ts, relative, data, i) {
      SpecStarts(e, ts, relative, data, i);
    }
  }

  lemma TableStep(e: Endian, ts: seq<Target>, relative: bool, data: seq<Byte>, off: nat, end: nat, i: nat)
    requires i < |ts| && SpecLaid(e, ts, relative, data, i)
    requires off == Offset(ts, i) && end == off + SpecSize(ts[i]) < TWO_32
    ensures off + SPEC_SIZE <= |data|
    ensures Reading(e, data, relative).item(off) == CutTexts(ts[i]) && Reading(e, data, relative).next(off) == end
  {
    TargetOf(e, data, off, ts[i], Next(off, SpecSize(ts[i]), relative));
  }

  lemma TableFollows(e: Endian, ts: seq<Target>, relative: bool, data: seq<Byte>, offs: seq<nat>, cs: seq<Target>)
    requires Laid(e, ts, relative, data)
    requires offs == Offsets(ts) && cs == CutAll(ts) && forall off <- offs :: off < TWO_32
    ensures Chains.Follow(Reading(e, data, relative), offs, cs)
  {
    var r := Reading(e, data, relative);
    forall i | 0 <= i < |cs| ensures offs[i] + r.size <= r.limit && r.item(offs[i]) == cs[i] && r.next(offs[i]) == offs[i + 1] {
      assert offs[i + 1] in offs;
      TableStep(e, ts, relative, data, offs[i], offs[i + 1], i);
    }
  }

  lemma OffsetsGrow(ts: seq<Target>)
    ensures forall off <- Offsets(ts) :: off <= Offset(ts, |ts|)
  {
    forall i | 0 <= i <= |ts| ensures Offsets(ts)[i] <= Offset(ts, |ts|) {
      OffsetGrows(ts, i, |ts|);
    }
  }

  /** The specs of a table are read in order, whichever way its next fields count. */
  lemma TableReads(e: Endian, ts: seq<Target>, relative: bool, data: seq<Byte>)
    requires Laid(e, ts, relative, data) && Offset(ts, |ts|) < TWO_32
    ensures Chains.Fits(Reading(e, data, relative), 0, |ts|)
    ensures Chains.Items(Reading(e, data, relative), 0, |ts|) == CutAll(ts)
  {
    var r, offs, cs := Reading(e, data, relative), Offsets(ts), CutAll(ts);
    OffsetsGrow(ts);
    TableFollows(e, ts, relative, data, offs, cs);
    Chains.FollowedItems(r, offs, cs, 0);
  }

  lemma CutAllKeeps(ts: seq<Target>)
    ensures CutAll(ts) == ts <==> forall t <- ts :: NulFree(t.typ) && NulFree(t.params)
  {
    forall i | 0 <= i < |ts| ensures CutAll(ts)[i] == ts[i] <==> NulFree(ts[i].typ) && NulFree(ts[i].params) {
      CutKeeps(ts[i].typ);
      CutKeeps(ts[i].params);
    }
  }

  /** What the kernel takes from the specs of a table load. */
  ghost predicate Loads(e: Endian, payload: seq<Byte>, count: nat, ts: seq<Target>) {
    Chains.Fits(Reading(e, payload, true), 0, count) && Chains.Items(Reading(e, payload, true), 0, count) == ts
  }

  /** What the kernel answers to a table status call: the live table, its next fields
      counted from the start of the data. */
  ghost predicate Answers(e: Endian, ts: seq<Target>, buf: seq<Byte>) {
    HeaderFits(e, buf) && Count(e, buf) == |ts| && Laid(e, ts, false, Data(e, buf))
  }

  /** The kernel loads an encoded table with its texts cut at their first NUL, and that
      is what its answer decodes to: the table as it was, exactly when they have none. */
  lemma TableRoundTrip(e: Endian, ts: seq<Target>, buf: seq<Byte>)
    requires (forall t <- ts :: TypeFits(t)) && Offset(ts, |ts|) < TWO_32 && Answers(e, CutAll(ts), buf)
    ensures Loads(e, Encoded(e, ts), |ts|, CutAll(ts))
    ensures Chains.Fits(Reading(e, Data(e, buf), false), 0, Count(e, buf))
    ensures Chains.Items(Reading(e, Data(e, buf), false), 0, Count(e, buf)) == CutAll(ts)
    ensures CutAll(ts) == ts <==> forall t <- ts :: NulFree(t.typ) && NulFree(t.params)
  {
    JoinedIsLaid(e, ts, true, Encoded(e, ts));
    TableReads(e, ts, true, Encoded(e, ts));
    CutShrinks(ts, |ts|);
    TableReads(e, CutAll(ts), false, Data(e, buf));
    CutTwice(ts);
    CutAllKeeps(ts);
  }

  lemma CutTwice(ts: seq<Target>)
    ensures CutAll(CutAll(ts)) == CutAll(ts)
  {
    forall i | 0 <= i < |ts| ensures CutTexts(CutTexts(ts[i])) == CutTexts(ts[i]) {
      CutKeeps(ts[i].typ);
      CutKeeps(ts[i].params);
      CutKeeps(Cut(ts[i].typ));
      CutKeeps(Cut(ts[i].params));
    }
  }

  lemma SizeShrinks(t: Target)
    ensures SpecSize(CutTexts(t)) <= SpecSize(t)
  {
    CutKeeps(t.params);
  }

  lemma {:induction false} CutShrinks(ts: seq<Target>, i: nat)
    requires i <= |ts|
    ensures Offset(CutAll(ts), i) <= Offset(ts, i)
  {
    if i > 0 {
      CutShrinks(ts, i - 1);
      SizeShrinks(ts[i - 1]);
    }
  }

  // ---- Requests ----

  /** A whole request: the header, field by field, and its payload. */
  ghost function Request(version: seq<Byte>, dataSize: seq<Byte>, dataStart: seq<Byte>, count: seq<Byte>,
                         name: seq<Byte>, payload: seq<Byte>): (s: seq<Byte>)
    requires |version| == 4 && |dataSize| == 4 && |dataStart| == 4 && |count| == 4 && |name| < NAME_SIZE
    ensures |s| == HEADER_SIZE + |payload|
  {
    version + Zeros(8) + dataSize + dataStart + count + Zeros(24) + name + Zeros(264 - |name|) + payload
  }

  lemma RequestIsWritten(version: seq<Byte>, dataSize: seq<Byte>, dataStart: seq<Byte>, name: seq<Byte>, n: nat)
    requires |version| == 4 && |dataSize| == 4 && |dataStart| == 4 && |name| < NAME_SIZE
    ensures Written(Written(Written(Written(Zeros(HEADER_SIZE + n), 0, version), 12, dataSize), 16, dataStart), 48, name)
            == Request(version, dataSize, dataStart, Zeros(4), name, Zeros(n))
  {
    var size := HEADER_SIZE + n;
    var s1 := Written(Zeros(size), 0, version);
    assert s1 == version + Zeros(size - 4) by {
      assert [] + Zeros(size) == Zeros(size);
      OverZeros([], size, 0, version);
    }
    var s2 := Written(s1, 12, dataSize);
    assert s2 == version + Zeros(8) + dataSize + Zeros(size - 16) by { OverZeros(version, size - 4, 8, dataSize); }
    var fields := version + Zeros(8) + dataSize + dataStart;
    var s3 := Written(s2, 16, dataStart);
    assert s3 == fields + Zeros(size - 20) by { OverZeros(version + Zeros(8) + dataSize, size - 16, 0, dataStart); }
    OverZeros(fields, size - 20, 28, name);
    assert Zeros(28) == Zeros(4) + Zeros(24) && Zeros(size - 48 - |name|) == Zeros(264 - |name|) + Zeros(n);
  }

  lemma PayloadIsWritten(version: seq<Byte>, dataSize: seq<Byte>, dataStart: seq<Byte>, count: seq<Byte>,
                         name: seq<Byte>, payload: seq<Byte>)
    requires |version| == 4 && |dataSize| == 4 && |dataStart| == 4 && |count| == 4 && |name| < NAME_SIZE
    ensures Written(Written(Request(version, dataSize, dataStart, Zeros(4), name, Zeros(|payload|)), 312, payload), 20, count)
            == Request(version, dataSize, dataStart, count, name, payload)
  {
  }

  lemma RequestFields(version: seq<Byte>, dataSize: seq<Byte>, dataStart: seq<Byte>, count: seq<Byte>,
                      name: seq<Byte>, payload: seq<Byte>)
    requires |version| == 4 && |dataSize| == 4 && |dataStart| == 4 && |count| == 4 && |name| < NAME_SIZE
    ensures var s := Request(version, dataSize, dataStart, count, name, payload);
            s[12..16] == dataSize && s[16..20] == dataStart && s[20..24] == count && s[312..] == payload
  {
  }

  lemma RequestReads(e: Endian, name: seq<Byte>, n: nat, payload: seq<Byte>, buf: seq<Byte>)
    requires |name| < NAME_SIZE && n < TWO_32 && HEADER_SIZE + |payload| < TWO_32
    requires buf == Request(PutUint(e, 4, 4), PutUint(e, HEADER_SIZE + |payload|, 4), PutUint(e, HEADER_SIZE, 4),
                            PutUint(e, n, 4), name, payload)
    ensures HeaderFits(e, buf) && Count(e, buf) == n && Data(e, buf) == payload
  {
    RequestFields(PutUint(e, 4, 4), PutUint(e, HEADER_SIZE + |payload|, 4), PutUint(e, HEADER_SIZE, 4),
                  PutUint(e, n, 4), name, payload);
    Powers();
    UintRoundTrip(e, buf, 12, HEADER_SIZE + |payload|, 4);
    UintRoundTrip(e, buf, 16, HEADER_SIZE, 4);
    UintRoundTrip(e, buf, 20, n, 4);
  }

  method NewRequest(e: Endian, name: seq<Byte>, payloadSize: nat) returns (r: Result<array<Byte>>)
    ensures r.Ok? <==> |name| < NAME_SIZE
    ensures r.Ok? ==> fresh(r.value)
    ensures r.Ok? ==>
              r.value[..] == Request(PutUint(e, 4, 4), PutUint(e, HEADER_SIZE + payloadSize, 4),
                                     PutUint(e, HEADER_SIZE, 4), Zeros(4), name, Zeros(payloadSize))
  {
    if |name| >= NAME_SIZE {
      return Error;
    }
    var size := HEADER_SIZE + payloadSize;
    var buf := new Byte[size](_ => 0);
    var version, dataSize, dataStart := PutUint(e, 4, 4), PutUint(e, size, 4), PutUint(e, HEADER_SIZE, 4);
    assert buf[..] == Zeros(size);
    Copy(buf, OFF_VERSION, version);
    Copy(buf, OFF_DATA_SIZE, dataSize);
    Copy(buf, OFF_DATA_START, dataStart);
    Copy(buf, OFF_NAME, name);
    RequestIsWritten(version, dataSize, dataStart, name, payloadSize);
    return Ok(buf);
  }

  /** The request to load a table: its header declares the table's targets and where
      they are. */
  method LoadRequest(e: Endian, name: seq<Byte>, ts: seq<Target>) returns (r: Result<seq<Byte>>)
    ensures r.Ok? <==> |name| < NAME_SIZE && forall t <- ts :: TypeFits(t)
    ensures r.Ok? && HEADER_SIZE + |Encoded(e, ts)| < TWO_32 ==>
              HeaderFits(e, r.value) && Count(e, r.value) == |ts| && Data(e, r.value) == Encoded(e, ts)
  {
    var encoded := EncodeTargets(e, ts);
    if encoded.Error? {
      return Error;
    }
    var payload := encoded.value;
    var request := NewRequest(e, name, |payload|);
    if request.Error? {
      return Error;
    }
    var buf, count := request.value, PutUint(e, |ts|, 4);
    Copy(buf, HEADER_SIZE, payload);
    Copy(buf, OFF_TARGET_COUNT, count);
    PayloadIsWritten(PutUint(e, 4, 4), PutUint(e, HEADER_SIZE + |payload|, 4), PutUint(e, HEADER_SIZE, 4), count, name, payload);
    if HEADER_SIZE + |payload| < TWO_32 {
      FewerThanBytes(e, ts);
      RequestReads(e, name, |ts|, payload, buf[..]);
    }
    return Ok(buf[..]);
  }

  lemma FewerThanBytes(e: Endian, ts: seq<Target>)
    requires forall t <- ts :: TypeFits(t)
    ensures |ts| <= Offset(ts, |ts|) == |Encoded(e, ts)|
  {
    OffsetAtLeast(ts, |ts|);
    SpecsLength(e, ts, true, |ts|);
    assert Specs(e, ts, true)[..|ts|] == Specs(e, ts, true);
  }

  lemma {:induction false} OffsetAtLeast(ts: seq<Target>, i: nat)
    requires i <= |ts|
    ensures i <= Offset(ts, i)
  {
    if i > 0 {
      OffsetAtLeast(ts, i - 1);
    }
  }

  /** Where the last params of the first `n` specs end, with their NUL. */
  ghost function End(ts: seq<Target>, n: nat): nat
    requires n <= |ts|
  {
    if n == 0 then 0 else Offset(ts, n - 1) + SPEC_SIZE + |ts[n - 1].params| + 1
  }

  lemma SpecAtPrefix(e: Endian, data: seq<Byte>, n: nat, off: nat, t: Target, next: nat)
    requires SpecAt(e, data, off, t, next) && off + SPEC_SIZE + |t.params| < n <= |data|
    ensures SpecAt(e, data[..n], off, t, next)
  {
    var cut := data[..n];
    assert cut[off..off + 8] == data[off..off + 8];
    assert cut[off + 8..off + 16] == data[off + 8..off + 16];
    assert cut[off + 20..off + 24] == data[off + 20..off + 24];
    assert cut[off + 24..off + 24 + |t.typ|] == data[off + 24..off + 24 + |t.typ|];
    assert cut[off + 40..off + 40 + |t.params|] == data[off + 40..off + 40 + |t.params|];
  }

  lemma EndsWithin(ts: seq<Target>, i: nat)
    requires i < |ts|
    ensures Offset(ts, i) + SPEC_SIZE + |ts[i].params| + 1 <= Offset(ts, i + 1)
  {
  }

  lemma EndsBefore(ts: seq<Target>, i: nat)
    requires i < |ts|
    ensures Offset(ts, i) + SPEC_SIZE + |ts[i].params| < End(ts, |ts|) <= Offset(ts, |ts|)
  {
    EndsWithin(ts, |ts| - 1);
    if i < |ts| - 1 {
      EndsEarlier(ts, i, |ts| - 1);
    }
  }

  lemma {:induction false} EndsEarlier(ts: seq<Target>, i: nat, j: nat)
    requires i < j < |ts|
    ensures Offset(ts, i) + SPEC_SIZE + |ts[i].params| < Offset(ts, j)
    decreases j
  {
    if j == i + 1 {
      EndsWithin(ts, i);
    } else {
      EndsEarlier(ts, i, j - 1);
      EndsWithin(ts, j - 1);
    }
  }

  /** Every table that fits has an answer that ends right behind its last params. */
  lemma AnswerExists(e: Endian, ts: seq<Target>) returns (buf: seq<Byte>)
    requires (forall t <- ts :: TypeFits(t)) && HEADER_SIZE + Offset(ts, |ts|) < TWO_32
    ensures Answers(e, ts, buf) && |Data(e, buf)| == End(ts, |ts|)
  {
    var whole := Join(Specs(e, ts, false));
    SpecsLength(e, ts, false, |ts|);
    assert Specs(e, ts, false)[..|ts|] == Specs(e, ts, false);
    JoinedIsLaid(e, ts, false, whole);
    if |ts| > 0 { EndsBefore(ts, 0); }
    var data := whole[..End(ts, |ts|)];
    forall i | 0 <= i < |ts| ensures SpecLaid(e, ts, false, data, i) {
      assert SpecLaid(e, ts, false, whole, i);
      EndsBefore(ts, i);
      SpecAtPrefix(e, whole, |data|, Offset(ts, i), ts[i], Next(Offset(ts, i), SpecSize(ts[i]), false));
    }
    OffsetAtLeast(ts, |ts|);
    buf := Request(PutUint(e, 4, 4), PutUint(e, HEADER_SIZE + |data|, 4), PutUint(e, HEADER_SIZE, 4), PutUint(e, |ts|, 4), [], data);
    RequestReads(e, [], |ts|, data, buf);
  }
}
