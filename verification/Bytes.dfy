/** Byte buffers and the unsigned integers stored in them. */
module Bytes {
  type Byte = b: int | 0 <= b < 256

  datatype Endian = Little | Big

  function Power(n: nat): nat {
    if n == 0 then 1 else 256 * Power(n - 1)
  }

  function Reversed(s: seq<Byte>): (r: seq<Byte>)
    ensures |r| == |s|
  {
    seq(|s|, i requires 0 <= i < |s| => s[|s| - 1 - i])
  }

  function Digits(v: nat, n: nat): (ds: seq<Byte>)
    ensures |ds| == n
  {
    if n == 0 then [] else [v % 256] + Digits(v / 256, n - 1)
  }

  /** `v` in `n` bytes, wrapped around when it needs more. */
  function PutUint(e: Endian, v: nat, n: nat): (s: seq<Byte>)
    ensures |s| == n
  {
    if e == Little then Digits(v, n) else Reversed(Digits(v, n))
  }

  /** The byte of weight 256 to the `i` in an integer of `n` bytes at `off`. */
  function ByteAt(e: Endian, s: seq<Byte>, off: nat, n: nat, i: nat): Byte
    requires off + n <= |s| && i < n
  {
    if e == Little then s[off + i] else s[off + n - 1 - i]
  }

  /** The value of the bytes above the first `i` of an integer of `n` bytes at `off`. */
  function ValueAt(e: Endian, s: seq<Byte>, off: nat, n: nat, i: nat): nat
    requires off + n <= |s| && i <= n
    decreases n - i
  {
    if i == n then 0 else ByteAt(e, s, off, n, i) + 256 * ValueAt(e, s, off, n, i + 1)
  }

  function GetUint(e: Endian, s: seq<Byte>, off: nat, n: nat): nat
    requires off + n <= |s|
  {
    ValueAt(e, s, off, n, 0)
  }

  ghost function Above(v: nat, i: nat): nat {
    if i == 0 then v else Above(v / 256, i - 1)
  }

  lemma {:induction false} DigitAt(v: nat, n: nat, i: nat)
    requires i < n
    ensures Digits(v, n)[i] == Above(v, i) % 256 && Above(v, i + 1) == Above(v, i) / 256
    decreases i
  {
    if i > 0 {
      DigitAt(v / 256, n - 1, i - 1);
    }
  }

  lemma {:induction false} AboveIsBounded(v: nat, n: nat, i: nat)
    requires v < Power(n) && i <= n
    ensures Above(v, i) < Power(n - i)
    decreases i
  {
    if i > 0 {
      AboveIsBounded(v / 256, n - 1, i - 1);
    }
  }

  lemma {:induction false} ValueOfDigits(e: Endian, s: seq<Byte>, off: nat, v: nat, n: nat, i: nat)
    requires v < Power(n) && i <= n && off + n <= |s| && s[off..off + n] == PutUint(e, v, n)
    ensures ValueAt(e, s, off, n, i) == Above(v, i)
    decreases n - i
  {
    AboveIsBounded(v, n, i);
    if i < n {
      ValueOfDigits(e, s, off, v, n, i + 1);
      DigitAt(v, n, i);
      var bytes := s[off..off + n];
      assert bytes[i] == s[off + i] && bytes[n - 1 - i] == s[off + n - 1 - i];
    }
  }

  /** The least significant byte comes first in the one order, and last in the other. */
  lemma ByteOrders(v: nat, n: nat, i: nat)
    requires i < n
    ensures PutUint(Little, v, n)[i] == Above(v, i) % 256 == PutUint(Big, v, n)[n - 1 - i]
  {
    DigitAt(v, n, i);
  }

  /** What fits is read back, in either byte order. */
  lemma UintRoundTrip(e: Endian, s: seq<Byte>, off: nat, v: nat, n: nat)
    requires v < Power(n) && off + n <= |s| && s[off..off + n] == PutUint(e, v, n)
    ensures GetUint(e, s, off, n) == v
  {
    ValueOfDigits(e, s, off, v, n, 0);
  }

  lemma {:induction false} ValueIsBounded(e: Endian, s: seq<Byte>, off: nat, n: nat, i: nat)
    requires off + n <= |s| && i <= n
    ensures ValueAt(e, s, off, n, i) < Power(n - i)
    decreases n - i
  {
    if i < n {
      ValueIsBounded(e, s, off, n, i + 1);
    }
  }

  const TWO_32 := 0x1_0000_0000
  const TWO_64 := 0x1_0000_0000_0000_0000

  lemma Powers()
    ensures Power(4) == TWO_32 && Power(8) == TWO_64
  {
    assert Power(8) == 256 * Power(7) == 256 * 256 * Power(6) == 256 * 256 * 256 * Power(5);
  }

  function Zeros(n: nat): (s: seq<Byte>)
    ensures |s| == n
  {
    seq(n, _ => 0)
  }

  ghost predicate NulFree(s: seq<Byte>) {
    0 !in s
  }

  /** The first NUL from `from` on, or `end`: `bytes.IndexByte` from there. */
  function NulFrom(s: seq<Byte>, from: nat, end: nat): (k: nat)
    requires from <= end <= |s|
    ensures from <= k <= end && (k < end ==> s[k] == 0)
    decreases end - from
  {
    if from == end || s[from] == 0 then from else NulFrom(s, from + 1, end)
  }

  /** The text from `from` on, up to a NUL or `end`. */
  function CString(s: seq<Byte>, from: nat, end: nat): seq<Byte>
    requires from <= end <= |s|
  {
    s[from..NulFrom(s, from, end)]
  }

  /** A text as C sees it. */
  function Cut(text: seq<Byte>): seq<Byte> {
    CString(text, 0, |text|)
  }

  lemma {:induction false} NulIsFirst(s: seq<Byte>, from: nat, end: nat)
    requires from <= end <= |s|
    ensures forall i :: from <= i < NulFrom(s, from, end) ==> s[i] != 0
    decreases end - from
  {
    if from < end && s[from] != 0 {
      NulIsFirst(s, from + 1, end);
    }
  }

  ghost predicate TextIsAt(s: seq<Byte>, from: nat, text: seq<Byte>) {
    from + |text| < |s| && s[from..from + |text|] == text && s[from + |text|] == 0
  }

  /** A text that a NUL follows is read up to its own first NUL. */
  lemma CStringCuts(s: seq<Byte>, from: nat, end: nat, text: seq<Byte>)
    requires TextIsAt(s, from, text) && from + |text| < end <= |s|
    ensures CString(s, from, end) == Cut(text)
  {
    NulIsFirst(s, from, end);
    NulIsFirst(text, 0, |text|);
    var k, c := NulFrom(s, from, end), NulFrom(text, 0, |text|);
    assert forall i :: 0 <= i < |text| ==> s[from + i] == s[from..from + |text|][i] == text[i];
    assert k == from + c;
    assert s[from..k] == text[..c];
  }

  lemma CutKeeps(text: seq<Byte>)
    ensures NulFree(Cut(text)) && |Cut(text)| <= |text|
    ensures Cut(text) == text <==> NulFree(text)
  {
    NulIsFirst(text, 0, |text|);
  }

  /** `s` with `bytes` written over it from `off` on. */
  function Written(s: seq<Byte>, off: nat, bytes: seq<Byte>): (r: seq<Byte>)
    requires off + |bytes| <= |s|
    ensures |r| == |s|
  {
    s[..off] + bytes + s[off + |bytes|..]
  }

  method Copy(a: array<Byte>, off: nat, bytes: seq<Byte>)
    requires off + |bytes| <= a.Length
    modifies a
    ensures a[..] == Written(old(a[..]), off, bytes)
  {
    forall i | 0 <= i < |bytes| {
      a[off + i] := bytes[i];
    }
  }

  function Join(parts: seq<seq<Byte>>): seq<Byte> {
    if parts == [] then [] else parts[0] + Join(parts[1..])
  }

  lemma {:induction false} JoinOneMore(parts: seq<seq<Byte>>, p: seq<Byte>)
    ensures Join(parts + [p]) == Join(parts) + p
  {
    if parts == [] {
      assert Join([p]) == p + Join([]);
    } else {
      JoinOneMore(parts[1..], p);
      assert (parts + [p])[1..] == parts[1..] + [p];
    }
  }

  lemma {:induction false} JoinSplit(parts: seq<seq<Byte>>, i: nat)
    requires i < |parts|
    ensures Join(parts) == Join(parts[..i]) + parts[i] + Join(parts[i + 1..])
  {
    if i > 0 {
      JoinSplit(parts[1..], i - 1);
      assert parts[..i][1..] == parts[1..][..i - 1];
      assert parts[1..][i..] == parts[i + 1..];
    }
  }

  lemma {:induction false} JoinLength(parts: seq<seq<Byte>>, ends: seq<nat>, i: nat)
    requires i <= |parts| && |ends| == |parts| + 1 && ends[0] == 0
    requires forall k {:trigger parts[k]} :: 0 <= k < |parts| ==> ends[k + 1] == ends[k] + |parts[k]|
    ensures |Join(parts[..i])| == ends[i]
    decreases i
  {
    if i > 0 {
      JoinLength(parts, ends, i - 1);
      JoinOneMore(parts[..i - 1], parts[i - 1]);
      assert parts[..i] == parts[..i - 1] + [parts[i - 1]];
    }
  }
}
