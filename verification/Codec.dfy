/**
  The byte codec (src/storage/codec.hpp): little-endian integers and length-prefixed strings.
  The functions give the format; `Encoder` and `Decoder` are the objects that append to a buffer
  and advance a cursor; the `Read*` lemmas say that reading at a place where a value was written
  yields that value and leaves the cursor right behind it.
*/
module Codec {
  import opened RaftTypes

  const TWO32: nat := 0x1_0000_0000
  const TWO64: nat := 0x1_0000_0000_0000_0000

  // ---------------------------------------------------------------- format

  /** The low `n` bytes of `v`, least significant first. */
  function LittleEndian(v: nat, n: nat): (b: bytes)
    ensures |b| == n
  {
    if n == 0 then [] else [(v % 256) as byte] + LittleEndian(v / 256, n - 1)
  }

  function ToNat(b: bytes): nat {
    if b == [] then 0 else b[0] as nat + 256 * ToNat(b[1..])
  }

  function U8(v: nat): bytes { LittleEndian(v, 1) }
  function U32(v: nat): bytes { LittleEndian(v, 4) }
  function U64(v: nat): bytes { LittleEndian(v, 8) }
  function Bool(v: bool): bytes { U8(if v then 1 else 0) }

  /** A `std::string` is a sequence of 8-bit characters. */
  predicate IsByteString(s: string) { forall k | 0 <= k < |s| :: s[k] as int < 256 }

  function Chars(s: string): (b: bytes)
    ensures |b| == |s|
  {
    seq(|s|, k requires 0 <= k < |s| => (s[k] as int % 256) as byte)
  }

  function FromBytes(b: bytes): string {
    seq(|b|, k requires 0 <= k < |b| => b[k] as int as char)
  }

  /** A length prefix and that many raw bytes. */
  function Blob(b: bytes): bytes { U32(|b|) + b }
  function Str(s: string): bytes { Blob(Chars(s)) }

  // ---------------------------------------------------------------- reading

  /** A value and the position after it, or the exception of a malformed buffer. */
  datatype Parse<+T> = Got(value: T, next: nat) | Malformed {
    predicate IsFailure() { Malformed? }
    function PropagateFailure<U>(): Parse<U> requires Malformed? { Malformed }
    function Extract(): (T, nat) requires Got? { (value, next) }
  }

  function GetRaw(s: bytes, pos: nat, n: nat): Parse<bytes> {
    if pos + n > |s| then Malformed else Got(s[pos..pos + n], pos + n)
  }

  function GetInt(s: bytes, pos: nat, n: nat): Parse<nat> {
    var (b, p) :- GetRaw(s, pos, n);
    Got(ToNat(b), p)
  }

  function GetU8(s: bytes, pos: nat): Parse<nat> { GetInt(s, pos, 1) }
  function GetU32(s: bytes, pos: nat): Parse<nat> { GetInt(s, pos, 4) }
  function GetU64(s: bytes, pos: nat): Parse<nat> { GetInt(s, pos, 8) }

  function GetBool(s: bytes, pos: nat): Parse<bool> {
    var (v, p) :- GetU8(s, pos);
    Got(v != 0, p)
  }

  function GetBlob(s: bytes, pos: nat): Parse<bytes> {
    var (len, p) :- GetU32(s, pos);
    GetRaw(s, p, len)
  }

  function GetStr(s: bytes, pos: nat): Parse<string> {
    var (b, p) :- GetBlob(s, pos);
    Got(FromBytes(b), p)
  }

  // ---------------------------------------------------------------- reading back what was written

  function Pow256(n: nat): nat { if n == 0 then 1 else 256 * Pow256(n - 1) }

  lemma {:induction false} IntRoundTrip(v: nat, n: nat)
    requires v < Pow256(n)
    ensures ToNat(LittleEndian(v, n)) == v
  {
    if n > 0 {
      IntRoundTrip(v / 256, n - 1);
      assert LittleEndian(v, n)[1..] == LittleEndian(v / 256, n - 1);
    }
  }

  /** `b` stands in `s` at `pos`. */
  ghost predicate HasAt(s: bytes, pos: nat, b: bytes) {
    pos + |b| <= |s| && s[pos..pos + |b|] == b
  }

  lemma HasWhole(s: bytes)
    ensures HasAt(s, 0, s) && forall b: bytes {:trigger b + []} :: b + [] == b
  {
  }

  lemma HasParts(s: bytes, pos: nat, a: bytes, b: bytes)
    requires HasAt(s, pos, a + b)
    ensures HasAt(s, pos, a) && HasAt(s, pos + |a|, b)
  {
    assert s[pos..pos + |a|] == (a + b)[..|a|] == a;
    assert s[pos + |a|..pos + |a| + |b|] == (a + b)[|a|..] == b;
  }

  lemma ReadInt(s: bytes, pos: nat, v: nat, n: nat, rest: bytes)
    requires v < Pow256(n) && HasAt(s, pos, LittleEndian(v, n) + rest)
    ensures GetInt(s, pos, n) == Got(v, pos + n) && HasAt(s, pos + n, rest)
  {
    HasParts(s, pos, LittleEndian(v, n), rest);
    IntRoundTrip(v, n);
  }

  lemma ReadU8(s: bytes, pos: nat, v: nat, rest: bytes)
    requires v < 256 && HasAt(s, pos, U8(v) + rest)
    ensures GetU8(s, pos) == Got(v, pos + 1) && HasAt(s, pos + 1, rest)
  {
    assert Pow256(1) == 256;
    ReadInt(s, pos, v, 1, rest);
  }

  lemma ReadU32(s: bytes, pos: nat, v: nat, rest: bytes)
    requires v < TWO32 && HasAt(s, pos, U32(v) + rest)
    ensures GetU32(s, pos) == Got(v, pos + 4) && HasAt(s, pos + 4, rest)
  {
    assert Pow256(2) == 0x1_0000 && Pow256(4) == TWO32;
    ReadInt(s, pos, v, 4, rest);
  }

  lemma ReadU64(s: bytes, pos: nat, v: nat, rest: bytes)
    requires v < TWO64 && HasAt(s, pos, U64(v) + rest)
    ensures GetU64(s, pos) == Got(v, pos + 8) && HasAt(s, pos + 8, rest)
  {
    assert Pow256(2) == 0x1_0000 && Pow256(4) == TWO32 && Pow256(6) == 0x1_0000_0000_0000 && Pow256(8) == TWO64;
    ReadInt(s, pos, v, 8, rest);
  }

  lemma ReadBool(s: bytes, pos: nat, v: bool, rest: bytes)
    requires HasAt(s, pos, Bool(v) + rest)
    ensures GetBool(s, pos) == Got(v, pos + 1) && HasAt(s, pos + 1, rest)
  {
    ReadU8(s, pos, if v then 1 else 0, rest);
  }

  lemma ReadBlob(s: bytes, pos: nat, b: bytes, rest: bytes)
    requires |b| < TWO32 && HasAt(s, pos, Blob(b) + rest)
    ensures GetBlob(s, pos) == Got(b, pos + 4 + |b|) && HasAt(s, pos + 4 + |b|, rest)
  {
    assert Blob(b) + rest == U32(|b|) + (b + rest);
    ReadU32(s, pos, |b|, b + rest);
    HasParts(s, pos + 4, b, rest);
  }

  lemma ReadStr(s: bytes, pos: nat, v: string, rest: bytes)
    requires |v| < TWO32 && IsByteString(v) && HasAt(s, pos, Str(v) + rest)
    ensures GetStr(s, pos) == Got(v, pos + 4 + |v|) && HasAt(s, pos + 4 + |v|, rest)
  {
    ReadBlob(s, pos, Chars(v), rest);
    assert FromBytes(Chars(v)) == v;
  }

  // ---------------------------------------------------------------- the objects

  class Encoder {
    var buf: bytes

    constructor ()
      ensures buf == []
    {
      buf := [];
    }

    /** Wider values lose their high bytes, here and below. */
    method PutU8(v: nat)
      modifies this
      ensures buf == old(buf) + U8(v)
    {
      buf := buf + [(v % 256) as byte];
    }

    method PutU32(v: nat)
      modifies this
      ensures buf == old(buf) + U32(v)
    {
      buf := buf + [(v % 256) as byte];
      buf := buf + [(v / 0x100 % 256) as byte];
      buf := buf + [(v / 0x1_0000 % 256) as byte];
      buf := buf + [(v / 0x100_0000 % 256) as byte];
      FourDigits(v);
    }

    method PutU64(v: nat)
      modifies this
      ensures buf == old(buf) + U64(v)
    {
      hide LittleEndian;
      var rest: nat, i: nat := v, 0;
      while i < 8
        invariant i <= 8
        invariant buf + LittleEndian(rest, 8 - i) == old(buf) + U64(v)
      {
        FirstByte(rest, 8 - i);
        buf := buf + [(rest % 256) as byte];
        rest, i := rest / 256, i + 1;
      }
      assert buf + LittleEndian(rest, 0) == buf;
    }

    method PutBool(v: bool)
      modifies this
      ensures buf == old(buf) + Bool(v)
    {
      PutU8(if v then 1 else 0);
    }

    method PutStr(s: string)
      modifies this
      ensures buf == old(buf) + Str(s)
    {
      PutU32(|s|);
      buf := buf + Chars(s);
    }
  }

  /** A cursor over a buffer; a failed read is the underrun exception. */
  class Decoder {
    const data: bytes
    var ptr: nat

    constructor (data: bytes)
      ensures this.data == data && ptr == 0
    {
      this.data, ptr := data, 0;
    }

    ghost predicate Read<T>(r: Option<T>, p: Parse<T>)
      reads this
    {
      match p
      case Got(v, next) => r == Some(v) && ptr == next
      case Malformed => r == None
    }

    method TakeU8() returns (r: Option<nat>)
      modifies this
      ensures Read(r, GetU8(data, old(ptr)))
    {
      if ptr + 1 > |data| { return None; }
      r := Some(data[ptr] as nat);
      assert data[ptr..ptr + 1][1..] == [] && ToNat(data[ptr..ptr + 1]) == data[ptr] as nat + 256 * ToNat([]);
      ptr := ptr + 1;
    }

    method TakeU32() returns (r: Option<nat>)
      modifies this
      ensures Read(r, GetU32(data, old(ptr)))
    {
      if ptr + 4 > |data| { return None; }
      ghost var b := data[ptr..ptr + 4];
      FourBytes(b);
      r := Some(data[ptr] as nat + data[ptr + 1] as nat * 0x100 + data[ptr + 2] as nat * 0x1_0000
                + data[ptr + 3] as nat * 0x100_0000);
      ptr := ptr + 4;
    }

    method TakeU64() returns (r: Option<nat>)
      modifies this
      ensures Read(r, GetU64(data, old(ptr)))
    {
      if ptr + 8 > |data| { return None; }
      hide ToNat, Weighed, Times;
      var v: nat, i: nat, unit: nat := 0, 0, 1;
      ghost var whole := ToNat(data[ptr..ptr + 8]);
      WeighAll(whole);
      while i < 8
        invariant i <= 8 && ptr == old(ptr)
        invariant Weighed(v, unit, ToNat(data[ptr + i..ptr + 8]), whole)
      {
        LowByte(data, ptr + i, ptr + 8);
        Shift(v, unit, data[ptr + i] as nat, ToNat(data[ptr + i + 1..ptr + 8]), whole);
        v, i, unit := v + Times(unit, data[ptr + i] as nat), i + 1, unit * 256;
      }
      NoBytes(data[ptr + 8..ptr + 8], v, unit, whole);
      r := Some(v);
      ptr := ptr + 8;
    }

    method TakeBool() returns (r: Option<bool>)
      modifies this
      ensures Read(r, GetBool(data, old(ptr)))
    {
      var v := TakeU8();
      r := if v.Some? then Some(v.value != 0) else None;
    }

    method TakeStr() returns (r: Option<string>)
      modifies this
      ensures Read(r, GetStr(data, old(ptr)))
    {
      var len := TakeU32();
      if len.None? { return None; }
      if ptr + len.value > |data| { return None; }
      r := Some(FromBytes(data[ptr..ptr + len.value]));
      ptr := ptr + len.value;
    }
  }

  lemma FirstByte(v: nat, n: nat)
    requires n > 0
    ensures LittleEndian(v, n) == [(v % 256) as byte] + LittleEndian(v / 256, n - 1)
  {
  }

  lemma LowByte(b: bytes, i: nat, end: nat)
    requires i < end <= |b|
    ensures ToNat(b[i..end]) == b[i] as nat + 256 * ToNat(b[i + 1..end])
  {
  }

  lemma FourBytes(b: bytes)
    requires |b| == 4
    ensures ToNat(b) == b[0] as nat + b[1] as nat * 0x100 + b[2] as nat * 0x1_0000 + b[3] as nat * 0x100_0000
  {
    assert b[1..][1..] == b[2..] && b[2..][1..] == b[3..] && b[3..][1..] == [];
    assert ToNat(b[3..]) == b[3] as nat;
    assert ToNat(b[2..]) == b[2] as nat + 256 * ToNat(b[3..]);
  }

  lemma FourDigits(v: nat)
    ensures U32(v) == [(v % 256) as byte, (v / 0x100 % 256) as byte, (v / 0x1_0000 % 256) as byte,
                       (v / 0x100_0000 % 256) as byte]
  {
    var a, b, c := v / 256, v / 256 / 256, v / 256 / 256 / 256;
    assert a == v / 0x100 && b == v / 0x1_0000 && c == v / 0x100_0000;
    assert LittleEndian(c, 1) == [(c % 256) as byte];
    assert LittleEndian(b, 2) == [(b % 256) as byte] + LittleEndian(c, 1);
    assert LittleEndian(a, 3) == [(a % 256) as byte] + LittleEndian(b, 2);
  }

  function Times(unit: nat, digit: nat): nat { unit * digit }

  /** `v` has been read, and `high` still counts `unit` times. */
  ghost predicate Weighed(v: nat, unit: nat, high: nat, whole: nat) { v + unit * high == whole }

  lemma WeighAll(whole: nat)
    ensures Weighed(0, 1, whole, whole)
  {
  }

  lemma Shift(v: nat, unit: nat, low: nat, high: nat, whole: nat)
    requires Weighed(v, unit, low + 256 * high, whole)
    ensures Weighed(v + Times(unit, low), unit * 256, high, whole)
  {
    assert unit * (low + 256 * high) == unit * low + unit * (256 * high) == unit * low + unit * 256 * high;
  }

  lemma NoBytes(b: bytes, v: nat, unit: nat, whole: nat)
    requires b == [] && Weighed(v, unit, ToNat(b), whole)
    ensures v == whole
  {
  }
}
