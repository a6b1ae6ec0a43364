/** src/iobuf.rs: little-endian integers, length-prefixed fields, and the cursors that read and write them. */
module Iobuf {
  import opened Common

  /** What a read yields: a value and the bytes left after it. */
  datatype Parsed<+T> = Parsed(value: T, rest: Bytes)

  function Pow256(n: nat): (p: nat)
    ensures p >= 1
  {
    if n == 0 then 1 else 256 * Pow256(n - 1)
  }

  /** The low `n` bytes of `v`, least significant first. */
  function LE(v: nat, n: nat): (r: Bytes)
    ensures |r| == n
  {
    if n == 0 then [] else [v % 256] + LE(v / 256, n - 1)
  }

  function UnLE(s: Bytes): (v: nat)
    ensures v < Pow256(|s|)
  {
    if s == [] then 0 else s[0] + 256 * UnLE(s[1..])
  }

  lemma {:induction false} UnLEofLE(v: nat, n: nat)
    requires v < Pow256(n)
    ensures UnLE(LE(v, n)) == v
  {
    if n != 0 {
      UnLEofLE(v / 256, n - 1);
      assert LE(v, n)[1..] == LE(v / 256, n - 1);
    }
  }

  lemma {:induction false} LEofUnLE(s: Bytes)
    ensures LE(UnLE(s), |s|) == s
  {
    if s != [] {
      LEofUnLE(s[1..]);
      LowByte(s[0], UnLE(s[1..]));
      assert s == [s[0]] + s[1..];
    }
  }

  lemma LowByte(low: nat, high: nat)
    requires low < 256
    ensures (low + 256 * high) % 256 == low && (low + 256 * high) / 256 == high
  {
  }

  lemma Powers()
    ensures Pow256(1) == 0x100 && Pow256(2) == 0x1_0000 && Pow256(4) == 0x1_0000_0000
    ensures Pow256(8) == 0x1_0000_0000_0000_0000
  {
    assert Pow256(3) == 0x100_0000;
    assert Pow256(5) == 0x100_0000_0000;
    assert Pow256(6) == 0x1_0000_0000_0000;
    assert Pow256(7) == 0x100_0000_0000_0000;
  }

  /** Two's complement of an `n`-byte integer. */
  function Signed(v: nat, n: nat): int {
    if 2 * v < Pow256(n) then v else v - Pow256(n)
  }

  function Unsigned(v: int, n: nat): (u: nat)
    requires -(2 * v) <= Pow256(n) && 2 * v < Pow256(n)
    ensures u < Pow256(n) && Signed(u, n) == v
  {
    if v >= 0 then v else Pow256(n) + v
  }

  function Take(s: Bytes, n: nat): Result<Parsed<Bytes>> {
    if n <= |s| then Ok(Parsed(s[..n], s[n..])) else Err
  }

  /** `u8`, `u16`, `u32` and `u64` for n = 1, 2, 4 and 8. */
  function UInt(s: Bytes, n: nat): (r: Result<Parsed<nat>>)
    ensures r.Ok? ==> r.value.value < Pow256(n)
  {
    if n <= |s| then Ok(Parsed(UnLE(s[..n]), s[n..])) else Err
  }

  function SInt(s: Bytes, n: nat): Result<Parsed<int>> {
    var p :- UInt(s, n);
    Ok(Parsed(Signed(p.value, n), p.rest))
  }

  function I64Bytes(v: I64): (r: Bytes)
    ensures |r| == 8
  {
    Powers();
    LE(Unsigned(v, 8), 8)
  }

  /** The variable-length size: one byte up to 0x7F, else two bytes, high byte first with its top bit set. */
  function UsizeBytes(size: nat): (r: Bytes)
    requires size <= 0x7FFF
    ensures 1 <= |r| <= 2
  {
    if size <= 0x7F then [size] else [size / 256 + 0x80, size % 256]
  }

  function Usize(s: Bytes): Result<Parsed<nat>> {
    if s == [] then Err
    else if s[0] < 0x80 then Ok(Parsed(s[0], s[1..]))
    else if |s| < 2 then Err
    else
      var high: nat := s[0] - 0x80;
      Ok(Parsed(high * 256 + s[1], s[2..]))
  }

  /** A field written by `Writer::put`. */
  function Field(b: Bytes): (r: Bytes)
    requires |b| <= 0x7FFF
    ensures |r| <= |b| + 2
  {
    UsizeBytes(|b|) + b
  }

  function GetField(s: Bytes): Result<Parsed<Bytes>> {
    var p :- Usize(s);
    Take(p.rest, p.value)
  }

  /** Integers are written low byte first. */
  lemma LowFirst(low: Byte, high: Byte)
    ensures LE(low + 0x100 * high, 2) == [low, high]
  {
    LowByte(low, high);
    LowByte(high, 0);
    assert LE(high, 1) == [high] + LE(0, 0);
  }

  /** Sizes past 127 are written high byte first, under a top bit. */
  lemma SizeForm(size: nat)
    ensures size < 0x80 ==> UsizeBytes(size) == [size]
    ensures 0x80 <= size < 0x8000 ==>
              |UsizeBytes(size)| == 2 &&
              var high: int, low: int := UsizeBytes(size)[0], UsizeBytes(size)[1];
              high >= 0x80 && (high - 0x80) * 0x100 + low == size
  {
  }

  lemma ReadUInt(v: nat, n: nat, t: Bytes)
    requires v < Pow256(n)
    ensures UInt(LE(v, n) + t, n) == Ok(Parsed(v, t))
  {
    UnLEofLE(v, n);
    assert (LE(v, n) + t)[..n] == LE(v, n);
    assert (LE(v, n) + t)[n..] == t;
  }

  lemma ReadI64(v: I64, t: Bytes)
    ensures SInt(I64Bytes(v) + t, 8) == Ok(Parsed(v, t))
  {
    Powers();
    ReadUInt(Unsigned(v, 8), 8, t);
  }

  lemma ReadTake(b: Bytes, t: Bytes)
    ensures Take(b + t, |b|) == Ok(Parsed(b, t))
  {
    assert (b + t)[..|b|] == b;
    assert (b + t)[|b|..] == t;
  }

  /** Reading a length-prefixed field back gives the field and leaves what follows. */
  lemma ReadField(b: Bytes, t: Bytes)
    requires |b| <= 0x7FFF
    ensures GetField(Field(b) + t) == Ok(Parsed(b, t))
  {
    var s := Field(b) + t;
    var h := UsizeBytes(|b|);
    assert s[|h|..] == b + t;
    assert s[0] == h[0] && s[|h| - 1] == h[|h| - 1];
    assert Usize(s) == Ok(Parsed(|b|, b + t));
    ReadTake(b, t);
  }

  // Pieces end to end.

  function Concat(parts: seq<Bytes>): Bytes {
    if parts == [] then [] else parts[0] + Concat(parts[1..])
  }

  lemma {:induction false} ConcatPush(parts: seq<Bytes>, n: nat)
    requires n < |parts|
    ensures Concat(parts[..n + 1]) == Concat(parts[..n]) + parts[n]
    decreases n
  {
    if n == 0 {
      assert parts[..1][1..] == [] && parts[..0] == [];
    } else {
      assert parts[..n + 1][1..] == parts[1..][..n] && parts[..n][1..] == parts[1..][..n - 1];
      ConcatPush(parts[1..], n - 1);
    }
  }

  lemma ConcatNone(s: Bytes, parts: seq<Bytes>)
    ensures s + Concat(parts[..0]) == s
  {
    assert parts[..0] == [];
  }

  lemma Reassoc(a: Bytes, b: Bytes, d: Bytes)
    ensures a + b + d == a + (b + d)
  {
  }

  class Reader {
    var inner: Bytes

    constructor (bytes: Bytes)
      ensures inner == bytes
    {
      inner := bytes;
    }

    method Remaining() returns (n: nat)
      ensures n == |inner|
    {
      n := |inner|;
    }

    method GetUInt(n: nat) returns (r: Result<nat>)
      modifies this
      ensures r.Ok? == UInt(old(inner), n).Ok?
      ensures r.Ok? ==> Parsed(r.value, inner) == UInt(old(inner), n).value
    {
      if |inner| < n {
        return Err;
      }
      r := Ok(UnLE(inner[..n]));
      inner := inner[n..];
    }

    method GetSInt(n: nat) returns (r: Result<int>)
      modifies this
      ensures r.Ok? == SInt(old(inner), n).Ok?
      ensures r.Ok? ==> Parsed(r.value, inner) == SInt(old(inner), n).value
    {
      var v :- GetUInt(n);
      r := Ok(Signed(v, n));
    }

    method GetBytes(size: nat) returns (r: Result<Bytes>)
      modifies this
      ensures r.Ok? == Take(old(inner), size).Ok?
      ensures r.Ok? ==> Parsed(r.value, inner) == Take(old(inner), size).value
    {
      if |inner| < size {
        return Err;
      }
      r := Ok(inner[..size]);
      inner := inner[size..];
    }

    method Advance(cnt: nat) returns (r: Result<()>)
      modifies this
      ensures r.Ok? == Take(old(inner), cnt).Ok?
      ensures r.Ok? ==> inner == Take(old(inner), cnt).value.rest
    {
      if |inner| < cnt {
        return Err;
      }
      inner := inner[cnt..];
      r := Ok(());
    }

    method GetUsize() returns (r: Result<nat>)
      modifies this
      ensures r.Ok? == Usize(old(inner)).Ok?
      ensures r.Ok? ==> Parsed(r.value, inner) == Usize(old(inner)).value
    {
      var b :- GetUInt(1);
      Single(old(inner));
      if b < 0x80 {
        return Ok(b);
      }
      var b2 :- GetUInt(1);
      Single(old(inner)[1..]);
      var high: nat := b - 0x80;
      r := Ok(high * 256 + b2);
    }

    method GetFieldBytes() returns (r: Result<Bytes>)
      modifies this
      ensures r.Ok? == GetField(old(inner)).Ok?
      ensures r.Ok? ==> Parsed(r.value, inner) == GetField(old(inner)).value
    {
      var size :- GetUsize();
      r := GetBytes(size);
    }
  }

  lemma Single(s: Bytes)
    requires s != []
    ensures UnLE(s[..1]) == s[0]
  {
    assert UnLE(s[..1][1..]) == 0;
  }

  lemma FirstByte(s: Bytes)
    ensures s != [] ==> UInt(s, 1) == Ok(Parsed(s[0], s[1..]))
    ensures s == [] ==> UInt(s, 1).Err?
  {
    if s != [] {
      Single(s);
    }
  }

  class Writer {
    var inner: Bytes

    constructor ()
      ensures inner == []
    {
      inner := [];
    }

    method PutUInt(v: nat, n: nat)
      modifies this
      ensures inner == old(inner) + LE(v, n)
    {
      inner := inner + LE(v, n);
    }

    method PutBytes(b: Bytes)
      modifies this
      ensures inner == old(inner) + b
    {
      inner := inner + b;
    }

    /** `put`; the source asserts that the length fits fifteen bits. */
    method Put(b: Bytes)
      requires |b| <= 0x7FFF
      modifies this
      ensures inner == old(inner) + Field(b)
    {
      inner := inner + UsizeBytes(|b|);
      inner := inner + b;
    }
  }
}
