/** src/hasher.rs: digests as 256-bit numbers, the 32-bit "compact" form of a target, and the retarget rule. */
module Difficulty {
  import opened Common
  import opened Iobuf

  /** A digest compares as the little-endian number it holds. */
  function Number(h: Hash): (n: nat)
    ensures n < Pow256(32)
  {
    UnLE(h)
  }

  lemma {:induction false} TopByteWeighs(a: Bytes, b: Bytes)
    requires |a| == |b| > 0 && a[|a| - 1] < b[|b| - 1]
    ensures UnLE(a) < UnLE(b)
  {
    if |a| > 1 {
      assert a[1..][|a| - 2] == a[|a| - 1] && b[1..][|b| - 2] == b[|b| - 1];
      TopByteWeighs(a[1..], b[1..]);
    }
  }

  /** Digests are ordered as numbers whose last byte weighs most. */
  lemma LastByteWeighs(a: Hash, b: Hash)
    requires a[31] < b[31]
    ensures Number(a) < Number(b)
  {
    TopByteWeighs(a, b);
  }

  function Bits(n: nat): nat {
    if n == 0 then 0 else 1 + Bits(n / 2)
  }

  /** Bytes needed to write `n`. */
  function Size(n: nat): nat {
    (Bits(n) + 7) / 8
  }

  /** Shifts by whole bytes. */
  function ShrBytes(n: nat, k: nat): nat
    decreases k
  {
    if k == 0 then n else ShrBytes(n / 256, k - 1)
  }

  function ShlBytes(n: nat, k: nat): nat {
    if k == 0 then n else 256 * ShlBytes(n, k - 1)
  }

  function Low64(n: nat): nat {
    n % 0x1_0000_0000_0000_0000
  }

  predicate SignBit(cv: nat) {
    cv / 0x80_0000 % 2 == 1
  }

  function Pack(m: nat, e: nat): U32 {
    (m + e * 0x100_0000) % 0x1_0000_0000
  }

  /** The top three bytes of `h` under its byte count; a set top bit of the mantissa costs one more byte. */
  function Compact(h: nat): U32 {
    var s := Size(h);
    var cv := if s <= 3 then ShlBytes(Low64(h), 3 - s) else Low64(ShrBytes(h, s - 3));
    if SignBit(cv) then Pack(cv / 256, s + 1) else Pack(cv, s)
  }

  /** The target a compact value stands for; one of 2^256 or more cannot be held by a digest. */
  function Decode(bits: U32): nat {
    var size := bits / 0x100_0000;
    var w := bits % 0x80_0000;
    if size <= 3 then ShrBytes(w, 3 - size) else ShlBytes(w, size - 3)
  }

  /** A proof of work: the target is no easier than the limit and the block id does not exceed it. */
  predicate VerifyPow(id: Hash, limit: Hash, bits: U32) {
    Number(limit) >= Decode(bits) && Number(id) <= Decode(bits)
  }

  /** The time a period took, taken to be within a factor of four of what it should have; the upper bound is cut to 32
      bits. */
  function Clamp(elapsed: nat, stime: nat): (r: nat)
    ensures r <= 4 * stime
    ensures stime < 0x4000_0000 ==> stime / 4 <= r
    ensures stime < 0x4000_0000 && stime / 4 <= elapsed <= 4 * stime ==> r == elapsed
  {
    var sub := if elapsed < stime / 4 then stime / 4 else elapsed;
    var most := stime * 4 % 0x1_0000_0000;
    if sub > most then most else sub
  }

  function Scale(target: nat, sub: nat, stime: nat): nat
    requires stime > 0
  {
    target * sub / stime
  }

  /** The required difficulty of the block after a whole retarget period; the elapsed time is cut to 32 bits. */
  function ComputeBits(limit: nat, stime: nat, ltime: int, ptime: int, lbits: U32): U32
    requires stime > 0
  {
    var sub := Clamp((ltime - ptime) % 0x1_0000_0000, stime);
    var pow := Scale(Decode(lbits), sub, stime);
    if pow <= limit then Compact(pow) else Compact(limit)
  }

  lemma Remainder(a: nat, d: nat)
    requires a < d
    ensures a % d == a
  {
  }

  // Sizes and shifts.

  lemma BitsOfHalf(n: nat)
    requires n > 0
    ensures Bits(n) == 1 + Bits(n / 2)
  {
  }

  lemma BitsNibble(n: nat)
    requires n >= 16
    ensures Bits(n) == 4 + Bits(n / 16)
  {
    BitsOfHalf(n);
    BitsOfHalf(n / 2);
    BitsOfHalf(n / 2 / 2);
    BitsOfHalf(n / 2 / 2 / 2);
    assert n / 2 / 2 / 2 / 2 == n / 16;
  }

  lemma SizeByte(n: nat)
    requires n >= 256
    ensures Size(n) == 1 + Size(n / 256)
  {
    BitsNibble(n);
    BitsNibble(n / 16);
    assert n / 16 / 16 == n / 256;
  }

  lemma SizeOne(n: nat)
    requires 0 < n < 256
    ensures Size(n) == 1
  {
    BitsOfHalf(n);
    if n >= 16 {
      BitsNibble(n);
    }
    var m := if n >= 16 then n / 16 else n;
    BitsOfHalf(m);
    if m >= 2 { BitsOfHalf(m / 2); }
    if m >= 4 { BitsOfHalf(m / 2 / 2); }
    if m >= 8 { BitsOfHalf(m / 2 / 2 / 2); }
  }

  lemma SizeSmall(n: nat)
    ensures n == 0 ==> Size(n) == 0
    ensures 0 < n < 0x100 ==> Size(n) == 1
    ensures 0x100 <= n < 0x1_0000 ==> Size(n) == 2
    ensures 0x1_0000 <= n < 0x100_0000 ==> Size(n) == 3
    ensures 0x100_0000 <= n ==> Size(n) >= 4
  {
    if n >= 0x100 {
      SizeByte(n);
      if n >= 0x1_0000 {
        SizeByte(n / 256);
        if n >= 0x100_0000 {
          SizeByte(n / 256 / 256);
          SizePositive(n / 256 / 256 / 256);
        } else {
          SizeOne(n / 256 / 256);
        }
      } else {
        SizeOne(n / 256);
      }
    } else if n > 0 {
      SizeOne(n);
    }
  }

  lemma SizePositive(n: nat)
    requires n > 0
    ensures Size(n) >= 1
  {
  }

  lemma {:induction false} SizeFits(n: nat, k: nat)
    requires n < Pow256(k)
    ensures Size(n) <= k
    decreases k
  {
    if n >= 256 {
      assert Pow256(k) == 256 * Pow256(k - 1);
      SizeByte(n);
      SizeFits(n / 256, k - 1);
    } else {
      SizeSmall(n);
    }
  }

  /** The three leading bytes. */
  lemma {:induction false} Leading(n: nat)
    requires Size(n) >= 3
    ensures 0x1_0000 <= ShrBytes(n, Size(n) - 3) < 0x100_0000
  {
    SizeSmall(n);
    if n >= 0x100_0000 {
      SizeByte(n);
      Leading(n / 256);
    }
  }

  lemma {:induction false} SizeOfShl(m: nat, k: nat)
    requires m > 0
    ensures Size(ShlBytes(m, k)) == Size(m) + k && ShlBytes(m, k) > 0
  {
    if k > 0 {
      SizeOfShl(m, k - 1);
      SizeByte(ShlBytes(m, k));
    }
  }

  lemma {:induction false} ShrOfShl(m: nat, k: nat)
    ensures ShrBytes(ShlBytes(m, k), k) == m
  {
    if k > 0 {
      assert ShlBytes(m, k) / 256 == ShlBytes(m, k - 1);
      ShrOfShl(m, k - 1);
    }
  }

  lemma {:induction false} ShlOfShr(n: nat, k: nat)
    ensures ShlBytes(ShrBytes(n, k), k) <= n < ShlBytes(ShrBytes(n, k) + 1, k)
  {
    if k > 0 {
      ShlOfShr(n / 256, k - 1);
    }
  }

  lemma {:induction false} ShlSum(a: nat, b: nat, k: nat)
    ensures ShlBytes(a + b, k) == ShlBytes(a, k) + ShlBytes(b, k)
  {
    if k > 0 {
      ShlSum(a, b, k - 1);
    }
  }

  lemma {:induction false} ShlHigh(k: nat)
    ensures ShlBytes(0x8000, k) == 0x8000 * ShlBytes(1, k)
  {
    if k > 0 {
      ShlHigh(k - 1);
    }
  }

  lemma {:induction false} ShlByte(m: nat, k: nat)
    ensures ShlBytes(m, k + 1) == ShlBytes(256 * m, k)
  {
    if k > 0 {
      ShlByte(m, k - 1);
    }
  }

  // The compact form.

  lemma PackParts(m: nat, e: nat)
    requires m < 0x80_0000 && e < 0x100
    ensures Pack(m, e) / 0x100_0000 == e && Pack(m, e) % 0x100_0000 == m == Pack(m, e) % 0x80_0000
    ensures Decode(Pack(m, e)) == if e <= 3 then ShrBytes(m, 3 - e) else ShlBytes(m, e - 3)
  {
  }

  lemma SignBitIs(cv: nat)
    requires cv < 0x100_0000
    ensures SignBit(cv) <==> cv >= 0x80_0000
  {
    assert cv / 0x80_0000 == if cv >= 0x80_0000 then 1 else 0;
  }

  lemma CompactFrom(h: nat, cv: nat)
    requires cv < 0x100_0000
    requires cv == if Size(h) <= 3 then ShlBytes(Low64(h), 3 - Size(h)) else Low64(ShrBytes(h, Size(h) - 3))
    ensures Compact(h) == if cv >= 0x80_0000 then Pack(cv / 256, Size(h) + 1) else Pack(cv, Size(h))
  {
    SignBitIs(cv);
  }

  lemma CompactSmall(h: nat)
    requires Size(h) <= 3
    ensures h == 0 ==> Compact(h) == Pack(0, 0)
    ensures Size(h) == 1 ==> Compact(h) == if h >= 0x80 then Pack(0x100 * h, 2) else Pack(0x1_0000 * h, 1)
    ensures Size(h) == 2 ==> Compact(h) == if h >= 0x8000 then Pack(h, 3) else Pack(0x100 * h, 2)
    ensures Size(h) == 3 ==> Compact(h) == if h >= 0x80_0000 then Pack(h / 256, 4) else Pack(h, 3)
  {
    SizeSmall(h);
    assert Low64(h) == h;
    assert ShlBytes(h, 0) == h;
    assert ShlBytes(h, 1) == 256 * h;
    assert ShlBytes(h, 2) == 256 * ShlBytes(h, 1);
    assert h == 0 ==> ShlBytes(h, 3) == 256 * ShlBytes(h, 2) == 0;
    var cv := if Size(h) == 1 then 0x1_0000 * h else if Size(h) == 2 then 0x100 * h else h;
    assert 0x1_0000 * h / 256 == 0x100 * h && 0x100 * h / 256 == h;
    CompactFrom(h, cv);
  }

  lemma CompactLarge(h: nat)
    requires Size(h) >= 4
    ensures
      var s, cv := Size(h), ShrBytes(h, Size(h) - 3);
      && 0x1_0000 <= cv < 0x100_0000
      && Compact(h) == if cv >= 0x80_0000 then Pack(cv / 256, s + 1) else Pack(cv, s)
  {
    Leading(h);
    CompactFrom(h, ShrBytes(h, Size(h) - 3));
  }

  lemma DecodeSmall(m: nat, e: nat)
    requires m < 0x80_0000 && e <= 4
    ensures Decode(Pack(m, e)) ==
            if e == 0 then 0 else if e == 1 then m / 0x1_0000 else if e == 2 then m / 0x100
            else if e == 3 then m else 256 * m
  {
    PackParts(m, e);
    assert ShrBytes(m, 1) == m / 256;
    assert ShrBytes(m, 2) == ShrBytes(m / 256, 1) == m / 256 / 256 == m / 0x1_0000;
    assert ShrBytes(m, 3) == ShrBytes(m / 256, 2) == ShrBytes(m / 256 / 256, 1) == m / 256 / 256 / 256;
    assert ShlBytes(m, 1) == 256 * m;
  }

  /** The values `Compact` produces: zero, or a normal mantissa with no bits below the point. */
  predicate Canonical(v: U32) {
    var e, m := v / 0x100_0000, v % 0x100_0000;
    || v == 0
    || (0x8000 <= m < 0x80_0000 && e >= 1 && (e == 1 ==> m % 0x1_0000 == 0) && (e == 2 ==> m % 0x100 == 0))
  }

  lemma PackCanonical(m: nat, e: nat)
    requires 0x8000 <= m < 0x80_0000 && 3 <= e < 0x100
    ensures Canonical(Pack(m, e))
  {
    PackParts(m, e);
  }

  lemma Unpack(v: U32) returns (m: nat, e: nat)
    ensures m == v % 0x100_0000 && e == v / 0x100_0000 && v == Pack(m, e) && e < 0x100
  {
    m, e := v % 0x100_0000, v / 0x100_0000;
  }

  /** Compacting yields a canonical value standing for `h` rounded down by less than one part in 2^15. */
  lemma CompactError(h: nat)
    requires h < Pow256(32)
    ensures Canonical(Compact(h))
    ensures Decode(Compact(h)) <= h
    ensures Decode(Compact(h)) == h || (h - Decode(Compact(h))) * 0x8000 < Decode(Compact(h))
  {
    SizeFits(h, 32);
    if Size(h) <= 3 {
      CompactErrorShort(h);
    } else {
      CompactErrorLong(h);
    }
  }

  lemma CompactErrorShort(h: nat)
    requires Size(h) <= 3
    ensures Canonical(Compact(h))
    ensures Decode(Compact(h)) <= h
    ensures Decode(Compact(h)) == h || (h - Decode(Compact(h))) * 0x8000 < Decode(Compact(h))
  {
    SizeSmall(h);
    CompactSmall(h);
    var m, e :=
      if h < 0x80 then 0x1_0000 * h else if h < 0x100 then 0x100 * h else if h < 0x8000 then 0x100 * h
      else if h < 0x80_0000 then h else h / 256,
      if h == 0 then 0 else if h < 0x80 then 1 else if h < 0x8000 then 2 else if h < 0x80_0000 then 3 else 4;
    assert Compact(h) == Pack(m, e);
    PackParts(m, e);
    DecodeSmall(m, e);
  }

  lemma CompactErrorLong(h: nat)
    requires 4 <= Size(h) <= 32
    ensures Canonical(Compact(h))
    ensures Decode(Compact(h)) <= h
    ensures Decode(Compact(h)) == h || (h - Decode(Compact(h))) * 0x8000 < Decode(Compact(h))
  {
    hide *;
    CompactLarge(h);
    var s, cv := Size(h), ShrBytes(h, Size(h) - 3);
    ShlOfShr(h, s - 3);
    var m, k := if cv >= 0x80_0000 then cv / 256 else cv, if cv >= 0x80_0000 then s - 2 else s - 3;
    assert Compact(h) == Pack(m, k + 3);
    PackParts(m, k + 3);
    PackCanonical(m, k + 3);
    RoundedDown(h, s - 3, cv, m, k);
    ShlSum(m, 1, k);
    ShlHigh(k);
    ShlMono(0x8000, m, k);
  }

  lemma RoundedDown(h: nat, j: nat, cv: nat, m: nat, k: nat)
    requires ShlBytes(cv, j) <= h < ShlBytes(cv + 1, j)
    requires (m == cv && k == j) || (m == cv / 256 && k == j + 1)
    ensures ShlBytes(m, k) <= h < ShlBytes(m + 1, k)
  {
    if k == j + 1 {
      ShlByte(m, j);
      ShlByte(m + 1, j);
      ShlMono(256 * m, cv, j);
      ShlMono(cv + 1, 256 * (m + 1), j);
    }
  }

  lemma ShlMono(a: nat, b: nat, k: nat)
    requires a <= b
    ensures ShlBytes(a, k) <= ShlBytes(b, k)
  {
    ShlSum(a, b - a, k);
  }

  /** Encoding what a 32-bit value stands for gives the value back exactly when it is canonical. */
  lemma CompactOfDecode(v: U32)
    requires Decode(v) < Pow256(32)
    ensures Compact(Decode(v)) == v <==> Canonical(v)
  {
    hide Compact, Decode, Pack, Pow256;
    if Compact(Decode(v)) == v {
      CompactError(Decode(v));
    }
    if Canonical(v) {
      var m, e := Unpack(v);
      if e <= 3 {
        CanonicalShort(m, e);
      } else {
        CanonicalLong(m, e);
      }
    }
  }

  lemma CanonicalShort(m: nat, e: nat)
    requires e <= 3 && Canonical(Pack(m, e)) && (e == 0 ==> m == 0) && m < 0x80_0000
    ensures Compact(Decode(Pack(m, e))) == Pack(m, e)
  {
    PackParts(m, e);
    DecodeSmall(m, e);
    SizeSmall(Decode(Pack(m, e)));
    CompactSmall(Decode(Pack(m, e)));
  }

  lemma CanonicalLong(m: nat, e: nat)
    requires 4 <= e < 0x100 && 0x8000 <= m < 0x80_0000
    ensures Compact(Decode(Pack(m, e))) == Pack(m, e)
  {
    PackParts(m, e);
    var d := ShlBytes(m, e - 3);
    SizeSmall(m);
    SizeOfShl(m, e - 3);
    if m >= 0x1_0000 {
      CompactLarge(d);
      ShrOfShl(m, e - 3);
    } else if e == 4 {
      assert d == 256 * ShlBytes(m, 0) == 256 * m;
      CompactSmall(d);
    } else {
      CompactLarge(d);
      ShlByte(m, e - 4);
      ShrOfShl(256 * m, e - 4);
      assert 256 * m / 256 == m;
    }
  }

  /** One round of compacting loses all that will ever be lost, and the result fits a digest again. */
  lemma CompactIdempotent(h: nat)
    requires h < Pow256(32)
    ensures Decode(Compact(h)) < Pow256(32)
    ensures Compact(Decode(Compact(h))) == Compact(h)
  {
    CompactError(h);
    CompactOfDecode(Compact(h));
  }

  // Retargeting.

  /** `sub` is the elapsed time, cut to 32 bits, held between a quarter of the period and four periods, cut too. */
  predicate Bounded(sub: nat, stime: nat, elapsed: int) {
    var e, lo, hi := elapsed % 0x1_0000_0000, stime / 4, stime * 4 % 0x1_0000_0000;
    sub == Min(Max(e, lo), hi)
  }

  /** `goal` is the whole part of target * sub / stime, or the limit if that is less. */
  predicate Aimed(goal: nat, limit: nat, stime: nat, target: nat, sub: nat) {
    && goal <= limit
    && (|| goal * stime <= target * sub < (goal + 1) * stime
        || (goal == limit && (goal + 1) * stime <= target * sub))
  }

  lemma BoundedIs(stime: nat, elapsed: int)
    ensures Bounded(Clamp(elapsed % 0x1_0000_0000, stime), stime, elapsed)
  {
  }

  lemma ScaleIs(target: nat, sub: nat, stime: nat)
    requires stime > 0
    ensures Scale(target, sub, stime) * stime <= target * sub < (Scale(target, sub, stime) + 1) * stime
  {
    var p, q := target * sub, Scale(target, sub, stime);
    assert p == q * stime + p % stime;
    assert (q + 1) * stime == q * stime + stime;
  }

  lemma AimedAt(limit: nat, stime: nat, target: nat, sub: nat)
    requires stime > 0
    ensures Aimed(Min(limit, Scale(target, sub, stime)), limit, stime, target, sub)
  {
    var q := Scale(target, sub, stime);
    ScaleIs(target, sub, stime);
    hide Scale;
    if q > limit {
      ProductAtMost(limit + 1, stime, q, stime);
    }
  }

  /** From an old target within the limit, the next one is within the limit, at most four times the old one, and the
      old one times elapsed time over period, cut to the limit, up to the rounding of the compact form. */
  lemma RetargetSafe(limit: Hash, stime: nat, ltime: int, ptime: int, lbits: U32) returns (sub: nat, goal: nat)
    requires stime > 0 && Decode(lbits) <= Number(limit)
    ensures Bounded(sub, stime, ltime - ptime) && Aimed(goal, Number(limit), stime, Decode(lbits), sub)
    ensures
      var next := Decode(ComputeBits(Number(limit), stime, ltime, ptime, lbits));
      && next <= goal <= Number(limit)
      && next <= 4 * Decode(lbits)
      && (next == goal || (goal - next) * 0x8000 < next)
  {
    hide Decode, Compact, Clamp, Aimed, Bounded, Number, Scale;
    var target := Decode(lbits);
    sub := Clamp((ltime - ptime) % 0x1_0000_0000, stime);
    BoundedIs(stime, ltime - ptime);
    ScaleBounds(stime, target, sub);
    goal := Min(Number(limit), Scale(target, sub, stime));
    AimedAt(Number(limit), stime, target, sub);
    assert ComputeBits(Number(limit), stime, ltime, ptime, lbits) == Compact(goal);
    CompactError(goal);
  }

  lemma ScaleBounds(stime: nat, target: nat, sub: nat)
    requires stime > 0 && sub <= 4 * stime
    ensures Scale(target, sub, stime) <= 4 * target
  {
    ProductAtMost(target, sub, target, 4 * stime);
    assert target * (4 * stime) == (4 * target) * stime;
    QuotientAtMost(target * sub, stime, 4 * target);
  }

  /** The product formed on the way fits a digest when the limit leaves room for it. */
  lemma RetargetFits(limit: nat, stime: nat, elapsed: nat, target: nat)
    requires target <= limit
    ensures limit * (4 * stime) < Pow256(32) ==> target * Clamp(elapsed, stime) < Pow256(32)
  {
    ProductAtMost(target, Clamp(elapsed, stime), limit, 4 * stime);
  }

  lemma ProductAtMost(a: nat, b: nat, c: nat, d: nat)
    requires a <= c && b <= d
    ensures a * b <= c * d
  {
    assert a * b <= a * d <= c * d;
  }

  lemma QuotientAtMost(a: nat, d: nat, q: nat)
    requires d > 0 && a <= q * d
    ensures a / d <= q
  {
    var r := a / d;
    assert a == r * d + a % d;
    assert r > q ==> r * d >= (q + 1) * d;
  }
}
