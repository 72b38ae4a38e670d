/**
  Byte strings as the crypto core handles them: crypto_xor and crypto_inc of crypto/algapi.c.
 */
module CryptoBytes {

  /** A wrapper keeps bit-vector reasoning out of proofs that only move bytes around. */
  datatype Byte = Byte(v: bv8)

  type Bytes = seq<Byte>

  const ZERO: Byte := Byte(0)

  function Add(x: Byte, y: Byte): Byte { Byte(x.v ^ y.v) }

  function Xor(a: Bytes, b: Bytes): (r: Bytes)
    requires |a| == |b|
    ensures |r| == |a|
  {
    seq(|a|, i requires 0 <= i < |a| => Add(a[i], b[i]))
  }

  lemma {:induction false} XorUndone(a: Bytes, b: Bytes)
    requires |a| == |b|
    ensures Xor(Xor(a, b), b) == a && Xor(b, Xor(b, a)) == a && Xor(a, b) == Xor(b, a)
  {
    var r, s := Xor(Xor(a, b), b), Xor(b, Xor(b, a));
    forall i | 0 <= i < |a| ensures r[i] == a[i] && s[i] == a[i] && Xor(a, b)[i] == Xor(b, a)[i] {
      XorByte(a[i], b[i]);
    }
  }

  lemma {:induction false} XorAt(a: Bytes, b: Bytes, i: nat)
    requires i < |a| == |b|
    ensures Xor(a, b)[i] == Add(a[i], b[i])
  {
  }

  lemma {:induction false} XorByte(x: Byte, y: Byte)
    ensures Add(Add(x, y), y) == x && Add(y, Add(y, x)) == x && Add(x, y) == Add(y, x) && Add(x, ZERO) == x
  {
    AddTwice(x, y);
    XorBits(x.v, y.v);
  }

  lemma {:induction false} AddTwice(x: Byte, y: Byte)
    ensures Add(Add(x, y), y) == Byte((x.v ^ y.v) ^ y.v) && Add(y, Add(y, x)) == Byte(y.v ^ (y.v ^ x.v))
  {
  }

  lemma {:induction false} XorBits(x: bv8, y: bv8)
    ensures (x ^ y) ^ y == x && y ^ (y ^ x) == x && x ^ y == y ^ x && x ^ 0 == x
  {
  }

  function Zeros(n: nat): (r: Bytes)
    ensures |r| == n
  {
    seq(n, _ => ZERO)
  }

  /** s with the bytes from off on replaced by p. */
  function Put(s: Bytes, off: nat, p: Bytes): (r: Bytes)
    requires off + |p| <= |s|
    ensures |r| == |s|
  {
    s[..off] + p + s[off + |p|..]
  }

  lemma {:induction false} Cut(data: Bytes, p: nat, n: nat)
    requires p + n <= |data|
    ensures data[p..][..n] == data[p..p + n] && data[p..][n..] == data[p + n..]
  {
  }

  /** Writing y + e in two steps. */
  lemma {:induction false} Shift(now: Bytes, p: nat, y: Bytes, e: Bytes)
    requires p + |y| + |e| <= |now|
    ensures Put(Put(now, p, y), p + |y|, e) == Put(now, p, y + e)
  {
    var n := Put(now, p, y);
    assert n[..p + |y|] == now[..p] + y;
    assert n[p + |y| + |e|..] == now[p + |y| + |e|..];
  }

  lemma {:induction false} PutAll(s: Bytes, p: Bytes)
    requires |s| == |p|
    ensures Put(s, 0, p) == p && s[0..|s|] == s
  {
  }

  lemma {:induction false} PutSlice(s: Bytes, p: nat, y: Bytes)
    requires p + |y| <= |s|
    ensures Put(s, p, y)[p..p + |y|] == y
  {
  }

  lemma {:induction false} PutTwice(s: Bytes, p: nat, a: Bytes, b: Bytes)
    requires p + |a| <= |s| && |a| == |b|
    ensures Put(Put(s, p, a), p, b) == Put(s, p, b)
  {
  }

  lemma {:induction false} PutBehind(s: Bytes, p: nat, y: Bytes)
    requires p + |y| <= |s|
    ensures Put(s, p, y)[p + |y|..] == s[p + |y|..]
  {
  }

  method Slice(a: array<Byte>, p: nat, n: nat) returns (x: Bytes)
    requires p + n <= a.Length
    ensures x == a[..][p..p + n]
  {
    x := a[p..p + n];
  }

  /** The first n bytes of src have been added to was from off on. */
  ghost predicate Added(was: Bytes, now: Bytes, off: nat, src: Bytes, n: nat) {
    && n <= |src| && off + |src| <= |was| == |now|
    && forall k :: 0 <= k < |was| ==> now[k] == if off <= k < off + n then Add(was[k], src[k - off]) else was[k]
  }

  lemma {:induction false} AddedAll(was: Bytes, now: Bytes, off: nat, src: Bytes)
    requires Added(was, now, off, src, |src|)
    ensures now == Put(was, off, Xor(was[off..off + |src|], src))
  {
    hide Xor;
    var part := was[off..off + |src|];
    var x := Xor(part, src);
    forall k | 0 <= k < |was| ensures now[k] == Put(was, off, x)[k] {
      if off <= k < off + |src| { XorAt(part, src, k - off); }
    }
  }

  /** crypto_xor_byte, and one word of crypto_xor: n more bytes. */
  method XorMore(dst: array<Byte>, off: nat, src: Bytes, i: nat, n: nat, ghost was: Bytes)
    requires Added(was, dst[..], off, src, i) && i + n <= |src|
    modifies dst
    ensures Added(was, dst[..], off, src, i + n)
  {
    var k := i;
    while k < i + n
      invariant i <= k <= i + n && Added(was, dst[..], off, src, k)
    {
      dst[off + k] := Add(dst[off + k], src[k]);
      k := k + 1;
    }
  }

  /** crypto_xor: words of four bytes first, then the rest. */
  method CryptoXor(dst: array<Byte>, off: nat, src: Bytes)
    requires off + |src| <= dst.Length
    modifies dst
    ensures dst[..] == Put(old(dst[..]), off, Xor(old(dst[off..off + |src|]), src))
  {
    ghost var was := dst[..];
    assert Added(was, dst[..], off, src, 0);
    hide Added;
    var size := |src|;
    while size >= 4
      invariant 0 <= size <= |src| && Added(was, dst[..], off, src, |src| - size)
    {
      XorMore(dst, off, src, |src| - size, 4, was);
      size := size - 4;
    }
    XorMore(dst, off, src, |src| - size, size, was);
    AddedAll(was, dst[..], off, src);
    assert was[off..off + |src|] == old(dst[off..off + |src|]);
  }

  /** memcpy into an array */
  method Copy(dst: array<Byte>, off: nat, src: Bytes)
    requires off + |src| <= dst.Length
    modifies dst
    ensures dst[..] == Put(old(dst[..]), off, src)
  {
    forall i | 0 <= i < |src| { dst[off + i] := src[i]; }
  }

  method NewArray(s: Bytes) returns (a: array<Byte>)
    ensures fresh(a) && a[..] == s
  {
    a := new Byte[|s|](i requires 0 <= i < |s| => s[i]);
  }

  /** What a buffer and the chaining value hold in the end. */
  datatype Outcome = Outcome(buf: Bytes, iv: Bytes)

  // ---------------------------------------------------------------- whole blocks of 16

  /** How many zeros fill n bytes up to whole blocks. */
  function PadLen(n: nat): nat { if n == 0 then 0 else if n < 16 then 16 - n else PadLen(n - 16) }

  lemma {:induction false} PadFills(n: nat)
    ensures (n + PadLen(n)) % 16 == 0
  {
    if n >= 16 { PadFills(n - 16); }
  }

  /** The data with zeros up to a whole number of blocks. */
  function Padded(data: Bytes): (r: Bytes)
    ensures |r| % 16 == 0
  {
    PadFills(|data|);
    data + Zeros(PadLen(|data|))
  }

  lemma {:induction false} PaddedShape(data: Bytes)
    ensures data == [] ==> Padded(data) == []
    ensures 0 < |data| < 16 ==> Padded(data) == data + Zeros(16 - |data|)
    ensures |data| >= 16 ==> |Padded(data)| >= 16 && Padded(data)[..16] == data[..16]
    ensures |data| >= 16 ==> Padded(data)[16..] == Padded(data[16..])
  {
    if |data| >= 16 {
      assert data[16..] + Zeros(PadLen(|data|)) == (data + Zeros(PadLen(|data|)))[16..];
    }
  }

  // ---------------------------------------------------------------- counters

  function Value(b: Byte): (r: nat)
    ensures r < 256
  {
    b.v as int
  }

  /** The number that a big-endian string of bytes stands for. */
  function Be(s: Bytes): nat {
    if s == [] then 0 else 256 * Be(s[..|s| - 1]) + Value(s[|s| - 1])
  }

  function Pow256(n: nat): nat { if n == 0 then 1 else 256 * Pow256(n - 1) }

  lemma {:induction false} BeBound(s: Bytes)
    ensures Be(s) < Pow256(|s|)
  {
    if s != [] { BeBound(s[..|s| - 1]); }
  }

  lemma {:induction false} BeSplit(a: Bytes, b: Bytes)
    ensures Be(a + b) == Be(a) * Pow256(|b|) + Be(b)
  {
    if b == [] {
      assert a + b == a;
    } else {
      var n := |b| - 1;
      BeSplit(a, b[..n]);
      assert (a + b)[..|a + b| - 1] == a + b[..n];
      Distribute(Be(a), Pow256(n), Be(b[..n]));
    }
  }

  lemma {:induction false} Distribute(x: nat, p: nat, y: nat)
    ensures 256 * (x * p + y) == x * (256 * p) + 256 * y
  {
  }

  lemma {:induction false} SameByte(x: Byte, y: Byte, m: nat, n: nat)
    requires 256 * m + Value(x) == 256 * n + Value(y)
    ensures x == y && m == n
  {
    assert Value(x) == Value(y) by { hide Value; }
  }

  /** Strings of one length stand for different numbers. */
  lemma {:induction false} BeInjective(s: Bytes, t: Bytes)
    requires |s| == |t| && Be(s) == Be(t)
    ensures s == t
  {
    if s != [] {
      var n := |s| - 1;
      SameByte(s[n], t[n], Be(s[..n]), Be(t[..n]));
      BeInjective(s[..n], t[..n]);
      assert s == s[..n] + [s[n]] && t == t[..n] + [t[n]];
    }
  }

  /** A big-endian counter plus one, with the carry running to the front. */
  function Inc(s: Bytes): (r: Bytes)
    ensures |r| == |s|
  {
    if s == [] then []
    else if s[|s| - 1].v == 255 then Inc(s[..|s| - 1]) + [ZERO]
    else s[..|s| - 1] + [Byte(s[|s| - 1].v + 1)]
  }

  lemma {:induction false} IncByte(b: bv8)
    ensures b == 255 ==> b as int == 255
    ensures b != 255 ==> (b + 1) as int == b as int + 1 && b + 1 != 0
    ensures b == 255 ==> b + 1 == 0
  {
  }

  /** Inc adds one, modulo the range of the counter. */
  lemma {:induction false} IncAddsOne(s: Bytes)
    ensures Be(Inc(s)) == if Be(s) + 1 == Pow256(|s|) then 0 else Be(s) + 1
  {
    if s != [] {
      var n := |s| - 1;
      IncByte(s[n].v);
      BeBound(s[..n]);
      IncAddsOne(s[..n]);
      assert Inc(s)[..n] == if s[n].v == 255 then Inc(s[..n]) else s[..n];
    }
  }

  /** And it is the only string of that length that stands for the next number. */
  lemma {:induction false} IncOnly(s: Bytes, t: Bytes)
    requires |t| == |s|
    ensures t == Inc(s) <==> Be(t) == if Be(s) + 1 == Pow256(|s|) then 0 else Be(s) + 1
  {
    hide Inc, Be;
    IncAddsOne(s);
    if Be(t) == Be(Inc(s)) { BeInjective(t, Inc(s)); }
  }

  lemma {:induction false} IncLast(a: Bytes, x: Byte)
    ensures Inc(a + [x]) == if x.v == 255 then Inc(a) + [ZERO] else a + [Byte(x.v + 1)]
  {
    assert (a + [x])[..|a|] == a;
  }

  predicate Full(s: Bytes) { forall i :: 0 <= i < |s| ==> s[i].v == 255 }

  lemma {:induction false} FullLast(c: Bytes, x: Byte)
    ensures Full(c + [x]) <==> Full(c) && x.v == 255
  {
    if Full(c + [x]) {
      forall i | 0 <= i < |c| ensures c[i].v == 255 { assert (c + [x])[i].v == 255; }
      assert (c + [x])[|c|].v == 255;
    }
  }

  /** The carry leaves the low part exactly when the low part is full. */
  lemma {:induction false} IncSplit(a: Bytes, b: Bytes)
    ensures Inc(a + b) == if Full(b) then Inc(a) + Inc(b) else a + Inc(b)
  {
    if b == [] {
      assert a + b == a && Inc(a) + Inc(b) == Inc(a);
    } else {
      var n := |b| - 1;
      IncSplit(a, b[..n]);
      assert b == b[..n] + [b[n]];
      IncSplitLast(a, b[..n], b[n]);
    }
  }

  lemma {:induction false} IncSplitLast(a: Bytes, c: Bytes, x: Byte)
    requires Inc(a + c) == if Full(c) then Inc(a) + Inc(c) else a + Inc(c)
    ensures var b := c + [x]; Inc(a + b) == if Full(b) then Inc(a) + Inc(b) else a + Inc(b)
  {
    hide Inc, Full;
    assert a + (c + [x]) == (a + c) + [x];
    IncLast(a + c, x);
    IncLast(c, x);
    FullLast(c, x);
    assert (Inc(a) + Inc(c)) + [ZERO] == Inc(a) + (Inc(c) + [ZERO]);
    assert (a + Inc(c)) + [ZERO] == a + (Inc(c) + [ZERO]);
    assert (a + c) + [Byte(x.v + 1)] == a + (c + [Byte(x.v + 1)]);
  }

  lemma {:induction false} BeFull(s: Bytes)
    ensures Full(s) <==> Be(s) + 1 == Pow256(|s|)
  {
    if s != [] {
      var n := |s| - 1;
      BeFull(s[..n]);
      BeBound(s[..n]);
      IncByte(s[n].v);
      assert Full(s) <==> Full(s[..n]) && s[n].v == 255 by { assert s == s[..n] + [s[n]]; }
    }
  }

  /** The byte that stands for c. */
  function ByteOf(c: nat): Byte
    requires c < 256
  {
    if c == 0 then ZERO else Byte(ByteOf(c - 1).v + 1)
  }

  /** cpu_to_be32 */
  function Be32(c: nat): (r: Bytes)
    requires c < 0x1_0000_0000
    ensures |r| == 4
  {
    [ByteOf(c / 0x100_0000), ByteOf(c / 0x1_0000 % 256), ByteOf(c / 0x100 % 256), ByteOf(c % 256)]
  }

  lemma {:induction false} Be4(s: Bytes)
    requires |s| == 4
    ensures Be(s) == ((Value(s[0]) * 256 + Value(s[1])) * 256 + Value(s[2])) * 256 + Value(s[3])
    ensures Be(s) < 0x1_0000_0000
  {
    hide Value;
    assert s[..3][..2] == s[..2] && s[..2][..1] == s[..1];
    assert Be(s[..1]) == Value(s[0]);
    assert Be(s[..2]) == 256 * Be(s[..1]) + Value(s[1]);
    assert Be(s[..3]) == 256 * Be(s[..2]) + Value(s[2]);
  }

  lemma {:induction false} ByteRound(c: nat)
    requires c < 256
    ensures Value(ByteOf(c)) == c
  {
    if c > 0 {
      ByteRound(c - 1);
      IncByte(ByteOf(c - 1).v);
    }
  }

  lemma {:induction false} Digits(c: nat)
    requires c < 0x1_0000_0000
    ensures ((c / 0x100_0000 * 256 + c / 0x1_0000 % 256) * 256 + c / 0x100 % 256) * 256 + c % 256 == c
  {
    assert c / 0x1_0000 / 256 == c / 0x100_0000;
    assert c / 0x100 / 256 == c / 0x1_0000;
  }

  lemma {:induction false} Be32Value(c: nat)
    requires c < 0x1_0000_0000
    ensures Be(Be32(c)) == c
  {
    Be4(Be32(c));
    hide ByteOf, Be;
    ByteRound(c / 0x100_0000);
    ByteRound(c / 0x1_0000 % 256);
    ByteRound(c / 0x100 % 256);
    ByteRound(c % 256);
    Digits(c);
  }

  function Word32(b0: bv8, b1: bv8, b2: bv8, b3: bv8): bv32 {
    ((b0 as bv32) << 24) | ((b1 as bv32) << 16) | ((b2 as bv32) << 8) | (b3 as bv32)
  }

  function Bytes32(w: bv32): (r: Bytes)
    ensures |r| == 4
  {
    [Byte(((w >> 24) & 0xff) as bv8), Byte(((w >> 16) & 0xff) as bv8), Byte(((w >> 8) & 0xff) as bv8),
     Byte((w & 0xff) as bv8)]
  }

  lemma {:induction false} WordCarry(b0: bv8, b1: bv8, b2: bv8, b3: bv8)
    ensures (Bytes32(Word32(b0, b1, b2, b3) + 1) ==
             if b3 != 255 then [Byte(b0), Byte(b1), Byte(b2), Byte(b3 + 1)]
             else if b2 != 255 then [Byte(b0), Byte(b1), Byte(b2 + 1), ZERO]
             else if b1 != 255 then [Byte(b0), Byte(b1 + 1), ZERO, ZERO]
             else [Byte(b0 + 1), ZERO, ZERO, ZERO])
    ensures Word32(b0, b1, b2, b3) + 1 == 0 <==> b0 == 255 && b1 == 255 && b2 == 255 && b3 == 255
  {
  }

  lemma {:induction false} IncFour(b0: Byte, b1: Byte, b2: Byte, b3: Byte)
    ensures Inc([b0, b1, b2, b3]) == Bytes32(Word32(b0.v, b1.v, b2.v, b3.v) + 1)
    ensures Full([b0, b1, b2, b3]) <==> Word32(b0.v, b1.v, b2.v, b3.v) + 1 == 0
  {
    WordCarry(b0.v, b1.v, b2.v, b3.v);
    hide Word32, Bytes32, Inc;
    IncLast([b0, b1, b2], b3);
    IncLast([b0, b1], b2);
    IncLast([b0], b1);
    IncOne(b0);
    assert [b0, b1, b2, b3] == [b0, b1, b2] + [b3] && [b0, b1, b2] == [b0, b1] + [b2] && [b0, b1] == [b0] + [b1];
    FullLast([b0, b1, b2], b3);
    FullLast([b0, b1], b2);
    FullLast([b0], b1);
    FullLast([], b0);
    assert [b0] == [] + [b0];
  }

  lemma {:induction false} IncOne(b: Byte)
    ensures Inc([b]) == [Byte(b.v + 1)]
  {
    IncByte(b.v);
    assert [b][..0] == [];
  }

  /** What is still to come when the carry has reached p: every step leaves this as it is. */
  function IncFrom(now: Bytes, p: nat): Bytes
    requires p <= |now|
  {
    Inc(now[..p]) + now[p..]
  }

  /** A step increments the n bytes before p, and goes on only if they were full. */
  lemma {:induction false} CarryStep(now: Bytes, p: nat, n: nat)
    requires n <= p <= |now|
    ensures (var b := now[p - n..p];
             IncFrom(now, p) == if Full(b) then IncFrom(Put(now, p - n, Inc(b)), p - n) else Put(now, p - n, Inc(b)))
  {
    hide Inc, Full;
    var f, b := now[..p - n], now[p - n..p];
    assert now[..p] == f + b;
    IncSplit(f, b);
    assert Put(now, p - n, Inc(b))[..p - n] == f && Put(now, p - n, Inc(b))[p - n..] == Inc(b) + now[p..];
    assert (Inc(f) + Inc(b)) + now[p..] == Inc(f) + (Inc(b) + now[p..]);
  }

  /** One word of crypto_inc; more is set if it was full. */
  method IncWord(a: array<Byte>, p: nat) returns (more: bool)
    requires 4 <= p <= a.Length
    modifies a
    ensures old(IncFrom(a[..], p)) == if more then IncFrom(a[..], p - 4) else a[..]
  {
    hide Inc, Full, Word32, Bytes32, IncFrom, Put;
    CarryStep(a[..], p, 4);
    IncFour(a[p - 4], a[p - 3], a[p - 2], a[p - 1]);
    assert a[..][p - 4..p] == [a[p - 4], a[p - 3], a[p - 2], a[p - 1]];
    var c := Word32(a[p - 4].v, a[p - 3].v, a[p - 2].v, a[p - 1].v) + 1;
    Copy(a, p - 4, Bytes32(c));
    more := c == 0;
  }

  /** One byte of crypto_inc_byte */
  method IncOneByte(a: array<Byte>, p: nat) returns (more: bool)
    requires 1 <= p <= a.Length
    modifies a
    ensures old(IncFrom(a[..], p)) == if more then IncFrom(a[..], p - 1) else a[..]
  {
    hide Inc, Full, IncFrom, Put;
    CarryStep(a[..], p, 1);
    assert a[..][p - 1..p] == [a[p - 1]];
    IncOne(a[p - 1]);
    FullOne(a[p - 1]);
    var c := a[p - 1].v + 1;
    Copy(a, p - 1, [Byte(c)]);
    more := c == 0;
  }

  /** crypto_inc adds one to the big-endian counter in the first size bytes: words from the end, then bytes. */
  method CryptoInc(a: array<Byte>, size: nat)
    requires size <= a.Length
    modifies a
    ensures a[..] == Inc(old(a[..size])) + old(a[size..])
  {
    ghost var goal := IncFrom(a[..], size);
    assert goal == Inc(old(a[..size])) + old(a[size..]);
    hide IncFrom;
    var p, more := size, true;
    while p >= 4 && more
      invariant 0 <= p <= size && goal == if more then IncFrom(a[..], p) else a[..]
    {
      more := IncWord(a, p);
      p := p - 4;
    }
    while p > 0 && more
      invariant 0 <= p <= size && goal == if more then IncFrom(a[..], p) else a[..]
    {
      more := IncOneByte(a, p);
      p := p - 1;
    }
    IncNone(a[..]);
  }

  lemma {:induction false} IncNone(now: Bytes)
    ensures IncFrom(now, 0) == now
  {
    assert now[..0] == [] && now[0..] == now;
  }

  lemma {:induction false} FullOne(b: Byte)
    ensures Full([b]) <==> b.v + 1 == 0
  {
    FullLast([], b);
    assert [b] == [] + [b];
    IncByte(b.v);
  }
}
