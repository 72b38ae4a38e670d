/**
  Counter with CBC-MAC as in crypto/ccm.c, against RFC 3610: the MAC is computed piece by piece over scattered data, and
  the tag is encrypted with the counter at zero.
 */
module Ccm {
  import opened CryptoBytes
  import opened BlockCipher
  import Ctr

  const EINVAL := 22
  const EOVERFLOW := 75
  const EBADMSG := 74

  type Block = s: Bytes | |s| == 16 witness Zeros(16)

  // ---------------------------------------------------------------- CBC-MAC

  /** One step of section 2.2: a block is added and the sum encrypted. */
  function Step(c: Cipher, x: Block, b: Block): Block
    requires c.bsize == 16
  {
    Enc(c, Xor(x, b))
  }

  /** The MAC over whole blocks. */
  function MacBlocks(c: Cipher, x: Block, data: Bytes): Block
    requires c.bsize == 16 && |data| % 16 == 0
    decreases |data|
  {
    if data == [] then x else MacBlocks(c, Step(c, x, data[..16]), data[16..])
  }

  /** The MAC over data of any length, the last block filled with zeros. */
  function Mac(c: Cipher, x: Block, data: Bytes): Block
    requires c.bsize == 16
    decreases |data|
  {
    if data == [] then x
    else if |data| < 16 then Step(c, x, data + Zeros(16 - |data|))
    else Mac(c, Step(c, x, data[..16]), data[16..])
  }

  lemma {:induction false} MacIsPadded(c: Cipher, x: Block, data: Bytes)
    requires c.bsize == 16
    ensures Mac(c, x, data) == MacBlocks(c, x, Padded(data))
    decreases |data|
  {
    hide Step, Zeros;
    var p := Padded(data);
    PaddedShape(data);
    hide Padded;
    if data == [] {
    } else if |data| < 16 {
      assert p[..16] == p && p[16..] == [];
    } else {
      MacIsPadded(c, Step(c, x, data[..16]), data[16..]);
    }
  }

  /** y and the pending bytes stand for what was seen after x: whatever comes next, the MAC is the same. */
  ghost predicate Stands(c: Cipher, x: Block, seen: Bytes, y: Block, part: Bytes)
    requires c.bsize == 16
  {
    |part| < 16 && forall rest: Bytes :: Mac(c, x, seen + rest) == Mac(c, y, part + rest)
  }

  lemma {:induction false} StandsMore(c: Cipher, x: Block, seen: Bytes, y: Block, part: Bytes, d: Bytes)
    requires c.bsize == 16 && Stands(c, x, seen, y, part) && |part| + |d| < 16
    ensures Stands(c, x, seen + d, y, part + d)
  {
    hide Mac;
    forall rest: Bytes ensures Mac(c, x, (seen + d) + rest) == Mac(c, y, (part + d) + rest) {
      assert (seen + d) + rest == seen + (d + rest) && (part + d) + rest == part + (d + rest);
    }
  }

  lemma {:induction false} StandsBlock(c: Cipher, x: Block, seen: Bytes, y: Block, part: Bytes, d: Bytes)
    requires c.bsize == 16 && Stands(c, x, seen, y, part) && |part| + |d| == 16
    ensures Stands(c, x, seen + d, Step(c, y, part + d), [])
  {
    hide Step;
    var y' := Step(c, y, part + d);
    forall rest: Bytes ensures Mac(c, x, (seen + d) + rest) == Mac(c, y', [] + rest) {
      assert (seen + d) + rest == seen + (d + rest);
      var all := part + (d + rest);
      assert all[..16] == part + d && all[16..] == rest && [] + rest == rest;
    }
  }

  lemma {:induction false} StandsDone(c: Cipher, x: Block, seen: Bytes, y: Block, part: Bytes)
    requires c.bsize == 16 && Stands(c, x, seen, y, part)
    ensures Mac(c, x, seen) == if part == [] then y else Step(c, y, part + Zeros(16 - |part|))
  {
    hide Step;
    assert seen + [] == seen && part + [] == part;
  }

  lemma {:induction false} StandsNew(c: Cipher, x: Block, part: Bytes)
    requires c.bsize == 16 && |part| < 16
    ensures Stands(c, x, part, x, part)
  {}

  // ---------------------------------------------------------------- formats

  /** The length field: the number, big-endian, cut to its l last bytes. */
  function LenField(n: nat, l: nat): (r: Bytes)
    requires n < 0x1_0000_0000 && 2 <= l <= 8
    ensures |r| == l
  {
    if l >= 4 then Zeros(l - 4) + Be32(n) else Be32(n)[4 - l..]
  }

  lemma {:induction false} BeZerosBefore(k: nat, s: Bytes)
    ensures Be(Zeros(k) + s) == Be(s)
  {
    BeSplit(Zeros(k), s);
    BeZeros(k);
  }

  lemma {:induction false} BeZeros(k: nat)
    ensures Be(Zeros(k)) == 0
  {
    if k > 0 {
      BeZeros(k - 1);
      assert Zeros(k)[..k - 1] == Zeros(k - 1);
    }
  }

  /** The field holds the length exactly when the length fits into l bytes. */
  lemma {:induction false} LenFieldValue(n: nat, l: nat)
    requires n < 0x1_0000_0000 && 2 <= l <= 8
    ensures Be(LenField(n, l)) == n <==> n < Pow256(l)
  {
    var f := LenField(n, l);
    BeBound(f);
    Be32Value(n);
    if l >= 4 {
      BeZerosBefore(l - 4, Be32(n));
    } else {
      var w := Be32(n);
      BeSplit(w[..4 - l], w[4 - l..]);
      assert w == w[..4 - l] + w[4 - l..];
      BeBound(w[4 - l..]);
      hide Be, Be32;
      if n < Pow256(l) { NoHighPart(Be(w[..4 - l]), Pow256(l), Be(f), n); }
    }
  }

  lemma {:induction false} NoHighPart(h: nat, p: nat, low: nat, n: nat)
    requires n == h * p + low && n < p
    ensures low == n
  {}

  /** RFC 3610 section 2.2: the flags are 64 Adata + 8 M' + L'. */
  function Flags(lp: bv8, mp: bv8, adata: bool): Byte { Byte(lp + (mp << 3) + if adata then 64 else 0) }

  /** Or-ing them together is adding them, as the fields do not overlap. */
  lemma {:induction false} FlagsOr(lp: bv8, mp: bv8)
    requires lp <= 7 && mp <= 7
    ensures (lp | (mp << 3)) | 64 == lp + (mp << 3) + 64 && lp | (mp << 3) == lp + (mp << 3) + 0
  {
  }

  /** B_0 of section 2.2: flags, nonce and length; lp is L' in the first byte of the IV, and l = L' + 1. */
  function B0(iv: Block, m: nat, adata: bool, n: nat): Block
    requires ValidIv(iv) && ValidTag(m) && n < 0x1_0000_0000
  {
    [Flags(iv[0].v, ByteOf((m - 2) / 2).v, adata)] + iv[1..16 - FieldLen(iv)] + LenField(n, FieldLen(iv))
  }

  /** crypto_ccm_check_iv accepts 1 <= L' <= 7. */
  predicate ValidIv(iv: Block) { 1 <= Value(iv[0]) <= 7 }

  /** crypto_ccm_setauthsize */
  predicate ValidTag(m: nat) { m in {4, 6, 8, 10, 12, 14, 16} }

  function FieldLen(iv: Block): (l: nat)
    requires ValidIv(iv)
    ensures 2 <= l <= 8
  {
    Value(iv[0]) + 1
  }

  /** The encoding of the length of the additional data. */
  function AdataHead(a: nat): (r: Bytes)
    requires a < 0x1_0000_0000
    ensures |r| == if a < 65280 then 2 else 6
  {
    if a < 65280 then [ByteOf(a / 256), ByteOf(a % 256)] else [Byte(0xff), Byte(0xfe)] + Be32(a)
  }

  /** The whole MAC, before it is cut to the tag length. */
  function FullMac(c: Cipher, iv: Block, m: nat, assoc: Bytes, plain: Bytes): Block
    requires c.bsize == 16 && ValidIv(iv) && ValidTag(m) && |assoc| < 0x1_0000_0000 && |plain| < 0x1_0000_0000
  {
    var x := Enc(c, B0(iv, m, assoc != [], |plain|));
    var y := if assoc == [] then x else Mac(c, x, AdataHead(|assoc|) + assoc);
    Mac(c, y, plain)
  }

  /** The code refuses a length only if the field is short and the length is above its range, which lets one length
      through that does not fit. */
  predicate Overflows(n: nat, l: nat) { l < 4 && n > Pow256(l) }

  lemma {:induction false} AcceptedLength(n: nat, l: nat)
    requires n < 0x1_0000_0000 && 2 <= l <= 8 && !Overflows(n, l)
    ensures Be(LenField(n, l)) == n <==> !(l < 4 && n == Pow256(l))
  {
    hide Be, LenField;
    LenFieldValue(n, l);
    if l >= 4 { Pow256Grows(4, l); Pow256Four(); }
  }

  lemma {:induction false} Pow256Grows(m: nat, n: nat)
    requires m <= n
    ensures Pow256(m) <= Pow256(n)
  {
    if m < n { Pow256Grows(m, n - 1); }
  }

  lemma {:induction false} Pow256Four()
    ensures Pow256(2) == 0x1_0000 && Pow256(3) == 0x100_0000 && Pow256(4) == 0x1_0000_0000
  {}

  /** 65536 bytes with a length field of two bytes: no error, and the field says zero. */
  lemma {:induction false} LengthLost()
    ensures !Overflows(0x1_0000, 2) && Be(LenField(0x1_0000, 2)) == 0
  {
    hide Be;
    Pow256Four();
    var f := LenField(0x1_0000, 2);
    assert f == Be32(0x1_0000)[2..];
    assert f == [ByteOf(0), ByteOf(0)];
    assert f == Zeros(2);
    BeZeros(2);
  }

  // ---------------------------------------------------------------- the MAC input is an encoding

  /** Section 2.2: two bytes for a length below 2^16 - 2^8, and otherwise the bytes 0xff and 0xfe and four more. */
  lemma {:induction false} HeadValue(a: nat)
    requires a < 0x1_0000_0000
    ensures a < 0xff00 ==> |AdataHead(a)| == 2 && Be(AdataHead(a)) == a
    ensures a >= 0xff00 ==> |AdataHead(a)| == 6 && Be(AdataHead(a)[..2]) == 0xfffe && Be(AdataHead(a)[2..]) == a
  {
    hide ByteOf, Be32, Value;
    if a < 0xff00 {
      ByteRound(a / 256);
      ByteRound(a % 256);
      TwoBytes(ByteOf(a / 256), ByteOf(a % 256));
    } else {
      Be32Value(a);
      Marks();
      TwoBytes(Byte(0xff), Byte(0xfe));
      assert AdataHead(a)[..2] == [Byte(0xff), Byte(0xfe)] && AdataHead(a)[2..] == Be32(a);
    }
  }

  lemma {:induction false} TwoBytes(x: Byte, y: Byte)
    ensures Be([x, y]) == 256 * Value(x) + Value(y)
  {
    hide Value;
    assert [x, y][..1] == [x] && [x][..0] == [];
    assert Be([x]) == Value(x);
  }

  lemma {:induction false} Marks()
    ensures Value(Byte(0xff)) == 0xff && Value(Byte(0xfe)) == 0xfe
  {}

  /** The header tells the length. */
  lemma {:induction false} HeadInjective(a: nat, a': nat, d: Bytes, d': Bytes)
    requires a < 0x1_0000_0000 && a' < 0x1_0000_0000 && AdataHead(a) + d == AdataHead(a') + d'
    ensures a == a'
  {
    hide AdataHead, Be;
    HeadValue(a);
    HeadValue(a');
    var h, h' := AdataHead(a), AdataHead(a');
    assert (h + d)[..2] == h[..2] && (h' + d')[..2] == h'[..2];
    if |h| == 2 { assert h[..2] == h; } else { assert (h + d)[..6] == h && h == h[..2] + h[2..]; }
    if |h'| == 2 { assert h'[..2] == h'; } else { assert (h' + d')[..6] == h' && h' == h'[..2] + h'[2..]; }
  }

  /** The flags, as a number. */
  lemma {:induction false} FlagsValue(b: Byte, m: nat, adata: bool)
    requires 1 <= Value(b) <= 7 && ValidTag(m)
    ensures Value(Flags(b.v, ByteOf((m - 2) / 2).v, adata)) == (if adata then 64 else 0) + 8 * ((m - 2) / 2) + Value(b)
  {
    hide ByteOf;
    ByteRound((m - 2) / 2);
    SmallBits(b, m);
    FlagsSum(b.v, ByteOf((m - 2) / 2).v);
  }

  lemma {:induction false} FlagsSum(lp: bv8, mp: bv8)
    requires lp <= 7 && mp <= 7
    ensures (lp + (mp << 3) + 64) as int == 64 + 8 * (mp as int) + lp as int
    ensures (lp + (mp << 3) + 0) as int == 8 * (mp as int) + lp as int
  {}

  /** The fields of B_0, as section 2.2 gives them: flags, nonce, and the length of the message if it fits. */
  lemma {:induction false} B0Fields(iv: Block, m: nat, adata: bool, n: nat)
    requires ValidIv(iv) && ValidTag(m) && n < 0x1_0000_0000
    ensures var b, l := B0(iv, m, adata, n), FieldLen(iv);
      && Value(b[0]) == (if adata then 64 else 0) + 8 * ((m - 2) / 2) + (l - 1)
      && b[1..16 - l] == iv[1..16 - l]
      && (Be(b[16 - l..]) == n <==> n < Pow256(l))
  {
    hide Flags, LenField, Be, Pow256, ByteOf;
    var b, l := B0(iv, m, adata, n), FieldLen(iv);
    FlagsValue(iv[0], m, adata);
    LenFieldValue(n, l);
    assert b[16 - l..] == LenField(n, l);
  }

  /** All that goes into the MAC: B_0, the additional data with its length, and the message, each filled up with zeros. */
  function MacInput(iv: Block, m: nat, assoc: Bytes, plain: Bytes): (r: Bytes)
    requires ValidIv(iv) && ValidTag(m) && |assoc| < 0x1_0000_0000 && |plain| < 0x1_0000_0000
    ensures |r| % 16 == 0
  {
    ThreeParts(|B0(iv, m, assoc != [], |plain|)|, |Filled(assoc)|, |Padded(plain)|);
    B0(iv, m, assoc != [], |plain|) + Filled(assoc) + Padded(plain)
  }

  lemma ThreeParts(a: nat, b: nat, c: nat)
    requires a == 16 && b % 16 == 0 && c % 16 == 0
    ensures (a + b + c) % 16 == 0
  {}

  function Filled(assoc: Bytes): (r: Bytes)
    requires |assoc| < 0x1_0000_0000
    ensures |r| % 16 == 0
  {
    if assoc == [] then [] else Padded(AdataHead(|assoc|) + assoc)
  }

  lemma {:induction false} MacTwice(c: Cipher, x: Block, a: Bytes, b: Bytes)
    requires c.bsize == 16 && |a| % 16 == 0 && |b| % 16 == 0
    ensures MacBlocks(c, x, a + b) == MacBlocks(c, MacBlocks(c, x, a), b)
    decreases |a|
  {
    hide Step;
    if a == [] {
      assert a + b == b;
    } else {
      assert (a + b)[..16] == a[..16] && (a + b)[16..] == a[16..] + b;
      MacTwice(c, Step(c, x, a[..16]), a[16..], b);
    }
  }

  /** The MAC of the code is the CBC-MAC of the whole input. */
  lemma {:induction false} MacIsCbc(c: Cipher, iv: Block, m: nat, assoc: Bytes, plain: Bytes)
    requires c.bsize == 16 && ValidIv(iv) && ValidTag(m) && |assoc| < 0x1_0000_0000 && |plain| < 0x1_0000_0000
    ensures FullMac(c, iv, m, assoc, plain) == MacBlocks(c, Zeros(16), MacInput(iv, m, assoc, plain))
  {
    hide Mac, MacBlocks, B0, Padded, AdataHead, Enc, Xor, Zeros;
    var b := B0(iv, m, assoc != [], |plain|);
    var x := Enc(c, b);
    FirstStep(c, b);
    if assoc == [] { NoBlocks(c, x); } else { MacIsPadded(c, x, AdataHead(|assoc|) + assoc); }
    var y := if assoc == [] then x else Mac(c, x, AdataHead(|assoc|) + assoc);
    MacIsPadded(c, y, plain);
    MacTwice(c, Zeros(16), b + Filled(assoc), Padded(plain));
    MacTwice(c, Zeros(16), b, Filled(assoc));
  }

  lemma {:induction false} NoBlocks(c: Cipher, x: Block)
    requires c.bsize == 16
    ensures MacBlocks(c, x, []) == x
  {}

  lemma {:induction false} FirstStep(c: Cipher, b: Block)
    requires c.bsize == 16
    ensures MacBlocks(c, Zeros(16), b) == Enc(c, b)
  {
    hide Enc;
    assert b[..16] == b && b[16..] == [];
    assert Xor(Zeros(16), b) == b by {
      forall i | 0 <= i < 16 ensures Xor(Zeros(16), b)[i] == b[i] { XorByte(b[i], ZERO); }
    }
  }

  /** The input is an encoding: it determines the nonce, the tag length, the additional data and the message, for messages
      whose length fits the field. */
  lemma {:induction false} InputInjective(iv: Block, m: nat, assoc: Bytes, plain: Bytes, iv': Block, m': nat, assoc': Bytes, plain': Bytes)
    requires ValidIv(iv) && ValidTag(m) && |assoc| < 0x1_0000_0000 && |plain| < 0x1_0000_0000 && |plain| < Pow256(FieldLen(iv))
    requires ValidIv(iv') && ValidTag(m') && |assoc'| < 0x1_0000_0000 && |plain'| < 0x1_0000_0000 && |plain'| < Pow256(FieldLen(iv'))
    requires MacInput(iv, m, assoc, plain) == MacInput(iv', m', assoc', plain')
    ensures FieldLen(iv) == FieldLen(iv') && iv[1..16 - FieldLen(iv)] == iv'[1..16 - FieldLen(iv)] && m == m'
    ensures assoc == assoc' && plain == plain'
  {
    hide B0, Filled, Padded, Be, Pow256, Value;
    var b, b' := B0(iv, m, assoc != [], |plain|), B0(iv', m', assoc' != [], |plain'|);
    var u, u' := MacInput(iv, m, assoc, plain), MacInput(iv', m', assoc', plain');
    assert u[..16] == b && u'[..16] == b' && u[16..] == Filled(assoc) + Padded(plain) && u'[16..] == Filled(assoc') + Padded(plain');
    B0Fields(iv, m, assoc != [], |plain|);
    B0Fields(iv', m', assoc' != [], |plain'|);
    assert (assoc != [] <==> assoc' != []) && m == m' && FieldLen(iv) == FieldLen(iv') by {
      SameFlags(m, FieldLen(iv), assoc != [], m', FieldLen(iv'), assoc' != []);
    }
    SameData(assoc, plain, assoc', plain');
  }

  lemma {:induction false} SameFlags(m: nat, l: nat, a: bool, m': nat, l': nat, a': bool)
    requires ValidTag(m) && ValidTag(m') && 2 <= l <= 8 && 2 <= l' <= 8
    requires (if a then 64 else 0) + 8 * ((m - 2) / 2) + (l - 1) == (if a' then 64 else 0) + 8 * ((m' - 2) / 2) + (l' - 1)
    ensures m == m' && l == l' && a == a'
  {}

  lemma {:induction false} SameData(assoc: Bytes, plain: Bytes, assoc': Bytes, plain': Bytes)
    requires |assoc| < 0x1_0000_0000 && |assoc'| < 0x1_0000_0000 && (assoc != [] <==> assoc' != []) && |plain| == |plain'|
    requires Filled(assoc) + Padded(plain) == Filled(assoc') + Padded(plain')
    ensures assoc == assoc' && plain == plain'
  {
    hide AdataHead, Zeros, PadLen;
    var f, f', p, p' := Filled(assoc), Filled(assoc'), Padded(plain), Padded(plain');
    if assoc != [] {
      var h, h' := AdataHead(|assoc|), AdataHead(|assoc'|);
      var r, r' := Zeros(PadLen(|h + assoc|)) + p, Zeros(PadLen(|h' + assoc'|)) + p';
      assert f + p == h + (assoc + r) && f' + p' == h' + (assoc' + r');
      HeadInjective(|assoc|, |assoc'|, assoc + r, assoc' + r');
      Middle(h, assoc, r);
      Middle(h', assoc', r');
    }
    var z, z' := Zeros(PadLen(|plain|)), Zeros(PadLen(|plain'|));
    assert |f| == |f'| && p == plain + z && p' == plain' + z';
    Middle(f, plain, z);
    Middle(f', plain', z');
  }

  lemma Middle(a: Bytes, b: Bytes, c: Bytes)
    ensures (a + (b + c))[|a|..|a| + |b|] == b
  {}

  // ---------------------------------------------------------------- the counter stays in its field

  /** The IV with its counter set to zero: A_0 of section 2.3 but for the flags, which are L' in both. */
  function A0(iv: Block): (r: Block)
    requires ValidIv(iv)
    ensures ValidIv(r) && FieldLen(r) == FieldLen(iv)
  {
    iv[..16 - FieldLen(iv)] + Zeros(FieldLen(iv))
  }

  /** Counting on in the low part leaves the high part alone while the low part does not overflow. */
  lemma {:induction false} CountedLow(c: Cipher, f: Bytes, low: Bytes, data: Bytes)
    requires |f| + |low| == c.bsize && Be(low) + Ctr.Blocks(|data|, c.bsize) < Pow256(|low|)
    ensures exists low': Bytes :: |low'| == |low| && Ctr.Counted(c, f + low, data) == f + low'
    decreases |data|
  {
    hide Inc, Be, Pow256, Full;
    IncAddsOne(low);
    BeFull(low);
    IncSplit(f, low);
    if data == [] {
      assert Ctr.Counted(c, f + low, data) == f + low;
    } else if |data| < c.bsize {
      assert Ctr.Counted(c, f + low, data) == f + Inc(low);
    } else {
      CountedLow(c, f, Inc(low), data[c.bsize..]);
    }
  }

  lemma {:induction false} BlocksBound(n: nat)
    ensures 16 * Ctr.Blocks(n, 16) <= n + 15
  {
    if n >= 16 { BlocksBound(n - 16); }
  }

  /** A message that the code accepts does not use the counter up. */
  lemma {:induction false} CounterLasts(n: nat, l: nat)
    requires n < 0x1_0000_0000 && 2 <= l <= 8 && !Overflows(n, l)
    ensures Ctr.Blocks(16 + n, 16) < Pow256(l)
  {
    hide Pow256;
    BlocksBound(16 + n);
    Pow256Four();
    Pow256Grows(2, l);
    if l >= 4 { Pow256Grows(4, l); }
  }

  /** The IV after the counter has moved on still has its L' and its nonce. */
  lemma {:induction false} NonceKept(c: Cipher, iv: Block, data: Bytes)
    requires c.bsize == 16 && ValidIv(iv) && 16 <= |data| < 16 + 0x1_0000_0000 && !Overflows(|data| - 16, FieldLen(iv))
    ensures (var iv' := Ctr.Counted(c, A0(iv), data);
             && |iv'| == 16 && ValidIv(iv') && FieldLen(iv') == FieldLen(iv)
             && iv'[..16 - FieldLen(iv)] == iv[..16 - FieldLen(iv)])
  {
    hide Ctr.Counted, Be, Pow256, Zeros;
    var l := FieldLen(iv);
    var f := iv[..16 - l];
    CounterLasts(|data| - 16, l);
    BeZeros(l);
    CountedLow(c, f, Zeros(l), data);
    var low' :| |low'| == l && Ctr.Counted(c, f + Zeros(l), data) == f + low';
    assert (f + low')[0] == iv[0] && (f + low')[..16 - l] == f;
  }

  /** Even a message that overflows the counter field changes L' by at most one, and L' stays valid. */
  lemma {:induction false} IvStaysValid(c: Cipher, iv: Block, data: Bytes)
    requires c.bsize == 16 && ValidIv(iv) && 16 <= |data| < 16 + 0x1_0000_0000
    ensures |Ctr.Counted(c, A0(iv), data)| == 16 && ValidIv(Ctr.Counted(c, A0(iv), data))
  {
    if FieldLen(iv) >= 4 {
      NonceKept(c, iv, data);
    } else {
      hide Ctr.Counted, Ctr.Blocks, Be, Pow256, A0;
      var a := A0(iv);
      A0First(iv);
      var iv' := Ctr.Counted(c, a, data);
      FirstByte(a);
      FirstByte(iv');
      BlocksBound(|data|);
      Pow256Four();
      Pow256Grows(4, 15);
      Pow256Sixteen();
      Ctr.CountedBy(c, a, data);
      CarryInto(Value(a[0]), Be(a[1..]), Ctr.Blocks(|data|, 16), Value(iv'[0]), Be(iv'[1..]), Pow256(15));
    }
  }

  lemma {:induction false} A0First(iv: Block)
    requires ValidIv(iv)
    ensures A0(iv)[0] == iv[0]
  {
  }

  lemma {:induction false} FirstByte(s: Block)
    ensures Be(s) == Value(s[0]) * Pow256(15) + Be(s[1..]) && Be(s[1..]) < Pow256(15)
  {
    hide Value, Pow256;
    BeSplit([s[0]], s[1..]);
    assert s == [s[0]] + s[1..];
    BeBound(s[1..]);
    assert [s[0]][..0] == [];
  }

  lemma {:induction false} Pow256Sixteen()
    ensures Pow256(16) == 256 * Pow256(15)
  {
  }

  lemma {:induction false} CarryInto(v: nat, r: nat, b: nat, v': nat, r': nat, p: nat)
    requires v * p + r + b == v' * p + r' && r < p && b < p && r' < p
    ensures v <= v' <= v + 1
  {
    if v' < v { Monotone(v' + 1, v, p); }
    if v' > v + 1 { Monotone(v + 2, v', p); }
  }

  /** The MAC does not depend on the counter part of the IV. */
  lemma {:induction false} MacOfNonce(c: Cipher, iv: Block, iv': Block, m: nat, assoc: Bytes, plain: Bytes)
    requires c.bsize == 16 && ValidIv(iv) && ValidTag(m) && |assoc| < 0x1_0000_0000 && |plain| < 0x1_0000_0000
    requires ValidIv(iv') && FieldLen(iv') == FieldLen(iv) && iv'[..16 - FieldLen(iv)] == iv[..16 - FieldLen(iv)]
    ensures FullMac(c, iv', m, assoc, plain) == FullMac(c, iv, m, assoc, plain)
  {}

  // ---------------------------------------------------------------- sealing and opening

  /** What encryption sends: the ciphertext and the first m bytes of the encrypted MAC. */
  function Sealed(c: Cipher, iv: Block, m: nat, assoc: Bytes, plain: Bytes): (r: Bytes)
    requires c.bsize == 16 && ValidIv(iv) && ValidTag(m) && |assoc| < 0x1_0000_0000 && |plain| < 0x1_0000_0000
    ensures |r| == |plain| + m
  {
    var out := Ctr.Crypted(c, A0(iv), FullMac(c, iv, m, assoc, plain) + plain);
    out[16..] + out[..m]
  }

  /** A_i of section 2.3: L' and the nonce of the IV, and the number i in the rest. */
  ghost predicate IsA(iv: Block, i: nat, b: Block)
    requires ValidIv(iv)
  {
    var l := FieldLen(iv); b[..16 - l] == iv[..16 - l] && Be(b[16 - l..]) == i
  }

  /** A_i is the counter block A_0 plus i. */
  lemma {:induction false} CounterOf(iv: Block, i: nat, b: Block)
    requires ValidIv(iv) && IsA(iv, i, b)
    ensures Be(b) == Be(A0(iv)) + i && Be(b) < Pow256(16) && Be(b) == Ctr.Later(Be(A0(iv)), i, 16)
  {
    hide Be, Pow256, Zeros;
    var l := FieldLen(iv);
    BeSplit(b[..16 - l], b[16 - l..]);
    assert b == b[..16 - l] + b[16 - l..];
    BeSplit(iv[..16 - l], Zeros(l));
    BeZeros(l);
    BeBound(b);
    Ctr.SmallMod(Be(b), Pow256(16));
  }

  /** Sections 2.3 and 2.4, byte by byte: byte i of the message has byte i of S_1, S_2, ... added, and byte j of the tag
      byte j of S_0, where S_k is the encryption of A_k. */
  lemma {:induction false} SealedAt(c: Cipher, iv: Block, m: nat, assoc: Bytes, plain: Bytes, i: nat, b: Block)
    requires c.bsize == 16 && ValidIv(iv) && ValidTag(m) && |assoc| < 0x1_0000_0000 && |plain| < 0x1_0000_0000
    ensures i < |plain| && IsA(iv, 1 + i / 16, b) ==>
      Sealed(c, iv, m, assoc, plain)[i] == Add(Enc(c, b)[i % 16], plain[i])
    ensures i < m && IsA(iv, 0, b) ==>
      Sealed(c, iv, m, assoc, plain)[|plain| + i] == Add(Enc(c, b)[i], FullMac(c, iv, m, assoc, plain)[i])
  {
    hide FullMac, Enc, Add, Be, A0, Ctr.Crypted, Ctr.Later;
    var mac := FullMac(c, iv, m, assoc, plain);
    if i < |plain| && IsA(iv, 1 + i / 16, b) {
      CounterOf(iv, 1 + i / 16, b);
      Ctr.OneMore(16 + i, 16);
      Ctr.CryptedAt(c, A0(iv), mac + plain, 16 + i, b);
    }
    if i < m && IsA(iv, 0, b) {
      CounterOf(iv, 0, b);
      assert i / 16 == 0 && i % 16 == i;
      Ctr.CryptedAt(c, A0(iv), mac + plain, i, b);
    }
  }

  datatype Result = Ok(plain: Bytes) | Err(code: int)

  /** What decryption answers. The tag goes through the cipher in a buffer of a whole block, with anything behind it, and
      the MAC is computed with the IV that the counter mode leaves. */
  function Opened(c: Cipher, iv: Block, m: nat, assoc: Bytes, sealed: Bytes, junk: Bytes): Result
    requires c.bsize == 16 && ValidTag(m) && |assoc| < 0x1_0000_0000 && |sealed| < 0x1_0000_0000 && |junk| == 16 - m
  {
    if |sealed| < m || !ValidIv(iv) then Err(-EINVAL)
    else
      var n := |sealed| - m;
      var input := sealed[n..] + junk + sealed[..n];
      var out := Ctr.Crypted(c, A0(iv), input);
      var iv' := Ctr.Counted(c, A0(iv), input);
      IvStaysValid(c, iv, input);
      if Overflows(n, FieldLen(iv')) then Err(-EOVERFLOW)
      else
        if FullMac(c, iv', m, assoc, out[16..])[..m] == out[..m] then Ok(out[16..]) else Err(-EBADMSG)
  }

  /** The first block carries the tag, the rest the message. */
  lemma {:induction false} FirstBlock(c: Cipher, ctr: Bytes, t: Bytes, data: Bytes)
    requires c.bsize == 16 == |ctr| == |t|
    ensures (var out := Ctr.Crypted(c, ctr, t + data);
             out[..16] == Xor(Enc(c, ctr), t) && out[16..] == Ctr.Crypted(c, Inc(ctr), data))
  {}

  /** Two blocks that begin alike keep doing so when the keystream is added, and adding it again undoes it. */
  lemma {:induction false} TagBack(s: Bytes, t: Bytes, junk: Bytes, m: nat)
    requires |s| == |t| == 16 && m <= 16 && |junk| == 16 - m
    ensures Xor(s, Xor(s, t)[..m] + junk)[..m] == t[..m]
  {}

  /** Decryption of what was encrypted returns the plaintext and accepts the tag, for every message the code accepts. */
  lemma {:induction false} OpenSealed(c: Cipher, iv: Block, m: nat, assoc: Bytes, plain: Bytes, junk: Bytes)
    requires c.bsize == 16 && ValidIv(iv) && ValidTag(m) && |assoc| < 0x1_0000_0000 && |plain| + m < 0x1_0000_0000
    requires !Overflows(|plain|, FieldLen(iv)) && |junk| == 16 - m
    ensures Opened(c, iv, m, assoc, Sealed(c, iv, m, assoc, plain), junk) == Ok(plain)
  {
    hide Ctr.Crypted, Ctr.Counted, FullMac, Xor, Enc, Inc, Overflows;
    var a := A0(iv);
    var mac := FullMac(c, iv, m, assoc, plain);
    var n := |plain|;
    FirstBlock(c, a, mac, plain);
    var k := Enc(c, a);
    var body := Ctr.Crypted(c, Inc(a), plain);
    var sealed := Sealed(c, iv, m, assoc, plain);
    var out0 := Ctr.Crypted(c, a, mac + plain);
    assert out0[..m] == out0[..16][..m];
    assert sealed[..n] == body && sealed[n..] == Xor(k, mac)[..m];
    var u := sealed[n..] + junk;
    FirstBlock(c, a, u, body);
    Ctr.CryptInverts(c, Inc(a), plain);
    TagBack(k, mac, junk, m);
    NonceKept(c, iv, u + body);
    MacOfNonce(c, iv, Ctr.Counted(c, a, u + body), m, assoc, plain);
    var out := Ctr.Crypted(c, a, u + body);
    assert out[..m] == out[..16][..m];
  }

  lemma {:induction false} TagForth(s: Bytes, t: Bytes, u: Bytes, m: nat)
    requires |s| == |t| == |u| == 16 && m <= 16 && t[..m] == Xor(s, u)[..m]
    ensures Xor(s, t)[..m] == u[..m]
  {
    hide Xor;
    XorUndone(u, s);
    forall i | 0 <= i < m ensures Xor(s, t)[i] == u[i] {
      assert t[i] == t[..m][i] == Xor(s, u)[..m][i] == Xor(s, u)[i];
      XorAt(s, t, i);
      XorAt(s, Xor(s, u), i);
    }
  }

  /** What decryption accepts was encrypted: it is the one message that encryption makes of the plaintext it returns. */
  lemma {:induction false} SealedOnly(c: Cipher, iv: Block, m: nat, assoc: Bytes, sealed: Bytes, junk: Bytes)
    requires c.bsize == 16 && ValidIv(iv) && ValidTag(m) && |assoc| < 0x1_0000_0000 && m <= |sealed| < 0x1_0000_0000
    requires !Overflows(|sealed| - m, FieldLen(iv)) && |junk| == 16 - m
    ensures var r := Opened(c, iv, m, assoc, sealed, junk);
      r.Ok? ==> |r.plain| == |sealed| - m && sealed == Sealed(c, iv, m, assoc, r.plain)
  {
    hide Ctr.Crypted, Ctr.Counted, FullMac, Xor, Enc, Inc, Overflows;
    var r := Opened(c, iv, m, assoc, sealed, junk);
    if r.Ok? {
      var a, n := A0(iv), |sealed| - m;
      var u, body := sealed[n..] + junk, sealed[..n];
      FirstBlock(c, a, u, body);
      assert u + body == sealed[n..] + junk + sealed[..n];
      NonceKept(c, iv, u + body);
      MacOfNonce(c, iv, Ctr.Counted(c, a, u + body), m, assoc, r.plain);
      var k, mac := Enc(c, a), FullMac(c, iv, m, assoc, r.plain);
      var out := Ctr.Crypted(c, a, u + body);
      assert out[..m] == out[..16][..m];
      TagForth(k, mac, u, m);
      FirstBlock(c, a, mac, r.plain);
      Ctr.CryptInverts(c, Inc(a), body);
      var out' := Ctr.Crypted(c, a, mac + r.plain);
      assert out'[..m] == out'[..16][..m] && u[..m] == sealed[n..];
      assert sealed == body + sealed[n..];
    }
  }

  /** So decryption accepts exactly what encryption sends. */
  lemma {:induction false} AcceptsExactly(c: Cipher, iv: Block, m: nat, assoc: Bytes, plain: Bytes, sealed: Bytes, junk: Bytes)
    requires c.bsize == 16 && ValidIv(iv) && ValidTag(m) && |assoc| < 0x1_0000_0000 && |plain| + m == |sealed| < 0x1_0000_0000
    requires !Overflows(|plain|, FieldLen(iv)) && |junk| == 16 - m
    ensures Opened(c, iv, m, assoc, sealed, junk) == Ok(plain) <==> sealed == Sealed(c, iv, m, assoc, plain)
  {
    hide Opened, Sealed, Overflows;
    OpenSealed(c, iv, m, assoc, plain, junk);
    SealedOnly(c, iv, m, assoc, sealed, junk);
  }

  // ---------------------------------------------------------------- the code

  function Concat(pieces: seq<Bytes>): Bytes {
    if pieces == [] then [] else Concat(pieces[..|pieces| - 1]) + pieces[|pieces| - 1]
  }

  /** set_msg_len on the l bytes at the end of a block */
  method SetMsgLen(block: array<Byte>, n: nat, l: nat) returns (err: int)
    requires block.Length == 16 && n < 0x1_0000_0000 && 2 <= l <= 8
    modifies block
    ensures err == if Overflows(n, l) then -EOVERFLOW else 0
    ensures err == 0 ==> block[..] == Put(old(block[..]), 16 - l, LenField(n, l))
  {
    hide Put, Be32, Pow256;
    Pow256Four();
    ghost var b := block[..];
    Copy(block, 16 - l, Zeros(l));
    var csize := l;
    if csize >= 4 {
      csize := 4;
    } else if n > (if csize == 2 then 0x1_0000 else 0x100_0000) {
      return -EOVERFLOW;
    }
    Copy(block, 16 - csize, Be32(n)[4 - csize..]);
    PutEnd(b, l, Be32(n)[4 - csize..]);
    assert Be32(n)[0..] == Be32(n) && Zeros(0) + Be32(n)[4 - csize..] == Be32(n)[4 - csize..];
    err := 0;
  }

  lemma {:induction false} PutEnd(b: Bytes, l: nat, d: Bytes)
    requires |d| <= l <= |b|
    ensures Put(Put(b, |b| - l, Zeros(l)), |b| - |d|, d) == Put(b, |b| - l, Zeros(l - |d|) + d)
  {
  }

  /** The request context: the MAC so far, a block that is filling up, and how far it is filled. */
  class Pctx {
    const c: Cipher
    const odata: array<Byte>
    const idata: array<Byte>
    var ilen: nat

    ghost predicate Shape()
      reads this
    {
      c.bsize == 16 && odata.Length == 16 && idata.Length == 16 && odata != idata && ilen < 16
    }

    constructor (c: Cipher)
      requires c.bsize == 16
      ensures Shape() && this.c == c && fresh(odata) && fresh(idata)
    {
      this.c := c;
      odata := new Byte[16](_ => ZERO);
      idata := new Byte[16](_ => ZERO);
      ilen := 0;
    }

    /** What has been fed in since the MAC was x. */
    ghost predicate Fed(x: Block, seen: Bytes)
      reads this, odata, idata
      requires Shape()
    {
      Stands(c, x, seen, odata[..], idata[..ilen])
    }

    /** crypto_xor and crypto_cipher_encrypt_one on odata */
    method Absorb(b: Block)
      requires Shape()
      modifies odata
      ensures odata[..] == Step(c, old(odata[..]), b)
    {
      hide Put, Xor, Enc;
      ghost var o := odata[..];
      CryptoXor(odata, 0, b);
      PutAll(o, Xor(o, b));
      var y := Enc(c, odata[..]);
      Copy(odata, 0, y);
      PutAll(Xor(o, b), y);
    }

    /** The rest of a piece that does not fill a block. */
    method Keep(d: Bytes, ghost x: Block, ghost seen: Bytes)
      requires Shape() && ilen + |d| < 16 && Fed(x, seen)
      modifies this, idata
      ensures Shape() && Fed(x, seen + d)
    {
      hide Put, Stands;
      StandsMore(c, x, seen, odata[..], idata[..ilen], d);
      ghost var i := idata[..];
      Copy(idata, ilen, d);
      PutFront(i, ilen, d);
      assert idata[..ilen + |d|] == idata[..][..ilen + |d|] && i[..ilen] == old(idata[..ilen]);
      ilen := ilen + |d|;
    }

    /** A piece that fills the pending block. */
    method Fill(d: Bytes, ghost x: Block, ghost seen: Bytes)
      requires Shape() && ilen + |d| == 16 && Fed(x, seen)
      modifies this, odata, idata
      ensures Shape() && ilen == 0 && Fed(x, seen + d)
    {
      hide Put, Stands, Step;
      StandsBlock(c, x, seen, odata[..], idata[..ilen], d);
      ghost var i, o, n := idata[..], odata[..], ilen;
      Copy(idata, ilen, d);
      PutFront(i, ilen, d);
      assert idata[..] == idata[..][..n + |d|] && i[..n] == old(idata[..ilen]);
      Absorb(idata[..]);
      ilen := 0;
      assert idata[..ilen] == [];
    }

    /** A whole block while none is pending. */
    method Whole(d: Block, ghost x: Block, ghost seen: Bytes)
      requires Shape() && ilen == 0 && Fed(x, seen)
      modifies odata
      ensures Fed(x, seen + d)
    {
      hide Stands, Step;
      assert idata[..ilen] == [] && [] + d == d;
      StandsBlock(c, x, seen, odata[..], [], d);
      Absorb(d);
    }

    /** compute_mac */
    method ComputeMac(piece: Bytes, ghost x: Block, ghost seen: Bytes)
      requires Shape() && Fed(x, seen)
      modifies this, odata, idata
      ensures Shape() && Fed(x, seen + piece)
    {
      hide Stands;
      var data := piece;
      ghost var all := seen + piece;
      ghost var fed := seen;
      var getlen := 16 - ilen;
      if |data| >= getlen {
        Fill(data[..getlen], x, fed);
        fed := fed + data[..getlen];
        data := data[getlen..];
        assert fed + data == all;
      }
      while |data| >= 16
        invariant Shape() && Fed(x, fed) && fed + data == all && (ilen == 0 || ilen + |data| < 16)
      {
        Whole(data[..16], x, fed);
        fed := fed + data[..16];
        data := data[16..];
        assert fed + data == all;
      }
      if |data| > 0 {
        Keep(data, x, fed);
      } else {
        assert fed == all;
      }
    }

    /** get_data_to_compute: all the pieces of a scatterlist, and zeros to fill the last block */
    method GetDataToCompute(pieces: seq<Bytes>, ghost x: Block, ghost seen: Bytes)
      requires Shape() && Fed(x, seen)
      modifies this, odata, idata
      ensures Shape() && ilen == 0 && odata[..] == Mac(c, x, seen + Concat(pieces))
    {
      hide Stands, Mac, Step, Put;
      var i := 0;
      assert seen + Concat(pieces[..0]) == seen;
      while i < |pieces|
        invariant 0 <= i <= |pieces| && Shape() && Fed(x, seen + Concat(pieces[..i]))
      {
        ConcatNext(pieces, i, seen);
        ComputeMac(pieces[i], x, seen + Concat(pieces[..i]));
        i := i + 1;
      }
      assert pieces[..i] == pieces;
      StandsDone(c, x, seen + Concat(pieces), odata[..], idata[..ilen]);
      if ilen != 0 {
        ghost var d := idata[..];
        Copy(idata, ilen, Zeros(16 - ilen));
        PutFront(d, ilen, Zeros(16 - ilen));
        assert idata[..] == idata[..][..16];
        Absorb(idata[..]);
        ilen := 0;
      }
    }

    /** format_input: the IV with the flags or-ed in and the length written over the counter */
    method FormatInput(iv: Block, m: nat, adata: bool, n: nat) returns (err: int)
      requires Shape() && ValidIv(iv) && ValidTag(m) && n < 0x1_0000_0000
      modifies odata
      ensures err == if Overflows(n, FieldLen(iv)) then -EOVERFLOW else 0
      ensures err == 0 ==> odata[..] == B0(iv, m, adata, n)
    {
      hide Put, LenField, Overflows, ByteOf;
      var l := FieldLen(iv);
      ghost var o := odata[..];
      Copy(odata, 0, iv);
      PutAll(o, iv);
      var lp, mp := iv[0].v, ByteOf((m - 2) / 2).v;
      SmallBits(iv[0], m);
      FlagsOr(lp, mp);
      odata[0] := Byte(lp | (mp << 3));
      if adata { odata[0] := Byte(odata[0].v | 64); }
      ghost var flags := Flags(lp, mp, adata);
      assert odata[..] == [flags] + iv[1..];
      err := SetMsgLen(odata, n, l);
      InputParts(iv, flags, LenField(n, l), l);
    }

    /** format_adata writes the length of the additional data at the front of the pending block. */
    method FormatAdata(a: nat, ghost x: Block)
      requires Shape() && a < 0x1_0000_0000 && odata[..] == x
      modifies this, idata
      ensures Shape() && Fed(x, AdataHead(a))
    {
      hide Put, AdataHead, Stands;
      ghost var i := idata[..];
      Copy(idata, 0, AdataHead(a));
      PutFront(i, 0, AdataHead(a));
      ilen := if a < 65280 then 2 else 6;
      assert idata[..ilen] == idata[..][..0 + |AdataHead(a)|] && i[..0] + AdataHead(a) == AdataHead(a);
      StandsNew(c, x, AdataHead(a));
    }

    /** crypto_ccm_auth: for every way the data is scattered, odata ends up as the CBC-MAC of RFC 3610. */
    method Auth(iv: Block, m: nat, assoc: seq<Bytes>, plain: seq<Bytes>) returns (err: int)
      requires Shape() && ValidIv(iv) && ValidTag(m)
      requires |Concat(assoc)| < 0x1_0000_0000 && |Concat(plain)| < 0x1_0000_0000
      modifies this, odata, idata
      ensures Shape() && err == if Overflows(|Concat(plain)|, FieldLen(iv)) then -EOVERFLOW else 0
      ensures err == 0 ==> odata[..] == FullMac(c, iv, m, Concat(assoc), Concat(plain))
    {
      hide Mac, B0, Stands, AdataHead, Overflows, Enc, Put, Concat;
      var a, n := Concat(assoc), Concat(plain);
      err := FormatInput(iv, m, a != [], |n|);
      if err != 0 { return; }
      ghost var o := odata[..];
      var y := Enc(c, odata[..]);
      Copy(odata, 0, y);
      PutAll(o, y);
      if a != [] {
        FormatAdata(|a|, y);
        GetDataToCompute(assoc, y, AdataHead(|a|));
      } else {
        ilen := 0;
      }
      ghost var x := odata[..];
      StandsNew(c, x, []);
      assert idata[..ilen] == [];
      GetDataToCompute(plain, x, []);
      assert [] + n == n;
    }
  }

  lemma {:induction false} SmallBits(b: Byte, m: nat)
    requires 1 <= Value(b) <= 7 && ValidTag(m)
    ensures b.v <= 7 && ByteOf((m - 2) / 2).v <= 7
  {
    ByteRound((m - 2) / 2);
    SmallByte(b.v);
    SmallByte(ByteOf((m - 2) / 2).v);
  }

  lemma {:induction false} SmallByte(v: bv8)
    ensures v as int <= 7 ==> v <= 7
  {
  }

  lemma {:induction false} InputParts(iv: Block, flags: Byte, f: Bytes, l: nat)
    requires |f| == l && 2 <= l <= 8
    ensures Put([flags] + iv[1..], 16 - l, f) == [flags] + iv[1..16 - l] + f
  {}

  lemma {:induction false} PutFront(s: Bytes, p: nat, d: Bytes)
    requires p + |d| <= |s|
    ensures Put(s, p, d)[..p + |d|] == s[..p] + d
  {
  }

  lemma {:induction false} ConcatNext(pieces: seq<Bytes>, i: nat, seen: Bytes)
    requires i < |pieces|
    ensures (seen + Concat(pieces[..i])) + pieces[i] == seen + Concat(pieces[..i + 1])
  {
    assert pieces[..i + 1][..i] == pieces[..i];
  }

  /** memset(iv + 15 - iv[0], 0, iv[0] + 1) */
  method ZeroCounter(iv: array<Byte>)
    requires iv.Length == 16 && ValidIv(iv[..])
    modifies iv
    ensures iv[..] == A0(old(iv[..]))
  {
    ghost var v := iv[..];
    var l := FieldLen(iv[..]);
    Copy(iv, 16 - l, Zeros(l));
    assert v[16 - l + l..] == [];
  }

  /** crypto_ccm_encrypt */
  method Encrypt(c: Cipher, iv: array<Byte>, m: nat, assoc: seq<Bytes>, src: seq<Bytes>) returns (err: int, out: Bytes)
    requires c.bsize == 16 && iv.Length == 16 && ValidTag(m)
    requires |Concat(assoc)| < 0x1_0000_0000 && |Concat(src)| + 16 < 0x1_0000_0000
    modifies iv
    ensures !ValidIv(old(iv[..])) ==> err == -EINVAL
    ensures ValidIv(old(iv[..])) && Overflows(|Concat(src)|, FieldLen(old(iv[..]))) ==> err == -EOVERFLOW
    ensures ValidIv(old(iv[..])) && !Overflows(|Concat(src)|, FieldLen(old(iv[..]))) ==> err == 0
    ensures err == 0 ==> ValidIv(old(iv[..])) && out == Sealed(c, old(iv[..]), m, Concat(assoc), Concat(src))
  {
    hide FullMac, Overflows, A0, Ctr.Crypted, Ctr.Counted, Concat;
    out := [];
    if !(1 <= Value(iv[0]) <= 7) { return -EINVAL, out; }
    var pctx := new Pctx(c);
    err := pctx.Auth(iv[..], m, assoc, src);
    if err != 0 { return; }
    ZeroCounter(iv);
    var buf := NewArray(pctx.odata[..] + Concat(src));
    Ctr.CryptSame(c, buf, iv);
    out := buf[16..] + buf[..m];
    assert buf[16..] == buf[..][16..] && buf[..m] == buf[..][..m];
  }

  /** crypto_ccm_decrypt; the destination may be scattered in any way */
  method Decrypt(c: Cipher, iv: array<Byte>, m: nat, assoc: seq<Bytes>, sealed: Bytes, junk: Bytes, cut: Bytes -> seq<Bytes>)
    returns (r: Result)
    requires c.bsize == 16 && iv.Length == 16 && ValidTag(m) && |junk| == 16 - m
    requires |Concat(assoc)| < 0x1_0000_0000 && |sealed| < 0x1_0000_0000 && |sealed| - m + 16 < 0x1_0000_0000
    requires forall x {:trigger cut(x)} :: Concat(cut(x)) == x
    modifies iv
    ensures r == Opened(c, old(iv[..]), m, Concat(assoc), sealed, junk)
  {
    hide FullMac, Overflows, A0, Ctr.Crypted, Ctr.Counted, Concat;
    if |sealed| < m { return Err(-EINVAL); }
    var n := |sealed| - m;
    if !(1 <= Value(iv[0]) <= 7) { return Err(-EINVAL); }
    ghost var iv0 := iv[..];
    ZeroCounter(iv);
    var input := sealed[n..] + junk + sealed[..n];
    var buf := NewArray(input);
    Ctr.CryptSame(c, buf, iv);
    IvStaysValid(c, iv0, input);
    var plain := buf[16..];
    assert plain == buf[..][16..] && buf[..m] == buf[..][..m];
    var pctx := new Pctx(c);
    var err := pctx.Auth(iv[..], m, assoc, cut(plain));
    if err != 0 { return Err(err); }
    assert pctx.odata[..m] == pctx.odata[..][..m];
    r := if buf[..m] == pctx.odata[..m] then Ok(plain) else Err(-EBADMSG);
  }
}
