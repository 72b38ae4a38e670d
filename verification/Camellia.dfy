/**
  The Camellia block cipher of crypto/camellia.c: the subkey absorption done by the
  key setup, and the encryption and decryption that run on the absorbed schedule.

  The four combined S-box tables stay uninterpreted: every statement holds for any tables.
 */
module Camellia {

  // ---------------------------------------------------------------- words and halves

  function Rol1(x: bv32): bv32 { (x << 1) | (x >> 31) }
  function Rol8(x: bv32): bv32 { (x << 8) | (x >> 24) }
  function Ror8(x: bv32): bv32 { (x >> 8) | (x << 24) }

  function Xor32(x: bv32, y: bv32): bv32 { x ^ y }
  function And32(x: bv32, y: bv32): bv32 { x & y }
  function Or32(x: bv32, y: bv32): bv32 { x | y }

  /** A 64-bit half block or subkey, kept as the left and right words of the source. */
  datatype Half = Half(l: bv32, r: bv32) {
    function Xor(o: Half): Half { Half(Xor32(l, o.l), Xor32(r, o.r)) }
  }

  /** The working block: d1 is io[0], io[1] and d2 is io[2], io[3]. */
  datatype Block = Block(d1: Half, d2: Half) {
    function Swap(): Block { Block(d2, d1) }
  }

  datatype Tables = Tables(sp1110: bv8 -> bv32, sp0222: bv8 -> bv32, sp3033: bv8 -> bv32, sp4404: bv8 -> bv32)

  function Byte0(x: bv32): bv8 { (x & 0xFF) as bv8 }
  function Byte1(x: bv32): bv8 { ((x >> 8) & 0xFF) as bv8 }
  function Byte2(x: bv32): bv8 { ((x >> 16) & 0xFF) as bv8 }
  function Byte3(x: bv32): bv8 { ((x >> 24) & 0xFF) as bv8 }

  lemma Xor32Cancels(a: bv32, b: bv32)
    ensures Xor32(Xor32(a, b), b) == a
  {}

  lemma XorCancels(a: Half, b: Half)
    ensures a.Xor(b).Xor(b) == a
  {
    hide Xor32;
    Xor32Cancels(a.l, b.l);
    Xor32Cancels(a.r, b.r);
  }

  // ---------------------------------------------------------------- the plain cipher (RFC 3713, section 2.3)

  /** The S-box layer: the two words that the P-function then mixes. */
  function SLayer(tb: Tables, x: Half): Half {
    Half(Xor32(Xor32(Xor32(tb.sp1110(Byte3(x.l)), tb.sp0222(Byte2(x.l))), tb.sp3033(Byte1(x.l))), tb.sp4404(Byte0(x.l))),
         Xor32(Xor32(Xor32(tb.sp1110(Byte0(x.r)), tb.sp0222(Byte3(x.r))), tb.sp3033(Byte2(x.r))), tb.sp4404(Byte1(x.r))))
  }

  /** The last half of the P-function. */
  function PHalf(x: Half): Half {
    var l := Xor32(x.l, x.r);
    Half(l, Xor32(Ror8(x.l), l))
  }

  /** The macro CAMELLIA_F. */
  function F(tb: Tables, x: Half, k: Half): Half {
    PHalf(SLayer(tb, x.Xor(k)))
  }

  /** The two word steps that FL and its inverse are made of: each changes x only. */
  function AndRol(x: bv32, y: bv32, k: bv32): bv32 { Xor32(x, Rol1(And32(y, k))) }
  function OrIn(x: bv32, y: bv32, k: bv32): bv32 { Xor32(x, Or32(y, k)) }

  function FL(x: Half, k: Half): Half {
    var r := AndRol(x.r, x.l, k.l);
    Half(OrIn(x.l, r, k.r), r)
  }

  function FLInv(x: Half, k: Half): Half {
    var l := OrIn(x.l, x.r, k.r);
    Half(l, AndRol(x.r, l, k.l))
  }

  /** Two Feistel rounds with subkeys s[j] and s[j+1]. */
  function PlainPair(tb: Tables, s: seq<Half>, j: nat, b: Block): Block
    requires j + 1 < |s|
  {
    var d2 := b.d2.Xor(F(tb, b.d1, s[j]));
    Block(b.d1.Xor(F(tb, d2, s[j + 1])), d2)
  }

  function PlainSix(tb: Tables, s: seq<Half>, i: nat, b: Block): Block
    requires i + 7 < |s|
  {
    PlainPair(tb, s, i + 6, PlainPair(tb, s, i + 4, PlainPair(tb, s, i + 2, b)))
  }

  function PlainFL(s: seq<Half>, i: nat, b: Block): Block
    requires i + 1 < |s|
  {
    Block(FL(b.d1, s[i]), FLInv(b.d2, s[i + 1]))
  }

  /** The rounds from group g on: six rounds, then an FL layer and the next group. */
  function PlainRounds(tb: Tables, s: seq<Half>, g: nat, n: nat, b: Block): Block
    requires g < n && 8 * n < |s|
    decreases n - g
  {
    var b1 := PlainSix(tb, s, 8 * g, b);
    if g + 1 == n then b1 else PlainRounds(tb, s, g + 1, n, PlainFL(s, 8 * g + 8, b1))
  }

  /** Whitening with kw1, kw2; the rounds; whitening with kw3, kw4; the halves exchanged. */
  function PlainEncrypt(tb: Tables, s: seq<Half>, n: nat, b: Block): Block
    requires 0 < n && |s| == 8 * n + 2
  {
    var b1 := PlainRounds(tb, s, 0, n, Block(b.d1.Xor(s[0]), b.d2.Xor(s[1])));
    Block(b1.d2.Xor(s[8 * n]), b1.d1.Xor(s[8 * n + 1]))
  }

  // ---------------------------------------------------------------- the fast cipher

  /** The macro CAMELLIA_ROUNDSM as a function: the new value of y. */
  function RoundSM(tb: Tables, x: Half, k: Half, y: Half): Half {
    y.Xor(PHalf(SLayer(tb, x).Xor(k)))
  }

  function FastPair(tb: Tables, k0: Half, k1: Half, b: Block): Block {
    var d2 := RoundSM(tb, b.d1, k0, b.d2);
    Block(RoundSM(tb, d2, k1, b.d1), d2)
  }

  function FastSix(tb: Tables, k: seq<Half>, i: nat, b: Block): Block
    requires i + 7 < |k|
  {
    FastPair(tb, k[i + 6], k[i + 7], FastPair(tb, k[i + 4], k[i + 5], FastPair(tb, k[i + 2], k[i + 3], b)))
  }

  function FastSixBack(tb: Tables, k: seq<Half>, i: nat, b: Block): Block
    requires i + 7 < |k|
  {
    FastPair(tb, k[i + 3], k[i + 2], FastPair(tb, k[i + 5], k[i + 4], FastPair(tb, k[i + 7], k[i + 6], b)))
  }

  /** The macro CAMELLIA_FLS as a function. */
  function Fls(kl: Half, kr: Half, b: Block): Block {
    Block(FL(b.d1, kl), FLInv(b.d2, kr))
  }

  function FastRounds(tb: Tables, k: seq<Half>, g: nat, n: nat, b: Block): Block
    requires g < n && 8 * n < |k|
    decreases n - g
  {
    var b1 := FastSix(tb, k, 8 * g, b);
    if g + 1 == n then b1 else FastRounds(tb, k, g + 1, n, Fls(k[8 * g + 8], k[8 * g + 9], b1))
  }

  /** What camellia_do_encrypt leaves in io; n is 3 or 4, for max of 24 or 32. */
  function FastEncrypt(tb: Tables, k: seq<Half>, n: nat, b: Block): Block
    requires 0 < n && 8 * n < |k|
  {
    var b1 := FastRounds(tb, k, 0, n, Block(b.d1.Xor(k[0]), b.d2));
    Block(b1.d1, b1.d2.Xor(k[8 * n]))
  }

  function FastRoundsBack(tb: Tables, k: seq<Half>, n: nat, b: Block): Block
    requires 0 < n && 8 * n < |k|
    decreases n
  {
    var b1 := FastSixBack(tb, k, 8 * n - 8, b);
    if n == 1 then b1 else FastRoundsBack(tb, k, n - 1, Fls(k[8 * n - 7], k[8 * n - 8], b1))
  }

  /** What camellia_do_decrypt leaves in io. */
  function FastDecrypt(tb: Tables, k: seq<Half>, n: nat, b: Block): Block
    requires 0 < n && 8 * n < |k|
  {
    var b1 := FastRoundsBack(tb, k, n, Block(b.d1.Xor(k[8 * n]), b.d2));
    Block(b1.d1, b1.d2.Xor(k[0]))
  }

  // ---------------------------------------------------------------- decryption inverts encryption

  lemma RoundCancels(tb: Tables, x: Half, k: Half, y: Half)
    ensures RoundSM(tb, x, k, RoundSM(tb, x, k, y)) == y
  {
    hide PHalf, SLayer;
    XorCancels(y, PHalf(SLayer(tb, x).Xor(k)));
  }

  lemma PairInverse(tb: Tables, k0: Half, k1: Half, b: Block)
    ensures FastPair(tb, k1, k0, FastPair(tb, k0, k1, b).Swap()) == b.Swap()
  {
    hide RoundSM;
    var d2 := RoundSM(tb, b.d1, k0, b.d2);
    RoundCancels(tb, b.d1, k0, b.d2);
    RoundCancels(tb, d2, k1, b.d1);
  }

  lemma SixInverse(tb: Tables, k: seq<Half>, i: nat, b: Block)
    requires i + 7 < |k|
    ensures FastSixBack(tb, k, i, FastSix(tb, k, i, b).Swap()) == b.Swap()
  {
    hide FastPair;
    var b1 := FastPair(tb, k[i + 2], k[i + 3], b);
    var b2 := FastPair(tb, k[i + 4], k[i + 5], b1);
    PairInverse(tb, k[i + 2], k[i + 3], b);
    PairInverse(tb, k[i + 4], k[i + 5], b1);
    PairInverse(tb, k[i + 6], k[i + 7], b2);
  }

  lemma WordStepsCancel(x: bv32, y: bv32, k: bv32)
    ensures AndRol(AndRol(x, y, k), y, k) == x
    ensures OrIn(OrIn(x, y, k), y, k) == x
  {
    hide Xor32, And32, Or32, Rol1;
    Xor32Cancels(x, Rol1(And32(y, k)));
    Xor32Cancels(x, Or32(y, k));
  }

  lemma FLInvUndoesFL(x: Half, k: Half)
    ensures FLInv(FL(x, k), k) == x
  {
    hide AndRol, OrIn;
    var r := AndRol(x.r, x.l, k.l);
    WordStepsCancel(x.l, r, k.r);
    WordStepsCancel(x.r, x.l, k.l);
  }

  lemma FLUndoesFLInv(x: Half, k: Half)
    ensures FL(FLInv(x, k), k) == x
  {
    hide AndRol, OrIn;
    var l := OrIn(x.l, x.r, k.r);
    WordStepsCancel(x.r, l, k.l);
    WordStepsCancel(x.l, x.r, k.r);
  }

  lemma FlsInverse(kl: Half, kr: Half, b: Block)
    ensures Fls(kr, kl, Fls(kl, kr, b).Swap()) == b.Swap()
  {
    hide FL, FLInv;
    FLInvUndoesFL(b.d1, kl);
    FLUndoesFLInv(b.d2, kr);
  }

  /** Running back from n over what was run forward from g leaves the block at g. */
  lemma {:induction false} RoundsInverse(tb: Tables, k: seq<Half>, g: nat, n: nat, b: Block)
    requires g < n && 8 * n < |k|
    ensures FastRoundsBack(tb, k, n, FastRounds(tb, k, g, n, b).Swap())
         == if g == 0 then b.Swap() else FastRoundsBack(tb, k, g, Fls(k[8 * g + 1], k[8 * g], b.Swap()))
    decreases n - g
  {
    hide FastSix, FastSixBack, Fls;
    var b1 := FastSix(tb, k, 8 * g, b);
    SixInverse(tb, k, 8 * g, b);
    if g + 1 < n {
      RoundsInverse(tb, k, g + 1, n, Fls(k[8 * g + 8], k[8 * g + 9], b1));
      FlsInverse(k[8 * g + 8], k[8 * g + 9], b1);
    }
  }

  /** camellia_do_decrypt undoes camellia_do_encrypt, for every schedule and all tables;
      the callers exchange the halves of what either leaves in io. */
  lemma DecryptInvertsEncrypt(tb: Tables, k: seq<Half>, n: nat, b: Block)
    requires 0 < n && 8 * n < |k|
    ensures FastDecrypt(tb, k, n, FastEncrypt(tb, k, n, b).Swap()).Swap() == b
  {
    hide FastRounds, FastRoundsBack, Half.Xor;
    var b0 := Block(b.d1.Xor(k[0]), b.d2);
    var b1 := FastRounds(tb, k, 0, n, b0);
    XorCancels(b1.d2, k[8 * n]);
    RoundsInverse(tb, k, 0, n, b0);
    XorCancels(b.d1, k[0]);
  }

  lemma SixInverseBack(tb: Tables, k: seq<Half>, i: nat, b: Block)
    requires i + 7 < |k|
    ensures FastSix(tb, k, i, FastSixBack(tb, k, i, b).Swap()) == b.Swap()
  {
    hide FastPair;
    var b1 := FastPair(tb, k[i + 7], k[i + 6], b);
    var b2 := FastPair(tb, k[i + 5], k[i + 4], b1);
    PairInverse(tb, k[i + 7], k[i + 6], b);
    PairInverse(tb, k[i + 5], k[i + 4], b1);
    PairInverse(tb, k[i + 3], k[i + 2], b2);
  }

  /** The rounds from group 0 up to group m, forward over what was run back from m. */
  lemma {:induction false} RoundsInverseBack(tb: Tables, k: seq<Half>, m: nat, n: nat, b: Block)
    requires 0 < m <= n && 8 * n < |k|
    ensures FastRounds(tb, k, 0, n, FastRoundsBack(tb, k, m, b).Swap())
         == if m == n then b.Swap() else FastRounds(tb, k, m, n, Fls(k[8 * m], k[8 * m + 1], b.Swap()))
    decreases m
  {
    hide FastSix, FastSixBack, Fls;
    var b1 := FastSixBack(tb, k, 8 * m - 8, b);
    SixInverseBack(tb, k, 8 * m - 8, b);
    if m > 1 {
      RoundsInverseBack(tb, k, m - 1, n, Fls(k[8 * m - 7], k[8 * m - 8], b1));
      FlsInverse(k[8 * m - 7], k[8 * m - 8], b1);
    }
  }

  /** And the other way round. */
  lemma EncryptInvertsDecrypt(tb: Tables, k: seq<Half>, n: nat, b: Block)
    requires 0 < n && 8 * n < |k|
    ensures FastEncrypt(tb, k, n, FastDecrypt(tb, k, n, b).Swap()).Swap() == b
  {
    hide FastRounds, FastRoundsBack, Half.Xor;
    var b0 := Block(b.d1.Xor(k[8 * n]), b.d2);
    var b1 := FastRoundsBack(tb, k, n, b0);
    XorCancels(b1.d2, k[0]);
    RoundsInverseBack(tb, k, n, n, b0);
    XorCancels(b.d1, k[8 * n]);
  }

  // ---------------------------------------------------------------- key constants pushed through a layer

  function AndNotIn(x: bv32, y: bv32, k: bv32): bv32 { Xor32(x, And32(y, !k)) }

  /** What a constant xored in before FLInv(k), or wanted after FL(k), becomes on the other side. */
  function Through(k: Half, x: Half): Half {
    var l := AndNotIn(x.l, x.r, k.r);
    Half(l, AndRol(x.r, l, k.l))
  }

  /** The inverse of the last half of the P-function. */
  function PHalfInv(k: Half): Half {
    var dw := Rol8(Xor32(k.l, k.r));
    Half(dw, Xor32(k.l, dw))
  }

  lemma AndDistributes(x: bv32, y: bv32, k: bv32)
    ensures And32(Xor32(x, y), k) == Xor32(And32(x, k), And32(y, k))
  {
    calc {
      And32(Xor32(x, y), k);
      (x ^ y) & k;
      { AndBits(x, y, k); }
      (x & k) ^ (y & k);
      Xor32(And32(x, k), And32(y, k));
    }
  }

  lemma AndBits(x: bv32, y: bv32, k: bv32)
    ensures (x ^ y) & k == (x & k) ^ (y & k)
  {}

  lemma OrShifts(x: bv32, y: bv32, k: bv32)
    ensures Or32(Xor32(x, y), k) == Xor32(Or32(x, k), And32(y, !k))
  {
    calc {
      Or32(Xor32(x, y), k);
      (x ^ y) | k;
      { OrBits(x, y, k); }
      (x | k) ^ (y & !k);
      Xor32(Or32(x, k), And32(y, !k));
    }
  }

  lemma OrBits(x: bv32, y: bv32, k: bv32)
    ensures (x ^ y) | k == (x | k) ^ (y & !k)
  {}

  lemma Rol1Distributes(x: bv32, y: bv32)
    ensures Rol1(Xor32(x, y)) == Xor32(Rol1(x), Rol1(y))
  {}

  lemma Xor32Exchange(a: bv32, b: bv32, c: bv32, d: bv32)
    ensures Xor32(Xor32(a, b), Xor32(c, d)) == Xor32(Xor32(a, c), Xor32(b, d))
  {
    hide Xor32;
    Word3(Xor32(a, b), c, d);
    Word3(a, b, c);
    Word3(Xor32(a, c), b, d);
  }

  lemma OrInAffine(x: bv32, y: bv32, a: bv32, b: bv32, k: bv32)
    ensures OrIn(Xor32(x, a), Xor32(y, b), k) == Xor32(OrIn(x, y, k), AndNotIn(a, b, k))
  {
    hide Xor32, And32, Or32;
    OrShifts(y, b, k);
    Xor32Exchange(x, a, Or32(y, k), And32(b, !k));
  }

  lemma AndRolLinear(x: bv32, y: bv32, a: bv32, b: bv32, k: bv32)
    ensures AndRol(Xor32(x, a), Xor32(y, b), k) == Xor32(AndRol(x, y, k), AndRol(a, b, k))
  {
    hide Xor32, And32, Rol1;
    AndDistributes(y, b, k);
    Rol1Distributes(And32(y, k), And32(b, k));
    Xor32Exchange(x, a, Rol1(And32(y, k)), Rol1(And32(b, k)));
  }

  lemma AndNotInLinear(x: bv32, y: bv32, a: bv32, b: bv32, k: bv32)
    ensures AndNotIn(Xor32(x, a), Xor32(y, b), k) == Xor32(AndNotIn(x, y, k), AndNotIn(a, b, k))
  {
    hide Xor32, And32;
    AndDistributes(y, b, !k);
    Xor32Exchange(x, a, And32(y, !k), And32(b, !k));
  }

  lemma AndNotInCancels(x: bv32, y: bv32, k: bv32)
    ensures AndNotIn(AndNotIn(x, y, k), y, k) == x
  {
    hide Xor32, And32;
    Xor32Cancels(x, And32(y, !k));
  }

  lemma ThroughLinear(k: Half, x: Half, a: Half)
    ensures Through(k, x.Xor(a)) == Through(k, x).Xor(Through(k, a))
  {
    hide AndRol, AndNotIn, Xor32;
    AndNotInLinear(x.l, x.r, a.l, a.r, k.r);
    AndRolLinear(x.r, AndNotIn(x.l, x.r, k.r), a.r, AndNotIn(a.l, a.r, k.r), k.l);
  }

  /** FLInv turns a constant on its input into Through of it on its output. */
  lemma FLInvShifts(x: Half, a: Half, k: Half)
    ensures FLInv(x.Xor(a), k) == FLInv(x, k).Xor(Through(k, a))
  {
    hide AndRol, AndNotIn, OrIn, Xor32;
    OrInAffine(x.l, x.r, a.l, a.r, k.r);
    AndRolLinear(x.r, OrIn(x.l, x.r, k.r), a.r, AndNotIn(a.l, a.r, k.r), k.l);
  }

  /** FL turns Through of a constant on its input into the constant on its output. */
  lemma FLShifts(x: Half, a: Half, k: Half)
    ensures FL(x.Xor(Through(k, a)), k) == FL(x, k).Xor(a)
  {
    hide AndRol, AndNotIn, OrIn, Xor32;
    var tl := AndNotIn(a.l, a.r, k.r);
    AndRolLinear(x.r, x.l, AndRol(a.r, tl, k.l), tl, k.l);
    WordStepsCancel(a.r, tl, k.l);
    OrInAffine(x.l, AndRol(x.r, x.l, k.l), tl, a.r, k.r);
    AndNotInCancels(a.l, a.r, k.r);
  }

  lemma Ror8Distributes(x: bv32, y: bv32)
    ensures Ror8(Xor32(x, y)) == Xor32(Ror8(x), Ror8(y))
  {}

  lemma PHalfLinear(x: Half, y: Half)
    ensures PHalf(x.Xor(y)) == PHalf(x).Xor(PHalf(y))
  {
    hide Xor32, Ror8;
    Ror8Distributes(x.l, y.l);
    Xor32Exchange(x.l, y.l, x.r, y.r);
    Xor32Exchange(Ror8(x.l), Ror8(y.l), Xor32(x.l, x.r), Xor32(y.l, y.r));
  }

  lemma PHalfInvWords(l: bv32, r: bv32)
    ensures var dw := Rol8(Xor32(l, r)); Xor32(dw, Xor32(l, dw)) == l && Xor32(Ror8(dw), l) == r
  {
    hide Xor32, Rol8, Ror8;
    RotationsCancel(Xor32(l, r));
    var dw := Rol8(Xor32(l, r));
    Word3(l, r, l);
    Word3(dw, l, dw);
    Xor32Cancels(l, dw);
    Xor32Commutes(dw, l);
    Xor32Commutes(l, r);
    Xor32Cancels(r, l);
  }

  lemma RotationsCancel(x: bv32)
    ensures Ror8(Rol8(x)) == x
  {}

  lemma Xor32Commutes(x: bv32, y: bv32)
    ensures Xor32(x, y) == Xor32(y, x)
  {}

  lemma PHalfUndone(k: Half)
    ensures PHalf(PHalfInv(k)) == k
  {
    hide Rol8, Ror8, Xor32;
    PHalfInvWords(k.l, k.r);
  }

  lemma WordChain(y: bv32, off: bv32, f: bv32, off': bv32)
    ensures Xor32(Xor32(y, off), Xor32(f, Xor32(off, off'))) == Xor32(Xor32(y, f), off')
  {
    hide Xor32;
    Word3(Xor32(y, off), f, Xor32(off, off'));
    Word3(Xor32(y, off), Xor32(off, off'), f);
    Word3(Xor32(y, off), off, off');
    Word3(y, off, f);
    Xor32Cancels(y, off);
    Word3(y, off', f);
  }

  lemma XorChain(y: Half, off: Half, f: Half, off': Half)
    ensures y.Xor(off).Xor(f.Xor(off.Xor(off'))) == y.Xor(f).Xor(off')
  {
    hide Xor32;
    WordChain(y.l, off.l, f.l, off'.l);
    WordChain(y.r, off.r, f.r, off'.r);
  }

  // ---------------------------------------------------------------- the moved schedule encrypts like the plain one

  /** The subkey of slot i once each round key is xored in at the end of the round before it,
      written from the raw subkeys; kw2 and kw4 then remain only in the first and last rounds. */
  function Moved(s: seq<Half>, n: nat, i: nat): Half
    requires 0 < n && |s| == 8 * n + 2 && i <= 8 * n && i != 1
  {
    if i == 0 then s[0].Xor(s[2])
    else if i == 8 * n then s[8 * n].Xor(s[8 * n - 1])
    else if i % 8 <= 1 then s[i]
    else if i == 2 then s[1].Xor(s[3])
    else if i % 8 == 2 then Through(s[i - 1], s[i - 3]).Xor(s[i + 1])
    else if i == 8 * n - 1 then s[i - 1].Xor(s[8 * n + 1])
    else if i % 8 == 7 then s[i - 1].Xor(Through(s[i + 1], s[i + 3]))
    else s[i - 1].Xor(s[i + 1])
  }

  /** k is the finished schedule for the raw subkeys s. */
  ghost predicate IsSchedule(k: seq<Half>, s: seq<Half>, n: nat)
  {
    && 0 < n && |s| == 8 * n + 2 && 8 * n < |k|
    && forall i :: 0 <= i <= 8 * n && i != 1 ==>
         k[i] == if i == 8 * n || i % 8 <= 1 then Moved(s, n, i) else PHalfInv(Moved(s, n, i))
  }

  /** One round: if the fast half x already carries the round key and y carries off, then the new y carries off'. */
  lemma RoundSimulates(tb: Tables, x: Half, kx: Half, y: Half, off: Half, off': Half, k: Half)
    requires k == PHalfInv(off.Xor(off'))
    ensures RoundSM(tb, x.Xor(kx), k, y.Xor(off)) == y.Xor(F(tb, x, kx)).Xor(off')
  {
    hide SLayer, PHalf, PHalfInv, Half.Xor;
    var t := SLayer(tb, x.Xor(kx));
    PHalfLinear(t, k);
    PHalfUndone(off.Xor(off'));
    XorChain(y, off, PHalf(t), off');
  }

  /** The fast block f carries constants o1 and o2 on the two halves of the plain block p. */
  predicate Carries(p: Block, f: Block, o1: Half, o2: Half) {
    f.d1 == p.d1.Xor(o1) && f.d2 == p.d2.Xor(o2)
  }

  lemma PairSimulates(tb: Tables, s: seq<Half>, j: nat, p: Block, f: Block, o2: Half, o1': Half, k0: Half, k1: Half)
    requires j + 1 < |s| && Carries(p, f, s[j], o2)
    requires k0 == PHalfInv(o2.Xor(s[j + 1])) && k1 == PHalfInv(s[j].Xor(o1'))
    ensures Carries(PlainPair(tb, s, j, p), FastPair(tb, k0, k1, f), o1', s[j + 1])
  {
    hide RoundSM, F, PHalfInv, Half.Xor;
    RoundSimulates(tb, p.d1, s[j], p.d2, o2, s[j + 1], k0);
    var d2 := p.d2.Xor(F(tb, p.d1, s[j]));
    RoundSimulates(tb, d2, s[j + 1], p.d1, s[j], o1', k1);
  }

  /** The constant on d2 when group g starts, and on d1 when it ends. */
  function EnterOffset(s: seq<Half>, n: nat, g: nat): Half
    requires g < n && |s| == 8 * n + 2
  {
    if g == 0 then s[1] else Through(s[8 * g + 1], s[8 * g - 1])
  }

  function LeaveOffset(s: seq<Half>, n: nat, g: nat): Half
    requires g < n && |s| == 8 * n + 2
  {
    if g == n - 1 then s[8 * n + 1] else Through(s[8 * g + 8], s[8 * g + 10])
  }

  lemma GroupKeys(k: seq<Half>, s: seq<Half>, n: nat, g: nat)
    requires IsSchedule(k, s, n) && g < n
    ensures k[8 * g + 2] == PHalfInv(EnterOffset(s, n, g).Xor(s[8 * g + 3]))
    ensures forall i :: 8 * g + 3 <= i <= 8 * g + 6 ==> k[i] == PHalfInv(s[i - 1].Xor(s[i + 1]))
    ensures k[8 * g + 7] == PHalfInv(s[8 * g + 6].Xor(LeaveOffset(s, n, g)))
  {
    hide Through, PHalfInv, Half.Xor;
  }

  lemma SixSimulate(tb: Tables, k: seq<Half>, s: seq<Half>, n: nat, g: nat, p: Block, f: Block)
    requires IsSchedule(k, s, n) && g < n
    requires Carries(p, f, s[8 * g + 2], EnterOffset(s, n, g))
    ensures Carries(PlainSix(tb, s, 8 * g, p), FastSix(tb, k, 8 * g, f), LeaveOffset(s, n, g), s[8 * g + 7])
  {
    hide Moved, Carries, EnterOffset, LeaveOffset, FastPair, PlainPair, PHalfInv, Half.Xor;
    GroupKeys(k, s, n, g);
    var i := 8 * g;
    assert k[i + 3] == PHalfInv(s[i + 2].Xor(s[i + 4]));
    assert k[i + 4] == PHalfInv(s[i + 3].Xor(s[i + 5]));
    assert k[i + 5] == PHalfInv(s[i + 4].Xor(s[i + 6]));
    assert k[i + 6] == PHalfInv(s[i + 5].Xor(s[i + 7]));
    PairSimulates(tb, s, i + 2, p, f, EnterOffset(s, n, g), s[i + 4], k[i + 2], k[i + 3]);
    var p1, f1 := PlainPair(tb, s, i + 2, p), FastPair(tb, k[i + 2], k[i + 3], f);
    PairSimulates(tb, s, i + 4, p1, f1, s[i + 3], s[i + 6], k[i + 4], k[i + 5]);
    var p2, f2 := PlainPair(tb, s, i + 4, p1), FastPair(tb, k[i + 4], k[i + 5], f1);
    PairSimulates(tb, s, i + 6, p2, f2, s[i + 5], LeaveOffset(s, n, g), k[i + 6], k[i + 7]);
  }

  lemma FlsSimulates(k: seq<Half>, s: seq<Half>, n: nat, g: nat, p: Block, f: Block)
    requires IsSchedule(k, s, n) && g + 1 < n
    requires Carries(p, f, LeaveOffset(s, n, g), s[8 * g + 7])
    ensures Carries(PlainFL(s, 8 * g + 8, p), Fls(k[8 * g + 8], k[8 * g + 9], f), s[8 * g + 10], EnterOffset(s, n, g + 1))
  {
    hide FL, FLInv, Through, PHalfInv, Half.Xor;
    assert k[8 * g + 8] == s[8 * g + 8] && k[8 * g + 9] == s[8 * g + 9];
    FLShifts(p.d1, s[8 * g + 10], s[8 * g + 8]);
    FLInvShifts(p.d2, s[8 * g + 7], s[8 * g + 9]);
  }

  lemma {:induction false} RoundsSimulate(tb: Tables, k: seq<Half>, s: seq<Half>, n: nat, g: nat, p: Block, f: Block)
    requires IsSchedule(k, s, n) && g < n
    requires Carries(p, f, s[8 * g + 2], EnterOffset(s, n, g))
    ensures Carries(PlainRounds(tb, s, g, n, p), FastRounds(tb, k, g, n, f), s[8 * n + 1], s[8 * n - 1])
    decreases n - g
  {
    hide Carries, EnterOffset, Fls, PlainFL, PlainSix, FastSix, Through, Moved, PHalfInv;
    SixSimulate(tb, k, s, n, g, p, f);
    if g + 1 < n {
      var p1, f1 := PlainSix(tb, s, 8 * g, p), FastSix(tb, k, 8 * g, f);
      FlsSimulates(k, s, n, g, p1, f1);
      RoundsSimulate(tb, k, s, n, g + 1, PlainFL(s, 8 * g + 8, p1), Fls(k[8 * g + 8], k[8 * g + 9], f1));
    }
  }

  lemma XorMoves(y: Half, a: Half, b: Half)
    ensures y.Xor(a).Xor(b) == y.Xor(b).Xor(a)
    ensures y.Xor(a).Xor(b) == y.Xor(a.Xor(b))
  {
    hide Xor32;
    Word3(y.l, a.l, b.l);
    Word3(y.r, a.r, b.r);
  }

  lemma Word3(y: bv32, a: bv32, b: bv32)
    ensures Xor32(Xor32(y, a), b) == Xor32(Xor32(y, b), a)
    ensures Xor32(Xor32(y, a), b) == Xor32(y, Xor32(a, b))
  {}

  /** The schedule is correct: with it the fast code computes Camellia as RFC 3713 defines it. */
  lemma ScheduleEncrypts(tb: Tables, k: seq<Half>, s: seq<Half>, n: nat, b: Block)
    requires IsSchedule(k, s, n)
    ensures FastEncrypt(tb, k, n, b).Swap() == PlainEncrypt(tb, s, n, b)
  {
    hide PlainRounds, FastRounds, PHalfInv, Half.Xor, Through;
    var p, f := Block(b.d1.Xor(s[0]), b.d2.Xor(s[1])), Block(b.d1.Xor(k[0]), b.d2);
    assert k[0] == s[0].Xor(s[2]);
    XorMoves(b.d1, s[0], s[2]);
    XorCancels(b.d2, s[1]);
    RoundsSimulate(tb, k, s, n, 0, p, f);
    var p1, f1 := PlainRounds(tb, s, 0, n, p), FastRounds(tb, k, 0, n, f);
    assert k[8 * n] == s[8 * n].Xor(s[8 * n - 1]);
    XorChain(p1.d2, s[8 * n - 1], s[8 * n], s[8 * n]);
    LastWhitening(p1.d2, s[8 * n - 1], s[8 * n]);
  }

  lemma LastWhitening(y: Half, a: Half, b: Half)
    ensures y.Xor(a).Xor(b.Xor(a)) == y.Xor(b)
  {
    hide Half.Xor;
    XorMoves(y.Xor(a), b, a);
    XorMoves(y, a, b);
    XorCancels(y.Xor(b), a);
  }
}
