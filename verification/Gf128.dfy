/**
  Multiplication in GF(2^128) as crypto/gf128mul.c does it for GHASH (the "lle" convention): the bit string of sections 6.3
  and 6.4 of NIST SP 800-38D is held in two big-endian 64-bit words, and the coefficient of x^0 is the first bit.
 */
module Gf128 {
  import CryptoBytes

  type Byte = CryptoBytes.Byte
  type Bytes = CryptoBytes.Bytes

  datatype El = El(a: bv64, b: bv64)

  const ZERO: El := El(0, 0)

  function Xor64(a: bv64, b: bv64): bv64 { a ^ b }

  function Xor(e: El, f: El): El { El(Xor64(e.a, f.a), Xor64(e.b, f.b)) }

  /** The product with x, as in the definition of V in section 6.3: one step to the right, and R = 11100001 0...0 is added
      if a one fell off the end. */
  function MulX(e: El): El { El(StepA(e.a, e.b), StepB(e.a, e.b)) }

  function StepA(a: bv64, b: bv64): bv64 { if Odd(b) then Xor64(Shifted(a), R) else Shifted(a) }

  const R: bv64 := 0xe100_0000_0000_0000

  predicate Odd(b: bv64) { b & 1 != 0 }

  function Shifted(a: bv64): bv64 { a >> 1 }

  function StepB(a: bv64, b: bv64): bv64 { (b >> 1) | (a << 63) }

  /** The product with x^n. */
  function Pow(e: El, n: nat): El { if n == 0 then e else MulX(Pow(e, n - 1)) }

  /** gf128mul_table_lle[i] */
  function TableLle(i: bv64): bv64 {
    (if i & 0x80 != 0 then 0xe100 else 0) ^ (if i & 0x40 != 0 then 0x7080 else 0) ^
    (if i & 0x20 != 0 then 0x3840 else 0) ^ (if i & 0x10 != 0 then 0x1c20 else 0) ^
    (if i & 0x08 != 0 then 0x0e10 else 0) ^ (if i & 0x04 != 0 then 0x0708 else 0) ^
    (if i & 0x02 != 0 then 0x0384 else 0) ^ (if i & 0x01 != 0 then 0x01c2 else 0)
  }

  /** gf128mul_x_lle */
  function XLle(e: El): El {
    El(XLleA(e.a, e.b), StepB(e.a, e.b))
  }

  function XLleA(a: bv64, b: bv64): bv64 { Xor64(Shifted(a), Folded((b << 7) & 0xff)) }

  /** What the bits that fall off the end add at the front. */
  function Folded(i: bv64): bv64 { TableLle(i) << 48 }

  /** gf128mul_x8_lle */
  function X8Lle(e: El): El {
    El((e.a >> 8) ^ Folded(e.b & 0xff), (e.b >> 8) | (e.a << 56))
  }

  // ---------------------------------------------------------------- words

  lemma {:induction false} TestBits(b: bv64)
    ensures (b >> 0) & 1 == if b & 0x01 != 0 then 1 else 0
    ensures (b >> 1) & 1 == if b & 0x02 != 0 then 1 else 0
    ensures (b >> 2) & 1 == if b & 0x04 != 0 then 1 else 0
    ensures (b >> 3) & 1 == if b & 0x08 != 0 then 1 else 0
    ensures (b >> 4) & 1 == if b & 0x10 != 0 then 1 else 0
    ensures (b >> 5) & 1 == if b & 0x20 != 0 then 1 else 0
    ensures (b >> 6) & 1 == if b & 0x40 != 0 then 1 else 0
    ensures (b >> 7) & 1 == if b & 0x80 != 0 then 1 else 0
  {
  }

  lemma {:induction false} LowByte(b: bv64)
    ensures ((b & 0xff) >> 0) & 1 == (b >> 0) & 1
    ensures ((b & 0xff) >> 1) & 1 == (b >> 1) & 1
    ensures ((b & 0xff) >> 2) & 1 == (b >> 2) & 1
    ensures ((b & 0xff) >> 3) & 1 == (b >> 3) & 1
    ensures ((b & 0xff) >> 4) & 1 == (b >> 4) & 1
    ensures ((b & 0xff) >> 5) & 1 == (b >> 5) & 1
    ensures ((b & 0xff) >> 6) & 1 == (b >> 6) & 1
    ensures ((b & 0xff) >> 7) & 1 == (b >> 7) & 1
  {
  }

  lemma {:induction false} Select(x: bv64, v: bv64)
    requires x == 0 || x == 1
    ensures (0 - x) & v == if x == 0 then 0 else v
  {
  }

  lemma {:induction false} TopIndex(b: bv64)
    ensures (b << 7) & 0xff == if b & 1 != 0 then 0x80 else 0
  {
  }

  /** The table entry written with the bits of its index. */
  lemma {:induction false} TableBits(i: bv64)
    ensures TableLle(i) == ((0 - ((i >> 7) & 1)) & 0xe100) ^ ((0 - ((i >> 6) & 1)) & 0x7080) ^
                      ((0 - ((i >> 5) & 1)) & 0x3840) ^ ((0 - ((i >> 4) & 1)) & 0x1c20) ^
                      ((0 - ((i >> 3) & 1)) & 0x0e10) ^ ((0 - ((i >> 2) & 1)) & 0x0708) ^
                      ((0 - ((i >> 1) & 1)) & 0x0384) ^ ((0 - ((i >> 0) & 1)) & 0x01c2)
  {
    TestBits(i);
    Select((i >> 7) & 1, 0xe100);
    Select((i >> 6) & 1, 0x7080);
    Select((i >> 5) & 1, 0x3840);
    Select((i >> 4) & 1, 0x1c20);
    Select((i >> 3) & 1, 0x0e10);
    Select((i >> 2) & 1, 0x0708);
    Select((i >> 1) & 1, 0x0384);
    Select((i >> 0) & 1, 0x01c2);
  }

  /** One step on the words, without a branch. */
  predicate Stepped(a: bv64, b: bv64, a': bv64, b': bv64) {
    a' == (a >> 1) ^ ((0 - (b & 1)) & 0xe100_0000_0000_0000) && b' == (b >> 1) | (a << 63)
  }

  /** Four steps on the words. */
  predicate FourStepped(a: bv64, b: bv64, a': bv64, b': bv64) {
    && b' == (b >> 4) | (a << 60)
    && a' == (a >> 4) ^ ((((0 - ((b >> 3) & 1)) & 0xe100) ^ ((0 - ((b >> 2) & 1)) & 0x7080) ^
                            ((0 - ((b >> 1) & 1)) & 0x3840) ^ ((0 - ((b >> 0) & 1)) & 0x1c20)) << 48)
  }

  lemma {:induction false} FourSteps(a: bv64, b: bv64, a1: bv64, b1: bv64, a2: bv64, b2: bv64, a3: bv64, b3: bv64, a4: bv64, b4: bv64)
    requires Stepped(a, b, a1, b1) && Stepped(a1, b1, a2, b2) && Stepped(a2, b2, a3, b3) && Stepped(a3, b3, a4, b4)
    ensures FourStepped(a, b, a4, b4)
  {
  }

  lemma {:induction false} EightSteps(a: bv64, b: bv64, a4: bv64, b4: bv64, a8: bv64, b8: bv64)
    requires FourStepped(a, b, a4, b4) && FourStepped(a4, b4, a8, b8)
    ensures b8 == (b >> 8) | (a << 56)
    ensures a8 == (a >> 8) ^ ((((0 - ((b >> 7) & 1)) & 0xe100) ^ ((0 - ((b >> 6) & 1)) & 0x7080) ^
                            ((0 - ((b >> 5) & 1)) & 0x3840) ^ ((0 - ((b >> 4) & 1)) & 0x1c20) ^
                            ((0 - ((b >> 3) & 1)) & 0x0e10) ^ ((0 - ((b >> 2) & 1)) & 0x0708) ^
                            ((0 - ((b >> 1) & 1)) & 0x0384) ^ ((0 - ((b >> 0) & 1)) & 0x01c2)) << 48)
  {
  }

  lemma {:induction false} XorZero64(a: bv64)
    ensures a ^ 0 == a
  {
  }

  lemma {:induction false} LastBit(b: bv64)
    ensures b & 1 == if b & 1 != 0 then 1 else 0
  {
  }

  /** What a one that falls off adds, without a branch. */
  function Carry(b: bv64): bv64 { (0 - (b & 1)) & R }

  lemma {:induction false} CarryIs(b: bv64)
    ensures Carry(b) == if Odd(b) then R else 0
  {
    LastBit(b);
    Select(b & 1, R);
  }

  lemma {:induction false} StepForm(a: bv64, b: bv64)
    ensures StepA(a, b) == Xor64(Shifted(a), Carry(b))
  {
    hide Odd, Carry, Shifted;
    CarryIs(b);
    Zero64(Shifted(a));
  }

  lemma {:induction false} Zero64(a: bv64)
    ensures Xor64(a, 0) == a
  {
    XorZero64(a);
  }

  lemma {:induction false} StepWords(a: bv64, b: bv64)
    ensures Stepped(a, b, StepA(a, b), StepB(a, b))
  {
    hide StepA, Odd;
    StepForm(a, b);
  }

  /** The table entry for the low byte. */
  lemma {:induction false} TableLow(b: bv64)
    ensures TableLle(b & 0xff) ==
            ((0 - ((b >> 7) & 1)) & 0xe100) ^ ((0 - ((b >> 6) & 1)) & 0x7080) ^
               ((0 - ((b >> 5) & 1)) & 0x3840) ^ ((0 - ((b >> 4) & 1)) & 0x1c20) ^
               ((0 - ((b >> 3) & 1)) & 0x0e10) ^ ((0 - ((b >> 2) & 1)) & 0x0708) ^
               ((0 - ((b >> 1) & 1)) & 0x0384) ^ ((0 - ((b >> 0) & 1)) & 0x01c2)
  {
    hide TableLle;
    TableBits(b & 0xff);
    LowByte(b);
  }

  lemma {:induction false} EightWords(a: bv64, b: bv64, a4: bv64, b4: bv64, a8: bv64, b8: bv64)
    requires FourStepped(a, b, a4, b4) && FourStepped(a4, b4, a8, b8)
    ensures El(a8, b8) == X8Lle(El(a, b))
  {
    hide TableLle, FourStepped;
    TableLow(b);
    EightSteps(a, b, a4, b4, a8, b8);
  }

  lemma {:induction false} FourPow(e: El)
    ensures var f := MulX(MulX(MulX(MulX(e)))); FourStepped(e.a, e.b, f.a, f.b)
  {
    hide StepA, StepB, Stepped, FourStepped;
    var e1 := MulX(e);
    var e2 := MulX(e1);
    var e3 := MulX(e2);
    StepWords(e.a, e.b);
    StepWords(e1.a, e1.b);
    StepWords(e2.a, e2.b);
    StepWords(e3.a, e3.b);
    FourSteps(e.a, e.b, e1.a, e1.b, e2.a, e2.b, e3.a, e3.b, MulX(e3).a, MulX(e3).b);
  }

  /** gf128mul_x8_lle is eight products with x. */
  lemma {:induction false} X8IsEight(e: El)
    ensures X8Lle(e) == Pow(e, 8)
  {
    hide MulX, TableLle, FourStepped, X8Lle;
    var f := MulX(MulX(MulX(MulX(e))));
    var h := MulX(MulX(MulX(MulX(f))));
    FourPow(e);
    FourPow(f);
    EightWords(e.a, e.b, f.a, f.b, h.a, h.b);
    EightPow(e);
  }

  lemma {:induction false} EightPow(e: El)
    ensures Pow(e, 8) == MulX(MulX(MulX(MulX(MulX(MulX(MulX(MulX(e))))))))
  {
    hide MulX;
    assert Pow(e, 1) == MulX(e);
    assert Pow(e, 2) == MulX(Pow(e, 1));
    assert Pow(e, 3) == MulX(Pow(e, 2));
    assert Pow(e, 4) == MulX(Pow(e, 3));
    assert Pow(e, 5) == MulX(Pow(e, 4));
    assert Pow(e, 6) == MulX(Pow(e, 5));
    assert Pow(e, 7) == MulX(Pow(e, 6));
    assert Pow(e, 8) == MulX(Pow(e, 7));
  }

  lemma {:induction false} TableEnds()
    ensures TableLle(0x80) << 48 == 0xe100_0000_0000_0000 && TableLle(0) << 48 == 0
  {
  }

  lemma {:induction false} Folded1(b: bv64)
    ensures Folded((b << 7) & 0xff) == if Odd(b) then R else 0
  {
    hide TableLle;
    TopIndex(b);
    TableEnds();
  }

  /** gf128mul_x_lle is the product with x. */
  lemma {:induction false} XIsMulX(e: El)
    ensures XLle(e) == MulX(e)
  {
    hide StepA, XLleA;
    XWord(e.a, e.b);
  }

  lemma {:induction false} XWord(a: bv64, b: bv64)
    ensures XLleA(a, b) == StepA(a, b)
  {
    hide Folded, Shifted, Odd;
    Folded1(b);
    Zero64(Shifted(a));
  }

  // ---------------------------------------------------------------- a vector space

  lemma {:induction false} Xor64Commutes(a: bv64, b: bv64)
    ensures Xor64(a, b) == Xor64(b, a)
  {
  }

  lemma {:induction false} Xor64Assoc(a: bv64, b: bv64, c: bv64)
    ensures Xor64(Xor64(a, b), c) == Xor64(a, Xor64(b, c))
  {
  }

  lemma {:induction false} Xor64Exchange(a: bv64, b: bv64, c: bv64, d: bv64)
    ensures Xor64(Xor64(a, b), Xor64(c, d)) == Xor64(Xor64(a, c), Xor64(b, d))
  {
    hide Xor64;
    Xor64Assoc(Xor64(a, b), c, d);
    Xor64Assoc(a, b, c);
    Xor64Commutes(b, c);
    Xor64Assoc(a, c, b);
    Xor64Assoc(Xor64(a, c), b, d);
  }

  lemma {:induction false} XorLaws(e: El, f: El, g: El)
    ensures Xor(e, f) == Xor(f, e) && Xor(Xor(e, f), g) == Xor(e, Xor(f, g)) && Xor(e, ZERO) == e
  {
    hide Xor64;
    Zero64(e.a);
    Zero64(e.b);
    Xor64Commutes(e.a, f.a);
    Xor64Commutes(e.b, f.b);
    Xor64Assoc(e.a, f.a, g.a);
    Xor64Assoc(e.b, f.b, g.b);
  }

  lemma {:induction false} ShiftedLinear(a: bv64, c: bv64)
    ensures Shifted(Xor64(a, c)) == Xor64(Shifted(a), Shifted(c))
  {
  }

  lemma {:induction false} CarryLinear(b: bv64, d: bv64)
    ensures Carry(Xor64(b, d)) == Xor64(Carry(b), Carry(d))
  {
  }

  lemma {:induction false} StepALinear(a: bv64, b: bv64, c: bv64, d: bv64)
    ensures StepA(Xor64(a, c), Xor64(b, d)) == Xor64(StepA(a, b), StepA(c, d))
  {
    hide StepA, Xor64, Shifted, Carry;
    StepForm(a, b);
    StepForm(c, d);
    StepForm(Xor64(a, c), Xor64(b, d));
    ShiftedLinear(a, c);
    CarryLinear(b, d);
    Xor64Exchange(Shifted(a), Carry(b), Shifted(c), Carry(d));
  }

  lemma {:induction false} StepBLinear(a: bv64, b: bv64, c: bv64, d: bv64)
    ensures StepB(Xor64(a, c), Xor64(b, d)) == Xor64(StepB(a, b), StepB(c, d))
  {
  }

  /** The product with x respects addition. */
  lemma {:induction false} MulXLinear(e: El, f: El)
    ensures MulX(Xor(e, f)) == Xor(MulX(e), MulX(f))
  {
    hide StepA, StepB, Xor64;
    StepALinear(e.a, e.b, f.a, f.b);
    StepBLinear(e.a, e.b, f.a, f.b);
  }

  lemma {:induction false} MulXZero()
    ensures MulX(ZERO) == ZERO
  {
  }

  lemma {:induction false} PowAdd(e: El, m: nat, n: nat)
    ensures Pow(Pow(e, m), n) == Pow(e, m + n)
  {
    hide MulX;
    if n > 0 { PowAdd(e, m, n - 1); }
  }

  lemma {:induction false} PowLinear(e: El, f: El, n: nat)
    ensures Pow(Xor(e, f), n) == Xor(Pow(e, n), Pow(f, n))
  {
    hide MulX, Xor;
    if n > 0 {
      PowLinear(e, f, n - 1);
      MulXLinear(Pow(e, n - 1), Pow(f, n - 1));
    }
  }

  lemma {:induction false} PowZero(n: nat)
    ensures Pow(ZERO, n) == ZERO
  {
    hide MulX;
    MulXZero();
    if n > 0 { PowZero(n - 1); }
  }

  // ---------------------------------------------------------------- the product

  /** Bit k of a byte, the most significant one first. */
  predicate BitOf(b: bv8, k: nat)
    requires k < 8
  {
    match k
    case 0 => b & 0x80 != 0
    case 1 => b & 0x40 != 0
    case 2 => b & 0x20 != 0
    case 3 => b & 0x10 != 0
    case 4 => b & 0x08 != 0
    case 5 => b & 0x04 != 0
    case 6 => b & 0x02 != 0
    case _ => b & 0x01 != 0
  }

  function Chosen(c: bool, e: El): El { if c then e else ZERO }

  /** Algorithm 1 of section 6.3 after n bits of x: the sum of the products of y with x^i over the ones among them. */
  function Partial(x: Bytes, y: El, n: nat): El
    requires n <= 8 * |x|
  {
    if n == 0 then ZERO else Xor(Partial(x, y, n - 1), Chosen(BitOf(x[(n - 1) / 8].v, (n - 1) % 8), Pow(y, n - 1)))
  }

  /** The product of the block x with y. */
  function Product(x: Bytes, y: El): El
    requires |x| == 16
  {
    Partial(x, y, 128)
  }

  /** The same sum over the first k bits of one byte. */
  function BitSum(b: bv8, y: El, k: nat): El
    requires k <= 8
  {
    if k == 0 then ZERO else Xor(BitSum(b, y, k - 1), Chosen(BitOf(b, k - 1), Pow(y, k - 1)))
  }

  lemma {:induction false} BitIndex(i: nat, k: nat)
    requires k < 8
    ensures (8 * i + k) / 8 == i && (8 * i + k) % 8 == k
  {
  }

  lemma {:induction false} PartialByte(x: Bytes, y: El, i: nat, k: nat)
    requires i < |x| && k <= 8
    ensures Partial(x, y, 8 * i + k) == Xor(Partial(x, y, 8 * i), BitSum(x[i].v, Pow(y, 8 * i), k))
  {
    hide Xor, BitOf, Chosen, Pow;
    if k == 0 {
      XorLaws(Partial(x, y, 8 * i), ZERO, ZERO);
    } else {
      PartialByte(x, y, i, k - 1);
      PowAdd(y, 8 * i, k - 1);
      BitIndex(i, k - 1);
      XorLaws(Partial(x, y, 8 * i), BitSum(x[i].v, Pow(y, 8 * i), k - 1),
              Chosen(BitOf(x[i].v, k - 1), Pow(Pow(y, 8 * i), k - 1)));
    }
  }

  // ---------------------------------------------------------------- layout

  function LowByteOf(w: bv64): Byte { CryptoBytes.Byte((w & 0xff) as bv8) }

  /** The bytes of a big-endian word. */
  function WordBytes(w: bv64): (s: Bytes)
    ensures |s| == 8
  {
    [LowByteOf(w >> 56), LowByteOf(w >> 48), LowByteOf(w >> 40), LowByteOf(w >> 32),
     LowByteOf(w >> 24), LowByteOf(w >> 16), LowByteOf(w >> 8), LowByteOf(w)]
  }

  function ToBytes(e: El): (s: Bytes)
    ensures |s| == 16
  {
    WordBytes(e.a) + WordBytes(e.b)
  }

  function Word(b0: bv8, b1: bv8, b2: bv8, b3: bv8, b4: bv8, b5: bv8, b6: bv8, b7: bv8): bv64 {
    ((b0 as bv64) << 56) | ((b1 as bv64) << 48) | ((b2 as bv64) << 40) | ((b3 as bv64) << 32) |
    ((b4 as bv64) << 24) | ((b5 as bv64) << 16) | ((b6 as bv64) << 8) | (b7 as bv64)
  }

  function FromBytes(s: Bytes): El
    requires |s| == 16
  {
    El(Word(s[0].v, s[1].v, s[2].v, s[3].v, s[4].v, s[5].v, s[6].v, s[7].v),
       Word(s[8].v, s[9].v, s[10].v, s[11].v, s[12].v, s[13].v, s[14].v, s[15].v))
  }

  lemma {:induction false} WordRoundTrip(b0: Byte, b1: Byte, b2: Byte, b3: Byte, b4: Byte, b5: Byte, b6: Byte, b7: Byte)
    ensures WordBytes(Word(b0.v, b1.v, b2.v, b3.v, b4.v, b5.v, b6.v, b7.v)) == [b0, b1, b2, b3, b4, b5, b6, b7]
  {
  }

  /** The two views of a be128 agree. */
  lemma {:induction false} RoundTrip(s: Bytes)
    requires |s| == 16
    ensures ToBytes(FromBytes(s)) == s
  {
    hide Word, WordBytes;
    WordRoundTrip(s[0], s[1], s[2], s[3], s[4], s[5], s[6], s[7]);
    WordRoundTrip(s[8], s[9], s[10], s[11], s[12], s[13], s[14], s[15]);
  }
}
