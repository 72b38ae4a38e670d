/**
  Camellia as sections 2.3 and 2.4 of RFC 3713 write it down, on 64-bit numbers, and the proof that the words, look-up tables
  and halves of crypto/camellia.c compute it. The four S-boxes are arbitrary; each combined table holds one of them in three
  of its four bytes.
 */
module CamelliaRfc {
  import C = Camellia

  datatype Sboxes = Sboxes(s1: bv8 -> bv8, s2: bv8 -> bv8, s3: bv8 -> bv8, s4: bv8 -> bv8)

  /** The bytes t1, ..., t8 of a number, from the most significant one on. */
  datatype Bytes8 = Bytes8(t1: bv8, t2: bv8, t3: bv8, t4: bv8, t5: bv8, t6: bv8, t7: bv8, t8: bv8)

  function Split(x: bv64): Bytes8 {
    Bytes8((x >> 56) as bv8, ((x >> 48) & 0xFF) as bv8, ((x >> 40) & 0xFF) as bv8, ((x >> 32) & 0xFF) as bv8,
           ((x >> 24) & 0xFF) as bv8, ((x >> 16) & 0xFF) as bv8, ((x >> 8) & 0xFF) as bv8, (x & 0xFF) as bv8)
  }

  function Join(y: Bytes8): bv64 {
    ((y.t1 as bv64) << 56) | ((y.t2 as bv64) << 48) | ((y.t3 as bv64) << 40) | ((y.t4 as bv64) << 32)
    | ((y.t5 as bv64) << 24) | ((y.t6 as bv64) << 16) | ((y.t7 as bv64) << 8) | (y.t8 as bv64)
  }

  function S(sb: Sboxes, t: Bytes8): Bytes8 {
    Bytes8(sb.s1(t.t1), sb.s2(t.t2), sb.s3(t.t3), sb.s4(t.t4), sb.s2(t.t5), sb.s3(t.t6), sb.s4(t.t7), sb.s1(t.t8))
  }

  function P(t: Bytes8): Bytes8 { Bytes8(Y1(t), Y2(t), Y3(t), Y4(t), Y5(t), Y6(t), Y7(t), Y8(t)) }

  function Y1(t: Bytes8): bv8 { t.t1 ^ t.t3 ^ t.t4 ^ t.t6 ^ t.t7 ^ t.t8 }
  function Y2(t: Bytes8): bv8 { t.t1 ^ t.t2 ^ t.t4 ^ t.t5 ^ t.t7 ^ t.t8 }
  function Y3(t: Bytes8): bv8 { t.t1 ^ t.t2 ^ t.t3 ^ t.t5 ^ t.t6 ^ t.t8 }
  function Y4(t: Bytes8): bv8 { t.t2 ^ t.t3 ^ t.t4 ^ t.t5 ^ t.t6 ^ t.t7 }
  function Y5(t: Bytes8): bv8 { t.t1 ^ t.t2 ^ t.t6 ^ t.t7 ^ t.t8 }
  function Y6(t: Bytes8): bv8 { t.t2 ^ t.t3 ^ t.t5 ^ t.t7 ^ t.t8 }
  function Y7(t: Bytes8): bv8 { t.t3 ^ t.t4 ^ t.t5 ^ t.t6 ^ t.t8 }
  function Y8(t: Bytes8): bv8 { t.t1 ^ t.t4 ^ t.t5 ^ t.t6 ^ t.t7 }

  function Xor64(x: bv64, y: bv64): bv64 { x ^ y }

  function F(sb: Sboxes, x: bv64, ke: bv64): bv64 { Join(P(S(sb, Split(Xor64(x, ke))))) }

  /** Left rotation by one bit: every bit moves up by one, and the highest one to the lowest place. */
  function Rotated(x: bv32): bv32 { x + x + Top(x) }
  function Top(x: bv32): bv32 { if x < 0x8000_0000 then 0 else 1 }

  function High(x: bv64): bv32 { (x >> 32) as bv32 }
  function Low(x: bv64): bv32 { (x & 0xFFFF_FFFF) as bv32 }
  function Number(hi: bv32, lo: bv32): bv64 { ((hi as bv64) << 32) | (lo as bv64) }

  function FL(x: bv64, ke: bv64): bv64 {
    var x1, x2, k1, k2 := High(x), Low(x), High(ke), Low(ke);
    Number(FL1(x1, FL2(x1, x2, k1), k2), FL2(x1, x2, k1))
  }

  function FLInv(y: bv64, ke: bv64): bv64 {
    var y1, y2, k1, k2 := High(y), Low(y), High(ke), Low(ke);
    Number(FL1(y1, y2, k2), FL2(FL1(y1, y2, k2), y2, k1))
  }

  /** The new x1 and the new x2. */
  function FL1(x1: bv32, x2: bv32, k2: bv32): bv32 { x1 ^ (x2 | k2) }
  function FL2(x1: bv32, x2: bv32, k1: bv32): bv32 { x2 ^ Rotated(x1 & k1) }

  /** The subkeys kw1, ..., kw4, k1, k2, ... and ke1, ke2, ...; their numbers begin at one. */
  datatype Keys = Keys(kw: nat -> bv64, k: nat -> bv64, ke: nat -> bv64)

  datatype Data = Data(d1: bv64, d2: bv64)

  /** Round j. */
  function Round(sb: Sboxes, key: Keys, j: nat, d: Data): Data {
    if j % 2 == 1 then d.(d2 := Xor64(d.d2, F(sb, d.d1, key.k(j)))) else d.(d1 := Xor64(d.d1, F(sb, d.d2, key.k(j))))
  }

  /** Rounds j to last, with FL and its inverse after every sixth round but the last. */
  function Rounds(sb: Sboxes, key: Keys, j: nat, last: nat, d: Data): Data
    requires j >= 1
    decreases if j > last then 0 else last + 1 - j
  {
    if j > last then d
    else
      var e := Round(sb, key, j, d);
      Rounds(sb, key, j + 1, last, if j % 6 == 0 && j < last then Layer(key, j / 6, e) else e)
  }

  /** The i-th layer. */
  function Layer(key: Keys, i: nat, d: Data): Data
    requires i > 0
  {
    Data(FL(d.d1, key.ke(2 * i - 1)), FLInv(d.d2, key.ke(2 * i)))
  }

  /** 18 rounds for a key of 128 bits, 24 for one of 192 or 256. */
  function Encrypt(sb: Sboxes, key: Keys, last: nat, m: Data): Data {
    var d := Rounds(sb, key, 1, last, Data(Xor64(m.d1, key.kw(1)), Xor64(m.d2, key.kw(2))));
    Data(Xor64(d.d2, key.kw(3)), Xor64(d.d1, key.kw(4)))
  }

  // ---------------------------------------------------------------- words and numbers

  function Pack(h: C.Half): bv64 { Number(h.l, h.r) }

  function PackBlock(b: C.Block): Data { Data(Pack(b.d1), Pack(b.d2)) }

  /** A word of four bytes. */
  function Word(a: bv8, b: bv8, c: bv8, d: bv8): bv32 {
    ((a as bv32) << 24) | ((b as bv32) << 16) | ((c as bv32) << 8) | (d as bv32)
  }

  /** camellia_sp1110 and the other tables. */
  function TablesOf(sb: Sboxes): C.Tables {
    C.Tables(b => Word(sb.s1(b), sb.s1(b), sb.s1(b), 0), b => Word(0, sb.s2(b), sb.s2(b), sb.s2(b)),
             b => Word(sb.s3(b), 0, sb.s3(b), sb.s3(b)), b => Word(sb.s4(b), sb.s4(b), 0, sb.s4(b)))
  }

  lemma Halves(hi: bv32, lo: bv32)
    ensures High(Number(hi, lo)) == hi && Low(Number(hi, lo)) == lo
  {}

  lemma PackXor(x: C.Half, y: C.Half)
    ensures Pack(x.Xor(y)) == Xor64(Pack(x), Pack(y))
  {
    hide Number, C.Xor32, Xor64;
    XorNumber(x.l, x.r, y.l, y.r);
  }

  lemma XorNumber(a: bv32, b: bv32, c: bv32, d: bv32)
    ensures Number(C.Xor32(a, c), C.Xor32(b, d)) == Xor64(Number(a, b), Number(c, d))
  {}

  lemma SplitWords(x: C.Half)
    ensures Split(Pack(x)) == Bytes8(C.Byte3(x.l), C.Byte2(x.l), C.Byte1(x.l), C.Byte0(x.l),
                                     C.Byte3(x.r), C.Byte2(x.r), C.Byte1(x.r), C.Byte0(x.r))
  {
    SplitNumber(x.l, x.r);
  }

  lemma SplitNumber(l: bv32, r: bv32)
    ensures var t := Split(Number(l, r));
      && t.t1 == C.Byte3(l) && t.t2 == C.Byte2(l) && t.t3 == C.Byte1(l) && t.t4 == C.Byte0(l)
      && t.t5 == C.Byte3(r) && t.t6 == C.Byte2(r) && t.t7 == C.Byte1(r) && t.t8 == C.Byte0(r)
  {}

  // ---------------------------------------------------------------- the F-function

  function X(a: bv8, b: bv8): bv8 { a ^ b }

  lemma WordXor(a: bv8, b: bv8, c: bv8, d: bv8, e: bv8, f: bv8, g: bv8, h: bv8)
    ensures C.Xor32(Word(a, b, c, d), Word(e, f, g, h)) == Word(X(a, e), X(b, f), X(c, g), X(d, h))
  {}

  lemma WordTurned(a: bv8, b: bv8, c: bv8, d: bv8)
    ensures C.Ror8(Word(a, b, c, d)) == Word(d, a, b, c)
  {}

  lemma WordsJoin(y: Bytes8)
    ensures Number(Word(y.t1, y.t2, y.t3, y.t4), Word(y.t5, y.t6, y.t7, y.t8)) == Join(y)
  {
    BytesJoin(y.t1, y.t2, y.t3, y.t4, y.t5, y.t6, y.t7, y.t8);
  }

  lemma BytesJoin(a: bv8, b: bv8, c: bv8, d: bv8, e: bv8, f: bv8, g: bv8, h: bv8)
    ensures Number(Word(a, b, c, d), Word(e, f, g, h))
         == ((a as bv64) << 56) | ((b as bv64) << 48) | ((c as bv64) << 40) | ((d as bv64) << 32)
            | ((e as bv64) << 24) | ((f as bv64) << 16) | ((g as bv64) << 8) | (h as bv64)
  {}

  /** The exclusive-ors of four table entries. */
  lemma Entries(a: bv8, b: bv8, c: bv8, d: bv8)
    ensures C.Xor32(C.Xor32(C.Xor32(Word(a, a, a, 0), Word(0, b, b, b)), Word(c, 0, c, c)), Word(d, d, 0, d))
         == Word(X3(a, c, d), X3(a, b, d), X3(a, b, c), X3(b, c, d))
  {
    hide Word, C.Xor32, X, X3;
    WordXor(a, a, a, 0, 0, b, b, b);
    WordXor(X(a, 0), X(a, b), X(a, b), X(0, b), c, 0, c, c);
    WordXor(X(X(a, 0), c), X(X(a, b), 0), X(X(a, b), c), X(X(0, b), c), d, d, 0, d);
    Zeros(a, b, c, d);
  }

  function X3(a: bv8, b: bv8, c: bv8): bv8 { X(X(a, b), c) }

  lemma Zeros(a: bv8, b: bv8, c: bv8, d: bv8)
    ensures X(X(X(a, 0), c), d) == X3(a, c, d) && X(X(X(a, b), 0), d) == X3(a, b, d)
    ensures X(X(X(a, b), c), 0) == X3(a, b, c) && X(X(X(0, b), c), d) == X3(b, c, d)
  {
    hide X;
    XZero(a);
    XZero(b);
    XZero(X(a, b));
    XZero(X(X(a, b), c));
  }

  lemma XZero(a: bv8)
    ensures X(a, 0) == a && X(0, a) == a
  {}

  /** The last half of the P-function, on what the entries add up to. */
  lemma Mixed(t: Bytes8)
    ensures var l := Word(X3(t.t1, t.t3, t.t4), X3(t.t1, t.t2, t.t4), X3(t.t1, t.t2, t.t3), X3(t.t2, t.t3, t.t4));
      var r := Word(X3(t.t8, t.t6, t.t7), X3(t.t8, t.t5, t.t7), X3(t.t8, t.t5, t.t6), X3(t.t5, t.t6, t.t7));
      Pack(C.PHalf(C.Half(l, r))) == Join(P(t))
  {
    hide Word, C.Xor32, C.Ror8, Join, Number, X, X3, Y1, Y2, Y3, Y4, Y5, Y6, Y7, Y8;
    var a, b, c, d := X3(t.t1, t.t3, t.t4), X3(t.t1, t.t2, t.t4), X3(t.t1, t.t2, t.t3), X3(t.t2, t.t3, t.t4);
    var e, f, g, h := X3(t.t8, t.t6, t.t7), X3(t.t8, t.t5, t.t7), X3(t.t8, t.t5, t.t6), X3(t.t5, t.t6, t.t7);
    WordXor(a, b, c, d, e, f, g, h);
    WordTurned(a, b, c, d);
    WordXor(d, a, b, c, X(a, e), X(b, f), X(c, g), X(d, h));
    Equations(t);
    WordsJoin(P(t));
  }

  lemma Equation1(t1: bv8, t2: bv8, t3: bv8, t4: bv8, t5: bv8, t6: bv8, t7: bv8, t8: bv8)
    ensures X(X3(t1, t3, t4), X3(t8, t6, t7)) == Y1(Bytes8(t1, t2, t3, t4, t5, t6, t7, t8))
  {
    calc {
      X(X3(t1, t3, t4), X3(t8, t6, t7));
      ((t1 ^ t3) ^ t4) ^ ((t8 ^ t6) ^ t7);
      t1 ^ t3 ^ t4 ^ t6 ^ t7 ^ t8;
      Y1(Bytes8(t1, t2, t3, t4, t5, t6, t7, t8));
    }
  }

  lemma Equation2(t1: bv8, t2: bv8, t3: bv8, t4: bv8, t5: bv8, t6: bv8, t7: bv8, t8: bv8)
    ensures X(X3(t1, t2, t4), X3(t8, t5, t7)) == Y2(Bytes8(t1, t2, t3, t4, t5, t6, t7, t8))
  {
    calc {
      X(X3(t1, t2, t4), X3(t8, t5, t7));
      ((t1 ^ t2) ^ t4) ^ ((t8 ^ t5) ^ t7);
      t1 ^ t2 ^ t4 ^ t5 ^ t7 ^ t8;
      Y2(Bytes8(t1, t2, t3, t4, t5, t6, t7, t8));
    }
  }

  lemma Equation3(t1: bv8, t2: bv8, t3: bv8, t4: bv8, t5: bv8, t6: bv8, t7: bv8, t8: bv8)
    ensures X(X3(t1, t2, t3), X3(t8, t5, t6)) == Y3(Bytes8(t1, t2, t3, t4, t5, t6, t7, t8))
  {
    calc {
      X(X3(t1, t2, t3), X3(t8, t5, t6));
      ((t1 ^ t2) ^ t3) ^ ((t8 ^ t5) ^ t6);
      t1 ^ t2 ^ t3 ^ t5 ^ t6 ^ t8;
      Y3(Bytes8(t1, t2, t3, t4, t5, t6, t7, t8));
    }
  }

  lemma Equation4(t1: bv8, t2: bv8, t3: bv8, t4: bv8, t5: bv8, t6: bv8, t7: bv8, t8: bv8)
    ensures X(X3(t2, t3, t4), X3(t5, t6, t7)) == Y4(Bytes8(t1, t2, t3, t4, t5, t6, t7, t8))
  {
    calc {
      X(X3(t2, t3, t4), X3(t5, t6, t7));
      ((t2 ^ t3) ^ t4) ^ ((t5 ^ t6) ^ t7);
      t2 ^ t3 ^ t4 ^ t5 ^ t6 ^ t7;
      Y4(Bytes8(t1, t2, t3, t4, t5, t6, t7, t8));
    }
  }

  lemma Equation5(t1: bv8, t2: bv8, t3: bv8, t4: bv8, t5: bv8, t6: bv8, t7: bv8, t8: bv8)
    ensures X(X3(t2, t3, t4), X(X3(t1, t3, t4), X3(t8, t6, t7))) == Y5(Bytes8(t1, t2, t3, t4, t5, t6, t7, t8))
  {
    calc {
      X(X3(t2, t3, t4), X(X3(t1, t3, t4), X3(t8, t6, t7)));
      ((t2 ^ t3) ^ t4) ^ (((t1 ^ t3) ^ t4) ^ ((t8 ^ t6) ^ t7));
      t1 ^ t2 ^ t6 ^ t7 ^ t8;
      Y5(Bytes8(t1, t2, t3, t4, t5, t6, t7, t8));
    }
  }

  lemma Equation6(t1: bv8, t2: bv8, t3: bv8, t4: bv8, t5: bv8, t6: bv8, t7: bv8, t8: bv8)
    ensures X(X3(t1, t3, t4), X(X3(t1, t2, t4), X3(t8, t5, t7))) == Y6(Bytes8(t1, t2, t3, t4, t5, t6, t7, t8))
  {
    calc {
      X(X3(t1, t3, t4), X(X3(t1, t2, t4), X3(t8, t5, t7)));
      ((t1 ^ t3) ^ t4) ^ (((t1 ^ t2) ^ t4) ^ ((t8 ^ t5) ^ t7));
      t2 ^ t3 ^ t5 ^ t7 ^ t8;
      Y6(Bytes8(t1, t2, t3, t4, t5, t6, t7, t8));
    }
  }

  lemma Equation7(t1: bv8, t2: bv8, t3: bv8, t4: bv8, t5: bv8, t6: bv8, t7: bv8, t8: bv8)
    ensures X(X3(t1, t2, t4), X(X3(t1, t2, t3), X3(t8, t5, t6))) == Y7(Bytes8(t1, t2, t3, t4, t5, t6, t7, t8))
  {
    calc {
      X(X3(t1, t2, t4), X(X3(t1, t2, t3), X3(t8, t5, t6)));
      ((t1 ^ t2) ^ t4) ^ (((t1 ^ t2) ^ t3) ^ ((t8 ^ t5) ^ t6));
      t3 ^ t4 ^ t5 ^ t6 ^ t8;
      Y7(Bytes8(t1, t2, t3, t4, t5, t6, t7, t8));
    }
  }

  lemma Equation8(t1: bv8, t2: bv8, t3: bv8, t4: bv8, t5: bv8, t6: bv8, t7: bv8, t8: bv8)
    ensures X(X3(t1, t2, t3), X(X3(t2, t3, t4), X3(t5, t6, t7))) == Y8(Bytes8(t1, t2, t3, t4, t5, t6, t7, t8))
  {
    calc {
      X(X3(t1, t2, t3), X(X3(t2, t3, t4), X3(t5, t6, t7)));
      ((t1 ^ t2) ^ t3) ^ (((t2 ^ t3) ^ t4) ^ ((t5 ^ t6) ^ t7));
      t1 ^ t4 ^ t5 ^ t6 ^ t7;
      Y8(Bytes8(t1, t2, t3, t4, t5, t6, t7, t8));
    }
  }

  lemma Equations(t: Bytes8)
    ensures P(t) == Bytes8(X(X3(t.t1, t.t3, t.t4), X3(t.t8, t.t6, t.t7)), X(X3(t.t1, t.t2, t.t4), X3(t.t8, t.t5, t.t7)),
                           X(X3(t.t1, t.t2, t.t3), X3(t.t8, t.t5, t.t6)), X(X3(t.t2, t.t3, t.t4), X3(t.t5, t.t6, t.t7)),
                           X(X3(t.t2, t.t3, t.t4), X(X3(t.t1, t.t3, t.t4), X3(t.t8, t.t6, t.t7))),
                           X(X3(t.t1, t.t3, t.t4), X(X3(t.t1, t.t2, t.t4), X3(t.t8, t.t5, t.t7))),
                           X(X3(t.t1, t.t2, t.t4), X(X3(t.t1, t.t2, t.t3), X3(t.t8, t.t5, t.t6))),
                           X(X3(t.t1, t.t2, t.t3), X(X3(t.t2, t.t3, t.t4), X3(t.t5, t.t6, t.t7))))
  {
    hide X, X3, Y1, Y2, Y3, Y4, Y5, Y6, Y7, Y8;
    var Bytes8(t1, t2, t3, t4, t5, t6, t7, t8) := t;
    Equation1(t1, t2, t3, t4, t5, t6, t7, t8);
    Equation2(t1, t2, t3, t4, t5, t6, t7, t8);
    Equation3(t1, t2, t3, t4, t5, t6, t7, t8);
    Equation4(t1, t2, t3, t4, t5, t6, t7, t8);
    Equation5(t1, t2, t3, t4, t5, t6, t7, t8);
    Equation6(t1, t2, t3, t4, t5, t6, t7, t8);
    Equation7(t1, t2, t3, t4, t5, t6, t7, t8);
    Equation8(t1, t2, t3, t4, t5, t6, t7, t8);
  }

  /** CAMELLIA_F with its tables is the F-function. */
  lemma FIsF(sb: Sboxes, x: C.Half, k: C.Half)
    ensures Pack(C.F(TablesOf(sb), x, k)) == F(sb, Pack(x), Pack(k))
  {
    hide C.PHalf, Word, Join, P, Split, Pack, X3, C.Xor32, C.Byte0, C.Byte1, C.Byte2, C.Byte3;
    PackXor(x, k);
    var z := x.Xor(k);
    SplitWords(z);
    var t := S(sb, Split(Pack(z)));
    Entries(t.t1, t.t2, t.t3, t.t4);
    Entries(t.t8, t.t5, t.t6, t.t7);
    Mixed(t);
  }

  // ---------------------------------------------------------------- the FL-function

  lemma RolIs(x: bv32)
    ensures C.Rol1(x) == Rotated(x)
  {
    calc {
      C.Rol1(x);
      (x << 1) | (x >> 31);
      { RolSum(x); }
      x + x + Top(x);
      Rotated(x);
    }
  }

  lemma RolSum(x: bv32)
    ensures (x << 1) | (x >> 31) == x + x + if x < 0x8000_0000 then 0 else 1
  {}

  /** What the rotation means, bit by bit. */
  lemma RotatedBits(x: bv32, i: bv8)
    requires i < 32
    ensures (Rotated(x) >> i) & 1 == (x >> ((i + 31) % 32)) & 1
  {
    hide Rotated;
    RolIs(x);
    RolBits(x, i);
  }

  lemma RolBits(x: bv32, i: bv8)
    requires i < 32
    ensures (C.Rol1(x) >> i) & 1 == (x >> ((i + 31) % 32)) & 1
  {}

  lemma AndRolIs(x: bv32, y: bv32, k: bv32)
    ensures C.AndRol(x, y, k) == FL2(y, x, k)
  {
    hide C.Rol1, Rotated;
    RolIs(y & k);
    calc {
      C.AndRol(x, y, k);
      C.Xor32(x, C.Rol1(C.And32(y, k)));
      x ^ C.Rol1(y & k);
      x ^ Rotated(y & k);
      FL2(y, x, k);
    }
  }

  lemma OrInIs(x: bv32, y: bv32, k: bv32)
    ensures C.OrIn(x, y, k) == FL1(x, y, k)
  {
    calc {
      C.OrIn(x, y, k);
      C.Xor32(x, C.Or32(y, k));
      x ^ (y | k);
      FL1(x, y, k);
    }
  }

  lemma FLIsFL(x: C.Half, k: C.Half)
    ensures Pack(C.FL(x, k)) == FL(Pack(x), Pack(k)) && Pack(C.FLInv(x, k)) == FLInv(Pack(x), Pack(k))
  {
    hide C.AndRol, C.OrIn, FL1, FL2, Number, High, Low;
    Halves(x.l, x.r);
    Halves(k.l, k.r);
    AndRolIs(x.r, x.l, k.l);
    OrInIs(x.l, C.AndRol(x.r, x.l, k.l), k.r);
    OrInIs(x.l, x.r, k.r);
    AndRolIs(x.r, C.OrIn(x.l, x.r, k.r), k.l);
  }

  // ---------------------------------------------------------------- the whole cipher

  /** The raw subkeys as camellia_setup128 and camellia_setup256 leave them: kw1, kw2, then for each group its six round keys,
      with the keys of an FL layer between two groups, and kw3, kw4 at the end. */
  ghost predicate Holds(key: Keys, s: seq<C.Half>, n: nat) {
    && |s| == 8 * n + 2
    && key.kw(1) == Pack(s[0]) && key.kw(2) == Pack(s[1]) && key.kw(3) == Pack(s[8 * n]) && key.kw(4) == Pack(s[8 * n + 1])
    && (forall g, i :: 0 <= g < n && 0 <= i < 6 ==> key.k(RoundNo(g, i)) == Pack(s[8 * g + 2 + i]))
    && (forall g, i :: 0 <= g < n - 1 && 0 <= i < 2 ==> key.ke(LayerNo(g, i)) == Pack(s[8 * g + 8 + i]))
  }

  /** The numbers of the round keys of group g, and of the keys of the layer behind it. */
  function RoundNo(g: nat, i: nat): nat { 6 * g + 1 + i }
  function LayerNo(g: nat, i: nat): nat { 2 * g + 1 + i }

  /** Two rounds. */
  lemma PairIs(sb: Sboxes, key: Keys, s: seq<C.Half>, i: nat, j: nat, b: C.Block)
    requires i + 1 < |s| && j % 2 == 1 && key.k(j) == Pack(s[i]) && key.k(j + 1) == Pack(s[i + 1])
    ensures PackBlock(C.PlainPair(TablesOf(sb), s, i, b)) == Round(sb, key, j + 1, Round(sb, key, j, PackBlock(b)))
  {
    hide C.F, F, Pack, C.Half.Xor, Xor64, TablesOf;
    var tb := TablesOf(sb);
    FIsF(sb, b.d1, s[i]);
    PackXor(b.d2, C.F(tb, b.d1, s[i]));
    var d2 := b.d2.Xor(C.F(tb, b.d1, s[i]));
    FIsF(sb, d2, s[i + 1]);
    PackXor(b.d1, C.F(tb, d2, s[i + 1]));
  }

  /** Six rounds. */
  lemma SixIs(sb: Sboxes, key: Keys, s: seq<C.Half>, n: nat, g: nat, b: C.Block)
    requires Holds(key, s, n) && g < n
    ensures PackBlock(C.PlainSix(TablesOf(sb), s, 8 * g, b)) == Six(sb, key, 6 * g + 1, PackBlock(b))
  {
    hide C.PlainPair, Round, Pack, TablesOf;
    var tb, j := TablesOf(sb), 6 * g + 1;
    var b1 := C.PlainPair(tb, s, 8 * g + 2, b);
    var b2 := C.PlainPair(tb, s, 8 * g + 4, b1);
    assert key.k(RoundNo(g, 0)) == Pack(s[8 * g + 2]) && key.k(RoundNo(g, 1)) == Pack(s[8 * g + 3]);
    assert key.k(RoundNo(g, 2)) == Pack(s[8 * g + 4]) && key.k(RoundNo(g, 3)) == Pack(s[8 * g + 5]);
    assert key.k(RoundNo(g, 4)) == Pack(s[8 * g + 6]) && key.k(RoundNo(g, 5)) == Pack(s[8 * g + 7]);
    hide Holds;
    PairIs(sb, key, s, 8 * g + 2, j, b);
    PairIs(sb, key, s, 8 * g + 4, j + 2, b1);
    PairIs(sb, key, s, 8 * g + 6, j + 4, b2);
  }

  function Six(sb: Sboxes, key: Keys, j: nat, d: Data): Data {
    var e := Round(sb, key, j + 3, Round(sb, key, j + 2, Round(sb, key, j + 1, Round(sb, key, j, d))));
    Round(sb, key, j + 5, Round(sb, key, j + 4, e))
  }

  /** Rounds that a group is made of. */
  lemma GroupIs(sb: Sboxes, key: Keys, g: nat, n: nat, d: Data)
    requires g < n
    ensures g + 1 < n ==>
      Rounds(sb, key, 6 * g + 1, 6 * n, d) == Rounds(sb, key, 6 * g + 7, 6 * n, Layer(key, g + 1, Six(sb, key, 6 * g + 1, d)))
    ensures g + 1 == n ==> Rounds(sb, key, 6 * g + 1, 6 * n, d) == Six(sb, key, 6 * g + 1, d)
  {
    hide Round, Layer;
    var j := 6 * g + 1;
    var d1 := Round(sb, key, j, d);
    var d2 := Round(sb, key, j + 1, d1);
    var d3 := Round(sb, key, j + 2, d2);
    var d4 := Round(sb, key, j + 3, d3);
    var d5 := Round(sb, key, j + 4, d4);
    assert Rounds(sb, key, j, 6 * n, d) == Rounds(sb, key, j + 1, 6 * n, d1);
    assert Rounds(sb, key, j + 1, 6 * n, d1) == Rounds(sb, key, j + 2, 6 * n, d2);
    assert Rounds(sb, key, j + 2, 6 * n, d2) == Rounds(sb, key, j + 3, 6 * n, d3);
    assert Rounds(sb, key, j + 3, 6 * n, d3) == Rounds(sb, key, j + 4, 6 * n, d4);
    assert Rounds(sb, key, j + 4, 6 * n, d4) == Rounds(sb, key, j + 5, 6 * n, d5);
    var d6 := Round(sb, key, j + 5, d5);
    assert (j + 5) % 6 == 0 && (j + 5) / 6 == g + 1;
    assert Rounds(sb, key, j + 5, 6 * n, d5) == Rounds(sb, key, j + 6, 6 * n, if g + 1 < n then Layer(key, g + 1, d6) else d6);
  }

  lemma LayerIs(key: Keys, s: seq<C.Half>, n: nat, g: nat, b: C.Block)
    requires Holds(key, s, n) && g + 1 < n
    ensures Layer(key, g + 1, PackBlock(b)) == PackBlock(C.PlainFL(s, 8 * g + 8, b))
  {
    hide C.FL, C.FLInv, FL, FLInv, Pack;
    FLIsFL(b.d1, s[8 * g + 8]);
    FLIsFL(b.d2, s[8 * g + 9]);
    assert key.ke(LayerNo(g, 0)) == Pack(s[8 * g + 8]) && key.ke(LayerNo(g, 1)) == Pack(s[8 * g + 9]);
  }

  lemma {:induction false} RoundsAre(sb: Sboxes, key: Keys, s: seq<C.Half>, n: nat, g: nat, b: C.Block)
    requires Holds(key, s, n) && g < n
    ensures PackBlock(C.PlainRounds(TablesOf(sb), s, g, n, b)) == Rounds(sb, key, 6 * g + 1, 6 * n, PackBlock(b))
    decreases n - g
  {
    hide C.PlainSix, C.PlainFL, Layer, Round, TablesOf, PackBlock, Six;
    SixIs(sb, key, s, n, g, b);
    GroupIs(sb, key, g, n, PackBlock(b));
    if g + 1 < n {
      var b1 := C.PlainSix(TablesOf(sb), s, 8 * g, b);
      LayerIs(key, s, n, g, b1);
      RoundsAre(sb, key, s, n, g + 1, C.PlainFL(s, 8 * g + 8, b1));
    }
  }

  /** The cipher of the code with the raw subkeys is the cipher of the RFC. */
  lemma EncryptIs(sb: Sboxes, key: Keys, s: seq<C.Half>, n: nat, b: C.Block)
    requires 0 < n && Holds(key, s, n)
    ensures PackBlock(C.PlainEncrypt(TablesOf(sb), s, n, b)) == Encrypt(sb, key, 6 * n, PackBlock(b))
  {
    hide C.PlainRounds, Rounds, Xor64, Pack, C.Half.Xor, TablesOf;
    PackXor(b.d1, s[0]);
    PackXor(b.d2, s[1]);
    var b0 := C.Block(b.d1.Xor(s[0]), b.d2.Xor(s[1]));
    RoundsAre(sb, key, s, n, 0, b0);
    var b1 := C.PlainRounds(TablesOf(sb), s, 0, n, b0);
    PackXor(b1.d2, s[8 * n]);
    PackXor(b1.d1, s[8 * n + 1]);
  }
}
