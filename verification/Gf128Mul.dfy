/**
  The table-driven products of crypto/gf128mul.c: the 4k form, one table and a step of eight bits per byte, and the 64k
  form, one table per byte.
 */
module Gf128Mul {
  import opened Gf128

  function Pw(m: nat): nat { if m == 0 then 1 else 2 * Pw(m - 1) }

  lemma {:induction false} Powers()
    ensures Pw(0) == 1 && Pw(1) == 2 && Pw(2) == 4 && Pw(3) == 8 && Pw(4) == 16 && Pw(5) == 32 && Pw(6) == 64
    ensures Pw(7) == 128 && Pw(8) == 256
  {
    assert Pw(3) == 8 && Pw(5) == 32;
  }

  /** What a table holds at n < 2^m: the sum of the products of y that the ones of n stand for. */
  function Sum(n: nat, m: nat, y: El): El
    requires m <= 8 && n < Pw(m)
  {
    if m == 0 then ZERO
    else if n >= Pw(m - 1) then Xor(Pow(y, 8 - m), Sum(n - Pw(m - 1), m - 1, y))
    else Sum(n, m - 1, y)
  }

  /** The low 8 - k bits of a byte. */
  function Low(b: bv8, k: nat): nat
    requires k <= 8
  {
    match k
    case 0 => (b & 0xff) as int
    case 1 => (b & 0x7f) as int
    case 2 => (b & 0x3f) as int
    case 3 => (b & 0x1f) as int
    case 4 => (b & 0x0f) as int
    case 5 => (b & 0x07) as int
    case 6 => (b & 0x03) as int
    case 7 => (b & 0x01) as int
    case _ => (b & 0x00) as int
  }

  lemma {:induction false} LowStep0(b: bv8)
    ensures Low(b, 0) < 256 && Low(b, 1) == Low(b, 0) - (if BitOf(b, 0) then 128 else 0)
    ensures BitOf(b, 0) <==> Low(b, 0) >= 128
  {
  }

  lemma {:induction false} LowStep1(b: bv8)
    ensures Low(b, 1) < 128 && Low(b, 2) == Low(b, 1) - (if BitOf(b, 1) then 64 else 0)
    ensures BitOf(b, 1) <==> Low(b, 1) >= 64
  {
  }

  lemma {:induction false} LowStep2(b: bv8)
    ensures Low(b, 2) < 64 && Low(b, 3) == Low(b, 2) - (if BitOf(b, 2) then 32 else 0)
    ensures BitOf(b, 2) <==> Low(b, 2) >= 32
  {
  }

  lemma {:induction false} LowStep3(b: bv8)
    ensures Low(b, 3) < 32 && Low(b, 4) == Low(b, 3) - (if BitOf(b, 3) then 16 else 0)
    ensures BitOf(b, 3) <==> Low(b, 3) >= 16
  {
  }

  lemma {:induction false} LowStep4(b: bv8)
    ensures Low(b, 4) < 16 && Low(b, 5) == Low(b, 4) - (if BitOf(b, 4) then 8 else 0)
    ensures BitOf(b, 4) <==> Low(b, 4) >= 8
  {
  }

  lemma {:induction false} LowStep5(b: bv8)
    ensures Low(b, 5) < 8 && Low(b, 6) == Low(b, 5) - (if BitOf(b, 5) then 4 else 0)
    ensures BitOf(b, 5) <==> Low(b, 5) >= 4
  {
  }

  lemma {:induction false} LowStep6(b: bv8)
    ensures Low(b, 6) < 4 && Low(b, 7) == Low(b, 6) - (if BitOf(b, 6) then 2 else 0)
    ensures BitOf(b, 6) <==> Low(b, 6) >= 2
  {
  }

  lemma {:induction false} LowStep7(b: bv8)
    ensures Low(b, 7) < 2 && Low(b, 8) == Low(b, 7) - (if BitOf(b, 7) then 1 else 0)
    ensures BitOf(b, 7) <==> Low(b, 7) >= 1
  {
  }

  /** Bit k decides whether the rest of the byte is at least 2^(7-k). */
  lemma {:induction false} LowStep(b: bv8, k: nat)
    requires k < 8
    ensures Low(b, k) < Pw(8 - k) && Low(b, k + 1) == Low(b, k) - (if BitOf(b, k) then Pw(7 - k) else 0)
    ensures BitOf(b, k) <==> Low(b, k) >= Pw(7 - k)
  {
    hide Low, BitOf;
    Powers();
    match k
    case 0 => LowStep0(b);
    case 1 => LowStep1(b);
    case 2 => LowStep2(b);
    case 3 => LowStep3(b);
    case 4 => LowStep4(b);
    case 5 => LowStep5(b);
    case 6 => LowStep6(b);
    case _ => LowStep7(b);
  }

  /** Looking a byte up in a table adds up the products that its bits stand for. */
  lemma {:induction false} SumIsBits(b: bv8, y: El)
    ensures Low(b, 0) < Pw(8) && Sum(Low(b, 0), 8, y) == BitSum(b, y, 8)
  {
    hide Low, BitOf, Pow, Xor;
    LowStep(b, 0);
    SumSplits(b, y, 8);
    LowEnd(b);
    XorLaws(BitSum(b, y, 8), ZERO, ZERO);
  }

  lemma {:induction false} LowEnd(b: bv8)
    ensures Low(b, 8) == 0 && Low(b, 0) == b as int
  {
  }

  lemma {:induction false} SumBit(b: bv8, y: El, k: nat)
    requires k < 8 && Low(b, k) < Pw(8 - k) && Low(b, k + 1) < Pw(7 - k)
    ensures Sum(Low(b, k), 8 - k, y) == Xor(Chosen(BitOf(b, k), Pow(y, k)), Sum(Low(b, k + 1), 7 - k, y))
  {
    hide Low, BitOf, Pow, Xor;
    LowStep(b, k);
    var rest := Sum(Low(b, k + 1), 7 - k, y);
    XorLaws(rest, ZERO, ZERO);
    XorLaws(ZERO, rest, ZERO);
  }

  lemma {:induction false} SumSplits(b: bv8, y: El, k: nat)
    requires k <= 8
    ensures Low(b, 0) < Pw(8) && Low(b, k) < Pw(8 - k)
    ensures Sum(Low(b, 0), 8, y) == Xor(BitSum(b, y, k), Sum(Low(b, k), 8 - k, y))
  {
    hide Low, BitOf, Pow, Xor, Pw, Sum, Chosen;
    LowStep(b, 0);
    if k == 0 {
      XorLaws(ZERO, Sum(Low(b, 0), 8, y), ZERO);
      XorLaws(Sum(Low(b, 0), 8, y), ZERO, ZERO);
    } else {
      SumSplits(b, y, k - 1);
      LowStep(b, k - 1);
      if k < 8 { LowStep(b, k); } else { LowEnd(b); Powers(); }
      var rest := Sum(Low(b, k), 8 - k, y);
      var bit := Chosen(BitOf(b, k - 1), Pow(y, k - 1));
      SumBit(b, y, k - 1);
      XorLaws(BitSum(b, y, k - 1), bit, rest);
    }
  }

  /** The entries for single bits, from bit lo up. */
  ghost predicate HasBits(t: seq<El>, y: El, lo: nat) {
    |t| == 256 && lo <= 8 && forall m: nat :: lo <= m < 8 ==> Pw(m) < 256 && t[Pw(m)] == Pow(y, 7 - m)
  }

  /** The entries below 2^m. */
  ghost predicate HasSums(t: seq<El>, y: El, m: nat, n: nat) {
    |t| == 256 && m <= 8 && n <= 256 && forall i: nat :: i < n ==> i < Pw(m) && t[i] == Sum(i, m, y)
  }

  /** The table for y. */
  ghost predicate IsTable(t: seq<El>, y: El) { HasSums(t, y, 8, 256) }

  lemma {:induction false} LookUp(t: seq<El>, y: El, b: bv8)
    requires IsTable(t, y)
    ensures |t| == 256 && t[b as int] == BitSum(b, y, 8)
  {
    SumIsBits(b, y);
    LowEnd(b);
    hide Low, BitSum, Pow;
  }

  lemma {:induction false} PwGrows(m: nat, n: nat)
    requires m < n
    ensures 2 * Pw(m) <= Pw(n)
  {
    if m + 1 < n { PwGrows(m, n - 1); }
  }

  lemma {:induction false} SumSteps(y: El, m: nat, n: nat)
    requires m < 8 && n < Pw(m)
    ensures Sum(n, m + 1, y) == Sum(n, m, y) && Sum(Pw(m) + n, m + 1, y) == Xor(Pow(y, 7 - m), Sum(n, m, y))
    ensures Sum(Pw(m), m + 1, y) == Pow(y, 7 - m)
  {
    hide Pow, Xor;
    SumZero(y, m);
    XorLaws(Pow(y, 7 - m), ZERO, ZERO);
  }

  lemma {:induction false} SumZero(y: El, m: nat)
    requires m <= 8 && 0 < Pw(m)
    ensures Sum(0, m, y) == ZERO
  {
    hide Pow, Xor;
    if m > 0 { SumZero(y, m - 1); }
  }

  lemma {:induction false} SumsStart(t: seq<El>, y: El)
    requires HasBits(t, y, 0) && t[0] == ZERO
    ensures HasSums(t, y, 1, 2)
  {
    hide Pow, Xor;
    Powers();
    SumSteps(y, 0, 0);
    SumZero(y, 1);
    assert t[Pw(0)] == Pow(y, 7);
    forall i: nat | i < 2 ensures i < Pw(1) && t[i] == Sum(i, 1, y) { }
  }

  lemma {:induction false} SumsPut(t: seq<El>, y: El, m: nat, n: nat, e: El)
    requires HasSums(t, y, m, n) && n < 256 && n < Pw(m) && e == Sum(n, m, y)
    ensures HasSums(t[n := e], y, m, n + 1)
  {
    hide Sum;
  }

  lemma {:induction false} SumsRaise(t: seq<El>, y: El, m: nat)
    requires m < 8 && HasSums(t, y, m, Pw(m))
    ensures HasSums(t, y, m + 1, Pw(m))
  {
    hide Pow, Xor, Sum;
    forall i: nat | i < Pw(m) ensures i < Pw(m + 1) && t[i] == Sum(i, m + 1, y) {
      SumSteps(y, m, i);
    }
  }

  lemma {:induction false} SumsLift(t: seq<El>, y: El, m: nat)
    requires m < 8 && HasSums(t, y, m, Pw(m)) && HasBits(t, y, m)
    ensures Pw(m) < 256 && HasSums(t, y, m + 1, Pw(m) + 1)
  {
    hide Pow, Xor, Sum, HasSums;
    assert Pw(m) < 256 && t[Pw(m)] == Pow(y, 7 - m);
    HalfPw(m);
    SumSteps(y, m, 0);
    SumsRaise(t, y, m);
    SumsPut(t, y, m + 1, Pw(m), t[Pw(m)]);
    assert t[Pw(m) := t[Pw(m)]] == t;
  }

  /** Entries between two powers of two are not those of single bits. */
  lemma {:induction false} BitsKept(t: seq<El>, y: El, m: nat, i: nat, e: El)
    requires HasBits(t, y, m) && Pw(m) < i < 2 * Pw(m) && i < 256
    ensures HasBits(t[i := e], y, m)
  {
    hide Pow;
    forall m': nat | m <= m' < 8 ensures Pw(m') < 256 && t[i := e][Pw(m')] == Pow(y, 7 - m') {
      if m < m' { PwGrows(m, m'); }
    }
  }

  lemma {:induction false} SumsNext(t: seq<El>, y: El, m: nat, k: nat)
    requires m < 8 && 0 < k < Pw(m) && Pw(m) + k < 256 && HasSums(t, y, m + 1, Pw(m) + k) && HasBits(t, y, m)
    ensures HasSums(t[Pw(m) + k := Xor(t[Pw(m)], t[k])], y, m + 1, Pw(m) + k + 1)
    ensures HasBits(t[Pw(m) + k := Xor(t[Pw(m)], t[k])], y, m)
  {
    assert t[Pw(m)] == Pow(y, 7 - m) && t[k] == Sum(k, m + 1, y) by { hide Pow, Xor, Sum; }
    hide Pow, Xor, Sum, HasSums, HasBits;
    SumSteps(y, m, k);
    BitsKept(t, y, m, Pw(m) + k, Xor(t[Pw(m)], t[k]));
    SumsPut(t, y, m + 1, Pw(m) + k, Xor(t[Pw(m)], t[k]));
  }

  /** The double loop that fills a table from its eight entries for single bits. */
  method FillSums(t: array<El>, ghost y: El)
    requires t.Length == 256 && t[0] == ZERO && HasBits(t[..], y, 0)
    modifies t
    ensures IsTable(t[..], y)
  {
    hide Xor, HasSums, HasBits, Pw, Sum;
    Powers();
    SumsStart(t[..], y);
    BitsFrom(t[..], y, 0, 1);
    var j := 2;
    ghost var m := 1;
    while j < 256
      invariant 1 <= m <= 8 && j == Pw(m) && (j < 256 <==> m < 8)
      invariant HasSums(t[..], y, m, j) && HasBits(t[..], y, m)
      decreases 8 - m
    {
      SumsLift(t[..], y, m);
      PwStep(m);
      var k := 1;
      while k < j
        invariant 1 <= k <= j
        invariant HasSums(t[..], y, m + 1, j + k) && HasBits(t[..], y, m)
      {
        SumsNext(t[..], y, m, k);
        ghost var was := t[..];
        t[j + k] := Xor(t[j], t[k]);
        assert t[..] == was[j + k := Xor(was[j], was[k])];
        k := k + 1;
      }
      BitsFrom(t[..], y, m, m + 1);
      j := j + j;
      m := m + 1;
    }
    assert IsTable(t[..], y);
  }

  lemma {:induction false} PwStep(m: nat)
    requires m < 8
    ensures Pw(m + 1) == 2 * Pw(m) && Pw(m) <= 128 && (Pw(m + 1) < 256 <==> m + 1 < 8)
  {
    Powers();
    if m + 1 < 8 { PwGrows(m + 1, 8); } else { }
    PwGrows(m, 8);
  }

  lemma {:induction false} BitsFrom(t: seq<El>, y: El, lo: nat, hi: nat)
    requires HasBits(t, y, lo) && lo <= hi <= 8
    ensures HasBits(t, y, hi)
  {
  }

  lemma {:induction false} BitsPut(t: seq<El>, y: El, m: nat, e: El)
    requires m < 8 && HasBits(t, y, m + 1) && Pw(m) < 256 && e == Pow(y, 7 - m)
    ensures HasBits(t[Pw(m) := e], y, m)
  {
    hide Pow;
    HalfPw(m);
    forall m': nat | m <= m' < 8 ensures Pw(m') < 256 && t[Pw(m) := e][Pw(m')] == Pow(y, 7 - m') {
      if m < m' { PwGrows(m, m'); }
    }
  }

  lemma {:induction false} BitsDown(t: seq<El>, y: El, m: nat)
    requires m < 7 && HasBits(t, y, m + 1) && Pw(m) < 256 && 2 * Pw(m) < 256
    ensures HasBits(t[Pw(m) := MulX(t[2 * Pw(m)])], y, m)
  {
    assert t[Pw(m + 1)] == Pow(y, 6 - m) by { hide Pow; }
    hide MulX, HasBits;
    BitsPut(t, y, m, MulX(t[2 * Pw(m)]));
  }

  /** gf128mul_init_4k_lle */
  method Init4k(g: El) returns (t: array<El>)
    ensures fresh(t) && IsTable(t[..], g)
  {
    t := new El[256](_ => ZERO);
    FirstBits(t, g);
    FillSums(t, g);
  }

  lemma {:induction false} BitsTop(t: seq<El>, y: El)
    requires |t| == 256 && t[128] == y
    ensures HasBits(t, y, 7)
  {
    Powers();
    forall m: nat | 7 <= m < 8 ensures Pw(m) < 256 && t[Pw(m)] == Pow(y, 7 - m) { }
  }

  lemma {:induction false} HalfPw(m: nat)
    ensures Pw(m) / 2 == if m == 0 then 0 else Pw(m - 1)
    ensures Pw(m) > 0
  {
    if m > 0 { HalfPw(m - 1); }
  }

  // ---------------------------------------------------------------- the 4k product

  /** The bytes from i on, taken together as one polynomial. */
  function Tail(x: Bytes, y: El, i: nat): El
    requires i <= |x|
    decreases |x| - i
  {
    if i == |x| then ZERO else Xor(Pow(Tail(x, y, i + 1), 8), BitSum(x[i].v, y, 8))
  }

  lemma {:induction false} PowBitSum(b: bv8, y: El, k: nat, n: nat)
    requires k <= 8
    ensures Pow(BitSum(b, y, k), n) == BitSum(b, Pow(y, n), k)
  {
    hide Pow, Xor, BitOf;
    PowZero(n);
    if k > 0 {
      PowBitSum(b, y, k - 1, n);
      PowLinear(BitSum(b, y, k - 1), Chosen(BitOf(b, k - 1), Pow(y, k - 1)), n);
      PowAdd(y, k - 1, n);
      PowAdd(y, n, k - 1);
    }
  }

  lemma {:induction false} TailStep(x: Bytes, y: El, i: nat, n: nat)
    requires i < |x|
    ensures Pow(Tail(x, y, i), n) == Xor(Pow(Tail(x, y, i + 1), 8 + n), BitSum(x[i].v, Pow(y, n), 8))
  {
    hide Pow, Xor, BitSum;
    PowLinear(Pow(Tail(x, y, i + 1), 8), BitSum(x[i].v, y, 8), n);
    PowAdd(Tail(x, y, i + 1), 8, n);
    PowBitSum(x[i].v, y, 8, n);
  }

  /** Splitting the product after i bytes. */
  lemma {:induction false} TailIsProduct(x: Bytes, y: El, i: nat)
    requires i <= |x|
    ensures Tail(x, y, 0) == Xor(Partial(x, y, 8 * i), Pow(Tail(x, y, i), 8 * i))
  {
    hide Pow, Xor, BitSum, Tail;
    if i == 0 {
      PowNone(Tail(x, y, 0));
      XorLaws(ZERO, Tail(x, y, 0), ZERO);
      XorLaws(Tail(x, y, 0), ZERO, ZERO);
    } else {
      hide Partial;
      var n := 8 * (i - 1);
      TailIsProduct(x, y, i - 1);
      TailStep(x, y, i - 1, n);
      PartialByte(x, y, i - 1, 8);
      Regroup(Partial(x, y, n), Pow(Tail(x, y, i), 8 + n), BitSum(x[i - 1].v, Pow(y, n), 8));
    }
  }

  lemma {:induction false} Regroup(p: El, h: El, l: El)
    ensures Xor(p, Xor(h, l)) == Xor(Xor(p, l), h)
  {
    hide Xor;
    XorLaws(h, l, ZERO);
    XorLaws(p, l, h);
  }

  lemma {:induction false} PowNone(e: El)
    ensures Pow(e, 0) == e
  {
  }

  lemma {:induction false} TailEnds(x: Bytes, y: El)
    requires |x| == 16
    ensures Tail(x, y, 15) == BitSum(x[15].v, y, 8) && Tail(x, y, 0) == Product(x, y)
  {
    hide Pow, Xor, BitSum, Partial;
    PowZero(8);
    PowZero(128);
    XorLaws(ZERO, BitSum(x[15].v, y, 8), ZERO);
    XorLaws(BitSum(x[15].v, y, 8), ZERO, ZERO);
    TailIsProduct(x, y, 16);
    XorLaws(Partial(x, y, 128), ZERO, ZERO);
  }

  method Store(a: array<Byte>, r: El)
    requires a.Length == 16
    modifies a
    ensures a[..] == ToBytes(r)
  {
    var s := ToBytes(r);
    forall i | 0 <= i < 16 { a[i] := s[i]; }
  }

  /** gf128mul_4k_lle computes the product with the element the table was made for. */
  method Mul4k(a: array<Byte>, t: array<El>, ghost y: El)
    requires a.Length == 16 && IsTable(t[..], y)
    modifies a
    ensures a[..] == ToBytes(Product(old(a[..]), y))
  {
    hide IsTable, BitSum, Pow, Xor, X8Lle, Product, ToBytes;
    ghost var x := a[..];
    LookUp(t[..], y, a[15].v);
    var r := t[a[15].v as int];
    TailEnds(x, y);
    var i := 15;
    while i > 0
      invariant 0 <= i <= 15 && a[..] == x && r == Tail(x, y, i)
    {
      i := i - 1;
      X8IsEight(r);
      r := X8Lle(r);
      LookUp(t[..], y, a[i].v);
      r := Xor(r, t[a[i].v as int]);
    }
    Store(a, r);
  }

  // ---------------------------------------------------------------- the 64k product

  /** One table per byte: that of byte i is for y times x^(8i). */
  ghost predicate AreTables(t: seq<array<El>>, y: El, n: nat)
    reads t
  {
    && n <= |t| == 16 && (forall i, j :: 0 <= i < j < 16 ==> t[i] != t[j])
    && (forall i :: 0 <= i < n ==> IsTable(t[i][..], Pow(y, 8 * i)))
  }

  method NewTables() returns (t: seq<array<El>>)
    ensures |t| == 16 && (forall i, j :: 0 <= i < j < 16 ==> t[i] != t[j])
    ensures forall i :: 0 <= i < 16 ==> fresh(t[i]) && t[i].Length == 256 && t[i][0] == ZERO
  {
    t := [];
    var i := 0;
    while i < 16
      invariant 0 <= i <= 16 && |t| == i && (forall k, l :: 0 <= k < l < i ==> t[k] != t[l])
      invariant forall k :: 0 <= k < i ==> fresh(t[k]) && t[k].Length == 256 && t[k][0] == ZERO
    {
      var row := new El[256](_ => ZERO);
      t := t + [row];
      i := i + 1;
    }
  }

  /** The entries for single bits of the first table, from g down. */
  method FirstBits(t: array<El>, g: El)
    requires t.Length == 256 && t[0] == ZERO
    modifies t
    ensures t[0] == ZERO && HasBits(t[..], g, 0)
  {
    hide XLle, MulX, HasBits, Pw;
    t[128] := g;
    BitsTop(t[..], g);
    var j := 64;
    ghost var m: int := 6;
    Powers();
    while j > 0
      invariant -1 <= m < 7 && j == (if m < 0 then 0 else Pw(m)) && j <= 64
      invariant t[0] == ZERO && HasBits(t[..], g, m + 1)
      decreases j
    {
      XIsMulX(t[j + j]);
      BitsDown(t[..], g, m);
      ghost var was := t[..];
      t[j] := XLle(t[j + j]);
      assert t[..] == was[j := MulX(was[2 * j])];
      HalfPw(m);
      j := j / 2;
      m := m - 1;
    }
  }

  /** The entries for single bits of the next table, eight steps on. */
  method NextBits(t: array<El>, last: array<El>, ghost y: El)
    requires t != last && t.Length == 256 && t[0] == ZERO && IsTable(last[..], y)
    modifies t
    ensures t[0] == ZERO && HasBits(t[..], Pow(y, 8), 0)
  {
    hide X8Lle, HasBits, Pw, Pow, IsTable;
    BitsNone(t[..], Pow(y, 8));
    var j := 128;
    ghost var m: int := 7;
    Powers();
    while j > 0
      invariant -1 <= m < 8 && j == (if m < 0 then 0 else Pw(m)) && j <= 128
      invariant t[0] == ZERO && HasBits(t[..], Pow(y, 8), m + 1)
      decreases j
    {
      BitEntry(last[..], y, m);
      X8IsEight(last[j]);
      BitsNext(t[..], y, m);
      ghost var was := t[..];
      t[j] := X8Lle(last[j]);
      assert t[..] == was[j := Pow(Pow(y, 7 - m), 8)];
      HalfPw(m);
      j := j / 2;
      m := m - 1;
    }
  }

  lemma {:induction false} BitsNone(t: seq<El>, y: El)
    requires |t| == 256
    ensures HasBits(t, y, 8)
  {
  }

  lemma {:induction false} BitEntry(t: seq<El>, y: El, m: nat)
    requires IsTable(t, y) && m < 8
    ensures Pw(m) < 256 && |t| == 256 && t[Pw(m)] == Pow(y, 7 - m)
  {
    PwStep(m);
    HalfPw(m);
    SumSteps(y, m, 0);
    SumLift(Pw(m), m + 1, 8, y);
    hide Pow, Sum;
  }

  lemma {:induction false} SumLift(n: nat, m: nat, m': nat, y: El)
    requires m <= m' <= 8 && n < Pw(m)
    ensures n < Pw(m') && Sum(n, m', y) == Sum(n, m, y)
  {
    hide Pow, Xor;
    if m < m' {
      PwGrows(m, m');
      SumLift(n, m, m' - 1, y);
    }
  }

  lemma {:induction false} BitsNext(t: seq<El>, y: El, m: nat)
    requires m < 8 && HasBits(t, Pow(y, 8), m + 1) && Pw(m) < 256
    ensures HasBits(t[Pw(m) := Pow(Pow(y, 7 - m), 8)], Pow(y, 8), m)
  {
    hide Pow, HasBits;
    PowAdd(y, 7 - m, 8);
    PowAdd(y, 8, 7 - m);
    BitsPut(t, Pow(y, 8), m, Pow(Pow(y, 7 - m), 8));
  }

  /** gf128mul_init_64k_lle */
  method Init64k(g: El) returns (t: seq<array<El>>)
    ensures (forall i :: 0 <= i < |t| ==> fresh(t[i])) && AreTables(t, g, 16)
  {
    hide IsTable, HasBits, Pow;
    t := NewTables();
    FirstBits(t[0], g);
    FillSums(t[0], g);
    PowNone(g);
    var i := 1;
    while i < 16
      invariant 1 <= i <= 16 && |t| == 16 && AreTables(t, g, i)
      invariant forall k :: 0 <= k < 16 ==> fresh(t[k])
      invariant forall k :: i <= k < 16 ==> t[k].Length == 256 && t[k][0] == ZERO
    {
      NextBits(t[i], t[i - 1], Pow(g, 8 * (i - 1)));
      PowAdd(g, 8 * (i - 1), 8);
      FillSums(t[i], Pow(g, 8 * i));
      i := i + 1;
    }
  }

  /** gf128mul_64k_lle computes the same product. */
  method Mul64k(a: array<Byte>, t: seq<array<El>>, ghost y: El)
    requires a.Length == 16 && AreTables(t, y, 16)
    modifies a
    ensures a[..] == ToBytes(Product(old(a[..]), y))
  {
    hide IsTable, BitSum, Pow, Xor, Partial, ToBytes;
    ghost var x := a[..];
    PowNone(y);
    LookUp(t[0][..], y, a[0].v);
    var r := t[0][a[0].v as int];
    FirstByte(x, y);
    var i := 1;
    while i < 16
      invariant 1 <= i <= 16 && a[..] == x && r == Partial(x, y, 8 * i)
    {
      LookUp(t[i][..], Pow(y, 8 * i), a[i].v);
      PartialByte(x, y, i, 8);
      r := Xor(r, t[i][a[i].v as int]);
      i := i + 1;
    }
    Store(a, r);
  }

  lemma {:induction false} FirstByte(x: Bytes, y: El)
    requires |x| == 16
    ensures Partial(x, y, 8) == BitSum(x[0].v, y, 8)
  {
    hide BitSum, Pow, Xor;
    PartialByte(x, y, 0, 8);
    PowNone(y);
    XorLaws(ZERO, BitSum(x[0].v, y, 8), ZERO);
    XorLaws(BitSum(x[0].v, y, 8), ZERO, ZERO);
  }
}
