/**
  camellia_setup128, camellia_setup192, camellia_setup256 and camellia_set_key of crypto/camellia.c: the words of the key
  are rotated in place from one subkey to the next, and the subkeys are those of section 2.2 of RFC 3713.
 */
module CamelliaKeys {
  import opened Camellia
  import opened CamelliaRotate
  import opened CamelliaSetup
  import Rfc = CamelliaRfc

  // ---------------------------------------------------------------- section 2.2 of RFC 3713

  const SIGMA1: bv64 := 0xA09E667F3BCC908B
  const SIGMA2: bv64 := 0xB67AE8584CAA73B2
  const SIGMA3: bv64 := 0xC6EF372FE94F82BE
  const SIGMA4: bv64 := 0x54FF53A5F1D36F1C
  const SIGMA5: bv64 := 0x10E527FADE682D1D
  const SIGMA6: bv64 := 0xB05688C2B3E6C1FD

  /** KA and KB; d1 and d2 change step by step as in the RFC. */
  function KA(sb: Rfc.Sboxes, kl: bv128, kr: bv128): bv128 {
    var d1, d2 := Hi(Xor128(kl, kr)), Lo(Xor128(kl, kr));
    var d2 := Rfc.Xor64(d2, Rfc.F(sb, d1, SIGMA1));
    var d1 := Rfc.Xor64(d1, Rfc.F(sb, d2, SIGMA2));
    var d1, d2 := Rfc.Xor64(d1, Hi(kl)), Rfc.Xor64(d2, Lo(kl));
    var d2 := Rfc.Xor64(d2, Rfc.F(sb, d1, SIGMA3));
    var d1 := Rfc.Xor64(d1, Rfc.F(sb, d2, SIGMA4));
    Join(d1, d2)
  }

  function KB(sb: Rfc.Sboxes, ka: bv128, kr: bv128): bv128 {
    var d1, d2 := Hi(Xor128(ka, kr)), Lo(Xor128(ka, kr));
    var d2 := Rfc.Xor64(d2, Rfc.F(sb, d1, SIGMA5));
    var d1 := Rfc.Xor64(d1, Rfc.F(sb, d2, SIGMA6));
    Join(d1, d2)
  }

  /** The subkeys for a key of 128 bits. */
  function Keys128(kl: bv128, ka: bv128): Rfc.Keys {
    Rfc.Keys((i: nat) => Kw128(kl, ka, i), (i: nat) => K128(kl, ka, i), (i: nat) => Ke128(kl, ka, i))
  }

  function Kw128(kl: bv128, ka: bv128, i: nat): bv64 {
    match i
    case 1 => Hi(kl)
    case 2 => Lo(kl)
    case 3 => Hi(Rotl(ka, 111))
    case _ => Lo(Rotl(ka, 111))
  }

  function Ke128(kl: bv128, ka: bv128, i: nat): bv64 {
    match i
    case 1 => Hi(Rotl(ka, 30))
    case 2 => Lo(Rotl(ka, 30))
    case 3 => Hi(Rotl(kl, 77))
    case _ => Lo(Rotl(kl, 77))
  }

  function K128(kl: bv128, ka: bv128, i: nat): bv64 {
    match i
    case 1 => Hi(ka)
    case 2 => Lo(ka)
    case 3 => Hi(Rotl(kl, 15))
    case 4 => Lo(Rotl(kl, 15))
    case 5 => Hi(Rotl(ka, 15))
    case 6 => Lo(Rotl(ka, 15))
    case 7 => Hi(Rotl(kl, 45))
    case 8 => Lo(Rotl(kl, 45))
    case 9 => Hi(Rotl(ka, 45))
    case 10 => Lo(Rotl(kl, 60))
    case 11 => Hi(Rotl(ka, 60))
    case 12 => Lo(Rotl(ka, 60))
    case 13 => Hi(Rotl(kl, 94))
    case 14 => Lo(Rotl(kl, 94))
    case 15 => Hi(Rotl(ka, 94))
    case 16 => Lo(Rotl(ka, 94))
    case 17 => Hi(Rotl(kl, 111))
    case _ => Lo(Rotl(kl, 111))
  }

  /** The subkeys for a key of 192 or 256 bits. */
  function Keys256(kl: bv128, kr: bv128, ka: bv128, kb: bv128): Rfc.Keys {
    Rfc.Keys((i: nat) => Kw256(kl, kb, i), (i: nat) => K256(kl, kr, ka, kb, i), (i: nat) => Ke256(kl, kr, ka, i))
  }

  function Kw256(kl: bv128, kb: bv128, i: nat): bv64 {
    match i
    case 1 => Hi(kl)
    case 2 => Lo(kl)
    case 3 => Hi(Rotl(kb, 111))
    case _ => Lo(Rotl(kb, 111))
  }

  function Ke256(kl: bv128, kr: bv128, ka: bv128, i: nat): bv64 {
    match i
    case 1 => Hi(Rotl(kr, 30))
    case 2 => Lo(Rotl(kr, 30))
    case 3 => Hi(Rotl(kl, 60))
    case 4 => Lo(Rotl(kl, 60))
    case 5 => Hi(Rotl(ka, 77))
    case _ => Lo(Rotl(ka, 77))
  }

  function K256(kl: bv128, kr: bv128, ka: bv128, kb: bv128, i: nat): bv64 {
    match i
    case 1 => Hi(kb)
    case 2 => Lo(kb)
    case 3 => Hi(Rotl(kr, 15))
    case 4 => Lo(Rotl(kr, 15))
    case 5 => Hi(Rotl(ka, 15))
    case 6 => Lo(Rotl(ka, 15))
    case 7 => Hi(Rotl(kb, 30))
    case 8 => Lo(Rotl(kb, 30))
    case 9 => Hi(Rotl(kl, 45))
    case 10 => Lo(Rotl(kl, 45))
    case 11 => Hi(Rotl(ka, 45))
    case 12 => Lo(Rotl(ka, 45))
    case 13 => Hi(Rotl(kr, 60))
    case 14 => Lo(Rotl(kr, 60))
    case 15 => Hi(Rotl(kb, 60))
    case 16 => Lo(Rotl(kb, 60))
    case 17 => Hi(Rotl(kl, 77))
    case 18 => Lo(Rotl(kl, 77))
    case 19 => Hi(Rotl(kr, 94))
    case 20 => Lo(Rotl(kr, 94))
    case 21 => Hi(Rotl(ka, 94))
    case 22 => Lo(Rotl(ka, 94))
    case 23 => Hi(Rotl(kl, 111))
    case _ => Lo(Rotl(kl, 111))
  }

  /** The 128 bits of four words of the key. */
  function Part(key: seq<bv32>, i: nat): bv128
    requires i + 4 <= |key|
  {
    Words(key[i], key[i + 1], key[i + 2], key[i + 3]).Wide()
  }

  /** KR: the rest of the key, filled up with its complement if that is 64 bits, and zero if there is none. */
  function KR(key: seq<bv32>): bv128
    requires |key| in {4, 6, 8}
  {
    if |key| == 4 then 0
    else if |key| == 6 then Join(Rfc.Number(key[4], key[5]), !Rfc.Number(key[4], key[5]))
    else Part(key, 4)
  }

  /** The subkeys for a key of four, six or eight words. */
  function KeysOf(sb: Rfc.Sboxes, key: seq<bv32>): Rfc.Keys
    requires |key| in {4, 6, 8}
  {
    var kl, kr := Part(key, 0), KR(key);
    var ka := KA(sb, kl, kr);
    if |key| == 4 then Keys128(kl, ka) else Keys256(kl, kr, ka, KB(sb, ka, kr))
  }

  /** The number of groups of six rounds. */
  function Groups(key: seq<bv32>): nat { if |key| == 4 then 3 else 4 }

  /** k is the key table made from the subkeys for key. */
  ghost predicate Scheduled(sb: Rfc.Sboxes, key: seq<bv32>, k: seq<bv32>) {
    && |key| in {4, 6, 8} && |k| == 68
    && exists s :: IsSchedule(KeyPairs(k), s, Groups(key)) && Rfc.Holds(KeysOf(sb, key), s, Groups(key))
  }

  // ---------------------------------------------------------------- KA and KB

  /** The macro CAMELLIA_F. */
  method FMacro(tb: Tables, x: Half, k: Half) returns (y: Half)
    ensures y == F(tb, x, k)
  {
    hide Xor32, Ror8, Byte0, Byte1, Byte2, Byte3;
    var il, ir := Xor32(x.l, k.l), Xor32(x.r, k.r);
    var yl := Xor32(Xor32(Xor32(tb.sp1110(Byte0(ir)), tb.sp0222(Byte3(ir))), tb.sp3033(Byte2(ir))), tb.sp4404(Byte1(ir)));
    var yr := Xor32(Xor32(Xor32(tb.sp1110(Byte3(il)), tb.sp0222(Byte2(il))), tb.sp3033(Byte1(il))), tb.sp4404(Byte0(il)));
    Xor32Commutes(yl, yr);
    yl := Xor32(yl, yr);
    yr := Ror8(yr);
    yr := Xor32(yr, yl);
    y := Half(yl, yr);
  }

  /** The F-function with a constant given by its two words. */
  method Mix(sb: Rfc.Sboxes, x: Half, kl: bv32, kr: bv32) returns (y: Half)
    ensures Rfc.Pack(y) == Rfc.F(sb, Rfc.Pack(x), Rfc.Number(kl, kr))
  {
    hide F, Rfc.F, Rfc.TablesOf, Rfc.Number;
    y := FMacro(Rfc.TablesOf(sb), x, Half(kl, kr));
    Rfc.FIsF(sb, x, Half(kl, kr));
  }

  lemma Sigmas()
    ensures Rfc.Number(0xA09E667F, 0x3BCC908B) == SIGMA1
    ensures Rfc.Number(0xB67AE858, 0x4CAA73B2) == SIGMA2
    ensures Rfc.Number(0xC6EF372F, 0xE94F82BE) == SIGMA3
    ensures Rfc.Number(0x54FF53A5, 0xF1D36F1C) == SIGMA4
    ensures Rfc.Number(0x10E527FA, 0xDE682D1D) == SIGMA5
    ensures Rfc.Number(0xB05688C2, 0xB3E6C1FD) == SIGMA6
  {}

  /** KA as the code computes it: the left half of KL cancels out where the RFC adds it a second time, and so does the right
      half. */
  lemma KAIs(sb: Rfc.Sboxes, l1: bv64, l2: bv64, r1: bv64, r2: bv64)
    ensures var w := Rfc.F(sb, Rfc.Xor64(l1, r1), SIGMA1);
      var g := Rfc.Xor64(Rfc.F(sb, Rfc.Xor64(Rfc.Xor64(l2, r2), w), SIGMA2), r1);
      var h := Rfc.Xor64(Rfc.F(sb, g, SIGMA3), Rfc.Xor64(w, r2));
      KA(sb, Join(l1, l2), Join(r1, r2)) == Join(Rfc.Xor64(g, Rfc.F(sb, h, SIGMA4)), h)
  {
    hide Rfc.F, Rfc.Xor64, Join, Hi, Lo, Xor128;
    XorHalves(Join(l1, l2), Join(r1, r2));
    HiLo(l1, l2);
    HiLo(r1, r2);
    var w := Rfc.F(sb, Rfc.Xor64(l1, r1), SIGMA1);
    var e := Rfc.Xor64(Rfc.Xor64(l2, r2), w);
    var f := Rfc.F(sb, e, SIGMA2);
    Cancels(l1, r1, f);
    Cancels(l2, r2, w);
    var g := Rfc.Xor64(f, r1);
    Commutes(Rfc.Xor64(w, r2), Rfc.F(sb, g, SIGMA3));
  }

  lemma Cancels(l: bv64, r: bv64, f: bv64)
    ensures Rfc.Xor64(Rfc.Xor64(Rfc.Xor64(l, r), f), l) == Rfc.Xor64(f, r)
  {
    hide Rfc.Xor64;
    Commutes(l, r);
    Associates(r, l, f);
    Commutes(l, f);
    Associates(r, f, l);
    Twice(Rfc.Xor64(r, f), l);
    Commutes(r, f);
  }

  lemma Associates(x: bv64, y: bv64, z: bv64)
    ensures Rfc.Xor64(Rfc.Xor64(x, y), z) == Rfc.Xor64(x, Rfc.Xor64(y, z))
  {
    calc {
      Rfc.Xor64(Rfc.Xor64(x, y), z);
      Rfc.Xor64(x, y) ^ z;
      (x ^ y) ^ z;
      { AssociatesBits(x, y, z); }
      x ^ (y ^ z);
      x ^ Rfc.Xor64(y, z);
      Rfc.Xor64(x, Rfc.Xor64(y, z));
    }
  }

  lemma AssociatesBits(x: bv64, y: bv64, z: bv64)
    ensures (x ^ y) ^ z == x ^ (y ^ z)
  {}

  lemma Twice(x: bv64, y: bv64)
    ensures Rfc.Xor64(Rfc.Xor64(x, y), y) == x
  {}

  lemma Commutes(x: bv64, y: bv64)
    ensures Rfc.Xor64(x, y) == Rfc.Xor64(y, x)
  {}

  lemma KBIs(sb: Rfc.Sboxes, a1: bv64, a2: bv64, r1: bv64, r2: bv64)
    ensures var h := Rfc.Xor64(Rfc.Xor64(r2, a2), Rfc.F(sb, Rfc.Xor64(r1, a1), SIGMA5));
      KB(sb, Join(a1, a2), Join(r1, r2)) == Join(Rfc.Xor64(Rfc.Xor64(r1, a1), Rfc.F(sb, h, SIGMA6)), h)
  {
    hide Rfc.F, Rfc.Xor64, Join, Hi, Lo, Xor128;
    XorHalves(Join(a1, a2), Join(r1, r2));
    HiLo(a1, a2);
    HiLo(r1, r2);
    Commutes(a1, r1);
    Commutes(a2, r2);
  }

  /** The code for KA in camellia_setup256. */
  method MakeKA(sb: Rfc.Sboxes, kl: Words, kr: Words) returns (ka: Words)
    ensures ka.Wide() == KA(sb, kl.Wide(), kr.Wide())
  {
    hide Rfc.F, Rfc.Xor64, Rfc.Number, Join, Half.Xor, KA;
    Sigmas();
    PackXors();
    var x, y := kl.Left().Xor(kr.Left()), kl.Right().Xor(kr.Right());
    var w := Mix(sb, x, 0xA09E667F, 0x3BCC908B);
    y := y.Xor(w);
    x := Mix(sb, y, 0xB67AE858, 0x4CAA73B2);
    x := x.Xor(kr.Left());
    y := Mix(sb, x, 0xC6EF372F, 0xE94F82BE);
    y := y.Xor(w.Xor(kr.Right()));
    w := Mix(sb, y, 0x54FF53A5, 0xF1D36F1C);
    x := x.Xor(w);
    ka := Words(x.l, x.r, y.l, y.r);
    KAIs(sb, Rfc.Pack(kl.Left()), Rfc.Pack(kl.Right()), Rfc.Pack(kr.Left()), Rfc.Pack(kr.Right()));
  }

  lemma PackXors()
    ensures forall x: Half, y: Half :: Rfc.Pack(x.Xor(y)) == Rfc.Xor64(Rfc.Pack(x), Rfc.Pack(y))
  {
    hide Rfc.Pack, Rfc.Xor64;
    forall x: Half, y: Half ensures Rfc.Pack(x.Xor(y)) == Rfc.Xor64(Rfc.Pack(x), Rfc.Pack(y)) {
      Rfc.PackXor(x, y);
    }
  }

  /** The code for KA in camellia_setup128, which has no KR. */
  method MakeKA128(sb: Rfc.Sboxes, kl: Words) returns (ka: Words)
    ensures ka.Wide() == KA(sb, kl.Wide(), 0)
  {
    hide Rfc.F, Rfc.Xor64, Rfc.Number, Join, Half.Xor, KA;
    Sigmas();
    PackXors();
    var x, y := kl.Left(), kl.Right();
    var w := Mix(sb, x, 0xA09E667F, 0x3BCC908B);
    y := y.Xor(w);
    x := Mix(sb, y, 0xB67AE858, 0x4CAA73B2);
    y := Mix(sb, x, 0xC6EF372F, 0xE94F82BE);
    y := y.Xor(w);
    w := Mix(sb, y, 0x54FF53A5, 0xF1D36F1C);
    x := x.Xor(w);
    ka := Words(x.l, x.r, y.l, y.r);
    KAIs(sb, Rfc.Pack(kl.Left()), Rfc.Pack(kl.Right()), 0, 0);
    Nothing();
  }

  lemma Nothing()
    ensures Join(0, 0) == 0 && forall x: bv64 :: Rfc.Xor64(x, 0) == x
  {}

  method MakeKB(sb: Rfc.Sboxes, ka: Words, kr: Words) returns (kb: Words)
    ensures kb.Wide() == KB(sb, ka.Wide(), kr.Wide())
  {
    hide Rfc.F, Rfc.Xor64, Rfc.Number, Join, Half.Xor, KB;
    Sigmas();
    PackXors();
    var x, y := kr.Left().Xor(ka.Left()), kr.Right().Xor(ka.Right());
    var w := Mix(sb, x, 0x10E527FA, 0xDE682D1D);
    y := y.Xor(w);
    w := Mix(sb, y, 0xB05688C2, 0xB3E6C1FD);
    x := x.Xor(w);
    kb := Words(x.l, x.r, y.l, y.r);
    KBIs(sb, Rfc.Pack(ka.Left()), Rfc.Pack(ka.Right()), Rfc.Pack(kr.Left()), Rfc.Pack(kr.Right()));
  }

  // ---------------------------------------------------------------- the subkeys

  /** The numbers in the slots of the two arrays. */
  function Slots(subL: seq<bv32>, subR: seq<bv32>): (v: seq<bv64>)
    requires |subL| == |subR|
    ensures |v| == |subL|
  {
    seq(|subL|, i requires 0 <= i < |subL| => Rfc.Number(subL[i], subR[i]))
  }

  /** Both halves of x in slots i and i + 1. */
  function With(v: seq<bv64>, i: nat, x: bv128): (u: seq<bv64>)
    requires i + 1 < |v|
    ensures |u| == |v|
  {
    v[i := Hi(x)][i + 1 := Lo(x)]
  }

  predicate Slot(v: seq<bv64>, i: nat, x: bv64) { i < |v| && v[i] == x }

  predicate At(v: seq<bv64>, i: nat, x: bv128) { Slot(v, i, Hi(x)) && Slot(v, i + 1, Lo(x)) }

  lemma WithAt(v: seq<bv64>, i: nat, x: bv128)
    requires i + 1 < |v|
    ensures At(With(v, i, x), i, x)
    ensures forall k: nat, y :: Slot(v, k, y) && (k < i || k > i + 1) ==> Slot(With(v, i, x), k, y)
  {}

  lemma UpdateAt(v: seq<bv64>, i: nat, x: bv64)
    requires i < |v|
    ensures Slot(v[i := x], i, x)
    ensures forall k: nat, y :: Slot(v, k, y) && k != i ==> Slot(v[i := x], k, y)
  {}

  /** The same slots as pairs of words. */
  ghost predicate Holding(s: seq<Half>, u: seq<bv64>) { |s| == |u| && forall i :: 0 <= i < |s| ==> Rfc.Pack(s[i]) == u[i] }

  lemma PairsHold(subL: seq<bv32>, subR: seq<bv32>)
    requires |subL| == |subR|
    ensures Holding(Pairs(subL, subR), Slots(subL, subR))
  {
    hide Rfc.Number;
  }

  /** Both halves of w, or one of them, go to the slots from i on. */
  method Put(subL: array<bv32>, subR: array<bv32>, i: nat, w: Words)
    requires subL != subR && subL.Length == subR.Length && i + 1 < subL.Length
    modifies subL, subR
    ensures Slots(subL[..], subR[..]) == With(old(Slots(subL[..], subR[..])), i, w.Wide())
  {
    hide Hi, Lo, Rfc.Number, Join;
    HiLo(Rfc.Number(w.ll, w.lr), Rfc.Number(w.rl, w.rr));
    subL[i], subR[i] := w.ll, w.lr;
    subL[i + 1], subR[i + 1] := w.rl, w.rr;
  }

  method PutLeft(subL: array<bv32>, subR: array<bv32>, i: nat, w: Words)
    requires subL != subR && subL.Length == subR.Length && i < subL.Length
    modifies subL, subR
    ensures Slots(subL[..], subR[..]) == old(Slots(subL[..], subR[..]))[i := Hi(w.Wide())]
  {
    hide Hi, Lo, Rfc.Number, Join;
    HiLo(Rfc.Number(w.ll, w.lr), Rfc.Number(w.rl, w.rr));
    subL[i], subR[i] := w.ll, w.lr;
  }

  method PutRight(subL: array<bv32>, subR: array<bv32>, i: nat, w: Words)
    requires subL != subR && subL.Length == subR.Length && i < subL.Length
    modifies subL, subR
    ensures Slots(subL[..], subR[..]) == old(Slots(subL[..], subR[..]))[i := Lo(w.Wide())]
  {
    hide Hi, Lo, Rfc.Number, Join;
    HiLo(Rfc.Number(w.ll, w.lr), Rfc.Number(w.rl, w.rr));
    subL[i], subR[i] := w.rl, w.rr;
  }

  // ---------------------------------------------------------------- 128 bits

  /** All that goes to the slots from KL, and what they then hold; the other passes likewise. */
  function WithKL128(v: seq<bv64>, kl: bv128): (u: seq<bv64>)
    requires |v| == 26
    ensures |u| == 26
  {
    var v := With(With(With(v, 0, kl), 4, Rotl(kl, 15)), 10, Rotl(kl, 45))[13 := Lo(Rotl(kl, 60))];
    With(With(With(v, 16, Rotl(kl, 77)), 18, Rotl(kl, 94)), 22, Rotl(kl, 111))
  }

  ghost predicate FromKL128(u: seq<bv64>, kl: bv128) {
    && |u| == 26
    && At(u, 0, kl) && At(u, 4, Rotl(kl, 15)) && At(u, 10, Rotl(kl, 45)) && Slot(u, 13, Lo(Rotl(kl, 60)))
    && At(u, 16, Rotl(kl, 77)) && At(u, 18, Rotl(kl, 94)) && At(u, 22, Rotl(kl, 111))
  }

  function WithKA128(v: seq<bv64>, ka: bv128): (u: seq<bv64>)
    requires |v| == 26
    ensures |u| == 26
  {
    var v := With(With(With(v, 2, ka), 6, Rotl(ka, 15)), 8, Rotl(ka, 30))[12 := Hi(Rotl(ka, 45))];
    With(With(With(v, 14, Rotl(ka, 60)), 20, Rotl(ka, 94)), 24, Rotl(ka, 111))
  }

  ghost predicate FromKA128(u: seq<bv64>, ka: bv128) {
    && |u| == 26
    && At(u, 2, ka) && At(u, 6, Rotl(ka, 15)) && At(u, 8, Rotl(ka, 30)) && Slot(u, 12, Hi(Rotl(ka, 45)))
    && At(u, 14, Rotl(ka, 60)) && At(u, 20, Rotl(ka, 94)) && At(u, 24, Rotl(ka, 111))
  }

  /** The subkeys from KL, each from the one before. */
  method PutKL128(subL: array<bv32>, subR: array<bv32>, kl: Words)
    requires subL != subR && subL.Length == subR.Length == 26
    modifies subL, subR
    ensures Slots(subL[..], subR[..]) == WithKL128(old(Slots(subL[..], subR[..])), kl.Wide())
  {
    hide Rotl, Hi, Lo, Words.Wide, Slots, With;
    ghost var x := kl.Wide();
    Put(subL, subR, 0, kl);
    var w := Roldq(kl, 15);
    Put(subL, subR, 4, w);
    w := Roldq(w, 30);
    RotlTwice(x, 15, 30);
    Put(subL, subR, 10, w);
    w := Roldq(w, 15);
    RotlTwice(x, 45, 15);
    PutRight(subL, subR, 13, w);
    w := Roldq(w, 17);
    RotlTwice(x, 60, 17);
    Put(subL, subR, 16, w);
    w := Roldq(w, 17);
    RotlTwice(x, 77, 17);
    Put(subL, subR, 18, w);
    w := Roldq(w, 17);
    RotlTwice(x, 94, 17);
    Put(subL, subR, 22, w);
  }

  method PutKA128(subL: array<bv32>, subR: array<bv32>, ka: Words)
    requires subL != subR && subL.Length == subR.Length == 26
    modifies subL, subR
    ensures Slots(subL[..], subR[..]) == WithKA128(old(Slots(subL[..], subR[..])), ka.Wide())
  {
    hide Rotl, Hi, Lo, Words.Wide, Slots, With;
    ghost var x := ka.Wide();
    Put(subL, subR, 2, ka);
    var w := Roldq(ka, 15);
    Put(subL, subR, 6, w);
    w := Roldq(w, 15);
    RotlTwice(x, 15, 15);
    Put(subL, subR, 8, w);
    w := Roldq(w, 15);
    RotlTwice(x, 30, 15);
    PutLeft(subL, subR, 12, w);
    w := Roldq(w, 15);
    RotlTwice(x, 45, 15);
    Put(subL, subR, 14, w);
    w := RoldqO32(w, 34);
    RotlTwice(x, 60, 34);
    Put(subL, subR, 20, w);
    w := Roldq(w, 17);
    RotlTwice(x, 94, 17);
    Put(subL, subR, 24, w);
  }

  lemma {:induction false} PlacesKL128(v: seq<bv64>, kl: bv128)
    requires |v| == 26
    ensures FromKL128(WithKL128(v, kl), kl)
  {
    hide Rotl, Hi, Lo, With, Slot;
    WithAt(v, 0, kl);
    var v1 := With(v, 0, kl);
    WithAt(v1, 4, Rotl(kl, 15));
    var v2 := With(v1, 4, Rotl(kl, 15));
    WithAt(v2, 10, Rotl(kl, 45));
    var v3 := With(v2, 10, Rotl(kl, 45));
    UpdateAt(v3, 13, Lo(Rotl(kl, 60)));
    var v4 := v3[13 := Lo(Rotl(kl, 60))];
    WithAt(v4, 16, Rotl(kl, 77));
    var v5 := With(v4, 16, Rotl(kl, 77));
    WithAt(v5, 18, Rotl(kl, 94));
    var v6 := With(v5, 18, Rotl(kl, 94));
    WithAt(v6, 22, Rotl(kl, 111));
  }

  lemma {:induction false} PlacesKA128(v: seq<bv64>, ka: bv128)
    requires |v| == 26
    ensures FromKA128(WithKA128(v, ka), ka)
  {
    hide Rotl, Hi, Lo, With, Slot;
    WithAt(v, 2, ka);
    var v1 := With(v, 2, ka);
    WithAt(v1, 6, Rotl(ka, 15));
    var v2 := With(v1, 6, Rotl(ka, 15));
    WithAt(v2, 8, Rotl(ka, 30));
    var v3 := With(v2, 8, Rotl(ka, 30));
    UpdateAt(v3, 12, Hi(Rotl(ka, 45)));
    var v4 := v3[12 := Hi(Rotl(ka, 45))];
    WithAt(v4, 14, Rotl(ka, 60));
    var v5 := With(v4, 14, Rotl(ka, 60));
    WithAt(v5, 20, Rotl(ka, 94));
    var v6 := With(v5, 20, Rotl(ka, 94));
    WithAt(v6, 24, Rotl(ka, 111));
  }

  lemma {:induction false} KeepsKA128(v: seq<bv64>, ka: bv128, k: nat, x: bv64)
    requires |v| == 26 && Slot(v, k, x)
    requires k < 2 || 3 < k < 6 || 9 < k < 12 || k == 13 || 15 < k < 20 || 21 < k < 24
    ensures Slot(WithKA128(v, ka), k, x)
  {
    hide Rotl, Hi, Lo, With, Slot;
    WithAt(v, 2, ka);
    var v1 := With(v, 2, ka);
    WithAt(v1, 6, Rotl(ka, 15));
    var v2 := With(v1, 6, Rotl(ka, 15));
    WithAt(v2, 8, Rotl(ka, 30));
    var v3 := With(v2, 8, Rotl(ka, 30));
    UpdateAt(v3, 12, Hi(Rotl(ka, 45)));
    var v4 := v3[12 := Hi(Rotl(ka, 45))];
    WithAt(v4, 14, Rotl(ka, 60));
    var v5 := With(v4, 14, Rotl(ka, 60));
    WithAt(v5, 20, Rotl(ka, 94));
    var v6 := With(v5, 20, Rotl(ka, 94));
    WithAt(v6, 24, Rotl(ka, 111));
  }

  lemma {:induction false} Places128(v: seq<bv64>, kl: bv128, ka: bv128)
    requires |v| == 26
    ensures var u := WithKA128(WithKL128(v, kl), ka); FromKL128(u, kl) && FromKA128(u, ka)
  {
    hide Rotl, Hi, Lo, Slot, WithKL128, WithKA128;
    var w := WithKL128(v, kl);
    PlacesKL128(v, kl);
    PlacesKA128(w, ka);
    forall k: nat, x | Slot(w, k, x) && k in {0, 1, 4, 5, 10, 11, 13, 16, 17, 18, 19, 22, 23} ensures Slot(WithKA128(w, ka), k, x) {
      KeepsKA128(w, ka, k, x);
    }
  }

  lemma {:induction false} Holds128(s: seq<Half>, u: seq<bv64>, kl: bv128, ka: bv128)
    requires FromKL128(u, kl) && FromKA128(u, ka) && Holding(s, u)
    ensures Rfc.Holds(Keys128(kl, ka), s, 3)
  {
    hide Rfc.Pack, K128, Kw128, Ke128, FromKL128, FromKA128;
    Edge128(u, kl, ka);
    forall g, i | 0 <= g < 3 && 0 <= i < 6 ensures Keys128(kl, ka).k(Rfc.RoundNo(g, i)) == Rfc.Pack(s[8 * g + 2 + i]) {
      RoundKey128(u, kl, ka, g, i);
    }
    forall g, i | 0 <= g < 2 && 0 <= i < 2 ensures Keys128(kl, ka).ke(Rfc.LayerNo(g, i)) == Rfc.Pack(s[8 * g + 8 + i]) {
      LayerKey128(u, kl, ka, g, i);
    }
  }

  lemma Edge128(u: seq<bv64>, kl: bv128, ka: bv128)
    requires FromKL128(u, kl) && FromKA128(u, ka)
    ensures |u| == 26 && Kw128(kl, ka, 1) == u[0] && Kw128(kl, ka, 2) == u[1] && Kw128(kl, ka, 3) == u[24] && Kw128(kl, ka, 4) == u[25]
  {
    hide Hi, Lo, Rotl;
  }

  lemma LayerKey128(u: seq<bv64>, kl: bv128, ka: bv128, g: nat, i: nat)
    requires FromKL128(u, kl) && FromKA128(u, ka) && g < 2 && i < 2
    ensures Ke128(kl, ka, 2 * g + 1 + i) == u[8 * g + 8 + i]
  {
    hide Hi, Lo, Rotl;
  }

  lemma {:induction false} RoundKey128(u: seq<bv64>, kl: bv128, ka: bv128, g: nat, i: nat)
    requires FromKL128(u, kl) && FromKA128(u, ka) && g < 3 && i < 6
    ensures K128(kl, ka, 6 * g + 1 + i) == u[8 * g + 2 + i]
  {
    hide Hi, Lo, Rotl;
    if g == 0 { assert i in {0, 1, 2, 3, 4, 5}; }
    else if g == 1 { assert i in {0, 1, 2, 3, 4, 5}; }
    else { assert i in {0, 1, 2, 3, 4, 5}; }
  }

  /** camellia_setup128 */
  method Setup128(sb: Rfc.Sboxes, key: seq<bv32>, subkey: array<bv32>)
    requires |key| == 4 && subkey.Length == 68
    modifies subkey
    ensures Scheduled(sb, key, subkey[..])
  {
    hide FromKL128, FromKA128, WithKL128, WithKA128, Words.Wide, Pairs, Slots, Holding, KeyPairs, KA, Keys128;
    hide Rfc.Holds, IsSchedule, FastEncrypt, PlainEncrypt;
    var subL, subR := new bv32[26], new bv32[26];
    ghost var v := Slots(subL[..], subR[..]);
    var kl := Words(key[0], key[1], key[2], key[3]);
    PutKL128(subL, subR, kl);
    var ka := MakeKA128(sb, kl);
    PutKA128(subL, subR, ka);
    Places128(v, kl.Wide(), ka.Wide());
    PairsHold(subL[..], subR[..]);
    ghost var s := Pairs(subL[..], subR[..]);
    Holds128(s, Slots(subL[..], subR[..]), kl.Wide(), ka.Wide());
    SetupTail(subkey, subL, subR, 24);
    assert IsSchedule(KeyPairs(subkey[..]), s, Groups(key)) && Rfc.Holds(KeysOf(sb, key), s, Groups(key));
  }

  // ---------------------------------------------------------------- 192 and 256 bits

  function WithKL256(v: seq<bv64>, kl: bv128): (u: seq<bv64>)
    requires |v| == 34
    ensures |u| == 34
  {
    var v := With(With(With(v, 0, kl), 12, Rotl(kl, 45)), 16, Rotl(kl, 60));
    With(With(v, 22, Rotl(kl, 77)), 30, Rotl(kl, 111))
  }

  ghost predicate FromKL256(u: seq<bv64>, kl: bv128) {
    && |u| == 34
    && At(u, 0, kl) && At(u, 12, Rotl(kl, 45)) && At(u, 16, Rotl(kl, 60)) && At(u, 22, Rotl(kl, 77))
    && At(u, 30, Rotl(kl, 111))
  }

  function WithKR256(v: seq<bv64>, kr: bv128): (u: seq<bv64>)
    requires |v| == 34
    ensures |u| == 34
  {
    var v := With(With(v, 4, Rotl(kr, 15)), 8, Rotl(kr, 30));
    With(With(v, 18, Rotl(kr, 60)), 26, Rotl(kr, 94))
  }

  ghost predicate FromKR256(u: seq<bv64>, kr: bv128) {
    && |u| == 34
    && At(u, 4, Rotl(kr, 15)) && At(u, 8, Rotl(kr, 30)) && At(u, 18, Rotl(kr, 60)) && At(u, 26, Rotl(kr, 94))
  }

  function WithKA256(v: seq<bv64>, ka: bv128): (u: seq<bv64>)
    requires |v| == 34
    ensures |u| == 34
  {
    var v := With(With(v, 6, Rotl(ka, 15)), 14, Rotl(ka, 45));
    With(With(v, 24, Rotl(ka, 77)), 28, Rotl(ka, 94))
  }

  ghost predicate FromKA256(u: seq<bv64>, ka: bv128) {
    && |u| == 34
    && At(u, 6, Rotl(ka, 15)) && At(u, 14, Rotl(ka, 45)) && At(u, 24, Rotl(ka, 77)) && At(u, 28, Rotl(ka, 94))
  }

  function WithKB256(v: seq<bv64>, kb: bv128): (u: seq<bv64>)
    requires |v| == 34
    ensures |u| == 34
  {
    var v := With(With(v, 2, kb), 10, Rotl(kb, 30));
    With(With(v, 20, Rotl(kb, 60)), 32, Rotl(kb, 111))
  }

  ghost predicate FromKB256(u: seq<bv64>, kb: bv128) {
    && |u| == 34
    && At(u, 2, kb) && At(u, 10, Rotl(kb, 30)) && At(u, 20, Rotl(kb, 60)) && At(u, 32, Rotl(kb, 111))
  }

  method PutKL256(subL: array<bv32>, subR: array<bv32>, kl: Words)
    requires subL != subR && subL.Length == subR.Length == 34
    modifies subL, subR
    ensures Slots(subL[..], subR[..]) == WithKL256(old(Slots(subL[..], subR[..])), kl.Wide())
  {
    hide Rotl, Hi, Lo, Words.Wide, Slots, With;
    ghost var x := kl.Wide();
    Put(subL, subR, 0, kl);
    var w := RoldqO32(kl, 45);
    Put(subL, subR, 12, w);
    w := Roldq(w, 15);
    RotlTwice(x, 45, 15);
    Put(subL, subR, 16, w);
    w := Roldq(w, 17);
    RotlTwice(x, 60, 17);
    Put(subL, subR, 22, w);
    w := RoldqO32(w, 34);
    RotlTwice(x, 77, 34);
    Put(subL, subR, 30, w);
  }

  /** The last rotation brings back KR itself. */
  method PutKR256(subL: array<bv32>, subR: array<bv32>, kr: Words) returns (w: Words)
    requires subL != subR && subL.Length == subR.Length == 34
    modifies subL, subR
    ensures Slots(subL[..], subR[..]) == WithKR256(old(Slots(subL[..], subR[..])), kr.Wide())
    ensures w.Wide() == kr.Wide()
  {
    hide Rotl, Hi, Lo, Words.Wide, Slots, With;
    ghost var x := kr.Wide();
    w := Roldq(kr, 15);
    Put(subL, subR, 4, w);
    w := Roldq(w, 15);
    RotlTwice(x, 15, 15);
    Put(subL, subR, 8, w);
    w := Roldq(w, 30);
    RotlTwice(x, 30, 30);
    Put(subL, subR, 18, w);
    w := RoldqO32(w, 34);
    RotlTwice(x, 60, 34);
    Put(subL, subR, 26, w);
    w := RoldqO32(w, 34);
    RotlTwice(x, 94, 34);
    Rotl128Is(x);
  }

  method PutKA256(subL: array<bv32>, subR: array<bv32>, ka: Words)
    requires subL != subR && subL.Length == subR.Length == 34
    modifies subL, subR
    ensures Slots(subL[..], subR[..]) == WithKA256(old(Slots(subL[..], subR[..])), ka.Wide())
  {
    hide Rotl, Hi, Lo, Words.Wide, Slots, With;
    ghost var x := ka.Wide();
    var w := Roldq(ka, 15);
    Put(subL, subR, 6, w);
    w := Roldq(w, 30);
    RotlTwice(x, 15, 30);
    Put(subL, subR, 14, w);
    TurnedIs(w);
    RotlTwice(x, 45, 32);
    Put(subL, subR, 24, Words(w.lr, w.rl, w.rr, w.ll));
    w := RoldqO32(w, 49);
    RotlTwice(x, 45, 49);
    Put(subL, subR, 28, w);
  }

  method PutKB256(subL: array<bv32>, subR: array<bv32>, kb: Words)
    requires subL != subR && subL.Length == subR.Length == 34
    modifies subL, subR
    ensures Slots(subL[..], subR[..]) == WithKB256(old(Slots(subL[..], subR[..])), kb.Wide())
  {
    hide Rotl, Hi, Lo, Words.Wide, Slots, With;
    ghost var x := kb.Wide();
    Put(subL, subR, 2, kb);
    var w := Roldq(kb, 30);
    Put(subL, subR, 10, w);
    w := Roldq(w, 30);
    RotlTwice(x, 30, 30);
    Put(subL, subR, 20, w);
    w := RoldqO32(w, 51);
    RotlTwice(x, 60, 51);
    Put(subL, subR, 32, w);
  }

  lemma {:induction false} PlacesKL256(v: seq<bv64>, kl: bv128)
    requires |v| == 34
    ensures FromKL256(WithKL256(v, kl), kl)
  {
    hide Rotl, Hi, Lo, With, Slot;
    WithAt(v, 0, kl);
    var v1 := With(v, 0, kl);
    WithAt(v1, 12, Rotl(kl, 45));
    var v2 := With(v1, 12, Rotl(kl, 45));
    WithAt(v2, 16, Rotl(kl, 60));
    var v3 := With(v2, 16, Rotl(kl, 60));
    WithAt(v3, 22, Rotl(kl, 77));
    var v4 := With(v3, 22, Rotl(kl, 77));
    WithAt(v4, 30, Rotl(kl, 111));
  }

  lemma {:induction false} PlacesKR256(v: seq<bv64>, kr: bv128)
    requires |v| == 34
    ensures FromKR256(WithKR256(v, kr), kr)
  {
    hide Rotl, Hi, Lo, With, Slot;
    WithAt(v, 4, Rotl(kr, 15));
    var v1 := With(v, 4, Rotl(kr, 15));
    WithAt(v1, 8, Rotl(kr, 30));
    var v2 := With(v1, 8, Rotl(kr, 30));
    WithAt(v2, 18, Rotl(kr, 60));
    var v3 := With(v2, 18, Rotl(kr, 60));
    WithAt(v3, 26, Rotl(kr, 94));
  }

  lemma {:induction false} KeepsKR256(v: seq<bv64>, kr: bv128, k: nat, x: bv64)
    requires |v| == 34 && Slot(v, k, x)
    requires k < 4 || 5 < k < 8 || 9 < k < 18 || 19 < k < 26 || 27 < k
    ensures Slot(WithKR256(v, kr), k, x)
  {
    hide Rotl, Hi, Lo, With, Slot;
    WithAt(v, 4, Rotl(kr, 15));
    var v1 := With(v, 4, Rotl(kr, 15));
    WithAt(v1, 8, Rotl(kr, 30));
    var v2 := With(v1, 8, Rotl(kr, 30));
    WithAt(v2, 18, Rotl(kr, 60));
    var v3 := With(v2, 18, Rotl(kr, 60));
    WithAt(v3, 26, Rotl(kr, 94));
  }

  lemma {:induction false} PlacesKA256(v: seq<bv64>, ka: bv128)
    requires |v| == 34
    ensures FromKA256(WithKA256(v, ka), ka)
  {
    hide Rotl, Hi, Lo, With, Slot;
    WithAt(v, 6, Rotl(ka, 15));
    var v1 := With(v, 6, Rotl(ka, 15));
    WithAt(v1, 14, Rotl(ka, 45));
    var v2 := With(v1, 14, Rotl(ka, 45));
    WithAt(v2, 24, Rotl(ka, 77));
    var v3 := With(v2, 24, Rotl(ka, 77));
    WithAt(v3, 28, Rotl(ka, 94));
  }

  lemma {:induction false} KeepsKA256(v: seq<bv64>, ka: bv128, k: nat, x: bv64)
    requires |v| == 34 && Slot(v, k, x)
    requires k < 6 || 7 < k < 14 || 15 < k < 24 || 25 < k < 28 || 29 < k
    ensures Slot(WithKA256(v, ka), k, x)
  {
    hide Rotl, Hi, Lo, With, Slot;
    WithAt(v, 6, Rotl(ka, 15));
    var v1 := With(v, 6, Rotl(ka, 15));
    WithAt(v1, 14, Rotl(ka, 45));
    var v2 := With(v1, 14, Rotl(ka, 45));
    WithAt(v2, 24, Rotl(ka, 77));
    var v3 := With(v2, 24, Rotl(ka, 77));
    WithAt(v3, 28, Rotl(ka, 94));
  }

  lemma {:induction false} PlacesKB256(v: seq<bv64>, kb: bv128)
    requires |v| == 34
    ensures FromKB256(WithKB256(v, kb), kb)
  {
    hide Rotl, Hi, Lo, With, Slot;
    WithAt(v, 2, kb);
    var v1 := With(v, 2, kb);
    WithAt(v1, 10, Rotl(kb, 30));
    var v2 := With(v1, 10, Rotl(kb, 30));
    WithAt(v2, 20, Rotl(kb, 60));
    var v3 := With(v2, 20, Rotl(kb, 60));
    WithAt(v3, 32, Rotl(kb, 111));
  }

  lemma {:induction false} KeepsKB256(v: seq<bv64>, kb: bv128, k: nat, x: bv64)
    requires |v| == 34 && Slot(v, k, x)
    requires k < 2 || 3 < k < 10 || 11 < k < 20 || 21 < k < 32
    ensures Slot(WithKB256(v, kb), k, x)
  {
    hide Rotl, Hi, Lo, With, Slot;
    WithAt(v, 2, kb);
    var v1 := With(v, 2, kb);
    WithAt(v1, 10, Rotl(kb, 30));
    var v2 := With(v1, 10, Rotl(kb, 30));
    WithAt(v2, 20, Rotl(kb, 60));
    var v3 := With(v2, 20, Rotl(kb, 60));
    WithAt(v3, 32, Rotl(kb, 111));
  }

  ghost predicate From256(u: seq<bv64>, kl: bv128, kr: bv128, ka: bv128, kb: bv128) {
    FromKL256(u, kl) && FromKR256(u, kr) && FromKA256(u, ka) && FromKB256(u, kb)
  }

  lemma {:induction false} Places256(v: seq<bv64>, kl: bv128, kr: bv128, ka: bv128, kb: bv128)
    requires |v| == 34
    ensures From256(WithKB256(WithKA256(WithKR256(WithKL256(v, kl), kr), ka), kb), kl, kr, ka, kb)
  {
    hide FromKL256, FromKR256, FromKA256, FromKB256, WithKL256, WithKR256, WithKA256, WithKB256;
    var v1 := WithKL256(v, kl);
    var v2 := WithKR256(v1, kr);
    var v3 := WithKA256(v2, ka);
    PlacesKL256(v, kl);
    PlacesKR256(v1, kr);
    PlacesKA256(v2, ka);
    PlacesKB256(v3, kb);
    StaysKL(v1, v2, v3, kl, kr, ka, kb);
    StaysKR(v2, v3, kr, ka, kb);
    StaysKA(v3, ka, kb);
  }

  lemma {:induction false} StaysKL(v1: seq<bv64>, v2: seq<bv64>, v3: seq<bv64>, kl: bv128, kr: bv128, ka: bv128, kb: bv128)
    requires FromKL256(v1, kl) && v2 == WithKR256(v1, kr) && v3 == WithKA256(v2, ka)
    ensures FromKL256(WithKB256(v3, kb), kl)
  {
    hide Rotl, Hi, Lo, Slot, WithKR256, WithKA256, WithKB256;
    forall k: nat, x | Slot(v1, k, x) && k in {0, 1, 12, 13, 16, 17, 22, 23, 30, 31} ensures Slot(WithKB256(v3, kb), k, x) {
      KeepsKR256(v1, kr, k, x);
      KeepsKA256(v2, ka, k, x);
      KeepsKB256(v3, kb, k, x);
    }
  }

  lemma {:induction false} StaysKR(v2: seq<bv64>, v3: seq<bv64>, kr: bv128, ka: bv128, kb: bv128)
    requires FromKR256(v2, kr) && v3 == WithKA256(v2, ka)
    ensures FromKR256(WithKB256(v3, kb), kr)
  {
    hide Rotl, Hi, Lo, Slot, WithKA256, WithKB256;
    forall k: nat, x | Slot(v2, k, x) && k in {4, 5, 8, 9, 18, 19, 26, 27} ensures Slot(WithKB256(v3, kb), k, x) {
      KeepsKA256(v2, ka, k, x);
      KeepsKB256(v3, kb, k, x);
    }
  }

  lemma {:induction false} StaysKA(v3: seq<bv64>, ka: bv128, kb: bv128)
    requires FromKA256(v3, ka)
    ensures FromKA256(WithKB256(v3, kb), ka)
  {
    hide Rotl, Hi, Lo, Slot, WithKB256;
    forall k: nat, x | Slot(v3, k, x) && k in {6, 7, 14, 15, 24, 25, 28, 29} ensures Slot(WithKB256(v3, kb), k, x) {
      KeepsKB256(v3, kb, k, x);
    }
  }

  lemma {:induction false} Holds256(s: seq<Half>, u: seq<bv64>, kl: bv128, kr: bv128, ka: bv128, kb: bv128)
    requires From256(u, kl, kr, ka, kb) && Holding(s, u)
    ensures Rfc.Holds(Keys256(kl, kr, ka, kb), s, 4)
  {
    hide Rfc.Pack, K256, Kw256, Ke256, From256;
    Edge256(u, kl, kr, ka, kb);
    forall g, i | 0 <= g < 4 && 0 <= i < 6
      ensures Keys256(kl, kr, ka, kb).k(Rfc.RoundNo(g, i)) == Rfc.Pack(s[8 * g + 2 + i])
    {
      RoundKey256(u, kl, kr, ka, kb, g, i);
    }
    forall g, i | 0 <= g < 3 && 0 <= i < 2
      ensures Keys256(kl, kr, ka, kb).ke(Rfc.LayerNo(g, i)) == Rfc.Pack(s[8 * g + 8 + i])
    {
      LayerKey256(u, kl, kr, ka, kb, g, i);
    }
  }

  lemma Edge256(u: seq<bv64>, kl: bv128, kr: bv128, ka: bv128, kb: bv128)
    requires From256(u, kl, kr, ka, kb)
    ensures |u| == 34 && Kw256(kl, kb, 1) == u[0] && Kw256(kl, kb, 2) == u[1] && Kw256(kl, kb, 3) == u[32] && Kw256(kl, kb, 4) == u[33]
  {
    hide Hi, Lo, Rotl;
  }

  lemma LayerKey256(u: seq<bv64>, kl: bv128, kr: bv128, ka: bv128, kb: bv128, g: nat, i: nat)
    requires From256(u, kl, kr, ka, kb) && g < 3 && i < 2
    ensures Ke256(kl, kr, ka, 2 * g + 1 + i) == u[8 * g + 8 + i]
  {
    hide Hi, Lo, Rotl;
    if g == 0 { assert i in {0, 1}; }
    else if g == 1 { assert i in {0, 1}; }
    else { assert i in {0, 1}; }
  }

  lemma {:induction false} RoundKey256(u: seq<bv64>, kl: bv128, kr: bv128, ka: bv128, kb: bv128, g: nat, i: nat)
    requires From256(u, kl, kr, ka, kb) && g < 4 && i < 6
    ensures K256(kl, kr, ka, kb, 6 * g + 1 + i) == u[8 * g + 2 + i]
  {
    hide K256, From256;
    if g < 2 { RoundKeyLow(u, kl, kr, ka, kb, g, i); } else { RoundKeyHigh(u, kl, kr, ka, kb, g, i); }
  }

  lemma {:induction false} RoundKeyLow(u: seq<bv64>, kl: bv128, kr: bv128, ka: bv128, kb: bv128, g: nat, i: nat)
    requires From256(u, kl, kr, ka, kb) && g < 2 && i < 6
    ensures K256(kl, kr, ka, kb, 6 * g + 1 + i) == u[8 * g + 2 + i]
  {
    hide Hi, Lo, Rotl;
    if g == 0 { assert i in {0, 1, 2, 3, 4, 5}; }
    else { assert i in {0, 1, 2, 3, 4, 5}; }
  }

  lemma {:induction false} RoundKeyHigh(u: seq<bv64>, kl: bv128, kr: bv128, ka: bv128, kb: bv128, g: nat, i: nat)
    requires From256(u, kl, kr, ka, kb) && 2 <= g < 4 && i < 6
    ensures K256(kl, kr, ka, kb, 6 * g + 1 + i) == u[8 * g + 2 + i]
  {
    hide Hi, Lo, Rotl;
    if g == 2 { assert i in {0, 1, 2, 3, 4, 5}; }
    else { assert i in {0, 1, 2, 3, 4, 5}; }
  }

  /** camellia_setup256 */
  method Setup256(sb: Rfc.Sboxes, key: seq<bv32>, subkey: array<bv32>)
    requires |key| == 8 && subkey.Length == 68
    modifies subkey
    ensures Scheduled(sb, key, subkey[..])
  {
    hide From256, WithKL256, WithKR256, WithKA256, WithKB256, Words.Wide, Pairs, Slots, Holding, KeyPairs, KA, KB, Keys256;
    hide Rfc.Holds, IsSchedule, FastEncrypt, PlainEncrypt;
    var subL, subR := new bv32[34], new bv32[34];
    ghost var v := Slots(subL[..], subR[..]);
    var kl := Words(key[0], key[1], key[2], key[3]);
    var kr := Words(key[4], key[5], key[6], key[7]);
    PutKL256(subL, subR, kl);
    var w := PutKR256(subL, subR, kr);
    var ka := MakeKA(sb, kl, w);
    var kb := MakeKB(sb, ka, w);
    PutKA256(subL, subR, ka);
    PutKB256(subL, subR, kb);
    Places256(v, kl.Wide(), kr.Wide(), ka.Wide(), kb.Wide());
    PairsHold(subL[..], subR[..]);
    ghost var s := Pairs(subL[..], subR[..]);
    Holds256(s, Slots(subL[..], subR[..]), kl.Wide(), kr.Wide(), ka.Wide(), kb.Wide());
    SetupTail(subkey, subL, subR, 32);
    assert IsSchedule(KeyPairs(subkey[..]), s, Groups(key)) && Rfc.Holds(KeysOf(sb, key), s, Groups(key));
  }

  /** camellia_setup192: the key is filled up with the complement of its last two words. */
  method Setup192(sb: Rfc.Sboxes, key: seq<bv32>, subkey: array<bv32>)
    requires |key| == 6 && subkey.Length == 68
    modifies subkey
    ensures Scheduled(sb, key, subkey[..])
  {
    hide KeysOf, KeyPairs, IsSchedule, Rfc.Holds;
    var kk := key + [!key[4], !key[5]];
    FilledUp(sb, key);
    Setup256(sb, kk, subkey);
    ghost var s :| IsSchedule(KeyPairs(subkey[..]), s, Groups(kk)) && Rfc.Holds(KeysOf(sb, kk), s, Groups(kk));
    assert IsSchedule(KeyPairs(subkey[..]), s, Groups(key)) && Rfc.Holds(KeysOf(sb, key), s, Groups(key));
  }

  lemma FilledUp(sb: Rfc.Sboxes, key: seq<bv32>)
    requires |key| == 6
    ensures KeysOf(sb, key + [!key[4], !key[5]]) == KeysOf(sb, key)
  {
    hide KA, KB, Join, Rfc.Number, Keys256;
    Complement(key[4], key[5]);
    var kk := key + [!key[4], !key[5]];
    assert KR(kk) == KR(key) && Part(kk, 0) == Part(key, 0);
  }

  lemma Complement(x: bv32, y: bv32)
    ensures Rfc.Number(!x, !y) == !Rfc.Number(x, y)
  {}
}
