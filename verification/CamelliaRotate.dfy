/**
  The rotations of a key of 128 bits: bit by bit, as RFC 3713 means them, and in place on four words, as the macros ROLDQ and
  ROLDQo32 of crypto/camellia.c make them.
 */
module CamelliaRotate {
  import opened Camellia
  import Rfc = CamelliaRfc

  /** Left rotation by n bits, one by one. */
  function Rotl(x: bv128, n: nat): bv128 { if n == 0 then x else Rotl1(Rotl(x, n - 1)) }
  function Rotl1(x: bv128): bv128 { (x << 1) | (x >> 127) }

  function Hi(x: bv128): bv64 { (x >> 64) as bv64 }
  function Lo(x: bv128): bv64 { (x & 0xFFFF_FFFF_FFFF_FFFF) as bv64 }
  function Join(hi: bv64, lo: bv64): bv128 { ((hi as bv128) << 64) | (lo as bv128) }
  function Xor128(x: bv128, y: bv128): bv128 { x ^ y }

  datatype Words = Words(ll: bv32, lr: bv32, rl: bv32, rr: bv32) {
    function Left(): Half { Half(ll, lr) }
    function Right(): Half { Half(rl, rr) }
    function Wide(): bv128 { Join(Rfc.Number(ll, lr), Rfc.Number(rl, rr)) }
  }

  lemma {:induction false} RotlTwice(x: bv128, m: nat, n: nat)
    ensures Rotl(Rotl(x, m), n) == Rotl(x, m + n)
  {
    hide Rotl1;
    if n > 0 { RotlTwice(x, m, n - 1); }
  }

  // The rotations that the code makes, as shifts, each from two shorter ones.

  function Rot2(x: bv128): bv128 { (x << 2) | (x >> 126) }
  function Rot4(x: bv128): bv128 { (x << 4) | (x >> 124) }
  function Rot8(x: bv128): bv128 { (x << 8) | (x >> 120) }
  function Rot9(x: bv128): bv128 { (x << 9) | (x >> 119) }
  function Rot13(x: bv128): bv128 { (x << 13) | (x >> 115) }
  function Rot15(x: bv128): bv128 { (x << 15) | (x >> 113) }
  function Rot17(x: bv128): bv128 { (x << 17) | (x >> 111) }
  function Rot19(x: bv128): bv128 { (x << 19) | (x >> 109) }
  function Rot30(x: bv128): bv128 { (x << 30) | (x >> 98) }
  function Rot32(x: bv128): bv128 { (x << 32) | (x >> 96) }
  function Rot64(x: bv128): bv128 { (x << 64) | (x >> 64) }

  lemma Both2(x: bv128)
    ensures Rotl1(Rotl1(x)) == Rot2(x)
  {}

  lemma Both4(x: bv128)
    ensures Rot2(Rot2(x)) == Rot4(x)
  {}

  lemma Both8(x: bv128)
    ensures Rot4(Rot4(x)) == Rot8(x)
  {}

  lemma Both9(x: bv128)
    ensures Rotl1(Rot8(x)) == Rot9(x)
  {}

  lemma Both13(x: bv128)
    ensures Rot4(Rot9(x)) == Rot13(x)
  {}

  lemma Both15(x: bv128)
    ensures Rot2(Rot13(x)) == Rot15(x)
  {}

  lemma Both17(x: bv128)
    ensures Rot2(Rot15(x)) == Rot17(x)
  {}

  lemma Both19(x: bv128)
    ensures Rot2(Rot17(x)) == Rot19(x)
  {}

  lemma Both30(x: bv128)
    ensures Rot15(Rot15(x)) == Rot30(x)
  {}

  lemma Both32(x: bv128)
    ensures Rot17(Rot15(x)) == Rot32(x)
  {}

  lemma Both64(x: bv128)
    ensures Rot32(Rot32(x)) == Rot64(x)
  {}

  lemma Rotl1Is(x: bv128)
    ensures Rotl(x, 1) == Rotl1(x)
  {
    hide Rotl1;
    assert Rotl(x, 0) == x;
  }

  lemma Rotl2Is(x: bv128)
    ensures Rotl(x, 2) == Rot2(x)
  {
    hide Rot2, Rotl, Rotl1;
    RotlTwice(x, 1, 1);
    Rotl1Is(x);
    Rotl1Is(Rotl1(x));
    Both2(x);
  }

  lemma Rotl4Is(x: bv128)
    ensures Rotl(x, 4) == Rot4(x)
  {
    hide Rot2, Rot4, Rotl;
    RotlTwice(x, 2, 2);
    Rotl2Is(x);
    Rotl2Is(Rot2(x));
    Both4(x);
  }

  lemma Rotl8Is(x: bv128)
    ensures Rotl(x, 8) == Rot8(x)
  {
    hide Rot4, Rot8, Rotl;
    RotlTwice(x, 4, 4);
    Rotl4Is(x);
    Rotl4Is(Rot4(x));
    Both8(x);
  }

  lemma Rotl9Is(x: bv128)
    ensures Rotl(x, 9) == Rot9(x)
  {
    hide Rot8, Rot9, Rotl, Rotl1;
    RotlTwice(x, 8, 1);
    Rotl8Is(x);
    Rotl1Is(Rot8(x));
    Both9(x);
  }

  lemma Rotl13Is(x: bv128)
    ensures Rotl(x, 13) == Rot13(x)
  {
    hide Rot4, Rot9, Rotl, Rot13;
    RotlTwice(x, 9, 4);
    Rotl9Is(x);
    Rotl4Is(Rot9(x));
    Both13(x);
  }

  lemma Rotl15Is(x: bv128)
    ensures Rotl(x, 15) == Rot15(x)
  {
    hide Rot2, Rotl, Rot13, Rot15;
    RotlTwice(x, 13, 2);
    Rotl13Is(x);
    Rotl2Is(Rot13(x));
    Both15(x);
  }

  lemma Rotl17Is(x: bv128)
    ensures Rotl(x, 17) == Rot17(x)
  {
    hide Rot2, Rotl, Rot15, Rot17;
    RotlTwice(x, 15, 2);
    Rotl15Is(x);
    Rotl2Is(Rot15(x));
    Both17(x);
  }

  lemma Rotl19Is(x: bv128)
    ensures Rotl(x, 19) == Rot19(x)
  {
    hide Rot2, Rotl, Rot17, Rot19;
    RotlTwice(x, 17, 2);
    Rotl17Is(x);
    Rotl2Is(Rot17(x));
    Both19(x);
  }

  lemma Rotl30Is(x: bv128)
    ensures Rotl(x, 30) == Rot30(x)
  {
    hide Rotl, Rot15, Rot30;
    RotlTwice(x, 15, 15);
    Rotl15Is(x);
    Rotl15Is(Rot15(x));
    Both30(x);
  }

  lemma Rotl32Is(x: bv128)
    ensures Rotl(x, 32) == Rot32(x)
  {
    hide Rotl, Rot15, Rot17, Rot32;
    RotlTwice(x, 15, 17);
    Rotl15Is(x);
    Rotl17Is(Rot15(x));
    Both32(x);
  }

  lemma Rotl64Is(x: bv128)
    ensures Rotl(x, 64) == Rot64(x)
  {
    hide Rotl, Rot32, Rot64;
    RotlTwice(x, 32, 32);
    Rotl32Is(x);
    Rotl32Is(Rot32(x));
    Both64(x);
  }

  /** All the way around. */
  lemma Rotl128Is(x: bv128)
    ensures Rotl(x, 128) == x
  {
    hide Rotl, Rot64;
    RotlTwice(x, 64, 64);
    Rotl64Is(x);
    Rotl64Is(Rot64(x));
    Both128(x);
  }

  lemma Both128(x: bv128)
    ensures Rot64(Rot64(x)) == x
  {}

  // A word shifted left, with the highest bits of the next one behind it: the sum in the macros is one of bits that do not meet.

  function Carry2(x: bv32, y: bv32): bv32 { (x << 2) + (y >> 30) }
  function Carry13(x: bv32, y: bv32): bv32 { (x << 13) + (y >> 19) }
  function Carry15(x: bv32, y: bv32): bv32 { (x << 15) + (y >> 17) }
  function Carry17(x: bv32, y: bv32): bv32 { (x << 17) + (y >> 15) }
  function Carry19(x: bv32, y: bv32): bv32 { (x << 19) + (y >> 13) }
  function Carry30(x: bv32, y: bv32): bv32 { (x << 30) + (y >> 2) }

  function Funnel2(x: bv64, y: bv64): bv64 { (x << 2) | (y >> 62) }
  function Funnel13(x: bv64, y: bv64): bv64 { (x << 13) | (y >> 51) }
  function Funnel15(x: bv64, y: bv64): bv64 { (x << 15) | (y >> 49) }
  function Funnel17(x: bv64, y: bv64): bv64 { (x << 17) | (y >> 47) }
  function Funnel19(x: bv64, y: bv64): bv64 { (x << 19) | (y >> 45) }
  function Funnel30(x: bv64, y: bv64): bv64 { (x << 30) | (y >> 34) }
  function Funnel32(x: bv64, y: bv64): bv64 { (x << 32) | (y >> 32) }

  lemma Funnel2Is(ll: bv32, lr: bv32, rl: bv32, rr: bv32)
    ensures Rfc.Number(Carry2(ll, lr), Carry2(lr, rl)) == Funnel2(Rfc.Number(ll, lr), Rfc.Number(rl, rr))
  {
    calc {
      Rfc.Number(Carry2(ll, lr), Carry2(lr, rl));
      ((Carry2(ll, lr) as bv64) << 32) | (Carry2(lr, rl) as bv64);
      ((((ll << 2) + (lr >> 30)) as bv64) << 32) | (((lr << 2) + (rl >> 30)) as bv64);
      ((((ll as bv64) << 32) | (lr as bv64)) << 2) | ((((rl as bv64) << 32) | (rr as bv64)) >> 62);
      Funnel2(((ll as bv64) << 32) | (lr as bv64), ((rl as bv64) << 32) | (rr as bv64));
      Funnel2(Rfc.Number(ll, lr), Rfc.Number(rl, rr));
    }
  }

  lemma Halves2(h: bv64, l: bv64)
    ensures Join(Funnel2(h, l), Funnel2(l, h)) == Rot2(Join(h, l))
  {
    calc {
      Join(Funnel2(h, l), Funnel2(l, h));
      ((Funnel2(h, l) as bv128) << 64) | (Funnel2(l, h) as bv128);
      ((((h << 2) | (l >> 62)) as bv128) << 64) | (((l << 2) | (h >> 62)) as bv128);
      ((((h as bv128) << 64) | (l as bv128)) << 2) | ((((h as bv128) << 64) | (l as bv128)) >> 126);
      Rot2(((h as bv128) << 64) | (l as bv128));
      Rot2(Join(h, l));
    }
  }

  lemma Funnel13Is(ll: bv32, lr: bv32, rl: bv32, rr: bv32)
    ensures Rfc.Number(Carry13(ll, lr), Carry13(lr, rl)) == Funnel13(Rfc.Number(ll, lr), Rfc.Number(rl, rr))
  {
    calc {
      Rfc.Number(Carry13(ll, lr), Carry13(lr, rl));
      ((Carry13(ll, lr) as bv64) << 32) | (Carry13(lr, rl) as bv64);
      ((((ll << 13) + (lr >> 19)) as bv64) << 32) | (((lr << 13) + (rl >> 19)) as bv64);
      ((((ll as bv64) << 32) | (lr as bv64)) << 13) | ((((rl as bv64) << 32) | (rr as bv64)) >> 51);
      Funnel13(((ll as bv64) << 32) | (lr as bv64), ((rl as bv64) << 32) | (rr as bv64));
      Funnel13(Rfc.Number(ll, lr), Rfc.Number(rl, rr));
    }
  }

  lemma Halves13(h: bv64, l: bv64)
    ensures Join(Funnel13(h, l), Funnel13(l, h)) == Rot13(Join(h, l))
  {
    calc {
      Join(Funnel13(h, l), Funnel13(l, h));
      ((Funnel13(h, l) as bv128) << 64) | (Funnel13(l, h) as bv128);
      ((((h << 13) | (l >> 51)) as bv128) << 64) | (((l << 13) | (h >> 51)) as bv128);
      ((((h as bv128) << 64) | (l as bv128)) << 13) | ((((h as bv128) << 64) | (l as bv128)) >> 115);
      Rot13(((h as bv128) << 64) | (l as bv128));
      Rot13(Join(h, l));
    }
  }

  lemma Funnel15Is(ll: bv32, lr: bv32, rl: bv32, rr: bv32)
    ensures Rfc.Number(Carry15(ll, lr), Carry15(lr, rl)) == Funnel15(Rfc.Number(ll, lr), Rfc.Number(rl, rr))
  {
    calc {
      Rfc.Number(Carry15(ll, lr), Carry15(lr, rl));
      ((Carry15(ll, lr) as bv64) << 32) | (Carry15(lr, rl) as bv64);
      ((((ll << 15) + (lr >> 17)) as bv64) << 32) | (((lr << 15) + (rl >> 17)) as bv64);
      ((((ll as bv64) << 32) | (lr as bv64)) << 15) | ((((rl as bv64) << 32) | (rr as bv64)) >> 49);
      Funnel15(((ll as bv64) << 32) | (lr as bv64), ((rl as bv64) << 32) | (rr as bv64));
      Funnel15(Rfc.Number(ll, lr), Rfc.Number(rl, rr));
    }
  }

  lemma Halves15(h: bv64, l: bv64)
    ensures Join(Funnel15(h, l), Funnel15(l, h)) == Rot15(Join(h, l))
  {
    calc {
      Join(Funnel15(h, l), Funnel15(l, h));
      ((Funnel15(h, l) as bv128) << 64) | (Funnel15(l, h) as bv128);
      ((((h << 15) | (l >> 49)) as bv128) << 64) | (((l << 15) | (h >> 49)) as bv128);
      ((((h as bv128) << 64) | (l as bv128)) << 15) | ((((h as bv128) << 64) | (l as bv128)) >> 113);
      Rot15(((h as bv128) << 64) | (l as bv128));
      Rot15(Join(h, l));
    }
  }

  lemma Funnel17Is(ll: bv32, lr: bv32, rl: bv32, rr: bv32)
    ensures Rfc.Number(Carry17(ll, lr), Carry17(lr, rl)) == Funnel17(Rfc.Number(ll, lr), Rfc.Number(rl, rr))
  {
    calc {
      Rfc.Number(Carry17(ll, lr), Carry17(lr, rl));
      ((Carry17(ll, lr) as bv64) << 32) | (Carry17(lr, rl) as bv64);
      ((((ll << 17) + (lr >> 15)) as bv64) << 32) | (((lr << 17) + (rl >> 15)) as bv64);
      ((((ll as bv64) << 32) | (lr as bv64)) << 17) | ((((rl as bv64) << 32) | (rr as bv64)) >> 47);
      Funnel17(((ll as bv64) << 32) | (lr as bv64), ((rl as bv64) << 32) | (rr as bv64));
      Funnel17(Rfc.Number(ll, lr), Rfc.Number(rl, rr));
    }
  }

  lemma Halves17(h: bv64, l: bv64)
    ensures Join(Funnel17(h, l), Funnel17(l, h)) == Rot17(Join(h, l))
  {
    calc {
      Join(Funnel17(h, l), Funnel17(l, h));
      ((Funnel17(h, l) as bv128) << 64) | (Funnel17(l, h) as bv128);
      ((((h << 17) | (l >> 47)) as bv128) << 64) | (((l << 17) | (h >> 47)) as bv128);
      ((((h as bv128) << 64) | (l as bv128)) << 17) | ((((h as bv128) << 64) | (l as bv128)) >> 111);
      Rot17(((h as bv128) << 64) | (l as bv128));
      Rot17(Join(h, l));
    }
  }

  lemma Funnel19Is(ll: bv32, lr: bv32, rl: bv32, rr: bv32)
    ensures Rfc.Number(Carry19(ll, lr), Carry19(lr, rl)) == Funnel19(Rfc.Number(ll, lr), Rfc.Number(rl, rr))
  {
    calc {
      Rfc.Number(Carry19(ll, lr), Carry19(lr, rl));
      ((Carry19(ll, lr) as bv64) << 32) | (Carry19(lr, rl) as bv64);
      ((((ll << 19) + (lr >> 13)) as bv64) << 32) | (((lr << 19) + (rl >> 13)) as bv64);
      ((((ll as bv64) << 32) | (lr as bv64)) << 19) | ((((rl as bv64) << 32) | (rr as bv64)) >> 45);
      Funnel19(((ll as bv64) << 32) | (lr as bv64), ((rl as bv64) << 32) | (rr as bv64));
      Funnel19(Rfc.Number(ll, lr), Rfc.Number(rl, rr));
    }
  }

  lemma Halves19(h: bv64, l: bv64)
    ensures Join(Funnel19(h, l), Funnel19(l, h)) == Rot19(Join(h, l))
  {
    calc {
      Join(Funnel19(h, l), Funnel19(l, h));
      ((Funnel19(h, l) as bv128) << 64) | (Funnel19(l, h) as bv128);
      ((((h << 19) | (l >> 45)) as bv128) << 64) | (((l << 19) | (h >> 45)) as bv128);
      ((((h as bv128) << 64) | (l as bv128)) << 19) | ((((h as bv128) << 64) | (l as bv128)) >> 109);
      Rot19(((h as bv128) << 64) | (l as bv128));
      Rot19(Join(h, l));
    }
  }

  lemma Funnel30Is(ll: bv32, lr: bv32, rl: bv32, rr: bv32)
    ensures Rfc.Number(Carry30(ll, lr), Carry30(lr, rl)) == Funnel30(Rfc.Number(ll, lr), Rfc.Number(rl, rr))
  {
    calc {
      Rfc.Number(Carry30(ll, lr), Carry30(lr, rl));
      ((Carry30(ll, lr) as bv64) << 32) | (Carry30(lr, rl) as bv64);
      ((((ll << 30) + (lr >> 2)) as bv64) << 32) | (((lr << 30) + (rl >> 2)) as bv64);
      ((((ll as bv64) << 32) | (lr as bv64)) << 30) | ((((rl as bv64) << 32) | (rr as bv64)) >> 34);
      Funnel30(((ll as bv64) << 32) | (lr as bv64), ((rl as bv64) << 32) | (rr as bv64));
      Funnel30(Rfc.Number(ll, lr), Rfc.Number(rl, rr));
    }
  }

  lemma Halves30(h: bv64, l: bv64)
    ensures Join(Funnel30(h, l), Funnel30(l, h)) == Rot30(Join(h, l))
  {
    calc {
      Join(Funnel30(h, l), Funnel30(l, h));
      ((Funnel30(h, l) as bv128) << 64) | (Funnel30(l, h) as bv128);
      ((((h << 30) | (l >> 34)) as bv128) << 64) | (((l << 30) | (h >> 34)) as bv128);
      ((((h as bv128) << 64) | (l as bv128)) << 30) | ((((h as bv128) << 64) | (l as bv128)) >> 98);
      Rot30(((h as bv128) << 64) | (l as bv128));
      Rot30(Join(h, l));
    }
  }

  lemma Funnel32Is(ll: bv32, lr: bv32, rl: bv32, rr: bv32)
    ensures Rfc.Number(lr, rl) == Funnel32(Rfc.Number(ll, lr), Rfc.Number(rl, rr))
  {}

  lemma Halves32(h: bv64, l: bv64)
    ensures Join(Funnel32(h, l), Funnel32(l, h)) == Rot32(Join(h, l))
  {
    calc {
      Join(Funnel32(h, l), Funnel32(l, h));
      ((Funnel32(h, l) as bv128) << 64) | (Funnel32(l, h) as bv128);
      ((((h << 32) | (l >> 32)) as bv128) << 64) | (((l << 32) | (h >> 32)) as bv128);
      ((((h as bv128) << 64) | (l as bv128)) << 32) | ((((h as bv128) << 64) | (l as bv128)) >> 96);
      Rot32(((h as bv128) << 64) | (l as bv128));
      Rot32(Join(h, l));
    }
  }

  lemma Roldq2Is(w: Words)
    ensures Words(Carry2(w.ll, w.lr), Carry2(w.lr, w.rl), Carry2(w.rl, w.rr), Carry2(w.rr, w.ll)).Wide() == Rotl(w.Wide(), 2)
  {
    hide Join, Rfc.Number, Rot2, Rotl, Carry2, Funnel2;
    var h, l := Rfc.Number(w.ll, w.lr), Rfc.Number(w.rl, w.rr);
    Funnel2Is(w.ll, w.lr, w.rl, w.rr);
    Funnel2Is(w.rl, w.rr, w.ll, w.lr);
    Halves2(h, l);
    Rotl2Is(Join(h, l));
  }

  lemma Roldq13Is(w: Words)
    ensures Words(Carry13(w.ll, w.lr), Carry13(w.lr, w.rl), Carry13(w.rl, w.rr), Carry13(w.rr, w.ll)).Wide() == Rotl(w.Wide(), 13)
  {
    hide Join, Rfc.Number, Rot13, Rotl, Carry13, Funnel13;
    var h, l := Rfc.Number(w.ll, w.lr), Rfc.Number(w.rl, w.rr);
    Funnel13Is(w.ll, w.lr, w.rl, w.rr);
    Funnel13Is(w.rl, w.rr, w.ll, w.lr);
    Halves13(h, l);
    Rotl13Is(Join(h, l));
  }

  lemma Roldq15Is(w: Words)
    ensures Words(Carry15(w.ll, w.lr), Carry15(w.lr, w.rl), Carry15(w.rl, w.rr), Carry15(w.rr, w.ll)).Wide() == Rotl(w.Wide(), 15)
  {
    hide Join, Rfc.Number, Rot15, Rotl, Carry15, Funnel15;
    var h, l := Rfc.Number(w.ll, w.lr), Rfc.Number(w.rl, w.rr);
    Funnel15Is(w.ll, w.lr, w.rl, w.rr);
    Funnel15Is(w.rl, w.rr, w.ll, w.lr);
    Halves15(h, l);
    Rotl15Is(Join(h, l));
  }

  lemma Roldq17Is(w: Words)
    ensures Words(Carry17(w.ll, w.lr), Carry17(w.lr, w.rl), Carry17(w.rl, w.rr), Carry17(w.rr, w.ll)).Wide() == Rotl(w.Wide(), 17)
  {
    hide Join, Rfc.Number, Rot17, Rotl, Carry17, Funnel17;
    var h, l := Rfc.Number(w.ll, w.lr), Rfc.Number(w.rl, w.rr);
    Funnel17Is(w.ll, w.lr, w.rl, w.rr);
    Funnel17Is(w.rl, w.rr, w.ll, w.lr);
    Halves17(h, l);
    Rotl17Is(Join(h, l));
  }

  lemma Roldq19Is(w: Words)
    ensures Words(Carry19(w.ll, w.lr), Carry19(w.lr, w.rl), Carry19(w.rl, w.rr), Carry19(w.rr, w.ll)).Wide() == Rotl(w.Wide(), 19)
  {
    hide Join, Rfc.Number, Rot19, Rotl, Carry19, Funnel19;
    var h, l := Rfc.Number(w.ll, w.lr), Rfc.Number(w.rl, w.rr);
    Funnel19Is(w.ll, w.lr, w.rl, w.rr);
    Funnel19Is(w.rl, w.rr, w.ll, w.lr);
    Halves19(h, l);
    Rotl19Is(Join(h, l));
  }

  lemma Roldq30Is(w: Words)
    ensures Words(Carry30(w.ll, w.lr), Carry30(w.lr, w.rl), Carry30(w.rl, w.rr), Carry30(w.rr, w.ll)).Wide() == Rotl(w.Wide(), 30)
  {
    hide Join, Rfc.Number, Rot30, Rotl, Carry30, Funnel30;
    var h, l := Rfc.Number(w.ll, w.lr), Rfc.Number(w.rl, w.rr);
    Funnel30Is(w.ll, w.lr, w.rl, w.rr);
    Funnel30Is(w.rl, w.rr, w.ll, w.lr);
    Halves30(h, l);
    Rotl30Is(Join(h, l));
  }

  lemma TurnedIs(w: Words)
    ensures Words(w.lr, w.rl, w.rr, w.ll).Wide() == Rotl(w.Wide(), 32)
  {
    hide Join, Rfc.Number, Rot32, Rotl, Funnel32;
    Funnel32Is(w.ll, w.lr, w.rl, w.rr);
    Funnel32Is(w.rl, w.rr, w.ll, w.lr);
    Halves32(Rfc.Number(w.ll, w.lr), Rfc.Number(w.rl, w.rr));
    Rotl32Is(w.Wide());
  }

  /** The macro ROLDQ. */
  method Roldq(w: Words, bits: nat) returns (v: Words)
    requires bits in {15, 17, 30}
    ensures v.Wide() == Rotl(w.Wide(), bits)
  {
    hide Rotl, Words.Wide, Carry15, Carry17, Carry30;
    if bits == 15 {
      Roldq15Is(w);
      v := Words(Carry15(w.ll, w.lr), Carry15(w.lr, w.rl), Carry15(w.rl, w.rr), Carry15(w.rr, w.ll));
    } else if bits == 17 {
      Roldq17Is(w);
      v := Words(Carry17(w.ll, w.lr), Carry17(w.lr, w.rl), Carry17(w.rl, w.rr), Carry17(w.rr, w.ll));
    } else {
      Roldq30Is(w);
      v := Words(Carry30(w.ll, w.lr), Carry30(w.lr, w.rl), Carry30(w.rl, w.rr), Carry30(w.rr, w.ll));
    }
  }

  /** The macro ROLDQo32. */
  method RoldqO32(w: Words, bits: nat) returns (v: Words)
    requires bits in {34, 45, 49, 51}
    ensures v.Wide() == Rotl(w.Wide(), bits)
  {
    hide Rotl, Words.Wide, Carry2, Carry13, Carry17, Carry19;
    ghost var t := Words(w.lr, w.rl, w.rr, w.ll);
    TurnedIs(w);
    RotlTwice(w.Wide(), 32, bits - 32);
    if bits == 34 {
      Roldq2Is(t);
      v := Words(Carry2(w.lr, w.rl), Carry2(w.rl, w.rr), Carry2(w.rr, w.ll), Carry2(w.ll, w.lr));
    } else if bits == 45 {
      Roldq13Is(t);
      v := Words(Carry13(w.lr, w.rl), Carry13(w.rl, w.rr), Carry13(w.rr, w.ll), Carry13(w.ll, w.lr));
    } else if bits == 49 {
      Roldq17Is(t);
      v := Words(Carry17(w.lr, w.rl), Carry17(w.rl, w.rr), Carry17(w.rr, w.ll), Carry17(w.ll, w.lr));
    } else {
      Roldq19Is(t);
      v := Words(Carry19(w.lr, w.rl), Carry19(w.rl, w.rr), Carry19(w.rr, w.ll), Carry19(w.ll, w.lr));
    }
  }

  // ---------------------------------------------------------------- halves

  lemma HiLo(h: bv64, l: bv64)
    ensures Hi(Join(h, l)) == h && Lo(Join(h, l)) == l
  {
    HiOf(h, l);
    LoOf(h, l);
  }

  lemma HiOf(h: bv64, l: bv64)
    ensures Hi(Join(h, l)) == h
  {}

  lemma LoOf(h: bv64, l: bv64)
    ensures Lo(Join(h, l)) == l
  {}

  lemma XorHalves(x: bv128, y: bv128)
    ensures Hi(Xor128(x, y)) == Rfc.Xor64(Hi(x), Hi(y)) && Lo(Xor128(x, y)) == Rfc.Xor64(Lo(x), Lo(y))
  {
    XorHi(x, y);
    XorLo(x, y);
  }

  lemma XorHi(x: bv128, y: bv128)
    ensures Hi(Xor128(x, y)) == Rfc.Xor64(Hi(x), Hi(y))
  {}

  lemma XorLo(x: bv128, y: bv128)
    ensures Lo(Xor128(x, y)) == Rfc.Xor64(Lo(x), Lo(y))
  {}
}
