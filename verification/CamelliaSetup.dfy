/**
  camellia_setup_tail of crypto/camellia.c, on the arrays the source works on: kw2 and kw4 are
  absorbed into the other subkeys, every round key is moved to the end of the round before it,
  and half of the P-function is undone on the round keys.
 */
module CamelliaSetup {
  import opened Camellia

  function Pairs(l: seq<bv32>, r: seq<bv32>): (s: seq<Half>)
    requires |l| == |r|
    ensures |s| == |l|
  {
    seq(|l|, i requires 0 <= i < |l| => Half(l[i], r[i]))
  }

  /** SUBKEY_L and SUBKEY_R of every slot of the key table. */
  function KeyPairs(k: seq<bv32>): (s: seq<Half>)
    requires |k| == 68
    ensures |s| == 34
  {
    seq(34, i requires 0 <= i < 34 => Half(k[2 * i], k[2 * i + 1]))
  }

  /** kw2 as group g sees it: pushed through the FLInv layers before the group. */
  function Kw2(s: seq<Half>, g: nat): Half
    requires 8 * g + 1 < |s|
  {
    if g == 0 then s[1] else Through(s[8 * g + 1], Kw2(s, g - 1))
  }

  /** kw4 as group g sees it: pushed back through the FL layers after the group. */
  function Kw4(s: seq<Half>, n: nat, g: nat): Half
    requires g < n && |s| == 8 * n + 2
    decreases n - g
  {
    if g == n - 1 then s[8 * n + 1] else Through(s[8 * g + 8], Kw4(s, n, g + 1))
  }

  /** The subkeys while kw2 is absorbed: the groups before a are done, slot 1 holds kw2 for group g. */
  function WithKw2(s: seq<Half>, n: nat, a: nat, g: nat): (t: seq<Half>)
    requires a <= n && g < n && |s| == 8 * n + 2
    ensures |t| == |s|
  {
    seq(|s|, i requires 0 <= i < |s| => Kw2Slot(s, n, a, g, i))
  }

  function Kw2Slot(s: seq<Half>, n: nat, a: nat, g: nat, i: nat): Half
    requires a <= n && g < n && |s| == 8 * n + 2 && i < |s|
  {
    if i == 1 then Kw2(s, g)
    else if i < 8 * a && i % 8 in {3, 5, 7} then s[i].Xor(Kw2(s, i / 8))
    else s[i]
  }

  /** The subkeys while kw4 is absorbed, after kw2: the groups from a on are done. */
  function WithKw4(s: seq<Half>, n: nat, a: nat): (t: seq<Half>)
    requires 0 < n && a <= n && |s| == 8 * n + 2
    ensures |t| == |s|
  {
    seq(|s|, i requires 0 <= i < |s| => Kw4Slot(s, n, a, i))
  }

  function Kw4Slot(s: seq<Half>, n: nat, a: nat, i: nat): Half
    requires 0 < n && a <= n && |s| == 8 * n + 2 && i < |s|
  {
    if i == 8 * n then s[i].Xor(Kw2(s, n - 1))
    else if 8 * a <= i < 8 * n && i % 8 in {2, 4, 6} then s[i].Xor(Kw4(s, n, i / 8))
    else Kw2Slot(s, n, n, n - 1, i)
  }

  /** The subkeys with both absorbed. */
  function Absorbed(s: seq<Half>, n: nat): (t: seq<Half>)
    requires 0 < n && |s| == 8 * n + 2
    ensures |t| == |s|
  {
    var t := WithKw4(s, n, 0);
    t[0 := s[0].Xor(Kw4(s, n, 0))]
  }

  method XorSub(subL: array<bv32>, subR: array<bv32>, i: nat, kl: bv32, kr: bv32)
    requires subL != subR && subL.Length == subR.Length && i < subL.Length
    modifies subL, subR
    ensures var s := old(Pairs(subL[..], subR[..])); Pairs(subL[..], subR[..]) == s[i := s[i].Xor(Half(kl, kr))]
  {
    hide Xor32;
    subL[i] := Xor32(subL[i], kl);
    subR[i] := Xor32(subR[i], kr);
  }

  method XorThree(subL: array<bv32>, subR: array<bv32>, i: nat, kl: bv32, kr: bv32)
    requires subL != subR && subL.Length == subR.Length && i + 4 < subL.Length
    modifies subL, subR
    ensures var s, k := old(Pairs(subL[..], subR[..])), Half(kl, kr);
      Pairs(subL[..], subR[..]) == s[i := s[i].Xor(k)][i + 2 := s[i + 2].Xor(k)][i + 4 := s[i + 4].Xor(k)]
  {
    hide Half.Xor, Pairs;
    XorSub(subL, subR, i, kl, kr);
    XorSub(subL, subR, i + 2, kl, kr);
    XorSub(subL, subR, i + 4, kl, kr);
  }

  /** A whitening key taken through the FL layer with key (fl, fr). */
  method PushThrough(fl: bv32, fr: bv32, kl: bv32, kr: bv32) returns (tl: bv32, tr: bv32)
    ensures Half(tl, tr) == Through(Half(fl, fr), Half(kl, kr))
  {
    hide Xor32, And32, Rol1;
    tl := Xor32(kl, And32(kr, !fr));
    var dw := And32(tl, fl);
    tr := Xor32(kr, Rol1(dw));
  }

  lemma Kw2Step(s: seq<Half>, n: nat, g: nat)
    requires g < n && |s| == 8 * n + 2
    ensures var t, k, i := WithKw2(s, n, g, g), Kw2(s, g), 8 * g + 3;
      WithKw2(s, n, g + 1, g) == t[i := t[i].Xor(k)][i + 2 := t[i + 2].Xor(k)][i + 4 := t[i + 4].Xor(k)]
  {
    hide Half.Xor, Kw2, Kw2Slot;
    var t, k, i := WithKw2(s, n, g, g), Kw2(s, g), 8 * g + 3;
    var u := t[i := t[i].Xor(k)][i + 2 := t[i + 2].Xor(k)][i + 4 := t[i + 4].Xor(k)];
    forall j | 0 <= j < |s| ensures WithKw2(s, n, g + 1, g)[j] == u[j] {
      Kw2SlotStep(s, n, g, j);
    }
  }

  lemma Kw2SlotStep(s: seq<Half>, n: nat, g: nat, j: nat)
    requires g < n && |s| == 8 * n + 2 && j < |s|
    ensures j in {8 * g + 3, 8 * g + 5, 8 * g + 7} ==>
      Kw2Slot(s, n, g + 1, g, j) == s[j].Xor(Kw2(s, g)) && Kw2Slot(s, n, g, g, j) == s[j]
    ensures j !in {8 * g + 3, 8 * g + 5, 8 * g + 7} ==> Kw2Slot(s, n, g + 1, g, j) == Kw2Slot(s, n, g, g, j)
  {
    hide Half.Xor, Kw2;
    if 8 * g <= j < 8 * g + 8 { assert j / 8 == g && j % 8 == j - 8 * g; }
  }

  lemma Kw2Push(s: seq<Half>, n: nat, g: nat)
    requires g + 1 < n && |s| == 8 * n + 2
    ensures var t := WithKw2(s, n, g + 1, g);
      WithKw2(s, n, g + 1, g + 1) == t[1 := Through(t[8 * g + 9], t[1])]
  {
    hide Half.Xor, Through;
    assert (8 * g + 9) % 8 == 1;
    assert WithKw2(s, n, g + 1, g)[8 * g + 9] == s[8 * g + 9];
  }

  /** Absorbs kw2, which waits in slot 1 for group g, into that group. */
  method Kw2IntoGroup(subL: array<bv32>, subR: array<bv32>, ghost s: seq<Half>, n: nat, g: nat)
    requires g < n && |s| == 8 * n + 2 && subL != subR && subL.Length == subR.Length == 8 * n + 2
    requires Pairs(subL[..], subR[..]) == WithKw2(s, n, g, g)
    modifies subL, subR
    ensures Pairs(subL[..], subR[..]) == WithKw2(s, n, g + 1, g)
  {
    hide Half.Xor, Kw2;
    Kw2Step(s, n, g);
    assert Pairs(subL[..], subR[..])[1] == Kw2(s, g);
    XorThree(subL, subR, 8 * g + 3, subL[1], subR[1]);
  }

  /** Takes kw2 from group g to group g + 1. */
  method Kw2ThroughFL(subL: array<bv32>, subR: array<bv32>, ghost s: seq<Half>, n: nat, g: nat)
    requires g + 1 < n && |s| == 8 * n + 2 && subL != subR && subL.Length == subR.Length == 8 * n + 2
    requires Pairs(subL[..], subR[..]) == WithKw2(s, n, g + 1, g)
    modifies subL, subR
    ensures Pairs(subL[..], subR[..]) == WithKw2(s, n, g + 1, g + 1)
  {
    hide Half.Xor, Kw2, WithKw2, Through;
    Kw2Push(s, n, g);
    subL[1], subR[1] := PushThrough(subL[8 * g + 9], subR[8 * g + 9], subL[1], subR[1]);
  }

  /** The first part of camellia_setup_tail. */
  method AbsorbKw2(subL: array<bv32>, subR: array<bv32>, max: nat)
    requires max in {24, 32} && subL != subR && subL.Length == subR.Length == max + 2
    modifies subL, subR
    ensures Pairs(subL[..], subR[..]) == WithKw4(old(Pairs(subL[..], subR[..])), max / 8, max / 8)
  {
    hide Half.Xor, Kw2, WithKw2, WithKw4;
    ghost var s, n := Pairs(subL[..], subR[..]), max / 8;
    assert Pairs(subL[..], subR[..]) == WithKw2(s, n, 0, 0) by { Kw2Start(s, n); }
    Kw2IntoGroup(subL, subR, s, max / 8, 0);
    Kw2ThroughFL(subL, subR, s, max / 8, 0);
    Kw2IntoGroup(subL, subR, s, max / 8, 1);
    Kw2ThroughFL(subL, subR, s, max / 8, 1);
    Kw2IntoGroup(subL, subR, s, max / 8, 2);
    if max == 32 {
      Kw2ThroughFL(subL, subR, s, max / 8, 2);
      Kw2IntoGroup(subL, subR, s, max / 8, 3);
    }
    Kw2End(s, n);
    XorSub(subL, subR, max, subL[1], subR[1]);
  }

  lemma Kw2Start(s: seq<Half>, n: nat)
    requires 0 < n && |s| == 8 * n + 2
    ensures s == WithKw2(s, n, 0, 0)
  {}

  lemma Kw2End(s: seq<Half>, n: nat)
    requires 0 < n && |s| == 8 * n + 2
    ensures var t := WithKw2(s, n, n, n - 1); WithKw4(s, n, n) == t[8 * n := t[8 * n].Xor(t[1])]
  {
    hide Half.Xor, Kw2;
  }

  lemma Kw4SlotStep(s: seq<Half>, n: nat, g: nat, j: nat)
    requires g < n && |s| == 8 * n + 2 && j < |s|
    ensures j in {8 * g + 2, 8 * g + 4, 8 * g + 6} ==>
      Kw4Slot(s, n, g, j) == s[j].Xor(Kw4(s, n, g)) && Kw4Slot(s, n, g + 1, j) == s[j]
    ensures j !in {8 * g + 2, 8 * g + 4, 8 * g + 6} ==> Kw4Slot(s, n, g, j) == Kw4Slot(s, n, g + 1, j)
  {
    hide Half.Xor, Kw2, Kw4;
    if 8 * g <= j < 8 * g + 8 { assert j / 8 == g && j % 8 == j - 8 * g; }
  }

  lemma Kw4Step(s: seq<Half>, n: nat, g: nat)
    requires g < n && |s| == 8 * n + 2
    ensures var t, k, i := WithKw4(s, n, g + 1), Kw4(s, n, g), 8 * g + 2;
      WithKw4(s, n, g) == t[i := t[i].Xor(k)][i + 2 := t[i + 2].Xor(k)][i + 4 := t[i + 4].Xor(k)]
  {
    hide Half.Xor, Kw4, Kw4Slot;
    var t, k, i := WithKw4(s, n, g + 1), Kw4(s, n, g), 8 * g + 2;
    var u := t[i := t[i].Xor(k)][i + 2 := t[i + 2].Xor(k)][i + 4 := t[i + 4].Xor(k)];
    forall j | 0 <= j < |s| ensures WithKw4(s, n, g)[j] == u[j] {
      Kw4SlotStep(s, n, g, j);
    }
  }

  /** Absorbs kw4, given as group g sees it, into that group. */
  method Kw4IntoGroup(subL: array<bv32>, subR: array<bv32>, ghost s: seq<Half>, n: nat, g: nat, kl: bv32, kr: bv32)
    requires g < n && |s| == 8 * n + 2 && subL != subR && subL.Length == subR.Length == 8 * n + 2
    requires Pairs(subL[..], subR[..]) == WithKw4(s, n, g + 1) && Half(kl, kr) == Kw4(s, n, g)
    modifies subL, subR
    ensures Pairs(subL[..], subR[..]) == WithKw4(s, n, g)
  {
    hide Half.Xor, Kw4, WithKw4;
    Kw4Step(s, n, g);
    XorThree(subL, subR, 8 * g + 2, kl, kr);
  }

  /** Takes kw4 back from group g + 1 to group g. */
  method Kw4ThroughFL(subL: array<bv32>, subR: array<bv32>, ghost s: seq<Half>, n: nat, g: nat, kl: bv32, kr: bv32)
    returns (tl: bv32, tr: bv32)
    requires g + 1 < n && |s| == 8 * n + 2 && subL.Length == subR.Length == 8 * n + 2
    requires Pairs(subL[..], subR[..]) == WithKw4(s, n, g + 1) && Half(kl, kr) == Kw4(s, n, g + 1)
    ensures Half(tl, tr) == Kw4(s, n, g)
  {
    hide Half.Xor, Through;
    assert (8 * g + 8) % 8 == 0;
    assert Pairs(subL[..], subR[..])[8 * g + 8] == Kw4Slot(s, n, g + 1, 8 * g + 8) == s[8 * g + 8];
    tl, tr := PushThrough(subL[8 * g + 8], subR[8 * g + 8], kl, kr);
  }

  lemma Kw4Ends(s: seq<Half>, n: nat)
    requires 0 < n && |s| == 8 * n + 2
    ensures WithKw4(s, n, n)[8 * n + 1] == s[8 * n + 1] == Kw4(s, n, n - 1) && WithKw4(s, n, 0)[0] == s[0]
  {}

  /** The second part of camellia_setup_tail. */
  method AbsorbKw4(subL: array<bv32>, subR: array<bv32>, max: nat, ghost s: seq<Half>)
    requires max in {24, 32} && subL != subR && subL.Length == subR.Length == max + 2 == |s|
    requires Pairs(subL[..], subR[..]) == WithKw4(s, max / 8, max / 8)
    modifies subL, subR
    ensures Pairs(subL[..], subR[..]) == Absorbed(s, max / 8)
  {
    hide Half.Xor, WithKw4, Kw4;
    Kw4Ends(s, max / 8);
    assert Pairs(subL[..], subR[..])[max + 1] == s[max + 1];
    var kw4l, kw4r := subL[max + 1], subR[max + 1];
    if max == 32 {
      Kw4IntoGroup(subL, subR, s, 4, 3, kw4l, kw4r);
      kw4l, kw4r := Kw4ThroughFL(subL, subR, s, 4, 2, kw4l, kw4r);
    }
    Kw4IntoGroup(subL, subR, s, max / 8, 2, kw4l, kw4r);
    kw4l, kw4r := Kw4ThroughFL(subL, subR, s, max / 8, 1, kw4l, kw4r);
    Kw4IntoGroup(subL, subR, s, max / 8, 1, kw4l, kw4r);
    kw4l, kw4r := Kw4ThroughFL(subL, subR, s, max / 8, 0, kw4l, kw4r);
    Kw4IntoGroup(subL, subR, s, max / 8, 0, kw4l, kw4r);
    XorSub(subL, subR, 0, kw4l, kw4r);
  }

  // ---------------------------------------------------------------- key XOR at the end of the F-function

  /** The subkey of slot i as the source writes it from the absorbed subkeys. */
  function MovedByCode(t: seq<Half>, n: nat, i: nat): Half
    requires 0 < n && |t| == 8 * n + 2 && i <= 8 * n && i != 1
  {
    if i == 0 then t[0].Xor(t[2])
    else if i == 8 * n then t[8 * n].Xor(t[8 * n - 1])
    else if i % 8 <= 1 then t[i]
    else if i == 2 then t[3]
    else if i % 8 == 2 then Through(t[i - 1], t[i - 3]).Xor(t[i + 1])
    else if i == 8 * n - 1 then t[i - 1]
    else if i % 8 == 7 then t[i - 1].Xor(Through(t[i + 1], t[i + 3]))
    else t[i - 1].Xor(t[i + 1])
  }

  lemma WhiteningCancels(a: Half, b: Half, w: Half)
    ensures a.Xor(w).Xor(b.Xor(w)) == a.Xor(b)
  {
    hide Half.Xor;
    XorMoves(a.Xor(w), b, w);
    XorMoves(a, w, b);
    XorCancels(a.Xor(b), w);
  }

  lemma XorCommutes(a: Half, b: Half)
    ensures a.Xor(b) == b.Xor(a)
  {
    hide Xor32;
    Xor32Commutes(a.l, b.l);
    Xor32Commutes(a.r, b.r);
  }

  /** A slot of the absorbed schedule. */
  lemma AbsorbedSlot(s: seq<Half>, n: nat, g: nat, j: nat)
    requires g < n && |s| == 8 * n + 2 && 2 <= j < 8
    ensures Absorbed(s, n)[8 * g + j] == s[8 * g + j].Xor(if j % 2 == 1 then Kw2(s, g) else Kw4(s, n, g))
  {
    hide Half.Xor, Kw2, Kw4;
    var i := 8 * g + j;
    assert i / 8 == g && i % 8 == j;
  }

  lemma AbsorbedFL(s: seq<Half>, n: nat, g: nat)
    requires 0 < g < n && |s| == 8 * n + 2
    ensures Absorbed(s, n)[8 * g] == s[8 * g] && Absorbed(s, n)[8 * g + 1] == s[8 * g + 1]
  {
    hide Half.Xor, Kw2, Kw4;
    assert (8 * g) % 8 == 0 && (8 * g + 1) % 8 == 1;
  }

  /** What was absorbed cancels in the moved keys, except for kw2 in the first round and kw4 in the last. */
  lemma AbsorptionCancels(s: seq<Half>, n: nat, i: nat)
    requires 0 < n && |s| == 8 * n + 2 && i <= 8 * n && i != 1
    ensures MovedByCode(Absorbed(s, n), n, i) == Moved(s, n, i)
  {
    hide Half.Xor, Through, Absorbed;
    var t := Absorbed(s, n);
    if i == 0 {
      assert t[0] == s[0].Xor(Kw4(s, n, 0)) by { AbsorbedEnds(s, n); }
      AbsorbedSlot(s, n, 0, 2);
      WhiteningCancels(s[0], s[2], Kw4(s, n, 0));
    } else if i == 8 * n {
      AbsorbedEnds(s, n);
      AbsorbedSlot(s, n, n - 1, 7);
      WhiteningCancels(s[i], s[i - 1], Kw2(s, n - 1));
    } else {
      var g, j := i / 8, i % 8;
      assert i == 8 * g + j;
      if j <= 1 {
        AbsorbedFL(s, n, g);
      } else if j == 2 {
        FirstOfGroupCancels(s, n, g);
      } else if j == 7 {
        LastOfGroupCancels(s, n, g);
      } else {
        AbsorbedSlot(s, n, g, j - 1);
        AbsorbedSlot(s, n, g, j + 1);
        WhiteningCancels(s[i - 1], s[i + 1], if j % 2 == 0 then Kw2(s, g) else Kw4(s, n, g));
      }
    }
  }

  lemma AbsorbedEnds(s: seq<Half>, n: nat)
    requires 0 < n && |s| == 8 * n + 2
    ensures Absorbed(s, n)[0] == s[0].Xor(Kw4(s, n, 0))
    ensures Absorbed(s, n)[8 * n] == s[8 * n].Xor(Kw2(s, n - 1))
  {
    hide Half.Xor, Kw2, Kw4;
  }

  lemma FirstOfGroupCancels(s: seq<Half>, n: nat, g: nat)
    requires g < n && |s| == 8 * n + 2
    ensures MovedByCode(Absorbed(s, n), n, 8 * g + 2) == Moved(s, n, 8 * g + 2)
  {
    hide Half.Xor, Through, Absorbed;
    var t, i := Absorbed(s, n), 8 * g + 2;
    assert i % 8 == 2;
    AbsorbedSlot(s, n, g, 3);
    if g == 0 {
      XorCommutes(s[3], s[1]);
    } else {
      AbsorbedFL(s, n, g);
      AbsorbedSlot(s, n, g - 1, 7);
      ThroughLinear(s[i - 1], s[i - 3], Kw2(s, g - 1));
      WhiteningCancels(Through(s[i - 1], s[i - 3]), s[i + 1], Kw2(s, g));
    }
  }

  lemma LastOfGroupCancels(s: seq<Half>, n: nat, g: nat)
    requires g < n && |s| == 8 * n + 2
    ensures MovedByCode(Absorbed(s, n), n, 8 * g + 7) == Moved(s, n, 8 * g + 7)
  {
    hide Half.Xor, Through, Absorbed;
    var t, i := Absorbed(s, n), 8 * g + 7;
    assert i % 8 == 7;
    AbsorbedSlot(s, n, g, 6);
    if g < n - 1 {
      AbsorbedFL(s, n, g + 1);
      AbsorbedSlot(s, n, g + 1, 2);
      ThroughLinear(s[i + 1], s[i + 3], Kw4(s, n, g + 1));
      WhiteningCancels(s[i - 1], Through(s[i + 1], s[i + 3]), Kw4(s, n, g));
    }
  }

  /** Slots before i of the key table hold the moved keys. */
  ghost predicate MovedUpTo(k: seq<Half>, t: seq<Half>, n: nat, i: nat) {
    && 0 < n && |t| == 8 * n + 2 && i <= 8 * n + 1 && |k| == 34 && n <= 4
    && forall j :: 0 <= j < i && j != 1 ==> k[j] == MovedByCode(t, n, j)
  }

  method PutKey(subkey: array<bv32>, i: nat, l: bv32, r: bv32, ghost t: seq<Half>, ghost n: nat)
    requires subkey.Length == 68 && i <= 8 * n && i != 1
    requires MovedUpTo(KeyPairs(subkey[..]), t, n, i)
    requires Half(l, r) == MovedByCode(t, n, i)
    modifies subkey
    ensures MovedUpTo(KeyPairs(subkey[..]), t, n, if i == 0 then 2 else i + 1)
  {
    hide MovedByCode;
    ghost var before := KeyPairs(subkey[..]);
    subkey[2 * i], subkey[2 * i + 1] := l, r;
    assert KeyPairs(subkey[..]) == before[i := Half(l, r)];
  }

  lemma InnerMoved(t: seq<Half>, n: nat, g: nat, j: nat)
    requires g < n && |t| == 8 * n + 2 && j < 8
    ensures 3 <= j <= 6 ==> MovedByCode(t, n, 8 * g + j) == t[8 * g + j - 1].Xor(t[8 * g + j + 1])
    ensures j == 2 ==>
      MovedByCode(t, n, 8 * g + j) == if g == 0 then t[3] else Through(t[8 * g + 1], t[8 * g - 1]).Xor(t[8 * g + 3])
    ensures j == 7 && g < n - 1 ==>
      MovedByCode(t, n, 8 * g + j) == t[8 * g + 6].Xor(Through(t[8 * g + 8], t[8 * g + 10]))
    ensures j == 7 && g == n - 1 ==> MovedByCode(t, n, 8 * g + j) == t[8 * g + 6]
    ensures g > 0 && j <= 1 ==> MovedByCode(t, n, 8 * g + j) == t[8 * g + j]
  {
    hide Half.Xor, Through;
    assert (8 * g + j) % 8 == j;
  }

  /** The four inner keys of group g. */
  method MoveInner(subkey: array<bv32>, subL: array<bv32>, subR: array<bv32>, g: nat, ghost t: seq<Half>, n: nat)
    requires g < n && subkey.Length == 68 && subL.Length == subR.Length && subkey != subL && subkey != subR
    requires MovedUpTo(KeyPairs(subkey[..]), t, n, 8 * g + 3) && Pairs(subL[..], subR[..]) == t
    modifies subkey
    ensures MovedUpTo(KeyPairs(subkey[..]), t, n, 8 * g + 7)
  {
    hide MovedUpTo;
    MoveKey(subkey, subL, subR, g, 3, t, n);
    MoveKey(subkey, subL, subR, g, 4, t, n);
    MoveKey(subkey, subL, subR, g, 5, t, n);
    MoveKey(subkey, subL, subR, g, 6, t, n);
  }

  method MoveKey(subkey: array<bv32>, subL: array<bv32>, subR: array<bv32>, g: nat, j: nat, ghost t: seq<Half>, ghost n: nat)
    requires g < n && 3 <= j <= 6 && subkey.Length == 68 && subL.Length == subR.Length && subkey != subL && subkey != subR
    requires MovedUpTo(KeyPairs(subkey[..]), t, n, 8 * g + j) && Pairs(subL[..], subR[..]) == t
    modifies subkey
    ensures MovedUpTo(KeyPairs(subkey[..]), t, n, 8 * g + j + 1)
  {
    hide MovedByCode, Xor32;
    var i := 8 * g + j;
    InnerMoved(t, n, g, j);
    assert t[i - 1] == Half(subL[i - 1], subR[i - 1]) && t[i + 1] == Half(subL[i + 1], subR[i + 1]);
    PutKey(subkey, i, Xor32(subL[i - 1], subL[i + 1]), Xor32(subR[i - 1], subR[i + 1]), t, n);
  }

  /** The keys from the last round of group g to the first round of the next group. */
  method MoveAcrossFL(subkey: array<bv32>, subL: array<bv32>, subR: array<bv32>, g: nat, ghost t: seq<Half>, n: nat)
    requires g + 1 < n <= 4 && |t| == 8 * n + 2
    requires subkey.Length == 68 && subL.Length == subR.Length && subkey != subL && subkey != subR
    requires MovedUpTo(KeyPairs(subkey[..]), t, n, 8 * g + 7) && Pairs(subL[..], subR[..]) == t
    modifies subkey
    ensures MovedUpTo(KeyPairs(subkey[..]), t, n, 8 * g + 11)
  {
    hide MovedByCode, MovedUpTo, Xor32, Through;
    var i := 8 * g;
    assert forall j :: i + 6 <= j <= i + 11 ==> t[j] == Half(subL[j], subR[j]);
    InnerMoved(t, n, g, 7);
    InnerMoved(t, n, g + 1, 0);
    InnerMoved(t, n, g + 1, 1);
    InnerMoved(t, n, g + 1, 2);
    var tl, tr := PushThrough(subL[i + 8], subR[i + 8], subL[i + 10], subR[i + 10]);
    PutKey(subkey, i + 7, Xor32(subL[i + 6], tl), Xor32(subR[i + 6], tr), t, n);
    PutKey(subkey, i + 8, subL[i + 8], subR[i + 8], t, n);
    PutKey(subkey, i + 9, subL[i + 9], subR[i + 9], t, n);
    tl, tr := PushThrough(subL[i + 9], subR[i + 9], subL[i + 7], subR[i + 7]);
    PutKey(subkey, i + 10, Xor32(tl, subL[i + 11]), Xor32(tr, subR[i + 11]), t, n);
  }

  /** The third part of camellia_setup_tail. */
  method MoveKeys(subkey: array<bv32>, subL: array<bv32>, subR: array<bv32>, max: nat)
    requires max in {24, 32} && subL.Length == subR.Length == max + 2
    requires subkey.Length == 68 && subkey != subL && subkey != subR
    modifies subkey
    ensures MovedUpTo(KeyPairs(subkey[..]), Pairs(subL[..], subR[..]), max / 8, max + 1)
  {
    hide MovedUpTo, Through;
    var n := max / 8;
    ghost var t := Pairs(subL[..], subR[..]);
    assert MovedUpTo(KeyPairs(subkey[..]), t, n, 0) by { NothingMoved(KeyPairs(subkey[..]), t, n); }
    assert t[0] == Half(subL[0], subR[0]) && t[2] == Half(subL[2], subR[2]) && t[3] == Half(subL[3], subR[3]);
    PutKey(subkey, 0, Xor32(subL[0], subL[2]), Xor32(subR[0], subR[2]), t, n);
    PutKey(subkey, 2, subL[3], subR[3], t, n);
    MoveInner(subkey, subL, subR, 0, t, n);
    MoveAcrossFL(subkey, subL, subR, 0, t, n);
    MoveInner(subkey, subL, subR, 1, t, n);
    MoveAcrossFL(subkey, subL, subR, 1, t, n);
    MoveInner(subkey, subL, subR, 2, t, n);
    if max == 32 {
      MoveAcrossFL(subkey, subL, subR, 2, t, n);
      MoveInner(subkey, subL, subR, 3, t, n);
    }
    MoveEnd(subkey, subL, subR, max);
  }

  lemma NothingMoved(k: seq<Half>, t: seq<Half>, n: nat)
    requires 0 < n <= 4 && |t| == 8 * n + 2 && |k| == 34
    ensures MovedUpTo(k, t, n, 0)
  {}

  method MoveEnd(subkey: array<bv32>, subL: array<bv32>, subR: array<bv32>, max: nat)
    requires max in {24, 32} && subL.Length == subR.Length == max + 2
    requires subkey.Length == 68 && subkey != subL && subkey != subR
    requires MovedUpTo(KeyPairs(subkey[..]), Pairs(subL[..], subR[..]), max / 8, max - 1)
    modifies subkey
    ensures MovedUpTo(KeyPairs(subkey[..]), Pairs(subL[..], subR[..]), max / 8, max + 1)
  {
    hide MovedUpTo, MovedByCode, Xor32;
    ghost var t, n := Pairs(subL[..], subR[..]), max / 8;
    InnerMoved(t, n, n - 1, 7);
    assert MovedByCode(t, n, 8 * n) == t[8 * n].Xor(t[8 * n - 1]) by { LastMoved(t, n); }
    PutKey(subkey, max - 1, subL[max - 2], subR[max - 2], t, n);
    PutKey(subkey, max, Xor32(subL[max], subL[max - 1]), Xor32(subR[max], subR[max - 1]), t, n);
  }

  lemma LastMoved(t: seq<Half>, n: nat)
    requires 0 < n && |t| == 8 * n + 2
    ensures MovedByCode(t, n, 8 * n) == t[8 * n].Xor(t[8 * n - 1])
  {}

  // ---------------------------------------------------------------- half of the P-function undone

  function UndoneUpTo(k: seq<Half>, i: nat, max: nat): (u: seq<Half>)
    ensures |u| == |k|
  {
    seq(|k|, j requires 0 <= j < |k| => if j < i && j < max && 2 <= j % 8 then PHalfInv(k[j]) else k[j])
  }

  method UndoSlot(subkey: array<bv32>, i: nat)
    requires subkey.Length == 68 && i < 34
    modifies subkey
    ensures var k := old(KeyPairs(subkey[..])); KeyPairs(subkey[..]) == k[i := PHalfInv(k[i])]
  {
    hide Xor32, Rol8;
    ghost var k := KeyPairs(subkey[..]);
    assert k[i] == Half(subkey[2 * i], subkey[2 * i + 1]);
    var dw := Xor32(subkey[2 * i], subkey[2 * i + 1]);
    dw := Rol8(dw);
    subkey[2 * i + 1] := Xor32(subkey[2 * i], dw);
    subkey[2 * i] := dw;
    assert KeyPairs(subkey[..]) == k[i := Half(dw, subkey[2 * i + 1])];
  }

  method UndoRound(subkey: array<bv32>, ghost k: seq<Half>, ghost g: nat, ghost j: nat, i: nat, max: nat)
    requires subkey.Length == 68 && i == 8 * g + j < max <= 34 == |k| && 2 <= j < 8
    requires KeyPairs(subkey[..]) == UndoneUpTo(k, i, max)
    modifies subkey
    ensures KeyPairs(subkey[..]) == UndoneUpTo(k, i + 1, max)
  {
    hide PHalfInv, KeyPairs;
    assert i % 8 == j;
    UndoSlot(subkey, i);
  }

  /** The last part of camellia_setup_tail. */
  method UndoPHalf(subkey: array<bv32>, max: nat)
    requires max in {24, 32} && subkey.Length == 68
    modifies subkey
    ensures KeyPairs(subkey[..]) == UndoneUpTo(old(KeyPairs(subkey[..])), max, max)
  {
    hide PHalfInv, KeyPairs, UndoneUpTo;
    ghost var k, g := KeyPairs(subkey[..]), 0;
    var i := 2;
    UndoNothing(k, max);
    while i < max
      invariant 2 <= i <= max + 2 && i == 8 * g + 2
      invariant KeyPairs(subkey[..]) == UndoneUpTo(k, i, max)
      decreases max + 2 - i
    {
      UndoRound(subkey, k, g, 2, i, max);
      UndoRound(subkey, k, g, 3, i + 1, max);
      UndoRound(subkey, k, g, 4, i + 2, max);
      UndoRound(subkey, k, g, 5, i + 3, max);
      UndoRound(subkey, k, g, 6, i + 4, max);
      UndoRound(subkey, k, g, 7, i + 5, max);
      UndoSkip(k, g + 1, max);
      i := i + 8;
      g := g + 1;
    }
    UndoEnd(k, i, max);
  }

  lemma UndoEnd(k: seq<Half>, i: nat, max: nat)
    requires max <= i
    ensures UndoneUpTo(k, i, max) == UndoneUpTo(k, max, max)
  {
    hide PHalfInv;
  }

  lemma UndoNothing(k: seq<Half>, max: nat)
    ensures UndoneUpTo(k, 2, max) == k
  {}

  lemma UndoSkip(k: seq<Half>, g: nat, max: nat)
    ensures UndoneUpTo(k, 8 * g, max) == UndoneUpTo(k, 8 * g + 2, max)
  {
    hide PHalfInv;
    assert (8 * g) % 8 == 0 && (8 * g + 1) % 8 == 1;
  }

  // ---------------------------------------------------------------- the whole of camellia_setup_tail

  /** The finished schedule makes the fast code compute Camellia with the raw subkeys, whatever the
      tables and the block: nothing of the absorption is left to see. */
  method SetupTail(subkey: array<bv32>, subL: array<bv32>, subR: array<bv32>, max: nat)
    requires max in {24, 32} && subL.Length == subR.Length == max + 2 && subkey.Length == 68
    requires subL != subR && subkey != subL && subkey != subR
    modifies subkey, subL, subR
    ensures IsSchedule(KeyPairs(subkey[..]), old(Pairs(subL[..], subR[..])), max / 8)
    ensures forall tb: Tables, b: Block ::
      FastEncrypt(tb, KeyPairs(subkey[..]), max / 8, b).Swap() == PlainEncrypt(tb, old(Pairs(subL[..], subR[..])), max / 8, b)
  {
    hide FastEncrypt, PlainEncrypt, IsSchedule, WithKw4, Absorbed, MovedUpTo, UndoneUpTo, Pairs, KeyPairs;
    ghost var s, n := Pairs(subL[..], subR[..]), max / 8;
    AbsorbKw2(subL, subR, max);
    AbsorbKw4(subL, subR, max, s);
    MoveKeys(subkey, subL, subR, max);
    ghost var k := KeyPairs(subkey[..]);
    UndoPHalf(subkey, max);
    FinishedSchedule(s, k, n);
    forall tb: Tables, b: Block
      ensures FastEncrypt(tb, KeyPairs(subkey[..]), n, b).Swap() == PlainEncrypt(tb, s, n, b)
    {
      ScheduleEncrypts(tb, KeyPairs(subkey[..]), s, n, b);
    }
  }

  lemma FinishedSchedule(s: seq<Half>, k: seq<Half>, n: nat)
    requires 0 < n <= 4 && |s| == 8 * n + 2 && MovedUpTo(k, Absorbed(s, n), n, 8 * n + 1)
    ensures IsSchedule(UndoneUpTo(k, 8 * n, 8 * n), s, n)
  {
    hide PHalfInv, Moved, MovedByCode, Absorbed;
    var u := UndoneUpTo(k, 8 * n, 8 * n);
    forall i | 0 <= i <= 8 * n && i != 1
      ensures u[i] == if i == 8 * n || i % 8 <= 1 then Moved(s, n, i) else PHalfInv(Moved(s, n, i))
    {
      AbsorptionCancels(s, n, i);
    }
  }
}
