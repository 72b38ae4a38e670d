/**
  camellia_do_encrypt and camellia_do_decrypt of crypto/camellia.c, on the io array they update, and camellia_encrypt and
  camellia_decrypt around them, on the words of a block.
 */
module CamelliaBlock {
  import opened Camellia
  import opened CamelliaKeys
  import opened CamelliaSetup
  import Rfc = CamelliaRfc

  function BlockOf(io: seq<bv32>): Block
    requires |io| == 4
  {
    Block(Half(io[0], io[1]), Half(io[2], io[3]))
  }

  /** The macro CAMELLIA_ROUNDSM. */
  method RoundMacro(tb: Tables, x: Half, k: Half, y: Half) returns (z: Half)
    ensures z == RoundSM(tb, x, k, y)
  {
    hide Xor32, Ror8;
    var il, ir := SWords(tb, x);
    RoundWords(il, ir, k.l, k.r);
    il := Xor32(il, k.l);
    ir := Xor32(ir, Xor32(il, k.r));
    z := Half(Xor32(y.l, ir), Xor32(y.r, Xor32(Ror8(il), ir)));
  }

  /** The table look-ups of the macro. */
  method SWords(tb: Tables, x: Half) returns (il: bv32, ir: bv32)
    ensures Half(il, ir) == SLayer(tb, x)
  {
    hide Xor32, Byte0, Byte1, Byte2, Byte3;
    ir := tb.sp1110(Byte0(x.r));
    il := tb.sp1110(Byte3(x.l));
    ir := Xor32(ir, tb.sp0222(Byte3(x.r)));
    il := Xor32(il, tb.sp0222(Byte2(x.l)));
    ir := Xor32(ir, tb.sp3033(Byte2(x.r)));
    il := Xor32(il, tb.sp3033(Byte1(x.l)));
    ir := Xor32(ir, tb.sp4404(Byte1(x.r)));
    il := Xor32(il, tb.sp4404(Byte0(x.l)));
  }

  lemma RoundWords(il: bv32, ir: bv32, kl: bv32, kr: bv32)
    ensures Xor32(ir, Xor32(Xor32(il, kl), kr)) == Xor32(Xor32(il, kl), Xor32(ir, kr))
  {
    hide Xor32;
    var t := Xor32(il, kl);
    Word3(ir, t, kr);
    Word3(ir, kr, t);
    Xor32Commutes(Xor32(ir, kr), t);
  }

  method Round(tb: Tables, subkey: array<bv32>, io: array<bv32>, x: nat, i: nat, y: nat)
    requires io.Length == 4 && subkey.Length == 68 && io != subkey && i < 34 && x in {0, 2} && y == 2 - x
    modifies io
    ensures var b, k := old(BlockOf(io[..])), KeyPairs(subkey[..])[i];
      BlockOf(io[..]) == if x == 0 then Block(b.d1, RoundSM(tb, b.d1, k, b.d2)) else Block(RoundSM(tb, b.d2, k, b.d1), b.d2)
  {
    hide RoundSM;
    var z := RoundMacro(tb, Half(io[x], io[x + 1]), Half(subkey[2 * i], subkey[2 * i + 1]), Half(io[y], io[y + 1]));
    io[y], io[y + 1] := z.l, z.r;
  }

  /** ROUNDS(i) of the encryption. */
  method SixRounds(tb: Tables, subkey: array<bv32>, io: array<bv32>, i: nat)
    requires io.Length == 4 && subkey.Length == 68 && io != subkey && i + 7 < 34
    modifies io
    ensures BlockOf(io[..]) == FastSix(tb, KeyPairs(subkey[..]), i, old(BlockOf(io[..])))
  {
    hide RoundSM, BlockOf, KeyPairs;
    Round(tb, subkey, io, 0, i + 2, 2);
    Round(tb, subkey, io, 2, i + 3, 0);
    Round(tb, subkey, io, 0, i + 4, 2);
    Round(tb, subkey, io, 2, i + 5, 0);
    Round(tb, subkey, io, 0, i + 6, 2);
    Round(tb, subkey, io, 2, i + 7, 0);
  }

  /** ROUNDS(i) of the decryption. */
  method SixRoundsBack(tb: Tables, subkey: array<bv32>, io: array<bv32>, i: nat)
    requires io.Length == 4 && subkey.Length == 68 && io != subkey && i + 7 < 34
    modifies io
    ensures BlockOf(io[..]) == FastSixBack(tb, KeyPairs(subkey[..]), i, old(BlockOf(io[..])))
  {
    hide RoundSM, BlockOf, KeyPairs;
    Round(tb, subkey, io, 0, i + 7, 2);
    Round(tb, subkey, io, 2, i + 6, 0);
    Round(tb, subkey, io, 0, i + 5, 2);
    Round(tb, subkey, io, 2, i + 4, 0);
    Round(tb, subkey, io, 0, i + 3, 2);
    Round(tb, subkey, io, 2, i + 2, 0);
  }

  /** The macro CAMELLIA_FLS with key slots a (left) and c (right). */
  method FlsMacro(subkey: array<bv32>, io: array<bv32>, a: nat, c: nat)
    requires io.Length == 4 && subkey.Length == 68 && io != subkey && a < 34 && c < 34
    modifies io
    ensures var k := KeyPairs(subkey[..]); BlockOf(io[..]) == Fls(k[a], k[c], old(BlockOf(io[..])))
  {
    hide Xor32, And32, Or32, Rol1;
    var kl, kr := Half(subkey[2 * a], subkey[2 * a + 1]), Half(subkey[2 * c], subkey[2 * c + 1]);
    assert kl == KeyPairs(subkey[..])[a] && kr == KeyPairs(subkey[..])[c];
    var t0 := And32(io[0], kl.l);
    var t2 := Or32(io[3], kr.r);
    io[2] := Xor32(io[2], t2);
    io[1] := Xor32(io[1], Rol1(t0));
    var t3 := And32(io[2], kr.l);
    var t1 := Or32(io[1], kl.r);
    io[0] := Xor32(io[0], t1);
    io[3] := Xor32(io[3], Rol1(t3));
  }

  /** camellia_do_encrypt; the caller swaps the halves of io. */
  method DoEncrypt(tb: Tables, subkey: array<bv32>, io: array<bv32>, max: nat)
    requires io.Length == 4 && subkey.Length == 68 && io != subkey && max in {24, 32}
    modifies io
    ensures BlockOf(io[..]) == FastEncrypt(tb, KeyPairs(subkey[..]), max / 8, old(BlockOf(io[..])))
  {
    hide FastSix, Fls, Xor32;
    ghost var k := KeyPairs(subkey[..]);
    ghost var b := BlockOf(io[..]);
    io[0] := Xor32(io[0], subkey[0]);
    io[1] := Xor32(io[1], subkey[1]);
    assert BlockOf(io[..]) == Block(b.d1.Xor(k[0]), b.d2);
    SixRounds(tb, subkey, io, 0);
    FlsMacro(subkey, io, 8, 9);
    SixRounds(tb, subkey, io, 8);
    FlsMacro(subkey, io, 16, 17);
    SixRounds(tb, subkey, io, 16);
    if max == 32 {
      FlsMacro(subkey, io, 24, 25);
      SixRounds(tb, subkey, io, 24);
    }
    ghost var b1 := BlockOf(io[..]);
    EncryptRounds(tb, k, max / 8, Block(b.d1.Xor(k[0]), b.d2));
    io[2] := Xor32(io[2], subkey[2 * max]);
    io[3] := Xor32(io[3], subkey[2 * max + 1]);
    assert BlockOf(io[..]) == Block(b1.d1, b1.d2.Xor(k[max]));
  }

  lemma EncryptRounds(tb: Tables, k: seq<Half>, n: nat, b: Block)
    requires n in {3, 4} && 8 * n < |k|
    ensures var b3 := FastSix(tb, k, 16, Fls(k[16], k[17], FastSix(tb, k, 8, Fls(k[8], k[9], FastSix(tb, k, 0, b)))));
      FastRounds(tb, k, 0, n, b) == if n == 3 then b3 else FastSix(tb, k, 24, Fls(k[24], k[25], b3))
  {
    hide FastSix, Fls;
    var b1 := Fls(k[8], k[9], FastSix(tb, k, 0, b));
    var b2 := Fls(k[16], k[17], FastSix(tb, k, 8, b1));
    assert FastRounds(tb, k, 0, n, b) == FastRounds(tb, k, 1, n, b1);
    assert FastRounds(tb, k, 1, n, b1) == FastRounds(tb, k, 2, n, b2);
  }

  /** camellia_do_decrypt; the caller swaps the halves of io. */
  method DoDecrypt(tb: Tables, subkey: array<bv32>, io: array<bv32>, max: nat)
    requires io.Length == 4 && subkey.Length == 68 && io != subkey && max in {24, 32}
    modifies io
    ensures BlockOf(io[..]) == FastDecrypt(tb, KeyPairs(subkey[..]), max / 8, old(BlockOf(io[..])))
  {
    hide FastSixBack, Fls, Xor32;
    ghost var k := KeyPairs(subkey[..]);
    ghost var b := BlockOf(io[..]);
    io[0] := Xor32(io[0], subkey[2 * max]);
    io[1] := Xor32(io[1], subkey[2 * max + 1]);
    ghost var b0 := Block(b.d1.Xor(k[max]), b.d2);
    assert BlockOf(io[..]) == b0;
    if max == 32 {
      SixRoundsBack(tb, subkey, io, 24);
      FlsMacro(subkey, io, 25, 24);
    }
    SixRoundsBack(tb, subkey, io, 16);
    FlsMacro(subkey, io, 17, 16);
    SixRoundsBack(tb, subkey, io, 8);
    FlsMacro(subkey, io, 9, 8);
    SixRoundsBack(tb, subkey, io, 0);
    ghost var b1 := BlockOf(io[..]);
    DecryptRounds(tb, k, max / 8, b0);
    io[2] := Xor32(io[2], subkey[0]);
    io[3] := Xor32(io[3], subkey[1]);
    assert BlockOf(io[..]) == Block(b1.d1, b1.d2.Xor(k[0]));
  }

  lemma DecryptRounds(tb: Tables, k: seq<Half>, n: nat, b: Block)
    requires n in {3, 4} && 8 * n < |k|
    ensures var b3 := if n == 3 then b else Fls(k[25], k[24], FastSixBack(tb, k, 24, b));
      FastRoundsBack(tb, k, n, b)
        == FastSixBack(tb, k, 0, Fls(k[9], k[8], FastSixBack(tb, k, 8, Fls(k[17], k[16], FastSixBack(tb, k, 16, b3)))))
  {
    hide FastSixBack, Fls;
    var b3 := if n == 3 then b else Fls(k[25], k[24], FastSixBack(tb, k, 24, b));
    var b2 := Fls(k[17], k[16], FastSixBack(tb, k, 16, b3));
    var b1 := Fls(k[9], k[8], FastSixBack(tb, k, 8, b2));
    assert FastRoundsBack(tb, k, n, b) == FastRoundsBack(tb, k, 3, b3);
    assert FastRoundsBack(tb, k, 3, b3) == FastRoundsBack(tb, k, 2, b2);
    assert FastRoundsBack(tb, k, 2, b2) == FastRoundsBack(tb, k, 1, b1);
  }

  // ---------------------------------------------------------------- the interface

  const EINVAL := 22

  /** camellia_ctx, with the key that the table was made from; blocks and keys are given by their words. */
  class Context {
    const sb: Rfc.Sboxes
    const keyTable: array<bv32>
    var keyLength: nat
    ghost var key: seq<bv32>

    ghost predicate Keyed()
      reads this, keyTable
    {
      keyTable.Length == 68 && keyLength == 4 * |key| && Scheduled(sb, key, keyTable[..])
    }

    /** The cipher of RFC 3713 with the key, on the words of a block. */
    ghost function Cipher(b: seq<bv32>): Rfc.Data
      requires |b| == 4 && |key| in {4, 6, 8}
      reads this
    {
      Rfc.Encrypt(sb, KeysOf(sb, key), if |key| == 4 then 18 else 24, Rfc.PackBlock(BlockOf(b)))
    }

    constructor (sb: Rfc.Sboxes)
      ensures this.sb == sb && keyTable.Length == 68 && fresh(keyTable) && keyLength == 0
    {
      this.sb, keyTable, keyLength, key := sb, new bv32[68], 0, [];
    }

    /** camellia_set_key */
    method SetKey(inKey: seq<bv32>, keyLen: nat) returns (err: int)
      requires keyTable.Length == 68 && (keyLen in {16, 24, 32} ==> keyLen == 4 * |inKey|)
      modifies this, keyTable
      ensures err == if keyLen in {16, 24, 32} then 0 else -EINVAL
      ensures err == 0 ==> Keyed() && key == inKey
      ensures err != 0 ==> unchanged(this) && unchanged(keyTable)
    {
      hide Scheduled;
      if keyLen != 16 && keyLen != 24 && keyLen != 32 {
        return -EINVAL;
      }
      keyLength, key := keyLen, inKey;
      match keyLen {
        case 16 => Setup128(sb, inKey, keyTable);
        case 24 => Setup192(sb, inKey, keyTable);
        case _ => Setup256(sb, inKey, keyTable);
      }
      return 0;
    }

    /** camellia_encrypt: the cipher of RFC 3713. */
    method Encrypt(src: seq<bv32>) returns (dst: seq<bv32>)
      requires Keyed() && |src| == 4
      ensures |dst| == 4 && Rfc.PackBlock(BlockOf(dst)) == Cipher(src)
    {
      hide FastEncrypt, PlainEncrypt, KeyPairs, IsSchedule, KeysOf, Rfc.Holds, Rfc.TablesOf, Rfc.PackBlock, Rfc.Encrypt;
      var tmp := new bv32[4](i requires 0 <= i < 4 => src[i]);
      assert tmp[..] == src;
      DoEncrypt(Rfc.TablesOf(sb), keyTable, tmp, if keyLength == 16 then 24 else 32);
      dst := [tmp[2], tmp[3], tmp[0], tmp[1]];
      assert BlockOf(dst) == BlockOf(tmp[..]).Swap();
      FastIsRfc(sb, key, keyTable[..], BlockOf(src));
    }

    /** camellia_decrypt: the one block whose encryption is src. */
    method Decrypt(src: seq<bv32>) returns (dst: seq<bv32>)
      requires Keyed() && |src| == 4
      ensures |dst| == 4 && Cipher(dst) == Rfc.PackBlock(BlockOf(src))
      ensures forall b: seq<bv32> :: |b| == 4 && Cipher(b) == Rfc.PackBlock(BlockOf(src)) ==> b == dst
    {
      hide FastEncrypt, FastDecrypt, PlainEncrypt, KeyPairs, IsSchedule, KeysOf, Rfc.Holds, Rfc.TablesOf, Rfc.PackBlock, Rfc.Encrypt;
      var tmp := new bv32[4](i requires 0 <= i < 4 => src[i]);
      assert tmp[..] == src;
      var tb, max := Rfc.TablesOf(sb), if keyLength == 16 then 24 else 32;
      DoDecrypt(tb, keyTable, tmp, max);
      dst := [tmp[2], tmp[3], tmp[0], tmp[1]];
      assert BlockOf(dst) == BlockOf(tmp[..]).Swap();
      EncryptInvertsDecrypt(tb, KeyPairs(keyTable[..]), max / 8, BlockOf(src));
      FastIsRfc(sb, key, keyTable[..], BlockOf(dst));
      forall b: seq<bv32> | |b| == 4 && Cipher(b) == Rfc.PackBlock(BlockOf(src)) ensures b == dst {
        FastIsRfc(sb, key, keyTable[..], BlockOf(b));
        PackOnce(FastEncrypt(tb, KeyPairs(keyTable[..]), max / 8, BlockOf(b)).Swap(), BlockOf(src));
        DecryptInvertsEncrypt(tb, KeyPairs(keyTable[..]), max / 8, BlockOf(b));
        SameWords(b, dst);
      }
    }
  }

  /** The fast cipher with a table made for key is the cipher of RFC 3713. */
  lemma FastIsRfc(sb: Rfc.Sboxes, key: seq<bv32>, k: seq<bv32>, b: Block)
    requires Scheduled(sb, key, k)
    ensures Rfc.PackBlock(FastEncrypt(Rfc.TablesOf(sb), KeyPairs(k), Groups(key), b).Swap())
         == Rfc.Encrypt(sb, KeysOf(sb, key), 6 * Groups(key), Rfc.PackBlock(b))
  {
    hide FastEncrypt, PlainEncrypt, KeyPairs, IsSchedule, KeysOf, Rfc.Holds, Rfc.TablesOf, Rfc.PackBlock, Rfc.Encrypt;
    var s :| IsSchedule(KeyPairs(k), s, Groups(key)) && Rfc.Holds(KeysOf(sb, key), s, Groups(key));
    ScheduleEncrypts(Rfc.TablesOf(sb), KeyPairs(k), s, Groups(key), b);
    Rfc.EncryptIs(sb, KeysOf(sb, key), s, Groups(key), b);
  }

  lemma PackOnce(a: Block, b: Block)
    requires Rfc.PackBlock(a) == Rfc.PackBlock(b)
    ensures a == b
  {
    hide Rfc.Number, Rfc.High, Rfc.Low;
    Rfc.Halves(a.d1.l, a.d1.r);
    Rfc.Halves(a.d2.l, a.d2.r);
    Rfc.Halves(b.d1.l, b.d1.r);
    Rfc.Halves(b.d2.l, b.d2.r);
  }

  lemma SameWords(a: seq<bv32>, b: seq<bv32>)
    requires |a| == |b| == 4 && BlockOf(a) == BlockOf(b)
    ensures a == b
  {}
}
