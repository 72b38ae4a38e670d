/**
  Ciphertext stealing over CBC as in crypto/cts.c, against section 8 of RFC 2040: the last two blocks change places and the
  last one is cut, so that any length of at least one block keeps its length.
 */
module Cts {
  import opened CryptoBytes
  import opened BlockCipher
  import Cbc

  const EINVAL := 22

  /** How many bytes go through plain CBC first: all but the last one and a bit or two blocks. */
  function Head(n: nat, bs: Size): nat { if n <= 2 * bs then 0 else bs + Head(n - bs, bs) }

  lemma {:induction false} HeadSplits(n: nat, bs: Size)
    requires n > bs
    ensures Whole(Head(n, bs), bs) && bs < n - Head(n, bs) <= 2 * bs
  {
    if n > 2 * bs {
      HeadSplits(n - bs, bs);
      LeftAdds(bs, Head(n - bs, bs), bs);
    }
  }

  /** The formula of the code: all blocks, the last one rounded up, but two. */
  lemma {:induction false} HeadIs(n: nat, bs: Size)
    requires n > bs
    ensures var tot := (n + bs - 1) / bs; tot >= 2 && Head(n, bs) == (if tot > 2 then tot - 2 else 0) * bs
  {
    var tot := (n + bs - 1) / bs;
    RoundUp(n, bs);
    if n <= 2 * bs {
      Between(n + bs - 1, bs, 2);
    } else {
      HeadIs(n - bs, bs);
      assert (tot - 1 - 2) * bs + bs == (tot - 2) * bs;
    }
  }

  lemma {:induction false} RoundUp(n: nat, bs: Size)
    requires n >= bs
    ensures (n + bs - 1) / bs == (n - bs + bs - 1) / bs + 1
  {
    var q, r := (n - 1) / bs, (n - 1) % bs;
    assert n + bs - 1 == (q + 1) * bs + r;
    Quotient(n + bs - 1, bs, q + 1, r);
  }

  lemma {:induction false} Between(m: nat, bs: Size, q: nat)
    requires q * bs <= m < q * bs + bs
    ensures m / bs == q
  {
    Quotient(m, bs, q, m - q * bs);
  }

  lemma {:induction false} Quotient(m: nat, bs: Size, q: nat, r: nat)
    requires m == q * bs + r && r < bs
    ensures m / bs == q
  {
    var k := m / bs - q;
    assert k * bs == r - m % bs;
    Small(k, bs, r - m % bs);
  }

  // ---------------------------------------------------------------- the last two blocks

  /** The last part of the plaintext, filled up with zeros. */
  function Padded(p: Bytes, bs: Size): (r: Bytes)
    requires |p| <= bs
    ensures |r| == bs
  {
    p + Zeros(bs - |p|)
  }

  /** The two blocks e and f of CBC, the last one first and the other cut. */
  function TailEncrypted(c: Cipher, iv: Bytes, x: Bytes): (r: Outcome)
    requires |iv| == c.bsize <= |x| <= 2 * c.bsize
    ensures |r.buf| == |x| && |r.iv| == c.bsize
  {
    var e := Enc(c, Xor(iv, x[..c.bsize]));
    var f := Enc(c, Xor(e, Padded(x[c.bsize..], c.bsize)));
    Outcome(f + e[..|x| - c.bsize], f)
  }

  function TailDecrypted(c: Cipher, iv: Bytes, y: Bytes): (r: Outcome)
    requires |iv| == c.bsize <= |y| <= 2 * c.bsize
    ensures |r.buf| == |y| && |r.iv| == c.bsize
  {
    var n := |y| - c.bsize;
    var t := Xor(Dec(c, y[..c.bsize]), Padded(y[c.bsize..], c.bsize));
    Outcome(Xor(Dec(c, y[c.bsize..] + t[n..]), iv) + t[..n], y[..c.bsize])
  }

  /** Adding the cut block takes the block back: plaintext in front, the stolen bytes behind. */
  lemma {:induction false} Stolen(e: Bytes, p: Bytes, bs: Size)
    requires |e| == bs && |p| <= bs
    ensures Xor(Xor(e, Padded(p, bs)), Padded(e[..|p|], bs)) == p + e[|p|..]
  {}

  lemma {:induction false} TailInverts(c: Cipher, iv: Bytes, x: Bytes)
    requires |iv| == c.bsize <= |x| <= 2 * c.bsize
    ensures TailDecrypted(c, iv, TailEncrypted(c, iv, x).buf) == Outcome(x, TailEncrypted(c, iv, x).iv)
  {
    hide Xor, Enc, Dec, Padded;
    var bs := c.bsize;
    var n, p := |x| - bs, x[bs..];
    var e := Enc(c, Xor(iv, x[..bs]));
    var g := Xor(e, Padded(p, bs));
    var f := Enc(c, g);
    var y := f + e[..n];
    assert y[..bs] == f && y[bs..] == e[..n];
    Inverse(c, g);
    Stolen(e, p, bs);
    var t := p + e[n..];
    assert t[..n] == p && t[n..] == e[n..] && e[..n] + e[n..] == e;
    Inverse(c, Xor(iv, x[..bs]));
    XorUndone(x[..bs], iv);
    assert x == x[..bs] + p;
  }

  // ---------------------------------------------------------------- any length

  function Encrypted(c: Cipher, iv: Bytes, data: Bytes): (r: Outcome)
    requires |iv| == c.bsize <= |data|
    ensures |r.buf| == |data| && |r.iv| == c.bsize
  {
    if |data| == c.bsize then Outcome(Cbc.Encrypted(c, iv, data), Cbc.EncryptedIv(c, iv, data))
    else
      HeadSplits(|data|, c.bsize);
      var h := Head(|data|, c.bsize);
      var tail := TailEncrypted(c, Cbc.EncryptedIv(c, iv, data[..h]), data[h..]);
      Outcome(Cbc.Encrypted(c, iv, data[..h]) + tail.buf, tail.iv)
  }

  function Decrypted(c: Cipher, iv: Bytes, data: Bytes): (r: Outcome)
    requires |iv| == c.bsize <= |data|
    ensures |r.buf| == |data| && |r.iv| == c.bsize
  {
    if |data| == c.bsize then Outcome(Cbc.Decrypted(c, iv, data), Cbc.DecryptedIv(c, iv, data))
    else
      HeadSplits(|data|, c.bsize);
      var h := Head(|data|, c.bsize);
      var tail := TailDecrypted(c, Cbc.DecryptedIv(c, iv, data[..h]), data[h..]);
      Outcome(Cbc.Decrypted(c, iv, data[..h]) + tail.buf, tail.iv)
  }

  /** Decryption inverts encryption for every length of at least one block, and both leave the same IV. */
  lemma {:induction false} DecryptInverts(c: Cipher, iv: Bytes, data: Bytes)
    requires |iv| == c.bsize <= |data|
    ensures Decrypted(c, iv, Encrypted(c, iv, data).buf) == Outcome(data, Encrypted(c, iv, data).iv)
  {
    hide TailEncrypted, TailDecrypted, Cbc.Encrypted, Cbc.EncryptedIv, Cbc.Decrypted, Cbc.DecryptedIv;
    var bs := c.bsize;
    if |data| == bs {
      Cbc.DecryptInverts(c, iv, data);
      LeftStep(bs, bs);
      assert data[..bs] == data;
    } else {
      HeadSplits(|data|, bs);
      var h := Head(|data|, bs);
      var y := Encrypted(c, iv, data).buf;
      var iv' := Cbc.EncryptedIv(c, iv, data[..h]);
      assert y[..h] == Cbc.Encrypted(c, iv, data[..h]) && y[h..] == TailEncrypted(c, iv', data[h..]).buf;
      Cbc.DecryptInverts(c, iv, data[..h]);
      assert data[..h][..h] == data[..h];
      TailInverts(c, iv', data[h..]);
      assert data == data[..h] + data[h..];
    }
  }

  // ---------------------------------------------------------------- the code

  lemma {:induction false} OneBlock(c: Cipher, iv: Bytes, x: Bytes)
    requires |iv| == |x| == c.bsize
    ensures Cbc.Encrypted(c, iv, x) == Enc(c, Xor(iv, x)) && Cbc.Decrypted(c, iv, x) == Xor(Dec(c, x), iv)
    ensures Left(c.bsize, c.bsize) == 0
  {
    hide Enc, Dec, Xor;
    LeftStep(c.bsize, c.bsize);
    assert x[..c.bsize] == x && x[c.bsize..] == [];
    var y, z := Enc(c, Xor(iv, x)), Xor(Dec(c, x), iv);
    assert y + [] == y && z + [] == z;
  }

  /** crypto_blkcipher_encrypt_iv of the CBC child on whole blocks */
  method ChildEncrypt(c: Cipher, data: Bytes, iv: array<Byte>) returns (out: Bytes)
    requires iv.Length == c.bsize <= |data| && Whole(|data|, c.bsize)
    modifies iv
    ensures out == Cbc.Encrypted(c, old(iv[..]), data) && iv[..] == Cbc.EncryptedIv(c, old(iv[..]), data)
  {
    hide Cbc.Encrypted, Cbc.EncryptedIv, Left;
    var src := NewArray(data);
    var dst := NewArray(data);
    var left := Cbc.EncryptSegment(c, src, dst, iv);
    out := dst[..];
    assert out == dst[..src.Length - left];
  }

  /** crypto_blkcipher_decrypt_iv of the CBC child on whole blocks */
  method ChildDecrypt(c: Cipher, data: Bytes, iv: array<Byte>) returns (out: Bytes)
    requires iv.Length == c.bsize <= |data| && Whole(|data|, c.bsize)
    modifies iv
    ensures out == Cbc.Decrypted(c, old(iv[..]), data) && iv[..] == Cbc.DecryptedIv(c, old(iv[..]), data)
  {
    hide Cbc.Decrypted, Cbc.DecryptedIv, Left;
    var src := NewArray(data);
    var dst := NewArray(data);
    var left := Cbc.DecryptSegment(c, src, dst, iv);
    out := dst[..];
    assert out == dst[..src.Length - left];
  }

  /** Encrypting one block with the child. */
  method EncryptOne(c: Cipher, x: Bytes, iv: Bytes) returns (y: Bytes)
    requires |x| == |iv| == c.bsize
    ensures y == Enc(c, Xor(iv, x))
  {
    hide Cbc.Encrypted, Cbc.EncryptedIv, Left, Enc, Xor;
    OneBlock(c, iv, x);
    var a := NewArray(iv);
    y := ChildEncrypt(c, x, a);
  }

  /** Decrypting one block with the child and a zero IV. */
  method DecryptOne(c: Cipher, x: Bytes) returns (y: Bytes)
    requires |x| == c.bsize
    ensures y == Dec(c, x)
  {
    hide Cbc.Decrypted, Cbc.DecryptedIv, Left, Dec, Xor;
    OneBlock(c, Zeros(c.bsize), x);
    var a := NewArray(Zeros(c.bsize));
    y := ChildDecrypt(c, x, a);
    XorZeros(Dec(c, x));
  }

  lemma {:induction false} XorZeros(x: Bytes)
    ensures Xor(x, Zeros(|x|)) == x
  {}

  /** cts_cbc_encrypt; s is what scatterwalk_map_and_copy reads from the source */
  method TailEncrypt(c: Cipher, s: Bytes, dst: array<Byte>, offset: nat, info: array<Byte>) returns (err: int)
    requires info.Length == c.bsize && |s| <= 2 * c.bsize && offset + |s| <= dst.Length && info != dst
    modifies dst, info
    ensures |s| < c.bsize ==> err == -EINVAL && dst[..] == old(dst[..]) && info[..] == old(info[..])
    ensures |s| >= c.bsize ==> err == 0 && dst[..] == Put(old(dst[..]), offset, TailEncrypted(c, old(info[..]), s).buf)
    ensures |s| >= c.bsize ==> info[..] == TailEncrypted(c, old(info[..]), s).iv
  {
    hide Enc, Xor, Put;
    var bs := c.bsize;
    if |s| < bs { return -EINVAL; }
    var lastn := |s| - bs;
    var tmp := EncryptOne(c, s[..bs], info[..]);
    var tmp2 := EncryptOne(c, Padded(s[bs..], bs), tmp);
    var d := tmp2 + tmp[..lastn];
    Copy(dst, offset, d);
    ghost var v := info[..];
    Copy(info, 0, tmp2);
    PutAll(v, tmp2);
    err := 0;
  }

  /** cts_cbc_decrypt */
  method TailDecrypt(c: Cipher, s: Bytes, dst: array<Byte>, offset: nat, info: array<Byte>) returns (err: int)
    requires info.Length == c.bsize && |s| <= 2 * c.bsize && offset + |s| <= dst.Length && info != dst
    modifies dst, info
    ensures |s| < c.bsize ==> err == -EINVAL && dst[..] == old(dst[..]) && info[..] == old(info[..])
    ensures |s| >= c.bsize ==> err == 0 && dst[..] == Put(old(dst[..]), offset, TailDecrypted(c, old(info[..]), s).buf)
    ensures |s| >= c.bsize ==> info[..] == TailDecrypted(c, old(info[..]), s).iv
  {
    hide Dec, Xor, Put;
    var bs := c.bsize;
    if |s| < bs { return -EINVAL; }
    var lastn := |s| - bs;
    var tmp := DecryptOne(c, s[..bs]);
    var iv := Padded(s[bs..], bs);
    tmp := Xor(tmp, iv);
    var last := tmp[..lastn];
    var e := s[bs..] + tmp[lastn..];
    var d := DecryptOne(c, e);
    d := Xor(d, info[..]);
    Copy(dst, offset, d + last);
    ghost var v := info[..];
    Copy(info, 0, s[..bs]);
    PutAll(v, s[..bs]);
    err := 0;
  }

  /** The bytes that are read and written for n bytes of data: a whole block at least, unless there are none. */
  function Reach(n: nat, bs: Size): nat { if 0 < n < bs then bs else n }

  /** What the block count of the code decides. */
  lemma {:induction false} BlockCount(n: nat, bs: Size)
    ensures (n + bs - 1) / bs == 1 <==> Reach(n, bs) == bs
  {}

  /** Up to two blocks there is no head. */
  lemma {:induction false} NoHead(c: Cipher, iv: Bytes, data: Bytes)
    requires |iv| == c.bsize < |data| <= 2 * c.bsize
    ensures Encrypted(c, iv, data) == TailEncrypted(c, iv, data) && Decrypted(c, iv, data) == TailDecrypted(c, iv, data)
  {}

  /** Writing the head and then the tail fills the buffer. */
  lemma {:induction false} PutBoth(d: Bytes, a: Bytes, b: Bytes)
    requires |a| + |b| == |d|
    ensures Put(Put(d, 0, a), |a|, b) == a + b
  {}

  /** More than two blocks: plain CBC for the head, then the tail. */
  method EncryptLong(c: Cipher, src: Bytes, dst: array<Byte>, info: array<Byte>, h: nat) returns (err: int)
    requires info.Length == c.bsize && dst.Length == |src| && info != dst && |src| > 2 * c.bsize
    requires h == Head(|src|, c.bsize)
    modifies dst, info
    ensures err == 0 && Outcome(dst[..], info[..]) == Encrypted(c, old(info[..]), src)
  {
    hide Cbc.Encrypted, Cbc.EncryptedIv, TailEncrypted, Left, Put;
    HeadSplits(|src|, c.bsize);
    ghost var d := dst[..];
    var out := ChildEncrypt(c, src[..h], info);
    Copy(dst, 0, out);
    ghost var iv' := info[..];
    err := TailEncrypt(c, src[h..], dst, h, info);
    PutBoth(d, out, TailEncrypted(c, iv', src[h..]).buf);
  }

  method DecryptLong(c: Cipher, src: Bytes, dst: array<Byte>, info: array<Byte>, h: nat) returns (err: int)
    requires info.Length == c.bsize && dst.Length == |src| && info != dst && |src| > 2 * c.bsize
    requires h == Head(|src|, c.bsize)
    modifies dst, info
    ensures err == 0 && Outcome(dst[..], info[..]) == Decrypted(c, old(info[..]), src)
  {
    hide Cbc.Decrypted, Cbc.DecryptedIv, TailDecrypted, Left, Put;
    HeadSplits(|src|, c.bsize);
    ghost var d := dst[..];
    var out := ChildDecrypt(c, src[..h], info);
    Copy(dst, 0, out);
    ghost var iv' := info[..];
    err := TailDecrypt(c, src[h..], dst, h, info);
    PutBoth(d, out, TailDecrypted(c, iv', src[h..]).buf);
  }

  /** crypto_cts_encrypt. No data is refused. Data shorter than a block is encrypted as a whole block together with whatever
      is behind it: src and dst are the buffers as far as the code reaches. */
  method Encrypt(c: Cipher, src: Bytes, nbytes: nat, dst: array<Byte>, info: array<Byte>) returns (err: int)
    requires info.Length == c.bsize && dst.Length == |src| == Reach(nbytes, c.bsize) && info != dst
    modifies dst, info
    ensures nbytes == 0 ==> err == -EINVAL && info[..] == old(info[..])
    ensures nbytes != 0 ==> err == 0 && Outcome(dst[..], info[..]) == Encrypted(c, old(info[..]), src)
  {
    hide Cbc.Encrypted, Cbc.EncryptedIv, TailEncrypted, Left, Head, Put;
    var bs, n := c.bsize, nbytes;
    var totBlocks := (n + bs - 1) / bs;
    var cbcBlocks := if totBlocks > 2 then totBlocks - 2 else 0;
    ghost var d := dst[..];
    BlockCount(n, bs);
    if totBlocks == 1 {
      OneBlock(c, info[..], src);
      var out := ChildEncrypt(c, src, info);
      Copy(dst, 0, out);
      PutAll(d, out);
      err := 0;
    } else if n <= 2 * bs {
      if n > 0 { NoHead(c, info[..], src); }
      if n > 0 { PutAll(d, TailEncrypted(c, info[..], src).buf); }
      err := TailEncrypt(c, src, dst, 0, info);
    } else {
      HeadIs(n, bs);
      err := EncryptLong(c, src, dst, info, cbcBlocks * bs);
    }
  }

  /** crypto_cts_decrypt */
  method Decrypt(c: Cipher, src: Bytes, nbytes: nat, dst: array<Byte>, info: array<Byte>) returns (err: int)
    requires info.Length == c.bsize && dst.Length == |src| == Reach(nbytes, c.bsize) && info != dst
    modifies dst, info
    ensures nbytes == 0 ==> err == -EINVAL && info[..] == old(info[..])
    ensures nbytes != 0 ==> err == 0 && Outcome(dst[..], info[..]) == Decrypted(c, old(info[..]), src)
  {
    hide Cbc.Decrypted, Cbc.DecryptedIv, TailDecrypted, Left, Head, Put;
    var bs, n := c.bsize, nbytes;
    var totBlocks := (n + bs - 1) / bs;
    var cbcBlocks := if totBlocks > 2 then totBlocks - 2 else 0;
    ghost var d := dst[..];
    BlockCount(n, bs);
    if totBlocks == 1 {
      OneBlock(c, info[..], src);
      var out := ChildDecrypt(c, src, info);
      Copy(dst, 0, out);
      PutAll(d, out);
      err := 0;
    } else if n <= 2 * bs {
      if n > 0 { NoHead(c, info[..], src); }
      if n > 0 { PutAll(d, TailDecrypted(c, info[..], src).buf); }
      err := TailDecrypt(c, src, dst, 0, info);
    } else {
      HeadIs(n, bs);
      err := DecryptLong(c, src, dst, info, cbcBlocks * bs);
    }
  }
}
