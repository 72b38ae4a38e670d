/**
  Cipher block chaining as in crypto/cbc.c: the two loops that encrypt and the two that decrypt, against the definition of
  section 6.2 of NIST SP 800-38A.
 */
module Cbc {
  import opened CryptoBytes
  import opened BlockCipher

  /** The ciphertext of the whole blocks of data. */
  function Encrypted(c: Cipher, iv: Bytes, data: Bytes): (r: Bytes)
    requires |iv| == c.bsize
    ensures |r| == |data| - Left(|data|, c.bsize)
    decreases |data|
  {
    if |data| < c.bsize then []
    else
      var y := Enc(c, Xor(iv, data[..c.bsize]));
      y + Encrypted(c, y, data[c.bsize..])
  }

  /** The chaining value after that: the last ciphertext block. */
  function EncryptedIv(c: Cipher, iv: Bytes, data: Bytes): (r: Bytes)
    requires |iv| == c.bsize
    ensures |r| == c.bsize
    decreases |data|
  {
    if |data| < c.bsize then iv else EncryptedIv(c, Enc(c, Xor(iv, data[..c.bsize])), data[c.bsize..])
  }

  function Decrypted(c: Cipher, iv: Bytes, data: Bytes): (r: Bytes)
    requires |iv| == c.bsize
    ensures |r| == |data| - Left(|data|, c.bsize)
    decreases |data|
  {
    if |data| < c.bsize then []
    else Xor(Dec(c, data[..c.bsize]), iv) + Decrypted(c, data[..c.bsize], data[c.bsize..])
  }

  function DecryptedIv(c: Cipher, iv: Bytes, data: Bytes): (r: Bytes)
    requires |iv| == c.bsize
    ensures |r| == c.bsize
    decreases |data|
  {
    if |data| < c.bsize then iv else DecryptedIv(c, data[..c.bsize], data[c.bsize..])
  }

  /** Decryption inverts encryption, and both end with the same chaining value. */
  lemma {:induction false} DecryptInverts(c: Cipher, iv: Bytes, data: Bytes)
    requires |iv| == c.bsize
    ensures Decrypted(c, iv, Encrypted(c, iv, data)) == data[..|data| - Left(|data|, c.bsize)]
    ensures DecryptedIv(c, iv, Encrypted(c, iv, data)) == EncryptedIv(c, iv, data)
    decreases |data|
  {
    hide Xor, Enc, Dec;
    var bs := c.bsize;
    if |data| >= bs {
      var x := Xor(iv, data[..bs]);
      var y := Enc(c, x);
      var rest := Encrypted(c, y, data[bs..]);
      assert (y + rest)[..bs] == y && (y + rest)[bs..] == rest;
      DecryptInverts(c, y, data[bs..]);
      Inverse(c, x);
      XorUndone(data[..bs], iv);
      var n := |data| - Left(|data|, bs);
      assert data[..n] == data[..bs] + data[bs..][..n - bs];
    }
  }

  /** Encryption inverts decryption. */
  lemma {:induction false} EncryptInverts(c: Cipher, iv: Bytes, data: Bytes)
    requires |iv| == c.bsize
    ensures Encrypted(c, iv, Decrypted(c, iv, data)) == data[..|data| - Left(|data|, c.bsize)]
    decreases |data|
  {
    hide Xor, Enc, Dec;
    var bs := c.bsize;
    if |data| >= bs {
      var x := Dec(c, data[..bs]);
      var rest := Decrypted(c, data[..bs], data[bs..]);
      assert (Xor(x, iv) + rest)[..bs] == Xor(x, iv) && (Xor(x, iv) + rest)[bs..] == rest;
      EncryptInverts(c, data[..bs], data[bs..]);
      Inverse(c, data[..bs]);
      XorUndone(x, iv);
      XorUndone(Xor(x, iv), iv);
      var n := |data| - Left(|data|, bs);
      assert data[..n] == data[..bs] + data[bs..][..n - bs];
    }
  }

  /** Segments that are chained through the IV give the same as one pass. */
  lemma {:induction false} EncryptChains(c: Cipher, iv: Bytes, a: Bytes, b: Bytes)
    requires |iv| == c.bsize && Whole(|a|, c.bsize)
    ensures Encrypted(c, iv, a + b) == Encrypted(c, iv, a) + Encrypted(c, EncryptedIv(c, iv, a), b)
    ensures EncryptedIv(c, iv, a + b) == EncryptedIv(c, EncryptedIv(c, iv, a), b)
    decreases |a|
  {
    hide Xor, Enc;
    var bs := c.bsize;
    if |a| < bs {
      assert a == [] && a + b == b;
    } else {
      var y := Enc(c, Xor(iv, a[..bs]));
      assert (a + b)[..bs] == a[..bs] && (a + b)[bs..] == a[bs..] + b;
      EncryptChains(c, y, a[bs..], b);
      assert y + (Encrypted(c, y, a[bs..]) + Encrypted(c, EncryptedIv(c, y, a[bs..]), b)) ==
             (y + Encrypted(c, y, a[bs..])) + Encrypted(c, EncryptedIv(c, y, a[bs..]), b);
    }
  }

  lemma {:induction false} DecryptChains(c: Cipher, iv: Bytes, a: Bytes, b: Bytes)
    requires |iv| == c.bsize && Whole(|a|, c.bsize)
    ensures Decrypted(c, iv, a + b) == Decrypted(c, iv, a) + Decrypted(c, DecryptedIv(c, iv, a), b)
    ensures DecryptedIv(c, iv, a + b) == DecryptedIv(c, DecryptedIv(c, iv, a), b)
    decreases |a|
  {
    hide Xor, Dec;
    var bs := c.bsize;
    if |a| < bs {
      assert a == [] && a + b == b;
    } else {
      var y := a[..bs];
      assert (a + b)[..bs] == y && (a + b)[bs..] == a[bs..] + b;
      DecryptChains(c, y, a[bs..], b);
      assert Xor(Dec(c, y), iv) + (Decrypted(c, y, a[bs..]) + Decrypted(c, DecryptedIv(c, y, a[bs..]), b)) ==
             (Xor(Dec(c, y), iv) + Decrypted(c, y, a[bs..])) + Decrypted(c, DecryptedIv(c, y, a[bs..]), b);
    }
  }

  // ---------------------------------------------------------------- the loops

  /** What is still to come of a loop that encrypts data forwards, when the buffer is done up to p and iv is the chaining
      value: every round leaves this as it is. */
  function EncryptFrom(c: Cipher, data: Bytes, now: Bytes, p: nat, iv: Bytes): Outcome
    requires p <= |data| <= |now| && |iv| == c.bsize
  {
    Outcome(Put(now, p, Encrypted(c, iv, data[p..])), EncryptedIv(c, iv, data[p..]))
  }

  lemma {:induction false} EncryptRound(c: Cipher, data: Bytes, now: Bytes, p: nat, iv: Bytes, y: Bytes)
    requires p + c.bsize <= |data| <= |now| && |iv| == c.bsize
    requires y == Enc(c, Xor(iv, data[p..p + c.bsize]))
    ensures EncryptFrom(c, data, Put(now, p, y), p + c.bsize, y) == EncryptFrom(c, data, now, p, iv)
  {
    hide Enc, Xor, Put, Encrypted, EncryptedIv;
    Cut(data, p, c.bsize);
    EncryptFirst(c, iv, data[p..]);
    Shift(now, p, y, Encrypted(c, y, data[p + c.bsize..]));
  }

  lemma {:induction false} EncryptFirst(c: Cipher, iv: Bytes, data: Bytes)
    requires |iv| == c.bsize <= |data|
    ensures (var y := Enc(c, Xor(iv, data[..c.bsize]));
             && Encrypted(c, iv, data) == y + Encrypted(c, y, data[c.bsize..])
             && EncryptedIv(c, iv, data) == EncryptedIv(c, y, data[c.bsize..]))
  {}

  lemma {:induction false} DecryptFirst(c: Cipher, iv: Bytes, data: Bytes)
    requires |iv| == c.bsize <= |data|
    ensures (var x := data[..c.bsize];
             && Decrypted(c, iv, data) == Xor(Dec(c, x), iv) + Decrypted(c, x, data[c.bsize..])
             && DecryptedIv(c, iv, data) == DecryptedIv(c, x, data[c.bsize..]))
  {}

  lemma {:induction false} EncryptOver(c: Cipher, data: Bytes, now: Bytes, p: nat, iv: Bytes)
    requires p <= |data| <= |now| && |iv| == c.bsize && |data| - p < c.bsize
    ensures EncryptFrom(c, data, now, p, iv) == Outcome(now, iv)
  {}

  /** What the loop is for: the ciphertext of the whole blocks, and everything behind it unchanged. */
  lemma {:induction false} EncryptAll(c: Cipher, data: Bytes, now: Bytes, iv: Bytes)
    requires |data| <= |now| && |iv| == c.bsize
    ensures (var w := |data| - Left(|data|, c.bsize);
             var r := EncryptFrom(c, data, now, 0, iv);
             |r.buf| == |now| && r.buf[..w] == Encrypted(c, iv, data) && r.buf[w..] == now[w..] &&
             r.iv == EncryptedIv(c, iv, data))
  {}

  /** One round of crypto_cbc_encrypt_segment */
  method EncryptBlock(c: Cipher, src: array<Byte>, dst: array<Byte>, p: nat, iv: array<Byte>)
    requires iv.Length == c.bsize && p + c.bsize <= src.Length <= dst.Length
    requires iv != dst && iv != src && src != dst
    modifies dst, iv
    ensures EncryptFrom(c, src[..], dst[..], p + c.bsize, iv[..]) == old(EncryptFrom(c, src[..], dst[..], p, iv[..]))
  {
    hide Enc, Xor, Put, EncryptFrom;
    ghost var now, v := dst[..], iv[..];
    var x := Slice(src, p, c.bsize);
    CryptoXor(iv, 0, x);
    PutAll(v, Xor(v, x));
    var y := Enc(c, iv[..]);
    Copy(dst, p, y);
    Copy(iv, 0, y);
    PutAll(Xor(v, x), y);
    EncryptRound(c, src[..], now, p, v, y);
  }

  /** The loop of crypto_cbc_encrypt_segment */
  method EncryptLoop(c: Cipher, src: array<Byte>, dst: array<Byte>, iv: array<Byte>) returns (nbytes: nat)
    requires iv.Length == c.bsize <= src.Length <= dst.Length && dst != src && iv != src && iv != dst
    modifies dst, iv
    ensures nbytes == Left(src.Length, c.bsize)
    ensures Outcome(dst[..], iv[..]) == old(EncryptFrom(c, src[..], dst[..], 0, iv[..]))
  {
    hide *;
    ghost var goal := EncryptFrom(c, src[..], dst[..], 0, iv[..]);
    var bs := c.bsize;
    nbytes := src.Length;
    var p := 0;
    while nbytes >= bs
      invariant 0 <= p && p + nbytes == src.Length && Left(nbytes, bs) == Left(src.Length, bs)
      invariant EncryptFrom(c, src[..], dst[..], p, iv[..]) == goal
    {
      EncryptBlock(c, src, dst, p, iv);
      LeftStep(nbytes, bs);
      p := p + bs;
      nbytes := nbytes - bs;
    }
    LeftStep(nbytes, bs);
    EncryptOver(c, src[..], dst[..], p, iv[..]);
  }

  /** crypto_cbc_encrypt_segment */
  method EncryptSegment(c: Cipher, src: array<Byte>, dst: array<Byte>, iv: array<Byte>) returns (nbytes: nat)
    requires iv.Length == c.bsize <= src.Length <= dst.Length && dst != src && iv != src && iv != dst
    modifies dst, iv
    ensures nbytes == Left(src.Length, c.bsize)
    ensures dst[..src.Length - nbytes] == Encrypted(c, old(iv[..]), src[..])
    ensures dst[src.Length - nbytes..] == old(dst[src.Length - nbytes..])
    ensures iv[..] == EncryptedIv(c, old(iv[..]), src[..])
  {
    EncryptAll(c, src[..], dst[..], iv[..]);
    hide Encrypted, EncryptedIv, EncryptFrom, Left;
    nbytes := EncryptLoop(c, src, dst, iv);
  }

  /** The part of the data that is not yet encrypted is all that matters. */
  lemma {:induction false} EncryptRest(c: Cipher, a: Bytes, b: Bytes, now: Bytes, p: nat, iv: Bytes)
    requires p <= |a| == |b| <= |now| && |iv| == c.bsize && a[p..] == b[p..]
    ensures EncryptFrom(c, a, now, p, iv) == EncryptFrom(c, b, now, p, iv)
  {}

  /** One round of crypto_cbc_encrypt_inplace */
  method EncryptBlockInplace(c: Cipher, src: array<Byte>, p: nat, iv: Bytes) returns (y: Bytes)
    requires |iv| == c.bsize && p + c.bsize <= src.Length
    modifies src
    ensures |y| == c.bsize
    ensures EncryptFrom(c, src[..], src[..], p + c.bsize, y) == old(EncryptFrom(c, src[..], src[..], p, iv))
  {
    hide Enc, Xor, Put, EncryptFrom;
    ghost var s, x := src[..], src[..][p..p + c.bsize];
    assert src[p..p + c.bsize] == x;
    CryptoXor(src, p, iv);
    XorUndone(iv, x);
    PutSlice(s, p, Xor(x, iv));
    var b := Slice(src, p, c.bsize);
    y := Enc(c, b);
    Copy(src, p, y);
    PutTwice(s, p, Xor(x, iv), y);
    EncryptRound(c, s, s, p, iv, y);
    PutBehind(s, p, y);
    EncryptRest(c, s, src[..], src[..], p + c.bsize, y);
  }

  /** The loop of crypto_cbc_encrypt_inplace */
  method EncryptLoopInplace(c: Cipher, src: array<Byte>, iv: Bytes) returns (nbytes: nat, last: Bytes)
    requires |iv| == c.bsize <= src.Length
    modifies src
    ensures nbytes == Left(src.Length, c.bsize)
    ensures Outcome(src[..], last) == old(EncryptFrom(c, src[..], src[..], 0, iv))
  {
    hide *;
    ghost var goal := EncryptFrom(c, src[..], src[..], 0, iv);
    var bs := c.bsize;
    nbytes := src.Length;
    var p := 0;
    last := iv;
    while nbytes >= bs
      invariant 0 <= p && p + nbytes == src.Length && Left(nbytes, bs) == Left(src.Length, bs) && |last| == bs
      invariant EncryptFrom(c, src[..], src[..], p, last) == goal
    {
      last := EncryptBlockInplace(c, src, p, last);
      LeftStep(nbytes, bs);
      p := p + bs;
      nbytes := nbytes - bs;
    }
    LeftStep(nbytes, bs);
    EncryptOver(c, src[..], src[..], p, last);
  }

  /** crypto_cbc_encrypt_inplace: the chaining value is the block just written. */
  method EncryptInplace(c: Cipher, src: array<Byte>, iv: array<Byte>) returns (nbytes: nat)
    requires iv.Length == c.bsize <= src.Length && iv != src
    modifies src, iv
    ensures nbytes == Left(src.Length, c.bsize)
    ensures src[..src.Length - nbytes] == Encrypted(c, old(iv[..]), old(src[..]))
    ensures src[src.Length - nbytes..] == old(src[src.Length - nbytes..])
    ensures iv[..] == EncryptedIv(c, old(iv[..]), old(src[..]))
  {
    EncryptAll(c, src[..], src[..], iv[..]);
    hide Encrypted, EncryptedIv, EncryptFrom, Left, Put;
    ghost var v := iv[..];
    var last: Bytes;
    nbytes, last := EncryptLoopInplace(c, src, iv[..]);
    Copy(iv, 0, last);
    PutAll(v, last);
  }

  /** What is still to come of a loop that decrypts data forwards. */
  function DecryptFrom(c: Cipher, data: Bytes, now: Bytes, p: nat, iv: Bytes): Outcome
    requires p <= |data| <= |now| && |iv| == c.bsize
  {
    Outcome(Put(now, p, Decrypted(c, iv, data[p..])), DecryptedIv(c, iv, data[p..]))
  }

  lemma {:induction false} DecryptRound(c: Cipher, data: Bytes, now: Bytes, p: nat, iv: Bytes, x: Bytes)
    requires p + c.bsize <= |data| <= |now| && |iv| == c.bsize && x == data[p..p + c.bsize]
    ensures DecryptFrom(c, data, Put(now, p, Xor(Dec(c, x), iv)), p + c.bsize, x) == DecryptFrom(c, data, now, p, iv)
  {
    hide Dec, Xor, Put, Decrypted, DecryptedIv;
    Cut(data, p, c.bsize);
    DecryptFirst(c, iv, data[p..]);
    Shift(now, p, Xor(Dec(c, x), iv), Decrypted(c, x, data[p + c.bsize..]));
  }

  lemma {:induction false} DecryptOver(c: Cipher, data: Bytes, now: Bytes, p: nat, iv: Bytes)
    requires p <= |data| <= |now| && |iv| == c.bsize && |data| - p < c.bsize
    ensures DecryptFrom(c, data, now, p, iv) == Outcome(now, iv)
  {}

  lemma {:induction false} DecryptAll(c: Cipher, data: Bytes, now: Bytes, iv: Bytes)
    requires |data| <= |now| && |iv| == c.bsize
    ensures (var w := |data| - Left(|data|, c.bsize);
             var r := DecryptFrom(c, data, now, 0, iv);
             |r.buf| == |now| && r.buf[..w] == Decrypted(c, iv, data) && r.buf[w..] == now[w..] &&
             r.iv == DecryptedIv(c, iv, data))
  {}

  /** Decrypting a block into a buffer and adding the chaining value. */
  method DecryptInto(c: Cipher, x: Bytes, dst: array<Byte>, p: nat, iv: Bytes)
    requires |iv| == |x| == c.bsize && p + c.bsize <= dst.Length
    modifies dst
    ensures dst[..] == Put(old(dst[..]), p, Xor(Dec(c, x), iv))
  {
    hide Dec, Xor, Put;
    ghost var s := dst[..];
    var b := Dec(c, x);
    Copy(dst, p, b);
    PutSlice(s, p, b);
    assert dst[p..p + c.bsize] == dst[..][p..p + c.bsize];
    CryptoXor(dst, p, iv);
    PutTwice(s, p, b, Xor(b, iv));
  }

  /** One round of crypto_cbc_decrypt_segment */
  method DecryptBlock(c: Cipher, src: array<Byte>, dst: array<Byte>, p: nat, iv: Bytes) returns (x: Bytes)
    requires |iv| == c.bsize && p + c.bsize <= src.Length <= dst.Length && src != dst
    modifies dst
    ensures |x| == c.bsize
    ensures DecryptFrom(c, src[..], dst[..], p + c.bsize, x) == old(DecryptFrom(c, src[..], dst[..], p, iv))
  {
    hide Dec, Xor, Put, DecryptFrom;
    x := Slice(src, p, c.bsize);
    DecryptRound(c, src[..], dst[..], p, iv, x);
    DecryptInto(c, x, dst, p, iv);
  }

  /** The loop of crypto_cbc_decrypt_segment */
  method DecryptLoop(c: Cipher, src: array<Byte>, dst: array<Byte>, iv: Bytes) returns (nbytes: nat, last: Bytes)
    requires |iv| == c.bsize <= src.Length <= dst.Length && src != dst
    modifies dst
    ensures nbytes == Left(src.Length, c.bsize)
    ensures Outcome(dst[..], last) == old(DecryptFrom(c, src[..], dst[..], 0, iv))
  {
    hide *;
    ghost var goal := DecryptFrom(c, src[..], dst[..], 0, iv);
    var bs := c.bsize;
    nbytes := src.Length;
    var p := 0;
    last := iv;
    while nbytes >= bs
      invariant 0 <= p && p + nbytes == src.Length && Left(nbytes, bs) == Left(src.Length, bs) && |last| == bs
      invariant DecryptFrom(c, src[..], dst[..], p, last) == goal
    {
      last := DecryptBlock(c, src, dst, p, last);
      LeftStep(nbytes, bs);
      p := p + bs;
      nbytes := nbytes - bs;
    }
    LeftStep(nbytes, bs);
    DecryptOver(c, src[..], dst[..], p, last);
  }

  /** crypto_cbc_decrypt_segment */
  method DecryptSegment(c: Cipher, src: array<Byte>, dst: array<Byte>, iv: array<Byte>) returns (nbytes: nat)
    requires iv.Length == c.bsize <= src.Length <= dst.Length && dst != src && iv != src && iv != dst
    modifies dst, iv
    ensures nbytes == Left(src.Length, c.bsize)
    ensures dst[..src.Length - nbytes] == Decrypted(c, old(iv[..]), src[..])
    ensures dst[src.Length - nbytes..] == old(dst[src.Length - nbytes..])
    ensures iv[..] == DecryptedIv(c, old(iv[..]), src[..])
  {
    DecryptAll(c, src[..], dst[..], iv[..]);
    hide Decrypted, DecryptedIv, DecryptFrom, Left, Put;
    ghost var v := iv[..];
    var last: Bytes;
    nbytes, last := DecryptLoop(c, src, dst, iv[..]);
    Copy(iv, 0, last);
    PutAll(v, last);
  }

  // ---------------------------------------------------------------- backwards

  /** The chaining value after decryption is the last ciphertext block. */
  lemma {:induction false} LastBlock(c: Cipher, iv: Bytes, a: Bytes, x: Bytes)
    requires |iv| == |x| == c.bsize && Whole(|a|, c.bsize)
    ensures DecryptedIv(c, iv, a + x) == x && Whole(|a + x|, c.bsize)
    ensures Decrypted(c, iv, a + x) == Decrypted(c, iv, a) + Xor(Dec(c, x), DecryptedIv(c, iv, a))
  {
    hide Dec, Xor;
    DecryptChains(c, iv, a, x);
    LeftAdds(|a|, c.bsize, c.bsize);
    assert x[..c.bsize] == x && x[c.bsize..] == [];
  }

  /** What is still to come of the loop that decrypts a buffer backwards, when it is done from q on. */
  function DecryptTo(c: Cipher, iv: Bytes, now: Bytes, q: nat): Bytes
    requires |iv| == c.bsize && q <= |now|
  {
    Decrypted(c, iv, now[..q]) + now[q..]
  }

  lemma {:induction false} BackRound(c: Cipher, iv: Bytes, now: Bytes, p: nat)
    requires |iv| == c.bsize && p + c.bsize <= |now| && Whole(p, c.bsize)
    ensures (var x := now[p..p + c.bsize];
             var prev := DecryptedIv(c, iv, now[..p]);
             DecryptTo(c, iv, Put(now, p, Xor(Dec(c, x), prev)), p) == DecryptTo(c, iv, now, p + c.bsize))
  {
    hide Dec, Xor, Decrypted;
    var q := p + c.bsize;
    var x := now[p..q];
    var y := Xor(Dec(c, x), DecryptedIv(c, iv, now[..p]));
    LastBlock(c, iv, now[..p], x);
    assert now[..q] == now[..p] + x;
    var d := Decrypted(c, iv, now[..p]);
    assert Put(now, p, y)[..p] == now[..p] && Put(now, p, y)[p..] == y + now[q..];
    assert (d + y) + now[q..] == d + (y + now[q..]);
  }

  /** The block before p is what the block at p is added to. */
  lemma {:induction false} BlockBefore(c: Cipher, iv: Bytes, now: Bytes, p: nat)
    requires |iv| == c.bsize && p <= |now| && Whole(p, c.bsize)
    ensures p == 0 ==> DecryptedIv(c, iv, now[..p]) == iv
    ensures p > 0 ==> p >= c.bsize && Whole(p - c.bsize, c.bsize) && DecryptedIv(c, iv, now[..p]) == now[p - c.bsize..p]
  {
    if p > 0 {
      WholePrev(p, c.bsize);
      LastBlock(c, iv, now[..p - c.bsize], now[p - c.bsize..p]);
      assert now[..p] == now[..p - c.bsize] + now[p - c.bsize..p];
    }
  }

  lemma {:induction false} WholePrev(p: nat, bs: nat)
    requires bs > 0 && Whole(p, bs) && p > 0
    ensures p >= bs && Whole(p - bs, bs)
  {
  }

  /** One round of crypto_cbc_decrypt_inplace */
  method DecryptBack(c: Cipher, src: array<Byte>, p: nat, prev: Bytes, ghost iv: Bytes)
    requires |iv| == c.bsize && p + c.bsize <= src.Length && Whole(p, c.bsize)
    requires |prev| == c.bsize && prev == DecryptedIv(c, iv, src[..][..p])
    modifies src
    ensures DecryptTo(c, iv, src[..], p) == old(DecryptTo(c, iv, src[..], p + c.bsize))
  {
    hide Dec, Xor, Put, DecryptTo, DecryptedIv;
    BackRound(c, iv, src[..], p);
    var x := Slice(src, p, c.bsize);
    DecryptInto(c, x, src, p, prev);
  }

  /** The same with the ciphertext block before it. */
  method DecryptBackFrom(c: Cipher, src: array<Byte>, p: nat, ghost iv: Bytes)
    requires |iv| == c.bsize && p + c.bsize <= src.Length && Whole(p, c.bsize) && p > 0
    modifies src
    ensures p >= c.bsize && Whole(p - c.bsize, c.bsize)
    ensures DecryptTo(c, iv, src[..], p) == old(DecryptTo(c, iv, src[..], p + c.bsize))
  {
    hide DecryptTo, DecryptedIv, Left;
    BlockBefore(c, iv, src[..], p);
    var prev := Slice(src, p - c.bsize, c.bsize);
    DecryptBack(c, src, p, prev, iv);
  }

  /** The loop of crypto_cbc_decrypt_inplace, from the block at start to the first. */
  method DecryptLoopBack(c: Cipher, src: array<Byte>, start: nat, iv: Bytes)
    requires |iv| == c.bsize && start + c.bsize <= src.Length && Whole(start, c.bsize)
    modifies src
    ensures src[..] == old(DecryptTo(c, iv, src[..], start + c.bsize))
  {
    hide DecryptTo, DecryptedIv, Left;
    ghost var goal := DecryptTo(c, iv, src[..], start + c.bsize);
    var p := start;
    while p > 0
      invariant 0 <= p <= start && Whole(p, c.bsize)
      invariant DecryptTo(c, iv, src[..], p + c.bsize) == goal
    {
      DecryptBackFrom(c, src, p, iv);
      p := p - c.bsize;
    }
    BlockBefore(c, iv, src[..], 0);
    DecryptBack(c, src, 0, iv, iv);
    BackOver(c, iv, src[..]);
  }

  lemma {:induction false} BackOver(c: Cipher, iv: Bytes, now: Bytes)
    requires |iv| == c.bsize
    ensures DecryptTo(c, iv, now, 0) == now
  {}

  /** Only the whole blocks count, and the last of them is the next chaining value. */
  lemma {:induction false} WholeBlocks(c: Cipher, iv: Bytes, data: Bytes, w: nat)
    requires |iv| == c.bsize <= w <= |data| && Whole(w, c.bsize) && |data| - w < c.bsize
    ensures DecryptedIv(c, iv, data) == data[w - c.bsize..w] && Decrypted(c, iv, data) == Decrypted(c, iv, data[..w])
    ensures Whole(w - c.bsize, c.bsize)
  {
    hide Decrypted, DecryptedIv, Left;
    BlockBefore(c, iv, data, w);
    ShortRest(c, iv, data[..w], data[w..]);
    assert data == data[..w] + data[w..];
  }

  /** Less than a block at the end makes no difference. */
  lemma {:induction false} ShortRest(c: Cipher, iv: Bytes, a: Bytes, tail: Bytes)
    requires |iv| == c.bsize && Whole(|a|, c.bsize) && |tail| < c.bsize
    ensures Decrypted(c, iv, a + tail) == Decrypted(c, iv, a) && DecryptedIv(c, iv, a + tail) == DecryptedIv(c, iv, a)
  {
    DecryptChains(c, iv, a, tail);
    assert Decrypted(c, iv, a) + [] == Decrypted(c, iv, a);
  }

  lemma {:induction false} BackAll(c: Cipher, iv: Bytes, data: Bytes, w: nat)
    requires |iv| == c.bsize && w <= |data| && Whole(w, c.bsize)
    ensures (var r := DecryptTo(c, iv, data, w);
             |r| == |data| && r[..w] == Decrypted(c, iv, data[..w]) && r[w..] == data[w..])
  {}

  /** crypto_cbc_decrypt_inplace: from the last block back to the first, so that every block still finds the ciphertext
      before it. */
  method DecryptInplace(c: Cipher, src: array<Byte>, iv: array<Byte>) returns (nbytes: nat)
    requires iv.Length == c.bsize <= src.Length && iv != src
    modifies src, iv
    ensures nbytes == Left(src.Length, c.bsize)
    ensures src[..src.Length - nbytes] == Decrypted(c, old(iv[..]), old(src[..]))
    ensures src[src.Length - nbytes..] == old(src[src.Length - nbytes..])
    ensures iv[..] == DecryptedIv(c, old(iv[..]), old(src[..]))
  {
    hide Decrypted, DecryptedIv, DecryptTo, Left, Put;
    ghost var v := iv[..];
    nbytes := Rest(src.Length, c.bsize);
    WholePart(src.Length, c.bsize);
    WholeBlocks(c, v, src[..], src.Length - nbytes);
    var p := src.Length - nbytes - c.bsize;
    BackAll(c, v, src[..], p + c.bsize);
    var lastIv := Slice(src, p, c.bsize);
    DecryptLoopBack(c, src, p, iv[..]);
    Copy(iv, 0, lastIv);
    PutAll(v, lastIv);
  }

  /** nbytes & (bsize - 1), block sizes being powers of two */
  method Rest(n: nat, bs: nat) returns (r: nat)
    requires bs > 0
    ensures r == Left(n, bs)
  {
    LeftIsMod(n, bs);
    r := n % bs;
  }
}
