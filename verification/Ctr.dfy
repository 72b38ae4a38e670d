/**
  Counter mode as in crypto/ctr.c: the two loops over whole blocks and the final partial block, against the definition of
  section 6.5 of NIST SP 800-38A with a big-endian counter that fills the whole block.
 */
module Ctr {
  import opened CryptoBytes
  import opened BlockCipher

  /** The data with the keystream added: block i of the keystream is the encryption of the counter plus i. */
  function Crypted(c: Cipher, ctr: Bytes, data: Bytes): (r: Bytes)
    requires |ctr| == c.bsize
    ensures |r| == |data|
    decreases |data|
  {
    if |data| < c.bsize then Xor(Enc(c, ctr)[..|data|], data)
    else Xor(Enc(c, ctr), data[..c.bsize]) + Crypted(c, Inc(ctr), data[c.bsize..])
  }

  /** The counter afterwards: a partial block at the end uses one up as well. */
  function Counted(c: Cipher, ctr: Bytes, data: Bytes): (r: Bytes)
    requires |ctr| == c.bsize
    ensures |r| == c.bsize
    decreases |data|
  {
    if data == [] then ctr
    else if |data| < c.bsize then Inc(ctr)
    else Counted(c, Inc(ctr), data[c.bsize..])
  }

  /** How many blocks n bytes take up. */
  function Blocks(n: nat, bs: Size): nat {
    if n == 0 then 0 else if n < bs then 1 else 1 + Blocks(n - bs, bs)
  }

  /** Adding the keystream twice gives the data back. */
  lemma {:induction false} CryptInverts(c: Cipher, ctr: Bytes, data: Bytes)
    requires |ctr| == c.bsize
    ensures Crypted(c, ctr, Crypted(c, ctr, data)) == data
    ensures Counted(c, ctr, Crypted(c, ctr, data)) == Counted(c, ctr, data)
    decreases |data|
  {
    hide Xor, Enc, Inc;
    var bs := c.bsize;
    if |data| < bs {
      XorUndone(data, Enc(c, ctr)[..|data|]);
    } else {
      var x, rest := Xor(Enc(c, ctr), data[..bs]), Crypted(c, Inc(ctr), data[bs..]);
      assert (x + rest)[..bs] == x && (x + rest)[bs..] == rest;
      CryptInverts(c, Inc(ctr), data[bs..]);
      XorUndone(data[..bs], Enc(c, ctr));
      assert data == data[..bs] + data[bs..];
    }
  }

  /** Pieces that are chained through the counter block give the same as one pass. */
  lemma {:induction false} CryptChains(c: Cipher, ctr: Bytes, a: Bytes, b: Bytes)
    requires |ctr| == c.bsize && Whole(|a|, c.bsize)
    ensures Crypted(c, ctr, a + b) == Crypted(c, ctr, a) + Crypted(c, Counted(c, ctr, a), b)
    ensures Counted(c, ctr, a + b) == Counted(c, Counted(c, ctr, a), b)
    decreases |a|
  {
    hide Xor, Enc, Inc;
    var bs := c.bsize;
    if |a| < bs {
      assert a == [] && a + b == b;
      assert Crypted(c, ctr, a) == [];
    } else {
      var x := Xor(Enc(c, ctr), a[..bs]);
      assert (a + b)[..bs] == a[..bs] && (a + b)[bs..] == a[bs..] + b;
      CryptChains(c, Inc(ctr), a[bs..], b);
      var u, v := Crypted(c, Inc(ctr), a[bs..]), Crypted(c, Counted(c, Inc(ctr), a[bs..]), b);
      assert x + (u + v) == (x + u) + v;
    }
  }

  /** The counter moves on by one for every block begun, modulo its range. */
  lemma {:induction false} CountedBy(c: Cipher, ctr: Bytes, data: Bytes)
    requires |ctr| == c.bsize
    ensures Pow256(c.bsize) > 0 && Be(Counted(c, ctr, data)) == (Be(ctr) + Blocks(|data|, c.bsize)) % Pow256(c.bsize)
    ensures Be(ctr) + Blocks(|data|, c.bsize) < Pow256(c.bsize) ==> Be(Counted(c, ctr, data)) == Be(ctr) + Blocks(|data|, c.bsize)
  {
    hide Counted, Blocks, Be, Pow256;
    BeBound(ctr);
    CountedLeft(c, ctr, data);
    LeftIsMod(Be(ctr) + Blocks(|data|, c.bsize), Pow256(c.bsize));
    LeftStep(Be(ctr) + Blocks(|data|, c.bsize), Pow256(c.bsize));
  }

  lemma {:induction false} CountedLeft(c: Cipher, ctr: Bytes, data: Bytes)
    requires |ctr| == c.bsize && Pow256(c.bsize) > 0
    ensures Be(Counted(c, ctr, data)) == Left(Be(ctr) + Blocks(|data|, c.bsize), Pow256(c.bsize))
    decreases |data|
  {
    hide Inc, Be, Pow256, Left;
    var p, x := Pow256(c.bsize), Be(ctr);
    BeBound(ctr);
    IncAddsOne(ctr);
    LeftStep(x, p);
    LeftStep(x + 1, p);
    if |data| >= c.bsize {
      CountedLeft(c, Inc(ctr), data[c.bsize..]);
      LeftStep(x + Blocks(|data|, c.bsize), p);
    }
    LeftStep(0, p);
  }

  lemma {:induction false} CryptedHead(c: Cipher, ctr: Bytes, data: Bytes, i: nat)
    requires |ctr| == c.bsize && i < |data|
    ensures i < c.bsize ==> Crypted(c, ctr, data)[i] == Add(Enc(c, ctr)[i], data[i])
    ensures i >= c.bsize ==> Crypted(c, ctr, data)[i] == Crypted(c, Inc(ctr), data[c.bsize..])[i - c.bsize]
  {
    hide Enc, Inc;
  }

  /** The counter after k blocks. */
  function Later(x: nat, k: nat, n: Size): nat {
    if Pow256(n) > 0 then (x + k) % Pow256(n) else 0
  }

  /** Byte by byte: byte i has byte i of the keystream added, whose block j is the encryption of the counter plus j. */
  lemma {:induction false} CryptedAt(c: Cipher, ctr: Bytes, data: Bytes, i: nat, b: Bytes)
    requires |ctr| == c.bsize == |b| && i < |data| && Be(b) == Later(Be(ctr), i / c.bsize, c.bsize)
    ensures Crypted(c, ctr, data)[i] == Add(Enc(c, b)[i % c.bsize], data[i])
    decreases |data|
  {
    hide Enc, Inc, Be, Crypted, Add, Later;
    var bs := c.bsize;
    CryptedHead(c, ctr, data, i);
    if i < bs {
      LaterNone(ctr, bs);
      QuotientIs(i, bs, 0, i);
      BeInjective(b, ctr);
    } else {
      OneMore(i, bs);
      LaterNext(ctr, (i - bs) / bs, bs);
      CryptedAt(c, Inc(ctr), data[bs..], i - bs, b);
    }
  }

  lemma {:induction false} LaterNone(ctr: Bytes, n: Size)
    requires |ctr| == n
    ensures Later(Be(ctr), 0, n) == Be(ctr)
  {
    hide Be, Pow256;
    BeBound(ctr);
    SmallMod(Be(ctr), Pow256(n));
  }

  lemma {:induction false} LaterNext(ctr: Bytes, k: nat, n: Size)
    requires |ctr| == n
    ensures Later(Be(ctr), k + 1, n) == Later(Be(Inc(ctr)), k, n)
  {
    hide Be, Pow256, Inc;
    IncAddsOne(ctr);
    BeBound(ctr);
    NextMod(Be(ctr), Be(Inc(ctr)), k, Pow256(n));
  }

  lemma {:induction false} SmallMod(x: nat, p: nat)
    requires x < p
    ensures (x + 0) % p == x
  {}

  lemma {:induction false} OneMore(i: nat, bs: Size)
    requires i >= bs
    ensures i / bs == (i - bs) / bs + 1 && i % bs == (i - bs) % bs
  {
    var j := i - bs;
    assert i == bs * (j / bs + 1) + j % bs;
    QuotientIs(i, bs, j / bs + 1, j % bs);
  }

  lemma {:induction false} QuotientIs(x: nat, p: nat, q: nat, r: nat)
    requires p > 0 && x == p * q + r && r < p
    ensures x / p == q && x % p == r
  {
    if x / p < q { Monotone(x / p + 1, q, p); }
    if x / p > q { Monotone(q + 1, x / p, p); }
  }

  lemma {:induction false} NextMod(x: nat, y: nat, k: nat, p: nat)
    requires x < p && y == if x + 1 == p then 0 else x + 1
    ensures (x + (k + 1)) % p == (y + k) % p
  {
    if x + 1 == p {
      var q, r := k / p, k % p;
      assert x + (k + 1) == p * (q + 1) + r;
      QuotientIs(x + (k + 1), p, q + 1, r);
    }
  }

  // ---------------------------------------------------------------- the loops

  /** What is still to come when the buffer is done up to p: every round leaves this as it is. */
  function CryptFrom(c: Cipher, data: Bytes, now: Bytes, p: nat, ctr: Bytes): Outcome
    requires p <= |data| <= |now| && |ctr| == c.bsize
  {
    Outcome(Put(now, p, Crypted(c, ctr, data[p..])), Counted(c, ctr, data[p..]))
  }

  lemma {:induction false} CryptFirst(c: Cipher, ctr: Bytes, data: Bytes)
    requires |ctr| == c.bsize <= |data|
    ensures Crypted(c, ctr, data) == Xor(Enc(c, ctr), data[..c.bsize]) + Crypted(c, Inc(ctr), data[c.bsize..])
    ensures Counted(c, ctr, data) == Counted(c, Inc(ctr), data[c.bsize..])
  {}

  lemma {:induction false} CryptRound(c: Cipher, data: Bytes, now: Bytes, p: nat, ctr: Bytes)
    requires p + c.bsize <= |data| <= |now| && |ctr| == c.bsize
    ensures (var y := Xor(Enc(c, ctr), data[p..p + c.bsize]);
             CryptFrom(c, data, Put(now, p, y), p + c.bsize, Inc(ctr)) == CryptFrom(c, data, now, p, ctr))
  {
    hide Xor, Enc, Inc, Put, Crypted, Counted;
    Cut(data, p, c.bsize);
    CryptFirst(c, ctr, data[p..]);
    Shift(now, p, Xor(Enc(c, ctr), data[p..p + c.bsize]), Crypted(c, Inc(ctr), data[p + c.bsize..]));
  }

  /** The part of the data that is not yet crypted is all that matters. */
  lemma {:induction false} CryptRest(c: Cipher, a: Bytes, b: Bytes, now: Bytes, p: nat, ctr: Bytes)
    requires p <= |a| == |b| <= |now| && |ctr| == c.bsize && a[p..] == b[p..]
    ensures CryptFrom(c, a, now, p, ctr) == CryptFrom(c, b, now, p, ctr)
  {}

  /** The last block, if it is not whole. */
  lemma {:induction false} CryptLast(c: Cipher, data: Bytes, now: Bytes, p: nat, ctr: Bytes)
    requires p < |data| <= |now| && |ctr| == c.bsize && |data| - p < c.bsize
    ensures (var n := |data| - p;
             CryptFrom(c, data, now, p, ctr) == Outcome(Put(now, p, Xor(Enc(c, ctr)[..n], data[p..])), Inc(ctr)))
  {}

  lemma {:induction false} CryptOver(c: Cipher, data: Bytes, now: Bytes, ctr: Bytes)
    requires |data| <= |now| && |ctr| == c.bsize
    ensures CryptFrom(c, data, now, |data|, ctr) == Outcome(now, ctr)
  {}

  lemma {:induction false} CryptAll(c: Cipher, data: Bytes, now: Bytes, ctr: Bytes)
    requires |data| <= |now| && |ctr| == c.bsize
    ensures (var r := CryptFrom(c, data, now, 0, ctr);
             && |r.buf| == |now| && r.buf[..|data|] == Crypted(c, ctr, data) && r.buf[|data|..] == now[|data|..]
             && r.iv == Counted(c, ctr, data))
  {}

  method Increment(ctr: array<Byte>)
    modifies ctr
    ensures ctr[..] == Inc(old(ctr[..]))
  {
    hide Inc;
    ghost var v := ctr[..];
    CryptoInc(ctr, ctr.Length);
    assert v[..|v|] == v && v[|v|..] == [] && Inc(v) + [] == Inc(v);
  }

  /** One round of crypto_ctr_crypt_segment */
  method CryptBlock(c: Cipher, src: array<Byte>, dst: array<Byte>, p: nat, ctr: array<Byte>)
    requires ctr.Length == c.bsize && p + c.bsize <= src.Length <= dst.Length
    requires ctr != dst && ctr != src && src != dst
    modifies dst, ctr
    ensures CryptFrom(c, src[..], dst[..], p + c.bsize, ctr[..]) == old(CryptFrom(c, src[..], dst[..], p, ctr[..]))
  {
    hide Enc, Xor, Put, CryptFrom, Inc;
    ghost var now, v := dst[..], ctr[..];
    var x := Slice(src, p, c.bsize);
    CryptRound(c, src[..], now, p, v);
    var k := Enc(c, ctr[..]);
    Copy(dst, p, k);
    PutSlice(now, p, k);
    assert dst[p..p + c.bsize] == dst[..][p..p + c.bsize];
    CryptoXor(dst, p, x);
    PutTwice(now, p, k, Xor(k, x));
    Increment(ctr);
  }

  /** crypto_ctr_crypt_segment: whole blocks from one buffer to another */
  method CryptSegment(c: Cipher, src: array<Byte>, dst: array<Byte>, ctr: array<Byte>) returns (nbytes: nat)
    requires ctr.Length == c.bsize <= src.Length <= dst.Length && ctr != dst && ctr != src && src != dst
    modifies dst, ctr
    ensures nbytes == Left(src.Length, c.bsize)
    ensures CryptFrom(c, src[..], dst[..], src.Length - nbytes, ctr[..]) == old(CryptFrom(c, src[..], dst[..], 0, ctr[..]))
  {
    hide *;
    ghost var goal := CryptFrom(c, src[..], dst[..], 0, ctr[..]);
    var bs := c.bsize;
    nbytes := src.Length;
    var p := 0;
    while nbytes >= bs
      invariant 0 <= p && p + nbytes == src.Length && Left(nbytes, bs) == Left(src.Length, bs)
      invariant CryptFrom(c, src[..], dst[..], p, ctr[..]) == goal
    {
      CryptBlock(c, src, dst, p, ctr);
      LeftStep(nbytes, bs);
      p := p + bs;
      nbytes := nbytes - bs;
    }
    LeftStep(nbytes, bs);
  }

  /** One round of crypto_ctr_crypt_inplace */
  method CryptBlockInplace(c: Cipher, src: array<Byte>, p: nat, ctr: array<Byte>)
    requires ctr.Length == c.bsize && p + c.bsize <= src.Length && ctr != src
    modifies src, ctr
    ensures CryptFrom(c, src[..], src[..], p + c.bsize, ctr[..]) == old(CryptFrom(c, src[..], src[..], p, ctr[..]))
  {
    hide Enc, Xor, Put, CryptFrom, Inc;
    ghost var now, v := src[..], ctr[..];
    ghost var x := now[p..p + c.bsize];
    CryptRound(c, now, now, p, v);
    var keystream := Enc(c, ctr[..]);
    assert src[p..p + c.bsize] == x;
    CryptoXor(src, p, keystream);
    XorUndone(keystream, x);
    PutBehind(now, p, Xor(x, keystream));
    Increment(ctr);
    CryptRest(c, now, src[..], src[..], p + c.bsize, ctr[..]);
  }

  /** crypto_ctr_crypt_inplace: whole blocks in one buffer */
  method CryptInplace(c: Cipher, src: array<Byte>, ctr: array<Byte>) returns (nbytes: nat)
    requires ctr.Length == c.bsize <= src.Length && ctr != src
    modifies src, ctr
    ensures nbytes == Left(src.Length, c.bsize)
    ensures CryptFrom(c, src[..], src[..], src.Length - nbytes, ctr[..]) == old(CryptFrom(c, src[..], src[..], 0, ctr[..]))
  {
    hide *;
    ghost var goal := CryptFrom(c, src[..], src[..], 0, ctr[..]);
    var bs := c.bsize;
    nbytes := src.Length;
    var p := 0;
    while nbytes >= bs
      invariant 0 <= p && p + nbytes == src.Length && Left(nbytes, bs) == Left(src.Length, bs)
      invariant CryptFrom(c, src[..], src[..], p, ctr[..]) == goal
    {
      CryptBlockInplace(c, src, p, ctr);
      LeftStep(nbytes, bs);
      p := p + bs;
      nbytes := nbytes - bs;
    }
    LeftStep(nbytes, bs);
  }

  /** crypto_ctr_crypt_final: the keystream block is cut to the bytes that are left; dst may be the buffer of src */
  method CryptFinal(c: Cipher, x: Bytes, dst: array<Byte>, p: nat, ctr: array<Byte>)
    requires ctr.Length == c.bsize && 0 < |x| < c.bsize && p + |x| <= dst.Length && ctr != dst
    modifies dst, ctr
    ensures dst[..] == Put(old(dst[..]), p, Xor(Enc(c, old(ctr[..]))[..|x|], x)) && ctr[..] == Inc(old(ctr[..]))
  {
    hide Enc, Xor, Put, Inc;
    var keystream := Enc(c, ctr[..]);
    Copy(dst, p, Xor(keystream[..|x|], x));
    Increment(ctr);
  }

  /** crypto_ctr_crypt from one buffer to another */
  method Crypt(c: Cipher, src: array<Byte>, dst: array<Byte>, ctr: array<Byte>)
    requires ctr.Length == c.bsize && src.Length <= dst.Length && ctr != dst && ctr != src && src != dst
    modifies dst, ctr
    ensures dst[..src.Length] == Crypted(c, old(ctr[..]), src[..]) && dst[src.Length..] == old(dst[src.Length..])
    ensures ctr[..] == Counted(c, old(ctr[..]), src[..])
  {
    hide *;
    CryptAll(c, src[..], dst[..], ctr[..]);
    var nbytes := src.Length;
    if nbytes >= c.bsize { nbytes := CryptSegment(c, src, dst, ctr); }
    var p := src.Length - nbytes;
    if nbytes > 0 {
      LeftSmall(src.Length, c.bsize);
      CryptLast(c, src[..], dst[..], p, ctr[..]);
      var x := Slice(src, p, nbytes);
      assert x == src[..][p..];
      CryptFinal(c, x, dst, p, ctr);
    } else {
      CryptOver(c, src[..], dst[..], ctr[..]);
    }
  }

  /** crypto_ctr_crypt in place */
  method CryptSame(c: Cipher, buf: array<Byte>, ctr: array<Byte>)
    requires ctr.Length == c.bsize && ctr != buf
    modifies buf, ctr
    ensures buf[..] == Crypted(c, old(ctr[..]), old(buf[..])) && ctr[..] == Counted(c, old(ctr[..]), old(buf[..]))
  {
    hide *;
    ghost var s := buf[..];
    CryptAll(c, s, s, ctr[..]);
    var nbytes := buf.Length;
    if nbytes >= c.bsize { nbytes := CryptInplace(c, buf, ctr); }
    var p := buf.Length - nbytes;
    if nbytes > 0 {
      LeftSmall(buf.Length, c.bsize);
      CryptLast(c, buf[..], buf[..], p, ctr[..]);
      var x := Slice(buf, p, nbytes);
      assert x == buf[..][p..];
      CryptFinal(c, x, buf, p, ctr);
    } else {
      CryptOver(c, buf[..], buf[..], ctr[..]);
    }
    assert buf[..][..buf.Length] == buf[..];
  }
}
