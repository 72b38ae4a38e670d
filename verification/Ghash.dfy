/**
  GHASH as crypto/ghash-generic.c computes it, in pieces of any length, against section 6.4 of NIST SP 800-38D.
 */
module Ghash {
  import opened CryptoBytes
  import Gf128
  import Gf128Mul

  type Block = s: Bytes | |s| == 16 witness Zeros(16)

  /** The product of a block with the hash subkey. */
  function Times(y: Block, h: Gf128.El): Block { Gf128.ToBytes(Gf128.Product(y, h)) }

  /** Bytes added to the front of a block. */
  function AddTo(y: Block, p: Bytes): Block
    requires |p| <= 16
  {
    Put(y, 0, Xor(y[..|p|], p))
  }

  /** GHASH of a whole number of blocks: every block is added to the hash so far, which is then multiplied by h. */
  function HashBlocks(y: Block, data: Bytes, h: Gf128.El): Block
    requires |data| % 16 == 0
    decreases |data|
  {
    if data == [] then y else HashBlocks(Times(Xor(y, data[..16]), h), data[16..], h)
  }

  /** The same hash of data of any length, the last block added as far as it goes. */
  function Hash(y: Block, data: Bytes, h: Gf128.El): Block
    decreases |data|
  {
    if data == [] then y
    else if |data| < 16 then Times(AddTo(y, data), h)
    else Hash(Times(AddTo(y, data[..16]), h), data[16..], h)
  }

  lemma {:induction false} AddAt(y: Block, p: Bytes, i: nat)
    requires |p| <= 16 && i < 16
    ensures AddTo(y, p)[i] == if i < |p| then Add(y[i], p[i]) else y[i]
  {
  }

  lemma {:induction false} AddPadded(y: Block, p: Bytes)
    requires |p| <= 16
    ensures AddTo(y, p) == Xor(y, p + Zeros(16 - |p|))
  {
    hide AddTo;
    var q := p + Zeros(16 - |p|);
    forall i | 0 <= i < 16 ensures AddTo(y, p)[i] == Xor(y, q)[i] {
      AddAt(y, p, i);
      XorByte(y[i], ZERO);
    }
  }

  /** Hashing the padded data, block by block. */
  lemma {:induction false} HashIsPadded(y: Block, data: Bytes, h: Gf128.El)
    ensures Hash(y, data, h) == HashBlocks(y, Padded(data), h)
    decreases |data|
  {
    hide Times, AddTo, Xor, Zeros;
    var p := Padded(data);
    PaddedShape(data);
    hide Padded;
    if data == [] {
    } else if |data| < 16 {
      AddPadded(y, data);
      assert p[..16] == p && p[16..] == [];
    } else {
      AddPadded(y, data[..16]);
      assert data[..16] + Zeros(0) == data[..16];
      HashIsPadded(Times(AddTo(y, data[..16]), h), data[16..], h);
    }
  }

  /** y and the pending bytes stand for everything seen: whatever comes next, the hash is the same. */
  ghost predicate Stands(seen: Bytes, y: Block, part: Bytes, h: Gf128.El) {
    |part| < 16 && forall rest: Bytes :: Hash(Zeros(16), seen + rest, h) == Hash(y, part + rest, h)
  }

  lemma {:induction false} StandsMore(seen: Bytes, y: Block, part: Bytes, h: Gf128.El, x: Bytes)
    requires Stands(seen, y, part, h) && |part| + |x| < 16
    ensures Stands(seen + x, y, part + x, h)
  {
    hide Hash, Zeros;
    forall rest: Bytes ensures Hash(Zeros(16), (seen + x) + rest, h) == Hash(y, (part + x) + rest, h) {
      assert (seen + x) + rest == seen + (x + rest) && (part + x) + rest == part + (x + rest);
    }
  }

  lemma {:induction false} StandsBlock(seen: Bytes, y: Block, part: Bytes, h: Gf128.El, x: Bytes)
    requires Stands(seen, y, part, h) && |part| + |x| == 16
    ensures Stands(seen + x, Times(AddTo(y, part + x), h), [], h)
  {
    hide Zeros, Times, AddTo;
    var y' := Times(AddTo(y, part + x), h);
    forall rest: Bytes ensures Hash(Zeros(16), (seen + x) + rest, h) == Hash(y', [] + rest, h) {
      assert (seen + x) + rest == seen + (x + rest);
      var d := part + (x + rest);
      assert d[..16] == part + x && d[16..] == rest && [] + rest == rest;
    }
  }

  lemma {:induction false} StandsDone(seen: Bytes, y: Block, part: Bytes, h: Gf128.El)
    requires Stands(seen, y, part, h)
    ensures Hash(Zeros(16), seen, h) == if part == [] then y else Times(AddTo(y, part), h)
  {
    assert seen + [] == seen && part + [] == part;
  }

  lemma {:induction false} StandsNew(h: Gf128.El)
    ensures Stands([], Zeros(16), [], h)
  {
    forall rest: Bytes ensures Hash(Zeros(16), [] + rest, h) == Hash(Zeros(16), [] + rest, h) { }
  }

  lemma {:induction false} PutXorAt(b: Block, n: nat, x: Bytes, i: nat)
    requires n + |x| <= 16 && i < 16
    ensures Put(b, n, Xor(b[n..n + |x|], x))[i] == if n <= i < n + |x| then Add(b[i], x[i - n]) else b[i]
  {
  }

  /** Adding more bytes behind those already added. */
  lemma {:induction false} AddMore(y: Block, part: Bytes, x: Bytes)
    requires |part| + |x| <= 16
    ensures var b := AddTo(y, part); Put(b, |part|, Xor(b[|part|..|part| + |x|], x)) == AddTo(y, part + x)
  {
    hide AddTo, Put;
    var b := AddTo(y, part);
    forall i | 0 <= i < 16 ensures Put(b, |part|, Xor(b[|part|..|part| + |x|], x))[i] == AddTo(y, part + x)[i] {
      AddAt(y, part, i);
      AddAt(y, part + x, i);
      PutXorAt(b, |part|, x, i);
    }
  }

  lemma {:induction false} AddZeros(y: Block, part: Bytes)
    requires |part| <= 16
    ensures AddTo(y, part + Zeros(16 - |part|)) == AddTo(y, part)
  {
    hide AddTo;
    var q := part + Zeros(16 - |part|);
    AddPadded(y, part);
    AddPadded(y, q);
    assert q + Zeros(0) == q;
  }

  lemma {:induction false} AddNone(y: Block)
    ensures AddTo(y, []) == y
  {
  }

  class Desc {
    const buffer: array<Byte>
    var bytes: nat
    const t: array<Gf128.El>
    ghost const h: Gf128.El
    /** Everything hashed so far, the hash of its whole blocks, and the rest. */
    ghost var seen: Bytes
    ghost var y: Block
    ghost var part: Bytes

    ghost predicate TableOk()
      reads t
    {
      (var a: object, b: object := t, buffer; a != b) && Gf128Mul.IsTable(t[..], h)
    }

    ghost predicate Valid()
      reads this, buffer, t
    {
      && buffer.Length == 16 && TableOk()
      && |part| < 16 && bytes == (if |part| == 0 then 0 else 16 - |part|)
      && buffer[..] == AddTo(y, part)
      && Stands(seen, y, part, h)
    }

    /** The table of ghash_setkey, and ghash_init: the hash subkey is the field element that the key bytes stand for. */
    constructor (key: Block)
      ensures Valid() && h == Gf128.FromBytes(key) && Gf128.ToBytes(h) == key && seen == [] && fresh(buffer) && fresh(t)
    {
      hide AddTo, Stands, Gf128Mul.IsTable, Hash, Gf128.FromBytes, Gf128.ToBytes;
      buffer := new Byte[16](_ => ZERO);
      bytes := 0;
      h := Gf128.FromBytes(key);
      var table := Gf128Mul.Init4k(Gf128.FromBytes(key));
      t := table;
      seen, y, part := [], Zeros(16), [];
      new;
      AddNone(Zeros(16));
      assert buffer[..] == Zeros(16);
      StandsNew(h);
      Gf128.RoundTrip(key);
    }

    /** The byte loops of ghash_update: x is added behind the pending bytes. */
    method Add(off: nat, x: Bytes)
      requires buffer.Length == 16 && off == |part| && off + |x| <= 16 && buffer[..] == AddTo(y, part)
      modifies buffer
      ensures buffer[..] == AddTo(y, part + x)
    {
      hide AddTo;
      AddMore(y, part, x);
      ghost var was := buffer[..];
      XorMore(buffer, off, x, 0, |x|, was);
      AddedAll(was, buffer[..], off, x);
    }

    /** A block is full: the hash moves on. */
    method Multiply(ghost x: Bytes)
      requires buffer.Length == 16 && TableOk() && Stands(seen, y, part, h)
      requires |part| + |x| == 16 && buffer[..] == AddTo(y, part + x) && bytes == 0
      modifies this, buffer
      ensures Valid() && bytes == 0 && seen == old(seen) + x
    {
      hide AddTo, Stands, Gf128Mul.IsTable, Gf128.Product, Gf128.ToBytes;
      StandsBlock(seen, y, part, h, x);
      Gf128Mul.Mul4k(buffer, t, h);
      seen, y, part := seen + x, Times(AddTo(y, part + x), h), [];
      AddNone(y);
    }

    /** ghash_update */
    method Update(data: Bytes)
      requires Valid()
      modifies this, buffer
      ensures Valid() && seen == old(seen) + data
    {
      hide AddTo, Stands, Gf128Mul.IsTable;
      ghost var before := seen;
      var src := data;
      if bytes != 0 {
        var n := if |src| < bytes then |src| else bytes;
        var pos := 16 - bytes;
        bytes := bytes - n;
        Add(pos, src[..n]);
        if bytes == 0 {
          Multiply(src[..n]);
        } else {
          StandsMore(seen, y, part, h, src[..n]);
          seen, part := seen + src[..n], part + src[..n];
        }
        src := src[n..];
      }
      assert seen + src == before + data && (bytes == 0 || src == []);
      while |src| >= 16
        invariant Valid() && seen + src == before + data && (bytes == 0 || src == [])
      {
        Add(0, src[..16]);
        Multiply(src[..16]);
        assert seen + src[16..] == before + data;
        src := src[16..];
      }
      if |src| != 0 {
        bytes := 16 - |src|;
        StandsMore(seen, y, part, h, src);
        Add(0, src);
        seen, part := seen + src, part + src;
      }
    }

    /** ghash_flush and ghash_final: the hash of everything seen, zero-padded to whole blocks. */
    method Final() returns (out: Bytes)
      requires Valid()
      modifies this, buffer
      ensures bytes == 0 && out == HashBlocks(Zeros(16), Padded(old(seen)), h)
    {
      hide AddTo, Stands, Gf128Mul.IsTable, Gf128.Product, Gf128.ToBytes;
      StandsDone(seen, y, part, h);
      HashIsPadded(Zeros(16), seen, h);
      AddNone(y);
      if bytes != 0 {
        Add(16 - bytes, Zeros(bytes));
        AddZeros(y, part);
        Gf128Mul.Mul4k(buffer, t, h);
      }
      bytes := 0;
      out := buffer[..];
    }
  }

  const EINVAL := 22

  /** ghash_setkey: only a key of one block is accepted. */
  method SetKey(key: Bytes) returns (err: int, d: Desc?)
    ensures err == if |key| == 16 then 0 else -EINVAL
    ensures d == null <==> err != 0
    ensures d != null ==> fresh(d) && d.Valid() && Gf128.ToBytes(d.h) == key && d.seen == []
  {
    hide Gf128.ToBytes;
    if |key| != 16 { return -EINVAL, null; }
    d := new Desc(key);
    return 0, d;
  }
}
