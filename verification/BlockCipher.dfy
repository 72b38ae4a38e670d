/**
  A block cipher as the modes of operation see it: a permutation of blocks and its inverse, otherwise arbitrary.
 */
module BlockCipher {
  import opened CryptoBytes

  type Size = n: nat | n > 0 witness 1

  datatype Keyed = Keyed(bsize: Size, enc: Bytes -> Bytes, dec: Bytes -> Bytes)

  ghost predicate Permutes(c: Keyed) {
    && (forall x {:trigger c.enc(x)} :: |x| == c.bsize ==> |c.enc(x)| == c.bsize)
    && (forall x {:trigger c.dec(x)} :: |x| == c.bsize ==> |c.dec(x)| == c.bsize)
    && (forall x {:trigger c.dec(c.enc(x))} :: |x| == c.bsize ==> c.dec(c.enc(x)) == x)
    && (forall x {:trigger c.enc(c.dec(x))} :: |x| == c.bsize ==> c.enc(c.dec(x)) == x)
  }

  /** A cipher with its key set. */
  type Cipher = c: Keyed | Permutes(c) witness Keyed(1, x => x, x => x)

  function Enc(c: Cipher, x: Bytes): (y: Bytes)
    requires |x| == c.bsize
    ensures |y| == c.bsize
  {
    c.enc(x)
  }

  function Dec(c: Cipher, x: Bytes): (y: Bytes)
    requires |x| == c.bsize
    ensures |y| == c.bsize
  {
    c.dec(x)
  }

  lemma {:induction false} Inverse(c: Cipher, x: Bytes)
    requires |x| == c.bsize
    ensures Dec(c, Enc(c, x)) == x && Enc(c, Dec(c, x)) == x
  {
  }

  /** What is left of n bytes after whole blocks. */
  function Left(n: nat, bs: nat): (r: nat)
    requires bs > 0
    ensures r < bs && r <= n
  {
    if n < bs then n else Left(n - bs, bs)
  }

  /** n is a whole number of blocks. */
  predicate Whole(n: nat, bs: nat)
    requires bs > 0
  {
    Left(n, bs) == 0
  }

  lemma {:induction false} LeftAdds(m: nat, n: nat, bs: nat)
    requires bs > 0 && Whole(m, bs)
    ensures Left(m + n, bs) == Left(n, bs)
  {
    if m >= bs { LeftAdds(m - bs, n, bs); }
  }

  lemma {:induction false} LeftRest(n: nat, bs: nat)
    requires bs > 0
    ensures Whole(n - Left(n, bs), bs)
  {
    if n >= bs { LeftRest(n - bs, bs); }
  }

  lemma {:induction false} LeftStep(n: nat, bs: nat)
    requires bs > 0
    ensures n >= bs ==> Left(n - bs, bs) == Left(n, bs)
    ensures n < bs ==> Left(n, bs) == n
  {
  }

  lemma {:induction false} LeftSmall(n: nat, bs: nat)
    requires bs > 0
    ensures Left(n, bs) < bs
  {
  }

  lemma {:induction false} WholePart(n: nat, bs: nat)
    requires bs > 0 && n >= bs
    ensures n - Left(n, bs) >= bs && Whole(n - Left(n, bs), bs)
  {
    LeftRest(n, bs);
    assert Left(n, bs) == Left(n - bs, bs);
  }

  /** Left is the remainder. */
  lemma {:induction false} LeftIsMod(n: nat, bs: nat)
    requires bs > 0
    ensures Left(n, bs) == n % bs
  {
    if n >= bs {
      LeftIsMod(n - bs, bs);
      ModStep(n - bs, bs);
    }
  }

  lemma {:induction false} ModStep(n: nat, bs: nat)
    requires bs > 0
    ensures (n + bs) % bs == n % bs
  {
    var q := (n + bs) / bs - (n / bs + 1);
    assert q * bs == (n + bs) / bs * bs - n / bs * bs - bs;
    Small(q, bs, n % bs - (n + bs) % bs);
  }

  lemma {:induction false} Small(k: int, bs: nat, d: int)
    requires k * bs == d && 0 - bs < d < bs
    ensures d == 0 && k == 0
  {
    NotAbove(k, bs, d);
    assert (-k) * bs == -d;
    NotAbove(-k, bs, -d);
  }

  lemma {:induction false} NotAbove(k: int, bs: nat, d: int)
    requires k * bs == d && d < bs
    ensures k <= 0
  {
    if k >= 1 { Monotone(1, k, bs); }
  }

  lemma {:induction false} Monotone(a: nat, b: nat, n: nat)
    requires a <= b
    ensures a * n <= b * n
  {
  }
}
