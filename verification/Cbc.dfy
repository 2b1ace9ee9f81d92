/** Cipher block chaining as section 6.2 of NIST SP 800-38A defines it, on byte strings. */
module Cbc {

  type Byte = bv8

  function X8(a: Byte, b: Byte): Byte { a ^ b }

  function XorSeq(a: seq<Byte>, b: seq<Byte>): (r: seq<Byte>)
    ensures |r| == |a|
  {
    seq(|a|, i requires 0 <= i < |a| => if i < |b| then X8(a[i], b[i]) else a[i])
  }

  lemma XorTwice(a: seq<Byte>, b: seq<Byte>)
    ensures XorSeq(XorSeq(a, b), b) == a
  {
  }

  lemma XorSwap(a: seq<Byte>, b: seq<Byte>)
    requires |a| == |b|
    ensures XorSeq(a, b) == XorSeq(b, a)
  {
  }

  /** A block cipher under some key. */
  datatype Cipher = Cipher(enc: seq<Byte> -> seq<Byte>, dec: seq<Byte> -> seq<Byte>, bsize: nat)

  predicate PowerOfTwo(n: nat) { n == 1 || (n > 1 && n % 2 == 0 && PowerOfTwo(n / 2)) }

  ghost predicate Proper(c: Cipher) {
    && PowerOfTwo(c.bsize)
    && forall b: seq<Byte> :: |b| == c.bsize ==> |c.enc(b)| == c.bsize && |c.dec(b)| == c.bsize
  }

  ghost predicate Inverts(c: Cipher) {
    forall b: seq<Byte> :: |b| == c.bsize ==> c.dec(c.enc(b)) == b
  }

  /** C1 = E(P1 xor IV), Cj = E(Pj xor Cj-1); bytes behind the last whole block are left out. */
  function Encrypted(c: Cipher, iv: seq<Byte>, m: seq<Byte>): seq<Byte>
    decreases |m|
  {
    if c.bsize == 0 || |m| < c.bsize then []
    else
      var block := c.enc(XorSeq(m[..c.bsize], iv));
      block + Encrypted(c, block, m[c.bsize..])
  }

  /** P1 = D(C1) xor IV, Pj = D(Cj) xor Cj-1. */
  function Decrypted(c: Cipher, iv: seq<Byte>, m: seq<Byte>): seq<Byte>
    decreases |m|
  {
    if c.bsize == 0 || |m| < c.bsize then []
    else XorSeq(c.dec(m[..c.bsize]), iv) + Decrypted(c, m[..c.bsize], m[c.bsize..])
  }

  /** The last block of what was chained so far, or the IV. */
  function Chain(c: Cipher, iv: seq<Byte>, x: seq<Byte>): seq<Byte> {
    if x == [] || |x| < c.bsize then iv else x[|x| - c.bsize..]
  }

  predicate WholeBlocks(n: nat, bsize: nat) { n == 0 || (0 < bsize <= n && WholeBlocks(n - bsize, bsize)) }

  /** A message of whole blocks. */
  predicate Whole(c: Cipher, m: seq<Byte>) { c.bsize > 0 && WholeBlocks(|m|, c.bsize) }

  lemma EncLen(c: Cipher, b: seq<Byte>)
    requires Proper(c) && |b| == c.bsize
    ensures |c.enc(b)| == c.bsize && |c.dec(b)| == c.bsize
  {
  }

  lemma Undone(c: Cipher, b: seq<Byte>)
    requires Inverts(c) && |b| == c.bsize
    ensures c.dec(c.enc(b)) == b
  {
  }

  lemma SizePositive(c: Cipher)
    requires Proper(c)
    ensures c.bsize > 0
  {
  }

  lemma {:induction false} Lengths(c: Cipher, iv: seq<Byte>, m: seq<Byte>)
    requires Proper(c) && Whole(c, m)
    ensures |Encrypted(c, iv, m)| == |m| && |Decrypted(c, iv, m)| == |m|
    decreases |m|
  {
    hide Proper, XorSeq, PowerOfTwo;
    if |m| >= c.bsize {
      EncLen(c, XorSeq(m[..c.bsize], iv));
      EncLen(c, m[..c.bsize]);
      Lengths(c, c.enc(XorSeq(m[..c.bsize], iv)), m[c.bsize..]);
      Lengths(c, m[..c.bsize], m[c.bsize..]);
    } else {
      Short(c, m);
    }
  }

  lemma Short(c: Cipher, m: seq<Byte>)
    requires Whole(c, m) && |m| < c.bsize
    ensures m == []
  {
  }

  /** Chunks may be encrypted one after the other, the last block becoming the next IV. */
  lemma {:induction false} EncryptChunks(c: Cipher, iv: seq<Byte>, a: seq<Byte>, b: seq<Byte>)
    requires Proper(c) && Whole(c, a) && |iv| == c.bsize
    ensures Encrypted(c, iv, a + b) == Encrypted(c, iv, a) + Encrypted(c, Chain(c, iv, Encrypted(c, iv, a)), b)
    decreases |a|
  {
    hide Proper, XorSeq, Chain;
    if |a| < c.bsize {
      Short(c, a);
      assert a + b == b;
    } else {
      var block := c.enc(XorSeq(a[..c.bsize], iv));
      EncLen(c, XorSeq(a[..c.bsize], iv));
      EncryptChunks(c, block, a[c.bsize..], b);
      Lengths(c, block, a[c.bsize..]);
      assert (a + b)[..c.bsize] == a[..c.bsize] && (a + b)[c.bsize..] == a[c.bsize..] + b;
      ChainPast(c, iv, block, Encrypted(c, block, a[c.bsize..]));
    }
    ChainNone(c, iv);
  }

  lemma ChainNone(c: Cipher, iv: seq<Byte>)
    ensures Chain(c, iv, []) == iv
  {
  }

  lemma ChainPast(c: Cipher, iv: seq<Byte>, block: seq<Byte>, rest: seq<Byte>)
    requires c.bsize > 0 && |block| == c.bsize && (rest == [] || |rest| >= c.bsize)
    ensures Chain(c, iv, block + rest) == Chain(c, block, rest)
  {
  }

  lemma {:induction false} DecryptChunks(c: Cipher, iv: seq<Byte>, a: seq<Byte>, b: seq<Byte>)
    requires Proper(c) && Whole(c, a) && |iv| == c.bsize
    ensures Decrypted(c, iv, a + b) == Decrypted(c, iv, a) + Decrypted(c, Chain(c, iv, a), b)
    decreases |a|
  {
    hide Proper, XorSeq, Chain;
    if |a| < c.bsize {
      Short(c, a);
      assert a + b == b;
    } else {
      DecryptChunks(c, a[..c.bsize], a[c.bsize..], b);
      assert (a + b)[..c.bsize] == a[..c.bsize] && (a + b)[c.bsize..] == a[c.bsize..] + b;
      WholeOrEmpty(c, a[c.bsize..]);
      ChainPast(c, iv, a[..c.bsize], a[c.bsize..]);
      assert a == a[..c.bsize] + a[c.bsize..];
    }
    ChainNone(c, iv);
  }

  lemma WholeOrEmpty(c: Cipher, m: seq<Byte>)
    requires Whole(c, m)
    ensures m == [] || |m| >= c.bsize
  {
  }

  /** Decryption undoes encryption when the block cipher does. */
  lemma {:induction false} DecryptUndoes(c: Cipher, iv: seq<Byte>, m: seq<Byte>)
    requires Proper(c) && Inverts(c) && Whole(c, m) && |iv| == c.bsize
    ensures Decrypted(c, iv, Encrypted(c, iv, m)) == m
    decreases |m|
  {
    hide Proper, XorSeq, Inverts;
    if |m| < c.bsize {
      Short(c, m);
    } else {
      var sum := XorSeq(m[..c.bsize], iv);
      var block := c.enc(sum);
      var rest := Encrypted(c, block, m[c.bsize..]);
      EncLen(c, sum);
      Undone(c, sum);
      DecryptUndoes(c, block, m[c.bsize..]);
      assert (block + rest)[..c.bsize] == block && (block + rest)[c.bsize..] == rest;
      XorTwice(m[..c.bsize], iv);
      assert c.dec(block) == sum;
      assert m == m[..c.bsize] + m[c.bsize..];
    }
  }

  /** The bits two numbers share. */
  function And(a: nat, b: nat): nat {
    if a == 0 || b == 0 then 0 else (a % 2) * (b % 2) + 2 * And(a / 2, b / 2)
  }

  /** Masking with bsize - 1 is the remainder for a power of two. */
  lemma {:induction false} MaskIsRemainder(n: nat, bsize: nat)
    requires PowerOfTwo(bsize)
    ensures And(n, bsize - 1) == n % bsize
    decreases bsize
  {
    if bsize > 1 {
      MaskIsRemainder(n / 2, bsize / 2);
      Halves(n, bsize / 2);
      assert (bsize - 1) / 2 == bsize / 2 - 1 && (bsize - 1) % 2 == 1;
      if n == 0 {
        assert n % bsize == 0;
      }
    }
  }

  lemma Halves(n: nat, h: nat)
    requires h > 0
    ensures n % (2 * h) == n % 2 + 2 * (n / 2 % h)
  {
    var q, r := n / 2 / h, n / 2 % h;
    assert n / 2 == q * h + r;
    assert n == q * (2 * h) + (2 * r + n % 2);
    Unique(n, 2 * h, q, 2 * r + n % 2);
  }

  lemma Unique(n: nat, d: nat, q: nat, r: nat)
    requires d > 0 && n == q * d + r && r < d
    ensures n % d == r
  {
    var e := n / d - q;
    assert e * d == r - n % d;
    Multiple(e, d);
  }

  lemma Multiple(e: int, d: int)
    requires d > 0
    ensures e >= 1 ==> e * d >= d
    ensures e <= -1 ==> e * d <= -d
  {
  }

  lemma OneFewer(n: nat, bsize: nat)
    requires 0 < bsize <= n
    ensures (n - bsize) % bsize == n % bsize
  {
    assert n == (n - bsize) / bsize * bsize + bsize + (n - bsize) % bsize;
    assert ((n - bsize) / bsize + 1) * bsize == (n - bsize) / bsize * bsize + bsize;
    Unique(n, bsize, (n - bsize) / bsize + 1, (n - bsize) % bsize);
  }
}
