/** The four loops of cbc.c over byte buffers, and their driver over the chunks of a message. */
module CbcLoops {
  import opened Cbc

  /** s with x written at i. */
  function Put(s: seq<Byte>, i: nat, x: seq<Byte>): (r: seq<Byte>)
    requires i + |x| <= |s|
    ensures |r| == |s|
  {
    s[..i] + x + s[i + |x|..]
  }

  lemma PutOutside(s: seq<Byte>, i: nat, x: seq<Byte>, from: nat, to: nat)
    requires i + |x| <= |s| && from <= to <= |s| && (i + |x| <= from || to <= i)
    ensures Put(s, i, x)[from..to] == s[from..to]
  {
  }

  lemma PutInside(s: seq<Byte>, i: nat, x: seq<Byte>, from: nat, to: nat)
    requires i <= from <= to <= i + |x| <= |s|
    ensures Put(s, i, x)[from..to] == x[from - i..to - i]
  {
  }

  lemma PutPut(s: seq<Byte>, i: nat, x: seq<Byte>, y: seq<Byte>)
    requires i + |x| + |y| <= |s|
    ensures Put(Put(s, i, x), i + |x|, y) == Put(s, i, x + y)
  {
  }

  lemma PutNothing(s: seq<Byte>, i: nat)
    requires i <= |s|
    ensures Put(s, i, []) == s
  {
  }

  /** crypto_xor: words first, then the remaining bytes. */
  method CryptoXor(a: array<Byte>, i: nat, b: array<Byte>, j: nat, n: nat)
    requires i + n <= a.Length && j + n <= b.Length && (a != b || i + n <= j || j + n <= i)
    modifies a
    ensures a[..] == Put(old(a[..]), i, XorSeq(old(a[..])[i..i + n], old(b[..])[j..j + n]))
  {
    hide X8, Xored;
    ghost var was, y := a[..], b[..][j..j + n];
    var k := 0;
    XoredNone(was, i, y);
    while n - k >= 4
      invariant k <= n && Xored(was, a[..], i, y, k)
    {
      XorByte(a, i, b, j, n, k, was, y);
      XorByte(a, i, b, j, n, k + 1, was, y);
      XorByte(a, i, b, j, n, k + 2, was, y);
      XorByte(a, i, b, j, n, k + 3, was, y);
      k := k + 4;
    }
    while k < n
      invariant k <= n && Xored(was, a[..], i, y, k)
    {
      XorByte(a, i, b, j, n, k, was, y);
      k := k + 1;
    }
    XoredAll(was, a[..], i, y);
  }

  lemma XoredNone(was: seq<Byte>, i: nat, y: seq<Byte>)
    requires i + |y| <= |was|
    ensures Xored(was, was, i, y, 0)
  {
  }

  lemma XoredAll(was: seq<Byte>, now: seq<Byte>, i: nat, y: seq<Byte>)
    requires Xored(was, now, i, y, |y|)
    ensures now == Put(was, i, XorSeq(was[i..i + |y|], y))
  {
  }

  /** The first k bytes from i on have been combined with y. */
  ghost predicate Xored(was: seq<Byte>, now: seq<Byte>, i: nat, y: seq<Byte>, k: nat) {
    && |now| == |was| && i + |y| <= |was| && k <= |y|
    && forall x :: 0 <= x < |was| ==> now[x] == if i <= x < i + k then X8(was[x], y[x - i]) else was[x]
  }

  method XorByte(a: array<Byte>, i: nat, b: array<Byte>, j: nat, n: nat, k: nat, ghost was: seq<Byte>,
                 ghost y: seq<Byte>)
    requires i + n <= a.Length && j + n <= b.Length && (a != b || i + n <= j || j + n <= i) && k < n == |y|
    requires Xored(was, a[..], i, y, k) && (if a != b then b[..][j..j + n] == y else was[j..j + n] == y)
    modifies a
    ensures Xored(was, a[..], i, y, k + 1)
  {
    hide X8;
    assert y[k] == if a != b then b[..][j..j + n][k] else was[j..j + n][k];
    a[i + k] := X8(a[i + k], b[j + k]);
  }

  /** memcpy of a block, or the cipher writing its result. */
  method Write(a: array<Byte>, i: nat, x: seq<Byte>)
    requires i + |x| <= a.Length
    modifies a
    ensures a[..] == Put(old(a[..]), i, x)
  {
    forall k | 0 <= k < |x| {
      a[i + k] := x[k];
    }
  }

  /** One more block on the chain. */
  lemma EncryptStep(c: Cipher, iv: seq<Byte>, m: seq<Byte>, b: seq<Byte>)
    requires Proper(c) && Whole(c, m) && |iv| == c.bsize && |b| == c.bsize
    ensures var block := c.enc(XorSeq(b, Chain(c, iv, Encrypted(c, iv, m))));
            && Encrypted(c, iv, m + b) == Encrypted(c, iv, m) + block && |block| == c.bsize
            && Chain(c, iv, Encrypted(c, iv, m + b)) == block && Whole(c, m + b)
            && |Encrypted(c, iv, m)| == |m|
  {
    hide Proper, XorSeq;
    SizePositive(c);
    EncryptChunks(c, iv, m, b);
    Lengths(c, iv, m);
    var last := Chain(c, iv, Encrypted(c, iv, m));
    EncLen(c, XorSeq(b, last));
    OneBlock(c, last, b);
    OneMore(|m|, c.bsize);
  }

  lemma OneBlock(c: Cipher, iv: seq<Byte>, b: seq<Byte>)
    requires c.bsize > 0 && |b| == c.bsize
    ensures Encrypted(c, iv, b) == c.enc(XorSeq(b, iv)) && Decrypted(c, iv, b) == XorSeq(c.dec(b), iv)
  {
    hide XorSeq;
    assert b[..c.bsize] == b && b[c.bsize..] == [];
  }

  lemma {:induction false} OneMore(n: nat, bsize: nat)
    requires bsize > 0 && WholeBlocks(n, bsize)
    ensures WholeBlocks(n + bsize, bsize)
  {
  }

  lemma DecryptStep(c: Cipher, iv: seq<Byte>, m: seq<Byte>, b: seq<Byte>)
    requires Proper(c) && Whole(c, m) && |iv| == c.bsize && |b| == c.bsize
    ensures && Decrypted(c, iv, m + b) == Decrypted(c, iv, m) + XorSeq(c.dec(b), Chain(c, iv, m))
            && Chain(c, iv, m + b) == b && Whole(c, m + b) && |c.dec(b)| == c.bsize
            && |Decrypted(c, iv, m)| == |m|
  {
    hide Proper, XorSeq;
    SizePositive(c);
    DecryptChunks(c, iv, m, b);
    Lengths(c, iv, m);
    EncLen(c, b);
    OneBlock(c, Chain(c, iv, m), b);
    OneMore(|m|, c.bsize);
  }

  lemma SliceStep(s: seq<Byte>, from: nat, done: nat, n: nat)
    requires from + done + n <= |s|
    ensures s[from..from + done + n] == s[from..from + done] + s[from + done..from + done + n]
  {
  }

  lemma ChainSize(c: Cipher, iv: seq<Byte>, x: seq<Byte>)
    requires |iv| == c.bsize
    ensures |Chain(c, iv, x)| == c.bsize
  {
  }

  /** One turn of the segment loop. */
  method EncryptBlock(c: Cipher, src: array<Byte>, s: nat, dst: array<Byte>, d: nat, iv: array<Byte>)
    requires Proper(c) && iv.Length == c.bsize && s + c.bsize <= src.Length && d + c.bsize <= dst.Length
    requires src != dst && src != iv && dst != iv
    modifies dst, iv
    ensures var block := c.enc(XorSeq(src[..][s..s + c.bsize], old(iv[..])));
            |block| == c.bsize && dst[..] == Put(old(dst[..]), d, block) && iv[..] == block
  {
    hide Proper, XorSeq, Put;
    ghost var iv0, b := iv[..], src[..][s..s + c.bsize];
    CryptoXor(iv, 0, src, s, c.bsize);
    assert iv0[0..c.bsize] == iv0;
    PutAll(iv0, XorSeq(iv0, b));
    XorSwap(b, iv0);
    EncLen(c, iv[..]);
    var block := c.enc(iv[..]);
    Write(dst, d, block);
    PutInside(old(dst[..]), d, block, d, d + c.bsize);
    assert dst[d..d + c.bsize] == dst[..][d..d + c.bsize] == block;
    ghost var sum := iv[..];
    Write(iv, 0, dst[d..d + c.bsize]);
    PutAll(sum, block);
  }

  /** crypto_cbc_encrypt_segment.  A chunk has at least one block, so the do-while is a while. */
  method EncryptSegment(c: Cipher, src: array<Byte>, s: nat, dst: array<Byte>, d: nat, iv: array<Byte>, nbytes: nat)
    returns (left: nat)
    requires Proper(c) && iv.Length == c.bsize && nbytes >= c.bsize
    requires s + nbytes <= src.Length && d + nbytes <= dst.Length
    requires src != dst && src != iv && dst != iv
    modifies dst, iv
    ensures left < c.bsize && left <= nbytes && Whole(c, src[..][s..s + nbytes - left])
    ensures var out := Encrypted(c, old(iv[..]), src[..][s..s + nbytes - left]);
            && |out| == nbytes - left && dst[..] == Put(old(dst[..]), d, out)
            && iv[..] == Chain(c, old(iv[..]), out)
  {
    hide Proper, Encrypted, Chain, XorSeq, Put, Whole;
    SizePositive(c);
    ghost var iv0, dst0, all := iv[..], dst[..], src[..];
    left := nbytes;
    var done := 0;
    NothingYet(c, iv0, all, s);
    PutNothing(dst0, d);
    while left >= c.bsize
      invariant done + left == nbytes && Whole(c, all[s..s + done])
      invariant var out := Encrypted(c, iv0, all[s..s + done]);
                |out| == done && dst[..] == Put(dst0, d, out) && iv[..] == Chain(c, iv0, out)
    {
      ghost var m, b := all[s..s + done], all[s + done..s + done + c.bsize];
      ghost var out := Encrypted(c, iv0, m);
      EncryptStep(c, iv0, m, b);
      SliceStep(all, s, done, c.bsize);
      EncryptBlock(c, src, s + done, dst, d + done, iv);
      PutPut(dst0, d, out, iv[..]);
      left := left - c.bsize;
      done := done + c.bsize;
    }
  }

  lemma NothingYet(c: Cipher, iv: seq<Byte>, src: seq<Byte>, s: nat)
    requires s <= |src| && c.bsize > 0
    ensures src[s..s] == [] && Encrypted(c, iv, []) == [] && Decrypted(c, iv, []) == [] && Chain(c, iv, []) == iv
    ensures Whole(c, [])
  {
  }

  lemma PutAll(s: seq<Byte>, x: seq<Byte>)
    requires |x| == |s|
    ensures Put(s, 0, x) == x
  {
  }

  /** One turn of the in-place loop: the previous block, or the IV, is the pointer's target. */
  method EncryptBlockInPlace(c: Cipher, a: array<Byte>, i: nat, iv: array<Byte>, first: bool, ghost last: seq<Byte>)
    requires Proper(c) && iv.Length == c.bsize && i + c.bsize <= a.Length && a != iv
    requires if first then last == iv[..] else i >= c.bsize && last == a[..][i - c.bsize..i]
    modifies a
    ensures var block := c.enc(XorSeq(old(a[..])[i..i + c.bsize], last));
            |block| == c.bsize && a[..] == Put(old(a[..]), i, block)
  {
    hide Proper, XorSeq, Put;
    ghost var a0 := a[..];
    if first {
      CryptoXor(a, i, iv, 0, c.bsize);
      assert iv[..][0..c.bsize] == iv[..];
    } else {
      CryptoXor(a, i, a, i - c.bsize, c.bsize);
    }
    ghost var sum := XorSeq(a0[i..i + c.bsize], last);
    PutInside(a0, i, sum, i, i + c.bsize);
    assert a[i..i + c.bsize] == a[..][i..i + c.bsize] == sum;
    EncLen(c, sum);
    Write(a, i, c.enc(a[i..i + c.bsize]));
    PutOver(a0, i, sum, c.enc(sum));
  }

  lemma PutOver(s: seq<Byte>, i: nat, x: seq<Byte>, y: seq<Byte>)
    requires i + |x| <= |s| && |x| == |y|
    ensures Put(Put(s, i, x), i, y) == Put(s, i, y)
  {
  }

  /** crypto_cbc_encrypt_inplace. */
  method EncryptInPlace(c: Cipher, a: array<Byte>, s: nat, iv: array<Byte>, nbytes: nat) returns (left: nat)
    requires Proper(c) && iv.Length == c.bsize && nbytes >= c.bsize && s + nbytes <= a.Length && a != iv
    modifies a, iv
    ensures left < c.bsize && left <= nbytes && Whole(c, old(a[..])[s..s + nbytes - left])
    ensures var out := Encrypted(c, old(iv[..]), old(a[..])[s..s + nbytes - left]);
            && |out| == nbytes - left && a[..] == Put(old(a[..]), s, out)
            && iv[..] == Chain(c, old(iv[..]), out)
  {
    hide Proper, Encrypted, Chain, XorSeq, Put, Whole;
    SizePositive(c);
    ghost var iv0, all := iv[..], a[..];
    left := nbytes;
    var done := 0;
    NothingYet(c, iv0, all, s);
    PutNothing(all, s);
    while left >= c.bsize
      invariant done + left == nbytes && Whole(c, all[s..s + done]) && iv[..] == iv0 && (done == 0 || done >= c.bsize)
      invariant var out := Encrypted(c, iv0, all[s..s + done]); |out| == done && a[..] == Put(all, s, out)
    {
      ghost var m, b := all[s..s + done], all[s + done..s + done + c.bsize];
      ghost var out := Encrypted(c, iv0, m);
      EncryptStep(c, iv0, m, b);
      SliceStep(all, s, done, c.bsize);
      PutOutside(all, s, out, s + done, s + done + c.bsize);
      LastWritten(c, iv0, all, s, out);
      EncryptBlockInPlace(c, a, s + done, iv, done == 0, Chain(c, iv0, out));
      PutPut(all, s, out, c.enc(XorSeq(b, Chain(c, iv0, out))));
      left := left - c.bsize;
      done := done + c.bsize;
    }
    LastWritten(c, iv0, all, s, Encrypted(c, iv0, all[s..s + done]));
    assert a[s + done - c.bsize..s + done] == a[..][s + done - c.bsize..s + done];
    Write(iv, 0, a[s + done - c.bsize..s + done]);
    PutAll(iv0, Chain(c, iv0, Encrypted(c, iv0, all[s..s + done])));
  }

  /** The chaining value can be read back from the buffer. */
  lemma LastWritten(c: Cipher, iv: seq<Byte>, all: seq<Byte>, s: nat, out: seq<Byte>)
    requires s + |out| <= |all| && c.bsize > 0 && (out == [] || |out| >= c.bsize) && |iv| == c.bsize
    ensures |Chain(c, iv, out)| == c.bsize
    ensures if out == [] then Chain(c, iv, out) == iv
            else Chain(c, iv, out) == Put(all, s, out)[s + |out| - c.bsize..s + |out|]
  {
  }
}
