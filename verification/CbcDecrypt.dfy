/** CBC decryption over buffers, forwards out of place and backwards in place, and the chunk drivers. */
module CbcDecrypt {
  import opened Cbc
  import opened CbcLoops

  /** One turn of the segment loop: the previous ciphertext block, or the IV, is the pointer's target. */
  method DecryptBlock(c: Cipher, src: array<Byte>, s: nat, dst: array<Byte>, d: nat, iv: array<Byte>, first: bool,
                      ghost last: seq<Byte>)
    requires Proper(c) && iv.Length == c.bsize && s + c.bsize <= src.Length && d + c.bsize <= dst.Length
    requires src != dst && src != iv && dst != iv
    requires if first then last == iv[..] else s >= c.bsize && last == src[..][s - c.bsize..s]
    modifies dst
    ensures var block := XorSeq(c.dec(src[..][s..s + c.bsize]), last);
            |block| == c.bsize && dst[..] == Put(old(dst[..]), d, block)
  {
    hide Proper, XorSeq, Put;
    ghost var dst0, b := dst[..], src[..][s..s + c.bsize];
    EncLen(c, b);
    assert src[s..s + c.bsize] == b;
    Write(dst, d, c.dec(src[s..s + c.bsize]));
    PutInside(dst0, d, c.dec(b), d, d + c.bsize);
    assert dst[..][d..d + c.bsize] == c.dec(b);
    if first {
      CryptoXor(dst, d, iv, 0, c.bsize);
      assert iv[..][0..c.bsize] == iv[..];
    } else {
      CryptoXor(dst, d, src, s - c.bsize, c.bsize);
    }
    PutOver(dst0, d, c.dec(b), XorSeq(c.dec(b), last));
  }

  /** crypto_cbc_decrypt_segment. */
  method DecryptSegment(c: Cipher, src: array<Byte>, s: nat, dst: array<Byte>, d: nat, iv: array<Byte>, nbytes: nat)
    returns (left: nat)
    requires Proper(c) && iv.Length == c.bsize && nbytes >= c.bsize
    requires s + nbytes <= src.Length && d + nbytes <= dst.Length
    requires src != dst && src != iv && dst != iv
    modifies dst, iv
    ensures left < c.bsize && left <= nbytes && Whole(c, src[..][s..s + nbytes - left])
    ensures var m := src[..][s..s + nbytes - left]; var out := Decrypted(c, old(iv[..]), m);
            && |out| == nbytes - left && dst[..] == Put(old(dst[..]), d, out)
            && iv[..] == Chain(c, old(iv[..]), m)
  {
    hide Proper, Decrypted, Chain, XorSeq, Put, Whole;
    SizePositive(c);
    ghost var iv0, dst0, all := iv[..], dst[..], src[..];
    left := nbytes;
    var done := 0;
    NothingYet(c, iv0, all, s);
    PutNothing(dst0, d);
    while left >= c.bsize
      invariant done + left == nbytes && Whole(c, all[s..s + done]) && iv[..] == iv0 && (done == 0 || done >= c.bsize)
      invariant var out := Decrypted(c, iv0, all[s..s + done]); |out| == done && dst[..] == Put(dst0, d, out)
    {
      ghost var m, b := all[s..s + done], all[s + done..s + done + c.bsize];
      ghost var out := Decrypted(c, iv0, m);
      DecryptStep(c, iv0, m, b);
      SliceStep(all, s, done, c.bsize);
      LastRead(c, iv0, all, s, done);
      DecryptBlock(c, src, s + done, dst, d + done, iv, done == 0, Chain(c, iv0, m));
      PutPut(dst0, d, out, XorSeq(c.dec(b), Chain(c, iv0, m)));
      left := left - c.bsize;
      done := done + c.bsize;
    }
    LastRead(c, iv0, all, s, done);
    assert src[s + done - c.bsize..s + done] == all[s + done - c.bsize..s + done];
    Write(iv, 0, src[s + done - c.bsize..s + done]);
    PutAll(iv0, Chain(c, iv0, all[s..s + done]));
  }

  lemma LastRead(c: Cipher, iv: seq<Byte>, all: seq<Byte>, s: nat, done: nat)
    requires s + done <= |all| && c.bsize > 0 && (done == 0 || done >= c.bsize) && |iv| == c.bsize
    ensures var last := Chain(c, iv, all[s..s + done]);
            |last| == c.bsize && last == if done == 0 then iv else all[s + done - c.bsize..s + done]
  {
  }

  lemma DecryptHead(c: Cipher, iv: seq<Byte>, m: seq<Byte>)
    requires 0 < c.bsize <= |m|
    ensures Decrypted(c, iv, m) == XorSeq(c.dec(m[..c.bsize]), iv) + Decrypted(c, m[..c.bsize], m[c.bsize..])
  {
  }

  lemma PutBefore(s: seq<Byte>, i: nat, x: seq<Byte>, y: seq<Byte>)
    requires i + |x| + |y| <= |s|
    ensures Put(Put(s, i + |x|, y), i, x) == Put(s, i, x + y)
  {
  }

  /** The bytes of whole blocks, found with the mask. */
  lemma MaskedWhole(n: nat, bsize: nat)
    requires PowerOfTwo(bsize) && n >= bsize
    ensures And(n, bsize - 1) < bsize && And(n, bsize - 1) == n % bsize
    ensures WholeBlocks(n - n % bsize, bsize) && n - n % bsize >= bsize
  {
    MaskIsRemainder(n, bsize);
    WithoutRemainder(n, bsize);
  }

  lemma {:induction false} WithoutRemainder(n: nat, bsize: nat)
    requires bsize > 0
    ensures WholeBlocks(n - n % bsize, bsize) && (n >= bsize ==> n - n % bsize >= bsize)
  {
    if n >= bsize {
      WithoutRemainder(n - bsize, bsize);
      OneFewer(n, bsize);
    }
  }

  /** One turn of the backward loop: the block at p is decrypted and combined with what precedes it, which is
      still ciphertext. */
  method DecryptBack(c: Cipher, a: array<Byte>, p: nat, iv: array<Byte>, first: bool, ghost all: seq<Byte>,
                     ghost end: nat)
    requires Proper(c) && iv.Length == c.bsize && a != iv && |all| == a.Length && p + c.bsize <= end <= |all|
    requires first || p >= c.bsize
    requires var rest := Decrypted(c, all[p..p + c.bsize], all[p + c.bsize..end]);
             |rest| == end - p - c.bsize && a[..] == Put(all, p + c.bsize, rest)
    modifies a
    ensures var last := if first then iv[..] else all[p - c.bsize..p];
            var out := Decrypted(c, last, all[p..end]);
            |out| == end - p && a[..] == Put(all, p, out)
  {
    hide Proper, XorSeq, Put, Decrypted;
    SizePositive(c);
    ghost var b := all[p..p + c.bsize];
    ghost var rest := Decrypted(c, b, all[p + c.bsize..end]);
    ghost var last := if first then iv[..] else all[p - c.bsize..p];
    PutOutside(all, p + c.bsize, rest, p, p + c.bsize);
    assert a[p..p + c.bsize] == a[..][p..p + c.bsize] == b;
    EncLen(c, b);
    ghost var before := a[..];
    Write(a, p, c.dec(a[p..p + c.bsize]));
    PutInside(before, p, c.dec(b), p, p + c.bsize);
    assert a[..][p..p + c.bsize] == c.dec(b);
    if first {
      CryptoXor(a, p, iv, 0, c.bsize);
      assert iv[..][0..c.bsize] == iv[..];
    } else {
      PutOutside(before, p, c.dec(b), p - c.bsize, p);
      PutOutside(all, p + c.bsize, rest, p - c.bsize, p);
      CryptoXor(a, p, a, p - c.bsize, c.bsize);
    }
    PutOver(before, p, c.dec(b), XorSeq(c.dec(b), last));
    PutBefore(all, p, XorSeq(c.dec(b), last), rest);
    DecryptHead(c, last, all[p..end]);
    assert all[p..end][..c.bsize] == b && all[p..end][c.bsize..] == all[p + c.bsize..end];
  }

  /** crypto_cbc_decrypt_inplace: from the last whole block to the first. */
  method DecryptInPlace(c: Cipher, a: array<Byte>, s: nat, iv: array<Byte>, nbytes: nat) returns (left: nat)
    requires Proper(c) && iv.Length == c.bsize && nbytes >= c.bsize && s + nbytes <= a.Length && a != iv
    modifies a, iv
    ensures left < c.bsize && left <= nbytes && Whole(c, old(a[..])[s..s + nbytes - left])
    ensures var m := old(a[..])[s..s + nbytes - left]; var out := Decrypted(c, old(iv[..]), m);
            && |out| == nbytes - left && a[..] == Put(old(a[..]), s, out)
            && iv[..] == Chain(c, old(iv[..]), m)
  {
    hide Decrypted, Chain, XorSeq, Put, And;
    SizePositive(c);
    MaskedWhole(nbytes, c.bsize);
    hide Proper, PowerOfTwo;
    ghost var iv0, all := iv[..], a[..];
    var whole := nbytes - And(nbytes, c.bsize - 1);
    ghost var end := s + whole;
    var p := s + whole - c.bsize;
    var lastIv := a[p..p + c.bsize];
    left := nbytes;
    LastRead(c, iv0, all, s, whole);
    NothingYet(c, all[p..p + c.bsize], all, end);
    PutNothing(all, end);
    while left - c.bsize >= c.bsize
      invariant s <= p && p + c.bsize <= end && left - (nbytes - whole) == p - s + c.bsize
      invariant WholeBlocks(p - s, c.bsize) && iv[..] == iv0
      invariant var rest := Decrypted(c, all[p..p + c.bsize], all[p + c.bsize..end]);
                |rest| == end - p - c.bsize && a[..] == Put(all, p + c.bsize, rest)
    {
      DecryptBack(c, a, p, iv, false, all, end);
      left := left - c.bsize;
      p := p - c.bsize;
    }
    left := left - c.bsize;
    DecryptBack(c, a, p, iv, true, all, end);
    assert lastIv == all[end - c.bsize..end];
    Write(iv, 0, lastIv);
    PutAll(iv0, lastIv);
  }

  /** Chunk lengths a walk may hand out for the bytes from pos on: at least a block each; what is left of a
      chunk behind its last whole block comes again in the next one. */
  predicate Cuts(total: nat, bsize: nat, pos: nat, cuts: seq<nat>)
    decreases |cuts|
  {
    bsize > 0
    && if cuts == [] then pos == total
       else bsize <= cuts[0] && pos + cuts[0] <= total && Cuts(total, bsize, pos + cuts[0] - cuts[0] % bsize, cuts[1..])
  }

  lemma {:induction false} LeftIsRemainder(n: nat, left: nat, bsize: nat)
    requires left <= n && left < bsize && WholeBlocks(n - left, bsize)
    ensures left == n % bsize
  {
    if n - left >= bsize {
      LeftIsRemainder(n - bsize, left, bsize);
      OneFewer(n, bsize);
    } else {
      Unique(n, bsize, 0, n);
    }
  }

  lemma {:induction false} WholeJoin(c: Cipher, a: seq<Byte>, b: seq<Byte>)
    requires Whole(c, a) && Whole(c, b)
    ensures Whole(c, a + b)
    decreases |a|
  {
    if a == [] {
      assert a + b == b;
    } else {
      WholeJoin(c, a[c.bsize..], b);
      assert (a + b)[c.bsize..] == a[c.bsize..] + b;
    }
  }

  /** What the encryption of one more chunk does to buffer and chaining value. */
  lemma EncryptMore(c: Cipher, iv: seq<Byte>, all: seq<Byte>, dst: seq<Byte>, pos: nat, n: nat)
    requires Proper(c) && |iv| == c.bsize && pos + n <= |all| == |dst|
    requires Whole(c, all[..pos]) && Whole(c, all[pos..pos + n])
    ensures var out := Encrypted(c, iv, all[..pos]);
            var more := Encrypted(c, Chain(c, iv, out), all[pos..pos + n]);
            && Whole(c, all[..pos + n]) && Encrypted(c, iv, all[..pos + n]) == out + more
            && |out| == pos && |more| == n
            && Put(Put(dst, 0, out), pos, more) == Put(dst, 0, out + more)
            && Chain(c, Chain(c, iv, out), more) == Chain(c, iv, out + more) && |Chain(c, iv, out)| == c.bsize
  {
    hide Proper, Encrypted, Chain, Put, Whole;
    var a, b := all[..pos], all[pos..pos + n];
    assert a + b == all[..pos + n];
    EncryptChunks(c, iv, a, b);
    WholeJoin(c, a, b);
    Lengths(c, iv, a);
    var out := Encrypted(c, iv, a);
    ChainSize(c, iv, out);
    Lengths(c, Chain(c, iv, out), b);
    PutPut(dst, 0, out, Encrypted(c, Chain(c, iv, out), b));
    ChainJoin(c, iv, a, out, b, Encrypted(c, Chain(c, iv, out), b));
  }

  lemma DecryptMore(c: Cipher, iv: seq<Byte>, all: seq<Byte>, dst: seq<Byte>, pos: nat, n: nat)
    requires Proper(c) && |iv| == c.bsize && pos + n <= |all| == |dst|
    requires Whole(c, all[..pos]) && Whole(c, all[pos..pos + n])
    ensures var out := Decrypted(c, iv, all[..pos]);
            var last := Chain(c, iv, all[..pos]);
            var more := Decrypted(c, last, all[pos..pos + n]);
            && Whole(c, all[..pos + n]) && Decrypted(c, iv, all[..pos + n]) == out + more
            && |out| == pos && |more| == n
            && Put(Put(dst, 0, out), pos, more) == Put(dst, 0, out + more)
            && Chain(c, last, all[pos..pos + n]) == Chain(c, iv, all[..pos + n]) && |last| == c.bsize
  {
    hide Proper, Decrypted, Chain, Put, Whole;
    var a, b := all[..pos], all[pos..pos + n];
    assert a + b == all[..pos + n];
    DecryptChunks(c, iv, a, b);
    WholeJoin(c, a, b);
    Lengths(c, iv, a);
    ChainSize(c, iv, a);
    Lengths(c, Chain(c, iv, a), b);
    PutPut(dst, 0, Decrypted(c, iv, a), Decrypted(c, Chain(c, iv, a), b));
    ChainJoin(c, iv, a, a, b, b);
  }

  lemma ChainJoin(c: Cipher, iv: seq<Byte>, a: seq<Byte>, x: seq<Byte>, b: seq<Byte>, y: seq<Byte>)
    requires Whole(c, a) && |x| == |a| && Whole(c, b) && |y| == |b| && |iv| == c.bsize
    ensures Chain(c, Chain(c, iv, x), y) == Chain(c, iv, x + y)
  {
  }

  /** One chunk of the walk. */
  method EncryptChunk(c: Cipher, src: array<Byte>, dst: array<Byte>, iv: array<Byte>, pos: nat, n: nat,
                     ghost iv0: seq<Byte>, ghost all: seq<Byte>, ghost dst0: seq<Byte>) returns (left: nat)
    requires Proper(c) && iv.Length == c.bsize == |iv0| && src.Length == dst.Length == |all| == |dst0|
    requires src != iv && dst != iv && pos + n <= src.Length && n >= c.bsize
    requires if src == dst then dst0 == all else src[..] == all
    requires Whole(c, all[..pos])
    requires var out := Encrypted(c, iv0, all[..pos]);
             |out| == pos && dst[..] == Put(dst0, 0, out) && iv[..] == Chain(c, iv0, out)
    modifies dst, iv
    ensures left == n % c.bsize && left <= n && Whole(c, all[..pos + n - left])
    ensures var out := Encrypted(c, iv0, all[..pos + n - left]);
            |out| == pos + n - left && dst[..] == Put(dst0, 0, out) && iv[..] == Chain(c, iv0, out)
  {
    hide Proper, Encrypted, Chain, Put;
    ghost var out := Encrypted(c, iv0, all[..pos]);
    if src == dst {
      PutOutside(dst0, 0, out, pos, pos + n);
      left := EncryptInPlace(c, dst, pos, iv, n);
      SameSlice(Put(dst0, 0, out), all, pos, n, n - left);
    } else {
      left := EncryptSegment(c, src, pos, dst, pos, iv, n);
    }
    EncryptMore(c, iv0, all, dst0, pos, n - left);
    WholeSlice(c, all, pos, n, left);
  }

  /** crypto_cbc_encrypt: whatever the cut, in place or not, the result is the encryption of the message. */
  method Encrypt(c: Cipher, src: array<Byte>, dst: array<Byte>, iv: array<Byte>, cuts: seq<nat>)
    requires Proper(c) && iv.Length == c.bsize && src.Length == dst.Length && src != iv && dst != iv
    requires Cuts(src.Length, c.bsize, 0, cuts)
    modifies dst, iv
    ensures dst[..] == Encrypted(c, old(iv[..]), old(src[..]))
    ensures iv[..] == Chain(c, old(iv[..]), dst[..])
  {
    hide Proper, Encrypted, Chain, Put;
    ghost var iv0, all, dst0 := iv[..], src[..], dst[..];
    var rest: seq<nat>, pos: nat := cuts, 0;
    NothingYet(c, iv0, all, 0);
    assert all[..0] == [];
    PutNothing(dst0, 0);
    while rest != []
      invariant Cuts(src.Length, c.bsize, pos, rest) && pos <= src.Length && Whole(c, all[..pos])
      invariant src != dst ==> src[..] == all
      invariant var out := Encrypted(c, iv0, all[..pos]);
                |out| == pos && dst[..] == Put(dst0, 0, out) && iv[..] == Chain(c, iv0, out)
      decreases |rest|
    {
      var left := EncryptChunk(c, src, dst, iv, pos, rest[0], iv0, all, dst0);
      pos, rest := pos + rest[0] - left, rest[1..];
    }
    assert all[..pos] == all;
    PutAll(dst0, Encrypted(c, iv0, all));
  }

  /** One chunk of the walk. */
  method DecryptChunk(c: Cipher, src: array<Byte>, dst: array<Byte>, iv: array<Byte>, pos: nat, n: nat,
                     ghost iv0: seq<Byte>, ghost all: seq<Byte>, ghost dst0: seq<Byte>) returns (left: nat)
    requires Proper(c) && iv.Length == c.bsize == |iv0| && src.Length == dst.Length == |all| == |dst0|
    requires src != iv && dst != iv && pos + n <= src.Length && n >= c.bsize
    requires if src == dst then dst0 == all else src[..] == all
    requires Whole(c, all[..pos])
    requires var out := Decrypted(c, iv0, all[..pos]);
             |out| == pos && dst[..] == Put(dst0, 0, out) && iv[..] == Chain(c, iv0, all[..pos])
    modifies dst, iv
    ensures left == n % c.bsize && left <= n && Whole(c, all[..pos + n - left])
    ensures var out := Decrypted(c, iv0, all[..pos + n - left]);
            |out| == pos + n - left && dst[..] == Put(dst0, 0, out) && iv[..] == Chain(c, iv0, all[..pos + n - left])
  {
    hide Proper, Decrypted, Chain, Put;
    ghost var out := Decrypted(c, iv0, all[..pos]);
    if src == dst {
      PutOutside(dst0, 0, out, pos, pos + n);
      left := DecryptInPlace(c, dst, pos, iv, n);
      SameSlice(Put(dst0, 0, out), all, pos, n, n - left);
    } else {
      left := DecryptSegment(c, src, pos, dst, pos, iv, n);
    }
    DecryptMore(c, iv0, all, dst0, pos, n - left);
    WholeSlice(c, all, pos, n, left);
  }

  /** crypto_cbc_decrypt: whatever the cut, in place or not, the result is the decryption of the message. */
  method Decrypt(c: Cipher, src: array<Byte>, dst: array<Byte>, iv: array<Byte>, cuts: seq<nat>)
    requires Proper(c) && iv.Length == c.bsize && src.Length == dst.Length && src != iv && dst != iv
    requires Cuts(src.Length, c.bsize, 0, cuts)
    modifies dst, iv
    ensures dst[..] == Decrypted(c, old(iv[..]), old(src[..]))
    ensures iv[..] == Chain(c, old(iv[..]), old(src[..]))
  {
    hide Proper, Decrypted, Chain, Put;
    ghost var iv0, all, dst0 := iv[..], src[..], dst[..];
    var rest: seq<nat>, pos: nat := cuts, 0;
    NothingYet(c, iv0, all, 0);
    assert all[..0] == [];
    PutNothing(dst0, 0);
    while rest != []
      invariant Cuts(src.Length, c.bsize, pos, rest) && pos <= src.Length && Whole(c, all[..pos])
      invariant src != dst ==> src[..] == all
      invariant var out := Decrypted(c, iv0, all[..pos]);
                |out| == pos && dst[..] == Put(dst0, 0, out) && iv[..] == Chain(c, iv0, all[..pos])
      decreases |rest|
    {
      var left := DecryptChunk(c, src, dst, iv, pos, rest[0], iv0, all, dst0);
      pos, rest := pos + rest[0] - left, rest[1..];
    }
    assert all[..pos] == all;
    PutAll(dst0, Decrypted(c, iv0, all));
  }

  lemma SameSlice(s: seq<Byte>, t: seq<Byte>, pos: nat, n: nat, k: nat)
    requires pos + n <= |s| == |t| && k <= n && s[pos..pos + n] == t[pos..pos + n]
    ensures s[pos..pos + k] == t[pos..pos + k]
  {
    assert s[pos..pos + k] == s[pos..pos + n][..k];
    assert t[pos..pos + k] == t[pos..pos + n][..k];
  }

  lemma WholeSlice(c: Cipher, all: seq<Byte>, pos: nat, n: nat, left: nat)
    requires pos + n <= |all| && left <= n && left < c.bsize && Whole(c, all[pos..pos + n - left])
    ensures left == n % c.bsize
  {
    LeftIsRemainder(n, left, c.bsize);
  }
}
