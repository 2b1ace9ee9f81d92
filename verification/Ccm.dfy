/** CCM authentication: CBC-MAC over the blocks of section 2.2 of RFC 3610. */
module Ccm {
  import opened Cbc

  const BLOCK := 16

  function Zeros(n: nat): (s: seq<Byte>)
    ensures |s| == n
  {
    seq(n, _ => 0)
  }

  /** The MAC state after every whole block of t has been added. */
  function Absorb(c: Cipher, x: seq<Byte>, t: seq<Byte>): seq<Byte>
    decreases |t|
  {
    if |t| < BLOCK then x else Absorb(c, c.enc(XorSeq(x, t[..BLOCK])), t[BLOCK..])
  }

  /** What is left behind the whole blocks. */
  function Rest(t: seq<Byte>): (r: seq<Byte>)
    ensures |r| < BLOCK
    decreases |t|
  {
    if |t| < BLOCK then t else Rest(t[BLOCK..])
  }

  /** Zero padding up to the next block boundary. */
  function Pad(t: seq<Byte>): seq<Byte> {
    if Rest(t) == [] then t else t + Zeros(BLOCK - |Rest(t)|)
  }

  ghost predicate Proper16(c: Cipher) {
    c.bsize == BLOCK && forall b: seq<Byte> :: |b| == BLOCK ==> |c.enc(b)| == BLOCK
  }

  lemma {:induction false} AbsorbMore(c: Cipher, x: seq<Byte>, a: seq<Byte>, b: seq<Byte>)
    ensures Absorb(c, x, a + b) == Absorb(c, Absorb(c, x, a), Rest(a) + b)
    ensures Rest(a + b) == Rest(Rest(a) + b)
    decreases |a|
  {
    hide XorSeq;
    if |a| >= BLOCK {
      assert (a + b)[..BLOCK] == a[..BLOCK] && (a + b)[BLOCK..] == a[BLOCK..] + b;
      AbsorbMore(c, c.enc(XorSeq(x, a[..BLOCK])), a[BLOCK..], b);
    }
  }

  lemma {:induction false} RestOfWhole(t: seq<Byte>)
    ensures Rest(Pad(t)) == []
    decreases |t|
  {
    if |t| >= BLOCK {
      RestOfWhole(t[BLOCK..]);
      assert Pad(t)[BLOCK..] == Pad(t[BLOCK..]);
    } else if t != [] {
      assert Pad(t)[BLOCK..] == [];
    }
  }

  /** Padding at the end is one more block for what was left over. */
  lemma {:induction false} AbsorbPad(c: Cipher, x: seq<Byte>, t: seq<Byte>)
    ensures Absorb(c, x, Pad(t))
            == if Rest(t) == [] then Absorb(c, x, t)
               else c.enc(XorSeq(Absorb(c, x, t), Rest(t) + Zeros(BLOCK - |Rest(t)|)))
    decreases |t|
  {
    hide XorSeq;
    if |t| >= BLOCK {
      assert Pad(t)[..BLOCK] == t[..BLOCK] && Pad(t)[BLOCK..] == Pad(t[BLOCK..]);
      AbsorbPad(c, c.enc(XorSeq(x, t[..BLOCK])), t[BLOCK..]);
    } else if t != [] {
      assert Pad(t)[..BLOCK] == Pad(t) && Pad(t)[BLOCK..] == [];
    }
  }

  /** Two padded parts one after the other. */
  lemma AbsorbParts(c: Cipher, x: seq<Byte>, a: seq<Byte>, b: seq<Byte>)
    ensures Absorb(c, x, Pad(a) + Pad(b)) == Absorb(c, Absorb(c, x, Pad(a)), Pad(b))
  {
    AbsorbMore(c, x, Pad(a), Pad(b));
    RestOfWhole(a);
    assert [] + Pad(b) == Pad(b);
  }

  /** The MAC state is the last block of the CBC encryption of the blocks. */
  lemma {:induction false} AbsorbIsCbc(c: Cipher, x: seq<Byte>, t: seq<Byte>)
    requires Proper16(c) && |x| == BLOCK && Rest(t) == []
    ensures Absorb(c, x, t) == Chain(c, x, Encrypted(c, x, t))
    ensures t != [] ==> |Encrypted(c, x, t)| >= BLOCK
    decreases |t|
  {
    if |t| >= BLOCK {
      XorSwap(x, t[..BLOCK]);
      var block := c.enc(XorSeq(t[..BLOCK], x));
      AbsorbIsCbc(c, block, t[BLOCK..]);
      EmptyCbc(c, block, t[BLOCK..]);
      ChainPast(c, x, block, Encrypted(c, block, t[BLOCK..]));
    }
  }

  lemma EmptyCbc(c: Cipher, x: seq<Byte>, t: seq<Byte>)
    ensures t == [] && c.bsize > 0 ==> Encrypted(c, x, t) == []
  {
  }

  /** The byte k units above zero. */
  function Count(k: nat): Byte { if k == 0 then 0 else Count(k - 1) + 1 }

  /** The low byte of n. */
  function ByteOf(n: nat): Byte { Count(n % 256) }

  function NatOf(b: Byte): nat { b as nat }

  /** n in big-endian order, cut to the given number of bytes. */
  function BigEndian(n: nat, bytes: nat): (s: seq<Byte>)
    ensures |s| == bytes
  {
    if bytes == 0 then [] else BigEndian(n / 256, bytes - 1) + [ByteOf(n)]
  }

  /** The number a big-endian field stands for. */
  function ValueOf(s: seq<Byte>): nat {
    if s == [] then 0 else 256 * ValueOf(s[..|s| - 1]) + NatOf(s[|s| - 1])
  }

  function Pow256(k: nat): (p: nat)
    ensures p > 0
  {
    if k == 0 then 1 else 256 * Pow256(k - 1)
  }

  lemma NextByte(b: Byte)
    requires NatOf(b) < 255
    ensures NatOf(b + 1) == NatOf(b) + 1
  {
  }

  lemma {:induction false} CountValue(k: nat)
    requires k < 256
    ensures NatOf(Count(k)) == k
  {
    if k > 0 {
      CountValue(k - 1);
      NextByte(Count(k - 1));
    } else {
      assert NatOf(0) == 0;
    }
  }

  lemma ByteValue(n: nat)
    ensures NatOf(ByteOf(n)) == n % 256
  {
    hide Count, NatOf;
    CountValue(n % 256);
  }

  /** A field of k bytes stands for n exactly when n is below 256^k. */
  lemma {:induction false} FieldValue(n: nat, k: nat)
    ensures ValueOf(BigEndian(n, k)) == n <==> n < Pow256(k)
    ensures ValueOf(BigEndian(n, k)) < Pow256(k)
  {
    if k > 0 {
      FieldValue(n / 256, k - 1);
      ByteValue(n);
      hide ByteOf, NatOf;
      var s := BigEndian(n, k);
      assert s[..k - 1] == BigEndian(n / 256, k - 1) && s[k - 1] == ByteOf(n);
      Below(n, Pow256(k - 1));
      Below(ValueOf(s), Pow256(k - 1));
    }
  }

  lemma Below(n: nat, p: nat)
    ensures n < 256 * p <==> n / 256 < p
  {
  }

  lemma {:induction false} ZeroField(k: nat)
    ensures BigEndian(0, k) == Zeros(k)
  {
    if k > 0 {
      ZeroField(k - 1);
      assert ByteOf(0) == Count(0) == 0;
    }
  }

  /** More bytes than a number needs are leading zeros. */
  lemma {:induction false} Leading(n: nat, k: nat, more: nat)
    requires n < Pow256(k)
    ensures BigEndian(n, k + more) == Zeros(more) + BigEndian(n, k)
  {
    hide ByteOf;
    if k == 0 {
      ZeroField(more);
      assert Zeros(more) + [] == Zeros(more);
    } else {
      Below(n, Pow256(k - 1));
      Leading(n / 256, k - 1, more);
      assert Zeros(more) + BigEndian(n / 256, k - 1) + [ByteOf(n)]
          == Zeros(more) + (BigEndian(n / 256, k - 1) + [ByteOf(n)]);
    }
  }

  /** The last bytes of a longer field are the shorter field. */
  lemma {:induction false} Trailing(n: nat, k: nat, more: nat)
    ensures BigEndian(n, k + more)[more..] == BigEndian(n, k)
  {
    hide ByteOf;
    if k > 0 {
      Trailing(n / 256, k - 1, more);
      var s := BigEndian(n / 256, k + more - 1);
      assert (s + [ByteOf(n)])[more..] == s[more..] + [ByteOf(n)];
    }
  }

  /** The length field: set_msg_len writes at most the four bytes of an unsigned int, behind zeros. */
  function LengthField(msglen: nat, csize: nat): seq<Byte> {
    var k := if csize >= 4 then 4 else csize;
    Zeros(csize - k) + BigEndian(msglen, 4)[4 - k..]
  }

  /** set_msg_len's overflow test. */
  predicate LengthAccepted(msglen: nat, csize: nat) { csize >= 4 || msglen <= Pow256(csize) }

  const UINT := 0x1_0000_0000

  lemma FourBytes()
    ensures Pow256(4) == UINT && Pow256(2) == 65536
  {
  }

  lemma LengthFieldIs(msglen: nat, csize: nat)
    requires msglen < UINT
    ensures LengthField(msglen, csize) == BigEndian(msglen, csize)
  {
    hide BigEndian;
    if csize >= 4 {
      FourBytes();
      Leading(msglen, 4, csize - 4);
      assert BigEndian(msglen, 4)[0..] == BigEndian(msglen, 4);
    } else {
      Trailing(msglen, csize, 4 - csize);
      assert Zeros(0) + BigEndian(msglen, csize) == BigEndian(msglen, csize);
    }
  }

  /** An accepted length is encoded as RFC 3610 asks, except 256^L itself, which the test lets through for
      L below four and which is encoded as zero. */
  lemma AcceptedLengths(msglen: nat, csize: nat)
    requires msglen < UINT && LengthAccepted(msglen, csize)
    ensures ValueOf(LengthField(msglen, csize)) == msglen <==> csize >= 4 || msglen != Pow256(csize)
  {
    LengthFieldIs(msglen, csize);
    FieldValue(msglen, csize);
    if csize >= 4 {
      FourBytes();
      PowGrows(4, csize - 4);
    }
  }

  lemma {:induction false} PowGrows(k: nat, more: nat)
    ensures Pow256(k + more) >= Pow256(k)
  {
    if more > 0 {
      PowGrows(k, more - 1);
      assert Pow256(k + more) == 256 * Pow256(k + more - 1);
    }
  }

  /** The length that slips through: 65536 bytes with two length bytes. */
  lemma OverlongAccepted()
    ensures LengthAccepted(65536, 2) && ValueOf(LengthField(65536, 2)) != 65536
  {
  }

  /** format_adata: the length of the associated data in front of it (32-bit lengths). */
  function AdataField(a: nat): seq<Byte> {
    if a < 65280 then BigEndian(a, 2) else BigEndian(0xfffe, 2) + BigEndian(a, 4)
  }

  /** How section 2.2 of RFC 3610 reads the length: below 0xff00 the first two bytes are the length itself, and
      0xfffe announces four more. */
  function AdataLength(s: seq<Byte>): nat
    requires |s| >= 2 && (ValueOf(s[..2]) == 0xfffe ==> |s| >= 6)
  {
    if ValueOf(s[..2]) == 0xfffe then ValueOf(s[2..6]) else ValueOf(s[..2])
  }

  /** The prefix can be read back in front of any data, and a short one never looks like an escape. */
  lemma AdataReadBack(a: nat, data: seq<Byte>)
    requires a < UINT
    ensures var s := AdataField(a) + data;
            && |AdataField(a)| >= 2 && (ValueOf(s[..2]) == 0xfffe ==> |s| >= 6)
            && AdataLength(s) == a && (|AdataField(a)| == 2 <==> ValueOf(s[..2]) < 0xff00)
  {
    hide BigEndian, ValueOf, Pow256;
    FourBytes();
    var s := AdataField(a) + data;
    if a < 65280 {
      FieldValue(a, 2);
      assert s[..2] == BigEndian(a, 2);
    } else {
      FieldValue(0xfffe, 2);
      FieldValue(a, 4);
      assert s[..2] == BigEndian(0xfffe, 2) && s[2..6] == BigEndian(a, 4);
    }
  }

  /** The flags byte of B0 as RFC 3610 adds it up. */
  function Flags(adata: bool, m: nat, lp: nat): nat
    requires m >= 2
  {
    (if adata then 64 else 0) + 8 * ((m - 2) / 2) + lp
  }

  /** The same byte put together with the bit operations of format_input. */
  function FlagByte(adata: bool, m: nat, lp: Byte): Byte
    requires 2 <= m <= 16
  {
    var b := lp | (8 * (((m - 2) / 2) as Byte));
    if adata then b | 64 else b
  }

  lemma FlagByteIs(adata: bool, m: nat, lp: Byte)
    requires 2 <= m <= 16 && lp < 8
    ensures NatOf(FlagByte(adata, m, lp)) == Flags(adata, m, NatOf(lp))
  {
  }

  /** B0 of RFC 3610 from the 16-byte IV (L - 1, the nonce, room for the length). */
  function B0(iv: seq<Byte>, m: nat, adata: bool, msglen: nat): seq<Byte>
    requires |iv| == BLOCK && 2 <= m <= 16 && 1 <= iv[0] <= 7
  {
    var l := NatOf(iv[0]) + 1;
    [FlagByte(adata, m, iv[0])] + iv[1..BLOCK - l] + LengthField(msglen, l)
  }

  /** B0 byte by byte, as section 2.2 of RFC 3610 lays it out: the flags, the nonce, and the message length, most
      significant byte first. */
  lemma B0Exact(iv: seq<Byte>, m: nat, adata: bool, msglen: nat)
    requires |iv| == BLOCK && 2 <= m <= 16 && 1 <= iv[0] <= 7 && msglen < UINT
    ensures var l := NatOf(iv[0]) + 1; var b := B0(iv, m, adata, msglen);
            && |b| == 16 && 2 <= l <= 8
            && NatOf(b[0]) == (if adata then 64 else 0) + 8 * ((m - 2) / 2) + (l - 1)
            && (forall i :: 1 <= i < 16 - l ==> b[i] == iv[i])
            && (msglen < Pow256(l) ==> ValueOf(b[16 - l..]) == msglen)
  {
    hide BigEndian, ValueOf, Pow256, FlagByte;
    var l := NatOf(iv[0]) + 1;
    FlagByteIs(adata, m, iv[0]);
    LengthFieldIs(msglen, l);
    FieldValue(msglen, l);
    var b := B0(iv, m, adata, msglen);
    FieldLength(msglen, l);
    assert b[16 - l..] == LengthField(msglen, l);
  }

  lemma FieldLength(n: nat, k: nat)
    ensures |BigEndian(n, k)| == k
  {
  }

  /** The blocks behind B0: length-prefixed associated data and message, each padded. */
  function Blocks(adata: seq<Byte>, msg: seq<Byte>): seq<Byte> {
    (if adata == [] then [] else Pad(AdataField(|adata|) + adata)) + Pad(msg)
  }

  /** What stands behind B0: the length of the associated data and the data, if there is any, and the message, each
      followed by zeros up to a multiple of sixteen bytes. */
  lemma BlocksExact(adata: seq<Byte>, msg: seq<Byte>) returns (p: nat, q: nat)
    ensures var a := if adata == [] then [] else AdataField(|adata|) + adata;
            && p < 16 && q < 16 && (|a| + p) % 16 == 0 && (|msg| + q) % 16 == 0
            && Blocks(adata, msg) == a + Zeros(p) + msg + Zeros(q)
  {
    var a := if adata == [] then [] else AdataField(|adata|) + adata;
    p := PadExact(a);
    q := PadExact(msg);
    assert (a + Zeros(p)) + (msg + Zeros(q)) == a + Zeros(p) + msg + Zeros(q);
  }

  lemma PadExact(t: seq<Byte>) returns (n: nat)
    ensures n < 16 && (|t| + n) % 16 == 0 && Pad(t) == t + Zeros(n)
  {
    RestLength(t);
    n := if Rest(t) == [] then 0 else BLOCK - |Rest(t)|;
    assert Zeros(0) == [] && t + [] == t;
  }

  lemma {:induction false} RestLength(t: seq<Byte>)
    ensures |Rest(t)| == |t| % 16
    decreases |t|
  {
    if |t| >= BLOCK {
      RestLength(t[BLOCK..]);
    }
  }

  /** The MAC state: CBC-MAC over B0 and the blocks behind it. */
  function Mac(c: Cipher, b0: seq<Byte>, adata: seq<Byte>, msg: seq<Byte>): seq<Byte> {
    Absorb(c, c.enc(b0), Blocks(adata, msg))
  }

  lemma XorZeros(b: seq<Byte>)
    ensures XorSeq(Zeros(|b|), b) == b
  {
  }

  lemma RestOfBlocks(adata: seq<Byte>, msg: seq<Byte>)
    ensures Rest(Blocks(adata, msg)) == []
  {
    RestOfWhole(msg);
    if adata == [] {
      assert Blocks(adata, msg) == Pad(msg);
    } else {
      var a := AdataField(|adata|) + adata;
      RestOfWhole(a);
      AbsorbMore(Cipher(x => x, x => x, 0), [], Pad(a), Pad(msg));
      assert [] + Pad(msg) == Pad(msg);
    }
  }

  /** That state is the last block of the CBC encryption, with IV zero, of all the blocks. */
  lemma MacIsCbcMac(c: Cipher, b0: seq<Byte>, adata: seq<Byte>, msg: seq<Byte>)
    requires Proper16(c) && |b0| == BLOCK
    ensures var all := b0 + Blocks(adata, msg);
            Mac(c, b0, adata, msg) == Chain(c, Zeros(BLOCK), Encrypted(c, Zeros(BLOCK), all))
  {
    hide Blocks, Pad, Rest;
    var blocks := Blocks(adata, msg);
    var all := b0 + blocks;
    assert all[..BLOCK] == b0 && all[BLOCK..] == blocks;
    XorZeros(b0);
    RestOfBlocks(adata, msg);
    RestStep(all);
    AbsorbIsCbc(c, Zeros(BLOCK), all);
  }

  lemma RestStep(t: seq<Byte>)
    requires |t| >= BLOCK
    ensures Rest(t) == Rest(t[BLOCK..])
  {
  }
}
