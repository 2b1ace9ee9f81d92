/** crypto_ccm_auth as it runs: a block buffer filled and emptied while the data comes in pieces. */
module CcmAuth {
  import opened Cbc
  import opened CbcLoops
  import opened Ccm

  const EOVERFLOW := 75

  /** The per-request state: odata holds the MAC so far, idata[..ilen] what does not fill a block yet. */
  class Context {
    const odata: array<Byte>
    const idata: array<Byte>
    var ilen: nat

    ghost predicate Valid()
      reads this, odata, idata
    {
      odata.Length == BLOCK && idata.Length == BLOCK && odata != idata && ilen < BLOCK
    }

    /** crypto_xor of a block into odata, and crypto_cipher_encrypt_one. */
    method AddBlock(c: Cipher, block: array<Byte>, at: nat)
      requires Proper16(c) && odata.Length == BLOCK && at + BLOCK <= block.Length && block != odata
      modifies odata
      ensures odata[..] == c.enc(XorSeq(old(odata[..]), block[..][at..at + BLOCK]))
    {
      hide XorSeq, Put;
      ghost var x, y := odata[..], block[..][at..at + BLOCK];
      CryptoXor(odata, 0, block, at, BLOCK);
      assert x[0..BLOCK] == x;
      PutAll(x, XorSeq(x, y));
      ghost var sum := odata[..];
      Write(odata, 0, c.enc(odata[..]));
      PutAll(sum, c.enc(sum));
    }

    /** compute_mac, first part: fill up the block that is waiting. */
    method FillUp(c: Cipher, data: array<Byte>) returns (pos: nat)
      requires Valid() && Proper16(c) && data != odata && data != idata
      modifies this, odata, idata
      ensures Valid() && pos <= data.Length && (ilen > 0 ==> data.Length - pos < BLOCK - ilen)
      ensures var t := old(idata[..ilen]) + data[..]; var t' := idata[..ilen] + data[..][pos..];
              Absorb(c, old(odata[..]), t) == Absorb(c, odata[..], t') && Rest(t) == Rest(t')
    {
      hide XorSeq, Put, Absorb, Rest, Proper16;
      ghost var x, p, all := odata[..], idata[..ilen], data[..];
      pos := 0;
      var getlen := BLOCK - ilen;
      if data.Length >= getlen {
        PutPrefix(idata[..], ilen, data[..getlen]);
        assert idata[..][..ilen] == p;
        Write(idata, ilen, data[..getlen]);
        assert p + all[..getlen] == (p + all)[..BLOCK] && idata[..][0..BLOCK] == idata[..] == idata[..][..BLOCK];
        AddBlock(c, idata, 0);
        pos, ilen := getlen, 0;
        AbsorbOne(c, x, p + all);
        assert (p + all)[BLOCK..] == all[pos..] == idata[..ilen] + all[pos..];
      } else {
        assert all[pos..] == all;
      }
    }

    /** compute_mac, second part: whole blocks straight from the data. */
    method WholeBlocks(c: Cipher, data: array<Byte>, from: nat) returns (pos: nat)
      requires Valid() && Proper16(c) && data != odata && data != idata
      requires from <= data.Length && (ilen > 0 ==> data.Length - from < BLOCK - ilen)
      modifies odata
      ensures from <= pos <= data.Length && data.Length - pos < BLOCK - ilen
      ensures var t := idata[..ilen] + data[..][from..]; var t' := idata[..ilen] + data[..][pos..];
              Absorb(c, old(odata[..]), t) == Absorb(c, odata[..], t') && Rest(t) == Rest(t')
    {
      hide XorSeq, Absorb, Rest, Proper16;
      ghost var x, q, all := odata[..], idata[..ilen], data[..];
      pos := from;
      while data.Length - pos >= BLOCK
        invariant from <= pos <= data.Length && idata[..ilen] == q && (ilen > 0 ==> data.Length - pos < BLOCK - ilen)
        invariant Absorb(c, x, q + all[from..]) == Absorb(c, odata[..], q + all[pos..])
        invariant Rest(q + all[from..]) == Rest(q + all[pos..])
      {
        AbsorbOne(c, odata[..], all[pos..]);
        assert q + all[pos..] == all[pos..] && all[pos..][BLOCK..] == all[pos + BLOCK..];
        assert all[pos..][..BLOCK] == all[pos..pos + BLOCK] && q + all[pos + BLOCK..] == all[pos + BLOCK..];
        AddBlock(c, data, pos);
        pos := pos + BLOCK;
      }
    }

    /** compute_mac: the data may end anywhere in a block. */
    method ComputeMac(c: Cipher, data: array<Byte>)
      requires Valid() && Proper16(c) && data != odata && data != idata
      modifies this, odata, idata
      ensures Valid()
      ensures var t := old(idata[..ilen]) + data[..];
              odata[..] == Absorb(c, old(odata[..]), t) && idata[..ilen] == Rest(t)
    {
      hide XorSeq, Put, Absorb, Rest, Proper16;
      var pos := FillUp(c, data);
      pos := WholeBlocks(c, data, pos);
      ghost var t := idata[..ilen] + data[..][pos..];
      AbsorbNone(c, odata[..], t);
      if data.Length > pos {
        PutPrefix(idata[..], ilen, data[pos..]);
        assert data[pos..] == data[..][pos..] && idata[..][..ilen] == idata[..ilen];
        Write(idata, ilen, data[pos..]);
        ilen := ilen + (data.Length - pos);
        assert idata[..ilen] == idata[..][..ilen] == t;
      } else {
        assert t == idata[..ilen];
      }
    }

    /** get_data_to_compute, last part: what is left over is padded with zeros and added. */
    method PadLast(c: Cipher)
      requires Valid() && Proper16(c)
      modifies this, odata, idata
      ensures Valid() && ilen == 0
      ensures odata[..] == if old(ilen) == 0 then old(odata[..])
                           else c.enc(XorSeq(old(odata[..]), old(idata[..ilen]) + Zeros(BLOCK - old(ilen))))
    {
      hide XorSeq, Put, Proper16;
      if ilen > 0 {
        PutPrefix(idata[..], ilen, Zeros(BLOCK - ilen));
        assert idata[..][..ilen] == idata[..ilen];
        Write(idata, ilen, Zeros(BLOCK - ilen));
        assert idata[..][0..BLOCK] == idata[..][..BLOCK];
        AddBlock(c, idata, 0);
        ilen := 0;
      }
    }

    /** get_data_to_compute: however the scatterlist cuts the data, it is added as one padded string. */
    method GetData(c: Cipher, chunks: seq<array<Byte>>)
      requires Valid() && Proper16(c)
      requires forall i :: 0 <= i < |chunks| ==> chunks[i] != odata && chunks[i] != idata
      modifies this, odata, idata
      ensures Valid() && ilen == 0
      ensures odata[..] == Absorb(c, old(odata[..]), Pad(old(idata[..ilen]) + Data(chunks)))
    {
      hide XorSeq, Absorb, Rest, Proper16, Pad;
      ghost var x, p := odata[..], idata[..ilen];
      AbsorbNone(c, x, p);
      assert p + Data([]) == p;
      var i := 0;
      while i < |chunks|
        invariant i <= |chunks| && Valid() && Data(chunks[..i]) == old(Data(chunks[..i]))
        invariant odata[..] == Absorb(c, x, p + Data(chunks[..i])) && idata[..ilen] == Rest(p + Data(chunks[..i]))
      {
        assert chunks[..i + 1][..i] == chunks[..i];
        AbsorbMore(c, x, p + Data(chunks[..i]), chunks[i][..]);
        assert p + Data(chunks[..i]) + chunks[i][..] == p + Data(chunks[..i + 1]);
        ComputeMac(c, chunks[i]);
        i := i + 1;
      }
      assert chunks[..i] == chunks;
      AbsorbPad(c, x, p + Data(chunks));
      PadLast(c);
    }

    /** set_msg_len on the last csize bytes of odata. */
    method SetMsgLen(msglen: nat, csize: nat) returns (err: int)
      requires odata.Length == BLOCK && csize <= BLOCK && msglen < UINT
      modifies odata
      ensures err == if LengthAccepted(msglen, csize) then 0 else -EOVERFLOW
      ensures err == 0 ==> odata[..] == old(odata[..])[..BLOCK - csize] + LengthField(msglen, csize)
    {
      hide Put, BigEndian, Pow256;
      ghost var was := odata[..];
      PutEnd(was, Zeros(csize));
      Write(odata, BLOCK - csize, Zeros(csize));
      var k := csize;
      if csize >= 4 {
        k := 4;
      } else if msglen > Pow256(csize) {
        return -EOVERFLOW;
      }
      ghost var zeroed := odata[..];
      var data := BigEndian(msglen, 4)[4 - k..];
      PutEnd(zeroed, data);
      Write(odata, BLOCK - k, data);
      ZeroPrefix(was[..BLOCK - csize], csize, k);
      assert LengthField(msglen, csize) == Zeros(csize - k) + data;
      assert was[..BLOCK - csize] + Zeros(csize - k) + data == was[..BLOCK - csize] + (Zeros(csize - k) + data);
      return 0;
    }

    /** format_input. */
    method FormatInput(iv: seq<Byte>, m: nat, adata: bool, msglen: nat) returns (err: int)
      requires odata.Length == BLOCK && |iv| == BLOCK && 2 <= m <= 16 && 1 <= iv[0] <= 7 && msglen < UINT
      modifies odata
      ensures err == if LengthAccepted(msglen, NatOf(iv[0]) + 1) then 0 else -EOVERFLOW
      ensures err == 0 ==> odata[..] == B0(iv, m, adata, msglen)
    {
      hide Put, BigEndian, LengthField;
      SmallByte(iv[0]);
      var l := NatOf(iv[0]) + 1;
      Write(odata, 0, iv);
      PutAll(old(odata[..]), iv);
      odata[0] := odata[0] | (8 * (((m - 2) / 2) as Byte));
      if adata {
        odata[0] := odata[0] | 64;
      }
      ghost var head := odata[..];
      FlagHead(iv, head, FlagByte(adata, m, iv[0]), l);
      err := SetMsgLen(msglen, l);
    }

    /** format_adata. */
    method FormatAdata(a: nat)
      requires Valid() && a < UINT
      modifies this, idata
      ensures Valid() && idata[..ilen] == AdataField(a)
    {
      hide Put, BigEndian;
      var field := if a < 65280 then BigEndian(a, 2) else BigEndian(0xfffe, 2) + BigEndian(a, 4);
      PutPrefix(idata[..], 0, field);
      Write(idata, 0, field);
      ilen := |field|;
      assert idata[..ilen] == idata[..][..0 + |field|] == field;
    }

    /** crypto_ccm_auth: the MAC state of RFC 3610, however both inputs are cut. */
    method Auth(c: Cipher, iv: seq<Byte>, m: nat, assoc: seq<array<Byte>>, plain: seq<array<Byte>>) returns (err: int)
      requires Valid() && Proper16(c) && |iv| == BLOCK && 2 <= m <= 16 && 1 <= iv[0] <= 7
      requires |Data(assoc)| < UINT && |Data(plain)| < UINT
      requires forall i :: 0 <= i < |assoc| ==> assoc[i] != odata && assoc[i] != idata
      requires forall i :: 0 <= i < |plain| ==> plain[i] != odata && plain[i] != idata
      modifies this, odata, idata
      ensures Valid()
      ensures err == if LengthAccepted(|Data(plain)|, NatOf(iv[0]) + 1) then 0 else -EOVERFLOW
      ensures err == 0 ==>
                var b0 := B0(iv, m, Data(assoc) != [], |Data(plain)|);
                |b0| == BLOCK && odata[..] == Mac(c, b0, Data(assoc), Data(plain))
    {
      hide Put, BigEndian, B0, Absorb, Pad, Rest, LengthAccepted, AdataField;
      ghost var a, msg := Data(assoc), Data(plain);
      err := FormatInput(iv, m, |Data(assoc)| != 0, |Data(plain)|);
      if err != 0 {
        return;
      }
      ghost var b0 := odata[..];
      Write(odata, 0, c.enc(odata[..]));
      PutAll(b0, c.enc(b0));
      if |Data(assoc)| != 0 {
        FormatAdata(|Data(assoc)|);
        GetData(c, assoc);
        AbsorbParts(c, c.enc(b0), AdataField(|a|) + a, msg);
      } else {
        ilen := 0;
        assert [] + Pad(msg) == Pad(msg);
      }
      assert idata[..ilen] == [] && [] + msg == msg;
      GetData(c, plain);
    }
  }

  lemma ZeroPrefix(head: seq<Byte>, csize: nat, k: nat)
    requires k <= csize
    ensures (head + Zeros(csize))[..|head| + csize - k] == head + Zeros(csize - k)
  {
  }

  lemma FlagHead(iv: seq<Byte>, head: seq<Byte>, flags: Byte, l: nat)
    requires |head| == |iv| == BLOCK && l < BLOCK && head[0] == flags
    requires forall i :: 1 <= i < BLOCK ==> head[i] == iv[i]
    ensures head[..BLOCK - l] == [flags] + iv[1..BLOCK - l]
  {
  }

  lemma SmallByte(b: Byte)
    requires 1 <= b <= 7
    ensures 1 <= NatOf(b) <= 7
  {
  }

  lemma PutEnd(s: seq<Byte>, x: seq<Byte>)
    requires |x| <= |s|
    ensures Put(s, |s| - |x|, x) == s[..|s| - |x|] + x
  {
  }

  /** The bytes of the pieces in order. */
  function Data(chunks: seq<array<Byte>>): seq<Byte>
    reads chunks
  {
    if chunks == [] then [] else Data(chunks[..|chunks| - 1]) + chunks[|chunks| - 1][..]
  }

  lemma PutPrefix(s: seq<Byte>, i: nat, x: seq<Byte>)
    requires i + |x| <= |s|
    ensures Put(s, i, x)[..i + |x|] == s[..i] + x
  {
  }

  lemma AbsorbOne(c: Cipher, x: seq<Byte>, t: seq<Byte>)
    requires |t| >= BLOCK
    ensures Absorb(c, x, t) == Absorb(c, c.enc(XorSeq(x, t[..BLOCK])), t[BLOCK..]) && Rest(t) == Rest(t[BLOCK..])
  {
  }

  lemma AbsorbNone(c: Cipher, x: seq<Byte>, t: seq<Byte>)
    requires |t| < BLOCK
    ensures Absorb(c, x, t) == x && Rest(t) == t
  {
  }
}
