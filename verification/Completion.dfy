/** Partial completion of a request: the specification.  Every completed byte carries the error of the
    call that completed it; what is left, and how each bio ended, is read off those errors alone. */
module Completion {

  const EIO := 5
  const SECTOR := 512

  datatype Vec = Vec(page: nat, offset: nat, len: nat)

  /** What is left of a bio: its unfinished vectors, and whether all that is done succeeded. */
  datatype Rest = Rest(id: nat, live: seq<Vec>, size: nat, sector: nat, uptodate: bool)

  datatype Ended = Ended(id: nat, err: int)

  datatype Result = Result(ended: seq<Ended>, rest: seq<Rest>)

  function VecBytes(v: Vec): seq<(nat, nat)> { seq(v.len, i requires 0 <= i < v.len => (v.page, v.offset + i)) }

  /** The memory bytes of some vectors, in order. */
  function Bytes(vs: seq<Vec>): seq<(nat, nat)> {
    if vs == [] then [] else VecBytes(vs[0]) + Bytes(vs[1..])
  }

  function Len(vs: seq<Vec>): nat {
    if vs == [] then 0 else vs[0].len + Len(vs[1..])
  }

  lemma {:induction false} LenBytes(vs: seq<Vec>)
    ensures |Bytes(vs)| == Len(vs)
  {
    if vs != [] {
      LenBytes(vs[1..]);
    }
  }

  function AllBytes(bs: seq<Rest>): seq<(nat, nat)> {
    if bs == [] then [] else Bytes(bs[0].live) + AllBytes(bs[1..])
  }

  predicate Sized(b: Rest) { b.size == Len(b.live) }

  predicate AllSized(bs: seq<Rest>) { forall i :: 0 <= i < |bs| ==> Sized(bs[i]) }

  /** The vectors without their first n bytes; a vector is skipped only while bytes remain to be taken. */
  function Cut(vs: seq<Vec>, n: nat): seq<Vec> {
    if n == 0 || vs == [] then vs
    else if vs[0].len <= n then Cut(vs[1..], n - vs[0].len)
    else [Vec(vs[0].page, vs[0].offset + n, vs[0].len - n)] + vs[1..]
  }

  lemma {:induction false} CutBytes(vs: seq<Vec>, n: nat)
    requires n <= Len(vs)
    ensures |Bytes(vs)| == Len(vs) && Bytes(Cut(vs, n)) == Bytes(vs)[n..] && Len(Cut(vs, n)) == Len(vs) - n
  {
    LenBytes(vs);
    if n > 0 && vs != [] {
      if vs[0].len <= n {
        CutBytes(vs[1..], n - vs[0].len);
        assert Bytes(vs)[n..] == Bytes(vs[1..])[n - vs[0].len..];
      } else {
        var v := Vec(vs[0].page, vs[0].offset + n, vs[0].len - n);
        var cut := [v] + vs[1..];
        assert cut[1..] == vs[1..];
        assert VecBytes(v) == VecBytes(vs[0])[n..];
        assert Bytes(vs)[n..] == VecBytes(vs[0])[n..] + Bytes(vs[1..]);
      }
    }
  }

  lemma CutStep(vs: seq<Vec>, n: nat)
    ensures n == 0 || vs == [] ==> Cut(vs, n) == vs
    ensures n > 0 && vs != [] ==>
              Cut(vs, n) == if vs[0].len <= n then Cut(vs[1..], n - vs[0].len)
                            else [Vec(vs[0].page, vs[0].offset + n, vs[0].len - n)] + vs[1..]
  {
  }

  lemma {:induction false} CutCut(vs: seq<Vec>, a: nat, b: nat)
    ensures Cut(Cut(vs, a), b) == Cut(vs, a + b)
  {
    hide Cut;
    CutStep(vs, a);
    CutStep(vs, a + b);
    CutStep(Cut(vs, a), b);
    if a > 0 && b > 0 && vs != [] {
      if vs[0].len <= a {
        CutCut(vs[1..], a - vs[0].len, b);
      } else {
        var cut := [Vec(vs[0].page, vs[0].offset + a, vs[0].len - a)] + vs[1..];
        assert cut[1..] == vs[1..];
      }
    }
  }

  predicate Clean(errs: seq<int>) { forall i :: 0 <= i < |errs| ==> errs[i] == 0 }

  /** The bio after its next bytes completed with these errors. */
  function Trim(b: Rest, errs: seq<int>): Rest
    requires |errs| <= b.size
  {
    Rest(b.id, Cut(b.live, |errs|), b.size - |errs|, b.sector + |errs| / SECTOR, b.uptodate && Clean(errs))
  }

  /** How a bio ends: with the error of the last call, or a general one for an earlier failure. */
  function Status(b: Rest, errs: seq<int>, last: int): int {
    if last != 0 then last else if b.uptodate && Clean(errs) then 0 else -EIO
  }

  function HeadEnd(b: Rest, errs: seq<int>): Ended
    requires errs != [] && b.size <= |errs|
  {
    var mine := errs[..b.size];
    Ended(b.id, Status(b, mine, if mine == [] then errs[0] else mine[|mine| - 1]))
  }

  /** The bios after the first |errs| bytes completed, byte i with error errs[i].  A bio without data ends
      together with the byte that follows it. */
  function After(bs: seq<Rest>, errs: seq<int>): Result
    decreases |bs|
  {
    if bs == [] || errs == [] then Result([], bs)
    else if bs[0].size <= |errs| then
      var later := After(bs[1..], errs[bs[0].size..]);
      Result([HeadEnd(bs[0], errs)] + later.ended, later.rest)
    else Result([], [Trim(bs[0], errs)] + bs[1..])
  }

  function Total(bs: seq<Rest>): nat {
    if bs == [] then 0 else bs[0].size + Total(bs[1..])
  }

  /** What is left is exactly the unfinished suffix of the bytes. */
  lemma {:induction false} SuffixLeft(bs: seq<Rest>, errs: seq<int>)
    requires AllSized(bs)
    ensures |AllBytes(bs)| == Total(bs) && AllSized(After(bs, errs).rest)
    ensures AllBytes(After(bs, errs).rest) == if |errs| <= Total(bs) then AllBytes(bs)[|errs|..] else []
    decreases |bs|
  {
    hide Cut, Bytes, Len, Status;
    if bs != [] {
      var b := bs[0];
      LenBytes(b.live);
      SuffixLeft(bs[1..], if b.size <= |errs| then errs[b.size..] else []);
      if errs == [] {
      } else if b.size <= |errs| {
        DropBoth(Bytes(b.live), AllBytes(bs[1..]), |errs|);
      } else {
        SuffixWithin(bs, errs);
      }
    }
  }

  lemma DropBoth(a: seq<(nat, nat)>, b: seq<(nat, nat)>, n: nat)
    ensures |a| <= n <= |a| + |b| ==> (a + b)[n..] == b[n - |a|..]
    ensures n <= |a| ==> (a + b)[n..] == a[n..] + b
  {
  }

  lemma AllBytesCons(b: Rest, bs: seq<Rest>)
    ensures AllBytes([b] + bs) == Bytes(b.live) + AllBytes(bs)
  {
  }

  lemma AfterWithin(bs: seq<Rest>, errs: seq<int>)
    requires bs != [] && 0 < |errs| < bs[0].size
    ensures After(bs, errs) == Result([], [Trim(bs[0], errs)] + bs[1..])
  {
  }

  lemma SuffixWithin(bs: seq<Rest>, errs: seq<int>)
    requires AllSized(bs) && bs != [] && 0 < |errs| < bs[0].size
    ensures AllSized(After(bs, errs).rest)
    ensures |errs| <= |AllBytes(bs)| && AllBytes(After(bs, errs).rest) == AllBytes(bs)[|errs|..]
  {
    hide Cut, Bytes, Len, Clean, After, AllBytes;
    var b := bs[0];
    CutBytes(b.live, |errs|);
    AfterWithin(bs, errs);
    AllBytesCons(Trim(b, errs), bs[1..]);
    AllBytesCons(b, bs[1..]);
    assert [b] + bs[1..] == bs;
    DropBoth(Bytes(b.live), AllBytes(bs[1..]), |errs|);
  }

  /** Completing n1 bytes and then n2 is completing n1 + n2, when the first cut is at a sector. */
  lemma {:induction false} Composes(bs: seq<Rest>, first: seq<int>, second: seq<int>)
    requires |first| % SECTOR == 0 && forall i :: 0 <= i < |bs| ==> bs[i].size % SECTOR == 0
    ensures var mid := After(bs, first);
            var end := After(mid.rest, second);
            After(bs, first + second) == Result(mid.ended + end.ended, end.rest)
    decreases |bs|
  {
    hide Cut, Status, Trim, After;
    var errs := first + second;
    if bs == [] || first == [] || second == [] {
      AfterNothing(bs, first);
      AfterNothing(bs, second);
      AfterNothing(After(bs, first).rest, second);
      assert first == [] ==> errs == second;
      assert second == [] ==> errs == first;
      AfterNothing([], errs);
    } else if bs[0].size <= |first| {
      var size := bs[0].size;
      WholeSectors(|first|, size);
      Composes(bs[1..], first[size..], second);
      assert first[size..] + second == errs[size..] && errs[..size] == first[..size];
      AfterHead(bs, first);
      AfterHead(bs, errs);
      var mid := After(bs[1..], first[size..]);
      var end := After(mid.rest, second);
      assert HeadEnd(bs[0], first) == HeadEnd(bs[0], errs);
      assert [HeadEnd(bs[0], first)] + (mid.ended + end.ended) == ([HeadEnd(bs[0], first)] + mid.ended) + end.ended;
    } else {
      ComposesWithin(bs, first, second);
    }
  }

  lemma WholeSectors(a: nat, b: nat)
    requires a % SECTOR == 0 && b % SECTOR == 0
    ensures (a + b) % SECTOR == 0 && (b <= a ==> (a - b) % SECTOR == 0)
  {
  }

  lemma AfterNothing(bs: seq<Rest>, errs: seq<int>)
    ensures bs == [] || errs == [] ==> After(bs, errs) == Result([], bs)
  {
  }

  lemma AfterHead(bs: seq<Rest>, errs: seq<int>)
    requires bs != [] && errs != [] && bs[0].size <= |errs|
    ensures var later := After(bs[1..], errs[bs[0].size..]);
            After(bs, errs) == Result([HeadEnd(bs[0], errs)] + later.ended, later.rest)
  {
  }

  lemma ComposesWithin(bs: seq<Rest>, first: seq<int>, second: seq<int>)
    requires bs != [] && 0 < |first| < bs[0].size && second != [] && |first| % SECTOR == 0
    ensures var mid := After(bs, first);
            var end := After(mid.rest, second);
            After(bs, first + second) == Result(mid.ended + end.ended, end.rest)
  {
    hide Cut;
    var b := bs[0];
    var errs := first + second;
    var cut := Trim(b, first);
    var rest := [cut] + bs[1..];
    assert rest[1..] == bs[1..];
    CutCut(b.live, |first|, |second|);
    if b.size <= |errs| {
      CleanParts(first, second[..cut.size]);
      assert errs[..b.size] == first + second[..cut.size];
      assert errs[b.size..] == second[cut.size..];
    } else {
      CleanParts(first, second);
      assert Trim(cut, second) == Trim(b, errs);
    }
  }

  lemma CleanParts(a: seq<int>, b: seq<int>)
    ensures Clean(a + b) <==> Clean(a) && Clean(b)
  {
    if Clean(a + b) {
      assert forall i :: 0 <= i < |a| ==> a[i] == (a + b)[i];
      assert forall i :: 0 <= i < |b| ==> b[i] == (a + b)[|a| + i];
    }
  }

  /** The bytes before bio k. */
  function Before(bs: seq<Rest>, k: nat): nat
    requires k <= |bs|
  {
    if k == 0 then 0 else bs[0].size + Before(bs[1..], k - 1)
  }

  /** How bio b, whose bytes met these errors, must end: with the error of its last byte if there is one, with -EIO if
      only an earlier byte failed, and otherwise with 0.  Without data the byte after it counts as its last. */
  predicate EndsRight(b: Rest, errs: seq<int>, last: int, e: Ended) {
    && e.id == b.id
    && (last != 0 ==> e.err == last)
    && (last == 0 && (!b.uptodate || exists i :: 0 <= i < |errs| && errs[i] != 0) ==> e.err == -5)
    && (last == 0 && b.uptodate && (forall i :: 0 <= i < |errs| ==> errs[i] == 0) ==> e.err == 0)
  }

  /** The error of the last of size bytes from `from` on, or of the byte there if there are none. */
  function LastError(errs: seq<int>, from: nat, size: nat): int
    requires from + size <= |errs| && from < |errs|
  {
    if size > 0 then errs[from + size - 1] else errs[from]
  }

  lemma HeadEndsRight(b: Rest, errs: seq<int>)
    requires errs != [] && b.size <= |errs|
    ensures EndsRight(b, errs[..b.size], LastError(errs, 0, b.size), HeadEnd(b, errs))
  {
  }

  /** Bios end once each and in order: the ended ones are the first ones, by what their own bytes met. */
  lemma {:induction false} EndedInOrder(bs: seq<Rest>, errs: seq<int>, k: nat)
    requires k < |After(bs, errs).ended|
    ensures |After(bs, errs).ended| + |After(bs, errs).rest| == |bs|
    ensures var from := Before(bs, k);
            && from + bs[k].size <= |errs| && from < |errs|
            && EndsRight(bs[k], errs[from..from + bs[k].size], LastError(errs, from, bs[k].size),
                         After(bs, errs).ended[k])
    decreases |bs|
  {
    hide EndsRight, HeadEnd, After, Before;
    AfterCount(bs, errs);
    SomeEnded(bs, errs);
    AfterHead(bs, errs);
    var size := bs[0].size;
    BeforeNext(bs, k);
    if k > 0 {
      EndedInOrder(bs[1..], errs[size..], k - 1);
      SliceOfRest(errs, size, Before(bs[1..], k - 1), bs[k].size);
    } else {
      HeadEndsRight(bs[0], errs);
      assert errs[0..size] == errs[..size];
    }
  }

  lemma SomeEnded(bs: seq<Rest>, errs: seq<int>)
    requires After(bs, errs).ended != []
    ensures bs != [] && errs != [] && bs[0].size <= |errs|
  {
  }

  lemma BeforeNext(bs: seq<Rest>, k: nat)
    requires bs != [] && k <= |bs|
    ensures Before(bs, k) == if k == 0 then 0 else bs[0].size + Before(bs[1..], k - 1)
  {
  }

  lemma SliceOfRest(errs: seq<int>, size: nat, from: nat, len: nat)
    requires size + from + len <= |errs|
    ensures errs[size..][from..from + len] == errs[size + from..size + from + len]
  {
  }

  lemma {:induction false} AfterCount(bs: seq<Rest>, errs: seq<int>)
    ensures |After(bs, errs).ended| + |After(bs, errs).rest| == |bs|
    decreases |bs|
  {
    if bs != [] && errs != [] && bs[0].size <= |errs| {
      AfterCount(bs[1..], errs[bs[0].size..]);
    }
  }

  /** A bio that has not ended still has bytes the completions did not reach, or waits behind the last one. */
  lemma {:induction false} NotEnded(bs: seq<Rest>, errs: seq<int>, k: nat)
    requires |After(bs, errs).ended| <= k < |bs|
    ensures |errs| < Before(bs, k) + bs[k].size || (bs[k].size == 0 && |errs| <= Before(bs, k))
  {
    if errs == [] {
    } else if bs[0].size <= |errs| {
      if k > 0 {
        NotEnded(bs[1..], errs[bs[0].size..], k - 1);
      }
    }
  }

  /** One call of the completion function. */
  datatype Call = Call(n: nat, err: int)

  function Fill(n: nat, err: int): (s: seq<int>) { seq(n, _ => err) }

  function Errors(calls: seq<Call>): seq<int> {
    if calls == [] then [] else Errors(calls[..|calls| - 1]) + Fill(calls[|calls| - 1].n, calls[|calls| - 1].err)
  }

  /** The state after one call.  A call for no bytes ends a bio without data and does nothing else. */
  function AfterCall(bs: seq<Rest>, n: nat, err: int): Result {
    if n == 0 && bs != [] && bs[0].size == 0 then Result([Ended(bs[0].id, Status(bs[0], [], err))], bs[1..])
    else After(bs, Fill(n, err))
  }

  function AfterCalls(bs: seq<Rest>, calls: seq<Call>): Result {
    if calls == [] then Result([], bs)
    else
      var last := calls[|calls| - 1];
      var r := AfterCalls(bs, calls[..|calls| - 1]);
      var more := AfterCall(r.rest, last.n, last.err);
      Result(r.ended + more.ended, more.rest)
  }

  /** Any series of calls for whole sectors is one pass over the errors of all their bytes. */
  lemma {:induction false} SeriesIsOnePass(bs: seq<Rest>, calls: seq<Call>)
    requires forall i :: 0 <= i < |calls| ==> calls[i].n > 0 && calls[i].n % SECTOR == 0
    requires forall i :: 0 <= i < |bs| ==> bs[i].size % SECTOR == 0
    ensures AfterCalls(bs, calls) == After(bs, Errors(calls)) && |Errors(calls)| % SECTOR == 0
  {
    hide After;
    AfterNothing(bs, []);
    if calls != [] {
      var init := calls[..|calls| - 1];
      var last := calls[|calls| - 1];
      SeriesIsOnePass(bs, init);
      WholeSectors(|Errors(init)|, last.n);
      Composes(bs, Errors(init), Fill(last.n, last.err));
    }
  }

  /** Consecutive bios on the device from sector `at` on, in whole sectors. */
  predicate Contiguous(bs: seq<Rest>, at: nat) {
    bs == [] || (bs[0].sector == at && bs[0].size % SECTOR == 0 && Contiguous(bs[1..], at + bs[0].size / SECTOR))
  }

  lemma SectorSum(a: nat, b: nat)
    requires a % SECTOR == 0
    ensures (a + b) / SECTOR == a / SECTOR + b / SECTOR
  {
  }

  /** The first bio left starts where the completed sectors end, and the rest has what is left of them. */
  lemma {:induction false} SectorsFollow(bs: seq<Rest>, errs: seq<int>, at: nat)
    requires Contiguous(bs, at) && |errs| % SECTOR == 0
    ensures var rest := After(bs, errs).rest;
            && Total(rest) == (if |errs| <= Total(bs) then Total(bs) - |errs| else 0)
            && (rest != [] ==> |errs| <= Total(bs) && Contiguous(rest, at + |errs| / SECTOR))
    decreases |bs|
  {
    hide Cut, HeadEnd;
    if bs == [] || errs == [] {
    } else if bs[0].size <= |errs| {
      var size := bs[0].size;
      WholeSectors(|errs|, size);
      SectorSum(size, |errs| - size);
      SectorsFollow(bs[1..], errs[size..], at + size / SECTOR);
    } else {
      SectorsWithin(bs, errs, at);
    }
  }

  lemma SectorsWithin(bs: seq<Rest>, errs: seq<int>, at: nat)
    requires Contiguous(bs, at) && |errs| % SECTOR == 0 && bs != [] && 0 < |errs| < bs[0].size
    ensures var rest := After(bs, errs).rest;
            rest != [] && Total(rest) == Total(bs) - |errs| && Contiguous(rest, at + |errs| / SECTOR)
  {
  }

  /** The same for one call, which may be for no bytes. */
  lemma CallSectors(bs: seq<Rest>, n: nat, err: int, at: nat)
    requires Contiguous(bs, at) && n % SECTOR == 0 && AfterCall(bs, n, err).rest != []
    ensures var rest := AfterCall(bs, n, err).rest;
            n <= Total(bs) && Total(rest) == Total(bs) - n && Contiguous(rest, at + n / SECTOR)
  {
    hide After;
    SectorsFollow(bs, Fill(n, err), at);
  }
}
