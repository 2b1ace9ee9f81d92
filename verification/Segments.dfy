/** Segment accounting (blk-merge.c): the count kept while bios and requests are merged bounds
    what the separate scatterlist mapper produces. */
module Segments {

  /** A bio_vec by the physical range it covers; `high` is above the queue's bounce limit. */
  datatype Bvec = Bvec(addr: nat, len: nat, high: bool)

  /** The limits of a queue.  `inBoundary` stands for BIOVEC_SEG_BOUNDARY and any extra
      restriction the architecture puts in BIOVEC_PHYS_MERGEABLE. */
  datatype Limits = Limits(cluster: bool, maxSize: nat, maxPhys: nat, maxHw: nat, maxSectors: nat,
                           inBoundary: (Bvec, Bvec) -> bool)

  /** BIOVEC_PHYS_MERGEABLE and BIOVEC_SEG_BOUNDARY. */
  predicate Contiguous(q: Limits, a: Bvec, b: Bvec) {
    a.addr + a.len == b.addr && q.inBoundary(a, b)
  }

  function Last<T>(s: seq<T>): T
    requires s != []
  {
    s[|s| - 1]
  }

  function Front<T>(s: seq<T>): seq<T>
    requires s != []
  {
    s[..|s| - 1]
  }

  function Size(g: seq<Bvec>): nat {
    if g == [] then 0 else Size(Front(g)) + Last(g).len
  }

  function Flatten(groups: seq<seq<Bvec>>): seq<Bvec> {
    if groups == [] then [] else Flatten(Front(groups)) + Last(groups)
  }

  /** A run of bio_vecs the hardware may take as one segment. */
  ghost predicate Segment(q: Limits, g: seq<Bvec>) {
    && g != []
    && (|g| > 1 ==> q.cluster && Size(g) <= q.maxSize)
    && forall i :: 0 <= i < |g| - 1 ==> Contiguous(q, g[i], g[i + 1])
  }

  /** `groups` cuts `bvs` into segments. */
  ghost predicate Segmentation(q: Limits, bvs: seq<Bvec>, groups: seq<seq<Bvec>>) {
    Flatten(groups) == bvs && forall i :: 0 <= i < |groups| ==> Segment(q, groups[i])
  }

  /** The test of both loops; `high` pages count only when the request is counted. */
  predicate Joins(q: Limits, counting: bool, g: seq<Bvec>, b: Bvec) {
    && g != [] && q.cluster && Size(g) + b.len <= q.maxSize && Contiguous(q, Last(g), b)
    && (counting ==> !b.high && !g[0].high)
  }

  function Extend(q: Limits, counting: bool, groups: seq<seq<Bvec>>, b: Bvec): seq<seq<Bvec>> {
    if groups != [] && Joins(q, counting, Last(groups), b)
    then Front(groups) + [Last(groups) + [b]] else groups + [[b]]
  }

  /** The groups the loops of __blk_recalc_rq_segments (counting) and blk_rq_map_sg form. */
  function Groups(q: Limits, counting: bool, bvs: seq<Bvec>): seq<seq<Bvec>> {
    if bvs == [] then [] else Extend(q, counting, Groups(q, counting, Front(bvs)), Last(bvs))
  }

  lemma FlattenAppend(groups: seq<seq<Bvec>>, g: seq<Bvec>)
    ensures Flatten(groups + [g]) == Flatten(groups) + g
  {
  }

  lemma {:induction false} FlattenConcat(a: seq<seq<Bvec>>, b: seq<seq<Bvec>>)
    ensures Flatten(a + b) == Flatten(a) + Flatten(b)
  {
    if b == [] {
      assert a + b == a;
    } else {
      FlattenConcat(a, Front(b));
      assert Front(a + b) == a + Front(b);
    }
  }

  lemma SizeAppend(g: seq<Bvec>, b: Bvec)
    ensures Size(g + [b]) == Size(g) + b.len
  {
  }

  lemma {:induction false} SizeConcat(a: seq<Bvec>, b: seq<Bvec>)
    ensures Size(a + b) == Size(a) + Size(b)
  {
    if b == [] {
      assert a + b == a;
    } else {
      SizeConcat(a, Front(b));
      assert Front(a + b) == a + Front(b);
    }
  }

  lemma ExtendKeeps(q: Limits, counting: bool, bvs: seq<Bvec>, groups: seq<seq<Bvec>>, b: Bvec)
    requires Segmentation(q, bvs, groups)
    ensures Segmentation(q, bvs + [b], Extend(q, counting, groups, b))
  {
  }

  /** Both loops cut their input into segments. */
  lemma {:induction false} GroupsSegment(q: Limits, counting: bool, bvs: seq<Bvec>)
    ensures Segmentation(q, bvs, Groups(q, counting, bvs))
    ensures bvs != [] ==> Groups(q, counting, bvs) != []
  {
    hide Extend, Segment;
    if bvs != [] {
      ExtendCounts(q, counting, Groups(q, counting, Front(bvs)), Last(bvs));
      GroupsSegment(q, counting, Front(bvs));
      ExtendKeeps(q, counting, Front(bvs), Groups(q, counting, Front(bvs)), Last(bvs));
      assert bvs == Front(bvs) + [Last(bvs)];
    }
  }

  /** Removing the last bio_vec of a segmentation. */
  lemma Shorten(q: Limits, bvs: seq<Bvec>, groups: seq<seq<Bvec>>)
    requires bvs != [] && Segmentation(q, bvs, groups)
    ensures groups != [] && Last(groups) != [] && Last(Last(groups)) == Last(bvs)
    ensures |Last(groups)| == 1 ==> Segmentation(q, Front(bvs), Front(groups))
    ensures |Last(groups)| > 1 ==> Segmentation(q, Front(bvs), Front(groups) + [Front(Last(groups))])
  {
  }

  lemma ExtendCounts(q: Limits, counting: bool, groups: seq<seq<Bvec>>, b: Bvec)
    ensures var f := Extend(q, counting, groups, b);
            if groups != [] && Joins(q, counting, Last(groups), b)
            then |f| == |groups| && |Last(f)| == |Last(groups)| + 1
            else |f| == |groups| + 1 && Last(f) == [b]
  {
  }

  lemma EmptyGroups(q: Limits, counting: bool)
    ensures Groups(q, counting, []) == []
  {
  }

  lemma SegmentationNonEmpty(q: Limits, bvs: seq<Bvec>, groups: seq<seq<Bvec>>)
    requires Segmentation(q, bvs, groups) && groups != []
    ensures |bvs| >= |Last(groups)|
  {
  }

  /** The greedy mapper stays ahead of every segmentation: it never uses more groups, and with as
      many its last group is no longer. */
  lemma {:induction false} StaysAhead(q: Limits, bvs: seq<Bvec>, groups: seq<seq<Bvec>>)
    requires Segmentation(q, bvs, groups)
    ensures var f := Groups(q, false, bvs);
            |f| <= |groups| && (|f| == |groups| && bvs != [] ==> |Last(f)| <= |Last(groups)|)
  {
    hide Segmentation, Joins, Extend;
    if bvs == [] {
      EmptyGroups(q, false);
    } else {
      Shorten(q, bvs, groups);
      var b := Last(bvs);
      var f' := Groups(q, false, Front(bvs));
      var g := Last(groups);
      ExtendCounts(q, false, f', b);
      if |g| == 1 {
        StaysAhead(q, Front(bvs), Front(groups));
      } else {
        var groups' := Front(groups) + [Front(g)];
        StaysAhead(q, Front(bvs), groups');
        if |f'| == |groups| {
          assert Front(bvs) != [] by { SegmentationNonEmpty(q, bvs, groups); }
          LastGroupJoins(q, bvs, groups, f');
        }
      }
    }
  }

  /** Two suffixes that end at the same point overlap. */
  lemma SuffixOverlap(bvs: seq<Bvec>, a: seq<Bvec>, g: seq<Bvec>, c: seq<Bvec>, h: seq<Bvec>)
    requires bvs != [] && bvs == a + g && Front(bvs) == c + h && 0 < |h| < |g|
    ensures g == g[..|g| - 1 - |h|] + h + [Last(bvs)] && g[|g| - 2] == Last(h)
  {
    assert g == bvs[|a|..] && h == bvs[|c|..|bvs| - 1];
  }

  lemma LastGroupJoins(q: Limits, bvs: seq<Bvec>, groups: seq<seq<Bvec>>, f: seq<seq<Bvec>>)
    requires bvs != [] && Segmentation(q, bvs, groups) && groups != [] && |Last(groups)| > 1
    requires f == Groups(q, false, Front(bvs)) && f != [] && |Last(f)| < |Last(groups)|
    ensures Joins(q, false, Last(f), Last(bvs))
  {
    hide Groups, Size;
    GroupsSegment(q, false, Front(bvs));
    var g := Last(groups);
    var h := Last(f);
    assert Segment(q, groups[|groups| - 1]) && Segment(q, f[|f| - 1]);
    SuffixOverlap(bvs, Flatten(Front(groups)), g, Flatten(Front(f)), h);
    var pre := g[..|g| - 1 - |h|];
    SizeConcat(pre, h);
    SizeAppend(pre + h, Last(bvs));
    assert Contiguous(q, g[|g| - 2], g[|g| - 1]);
  }

  /** The bytes a scatterlist entry or bio_vec covers. */
  function Bytes(addr: nat, len: nat): seq<nat> { seq(len, i requires 0 <= i => addr + i) }

  function BvecBytes(bvs: seq<Bvec>): seq<nat> {
    if bvs == [] then [] else BvecBytes(Front(bvs)) + Bytes(Last(bvs).addr, Last(bvs).len)
  }

  datatype Sg = Sg(addr: nat, length: nat)

  function SgBytes(sgs: seq<Sg>): seq<nat> {
    if sgs == [] then [] else SgBytes(Front(sgs)) + Bytes(Last(sgs).addr, Last(sgs).length)
  }

  lemma BytesAppend(addr: nat, n: nat, m: nat)
    ensures Bytes(addr, n) + Bytes(addr + n, m) == Bytes(addr, n + m)
  {
  }

  function Entry(g: seq<Bvec>): Sg { Sg(if g == [] then 0 else g[0].addr, Size(g)) }

  function Entries(groups: seq<seq<Bvec>>): (sgs: seq<Sg>)
    ensures |sgs| == |groups|
    ensures forall i :: 0 <= i < |groups| ==> sgs[i] == Entry(groups[i])
  {
    if groups == [] then [] else Entries(Front(groups)) + [Entry(Last(groups))]
  }

  lemma GroupsStep(q: Limits, counting: bool, bvs: seq<Bvec>, i: nat)
    requires i < |bvs|
    ensures Groups(q, counting, bvs[..i + 1]) == Extend(q, counting, Groups(q, counting, bvs[..i]), bvs[i])
  {
    assert Front(bvs[..i + 1]) == bvs[..i];
  }

  lemma MapStep(q: Limits, groups: seq<seq<Bvec>>, b: Bvec)
    requires groups != [] ==> Last(groups) != []
    ensures var f := Extend(q, false, groups, b);
            && LastOf(f, b)
            && Entries(f) == if groups != [] && Joins(q, false, Last(groups), b)
                             then Front(Entries(groups)) + [Sg(Last(groups)[0].addr, Size(Last(groups)) + b.len)]
                             else Entries(groups) + [Sg(b.addr, b.len)]
  {
    var f := Extend(q, false, groups, b);
    if groups != [] && Joins(q, false, Last(groups), b) {
      SizeAppend(Last(groups), b);
      assert Front(f) == Front(groups);
    } else {
      assert [] + [b] == [b];
      SizeAppend([], b);
      assert Front(f) == groups;
    }
  }

  /** blk_rq_map_sg over the data bios of a request. */
  method MapSg(q: Limits, bvs: seq<Bvec>) returns (sgs: seq<Sg>)
    ensures sgs == Entries(Groups(q, false, bvs))
  {
    hide Groups, Extend;
    sgs := [];
    EmptyGroups(q, false);
    var i := 0;
    while i < |bvs|
      invariant 0 <= i <= |bvs|
      invariant sgs == Entries(Groups(q, false, bvs[..i]))
      invariant if i > 0 then LastOf(Groups(q, false, bvs[..i]), bvs[i - 1]) else sgs == []
    {
      ghost var groups := Groups(q, false, bvs[..i]);
      GroupsStep(q, false, bvs, i);
      MapStep(q, groups, bvs[i]);
      var bvec := bvs[i];
      if i > 0 && q.cluster && Last(sgs).length + bvec.len <= q.maxSize && Contiguous(q, bvs[i - 1], bvec) {
        var sg := Last(sgs);
        sgs := Front(sgs) + [sg.(length := sg.length + bvec.len)];
      } else {
        sgs := sgs + [Sg(bvec.addr, bvec.len)];
      }
      i := i + 1;
    }
    assert bvs[..i] == bvs;
  }

  ghost predicate LastOf(groups: seq<seq<Bvec>>, b: Bvec) {
    groups != [] && Last(groups) != [] && Last(Last(groups)) == b
  }

  lemma {:induction false} BvecBytesConcat(a: seq<Bvec>, b: seq<Bvec>)
    ensures BvecBytes(a + b) == BvecBytes(a) + BvecBytes(b)
  {
    if b == [] {
      assert a + b == a;
    } else {
      BvecBytesConcat(a, Front(b));
      assert Front(a + b) == a + Front(b);
    }
  }

  /** A segment is one run of bytes. */
  lemma {:induction false} SegmentBytes(q: Limits, g: seq<Bvec>)
    requires g != [] && forall i :: 0 <= i < |g| - 1 ==> Contiguous(q, g[i], g[i + 1])
    ensures BvecBytes(g) == Bytes(g[0].addr, Size(g))
    ensures g[0].addr + Size(g) == Last(g).addr + Last(g).len
  {
    if |g| > 1 {
      var h := Front(g);
      forall i | 0 <= i < |h| - 1 ensures Contiguous(q, h[i], h[i + 1]) {
        assert Contiguous(q, g[i], g[i + 1]);
      }
      SegmentBytes(q, h);
      assert Contiguous(q, g[|g| - 2], g[|g| - 1]);
      BytesAppend(g[0].addr, Size(h), Last(g).len);
    } else {
      assert Front(g) == [];
    }
  }

  lemma {:induction false} EntriesCover(q: Limits, groups: seq<seq<Bvec>>)
    requires forall i :: 0 <= i < |groups| ==> Segment(q, groups[i])
    ensures SgBytes(Entries(groups)) == BvecBytes(Flatten(groups))
  {
    if groups != [] {
      EntriesCover(q, Front(groups));
      assert Segment(q, groups[|groups| - 1]);
      SegmentBytes(q, Last(groups));
      BvecBytesConcat(Flatten(Front(groups)), Last(groups));
      assert Front(Entries(groups)) == Entries(Front(groups));
    }
  }

  /** The scatterlist, laid end to end, covers exactly the bytes of the bio_vecs in order, and has
      no more entries than any segmentation has segments. */
  lemma MapCovers(q: Limits, bvs: seq<Bvec>, groups: seq<seq<Bvec>>)
    requires Segmentation(q, bvs, groups)
    ensures SgBytes(Entries(Groups(q, false, bvs))) == BvecBytes(bvs)
    ensures |Entries(Groups(q, false, bvs))| <= |groups|
  {
    GroupsSegment(q, false, bvs);
    EntriesCover(q, Groups(q, false, bvs));
    StaysAhead(q, bvs, groups);
  }
}
