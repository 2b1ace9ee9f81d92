/** The segment counters kept across bio and request merges (blk-merge.c). */
module SegmentMerge {
  import opened Segments

  /** A data bio: its remaining bio_vecs and the cached counters. */
  datatype Bio = Bio(bvecs: seq<Bvec>, sectors: nat, segs: nat, front: nat, back: nat, valid: bool)

  /** A request under construction: its bio chain and counters. */
  datatype Rq = Rq(bios: seq<Bio>, nr: nat, sectors: nat, nomerge: bool, special: bool)

  function Data(bios: seq<Bio>): seq<Bvec> {
    if bios == [] then [] else Data(Front(bios)) + Last(bios).bvecs
  }

  function Max(a: nat, b: nat): nat { if a < b then b else a }

  /** The first bio's front size and the last bio's back size, raised to the first and last group. */
  function Resized(bios: seq<Bio>, groups: seq<seq<Bvec>>): seq<Bio>
    requires bios != []
  {
    if groups == [] then bios
    else
      var b := bios[0 := bios[0].(front := Max(bios[0].front, Size(groups[0])))];
      b[|b| - 1 := b[|b| - 1].(back := Max(b[|b| - 1].back, Size(Last(groups))))]
  }

  /** The loop variables of __blk_recalc_rq_segments. */
  datatype Count = Count(nr: nat, segSize: nat, frontSize: nat, highprv: bool, prev: Bvec)

  /** The inner loop of __blk_recalc_rq_segments, over one bio. */
  method CountBvecs(q: Limits, ghost base: seq<Bvec>, bvecs: seq<Bvec>, ghost front0: nat, c0: Count) returns (c: Count)
    requires Tracks(Groups(q, true, base), front0, c0)
    ensures Tracks(Groups(q, true, base + bvecs), front0, c)
  {
    hide Groups, Extend, Joins, Tracks;
    c := c0;
    ghost var all := base + bvecs;
    assert all[..|base|] == base;
    var j := 0;
    while j < |bvecs|
      invariant 0 <= j <= |bvecs|
      invariant Tracks(Groups(q, true, all[..|base| + j]), front0, c)
    {
      var bv := bvecs[j];
      GroupsStep(q, true, all, |base| + j);
      TracksStep(q, Groups(q, true, all[..|base| + j]), bv, front0, c);
      if !bv.high && !c.highprv && q.cluster && c.segSize + bv.len <= q.maxSize && Contiguous(q, c.prev, bv) {
        c := c.(segSize := c.segSize + bv.len, prev := bv);
      } else {
        if c.nr == 1 && c.segSize > c.frontSize {
          c := c.(frontSize := c.segSize);
        }
        c := Count(c.nr + 1, bv.len, c.frontSize, bv.high, bv);
      }
      j := j + 1;
    }
    assert all[..|base| + j] == all;
  }

  /** __blk_recalc_rq_segments: the number of groups, and the sizes raised. */
  method RecalcSegments(q: Limits, bios: seq<Bio>) returns (nr: nat, sized: seq<Bio>)
    ensures nr == |Groups(q, true, Data(bios))|
    ensures sized == if bios == [] then [] else Resized(bios, Groups(q, true, Data(bios)))
  {
    hide Groups;
    EmptyGroups(q, true);
    if bios == [] {
      return 0, [];
    }
    var c := Count(0, 0, bios[0].front, true, Bvec(0, 0, false));
    var i := 0;
    while i < |bios|
      invariant 0 <= i <= |bios|
      invariant Tracks(Groups(q, true, Data(bios[..i])), bios[0].front, c)
    {
      assert Front(bios[..i + 1]) == bios[..i];
      c := CountBvecs(q, Data(bios[..i]), bios[i].bvecs, bios[0].front, c);
      i := i + 1;
    }
    assert bios[..i] == bios;
    nr := c.nr;
    var frontSize := c.frontSize;
    if nr == 1 && c.segSize > frontSize {
      frontSize := c.segSize;
    }
    sized := bios[0 := bios[0].(front := frontSize)];
    if c.segSize > sized[|sized| - 1].back {
      sized := sized[|sized| - 1 := sized[|sized| - 1].(back := c.segSize)];
    }
  }

  /** The loop variables describe the groups formed so far. */
  ghost predicate Tracks(groups: seq<seq<Bvec>>, front0: nat, c: Count) {
    && c.nr == |groups|
    && c.segSize == (if groups == [] then 0 else Size(Last(groups)))
    && (c.highprv <==> groups == [] || (Last(groups) != [] && Last(groups)[0].high))
    && (groups != [] ==> LastOf(groups, c.prev))
    && c.frontSize == (if |groups| > 1 then Max(front0, Size(groups[0])) else front0)
  }

  lemma TracksStep(q: Limits, groups: seq<seq<Bvec>>, bv: Bvec, front0: nat, c: Count)
    requires Tracks(groups, front0, c)
    ensures var f := Extend(q, true, groups, bv);
            if !bv.high && !c.highprv && q.cluster && c.segSize + bv.len <= q.maxSize && Contiguous(q, c.prev, bv)
            then Tracks(f, front0, c.(segSize := c.segSize + bv.len, prev := bv))
            else
              var front := if c.nr == 1 then Max(c.frontSize, c.segSize) else c.frontSize;
              Tracks(f, front0, Count(c.nr + 1, bv.len, front, bv.high, bv))
  {
  }

  /** blk_recount_segments. */
  function Recount(q: Limits, b: Bio): Bio {
    Resized([b], Groups(q, true, b.bvecs))[0].(segs := |Groups(q, true, b.bvecs)|, valid := true)
  }

  function Valid(q: Limits, b: Bio): Bio { if b.valid then b else Recount(q, b) }

  /** A bio with data, whose cached counters, when marked valid, are those of a recount. */
  ghost predicate BioOk(q: Limits, b: Bio) {
    b.bvecs != [] && (b.valid ==> Counted(q, b))
  }

  ghost predicate Counted(q: Limits, b: Bio) {
    var groups := Groups(q, true, b.bvecs);
    groups != [] && b.segs == |groups| && Size(groups[0]) <= b.front && Size(Last(groups)) <= b.back
  }

  /** `groups` is a segmentation of the request with exactly as many segments as it counts, its
      first and last no larger than the sizes cached in the first and last bio. */
  ghost predicate Accounted(q: Limits, r: Rq, groups: seq<seq<Bvec>>) {
    && r.bios != [] && groups != [] && (forall i :: 0 <= i < |r.bios| ==> r.bios[i].bvecs != [])
    && Segmentation(q, Data(r.bios), groups) && |groups| == r.nr
    && Size(groups[0]) <= r.bios[0].front && Size(Last(groups)) <= Last(r.bios).back
  }

  /** blk_rq_bio_prep. */
  function FromBio(q: Limits, b: Bio): Rq {
    Rq([Valid(q, b)], Valid(q, b).segs, b.sectors, false, false)
  }

  /** ll_new_hw_segment's limit test. */
  predicate Fits(q: Limits, nr: nat) { nr <= q.maxHw && nr <= q.maxPhys }

  function WithTail(q: Limits, r: Rq): Rq
    requires r.bios != []
  {
    r.(bios := Front(r.bios) + [Valid(q, Last(r.bios))])
  }

  function WithHead(q: Limits, r: Rq): Rq
    requires r.bios != []
  {
    r.(bios := [Valid(q, r.bios[0])] + r.bios[1..])
  }

  /** ll_back_merge_fn and the back merge arm of __make_request. */
  function BackMerge(q: Limits, r: Rq, b: Bio): (Rq, bool)
    requires r.bios != []
  {
    if r.sectors + b.sectors > q.maxSectors then (r.(nomerge := true), false)
    else
      var t := WithTail(q, r);
      var b' := Valid(q, b);
      if !Fits(q, r.nr + b'.segs) then (t.(nomerge := true), false)
      else (t.(bios := t.bios + [b'], nr := r.nr + b'.segs, sectors := r.sectors + b.sectors), true)
  }

  /** ll_front_merge_fn and the front merge arm of __make_request. */
  function FrontMerge(q: Limits, r: Rq, b: Bio): (Rq, bool)
    requires r.bios != []
  {
    if r.sectors + b.sectors > q.maxSectors then (r.(nomerge := true), false)
    else
      var t := WithHead(q, r);
      var b' := Valid(q, b);
      if !Fits(q, r.nr + b'.segs) then (t.(nomerge := true), false)
      else (t.(bios := [b'] + t.bios, nr := r.nr + b'.segs, sectors := r.sectors + b.sectors), true)
  }

  /** blk_phys_contig_segment, for bios with data. */
  predicate PhysContig(q: Limits, a: Bio, b: Bio) {
    && q.cluster && a.back + b.front <= q.maxSize && a.bvecs != [] && b.bvecs != []
    && Contiguous(q, Last(a.bvecs), b.bvecs[0])
  }

  function SetFront(bios: seq<Bio>, size: nat): seq<Bio>
    requires bios != []
  {
    bios[0 := bios[0].(front := size)]
  }

  function SetBack(bios: seq<Bio>, size: nat): seq<Bio>
    requires bios != []
  {
    bios[|bios| - 1 := Last(bios).(back := size)]
  }

  /** ll_merge_requests_fn and the joining of the chains by attempt_merge.  When the merge is
      refused for its segment count the sizes may already have been changed. */
  function MergeRequests(q: Limits, r: Rq, n: Rq): (Rq, Rq, bool)
    requires r.bios != [] && n.bios != []
  {
    if r.special || n.special || r.sectors + n.sectors > q.maxSectors then (r, n, false)
    else
      var size := Last(r.bios).back + n.bios[0].front;
      var contig := PhysContig(q, Last(r.bios), n.bios[0]);
      var r1 := if contig && r.nr == 1 then r.(bios := SetFront(r.bios, size)) else r;
      var n1 := if contig && n.nr == 1 then n.(bios := SetBack(n.bios, size)) else n;
      var total := if contig && r.nr + n.nr > 0 then r.nr + n.nr - 1 else r.nr + n.nr;
      if !Fits(q, total) then (r1, n1, false)
      else (r1.(bios := r1.bios + n1.bios, nr := total, sectors := r.sectors + n.sectors), n1, true)
  }

  lemma {:induction false} DataConcat(a: seq<Bio>, b: seq<Bio>)
    ensures Data(a + b) == Data(a) + Data(b)
  {
    if b == [] {
      assert a + b == a;
    } else {
      DataConcat(a, Front(b));
      assert Front(a + b) == a + Front(b);
    }
  }

  /** Only the bio_vecs matter to the data. */
  lemma {:induction false} DataSame(a: seq<Bio>, b: seq<Bio>)
    requires |a| == |b| && forall i :: 0 <= i < |a| ==> a[i].bvecs == b[i].bvecs
    ensures Data(a) == Data(b)
  {
    if a != [] {
      DataSame(Front(a), Front(b));
    }
  }

  /** A recount only raises the sizes. */
  lemma ValidRaises(q: Limits, b: Bio)
    ensures Valid(q, b).bvecs == b.bvecs && Valid(q, b).front >= b.front && Valid(q, b).back >= b.back
  {
  }

  lemma ValidCounted(q: Limits, b: Bio)
    requires BioOk(q, b)
    ensures Counted(q, Valid(q, b)) && Valid(q, b).bvecs == b.bvecs
  {
  }

  /** Raising sizes, or changing anything but the bio_vecs and the outer sizes, keeps the accounts. */
  lemma Raise(q: Limits, r: Rq, t: Rq, groups: seq<seq<Bvec>>)
    requires Accounted(q, r, groups) && t.nr == r.nr && |t.bios| == |r.bios|
    requires forall i :: 0 <= i < |r.bios| ==> t.bios[i].bvecs == r.bios[i].bvecs
    requires Size(groups[0]) <= t.bios[0].front && Size(Last(groups)) <= Last(t.bios).back
    ensures Accounted(q, t, groups)
  {
    DataSame(t.bios, r.bios);
  }

  lemma Joined(q: Limits, a: seq<Bvec>, b: seq<Bvec>, ga: seq<seq<Bvec>>, gb: seq<seq<Bvec>>)
    requires Segmentation(q, a, ga) && Segmentation(q, b, gb)
    ensures Segmentation(q, a + b, ga + gb)
  {
    FlattenConcat(ga, gb);
  }

  lemma FromBioAccounted(q: Limits, b: Bio)
    requires BioOk(q, b)
    ensures Accounted(q, FromBio(q, b), Groups(q, true, b.bvecs))
  {
    ValidCounted(q, b);
    GroupsSegment(q, true, b.bvecs);
    var bios := [Valid(q, b)];
    assert Front(bios) == [];
    assert Data(bios) == b.bvecs;
  }

  lemma BackMergeAccounted(q: Limits, r: Rq, b: Bio, groups: seq<seq<Bvec>>)
    requires Accounted(q, r, groups) && BioOk(q, b)
    ensures var (t, ok) := BackMerge(q, r, b);
            Accounted(q, t, if ok then groups + Groups(q, true, b.bvecs) else groups)
  {
    hide Groups, Segmentation, Size, Recount;
    ValidCounted(q, b);
    ValidRaises(q, Last(r.bios));
    GroupsSegment(q, true, b.bvecs);
    var t := WithTail(q, r);
    Raise(q, r, t, groups);
    Raise(q, r, t.(nomerge := true), groups);
    Raise(q, r, r.(nomerge := true), groups);
    assert Front(t.bios + [Valid(q, b)]) == t.bios;
    Joined(q, Data(t.bios), b.bvecs, groups, Groups(q, true, b.bvecs));
  }

  lemma FrontMergeAccounted(q: Limits, r: Rq, b: Bio, groups: seq<seq<Bvec>>)
    requires Accounted(q, r, groups) && BioOk(q, b)
    ensures var (t, ok) := FrontMerge(q, r, b);
            Accounted(q, t, if ok then Groups(q, true, b.bvecs) + groups else groups)
  {
    hide Groups, Segmentation, Size, Recount, Valid;
    ValidRaises(q, r.bios[0]);
    var t := WithHead(q, r);
    Raise(q, r, t, groups);
    Raise(q, r, t.(nomerge := true), groups);
    Raise(q, r, r.(nomerge := true), groups);
    Prepended(q, t, b, groups, r.sectors + b.sectors);
  }

  lemma Prepended(q: Limits, t: Rq, b: Bio, groups: seq<seq<Bvec>>, sectors: nat)
    requires Accounted(q, t, groups) && BioOk(q, b)
    ensures Accounted(q, t.(bios := [Valid(q, b)] + t.bios, nr := t.nr + Valid(q, b).segs, sectors := sectors),
                      Groups(q, true, b.bvecs) + groups)
  {
    hide Groups, Segmentation, Size, Recount, Valid;
    ValidCounted(q, b);
    GroupsSegment(q, true, b.bvecs);
    var one := [Valid(q, b)];
    assert Front(one) == [];
    assert Data(one) == b.bvecs;
    hide Data;
    DataConcat(one, t.bios);
    Joined(q, b.bvecs, Data(t.bios), Groups(q, true, b.bvecs), groups);
  }

  /** Two segmentations joined through their adjacent segments. */
  function Fuse(a: seq<seq<Bvec>>, b: seq<seq<Bvec>>): seq<seq<Bvec>>
    requires a != [] && b != []
  {
    Front(a) + [Last(a) + b[0]] + b[1..]
  }

  lemma FlattenOne(g: seq<Bvec>)
    ensures Flatten([g]) == g
  {
  }

  lemma FuseFlatten(a: seq<seq<Bvec>>, b: seq<seq<Bvec>>)
    requires a != [] && b != []
    ensures Flatten(Fuse(a, b)) == Flatten(a) + Flatten(b)
  {
    hide Flatten;
    var mid := Last(a) + b[0];
    FlattenConcat(Front(a) + [mid], b[1..]);
    FlattenAppend(Front(a), mid);
    FlattenAppend(Front(a), Last(a));
    assert a == Front(a) + [Last(a)];
    assert b == [b[0]] + b[1..];
    FlattenConcat([b[0]], b[1..]);
    FlattenOne(b[0]);
  }

  lemma FuseSegment(q: Limits, g: seq<Bvec>, h: seq<Bvec>)
    requires Segment(q, g) && Segment(q, h) && q.cluster && Size(g) + Size(h) <= q.maxSize
    requires Contiguous(q, Last(g), h[0])
    ensures Segment(q, g + h) && Size(g + h) == Size(g) + Size(h)
  {
    SizeConcat(g, h);
    var f := g + h;
    forall i | 0 <= i < |f| - 1 ensures Contiguous(q, f[i], f[i + 1]) {
      if i < |g| - 1 {
        assert Contiguous(q, g[i], g[i + 1]);
      } else if i >= |g| {
        assert Contiguous(q, h[i - |g|], h[i - |g| + 1]);
      }
    }
  }

  lemma FlattenEnds(groups: seq<seq<Bvec>>)
    requires groups != [] && groups[0] != [] && Last(groups) != []
    ensures var d := Flatten(groups); d != [] && d[0] == groups[0][0] && Last(d) == Last(Last(groups))
  {
    assert groups == [groups[0]] + groups[1..];
    FlattenConcat([groups[0]], groups[1..]);
    FlattenOne(groups[0]);
  }

  lemma DataEnds(bios: seq<Bio>)
    requires bios != [] && bios[0].bvecs != [] && Last(bios).bvecs != []
    ensures var d := Data(bios); d != [] && d[0] == bios[0].bvecs[0] && Last(d) == Last(Last(bios).bvecs)
  {
    assert bios == [bios[0]] + bios[1..];
    DataConcat([bios[0]], bios[1..]);
    assert Front([bios[0]]) == [] && Data([bios[0]]) == bios[0].bvecs;
  }

  /** The ends of a segmentation are the ends of the data. */
  lemma Ends(q: Limits, r: Rq, groups: seq<seq<Bvec>>)
    requires Accounted(q, r, groups)
    ensures groups[0] != [] && Last(groups) != []
    ensures groups[0][0] == r.bios[0].bvecs[0] && Last(Last(groups)) == Last(Last(r.bios).bvecs)
  {
    hide Flatten, Data, Size;
    assert Segment(q, groups[0]) && Segment(q, groups[|groups| - 1]);
    FlattenEnds(groups);
    DataEnds(r.bios);
  }

  lemma FuseAt(gr: seq<seq<Bvec>>, gn: seq<seq<Bvec>>, i: nat)
    requires gr != [] && gn != [] && i < |Fuse(gr, gn)|
    ensures Fuse(gr, gn)[i] ==
            if i < |gr| - 1 then gr[i] else if i == |gr| - 1 then Last(gr) + gn[0] else gn[i - |gr| + 1]
  {
  }

  lemma FuseAccounted(q: Limits, r: Rq, n: Rq, gr: seq<seq<Bvec>>, gn: seq<seq<Bvec>>)
    requires Accounted(q, r, gr) && Accounted(q, n, gn) && PhysContig(q, Last(r.bios), n.bios[0])
    ensures Segmentation(q, Data(r.bios) + Data(n.bios), Fuse(gr, gn))
    ensures |Fuse(gr, gn)| == |gr| + |gn| - 1
    ensures Size(Last(gr) + gn[0]) <= Last(r.bios).back + n.bios[0].front
  {
    hide Flatten, Data, Size, Segment;
    Ends(q, r, gr);
    Ends(q, n, gn);
    FuseSegment(q, gr[|gr| - 1], gn[0]);
    FuseFlatten(gr, gn);
    var f := Fuse(gr, gn);
    forall i | 0 <= i < |f| ensures Segment(q, f[i]) {
      FuseAt(gr, gn, i);
    }
  }

  /** The sizes ll_merge_requests_fn stores before it checks the count keep both accounts. */
  lemma StoredSizes(q: Limits, r: Rq, n: Rq, gr: seq<seq<Bvec>>, gn: seq<seq<Bvec>>)
    requires Accounted(q, r, gr) && Accounted(q, n, gn)
    ensures var size := Last(r.bios).back + n.bios[0].front;
            && (r.nr == 1 ==> Accounted(q, r.(bios := SetFront(r.bios, size)), gr))
            && (n.nr == 1 ==> Accounted(q, n.(bios := SetBack(n.bios, size)), gn))
  {
    hide Segmentation, Size;
    var size := Last(r.bios).back + n.bios[0].front;
    if r.nr == 1 {
      Raise(q, r, r.(bios := SetFront(r.bios, size)), gr);
    }
    if n.nr == 1 {
      Raise(q, n, n.(bios := SetBack(n.bios, size)), gn);
    }
  }

  lemma MergeApart(q: Limits, r: Rq, n: Rq, gr: seq<seq<Bvec>>, gn: seq<seq<Bvec>>, t: Rq)
    requires Accounted(q, r, gr) && Accounted(q, n, gn) && t.bios == r.bios + n.bios && t.nr == r.nr + n.nr
    ensures Accounted(q, t, gr + gn)
  {
    hide Segmentation, Size, Data;
    DataConcat(r.bios, n.bios);
    Joined(q, Data(r.bios), Data(n.bios), gr, gn);
  }

  lemma MergeFused(q: Limits, r: Rq, n: Rq, gr: seq<seq<Bvec>>, gn: seq<seq<Bvec>>, t: Rq)
    requires Accounted(q, r, gr) && Accounted(q, n, gn) && PhysContig(q, Last(r.bios), n.bios[0])
    requires var size := Last(r.bios).back + n.bios[0].front;
             && t.nr == r.nr + n.nr - 1
             && t.bios == (if r.nr == 1 then SetFront(r.bios, size) else r.bios)
                          + (if n.nr == 1 then SetBack(n.bios, size) else n.bios)
    ensures Accounted(q, t, Fuse(gr, gn))
  {
    hide Segmentation, Size, Data, PhysContig;
    DataConcat(r.bios, n.bios);
    DataSame(t.bios, r.bios + n.bios);
    FuseAccounted(q, r, n, gr, gn);
    var f := Fuse(gr, gn);
    assert f[0] == if |gr| == 1 then Last(gr) + gn[0] else gr[0];
    assert Last(f) == if |gn| == 1 then Last(gr) + gn[0] else Last(gn);
  }

  /** A request merge keeps both accounts, whether or not it is refused. */
  lemma MergeRequestsAccounted(q: Limits, r: Rq, n: Rq, gr: seq<seq<Bvec>>, gn: seq<seq<Bvec>>)
    requires Accounted(q, r, gr) && Accounted(q, n, gn)
    ensures var (t, m, ok) := MergeRequests(q, r, n);
            if ok then Accounted(q, t, if PhysContig(q, Last(r.bios), n.bios[0]) then Fuse(gr, gn) else gr + gn)
            else Accounted(q, t, gr) && Accounted(q, m, gn)
  {
    assert r.bios != [] && n.bios != [] && r.nr > 0 && n.nr > 0;
    var (t, m, ok) := MergeRequests(q, r, n);
    StoredSizes(q, r, n, gr, gn);
    if ok {
      if PhysContig(q, Last(r.bios), n.bios[0]) {
        MergeFused(q, r, n, gr, gn, t);
      } else {
        MergeApart(q, r, n, gr, gn, t);
      }
    }
  }

  /** blk_recalc_rq_segments. */
  function Recalculated(q: Limits, r: Rq): Rq
    requires r.bios != []
  {
    var groups := Groups(q, true, Data(r.bios));
    r.(bios := Resized(r.bios, groups), nr := |groups|)
  }

  lemma RecalculatedAccounted(q: Limits, r: Rq, groups: seq<seq<Bvec>>)
    requires Accounted(q, r, groups)
    ensures Accounted(q, Recalculated(q, r), Groups(q, true, Data(r.bios)))
  {
    hide Size, Groups, Data;
    GroupsSegment(q, true, Data(r.bios));
    DataSame(r.bios, Recalculated(q, r).bios);
    assert Data(r.bios) != [] by { Ends(q, r, groups); DataNonEmpty(r.bios); }
  }

  lemma DataNonEmpty(bios: seq<Bio>)
    requires bios != [] && Last(bios).bvecs != []
    ensures Data(bios) != []
  {
  }

  /** How a request came about. */
  datatype Build = Start(b: Bio) | Back(to: Build, b: Bio) | Ahead(to: Build, b: Bio) | Join(to: Build, next: Build)
                 | Recalc(to: Build)

  ghost predicate BuildOk(q: Limits, p: Build) {
    match p
    case Start(b) => BioOk(q, b)
    case Back(to, b) => BuildOk(q, to) && BioOk(q, b)
    case Ahead(to, b) => BuildOk(q, to) && BioOk(q, b)
    case Join(to, next) => BuildOk(q, to) && BuildOk(q, next)
    case Recalc(to) => BuildOk(q, to)
  }

  function Built(q: Limits, p: Build): (r: Rq)
    ensures r.bios != []
  {
    match p
    case Start(b) => FromBio(q, b)
    case Back(to, b) => BackMerge(q, Built(q, to), b).0
    case Ahead(to, b) => FrontMerge(q, Built(q, to), b).0
    case Join(to, next) => MergeRequests(q, Built(q, to), Built(q, next)).0
    case Recalc(to) => Recalculated(q, Built(q, to))
  }

  lemma {:induction false} BuiltAccounted(q: Limits, p: Build) returns (groups: seq<seq<Bvec>>)
    requires BuildOk(q, p)
    ensures Accounted(q, Built(q, p), groups)
  {
    hide Accounted, BackMerge, FrontMerge, MergeRequests, FromBio;
    match p
    case Start(b) =>
      FromBioAccounted(q, b);
      groups := Groups(q, true, b.bvecs);
    case Back(to, b) =>
      groups := BuiltAccounted(q, to);
      BackMergeAccounted(q, Built(q, to), b, groups);
      if BackMerge(q, Built(q, to), b).1 {
        groups := groups + Groups(q, true, b.bvecs);
      }
    case Ahead(to, b) =>
      groups := BuiltAccounted(q, to);
      FrontMergeAccounted(q, Built(q, to), b, groups);
      if FrontMerge(q, Built(q, to), b).1 {
        groups := Groups(q, true, b.bvecs) + groups;
      }
    case Join(to, next) =>
      var gr := BuiltAccounted(q, to);
      var gn := BuiltAccounted(q, next);
      var r, n := Built(q, to), Built(q, next);
      MergeRequestsAccounted(q, r, n, gr, gn);
      groups := gr;
      AccountedNonEmpty(q, r, gr);
      AccountedNonEmpty(q, n, gn);
      if MergeRequests(q, r, n).2 {
        groups := if PhysContig(q, Last(r.bios), n.bios[0]) then Fuse(gr, gn) else gr + gn;
      }
    case Recalc(to) =>
      var g := BuiltAccounted(q, to);
      RecalculatedAccounted(q, Built(q, to), g);
      groups := Groups(q, true, Data(Built(q, to).bios));
  }

  lemma AccountedNonEmpty(q: Limits, r: Rq, groups: seq<seq<Bvec>>)
    requires Accounted(q, r, groups)
    ensures r.bios != [] && groups != []
  {
  }

  /** However a request was built, its scatterlist has no more entries than the segments it counts,
      and covers exactly the bytes of its bios in order. */
  lemma MappedWithinCount(q: Limits, p: Build)
    requires BuildOk(q, p)
    ensures var r := Built(q, p);
            var sgs := Entries(Groups(q, false, Data(r.bios)));
            |sgs| <= r.nr && SgBytes(sgs) == BvecBytes(Data(r.bios))
  {
    var groups := BuiltAccounted(q, p);
    MapCovers(q, Data(Built(q, p).bios), groups);
  }

  function SectorSum(bios: seq<Bio>): nat {
    if bios == [] then 0 else SectorSum(Front(bios)) + Last(bios).sectors
  }

  lemma {:induction false} SectorsConcat(a: seq<Bio>, b: seq<Bio>)
    ensures SectorSum(a + b) == SectorSum(a) + SectorSum(b)
  {
    if b == [] {
      assert a + b == a;
    } else {
      SectorsConcat(a, Front(b));
      assert Front(a + b) == a + Front(b);
    }
  }

  lemma {:induction false} SectorsSame(a: seq<Bio>, b: seq<Bio>)
    requires |a| == |b| && forall i :: 0 <= i < |a| ==> a[i].sectors == b[i].sectors
    ensures SectorSum(a) == SectorSum(b)
  {
    if a != [] {
      SectorsSame(Front(a), Front(b));
    }
  }

  lemma OneBio(b: Bio)
    ensures SectorSum([b]) == b.sectors && Data([b]) == b.bvecs
  {
    assert Front([b]) == [];
  }

  lemma ValidKeeps(q: Limits, b: Bio)
    ensures Valid(q, b).sectors == b.sectors && Valid(q, b).bvecs == b.bvecs
    ensures BioOk(q, b) ==> Valid(q, b).segs == |Groups(q, true, b.bvecs)|
  {
  }

  /** The same data and sectors, whatever the cached counters. */
  ghost predicate SameLoad(a: seq<Bio>, b: seq<Bio>) {
    |a| == |b| && forall i :: 0 <= i < |a| ==> a[i].bvecs == b[i].bvecs && a[i].sectors == b[i].sectors
  }

  lemma SameLoads(a: seq<Bio>, b: seq<Bio>)
    requires SameLoad(a, b)
    ensures Data(a) == Data(b) && SectorSum(a) == SectorSum(b)
  {
    DataSame(a, b);
    SectorsSame(a, b);
  }

  /** A bio is merged at the back exactly if the sectors and the segments, those of the bio counted afresh, stay
      within max_sectors, max_phys_segments and max_hw_segments; a refusal closes the request for merging. */
  lemma BackMergeExact(q: Limits, r: Rq, b: Bio)
    requires r.bios != [] && BioOk(q, b)
    ensures var (t, ok) := BackMerge(q, r, b); var segs := |Groups(q, true, b.bvecs)|;
            && (ok <==> r.sectors + b.sectors <= q.maxSectors && r.nr + segs <= q.maxPhys && r.nr + segs <= q.maxHw)
            && t.bios != [] && t.special == r.special && t.nomerge == (r.nomerge || !ok)
            && t.nr == (if ok then r.nr + segs else r.nr)
            && t.sectors == (if ok then r.sectors + b.sectors else r.sectors)
            && Data(t.bios) == (if ok then Data(r.bios) + b.bvecs else Data(r.bios))
            && SectorSum(t.bios) == (if ok then SectorSum(r.bios) + b.sectors else SectorSum(r.bios))
  {
    hide Data, SectorSum, Groups, Valid;
    ValidKeeps(q, b);
    ValidKeeps(q, Last(r.bios));
    var tail := WithTail(q, r).bios;
    SameLoads(tail, r.bios);
    DataConcat(tail, [Valid(q, b)]);
    SectorsConcat(tail, [Valid(q, b)]);
    OneBio(Valid(q, b));
  }

  /** The same at the front. */
  lemma FrontMergeExact(q: Limits, r: Rq, b: Bio)
    requires r.bios != [] && BioOk(q, b)
    ensures var (t, ok) := FrontMerge(q, r, b); var segs := |Groups(q, true, b.bvecs)|;
            && (ok <==> r.sectors + b.sectors <= q.maxSectors && r.nr + segs <= q.maxPhys && r.nr + segs <= q.maxHw)
            && t.bios != [] && t.special == r.special && t.nomerge == (r.nomerge || !ok)
            && t.nr == (if ok then r.nr + segs else r.nr)
            && t.sectors == (if ok then r.sectors + b.sectors else r.sectors)
            && Data(t.bios) == (if ok then b.bvecs + Data(r.bios) else Data(r.bios))
            && SectorSum(t.bios) == (if ok then b.sectors + SectorSum(r.bios) else SectorSum(r.bios))
  {
    hide Data, SectorSum, Groups, Valid;
    ValidKeeps(q, b);
    ValidKeeps(q, r.bios[0]);
    var head := WithHead(q, r).bios;
    SameLoads(head, r.bios);
    DataConcat([Valid(q, b)], head);
    SectorsConcat([Valid(q, b)], head);
    OneBio(Valid(q, b));
  }

  /** The hardware may take the last segment of the first request and the first of the second as one, judged by the
      sizes cached in the bios. */
  predicate OneAcross(q: Limits, r: Rq, n: Rq)
    requires r.bios != [] && n.bios != [] && Last(r.bios).bvecs != [] && n.bios[0].bvecs != []
  {
    var a, b := Last(Last(r.bios).bvecs), n.bios[0].bvecs[0];
    q.cluster && Last(r.bios).back + n.bios[0].front <= q.maxSize && a.addr + a.len == b.addr && q.inBoundary(a, b)
  }

  /** The segments of two requests together: one fewer if two become one. */
  function Together(q: Limits, r: Rq, n: Rq): int
    requires r.bios != [] && n.bios != [] && Last(r.bios).bvecs != [] && n.bios[0].bvecs != []
  {
    if OneAcross(q, r, n) then r.nr + n.nr - 1 else r.nr + n.nr
  }

  /** Two requests are merged exactly if neither is special and sectors and segments stay within the limits.  Where two
      segments become one and it is the first of all, or the last, its size is cached there, whether or not the
      merge is then refused for its segments. */
  lemma MergeRequestsExact(q: Limits, r: Rq, n: Rq)
    requires r.bios != [] && n.bios != [] && Last(r.bios).bvecs != [] && n.bios[0].bvecs != [] && r.nr + n.nr > 0
    ensures var (t, m, ok) := MergeRequests(q, r, n); var total := Together(q, r, n);
            && (ok <==> && !r.special && !n.special && r.sectors + n.sectors <= q.maxSectors
                        && total <= q.maxPhys && total <= q.maxHw)
            && t.bios != [] && t.special == r.special && t.nomerge == r.nomerge
            && t.nr == (if ok then total else r.nr)
            && t.sectors == (if ok then r.sectors + n.sectors else r.sectors)
            && Data(t.bios) == (if ok then Data(r.bios) + Data(n.bios) else Data(r.bios))
            && SectorSum(t.bios) == (if ok then SectorSum(r.bios) + SectorSum(n.bios) else SectorSum(r.bios))
            && var one := !r.special && !n.special && r.sectors + n.sectors <= q.maxSectors && OneAcross(q, r, n);
               var size := Last(r.bios).back + n.bios[0].front;
               && t.bios[0].front == (if one && r.nr == 1 then size else r.bios[0].front)
               && (ok ==> Last(t.bios).back == (if one && n.nr == 1 then size else Last(n.bios).back))
               && m.bios != [] && (!ok ==> Last(m.bios).back == (if one && n.nr == 1 then size else Last(n.bios).back))
  {
    hide Data, SectorSum;
    var size := Last(r.bios).back + n.bios[0].front;
    var r1, n1 := SetFront(r.bios, size), SetBack(n.bios, size);
    SameLoads(r1, r.bios);
    SameLoads(n1, n.bios);
    var (t, m, ok) := MergeRequests(q, r, n);
    if ok {
      var a := if t.bios[..|r.bios|] == r.bios then r.bios else r1;
      var b := if t.bios[|r.bios|..] == n.bios then n.bios else n1;
      assert t.bios == a + b;
      DataConcat(a, b);
      SectorsConcat(a, b);
    }
  }

  ghost predicate Low(bvs: seq<Bvec>) { forall i :: 0 <= i < |bvs| ==> !bvs[i].high }

  /** The bio a build starts from is within the limits. */
  ghost predicate StartsWithin(q: Limits, p: Build) {
    match p
    case Start(b) =>
      && b.sectors <= q.maxSectors
      && |Groups(q, true, b.bvecs)| <= q.maxPhys && |Groups(q, true, b.bvecs)| <= q.maxHw
    case Back(to, _) => StartsWithin(q, to)
    case Ahead(to, _) => StartsWithin(q, to)
    case Join(to, _) => StartsWithin(q, to)
    case Recalc(to) => StartsWithin(q, to)
  }

  /** The last recount, unless a merge was taken since, counted no more segments than allowed. */
  ghost predicate RecountFits(q: Limits, p: Build) {
    match p
    case Start(_) => true
    case Back(to, b) => RecountFits(q, to) || BackMerge(q, Built(q, to), b).1
    case Ahead(to, b) => RecountFits(q, to) || FrontMerge(q, Built(q, to), b).1
    case Join(to, next) => RecountFits(q, to) || MergeRequests(q, Built(q, to), Built(q, next)).2
    case Recalc(to) =>
      var segs := |Groups(q, true, Data(Built(q, to).bios))|;
      segs <= q.maxPhys && segs <= q.maxHw
  }

  /** Whatever is recounted on the way has no page above the bounce limit. */
  ghost predicate LowRecounts(q: Limits, p: Build) {
    match p
    case Start(_) => true
    case Back(to, _) => LowRecounts(q, to)
    case Ahead(to, _) => LowRecounts(q, to)
    case Join(to, _) => LowRecounts(q, to)
    case Recalc(to) => LowRecounts(q, to) && Low(Data(Built(q, to).bios))
  }

  lemma {:induction false} LowGroups(q: Limits, bvs: seq<Bvec>)
    requires Low(bvs)
    ensures Groups(q, true, bvs) == Groups(q, false, bvs)
  {
    if bvs != [] {
      LowGroups(q, Front(bvs));
      var groups := Groups(q, true, Front(bvs));
      GroupsSegment(q, true, Front(bvs));
      if groups != [] {
        LastIn(groups);
        assert Last(groups)[0] in Front(bvs);
      }
    }
  }

  lemma LastIn(groups: seq<seq<Bvec>>)
    requires groups != [] && Last(groups) != []
    ensures Last(groups)[0] in Flatten(groups)
  {
    var f := Flatten(Front(groups));
    assert (f + Last(groups))[|f|] == Last(groups)[0];
  }

  /** However a request was built, its sectors are those of its bios.  If it started within the limits, it never passes
      max_sectors, and it is within max_phys_segments and max_hw_segments exactly if the last recount was; which
      it is when no request with pages above the bounce limit is recounted. */
  lemma {:induction false} BuiltWithinLimits(q: Limits, p: Build)
    requires BuildOk(q, p)
    ensures var r := Built(q, p);
            && r.sectors == SectorSum(r.bios)
            && (StartsWithin(q, p) ==>
                  && r.sectors <= q.maxSectors
                  && (r.nr <= q.maxPhys && r.nr <= q.maxHw <==> RecountFits(q, p))
                  && (LowRecounts(q, p) ==> RecountFits(q, p)))
  {
    hide BackMerge, FrontMerge, MergeRequests, Groups, SectorSum, Data, Accounted;
    match p
    case Start(b) => {
      ValidKeeps(q, b);
      OneBio(Valid(q, b));
    }
    case Back(to, b) => {
      BuiltWithinLimits(q, to);
      BackMergeExact(q, Built(q, to), b);
    }
    case Ahead(to, b) => {
      BuiltWithinLimits(q, to);
      FrontMergeExact(q, Built(q, to), b);
    }
    case Join(to, next) => {
      BuiltWithinLimits(q, to);
      BuiltWithinLimits(q, next);
      var gr := BuiltAccounted(q, to);
      var gn := BuiltAccounted(q, next);
      HasData(q, Built(q, to), gr);
      HasData(q, Built(q, next), gn);
      MergeRequestsExact(q, Built(q, to), Built(q, next));
    }
    case Recalc(to) => {
      BuiltWithinLimits(q, to);
      var g := BuiltAccounted(q, to);
      RecalcWithin(q, Built(q, to), g);
    }
  }

  lemma HasData(q: Limits, r: Rq, groups: seq<seq<Bvec>>)
    requires Accounted(q, r, groups)
    ensures r.bios != [] && Last(r.bios).bvecs != [] && r.bios[0].bvecs != [] && r.nr > 0
  {
  }

  lemma RecalcWithin(q: Limits, r: Rq, groups: seq<seq<Bvec>>)
    requires Accounted(q, r, groups)
    ensures var t := Recalculated(q, r);
            && t.sectors == r.sectors && SectorSum(t.bios) == SectorSum(r.bios)
            && (Low(Data(r.bios)) ==> t.nr <= r.nr)
  {
    hide Groups, Data, SectorSum, Segmentation, Size;
    SectorsSame(r.bios, Recalculated(q, r).bios);
    if Low(Data(r.bios)) {
      LowGroups(q, Data(r.bios));
      MapCovers(q, Data(r.bios), groups);
    }
  }

  const OneSegment := Limits(true, 65536, 1, 1, 1024, (a, b) => true)

  /** A bio of one page above the bounce limit. */
  function HighBio(addr: nat): Bio { Bio([Bvec(addr, 4096, true)], 8, 0, 0, 0, false) }

  lemma HighBiosJoin()
    ensures var r, n := FromBio(OneSegment, HighBio(0)), FromBio(OneSegment, HighBio(4096));
            var (t, m, ok) := MergeRequests(OneSegment, r, n);
            ok && t.nr == 1 && t.bios != [] && Data(t.bios) == [Bvec(0, 4096, true), Bvec(4096, 4096, true)]
  {
    hide Groups, Data, MergeRequests, FromBio, SectorSum;
    var va, vb := Bvec(0, 4096, true), Bvec(4096, 4096, true);
    OneBvec(OneSegment, va, 8);
    OneBvec(OneSegment, vb, 8);
    var r, n := FromBio(OneSegment, HighBio(0)), FromBio(OneSegment, HighBio(4096));
    OneBio(r.bios[0]);
    OneBio(n.bios[0]);
    MergeRequestsExact(OneSegment, r, n);
    assert [va] + [vb] == [va, vb];
  }

  /** With pages above the bounce limit a recount can pass the limits: two such pages next to each other merge into one
      segment, and are two when counted again. */
  lemma RecountPasses()
    ensures var p := Join(Start(HighBio(0)), Start(HighBio(4096)));
            && BuildOk(OneSegment, p) && StartsWithin(OneSegment, p)
            && Built(OneSegment, p).nr == 1 && Built(OneSegment, Recalc(p)).nr == 2
  {
    hide Groups, Data, MergeRequests, FromBio, BioOk;
    var va, vb := Bvec(0, 4096, true), Bvec(4096, 4096, true);
    OneBvec(OneSegment, va, 8);
    OneBvec(OneSegment, vb, 8);
    OneGroup(OneSegment, va);
    HighBiosJoin();
    TwoGroups(OneSegment, va, vb);
  }

  lemma OneBvec(q: Limits, v: Bvec, sectors: nat)
    ensures var b := Bio([v], sectors, 0, 0, 0, false);
            && BioOk(q, b)
            && FromBio(q, b) == Rq([Bio([v], sectors, 1, v.len, v.len, true)], 1, sectors, false, false)
  {
    OneGroup(q, v);
  }

  lemma TwoGroups(q: Limits, v: Bvec, w: Bvec)
    requires w.high
    ensures Groups(q, true, [v, w]) == [[v], [w]]
  {
    assert Front([v, w]) == [v];
    OneGroup(q, v);
  }

  lemma OneGroup(q: Limits, v: Bvec)
    ensures Groups(q, true, [v]) == [[v]] && Size([v]) == v.len
  {
    assert Front([v]) == [];
  }

  /** blk_recount_segments, on a bio taken out of its chain. */
  method RecountBio(q: Limits, b: Bio) returns (r: Bio)
    ensures r == Recount(q, b)
  {
    assert Front([b]) == [] && Data([b]) == b.bvecs;
    var nr, sized := RecalcSegments(q, [b]);
    r := sized[0].(segs := nr, valid := true);
  }

  /** A request whose chain and counters the merge functions change in place. */
  class Request {
    var bios: seq<Bio>
    var nr: nat
    var sectors: nat
    var nomerge: bool
    var special: bool

    function Value(): Rq
      reads this
    {
      Rq(bios, nr, sectors, nomerge, special)
    }

    constructor (q: Limits, b: Bio)
      ensures Value() == FromBio(q, b)
    {
      var b' := b;
      if !b.valid {
        b' := RecountBio(q, b);
      }
      bios, nr, sectors, nomerge, special := [b'], b'.segs, b.sectors, false, false;
    }

    /** ll_new_hw_segment. */
    method NewHwSegment(q: Limits, segs: nat) returns (ok: bool)
      modifies this`nr, this`nomerge
      ensures ok <==> old(nr) + segs <= q.maxPhys && old(nr) + segs <= q.maxHw
      ensures nr == (if ok then old(nr) + segs else old(nr)) && nomerge == (old(nomerge) || !ok)
    {
      if nr + segs > q.maxHw || nr + segs > q.maxPhys {
        nomerge := true;
        return false;
      }
      nr := nr + segs;
      return true;
    }

    method BackMergeBio(q: Limits, b: Bio) returns (ok: bool)
      requires bios != []
      modifies this
      ensures (Value(), ok) == BackMerge(q, old(Value()), b)
    {
      if sectors + b.sectors > q.maxSectors {
        nomerge := true;
        return false;
      }
      var tail := bios[|bios| - 1];
      if !tail.valid {
        tail := RecountBio(q, tail);
      }
      bios := bios[..|bios| - 1] + [tail];
      var b' := b;
      if !b.valid {
        b' := RecountBio(q, b);
      }
      ok := NewHwSegment(q, b'.segs);
      if ok {
        bios := bios + [b'];
        sectors := sectors + b.sectors;
      }
    }

    method FrontMergeBio(q: Limits, b: Bio) returns (ok: bool)
      requires bios != []
      modifies this
      ensures (Value(), ok) == FrontMerge(q, old(Value()), b)
    {
      if sectors + b.sectors > q.maxSectors {
        nomerge := true;
        return false;
      }
      var b' := b;
      if !b.valid {
        b' := RecountBio(q, b);
      }
      var head := bios[0];
      if !head.valid {
        head := RecountBio(q, head);
      }
      bios := [head] + bios[1..];
      ok := NewHwSegment(q, b'.segs);
      if ok {
        bios := [b'] + bios;
        sectors := sectors + b.sectors;
      }
    }

    /** ll_merge_requests_fn and attempt_merge's joining of the chains. */
    method MergeNext(q: Limits, next: Request) returns (ok: bool)
      requires next != this && bios != [] && next.bios != [] && nr > 0 && next.nr > 0
      modifies this, next
      ensures (Value(), next.Value(), ok) == MergeRequests(q, old(Value()), old(next.Value()))
    {
      if special || next.special || sectors + next.sectors > q.maxSectors {
        return false;
      }
      var size := bios[|bios| - 1].back + next.bios[0].front;
      var total := nr + next.nr;
      if PhysContig(q, bios[|bios| - 1], next.bios[0]) {
        if nr == 1 {
          bios := bios[0 := bios[0].(front := size)];
        }
        if next.nr == 1 {
          next.bios := next.bios[|next.bios| - 1 := next.bios[|next.bios| - 1].(back := size)];
        }
        total := total - 1;
      }
      if total > q.maxPhys || total > q.maxHw {
        return false;
      }
      nr := total;
      bios := bios + next.bios;
      sectors := sectors + next.sectors;
      return true;
    }
  }
}
