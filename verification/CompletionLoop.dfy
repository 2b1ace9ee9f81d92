/** The completion loop itself: it walks and edits bios in place. */
module CompletionLoop {
  import opened Completion

  datatype Bio = Bio(id: nat, vecs: seq<Vec>, idx: nat, size: nat, sector: nat, uptodate: bool)

  function Live(b: Bio): seq<Vec> { if b.idx <= |b.vecs| then b.vecs[b.idx..] else [] }

  function View(b: Bio): Rest { Rest(b.id, Live(b), b.size, b.sector, b.uptodate) }

  function Views(bs: seq<Bio>): seq<Rest> { seq(|bs|, i requires 0 <= i < |bs| => View(bs[i])) }

  predicate WellFormed(b: Bio) { b.idx <= |b.vecs| && Sized(View(b)) }

  predicate AllWellFormed(bs: seq<Bio>) { forall i :: 0 <= i < |bs| ==> WellFormed(bs[i]) }

  /** The part of a call still to be done: a first bio without data ends even if no byte is left. */
  function Pending(bs: seq<Rest>, m: nat, err: int, started: bool): Result {
    if started then After(bs, Fill(m, err)) else AfterCall(bs, m, err)
  }

  lemma FillClean(n: nat, err: int)
    ensures Clean(Fill(n, err)) <==> n == 0 || err == 0
  {
    if Clean(Fill(n, err)) && n > 0 {
      assert Fill(n, err)[0] == err;
    }
  }

  lemma PendingBio(bs: seq<Rest>, m: nat, err: int, started: bool)
    requires bs != [] && bs[0].size <= m && (started ==> m > 0)
    ensures var later := After(bs[1..], Fill(m - bs[0].size, err));
            Pending(bs, m, err, started)
            == Result([Ended(bs[0].id, Status(bs[0], [], err))] + later.ended, later.rest)
  {
    hide After;
    if m == 0 {
      AfterNothing(bs[1..], Fill(0, err));
    } else {
      var size := bs[0].size;
      AfterHead(bs, Fill(m, err));
      assert Fill(m, err)[..size] == Fill(size, err) && Fill(m, err)[size..] == Fill(m - size, err);
      FillClean(size, err);
    }
  }

  lemma PendingWithin(bs: seq<Rest>, m: nat, err: int, started: bool)
    requires bs != [] && m < bs[0].size
    ensures Pending(bs, m, err, started)
            == if m == 0 then Result([], bs) else Result([], [Trim(bs[0], Fill(m, err))] + bs[1..])
  {
  }

  /** The loop's position inside its first bio: whole vectors passed, nr bytes still to take. */
  predicate Passed(b: Bio, passed: nat, bytes: nat, nr: nat) {
    && b.idx + passed <= |b.vecs|
    && Len(b.vecs[b.idx + passed..]) + bytes == b.size
    && (bytes + nr > 0 ==> Cut(Live(b), bytes + nr) == Cut(b.vecs[b.idx + passed..], nr))
  }

  lemma PassVec(b: Bio, passed: nat, bytes: nat, nr: nat)
    requires Passed(b, passed, bytes, nr) && bytes + nr < b.size && (passed == 0 ==> bytes == 0)
    ensures b.idx + passed < |b.vecs|
    ensures var len := b.vecs[b.idx + passed].len;
            len <= nr && (nr > 0 || passed == 0) ==> Passed(b, passed + 1, bytes + len, nr - len)
  {
  }

  lemma PassNone(b: Bio, nr: nat)
    requires WellFormed(b)
    ensures Passed(b, 0, 0, nr)
  {
  }

  /** Where the loop stands in a call that is to have the effect `all`: bios still there, calls made. */
  predicate Midway(all: Result, was: seq<Ended>, err: int, bs: seq<Bio>, ended: seq<Ended>,
                   nr: nat, bytes: nat, passed: nat, started: bool)
  {
    && AllWellFormed(bs)
    && (bs != [] ==> Passed(bs[0], passed, bytes, nr))
    && (passed > 0 ==> bs != [] && bytes + nr < bs[0].size)
    && (passed == 0 ==> bytes == 0)
    && var more := Pending(Views(bs), bytes + nr, err, started);
       all.rest == more.rest && ended + more.ended == was + all.ended
  }

  lemma MidwayStart(bs: seq<Bio>, ended: seq<Ended>, n: nat, err: int)
    requires AllWellFormed(bs)
    ensures Midway(AfterCall(Views(bs), n, err), ended, err, bs, ended, n, 0, 0, false)
  {
  }

  lemma MidwayBio(all: Result, was: seq<Ended>, err: int, bs: seq<Bio>, ended: seq<Ended>,
                  nr: nat, bytes: nat, passed: nat, started: bool)
    requires Midway(all, was, err, bs, ended, nr, bytes, passed, started)
    requires bs != [] && bs[0].size <= nr && (started ==> nr > 0)
    ensures Midway(all, was, err, bs[1..], ended + [Ended(bs[0].id, Status(View(bs[0]), [], err))],
                   nr - bs[0].size, 0, 0, true)
  {
    hide Passed, After, AfterCall, Sized, Status;
    PendingBio(Views(bs), nr, err, started);
    assert Views(bs)[1..] == Views(bs[1..]);
    if |bs| > 1 {
      PassNone(bs[1], nr - bs[0].size);
    }
  }

  lemma MidwayVec(all: Result, was: seq<Ended>, err: int, bs: seq<Bio>, ended: seq<Ended>,
                  nr: nat, bytes: nat, passed: nat, started: bool)
    requires Midway(all, was, err, bs, ended, nr, bytes, passed, started)
    requires bs != [] && nr < bs[0].size && (started ==> nr > 0) && (!started ==> passed == 0)
    ensures bytes + nr < bs[0].size && bs[0].idx + passed < |bs[0].vecs|
    ensures var len := bs[0].vecs[bs[0].idx + passed].len;
            len <= nr ==> Midway(all, was, err, bs, ended, nr - len, bytes + len, passed + 1, true)
  {
    hide Passed, After, AfterCall, Sized, Status;
    PassVec(bs[0], passed, bytes, nr);
    PendingWithin(Views(bs), bytes + nr, err, started);
    PendingWithin(Views(bs), bytes + nr, err, true);
  }

  /** What the epilogue needs. */
  predicate Stopped(all: Result, was: seq<Ended>, err: int, bs: seq<Bio>, ended: seq<Ended>,
                    nr: nat, bytes: nat, passed: nat)
  {
    && AllWellFormed(bs)
    && (bytes > 0 ==>
          && bs != [] && nr <= bytes < bs[0].size
          && Passed(bs[0], passed, bytes - nr, nr)
          && bs[0].idx + passed < |bs[0].vecs|
          && (nr == 0 || nr < bs[0].vecs[bs[0].idx + passed].len))
    && var more := Pending(Views(bs), bytes, err, true);
       all.rest == more.rest && ended + more.ended == was + all.ended
  }

  lemma MidwayEmpty(all: Result, was: seq<Ended>, err: int, ended: seq<Ended>, nr: nat, bytes: nat, passed: nat,
                    started: bool)
    requires Midway(all, was, err, [], ended, nr, bytes, passed, started)
    ensures Stopped(all, was, err, [], ended, nr, 0, 0)
  {
  }

  lemma MidwayStop(all: Result, was: seq<Ended>, err: int, bs: seq<Bio>, ended: seq<Ended>,
                   nr: nat, bytes: nat, passed: nat, started: bool)
    requires Midway(all, was, err, bs, ended, nr, bytes, passed, started)
    requires bs != [] && ((nr == 0 && started) || (nr < bs[0].size && bs[0].idx + passed < |bs[0].vecs|
                                                   && nr < bs[0].vecs[bs[0].idx + passed].len))
    ensures Stopped(all, was, err, bs, ended, nr, bytes + nr, passed)
  {
  }

  /** The first bio with the completed part taken off, as the loop's epilogue writes it. */
  function Advanced(b: Bio, passed: nat, bytes: nat, nr: nat, err: int): Bio
    requires b.idx + passed < |b.vecs| && bytes <= b.size && nr <= b.vecs[b.idx + passed].len
  {
    var at := b.idx + passed;
    var v := b.vecs[at];
    Bio(b.id, b.vecs[at := Vec(v.page, v.offset + nr, v.len - nr)], at, b.size - bytes, b.sector + bytes / SECTOR,
        b.uptodate && err == 0)
  }

  lemma AdvancedIsTrim(b: Bio, passed: nat, bytes: nat, nr: nat, err: int)
    requires WellFormed(b) && b.idx + passed < |b.vecs| && nr <= bytes < b.size && bytes > 0
    requires Passed(b, passed, bytes - nr, nr) && (nr == 0 || nr < b.vecs[b.idx + passed].len)
    ensures View(Advanced(b, passed, bytes, nr, err)) == Trim(View(b), Fill(bytes, err))
    ensures WellFormed(Advanced(b, passed, bytes, nr, err))
  {
    hide Cut, Len, Bytes, Clean;
    var at := b.idx + passed;
    var b' := Advanced(b, passed, bytes, nr, err);
    FillClean(bytes, err);
    CutBytes(Live(b), bytes);
    CutHead(b.vecs[at..], nr);
    assert Live(b') == Cut(Live(b), bytes);
  }

  lemma CutHead(vs: seq<Vec>, nr: nat)
    requires vs != [] && (nr == 0 || nr < vs[0].len)
    ensures Cut(vs, nr) == vs[0 := Vec(vs[0].page, vs[0].offset + nr, vs[0].len - nr)]
  {
  }

  /** bio_cur_sectors. */
  function CurSectors(b: Bio): nat {
    if b.vecs == [] then b.size / SECTOR else if b.idx < |b.vecs| then b.vecs[b.idx].len / SECTOR else 0
  }

  /** A request under completion; `ended` records the end-io calls made so far. */
  class Request {
    const fs: bool
    var bios: seq<Bio>
    var ended: seq<Ended>
    var hardSector: nat
    var hardNrSectors: int
    var sector: nat
    var nrSectors: int
    var hardCurSectors: nat
    var currentNrSectors: nat
    /** Whether "request botched" was ever reported. */
    var botched: bool

    /** A file-system request whose counters describe its bios. */
    ghost predicate Accounted()
      reads this
    {
      && fs && Contiguous(Views(bios), hardSector)
      && SECTOR * hardNrSectors == Total(Views(bios))
      && sector == hardSector && nrSectors == hardNrSectors
    }

    /** req_bio_endio for a request that is not the barrier in progress. */
    method BioEndio(bio: Bio, nbytes: nat, err: int) returns (bio': Bio)
      modifies this`ended
      ensures var done := if nbytes > bio.size then bio.size else nbytes;
              && bio' == bio.(size := bio.size - done, sector := bio.sector + done / SECTOR,
                              uptodate := bio.uptodate && err == 0)
              && ended == if done == bio.size then old(ended) + [Ended(bio.id, Status(View(bio), [], err))]
                          else old(ended)
    {
      var error := err;
      bio' := bio;
      if error != 0 {
        bio' := bio'.(uptodate := false);
      } else if !bio'.uptodate {
        error := -EIO;
      }
      var done := if nbytes > bio.size then bio.size else nbytes;
      bio' := bio'.(size := bio'.size - done, sector := bio'.sector + done / SECTOR);
      if bio'.size == 0 {
        ended := ended + [Ended(bio.id, error)];
      }
    }

    /** The loop of __end_that_request_first. */
    method Walk(err: int, nrBytes: nat) returns (nr: nat, total: nat, bytes: nat, passed: nat)
      requires AllWellFormed(bios)
      modifies this`bios, this`ended
      ensures bios != [] ==> total == nrBytes
      ensures bios == [] ==> bytes == 0
      ensures Stopped(AfterCall(Views(old(bios)), nrBytes, err), old(ended), err, bios, ended, nr, bytes, passed)
    {
      hide Midway, Stopped, Views, AfterCall, Status;
      nr, total, bytes, passed := nrBytes, 0, 0, 0;
      ghost var all := AfterCall(Views(bios), nrBytes, err);
      ghost var was := ended;
      ghost var started := false;
      MidwayStart(bios, ended, nrBytes, err);
      while bios != []
        invariant total + nr == nrBytes
        invariant Midway(all, was, err, bios, ended, nr, bytes, passed, started)
        invariant started && bios != [] ==> nr > 0
        invariant !started ==> passed == 0
        decreases |bios|, if bios == [] then 0 else |bios[0].vecs| - bios[0].idx - passed
      {
        var bio := bios[0];
        if nr >= bio.size {
          MidwayBio(all, was, err, bios, ended, nr, bytes, passed, started);
          bios := bios[1..];
          var _ := BioEndio(bio, bio.size, err);
          total, nr := total + bio.size, nr - bio.size;
          passed, bytes := 0, 0;
        } else {
          MidwayVec(all, was, err, bios, ended, nr, bytes, passed, started);
          var len := bio.vecs[bio.idx + passed].len;
          if len > nr {
            MidwayStop(all, was, err, bios, ended, nr, bytes, passed, started);
            bytes, total := bytes + nr, total + nr;
            return;
          }
          passed, bytes := passed + 1, bytes + len;
          total, nr := total + len, nr - len;
        }
        started := true;
        if bios != [] && nr == 0 {
          MidwayStop(all, was, err, bios, ended, nr, bytes, passed, started);
          return;
        }
      }
      MidwayEmpty(all, was, err, ended, nr, bytes, passed, started);
      bytes, passed := 0, 0;
    }

    /** blk_recalc_rq_sectors. */
    method RecalcSectors(nsect: nat)
      requires bios != []
      modifies this`hardSector, this`hardNrSectors, this`sector, this`nrSectors, this`hardCurSectors,
               this`currentNrSectors, this`botched
      ensures fs ==> hardSector == old(hardSector) + nsect && hardNrSectors == old(hardNrSectors) - nsect
      ensures fs ==> nrSectors >= currentNrSectors
      ensures !fs ==> hardSector == old(hardSector) && hardNrSectors == old(hardNrSectors)
      ensures fs && old(nrSectors) >= hardNrSectors && old(sector) <= hardSector ==>
                && sector == hardSector && hardCurSectors == CurSectors(bios[0])
                && (CurSectors(bios[0]) <= hardNrSectors ==>
                      nrSectors == hardNrSectors && currentNrSectors == hardCurSectors && botched == old(botched))
    {
      if fs {
        hardSector := hardSector + nsect;
        hardNrSectors := hardNrSectors - nsect;
        if nrSectors >= hardNrSectors && sector <= hardSector {
          sector := hardSector;
          nrSectors := hardNrSectors;
          hardCurSectors := CurSectors(bios[0]);
          currentNrSectors := hardCurSectors;
        }
        if nrSectors < currentNrSectors {
          botched := true;
          nrSectors := currentNrSectors;
        }
      }
    }

    /** The state update for a first bio that is not complete. */
    method AdvanceFirst(err: int, nr: nat, bytes: nat, passed: nat)
      requires bios != [] && bios[0].idx + passed < |bios[0].vecs|
      requires bytes < bios[0].size && nr <= bios[0].vecs[bios[0].idx + passed].len
      modifies this`bios, this`ended
      ensures bios == old(bios)[0 := Advanced(old(bios)[0], passed, bytes, nr, err)] && ended == old(ended)
    {
      var bio := BioEndio(bios[0], bytes, err);
      bio := bio.(idx := bio.idx + passed);
      var v := bio.vecs[bio.idx];
      bio := bio.(vecs := bio.vecs[bio.idx := v.(offset := v.offset + nr, len := v.len - nr)]);
      bios := bios[0 := bio];
    }

    /** __end_that_request_first: whatever the cut, one pass of the specification. */
    method EndFirst(err: int, nrBytes: nat) returns (more: bool)
      requires AllWellFormed(bios)
      modifies this
      ensures AllWellFormed(bios)
      ensures var all := AfterCall(Views(old(bios)), nrBytes, err);
              Views(bios) == all.rest && ended == old(ended) + all.ended
      ensures more <==> bios != []
      ensures fs && more ==> hardSector == old(hardSector) + nrBytes / SECTOR
      ensures fs ==> hardSector + hardNrSectors == old(hardSector + hardNrSectors)
      ensures old(Accounted()) && nrBytes % SECTOR == 0 && more ==> Accounted() && botched == old(botched)
    {
      hide Contiguous, Total, CurSectors;
      hide Status, AfterCall, Stopped, Views, AllWellFormed, Advanced;
      ghost var all := AfterCall(Views(bios), nrBytes, err);
      ghost var was := ended;
      var nr, total, bytes, passed := Walk(err, nrBytes);
      if bios == [] {
        EpilogueSame(all, was, err, bios, ended, nr, passed);
        return false;
      }
      if bytes > 0 {
        EpilogueAdvance(all, was, err, bios, ended, nr, bytes, passed);
        AdvanceFirst(err, nr, bytes, passed);
      } else {
        EpilogueSame(all, was, err, bios, ended, nr, passed);
      }
      RecalcSectors(total / SECTOR);
      if old(Accounted()) && nrBytes % SECTOR == 0 {
        NotBotched(old(bios), bios, nrBytes, err, old(hardSector), old(hardNrSectors));
      }
      return true;
    }
  }

  lemma NotBotched(was: seq<Bio>, bs: seq<Bio>, n: nat, err: int, at: nat, sectors: int)
    requires Contiguous(Views(was), at) && SECTOR * sectors == Total(Views(was)) && n % SECTOR == 0
    requires bs != [] && AllWellFormed(bs) && Views(bs) == AfterCall(Views(was), n, err).rest
    ensures Contiguous(Views(bs), at + n / SECTOR) && SECTOR * (sectors - n / SECTOR) == Total(Views(bs))
    ensures CurSectors(bs[0]) <= sectors - n / SECTOR
  {
    hide AfterCall, Contiguous;
    CallSectors(Views(was), n, err, at);
    assert Total(Views(bs)) >= View(bs[0]).size;
    assert CurSectors(bs[0]) * SECTOR <= View(bs[0]).size;
  }

  lemma EpilogueSame(all: Result, was: seq<Ended>, err: int, bs: seq<Bio>, ended: seq<Ended>, nr: nat, passed: nat)
    requires Stopped(all, was, err, bs, ended, nr, 0, passed)
    ensures AllWellFormed(bs)
    ensures Views(bs) == all.rest && ended == was + all.ended
  {
  }

  lemma EpilogueAdvance(all: Result, was: seq<Ended>, err: int, bs: seq<Bio>, ended: seq<Ended>,
                        nr: nat, bytes: nat, passed: nat)
    requires Stopped(all, was, err, bs, ended, nr, bytes, passed) && bytes > 0
    ensures bs != []
    ensures bs[0].idx + passed < |bs[0].vecs| && nr <= bytes < bs[0].size && nr <= bs[0].vecs[bs[0].idx + passed].len
    ensures var bs' := bs[0 := Advanced(bs[0], passed, bytes, nr, err)];
            AllWellFormed(bs') && Views(bs') == all.rest && ended == was + all.ended
  {
    hide After, Passed, Trim, Advanced, Sized;
    AdvancedIsTrim(bs[0], passed, bytes, nr, err);
    PendingWithin(Views(bs), bytes, err, true);
    var bs' := bs[0 := Advanced(bs[0], passed, bytes, nr, err)];
    assert Views(bs') == [Trim(View(bs[0]), Fill(bytes, err))] + Views(bs)[1..];
  }
}
