/** The scheduler's operations as they update the lists and the cached requests in place. */
module AnticipatoryQueue {
  import opened Options
  import opened Anticipatory
  import opened AnticipatoryRuns

  /** The place as_add_rq_rb finds is in the list it leaves. */
  predicate PlaceIn(l: Lane, rq: Request) { Place(l.sort, rq.sector) <= |Unaliased(l, rq.sector).sort| }

  function PutIn(l: Lane, rq: Request): Lane
    requires PlaceIn(l, rq)
  {
    var free := Unaliased(l, rq.sector);
    free.(sort := Inserted(free.sort, Place(l.sort, rq.sector), rq))
  }

  lemma {:induction false} PlaceOfFit(sort: seq<Request>, p: nat, rq: Request)
    requires p <= |sort| && Fits(sort, p, rq)
    ensures Place(sort, rq.sector) == p
  {
    if sort != [] && sort[0].sector < rq.sector {
      PlaceOfFit(sort[1..], p - 1, rq);
    }
  }

  /** Once the alias is gone the same place is free. */
  lemma UnaliasedPlace(l: Lane, rq: Request)
    requires Sorted(l.sort)
    ensures var p, free := Place(l.sort, rq.sector), Unaliased(l, rq.sector);
            && p <= |l.sort| && (Aliased(l.sort, rq.sector) <==> p < |l.sort| && l.sort[p].sector == rq.sector)
            && free == (if Aliased(l.sort, rq.sector) then Moved(l, p) else l)
            && |free.sort| == (if Aliased(l.sort, rq.sector) then |l.sort| - 1 else |l.sort|)
            && Sorted(free.sort) && p <= |free.sort| && Place(free.sort, rq.sector) == p
            && (p < |free.sort| ==> free.sort[p].sector != rq.sector)
  {
    hide Moved, FindNext, Place;
    PlaceBetween(l.sort, rq.sector);
    UnaliasedFits(l, rq);
    PlaceOfFit(Unaliased(l, rq.sector).sort, Place(l.sort, rq.sector), rq);
    if Aliased(l.sort, rq.sector) {
      MovedIs(l, Place(l.sort, rq.sector));
    }
  }

  lemma InsertedIs(sort: seq<Request>, p: nat, rq: Request)
    requires p <= |sort|
    ensures Inserted(sort, p, rq) == sort[..p] + [rq] + sort[p..]
  {
  }

  lemma DrainStep(l: Lane)
    requires Sorted(l.sort) && Held(l)
    ensures l.next.None? ==> Drained(l) == l
    ensures l.next.Some? ==>
              && l.next.value in l.sort
              && var l' := Moved(l, IndexOf(l.sort, l.next.value));
                 Sorted(l'.sort) && Held(l') && |l'.sort| == |l.sort| - 1 && Drained(l') == Drained(l)
  {
    hide Moved, Sorted, IndexOf, FindNext;
    if l.next.Some? {
      var i := IndexOf(l.sort, l.next.value);
      MoveLinks(l, i);
      MovedIs(l, i);
      WithoutSorted(l.sort, i);
    }
  }

  /** The lists of one direction as the scheduler updates them. */
  class Queue {
    var sort: seq<Request>
    var next: Option<Request>
    var last: nat
    /** What was handed to the dispatch queue, in order. */
    var out: seq<Request>

    constructor ()
      ensures View() == Empty
    {
      sort, next, last, out := [], None, 0, [];
    }

    function View(): Lane
      reads this
    {
      Lane(sort, next, last, out)
    }

    /** The descent of elv_rb_add. */
    method FindPlace(s: nat) returns (p: nat)
      requires Sorted(sort)
      ensures p == Place(sort, s)
    {
      p := 0;
      while p < |sort| && sort[p].sector < s
        invariant p <= |sort| && Place(sort, s) == p + Place(sort[p..], s)
      {
        assert sort[p..][1..] == sort[p + 1..];
        p := p + 1;
      }
    }

    method Locate(rq: Request) returns (i: nat)
      requires Sorted(sort) && rq in sort
      ensures i == IndexOf(sort, rq)
    {
      i := 0;
      while sort[i] != rq
        invariant i < |sort| && rq in sort[i..] && IndexOf(sort, rq) == i + IndexOf(sort[i..], rq)
        decreases |sort| - i
      {
        assert sort[i..][1..] == sort[i + 1..];
        i := i + 1;
      }
    }

    method RemoveQueued(i: nat)
      requires i < |sort|
      modifies this
      ensures View() == Removed(old(View()), i)
    {
      if next == Some(sort[i]) {
        next := FindNext(last, sort, i);
      }
      sort := sort[..i] + sort[i + 1..];
    }

    method MoveToDispatch(i: nat)
      requires i < |sort|
      modifies this
      ensures View() == Moved(old(View()), i)
    {
      var rq := sort[i];
      last := rq.sector + rq.sectors;
      next := FindNext(last, sort, i);
      RemoveQueued(i);
      out := out + [rq];
    }

    /** as_add_rq_rb: requests at the same sector go to the dispatch queue first. */
    method AddRb(rq: Request)
      requires Sorted(sort)
      modifies this
      ensures PlaceIn(old(View()), rq)
      ensures View() == PutIn(old(View()), rq)
    {
      hide FindNext, Moved, Place, Sorted, Aliased, Unaliased, Inserted;
      UnaliasedPlace(View(), rq);
      ghost var free := Unaliased(View(), rq.sector);
      var p := FindPlace(rq.sector);
      ghost var at := p;
      while p < |sort| && sort[p].sector == rq.sector
        invariant Sorted(sort) && p == at && (View() == free || (View() == old(View()) && Aliased(sort, rq.sector)))
        decreases |sort|
      {
        MoveToDispatch(p);
        p := FindPlace(rq.sector);
      }
      InsertedIs(sort, p, rq);
      sort := sort[..p] + [rq] + sort[p..];
    }

    /** as_add_request. */
    method AddRequest(rq: Request)
      requires Sorted(sort)
      modifies this
      ensures View() == Added(old(View()), rq)
    {
      hide FindNext, Moved, Place, Inserted, TakesFirst;
      AddRb(rq);
      next := Choose(last, Some(rq), next);
    }

    /** as_merged_request after a front merge of k sectors. */
    method FrontMerge(i: nat, k: nat)
      requires Sorted(sort) && i < |sort| && k <= sort[i].sector
      modifies this
      ensures View() == FrontMerged(old(View()), i, k)
    {
      hide FindNext, Moved, Place, Inserted;
      var rq := Grown(sort[i], k);
      WithoutSorted(sort, i);
      next := if next == Some(sort[i]) then Some(rq) else next;
      sort := sort[..i] + sort[i + 1..];
      AddRb(rq);
    }

    /** One loop of the forced branch of as_dispatch_request: with next_rq set while something is queued all of
        it is handed over, each request once, and otherwise nothing. */
    method ForcedDispatch() returns (dispatched: nat)
      requires Sorted(sort) && Held(View())
      modifies this
      ensures View() == Drained(old(View()))
      ensures dispatched == |old(sort)| - |sort| && next.None?
      ensures sort == (if Linked(old(View())) then [] else old(sort))
      ensures multiset(out) + multiset(sort) == multiset(old(out)) + multiset(old(sort))
    {
      hide Drained, Moved, Sorted, Held, Linked, IndexOf, FindNext;
      dispatched := 0;
      while next.Some?
        invariant Sorted(sort) && Held(View()) && dispatched + |sort| == |old(sort)|
        invariant Drained(View()) == Drained(old(View()))
        decreases |sort|
      {
        DrainStep(View());
        var i := Locate(next.value);
        MoveToDispatch(i);
        dispatched := dispatched + 1;
      }
      DrainStep(View());
      DrainedIs(old(View()));
      LinkedHeld(old(View()));
    }
  }

  lemma Parts(s: Sched)
    requires Counted(s)
    ensures Sorted(s.sync.sort) && Held(s.sync) && Sorted(s.async.sort) && Held(s.async)
    ensures s.nrSorted == |s.sync.sort| + |s.async.sort|
  {
  }

  lemma DrainedParts(s: Sched)
    requires Counted(s)
    ensures var d := ForceDrained(s);
            && Sorted(s.sync.sort) && Held(s.sync) && Sorted(s.async.sort) && Held(s.async)
            && d.sync == Drained(s.sync) && d.async == Drained(s.async) && Counted(d)
            && (d.sync.sort == [] <==> Linked(s.sync)) && (d.async.sort == [] <==> Linked(s.async))
  {
    hide Drained;
    DrainedIs(s.sync);
    DrainedIs(s.async);
    DrainedCount(s.sync);
    DrainedCount(s.async);
  }

  lemma DrainedAgain(s: Sched)
    requires Counted(s) && s.sync.next.None? && s.async.next.None?
    ensures ForceDrained(s) == s
  {
  }

  /** Both directions and the elevator's count. */
  class Scheduler {
    const sync: Queue
    const async: Queue
    var nrSorted: int

    /** as_init_queue. */
    constructor ()
      ensures Valid() && View() == Sched(Empty, Empty, 0) && fresh(sync) && fresh(async)
    {
      sync := new Queue();
      async := new Queue();
      nrSorted := 0;
    }

    ghost predicate Valid()
      reads this, sync, async
    {
      sync != async && Counted(View())
    }

    function View(): Sched
      reads this, sync, async
    {
      Sched(sync.View(), async.View(), nrSorted)
    }

    /** The forced branch of as_dispatch_request. */
    method ForcedDispatch() returns (dispatched: nat)
      requires Valid()
      modifies this, sync, async
      ensures Valid() && View() == ForceDrained(old(View()))
      ensures dispatched == old(nrSorted) - nrSorted
      ensures sync.next.None? && async.next.None?
    {
      hide Counted, Drained, ForceDrained, Linked, Held, Sorted;
      Parts(View());
      var syncs := sync.ForcedDispatch();
      var asyncs := async.ForcedDispatch();
      dispatched := syncs + asyncs;
      nrSorted := nrSorted - dispatched;
      DrainedParts(old(View()));
      Parts(ForceDrained(old(View())));
    }

    /** elv_drain_elevator: `broken` is its complaint that forced dispatching is broken.  It comes exactly if a
        direction had requests queued and next_rq NULL, and then those requests stay. */
    method Drain() returns (broken: bool)
      requires Valid()
      modifies this, sync, async
      ensures Valid() && View() == ForceDrained(old(View()))
      ensures broken <==> !(Linked(old(sync.View())) && Linked(old(async.View())))
      ensures broken <==> sync.sort != [] || async.sort != []
      ensures broken <==> nrSorted != 0
    {
      hide Counted, Drained, ForceDrained, Linked, Held, Sorted;
      var dispatched := ForcedDispatch();
      DrainedParts(old(View()));
      Parts(ForceDrained(old(View())));
      while dispatched > 0
        invariant Valid() && View() == ForceDrained(old(View())) && sync.next.None? && async.next.None?
        decreases dispatched
      {
        DrainedAgain(View());
        dispatched := ForcedDispatch();
      }
      broken := nrSorted != 0;
    }
  }
}
