/** Merges into queued requests, runs of the scheduler's operations, and the forced drain: when next_rq is set
    while something is queued, and when it is the best request. */
module AnticipatoryRuns {
  import opened Options
  import opened Anticipatory

  /** A request grown by k sectors at its front. */
  function Grown(rq: Request, k: nat): Request
    requires k <= rq.sector
  {
    Request(rq.id, rq.sector - k, rq.sectors + k)
  }

  /** The list without request i, which next_rq may still point to while it is being changed into rq. */
  function TakenOut(l: Lane, i: nat, rq: Request): Lane
    requires i < |l.sort|
  {
    l.(sort := Without(l.sort, i), next := if l.next == Some(l.sort[i]) then Some(rq) else l.next)
  }

  /** as_merged_request after a front merge: the request is taken out and put back, and next_rq, which
      may point to it, is not chosen again. */
  function FrontMerged(l: Lane, i: nat, k: nat): Lane
    requires Sorted(l.sort) && i < |l.sort| && k <= l.sort[i].sector
  {
    var rq := Grown(l.sort[i], k);
    var mid := TakenOut(l, i, rq);
    WithoutSorted(l.sort, i);
    PlaceBetween(mid.sort, rq.sector);
    UnaliasedFits(mid, rq);
    var l' := Unaliased(mid, rq.sector);
    l'.(sort := Inserted(l'.sort, Place(mid.sort, rq.sector), rq))
  }

  /** Another request starts where the grown one does. */
  predicate HasAlias(l: Lane, i: nat, k: nat)
    requires Sorted(l.sort) && i < |l.sort| && k <= l.sort[i].sector
  {
    Aliased(Without(l.sort, i), l.sort[i].sector - k)
  }

  /** A back merge changes neither the order nor the choice. */
  function BackMerged(l: Lane, i: nat, k: nat): Lane
    requires i < |l.sort|
  {
    var rq := l.sort[i].(sectors := l.sort[i].sectors + k);
    l.(sort := l.sort[i := rq], next := if l.next == Some(l.sort[i]) then Some(rq) else l.next)
  }

  /** next_rq is NULL or queued. */
  predicate Held(l: Lane) { l.next.Some? ==> l.next.value in l.sort }

  /** A front merge onto the sector of another request leaves next_rq set exactly if there is a third one,
      whatever it was before; any other front merge leaves it set exactly if it was. */
  lemma FrontMergeLinked(l: Lane, i: nat, k: nat)
    requires Sorted(l.sort) && Held(l) && i < |l.sort| && k <= l.sort[i].sector
    ensures var l' := FrontMerged(l, i, k);
            && Sorted(l'.sort) && Held(l')
            && (Linked(l') <==> if HasAlias(l, i, k) then |l.sort| > 2 else Linked(l))
            && |l'.sort| == (if HasAlias(l, i, k) then |l.sort| - 1 else |l.sort|)
  {
    hide FindNext, Without, Place, Sorted, Moved, Inserted;
    var rq := Grown(l.sort[i], k);
    var mid := TakenOut(l, i, rq);
    WithoutSorted(l.sort, i);
    PlaceBetween(mid.sort, rq.sector);
    UnaliasedFits(mid, rq);
    var p := Place(mid.sort, rq.sector);
    InsertedSorted(Unaliased(mid, rq.sector).sort, p, rq);
    InsertedLength(Unaliased(mid, rq.sector).sort, p, rq);
    if HasAlias(l, i, k) {
      MovedIs(mid, p);
      WithoutSorted(mid.sort, p);
      FindNextOther(mid.sort[p].sector + mid.sort[p].sectors, mid.sort, p);
    }
  }

  lemma InsertedLength(sort: seq<Request>, p: nat, rq: Request)
    requires p <= |sort|
    ensures |Inserted(sort, p, rq)| == |sort| + 1
  {
  }

  lemma IsBestIn(last: nat, sort: seq<Request>, r: Request)
    ensures IsBest(last, sort, r) <==> r in sort && forall x :: x in sort ==> x == r || TakesFirst(last, r, x)
  {
    hide TakesFirst;
  }

  lemma InsertedHolds(sort: seq<Request>, p: nat, rq: Request)
    requires p <= |sort|
    ensures forall x :: x in Inserted(sort, p, rq) <==> x in sort || x == rq
  {
    assert sort == sort[..p] + sort[p..];
  }

  lemma BestAmong(last: nat, sort: seq<Request>, p: nat, rq: Request, best: Request)
    requires p <= |sort| && best in sort && best != rq
    ensures IsBest(last, Inserted(sort, p, rq), best) <==> IsBest(last, sort, best) && TakesFirst(last, best, rq)
  {
    hide TakesFirst, Inserted, IsBest;
    InsertedHolds(sort, p, rq);
    IsBestIn(last, sort, best);
    IsBestIn(last, Inserted(sort, p, rq), best);
  }

  lemma NewBest(last: nat, sort: seq<Request>, p: nat, rq: Request, best: Request)
    requires p <= |sort| && IsBest(last, sort, best) && forall k :: 0 <= k < |sort| ==> sort[k].sector != rq.sector
    ensures IsBest(last, Inserted(sort, p, rq), rq) <==> TakesFirst(last, rq, best)
  {
    hide TakesFirst, Inserted, IsBest;
    InsertedHolds(sort, p, rq);
    IsBestIn(last, sort, best);
    IsBestIn(last, Inserted(sort, p, rq), rq);
    if TakesFirst(last, rq, best) {
      forall x | x in sort ensures TakesFirst(last, rq, x) {
        TakesFirstOrder(last, rq, best, x);
      }
    }
  }

  /** The front merge leaves the best request cached.  With an alias: there is a third request, the way past the
      alias is clear, and what is behind it beats the grown request.  Otherwise: the cached request still beats
      the grown one, or, being it, the best of the others. */
  predicate StaysBest(l: Lane, i: nat, k: nat)
    requires Sorted(l.sort) && i < |l.sort| && k <= l.sort[i].sector
  {
    var rq := Grown(l.sort[i], k);
    var mid := Without(l.sort, i);
    if HasAlias(l, i, k) then
      var p := Place(mid, rq.sector);
      var end := mid[p].sector + mid[p].sectors;
      var next := FindNext(end, mid, p);
      next.Some? && ClearAhead(mid, p) && TakesFirst(end, next.value, rq)
    else if l.next == Some(l.sort[i]) then
      var next := FindNext(l.last, l.sort, i);
      next.None? || TakesFirst(l.last, rq, next.value)
    else
      l.next.Some? && TakesFirst(l.last, l.next.value, rq)
  }

  /** The alias of a front merge is not longer than the scheduler looks back. */
  predicate ShortAlias(l: Lane, i: nat, k: nat)
    requires Sorted(l.sort) && i < |l.sort| && k <= l.sort[i].sector
  {
    HasAlias(l, i, k) ==> var mid := Without(l.sort, i); mid[Place(mid, l.sort[i].sector - k)].sectors <= MAXBACK
  }

  lemma FrontMergeBest(l: Lane, i: nat, k: nat)
    requires Sorted(l.sort) && Best(l) && i < |l.sort| && k <= l.sort[i].sector && ShortAlias(l, i, k)
    ensures Best(FrontMerged(l, i, k)) <==> StaysBest(l, i, k)
  {
    hide TakesFirst, FindNext, Place, Moved, ClearAhead, Without, Inserted, IsBest, Sorted;
    if HasAlias(l, i, k) {
      AliasBest(l, i, k);
    } else if l.next == Some(l.sort[i]) {
      CachedBest(l, i, k);
    } else {
      OtherBest(l, i, k);
    }
  }

  lemma AliasBest(l: Lane, i: nat, k: nat)
    requires Sorted(l.sort) && Best(l) && i < |l.sort| && k <= l.sort[i].sector && ShortAlias(l, i, k)
    requires HasAlias(l, i, k)
    ensures Best(FrontMerged(l, i, k)) <==> StaysBest(l, i, k)
  {
    hide TakesFirst, FindNext, Place, Moved, ClearAhead, Without, Inserted, IsBest;
    var rq := Grown(l.sort[i], k);
    var mid := TakenOut(l, i, rq);
    WithoutSorted(l.sort, i);
    PlaceBetween(mid.sort, rq.sector);
    UnaliasedFits(mid, rq);
    var p := Place(mid.sort, rq.sector);
    MovedIs(mid, p);
    MoveBest(mid, p);
    WithoutSorted(mid.sort, p);
    var end := mid.sort[p].sector + mid.sort[p].sectors;
    FindNextOther(end, mid.sort, p);
    InsertedLength(Without(mid.sort, p), p, rq);
    if |mid.sort| > 1 {
      var best := FindNext(end, mid.sort, p).value;
      OtherSector(mid.sort, p, best);
      BestAmong(end, Without(mid.sort, p), p, rq, best);
    }
  }

  lemma OtherSector(sort: seq<Request>, p: nat, r: Request)
    requires Sorted(sort) && p < |sort| && r in sort && r != sort[p]
    ensures r.sector != sort[p].sector
  {
  }

  /** Without an alias the grown request goes back into the list it was taken from. */
  lemma PutBack(l: Lane, i: nat, k: nat)
    requires Sorted(l.sort) && i < |l.sort| && k <= l.sort[i].sector && !HasAlias(l, i, k)
    ensures var rq := Grown(l.sort[i], k); var mid := TakenOut(l, i, rq); var p := Place(mid.sort, rq.sector);
            && p <= |mid.sort| && FrontMerged(l, i, k) == mid.(sort := Inserted(mid.sort, p, rq))
            && forall j :: 0 <= j < |mid.sort| ==> mid.sort[j].sector != rq.sector
  {
    hide Place, Without, Inserted, Moved;
    var rq := Grown(l.sort[i], k);
    WithoutSorted(l.sort, i);
    PlaceBetween(Without(l.sort, i), rq.sector);
    FitsFree(Without(l.sort, i), Place(Without(l.sort, i), rq.sector), rq);
  }

  lemma CachedBest(l: Lane, i: nat, k: nat)
    requires Sorted(l.sort) && Best(l) && i < |l.sort| && k <= l.sort[i].sector
    requires !HasAlias(l, i, k) && l.next == Some(l.sort[i])
    ensures Best(FrontMerged(l, i, k)) <==> StaysBest(l, i, k)
  {
    hide TakesFirst, FindNext, Place, Without, FrontMerged;
    var rq := Grown(l.sort[i], k);
    var mid := Without(l.sort, i);
    PutBack(l, i, k);
    WithoutSorted(l.sort, i);
    FindNextOther(l.last, l.sort, i);
    if |l.sort| > 1 {
      NeighboursBest(l.last, l.sort, i);
      NewBest(l.last, mid, Place(mid, rq.sector), rq, FindNext(l.last, l.sort, i).value);
    }
  }

  lemma OtherBest(l: Lane, i: nat, k: nat)
    requires Sorted(l.sort) && Best(l) && i < |l.sort| && k <= l.sort[i].sector
    requires !HasAlias(l, i, k) && l.next != Some(l.sort[i])
    ensures Best(FrontMerged(l, i, k)) <==> StaysBest(l, i, k)
  {
    hide TakesFirst, FindNext, Place, Without, FrontMerged;
    var rq := Grown(l.sort[i], k);
    var mid := Without(l.sort, i);
    PutBack(l, i, k);
    StillBest(l.last, l.sort, i, l.next.value);
    BestAmong(l.last, mid, Place(mid, rq.sector), rq, l.next.value);
  }

  lemma BackMergeKeeps(l: Lane, i: nat, k: nat)
    requires Sorted(l.sort) && i < |l.sort|
    ensures Sorted(BackMerged(l, i, k).sort)
    ensures Best(l) ==> Best(BackMerged(l, i, k))
    ensures Held(l) ==> Held(BackMerged(l, i, k)) && (Linked(BackMerged(l, i, k)) <==> Linked(l))
  {
    var l' := BackMerged(l, i, k);
    assert l'.sort[i] == l.sort[i].(sectors := l.sort[i].sectors + k);
    if l.next.Some? && l.next.value in l.sort {
      var at :| 0 <= at < |l.sort| && l.sort[at] == l.next.value;
      assert l'.sort[at] == l'.next.value;
    }
  }

  datatype Op =
    | Add(rq: Request)
    | Remove(i: nat)
    | Dispatch(i: nat)
    | BackMerge(i: nat, k: nat)
    | FrontMerge(i: nat, k: nat)

  predicate Legal(l: Lane, op: Op) {
    op.Add? || (op.i < |l.sort| && (op.FrontMerge? ==> op.k <= l.sort[op.i].sector))
  }

  function Step(l: Lane, op: Op): Lane
    requires Sorted(l.sort) && Legal(l, op)
  {
    match op
    case Add(rq) => Added(l, rq)
    case Remove(i) => Removed(l, i)
    case Dispatch(i) => Moved(l, i)
    case BackMerge(i, k) => BackMerged(l, i, k)
    case FrontMerge(i, k) => FrontMerged(l, i, k)
  }

  /** The request this operation dispatches, if any, has a clear way ahead, and a front merge does not change
      which request is the best one. */
  predicate Clear(l: Lane, op: Op)
    requires Sorted(l.sort) && Legal(l, op)
  {
    match op
    case Add(rq) =>
      Aliased(l.sort, rq.sector) ==>
        var p := Place(l.sort, rq.sector); l.sort[p].sectors <= MAXBACK && ClearAhead(l.sort, p)
    case Remove(_) => true
    case Dispatch(i) => l.sort[i].sectors <= MAXBACK && ClearAhead(l.sort, i)
    case BackMerge(_, _) => true
    case FrontMerge(i, k) => ShortAlias(l, i, k) && StaysBest(l, i, k)
  }

  /** Whether next_rq is set after the operation while something is queued, given whether it was before: adding
      and dispatching set it right, and only a front merge can lose it. */
  predicate StillLinked(linked: bool, l: Lane, op: Op)
    requires Sorted(l.sort) && Legal(l, op)
  {
    match op
    case Add(_) => true
    case Remove(_) => linked || |l.sort| == 1
    case Dispatch(_) => true
    case BackMerge(_, _) => linked
    case FrontMerge(i, k) => if HasAlias(l, i, k) then |l.sort| > 2 else linked
  }

  /** What the operation adds to nr_sorted. */
  function Delta(l: Lane, op: Op): int
    requires Sorted(l.sort) && Legal(l, op)
  {
    match op
    case Add(rq) => if Aliased(l.sort, rq.sector) then 0 else 1
    case Remove(_) => -1
    case Dispatch(_) => -1
    case BackMerge(_, _) => 0
    case FrontMerge(i, k) => if HasAlias(l, i, k) then -1 else 0
  }

  lemma EnterLinks(l: Lane, p: nat, rq: Request)
    requires Held(l) && p <= |l.sort|
    ensures Held(Entered(l, p, rq)) && Linked(Entered(l, p, rq)) && |Entered(l, p, rq).sort| == |l.sort| + 1
  {
    hide Inserted, TakesFirst;
    InsertedHolds(l.sort, p, rq);
    InsertedLength(l.sort, p, rq);
  }

  lemma AddLinks(l: Lane, rq: Request)
    requires Sorted(l.sort) && Held(l)
    ensures var l' := Added(l, rq); Sorted(l'.sort) && Held(l') && Linked(l')
    ensures |Added(l, rq).sort| == |l.sort| + Delta(l, Add(rq))
  {
    hide Place, Moved, Sorted, Fits, Entered, Aliased, Held, Linked, Best, ClearAhead, FindNext;
    AddKeeps(l, rq);
    UnaliasedFits(l, rq);
    var p := Place(l.sort, rq.sector);
    if Aliased(l.sort, rq.sector) {
      AliasedAt(l, rq);
    }
    EnterLinks(Unaliased(l, rq.sector), p, rq);
  }

  lemma AliasedAt(l: Lane, rq: Request)
    requires Sorted(l.sort) && Aliased(l.sort, rq.sector)
    ensures Held(Unaliased(l, rq.sector)) && |Unaliased(l, rq.sector).sort| == |l.sort| - 1
  {
    hide Place, Moved, Sorted, FindNext, Without;
    var p := Place(l.sort, rq.sector);
    MovedIs(l, p);
    MoveLinks(l, p);
    WithoutSorted(l.sort, p);
  }

  lemma RemoveLinks(l: Lane, i: nat)
    requires Sorted(l.sort) && Held(l) && i < |l.sort|
    ensures var l' := Removed(l, i);
            Sorted(l'.sort) && Held(l') && (Linked(l') <==> Linked(l) || |l.sort| == 1) && |l'.sort| == |l.sort| - 1
  {
    hide FindNext, Without;
    WithoutSorted(l.sort, i);
    FindNextOther(l.last, l.sort, i);
  }

  /** Every operation keeps next_rq NULL or queued and the list sorted, counts as nr_sorted does, and leaves next_rq
      set exactly as predicted. */
  lemma StepLinked(l: Lane, op: Op)
    requires Sorted(l.sort) && Held(l) && Legal(l, op)
    ensures var l' := Step(l, op);
            && Sorted(l'.sort) && Held(l') && (Linked(l') <==> StillLinked(Linked(l), l, op))
            && |l'.sort| == |l.sort| + Delta(l, op)
  {
    hide Linked, Held, Sorted, Added, Moved, Removed, Place, FrontMerged, HasAlias, BackMerged;
    match op
    case Add(rq) => AddLinks(l, rq);
    case Remove(i) => RemoveLinks(l, i);
    case Dispatch(i) => {
      MoveLinks(l, i);
      MovedIs(l, i);
      WithoutSorted(l.sort, i);
      LinkedHeld(Moved(l, i));
    }
    case BackMerge(i, k) => {
      BackMergeKeeps(l, i, k);
      BackMergeLength(l, i, k);
    }
    case FrontMerge(i, k) => FrontMergeLinked(l, i, k);
  }

  lemma LinkedHeld(l: Lane)
    ensures Linked(l) ==> Held(l)
    ensures Held(l) ==> (Linked(l) <==> l.next.Some? || l.sort == [])
  {
  }

  lemma BackMergeLength(l: Lane, i: nat, k: nat)
    requires i < |l.sort|
    ensures |BackMerged(l, i, k).sort| == |l.sort|
  {
  }

  lemma StepBest(l: Lane, op: Op)
    requires Sorted(l.sort) && Legal(l, op) && Best(l) && Clear(l, op)
    ensures Best(Step(l, op))
  {
    hide Best, Linked, Sorted, ClearAhead, Added, Moved, Removed, Place, FrontMerged, StaysBest, BackMerged;
    match op
    case Add(rq) => AddKeeps(l, rq);
    case Remove(i) => RemoveKeepsBest(l, i);
    case Dispatch(i) => MoveBest(l, i);
    case BackMerge(i, k) => BackMergeKeeps(l, i, k);
    case FrontMerge(i, k) => FrontMergeBest(l, i, k);
  }

  ghost predicate Runs(l: Lane, ops: seq<Op>)
    decreases |ops|
  {
    Sorted(l.sort) && (ops == [] || (Legal(l, ops[0]) && Runs(Step(l, ops[0]), ops[1..])))
  }

  function Run(l: Lane, ops: seq<Op>): Lane
    requires Runs(l, ops)
    decreases |ops|
  {
    if ops == [] then l else Run(Step(l, ops[0]), ops[1..])
  }

  ghost predicate AllClear(l: Lane, ops: seq<Op>)
    requires Runs(l, ops)
    decreases |ops|
  {
    ops == [] || (Clear(l, ops[0]) && AllClear(Step(l, ops[0]), ops[1..]))
  }

  /** Over every run in which each step had a clear way, the cached request is the best one. */
  lemma {:induction false} RunBest(l: Lane, ops: seq<Op>)
    requires Runs(l, ops) && Best(l) && AllClear(l, ops)
    ensures Best(Run(l, ops))
    decreases |ops|
  {
    hide Best, Sorted, Clear, Step, Legal;
    if ops != [] {
      StepBest(l, ops[0]);
      RunBest(Step(l, ops[0]), ops[1..]);
    }
  }

  /** The scheduler: a list for each direction, and the elevator's count of sorted requests. */
  datatype Sched = Sched(sync: Lane, async: Lane, nrSorted: int)

  datatype Event = Event(sync: bool, op: Op)

  function Side(s: Sched, sync: bool): Lane { if sync then s.sync else s.async }

  const Empty := Lane([], None, 0, [])

  predicate InOrder(s: Sched) { Sorted(s.sync.sort) && Sorted(s.async.sort) }

  predicate Possible(s: Sched, e: Event) { InOrder(s) && Legal(Side(s, e.sync), e.op) }

  function Next(s: Sched, e: Event): Sched
    requires Possible(s, e)
  {
    var l := Side(s, e.sync);
    var l' := Step(l, e.op);
    var nr := s.nrSorted + Delta(l, e.op);
    if e.sync then Sched(l', s.async, nr) else Sched(s.sync, l', nr)
  }

  ghost predicate Plays(s: Sched, es: seq<Event>)
    decreases |es|
  {
    es == [] || (Possible(s, es[0]) && Plays(Next(s, es[0]), es[1..]))
  }

  function Played(s: Sched, es: seq<Event>): Sched
    requires Plays(s, es)
    decreases |es|
  {
    if es == [] then s else Played(Next(s, es[0]), es[1..])
  }

  /** What holds after every event: next_rq is NULL or queued, and nr_sorted counts both lists. */
  predicate Counted(s: Sched) {
    InOrder(s) && Held(s.sync) && Held(s.async) && s.nrSorted == |s.sync.sort| + |s.async.sort|
  }

  /** Whether next_rq of a direction is set at the end while something is queued there; only the events of that
      direction matter. */
  predicate EndsLinked(linked: bool, s: Sched, es: seq<Event>, sync: bool)
    requires Plays(s, es)
    decreases |es|
  {
    if es == [] then linked
    else
      var now := if es[0].sync == sync then StillLinked(linked, Side(s, sync), es[0].op) else linked;
      EndsLinked(now, Next(s, es[0]), es[1..], sync)
  }

  lemma NextCounted(s: Sched, e: Event, sync: bool)
    requires Counted(s) && Possible(s, e)
    ensures Counted(Next(s, e))
    ensures Linked(Side(Next(s, e), sync)) <==>
            if e.sync == sync then StillLinked(Linked(Side(s, sync)), Side(s, sync), e.op) else Linked(Side(s, sync))
  {
    hide Linked, Held, Sorted, Step, Legal, Delta, StillLinked;
    StepLinked(Side(s, e.sync), e.op);
  }

  lemma {:induction false} PlayedCounted(s: Sched, es: seq<Event>, sync: bool)
    requires Counted(s) && Plays(s, es)
    ensures Counted(Played(s, es))
    ensures Linked(Side(Played(s, es), sync)) <==> EndsLinked(Linked(Side(s, sync)), s, es, sync)
    decreases |es|
  {
    hide Linked, Counted, Next, Possible, StillLinked;
    if es != [] {
      NextCounted(s, es[0], sync);
      PlayedCounted(Next(s, es[0]), es[1..], sync);
    }
  }

  function IndexOf(sort: seq<Request>, r: Request): (i: nat)
    requires r in sort
    ensures i < |sort| && sort[i] == r
  {
    if sort[0] == r then 0 else 1 + IndexOf(sort[1..], r)
  }

  /** The loop of as_dispatch_request over one direction: the cached request goes until there is none. */
  function Drained(l: Lane): (r: Lane)
    requires Sorted(l.sort) && Held(l)
    decreases |l.sort|
  {
    if l.next.None? then l
    else
      var i := IndexOf(l.sort, l.next.value);
      MoveLinks(l, i);
      MovedIs(l, i);
      WithoutSorted(l.sort, i);
      Drained(Moved(l, i))
  }

  /** The loop hands over everything, each request once, if next_rq was set while something was queued, and
      otherwise nothing. */
  lemma {:induction false} DrainedIs(l: Lane)
    requires Sorted(l.sort) && Held(l)
    ensures Linked(l) ==>
              && Drained(l).sort == [] && Drained(l).next.None?
              && multiset(Drained(l).out) == multiset(l.out) + multiset(l.sort)
    ensures !Linked(l) ==> Drained(l) == l && l.sort != []
    decreases |l.sort|
  {
    hide Sorted, Moved, FindNext, IndexOf, Without;
    if l.next.Some? {
      var i := IndexOf(l.sort, l.next.value);
      MoveLinks(l, i);
      MovedIs(l, i);
      WithoutSorted(l.sort, i);
      assert l.sort[i] in l.sort;
      DrainedIs(Moved(l, i));
    }
  }

  /** elv_drain_elevator: both directions are drained, and nr_sorted falls by the number of requests that went. */
  function ForceDrained(s: Sched): Sched
    requires Counted(s)
  {
    var a, b := Drained(s.sync), Drained(s.async);
    Sched(a, b, s.nrSorted - (|a.out| - |s.sync.out|) - (|b.out| - |s.async.out|))
  }

  lemma DrainedCount(l: Lane)
    requires Sorted(l.sort) && Held(l)
    ensures |Drained(l).out| - |l.out| == |l.sort| - |Drained(l).sort|
  {
    hide Drained, Sorted;
    DrainedIs(l);
    assert |multiset(Drained(l).out)| == |Drained(l).out|;
    assert |multiset(l.out)| == |l.out| && |multiset(l.sort)| == |l.sort|;
  }

  /** After every run from an empty scheduler the forced drain leaves both lists empty, and nr_sorted zero, exactly
      if next_rq was left set in both directions. */
  lemma ForcedDrainExact(es: seq<Event>)
    requires Plays(Sched(Empty, Empty, 0), es)
    ensures var start := Sched(Empty, Empty, 0);
            var s := Played(start, es);
            && Counted(s)
            && var d := ForceDrained(s);
               && (d.sync.sort == [] && d.async.sort == [] <==>
                     EndsLinked(true, start, es, true) && EndsLinked(true, start, es, false))
               && (d.nrSorted == 0 <==> d.sync.sort == [] && d.async.sort == [])
  {
    hide Drained, Plays, Played, EndsLinked;
    var start := Sched(Empty, Empty, 0);
    PlayedCounted(start, es, true);
    PlayedCounted(start, es, false);
    var s := Played(start, es);
    DrainedIs(s.sync);
    DrainedIs(s.async);
    DrainedCount(s.sync);
    DrainedCount(s.async);
  }

  /** Reads at sectors 8 and 16, eight sectors each, and another read of sectors 8 to 15 merged into the second at
      its front: the first goes to the dispatch queue, and nothing is cached for the second, which the forced
      drain leaves behind. */
  const Broken := [
    Event(true, Add(Request(0, 8, 8))), Event(true, Add(Request(1, 16, 8))), Event(true, FrontMerge(1, 8))]

  lemma BrokenAdds()
    ensures var a, b := Request(0, 8, 8), Request(1, 16, 8);
            && Added(Empty, a) == Lane([a], Some(a), 0, [])
            && Sorted([a]) && Added(Lane([a], Some(a), 0, []), b) == Lane([a, b], Some(a), 0, [])
  {
    var a, b := Request(0, 8, 8), Request(1, 16, 8);
    assert Place([a], 16) == 1 + Place([a][1..], 16) == 1;
  }

  lemma BrokenMerge()
    ensures var a, b := Request(0, 8, 8), Request(1, 16, 8);
            var l := Lane([a, b], Some(a), 0, []);
            && Sorted(l.sort) && HasAlias(l, 1, 8)
            && FrontMerged(l, 1, 8) == Lane([Request(1, 8, 16)], None, 16, [a])
  {
    var a, b := Request(0, 8, 8), Request(1, 16, 8);
    assert Without([a, b], 1) == [a] && Place([a], 8) == 0 && Without([a], 0) == [];
  }

  lemma DrainBroken()
    ensures Plays(Sched(Empty, Empty, 0), Broken)
    ensures var s := Played(Sched(Empty, Empty, 0), Broken);
            && s == Sched(Lane([Request(1, 8, 16)], None, 16, [Request(0, 8, 8)]), Empty, 1)
            && Counted(s) && ForceDrained(s) == s
  {
    hide Added, FrontMerged, HasAlias, Aliased;
    var a, b := Request(0, 8, 8), Request(1, 16, 8);
    var l1, l2 := Lane([a], Some(a), 0, []), Lane([a, b], Some(a), 0, []);
    var l3 := Lane([Request(1, 8, 16)], None, 16, [a]);
    BrokenAdds();
    BrokenMerge();
    var s0, s1, s2, s3 := Sched(Empty, Empty, 0), Sched(l1, Empty, 1), Sched(l2, Empty, 2), Sched(l3, Empty, 1);
    NextCounted(s0, Broken[0], true);
    NextCounted(s1, Broken[1], true);
    assert Next(s0, Broken[0]) == s1 && Next(s1, Broken[1]) == s2 && Next(s2, Broken[2]) == s3;
    assert Broken[1..][0] == Broken[1] && Broken[1..][1..][0] == Broken[2] && Broken[1..][1..][1..] == [];
    assert Played(s3, Broken[1..][1..][1..]) == s3;
  }
}
