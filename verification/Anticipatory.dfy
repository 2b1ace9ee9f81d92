/** The anticipatory scheduler's sorted list of one direction, with its cached next request. */
module Anticipatory {
  import opened Options

  const MAXBACK := 1024 * 1024
  const BACK_PENALTY := 2

  datatype Request = Request(id: nat, sector: nat, sectors: nat)

  /** One direction: the rb-tree in order, next_rq, last_sector, and what went to the dispatch queue. */
  datatype Lane = Lane(sort: seq<Request>, next: Option<Request>, last: nat, out: seq<Request>)

  /** Too far behind the head: reached only after wrapping around. */
  predicate Wraps(last: nat, s: nat) { s < last && s + MAXBACK < last }

  function Distance(last: nat, s: nat): nat { if s >= last then s - last else (last - s) * BACK_PENALTY }

  /** as_choose_req on two different requests: the first is taken. */
  predicate TakesFirst(last: nat, a: Request, b: Request) {
    var w1, w2 := Wraps(last, a.sector), Wraps(last, b.sector);
    if w1 != w2 then w2
    else if w1 then a.sector <= b.sector
    else if Distance(last, a.sector) != Distance(last, b.sector)
    then Distance(last, a.sector) < Distance(last, b.sector)
    else a.sector >= b.sector
  }

  /** as_choose_req. */
  function Choose(last: nat, a: Option<Request>, b: Option<Request>): Option<Request> {
    if a.None? || a == b then b else if b.None? then a
    else if TakesFirst(last, a.value, b.value) then a else b
  }

  /** as_find_next_rq: only the neighbours of sort[i], and the first of all behind the last. */
  function FindNext(last: nat, sort: seq<Request>, i: nat): Option<Request>
    requires i < |sort|
  {
    var next := if i + 1 < |sort| then Some(sort[i + 1]) else if i > 0 then Some(sort[0]) else None;
    var prev := if i > 0 then Some(sort[i - 1]) else None;
    Choose(last, next, prev)
  }

  predicate Sorted(sort: seq<Request>) { forall i, j :: 0 <= i < j < |sort| ==> sort[i].sector < sort[j].sector }

  predicate Linked(l: Lane) {
    (l.next.None? <==> l.sort == []) && (l.next.Some? ==> l.next.value in l.sort)
  }

  /** The scheduler would take r rather than any other request of the list. */
  predicate IsBest(last: nat, sort: seq<Request>, r: Request) {
    r in sort && forall k :: 0 <= k < |sort| ==> sort[k] == r || TakesFirst(last, r, sort[k])
  }

  predicate Best(l: Lane) {
    if l.sort == [] then l.next.None? else l.next.Some? && IsBest(l.last, l.sort, l.next.value)
  }

  function Without(sort: seq<Request>, i: nat): seq<Request>
    requires i < |sort|
  {
    sort[..i] + sort[i + 1..]
  }

  /** as_remove_queued_request. */
  function Removed(l: Lane, i: nat): Lane
    requires i < |l.sort|
  {
    l.(sort := Without(l.sort, i),
       next := if l.next == Some(l.sort[i]) then FindNext(l.last, l.sort, i) else l.next)
  }

  /** as_move_to_dispatch. */
  function Moved(l: Lane, i: nat): Lane
    requires i < |l.sort|
  {
    var rq := l.sort[i];
    var last := rq.sector + rq.sectors;
    var l := l.(last := last, next := FindNext(last, l.sort, i));
    Removed(l, i).(out := l.out + [rq])
  }

  lemma WithoutSorted(sort: seq<Request>, i: nat)
    requires i < |sort| && Sorted(sort)
    ensures Sorted(Without(sort, i)) && sort[i] !in Without(sort, i) && |Without(sort, i)| == |sort| - 1
    ensures forall r :: r in Without(sort, i) <==> r in sort && r != sort[i]
    ensures multiset(Without(sort, i)) == multiset(sort) - multiset{sort[i]}
  {
    WithoutMembers(sort, i);
    forall r ensures r in Without(sort, i) <==> r in sort && r != sort[i] {
      WithoutMember(sort, i, r);
    }
  }

  lemma WithoutMembers(sort: seq<Request>, i: nat)
    requires i < |sort|
    ensures multiset(Without(sort, i)) == multiset(sort) - multiset{sort[i]}
  {
    assert sort == sort[..i] + [sort[i]] + sort[i + 1..];
  }

  lemma WithoutMember(sort: seq<Request>, i: nat, r: Request)
    requires i < |sort| && Sorted(sort)
    ensures r in Without(sort, i) <==> r in sort && r != sort[i]
  {
  }

  /** TakesFirst is a total order on requests of different sectors. */
  lemma TakesFirstOrder(last: nat, a: Request, b: Request, c: Request)
    requires a.sector != b.sector
    ensures TakesFirst(last, a, b) <==> !TakesFirst(last, b, a)
    ensures TakesFirst(last, a, b) && TakesFirst(last, b, c) ==> TakesFirst(last, a, c)
  {
  }

  /** Which of two requests as_choose_req takes: one at or ahead of the last sector, or behind it by at most 1048576
      sectors, rather than one further behind; of two further behind, the lower; of two ahead, the nearer; of two
      behind within reach, the nearer; and one ahead rather than one behind exactly if it is at most twice as far. */
  lemma TakesFirstExact(last: nat, a: Request, b: Request)
    requires a.sector != b.sector
    ensures var sa, sb := a.sector, b.sector;
            && (sa + 1048576 >= last && sb + 1048576 < last ==> TakesFirst(last, a, b))
            && (sa + 1048576 < last && sb + 1048576 < last ==> (TakesFirst(last, a, b) <==> sa < sb))
            && (sa >= last && sb >= last ==> (TakesFirst(last, a, b) <==> sa < sb))
            && (last - 1048576 <= sa < last && last - 1048576 <= sb < last ==> (TakesFirst(last, a, b) <==> sa > sb))
            && (sa >= last && last - 1048576 <= sb < last ==>
                  (TakesFirst(last, a, b) <==> sa - last <= 2 * (last - sb)))
  {
  }

  /** The neighbours of i are better than everything else, if nothing between i and the head is skipped. */
  predicate HeadAt(last: nat, sort: seq<Request>, i: nat)
    requires i < |sort|
  {
    IsBest(last, sort, sort[i]) || (sort[i].sector <= last && (i + 1 < |sort| ==> sort[i + 1].sector >= last))
  }

  lemma Neighbours(last: nat, sort: seq<Request>, i: nat, k: nat)
    requires Sorted(sort) && i < |sort| && HeadAt(last, sort, i) && k < |sort| && k != i
    ensures FindNext(last, sort, i).Some?
    ensures var r := FindNext(last, sort, i).value; r == sort[k] || TakesFirst(last, r, sort[k])
  {
  }

  lemma FindNextOther(last: nat, sort: seq<Request>, i: nat)
    requires Sorted(sort) && i < |sort|
    ensures var r := FindNext(last, sort, i);
            (r.None? <==> |sort| == 1) && (r.Some? ==> r.value in Without(sort, i) && r.value != sort[i])
  {
  }

  lemma NeighboursBest(last: nat, sort: seq<Request>, i: nat)
    requires Sorted(sort) && i < |sort| && HeadAt(last, sort, i) && |sort| > 1
    ensures FindNext(last, sort, i).Some? && IsBest(last, Without(sort, i), FindNext(last, sort, i).value)
  {
    hide TakesFirst, FindNext, HeadAt;
    var rest := Without(sort, i);
    FindNextOther(last, sort, i);
    forall k | 0 <= k < |rest|
      ensures rest[k] == FindNext(last, sort, i).value || TakesFirst(last, FindNext(last, sort, i).value, rest[k])
    {
      Neighbours(last, sort, i, if k < i then k else k + 1);
    }
  }

  /** Removal keeps the cached request the best one, though only tree neighbours are looked at. */
  lemma RemoveKeepsBest(l: Lane, i: nat)
    requires Sorted(l.sort) && Best(l) && i < |l.sort|
    ensures Best(Removed(l, i)) && Sorted(Removed(l, i).sort)
  {
    hide TakesFirst, FindNext;
    WithoutSorted(l.sort, i);
    FindNextOther(l.last, l.sort, i);
    if l.next == Some(l.sort[i]) {
      if |l.sort| > 1 {
        NeighboursBest(l.last, l.sort, i);
      }
    } else {
      StillBest(l.last, l.sort, i, l.next.value);
    }
  }

  lemma StillBest(last: nat, sort: seq<Request>, i: nat, r: Request)
    requires Sorted(sort) && i < |sort| && IsBest(last, sort, r) && r != sort[i]
    ensures IsBest(last, Without(sort, i), r)
  {
  }

  lemma MovedIs(l: Lane, i: nat)
    requires Sorted(l.sort) && i < |l.sort|
    ensures var rq := l.sort[i]; var last := rq.sector + rq.sectors;
            Moved(l, i) == Lane(Without(l.sort, i), FindNext(last, l.sort, i), last, l.out + [rq])
  {
  }

  /** Dispatching leaves next_rq non-NULL exactly while something is queued. */
  lemma MoveLinks(l: Lane, i: nat)
    requires Sorted(l.sort) && i < |l.sort|
    ensures Linked(Moved(l, i)) && Sorted(Moved(l, i).sort)
  {
  }

  /** At most one request starts strictly inside sort[i], and then it is nearer than what follows it. */
  predicate ClearAhead(sort: seq<Request>, i: nat)
    requires i < |sort|
  {
    var end := sort[i].sector + sort[i].sectors;
    i + 1 < |sort| && sort[i + 1].sector < end && i + 2 < |sort| ==>
      sort[i + 2].sector >= end && (end - sort[i + 1].sector) * BACK_PENALTY < sort[i + 2].sector - end
  }

  /** Dispatching leaves the best of the others cached exactly when the way ahead is clear; in
      particular whenever no request starts strictly inside the dispatched one. */
  lemma MoveBest(l: Lane, i: nat)
    requires Sorted(l.sort) && i < |l.sort| && l.sort[i].sectors <= MAXBACK
    ensures Best(Moved(l, i)) <==> ClearAhead(l.sort, i)
  {
    hide Without, FindNext, TakesFirst, IsBest, Moved;
    MovedIs(l, i);
    var end := l.sort[i].sector + l.sort[i].sectors;
    FindNextOther(end, l.sort, i);
    WithoutSorted(l.sort, i);
    if |l.sort| > 1 {
      if i + 1 == |l.sort| || l.sort[i + 1].sector >= end {
        NeighboursBest(end, l.sort, i);
      } else {
        InsideNext(l.sort, i);
        if ClearAhead(l.sort, i) {
          OneInside(l.sort, i);
        } else {
          Overlooked(l.sort, i);
        }
      }
    }
  }

  /** A request starting inside the dispatched one is what the neighbours yield. */
  lemma InsideNext(sort: seq<Request>, i: nat)
    requires Sorted(sort) && i + 1 < |sort| && sort[i].sectors <= MAXBACK
    requires sort[i + 1].sector < sort[i].sector + sort[i].sectors
    ensures FindNext(sort[i].sector + sort[i].sectors, sort, i) == Some(sort[i + 1])
  {
  }

  lemma OneInside(sort: seq<Request>, i: nat)
    requires Sorted(sort) && i + 1 < |sort| && sort[i].sectors <= MAXBACK
    requires sort[i + 1].sector < sort[i].sector + sort[i].sectors && ClearAhead(sort, i)
    ensures IsBest(sort[i].sector + sort[i].sectors, Without(sort, i), sort[i + 1])
  {
  }

  lemma Overlooked(sort: seq<Request>, i: nat)
    requires Sorted(sort) && i + 1 < |sort| && sort[i].sectors <= MAXBACK
    requires sort[i + 1].sector < sort[i].sector + sort[i].sectors && !ClearAhead(sort, i)
    ensures !IsBest(sort[i].sector + sort[i].sectors, Without(sort, i), sort[i + 1])
  {
    var rest := Without(sort, i);
    assert rest[i + 1] == sort[i + 2];
    assert sort[i].sector < sort[i + 1].sector < sort[i + 2].sector;
  }

  function Inserted(sort: seq<Request>, p: nat, rq: Request): seq<Request>
    requires p <= |sort|
  {
    sort[..p] + [rq] + sort[p..]
  }

  /** rq belongs at p, and no request there has its sector. */
  predicate Fits(sort: seq<Request>, p: nat, rq: Request)
    requires p <= |sort|
  {
    && (forall i :: 0 <= i < p ==> sort[i].sector < rq.sector)
    && forall i :: p <= i < |sort| ==> rq.sector < sort[i].sector
  }

  /** elv_rb_add without an alias, and as_update_rq. */
  function Entered(l: Lane, p: nat, rq: Request): Lane
    requires p <= |l.sort|
  {
    l.(sort := Inserted(l.sort, p, rq), next := Choose(l.last, Some(rq), l.next))
  }

  lemma InsertedSorted(sort: seq<Request>, p: nat, rq: Request)
    requires p <= |sort| && Sorted(sort) && Fits(sort, p, rq)
    ensures Sorted(Inserted(sort, p, rq)) && rq in Inserted(sort, p, rq)
    ensures forall r :: r in Inserted(sort, p, rq) <==> r in sort || r == rq
    ensures multiset(Inserted(sort, p, rq)) == multiset(sort) + multiset{rq}
  {
    InsertedOrder(sort, p, rq);
    InsertedMembers(sort, p, rq);
    hide Inserted;
    forall r ensures r in Inserted(sort, p, rq) <==> r in sort || r == rq {
      assert r in Inserted(sort, p, rq) <==> r in multiset(Inserted(sort, p, rq));
    }
  }

  lemma InsertedOrder(sort: seq<Request>, p: nat, rq: Request)
    requires p <= |sort| && Sorted(sort) && Fits(sort, p, rq)
    ensures Sorted(Inserted(sort, p, rq))
  {
  }

  lemma InsertedMembers(sort: seq<Request>, p: nat, rq: Request)
    requires p <= |sort|
    ensures multiset(Inserted(sort, p, rq)) == multiset(sort) + multiset{rq}
  {
    assert sort == sort[..p] + sort[p..];
  }

  lemma EnterKeeps(l: Lane, p: nat, rq: Request)
    requires Sorted(l.sort) && p <= |l.sort| && Fits(l.sort, p, rq)
    ensures Sorted(Entered(l, p, rq).sort)
    ensures Linked(l) ==> Linked(Entered(l, p, rq))
    ensures Best(l) ==> Best(Entered(l, p, rq))
  {
    hide TakesFirst, Inserted;
    InsertedSorted(l.sort, p, rq);
    if Best(l) {
      if l.sort == [] {
        EnterFirst(l, rq);
      } else {
        EnterBest(l, p, rq);
      }
    }
  }

  lemma EnterFirst(l: Lane, rq: Request)
    requires l.sort == [] && Best(l)
    ensures Best(Entered(l, 0, rq))
  {
  }

  lemma EnterBest(l: Lane, p: nat, rq: Request)
    requires Sorted(l.sort) && p <= |l.sort| && Fits(l.sort, p, rq) && Best(l) && l.sort != []
    ensures Best(Entered(l, p, rq))
  {
    hide TakesFirst;
    InsertedSorted(l.sort, p, rq);
    var sort := Inserted(l.sort, p, rq);
    var best := Choose(l.last, Some(rq), l.next).value;
    var at :| 0 <= at < |l.sort| && l.sort[at] == l.next.value;
    forall k | 0 <= k < |sort| ensures sort[k] == best || TakesFirst(l.last, best, sort[k]) {
      TakesFirstOrder(l.last, rq, l.next.value, rq);
      if k != p {
        var r := l.sort[if k < p then k else k - 1];
        TakesFirstOrder(l.last, rq, l.next.value, r);
      }
    }
  }

  /** Where elv_rb_add ends its descent: behind all smaller sectors. */
  function Place(sort: seq<Request>, s: nat): nat {
    if sort == [] || sort[0].sector >= s then 0 else 1 + Place(sort[1..], s)
  }

  lemma {:induction false} PlaceBetween(sort: seq<Request>, s: nat)
    requires Sorted(sort)
    ensures var p := Place(sort, s);
            && p <= |sort|
            && (forall i :: 0 <= i < p ==> sort[i].sector < s)
            && forall i :: p <= i < |sort| ==> sort[i].sector >= s
  {
    if sort != [] && sort[0].sector < s {
      PlaceBetween(sort[1..], s);
      var p := Place(sort, s);
      forall i | 0 <= i < |sort| ensures (i < p ==> sort[i].sector < s) && (i >= p ==> sort[i].sector >= s) {
        assert i > 0 ==> sort[i] == sort[1..][i - 1];
      }
    }
  }

  predicate Aliased(sort: seq<Request>, s: nat) {
    Place(sort, s) < |sort| && sort[Place(sort, s)].sector == s
  }

  /** as_add_rq_rb: an alias goes to the dispatch queue first. */
  function Unaliased(l: Lane, s: nat): Lane {
    if Aliased(l.sort, s) then Moved(l, Place(l.sort, s)) else l
  }

  /** as_add_request. */
  function Added(l: Lane, rq: Request): Lane
    requires Sorted(l.sort)
  {
    PlaceBetween(l.sort, rq.sector);
    Entered(Unaliased(l, rq.sector), Place(l.sort, rq.sector), rq)
  }

  lemma UnaliasedFits(l: Lane, rq: Request)
    requires Sorted(l.sort)
    ensures var l' := Unaliased(l, rq.sector); var p := Place(l.sort, rq.sector);
            Sorted(l'.sort) && p <= |l'.sort| && Fits(l'.sort, p, rq)
    ensures Linked(l) ==> Linked(Unaliased(l, rq.sector))
    ensures multiset(l.sort) + multiset(l.out)
            == multiset(Unaliased(l, rq.sector).sort) + multiset(Unaliased(l, rq.sector).out)
  {
    hide FindNext, Moved, Place, Linked, Sorted, Without, Fits;
    PlaceBetween(l.sort, rq.sector);
    var p := Place(l.sort, rq.sector);
    if Aliased(l.sort, rq.sector) {
      MovedIs(l, p);
      MoveLinks(l, p);
      WithoutSorted(l.sort, p);
      FitsForAlias(l.sort, p, rq);
      assert l.sort[p] in l.sort;
    } else {
      FitsFree(l.sort, p, rq);
    }
  }

  lemma FitsFree(sort: seq<Request>, p: nat, rq: Request)
    requires Sorted(sort) && p <= |sort| && (p < |sort| ==> sort[p].sector != rq.sector)
    requires forall i :: 0 <= i < p ==> sort[i].sector < rq.sector
    requires forall i :: p <= i < |sort| ==> sort[i].sector >= rq.sector
    ensures Fits(sort, p, rq)
  {
  }

  lemma FitsForAlias(sort: seq<Request>, p: nat, rq: Request)
    requires Sorted(sort) && p < |sort| && sort[p].sector == rq.sector
    ensures p <= |Without(sort, p)| && Fits(Without(sort, p), p, rq)
  {
  }

  /** Adding keeps the cache exact, an alias dispatch included. */
  lemma AddKeeps(l: Lane, rq: Request)
    requires Sorted(l.sort)
    ensures Sorted(Added(l, rq).sort)
    ensures Linked(l) ==> Linked(Added(l, rq))
    ensures Best(l) && (Aliased(l.sort, rq.sector) ==>
                          var p := Place(l.sort, rq.sector); l.sort[p].sectors <= MAXBACK && ClearAhead(l.sort, p))
            ==> Best(Added(l, rq))
    ensures multiset(Added(l, rq).sort) + multiset(Added(l, rq).out)
            == multiset(l.sort) + multiset(l.out) + multiset{rq}
  {
    hide Best, Linked, Place, Moved, ClearAhead, Sorted, Fits;
    UnaliasedFits(l, rq);
    var p := Place(l.sort, rq.sector);
    var l' := Unaliased(l, rq.sector);
    EnterKeeps(l', p, rq);
    InsertedMembers(l'.sort, p, rq);
    if Aliased(l.sort, rq.sector) && l.sort[p].sectors <= MAXBACK {
      MoveBest(l, p);
    }
  }
}
