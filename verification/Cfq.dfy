/** CFQ's bookkeeping: per-process queues, the service tree with its leftmost cache, the busy count and
    the elevator's count of sorted requests. */
module Cfq {
  import opened Options
  import opened RequestLists

  /** What cfq_choose_req looks at besides the sectors. */
  datatype Head = Head(sync: set<nat>, meta: set<nat>, last: nat, backMax: nat, penalty: nat)

  datatype Queue = Queue(sort: seq<Item>, fifo: set<nat>, next: Option<nat>, onRr: bool, rank: nat)

  /** A node of the service tree: real-time queues have rank 0, best-effort 1, idle 2. */
  datatype Slot = Slot(q: nat, rank: nat, key: nat)

  datatype State = State(
    queues: seq<Queue>, service: seq<Slot>, left: Option<Slot>, busy: nat, busyRt: int, nrSorted: int, out: seq<nat>)

  function Sector(sort: seq<Item>, id: nat): nat { if id in Ids(sort) then KeyOf(sort, id) else 0 }

  predicate Wraps(h: Head, s: nat) { s < h.last && s + h.backMax * 2 < h.last }

  function Distance(h: Head, s: nat): nat { if s >= h.last then s - h.last else (h.last - s) * h.penalty }

  /** cfq_choose_req. */
  function Choose(h: Head, sort: seq<Item>, a: Option<nat>, b: Option<nat>): Option<nat> {
    if a.None? || a == b then b
    else if b.None? then a
    else if (a.value in h.sync) != (b.value in h.sync) then (if a.value in h.sync then a else b)
    else if (a.value in h.meta) != (b.value in h.meta) then (if a.value in h.meta then a else b)
    else
      var s1, s2 := Sector(sort, a.value), Sector(sort, b.value);
      if Wraps(h, s1) != Wraps(h, s2) then (if Wraps(h, s2) then a else b)
      else if Wraps(h, s1) then (if s1 <= s2 then a else b)
      else if Distance(h, s1) != Distance(h, s2) then (if Distance(h, s1) < Distance(h, s2) then a else b)
      else if s1 >= s2 then a else b
  }

  /** cfq_choose_req does not depend on the order of its arguments and never runs in circles; synchronous requests
      come first, and of two alike ahead of the head the nearer one. */
  lemma ChooseOrder(h: Head, sort: seq<Item>, a: nat, b: nat, c: nat)
    requires Sector(sort, a) != Sector(sort, b)
    ensures Choose(h, sort, Some(a), Some(b)) == Choose(h, sort, Some(b), Some(a))
    ensures (&& Choose(h, sort, Some(a), Some(b)) == Some(a) && Choose(h, sort, Some(b), Some(c)) == Some(b)
             && Sector(sort, b) != Sector(sort, c) && Sector(sort, a) != Sector(sort, c))
            ==> Choose(h, sort, Some(a), Some(c)) == Some(a)
    ensures a in h.sync && b !in h.sync ==> Choose(h, sort, Some(a), Some(b)) == Some(a)
    ensures (&& (a in h.sync <==> b in h.sync) && (a in h.meta <==> b in h.meta)
             && h.last <= Sector(sort, a) < Sector(sort, b))
            ==> Choose(h, sort, Some(a), Some(b)) == Some(a)
  {
    hide Sector;
  }

  /** What cfq_choose_req prefers: synchronous to asynchronous requests, then metadata to data; of two alike, one that
      is at or ahead of the head, or behind it by at most back_max KiB, to one further behind; both far behind, the
      lower sector; both ahead, the nearer; both behind, the nearer; and one ahead to one behind exactly if its
      distance is at most the other's times the penalty. */
  lemma ChooseExact(h: Head, sort: seq<Item>, a: nat, b: nat)
    requires Sector(sort, a) != Sector(sort, b) && a != b
    ensures var first := Choose(h, sort, Some(a), Some(b)) == Some(a);
            var sa, sb, last, back := Sector(sort, a), Sector(sort, b), h.last, 2 * h.backMax;
            && (a in h.sync && b !in h.sync ==> first)
            && ((a in h.sync <==> b in h.sync) && a in h.meta && b !in h.meta ==> first)
            && ((a in h.sync <==> b in h.sync) && (a in h.meta <==> b in h.meta) ==>
                  && (sa + back >= last && sb + back < last ==> first)
                  && (sa + back < last && sb + back < last ==> (first <==> sa < sb))
                  && (sa >= last && sb >= last ==> (first <==> sa < sb))
                  && (last <= sa && last - back <= sb < last ==> (first <==> sa - last <= (last - sb) * h.penalty)))
    ensures Choose(h, sort, Some(a), Some(b)) == Some(a) || Choose(h, sort, Some(a), Some(b)) == Some(b)
  {
    hide Sector;
  }

  /** Both behind the head and within reach: the nearer, whatever the penalty. */
  lemma ChooseBehind(h: Head, sort: seq<Item>, a: nat, b: nat)
    requires Sector(sort, a) != Sector(sort, b) && (a in h.sync <==> b in h.sync) && (a in h.meta <==> b in h.meta)
    requires h.last - 2 * h.backMax <= Sector(sort, a) < h.last && h.last - 2 * h.backMax <= Sector(sort, b) < h.last
    ensures Choose(h, sort, Some(a), Some(b)) == Some(a) <==> Sector(sort, a) > Sector(sort, b)
  {
    hide Sector;
    var da, db := h.last - Sector(sort, a), h.last - Sector(sort, b);
    if h.penalty > 0 {
      Scaled(da, db, h.penalty);
      Scaled(db, da, h.penalty);
    }
  }

  lemma Scaled(a: nat, b: nat, k: nat)
    requires k > 0
    ensures a * k < b * k <==> a < b
  {
  }

  /** cfq_find_next_rq. */
  function FindNext(h: Head, sort: seq<Item>, id: nat): Option<nat> {
    var next := Latter(sort, id);
    var first := if sort != [] && sort[0].id != id then Some(sort[0].id) else None;
    Choose(h, sort, if next.Some? then next else first, Former(sort, id))
  }

  lemma {:induction false} LatterOrFirst(sort: seq<Item>, id: nat)
    requires Distinct(sort) && id in Ids(sort)
    ensures Latter(sort, id).None? && |sort| > 1 ==> sort[0].id != id
    ensures |sort| == 1 ==> Latter(sort, id).None? && Former(sort, id).None? && sort[0].id == id
  {
  }

  /** What follows a request that goes is one of its neighbours in sector order, or the first of all behind the last. */
  lemma FindNextNear(h: Head, sort: seq<Item>, id: nat)
    requires Distinct(sort) && Ascending(sort) && id in Ids(sort) && FindNext(h, sort, id).Some?
    ensures var n := FindNext(h, sort, id); var k := KeyOf(sort, id);
            || NextAbove(sort, k, n) || PrevBelow(sort, k, n)
            || (NextAbove(sort, k, None) && n == Some(sort[0].id))
  {
    hide Distinct, Ascending, Ids, Latter, Former, NextAbove, PrevBelow, KeyOf, Sector;
    LatterAbove(sort, id);
    FormerBelow(sort, id);
    NoIds(sort);
  }

  lemma FindNextOther(h: Head, sort: seq<Item>, id: nat)
    requires Distinct(sort) && id in Ids(sort)
    ensures var n := FindNext(h, sort, id);
            (n.None? <==> |sort| == 1) && (n.Some? ==> n.value in Ids(sort) - {id})
  {
    hide Distinct, Latter, Former, Wraps, Distance, Sector;
    LatterOrFirst(sort, id);
    LatterMember(sort, id);
    FormerMember(sort, id);
  }

  predicate Before(a: Slot, b: Slot) { a.rank < b.rank || (a.rank == b.rank && a.key < b.key) }

  function SlotInsert(service: seq<Slot>, x: Slot): seq<Slot> {
    if service == [] || Before(x, service[0]) then [x] + service else [service[0]] + SlotInsert(service[1..], x)
  }

  function SlotDrop(service: seq<Slot>, q: nat): seq<Slot> {
    if service == [] then [] else if service[0].q == q then service[1..] else [service[0]] + SlotDrop(service[1..], q)
  }

  function Members(service: seq<Slot>): set<nat> {
    if service == [] then {} else {service[0].q} + Members(service[1..])
  }

  /** One for a real-time queue. */
  function OneRt(rank: nat): nat { if rank == 0 then 1 else 0 }

  function RtCount(service: seq<Slot>): nat {
    if service == [] then 0 else OneRt(service[0].rank) + RtCount(service[1..])
  }

  predicate OrderlyTree(service: seq<Slot>) {
    service == []
    || (&& service[0].q !in Members(service[1..])
        && (forall x :: x in service[1..] ==> !Before(x, service[0]))
        && OrderlyTree(service[1..]))
  }

  lemma {:induction false} SlotInsertFacts(service: seq<Slot>, x: Slot)
    requires OrderlyTree(service) && x.q !in Members(service)
    ensures var r := SlotInsert(service, x);
            && OrderlyTree(r) && Members(r) == Members(service) + {x.q} && |r| == |service| + 1
            && (forall y :: y in r <==> y in service || y == x) && RtCount(r) == RtCount(service) + OneRt(x.rank)
            && (service == [] || r[0] == x || r[0] == service[0])
  {
    if service == [] || Before(x, service[0]) {
      assert ([x] + service)[1..] == service;
      if service != [] {
        assert forall y :: y in service <==> y == service[0] || y in service[1..];
      }
    } else {
      SlotInsertFacts(service[1..], x);
      var rest := SlotInsert(service[1..], x);
      assert ([service[0]] + rest)[1..] == rest;
      assert forall y :: y in service <==> y == service[0] || y in service[1..];
    }
  }

  lemma {:induction false} SlotMember(service: seq<Slot>, y: Slot)
    requires y in service
    ensures y.q in Members(service)
  {
    if y != service[0] {
      SlotMember(service[1..], y);
    }
  }

  lemma {:induction false} SlotOf(service: seq<Slot>, q: nat)
    requires q in Members(service)
    ensures exists y :: y in service && y.q == q
  {
    if service[0].q == q {
      assert service[0] in service;
    } else {
      SlotOf(service[1..], q);
      var y :| y in service[1..] && y.q == q;
      assert y in service;
    }
  }

  lemma {:induction false} SlotDropFacts(service: seq<Slot>, q: nat)
    requires OrderlyTree(service) && q in Members(service)
    ensures var r := SlotDrop(service, q);
            && OrderlyTree(r) && Members(r) == Members(service) - {q} && |r| == |service| - 1
            && (forall y :: y in r ==> y in service)
            && (forall y :: y in service && y.q == q ==> RtCount(r) == RtCount(service) - OneRt(y.rank))
            && (service[0].q != q ==> r != [] && r[0] == service[0])
  {
    assert forall y :: y in service <==> y == service[0] || y in service[1..];
    forall y | y in service[1..] ensures y.q in Members(service[1..]) {
      SlotMember(service[1..], y);
    }
    if service[0].q != q {
      SlotDropFacts(service[1..], q);
      var rest := SlotDrop(service[1..], q);
      assert ([service[0]] + rest)[1..] == rest;
    }
  }

  function First(service: seq<Slot>): Option<Slot> { if service == [] then None else Some(service[0]) }

  /** cfq_service_tree_add for a queue that is not in the tree. */
  function TreeAdd(s: State, x: Slot): State {
    var service := SlotInsert(s.service, x);
    s.(service := service, left := if service[0] == x then Some(x) else s.left)
  }

  /** cfq_rb_erase. */
  function TreeErase(s: State, q: nat): State {
    s.(service := SlotDrop(s.service, q), left := if s.left.Some? && s.left.value.q == q then None else s.left)
  }

  function WithQueue(s: State, q: nat, c: Queue): State
    requires q < |s.queues|
  {
    s.(queues := s.queues[q := c])
  }

  /** cfq_add_cfqq_rr. */
  function AddRr(s: State, q: nat, key: nat): State
    requires q < |s.queues|
  {
    var rank := s.queues[q].rank;
    var marked := WithQueue(s, q, s.queues[q].(onRr := true));
    TreeAdd(marked.(busy := s.busy + 1, busyRt := s.busyRt + OneRt(rank)), Slot(q, rank, key))
  }

  /** cfq_del_cfqq_rr. */
  function DelRr(s: State, q: nat): State
    requires q < |s.queues| && s.busy > 0
  {
    TreeErase(WithQueue(s, q, s.queues[q].(onRr := false)), q)
    .(busy := s.busy - 1, busyRt := s.busyRt - OneRt(s.queues[q].rank))
  }

  /** The service tree holds exactly the queues marked on_rr, in service order; the busy counts are their
      number and that of the real-time ones, and the leftmost cache is empty or the first of them. */
  ghost predicate RrGood(s: State) {
    && OrderlyTree(s.service) && s.busy == |s.service| && s.busyRt == RtCount(s.service)
    && (forall x :: x in s.service && x.q < |s.queues| ==> x.rank == s.queues[x.q].rank)
    && (forall q: nat :: q in Members(s.service) <==> q < |s.queues| && s.queues[q].onRr)
    && (s.left.Some? ==> s.left == First(s.service))
  }

  lemma {:induction false} TreeOrder(service: seq<Slot>, i: nat, j: nat)
    requires OrderlyTree(service) && i < j < |service|
    ensures service[i].rank < service[j].rank
            || (service[i].rank == service[j].rank && service[i].key <= service[j].key)
  {
    if i > 0 {
      TreeOrder(service[1..], i - 1, j - 1);
    } else {
      assert service[j] == service[1..][j - 1] && service[j] in service[1..];
    }
  }

  /** Real-time queues are served before the others and idle ones last, and within a class by their keys. */
  lemma ServiceOrder(s: State, i: nat, j: nat)
    requires Good(s) && i < j < |s.service|
    ensures s.service[i].q < |s.queues| && s.service[j].q < |s.queues| && s.service[i].q != s.service[j].q
    ensures var a, b := s.queues[s.service[i].q].rank, s.queues[s.service[j].q].rank;
            a < b || (a == b && s.service[i].key <= s.service[j].key)
  {
    hide OrderlyTree, Members, RtCount;
    TreeOrder(s.service, i, j);
    SlotMember(s.service, s.service[i]);
    SlotMember(s.service, s.service[j]);
    SlotsDiffer(s.service, i, j);
  }

  lemma {:induction false} SlotsDiffer(service: seq<Slot>, i: nat, j: nat)
    requires OrderlyTree(service) && i < j < |service|
    ensures service[i].q != service[j].q
  {
    if i > 0 {
      SlotsDiffer(service[1..], i - 1, j - 1);
    } else {
      assert service[j] == service[1..][j - 1];
      SlotMember(service[1..], service[j]);
    }
  }

  lemma BusyWithMember(s: State, q: nat)
    requires RrGood(s) && q < |s.queues| && s.queues[q].onRr
    ensures s.busy > 0 && s.service != []
  {
  }

  lemma AddRrKeeps(s: State, q: nat, key: nat)
    requires RrGood(s) && q < |s.queues| && !s.queues[q].onRr
    ensures RrGood(AddRr(s, q, key))
  {
    hide OrderlyTree, Members, SlotInsert;
    SlotInsertFacts(s.service, Slot(q, s.queues[q].rank, key));
  }

  lemma DelRrKeeps(s: State, q: nat)
    requires RrGood(s) && q < |s.queues| && s.queues[q].onRr
    ensures s.busy > 0 && RrGood(DelRr(s, q))
  {
    hide OrderlyTree, SlotDrop;
    BusyWithMember(s, q);
    SlotDropFacts(s.service, q);
    SlotOf(s.service, q);
    hide Members;
  }

  lemma SameFlagsKeeps(s: State, q: nat, c: Queue)
    requires RrGood(s) && q < |s.queues| && c.onRr == s.queues[q].onRr && c.rank == s.queues[q].rank
    ensures RrGood(WithQueue(s, q, c))
  {
  }

  /** One queue's lists agree; `extra` holds a request that is being put back. */
  ghost predicate QueuePart(c: Queue, extra: set<nat>) {
    && Distinct(c.sort) && Ascending(c.sort)
    && c.fifo == Ids(c.sort) + extra && extra !! Ids(c.sort)
    && (c.next.Some? ==> c.next.value in c.fifo)
    && (c.sort != [] ==> c.next.Some?)
  }

  /** next_rq is there exactly while requests are, and so is the queue's place in the service tree. */
  ghost predicate QueueGood(c: Queue) {
    QueuePart(c, {}) && (c.onRr <==> c.sort != []) && (c.next.Some? <==> c.sort != [])
  }

  function Total(queues: seq<Queue>): nat {
    if queues == [] then 0 else |queues[0].sort| + Total(queues[1..])
  }

  lemma {:induction false} TotalUpdate(queues: seq<Queue>, q: nat, c: Queue)
    requires q < |queues|
    ensures Total(queues[q := c]) == Total(queues) - |queues[q].sort| + |c.sort|
  {
    if q > 0 {
      TotalUpdate(queues[1..], q - 1, c);
      assert queues[q := c][1..] == queues[1..][q - 1 := c];
    } else {
      assert queues[q := c][1..] == queues[1..];
    }
  }

  /** Taking a request off a queue's lists. */
  function Taken(h: Head, c: Queue, id: nat): Queue {
    c.(sort := Drop(c.sort, id), fifo := c.fifo - {id},
       next := if c.next == Some(id) then FindNext(h, c.sort, id) else c.next)
  }

  lemma TakenPart(h: Head, c: Queue, id: nat, extra: set<nat>)
    requires QueuePart(c, extra) && id in Ids(c.sort)
    ensures QueuePart(Taken(h, c, id), extra) && |Taken(h, c, id).sort| == |c.sort| - 1
    ensures Taken(h, c, id).sort == [] && extra == {} ==> Taken(h, c, id).next.None?
  {
    hide Distinct, Ascending, Drop, FindNext, Ids;
    FindNextOther(h, c.sort, id);
    DropFacts(c.sort, id);
    DropAscending(c.sort, id);
    SizeAfterDrop(c.sort, id);
    NoIds(Drop(c.sort, id));
  }

  /** cfq_remove_request: a queue whose last request goes leaves the service tree. */
  function Removed(h: Head, s: State, q: nat, id: nat): State
    requires q < |s.queues|
  {
    var c := Taken(h, s.queues[q], id);
    var s := WithQueue(s, q, c);
    if c.onRr && c.sort == [] && s.busy > 0 then DelRr(s, q) else s
  }

  /** cfq_dispatch_insert, with elv_dispatch_sort's count. */
  function Dispatched(h: Head, s: State, q: nat, id: nat): State
    requires q < |s.queues|
  {
    Removed(h, s, q, id).(out := s.out + [id], nrSorted := s.nrSorted - 1)
  }

  /** What the rest of the state keeps while queue q is worked on. */
  ghost predicate Part(s: State, q: nat, extra: set<nat>) {
    && q < |s.queues| && RrGood(s) && QueuePart(s.queues[q], extra)
    && (s.queues[q].sort != [] ==> s.queues[q].onRr)
    && (forall i :: 0 <= i < |s.queues| && i != q ==> QueueGood(s.queues[i]))
  }

  lemma RemovedKeeps(h: Head, s: State, q: nat, id: nat, extra: set<nat>)
    requires Part(s, q, extra) && id in Ids(s.queues[q].sort)
    ensures Part(Removed(h, s, q, id), q, extra)
    ensures var c := Removed(h, s, q, id).queues[q]; var t := Taken(h, s.queues[q], id);
            c.sort == t.sort && c.fifo == t.fifo && c.next == t.next && (c.onRr <==> c.sort != [])
    ensures Total(Removed(h, s, q, id).queues) == Total(s.queues) - 1
    ensures extra == {} ==> QueueGood(Removed(h, s, q, id).queues[q])
    ensures |Removed(h, s, q, id).queues| == |s.queues|
  {
    hide RrGood, QueuePart, Taken, Total, TreeErase;
    var c := Taken(h, s.queues[q], id);
    TakenPart(h, s.queues[q], id, extra);
    TakenFlag(h, s.queues[q], id);
    TotalUpdate(s.queues, q, c);
    SomeIds(s.queues[q], id);
    SameFlagsKeeps(s, q, c);
    var mid := WithQueue(s, q, c);
    BusyWithMember(mid, q);
    if c.sort == [] {
      DelRrKeeps(mid, q);
      TotalUpdate(mid.queues, q, c.(onRr := false));
      EraseQueues(mid, q);
      FlagPart(c, false, extra);
    }
    NextOf(c, extra);
  }

  lemma EraseQueues(s: State, q: nat)
    requires q < |s.queues| && s.busy > 0
    ensures DelRr(s, q).queues == s.queues[q := s.queues[q].(onRr := false)]
  {
  }

  lemma FlagPart(c: Queue, flag: bool, extra: set<nat>)
    requires QueuePart(c, extra)
    ensures QueuePart(c.(onRr := flag), extra)
  {
  }

  lemma TakenFlag(h: Head, c: Queue, id: nat)
    ensures Taken(h, c, id).onRr == c.onRr && Taken(h, c, id).rank == c.rank
  {
  }

  lemma SomeIds(c: Queue, id: nat)
    requires id in Ids(c.sort)
    ensures c.sort != []
  {
  }

  lemma NextOf(c: Queue, extra: set<nat>)
    requires QueuePart(c, extra)
    ensures c.sort != [] ==> c.next.Some?
  {
  }

  /** cfq_add_rq_rb: an alias is dispatched first, the queue joins the service tree if it was not there,
      and the cached next request is chosen again. */
  function Entered(h: Head, s: State, q: nat, x: Item, key: nat): State
    requires q < |s.queues|
  {
    var alias := Alias(s.queues[q].sort, x.key);
    var s := if alias.Some? then Dispatched(h, s, q, alias.value) else s;
    var c := s.queues[q].(sort := Insert(s.queues[q].sort, x));
    var s := WithQueue(s, q, c.(next := Choose(h, c.sort, c.next, Some(x.id))));
    if c.onRr then s else AddRr(s, q, key)
  }

  ghost predicate Good(s: State) {
    && RrGood(s) && s.nrSorted == Total(s.queues)
    && forall i :: 0 <= i < |s.queues| ==> QueueGood(s.queues[i])
  }

  lemma ChosenFrom(h: Head, sort: seq<Item>, a: Option<nat>, b: nat)
    ensures Choose(h, sort, a, Some(b)) == Some(b) || (a.Some? && Choose(h, sort, a, Some(b)) == a)
  {
  }

  /** Adding leaves cached whichever cfq_choose_req prefers: the new request, or the one cached before; after an alias
      was dispatched, the one cached then. */
  lemma EnteredNext(h: Head, s: State, q: nat, x: Item, key: nat)
    requires q < |s.queues|
    ensures q < |Entered(h, s, q, x, key).queues|
    ensures var c := Entered(h, s, q, x, key).queues[q];
            var before := match Alias(s.queues[q].sort, x.key)
                          case None => s.queues[q].next
                          case Some(a) => Dispatched(h, s, q, a).queues[q].next;
            && c.sort == Insert(if Alias(s.queues[q].sort, x.key).Some? then
                                  Drop(s.queues[q].sort, Alias(s.queues[q].sort, x.key).value)
                                else s.queues[q].sort, x)
            && (before.None? ==> c.next == Some(x.id))
            && (before.Some? ==>
                  && (c.next == before || c.next == Some(x.id))
                  && Choose(h, c.sort, before, Some(x.id)) == c.next)
  {
    hide FindNext, SlotInsert, SlotDrop, Alias, Drop, Insert, Wraps, Distance, Sector;
    ChosenFrom(h, Entered(h, s, q, x, key).queues[q].sort, s.queues[q].next, x.id);
  }

  /** The queue's lists after the insertion; the request's fifo entry is there already or still to come. */
  lemma InsertedPart(h: Head, c: Queue, x: Item, extra: set<nat>)
    requires QueuePart(c, extra) && Alias(c.sort, x.key).None? && x.id !in Ids(c.sort)
    requires extra == {x.id} || (extra == {} && x.id !in c.fifo)
    ensures var sort := Insert(c.sort, x);
            var next := Choose(h, sort, c.next, Some(x.id));
            var c' := c.(sort := sort, next := next, fifo := c.fifo + {x.id}, onRr := true);
            QueueGood(c') && |sort| == |c.sort| + 1
  {
    hide Distinct, Ascending, Ids, Insert, Alias, Choose;
    InsertFacts(c.sort, x);
    InsertAscending(c.sort, x);
    InsertSize(c.sort, x);
    ChosenFrom(h, Insert(c.sort, x), c.next, x.id);
  }

  lemma {:induction false} InsertSize(items: seq<Item>, x: Item)
    ensures |Insert(items, x)| == |items| + 1
  {
    if items != [] && !(x.key < items[0].key) {
      InsertSize(items[1..], x);
    }
  }

  /** After the insertion everything is in order again once the fifo entry is there. */
  lemma EnteredKeeps(h: Head, s: State, q: nat, x: Item, key: nat, extra: set<nat>)
    requires Part(s, q, extra) && x.id !in Ids(s.queues[q].sort)
    requires extra == {x.id} || (extra == {} && x.id !in s.queues[q].fifo)
    ensures var s' := Entered(h, s, q, x, key); var c := s'.queues[q];
            && |s'.queues| == |s.queues| && RrGood(s')
            && QueueGood(c.(fifo := c.fifo + {x.id}))
            && (forall i :: 0 <= i < |s.queues| && i != q ==> QueueGood(s'.queues[i]))
            && Total(s'.queues) - s'.nrSorted == Total(s.queues) - s.nrSorted + 1
            && (extra == {x.id} ==> c.fifo == c.fifo + {x.id})
  {
    hide RrGood, Alias, Insert, Choose, Removed, Total, QueueGood, TreeAdd;
    var alias := Alias(s.queues[q].sort, x.key);
    var free := if alias.Some? then Dispatched(h, s, q, alias.value) else s;
    AfterAlias(h, s, q, x, extra);
    var c := free.queues[q];
    InsertedPart(h, c, x, extra);
    var c' := c.(sort := Insert(c.sort, x), next := Choose(h, Insert(c.sort, x), c.next, Some(x.id)));
    var mid := WithQueue(free, q, c');
    TotalUpdate(free.queues, q, c');
    SameFlagsKeeps(free, q, c');
    if !c.onRr {
      AddRrKeeps(mid, q, key);
      AddQueues(mid, q, key);
      TotalUpdate(mid.queues, q, c'.(onRr := true));
    }
    assert c'.(onRr := true).(fifo := c.fifo + {x.id})
        == c.(sort := Insert(c.sort, x), next := Choose(h, Insert(c.sort, x), c.next, Some(x.id)),
              fifo := c.fifo + {x.id}, onRr := true);
  }

  lemma AddQueues(s: State, q: nat, key: nat)
    requires q < |s.queues|
    ensures AddRr(s, q, key).queues == s.queues[q := s.queues[q].(onRr := true)]
    ensures AddRr(s, q, key).nrSorted == s.nrSorted
  {
  }

  lemma AfterAlias(h: Head, s: State, q: nat, x: Item, extra: set<nat>)
    requires Part(s, q, extra) && x.id !in Ids(s.queues[q].sort)
    requires extra == {x.id} || (extra == {} && x.id !in s.queues[q].fifo)
    ensures var alias := Alias(s.queues[q].sort, x.key);
            var free := if alias.Some? then Dispatched(h, s, q, alias.value) else s;
            && Part(free, q, extra) && |free.queues| == |s.queues|
            && Alias(free.queues[q].sort, x.key).None? && x.id !in Ids(free.queues[q].sort)
            && (extra == {} ==> x.id !in free.queues[q].fifo) && (extra == {x.id} ==> x.id in free.queues[q].fifo)
            && Total(free.queues) - free.nrSorted == Total(s.queues) - s.nrSorted
  {
    hide RrGood, Alias, Removed, Total, QueueGood, Distinct, Ascending, Ids, Drop, FindNext;
    var c := s.queues[q];
    var alias := Alias(c.sort, x.key);
    AliasFacts(c.sort, x.key);
    if alias.Some? {
      RemovedKeeps(h, s, q, alias.value, extra);
      DropFacts(c.sort, alias.value);
      RrOnly(Removed(h, s, q, alias.value), s.out + [alias.value], s.nrSorted - 1);
      RemovedCount(h, s, q, alias.value);
    }
  }

  lemma RemovedCount(h: Head, s: State, q: nat, id: nat)
    requires q < |s.queues|
    ensures Removed(h, s, q, id).nrSorted == s.nrSorted && Removed(h, s, q, id).out == s.out
  {
  }

  lemma RrOnly(s: State, out: seq<nat>, nr: int)
    requires RrGood(s)
    ensures RrGood(s.(out := out, nrSorted := nr))
  {
  }

  datatype Event =
    | Add(q: nat, id: nat, sector: nat, key: nat)
    | Reposition(q: nat, id: nat, sector: nat, key: nat)
    | Absorb(q: nat, id: nat)
    | Dispatch(q: nat, id: nat)
    | Resort(q: nat, key: nat)
    | Lookup

  ghost predicate Legal(s: State, e: Event) {
    match e
    case Add(q, id, _, _) => q < |s.queues| && forall i :: 0 <= i < |s.queues| ==> id !in s.queues[i].fifo
    case Reposition(q, id, _, _) => q < |s.queues| && id in Ids(s.queues[q].sort)
    case Absorb(q, id) => q < |s.queues| && id in Ids(s.queues[q].sort)
    case Dispatch(q, id) => q < |s.queues| && id in Ids(s.queues[q].sort)
    case Resort(q, _) => q < |s.queues|
    case Lookup => true
  }

  /** elv_insert's count and cfq_insert_request. */
  function Added(h: Head, s: State, q: nat, id: nat, sector: nat, key: nat): State
    requires q < |s.queues|
  {
    var s := Entered(h, s.(nrSorted := s.nrSorted + 1), q, Item(id, sector), key);
    if q < |s.queues| then WithQueue(s, q, s.queues[q].(fifo := s.queues[q].fifo + {id})) else s
  }

  /** cfq_reposition_rq_rb after a front merge. */
  function Repositioned(h: Head, s: State, q: nat, id: nat, sector: nat, key: nat): State
    requires q < |s.queues|
  {
    Entered(h, WithQueue(s, q, s.queues[q].(sort := Drop(s.queues[q].sort, id))), q, Item(id, sector), key)
  }

  /** cfq_resort_rr_list. */
  function Resorted(s: State, q: nat, key: nat): State
    requires q < |s.queues|
  {
    var x := Slot(q, s.queues[q].rank, key);
    if !s.queues[q].onRr || x in s.service then s else TreeAdd(TreeErase(s, q), x)
  }

  /** cfq_rb_first fills the cache. */
  function Looked(s: State): State { if s.left.None? then s.(left := First(s.service)) else s }

  function Step(h: Head, s: State, e: Event): State
    requires Legal(s, e)
  {
    match e
    case Add(q, id, sector, key) => Added(h, s, q, id, sector, key)
    case Reposition(q, id, sector, key) => Repositioned(h, s, q, id, sector, key)
    case Absorb(q, id) => Removed(h, s, q, id).(nrSorted := s.nrSorted - 1)
    case Dispatch(q, id) => Dispatched(h, s, q, id)
    case Resort(q, key) => Resorted(s, q, key)
    case Lookup => Looked(s)
  }

  lemma GoodPart(s: State, q: nat)
    requires Good(s) && q < |s.queues|
    ensures Part(s, q, {})
  {
  }

  lemma AddedKeeps(h: Head, s: State, q: nat, id: nat, sector: nat, key: nat)
    requires Good(s) && q < |s.queues| && id !in s.queues[q].fifo
    ensures Good(Added(h, s, q, id, sector, key)) && |Added(h, s, q, id, sector, key).queues| == |s.queues|
  {
    hide RrGood, Entered, Total, Ids, Distinct, Ascending;
    GoodPart(s, q);
    RrOnly(s, s.out, s.nrSorted + 1);
    var more := s.(nrSorted := s.nrSorted + 1);
    EnteredKeeps(h, more, q, Item(id, sector), key, {});
    var mid := Entered(h, more, q, Item(id, sector), key);
    var c := mid.queues[q];
    SameFlagsKeeps(mid, q, c.(fifo := c.fifo + {id}));
    TotalUpdate(mid.queues, q, c.(fifo := c.fifo + {id}));
  }

  lemma RepositionedKeeps(h: Head, s: State, q: nat, id: nat, sector: nat, key: nat)
    requires Good(s) && q < |s.queues| && id in Ids(s.queues[q].sort)
    ensures Good(Repositioned(h, s, q, id, sector, key))
    ensures |Repositioned(h, s, q, id, sector, key).queues| == |s.queues|
  {
    hide RrGood, Entered, Total, Ids, Distinct, Ascending, Drop;
    var c := s.queues[q];
    DropFacts(c.sort, id);
    DropAscending(c.sort, id);
    SizeAfterDrop(c.sort, id);
    var c' := c.(sort := Drop(c.sort, id));
    SameFlagsKeeps(s, q, c');
    TotalUpdate(s.queues, q, c');
    var mid := WithQueue(s, q, c');
    assert QueuePart(c', {id});
    EnteredKeeps(h, mid, q, Item(id, sector), key, {id});
  }

  lemma RemovedGood(h: Head, s: State, q: nat, id: nat)
    requires Good(s) && q < |s.queues| && id in Ids(s.queues[q].sort)
    ensures Good(Removed(h, s, q, id).(nrSorted := s.nrSorted - 1)) && Good(Dispatched(h, s, q, id))
    ensures |Dispatched(h, s, q, id).queues| == |s.queues|
  {
    hide RrGood, QueueGood, Total, Removed, Taken;
    GoodPart(s, q);
    RemovedKeeps(h, s, q, id, {});
    RemovedCount(h, s, q, id);
    RrOnly(Removed(h, s, q, id), s.out, s.nrSorted - 1);
    RrOnly(Removed(h, s, q, id), s.out + [id], s.nrSorted - 1);
  }

  lemma ResortedKeeps(s: State, q: nat, key: nat)
    requires Good(s) && q < |s.queues|
    ensures Good(Resorted(s, q, key)) && |Resorted(s, q, key).queues| == |s.queues|
  {
    hide QueueGood, Total, OrderlyTree, Members, SlotInsert, SlotDrop;
    if s.queues[q].onRr {
      var x := Slot(q, s.queues[q].rank, key);
      BusyWithMember(s, q);
      SlotDropFacts(s.service, q);
      SlotOf(s.service, q);
      SlotInsertFacts(SlotDrop(s.service, q), x);
    }
  }

  lemma StepKeeps(h: Head, s: State, e: Event)
    requires Good(s) && Legal(s, e)
    ensures Good(Step(h, s, e)) && |Step(h, s, e).queues| == |s.queues|
  {
    hide Added, Repositioned, Resorted, Removed;
    match e
    case Add(q, id, sector, key) => AddedKeeps(h, s, q, id, sector, key);
    case Reposition(q, id, sector, key) => RepositionedKeeps(h, s, q, id, sector, key);
    case Absorb(q, id) => RemovedGood(h, s, q, id);
    case Dispatch(q, id) => RemovedGood(h, s, q, id);
    case Resort(q, key) => ResortedKeeps(s, q, key);
    case Lookup => {}
  }

  ghost predicate Runs(s: State, es: seq<(Head, Event)>)
    decreases |es|
  {
    es == [] || (Legal(s, es[0].1) && Runs(Step(es[0].0, s, es[0].1), es[1..]))
  }

  ghost function Run(s: State, es: seq<(Head, Event)>): State
    requires Runs(s, es)
    decreases |es|
  {
    if es == [] then s else Run(Step(es[0].0, s, es[0].1), es[1..])
  }

  function Start(ranks: seq<nat>): State {
    State(seq(|ranks|, i requires 0 <= i < |ranks| => Queue([], {}, None, false, ranks[i])), [], None, 0, 0, 0,
          [])
  }

  /** Every run keeps the bookkeeping exact, wherever the head is at each step. */
  lemma {:induction false} RunGood(s: State, es: seq<(Head, Event)>)
    requires Good(s) && Runs(s, es)
    ensures Good(Run(s, es))
    decreases |es|
  {
    hide Good, Legal, Step;
    if es != [] {
      StepKeeps(es[0].0, s, es[0].1);
      RunGood(Step(es[0].0, s, es[0].1), es[1..]);
    }
  }

  lemma StartGood(ranks: seq<nat>)
    ensures Good(Start(ranks))
  {
    NothingTotal(Start(ranks).queues);
  }

  lemma {:induction false} NothingTotal(queues: seq<Queue>)
    requires forall i :: 0 <= i < |queues| ==> queues[i].sort == []
    ensures Total(queues) == 0
  {
    if queues != [] {
      NothingTotal(queues[1..]);
    }
  }

  /** All requests held by the queues. */
  ghost function AllIds(queues: seq<Queue>): multiset<nat> {
    if queues == [] then multiset{} else multiset(Ids(queues[0].sort)) + AllIds(queues[1..])
  }

  lemma {:induction false} AllIdsUpdate(queues: seq<Queue>, q: nat, c: Queue)
    requires q < |queues|
    ensures AllIds(queues[q := c]) + multiset(Ids(queues[q].sort)) == AllIds(queues) + multiset(Ids(c.sort))
  {
    hide Ids;
    if q > 0 {
      AllIdsUpdate(queues[1..], q - 1, c);
      assert queues[q := c][1..] == queues[1..][q - 1 := c];
      var head, was := multiset(Ids(queues[0].sort)), multiset(Ids(queues[q].sort));
      var rest, rest' := AllIds(queues[1..]), AllIds(queues[1..][q - 1 := c]);
      assert AllIds(queues[q := c]) == head + rest';
      assert (head + rest') + was == head + (rest' + was);
      assert (head + rest) + multiset(Ids(c.sort)) == head + (rest + multiset(Ids(c.sort)));
    } else {
      assert queues[q := c][1..] == queues[1..];
      assert AllIds(queues[q := c]) == multiset(Ids(c.sort)) + AllIds(queues[1..]);
    }
  }

  lemma Exchange(out: multiset<nat>, out': multiset<nat>, held: multiset<nat>, held': multiset<nat>,
                 ids: multiset<nat>, ids': multiset<nat>)
    requires out' + ids' == out + ids && held' + ids == held + ids'
    ensures out' + held' == out + held
  {
    forall x ensures (out' + held')[x] == (out + held)[x] {
      assert (out' + ids')[x] == (out + ids)[x] && (held' + ids)[x] == (held + ids')[x];
    }
  }

  lemma DispatchMoves(h: Head, s: State, q: nat, id: nat)
    requires Part(s, q, {}) && id in Ids(s.queues[q].sort)
    ensures var s' := Dispatched(h, s, q, id);
            && multiset(s'.out) + AllIds(s'.queues) == multiset(s.out) + AllIds(s.queues)
            && |s'.queues| == |s.queues| && s'.queues[q].sort == Drop(s.queues[q].sort, id)
            && (s'.service == s.service || s'.service == SlotDrop(s.service, q))
  {
    hide RrGood, Distinct, Ascending, Ids, Drop, FindNext, AllIds;
    var c := s.queues[q];
    var c' := Taken(h, c, id);
    DropFacts(c.sort, id);
    OneMoved(s.out, Ids(c.sort), id);
    AllIdsUpdate(s.queues, q, c');
    AllIdsUpdate(s.queues, q, c'.(onRr := false));
    var s' := Dispatched(h, s, q, id);
    assert s'.queues == s.queues[q := c'] || s'.queues == s.queues[q := c'.(onRr := false)];
    Exchange(multiset(s.out), multiset(s'.out), AllIds(s.queues), AllIds(s'.queues),
             multiset(Ids(c.sort)), multiset(Ids(c'.sort)));
  }

  /** The data as the scheduler updates it. */
  class Data {
    var queues: seq<Queue>
    var service: seq<Slot>
    var left: Option<Slot>
    var busy: nat
    var busyRt: int
    var nrSorted: int
    var out: seq<nat>

    function View(): State
      reads this
    {
      State(queues, service, left, busy, busyRt, nrSorted, out)
    }

    /** cfq_rb_first: the cache, filled if it is empty, is the first node of the tree. */
    method RbFirst() returns (first: Option<Slot>)
      requires RrGood(View())
      modifies this`left
      ensures View() == Looked(old(View())) && first == First(service)
    {
      if left.None? {
        left := if service == [] then None else Some(service[0]);
      }
      first := left;
    }

    method DelCfqqRr(q: nat)
      requires q < |queues| && busy > 0
      modifies this
      ensures View() == DelRr(old(View()), q)
    {
      queues := queues[q := queues[q].(onRr := false)];
      if left.Some? && left.value.q == q {
        left := None;
      }
      service := SlotDrop(service, q);
      busy, busyRt := busy - 1, busyRt - OneRt(queues[q].rank);
    }

    method DispatchInsert(h: Head, q: nat, id: nat)
      requires Part(View(), q, {}) && id in Ids(queues[q].sort)
      modifies this
      ensures View() == Dispatched(h, old(View()), q, id)
    {
      hide RrGood, QueueGood, FindNext, Ids, Drop;
      RemovedKeeps(h, View(), q, id, {});
      var c := queues[q];
      if c.next == Some(id) {
        c := c.(next := FindNext(h, c.sort, id));
      }
      c := c.(fifo := c.fifo - {id}, sort := Drop(c.sort, id));
      queues := queues[q := c];
      BusyWithMember(old(View()), q);
      if c.onRr && c.sort == [] {
        DelCfqqRr(q);
      }
      out := out + [id];
      nrSorted := nrSorted - 1;
    }

    /** __cfq_forced_dispatch_cfqq: the fifo is empty afterwards too. */
    method ForcedQueue(h: Head, q: nat) returns (dispatched: nat)
      requires Good(View()) && q < |queues|
      modifies this
      ensures Good(View()) && |queues| == |old(queues)|
      ensures queues[q].sort == [] && queues[q].fifo == {} && !queues[q].onRr
      ensures nrSorted == old(nrSorted) - dispatched
      ensures old(queues)[q].sort != [] ==> dispatched > 0
      ensures multiset(out) + AllIds(queues) == multiset(old(out)) + AllIds(old(queues))
      ensures old(queues)[q].sort != [] ==> |service| < |old(service)|
    {
      hide RrGood, QueuePart, Total, AllIds, Dispatched;
      dispatched := 0;
      while queues[q].next.Some?
        invariant Good(View()) && |queues| == |old(queues)|
        invariant nrSorted == old(nrSorted) - dispatched
        invariant dispatched == 0 ==> queues == old(queues) && service == old(service)
        invariant multiset(out) + AllIds(queues) == multiset(old(out)) + AllIds(old(queues))
        invariant |service| <= |old(service)| && (queues[q].sort == [] && dispatched > 0 ==> |service| < |old(service)|)
        decreases |queues[q].sort|
      {
        var id := queues[q].next.value;
        NextHeld(View(), q);
        GoodPart(View(), q);
        RemovedGood(h, View(), q, id);
        DispatchMoves(h, View(), q, id);
        DispatchCount(h, View(), q, id);
        DispatchInsert(h, q, id);
        dispatched := dispatched + 1;
      }
      EmptyQueue(View(), q);
    }

    /** cfq_forced_dispatch, and with it elv_drain_elevator: everything is handed over, each request once,
        and neither of its BUG_ONs is met. */
    method ForcedDispatch(h: Head) returns (dispatched: nat)
      requires Good(View())
      modifies this
      ensures Good(View()) && service == [] && busy == 0 && busyRt == 0 && nrSorted == 0 && dispatched == old(nrSorted)
      ensures forall q :: 0 <= q < |queues| ==> queues[q].sort == []
      ensures multiset(out) == multiset(old(out)) + AllIds(old(queues))
    {
      hide RrGood, QueueGood, Total, AllIds;
      dispatched := 0;
      RrOf(View());
      var first := RbFirst();
      while first.Some?
        invariant Good(View()) && first == First(service) && nrSorted == old(nrSorted) - dispatched
        invariant multiset(out) + AllIds(queues) == multiset(old(out)) + AllIds(old(queues))
        decreases |service|
      {
        FirstBusy(View());
        var n := ForcedQueue(h, first.value.q);
        dispatched := dispatched + n;
        RrOf(View());
        first := RbFirst();
        LookedGood(View());
      }
      AllDrained(View());
    }
  }

  lemma RrOf(s: State)
    requires Good(s)
    ensures RrGood(s) && Good(Looked(s))
  {
  }

  lemma LookedGood(s: State)
    requires Good(s)
    ensures Good(Looked(s))
  {
  }

  lemma NextHeld(s: State, q: nat)
    requires Good(s) && q < |s.queues| && s.queues[q].next.Some?
    ensures s.queues[q].next.value in Ids(s.queues[q].sort)
  {
  }

  lemma EmptyQueue(s: State, q: nat)
    requires Good(s) && q < |s.queues| && s.queues[q].next.None?
    ensures s.queues[q].sort == [] && s.queues[q].fifo == {} && !s.queues[q].onRr
  {
  }

  lemma FirstBusy(s: State)
    requires Good(s) && s.service != []
    ensures s.service[0].q < |s.queues| && s.queues[s.service[0].q].sort != []
  {
  }

  lemma DispatchCount(h: Head, s: State, q: nat, id: nat)
    requires Good(s) && q < |s.queues| && id in Ids(s.queues[q].sort)
    ensures var s' := Dispatched(h, s, q, id);
            && |s'.queues| == |s.queues| && |s'.queues[q].sort| == |s.queues[q].sort| - 1
            && s'.nrSorted == s.nrSorted - 1 && |s'.service| <= |s.service|
            && (s'.queues[q].sort == [] ==> |s'.service| < |s.service|)
  {
    hide Ids, Distinct, Ascending, Total, FindNext, Drop, OrderlyTree, SlotDrop;
    GoodPart(s, q);
    SizeAfterDrop(s.queues[q].sort, id);
    BusyWithMember(s, q);
    SlotDropFacts(s.service, q);
    hide Members;
  }

  lemma AllDrained(s: State)
    requires Good(s) && s.service == []
    ensures s.busy == 0 && s.busyRt == 0 && s.nrSorted == 0 && AllIds(s.queues) == multiset{}
    ensures forall q :: 0 <= q < |s.queues| ==> s.queues[q].sort == []
  {
    forall q | 0 <= q < |s.queues| ensures s.queues[q].sort == [] {
      assert q in Members(s.service) <==> s.queues[q].onRr;
      assert QueueGood(s.queues[q]);
    }
    NothingTotal(s.queues);
    NothingHeld(s.queues);
  }

  lemma {:induction false} NothingHeld(queues: seq<Queue>)
    requires forall i :: 0 <= i < |queues| ==> queues[i].sort == []
    ensures AllIds(queues) == multiset{}
  {
    if queues != [] {
      NothingHeld(queues[1..]);
    }
  }

  /** The service tree with its shape. */
  datatype Tree = Leaf | Node(less: Tree, slot: Slot, more: Tree)

  function InOrderOf(t: Tree): seq<Slot> {
    match t
    case Leaf => []
    case Node(less, slot, more) => InOrderOf(less) + [slot] + InOrderOf(more)
  }

  /** The descent of cfq_service_tree_add: the grown tree, and whether it never went right. */
  function Descend(t: Tree, x: Slot): (Tree, bool) {
    match t
    case Leaf => (Node(Leaf, x, Leaf), true)
    case Node(less, slot, more) =>
      if Before(x, slot) then (Node(Descend(less, x).0, slot, more), Descend(less, x).1)
      else (Node(less, slot, Descend(more, x).0), false)
  }

  predicate Sorted(service: seq<Slot>) {
    forall i, j :: 0 <= i < j < |service| ==> !Before(service[j], service[i])
  }

  lemma {:induction false} InsertPast(a: seq<Slot>, rest: seq<Slot>, x: Slot)
    requires forall z :: z in a ==> !Before(x, z)
    ensures SlotInsert(a + rest, x) == a + SlotInsert(rest, x)
  {
    if a == [] {
      assert a + rest == rest;
    } else {
      InsertPast(a[1..], rest, x);
      assert (a + rest)[1..] == a[1..] + rest && (a + rest)[0] == a[0];
    }
  }

  lemma {:induction false} InsertWithin(a: seq<Slot>, rest: seq<Slot>, x: Slot)
    requires rest != [] && Before(x, rest[0])
    ensures SlotInsert(a + rest, x) == SlotInsert(a, x) + rest
  {
    if a == [] {
      assert a + rest == rest;
    } else if !Before(x, a[0]) {
      InsertWithin(a[1..], rest, x);
      assert (a + rest)[1..] == a[1..] + rest && (a + rest)[0] == a[0];
    }
  }

  lemma GoLeft(a: seq<Slot>, y: Slot, b: seq<Slot>, x: Slot)
    requires Before(x, y)
    ensures SlotInsert(a + [y] + b, x) == SlotInsert(a, x) + [y] + b
    ensures SlotInsert(a, x) != [] && (SlotInsert(a + [y] + b, x)[0] == x <==> SlotInsert(a, x)[0] == x)
  {
    InsertWithin(a, [y] + b, x);
    assert a + [y] + b == a + ([y] + b);
  }

  lemma GoRight(a: seq<Slot>, y: Slot, b: seq<Slot>, x: Slot)
    requires !Before(x, y) && Sorted(a + [y] + b) && x !in a + [y] + b
    ensures SlotInsert(a + [y] + b, x) == a + [y] + SlotInsert(b, x)
    ensures SlotInsert(a + [y] + b, x)[0] != x
  {
    var all := a + [y] + b;
    forall z | z in a ensures !Before(x, z) {
      var i :| 0 <= i < |a| && a[i] == z;
      assert all[i] == z && all[|a|] == y;
    }
    InsertPast(a + [y], b, x);
    assert SlotInsert(all, x)[0] == all[0];
  }

  lemma SortedParts(a: seq<Slot>, y: Slot, b: seq<Slot>)
    requires Sorted(a + [y] + b)
    ensures Sorted(a) && Sorted(b)
  {
    var all := a + [y] + b;
    assert a == all[..|a|] && b == all[|a| + 1..];
  }

  /** Whatever the tree's shape, the descent inserts in service order, and it never goes right exactly
      when the new node is the first one: that is what the leftmost cache is set by. */
  lemma {:induction false} DescentFindsPlace(t: Tree, x: Slot)
    requires Sorted(InOrderOf(t)) && x !in InOrderOf(t)
    ensures InOrderOf(Descend(t, x).0) == SlotInsert(InOrderOf(t), x) != []
    ensures Descend(t, x).1 <==> SlotInsert(InOrderOf(t), x)[0] == x
  {
    hide Sorted, SlotInsert, Before;
    if t.Node? {
      var a, b := InOrderOf(t.less), InOrderOf(t.more);
      SortedParts(a, t.slot, b);
      if Before(x, t.slot) {
        DescentFindsPlace(t.less, x);
        GoLeft(a, t.slot, b, x);
      } else {
        DescentFindsPlace(t.more, x);
        GoRight(a, t.slot, b, x);
      }
    } else {
      InsertAlone(x);
    }
  }

  lemma InsertAlone(x: Slot)
    ensures SlotInsert([], x) == [x]
  {
  }
}
