/** The deadline scheduler: one sorted list and one fifo per direction, a batch of sequential requests,
    and a count of how often reads were preferred to waiting writes. */
module Deadline {
  import opened Options
  import opened RequestLists

  datatype Dir = Read | Write

  datatype Lane = Lane(sort: seq<Item>, fifo: seq<Item>, next: Option<nat>)

  datatype State = State(read: Lane, write: Lane, batching: nat, starved: nat, clock: nat, out: seq<nat>)

  datatype Tunables = Tunables(fifoBatch: nat, writesStarved: nat, readExpire: nat, writeExpire: nat)

  function Of(s: State, d: Dir): Lane { if d.Read? then s.read else s.write }

  function Set(s: State, d: Dir, l: Lane): State { if d.Read? then s.(read := l) else s.(write := l) }

  function Expire(t: Tunables, d: Dir): nat { if d.Read? then t.readExpire else t.writeExpire }

  /** deadline_remove_request: out of the fifo and the sorted list, next_rq moved on if it was this one. */
  function Removed(l: Lane, id: nat): Lane {
    Lane(Drop(l.sort, id), Drop(l.fifo, id), if l.next == Some(id) then Latter(l.sort, id) else l.next)
  }

  /** deadline_move_request. */
  function Moved(s: State, d: Dir, id: nat): State {
    var s := s.(read := s.read.(next := None), write := s.write.(next := None));
    var l := Of(s, d).(next := Latter(Of(s, d).sort, id));
    Set(s, d, Removed(l, id)).(out := s.out + [id])
  }

  /** deadline_add_rq_rb: a request with the same first sector is moved to the dispatch queue first. */
  function Entered(s: State, d: Dir, x: Item): State {
    var alias := Alias(Of(s, d).sort, x.key);
    var s := if alias.Some? then Moved(s, d, alias.value) else s;
    Set(s, d, Of(s, d).(sort := Insert(Of(s, d).sort, x)))
  }

  /** deadline_add_request. */
  function Added(t: Tunables, s: State, d: Dir, id: nat, sector: nat, now: nat): State {
    var s := Entered(s, d, Item(id, sector)).(clock := now);
    Set(s, d, Of(s, d).(fifo := Of(s, d).fifo + [Item(id, now + Expire(t, d))]))
  }

  /** deadline_merged_request after a front merge. */
  function FrontMerged(s: State, d: Dir, id: nat, sector: nat): State {
    Entered(Set(s, d, Of(s, d).(sort := Drop(Of(s, d).sort, id))), d, Item(id, sector))
  }

  /** deadline_merged_requests: `next` is absorbed by `id`, which takes over the earlier expiry time. */
  function FifoMerged(fifo: seq<Item>, id: nat, next: nat): seq<Item>
    requires id in Ids(fifo) && next in Ids(fifo)
  {
    if KeyOf(fifo, next) < KeyOf(fifo, id) then InsertAfter(Drop(fifo, id), next, Item(id, KeyOf(fifo, next))) else fifo
  }

  function Merged(s: State, d: Dir, id: nat, next: nat): State
    requires id in Ids(Of(s, d).fifo) && next in Ids(Of(s, d).fifo)
  {
    Set(s, d, Removed(Of(s, d).(fifo := FifoMerged(Of(s, d).fifo, id, next)), next))
  }

  /** Both lists hold the same requests, each once, sorted by their keys; while one is being put back
      into the sorted list, `extra` holds it. */
  ghost predicate LanePart(l: Lane, latest: nat, extra: set<nat>) {
    && Distinct(l.sort) && Distinct(l.fifo) && Ids(l.fifo) == Ids(l.sort) + extra && extra !! Ids(l.sort)
    && Ascending(l.sort) && InOrder(l.fifo)
    && (forall x :: x in l.fifo ==> x.key <= latest)
    && (l.next.Some? ==> l.next.value in Ids(l.fifo))
  }

  function Other(d: Dir): Dir { if d.Read? then Write else Read }

  ghost predicate Part(t: Tunables, s: State, d: Dir, extra: set<nat>) {
    && LanePart(Of(s, d), s.clock + Expire(t, d), extra)
    && LanePart(Of(s, Other(d)), s.clock + Expire(t, Other(d)), {})
    && (s.read.next.None? || s.write.next.None?)
    && Ids(s.read.fifo) !! Ids(s.write.fifo)
  }

  /** Between operations: the lists of each direction agree, and at most one direction has a next request. */
  ghost predicate Good(t: Tunables, s: State) { Part(t, s, Read, {}) }

  lemma GoodEither(t: Tunables, s: State, d: Dir)
    ensures Good(t, s) <==> Part(t, s, d, {})
  {
  }

  lemma RemovedPart(l: Lane, id: nat, latest: nat, extra: set<nat>)
    requires LanePart(l, latest, extra) && id in Ids(l.sort)
    ensures LanePart(Removed(l, id), latest, extra) && Ids(Removed(l, id).fifo) == Ids(l.fifo) - {id}
  {
    hide Distinct, Ids, Ascending, InOrder, Drop, Latter;
    DropFacts(l.sort, id);
    DropFacts(l.fifo, id);
    DropAscending(l.sort, id);
    DropAscending(l.fifo, id);
    LatterMember(l.sort, id);
  }

  lemma LaterPart(l: Lane, latest: nat, later: nat, extra: set<nat>)
    requires LanePart(l, latest, extra) && latest <= later
    ensures LanePart(l, later, extra)
  {
  }

  lemma MovedKeeps(t: Tunables, s: State, d: Dir, id: nat, extra: set<nat>)
    requires Part(t, s, d, extra) && id in Ids(Of(s, d).sort)
    ensures Part(t, Moved(s, d, id), d, extra)
    ensures Ids(Of(Moved(s, d, id), d).fifo) == Ids(Of(s, d).fifo) - {id}
  {
    hide LanePart, Removed;
    var l := Of(s, d).(next := Latter(Of(s, d).sort, id));
    NextPart(Of(s, d), id, s.clock + Expire(t, d), extra);
    RemovedPart(l, id, s.clock + Expire(t, d), extra);
    ClearPart(Of(s, Other(d)), s.clock + Expire(t, Other(d)));
    RemovedNext(l, id);
  }

  lemma NextPart(l: Lane, id: nat, latest: nat, extra: set<nat>)
    requires LanePart(l, latest, extra)
    ensures LanePart(l.(next := Latter(l.sort, id)), latest, extra)
  {
    hide Distinct, Ids, Ascending, InOrder, Latter;
    LatterMember(l.sort, id);
  }

  lemma ClearPart(l: Lane, latest: nat)
    requires LanePart(l, latest, {})
    ensures LanePart(l.(next := None), latest, {})
  {
  }

  lemma RemovedNext(l: Lane, id: nat)
    ensures l.next == None ==> Removed(l, id).next == None
  {
  }

  /** Putting a request into the sorted list, where `extra` may already hold it. */
  lemma EnteredKeeps(t: Tunables, s: State, d: Dir, x: Item, extra: set<nat>)
    requires Part(t, s, d, extra) && x.id !in Ids(Of(s, d).sort) && (x.id in extra || x.id !in Ids(Of(s, d).fifo))
    ensures var s' := Entered(s, d, x); var l := Of(s', d);
            && Distinct(l.sort) && Ascending(l.sort) && Distinct(l.fifo) && InOrder(l.fifo)
            && (exists gone: set<nat> :: gone <= Ids(Of(s, d).sort) && x.id !in gone
                  && Ids(l.sort) == Ids(Of(s, d).sort) - gone + {x.id} && Ids(l.fifo) == Ids(Of(s, d).fifo) - gone)
            && (forall y :: y in l.fifo ==> y.key <= s.clock + Expire(t, d))
            && (l.next.Some? ==> l.next.value in Ids(l.fifo))
            && LanePart(Of(s', Other(d)), s.clock + Expire(t, Other(d)), {})
            && (s'.read.next.None? || s'.write.next.None?)
            && s'.clock == s.clock && Ids(Of(s', Other(d)).fifo) == Ids(Of(s, Other(d)).fifo)
  {
    hide Distinct, Ids, Ascending, InOrder, Alias, Moved, Insert;
    var alias := Alias(Of(s, d).sort, x.key);
    AliasFacts(Of(s, d).sort, x.key);
    var free := if alias.Some? then Moved(s, d, alias.value) else s;
    ghost var gone: set<nat> := {};
    if alias.Some? {
      gone := {alias.value};
      MovedKeeps(t, s, d, alias.value, extra);
      MovedIs(s, d, alias.value);
      DropFacts(Of(s, d).sort, alias.value);
    }
    InsertFacts(Of(free, d).sort, x);
    InsertAscending(Of(free, d).sort, x);
    assert gone <= Ids(Of(s, d).sort) && x.id !in gone;
  }

  lemma MovedIs(s: State, d: Dir, id: nat)
    ensures var s' := Moved(s, d, id);
            && Of(s', d).sort == Drop(Of(s, d).sort, id) && Of(s', d).fifo == Drop(Of(s, d).fifo, id)
            && Of(s', Other(d)) == Of(s, Other(d)).(next := None)
            && s'.batching == s.batching && s'.starved == s.starved && s'.clock == s.clock && s'.out == s.out + [id]
  {
  }

  lemma AddedKeeps(t: Tunables, s: State, d: Dir, id: nat, sector: nat, now: nat)
    requires Good(t, s) && now >= s.clock && id !in Ids(s.read.fifo) + Ids(s.write.fifo)
    ensures Good(t, Added(t, s, d, id, sector, now))
  {
    hide Distinct, Ids, Ascending, InOrder, Entered;
    GoodEither(t, s, d);
    EnteredKeeps(t, s, d, Item(id, sector), {});
    var mid := Entered(s, d, Item(id, sector));
    LaterPart(Of(mid, Other(d)), s.clock + Expire(t, Other(d)), now + Expire(t, Other(d)), {});
    AppendFacts(Of(mid, d).fifo, Item(id, now + Expire(t, d)));
    GoodEither(t, Added(t, s, d, id, sector, now), d);
  }

  lemma FrontMergedKeeps(t: Tunables, s: State, d: Dir, id: nat, sector: nat)
    requires Good(t, s) && id in Ids(Of(s, d).sort)
    ensures Good(t, FrontMerged(s, d, id, sector))
  {
    hide Distinct, Ids, Ascending, InOrder, Entered, Drop;
    GoodEither(t, s, d);
    DropFacts(Of(s, d).sort, id);
    DropAscending(Of(s, d).sort, id);
    var mid := Set(s, d, Of(s, d).(sort := Drop(Of(s, d).sort, id)));
    assert Part(t, mid, d, {id});
    EnteredKeeps(t, mid, d, Item(id, sector), {id});
    GoodEither(t, FrontMerged(s, d, id, sector), d);
  }

  lemma FifoMergedFacts(fifo: seq<Item>, id: nat, next: nat)
    requires Distinct(fifo) && InOrder(fifo) && id in Ids(fifo) && next in Ids(fifo) && id != next
    ensures var r := FifoMerged(fifo, id, next);
            && Distinct(r) && InOrder(r) && Ids(r) == Ids(fifo)
            && forall y :: y in r ==> exists x :: x in fifo && y.key == x.key
  {
    hide Distinct, InOrder, Ids, KeyOf, Drop, InsertAfter;
    KeyMember(fifo, next);
    DropFacts(fifo, id);
    DropAscending(fifo, id);
    KeyAfterDrop(fifo, id, next);
    var x := Item(id, KeyOf(fifo, next));
    InsertAfterFacts(Drop(fifo, id), next, x);
    InsertAfterInOrder(Drop(fifo, id), next, x);
    forall y | y in FifoMerged(fifo, id, next) ensures exists x :: x in fifo && y.key == x.key {
      if y == x {
        assert Item(next, KeyOf(fifo, next)) in fifo;
      } else {
        assert y in fifo;
      }
    }
  }

  lemma MergedKeeps(t: Tunables, s: State, d: Dir, id: nat, next: nat)
    requires Good(t, s) && id in Ids(Of(s, d).sort) && next in Ids(Of(s, d).sort) && id != next
    ensures Good(t, Merged(s, d, id, next))
  {
    hide Distinct, Ids, Ascending, InOrder, Removed, FifoMerged;
    GoodEither(t, s, d);
    FifoMergedFacts(Of(s, d).fifo, id, next);
    var l := Of(s, d).(fifo := FifoMerged(Of(s, d).fifo, id, next));
    assert LanePart(l, s.clock + Expire(t, d), {});
    RemovedPart(l, next, s.clock + Expire(t, d), {});
    RemovedNext(l, next);
    GoodEither(t, Merged(s, d, id, next), d);
  }

  /** What deadline_dispatch_requests decides: the request, and the batch and starvation counts it leaves. */
  datatype Pick = Nothing | Serve(dir: Dir, id: nat, batching: nat, starved: nat)

  /** The part behind dispatch_find_request: expired or out of order, start again from the fifo. */
  function Found(l: Lane, now: nat): nat
    requires l.fifo != []
  {
    if now > l.fifo[0].key || l.next.None? then l.fifo[0].id else l.next.value
  }

  function Picked(t: Tunables, s: State, now: nat): Pick {
    var readers, writers := s.read.fifo != [], s.write.fifo != [];
    if s.write.next.Some? && s.batching < t.fifoBatch then
      Serve(Write, s.write.next.value, s.batching + 1, s.starved)
    else if s.write.next.None? && s.read.next.Some? && s.batching < t.fifoBatch then
      Serve(Read, s.read.next.value, s.batching + 1, s.starved)
    else if readers && !(writers && s.starved >= t.writesStarved) then
      Serve(Read, Found(s.read, now), 1, if writers then s.starved + 1 else s.starved)
    else if writers then Serve(Write, Found(s.write, now), 1, 0)
    else Nothing
  }

  function Dispatched(t: Tunables, s: State, now: nat): State {
    match Picked(t, s, now)
    case Nothing => s.(clock := now)
    case Serve(d, id, batching, starved) =>
      Moved(s.(batching := batching, starved := starved, clock := now), d, id)
  }

  lemma PickedHeld(t: Tunables, s: State, now: nat)
    requires Good(t, s)
    ensures var p := Picked(t, s, now);
            && (p.Nothing? <==> s.read.fifo == [] && s.write.fifo == [])
            && (p.Serve? ==> p.id in Ids(Of(s, p.dir).sort))
  {
  }

  lemma DispatchedKeeps(t: Tunables, s: State, now: nat)
    requires Good(t, s) && now >= s.clock
    ensures Good(t, Dispatched(t, s, now))
  {
    hide LanePart, Moved, Picked;
    PickedHeld(t, s, now);
    var p := Picked(t, s, now);
    LaterPart(s.read, s.clock + t.readExpire, now + t.readExpire, {});
    LaterPart(s.write, s.clock + t.writeExpire, now + t.writeExpire, {});
    if p.Serve? {
      var mid := s.(batching := p.batching, starved := p.starved, clock := now);
      assert Good(t, mid);
      GoodEither(t, mid, p.dir);
      MovedKeeps(t, mid, p.dir, p.id, {});
      GoodEither(t, Dispatched(t, s, now), p.dir);
    }
  }

  /** A pick made because of expiry is the earliest deadline of its direction. */
  lemma ExpiredIsEarliest(t: Tunables, s: State, now: nat)
    requires Good(t, s) && Picked(t, s, now).Serve?
    requires s.batching >= t.fifoBatch || (s.read.next.None? && s.write.next.None?)
    requires var fifo := Of(s, Picked(t, s, now).dir).fifo; fifo != [] && now > fifo[0].key
    ensures var p := Picked(t, s, now); var fifo := Of(s, p.dir).fifo;
            p.id == fifo[0].id && forall x :: x in fifo ==> fifo[0].key <= x.key
  {
  }

  datatype Event =
    | Add(d: Dir, id: nat, sector: nat, now: nat)
    | FrontMerge(d: Dir, id: nat, sector: nat)
    | MergeRequests(d: Dir, id: nat, next: nat)
    | Dispatch(now: nat)

  predicate Legal(s: State, e: Event) {
    match e
    case Add(d, id, _, now) => now >= s.clock && id !in Ids(s.read.fifo) + Ids(s.write.fifo)
    case FrontMerge(d, id, _) => id in Ids(Of(s, d).sort)
    case MergeRequests(d, id, next) =>
      id in Ids(Of(s, d).sort) * Ids(Of(s, d).fifo) && next in Ids(Of(s, d).sort) * Ids(Of(s, d).fifo) && id != next
    case Dispatch(now) => now >= s.clock
  }

  function Step(t: Tunables, s: State, e: Event): State
    requires Legal(s, e)
  {
    match e
    case Add(d, id, sector, now) => Added(t, s, d, id, sector, now)
    case FrontMerge(d, id, sector) => FrontMerged(s, d, id, sector)
    case MergeRequests(d, id, next) => Merged(s, d, id, next)
    case Dispatch(now) => Dispatched(t, s, now)
  }

  predicate Runs(t: Tunables, s: State, es: seq<Event>)
    decreases |es|
  {
    es == [] || (Legal(s, es[0]) && Runs(t, Step(t, s, es[0]), es[1..]))
  }

  function Run(t: Tunables, s: State, es: seq<Event>): State
    requires Runs(t, s, es)
    decreases |es|
  {
    if es == [] then s else Run(t, Step(t, s, es[0]), es[1..])
  }

  function Start(now: nat): State { State(Lane([], [], None), Lane([], [], None), 0, 0, now, []) }

  lemma StepKeeps(t: Tunables, s: State, e: Event)
    requires Good(t, s) && Legal(s, e)
    ensures Good(t, Step(t, s, e))
  {
    hide Good, Added, FrontMerged, Merged, Dispatched;
    match e
    case Add(d, id, sector, now) => AddedKeeps(t, s, d, id, sector, now);
    case FrontMerge(d, id, sector) => FrontMergedKeeps(t, s, d, id, sector);
    case MergeRequests(d, id, next) => MergedKeeps(t, s, d, id, next);
    case Dispatch(now) => DispatchedKeeps(t, s, now);
  }

  /** Every run keeps the lists in agreement and each fifo sorted by expiry. */
  lemma {:induction false} RunGood(t: Tunables, s: State, es: seq<Event>)
    requires Good(t, s) && Runs(t, s, es)
    ensures Good(t, Run(t, s, es))
    decreases |es|
  {
    hide Good, Legal, Step;
    if es != [] {
      StepKeeps(t, s, es[0]);
      RunGood(t, Step(t, s, es[0]), es[1..]);
    }
  }

  lemma StartGood(t: Tunables, now: nat)
    ensures Good(t, Start(now))
  {
  }

  function Max(a: nat, b: nat): nat { if a < b then b else a }

  /** How many reads in a row may still be served while a write waits. */
  function Patience(t: Tunables, s: State): nat {
    (if s.starved < t.writesStarved then (t.writesStarved - s.starved) * Max(1, t.fifoBatch) else 0)
    + (if s.batching < t.fifoBatch then t.fifoBatch - s.batching else 0)
  }

  predicate ServesReadPastWrite(t: Tunables, s: State, now: nat) {
    s.write.fifo != [] && Picked(t, s, now).Serve? && Picked(t, s, now).dir.Read?
  }

  /** Every dispatch of the run serves a read although a write is waiting. */
  predicate OnlyReads(t: Tunables, s: State, es: seq<Event>)
    requires Runs(t, s, es)
    decreases |es|
  {
    es == [] || ((es[0].Dispatch? ==> ServesReadPastWrite(t, s, es[0].now)) && OnlyReads(t, Step(t, s, es[0]), es[1..]))
  }

  function Dispatches(es: seq<Event>): nat {
    if es == [] then 0 else (if es[0].Dispatch? then 1 else 0) + Dispatches(es[1..])
  }

  lemma PatienceSpent(t: Tunables, s: State, now: nat)
    requires ServesReadPastWrite(t, s, now)
    ensures Patience(t, Dispatched(t, s, now)) < Patience(t, s)
  {
  }

  lemma CountsStay(t: Tunables, s: State, e: Event)
    requires Legal(s, e) && !e.Dispatch?
    ensures Step(t, s, e).batching == s.batching && Step(t, s, e).starved == s.starved
  {
  }

  lemma {:induction false} ReadsWithinPatience(t: Tunables, s: State, es: seq<Event>)
    requires Runs(t, s, es) && OnlyReads(t, s, es)
    ensures Dispatches(es) <= Patience(t, s)
    decreases |es|
  {
    hide Patience, Step, Legal, ServesReadPastWrite;
    if es != [] {
      ReadsWithinPatience(t, Step(t, s, es[0]), es[1..]);
      OneStep(t, s, es[0]);
    }
  }

  lemma OneStep(t: Tunables, s: State, e: Event)
    requires Legal(s, e) && (e.Dispatch? ==> ServesReadPastWrite(t, s, e.now))
    ensures Patience(t, Step(t, s, e)) + (if e.Dispatch? then 1 else 0) <= Patience(t, s)
  {
    hide Added, FrontMerged, Merged, Dispatched, ServesReadPastWrite;
    if e.Dispatch? {
      PatienceSpent(t, s, e.now);
    } else {
      CountsStay(t, s, e);
    }
  }

  /** Writes are not starved: from any state, at most (writes_starved + 1) * max(1, fifo_batch) dispatch
      calls in a row serve reads while a write waits, whatever is added, moved or merged in between. */
  lemma WritesNotStarved(t: Tunables, s: State, es: seq<Event>)
    requires Runs(t, s, es) && OnlyReads(t, s, es)
    ensures Dispatches(es) <= (t.writesStarved + 1) * Max(1, t.fifoBatch)
  {
    ReadsWithinPatience(t, s, es);
    hide *;
    PatienceBound(t, s);
  }

  lemma PatienceBound(t: Tunables, s: State)
    ensures Patience(t, s) <= (t.writesStarved + 1) * Max(1, t.fifoBatch)
  {
  }

  /** The scheduler's data as its methods update it. */
  class Scheduler {
    const tunables: Tunables
    var read: Lane
    var write: Lane
    var batching: nat
    var starved: nat
    var out: seq<nat>
    ghost var clock: nat

    ghost function View(): State
      reads this
    {
      State(read, write, batching, starved, clock, out)
    }

    method RemoveRequest(d: Dir, id: nat)
      modifies this`read, this`write
      ensures View() == Set(old(View()), d, Removed(Of(old(View()), d), id))
    {
      var l := if d.Read? then read else write;
      l := l.(fifo := Drop(l.fifo, id));
      if l.next == Some(id) {
        l := l.(next := Latter(l.sort, id));
      }
      l := l.(sort := Drop(l.sort, id));
      if d.Read? {
        read := l;
      } else {
        write := l;
      }
    }

    method MoveRequest(d: Dir, id: nat)
      modifies this`read, this`write, this`out
      ensures View() == Moved(old(View()), d, id)
    {
      read := read.(next := None);
      write := write.(next := None);
      if d.Read? {
        read := read.(next := Latter(read.sort, id));
      } else {
        write := write.(next := Latter(write.sort, id));
      }
      RemoveRequest(d, id);
      out := out + [id];
    }

    /** deadline_add_rq_rb: the loop ends because a sector is there at most once. */
    method AddRb(d: Dir, x: Item)
      requires var l := if d.Read? then read else write; Distinct(l.sort) && Ascending(l.sort)
      modifies this`read, this`write, this`out
      ensures View() == Entered(old(View()), d, x)
    {
      hide Moved, Distinct, Ascending, Drop, Insert, Alias;
      AliasFacts(Of(View(), d).sort, x.key);
      var alias := Alias((if d.Read? then read else write).sort, x.key);
      while alias.Some?
        invariant alias == Alias(Of(View(), d).sort, x.key)
        invariant View() == old(View())
                  || (alias.None? && Alias(Of(old(View()), d).sort, x.key).Some?
                      && View() == Moved(old(View()), d, Alias(Of(old(View()), d).sort, x.key).value))
        decreases alias.Some?
      {
        MovedIs(View(), d, alias.value);
        MoveRequest(d, alias.value);
        alias := Alias((if d.Read? then read else write).sort, x.key);
      }
      if d.Read? {
        read := read.(sort := Insert(read.sort, x));
      } else {
        write := write.(sort := Insert(write.sort, x));
      }
    }

    method AddRequest(d: Dir, id: nat, sector: nat, now: nat)
      requires Good(tunables, View())
      modifies this
      ensures View() == Added(tunables, old(View()), d, id, sector, now)
    {
      hide Distinct, Ascending, InOrder, Ids, Entered;
      GoodEither(tunables, View(), d);
      AddRb(d, Item(id, sector));
      clock := now;
      var x := Item(id, now + Expire(tunables, d));
      if d.Read? {
        read := read.(fifo := read.fifo + [x]);
      } else {
        write := write.(fifo := write.fifo + [x]);
      }
    }

    /** deadline_merged_requests. */
    method MergedRequests(d: Dir, id: nat, next: nat)
      requires id in Ids(Of(View(), d).fifo) && next in Ids(Of(View(), d).fifo)
      modifies this`read, this`write
      ensures View() == Merged(old(View()), d, id, next)
    {
      hide Ids, Removed;
      var fifo := (if d.Read? then read else write).fifo;
      if KeyOf(fifo, next) < KeyOf(fifo, id) {
        fifo := InsertAfter(Drop(fifo, id), next, Item(id, KeyOf(fifo, next)));
      }
      if d.Read? {
        read := read.(fifo := fifo);
      } else {
        write := write.(fifo := fifo);
      }
      RemoveRequest(d, next);
    }

    method DispatchRequests(now: nat) returns (served: bool)
      requires Good(tunables, View()) && now >= clock
      modifies this
      ensures View() == Dispatched(tunables, old(View()), now)
      ensures served <==> Picked(tunables, old(View()), now).Serve?
    {
      hide LanePart, Moved;
      PickedHeld(tunables, View(), now);
      var dir, rq := Read, read.next;
      if write.next.Some? {
        dir, rq := Write, write.next;
      }
      clock := now;
      if rq.None? || batching >= tunables.fifoBatch {
        var readers, writers := read.fifo != [], write.fifo != [];
        if readers {
          var passed := starved;
          if writers {
            starved := starved + 1;
          }
          dir := if writers && passed >= tunables.writesStarved then Write else Read;
        } else if writers {
          dir := Write;
        } else {
          return false;
        }
        if dir.Write? {
          starved := 0;
        }
        var l := if dir.Read? then read else write;
        rq := if now > l.fifo[0].key || l.next.None? then Some(l.fifo[0].id) else l.next;
        batching := 0;
      }
      batching := batching + 1;
      MoveRequest(dir, rq.value);
      return true;
    }

    /** elv_drain_elevator: dispatch until nothing is left. */
    method Drain(now: nat) returns (count: nat)
      requires Good(tunables, View()) && now >= clock
      modifies this
      ensures Good(tunables, View()) && read.sort == [] && write.sort == []
      ensures count == |old(read.sort)| + |old(write.sort)|
      ensures multiset(out) == multiset(old(out)) + multiset(Ids(old(read.sort))) + multiset(Ids(old(write.sort)))
    {
      hide LanePart, Dispatched, Picked;
      count := 0;
      var more := true;
      while more
        invariant Good(tunables, View()) && now >= clock
        invariant count + |read.sort| + |write.sort| == |old(read.sort)| + |old(write.sort)|
        invariant Held(View()) == old(Held(View()))
        invariant !more ==> read.sort == [] && write.sort == []
        decreases more, |read.sort| + |write.sort|
      {
        DispatchedKeeps(tunables, View(), now);
        DispatchMoves(tunables, View(), now);
        more := DispatchRequests(now);
        if more {
          count := count + 1;
        }
      }
    }
  }

  /** Every request ever handed over or still held. */
  ghost function Held(s: State): multiset<nat> {
    multiset(s.out) + multiset(Ids(s.read.sort)) + multiset(Ids(s.write.sort))
  }

  lemma DispatchMoves(t: Tunables, s: State, now: nat)
    requires Good(t, s)
    ensures var s' := Dispatched(t, s, now);
            && Held(s') == Held(s) && s'.clock == now
            && |s'.read.sort| + |s'.write.sort|
               == |s.read.sort| + |s.write.sort| - (if Picked(t, s, now).Serve? then 1 else 0)
            && (Picked(t, s, now).Nothing? ==> s'.read.sort == [] && s'.write.sort == [])
  {
    hide Moved, Distinct, Ascending, InOrder, Picked, Drop, Ids;
    PickedHeld(t, s, now);
    var p := Picked(t, s, now);
    if p.Serve? {
      var mid := s.(batching := p.batching, starved := p.starved, clock := now);
      MovedIs(mid, p.dir, p.id);
      DropFacts(Of(s, p.dir).sort, p.id);
      SizeAfterDrop(Of(s, p.dir).sort, p.id);
      OneMoved(s.out, Ids(Of(s, p.dir).sort), p.id);
    } else {
      NoIds(s.read.sort);
      NoIds(s.write.sort);
      NoIds(s.read.fifo);
      NoIds(s.write.fifo);
    }
  }
}
