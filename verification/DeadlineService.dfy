/** Whom the deadline scheduler serves: reads are not starved by writes, and a batch goes on in sector order. */
module DeadlineService {
  import opened Options
  import opened RequestLists
  import opened Deadline

  predicate ServesWritePastRead(t: Tunables, s: State, now: nat) {
    s.read.fifo != [] && Picked(t, s, now).Serve? && Picked(t, s, now).dir.Write?
  }

  /** Every dispatch of the run serves a write although a read is waiting. */
  predicate OnlyWrites(t: Tunables, s: State, es: seq<Event>)
    requires Runs(t, s, es)
    decreases |es|
  {
    || es == []
    || ((es[0].Dispatch? ==> ServesWritePastRead(t, s, es[0].now)) && OnlyWrites(t, Step(t, s, es[0]), es[1..]))
  }

  /** How many writes in a row may still be served while a read waits: the rest of the batch, and one more batch if the
      writes have waited long enough. */
  function Allowance(t: Tunables, s: State): nat {
    (if s.starved >= t.writesStarved then Max(1, t.fifoBatch) else 0)
    + (if s.batching < t.fifoBatch then t.fifoBatch - s.batching else 0)
  }

  lemma AllowanceSpent(t: Tunables, s: State, now: nat)
    requires t.writesStarved > 0 && ServesWritePastRead(t, s, now)
    ensures Allowance(t, Dispatched(t, s, now)) < Allowance(t, s)
  {
  }

  lemma {:induction false} WritesWithinAllowance(t: Tunables, s: State, es: seq<Event>)
    requires t.writesStarved > 0 && Runs(t, s, es) && OnlyWrites(t, s, es)
    ensures Dispatches(es) <= Allowance(t, s)
    decreases |es|
  {
    hide Allowance, Step, Legal, ServesWritePastRead;
    if es != [] {
      WritesWithinAllowance(t, Step(t, s, es[0]), es[1..]);
      OneWrite(t, s, es[0]);
    }
  }

  lemma OneWrite(t: Tunables, s: State, e: Event)
    requires t.writesStarved > 0 && Legal(s, e) && (e.Dispatch? ==> ServesWritePastRead(t, s, e.now))
    ensures Allowance(t, Step(t, s, e)) + (if e.Dispatch? then 1 else 0) <= Allowance(t, s)
  {
    hide Added, FrontMerged, Merged, Dispatched, ServesWritePastRead;
    if e.Dispatch? {
      AllowanceSpent(t, s, e.now);
    } else {
      CountsStay(t, s, e);
    }
  }

  /** Reads are not starved: unless writes_starved is 0, from any state at most two batches of dispatch calls in a row
      serve writes while a read waits, whatever is added, moved or merged in between. */
  lemma ReadsNotStarved(t: Tunables, s: State, es: seq<Event>)
    requires t.writesStarved > 0 && Runs(t, s, es) && OnlyWrites(t, s, es)
    ensures Dispatches(es) <= 2 * Max(1, t.fifoBatch)
  {
    WritesWithinAllowance(t, s, es);
  }

  /** n writes, each added and dispatched. */
  function Flood(n: nat, id: nat, now: nat): seq<Event> {
    if n == 0 then [] else [Add(Write, id, 0, now), Dispatch(now)] + Flood(n - 1, id + 1, now)
  }

  /** Reads wait, no write does, and no batch goes on. */
  ghost predicate ReadsWait(s: State, id: nat, now: nat) {
    && s.read.fifo != [] && s.write == Lane([], [], None) && s.read.next.None? && s.clock <= now
    && forall x :: x in Ids(s.read.fifo) ==> x < id
  }

  lemma FloodStep(t: Tunables, s: State, id: nat, now: nat)
    requires t.writesStarved == 0 && ReadsWait(s, id, now)
    ensures Legal(s, Add(Write, id, 0, now))
    ensures var s1 := Step(t, s, Add(Write, id, 0, now));
            && ServesWritePastRead(t, s1, now) && Legal(s1, Dispatch(now))
            && ReadsWait(Step(t, s1, Dispatch(now)), id + 1, now)
  {
    var x, y := Item(id, 0), Item(id, now + t.writeExpire);
    var s1 := Step(t, s, Add(Write, id, 0, now));
    assert Ids([]) == {};
    assert [] + [y] == [y];
    assert s1.write == Lane([x], [y], None) && s1.read == s.read;
    assert Picked(t, s1, now) == Serve(Write, id, 1, 0);
    assert [x][1..] == [] && [y][1..] == [];
    assert Latter([x], id) == None;
  }

  /** With writes_starved 0 they are: any number of writes in a row is served while a read waits. */
  lemma {:induction false} ReadsStarve(t: Tunables, s: State, n: nat, id: nat, now: nat)
    requires t.writesStarved == 0 && ReadsWait(s, id, now)
    ensures var es := Flood(n, id, now); Runs(t, s, es) && OnlyWrites(t, s, es) && Dispatches(es) == n
    decreases n
  {
    hide Step, Legal, ServesWritePastRead, ReadsWait;
    if n > 0 {
      var es := Flood(n, id, now);
      FloodStep(t, s, id, now);
      var s1 := Step(t, s, es[0]);
      var s2 := Step(t, s1, Dispatch(now));
      ReadsStarve(t, s2, n - 1, id + 1, now);
      assert es[1..] == [Dispatch(now)] + Flood(n - 1, id + 1, now);
      assert es[1..][1..] == Flood(n - 1, id + 1, now);
    }
  }

  /** Taking a request away keeps the successor right, the next one included. */
  lemma DropAbove(l: Lane, k: nat, id: nat)
    requires Distinct(l.sort) && Ascending(l.sort) && id in Ids(l.sort) && NextAbove(l.sort, k, l.next)
    ensures NextAbove(Removed(l, id).sort, k, Removed(l, id).next)
  {
    hide Distinct, Ascending, Ids, Drop, Latter, KeyOf;
    DropMembers(l.sort, id);
    if l.next == Some(id) {
      LatterAbove(l.sort, id);
      var x :| x in l.sort && x.id == id && x.key > k && forall y :: y in l.sort && y.key > k ==> x.key <= y.key;
      KeyIs(l.sort, x);
      forall y | y in l.sort && y.id != id ensures y.key != x.key {
        if y.key == x.key {
          SameKey(l.sort, x, y);
        }
      }
      LatterMember(l.sort, id);
    }
  }

  /** A new sector comes between the one served and the next. */
  predicate Between(sort: seq<Item>, k: nat, next: Option<nat>, sector: nat)
    requires next.Some? ==> next.value in Ids(sort)
  {
    k < sector && (next.None? || sector < KeyOf(sort, next.value))
  }

  lemma AboveHeld(sort: seq<Item>, k: nat, next: Option<nat>)
    requires Distinct(sort) && NextAbove(sort, k, next) && next.Some?
    ensures next.value in Ids(sort) && Item(next.value, KeyOf(sort, next.value)) in sort && KeyOf(sort, next.value) > k
    ensures forall y :: y in sort && y.key > k ==> KeyOf(sort, next.value) <= y.key
  {
    hide Ids, KeyOf, Distinct;
    var x :| x in sort && x.id == next.value && x.key > k && forall y :: y in sort && y.key > k ==> x.key <= y.key;
    KeyIs(sort, x);
    KeyMember(sort, x.id);
  }

  lemma InsertAbove(sort: seq<Item>, k: nat, next: Option<nat>, x: Item)
    requires Distinct(sort) && NextAbove(sort, k, next) && x.id !in Ids(sort)
    ensures next.Some? ==> next.value in Ids(sort)
    ensures NextAbove(Insert(sort, x), k, next) <==> !Between(sort, k, next, x.key)
  {
    hide Ids, KeyOf, Distinct, Insert;
    InsertFacts(sort, x);
    if next.Some? {
      AboveHeld(sort, k, next);
      var n := Item(next.value, KeyOf(sort, next.value));
      assert n in Insert(sort, x);
      forall z | z in Insert(sort, x) && z.id == next.value ensures z == n {
        if z != x {
          KeyIs(sort, z);
        }
      }
    }
  }

  /** In the direction of the batch: next_rq is the held request of least sector above k; there is no other batch. */
  ghost predicate Upcoming(s: State, d: Dir, k: nat) {
    NextAbove(Of(s, d).sort, k, Of(s, d).next) && Of(s, Other(d)).next.None?
  }

  /** After a request was served, next_rq is the one to follow it in sector order. */
  lemma ServedUpcoming(t: Tunables, s: State, now: nat)
    requires Good(t, s) && Picked(t, s, now).Serve?
    ensures var p := Picked(t, s, now);
            p.id in Ids(Of(s, p.dir).sort)
            && Upcoming(Dispatched(t, s, now), p.dir, KeyOf(Of(s, p.dir).sort, p.id))
  {
    hide Picked, Distinct, Ascending, InOrder, Ids, KeyOf, Latter, Drop;
    PickedHeld(t, s, now);
    var p := Picked(t, s, now);
    GoodEither(t, s, p.dir);
    var l := Of(s, p.dir).(next := Latter(Of(s, p.dir).sort, p.id));
    LatterAbove(l.sort, p.id);
    DropAbove(l, KeyOf(l.sort, p.id), p.id);
  }

  /** An addition keeps it so exactly if its sector does not come in between. */
  lemma AddUpcoming(t: Tunables, s: State, d: Dir, k: nat, e: Event)
    requires Good(t, s) && e.Add? && Legal(s, e) && Upcoming(s, d, k) && Alias(Of(s, e.d).sort, e.sector).None?
    ensures Of(s, d).next.Some? ==> Of(s, d).next.value in Ids(Of(s, d).sort)
    ensures Upcoming(Step(t, s, e), d, k) <==> !(e.d == d && Between(Of(s, d).sort, k, Of(s, d).next, e.sector))
  {
    hide Distinct, Ascending, InOrder, Ids, KeyOf, Insert, Alias, NextAbove;
    GoodEither(t, s, d);
    InsertAbove(Of(s, d).sort, k, Of(s, d).next, Item(e.id, e.sector));
  }

  /** A request merge keeps it so. */
  lemma MergeUpcoming(t: Tunables, s: State, d: Dir, k: nat, e: Event)
    requires Good(t, s) && e.MergeRequests? && Legal(s, e) && Upcoming(s, d, k)
    ensures Upcoming(Step(t, s, e), d, k)
  {
    hide Distinct, Ascending, InOrder, Ids, Drop, FifoMerged, NextAbove;
    GoodEither(t, s, d);
    if e.d == d {
      DropAbove(Of(s, d), k, e.next);
    }
  }

  /** What a dispatch call serves after a batch in direction d reached sector k: while the batch may go on, the held
      request of least sector above; that one too when a new batch in the same direction finds nothing expired;
      and otherwise the earliest deadline of the direction chosen. */
  lemma ServedExactly(t: Tunables, s: State, d: Dir, k: nat, now: nat)
    requires Good(t, s) && Upcoming(s, d, k) && Picked(t, s, now).Serve?
    ensures var p := Picked(t, s, now); var fifo := Of(s, p.dir).fifo;
            && fifo != [] && p.id in Ids(Of(s, p.dir).sort)
            && (Of(s, d).next.Some? && s.batching < t.fifoBatch ==> p.dir == d)
            && (if Of(s, d).next.Some? && p.dir == d && (s.batching < t.fifoBatch || now <= fifo[0].key)
                then NextAbove(Of(s, d).sort, k, Some(p.id))
                else p.id == fifo[0].id && forall x :: x in fifo ==> fifo[0].key <= x.key)
  {
    hide NextAbove, Ascending, Distinct, Drop, Latter, KeyOf;
    PickedHeld(t, s, now);
    NoIds(Of(s, d).fifo);
    NoIds(Of(s, Other(d)).fifo);
  }

  /** The events between two dispatch calls leave the order of the batch alone: no alias is moved, no front merge
      changes a sector, and no new sector comes between. */
  predicate Undisturbed(s: State, d: Dir, k: nat, e: Event) {
    match e
    case Add(d', _, sector, _) =>
      && Alias(Of(s, d').sort, sector).None?
      && (d' == d ==> (Of(s, d).next.Some? ==> Of(s, d).next.value in Ids(Of(s, d).sort))
                      && !Between(Of(s, d).sort, k, Of(s, d).next, sector))
    case FrontMerge(_, _, _) => false
    case MergeRequests(_, _, _) => true
    case Dispatch(_) => false
  }

  predicate AllUndisturbed(t: Tunables, s: State, d: Dir, k: nat, es: seq<Event>)
    requires Runs(t, s, es)
    decreases |es|
  {
    es == [] || (Undisturbed(s, d, k, es[0]) && AllUndisturbed(t, Step(t, s, es[0]), d, k, es[1..]))
  }

  /** From one dispatch call to the next the batch stays in sector order. */
  lemma {:induction false} StaysUpcoming(t: Tunables, s: State, d: Dir, k: nat, es: seq<Event>)
    requires Good(t, s) && Runs(t, s, es) && Upcoming(s, d, k) && AllUndisturbed(t, s, d, k, es)
    ensures Good(t, Run(t, s, es)) && Upcoming(Run(t, s, es), d, k)
    decreases |es|
  {
    hide Good, Step, Legal, Upcoming;
    if es != [] {
      StepKeeps(t, s, es[0]);
      if es[0].Add? {
        AddUpcoming(t, s, d, k, es[0]);
      } else {
        MergeUpcoming(t, s, d, k, es[0]);
      }
      StaysUpcoming(t, Step(t, s, es[0]), d, k, es[1..]);
    }
  }

  /** The batch in order: what was served at sector k is followed, unless something came between, by the held request of
      least sector above k as long as the batch lasts or nothing has expired, and by the earliest deadline of the
      direction chosen otherwise. */
  lemma BatchInOrder(t: Tunables, s: State, now: nat, es: seq<Event>, later: nat)
    requires Good(t, s) && now >= s.clock && Picked(t, s, now).Serve? && Runs(t, Dispatched(t, s, now), es)
    requires Picked(t, Run(t, Dispatched(t, s, now), es), later).Serve?
    ensures Picked(t, s, now).id in Ids(Of(s, Picked(t, s, now).dir).sort)
    ensures var d := Picked(t, s, now).dir; var k := KeyOf(Of(s, d).sort, Picked(t, s, now).id);
            AllUndisturbed(t, Dispatched(t, s, now), d, k, es) ==>
              var s' := Run(t, Dispatched(t, s, now), es);
              var p := Picked(t, s', later);
              var fifo := Of(s', p.dir).fifo;
              && fifo != []
              && (Of(s', d).next.Some? && s'.batching < t.fifoBatch ==> p.dir == d)
              && (if Of(s', d).next.Some? && p.dir == d && (s'.batching < t.fifoBatch || later <= fifo[0].key)
                  then NextAbove(Of(s', d).sort, k, Some(p.id))
                  else p.id == fifo[0].id && forall x :: x in fifo ==> fifo[0].key <= x.key)
  {
    hide Picked, Dispatched, Good, Runs, Run, AllUndisturbed, NextAbove;
    var d := Picked(t, s, now).dir;
    ServedUpcoming(t, s, now);
    var k := KeyOf(Of(s, d).sort, Picked(t, s, now).id);
    DispatchedKeeps(t, s, now);
    if AllUndisturbed(t, Dispatched(t, s, now), d, k, es) {
      StaysUpcoming(t, Dispatched(t, s, now), d, k, es);
      ServedExactly(t, Run(t, Dispatched(t, s, now), es), d, k, later);
    }
  }

  /** A request added waits until its direction's expiry time from now on, behind those already waiting. */
  lemma ExpiresAfter(t: Tunables, s: State, d: Dir, id: nat, sector: nat, now: nat)
    requires Good(t, s) && Legal(s, Add(d, id, sector, now))
    ensures var fifo := Of(Added(t, s, d, id, sector, now), d).fifo;
            && fifo != []
            && fifo[|fifo| - 1] == Item(id, now + if d.Read? then t.readExpire else t.writeExpire)
            && forall x :: x in fifo ==> x.key <= fifo[|fifo| - 1].key
  {
    hide Distinct, Ascending, InOrder, Ids, Entered;
    GoodEither(t, s, d);
    EnteredKeeps(t, s, d, Item(id, sector), {});
  }

  lemma {:induction false} InsertAfterHolds(items: seq<Item>, id: nat, x: Item)
    requires id in Ids(items)
    ensures forall y :: y in InsertAfter(items, id, x) <==> y in items || y == x
  {
    assert forall y :: y in items <==> y == items[0] || y in items[1..];
    if items[0].id != id {
      InsertAfterHolds(items[1..], id, x);
    }
  }

  /** When requests merge, the one that stays gets the earlier of the two deadlines, and no other deadline changes. */
  lemma MergedDeadline(fifo: seq<Item>, id: nat, next: nat)
    requires Distinct(fifo) && id in Ids(fifo) && next in Ids(fifo) && id != next
    ensures var earlier := if KeyOf(fifo, next) < KeyOf(fifo, id) then KeyOf(fifo, next) else KeyOf(fifo, id);
            forall y :: y in FifoMerged(fifo, id, next) <==> (y in fifo && y.id != id) || y == Item(id, earlier)
  {
    hide Distinct, Ids, KeyOf, Drop, InsertAfter;
    DropMembers(fifo, id);
    KeyMember(fifo, id);
    forall y | y in fifo && y.id == id ensures y.key == KeyOf(fifo, id) {
      KeyIs(fifo, y);
    }
    if KeyOf(fifo, next) < KeyOf(fifo, id) {
      KeyAfterDrop(fifo, id, next);
      InsertAfterHolds(Drop(fifo, id), next, Item(id, KeyOf(fifo, next)));
    }
  }

  /** A dispatch call does not go on with a batch. */
  predicate NewBatch(t: Tunables, s: State) {
    (s.read.next.None? && s.write.next.None?) || s.batching >= t.fifoBatch
  }

  /** How many batches of reads began past waiting writes since the last batch of writes did. */
  function Turns(t: Tunables, s: State, es: seq<Event>, n: nat): nat
    requires Runs(t, s, es)
    decreases |es|
  {
    if es == [] then n
    else
      var e := es[0];
      var p := if e.Dispatch? then Picked(t, s, e.now) else Nothing;
      var n' := if p.Nothing? || !NewBatch(t, s) then n
                else if p.dir.Write? then 0
                else if s.write.fifo != [] then n + 1 else n;
      Turns(t, Step(t, s, e), es[1..], n')
  }

  lemma {:induction false} StarvedIsTurns(t: Tunables, s: State, es: seq<Event>)
    requires Runs(t, s, es)
    ensures Run(t, s, es).starved == Turns(t, s, es, s.starved)
    decreases |es|
  {
    hide Added, FrontMerged, Merged, Legal;
    if es != [] {
      if !es[0].Dispatch? {
        CountsStay(t, s, es[0]);
      }
      StarvedIsTurns(t, Step(t, s, es[0]), es[1..]);
    }
  }

  /** In every run: when a new batch begins and both directions wait, it is the writes' turn exactly if writes_starved
      batches of reads began past waiting writes since theirs; a direction that waits alone has the turn. */
  lemma TurnsExact(t: Tunables, start: nat, es: seq<Event>, now: nat)
    requires Runs(t, Start(start), es)
    ensures var s := Run(t, Start(start), es); var p := Picked(t, s, now);
            NewBatch(t, s) ==>
              && (p.Nothing? <==> s.read.fifo == [] && s.write.fifo == [])
              && (p.Serve? ==>
                    && p.batching == 1
                    && (p.dir.Write? <==>
                          && s.write.fifo != []
                          && (s.read.fifo == [] || Turns(t, Start(start), es, 0) >= t.writesStarved)))
  {
    hide Run, Runs, Turns;
    StarvedIsTurns(t, Start(start), es);
  }
}
