/** The queue as the code keeps it: fields changed in place.  Each method is proved to make
    exactly the steps of the Barrier module, so what is proved of runs holds of method calls;
    the BUG_ON tests of the code are preconditions, met at every call. */
module RequestQueues {
  import opened Options
  import opened Barrier
  import opened BarrierStages

  /** elv_dispatch_sort's order: sectors at or past the boundary come before those below it. */
  predicate Precedes(boundary: int, a: Request, b: Request) {
    if a.sector >= boundary then b.sector < boundary || a.sector <= b.sector
    else b.sector < boundary && a.sector <= b.sector
  }

  /** The entry may be passed by `rq` in the sort. */
  predicate Passable(rq: Request, e: Entry) {
    e.node.Plain? && e.node.r.discard == rq.discard && e.node.r.write == rq.write && !Stops(e)
  }

  /** From index k on, the queue is one ascending sweep that starts at the boundary. */
  ghost predicate Sweep(boundary: int, rq: Request, q: seq<Entry>, k: nat) {
    && (forall i :: k <= i < |q| ==> Passable(rq, q[i]))
    && (forall i, j :: k <= i < j < |q| ==> Precedes(boundary, q[i].node.r, q[j].node.r))
  }

  /** A sweep that starts where the sort of `rq` must stop. */
  ghost predicate Segment(boundary: int, rq: Request, q: seq<Entry>, k: int) {
    !rq.barrier && 0 <= k <= |q| && Sweep(boundary, rq, q, k) && (k == 0 || !Passable(rq, q[k - 1]))
  }

  /** The scheduling boundary after a request is handed to the driver: a boundary request that was not reached yet
      holds it where it is. */
  function Passed(end: int, boundary: Option<Node>, n: Node, ends: Node -> int): (int, Option<Node>) {
    if boundary.None? || boundary == Some(n) then (ends(n), None) else (end, boundary)
  }

  function Moved(end: int, boundary: Option<Node>, handed: Handed, ends: Node -> int): (int, Option<Node>) {
    if handed.Handed? then Passed(end, boundary, handed.node, ends) else (end, boundary)
  }

  function Nexts(k: nat): seq<Event> { seq(k, _ => Next) }

  class RequestQueue {
    const mode: Mode
    var queue: seq<Entry>
    var held: set<Request>
    var inFlight: int
    var ordseq: Ordseq
    var ordered: Mode
    var orig: Request
    var orderr: int
    var ordcolor: bool
    var endSector: int
    var boundaryRq: Option<Node>

    /** The same state with its history. */
    ghost var model: Barrier.Queue

    ghost predicate Valid()
      reads this
    {
      && model.mode == mode && model.queue == queue && model.held == held && model.inFlight == inFlight
      && model.ordseq == ordseq && model.ordered == ordered && model.orig == orig && model.orderr == orderr
      && model.ordcolor == ordcolor
    }

    constructor (m: Mode)
      ensures Valid() && model == Init(m) && endSector == 0 && boundaryRq == None
    {
      mode := m;
      queue, held, inFlight, ordseq, ordered := [], {}, 0, IDLE, ORDERED_NONE;
      orig, orderr, ordcolor := Request(0, false, false, false, false, false, 0, 0, false), 0, false;
      endSector, boundaryRq := 0, None;
      model := Init(m);
    }

    /** elv_dispatch_sort: scan back from the tail.  The insertion is a Dispatch step, and if the
        entries behind the point where the scan must stop formed one sweep they still do. */
    method DispatchSort(rq: Request) returns (pos: nat)
      requires Valid() && rq in held
      modifies this`queue, this`held, this`model
      ensures Enabled(old(model), Dispatch(rq, pos))
      ensures Valid() && model == Step(old(model), Dispatch(rq, pos))
      ensures forall k :: Segment(old(endSector), rq, old(queue), k) ==> k <= pos && Sweep(old(endSector), rq, queue, k)
      ensures |held| < |old(held)|
    {
      var boundary := endSector;
      pos := |queue|;
      while pos > 0
        invariant pos <= |queue|
        invariant forall i :: pos <= i < |queue| ==> Passable(rq, queue[i]) && !Precedes(boundary, queue[i].node.r, rq)
      {
        var p := queue[pos - 1];
        if !p.node.Plain? || p.node.r.discard != rq.discard || p.node.r.write != rq.write || Stops(p) {
          break;
        }
        if rq.sector >= boundary {
          if p.node.r.sector < boundary {
            pos := pos - 1;
            continue;
          }
        } else if p.node.r.sector >= boundary {
          break;
        }
        if rq.sector >= p.node.r.sector {
          break;
        }
        pos := pos - 1;
      }
      ghost var q := queue;
      queue := queue[..pos] + [Entry(Plain(rq), false, false)] + queue[pos..];
      held := held - {rq};
      model := Step(model, Dispatch(rq, pos));
      forall k | Segment(boundary, rq, q, k)
        ensures k <= pos && Sweep(boundary, rq, queue, k)
      {
        SweepInsert(boundary, rq, q, k, pos);
      }
    }

    /** elv_dispatch_add_tail. */
    method DispatchTail(rq: Request, endOfRq: int)
      requires Valid() && rq in held
      modifies this
      ensures Valid() && model == Step(old(model), Dispatch(rq, |old(queue)|))
      ensures endSector == endOfRq && boundaryRq == Some(Plain(rq))
    {
      model := Step(model, Dispatch(rq, |queue|));
      held := held - {rq};
      endSector, boundaryRq := endOfRq, Some(Plain(rq));
      queue := queue + [Entry(Plain(rq), false, false)];
    }

    /** elv_drain_elevator: everything the scheduler holds is dispatched, in an order it chooses. */
    method DrainElevator() returns (ghost ds: seq<Event>)
      requires Valid()
      modifies this`queue, this`held, this`model
      ensures Valid() && held == {} && AllDispatches(ds)
      ensures Runs(old(model), ds) && model == Run(old(model), ds)
    {
      hide Step, Enabled;
      ds := [];
      while held != {}
        invariant Valid() && AllDispatches(ds) && Runs(old(model), ds) && model == Run(old(model), ds)
        decreases |held|
      {
        var rq :| rq in held;
        ghost var before := model;
        var pos := DispatchSort(rq);
        DispatchFacts(before, rq, pos);
        OneMoreEvent(old(model), ds, Dispatch(rq, pos));
        ds := ds + [Dispatch(rq, pos)];
      }
    }

    /** __elv_add_request and elv_insert; a back insertion drains the scheduler first.  The numbers only name the
        request's place in history.  A barrier, hard or soft, becomes the boundary. */
    method Add(e: Event, seqno: nat, epoch: nat, endOfRq: int) returns (r: Request, ghost ds: seq<Event>)
      requires Valid() && e.Submit? && seqno == model.count && epoch == |model.barriers|
      requires Placement(e.where, e.soft, e.barrier, e.elvpriv) == Sort ==> e.fs || e.discard
      modifies this
      ensures AllDispatches(ds) && (Placement(e.where, e.soft, e.barrier, e.elvpriv) != Back ==> ds == [])
      ensures Runs(old(model), ds) && Enabled(Run(old(model), ds), e)
      ensures Valid() && model == Step(Run(old(model), ds), e)
      ensures r == Request(seqno, e.fs, e.discard, e.barrier, e.empty, old(ordcolor), epoch, e.sector, e.write)
      ensures if (e.soft || e.barrier) && (e.fs || e.discard) then endSector == endOfRq && boundaryRq == Some(Plain(r))
              else endSector == old(endSector) && boundaryRq == old(boundaryRq)
    {
      hide Step, Enabled, Runs, Run, AllDispatches;
      r := Request(seqno, e.fs, e.discard, e.barrier, e.empty, ordcolor, epoch, e.sector, e.write);
      var where := e.where;
      if e.soft || e.barrier {
        if where == Sort {
          where := Back;
        }
        if e.fs || e.discard {
          endSector, boundaryRq := endOfRq, Some(Plain(r));
        }
      } else if !e.elvpriv && where == Sort {
        where := Back;
      }
      ds := [];
      NoDispatches(model);
      if where == Back {
        ds := DrainElevator();
        DispatchesKeep(old(model), ds);
      }
      Enter(e, r, where);
    }

    /** The request goes to its place, and a hard barrier toggles the colour. */
    method Enter(e: Event, r: Request, where: Where)
      requires Valid() && e.Submit? && where == Placement(e.where, e.soft, e.barrier, e.elvpriv)
      requires (where == Sort ==> e.fs || e.discard) && (where == Back ==> held == {})
      requires r == NewRequest(model, e)
      modifies this`queue, this`held, this`ordcolor, this`model
      ensures Enabled(old(model), e) && Valid() && model == Step(old(model), e)
    {
      hide Step, Enabled;
      SubmitIs(model, e, r);
      model := Step(model, e);
      if e.barrier {
        ordcolor := !ordcolor;
      }
      match where
      case Front => queue := [Entry(Plain(r), true, false)] + queue;
      case Back => queue := queue + [Entry(Plain(r), true, false)];
      case Sort => held := held + {r};
    }

    /** blk_ordered_complete_seq; true when the sequence is over. */
    method CompleteSequence(mask: Ordseq, error: int) returns (over: bool)
      requires Valid() && !Overlap(ordseq, mask)
      modifies this`orderr, this`ordseq, this`model
      ensures Valid() && model == CompleteSeq(old(model), mask, error)
      ensures over <==> CurSeq(Or(old(ordseq), mask)) == DONE
    {
      hide CurSeq, Or, Overlap;
      model := CompleteSeq(model, mask, error);
      if error != 0 && orderr == 0 {
        orderr := error;
      }
      ordseq := Or(ordseq, mask);
      if CurSeq(ordseq) != DONE {
        return false;
      }
      ordseq := IDLE;
      return true;
    }

    /** The queueing part of start_ordered: proxies are stacked at the head, last stage first, and
        the stages that need none are collected.  `hand` tells whether one was queued. */
    static method StackProxies(rest: seq<Entry>, m: Mode) returns (q: seq<Entry>, skip: Ordseq, hand: bool)
      ensures q == Stack(rest, m)
      ensures skip == Ordseq(false, false, !m.pre, !m.bar, !m.post)
      ensures hand <==> m.pre || m.bar || m.post
      ensures if hand then |q| > |rest| && !q[0].node.Plain? else q == rest
    {
      q, skip, hand := rest, IDLE, false;
      if m.post {
        q, hand := [Entry(PostFlush, true, false)] + q, true;
      } else {
        skip := skip.(post := true);
      }
      if m.bar {
        q, hand := [Entry(Bar, true, false)] + q, true;
      } else {
        skip := skip.(bar := true);
      }
      if m.pre {
        q, hand := [Entry(PreFlush, true, false)] + q, true;
      } else {
        skip := skip.(pre := true);
      }
    }

    static method MaskMode(next: Mode, empty: bool) returns (m: Mode)
      ensures m == SequenceMode(next, empty)
    {
      m := next;
      if empty {
        m := m.(bar := false, post := false);
        if m.tag && !m.pre {
          m := m.(tag := false, drain := true);
        }
      }
    }

    /** elv_next_request marking the head it returns; unless it waits for another request to come by, the boundary
        moves behind it. */
    method HandOver(ends: Node -> int)
      requires Valid() && |queue| > 0
      modifies this`queue, this`model, this`endSector, this`boundaryRq
      ensures Valid() && model == HandHead(old(model)) && |queue| == |old(queue)|
      ensures model.handed == Handed(old(queue)[0].node)
      ensures (endSector, boundaryRq) == Passed(old(endSector), old(boundaryRq), old(queue)[0].node, ends)
    {
      if boundaryRq.None? || boundaryRq == Some(queue[0].node) {
        endSector, boundaryRq := ends(queue[0].node), None;
      }
      queue := queue[0 := queue[0].(started := true)];
      model := HandHead(model);
    }

    /** start_ordered up to the completion of the skipped stages; `hand` is false when the queue
        must drain first or there is no proxy. */
    method Stash() returns (skip: Ordseq, hand: bool)
      requires Valid() && |queue| > 0 && queue[0].node.Plain?
      modifies this`queue, this`ordered, this`ordseq, this`orig, this`orderr, this`model
      ensures Valid() && model == Started(old(model)) && skip == Skipped(old(model))
      ensures hand <==> skip.drain && (ordered.pre || ordered.bar || ordered.post)
      ensures if ordered.pre || ordered.bar || ordered.post then |queue| > 0 else |queue| < |old(queue)|
    {
      hide Stack, SequenceMode, Started, Skipped;
      StartedIs(model);
      var rq := queue[0].node.r;
      var m := MaskMode(mode, rq.empty);
      var q;
      q, skip, hand := StackProxies(queue[1..], m);
      if m.drain && inFlight != 0 {
        hand := false;
      } else {
        skip := skip.(drain := true);
      }
      model := Started(model);
      queue, ordered, ordseq, orig, orderr := q, m, IDLE.(started := true), rq, 0;
    }

    /** start_ordered; false when the whole sequence is already over. */
    method StartSequence(ends: Node -> int) returns (pending: bool)
      requires Valid() && Stages(model) && |queue| > 0 && queue[0].node.Plain? && ordseq == IDLE
      requires model.handed == Nothing
      modifies this
      ensures Valid() && model == StartOrdered(old(model))
      ensures !pending ==> |queue| < |old(queue)| && model.handed == Nothing
      ensures (endSector, boundaryRq) == Moved(old(endSector), old(boundaryRq), model.handed, ends)
    {
      hide Stack, Stages, CompleteSeq, StartOrdered, Overlap, SequenceMode, CurSeq, HandHead;
      StartFacts(model);
      StartedIs(model);
      ghost var was := model;
      var skip, hand := Stash();
      var over := CompleteSequence(skip, 0);
      CompleteQueue(Started(was), skip, 0);
      if hand {
        HandOver(ends);
      }
      pending := !over;
    }

    /** One round of the fetch loop: blk_do_ordered on the head, and if it lets the head through,
        the marking by elv_next_request.  True when the loop must look at the new head. */
    method FetchHead(ends: Node -> int) returns (again: bool)
      requires Valid() && Stages(model) && |queue| > 0
      modifies this
      ensures Enabled(old(model), Next) && Valid() && model == Step(old(model), Next)
      ensures again ==> |queue| < |old(queue)| && model.handed == Nothing
      ensures (endSector, boundaryRq) == Moved(old(endSector), old(boundaryRq), model.handed, ends)
    {
      ghost var was := model;
      ghost var t := model.(handed := Nothing);
      assert Stages(t) by { UnhandedStages(model); }
      var n := queue[0].node;
      var isBarrier := Fs(n) && HardBarrier(n);
      if ordseq == IDLE && isBarrier && n.Plain? {
        model := t;
        if mode != ORDERED_NONE {
          var pending := StartSequence(ends);
          return !pending;
        }
        queue := queue[1..];
        model := Fetch(t);
        return true;
      }
      var held := ordseq != IDLE && !(n.Plain? && !n.r.fs)
                  && (if ordered.tag then isBarrier && n != Bar else ReqSeq(orig, n) > CurSeq(ordseq));
      model := t;
      if !held {
        HandOver(ends);
      }
      return false;
    }

    /** elv_next_request over the dispatch queue: as many rounds as there are barriers that end
        at once.  With the queue empty the scheduler would be asked next. */
    method NextRequest(ends: Node -> int) returns (ghost rounds: nat)
      requires Valid() && Stages(model)
      modifies this
      ensures Valid() && Stages(model)
      ensures Runs(old(model), Nexts(rounds)) && model == Run(old(model), Nexts(rounds))
      ensures rounds == 0 ==> queue == []
      ensures var past := rounds > 0 && model.handed.Handed?
                          && (old(boundaryRq).None? || old(boundaryRq) == Some(model.handed.node));
              && endSector == (if past then ends(model.handed.node) else old(endSector))
              && boundaryRq == (if past then None else old(boundaryRq))
    {
      hide *;
      rounds := 0;
      NoNexts(model);
      NotMoved(endSector, boundaryRq, ends);
      var again := true;
      while again && |queue| > 0
        invariant Valid() && Stages(model)
        invariant Runs(old(model), Nexts(rounds)) && model == Run(old(model), Nexts(rounds))
        invariant rounds == 0 ==> again
        invariant (endSector, boundaryRq) ==
                  Moved(old(endSector), old(boundaryRq), if rounds == 0 then Nothing else model.handed, ends)
        invariant again ==> endSector == old(endSector) && boundaryRq == old(boundaryRq)
        decreases again, |queue|
      {
        ghost var before := model;
        again := FetchHead(ends);
        StepKeeps(before, Next);
        OneMore(old(model), rounds);
        rounds := rounds + 1;
      }
      MovedPast(old(endSector), old(boundaryRq), if rounds == 0 then Nothing else model.handed, ends);
    }

    /** The ELEVATOR_INSERT_REQUEUE case of elv_insert. */
    method InsertRequeued(n: Node)
      modifies this`queue
      ensures var k := if ordseq == IDLE then 0 else RequeueAt(orig, old(queue), ReqSeq(orig, n));
              queue == Insert(old(queue), k, Entry(n, true, false))
    {
      var entry := Entry(n, true, false);
      if ordseq == IDLE {
        queue := [entry] + queue;
        return;
      }
      var seqn := ReqSeq(orig, n);
      var pos := 0;
      while pos < |queue| && !(seqn <= ReqSeq(orig, queue[pos].node))
        invariant 0 <= pos <= |queue|
        invariant forall i :: 0 <= i < pos ==> ReqSeq(orig, queue[i].node) < seqn
      {
        pos := pos + 1;
      }
      assert pos == RequeueAt(orig, queue, seqn);
      queue := queue[..pos] + [entry] + queue[pos..];
    }

    /** elv_requeue_request, on a request the driver has dequeued. */
    method Requeue(n: Node)
      requires Valid() && n in model.flying
      modifies this
      ensures Valid() && model == Step(old(model), Barrier.Requeue(n))
    {
      hide RequeueAt, ReqSeq, Insert, IndexOf, Remove, Accounted;
      if Accounted(n) {
        inFlight := inFlight - 1;
      }
      InsertRequeued(n);
      model := Step(model, Barrier.Requeue(n));
    }

    /** elv_dequeue_request, on a request the driver has fetched. */
    method Dequeue(k: nat)
      requires Valid() && k < |queue| && queue[k].started
      modifies this
      ensures Valid() && model == Step(old(model), Barrier.Dequeue(k))
    {
      hide Accounted;
      model := Step(model, Barrier.Dequeue(k));
      if Accounted(queue[k].node) {
        inFlight := inFlight + 1;
      }
      queue := queue[..k] + queue[k + 1..];
    }

    /** elv_completed_request after the node has left the driver. */
    method Completed()
      requires Valid()
      modifies this
      ensures Valid() && model == Drained(old(model))
    {
      if ordseq != IDLE {
        if inFlight == 0 && CurSeq(ordseq) == DRAIN && (|queue| == 0 || ReqSeq(orig, queue[0].node) > DRAIN) {
          var over := CompleteSequence(IDLE.(drain := true), 0);
        }
      }
    }

    /** Take a node off the queue (it is at `k`) or off the count of requests with the driver. */
    method Release(n: Node, queued: bool, k: nat)
      requires Valid() && Distinct(queue) && (queued <==> n !in model.flying)
      requires queued ==> k < |queue| && queue[k].node == n
      modifies this
      ensures Valid() && model == Take(old(model), n)
    {
      hide Accounted;
      model := Take(model, n);
      if queued {
        IndexUnique(queue, n, k);
        queue := queue[..k] + queue[k + 1..];
      } else if Accounted(n) {
        inFlight := inFlight - 1;
      }
    }

    /** __blk_end_request on what is left of an ordinary request. */
    method CompletePlain(r: Request, error: int, queued: bool, k: nat)
      requires Valid() && Stages(model) && Issued(model, Plain(r))
      requires queued <==> Plain(r) !in model.flying
      requires queued ==> k < |queue| && queue[k].node == Plain(r)
      modifies this
      ensures Valid() && model == Step(old(model), Barrier.Complete(Plain(r), error))
    {
      hide Take, Drained;
      model := model.(handed := Nothing);
      Release(Plain(r), queued, k);
      model := End(model, r, error);
      Completed();
    }

    /** pre_flush_end_io, bar_end_io and post_flush_end_io; for bar_rq after req_bio_endio. */
    method CompleteProxy(n: Node, error: int, queued: bool, k: nat)
      requires Valid() && Stages(model) && Issued(model, n) && !n.Plain?
      requires queued <==> n !in model.flying
      requires queued ==> k < |queue| && queue[k].node == n
      modifies this
      ensures Valid() && model == Step(old(model), Barrier.Complete(n, error))
    {
      hide Take, Drained, Overlap, Stages, CompleteSeq, Issued, Finish, Step, StageBit;
      ghost var t := model.(handed := Nothing);
      ProxyFacts(model, n, error);
      model := t;
      Release(n, queued, k);
      if n == Bar {
        model := Report(model, error);
        if error != 0 && orderr == 0 {
          orderr := error;
        }
      }
      Completed();
      var over := CompleteSequence(StageBit(n), error);
    }
  }

  lemma StartedIs(s: Queue)
    requires |s.queue| > 0 && s.queue[0].node.Plain?
    ensures var t := Started(s); var rq := s.queue[0].node.r; var m := SequenceMode(s.mode, rq.empty);
            && t.queue == Stack(s.queue[1..], m) && t.ordered == m && t.orig == rq && t.orderr == 0
            && t.ordseq == IDLE.(started := true) && t.mode == s.mode && t.held == s.held && t.inFlight == s.inFlight
            && t.ordcolor == s.ordcolor && t.handed == s.handed
            && Skipped(s) == Ordseq(false, !(m.drain && s.inFlight != 0), !m.pre, !m.bar, !m.post)
  {
  }

  lemma StartFacts(s: Barrier.Queue)
    requires Stages(s) && |s.queue| > 0 && s.queue[0].node.Plain? && s.ordseq == IDLE
    ensures var skip := Skipped(s);
            var m := Started(s).ordered;
            var t := CompleteSeq(Started(s), skip, 0);
            && !Overlap(IDLE.(started := true), skip)
            && (CurSeq(Or(IDLE.(started := true), skip)) == DONE ==> !m.pre && !m.bar && !m.post)
            && StartOrdered(s) == if skip.drain && (m.pre || m.bar || m.post) then HandHead(t) else t
  {
    StartedPending(s);
    StartIsComplete(s);
  }

  lemma ProxyFacts(s: Barrier.Queue, n: Node, error: int)
    requires Stages(s) && Issued(s, n) && !n.Plain?
    ensures var t := s.(handed := Nothing);
            var u := Take(t, n);
            var v := Drained(if n == Bar then Report(u, error) else u);
            && Distinct(s.queue) && Enabled(s, Barrier.Complete(n, error))
            && Step(s, Barrier.Complete(n, error)) == CompleteSeq(v, StageBit(n), error)
            && !Overlap(v.ordseq, StageBit(n))
  {
    UnhandedStages(s);
    assert Issued(s.(handed := Nothing), n);
    StageOpen(s.(handed := Nothing), n, error);
    FinishProxy(s.(handed := Nothing), n, error);
  }

  lemma FinishProxy(s: Barrier.Queue, n: Node, error: int)
    requires !n.Plain?
    ensures var t := Take(s, n);
            Finish(s, n, error) == CompleteSeq(Drained(if n == Bar then Report(t, error) else t), StageBit(n), error)
  {
  }

  lemma CompleteQueue(s: Barrier.Queue, mask: Ordseq, error: int)
    ensures CompleteSeq(s, mask, error).queue == s.queue && CompleteSeq(s, mask, error).handed == s.handed
  {
  }

  lemma UnhandedStages(s: Barrier.Queue)
    requires Stages(s)
    ensures Stages(s.(handed := Nothing))
  {
  }

  lemma NoNexts(s: Barrier.Queue)
    ensures Runs(s, Nexts(0)) && Run(s, Nexts(0)) == s
  {
  }

  lemma MovedPast(end: int, boundary: Option<Node>, handed: Handed, ends: Node -> int)
    ensures var past := handed.Handed? && (boundary.None? || boundary == Some(handed.node));
            Moved(end, boundary, handed, ends) ==
            (if past then ends(handed.node) else end, if past then None else boundary)
  {
  }

  lemma NotMoved(end: int, boundary: Option<Node>, ends: Node -> int)
    ensures Moved(end, boundary, Nothing, ends) == (end, boundary)
  {
  }

  lemma OneMore(s: Barrier.Queue, k: nat)
    requires Runs(s, Nexts(k)) && Enabled(Run(s, Nexts(k)), Next)
    ensures Runs(s, Nexts(k + 1)) && Run(s, Nexts(k + 1)) == Step(Run(s, Nexts(k)), Next)
  {
    OneMoreEvent(s, Nexts(k), Next);
    assert Nexts(k) + [Next] == Nexts(k + 1);
  }

  ghost predicate AllDispatches(es: seq<Event>) { forall i :: 0 <= i < |es| ==> es[i].Dispatch? }

  lemma DispatchFacts(s: Barrier.Queue, r: Request, pos: nat)
    requires Enabled(s, Dispatch(r, pos))
    ensures var t := Step(s, Dispatch(r, pos));
            t.count == s.count && t.barriers == s.barriers && t.ordcolor == s.ordcolor
  {
  }

  lemma NoDispatches(s: Barrier.Queue)
    ensures Runs(s, []) && Run(s, []) == s && AllDispatches([])
  {
  }

  lemma {:induction false} DispatchesKeep(s: Barrier.Queue, es: seq<Event>)
    requires Runs(s, es) && AllDispatches(es)
    ensures var t := Run(s, es); t.count == s.count && t.barriers == s.barriers && t.ordcolor == s.ordcolor
    decreases |es|
  {
    hide Step, Enabled;
    if es != [] {
      DispatchFacts(s, es[0].r, es[0].pos);
      DispatchesKeep(Step(s, es[0]), es[1..]);
    }
  }

  /** A submission changes the colour and the place the request goes to, besides the history. */
  lemma SubmitIs(s: Barrier.Queue, e: Event, r: Request)
    requires e.Submit? && (Placement(e.where, e.soft, e.barrier, e.elvpriv) == Sort ==> e.fs || e.discard)
    requires Placement(e.where, e.soft, e.barrier, e.elvpriv) == Back ==> s.held == {}
    requires r == NewRequest(s, e)
    ensures Enabled(s, e)
    ensures var t := Step(s, e);
            && t.mode == s.mode && t.inFlight == s.inFlight && t.ordseq == s.ordseq && t.ordered == s.ordered
            && t.orig == s.orig && t.orderr == s.orderr && t.ordcolor == (s.ordcolor != e.barrier)
            && match Placement(e.where, e.soft, e.barrier, e.elvpriv)
               case Front => t.queue == [Entry(Plain(r), true, false)] + s.queue && t.held == s.held
               case Back => t.queue == s.queue + [Entry(Plain(r), true, false)] && t.held == s.held
               case Sort => t.queue == s.queue && t.held == s.held + {r}
  {
  }

  lemma OneMoreEvent(s: Barrier.Queue, es: seq<Event>, e: Event)
    requires Runs(s, es) && Enabled(Run(s, es), e)
    ensures Runs(s, es + [e]) && Run(s, es + [e]) == Step(Run(s, es), e)
  {
    hide Step, Enabled;
    var t := Run(s, es);
    assert [e][1..] == [];
    assert Runs(t, [e]) && Run(t, [e]) == Step(t, e);
    RunAppend(s, es, [e]);
  }

  lemma IndexUnique(q: seq<Entry>, n: Node, k: nat)
    requires Distinct(q) && k < |q| && q[k].node == n
    ensures IndexOf(q, n) == k
  {
  }

  /** When a proxy completes, its stage has not been marked. */
  lemma StageOpen(s: Barrier.Queue, n: Node, error: int)
    requires Stages(s) && Issued(s, n) && !n.Plain?
    ensures var t := Take(s, n);
            !Overlap(Drained(if n == Bar then Report(t, error) else t).ordseq, StageBit(n))
  {
    ProxyTaken(s, n);
    var t := Take(s, n);
    ReportKeeps(t, StageBit(n), error);
    DrainedKeeps(if n == Bar then Report(t, error) else t, StageBit(n));
  }

  /** A sweep goes up from the boundary and then up again from the lowest sector: nothing at or past the boundary stands
      behind something below it, and on either side the sectors ascend. */
  lemma SweepAscends(boundary: int, rq: Request, q: seq<Entry>, k: nat, i: nat, j: nat)
    requires Sweep(boundary, rq, q, k) && k <= i < j < |q|
    ensures q[i].node.Plain? && q[j].node.Plain?
    ensures var a, b := q[i].node.r.sector, q[j].node.r.sector;
            && !(a < boundary <= b)
            && ((a >= boundary <==> b >= boundary) ==> a <= b)
  {
    assert Precedes(boundary, q[i].node.r, q[j].node.r);
  }

  lemma SweepInsert(boundary: int, rq: Request, q: seq<Entry>, k: nat, pos: nat)
    requires Segment(boundary, rq, q, k)
    requires pos <= |q|
    requires forall i :: pos <= i < |q| ==> Passable(rq, q[i]) && !Precedes(boundary, q[i].node.r, rq)
    requires pos == 0 || !Passable(rq, q[pos - 1]) || Precedes(boundary, q[pos - 1].node.r, rq)
    ensures k <= pos && Sweep(boundary, rq, Insert(q, pos, Entry(Plain(rq), false, false)), k)
  {
  }
}
