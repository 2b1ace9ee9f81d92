/** What the fetch loop hands out, exactly, and that a drain-ordered queue never waits in vain: whenever a sequence is
    in progress and the driver has nothing, the next fetch hands it something. */
module BarrierProgress {
  import opened Barrier
  import opened BarrierStages
  import opened BarrierOrder
  import opened BarrierHistory

  /** A plain fs request with the hard barrier flag. */
  predicate PlainBarrier(n: Node) { n.Plain? && n.r.fs && n.r.barrier }

  /** What a fetch hands out while b's sequence is in progress: whatever is no fs request; with tags everything but
      other barriers; and without, the requests from before the barrier and the proxy whose turn it is. */
  predicate HandsOut(s: Queue, b: Request, n: Node) {
    || (n.Plain? && !n.r.fs)
    || (if s.mode.tag && (s.mode.pre || !b.empty) then !PlainBarrier(n)
        else
          match n
          case Plain(r) => r.color == b.color
          case PreFlush => s.ordseq.drain
          case Bar => s.ordseq.drain && s.ordseq.pre
          case PostFlush => s.ordseq.drain && s.ordseq.pre && s.ordseq.bar)
  }

  /** Only a queue that orders by tags treats a sequence by tags, unless nothing of it is left to tag. */
  ghost predicate TaggedRight(s: Queue) {
    s.ordseq.started ==> (s.ordered.tag <==> s.mode.tag && (s.mode.pre || !s.orig.empty))
  }

  lemma TaggedSame(s: Queue, t: Queue)
    requires TaggedRight(s) && t.mode == s.mode && t.ordered == s.ordered && t.orig == s.orig
    requires t.ordseq.started ==> s.ordseq.started
    ensures TaggedRight(t)
  {
  }

  lemma CompleteOrderedSame(s: Queue, mask: Ordseq, error: int)
    ensures CompleteSeq(s, mask, error).ordered == s.ordered
  {
    hide CurSeq, Overlap;
  }

  lemma DrainedOrderedSame(s: Queue)
    ensures Drained(s).ordered == s.ordered
  {
    hide CurSeq, CompleteSeq, ReqSeq;
    CompleteOrderedSame(s, IDLE.(drain := true), 0);
  }

  lemma FinishOrderedSame(s: Queue, n: Node, error: int)
    ensures Finish(s, n, error).ordered == s.ordered
  {
    hide CompleteSeq, Drained;
    var t := Take(s, n);
    assert t.ordered == s.ordered;
    hide Take;
    match n
    case Plain(r) => DrainedOrderedSame(End(t, r, error));
    case PreFlush => {
      DrainedOrderedSame(t);
      CompleteOrderedSame(Drained(t), IDLE.(pre := true), error);
    }
    case Bar => {
      DrainedOrderedSame(Report(t, error));
      CompleteOrderedSame(Drained(Report(t, error)), IDLE.(bar := true), error);
    }
    case PostFlush => {
      DrainedOrderedSame(t);
      CompleteOrderedSame(Drained(t), IDLE.(post := true), error);
    }
  }

  lemma StartTagged(s: Queue)
    requires |s.queue| > 0 && s.queue[0].node.Plain?
    ensures TaggedRight(StartOrdered(s))
  {
    hide CompleteSeq, HandHead, Push, CurSeq;
    StartIsComplete(s);
    StartExtends(s);
    CompleteOrderedSame(Started(s), Skipped(s), 0);
    CompleteExtends(Started(s), Skipped(s), 0);
    var t := CompleteSeq(Started(s), Skipped(s), 0);
    HandHeadOrderedSame(t);
    HandHeadSame(t);
  }

  lemma HandHeadOrderedSame(s: Queue)
    ensures HandHead(s).ordered == s.ordered
  {
  }

  lemma StepTagged(s: Queue, e: Event)
    requires Enabled(s, e) && TaggedRight(s)
    ensures TaggedRight(Step(s, e))
  {
    hide CompleteSeq, Finish, HandHead, Take, CurSeq, ReqSeq, StartOrdered, RequeueAt, Placement, Issued, TaggedRight;
    var u := s.(handed := Nothing);
    TaggedSame(s, u);
    match e
    case Submit(_, _, _, _, _, _, _, _, _) => TaggedSame(s, Step(s, e));
    case Dispatch(_, _) => TaggedSame(s, Step(s, e));
    case Next => FetchTagged(u);
    case Dequeue(_) => TaggedSame(s, Step(s, e));
    case BarError(_) => TaggedSame(s, Step(s, e));
    case Complete(n, error) => {
      FinishOrderedSame(u, n, error);
      FinishExtends(u, n, error);
      TaggedSame(u, Finish(u, n, error));
    }
    case Requeue(n) => {
      TakeSame(u, n);
      TakeOrderedSame(u, n);
      TaggedSame(u, PutBack(u, n));
    }
  }

  lemma TakeOrderedSame(s: Queue, n: Node)
    ensures Take(s, n).ordered == s.ordered
  {
  }

  lemma FetchTagged(s: Queue)
    requires TaggedRight(s) && |s.queue| > 0
    ensures TaggedRight(Fetch(s))
  {
    hide StartOrdered, HandHead, CurSeq, ReqSeq, TaggedRight;
    HandHeadSame(s);
    HandHeadOrderedSame(s);
    TaggedSame(s, HandHead(s));
    var n := s.queue[0].node;
    if s.ordseq == IDLE && PlainBarrier(n) {
      if s.mode != ORDERED_NONE {
        StartTagged(s);
      } else {
        TaggedSame(s, Fetch(s));
      }
    }
  }

  lemma {:induction false} RunTagged(s: Queue, es: seq<Event>)
    requires TaggedRight(s) && Runs(s, es)
    ensures TaggedRight(Run(s, es))
    decreases |es|
  {
    hide Step, Enabled, TaggedRight;
    if es != [] {
      StepTagged(s, es[0]);
      RunTagged(Step(s, es[0]), es[1..]);
    }
  }

  /** In every run, in every mode: a fetch from a queue where a sequence is in progress hands out the head exactly if
      it may go, and leaves the rest alone otherwise; from an idle queue it hands out everything but barriers. */
  lemma FetchedExactly(mode: Mode, es: seq<Event>)
    requires Runs(Init(mode), es) && |Run(Init(mode), es).queue| > 0
    ensures var s := Run(Init(mode), es); var n := s.queue[0].node; var t := Step(s, Next);
            && (s.ordseq.started ==>
                  if HandsOut(s, s.orig, n) then t.handed == Handed(n)
                  else t.handed == Nothing && t.queue == s.queue)
            && (!s.ordseq.started && !PlainBarrier(n) ==> t.handed == Handed(n))
  {
    hide Run, Runs;
    InitStages(mode);
    RunStages(Init(mode), es);
    RunTagged(Init(mode), es);
    FetchRule(Run(Init(mode), es));
  }

  lemma FetchRule(s: Queue)
    requires Stages(s) && TaggedRight(s) && |s.queue| > 0
    ensures var n := s.queue[0].node; var t := Step(s, Next);
            && (s.ordseq.started ==>
                  if HandsOut(s, s.orig, n) then t.handed == Handed(n)
                  else t.handed == Nothing && t.queue == s.queue)
            && (!s.ordseq.started && !PlainBarrier(n) ==> t.handed == Handed(n))
  {
    IdleOrStarted(s);
    hide Stages, StartOrdered;
  }

  lemma IdleOrStarted(s: Queue)
    requires Stages(s)
    ensures s.ordseq.started || s.ordseq == IDLE
  {
  }

  /** A new request goes to the scheduler exactly if it is to be sorted, is no barrier of either kind and has the
      scheduler's data; otherwise to the head or the tail of the queue, as asked. */
  lemma PlacedExactly(s: Queue, e: Event)
    requires e.Submit? && Enabled(s, e)
    ensures var t := Step(s, e); var r := NewRequest(s, e); var entry := Entry(Plain(r), true, false);
            if e.where == Sort && !e.soft && !e.barrier && e.elvpriv then t.held == s.held + {r} && t.queue == s.queue
            else if e.where == Front then t.held == s.held && t.queue == [entry] + s.queue
            else t.held == s.held && t.queue == s.queue + [entry]
  {
  }

  /** The scheduler's requests are put behind everything that is soft, that the driver has seen, or that is a barrier or
      a proxy, and anywhere behind that. */
  lemma DispatchedBehind(s: Queue, r: Request, pos: nat)
    ensures Enabled(s, Dispatch(r, pos)) <==>
            && r in s.held && pos <= |s.queue|
            && forall i :: pos <= i < |s.queue| ==>
                 var e := s.queue[i]; !e.soft && !e.started && e.node.Plain? && !e.node.r.barrier
  {
  }

  /** An empty barrier on a queue without a pre-flush has no stage but the drain: it ends only when nothing is in
      flight, also where ordering is by tags. */
  lemma EmptyBarrierDrains(mode: Mode, es: seq<Event>, e: Event, b: Request)
    requires (mode.drain || mode.tag) && !mode.pre && b.empty && Runs(Init(mode), es) && Enabled(Run(Init(mode), es), e)
    requires var s := Run(Init(mode), es);
             (InProgress(s, b) || Begins(s, e, b)) && b !in s.ended && b in Step(s, e).ended
    ensures Step(Run(Init(mode), es), e).inFlight == 0
  {
    hide Run, Runs, Step, Enabled, Within, Begun, Stages, Tracked, Begins, InProgress;
    InitStages(mode);
    RunStages(Init(mode), es);
    InitTracked(mode, b);
    RunTracked(Init(mode), es, b, [], false);
    var s := Run(Init(mode), es);
    if InProgress(s, b) {
      var w := Within(Init(mode), es, b, InProgress(Init(mode), b));
      assert [] + w == w;
      ProgressBegun(s, b, w, Begun(Init(mode), es, b));
      EmptyEnds(s, e, b, w);
    } else {
      EmptyBegins(s, e, b);
    }
  }

  lemma ProgressBegun(s: Queue, b: Request, w: seq<Event>, begun: bool)
    requires Tracked(s, b, w, begun) && InProgress(s, b)
    ensures begun
  {
  }

  lemma InitTracked(mode: Mode, b: Request)
    ensures Tracked(Init(mode), b, [], false)
  {
  }

  lemma EmptyBegins(s: Queue, e: Event, b: Request)
    requires (s.mode.drain || s.mode.tag) && !s.mode.pre && b.empty && Begins(s, e, b) && b !in s.ended
    ensures Enabled(s, e) && (b in Step(s, e).ended ==> Step(s, e).inFlight == 0)
  {
    hide HandHead, Push, Overlap;
    var u := s.(handed := Nothing);
    StartIsComplete(u);
    var t := CompleteSeq(Started(u), Skipped(u), 0);
    HandHeadSame(t);
    HandHeadFlight(t);
  }

  lemma HandHeadFlight(s: Queue)
    ensures HandHead(s).inFlight == s.inFlight
  {
  }

  lemma EmptyEnds(s: Queue, e: Event, b: Request, w: seq<Event>)
    requires !s.mode.pre && b.empty && Stages(s) && Enabled(s, e) && InProgress(s, b) && Tracked(s, b, w, true)
    ensures b in Step(s, e).ended ==> Step(s, e).inFlight == 0
  {
    hide Completions, FirstFault;
    ProgressLive(s, b);
    var u := s.(handed := Nothing);
    if b in Step(s, e).ended {
      NoProxies(s);
      StepEnder(s, e, b);
      FinishFlight(u, e.n, e.error, b);
    }
  }

  lemma NoProxies(s: Queue)
    requires Stages(s) && s.ordseq.started && s.ordseq.pre && s.ordseq.bar && s.ordseq.post
    ensures forall n :: Issued(s, n) ==> n.Plain?
  {
    forall n | Issued(s, n) ensures n.Plain? {
      IssuedPlace(s, n);
    }
  }

  /** Only a completion ends the barrier in progress. */
  lemma StepEnder(s: Queue, e: Event, b: Request)
    requires Stages(s) && Enabled(s, e) && InProgress(s, b) && b !in s.ended && b in Step(s, e).ended
    ensures e.Complete?
  {
    hide CompleteSeq, Finish, HandHead, Take, CurSeq, ReqSeq, StartOrdered, RequeueAt, Placement, Issued, Stages;
    var u := s.(handed := Nothing);
    match e
    case Submit(_, _, _, _, _, _, _, _, _) =>
    case Dispatch(_, _) =>
    case Next => HandHeadSame(u);
    case Dequeue(_) =>
    case BarError(_) =>
    case Complete(_, _) =>
    case Requeue(n) => TakeSame(u, n);
  }

  lemma FinishFlight(s: Queue, n: Node, error: int, b: Request)
    requires n.Plain? && s.ordseq.started && s.orig == b && b !in s.ended && n.r != b
    ensures b in Finish(s, n, error).ended ==> Finish(s, n, error).inFlight == 0
  {
    hide Take, CurSeq, ReqSeq, Overlap;
    TakeSame(s, n);
  }

  /** Discards are fs requests, as init_request_from_bio makes them. */
  predicate FsDiscards(e: Event) { e.Submit? ==> (e.discard ==> e.fs) }

  /** What is no fs request was put on the queue by the submitter and may not be passed. */
  ghost predicate Unpassed(s: Queue) {
    && (forall r :: r in s.held ==> r.fs)
    && forall i :: 0 <= i < |s.queue| && s.queue[i].node.Plain? && !s.queue[i].node.r.fs ==> s.queue[i].soft
  }

  ghost predicate DriverIdle(s: Queue) {
    s.flying == {} && forall i :: 0 <= i < |s.queue| ==> !s.queue[i].started
  }

  /** A sequence that waits for the drain while the driver has nothing has something to hand out. */
  ghost predicate Drainable(s: Queue) {
    s.ordseq.started && !s.ordseq.drain && DriverIdle(s) ==> |s.queue| > 0 && ReqSeq(s.orig, s.queue[0].node) <= DRAIN
  }

  lemma UnpassedInsert(s: Queue, k: nat, e: Entry)
    requires Unpassed(s) && k <= |s.queue| && (e.node.Plain? && !e.node.r.fs ==> e.soft)
    ensures Unpassed(s.(queue := Insert(s.queue, k, e)))
  {
  }

  lemma UnpassedTake(s: Queue, n: Node)
    requires Unpassed(s)
    ensures Unpassed(Take(s, n))
  {
  }

  lemma UnpassedSame(s: Queue, t: Queue)
    requires Unpassed(s) && t.queue == s.queue && t.held == s.held
    ensures Unpassed(t)
  {
  }

  lemma CompleteLists(s: Queue, mask: Ordseq, error: int)
    ensures var t := CompleteSeq(s, mask, error);
            t.queue == s.queue && t.held == s.held && t.flying == s.flying && t.inFlight == s.inFlight
  {
    hide CurSeq, Overlap;
  }

  lemma DrainedLists(s: Queue)
    ensures var t := Drained(s);
            t.queue == s.queue && t.held == s.held && t.flying == s.flying && t.inFlight == s.inFlight
  {
    hide CurSeq, CompleteSeq, ReqSeq;
    CompleteLists(s, IDLE.(drain := true), 0);
  }

  lemma FinishLists(s: Queue, n: Node, error: int)
    ensures var t := Finish(s, n, error); var u := Take(s, n);
            t.queue == u.queue && t.held == u.held && t.flying == u.flying && t.inFlight == u.inFlight
  {
    hide CompleteSeq, Drained, Take;
    var t := Take(s, n);
    match n
    case Plain(r) => DrainedLists(End(t, r, error));
    case PreFlush => {
      DrainedLists(t);
      CompleteLists(Drained(t), IDLE.(pre := true), error);
    }
    case Bar => {
      DrainedLists(Report(t, error));
      CompleteLists(Drained(Report(t, error)), IDLE.(bar := true), error);
    }
    case PostFlush => {
      DrainedLists(t);
      CompleteLists(Drained(t), IDLE.(post := true), error);
    }
  }

  lemma UnpassedHand(s: Queue)
    requires Unpassed(s)
    ensures Unpassed(HandHead(s))
  {
  }

  lemma UnpassedStart(s: Queue)
    requires Unpassed(s) && |s.queue| > 0 && s.queue[0].node.Plain?
    ensures Unpassed(StartOrdered(s))
  {
    hide CompleteSeq, HandHead, CurSeq, SequenceMode, StartOrdered;
    StartIsComplete(s);
    CompleteLists(Started(s), Skipped(s), 0);
    var t := CompleteSeq(Started(s), Skipped(s), 0);
    UnpassedHand(t);
  }

  lemma StepUnpassed(s: Queue, e: Event)
    requires Unpassed(s) && Enabled(s, e) && FsDiscards(e)
    ensures Unpassed(Step(s, e))
  {
    hide Unpassed, CompleteSeq, Finish, HandHead, Take, CurSeq, ReqSeq, StartOrdered, RequeueAt, Issued, Insert, Remove;
    var u := s.(handed := Nothing);
    UnpassedSame(s, u);
    match e
    case Submit(_, _, _, _, _, _, _, _, _) => UnpassedAdd(u, e);
    case Dispatch(r, pos) => UnpassedDispatch(u, r, pos);
    case Next => {
      UnpassedHand(u);
      if u.queue[0].node.Plain? {
        UnpassedStart(u);
        UnpassedTail(u);
      }
    }
    case Dequeue(k) => UnpassedDequeue(u, k);
    case BarError(_) => UnpassedSame(u, Step(s, e));
    case Complete(n, error) => {
      UnpassedTake(u, n);
      FinishLists(u, n, error);
      UnpassedSame(Take(u, n), Finish(u, n, error));
    }
    case Requeue(n) => {
      UnpassedTake(u, n);
      var t := Take(u, n);
      TakeSame(u, n);
      var k := if u.ordseq == IDLE then 0 else RequeueAt(u.orig, t.queue, ReqSeq(u.orig, n));
      UnpassedInsert(t, k, Entry(n, true, false));
    }
  }

  lemma UnpassedAdd(s: Queue, e: Event)
    requires Unpassed(s) && e.Submit? && Enabled(s, e) && FsDiscards(e)
    ensures Unpassed(Add(s, e))
  {
  }

  lemma UnpassedDispatch(s: Queue, r: Request, pos: nat)
    requires Unpassed(s) && r in s.held && pos <= |s.queue|
    ensures Unpassed(s.(held := s.held - {r}, queue := Insert(s.queue, pos, Entry(Plain(r), false, false))))
  {
  }

  lemma UnpassedTail(s: Queue)
    requires Unpassed(s) && |s.queue| > 0 && s.queue[0].node.Plain?
    ensures Unpassed(End(s.(queue := s.queue[1..]), s.queue[0].node.r, -EOPNOTSUPP))
  {
  }

  lemma UnpassedDequeue(s: Queue, k: nat)
    requires Unpassed(s) && k < |s.queue|
    ensures var n := s.queue[k].node;
            Unpassed(s.(queue := Remove(s.queue, k), flying := s.flying + {n},
                        inFlight := if Accounted(n) then s.inFlight + 1 else s.inFlight))
  {
  }

  /** A head that may go while the drain lasts may not be passed. */
  lemma HeadStays(s: Queue)
    requires Inv(s) && Unpassed(s) && s.ordseq.started && |s.queue| > 0 && ReqSeq(s.orig, s.queue[0].node) <= DRAIN
    ensures s.queue[0].soft
  {
    assert QueuedOk(s, s.queue[0]);
    if s.queue[0].node.Plain? && s.queue[0].node.r.fs {
      HeadEpoch(s);
    }
  }

  lemma DispatchDrainable(s: Queue, r: Request, pos: nat)
    requires Inv(s) && Unpassed(s) && Drainable(s) && Enabled(s, Dispatch(r, pos))
    ensures Drainable(s.(held := s.held - {r}, queue := Insert(s.queue, pos, Entry(Plain(r), false, false))))
  {
    hide Inv;
    var t := s.(held := s.held - {r}, queue := Insert(s.queue, pos, Entry(Plain(r), false, false)));
    if t.ordseq.started && !t.ordseq.drain && DriverIdle(t) {
      forall i | 0 <= i < |s.queue| ensures !s.queue[i].started {
        assert t.queue[if i < pos then i else i + 1] == s.queue[i];
      }
      HeadStays(s);
      assert Stops(s.queue[0]);
    }
  }

  lemma AddDrainable(s: Queue, e: Event)
    requires Drainable(s) && e.Submit? && Disciplined(e) && Enabled(s, e)
    ensures Drainable(Add(s, e))
  {
    hide Placement;
    var t := Add(s, e);
    PlacedExactly(s, e);
    if t.ordseq.started && !t.ordseq.drain && DriverIdle(t) && e.where != Front {
      forall i | 0 <= i < |s.queue| ensures !s.queue[i].started {
        assert t.queue[i] == s.queue[i];
      }
    }
  }

  lemma StartDrainable(s: Queue)
    requires Stages(s) && |s.queue| > 0 && s.queue[0].node.Plain? && s.ordseq == IDLE
    ensures Drainable(StartOrdered(s))
  {
    hide HandHead, Push, SequenceMode, Overlap, StartOrdered, Stages;
    StartIsComplete(s);
    CompleteLists(Started(s), Skipped(s), 0);
    var t := CompleteSeq(Started(s), Skipped(s), 0);
    HandHeadSame(t);
    HandHeadFlight(t);
    SomeFlight(s);
    HandHeadLists(t);
  }

  lemma HandHeadLists(s: Queue)
    ensures HandHead(s).flying == s.flying
  {
  }

  lemma SomeFlight(s: Queue)
    requires Stages(s)
    ensures s.inFlight != 0 ==> s.flying != {}
  {
  }

  lemma NoFlight(s: Queue)
    requires Stages(s) && s.flying == {}
    ensures s.inFlight == 0
  {
  }

  /** After a completion the drain test has been made. */
  lemma FinishDrainable(s: Queue, n: Node, error: int)
    requires Stages(s) && Issued(s, n) && Stages(Finish(s, n, error))
    ensures Drainable(Finish(s, n, error))
  {
    hide Stages, Issued, Take, Finish, ReqSeq;
    var t := Finish(s, n, error);
    FinishLists(s, n, error);
    FinishExtends(s, n, error);
    if t.ordseq.started && !t.ordseq.drain && DriverIdle(t) {
      NoFlight(t);
      if n.Plain? {
        PlainTested(s, n, error);
      } else {
        ProxyTaken(s, n);
        ProxyTested(s, n, error);
      }
    }
  }

  lemma PlainTested(s: Queue, n: Node, error: int)
    requires n.Plain? && Take(s, n).inFlight == 0
    requires Finish(s, n, error).ordseq.started && !Finish(s, n, error).ordseq.drain
    ensures var t := Take(s, n); |t.queue| > 0 && ReqSeq(s.orig, t.queue[0].node) <= DRAIN
  {
    hide Take, Drained, ReqSeq;
    TakeSame(s, n);
    var u := End(Take(s, n), n.r, error);
    DrainedExtends(u);
    TestMade(u);
  }

  lemma ProxyTested(s: Queue, n: Node, error: int)
    requires !n.Plain? && Take(s, n).inFlight == 0 && Take(s, n).ordseq.started
    requires Finish(s, n, error).ordseq.started && !Finish(s, n, error).ordseq.drain
    ensures var t := Take(s, n); |t.queue| > 0 && ReqSeq(s.orig, t.queue[0].node) <= DRAIN
  {
    hide Take, Drained, ReqSeq, CompleteSeq;
    TakeSame(s, n);
    var u := if n == Bar then Report(Take(s, n), error) else Take(s, n);
    CompleteExtends(Drained(u), StageBit(n), error);
    MarkLater(Drained(u), StageBit(n), error);
    TestMade(u);
  }

  lemma TestMade(s: Queue)
    requires s.inFlight == 0 && s.ordseq.started && Drained(s).ordseq.started && !Drained(s).ordseq.drain
    ensures |s.queue| > 0 && ReqSeq(s.orig, s.queue[0].node) <= DRAIN && Drained(s) == s
  {
    hide ReqSeq, Overlap;
  }

  lemma MarkLater(s: Queue, mask: Ordseq, error: int)
    requires CompleteSeq(s, mask, error).ordseq.started
    ensures CompleteSeq(s, mask, error).orig == s.orig && Or(s.ordseq, mask) == CompleteSeq(s, mask, error).ordseq
  {
    hide Overlap, CurSeq;
  }

  lemma PutBackDrainable(s: Queue, n: Node)
    requires Inv(s) && n in s.flying
    ensures Drainable(PutBack(s, n))
  {
    var t := Take(s, n);
    TakeSame(s, n);
    assert FlyingOk(s, n);
    var k := if s.ordseq == IDLE then 0 else RequeueAt(s.orig, t.queue, ReqSeq(s.orig, n));
    if s.ordseq.started && !s.ordseq.drain {
      FlyingStage(s, n);
      assert k == 0;
    }
  }

  lemma FlyingStage(s: Queue, n: Node)
    requires Inv(s) && n in s.flying && s.ordseq.started && !s.ordseq.drain
    ensures ReqSeq(s.orig, n) == DRAIN && s.ordseq != IDLE
  {
    assert FlyingOk(s, n);
    if n.Plain? && n.r.fs {
      assert Live(s, n.r);
    }
  }

  lemma StepDrainable(s: Queue, e: Event)
    requires Inv(s) && Unpassed(s) && Drainable(s) && Enabled(s, e) && Disciplined(e) && Chronology(s)
    ensures Drainable(Step(s, e))
  {
    hide Inv, Unpassed, CompleteSeq, Finish, HandHead, Take, CurSeq, ReqSeq, StartOrdered, RequeueAt, Issued, Insert,
      Remove, Placement, Chronology;
    var u := s.(handed := Nothing);
    UnhandedInv(s);
    InvStages(u);
    assert Drainable(u);
    match e
    case Submit(_, _, _, _, _, _, _, _, _) => AddDrainable(u, e);
    case Dispatch(r, pos) => {
      UnpassedSame(s, u);
      DispatchDrainable(u, r, pos);
    }
    case Next => FetchDrainable(u);
    case Dequeue(k) =>
    case BarError(_) =>
    case Complete(n, error) => {
      IssuedUnhanded(s, n);
      FinishKeeps(u, n, error);
      FinishDrainable(u, n, error);
    }
    case Requeue(n) => PutBackDrainable(u, n);
  }

  lemma InvStages(s: Queue)
    requires Inv(s)
    ensures Stages(s) && s.mode != ORDERED_NONE
  {
  }

  lemma FetchDrainable(s: Queue)
    requires Stages(s) && Drainable(s) && |s.queue| > 0 && s.mode != ORDERED_NONE
    ensures Drainable(Fetch(s))
  {
    hide Stages, StartOrdered, CurSeq, ReqSeq;
    if s.queue[0].node.Plain? && s.ordseq == IDLE {
      StartDrainable(s);
    }
  }

  lemma {:induction false} RunDrainable(s: Queue, es: seq<Event>)
    requires Inv(s) && Chronology(s) && Safe(s) && Unpassed(s) && Drainable(s) && Runs(s, es)
    requires forall e :: e in es ==> Disciplined(e) && FsDiscards(e)
    ensures Inv(Run(s, es)) && Drainable(Run(s, es))
    decreases |es|
  {
    hide Inv, Chronology, Safe, Unpassed, Drainable, Step, Enabled, Disciplined, FsDiscards, Stages, Epochs, Ordered;
    if es != [] {
      InvParts(s);
      StepKeeps(s, es[0]);
      StepEpochs(s, es[0]);
      StepOrdered(s, es[0]);
      InvFrom(Step(s, es[0]));
      StepUnpassed(s, es[0]);
      StepDrainable(s, es[0]);
      RunDrainable(Step(s, es[0]), es[1..]);
    }
  }

  lemma InvParts(s: Queue)
    requires Inv(s)
    ensures Stages(s) && Epochs(s) && Ordered(s)
  {
  }

  lemma InvFrom(s: Queue)
    requires Stages(s) && Epochs(s) && Ordered(s)
    ensures Inv(s)
  {
  }

  /** In every run of a drain-ordered queue: while a sequence is in progress and the driver has nothing, the queue is
      not empty and the next fetch hands out its head.  So every sequence goes on for as long as the driver fetches
      and completes. */
  lemma NeverStuck(mode: Mode, es: seq<Event>)
    requires mode in {ORDERED_DRAIN, ORDERED_DRAIN_FLUSH, ORDERED_DRAIN_FUA}
    requires Runs(Init(mode), es) && forall e :: e in es ==> Disciplined(e) && FsDiscards(e)
    requires var s := Run(Init(mode), es); s.ordseq.started && DriverIdle(s)
    ensures var s := Run(Init(mode), es); |s.queue| > 0 && Step(s, Next).handed == Handed(s.queue[0].node)
  {
    hide Run, Runs, Step, Disciplined, FsDiscards, Inv, Stages;
    InitStages(mode);
    InitInv(mode);
    RunDrainable(Init(mode), es);
    RunTagged(Init(mode), es);
    var s := Run(Init(mode), es);
    InvParts(s);
    RunMode(Init(mode), es);
    HeadGoes(s);
    FetchRule(s);
  }

  lemma InitInv(mode: Mode)
    requires mode in {ORDERED_DRAIN, ORDERED_DRAIN_FLUSH, ORDERED_DRAIN_FUA}
    ensures var s := Init(mode); Inv(s) && Chronology(s) && Safe(s) && Unpassed(s) && Drainable(s)
  {
    InitStages(mode);
  }

  lemma {:induction false} RunMode(s: Queue, es: seq<Event>)
    requires Runs(s, es)
    ensures Run(s, es).mode == s.mode
    decreases |es|
  {
    hide Step, Enabled;
    if es != [] {
      StepExtends(s, es[0]);
      RunMode(Step(s, es[0]), es[1..]);
    }
  }

  lemma HeadGoes(s: Queue)
    requires Inv(s) && Drainable(s) && s.ordseq.started && DriverIdle(s)
    ensures |s.queue| > 0 && HandsOut(s, s.orig, s.queue[0].node)
  {
    if s.ordseq.drain {
      var n := if !s.ordseq.pre then PreFlush else if !s.ordseq.bar then Bar else PostFlush;
      assert n in Nodes(s.queue) + s.flying;
      var i :| 0 <= i < |s.queue| && s.queue[i].node == n;
      ProxyFirst(s, i);
    }
  }

  /** Once drained, nothing with a place in write order is ahead of the proxy whose turn it is. */
  lemma ProxyFirst(s: Queue, i: nat)
    requires Inv(s) && s.ordseq.started && s.ordseq.drain && i < |s.queue| && !s.queue[i].node.Plain?
    requires Stage(s.queue[i].node) == CurSeq(s.ordseq)
    ensures HandsOut(s, s.orig, s.queue[0].node)
  {
    var h := s.queue[0].node;
    assert QueuedOk(s, s.queue[0]);
    assert h in Nodes(s.queue) + s.flying;
    if i > 0 && Rank(s.retired, h) >= 0 {
      assert Rank(s.retired, h) <= Rank(s.retired, s.queue[i].node);
    }
  }
}
