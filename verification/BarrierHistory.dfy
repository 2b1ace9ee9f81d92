/** What a run shows of each barrier: which of the proxies the driver completed between the fetch that began the
    barrier's sequence and the barrier's end, and with which errors.  It is read off the run's events. */
module BarrierHistory {
  import opened Barrier
  import opened BarrierStages

  /** Fetching finds the fs barrier b at the head of an idle queue that can order, and begins its sequence. */
  predicate Begins(s: Queue, e: Event, b: Request) {
    && e.Next? && |s.queue| > 0 && s.queue[0].node == Plain(b) && b.fs && b.barrier
    && s.ordseq == IDLE && s.mode != ORDERED_NONE
  }

  predicate Begun(s: Queue, es: seq<Event>, b: Request)
    requires Runs(s, es)
    decreases |es|
  {
    es != [] && (Begins(s, es[0], b) || Begun(Step(s, es[0]), es[1..], b))
  }

  /** The events after the beginning of b's sequence, up to the one that ends b. */
  function Within(s: Queue, es: seq<Event>, b: Request, open: bool): seq<Event>
    requires Runs(s, es)
    decreases |es|
  {
    if es == [] then []
    else
      var t := Step(s, es[0]);
      (if open then [es[0]] else []) + Within(t, es[1..], b, (open || Begins(s, es[0], b)) && b !in t.ended)
  }

  function Completions(es: seq<Event>, n: Node): nat {
    if es == [] then 0
    else
      var e := es[|es| - 1];
      Completions(es[..|es| - 1], n) + if e.Complete? && e.n == n then 1 else 0
  }

  /** The error an event reports for the barrier in progress. */
  function Fault(e: Event): int {
    if e.BarError? || (e.Complete? && !e.n.Plain?) then e.error else 0
  }

  /** The first error reported that is not 0, or 0. */
  function FirstFault(es: seq<Event>): int {
    if es == [] then 0
    else
      var before := FirstFault(es[..|es| - 1]);
      if before != 0 then before else Fault(es[|es| - 1])
  }

  predicate HasBar(m: Mode, b: Request) { m.bar && !b.empty }

  predicate HasPost(m: Mode, b: Request) { m.post && !b.empty }

  function One(c: bool): nat { if c then 1 else 0 }

  /** The proxies of b's sequence that are marked in o have been completed once, the others not. */
  ghost predicate Tally(m: Mode, b: Request, o: Ordseq, w: seq<Event>) {
    && (m.pre || o.pre) && (HasBar(m, b) || o.bar) && (HasPost(m, b) || o.post)
    && Completions(w, PreFlush) == One(m.pre && o.pre)
    && Completions(w, Bar) == One(HasBar(m, b) && o.bar)
    && Completions(w, PostFlush) == One(HasPost(m, b) && o.post)
  }

  ghost predicate Full(m: Mode, b: Request, w: seq<Event>) {
    && Completions(w, PreFlush) == One(m.pre)
    && Completions(w, Bar) == One(HasBar(m, b))
    && Completions(w, PostFlush) == One(HasPost(m, b))
  }

  predicate InProgress(s: Queue, b: Request) { s.ordseq.started && s.orig == b }

  /** Where b stands, w being the events of its sequence so far. */
  ghost predicate Tracked(s: Queue, b: Request, w: seq<Event>, begun: bool) {
    && (!begun ==> w == [] && !InProgress(s, b))
    && (InProgress(s, b) ==> Tally(s.mode, b, s.ordseq, w) && s.orderr == FirstFault(w))
    && (begun && !InProgress(s, b) ==> b in s.ended && Full(s.mode, b, w) && s.ended[b] == FirstFault(w))
  }

  lemma Appended(w: seq<Event>, e: Event, n: Node)
    ensures Completions(w + [e], n) == Completions(w, n) + One(e.Complete? && e.n == n)
    ensures FirstFault(w + [e]) == if FirstFault(w) != 0 then FirstFault(w) else Fault(e)
  {
    assert (w + [e])[..|w + [e]| - 1] == w;
  }

  lemma TallyAppended(m: Mode, b: Request, o: Ordseq, w: seq<Event>, e: Event)
    requires Tally(m, b, o, w)
    ensures !(e.Complete? && !e.n.Plain?) ==> Tally(m, b, o, w + [e])
    ensures e.Complete? && !e.n.Plain? && !Overlap(o, StageBit(e.n)) ==> Tally(m, b, Or(o, StageBit(e.n)), w + [e])
  {
    Appended(w, e, PreFlush);
    Appended(w, e, Bar);
    Appended(w, e, PostFlush);
  }

  /** What ended stays ended as it did, unless a request is ended twice. */
  ghost predicate Extends(s: Queue, t: Queue) {
    !t.bug ==> !s.bug && forall x :: x in s.ended ==> x in t.ended && t.ended[x] == s.ended[x]
  }

  lemma EndExtends(s: Queue, r: Request, error: int)
    ensures Extends(s, End(s, r, error))
  {
  }

  lemma CompleteExtends(s: Queue, mask: Ordseq, error: int)
    ensures Extends(s, CompleteSeq(s, mask, error))
    ensures CompleteSeq(s, mask, error).mode == s.mode && CompleteSeq(s, mask, error).orig == s.orig
    ensures CompleteSeq(s, mask, error).ordseq.started ==> s.ordseq.started || mask.started
  {
    hide CurSeq, Overlap;
  }

  lemma DrainedExtends(s: Queue)
    ensures Extends(s, Drained(s)) && Drained(s).mode == s.mode && Drained(s).orig == s.orig
    ensures Drained(s).ordseq.started ==> s.ordseq.started
  {
    hide CurSeq, CompleteSeq, ReqSeq;
    CompleteExtends(s, IDLE.(drain := true), 0);
  }

  /** What the other parts of a step leave alone. */
  ghost predicate Same(s: Queue, t: Queue) {
    && t.mode == s.mode && t.ordseq == s.ordseq && t.orig == s.orig && t.orderr == s.orderr && t.ended == s.ended
    && t.bug == s.bug
  }

  lemma TakeSame(s: Queue, n: Node)
    ensures Same(s, Take(s, n))
  {
  }

  lemma FinishExtends(s: Queue, n: Node, error: int)
    ensures var t := Finish(s, n, error);
            Extends(s, t) && t.mode == s.mode && t.orig == s.orig && (t.ordseq.started ==> s.ordseq.started)
  {
    hide CompleteSeq, Drained, Take;
    TakeSame(s, n);
    var t := Take(s, n);
    match n
    case Plain(r) => {
      EndExtends(t, r, error);
      DrainedExtends(End(t, r, error));
    }
    case PreFlush => {
      DrainedExtends(t);
      CompleteExtends(Drained(t), IDLE.(pre := true), error);
    }
    case Bar => {
      DrainedExtends(Report(t, error));
      CompleteExtends(Drained(Report(t, error)), IDLE.(bar := true), error);
    }
    case PostFlush => {
      DrainedExtends(t);
      CompleteExtends(Drained(t), IDLE.(post := true), error);
    }
  }

  lemma HandHeadSame(s: Queue)
    ensures Same(s, HandHead(s))
  {
  }

  /** Each step keeps what ended, and a sequence in progress either was before or begins now. */
  lemma StepExtends(s: Queue, e: Event)
    requires Enabled(s, e)
    ensures var t := Step(s, e);
            && Extends(s, t) && t.mode == s.mode
            && (t.ordseq.started ==> (s.ordseq.started && t.orig == s.orig) || Begins(s, e, t.orig))
  {
    hide CompleteSeq, Finish, HandHead, Take, CurSeq, ReqSeq, SequenceMode, Push, RequeueAt, Placement;
    var u := s.(handed := Nothing);
    match e
    case Submit(_, _, _, _, _, _, _, _, _) =>
    case Dispatch(_, _) =>
    case Next => {
      HandHeadSame(u);
      if |s.queue| > 0 && s.queue[0].node.Plain? {
        StartExtends(u);
      }
    }
    case Dequeue(_) =>
    case BarError(_) =>
    case Complete(n, error) => FinishExtends(u, n, error);
    case Requeue(n) => TakeSame(u, n);
  }

  lemma StartExtends(s: Queue)
    requires |s.queue| > 0 && s.queue[0].node.Plain?
    ensures var t := StartOrdered(s); Extends(s, t) && t.mode == s.mode && t.orig == s.queue[0].node.r
  {
    hide CompleteSeq, HandHead, Overlap, SequenceMode, Push, CurSeq;
    StartIsComplete(s);
    var t := CompleteSeq(Started(s), Skipped(s), 0);
    CompleteExtends(Started(s), Skipped(s), 0);
    HandHeadSame(t);
  }

  lemma MarkTracked(s: Queue, mask: Ordseq, error: int, b: Request, w: seq<Event>)
    requires InProgress(s, b) && Tally(s.mode, b, Or(s.ordseq, mask), w)
    requires FirstFault(w) == if s.orderr != 0 then s.orderr else error
    ensures Tracked(CompleteSeq(s, mask, error), b, w, true)
  {
    hide Completions, FirstFault, Overlap;
  }

  lemma SameTracked(s: Queue, t: Queue, b: Request, w: seq<Event>, begun: bool)
    requires Tracked(s, b, w, begun) && Same(s, t)
    ensures Tracked(t, b, w, begun)
  {
  }

  /** While a stage with a proxy is outstanding, the drain test at most marks the drain. */
  lemma DrainedMid(s: Queue)
    requires Drained(s).ordseq.started
    ensures var t := Drained(s);
            && t.mode == s.mode && t.orig == s.orig && t.orderr == s.orderr
            && t.ordseq == s.ordseq.(drain := t.ordseq.drain)
  {
    hide ReqSeq, Overlap;
  }

  lemma ProxyTracked(s: Queue, e: Event, b: Request, w: seq<Event>)
    requires Stages(s) && InProgress(s, b) && Tracked(s, b, w, true)
    requires e.Complete? && !e.n.Plain? && Issued(s, e.n)
    ensures Tracked(Finish(s, e.n, e.error), b, w + [e], true)
  {
    hide Completions, FirstFault, Tally, Pending, Stages, Drained, Take, CompleteSeq, Overlap, Issued;
    ProxyTaken(s, e.n);
    TakeSame(s, e.n);
    var t := Take(s, e.n);
    ReportKeeps(t, StageBit(e.n), e.error);
    var t' := if e.n == Bar then Report(t, e.error) else t;
    DrainedKeeps(t', StageBit(e.n));
    DrainedMid(t');
    StageClear(t', StageBit(e.n));
    TallyAppended(s.mode, b, s.ordseq, w, e);
    Appended(w, e, PreFlush);
    TallyDrain(s.mode, b, Or(s.ordseq, StageBit(e.n)), Or(Drained(t').ordseq, StageBit(e.n)), w + [e]);
    MarkTracked(Drained(t'), StageBit(e.n), e.error, b, w + [e]);
  }

  lemma StageClear(s: Queue, pending: Ordseq)
    requires Pending(s, pending)
    ensures !Overlap(s.ordseq, pending)
  {
  }

  lemma TallyDrain(m: Mode, b: Request, o: Ordseq, p: Ordseq, w: seq<Event>)
    requires Tally(m, b, o, w) && p == o.(drain := p.drain)
    ensures Tally(m, b, p, w)
  {
  }

  lemma PlainTracked(s: Queue, e: Event, b: Request, w: seq<Event>)
    requires InProgress(s, b) && Tracked(s, b, w, true) && e.Complete? && e.n.Plain?
    ensures Tracked(Finish(s, e.n, e.error), b, w + [e], true)
  {
    hide Completions, FirstFault, Tally, Take, CompleteSeq, ReqSeq, CurSeq;
    TakeSame(s, e.n);
    Appended(w, e, PreFlush);
    TallyAppended(s.mode, b, s.ordseq, w, e);
    var t := End(Take(s, e.n), e.n.r, e.error);
    TallyDrain(s.mode, b, s.ordseq, Or(s.ordseq, IDLE.(drain := true)), w + [e]);
    MarkTracked(t, IDLE.(drain := true), 0, b, w + [e]);
  }

  lemma OpenStep(s: Queue, e: Event, b: Request, w: seq<Event>)
    requires Stages(s) && Enabled(s, e) && InProgress(s, b) && Tracked(s, b, w, true)
    ensures Tracked(Step(s, e), b, w + [e], true)
  {
    hide Completions, FirstFault, Tally, Stages, Finish, HandHead, Take, CurSeq, ReqSeq, StartOrdered, RequeueAt, Full,
      Placement;
    var u := s.(handed := Nothing);
    assert Tracked(u, b, w, true);
    Appended(w, e, PreFlush);
    TallyAppended(s.mode, b, s.ordseq, w, e);
    match e
    case Submit(_, _, _, _, _, _, _, _, _) =>
    case Dispatch(_, _) =>
    case Next => HandHeadSame(u);
    case Dequeue(_) =>
    case BarError(_) =>
    case Complete(n, error) => {
      if n.Plain? {
        PlainTracked(u, e, b, w);
      } else {
        UnhandedStages(s);
        IssuedUnhanded(s, n);
        ProxyTracked(u, e, b, w);
      }
    }
    case Requeue(n) => TakeSame(u, n);
  }

  lemma UnhandedStages(s: Queue)
    requires Stages(s)
    ensures Stages(s.(handed := Nothing))
  {
    forall x ensures Live(s.(handed := Nothing), x) <==> Live(s, x) {}
  }

  lemma IssuedUnhanded(s: Queue, n: Node)
    requires Issued(s, n)
    ensures Issued(s.(handed := Nothing), n)
  {
  }

  lemma BeginStep(s: Queue, e: Event, b: Request)
    requires Begins(s, e, b)
    ensures Enabled(s, e) && Tracked(Step(s, e), b, [], true)
  {
    hide CompleteSeq, HandHead, CurSeq, StartOrdered, Push;
    var u := s.(handed := Nothing);
    StartIsComplete(u);
    MarkTracked(Started(u), Skipped(u), 0, b, []);
    var t := CompleteSeq(Started(u), Skipped(u), 0);
    HandHeadSame(t);
    SameTracked(t, HandHead(t), b, [], true);
  }

  lemma ProgressLive(s: Queue, b: Request)
    requires Stages(s)
    ensures InProgress(s, b) ==> b !in s.ended
    ensures !s.bug
    ensures |s.queue| > 0 && s.queue[0].node == Plain(b) ==> b !in s.ended
  {
    if |s.queue| > 0 && s.queue[0].node == Plain(b) {
      assert Live(s, b);
    }
    if InProgress(s, b) {
      assert Live(s, b);
    }
  }

  /** A step of the run as b sees it. */
  lemma StepTracked(s: Queue, e: Event, b: Request, w: seq<Event>, begun: bool)
    requires Stages(s) && Enabled(s, e) && Tracked(s, b, w, begun)
    ensures var t := Step(s, e);
            && Tracked(t, b, if InProgress(s, b) then w + [e] else w, begun || Begins(s, e, b))
            && (InProgress(t, b) <==> (InProgress(s, b) || Begins(s, e, b)) && b !in t.ended)
  {
    hide Completions, FirstFault, Tally, Stages, Step, Full, Enabled;
    StepKeeps(s, e);
    StepExtends(s, e);
    ProgressLive(s, b);
    ProgressLive(Step(s, e), b);
    if InProgress(s, b) {
      OpenStep(s, e, b, w);
    } else if Begins(s, e, b) {
      BeginStep(s, e, b);
    }
  }

  lemma {:induction false} RunTracked(s: Queue, es: seq<Event>, b: Request, w: seq<Event>, begun: bool)
    requires Stages(s) && Runs(s, es) && Tracked(s, b, w, begun)
    ensures Tracked(Run(s, es), b, w + Within(s, es, b, InProgress(s, b)), begun || Begun(s, es, b))
    ensures Run(s, es).mode == s.mode
    decreases |es|
  {
    hide Tracked, Stages, Step, Enabled, Begins, InProgress;
    if es == [] {
      assert w + [] == w;
    } else {
      var t := Step(s, es[0]);
      StepKeeps(s, es[0]);
      StepExtends(s, es[0]);
      StepTracked(s, es[0], b, w, begun);
      var w' := if InProgress(s, b) then w + [es[0]] else w;
      RunTracked(t, es[1..], b, w', begun || Begins(s, es[0], b));
      var rest := Within(t, es[1..], b, InProgress(t, b));
      assert w' + rest == w + ((if InProgress(s, b) then [es[0]] else []) + rest);
    }
  }

  /** In every run, in every mode, no stage is marked twice and no request ended twice, and of every barrier whose
      sequence began: it is in progress or has ended.  If it has ended, then between its beginning and its end
      the driver completed the pre-flush once if the queue's mode has one and not at all otherwise; likewise the
      barrier write and the post-flush, which an empty barrier does not have; and it ended with the first error
      among those of the barrier write's parts and of these completions, or with 0. */
  lemma EveryStageOnce(mode: Mode, es: seq<Event>, b: Request)
    requires Runs(Init(mode), es)
    ensures var s := Run(Init(mode), es); var w := Within(Init(mode), es, b, false);
            && !s.bug
            && (Begun(Init(mode), es, b) ==>
                  && (b in s.ended <==> !(s.ordseq.started && s.orig == b))
                  && (b in s.ended ==>
                        && Completions(w, PreFlush) == (if mode.pre then 1 else 0)
                        && Completions(w, Bar) == (if mode.bar && !b.empty then 1 else 0)
                        && Completions(w, PostFlush) == (if mode.post && !b.empty then 1 else 0)
                        && s.ended[b] == FirstFault(w)))
  {
    hide Completions, FirstFault, Within, Begun, Run, Runs, Stages;
    InitStages(mode);
    var s := Run(Init(mode), es);
    RunStages(Init(mode), es);
    RunTracked(Init(mode), es, b, [], false);
    var w := Within(Init(mode), es, b, false);
    assert [] + w == w;
    ProgressLive(s, b);
  }

  /** t has ended no more than s, except the barrier in progress and perhaps r. */
  ghost predicate EndedBut(s: Queue, t: Queue, but: set<Request>) {
    forall x :: x in t.ended && x !in but ==> x in s.ended && t.ended[x] == s.ended[x]
  }

  lemma CompleteEnds(s: Queue, mask: Ordseq, error: int)
    ensures EndedBut(s, CompleteSeq(s, mask, error), {s.orig})
  {
    hide CurSeq, Overlap;
  }

  lemma DrainedEnds(s: Queue)
    ensures EndedBut(s, Drained(s), if s.ordseq == IDLE then {} else {s.orig}) && Drained(s).orig == s.orig
  {
    hide CurSeq, CompleteSeq, ReqSeq;
    CompleteEnds(s, IDLE.(drain := true), 0);
    CompleteExtends(s, IDLE.(drain := true), 0);
  }

  lemma FinishEnds(s: Queue, n: Node, error: int)
    requires Stages(s) && Issued(s, n)
    ensures var t := Finish(s, n, error);
            forall x :: x in t.ended && x !in s.ended ==> InProgress(s, x) || (n == Plain(x) && t.ended[x] == error)
  {
    hide CompleteSeq, Drained, Take, Stages, Issued;
    TakeSame(s, n);
    var t := Take(s, n);
    if n.Plain? {
      ProgressNot(s, n);
      DrainedEnds(End(t, n.r, error));
    } else {
      ProxyTaken(s, n);
      var t' := if n == Bar then Report(t, error) else t;
      DrainedEnds(t');
      CompleteEnds(Drained(t'), StageBit(n), error);
    }
  }

  lemma ProgressNot(s: Queue, n: Node)
    requires Stages(s) && Issued(s, n) && n.Plain?
    ensures !InProgress(s, n.r) && (s.ordseq != IDLE ==> s.ordseq.started)
  {
    IssuedPlace(s, n);
  }

  /** What a step ends: the barrier in progress or beginning, the request completed, with its error, or a barrier
      the queue cannot order. */
  lemma StepEnds(s: Queue, e: Event, r: Request)
    requires Stages(s) && Enabled(s, e) && r !in s.ended && r in Step(s, e).ended
    ensures || InProgress(s, r) || Begins(s, e, r) || s.mode == ORDERED_NONE
            || e == Complete(Plain(r), Step(s, e).ended[r])
  {
    hide CompleteSeq, Finish, HandHead, Take, CurSeq, ReqSeq, SequenceMode, Push, RequeueAt, Placement, Stages, Issued,
      StartOrdered;
    var u := s.(handed := Nothing);
    match e
    case Submit(_, _, _, _, _, _, _, _, _) =>
    case Dispatch(_, _) =>
    case Next => {
      HandHeadSame(u);
      if |s.queue| > 0 && s.queue[0].node.Plain? {
        StartEnds(u);
      }
    }
    case Dequeue(_) =>
    case BarError(_) =>
    case Complete(n, error) => {
      UnhandedStages(s);
      IssuedUnhanded(s, n);
      FinishEnds(u, n, error);
    }
    case Requeue(n) => TakeSame(u, n);
  }

  lemma StartEnds(s: Queue)
    requires |s.queue| > 0 && s.queue[0].node.Plain?
    ensures EndedBut(s, StartOrdered(s), {s.queue[0].node.r})
  {
    hide CompleteSeq, HandHead, Overlap, SequenceMode, Push, CurSeq, StartOrdered;
    StartIsComplete(s);
    CompleteEnds(Started(s), Skipped(s), 0);
    HandHeadSame(CompleteSeq(Started(s), Skipped(s), 0));
  }

  lemma {:induction false} RunEnds(s: Queue, es: seq<Event>, r: Request)
    requires Stages(s) && Runs(s, es) && !Begun(s, es, r) && !InProgress(s, r) && s.mode != ORDERED_NONE
    requires r in Run(s, es).ended
    ensures Complete(Plain(r), Run(s, es).ended[r]) in es || (r in s.ended && Run(s, es).ended[r] == s.ended[r])
    decreases |es|
  {
    hide Step, Enabled, Stages, Begins;
    if es != [] {
      var t := Step(s, es[0]);
      StepKeeps(s, es[0]);
      StepExtends(s, es[0]);
      ProgressLive(t, r);
      RunEnds(t, es[1..], r);
      if r !in s.ended && r in t.ended {
        StepEnds(s, es[0], r);
      }
    }
  }

  /** In every run of a queue that can order, a request that ended without a sequence of its own ended with the error
      the driver completed it with. */
  lemma OwnError(mode: Mode, es: seq<Event>, r: Request)
    requires Runs(Init(mode), es) && mode != ORDERED_NONE && !Begun(Init(mode), es, r)
    requires r in Run(Init(mode), es).ended
    ensures Complete(Plain(r), Run(Init(mode), es).ended[r]) in es
  {
    hide Run, Runs, Begun;
    InitStages(mode);
    RunEnds(Init(mode), es, r);
  }

  predicate Unordered(n: Node) { n.Plain? && !(n.r.fs && n.r.barrier) }

  ghost predicate PlainQueue(q: seq<Entry>) {
    forall i :: 0 <= i < |q| ==> q[i].node.Plain? && (q[i].started ==> Unordered(q[i].node))
  }

  /** In a queue that cannot order, nothing but ordinary requests reaches the driver. */
  ghost predicate NoneIssued(s: Queue) {
    && s.mode == ORDERED_NONE && s.ordseq == IDLE && PlainQueue(s.queue)
    && (forall n :: n in s.flying ==> Unordered(n))
    && (forall b :: b in s.ended && b.fs && b.barrier ==> s.ended[b] == -95)
  }

  lemma PlainInsert(q: seq<Entry>, k: nat, e: Entry)
    requires PlainQueue(q) && k <= |q| && e.node.Plain? && !e.started
    ensures PlainQueue(Insert(q, k, e))
  {
  }

  lemma TakeNone(s: Queue, n: Node)
    requires NoneIssued(s)
    ensures NoneIssued(Take(s, n)) && (Issued(s, n) ==> Unordered(n))
  {
  }

  lemma AddNone(s: Queue, e: Event)
    requires NoneIssued(s) && e.Submit?
    ensures NoneIssued(Add(s, e))
  {
    hide PlainQueue, Placement;
    var entry := Entry(Plain(NewRequest(s, e)), true, false);
    PlainInsert(s.queue, 0, entry);
    PlainInsert(s.queue, |s.queue|, entry);
    assert Insert(s.queue, 0, entry) == [entry] + s.queue;
    assert Insert(s.queue, |s.queue|, entry) == s.queue + [entry];
  }

  lemma FetchNone(s: Queue)
    requires NoneIssued(s) && |s.queue| > 0
    ensures NoneIssued(Fetch(s))
  {
    hide StartOrdered;
  }

  lemma DequeueNone(s: Queue, k: nat)
    requires PlainQueue(s.queue) && k < |s.queue|
    ensures PlainQueue(Remove(s.queue, k)) && (s.queue[k].started ==> Unordered(s.queue[k].node))
  {
  }

  lemma NoneStep(s: Queue, e: Event)
    requires NoneIssued(s) && Enabled(s, e)
    ensures NoneIssued(Step(s, e))
  {
    hide PlainQueue, Take, RequeueAt, Add, Fetch, CompleteSeq, ReqSeq, Issued, Placement, Insert, Remove, Unordered;
    var u := s.(handed := Nothing);
    match e
    case Submit(_, _, _, _, _, _, _, _, _) => AddNone(u, e);
    case Dispatch(r, pos) => PlainInsert(s.queue, pos, Entry(Plain(r), false, false));
    case Next => FetchNone(u);
    case Dequeue(k) => DequeueNone(s, k);
    case BarError(_) => TakeNone(s, Bar);
    case Complete(n, error) => {
      IssuedUnhanded(s, n);
      FinishNone(u, n, error);
    }
    case Requeue(n) => {
      TakeNone(u, n);
      FlyingIssued(u, n);
      UnorderedPlain(n);
      PlainInsert(Take(u, n).queue, 0, Entry(n, true, false));
    }
  }

  lemma FlyingIssued(s: Queue, n: Node)
    requires n in s.flying
    ensures Issued(s, n)
  {
  }

  lemma UnorderedPlain(n: Node)
    ensures Unordered(n) ==> n.Plain?
  {
  }

  lemma FinishNone(s: Queue, n: Node, error: int)
    requires NoneIssued(s) && Issued(s, n)
    ensures NoneIssued(Finish(s, n, error))
  {
    hide Take, PlainQueue, CompleteSeq, Issued;
    TakeNone(s, n);
  }

  lemma {:induction false} NoneRun(s: Queue, es: seq<Event>)
    requires NoneIssued(s) && Runs(s, es)
    ensures NoneIssued(Run(s, es))
    decreases |es|
  {
    hide NoneIssued, Step, Enabled;
    if es != [] {
      NoneStep(s, es[0]);
      NoneRun(Step(s, es[0]), es[1..]);
    }
  }

  /** In every run of a queue that cannot order, a barrier that ended did so with -EOPNOTSUPP and without having
      been with the driver. */
  lemma BarriersRefused(es: seq<Event>, b: Request)
    requires Runs(Init(ORDERED_NONE), es) && b.fs && b.barrier
    ensures var s := Run(Init(ORDERED_NONE), es);
            !Issued(s, Plain(b)) && (b in s.ended ==> s.ended[b] == -95)
  {
    hide Run, Runs, Issued;
    NoneRun(Init(ORDERED_NONE), es);
    TakeNone(Run(Init(ORDERED_NONE), es), Plain(b));
  }
}
