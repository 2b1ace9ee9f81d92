/** What holds of every barrier sequence in every run, whatever the ordering mode:
    every stage is marked once, every request has exactly one place, and the original
    barrier is ended once. */
module BarrierStages {
  import opened Barrier

  function Nodes(q: seq<Entry>): set<Node> { set i | 0 <= i < |q| :: q[i].node }

  ghost predicate Distinct(q: seq<Entry>) {
    forall i, j :: 0 <= i < j < |q| ==> q[i].node != q[j].node
  }

  function Busy(flying: set<Node>): set<Node> { set n | n in flying && Accounted(n) }

  /** A submitted request that has not ended: with the scheduler, on the queue, with the driver,
      or stashed away as the barrier in progress. */
  ghost predicate Live(s: Queue, r: Request) {
    r in s.held || Plain(r) in Nodes(s.queue) || Plain(r) in s.flying || (s.ordseq.started && r == s.orig)
  }

  /** Each live request and each proxy is in one place only. */
  ghost predicate Placed(s: Queue) {
    && Distinct(s.queue)
    && Nodes(s.queue) !! s.flying
    && (forall r :: r in s.held ==> Plain(r) !in Nodes(s.queue) && Plain(r) !in s.flying)
    && (s.ordseq.started ==> s.orig !in s.held && Plain(s.orig) !in Nodes(s.queue) && Plain(s.orig) !in s.flying)
  }

  ghost predicate Accounts(s: Queue) {
    && (forall r :: Live(s, r) <==> r in s.submitted && r !in s.ended)
    && s.ended.Keys <= s.submitted
    && (forall r :: r in s.submitted ==> r.seqno < s.count)
    && s.inFlight == |Busy(s.flying)|
  }

  /** A proxy is queued or with the driver exactly while its stage is outstanding. */
  ghost predicate Proxies(s: Queue, marked: Ordseq) {
    && (s.ordseq.started || s.ordseq == IDLE)
    && (PreFlush in Nodes(s.queue) + s.flying <==> s.ordseq.started && !marked.pre)
    && (Bar in Nodes(s.queue) + s.flying <==> s.ordseq.started && !marked.bar)
    && (PostFlush in Nodes(s.queue) + s.flying <==> s.ordseq.started && !marked.post)
  }

  /** The invariant with the stages in `pending` about to be marked. */
  ghost predicate Pending(s: Queue, pending: Ordseq) {
    && !s.bug && !Overlap(s.ordseq, pending)
    && Placed(s) && Accounts(s) && Proxies(s, Or(s.ordseq, pending))
  }

  ghost predicate Stages(s: Queue) { Pending(s, IDLE) && CurSeq(s.ordseq) != DONE }

  lemma NodesInsert(q: seq<Entry>, k: nat, e: Entry)
    requires k <= |q|
    ensures Nodes(Insert(q, k, e)) == Nodes(q) + {e.node}
    ensures Distinct(q) && e.node !in Nodes(q) ==> Distinct(Insert(q, k, e))
  {
    var p := Insert(q, k, e);
    assert p[k] == e;
    forall n | n in Nodes(q) ensures n in Nodes(p) {
      var i :| 0 <= i < |q| && q[i].node == n;
      assert p[if i < k then i else i + 1] == q[i];
    }
    if Distinct(q) && e.node !in Nodes(q) {
      forall i, j | 0 <= i < j < |p| ensures p[i].node != p[j].node {
        assert i < k ==> p[i] == q[i];
        assert i > k ==> p[i] == q[i - 1];
        assert j < k ==> p[j] == q[j];
        assert j > k ==> p[j] == q[j - 1];
      }
    }
  }

  lemma NodesRemove(q: seq<Entry>, k: nat)
    requires k < |q| && Distinct(q)
    ensures Nodes(Remove(q, k)) == Nodes(q) - {q[k].node}
    ensures Distinct(Remove(q, k))
  {
    var p := Remove(q, k);
    forall i | 0 <= i < |p| ensures p[i] == q[if i < k then i else i + 1] {}
    forall n | n in Nodes(q) && n != q[k].node ensures n in Nodes(p) {
      var i :| 0 <= i < |q| && q[i].node == n;
      assert p[if i < k then i else i - 1] == q[i];
    }
  }

  lemma NodesPush(q: seq<Entry>, wanted: bool, n: Node)
    ensures Nodes(Push(q, wanted, n)) == Nodes(q) + (if wanted then {n} else {})
    ensures Distinct(q) && n !in Nodes(q) ==> Distinct(Push(q, wanted, n))
  {
    if wanted {
      assert Push(q, wanted, n) == Insert(q, 0, Entry(n, true, false));
      NodesInsert(q, 0, Entry(n, true, false));
    }
  }

  lemma BusyAdd(f: set<Node>, n: Node)
    requires n !in f
    ensures |Busy(f + {n})| == |Busy(f)| + if Accounted(n) then 1 else 0
  {
    assert Busy(f + {n}) == if Accounted(n) then Busy(f) + {n} else Busy(f);
  }

  lemma ReportKeeps(s: Queue, pending: Ordseq, error: int)
    requires Pending(s, pending)
    ensures Pending(Report(s, error), pending)
  {
    var t := Report(s, error);
    forall r ensures Live(t, r) <==> Live(s, r) {}
  }

  /** Marking the pending stages keeps the invariant and ends the barrier if they were the last. */
  lemma Mark(s: Queue, mask: Ordseq, error: int)
    requires Pending(s, mask) && s.ordseq.started && !mask.started
    ensures Stages(CompleteSeq(s, mask, error))
  {
    ReportKeeps(s, mask, error);
    var t := Report(s, error).(ordseq := Or(s.ordseq, mask));
    var u := CompleteSeq(s, mask, error);
    forall r ensures Live(u, r) <==> Live(s, r) && (CurSeq(t.ordseq) == DONE ==> r != s.orig) {}
  }

  lemma DrainedKeeps(s: Queue, pending: Ordseq)
    requires Pending(s, pending) && !pending.drain && !pending.started
    ensures pending == IDLE && CurSeq(s.ordseq) != DONE ==> Stages(Drained(s))
    ensures pending != IDLE ==> Pending(Drained(s), pending) && Drained(s).ordseq.started == s.ordseq.started
  {
    var u := Drained(s);
    if u != s {
      ReportKeeps(s, pending, 0);
      if pending == IDLE {
        Mark(s, IDLE.(drain := true), 0);
      } else {
        forall r ensures Live(u, r) <==> Live(s, r) {}
      }
    }
  }

  lemma TakeKeeps(s: Queue, n: Node)
    requires Stages(s) && Issued(s, n)
    ensures var t := Take(s, n);
            && t == s.(queue := t.queue, flying := t.flying, inFlight := t.inFlight)
            && Placed(t) && t.inFlight == |Busy(t.flying)|
            && Nodes(t.queue) + t.flying == (Nodes(s.queue) + s.flying) - {n}
            && n !in Nodes(t.queue) && n !in t.flying
            && t.flying == s.flying - {n} && Nodes(t.queue) == Nodes(s.queue) - {n}
  {
    if n in s.flying {
      assert s.flying == (s.flying - {n}) + {n};
      BusyAdd(s.flying - {n}, n);
    } else {
      var k := IndexOf(s.queue, n);
      NodesRemove(s.queue, k);
      assert s.flying == s.flying - {n};
    }
  }

  lemma IssuedPlace(s: Queue, n: Node)
    requires Issued(s, n)
    ensures n in Nodes(s.queue) + s.flying
  {
  }

  lemma EndTakenAccounts(s: Queue, r: Request, error: int)
    requires Stages(s) && Issued(s, Plain(r))
    ensures Accounts(End(Take(s, Plain(r)), r, error)) && r in s.submitted && r !in s.ended
    ensures s.ordseq.started ==> r != s.orig
  {
    hide Nodes, Distinct, Busy, Take, Proxies;
    TakeKeeps(s, Plain(r));
    assert Plain(r) in Nodes(s.queue) + s.flying by { IssuedPlace(s, Plain(r)); }
    assert Live(s, r);
    var u := End(Take(s, Plain(r)), r, error);
    forall x ensures Live(u, x) <==> Live(s, x) && x != r {}
  }

  lemma EndTaken(s: Queue, r: Request, error: int)
    requires Stages(s) && Issued(s, Plain(r))
    ensures Stages(End(Take(s, Plain(r)), r, error))
  {
    hide Nodes, Distinct, Busy, Take, Accounts;
    TakeKeeps(s, Plain(r));
    EndTakenAccounts(s, r, error);
  }

  /** A proxy taken from the driver leaves its own stage pending. */
  lemma ProxyTaken(s: Queue, n: Node)
    requires Stages(s) && Issued(s, n) && !n.Plain?
    ensures Take(s, n).ordseq.started && Pending(Take(s, n), StageBit(n))
  {
    TakeKeeps(s, n);
    assert n in Nodes(s.queue) + s.flying;
    var t := Take(s, n);
    forall x ensures Live(t, x) <==> Live(s, x) {}
  }

  function StageBit(n: Node): Ordseq {
    IDLE.(pre := n == PreFlush, bar := n == Bar, post := n == PostFlush)
  }

  lemma FinishKeeps(s: Queue, n: Node, error: int)
    requires Stages(s) && Issued(s, n)
    ensures Stages(Finish(s, n, error))
  {
    if n.Plain? {
      EndTaken(s, n.r, error);
      DrainedKeeps(End(Take(s, n), n.r, error), IDLE);
    } else {
      ProxyTaken(s, n);
      var t := Take(s, n);
      ReportKeeps(t, StageBit(n), error);
      var t' := if n == Bar then Report(t, error) else t;
      DrainedKeeps(t', StageBit(n));
      Mark(Drained(t'), StageBit(n), error);
    }
  }

  lemma PutBackKeeps(s: Queue, n: Node)
    requires Stages(s) && n in s.flying
    ensures Stages(PutBack(s, n))
  {
    TakeKeeps(s, n);
    var t := Take(s, n);
    var u := PutBack(s, n);
    var k := if s.ordseq == IDLE then 0 else RequeueAt(s.orig, t.queue, ReqSeq(s.orig, n));
    NodesInsert(t.queue, k, Entry(n, true, false));
    forall x ensures Live(u, x) <==> Live(s, x) {}
  }

  lemma HandHeadKeeps(s: Queue)
    requires Stages(s)
    ensures Stages(HandHead(s)) && Nodes(HandHead(s).queue) == Nodes(s.queue)
  {
    var u := HandHead(s);
    if |s.queue| > 0 {
      forall i | 0 <= i < |s.queue| ensures u.queue[i].node == s.queue[i].node {}
      assert Nodes(u.queue) == Nodes(s.queue);
      forall x ensures Live(u, x) <==> Live(s, x) {}
    }
  }

  function Stack(q: seq<Entry>, m: Mode): seq<Entry> {
    Push(Push(Push(q, m.post, PostFlush), m.bar, Bar), m.pre, PreFlush)
  }

  lemma NodesStack(q: seq<Entry>, m: Mode)
    requires Distinct(q) && Nodes(q) !! {PreFlush, Bar, PostFlush}
    ensures Distinct(Stack(q, m))
    ensures Nodes(Stack(q, m)) == Nodes(q) + (if m.pre then {PreFlush} else {})
              + (if m.bar then {Bar} else {}) + (if m.post then {PostFlush} else {})
  {
    var q1 := Push(q, m.post, PostFlush);
    NodesPush(q, m.post, PostFlush);
    NodesPush(q1, m.bar, Bar);
    NodesPush(Push(q1, m.bar, Bar), m.pre, PreFlush);
  }

  /** The state in which start_ordered completes the skipped stages. */
  function Started(s: Queue): Queue
    requires |s.queue| > 0 && s.queue[0].node.Plain?
  {
    var rq := s.queue[0].node.r;
    var m := SequenceMode(s.mode, rq.empty);
    s.(queue := Stack(s.queue[1..], m), ordered := m, orig := rq, orderr := 0,
       ordseq := IDLE.(started := true))
  }

  function Skipped(s: Queue): Ordseq
    requires |s.queue| > 0 && s.queue[0].node.Plain?
  {
    var m := SequenceMode(s.mode, s.queue[0].node.r.empty);
    Ordseq(false, !(m.drain && s.inFlight != 0), !m.pre, !m.bar, !m.post)
  }

  lemma StartedPlaces(s: Queue)
    requires Stages(s) && |s.queue| > 0 && s.queue[0].node.Plain? && s.ordseq == IDLE
    ensures var m := Started(s).ordered;
            && Distinct(Started(s).queue)
            && Nodes(Started(s).queue) == Nodes(s.queue) - {s.queue[0].node} + (if m.pre then {PreFlush} else {})
                 + (if m.bar then {Bar} else {}) + (if m.post then {PostFlush} else {})
  {
    hide Stack, Push;
    assert s.queue[1..] == Remove(s.queue, 0);
    NodesRemove(s.queue, 0);
    NodesStack(s.queue[1..], SequenceMode(s.mode, s.queue[0].node.r.empty));
  }

  lemma StartedAccounts(s: Queue)
    requires Stages(s) && |s.queue| > 0 && s.queue[0].node.Plain? && s.ordseq == IDLE
    ensures Accounts(Started(s)) && s.queue[0].node.r !in s.ended
  {
    hide Stack, Nodes, Distinct, Busy, Proxies, SequenceMode;
    StartedPlaces(s);
    var rq := s.queue[0].node.r;
    assert Plain(rq) in Nodes(s.queue) by { HeadNode(s.queue); }
    assert Live(s, rq);
    var t := Started(s);
    forall x ensures Live(t, x) <==> Live(s, x) {}
  }

  lemma StartedPending(s: Queue)
    requires Stages(s) && |s.queue| > 0 && s.queue[0].node.Plain? && s.ordseq == IDLE
    ensures Pending(Started(s), Skipped(s))
  {
    hide Stack, Nodes, Distinct, Busy, Accounts, SequenceMode;
    StartedPlaces(s);
    StartedAccounts(s);
    var rq := s.queue[0].node.r;
    assert Plain(rq) in Nodes(s.queue) by { HeadNode(s.queue); }
  }

  lemma HeadNode(q: seq<Entry>)
    requires |q| > 0
    ensures q[0].node in Nodes(q)
  {
  }

  /** start_ordered is the stacking of the proxies, then the completion of the skipped stages. */
  lemma StartIsComplete(s: Queue)
    requires |s.queue| > 0 && s.queue[0].node.Plain?
    ensures var t := CompleteSeq(Started(s), Skipped(s), 0);
            var m := Started(s).ordered;
            StartOrdered(s) == if Skipped(s).drain && (m.pre || m.bar || m.post) then HandHead(t) else t
  {
    hide CurSeq, Push, HandHead, Overlap;
  }

  lemma StartKeeps(s: Queue)
    requires Stages(s) && |s.queue| > 0 && s.queue[0].node.Plain? && s.ordseq == IDLE
    ensures Stages(CompleteSeq(Started(s), Skipped(s), 0))
    ensures var t := CompleteSeq(Started(s), Skipped(s), 0);
            StartOrdered(s) == t || StartOrdered(s) == HandHead(t)
    ensures Stages(StartOrdered(s))
  {
    hide Stages, Pending, CurSeq, Push;
    StartedPending(s);
    Mark(Started(s), Skipped(s), 0);
    var t := Started(s);
    StartIsComplete(s);
    HandHeadKeeps(CompleteSeq(t, Skipped(s), 0));
  }

  lemma FetchKeeps(s: Queue)
    requires Stages(s) && |s.queue| > 0
    ensures Stages(Fetch(s))
  {
    var n := s.queue[0].node;
    HandHeadKeeps(s);
    if s.ordseq == IDLE && Fs(n) && HardBarrier(n) && n.Plain? {
      if s.mode != ORDERED_NONE {
        StartKeeps(s);
      } else {
        assert s.queue[1..] == Remove(s.queue, 0);
        NodesRemove(s.queue, 0);
        assert Live(s, n.r);
        var u := Fetch(s);
        forall x ensures Live(u, x) <==> Live(s, x) && x != n.r {}
      }
    }
  }

  /** A new request put with the scheduler or on the queue. */
  ghost predicate Added(s: Queue, u: Queue, r: Request) {
    && u == s.(count := u.count, submitted := s.submitted + {r}, ordcolor := u.ordcolor, barriers := u.barriers,
               queue := u.queue, held := u.held)
    && s.count < u.count && Distinct(u.queue)
    && (|| (u.held == s.held + {r} && u.queue == s.queue)
        || (u.held == s.held && Nodes(u.queue) == Nodes(s.queue) + {Plain(r)}))
  }

  lemma AddAdds(s: Queue, e: Event)
    requires e.Submit? && Distinct(s.queue) && Plain(NewRequest(s, e)) !in Nodes(s.queue)
    ensures Added(s, Add(s, e), NewRequest(s, e))
  {
    var entry := Entry(Plain(NewRequest(s, e)), true, false);
    NodesInsert(s.queue, 0, entry);
    NodesInsert(s.queue, |s.queue|, entry);
    assert Insert(s.queue, 0, entry) == [entry] + s.queue;
    assert Insert(s.queue, |s.queue|, entry) == s.queue + [entry];
  }

  lemma NewNotLive(s: Queue, e: Event)
    requires Stages(s) && e.Submit?
    ensures NewRequest(s, e) !in s.submitted && !Live(s, NewRequest(s, e))
  {
  }

  lemma AddedAccounts(s: Queue, u: Queue, r: Request)
    requires Accounts(s) && Added(s, u, r) && r.seqno == s.count && r !in s.submitted
    ensures Accounts(u)
  {
  }

  lemma AddKeeps(s: Queue, e: Event)
    requires Stages(s) && e.Submit? && Enabled(s, e)
    ensures Stages(Add(s, e))
  {
    hide Nodes, Distinct, Enabled, Accounts, Add;
    NewNotLive(s, e);
    AddAdds(s, e);
    AddedAccounts(s, Add(s, e), NewRequest(s, e));
  }

  lemma StepKeeps(s: Queue, e: Event)
    requires Stages(s) && Enabled(s, e)
    ensures Stages(Step(s, e))
  {
    var t := s.(handed := Nothing);
    assert Stages(t) by {
      forall x ensures Live(t, x) <==> Live(s, x) {}
    }
    var u := Step(s, e);
    match e
    case Submit(_, _, _, _, _, _, _, _, _) => AddKeeps(t, e);
    case Dispatch(r, pos) =>
      assert Live(s, r);
      NodesInsert(s.queue, pos, Entry(Plain(r), false, false));
      forall x ensures Live(u, x) <==> Live(s, x) {}
    case Next => FetchKeeps(t);
    case Dequeue(k) =>
      var n := s.queue[k].node;
      assert n in Nodes(s.queue);
      NodesRemove(s.queue, k);
      BusyAdd(s.flying, n);
      forall x ensures Live(u, x) <==> Live(s, x) {}
    case BarError(error) =>
      assert Bar in Nodes(s.queue) + s.flying;
      ReportKeeps(t, IDLE, error);
    case Complete(n, error) =>
      assert Issued(t, n);
      FinishKeeps(t, n, error);
    case Requeue(n) => PutBackKeeps(t, n);
  }

  lemma InitStages(mode: Mode)
    ensures Stages(Init(mode))
  {
  }

  lemma {:induction false} RunStages(s: Queue, es: seq<Event>)
    requires Stages(s) && Runs(s, es)
    ensures Stages(Run(s, es))
    decreases |es|
  {
    if es != [] {
      StepKeeps(s, es[0]);
      RunStages(Step(s, es[0]), es[1..]);
    }
  }
}
