/** Write ordering of a drain-ordered queue over whole runs.

    The code compares one-bit colours; the proof shows that whenever it does so, every fs
    request it can meet belongs to the epoch of the barrier in progress or to the next one. */
module BarrierOrder {
  import opened Barrier
  import opened BarrierStages

  predicate Odd(n: nat) { n % 2 == 1 }

  /** What the protocol needs of its callers: only fs requests carry the hard barrier flag,
      and no fs request is inserted at the front. */
  predicate Disciplined(e: Event) {
    e.Submit? ==> (e.barrier ==> e.fs) && (e.where == Front ==> !e.fs)
  }

  /** The stage of a proxy. */
  function Stage(n: Node): nat {
    match n
    case PreFlush => PREFLUSH
    case Bar => BAR
    case PostFlush => POSTFLUSH
    case Plain(_) => 0
  }

  /** The place of a node in write order; requests that are not fs have none. */
  function Rank(retired: nat, n: Node): int {
    match n
    case Plain(r) => if !r.fs then -1 else 8 * r.epoch + (if r.barrier then 4 else 0)
    case PreFlush => 8 * retired + 5
    case Bar => 8 * retired + 6
    case PostFlush => 8 * retired + 7
  }

  ghost predicate Sorted(retired: nat, q: seq<Entry>) {
    forall i, j :: 0 <= i < j < |q| && Rank(retired, q[i].node) >= 0 && Rank(retired, q[j].node) >= 0
      ==> Rank(retired, q[i].node) <= Rank(retired, q[j].node)
  }

  /** Colours are epochs modulo two, and each epoch but the last is closed by its barrier. */
  ghost predicate Epochs(s: Queue) {
    && s.ordcolor == Odd(|s.barriers|)
    && (forall r :: r in s.submitted ==> r.color == Odd(r.epoch) && r.epoch <= |s.barriers|)
    && (forall r :: r in s.submitted && r.barrier ==> r.fs && r.epoch < |s.barriers| && s.barriers[r.epoch] == r)
    && (forall e :: 0 <= e < |s.barriers| ==>
          s.barriers[e] in s.submitted && s.barriers[e].fs && s.barriers[e].barrier && s.barriers[e].epoch == e)
  }

  /** Epochs agree with submission order around each barrier. */
  ghost predicate Chronology(s: Queue) {
    forall e, r :: 0 <= e < |s.barriers| && r in s.submitted ==>
      && (r.seqno < s.barriers[e].seqno ==> r.epoch <= e)
      && (r.seqno > s.barriers[e].seqno ==> r.epoch > e)
  }

  ghost predicate QueuedOk(s: Queue, e: Entry) {
    match e.node
    case Plain(r) =>
      r.fs ==> && r.epoch >= s.retired
               && (e.started ==> r.epoch == s.retired && !r.barrier)
               && (s.ordseq.started && r.epoch == s.retired ==> e.soft && !s.ordseq.drain)
    case _ => e.soft && (e.started ==> CurSeq(s.ordseq) == Stage(e.node))
  }

  ghost predicate FlyingOk(s: Queue, n: Node) {
    match n
    case Plain(r) => r.fs ==> r.epoch == s.retired && !r.barrier && !(s.ordseq.started && s.ordseq.drain)
    case _ => CurSeq(s.ordseq) == Stage(n)
  }

  /** The first barrier that must still be on the queue. */
  function FirstQueued(s: Queue): nat { if s.ordseq.started then s.retired + 1 else s.retired }

  ghost predicate Ordered(s: Queue) {
    && s.mode.drain && !s.mode.tag && s.mode.bar
    && FirstQueued(s) <= |s.barriers|
    && (s.ordseq.started ==> s.orig == s.barriers[s.retired] && !s.ordered.tag)
    && (forall r :: r in s.held ==> r.epoch == |s.barriers| && !r.barrier)
    && Sorted(s.retired, s.queue)
    && (forall i :: 0 <= i < |s.queue| ==> QueuedOk(s, s.queue[i]))
    && (forall n :: n in s.flying ==> FlyingOk(s, n))
    && (forall e :: FirstQueued(s) <= e < |s.barriers| ==> Plain(s.barriers[e]) in Nodes(s.queue))
  }

  ghost predicate Inv(s: Queue) { Stages(s) && Epochs(s) && Ordered(s) }

  /** A queued fs request of a later epoch has every barrier in between ahead of it. */
  lemma Behind(s: Queue, i: nat, e: nat)
    requires Inv(s) && i < |s.queue| && s.queue[i].node.Plain? && s.queue[i].node.r.fs
    requires FirstQueued(s) <= e < s.queue[i].node.r.epoch
    ensures exists j :: 0 <= j < i && s.queue[j].node == Plain(s.barriers[e])
  {
    assert Live(s, s.queue[i].node.r);
    assert Plain(s.barriers[e]) in Nodes(s.queue);
    var j :| 0 <= j < |s.queue| && s.queue[j].node == Plain(s.barriers[e]);
    assert Rank(s.retired, s.queue[j].node) < Rank(s.retired, s.queue[i].node);
  }

  /** The head of the queue, if it is an fs request the code lets through, is of the current epoch. */
  lemma HeadEpoch(s: Queue)
    requires Inv(s) && |s.queue| > 0 && s.queue[0].node.Plain? && s.queue[0].node.r.fs
    requires s.ordseq.started ==> s.queue[0].node.r.color == s.orig.color
    ensures s.queue[0].node.r.epoch == s.retired
  {
    var r := s.queue[0].node.r;
    assert s.queue[0].node in Nodes(s.queue);
    assert Live(s, r);
    assert QueuedOk(s, s.queue[0]);
    if r.epoch > FirstQueued(s) {
      Behind(s, 0, FirstQueued(s));
    }
  }

  lemma SortedInsert(retired: nat, q: seq<Entry>, k: nat, e: Entry)
    requires Sorted(retired, q) && k <= |q|
    requires Rank(retired, e.node) >= 0 ==> forall i :: 0 <= i < |q| && Rank(retired, q[i].node) >= 0 ==>
               if i < k then Rank(retired, q[i].node) <= Rank(retired, e.node)
               else Rank(retired, e.node) <= Rank(retired, q[i].node)
    ensures Sorted(retired, Insert(q, k, e))
  {
  }

  lemma SortedRemove(retired: nat, q: seq<Entry>, k: nat)
    requires Sorted(retired, q) && k < |q|
    ensures Sorted(retired, Remove(q, k))
  {
  }

  /** Inserting an entry that fits keeps the order. */
  lemma InsertOrdered(s: Queue, u: Queue, k: nat, e: Entry)
    requires Ordered(s) && k <= |s.queue| && u.queue == Insert(s.queue, k, e)
    requires u.ordseq == s.ordseq && u.retired == s.retired
    requires QueuedOk(u, e)
    requires Rank(s.retired, e.node) >= 0 ==>
             forall i :: 0 <= i < |s.queue| && Rank(s.retired, s.queue[i].node) >= 0 ==>
               if i < k then Rank(s.retired, s.queue[i].node) <= Rank(s.retired, e.node)
               else Rank(s.retired, e.node) <= Rank(s.retired, s.queue[i].node)
    ensures Sorted(u.retired, u.queue)
    ensures forall i :: 0 <= i < |u.queue| ==> QueuedOk(u, u.queue[i])
    ensures Nodes(u.queue) == Nodes(s.queue) + {e.node}
  {
    SortedInsert(s.retired, s.queue, k, e);
    NodesInsert(s.queue, k, e);
    forall i | 0 <= i < |u.queue| ensures QueuedOk(u, u.queue[i]) {
      assert u.queue[i] == if i < k then s.queue[i] else if i == k then e else s.queue[i - 1];
    }
  }

  lemma RemoveOrdered(s: Queue, u: Queue, k: nat)
    requires Ordered(s) && k < |s.queue| && u.queue == Remove(s.queue, k)
    requires u.ordseq == s.ordseq && u.retired == s.retired
    requires Distinct(s.queue)
    ensures Sorted(u.retired, u.queue)
    ensures forall i :: 0 <= i < |u.queue| ==> QueuedOk(u, u.queue[i])
    ensures Nodes(u.queue) == Nodes(s.queue) - {s.queue[k].node}
  {
    SortedRemove(s.retired, s.queue, k);
    NodesRemove(s.queue, k);
    forall i | 0 <= i < |u.queue| ensures QueuedOk(u, u.queue[i]) {
      assert u.queue[i] == s.queue[if i < k then i else i + 1];
    }
  }

  lemma RankBounds(s: Queue, i: nat)
    requires Inv(s) && i < |s.queue|
    ensures var rank := Rank(s.retired, s.queue[i].node);
            rank >= 0 ==> 8 * s.retired <= rank <= 8 * |s.barriers|
  {
  }

  lemma AddEpochs(s: Queue, e: Event)
    requires Inv(s) && e.Submit? && Disciplined(e)
    ensures Epochs(Add(s, e))
  {
    hide Stages, Ordered, Placement;
    var r := NewRequest(s, e);
    var u := Add(s, e);
    assert u.submitted == s.submitted + {r};
    assert u.barriers == if e.barrier then s.barriers + [r] else s.barriers;
    assert Odd(|s.barriers| + 1) == !Odd(|s.barriers|);
  }

  lemma AddChronology(s: Queue, e: Event)
    requires Epochs(s) && Chronology(s) && e.Submit? && Disciplined(e)
    requires forall r :: r in s.submitted ==> r.seqno < s.count
    ensures Chronology(Add(s, e))
  {
    hide Placement;
    var r := NewRequest(s, e);
    var u := Add(s, e);
    assert u.submitted == s.submitted + {r};
    assert u.barriers == if e.barrier then s.barriers + [r] else s.barriers;
  }

  /** A back insertion follows everything queued, because it has the last epoch so far. */
  lemma AddBackOrdered(s: Queue, e: Event)
    requires Inv(s) && e.Submit? && Disciplined(e) && s.held == {}
    requires Placement(e.where, e.soft, e.barrier, e.elvpriv) == Back
    ensures Ordered(Add(s, e))
  {
    var r := NewRequest(s, e);
    var u := Add(s, e);
    var entry := Entry(Plain(r), true, false);
    assert u.queue == Insert(s.queue, |s.queue|, entry);
    forall i | 0 <= i < |s.queue| && Rank(s.retired, s.queue[i].node) >= 0
      ensures Rank(s.retired, s.queue[i].node) <= 8 * |s.barriers|
    {
      RankBounds(s, i);
    }
    InsertOrdered(s, u, |s.queue|, entry);
    forall b | FirstQueued(u) <= b < |u.barriers| ensures Plain(u.barriers[b]) in Nodes(u.queue) {
      assert b < |s.barriers| ==> u.barriers[b] == s.barriers[b];
    }
    forall m | m in u.flying ensures FlyingOk(u, m) {
      assert FlyingOk(s, m);
    }
  }

  lemma AddOrdered(s: Queue, e: Event)
    requires Inv(s) && e.Submit? && Enabled(s, e) && Disciplined(e)
    ensures Ordered(Add(s, e))
  {
    match Placement(e.where, e.soft, e.barrier, e.elvpriv)
    case Front => AddFrontOrdered(s, e);
    case Back => AddBackOrdered(s, e);
    case Sort => SameOrdered(s, Add(s, e).(held := s.held));
  }

  lemma AddFrontOrdered(s: Queue, e: Event)
    requires Inv(s) && e.Submit? && Disciplined(e) && e.where == Front
    ensures Ordered(Add(s, e))
  {
    var entry := Entry(Plain(NewRequest(s, e)), true, false);
    var u := Add(s, e);
    assert u.queue == Insert(s.queue, 0, entry);
    InsertOrdered(s, u, 0, entry);
    forall m | m in u.flying ensures FlyingOk(u, m) {
      assert FlyingOk(s, m);
    }
  }

  /** The order depends only on these fields. */
  lemma SameOrdered(s: Queue, u: Queue)
    requires Ordered(s) && u.mode == s.mode && u.queue == s.queue && u.held == s.held && u.flying == s.flying
    requires u.ordseq == s.ordseq && u.ordered == s.ordered && u.orig == s.orig
    requires u.barriers == s.barriers && u.retired == s.retired
    ensures Ordered(u)
  {
  }

  /** A queued node of an earlier epoch is followed by an entry that nothing may pass, or is one. */
  lemma StopBehind(s: Queue, i: nat)
    requires Inv(s) && i < |s.queue| && 0 <= Rank(s.retired, s.queue[i].node) < 8 * |s.barriers|
    ensures exists j :: i <= j < |s.queue| && Stops(s.queue[j])
  {
    assert QueuedOk(s, s.queue[i]);
    assert s.queue[i].node in Nodes(s.queue);
    if !Stops(s.queue[i]) {
      var x := s.queue[i].node.r;
      assert Live(s, x);
      assert Plain(s.barriers[x.epoch]) in Nodes(s.queue);
      var j :| 0 <= j < |s.queue| && s.queue[j].node == Plain(s.barriers[x.epoch]);
      assert Rank(s.retired, s.queue[i].node) < Rank(s.retired, s.queue[j].node);
      assert Stops(s.queue[j]);
    }
  }

  /** elv_dispatch_sort and elv_dispatch_add_tail never pass a request of an earlier epoch. */
  lemma DispatchOrdered(s: Queue, r: Request, pos: nat)
    requires Inv(s) && Enabled(s, Dispatch(r, pos))
    ensures var u := s.(held := s.held - {r}, queue := Insert(s.queue, pos, Entry(Plain(r), false, false)));
            Ordered(u)
  {
    var entry := Entry(Plain(r), false, false);
    var u := s.(held := s.held - {r}, queue := Insert(s.queue, pos, entry));
    assert Live(s, r);
    if r.fs {
      forall i | 0 <= i < |s.queue| && Rank(s.retired, s.queue[i].node) >= 0
        ensures Rank(s.retired, s.queue[i].node) <= 8 * |s.barriers|
        ensures i >= pos ==> Rank(s.retired, s.queue[i].node) == 8 * |s.barriers|
      {
        RankBounds(s, i);
        assert QueuedOk(s, s.queue[i]);
        if i >= pos {
          assert !Stops(s.queue[i]);
          if Rank(s.retired, s.queue[i].node) < 8 * |s.barriers| {
            StopBehind(s, i);
          }
        }
      }
    }
    InsertOrdered(s, u, pos, entry);
  }

  lemma DequeueOrdered(s: Queue, k: nat)
    requires Inv(s) && Enabled(s, Dequeue(k))
    ensures var n := s.queue[k].node;
            var u := s.(queue := Remove(s.queue, k), flying := s.flying + {n},
                        inFlight := if Accounted(n) then s.inFlight + 1 else s.inFlight);
            Ordered(u)
  {
    var n := s.queue[k].node;
    var u := s.(queue := Remove(s.queue, k), flying := s.flying + {n},
                inFlight := if Accounted(n) then s.inFlight + 1 else s.inFlight);
    RemoveOrdered(s, u, k);
    assert QueuedOk(s, s.queue[k]);
  }

  lemma IssuedOk(s: Queue, n: Node)
    requires Ordered(s) && Issued(s, n)
    ensures n.Plain? && n.r.fs ==> n.r.epoch == s.retired && !n.r.barrier && !(s.ordseq.started && s.ordseq.drain)
    ensures !n.Plain? ==> CurSeq(s.ordseq) == Stage(n)
  {
  }

  /** Taking an issued node from the driver. */
  lemma TakeOrdered(s: Queue, n: Node)
    requires Inv(s) && Issued(s, n)
    ensures Ordered(Take(s, n))
  {
    TakeKeeps(s, n);
    IssuedOk(s, n);
    var t := Take(s, n);
    if n !in s.flying {
      RemoveOrdered(s, t, IndexOf(s.queue, n));
    } else {
      forall i | 0 <= i < |t.queue| ensures QueuedOk(t, t.queue[i]) {
        assert QueuedOk(s, s.queue[i]);
      }
    }
    forall m | m in t.flying ensures FlyingOk(t, m) {
      assert FlyingOk(s, m);
    }
  }

  /** A requeued fs request goes to the front, ahead of every node that has a place in write order. */
  lemma RequeuedPlain(s: Queue, n: Node)
    requires Inv(s) && n in s.flying && n.Plain? && n.r.fs
    ensures s.ordseq.started ==> RequeueAt(s.orig, s.queue, ReqSeq(s.orig, n)) == 0
    ensures forall i :: 0 <= i < |s.queue| && Rank(s.retired, s.queue[i].node) >= 0 ==>
              Rank(s.retired, n) <= Rank(s.retired, s.queue[i].node)
  {
    assert FlyingOk(s, n);
    assert Live(s, n.r);
    forall i | 0 <= i < |s.queue| && Rank(s.retired, s.queue[i].node) >= 0
      ensures Rank(s.retired, n) <= Rank(s.retired, s.queue[i].node)
    {
      RankBounds(s, i);
    }
  }

  /** A node with a place in write order that is queued while a proxy is out comes after it. */
  lemma QueuedAfterProxy(s: Queue, n: Node, i: nat)
    requires Inv(s) && n in s.flying && !n.Plain?
    requires i < |s.queue| && Rank(s.retired, s.queue[i].node) >= 0
    ensures Rank(s.retired, n) <= Rank(s.retired, s.queue[i].node)
    ensures if s.queue[i].node.Plain? then s.queue[i].node.r.epoch > s.retired
            else Stage(n) < Stage(s.queue[i].node)
  {
    assert FlyingOk(s, n);
    assert QueuedOk(s, s.queue[i]);
    assert s.queue[i].node in Nodes(s.queue);
  }

  /** A requeued proxy passes only requests that have no place in write order: an fs request with
      the colour of the barrier in progress would have the next barrier ahead of it. */
  lemma RequeuedProxy(s: Queue, n: Node, i: nat)
    requires Inv(s) && n in s.flying && !n.Plain?
    requires i < |s.queue| && Rank(s.retired, s.queue[i].node) >= 0
    ensures Rank(s.retired, n) <= Rank(s.retired, s.queue[i].node)
    ensures i >= RequeueAt(s.orig, s.queue, ReqSeq(s.orig, n))
  {
    QueuedAfterProxy(s, n, i);
    if s.queue[i].node.Plain? && s.queue[i].node.r.color == s.orig.color {
      NextBarrierAhead(s, i);
    }
  }

  lemma SameColour(a: nat, b: nat)
    requires Odd(a) == Odd(b) && a < b
    ensures a + 1 < b
  {
  }

  lemma OtherColour(a: nat)
    ensures Odd(a + 1) != Odd(a)
  {
  }

  lemma NextBarrierAhead(s: Queue, i: nat)
    requires Inv(s) && s.ordseq.started && i < |s.queue| && s.queue[i].node.Plain? && s.queue[i].node.r.fs
    requires s.queue[i].node.r.epoch > s.retired && s.queue[i].node.r.color == s.orig.color
    ensures exists j :: 0 <= j < i && ReqSeq(s.orig, s.queue[j].node) == DONE
  {
    hide Odd;
    assert s.queue[i].node in Nodes(s.queue);
    assert Live(s, s.queue[i].node.r);
    SameColour(s.retired, s.queue[i].node.r.epoch);
    Behind(s, i, s.retired + 1);
    OtherColour(s.retired);
    var j :| 0 <= j < i && s.queue[j].node == Plain(s.barriers[s.retired + 1]);
    assert ReqSeq(s.orig, s.queue[j].node) == DONE;
  }

  lemma PutBackOrdered(s: Queue, n: Node)
    requires Inv(s) && n in s.flying
    ensures Ordered(PutBack(s, n))
  {
    assert Issued(s, n);
    TakeOrdered(s, n);
    IssuedOk(s, n);
    var t := Take(s, n);
    var u := PutBack(s, n);
    var k := if s.ordseq == IDLE then 0 else RequeueAt(s.orig, t.queue, ReqSeq(s.orig, n));
    if n.Plain? && n.r.fs {
      RequeuedPlain(s, n);
    } else if !n.Plain? {
      forall i | 0 <= i < |s.queue| && Rank(s.retired, s.queue[i].node) >= 0
        ensures Rank(s.retired, n) <= Rank(s.retired, s.queue[i].node) && i >= k
      {
        RequeuedProxy(s, n, i);
      }
    }
    InsertOrdered(t, u, k, Entry(n, true, false));
    forall m | m in u.flying ensures FlyingOk(u, m) {
      assert FlyingOk(s, m);
    }
  }

  /** No fs request of the current epoch is left, on the queue or with the driver. */
  ghost predicate NoneLeft(s: Queue) {
    && (forall i :: 0 <= i < |s.queue| && s.queue[i].node.Plain? && s.queue[i].node.r.fs ==>
                      s.queue[i].node.r.epoch > s.retired)
    && (forall n :: n in s.flying ==> !(n.Plain? && n.r.fs))
  }

  ghost predicate NoProxyIssued(s: Queue) {
    && (forall i :: 0 <= i < |s.queue| && !s.queue[i].node.Plain? ==> !s.queue[i].started)
    && (forall n :: n in s.flying ==> n.Plain?)
  }

  /** blk_ordered_complete_seq keeps the order. */
  lemma MarkOrdered(s: Queue, mask: Ordseq, error: int)
    requires Pending(s, mask) && Epochs(s) && Ordered(s) && s.ordseq.started && !mask.started
    requires NoProxyIssued(s) && (Or(s.ordseq, mask).drain ==> NoneLeft(s))
    ensures Ordered(CompleteSeq(s, mask, error))
  {
    var u := CompleteSeq(s, mask, error);
    forall i | 0 <= i < |s.queue| ensures QueuedOk(u, u.queue[i]) {
      assert QueuedOk(s, s.queue[i]);
    }
    forall n | n in s.flying ensures FlyingOk(u, n) {
      assert FlyingOk(s, n);
    }
    if u.retired != s.retired {
      forall i | 0 <= i < |s.queue| ensures Rank(u.retired, s.queue[i].node) == Rank(s.retired, s.queue[i].node) {
        assert s.queue[i].node in Nodes(s.queue);
      }
    }
  }

  /** When the drain test of elv_completed_request succeeds, nothing of the current epoch is left. */
  lemma DrainTest(s: Queue)
    requires Inv(s) && s.ordseq.started && s.inFlight == 0 && CurSeq(s.ordseq) == DRAIN
    requires |s.queue| == 0 || ReqSeq(s.orig, s.queue[0].node) > DRAIN
    ensures NoneLeft(s) && NoProxyIssued(s)
  {
    forall n | n in s.flying ensures n.Plain? && !n.r.fs {
      assert FlyingOk(s, n);
      assert Accounted(n) ==> n in Busy(s.flying);
    }
    forall i | 0 <= i < |s.queue|
      ensures s.queue[i].node.Plain? && s.queue[i].node.r.fs ==> s.queue[i].node.r.epoch > s.retired
      ensures !s.queue[i].node.Plain? ==> !s.queue[i].started
    {
      assert QueuedOk(s, s.queue[i]);
      if s.queue[i].node.Plain? && s.queue[i].node.r.fs && s.queue[i].node.r.epoch == s.retired {
        CurrentBehindHead(s, i);
      }
    }
  }

  /** A queued fs request of the current epoch shows at the head as stage DRAIN. */
  lemma CurrentBehindHead(s: Queue, i: nat)
    requires Inv(s) && s.ordseq.started && i < |s.queue|
    requires s.queue[i].node.Plain? && s.queue[i].node.r.fs && s.queue[i].node.r.epoch == s.retired
    ensures ReqSeq(s.orig, s.queue[0].node) == DRAIN
  {
  }

  lemma DrainedOrdered(s: Queue)
    requires Inv(s)
    ensures Ordered(Drained(s))
  {
    if Drained(s) != s {
      DrainTest(s);
      MarkOrdered(s, IDLE.(drain := true), 0);
    }
  }

  lemma FinishPlainOrdered(s: Queue, r: Request, error: int)
    requires Inv(s) && Issued(s, Plain(r))
    ensures Ordered(Finish(s, Plain(r), error))
  {
    IssuedOk(s, Plain(r));
    TakeKeeps(s, Plain(r));
    TakeOrdered(s, Plain(r));
    EndTaken(s, r, error);
    assert Plain(r) in Nodes(s.queue) + s.flying;
    assert Live(s, r);
    var t := Take(s, Plain(r));
    var u := End(t, r, error);
    assert u.retired == t.retired;
    forall i | 0 <= i < |u.queue| ensures QueuedOk(u, u.queue[i]) {
      assert QueuedOk(t, t.queue[i]);
    }
    forall m | m in u.flying ensures FlyingOk(u, m) {
      assert FlyingOk(t, m);
    }
    DrainedOrdered(u);
  }

  /** Issued proxies share the current stage, so there is at most one, and none once it is taken. */
  lemma TakenProxy(s: Queue, n: Node)
    requires Inv(s) && Issued(s, n) && !n.Plain?
    ensures NoProxyIssued(Take(s, n)) && NoneLeft(Take(s, n))
    ensures CurSeq(s.ordseq) == Stage(n)
  {
    IssuedOk(s, n);
    TakeKeeps(s, n);
    TakeOrdered(s, n);
    var t := Take(s, n);
    forall i | 0 <= i < |t.queue|
      ensures if t.queue[i].node.Plain? then t.queue[i].node.r.fs ==> t.queue[i].node.r.epoch > t.retired
              else !t.queue[i].started
    {
      assert QueuedOk(t, t.queue[i]);
      assert t.queue[i].node in Nodes(t.queue);
    }
    forall m | m in t.flying ensures m.Plain? && !m.r.fs {
      assert FlyingOk(t, m);
    }
  }

  lemma FinishProxyOrdered(s: Queue, n: Node, error: int)
    requires Inv(s) && Issued(s, n) && !n.Plain?
    ensures Ordered(Finish(s, n, error))
  {
    TakenProxy(s, n);
    TakeKeeps(s, n);
    TakeOrdered(s, n);
    ProxyTaken(s, n);
    var t := Take(s, n);
    var t' := if n == Bar then Report(t, error) else t;
    ReportKeeps(t, StageBit(n), error);
    assert Ordered(t') by {
      forall i | 0 <= i < |t.queue| ensures QueuedOk(t', t.queue[i]) {
        assert QueuedOk(t, t.queue[i]);
      }
      forall m | m in t.flying ensures FlyingOk(t', m) {
        assert FlyingOk(t, m);
      }
    }
    assert Drained(t') == t';
    MarkOrdered(t', StageBit(n), error);
  }

  lemma HandHeadOrdered(s: Queue)
    requires Inv(s) && |s.queue| > 0
    requires s.queue[0].node.Plain? && s.queue[0].node.r.fs ==>
               s.queue[0].node.r.epoch == s.retired && !s.queue[0].node.r.barrier
    requires !s.queue[0].node.Plain? ==> CurSeq(s.ordseq) == Stage(s.queue[0].node)
    ensures Ordered(HandHead(s)) && Epochs(HandHead(s))
  {
    hide Stages;
    HandHeadKeeps(s);
    var u := HandHead(s);
    forall i | 0 <= i < |u.queue| ensures QueuedOk(u, u.queue[i]) {
      assert QueuedOk(s, s.queue[i]);
    }
    forall m | m in u.flying ensures FlyingOk(u, m) {
      assert FlyingOk(s, m);
    }
  }

  /** What must have ended before a node reaches the driver: before a proxy, every fs request
      submitted before the barrier; before an fs request, every barrier submitted before it. */
  ghost predicate Safe(s: Queue) {
    match s.handed
    case Nothing => true
    case Handed(Plain(r)) =>
      r.fs ==> !r.barrier && forall b :: b in s.barriers && b.seqno < r.seqno ==> b in s.ended
    case Handed(n) =>
      && s.ordseq.started && CurSeq(s.ordseq) == Stage(n)
      && forall r :: r in s.submitted && r.fs && r.seqno < s.orig.seqno ==> r in s.ended
  }

  lemma HandHeadSafe(s: Queue)
    requires Inv(s) && Chronology(s) && |s.queue| > 0
    requires s.queue[0].node.Plain? && s.queue[0].node.r.fs ==>
               s.queue[0].node.r.epoch == s.retired && !s.queue[0].node.r.barrier
    requires !s.queue[0].node.Plain? ==> CurSeq(s.ordseq) == Stage(s.queue[0].node)
    ensures Safe(HandHead(s))
  {
    var n := s.queue[0].node;
    assert n in Nodes(s.queue);
    if n.Plain? {
      assert Live(s, n.r);
      forall b | b in s.barriers && b.seqno < n.r.seqno && n.r.fs ensures b in s.ended {
        assert b.epoch < s.retired;
        if Live(s, b) {
          LiveEpoch(s, b);
        }
      }
    } else {
      forall r | r in s.submitted && r.fs && r.seqno < s.orig.seqno ensures r in s.ended {
        assert r.epoch <= s.retired;
        if Live(s, r) {
          LiveEpoch(s, r);
        }
      }
    }
  }

  /** A live fs request is not of an earlier epoch, and once drained not of the current one. */
  lemma LiveEpoch(s: Queue, r: Request)
    requires Inv(s) && Live(s, r) && r.fs
    ensures r.epoch >= s.retired
    ensures s.ordseq.started && s.ordseq.drain && r != s.orig ==> r.epoch > s.retired
  {
  }

  /** The barrier at the head of an idle queue closes the current epoch. */
  lemma HeadBarrier(s: Queue)
    requires Inv(s) && s.ordseq == IDLE && |s.queue| > 0
    requires s.queue[0].node.Plain? && s.queue[0].node.r.fs && s.queue[0].node.r.barrier
    ensures s.retired < |s.barriers| && s.queue[0].node.r == s.barriers[s.retired]
    ensures forall i :: 1 <= i < |s.queue| && s.queue[i].node.Plain? && s.queue[i].node.r.fs ==>
                          s.queue[i].node.r.epoch > s.retired
    ensures forall i :: 0 <= i < |s.queue| ==> s.queue[i].node.Plain?
  {
  }

  lemma PushSorted(retired: nat, q: seq<Entry>, wanted: bool, n: Node)
    requires Sorted(retired, q)
    requires forall i :: 0 <= i < |q| && Rank(retired, q[i].node) >= 0 ==> Rank(retired, n) <= Rank(retired, q[i].node)
    ensures Sorted(retired, Push(q, wanted, n))
    ensures forall i :: 0 <= i < |Push(q, wanted, n)| && Rank(retired, Push(q, wanted, n)[i].node) >= 0 ==>
              Rank(retired, n) <= Rank(retired, Push(q, wanted, n)[i].node)
  {
  }

  /** Stacking the proxies in reverse at the head puts them in write order. */
  lemma StackSorted(retired: nat, q: seq<Entry>, m: Mode)
    requires Sorted(retired, q)
    requires forall i :: 0 <= i < |q| ==> q[i].node.Plain? && (q[i].node.r.fs ==> q[i].node.r.epoch > retired)
    ensures Sorted(retired, Stack(q, m))
  {
    var q1 := Push(q, m.post, PostFlush);
    PushSorted(retired, q, m.post, PostFlush);
    PushSorted(retired, q1, m.bar, Bar);
    PushSorted(retired, Push(q1, m.bar, Bar), m.pre, PreFlush);
  }

  lemma StackEntries(q: seq<Entry>, m: Mode, i: nat)
    requires i < |Stack(q, m)|
    ensures var e := Stack(q, m)[i];
            e in q || (!e.node.Plain? && e.soft && !e.started)
  {
  }

  lemma StartedEntries(s: Queue, i: nat)
    requires Inv(s) && s.ordseq == IDLE && |s.queue| > 0
    requires s.queue[0].node.Plain? && s.queue[0].node.r.fs && s.queue[0].node.r.barrier
    requires i < |Started(s).queue|
    ensures var e := Started(s).queue[i];
            QueuedOk(Started(s), e) &&
            if e.node.Plain? then e.node.r.fs ==> e.node.r.epoch > s.retired else !e.started
  {
    HeadBarrier(s);
    var t := Started(s);
    var q := s.queue[1..];
    StackEntries(q, t.ordered, i);
    if t.queue[i] in q {
      var k :| 0 <= k < |q| && q[k] == t.queue[i];
      assert q[k] == s.queue[k + 1];
      assert QueuedOk(s, s.queue[k + 1]);
    }
  }

  lemma StartedNodes(s: Queue)
    requires Inv(s) && s.ordseq == IDLE && |s.queue| > 0
    requires s.queue[0].node.Plain? && s.queue[0].node.r.fs && s.queue[0].node.r.barrier
    ensures Nodes(s.queue) - {s.queue[0].node} <= Nodes(Started(s).queue)
    ensures Sorted(s.retired, Started(s).queue)
  {
    hide Stack, Nodes, Rank, Remove, Sorted;
    StartedPlaces(s);
    HeadBarrier(s);
    var q := s.queue[1..];
    assert q == Remove(s.queue, 0) by { TailIsRemove(s.queue); }
    SortedRemove(s.retired, s.queue, 0);
    forall i | 0 <= i < |q| ensures q[i] == s.queue[i + 1] {}
    StackSorted(s.retired, q, Started(s).ordered);
  }

  lemma TailIsRemove(q: seq<Entry>)
    requires |q| > 0
    ensures Remove(q, 0) == q[1..]
  {
  }

  lemma StartedOrdered(s: Queue)
    requires Inv(s) && s.ordseq == IDLE && |s.queue| > 0
    requires s.queue[0].node.Plain? && s.queue[0].node.r.fs && s.queue[0].node.r.barrier
    ensures Ordered(Started(s)) && Epochs(Started(s)) && NoProxyIssued(Started(s))
    ensures Skipped(s).drain ==> NoneLeft(Started(s))
  {
    HeadBarrier(s);
    StartedNodes(s);
    var t := Started(s);
    forall i | 0 <= i < |t.queue|
      ensures QueuedOk(t, t.queue[i])
      ensures if t.queue[i].node.Plain? then t.queue[i].node.r.fs ==> t.queue[i].node.r.epoch > s.retired
              else !t.queue[i].started
    {
      StartedEntries(s, i);
    }
    forall n | n in t.flying ensures FlyingOk(t, n) && n.Plain? && (Skipped(s).drain ==> !n.r.fs) {
      assert FlyingOk(s, n);
      assert Accounted(n) ==> n in Busy(s.flying);
    }
  }

  /** The state in which start_ordered hands over the first proxy. */
  lemma StartMarked(s: Queue)
    requires Inv(s) && Chronology(s) && s.ordseq == IDLE && |s.queue| > 0 && s.handed == Nothing
    requires s.queue[0].node.Plain? && s.queue[0].node.r.fs && s.queue[0].node.r.barrier
    ensures var u := CompleteSeq(Started(s), Skipped(s), 0);
            Inv(u) && Chronology(u) && u.handed == Nothing
  {
    hide Stages, Ordered, NoProxyIssued, NoneLeft, Pending, CurSeq, Stack, SequenceMode, CompleteSeq, Epochs,
      Chronology;
    StartedPending(s);
    StartedOrdered(s);
    StartKeeps(s);
    MarkOrdered(Started(s), Skipped(s), 0);
    CompleteFrame(Started(s), Skipped(s), 0);
    HistoryOnly(s, CompleteSeq(Started(s), Skipped(s), 0));
  }

  /** Epochs and chronology speak of the history alone. */
  lemma HistoryOnly(s: Queue, t: Queue)
    requires SameHistory(s, t) && Epochs(s) && Chronology(s)
    ensures Epochs(t) && Chronology(t)
  {
  }

  lemma StartOrderedKeeps(s: Queue)
    requires Inv(s) && Chronology(s) && s.ordseq == IDLE && |s.queue| > 0 && s.handed == Nothing
    requires s.queue[0].node.Plain? && s.queue[0].node.r.fs && s.queue[0].node.r.barrier
    ensures Ordered(StartOrdered(s)) && Safe(StartOrdered(s))
  {
    StartMode(s);
    hide Stages, Ordered, Epochs, Chronology, Started, Skipped, CompleteSeq, StartOrdered, HandHead, CurSeq;
    StartedPending(s);
    StartMarked(s);
    StartKeeps(s);
    var u := CompleteSeq(Started(s), Skipped(s), 0);
    if StartOrdered(s) != u {
      FirstProxy(s);
      HandHeadOrdered(u);
      HandHeadSafe(u);
    }
  }

  lemma StartMode(s: Queue)
    requires Inv(s)
    ensures s.mode.bar && !s.mode.tag
  {
  }

  /** The proxy start_ordered returns is that of the current stage. */
  lemma FirstProxy(s: Queue)
    requires s.mode.bar && !s.mode.tag && |s.queue| > 0 && s.queue[0].node.Plain?
    requires StartOrdered(s) != CompleteSeq(Started(s), Skipped(s), 0)
    ensures var u := CompleteSeq(Started(s), Skipped(s), 0);
            |u.queue| > 0 && !u.queue[0].node.Plain? && CurSeq(u.ordseq) == Stage(u.queue[0].node)
  {
    StartIsComplete(s);
  }

  lemma FetchOrdered(s: Queue)
    requires Inv(s) && Chronology(s) && |s.queue| > 0 && s.handed == Nothing
    ensures Ordered(Fetch(s)) && Safe(Fetch(s))
  {
    var n := s.queue[0].node;
    assert n in Nodes(s.queue);
    if n.Plain? {
      assert Live(s, n.r);
    }
    if s.ordseq == IDLE && n.Plain? && n.r.fs && n.r.barrier {
      StartOrderedKeeps(s);
    } else if Fetch(s) != s {
      if n.Plain? && n.r.fs {
        HeadEpoch(s);
      }
      HandHeadOrdered(s);
      HandHeadSafe(s);
    }
  }

  predicate SameHistory(s: Queue, t: Queue) {
    t.submitted == s.submitted && t.barriers == s.barriers && t.ordcolor == s.ordcolor && t.handed == s.handed
  }

  lemma CompleteFrame(s: Queue, mask: Ordseq, error: int)
    ensures SameHistory(s, CompleteSeq(s, mask, error))
  {
  }

  lemma DrainedFrame(s: Queue)
    ensures SameHistory(s, Drained(s))
  {
  }

  lemma FinishFrame(s: Queue, n: Node, error: int)
    ensures SameHistory(s, Finish(s, n, error))
  {
    var t := Take(s, n);
    assert SameHistory(s, t);
    if n.Plain? {
      DrainedFrame(End(t, n.r, error));
    } else {
      var t' := if n == Bar then Report(t, error) else t;
      DrainedFrame(t');
      CompleteFrame(Drained(t'), StageBit(n), error);
    }
  }

  lemma StartFrame(s: Queue)
    requires Stages(s) && |s.queue| > 0 && s.queue[0].node.Plain? && s.ordseq == IDLE
    ensures SameHistory(s, StartOrdered(s).(handed := s.handed))
  {
    StartKeeps(s);
    CompleteFrame(Started(s), Skipped(s), 0);
    var u := CompleteSeq(Started(s), Skipped(s), 0);
    assert SameHistory(s, HandHead(u).(handed := s.handed));
  }

  lemma FetchFrame(s: Queue)
    requires Stages(s) && |s.queue| > 0
    ensures SameHistory(s, Fetch(s).(handed := s.handed))
  {
    if s.ordseq == IDLE && s.queue[0].node.Plain? {
      StartFrame(s);
    }
  }

  lemma StepEpochs(s: Queue, e: Event)
    requires Inv(s) && Chronology(s) && Enabled(s, e) && Disciplined(e)
    ensures Epochs(Step(s, e)) && Chronology(Step(s, e))
  {
    UnhandedInv(s);
    var t := s.(handed := Nothing);
    match e
    case Submit(_, _, _, _, _, _, _, _, _) =>
      AddEpochs(t, e);
      AddChronology(t, e);
    case Next => FetchFrame(t);
    case Complete(n, error) => FinishFrame(t, n, error);
    case _ =>
  }

  lemma StepOrdered(s: Queue, e: Event)
    requires Inv(s) && Chronology(s) && Enabled(s, e) && Disciplined(e)
    ensures Ordered(Step(s, e))
    ensures Safe(Step(s, e))
  {
    hide Ordered, Stages, Epochs, Chronology;
    UnhandedInv(s);
    var t := s.(handed := Nothing);
    match e
    case Submit(_, _, _, _, _, _, _, _, _) => AddOrdered(t, e);
    case Dispatch(r, pos) => DispatchOrdered(t, r, pos);
    case Next => FetchOrdered(t);
    case Dequeue(k) => DequeueOrdered(t, k);
    case BarError(error) => ReportOrdered(t, error);
    case Complete(n, error) => FinishOrdered(t, n, error);
    case Requeue(n) => PutBackOrdered(t, n);
  }

  lemma FinishOrdered(s: Queue, n: Node, error: int)
    requires Inv(s) && Issued(s, n) && s.handed == Nothing
    ensures Ordered(Finish(s, n, error)) && Safe(Finish(s, n, error))
  {
    FinishFrame(s, n, error);
    if n.Plain? {
      FinishPlainOrdered(s, n.r, error);
    } else {
      FinishProxyOrdered(s, n, error);
    }
  }

  lemma ReportOrdered(s: Queue, error: int)
    requires Inv(s)
    ensures Ordered(Report(s, error))
  {
  }

  lemma UnhandedInv(s: Queue)
    requires Inv(s) && Chronology(s)
    ensures Inv(s.(handed := Nothing)) && Chronology(s.(handed := Nothing))
  {
    var u := s.(handed := Nothing);
    assert Stages(u) by {
      forall x ensures Live(u, x) <==> Live(s, x) {}
    }
    SameOrdered(s, u);
  }

  lemma {:induction false} RunOrdered(s: Queue, es: seq<Event>)
    requires Inv(s) && Chronology(s) && Safe(s) && Runs(s, es)
    requires forall e :: e in es ==> Disciplined(e)
    ensures Inv(Run(s, es)) && Safe(Run(s, es))
    decreases |es|
  {
    if es != [] {
      StepKeeps(s, es[0]);
      StepEpochs(s, es[0]);
      StepOrdered(s, es[0]);
      RunOrdered(Step(s, es[0]), es[1..]);
    }
  }

  /** In every run of a drain-ordered queue: a flush or the barrier write reaches the driver only
      when every fs request submitted before the barrier has ended, and an fs request only when
      every barrier submitted before it has ended. */
  lemma WriteOrdering(mode: Mode, es: seq<Event>)
    requires mode in {ORDERED_DRAIN, ORDERED_DRAIN_FLUSH, ORDERED_DRAIN_FUA}
    requires Runs(Init(mode), es) && forall e :: e in es ==> Disciplined(e)
    ensures Safe(Run(Init(mode), es))
  {
    InitStages(mode);
    RunOrdered(Init(mode), es);
  }

  /** In such a run the driver has at most one proxy at a time, that of the current stage, so
      pre-flush, barrier write and post-flush are issued one by one in that order. */
  lemma OneProxyAtATime(mode: Mode, es: seq<Event>, n: Node, m: Node)
    requires mode in {ORDERED_DRAIN, ORDERED_DRAIN_FLUSH, ORDERED_DRAIN_FUA}
    requires Runs(Init(mode), es) && forall e :: e in es ==> Disciplined(e)
    requires !n.Plain? && Issued(Run(Init(mode), es), n)
    ensures CurSeq(Run(Init(mode), es).ordseq) == Stage(n)
    ensures !m.Plain? && Issued(Run(Init(mode), es), m) ==> m == n
  {
    InitStages(mode);
    RunOrdered(Init(mode), es);
    IssuedOk(Run(Init(mode), es), n);
    if !m.Plain? && Issued(Run(Init(mode), es), m) {
      IssuedOk(Run(Init(mode), es), m);
    }
  }
}
