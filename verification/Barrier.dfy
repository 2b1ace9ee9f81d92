/** The ordered-write protocol of one request_queue: blk-barrier.c together with the
    insertion, fetch, requeue and completion paths of elevator.c that it relies on.

    A queue state is a value and every locked operation is a step on it.  The last group
    of fields is history: it records what was submitted and ended, and no step reads it. */
module Barrier {

  /** QUEUE_ORDERED_*: how ordering is done and which proxies are issued. */
  datatype Mode = Mode(drain: bool, tag: bool, pre: bool, bar: bool, post: bool, fua: bool)

  const ORDERED_NONE := Mode(false, false, false, false, false, false)
  const ORDERED_DRAIN := Mode(true, false, false, true, false, false)
  const ORDERED_DRAIN_FLUSH := Mode(true, false, true, true, true, false)
  const ORDERED_DRAIN_FUA := Mode(true, false, true, true, false, true)
  const ORDERED_TAG := Mode(false, true, false, true, false, false)
  const ORDERED_TAG_FLUSH := Mode(false, true, true, true, true, false)
  const ORDERED_TAG_FUA := Mode(false, true, true, true, false, true)

  const EOPNOTSUPP := 95

  /** The QUEUE_ORDSEQ_* bits, with their values in the source. */
  const PREFLUSH := 4
  const BAR := 8
  const POSTFLUSH := 16
  const DRAIN := 2
  const DONE := 32

  /** The bits of q->ordseq. */
  datatype Ordseq = Ordseq(started: bool, drain: bool, pre: bool, bar: bool, post: bool)

  const IDLE := Ordseq(false, false, false, false, false)

  function Or(a: Ordseq, b: Ordseq): Ordseq {
    Ordseq(a.started || b.started, a.drain || b.drain, a.pre || b.pre, a.bar || b.bar, a.post || b.post)
  }

  predicate Overlap(a: Ordseq, b: Ordseq) {
    (a.started && b.started) || (a.drain && b.drain) || (a.pre && b.pre) || (a.bar && b.bar) || (a.post && b.post)
  }

  /** blk_ordered_cur_seq: 0 when idle, otherwise the lowest clear bit. */
  function CurSeq(o: Ordseq): nat {
    if o == IDLE then 0
    else if !o.started then 1
    else if !o.drain then DRAIN
    else if !o.pre then PREFLUSH
    else if !o.bar then BAR
    else if !o.post then POSTFLUSH
    else DONE
  }

  /** A request as submitted.  `seqno` is its place in submission order and `epoch` the number
      of fs barriers submitted before it; the code sees neither, only the one-bit colour. */
  datatype Request = Request(seqno: nat, fs: bool, discard: bool, barrier: bool, empty: bool,
                             color: bool, epoch: nat, sector: nat, write: bool)

  /** What sits on the dispatch queue or with the driver: a request, or one of the three
      proxies embedded in the queue (pre_flush_rq, bar_rq, post_flush_rq). */
  datatype Node = Plain(r: Request) | PreFlush | Bar | PostFlush

  datatype Entry = Entry(node: Node, soft: bool, started: bool)

  datatype Handed = Nothing | Handed(node: Node)

  datatype Queue = Queue(
    mode: Mode, queue: seq<Entry>, held: set<Request>, flying: set<Node>, inFlight: int,
    ordseq: Ordseq, ordered: Mode, orig: Request, orderr: int, ordcolor: bool,
    handed: Handed, bug: bool,
    count: nat, submitted: set<Request>, barriers: seq<Request>, retired: nat,
    ended: map<Request, int>)

  predicate Fs(n: Node) { n.Bar? || (n.Plain? && n.r.fs) }

  predicate HardBarrier(n: Node) { n.Plain? ==> n.r.barrier }

  /** blk_account_rq, for a request the driver has seen. */
  predicate Accounted(n: Node) { Fs(n) || (n.Plain? && n.r.discard) }

  /** The stop_flags of elv_dispatch_sort. */
  predicate Stops(e: Entry) { e.soft || e.started || HardBarrier(e.node) }

  /** blk_ordered_req_seq. */
  function ReqSeq(orig: Request, n: Node): nat {
    match n
    case PreFlush => PREFLUSH
    case Bar => BAR
    case PostFlush => POSTFLUSH
    case Plain(r) => if !r.fs || r.color == orig.color then DRAIN else DONE
  }

  function Insert(q: seq<Entry>, k: nat, e: Entry): seq<Entry>
    requires k <= |q|
  {
    q[..k] + [e] + q[k..]
  }

  function Remove(q: seq<Entry>, k: nat): seq<Entry>
    requires k < |q|
  {
    q[..k] + q[k + 1..]
  }

  /** The insertion point of a requeued request: before the first entry at the same or a later stage. */
  function RequeueAt(orig: Request, q: seq<Entry>, seqn: nat): (k: nat)
    ensures k <= |q|
    ensures forall i :: 0 <= i < k ==> ReqSeq(orig, q[i].node) < seqn
    ensures k < |q| ==> seqn <= ReqSeq(orig, q[k].node)
  {
    if q == [] || seqn <= ReqSeq(orig, q[0].node) then 0 else 1 + RequeueAt(orig, q[1..], seqn)
  }

  /** __blk_end_request on a whole request; ending one twice would free it twice. */
  function End(s: Queue, r: Request, error: int): Queue {
    s.(ended := s.ended[r := error], bug := s.bug || r in s.ended,
       retired := if r.fs && r.barrier then s.retired + 1 else s.retired)
  }

  /** req_bio_endio and blk_ordered_complete_seq share this: the first error sticks. */
  function Report(s: Queue, error: int): Queue {
    s.(orderr := if error != 0 && s.orderr == 0 then error else s.orderr)
  }

  /** blk_ordered_complete_seq. */
  function CompleteSeq(s: Queue, mask: Ordseq, error: int): Queue {
    var t := Report(s, error).(bug := s.bug || Overlap(s.ordseq, mask), ordseq := Or(s.ordseq, mask));
    if CurSeq(t.ordseq) != DONE then t else End(t.(ordseq := IDLE), t.orig, t.orderr)
  }

  function Push(q: seq<Entry>, wanted: bool, n: Node): seq<Entry> {
    if wanted then [Entry(n, true, false)] + q else q
  }

  /** The mode of one sequence: an empty barrier issues neither the write nor the post-flush,
      and with nothing left to tag it drains instead. */
  function SequenceMode(next: Mode, empty: bool): Mode {
    if !empty then next
    else
      var m := next.(bar := false, post := false);
      if m.tag && !m.pre then m.(tag := false, drain := true) else m
  }

  /** start_ordered, with the marking of the returned proxy as started by elv_next_request. */
  function StartOrdered(s: Queue): Queue
    requires |s.queue| > 0 && s.queue[0].node.Plain?
  {
    var rq := s.queue[0].node.r;
    var m := SequenceMode(s.mode, rq.empty);
    var q := Push(Push(Push(s.queue[1..], m.post, PostFlush), m.bar, Bar), m.pre, PreFlush);
    var wait := m.drain && s.inFlight != 0;
    var skip := Ordseq(false, !wait, !m.pre, !m.bar, !m.post);
    var t := CompleteSeq(s.(queue := q, ordered := m, orig := rq, orderr := 0,
                            ordseq := IDLE.(started := true)), skip, 0);
    if !wait && (m.pre || m.bar || m.post) then HandHead(t) else t
  }

  /** elv_next_request returning the head of the dispatch queue. */
  function HandHead(s: Queue): Queue {
    if |s.queue| == 0 then s
    else s.(queue := s.queue[0 := s.queue[0].(started := true)], handed := Handed(s.queue[0].node))
  }

  /** One iteration of the fetch loop: blk_do_ordered on the head of the dispatch queue. */
  function Fetch(s: Queue): Queue
    requires |s.queue| > 0
  {
    var n := s.queue[0].node;
    var isBarrier := Fs(n) && HardBarrier(n);
    if s.ordseq == IDLE then
      if !isBarrier || !n.Plain? then HandHead(s)
      else if s.mode != ORDERED_NONE then StartOrdered(s)
      else End(s.(queue := s.queue[1..]), n.r, -EOPNOTSUPP)
    else if n.Plain? && !n.r.fs then HandHead(s)
    else if s.ordered.tag then
      if isBarrier && n != Bar then s else HandHead(s)
    else
      if ReqSeq(s.orig, n) > CurSeq(s.ordseq) then s else HandHead(s)
  }

  datatype Where = Front | Back | Sort

  /** The insertion point after the adjustments of __elv_add_request. */
  function Placement(where: Where, soft: bool, barrier: bool, elvpriv: bool): Where {
    if where == Sort && (soft || barrier || !elvpriv) then Back else where
  }

  /** What the submitter chooses; the colour and the history numbers are the queue's. */
  datatype Event =
    | Submit(fs: bool, discard: bool, barrier: bool, empty: bool, soft: bool, elvpriv: bool, where: Where,
             sector: nat, write: bool)
    | Dispatch(r: Request, pos: nat)
    | Next
    | Dequeue(k: nat)
    | BarError(error: int)
    | Complete(n: Node, error: int)
    | Requeue(n: Node)

  function NewRequest(s: Queue, e: Event): Request
    requires e.Submit?
  {
    Request(s.count, e.fs, e.discard, e.barrier, e.empty, s.ordcolor, |s.barriers|, e.sector, e.write)
  }

  /** __elv_add_request.  Back insertion happens once the scheduler has been drained. */
  function Add(s: Queue, e: Event): Queue
    requires e.Submit?
  {
    var r := NewRequest(s, e);
    var t := s.(count := s.count + 1, submitted := s.submitted + {r},
                ordcolor := if e.barrier then !s.ordcolor else s.ordcolor,
                barriers := if e.fs && e.barrier then s.barriers + [r] else s.barriers);
    match Placement(e.where, e.soft, e.barrier, e.elvpriv)
    case Front => t.(queue := [Entry(Plain(r), true, false)] + s.queue)
    case Back => t.(queue := s.queue + [Entry(Plain(r), true, false)])
    case Sort => t.(held := s.held + {r})
  }

  /** The driver has been handed the node and has not ended or requeued it. */
  predicate Issued(s: Queue, n: Node) {
    n in s.flying || exists i :: 0 <= i < |s.queue| && s.queue[i].node == n && s.queue[i].started
  }

  function IndexOf(q: seq<Entry>, n: Node): (k: nat)
    ensures k <= |q|
    ensures k < |q| ==> q[k].node == n
    ensures forall i :: 0 <= i < k ==> q[i].node != n
  {
    if q == [] || q[0].node == n then 0 else 1 + IndexOf(q[1..], n)
  }

  /** Take a node from the driver: off the busy set, or off the queue if it was never dequeued. */
  function Take(s: Queue, n: Node): Queue {
    if n in s.flying then
      s.(flying := s.flying - {n}, inFlight := if Accounted(n) then s.inFlight - 1 else s.inFlight)
    else
      var k := IndexOf(s.queue, n);
      if k < |s.queue| then s.(queue := Remove(s.queue, k)) else s
  }

  /** The drain test of elv_completed_request. */
  function Drained(s: Queue): Queue {
    if s.ordseq != IDLE && s.inFlight == 0 && CurSeq(s.ordseq) == DRAIN
       && (|s.queue| == 0 || ReqSeq(s.orig, s.queue[0].node) > DRAIN)
    then CompleteSeq(s, IDLE.(drain := true), 0) else s
  }

  /** __blk_end_request on everything that is left of a node, with its end_io. */
  function Finish(s: Queue, n: Node, error: int): Queue {
    var t := Take(s, n);
    match n
    case Plain(r) => Drained(End(t, r, error))
    case PreFlush => CompleteSeq(Drained(t), IDLE.(pre := true), error)
    case Bar => CompleteSeq(Drained(Report(t, error)), IDLE.(bar := true), error)
    case PostFlush => CompleteSeq(Drained(t), IDLE.(post := true), error)
  }

  /** blk_requeue_request. */
  function PutBack(s: Queue, n: Node): Queue {
    var t := Take(s, n);
    var k := if s.ordseq == IDLE then 0 else RequeueAt(s.orig, t.queue, ReqSeq(s.orig, n));
    t.(queue := Insert(t.queue, k, Entry(n, true, false)))
  }

  predicate Enabled(s: Queue, e: Event) {
    match e
    case Submit(fs, discard, barrier, empty, soft, elvpriv, where, _, _) =>
      var p := Placement(where, soft, barrier, elvpriv);
      (p == Sort ==> fs || discard) && (p == Back ==> s.held == {})
    case Dispatch(r, pos) =>
      r in s.held && pos <= |s.queue| && forall i :: pos <= i < |s.queue| ==> !Stops(s.queue[i])
    case Next => |s.queue| > 0
    case Dequeue(k) => k < |s.queue| && s.queue[k].started
    case BarError(error) => Issued(s, Bar)
    case Complete(n, error) => Issued(s, n)
    case Requeue(n) => n in s.flying
  }

  function Step(s: Queue, e: Event): Queue
    requires Enabled(s, e)
  {
    var s := s.(handed := Nothing);
    match e
    case Submit(_, _, _, _, _, _, _, _, _) => Add(s, e)
    case Dispatch(r, pos) => s.(held := s.held - {r}, queue := Insert(s.queue, pos, Entry(Plain(r), false, false)))
    case Next => Fetch(s)
    case Dequeue(k) =>
      var n := s.queue[k].node;
      s.(queue := Remove(s.queue, k), flying := s.flying + {n},
         inFlight := if Accounted(n) then s.inFlight + 1 else s.inFlight)
    case BarError(error) => Report(s, error)
    case Complete(n, error) => Finish(s, n, error)
    case Requeue(n) => PutBack(s, n)
  }

  function Init(mode: Mode): Queue {
    Queue(mode, [], {}, {}, 0, IDLE, ORDERED_NONE, Request(0, false, false, false, false, false, 0, 0, false), 0,
          false, Nothing, false, 0, {}, [], 0, map[])
  }

  predicate Runs(s: Queue, es: seq<Event>)
    decreases |es|
  {
    es == [] || (Enabled(s, es[0]) && Runs(Step(s, es[0]), es[1..]))
  }

  function Run(s: Queue, es: seq<Event>): Queue
    requires Runs(s, es)
    decreases |es|
  {
    if es == [] then s else Run(Step(s, es[0]), es[1..])
  }

  lemma {:induction false} RunAppend(s: Queue, es: seq<Event>, fs: seq<Event>)
    requires Runs(s, es) && Runs(Run(s, es), fs)
    ensures Runs(s, es + fs) && Run(s, es + fs) == Run(Run(s, es), fs)
    decreases |es|
  {
    hide Step, Enabled;
    if es == [] {
      assert es + fs == fs;
    } else {
      RunAppend(Step(s, es[0]), es[1..], fs);
      assert (es + fs)[1..] == es[1..] + fs;
    }
  }
}
