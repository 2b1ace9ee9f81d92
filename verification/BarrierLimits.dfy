/** Both halves of the discipline asked of submitters are needed: every event that breaks it
    occurs in a run that is otherwise disciplined and that breaks the write order. */
module BarrierLimits {
  import opened Barrier
  import opened BarrierOrder

  lemma Prepend(s: Queue, e: Event, es: seq<Event>)
    requires Enabled(s, e) && Runs(Step(s, e), es)
    ensures Runs(s, [e] + es) && Run(s, [e] + es) == Run(Step(s, e), es)
  {
  }

  /** A one-sector fs write with no flags, given to the scheduler. */
  const WRITE := Submit(true, false, false, false, false, true, Sort, 0, true)

  /** A barrier write. */
  const BARRIER := Submit(true, false, true, false, false, true, Sort, 0, true)

  /** An fs request put at the front overtakes a barrier submitted before it. */
  lemma FrontInsertionBreaksOrder(e: Event)
    requires e.Submit? && e.fs && e.where == Front
    ensures Runs(Init(ORDERED_DRAIN_FLUSH), [BARRIER, e, Next])
    ensures !Safe(Run(Init(ORDERED_DRAIN_FLUSH), [BARRIER, e, Next]))
  {
    var s0 := Init(ORDERED_DRAIN_FLUSH);
    var s1 := Step(s0, BARRIER);
    var c := Request(0, true, false, true, false, false, 0, 0, true);
    assert s1.queue == [Entry(Plain(c), true, false)] && s1.barriers == [c] && s1.submitted == {c};
    var s2 := Step(s1, e);
    var x := NewRequest(s1, e);
    assert s2.queue == [Entry(Plain(x), true, false), Entry(Plain(c), true, false)];
    assert c in s2.barriers && c in s2.submitted && s2.ended == map[];
    var s3 := Step(s2, Next);
    Prepend(s2, Next, []);
    Prepend(s1, e, [Next]);
    Prepend(s0, BARRIER, [e, Next]);
    assert [Next] + [] == [Next];
    assert [e] + [Next] == [e, Next];
    assert [BARRIER] + [e, Next] == [BARRIER, e, Next];
    assert Run(s2, [Next]) == s3;
    assert c in s3.barriers && c in s3.submitted && c !in s3.ended;
    assert !Safe(s3);
  }

  lemma Pair(s: Queue, e: Event, f: Event)
    requires Enabled(s, e) && Enabled(Step(s, e), f)
    ensures Runs(s, [e, f]) && Run(s, [e, f]) == Step(Step(s, e), f)
  {
    var t := Step(s, e);
    assert Run(Step(t, f), []) == Step(t, f);
    Prepend(t, f, []);
    assert [f] + [] == [f];
    Prepend(s, e, [f]);
    assert [e] + [f] == [e, f];
  }

  const A := Request(0, true, false, false, false, false, 0, 0, true)
  const C := Request(2, true, false, true, false, true, 0, 0, true)
  const PROXIES := [Entry(PreFlush, true, false), Entry(Bar, true, false), Entry(PostFlush, true, false)]

  function P(e: Event): Request
    requires e.Submit?
  {
    Request(1, false, e.discard, true, e.empty, false, 0, e.sector, e.write)
  }

  /** A write is fetched; `e` and a barrier follow it; the barrier starts while the write is out;
      the write is requeued; `e` completes. */
  function Misleading(e: Event): seq<Event>
    requires e.Submit?
  {
    [WRITE, Dispatch(A, 0)] + [Next, Dequeue(0)] + [e, BARRIER] + [Next, Dequeue(0)]
    + [Next, Requeue(Plain(A))] + [Complete(Plain(P(e)), 0), Next]
  }

  function Mid(e: Event): Queue
    requires e.Submit?
  {
    Init(ORDERED_DRAIN_FLUSH).(queue := [Entry(Plain(C), true, false)], flying := {Plain(A), Plain(P(e))},
                               inFlight := if e.discard then 2 else 1, count := 3,
                               submitted := {A, P(e), C}, barriers := [C])
  }

  /** The state once the write is with the driver. */
  function Fetched(): Queue {
    Init(ORDERED_DRAIN_FLUSH).(flying := {Plain(A)}, inFlight := 1, count := 1, submitted := {A})
  }

  lemma WriteFetched()
    ensures var es := [WRITE, Dispatch(A, 0)] + [Next, Dequeue(0)];
            Runs(Init(ORDERED_DRAIN_FLUSH), es) && Run(Init(ORDERED_DRAIN_FLUSH), es) == Fetched()
  {
    var s0 := Init(ORDERED_DRAIN_FLUSH);
    var s2 := s0.(queue := [Entry(Plain(A), false, false)], count := 1, submitted := {A});
    assert Step(Step(s0, WRITE), Dispatch(A, 0)) == s2;
    Pair(s0, WRITE, Dispatch(A, 0));
    assert Step(Step(s2, Next), Dequeue(0)) == Fetched();
    Pair(s2, Next, Dequeue(0));
    RunAppend(s0, [WRITE, Dispatch(A, 0)], [Next, Dequeue(0)]);
  }

  lemma MisleadingFirst(e: Event)
    requires e.Submit? && !e.fs && e.barrier
    ensures var es := [e, BARRIER] + [Next, Dequeue(0)];
            Runs(Fetched(), es) && Run(Fetched(), es) == Mid(e)
  {
    var s4 := Fetched();
    var s6 := s4.(queue := [Entry(Plain(P(e)), true, false), Entry(Plain(C), true, false)], count := 3,
                  submitted := {A, P(e), C}, barriers := [C]);
    assert Step(Step(s4, e), BARRIER) == s6;
    Pair(s4, e, BARRIER);
    assert Step(s6, Next).queue == [Entry(Plain(P(e)), true, true), Entry(Plain(C), true, false)];
    assert Step(Step(s6, Next), Dequeue(0)) == Mid(e);
    Pair(s6, Next, Dequeue(0));
    RunAppend(s4, [e, BARRIER], [Next, Dequeue(0)]);
  }

  function Late(e: Event): Queue
    requires e.Submit?
  {
    Mid(e).(queue := PROXIES + [Entry(Plain(A), true, false)], flying := {Plain(P(e))},
            inFlight := if e.discard then 1 else 0, ordseq := IDLE.(started := true),
            ordered := ORDERED_DRAIN_FLUSH, orig := C)
  }

  /** The second barrier's sequence has started. */
  ghost function Begun(e: Event): Queue
    requires e.Submit?
  {
    Mid(e).(queue := PROXIES, ordseq := IDLE.(started := true), ordered := ORDERED_DRAIN_FLUSH,
            orig := C)
  }

  lemma MisleadingNext(e: Event)
    requires e.Submit?
    ensures Enabled(Mid(e), Next) && Step(Mid(e), Next) == Begun(e)
  {
    var s := Mid(e);
    var t := Step(s, Next);
    assert s.queue[1..] == [];
    assert t.queue == PROXIES;
    var none: seq<int> := [];
    assert none + [0] == [0];
  }

  lemma MisleadingRequeue(e: Event)
    requires e.Submit?
    ensures Enabled(Begun(e), Requeue(Plain(A))) && Step(Begun(e), Requeue(Plain(A))) == Late(e)
  {
    var t := Begun(e);
    assert RequeueAt(C, PROXIES, DONE) == 3 by {
      assert PROXIES[1..][1..][1..] == [];
    }
    assert t.flying - {Plain(A)} == {Plain(P(e))};
  }

  lemma MisleadingSecond(e: Event)
    requires e.Submit?
    ensures Runs(Mid(e), [Next, Requeue(Plain(A))]) && Run(Mid(e), [Next, Requeue(Plain(A))]) == Late(e)
  {
    hide Step, Enabled;
    MisleadingNext(e);
    MisleadingRequeue(e);
    Pair(Mid(e), Next, Requeue(Plain(A)));
  }

  lemma MisleadingThird(e: Event)
    requires e.Submit?
    ensures Runs(Late(e), [Complete(Plain(P(e)), 0), Next])
    ensures !Safe(Run(Late(e), [Complete(Plain(P(e)), 0), Next]))
  {
    var s := Late(e);
    var t := Step(s, Complete(Plain(P(e)), 0));
    assert t.queue == s.queue && t.ordseq == IDLE.(started := true, drain := true);
    assert A in t.submitted && A !in t.ended;
    assert Step(t, Next).handed == Handed(PreFlush);
    Pair(s, Complete(Plain(P(e)), 0), Next);
  }

  /** A request that is not fs but carries the hard barrier flag flips the colour without closing
      an epoch.  A write in flight across it, if requeued, then looks later than the next barrier,
      whose sequence is issued before it. */
  lemma NonFsBarrierBreaksOrder(e: Event)
    requires e.Submit? && !e.fs && e.barrier
    ensures Runs(Init(ORDERED_DRAIN_FLUSH), Misleading(e))
    ensures !Safe(Run(Init(ORDERED_DRAIN_FLUSH), Misleading(e)))
    ensures forall k :: 0 <= k < |Misleading(e)| && k != 4 ==> Disciplined(Misleading(e)[k])
  {
    hide Step, Enabled, Runs, Run;
    WriteFetched();
    MisleadingFirst(e);
    MisleadingSecond(e);
    MisleadingThird(e);
    var es := [WRITE, Dispatch(A, 0)] + [Next, Dequeue(0)];
    var fs := es + ([e, BARRIER] + [Next, Dequeue(0)]);
    RunAppend(Init(ORDERED_DRAIN_FLUSH), es, [e, BARRIER] + [Next, Dequeue(0)]);
    RunAppend(Init(ORDERED_DRAIN_FLUSH), fs, [Next, Requeue(Plain(A))]);
    RunAppend(Init(ORDERED_DRAIN_FLUSH), fs + [Next, Requeue(Plain(A))], [Complete(Plain(P(e)), 0), Next]);
    assert fs + [Next, Requeue(Plain(A))] + [Complete(Plain(P(e)), 0), Next] == Misleading(e);
  }
}
