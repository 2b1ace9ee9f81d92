/** The asynchronous chained-IV generator: callers and work items interleaved one shared access at a
    time.  The INUSE bit, the queue, the pending work item and the stored IV are the shared state. */
module Chainiv {
  import opened Options

  type Iv = seq<int>

  const MAX_QLEN := 100
  const EINPROGRESS := -115
  const EBUSY := -16

  datatype Request = Request(id: nat, mayBacklog: bool)

  /** One call of the underlying cipher: the IV generated for it, its error and the IV it leaves. */
  datatype Encryption = Encryption(req: Request, giv: Iv, info: Iv, err: int, next: Iv)

  /** Where a thread stands.  `stored` is the error this thread put into the context. */
  datatype Pc =
    | Idle
    | First(req: Request)                       // givencrypt_first, before its test_and_set
    | FirstCheck(req: Request)
    | FirstRng(req: Request)
    | FirstUnlock(req: Request, rngErr: int)
    | Enter(req: Request)                       // givencrypt, before its test_and_set
    | QlenCheck(req: Request)
    | GiveBack(req: Request)
    | Enqueue(req: Request)                     // postpone_request
    | Retake(err: int)
    | SetErr(err: int)
    | Dequeue                                   // do_postponed
    | CopyGiv(req: Request)                     // givencrypt_tail
    | CopyInfo(req: Request, giv: Iv)
    | Encrypt(req: Request, giv: Iv, info: Iv)
    | StoreIv(next: Iv, stored: int)
    | ReadErr(stored: int)                      // schedule_work
    | SchedQlen(stored: int, err: int)
    | SchedClear(stored: int, err: int)
    | Recheck(stored: int, err: int)
    | RecheckTake(stored: int, err: int)
    | Schedule(stored: int, err: int)
    | Done(stored: int, err: int)

  /** The context, with the history of what happened to it. */
  datatype Memory = Memory(
    inuse: bool, replaced: bool, iv: Iv, err: int, queue: seq<Request>, pending: bool,
    seed: Option<Iv>, log: seq<Encryption>, accepted: seq<Request>, taken: seq<Request>)

  datatype State = State(threads: seq<Pc>, m: Memory)

  datatype Event =
    | Call(t: nat, req: Request)
    | Work(t: nat)
    | Return(t: nat)
    /** The thread's next access; the random bytes or the cipher's answer, where it asks for one. */
    | Move(t: nat, rng: Option<Iv>, err: int, next: Iv)

  /** A thread's new position and the memory it leaves. */
  datatype Outcome = To(pc: Pc, m: Memory)

  /** crypto_enqueue_request: a full queue takes only requests that may be backlogged. */
  function Queued(m: Memory, req: Request): Outcome {
    var err := if |m.queue| < MAX_QLEN then EINPROGRESS else EBUSY;
    To(Retake(err),
       if |m.queue| < MAX_QLEN || req.mayBacklog
       then m.(queue := m.queue + [req], accepted := m.accepted + [req]) else m)
  }

  /** One shared access of a thread. */
  function Act(m: Memory, pc: Pc, rng: Option<Iv>, err: int, next: Iv): Outcome {
    match pc
    case Idle => To(pc, m)
    case First(req) => if m.inuse then To(Enter(req), m) else To(FirstCheck(req), m.(inuse := true))
    case FirstCheck(req) =>
      if m.replaced then To(FirstUnlock(req, 0), m) else To(FirstRng(req), m.(replaced := true))
    case FirstRng(req) =>
      if rng.Some? then To(FirstUnlock(req, 0), m.(iv := rng.value, seed := rng)) else To(FirstUnlock(req, err), m)
    case FirstUnlock(req, e) => To(if e != 0 then Done(e, e) else Enter(req), m.(inuse := false))
    case Enter(req) => if m.inuse then To(Enqueue(req), m) else To(QlenCheck(req), m.(inuse := true))
    case QlenCheck(req) => To(if m.queue != [] then GiveBack(req) else CopyGiv(req), m)
    case GiveBack(req) => To(Enqueue(req), m.(inuse := false))
    case Enqueue(req) => Queued(m, req)
    case Retake(e) => if m.inuse then To(Done(e, e), m) else To(SetErr(e), m.(inuse := true))
    case SetErr(e) => To(ReadErr(e), m.(err := e))
    case Dequeue =>
      if m.queue == [] then To(ReadErr(m.err), m)
      else To(CopyGiv(m.queue[0]), m.(queue := m.queue[1..], taken := m.taken + [m.queue[0]]))
    case CopyGiv(req) => To(CopyInfo(req, m.iv), m)
    case CopyInfo(req, giv) => To(Encrypt(req, giv, m.iv), m)
    case Encrypt(req, giv, info) =>
      To(if err != 0 then ReadErr(err) else StoreIv(next, err),
         m.(err := err, log := m.log + [Encryption(req, giv, info, err, next)]))
    case StoreIv(left, stored) => To(ReadErr(stored), m.(iv := left))
    case ReadErr(stored) => To(SchedQlen(stored, m.err), m)
    case SchedQlen(stored, e) => To(if m.queue != [] then Schedule(stored, e) else SchedClear(stored, e), m)
    case SchedClear(stored, e) => To(Recheck(stored, e), m.(inuse := false))
    case Recheck(stored, e) => To(if m.queue != [] then RecheckTake(stored, e) else Done(stored, e), m)
    case RecheckTake(stored, e) =>
      if m.inuse then To(Done(stored, e), m) else To(Schedule(stored, e), m.(inuse := true))
    case Schedule(stored, e) => To(Done(stored, e), m.(pending := true))
    case Done(_, _) => To(pc, m)
  }

  predicate Enabled(s: State, e: Event) {
    && e.t < |s.threads|
    && match e
       case Call(t, _) => s.threads[t].Idle?
       case Work(t) => s.threads[t].Idle? && s.m.pending
       case Return(t) => s.threads[t].Done?
       case Move(t, _, _, _) => !s.threads[t].Idle? && !s.threads[t].Done?
  }

  function Effect(s: State, e: Event): Outcome
    requires Enabled(s, e)
  {
    match e
    case Call(t, req) => To(if s.m.replaced then Enter(req) else First(req), s.m)
    case Work(t) => To(Dequeue, s.m.(pending := false))
    case Return(t) => To(Idle, s.m)
    case Move(t, rng, err, next) => Act(s.m, s.threads[t], rng, err, next)
  }

  function Step(s: State, e: Event): State
    requires Enabled(s, e)
  {
    State(s.threads[e.t := Effect(s, e).pc], Effect(s, e).m)
  }

  /** The random number generator answers, and a failing one reports an error. */
  predicate RngAnswers(s: State, e: Event) {
    e.Move? && e.t < |s.threads| && s.threads[e.t].FirstRng? ==> e.rng.Some?
  }

  function Start(threads: nat, iv: Iv): State {
    State(seq(threads, _ => Idle), Memory(false, false, iv, 0, [], false, None, [], [], []))
  }

  predicate Runs(s: State, es: seq<Event>)
    decreases |es|, 0
  {
    es == [] || (Runs(s, es[..|es| - 1]) && Enabled(Run(s, es[..|es| - 1]), es[|es| - 1]))
  }

  function Run(s: State, es: seq<Event>): State
    requires Runs(s, es)
    decreases |es|, 1
  {
    if es == [] then s else Step(Run(s, es[..|es| - 1]), es[|es| - 1])
  }

  predicate RngAlwaysAnswers(s: State, es: seq<Event>)
    requires Runs(s, es)
  {
    es == [] || (RngAlwaysAnswers(s, es[..|es| - 1]) && RngAnswers(Run(s, es[..|es| - 1]), es[|es| - 1]))
  }

  /** The IV left by the last successful encryption, or the random one. */
  function Left(seed: Iv, log: seq<Encryption>): Iv {
    if log == [] then seed
    else if log[|log| - 1].err == 0 then log[|log| - 1].next
    else Left(seed, log[..|log| - 1])
  }

  /** The thread has the INUSE bit. */
  predicate Owns(pc: Pc) {
    pc.FirstCheck? || pc.FirstRng? || pc.FirstUnlock? || pc.QlenCheck? || pc.GiveBack? || pc.SetErr? || pc.Dequeue?
    || pc.CopyGiv? || pc.CopyInfo? || pc.Encrypt? || pc.StoreIv? || pc.ReadErr? || pc.SchedQlen? || pc.SchedClear?
    || pc.Schedule?
  }

  /** The thread still has a test_and_set, or the re-reading of the queue length, to run. */
  predicate Obliged(pc: Pc) { pc.Enter? || pc.Enqueue? || pc.Retake? || pc.Recheck? || pc.RecheckTake? }

  datatype Holder = Nobody | Item | Thread(t: nat)

  predicate Ownership(s: State, h: Holder) {
    && (h.Thread? ==> h.t < |s.threads|)
    && (s.m.inuse <==> h != Nobody)
    && (s.m.pending <==> h == Item)
    && forall t :: 0 <= t < |s.threads| ==> (Owns(s.threads[t]) <==> h == Thread(t))
  }

  function NextHolder(s: State, e: Event, h: Holder): Holder
    requires Enabled(s, e)
  {
    var pc := Effect(s, e).pc;
    if Owns(pc) then Thread(e.t)
    else if h == Thread(e.t) then (if s.threads[e.t].Schedule? then Item else Nobody)
    else h
  }

  lemma OwnershipKept(s: State, e: Event, h: Holder)
    requires Enabled(s, e) && Ownership(s, h)
    ensures Ownership(Step(s, e), NextHolder(s, e, h))
  {
  }

  /** What a thread's position says about the shared state it owns. */
  predicate Fits(m: Memory, pc: Pc) {
    match pc
    case FirstCheck(_) => m.replaced <==> m.seed.Some?
    case FirstRng(_) => m.replaced && m.seed.None?
    case FirstUnlock(_, e) => m.seed.Some? && e == 0
    case CopyInfo(_, giv) => giv == m.iv
    case Encrypt(_, giv, info) => giv == m.iv && info == m.iv
    case StoreIv(next, stored) => m.seed.Some? && next == Left(m.seed.value, m.log) && m.err == stored
    case ReadErr(stored) => m.err == stored
    case SchedQlen(stored, e) => stored == e
    case SchedClear(stored, e) => stored == e
    case Recheck(stored, e) => stored == e
    case RecheckTake(stored, e) => stored == e
    case Schedule(stored, e) => stored == e
    case Done(stored, e) => stored == e
    case _ => true
  }

  /** Before the random IV is there, nobody has got past the first caller. */
  predicate Unseeded(pc: Pc) {
    pc.Idle? || pc.First? || pc.FirstCheck? || pc.FirstRng? || pc.Enter? || pc.Enqueue? || pc.Retake? || pc.Done?
  }

  predicate Untouched(s: State) {
    && s.m.queue == [] && !s.m.replaced
    && forall t :: 0 <= t < |s.threads| ==> s.threads[t].Idle? || s.threads[t].First?
  }

  predicate Seeding(s: State) {
    && (s.m.seed.Some? ==> s.m.replaced)
    && (s.m.seed.None? ==>
          && !s.m.pending && s.m.log == []
          && (s.m.inuse || Untouched(s))
          && forall t :: 0 <= t < |s.threads| ==> Unseeded(s.threads[t]))
  }

  /** The stored IV is the one left by the last success, except while that one is being stored. */
  predicate Stored(s: State, h: Holder) {
    s.m.seed.Some? && !(h.Thread? && h.t < |s.threads| && s.threads[h.t].StoreIv?) ==>
      s.m.iv == Left(s.m.seed.value, s.m.log)
  }

  predicate AllFit(s: State) {
    forall t :: 0 <= t < |s.threads| ==> Fits(s.m, s.threads[t])
  }

  lemma SeedingKept(s: State, e: Event, h: Holder)
    requires Enabled(s, e) && RngAnswers(s, e) && Ownership(s, h) && Seeding(s) && AllFit(s)
    ensures Seeding(Step(s, e))
  {
    hide Left;
    if s.m.seed.None? && s.m.inuse && h.Thread? {
      assert Unseeded(s.threads[h.t]) && Fits(s.m, s.threads[h.t]);
    }
  }

  lemma LeftAfter(seed: Iv, log: seq<Encryption>, e: Encryption)
    ensures Left(seed, log + [e]) == if e.err == 0 then e.next else Left(seed, log)
  {
  }

  lemma StoredKept(s: State, e: Event, h: Holder)
    requires Enabled(s, e) && RngAnswers(s, e) && Ownership(s, h) && Seeding(s) && AllFit(s) && Stored(s, h)
    ensures Stored(Step(s, e), NextHolder(s, e, h))
  {
    hide Left;
    var pc := s.threads[e.t];
    assert Fits(s.m, pc);
    assert s.m.seed.None? ==> Unseeded(pc);
    if e.Move? && pc.Encrypt? && s.m.seed.Some? {
      LeftAfter(s.m.seed.value, s.m.log, Encryption(pc.req, pc.giv, pc.info, e.err, e.next));
    }
    if e.Move? && pc.FirstRng? && e.rng.Some? {
      LeftNone(e.rng.value);
    }
  }

  lemma LeftNone(seed: Iv)
    ensures Left(seed, []) == seed
  {
  }

  /** What an owner may rely on is changed by nobody else. */
  lemma OthersFit(s: State, e: Event, h: Holder, u: nat)
    requires Enabled(s, e) && RngAnswers(s, e) && Ownership(s, h) && AllFit(s)
    requires u < |s.threads| && u != e.t
    ensures Fits(Effect(s, e).m, s.threads[u])
  {
  }

  lemma MoverFits(s: State, e: Event, h: Holder)
    requires Enabled(s, e) && RngAnswers(s, e) && Ownership(s, h) && Seeding(s) && AllFit(s) && Stored(s, h)
    ensures Fits(Effect(s, e).m, Effect(s, e).pc)
  {
    hide Left;
    var pc := s.threads[e.t];
    assert Fits(s.m, pc);
    assert s.m.seed.None? ==> Unseeded(pc);
    if e.Move? && pc.Encrypt? {
      LeftAfter(s.m.seed.value, s.m.log, Encryption(pc.req, pc.giv, pc.info, e.err, e.next));
    }
  }

  lemma AllFitKept(s: State, e: Event, h: Holder)
    requires Enabled(s, e) && RngAnswers(s, e) && Ownership(s, h) && Seeding(s) && AllFit(s) && Stored(s, h)
    ensures AllFit(Step(s, e))
  {
    hide Left, Fits, Effect;
    forall u | 0 <= u < |s.threads| ensures Fits(Step(s, e).m, Step(s, e).threads[u]) {
      if u == e.t {
        MoverFits(s, e, h);
      } else {
        OthersFit(s, e, h, u);
      }
    }
  }

  /** A non-empty queue with INUSE clear has somebody to look at it again. */
  predicate Watched(s: State) {
    s.m.queue != [] && !s.m.inuse ==> exists t :: 0 <= t < |s.threads| && Obliged(s.threads[t])
  }

  lemma WatchedKept(s: State, e: Event, h: Holder)
    requires Enabled(s, e) && Ownership(s, h) && AllFit(s) && Watched(s)
    ensures Watched(Step(s, e))
  {
    hide Left;
    var s' := Step(s, e);
    assert Fits(s.m, s.threads[e.t]);
    if s'.m.queue != [] && !s'.m.inuse {
      if s.m.inuse || s.m.queue == [] {
        assert Obliged(s'.threads[e.t]);
      } else {
        var t :| 0 <= t < |s.threads| && Obliged(s.threads[t]);
        assert Obliged(s'.threads[t]);
      }
    }
  }

  /** Every generated IV is the one left by the successful encryption before it. */
  predicate Chained(s: State) {
    s.m.log != [] ==>
      && s.m.seed.Some?
      && forall k :: 0 <= k < |s.m.log| ==>
           s.m.log[k].giv == Left(s.m.seed.value, s.m.log[..k]) && s.m.log[k].info == s.m.log[k].giv
  }

  lemma ChainedKept(s: State, e: Event, h: Holder)
    requires Enabled(s, e) && RngAnswers(s, e) && Ownership(s, h) && Seeding(s) && AllFit(s) && Stored(s, h)
    requires Chained(s)
    ensures Chained(Step(s, e))
  {
    hide Left, Effect, Owns, Unseeded;
    var pc := s.threads[e.t];
    assert Fits(s.m, pc) && (s.m.seed.None? ==> Unseeded(pc));
    if e.Move? && pc.Encrypt? {
      Encrypting(pc);
      EffectOfEncrypt(s, e);
      ChainLonger(s.m.seed.value, s.m.log, Encryption(pc.req, pc.giv, pc.info, e.err, e.next));
    } else {
      LogStays(s, e);
    }
  }

  lemma Encrypting(pc: Pc)
    requires pc.Encrypt?
    ensures Owns(pc) && !Unseeded(pc)
  {
  }

  lemma EffectOfEncrypt(s: State, e: Event)
    requires Enabled(s, e) && e.Move? && s.threads[e.t].Encrypt?
    ensures var pc := s.threads[e.t]; var m := Effect(s, e).m;
            m.seed == s.m.seed && m.log == s.m.log + [Encryption(pc.req, pc.giv, pc.info, e.err, e.next)]
  {
  }

  lemma ChainLonger(seed: Iv, log: seq<Encryption>, e: Encryption)
    requires forall k :: 0 <= k < |log| ==> log[k].giv == Left(seed, log[..k]) && log[k].info == log[k].giv
    requires e.giv == Left(seed, log) && e.info == e.giv
    ensures var log' := log + [e];
            forall k :: 0 <= k < |log'| ==> log'[k].giv == Left(seed, log'[..k]) && log'[k].info == log'[k].giv
  {
    hide Left;
    var log' := log + [e];
    assert log'[..|log|] == log;
    forall k | 0 <= k < |log'| ensures log'[k].giv == Left(seed, log'[..k]) && log'[k].info == log'[k].giv {
      if k < |log| {
        assert log'[..k] == log[..k];
      }
    }
  }

  lemma LogStays(s: State, e: Event)
    requires Enabled(s, e) && !(e.Move? && s.threads[e.t].Encrypt?)
    ensures Effect(s, e).m.log == s.m.log
    ensures s.m.log != [] && !(e.Move? && s.threads[e.t].FirstRng?) ==> Effect(s, e).m.seed == s.m.seed
  {
  }

  predicate Good(s: State, h: Holder) {
    && Ownership(s, h) && Seeding(s) && AllFit(s) && Stored(s, h) && Watched(s) && Chained(s)
    && InOrder(s.m)
  }

  lemma StepGood(s: State, e: Event, h: Holder)
    requires Enabled(s, e) && RngAnswers(s, e) && Good(s, h)
    ensures Good(Step(s, e), NextHolder(s, e, h))
  {
    OwnershipKept(s, e, h);
    SeedingKept(s, e, h);
    AllFitKept(s, e, h);
    StoredKept(s, e, h);
    WatchedKept(s, e, h);
    ChainedKept(s, e, h);
    FifoKept(s, e);
    hide *;
  }

  /** First in, first out; beyond max_qlen only requests that may be backlogged wait. */
  predicate InOrder(m: Memory) {
    m.accepted == m.taken + m.queue && forall i :: MAX_QLEN <= i < |m.queue| ==> m.queue[i].mayBacklog
  }

  lemma FifoKept(s: State, e: Event)
    requires Enabled(s, e) && InOrder(s.m)
    ensures InOrder(Effect(s, e).m)
  {
    if e.Move? && (s.threads[e.t].Dequeue? || s.threads[e.t].Enqueue?) {
      QueueMoves(s.m, s.threads[e.t], e.rng, e.err, e.next);
    } else {
      QueueStays(s, e);
    }
  }

  lemma QueueMoves(m: Memory, pc: Pc, rng: Option<Iv>, err: int, next: Iv)
    requires InOrder(m) && (pc.Dequeue? || pc.Enqueue?)
    ensures InOrder(Act(m, pc, rng, err, next).m)
  {
  }

  lemma QueueStays(s: State, e: Event)
    requires Enabled(s, e) && !(e.Move? && (s.threads[e.t].Dequeue? || s.threads[e.t].Enqueue?))
    ensures var m := Effect(s, e).m; m.queue == s.m.queue && m.accepted == s.m.accepted && m.taken == s.m.taken
  {
  }

  lemma {:induction false} RunGood(threads: nat, iv: Iv, es: seq<Event>) returns (h: Holder)
    requires Runs(Start(threads, iv), es) && RngAlwaysAnswers(Start(threads, iv), es)
    ensures Good(Run(Start(threads, iv), es), h)
  {
    hide Good, Step, Enabled, RngAnswers;
    if es == [] {
      StartGood(threads, iv);
      h := Nobody;
    } else {
      var init := es[..|es| - 1];
      h := RunGood(threads, iv, init);
      var s := Run(Start(threads, iv), init);
      StepGood(s, es[|es| - 1], h);
      h := NextHolder(s, es[|es| - 1], h);
    }
  }

  lemma StartGood(threads: nat, iv: Iv)
    ensures Good(Start(threads, iv), Nobody)
  {
  }

  /** What a thread has done since it was last called or given work: nothing yet, asked for random bytes in vain, called
      the cipher, which answered and was logged as number k, having last seen so many waiting, or offered its request
      to a queue of that length, which was number n to be accepted or was not taken. */
  datatype Deed =
    | Nothing
    | Refused(answer: int)
    | Encrypted(k: nat, answer: int, waiting: Option<nat>)
    | Offered(qlen: nat, n: nat, took: bool)

  /** The request the thread works for, whether it was called with it, the length of the queue when the thread last
      looked, and its deed. */
  datatype Story = Story(req: Option<Request>, caller: bool, seen: Option<nat>, deed: Deed)

  const Blank := Story(None, false, None, Nothing)

  /** The thread's story after the event, seen from the state before it. */
  function Told(s: State, e: Event, was: Story): Story
    requires Enabled(s, e)
  {
    match e
    case Call(_, req) => Story(Some(req), true, None, Nothing)
    case Work(_) => Blank
    case Return(_) => Blank
    case Move(t, rng, err, _) =>
      if s.threads[t].FirstRng? && rng.None? && err != 0 then was.(deed := Refused(err))
      else if s.threads[t].Dequeue? && s.m.queue != [] then was.(req := Some(s.m.queue[0]))
      else if s.threads[t].QlenCheck? || s.threads[t].SchedQlen? then was.(seen := Some(|s.m.queue|))
      else if s.threads[t].Encrypt? then was.(deed := Encrypted(|s.m.log|, err, was.seen))
      else if s.threads[t].Enqueue? then
        was.(deed := Offered(|s.m.queue|, |s.m.accepted|, |Step(s, e).m.accepted| > |s.m.accepted|))
      else was
  }

  function StoryOf(s: State, es: seq<Event>, t: nat): Story
    requires Runs(s, es)
  {
    if es == [] then Blank
    else
      var init, e := es[..|es| - 1], es[|es| - 1];
      var was := StoryOf(s, init, t);
      if e.t == t then Told(Run(s, init), e, was) else was
  }

  /** The thread returns what it was answered, and the history has its request, if it had one: logged with the cipher's
      own error, and for a caller only if nobody was waiting; or accepted with EINPROGRESS if there was room, and
      otherwise EBUSY, accepted only if it may be backlogged. */
  predicate Answered(m: Memory, story: Story, err: int) {
    match story.deed
    case Nothing => story.req.None?
    case Refused(answer) => err == answer
    case Encrypted(k, answer, waiting) =>
      && k < |m.log| && story.req == Some(m.log[k].req) && m.log[k].err == answer && err == answer
      && (story.caller ==> waiting == Some(0))
    case Offered(qlen, n, took) =>
      && story.req.Some? && err == (if qlen < 100 then -115 else -16)
      && (took <==> qlen < 100 || story.req.value.mayBacklog)
      && (took ==> n < |m.accepted| && m.accepted[n] == story.req.value)
  }

  /** The error a thread carries to its return, once it has one. */
  function Carried(pc: Pc): Option<int> {
    match pc
    case FirstUnlock(_, e) => if e != 0 then Some(e) else None
    case Retake(e) => Some(e)
    case SetErr(e) => Some(e)
    case StoreIv(_, stored) => Some(stored)
    case ReadErr(stored) => Some(stored)
    case SchedQlen(stored, _) => Some(stored)
    case SchedClear(stored, _) => Some(stored)
    case Recheck(stored, _) => Some(stored)
    case RecheckTake(stored, _) => Some(stored)
    case Schedule(stored, _) => Some(stored)
    case Done(stored, _) => Some(stored)
    case _ => None
  }

  function Working(pc: Pc): Option<Request> {
    match pc
    case First(req) => Some(req)
    case FirstCheck(req) => Some(req)
    case FirstRng(req) => Some(req)
    case FirstUnlock(req, _) => Some(req)
    case Enter(req) => Some(req)
    case QlenCheck(req) => Some(req)
    case GiveBack(req) => Some(req)
    case Enqueue(req) => Some(req)
    case CopyGiv(req) => Some(req)
    case CopyInfo(req, _) => Some(req)
    case Encrypt(req, _, _) => Some(req)
    case _ => None
  }

  predicate Follows(m: Memory, pc: Pc, story: Story) {
    && (Working(pc).Some? ==> story.req == Working(pc))
    && (story.deed != Nothing ==> Carried(pc).Some?)
    && (Carried(pc).Some? ==> Answered(m, story, Carried(pc).value))
    && (pc.Dequeue? ==> story.req.None? && !story.caller)
    && (story.caller && (pc.CopyGiv? || pc.CopyInfo? || pc.Encrypt?) ==> story.seen == Some(0))
    && (pc.SchedClear? ==> story.seen == Some(0))
  }

  /** What is logged or accepted stays so. */
  lemma HistoryGrows(s: State, e: Event)
    requires Enabled(s, e)
    ensures s.m.log <= Step(s, e).m.log && s.m.accepted <= Step(s, e).m.accepted
  {
  }

  lemma AnsweredStays(m: Memory, m': Memory, story: Story, seen: Option<nat>, err: int)
    requires Answered(m, story, err) && m.log <= m'.log && m.accepted <= m'.accepted
    ensures Answered(m', story.(seen := seen), err)
  {
  }

  lemma MoverFollows(s: State, e: Event, story: Story)
    requires Enabled(s, e) && Follows(s.m, s.threads[e.t], story)
    ensures Follows(Effect(s, e).m, Effect(s, e).pc, Told(s, e, story))
  {
    hide Effect, Told, Follows;
    var pc := s.threads[e.t];
    if Carried(pc).Some? {
      CarrierFollows(s, e, story);
    } else if e.Move? && (pc.Encrypt? || pc.Enqueue?) {
      DoerFollows(s, e, story);
    } else {
      OtherwiseFollows(s, e, story);
    }
  }

  lemma DoerFollows(s: State, e: Event, story: Story)
    requires Enabled(s, e) && e.Move? && (s.threads[e.t].Encrypt? || s.threads[e.t].Enqueue?)
    requires Follows(s.m, s.threads[e.t], story)
    ensures Follows(Effect(s, e).m, Effect(s, e).pc, Told(s, e, story))
  {
  }

  lemma OtherwiseFollows(s: State, e: Event, story: Story)
    requires Enabled(s, e) && Carried(s.threads[e.t]).None? && Follows(s.m, s.threads[e.t], story)
    requires !(e.Move? && (s.threads[e.t].Encrypt? || s.threads[e.t].Enqueue?))
    ensures Follows(Effect(s, e).m, Effect(s, e).pc, Told(s, e, story))
  {
  }

  lemma CarrierFollows(s: State, e: Event, story: Story)
    requires Enabled(s, e) && Carried(s.threads[e.t]).Some? && Follows(s.m, s.threads[e.t], story)
    ensures Follows(Effect(s, e).m, Effect(s, e).pc, Told(s, e, story))
  {
    HistoryGrows(s, e);
    if e.Move? {
      CarrierMoves(s, e, story);
      hide Answered, Effect, Carried, Working, Told;
      AnsweredStays(s.m, Effect(s, e).m, story, Told(s, e, story).seen, Carried(s.threads[e.t]).value);
    } else {
      IdleFollows(s.m);
    }
  }

  /** A thread with its answer carries it on. */
  lemma CarrierMoves(s: State, e: Event, story: Story)
    requires Enabled(s, e) && e.Move? && Carried(s.threads[e.t]).Some?
    ensures var pc, pc' := s.threads[e.t], Effect(s, e).pc; var told := Told(s, e, story);
            && Carried(pc') == Carried(pc) && Working(pc').None? && told == story.(seen := told.seen)
            && !(pc'.Dequeue? || pc'.CopyGiv? || pc'.CopyInfo? || pc'.Encrypt?)
            && (pc'.SchedClear? ==> told.seen == Some(0))
  {
  }

  lemma {:induction false} StoryKept(s: State, es: seq<Event>, t: nat)
    requires Runs(s, es) && t < |s.threads| && s.threads[t] == Idle
    ensures var s' := Run(s, es); |s'.threads| == |s.threads| && Follows(s'.m, s'.threads[t], StoryOf(s, es, t))
  {
    hide Effect, Told, Answered, Carried, Working;
    if es == [] {
      IdleFollows(s.m);
    } else {
      var init, e := es[..|es| - 1], es[|es| - 1];
      StoryKept(s, init, t);
      var u := Run(s, init);
      if e.t == t {
        MoverFollows(u, e, StoryOf(s, init, t));
      } else {
        OtherFollows(u, e, t, StoryOf(s, init, t));
      }
    }
  }

  lemma IdleFollows(m: Memory)
    ensures Follows(m, Idle, Blank)
  {
  }

  lemma OtherFollows(s: State, e: Event, t: nat, story: Story)
    requires Enabled(s, e) && t < |s.threads| && e.t != t && Follows(s.m, s.threads[t], story)
    ensures Follows(Step(s, e).m, Step(s, e).threads[t], story)
  {
    hide Effect, Answered, Carried, Working;
    HistoryGrows(s, e);
    if Carried(s.threads[t]).Some? {
      AnsweredStays(s.m, Step(s, e).m, story, story.seen, Carried(s.threads[t]).value);
    }
  }

  /** Whatever the interleaving: one owner of the IV at a time, the work item never scheduled while
      pending (its BUG_ON), nobody asleep on a non-empty queue, every thread returns its own answer, and none gives
      INUSE up after its work without having seen the queue empty. */
  lemma EveryInterleaving(threads: nat, iv: Iv, es: seq<Event>)
    requires Runs(Start(threads, iv), es) && RngAlwaysAnswers(Start(threads, iv), es)
    ensures var s := Run(Start(threads, iv), es);
            && |s.threads| == threads
            && (forall t, u :: 0 <= t < threads && 0 <= u < threads && Owns(s.threads[t]) && Owns(s.threads[u])
                  ==> t == u)
            && (forall t :: 0 <= t < threads && s.threads[t].Schedule? ==> !s.m.pending)
            && (s.m.queue != [] && !s.m.inuse ==> exists t :: 0 <= t < threads && Obliged(s.threads[t]))
            && (forall t :: 0 <= t < threads && s.threads[t].Done? ==>
                              Answered(s.m, StoryOf(Start(threads, iv), es, t), s.threads[t].err))
            && (forall t :: 0 <= t < threads && s.threads[t].SchedClear? ==>
                              StoryOf(Start(threads, iv), es, t).seen == Some(0))
            && s.m.accepted == s.m.taken + s.m.queue
            && (forall i :: MAX_QLEN <= i < |s.m.queue| ==> s.m.queue[i].mayBacklog)
  {
    hide Run, Runs, StoryOf, Answered, Left;
    var h := RunGood(threads, iv, es);
    var s := Run(Start(threads, iv), es);
    ThreadsStay(Start(threads, iv), es);
    forall t | 0 <= t < threads && s.threads[t].Done?
      ensures Answered(s.m, StoryOf(Start(threads, iv), es, t), s.threads[t].err)
    {
      assert Fits(s.m, s.threads[t]);
      StoryKept(Start(threads, iv), es, t);
    }
    forall t | 0 <= t < threads && s.threads[t].SchedClear?
      ensures StoryOf(Start(threads, iv), es, t).seen == Some(0)
    {
      StoryKept(Start(threads, iv), es, t);
    }
  }

  lemma {:induction false} ThreadsStay(s: State, es: seq<Event>)
    requires Runs(s, es)
    ensures |Run(s, es).threads| == |s.threads|
  {
    hide Effect;
    if es != [] {
      ThreadsStay(s, es[..|es| - 1]);
    }
  }

  /** Each generated IV, and the cipher's starting IV, is what the last successful encryption left. */
  lemma IvChain(threads: nat, iv: Iv, es: seq<Event>, k: nat)
    requires Runs(Start(threads, iv), es) && RngAlwaysAnswers(Start(threads, iv), es)
    requires k < |Run(Start(threads, iv), es).m.log|
    ensures var m := Run(Start(threads, iv), es).m;
            m.seed.Some? && m.log[k].giv == Left(m.seed.value, m.log[..k]) && m.log[k].info == m.log[k].giv
  {
    hide Run, Runs, Left;
    var h := RunGood(threads, iv, es);
  }

  /** Once every thread has returned and no work is pending, nothing is left behind: the context can be
      torn down without meeting async_chainiv_exit's BUG_ON. */
  lemma Quiescent(threads: nat, iv: Iv, es: seq<Event>)
    requires Runs(Start(threads, iv), es) && RngAlwaysAnswers(Start(threads, iv), es)
    requires var s := Run(Start(threads, iv), es);
             !s.m.pending && forall t :: 0 <= t < |s.threads| ==> s.threads[t].Idle?
    ensures var m := Run(Start(threads, iv), es).m;
            !m.inuse && m.queue == [] && m.taken == m.accepted
  {
    hide Run, Runs, Left;
    var h := RunGood(threads, iv, es);
  }

  lemma RunExtend(s: State, es: seq<Event>, e: Event)
    requires Runs(s, es) && Enabled(Run(s, es), e)
    ensures Runs(s, es + [e]) && Run(s, es + [e]) == Step(Run(s, es), e)
  {
  }

  /** The two-threaded state [p, q] with memory m is reached by es. */
  ghost predicate Reached(iv: Iv, es: seq<Event>, p: Pc, q: Pc, m: Memory) {
    Runs(Start(2, iv), es) && Run(Start(2, iv), es) == State([p, q], m)
  }

  lemma Then(iv: Iv, es: seq<Event>, p: Pc, q: Pc, m: Memory, e: Event) returns (es': seq<Event>)
    requires Reached(iv, es, p, q, m) && Enabled(State([p, q], m), e)
    ensures var out := Effect(State([p, q], m), e);
            e.t < 2 && Reached(iv, es', if e.t == 0 then out.pc else p, if e.t == 1 then out.pc else q, out.m)
  {
    hide Run, Runs, Effect;
    RunExtend(Start(2, iv), es, e);
    es' := es + [e];
    assert [p, q][0 := Effect(State([p, q], m), e).pc] == [Effect(State([p, q], m), e).pc, q];
    assert [p, q][1 := Effect(State([p, q], m), e).pc] == [p, Effect(State([p, q], m), e).pc];
  }

  lemma AtStart(iv: Iv)
    ensures Reached(iv, [], Idle, Idle, Memory(false, false, iv, 0, [], false, None, [], [], []))
  {
  }

  /** Two callers arrive before the random IV is there; the first takes INUSE. */
  lemma BothArrive(a: Request, b: Request, iv: Iv) returns (es: seq<Event>)
    ensures Reached(iv, es, FirstCheck(a), Enter(b), Memory(true, false, iv, 0, [], false, None, [], [], []))
  {
    hide Reached;
    AtStart(iv);
    var m := Memory(false, false, iv, 0, [], false, None, [], [], []);
    var turn, turn' := Move(0, None, 0, iv), Move(1, None, 0, iv);
    es := Then(iv, [], Idle, Idle, m, Call(0, a));
    es := Then(iv, es, First(a), Idle, m, Call(1, b));
    es := Then(iv, es, First(a), First(b), m, turn);
    es := Then(iv, es, FirstCheck(a), First(b), m.(inuse := true), turn');
  }

  /** The second caller queues its request while the first asks for random bytes. */
  lemma SecondQueues(a: Request, b: Request, iv: Iv) returns (es: seq<Event>)
    ensures Reached(iv, es, FirstRng(a), Done(EINPROGRESS, EINPROGRESS),
                    Memory(true, true, iv, 0, [b], false, None, [], [b], []))
  {
    hide Reached;
    es := BothArrive(a, b, iv);
    var m := Memory(true, false, iv, 0, [], false, None, [], [], []);
    var m' := m.(queue := [b], accepted := [b]);
    var turn, turn' := Move(0, None, 0, iv), Move(1, None, 0, iv);
    es := Then(iv, es, FirstCheck(a), Enter(b), m, turn');
    es := Then(iv, es, FirstCheck(a), Enqueue(b), m, turn');
    assert [] + [b] == [b];
    es := Then(iv, es, FirstCheck(a), Retake(EINPROGRESS), m', turn');
    es := Then(iv, es, FirstCheck(a), Done(EINPROGRESS, EINPROGRESS), m', turn);
  }

  /** The random number generator matters: whenever it fails on first use, a request queued meanwhile
      is stranded, with every thread idle, INUSE clear and no work pending. */
  lemma FailedRngStrands(a: Request, b: Request, iv: Iv, err: int) returns (es: seq<Event>)
    requires err != 0
    ensures Runs(Start(2, iv), es)
    ensures var s := Run(Start(2, iv), es);
            s.threads == [Idle, Idle] && !s.m.inuse && !s.m.pending && s.m.queue == [b]
  {
    hide Run, Runs;
    es := SecondQueues(a, b, iv);
    var m := Memory(true, true, iv, 0, [b], false, None, [], [b], []);
    var done := Done(EINPROGRESS, EINPROGRESS);
    var free := m.(inuse := false);
    es := Then(iv, es, FirstRng(a), done, m, Move(0, None, err, iv));
    es := Then(iv, es, FirstUnlock(a, err), done, m, Move(0, None, 0, iv));
    es := Then(iv, es, Done(err, err), done, free, Return(0));
    es := Then(iv, es, Idle, done, free, Return(1));
  }
}
