/** Tagged command queueing: a bitmap of tags, the index from tag to request, and each queue's list of
    busy requests.  The map may be shared; `foreign` stands for the requests of the other queues. */
module TagMap {
  import opened Options

  const EBUSY := 16

  /** tags gives each tagged request its tag; busy has the newest request first. */
  datatype Tags = Tags(
    bits: seq<bool>, index: seq<Option<nat>>, maxDepth: nat, tags: map<nat, nat>, busy: seq<nat>, foreign: set<nat>,
    dispatch: seq<nat>, shared: bool)

  /** real_max_depth. */
  function RealDepth(t: Tags): nat { |t.index| }

  /** find_next_zero_bit. */
  function NextZero(bits: seq<bool>, from: nat, to: nat): (r: nat)
    ensures from <= to <= |bits| ==> from <= r <= to
    ensures from <= to <= |bits| ==> forall i :: from <= i < r ==> bits[i]
    ensures from <= to <= |bits| && r < to ==> !bits[r]
    decreases if from < |bits| then |bits| - from else 0
  {
    if from >= to || from >= |bits| then to else if !bits[from] then from else NextZero(bits, from + 1, to)
  }

  /** A few tags are kept for synchronous requests. */
  function Offset(maxDepth: nat, sync: bool): nat { if sync then 0 else maxDepth / 4 }

  function Without(s: seq<nat>, x: nat): seq<nat> {
    if s == [] then [] else if s[0] == x then s[1..] else [s[0]] + Without(s[1..], x)
  }

  predicate NoDup(s: seq<nat>) { s == [] || (s[0] !in s[1..] && NoDup(s[1..])) }

  /** The tag is taken by a request of this queue, which leaves the dispatch queue. */
  function Taken(t: Tags, tag: nat, id: nat): Tags
    requires tag < |t.bits| && tag < |t.index|
  {
    t.(bits := t.bits[tag := true], index := t.index[tag := Some(id)], tags := t.tags[id := tag],
       busy := [id] + t.busy, dispatch := Without(t.dispatch, id))
  }

  /** The tag is taken by a request of another queue. */
  function TakenElsewhere(t: Tags, tag: nat, id: nat): Tags
    requires tag < |t.bits| && tag < |t.index|
  {
    t.(bits := t.bits[tag := true], index := t.index[tag := Some(id)], tags := t.tags[id := tag],
       foreign := t.foreign + {id})
  }

  /** blk_queue_end_tag. */
  function Ended(t: Tags, id: nat): Tags
    requires id in t.tags
  {
    var tag := t.tags[id];
    if tag >= RealDepth(t) || tag >= |t.bits| then t
    else t.(bits := t.bits[tag := false], index := t.index[tag := None], tags := t.tags - {id},
            busy := Without(t.busy, id), foreign := t.foreign - {id})
  }

  /** A bit is set exactly if the index holds a request with that tag, and every tagged request is found
      under its tag. */
  ghost predicate Indexed(bits: seq<bool>, index: seq<Option<nat>>, tags: map<nat, nat>) {
    && |bits| == |index|
    && (forall g :: 0 <= g < |index| ==> (bits[g] <==> index[g].Some?))
    && (forall g :: 0 <= g < |index| && index[g].Some? ==> index[g].value in tags && tags[index[g].value] == g)
    && (forall id :: id in tags ==> tags[id] < |index| && index[tags[id]] == Some(id))
  }

  /** Every tagged request is on exactly one queue's busy list, once. */
  ghost predicate Listed(tags: map<nat, nat>, busy: seq<nat>, foreign: set<nat>) {
    && NoDup(busy)
    && (forall id :: id in tags <==> id in busy || id in foreign)
    && (forall id :: id in busy ==> id !in foreign)
  }

  /** What holds between operations. */
  ghost predicate Good(t: Tags) {
    Indexed(t.bits, t.index, t.tags) && Listed(t.tags, t.busy, t.foreign) && t.maxDepth <= RealDepth(t)
  }

  lemma {:induction false} WithoutFacts(s: seq<nat>, x: nat)
    requires NoDup(s)
    ensures NoDup(Without(s, x)) && forall y :: y in Without(s, x) <==> y in s && y != x
  {
    if s != [] {
      assert forall y :: y in s <==> y == s[0] || y in s[1..];
      if s[0] != x {
        WithoutFacts(s[1..], x);
        var rest := Without(s[1..], x);
        assert ([s[0]] + rest)[1..] == rest;
      }
    }
  }

  /** No two tagged requests share a tag. */
  lemma TagsDistinct(t: Tags, a: nat, b: nat)
    requires Good(t) && a in t.tags && b in t.tags && a != b
    ensures t.tags[a] != t.tags[b]
  {
  }

  lemma IndexedEnd(bits: seq<bool>, index: seq<Option<nat>>, tags: map<nat, nat>, id: nat)
    requires Indexed(bits, index, tags) && id in tags
    ensures tags[id] < |index| && Indexed(bits[tags[id] := false], index[tags[id] := None], tags - {id})
  {
  }

  lemma ListedEnd(tags: map<nat, nat>, busy: seq<nat>, foreign: set<nat>, id: nat)
    requires Listed(tags, busy, foreign)
    ensures Listed(tags - {id}, Without(busy, id), foreign - {id})
  {
    hide Without, NoDup;
    WithoutFacts(busy, id);
  }

  lemma TakenKeeps(t: Tags, tag: nat, id: nat)
    requires Good(t) && tag < |t.index| && tag < |t.bits| && !t.bits[tag] && id !in t.tags
    ensures Good(Taken(t, tag, id)) && Good(TakenElsewhere(t, tag, id))
  {
  }

  lemma SameSize(t: Tags)
    requires Good(t)
    ensures |t.bits| == |t.index| && t.maxDepth <= |t.bits|
    ensures forall id :: id in t.tags ==> t.tags[id] < |t.bits| && t.bits[t.tags[id]]
  {
  }

  lemma EndedKeeps(t: Tags, id: nat)
    requires Good(t) && id in t.tags
    ensures var t' := Ended(t, id);
            && Good(t') && t'.tags == t.tags - {id} && |t'.bits| == |t.bits|
            && t.tags[id] < |t.bits| && !t'.bits[t.tags[id]]
            && t'.busy == Without(t.busy, id) && |t'.index| == |t.index|
  {
    SameSize(t);
    hide Indexed, Listed, Without;
    IndexedEnd(t.bits, t.index, t.tags, id);
    ListedEnd(t.tags, t.busy, t.foreign, id);
  }

  /** init_tag_map. */
  function Init(depth: nat, shared: bool): Tags {
    Tags(seq(depth, _ => false), seq(depth, _ => None), depth, map[], [], {}, [], shared)
  }

  lemma InitGood(depth: nat, shared: bool)
    ensures Good(Init(depth, shared))
  {
  }

  const BITS_PER_LONG := 64

  /** init_tag_map limits the depth to twice nr_requests. */
  function NewDepth(depth: nat, nrRequests: nat): nat { if depth > nrRequests * 2 then nrRequests * 2 else depth }

  /** The words of a bitmap. */
  function Words(depth: nat): nat { (depth + BITS_PER_LONG - 1) / BITS_PER_LONG }

  /** Both copies, of the index and of the words of the bitmap, end within arrays of the new size. */
  predicate CopyFits(depth: nat, size: nat) { depth <= size && Words(depth) <= Words(size) }

  /** An array of the new size after the old one was copied over its zeroes; what a copy that does not fit
      writes behind the array is not part of it. */
  function Copied<T>(s: seq<T>, size: nat, zero: T): (r: seq<T>)
    ensures |r| == size
  {
    if |s| <= size then s + seq(size - |s|, _ => zero) else s[..size]
  }

  /** The map has to be allocated anew, and may be. */
  predicate Grows(t: Tags, depth: nat) { depth > RealDepth(t) && !t.shared }

  /** blk_queue_resize_tags: within the allocated size only max_depth changes; growing copies the old map into
      one of the size init_tag_map allows, which may be smaller than the old one. */
  function Resized(t: Tags, depth: nat, nrRequests: nat): Tags {
    if depth <= RealDepth(t) then t.(maxDepth := depth)
    else if t.shared then t
    else
      var size := NewDepth(depth, nrRequests);
      t.(bits := Copied(t.bits, size, false), index := Copied(t.index, size, None), maxDepth := size)
  }

  /** Every tag in flight is below the depth. */
  ghost predicate InFlightBelow(t: Tags, depth: nat) { forall id :: id in t.tags ==> t.tags[id] < depth }

  /** Resizing sets the depth, which is at most twice nr_requests for a new map, and keeps the map whole exactly if it
      need not grow, or every tag in flight is below the depth init_tag_map allows. */
  lemma ResizedKeeps(t: Tags, depth: nat, nrRequests: nat)
    requires Good(t)
    ensures var t' := Resized(t, depth, nrRequests);
            && t'.tags == t.tags && t'.busy == t.busy && t'.foreign == t.foreign
            && t'.maxDepth == (if depth <= RealDepth(t) then depth else if t.shared then t.maxDepth
                               else if depth <= 2 * nrRequests then depth else 2 * nrRequests)
            && RealDepth(t') == (if Grows(t, depth) then t'.maxDepth else RealDepth(t))
            && (Good(t') <==> (Grows(t, depth) ==> InFlightBelow(t, NewDepth(depth, nrRequests))))
  {
    var t' := Resized(t, depth, nrRequests);
    if Grows(t, depth) {
      var size := NewDepth(depth, nrRequests);
      if InFlightBelow(t, size) {
        assert forall g :: 0 <= g < size ==> t'.index[g] == if g < |t.index| then t.index[g] else None;
        assert forall g :: 0 <= g < size ==> t'.bits[g] == (g < |t.bits| && t.bits[g]);
      } else {
        assert |t'.index| == size;
      }
    }
  }

  /** Growing is safe exactly if the depth that init_tag_map allows is no smaller than the old one: then, and only
      then, the copy stays in bounds, and every map of the old depth keeps all its tags in flight. */
  lemma GrowthSafe(t: Tags, depth: nat, nrRequests: nat)
    requires Good(t) && Grows(t, depth)
    ensures CopyFits(RealDepth(t), NewDepth(depth, nrRequests)) <==> NewDepth(depth, nrRequests) >= RealDepth(t)
    ensures (forall u: Tags :: Good(u) && !u.shared && RealDepth(u) == RealDepth(t) ==>
                                 Good(Resized(u, depth, nrRequests)))
            <==> NewDepth(depth, nrRequests) >= RealDepth(t)
  {
    hide Good, Resized;
    var size := NewDepth(depth, nrRequests);
    if size >= RealDepth(t) {
      forall u: Tags | Good(u) && !u.shared && RealDepth(u) == RealDepth(t)
        ensures Good(Resized(u, depth, nrRequests))
      {
        SameSize(u);
        ResizedKeeps(u, depth, nrRequests);
      }
    } else {
      InitGood(RealDepth(t), false);
      TakenKeeps(Init(RealDepth(t), false), size, 0);
      var u := Taken(Init(RealDepth(t), false), size, 0);
      assert u.tags[0] == size;
      ResizedKeeps(u, depth, nrRequests);
    }
  }

  function Reversed(s: seq<nat>): seq<nat> { if s == [] then [] else Reversed(s[1..]) + [s[0]] }

  /** One blk_requeue_request with no barrier in progress: the tag ends and the request goes to the front. */
  function Requeued(t: Tags, id: nat): Tags
    requires id in t.tags
  {
    var t := Ended(t, id);
    t.(dispatch := [id] + t.dispatch)
  }

  /** Where the invalidation stands: the requests before `rest` have gone back. */
  ghost predicate Requeueing(was: Tags, t: Tags, gone: seq<nat>, rest: seq<nat>) {
    && Good(t) && t.busy == rest && was.busy == gone + rest
    && t.dispatch == Reversed(gone) + was.dispatch
    && t.foreign == was.foreign && |t.index| == |was.index|
    && (forall id :: id in t.tags ==> id in was.tags && t.tags[id] == was.tags[id])
  }

  lemma {:induction false} ReversedMore(s: seq<nat>, x: nat)
    ensures Reversed(s + [x]) == [x] + Reversed(s)
  {
    if s == [] {
      assert s + [x] == [x];
    } else {
      ReversedMore(s[1..], x);
      assert (s + [x])[1..] == s[1..] + [x] && (s + [x])[0] == s[0];
    }
  }

  lemma RequeueStep(was: Tags, t: Tags, gone: seq<nat>, rest: seq<nat>)
    requires Requeueing(was, t, gone, rest) && rest != []
    ensures rest[0] in t.tags && Requeueing(was, Requeued(t, rest[0]), gone + [rest[0]], rest[1..])
  {
    hide NoDup;
    var id := rest[0];
    assert id in t.busy;
    EndedKeeps(t, id);
    ReversedMore(gone, id);
    assert gone + [id] + rest[1..] == gone + rest;
    assert [id] + (Reversed(gone) + was.dispatch) == [id] + Reversed(gone) + was.dispatch;
    DispatchOnly(Ended(t, id), [id] + t.dispatch);
  }

  lemma DispatchOnly(t: Tags, dispatch: seq<nat>)
    requires Good(t)
    ensures Good(t.(dispatch := dispatch))
  {
  }

  /** blk_queue_start_tag undisturbed: the first free tag of the range, or none. */
  function Started(t: Tags, id: nat, sync: bool): Tags
    requires |t.bits| == |t.index| >= t.maxDepth
  {
    var tag := NextZero(t.bits, Offset(t.maxDepth, sync), t.maxDepth);
    if tag >= t.maxDepth then t else Taken(t, tag, id)
  }

  /** A synchronous request gets the lowest free tag of all, and none only if every tag is taken.  The lowest quarter of
      the tags is kept from asynchronous ones: they get the lowest free tag of the others, and none exactly if those
      are taken, whatever is free below. */
  lemma StartedExact(t: Tags, id: nat, sync: bool)
    requires Good(t) && id !in t.tags
    ensures |t.bits| == |t.index| >= t.maxDepth
    ensures var t' := Started(t, id, sync);
            && (sync ==> (id !in t'.tags <==> forall g :: 0 <= g < t.maxDepth ==> t.bits[g]))
            && (!sync ==> (id !in t'.tags <==> forall g :: t.maxDepth / 4 <= g < t.maxDepth ==> t.bits[g]))
            && (id !in t'.tags ==> t' == t)
            && (id in t'.tags ==>
                  var g := t'.tags[id];
                  && g < t.maxDepth && !t.bits[g] && t' == Taken(t, g, id) && (!sync ==> g >= t.maxDepth / 4)
                  && forall f :: (if sync then 0 else t.maxDepth / 4) <= f < g ==> t.bits[f])
  {
    SameSize(t);
    hide Good, Without;
    var tag := NextZero(t.bits, Offset(t.maxDepth, sync), t.maxDepth);
    if tag < t.maxDepth {
      assert Taken(t, tag, id).tags[id] == tag;
    }
  }

  datatype Event =
    | Start(id: nat, sync: bool)
    | Elsewhere(tag: nat, id: nat)
    | End(id: nat)
    | Resize(depth: nat, nrRequests: nat)
    /** A request is put on the dispatch queue. */
    | Arrive(id: nat)
    /** A tagged request goes back to it. */
    | Requeue(id: nat)

  ghost predicate Legal(t: Tags, e: Event) {
    && |t.bits| == |t.index| >= t.maxDepth
    && match e
       case Start(id, _) => id !in t.tags
       case Elsewhere(tag, id) => tag < |t.bits| && !t.bits[tag] && id !in t.tags && id !in t.dispatch
       case End(id) => id in t.tags
       case Resize(_, _) => true
       case Arrive(id) => id !in t.tags && id !in t.dispatch
       case Requeue(id) => id in t.busy && id in t.tags
  }

  /** No growth is cut below the tags in flight. */
  ghost predicate Fitting(t: Tags, e: Event) {
    e.Resize? && Grows(t, e.depth) ==> InFlightBelow(t, NewDepth(e.depth, e.nrRequests))
  }

  function Step(t: Tags, e: Event): Tags
    requires Legal(t, e)
  {
    match e
    case Start(id, sync) => Started(t, id, sync)
    case Elsewhere(tag, id) => TakenElsewhere(t, tag, id)
    case End(id) => Ended(t, id)
    case Resize(depth, nr) => Resized(t, depth, nr)
    case Arrive(id) => t.(dispatch := t.dispatch + [id])
    case Requeue(id) => Requeued(t, id)
  }

  /** Every operation keeps the map whole, except a growth that is cut below a tag in flight. */
  lemma StepKeeps(t: Tags, e: Event)
    requires Good(t) && Legal(t, e)
    ensures Good(Step(t, e)) <==> Fitting(t, e)
  {
    hide Indexed, Listed, Taken, TakenElsewhere, Ended, Resized;
    match e
    case Start(id, sync) => {
      var tag := NextZero(t.bits, Offset(t.maxDepth, sync), t.maxDepth);
      if tag < t.maxDepth {
        TakenKeeps(t, tag, id);
      }
    }
    case Elsewhere(tag, id) => TakenKeeps(t, tag, id);
    case End(id) => EndedKeeps(t, id);
    case Resize(depth, nr) => ResizedKeeps(t, depth, nr);
    case Arrive(id) => DispatchOnly(t, t.dispatch + [id]);
    case Requeue(id) => {
      EndedKeeps(t, id);
      DispatchOnly(Ended(t, id), [id] + Ended(t, id).dispatch);
    }
  }

  /** A request is on the dispatch queue or tagged, not both, and on the queue once. */
  ghost predicate Once(t: Tags) { NoDup(t.dispatch) && forall id :: id in t.dispatch ==> id !in t.tags }

  lemma EndedDispatch(t: Tags, id: nat)
    requires Good(t) && id in t.tags
    ensures Ended(t, id).dispatch == t.dispatch && Ended(t, id).tags == t.tags - {id}
  {
    EndedKeeps(t, id);
  }

  lemma {:induction false} NoDupAppend(s: seq<nat>, x: nat)
    requires NoDup(s) && x !in s
    ensures NoDup(s + [x])
  {
    if s == [] {
      assert s + [x] == [x];
    } else {
      NoDupAppend(s[1..], x);
      assert (s + [x])[1..] == s[1..] + [x];
    }
  }

  lemma StepOnce(t: Tags, e: Event)
    requires Good(t) && Once(t) && Legal(t, e)
    ensures Once(Step(t, e))
  {
    hide Good, Ended, Without;
    match e
    case Start(id, sync) => WithoutFacts(t.dispatch, id);
    case Elsewhere(tag, id) =>
    case End(id) => EndedDispatch(t, id);
    case Resize(depth, nr) =>
    case Arrive(id) => NoDupAppend(t.dispatch, id);
    case Requeue(id) => {
      EndedDispatch(t, id);
      assert ([id] + t.dispatch)[1..] == t.dispatch;
    }
  }

  ghost predicate Runs(t: Tags, es: seq<Event>)
    decreases |es|
  {
    es == [] || (Legal(t, es[0]) && Runs(Step(t, es[0]), es[1..]))
  }

  ghost function Run(t: Tags, es: seq<Event>): Tags
    requires Runs(t, es)
    decreases |es|
  {
    if es == [] then t else Run(Step(t, es[0]), es[1..])
  }

  ghost predicate AllFitting(t: Tags, es: seq<Event>)
    requires Runs(t, es)
    decreases |es|
  {
    es == [] || (Fitting(t, es[0]) && AllFitting(Step(t, es[0]), es[1..]))
  }

  lemma {:induction false} RunGood(t: Tags, es: seq<Event>)
    requires Good(t) && Once(t) && Runs(t, es) && AllFitting(t, es)
    ensures Good(Run(t, es)) && Once(Run(t, es))
    decreases |es|
  {
    hide Good, Once, Legal, Step, Fitting;
    if es != [] {
      StepKeeps(t, es[0]);
      StepOnce(t, es[0]);
      RunGood(Step(t, es[0]), es[1..]);
    }
  }

  /** After every run from a new map in which no growth was cut short, no two tagged requests share a tag, a bit is
      set exactly if the index holds a request with that tag, and no request is tagged and on the dispatch queue. */
  lemma TagsNeverShared(depth: nat, shared: bool, es: seq<Event>, a: nat, b: nat)
    requires Runs(Init(depth, shared), es) && AllFitting(Init(depth, shared), es)
    ensures var t := Run(Init(depth, shared), es);
            && Indexed(t.bits, t.index, t.tags)
            && (a in t.tags && b in t.tags && a != b ==> t.tags[a] != t.tags[b])
            && !(a in t.tags && a in t.dispatch)
  {
    hide Run, Runs, AllFitting;
    RunGood(Init(depth, shared), es);
    var t := Run(Init(depth, shared), es);
    if a in t.tags && b in t.tags && a != b {
      TagsDistinct(t, a, b);
    }
  }

  /** Synchronous requests from..to, started one after the other. */
  function Starts(from: nat, to: nat): seq<Event>
    decreases if from < to then to - from else 0
  {
    if from >= to then [] else [Start(from, true)] + Starts(from + 1, to)
  }

  /** The map in which request i holds tag i, for the first n requests. */
  ghost predicate Filled(t: Tags, n: nat) {
    && Good(t) && n <= t.maxDepth
    && (forall i :: i in t.tags ==> i < n && t.tags[i] == i)
    && forall i: nat :: i < n ==> i in t.tags
  }

  lemma FilledMore(t: Tags, n: nat)
    requires Filled(t, n) && n < t.maxDepth
    ensures Legal(t, Start(n, true)) && Filled(Step(t, Start(n, true)), n + 1)
    ensures RealDepth(Step(t, Start(n, true))) == RealDepth(t) && Step(t, Start(n, true)).maxDepth == t.maxDepth
    ensures Step(t, Start(n, true)).shared == t.shared
  {
    hide Listed;
    SameSize(t);
    var tag := NextZero(t.bits, 0, t.maxDepth);
    forall i | 0 <= i < n ensures t.bits[i] {
      assert i in t.tags && t.tags[i] == i;
    }
    assert !t.bits[n] && tag == n;
    TakenKeeps(t, tag, n);
  }

  lemma {:induction false} StartsFill(t: Tags, from: nat, to: nat)
    requires Filled(t, from) && from <= to <= t.maxDepth
    ensures Runs(t, Starts(from, to)) && Filled(Run(t, Starts(from, to)), to)
    ensures RealDepth(Run(t, Starts(from, to))) == RealDepth(t) && Run(t, Starts(from, to)).shared == t.shared
    decreases if from < to then to - from else 0
  {
    hide Filled, Step, Legal;
    if from < to {
      FilledMore(t, from);
      StartsFill(Step(t, Start(from, true)), from + 1, to);
      assert Starts(from, to)[1..] == Starts(from + 1, to);
    }
  }

  /** A growth cut below the old depth loses a tag: after enough requests were started, one of them holds a tag
      the new map does not have, and blk_queue_end_tag leaves it tagged. */
  lemma GrowthLoses(before: nat, depth: nat, nrRequests: nat)
    requires NewDepth(depth, nrRequests) < before < depth
    ensures var es := Starts(0, NewDepth(depth, nrRequests) + 1);
            && Runs(Init(before, false), es)
            && var t := Run(Init(before, false), es); var t' := Resized(t, depth, nrRequests);
               && Good(t) && !CopyFits(RealDepth(t), RealDepth(t'))
               && exists id :: id in t'.tags && t'.tags[id] >= RealDepth(t') && Ended(t', id) == t'
  {
    hide Run, Runs, Starts;
    var size := NewDepth(depth, nrRequests);
    StartsFill(Init(before, false), 0, size + 1);
    var t := Run(Init(before, false), Starts(0, size + 1));
    assert size in t.tags;
  }

  /** A map of depth 200, made when nr_requests was at least 100, and nr_requests 4 when it is to grow to 201:
      the new map has 8 tags, and 200 index entries are copied into it. */
  lemma GrowthFrom200()
    ensures NewDepth(201, 4) == 8 && !CopyFits(200, 8)
    ensures var es := Starts(0, 9);
            && Runs(Init(200, false), es)
            && var t := Run(Init(200, false), es); var t' := Resized(t, 201, 4);
               && Good(t) && RealDepth(t) == 200 && RealDepth(t') == 8
               && exists id :: id in t'.tags && t'.tags[id] >= 8 && Ended(t', id) == t'
  {
    hide Run, Runs, Starts;
    StartsFill(Init(200, false), 0, 9);
    GrowthLoses(200, 201, 4);
  }

  /** What another queue does between a search and its test-and-set: its own test-and-set, which takes the tag if
      it is free, or the end of one of its requests. */
  datatype Race = Take(tag: nat, id: nat) | Free(id: nat)

  function Raced(t: Tags, r: Race): Tags {
    match r
    case Take(tag, id) =>
      if tag < |t.bits| && tag < |t.index| && !t.bits[tag] && id !in t.tags then TakenElsewhere(t, tag, id) else t
    case Free(id) => if id in t.foreign && id in t.tags then Ended(t, id) else t
  }

  function RacedAll(t: Tags, rs: seq<Race>): Tags
    decreases |rs|
  {
    if rs == [] then t else RacedAll(Raced(t, rs[0]), rs[1..])
  }

  /** The map when the search number k begins, races[i] being what happens after search i. */
  function After(t: Tags, races: seq<seq<Race>>, k: nat): Tags {
    if k == 0 then t
    else if k > |races| then After(t, races, k - 1)
    else RacedAll(After(t, races, k - 1), races[k - 1])
  }

  predicate OnlyTakes(rs: seq<Race>) { forall i :: 0 <= i < |rs| ==> rs[i].Take? }

  predicate Others(rs: seq<Race>, id: nat) { forall i :: 0 <= i < |rs| && rs[i].Take? ==> rs[i].id != id }

  /** What the other queues leave alone: this queue's tags and list, and the size of the map. */
  ghost predicate Alongside(t: Tags, t': Tags) {
    && Good(t') && t'.maxDepth == t.maxDepth && |t'.bits| == |t.bits| && t'.busy == t.busy
    && (forall x :: x in t.busy ==> x in t.tags && x in t'.tags && t'.tags[x] == t.tags[x])
  }

  /** Without frees the set of taken tags only grows. */
  ghost predicate Grown(t: Tags, t': Tags) {
    && |t'.bits| == |t.bits|
    && (forall g :: 0 <= g < |t.bits| && t.bits[g] ==> t'.bits[g])
    && forall x :: x in t.tags ==> x in t'.tags && t'.tags[x] == t.tags[x]
  }

  lemma RacedKeeps(t: Tags, r: Race)
    requires Good(t)
    ensures Alongside(t, Raced(t, r))
    ensures r.Take? ==> Grown(t, Raced(t, r))
    ensures forall id :: id !in t.tags && (r.Take? ==> r.id != id) ==> id !in Raced(t, r).tags
  {
    SameSize(t);
    BusyTagged(t);
    match r
    case Take(tag, id) => {
      if tag < |t.bits| && !t.bits[tag] && id !in t.tags {
        TakenKeeps(t, tag, id);
      }
    }
    case Free(id) => {
      if id in t.foreign {
        EndedKeeps(t, id);
        NotListed(t.busy, id);
      }
    }
  }

  lemma BusyTagged(t: Tags)
    requires Good(t)
    ensures forall x :: x in t.busy ==> x in t.tags && x !in t.foreign
    ensures forall x :: x in t.foreign ==> x in t.tags && x !in t.busy
  {
  }

  lemma {:induction false} NotListed(s: seq<nat>, x: nat)
    requires x !in s
    ensures Without(s, x) == s
  {
    if s != [] {
      NotListed(s[1..], x);
      assert s == [s[0]] + s[1..];
    }
  }

  lemma {:induction false} RacedAllKeeps(t: Tags, rs: seq<Race>, id: nat)
    requires Good(t) && id !in t.tags && Others(rs, id)
    ensures Alongside(t, RacedAll(t, rs)) && id !in RacedAll(t, rs).tags
    ensures OnlyTakes(rs) ==> Grown(t, RacedAll(t, rs))
    decreases |rs|
  {
    hide Raced, Good;
    BusyTagged(t);
    if rs != [] {
      RacedKeeps(t, rs[0]);
      RacedAllKeeps(Raced(t, rs[0]), rs[1..], id);
    }
  }

  lemma StillAlongside(was: Tags, t: Tags, rs: seq<Race>, id: nat)
    requires Good(was) && Alongside(was, t) && id !in t.tags && Others(rs, id)
    ensures Alongside(was, RacedAll(t, rs)) && id !in RacedAll(t, rs).tags
    ensures Grown(was, t) && OnlyTakes(rs) ==> Grown(was, RacedAll(t, rs))
  {
    hide RacedAll, Good;
    RacedAllKeeps(t, rs, id);
  }

  predicate NoFrees(races: seq<seq<Race>>) { forall i :: 0 <= i < |races| ==> OnlyTakes(races[i]) }

  /** What a start leaves as it was: this queue's tags, and the other queues' ones too if none of them was freed
      meanwhile, in which case the tag was free from the beginning. */
  ghost predicate Kept(was: Tags, t: Tags, id: nat, taken: Option<nat>, noFrees: bool) {
    && Good(t) && t.maxDepth == was.maxDepth && (id in t.tags <==> taken.Some?)
    && t.busy == (if taken.Some? then [id] + was.busy else was.busy)
    && (forall x :: x in was.busy ==> x in was.tags && x in t.tags && t.tags[x] == was.tags[x])
    && (noFrees ==>
          && (taken.Some? ==> taken.value < |was.bits| && !was.bits[taken.value])
          && forall x :: x in was.tags ==> x in t.tags && t.tags[x] == was.tags[x])
  }

  /** The tag is taken in a map that the other queues have changed meanwhile. */
  lemma TakenAlongside(was: Tags, t: Tags, tag: nat, id: nat, noFrees: bool)
    requires Good(was) && Alongside(was, t) && tag < |t.bits| && !t.bits[tag] && id !in t.tags
    requires noFrees ==> Grown(was, t)
    ensures tag < |t.bits| == |t.index| && Kept(was, Taken(t, tag, id), id, Some(tag), noFrees)
  {
    SameSize(t);
    hide Without, NoDup, Good;
    TakenKeeps(t, tag, id);
  }

  lemma KeptAlongside(was: Tags, t: Tags, id: nat, noFrees: bool)
    requires Alongside(was, t) && id !in t.tags && (noFrees ==> Grown(was, t))
    ensures Kept(was, t, id, None, noFrees) && t.maxDepth == was.maxDepth
  {
  }

  lemma AlongsideSize(was: Tags, t: Tags)
    requires Alongside(was, t)
    ensures Good(t) && |t.bits| == |was.bits| && t.maxDepth == was.maxDepth <= |t.bits| == |t.index|
  {
  }

  lemma AlongsideSelf(t: Tags)
    requires Good(t)
    ensures Alongside(t, t) && Grown(t, t)
  {
    SameSize(t);
    BusyTagged(t);
  }

  lemma AfterSteps(t: Tags, races: seq<seq<Race>>, k: nat)
    ensures After(t, races, 0) == t
    ensures After(t, races, k + 1) ==
            if k < |races| then RacedAll(After(t, races, k), races[k]) else After(t, races, k)
  {
  }

  lemma OffsetWithin(maxDepth: nat, sync: bool)
    ensures Offset(maxDepth, sync) <= maxDepth && Offset(maxDepth, sync) == if sync then 0 else maxDepth / 4
  {
  }

  lemma NoFreesAt(races: seq<seq<Race>>, i: nat)
    requires i < |races|
    ensures NoFrees(races) ==> OnlyTakes(races[i])
  {
  }

  lemma QuietStart(t: Tags, id: nat, sync: bool, tag: nat)
    requires |t.bits| == |t.index| >= t.maxDepth
    ensures tag == NextZero(t.bits, Offset(t.maxDepth, sync), t.maxDepth) ==>
              Started(t, id, sync) == if tag < t.maxDepth then Taken(t, tag, id) else t
  {
  }

  lemma KeptDepth(was: Tags, t: Tags, id: nat, taken: Option<nat>, noFrees: bool)
    requires Kept(was, t, id, taken, noFrees)
    ensures t.maxDepth == was.maxDepth
  {
  }

  /** The map as the block layer updates it. */
  class Map {
    var t: Tags

    /** find_next_zero_bit as a scan. */
    method FindZero(from: nat, to: nat) returns (r: nat)
      requires from <= to <= |t.bits|
      ensures r == NextZero(t.bits, from, to)
    {
      r := from;
      while r < to && t.bits[r]
        invariant from <= r <= to && NextZero(t.bits, from, to) == NextZero(t.bits, r, to)
      {
        r := r + 1;
      }
    }

    /** blk_queue_start_tag against the other queues of a shared map.  With k the last search: the tag is the first
        free one it saw, and it was still free when it was taken; or the search saw none, and nothing is taken. */
    method StartTag(id: nat, sync: bool, races: seq<seq<Race>>) returns (full: bool, tag: nat, ghost k: nat)
      requires Good(t) && id !in t.tags
      requires forall i :: 0 <= i < |races| ==> Others(races[i], id)
      modifies this
      ensures Kept(old(t), t, id, if full then None else Some(tag), NoFrees(races))
      ensures tag == NextZero(After(old(t), races, k).bits, Offset(t.maxDepth, sync), t.maxDepth)
      ensures full ==>
                && t == After(old(t), races, k) && t.maxDepth <= |t.bits|
                && forall g :: (if sync then 0 else t.maxDepth / 4) <= g < t.maxDepth ==> t.bits[g]
      ensures !full ==>
                var at := After(old(t), races, k + 1);
                && (sync || t.maxDepth / 4 <= tag) && tag < t.maxDepth && tag < |at.bits| == |at.index|
                && !at.bits[tag] && t == Taken(at, tag, id)
      ensures races == [] ==> |old(t).bits| == |old(t).index| >= old(t).maxDepth && t == Started(old(t), id, sync)
    {
      hide *;
      AlongsideSelf(t);
      OffsetWithin(t.maxDepth, sync);
      AfterSteps(t, races, 0);
      var max := t.maxDepth;
      var offset := Offset(max, sync);
      k := 0;
      var i := 0;
      while true
        invariant 0 <= i == k <= |races| && t == After(old(t), races, k)
        invariant id !in t.tags && Alongside(old(t), t) && (NoFrees(races) ==> Grown(old(t), t))
        decreases |races| - i
      {
        AlongsideSize(old(t), t);
        AfterSteps(old(t), races, k);
        tag := FindZero(offset, max);
        QuietStart(t, id, sync, tag);
        if tag >= max {
          KeptAlongside(old(t), t, id, NoFrees(races));
          full := true;
          return;
        }
        if i < |races| {
          StillAlongside(old(t), t, races[i], id);
          NoFreesAt(races, i);
          OthersAct(races[i]);
          AlongsideSize(old(t), t);
          if t.bits[tag] {
            i, k := i + 1, k + 1;
            continue;
          }
        }
        TakenAlongside(old(t), t, tag, id, NoFrees(races));
        t := Taken(t, tag, id);
        KeptDepth(old(t), t, id, Some(tag), NoFrees(races));
        full := false;
        return;
      }
    }

    /** The other queues' operations, in order. */
    method OthersAct(rs: seq<Race>)
      modifies this
      ensures t == RacedAll(old(t), rs)
    {
      var i := 0;
      while i < |rs|
        invariant 0 <= i <= |rs| && RacedAll(old(t), rs) == RacedAll(t, rs[i..])
      {
        t := Raced(t, rs[i]);
        i := i + 1;
      }
    }

    /** blk_queue_end_tag. */
    method EndTag(id: nat)
      requires Good(t) && id in t.tags
      modifies this
      ensures t == Ended(old(t), id) && Good(t) && id !in t.tags && !t.bits[old(t).tags[id]]
    {
      EndedKeeps(t, id);
      hide Indexed, Listed, Without;
      var tag := t.tags[id];
      if tag >= |t.index| {
        return;
      }
      t := t.(busy := Without(t.busy, id), foreign := t.foreign - {id}, tags := t.tags - {id});
      t := t.(index := t.index[tag := None]);
      if !t.bits[tag] {
        return;
      }
      t := t.(bits := t.bits[tag := false]);
    }

    /** blk_queue_resize_tags; `overrun` counts the index entries that are copied past the end of the new index.
        The request's tags all stay valid exactly if no growth is cut below one. */
    method ResizeTags(depth: nat, nrRequests: nat) returns (err: int, overrun: nat)
      requires Good(t)
      modifies this
      ensures t == Resized(old(t), depth, nrRequests) && t.tags == old(t).tags
      ensures err == if depth > RealDepth(old(t)) && t.shared then -EBUSY else 0
      ensures Good(t) <==> (Grows(old(t), depth) ==> InFlightBelow(old(t), RealDepth(t)))
      ensures overrun == 0 <==> (Grows(old(t), depth) ==> CopyFits(RealDepth(old(t)), NewDepth(depth, nrRequests)))
    {
      ResizedKeeps(t, depth, nrRequests);
      SameSize(t);
      hide Good;
      overrun := 0;
      if depth <= |t.index| {
        t := t.(maxDepth := depth);
        return 0, 0;
      }
      if t.shared {
        return -EBUSY, 0;
      }
      var index, bits, oldDepth := t.index, t.bits, |t.index|;
      var size := NewDepth(depth, nrRequests);
      t := t.(index := seq(size, _ => None), bits := seq(size, _ => false), maxDepth := size);
      var inside := if oldDepth <= size then oldDepth else size;
      t := t.(index := index[..inside] + t.index[inside..], bits := bits[..inside] + t.bits[inside..]);
      assert t.index == Copied(index, size, None) && t.bits == Copied(bits, size, false);
      return 0, oldDepth - inside;
    }

    /** blk_queue_invalidate_tags: every tag of the queue is freed, and its requests stand ahead of the dispatch
        queue in the order they were issued; the other queues' tags stay. */
    method InvalidateTags()
      requires Good(t)
      modifies this
      ensures Good(t) && t.busy == [] && t.dispatch == Reversed(old(t).busy) + old(t).dispatch
      ensures t.foreign == old(t).foreign && t.tags.Keys == old(t).foreign
      ensures forall id :: id in t.tags ==> id in old(t).tags && t.tags[id] == old(t).tags[id]
    {
      hide NoDup, Without, Good;
      ghost var was, gone := t, [];
      var rest := t.busy;
      assert gone + rest == rest && Reversed(gone) + was.dispatch == was.dispatch;
      while rest != []
        invariant Requeueing(was, t, gone, rest)
        decreases |rest|
      {
        RequeueStep(was, t, gone, rest);
        gone := gone + [rest[0]];
        t := Requeued(t, rest[0]);
        rest := rest[1..];
      }
      assert gone + rest == gone;
      OnlyForeign(t);
    }
  }

  lemma OnlyForeign(t: Tags)
    requires Good(t) && t.busy == []
    ensures t.tags.Keys == t.foreign
  {
  }
}
