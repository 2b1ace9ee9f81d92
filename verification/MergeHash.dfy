/** The elevator's hash of mergeable requests by end sector, and the one-hit merge cache. */
module MergeHash {
  import opened Options

  datatype Request = Request(sector: nat, sectors: nat, mergeable: bool)

  /** The hash chains, the requests, which of them the scheduler holds, last_merge and nr_sorted. */
  datatype Table = Table(
    chains: seq<seq<nat>>, rqs: map<nat, Request>, held: set<nat>, lastMerge: Option<nat>, nrSorted: int)

  const ENTRIES := 64
  const GOLDEN_RATIO_PRIME := 0x9e370001
  const WORD := 0x1_0000_0000

  /** ELV_HASH_FN with 32-bit longs: hash_long of the 4 KiB block, top six bits. */
  function Slot(sector: nat): nat {
    (sector / 8 * GOLDEN_RATIO_PRIME) % WORD / (WORD / ENTRIES)
  }

  lemma SlotInRange(sector: nat)
    ensures Slot(sector) < ENTRIES
  {
  }

  function EndSector(r: Request): nat { r.sector + r.sectors }

  function KeyOf(t: Table, id: nat): nat { if id in t.rqs then EndSector(t.rqs[id]) else 0 }

  predicate Mergeable(t: Table, id: nat) { id in t.rqs && t.rqs[id].mergeable }

  function Without(chain: seq<nat>, id: nat): seq<nat> {
    if chain == [] then [] else if chain[0] == id then chain[1..] else [chain[0]] + Without(chain[1..], id)
  }

  predicate NoDup(chain: seq<nat>) { chain == [] || (chain[0] !in chain[1..] && NoDup(chain[1..])) }

  lemma {:induction false} WithoutFacts(chain: seq<nat>, id: nat)
    requires NoDup(chain)
    ensures NoDup(Without(chain, id))
    ensures forall x :: x in Without(chain, id) <==> x in chain && x != id
  {
    if chain != [] {
      assert forall x :: x in chain <==> x == chain[0] || x in chain[1..];
      if chain[0] != id {
        WithoutFacts(chain[1..], id);
        var rest := Without(chain[1..], id);
        assert ([chain[0]] + rest)[1..] == rest;
      }
    }
  }

  /** hlist_del: the request leaves whatever chain it is in. */
  function Unhashed(chains: seq<seq<nat>>, id: nat): seq<seq<nat>> {
    seq(|chains|, i requires 0 <= i < |chains| => Without(chains[i], id))
  }

  /** elv_rqhash_add: to the head of the chain of its current end sector. */
  function Hashed(t: Table, id: nat): seq<seq<nat>>
    requires |t.chains| == ENTRIES
  {
    SlotInRange(KeyOf(t, id));
    var b := Slot(KeyOf(t, id));
    t.chains[b := [id] + t.chains[b]]
  }

  /** elv_rqhash_reposition. */
  function Repositioned(t: Table, id: nat): Table
    requires |t.chains| == ENTRIES
  {
    var t := t.(chains := Unhashed(t.chains, id));
    t.(chains := Hashed(t, id))
  }

  /** Every held mergeable request is in the chain of its end sector, and the chains hold nothing but held
      requests there, each once; requests in `stale` have grown and await their repositioning. */
  ghost predicate Part(t: Table, stale: set<nat>) {
    && |t.chains| == ENTRIES && t.held <= t.rqs.Keys
    && (t.lastMerge.Some? ==> t.lastMerge.value in t.held) && t.nrSorted == |t.held|
    && (forall b :: 0 <= b < ENTRIES ==> NoDup(t.chains[b]))
    && (forall b, id :: 0 <= b < ENTRIES && id in t.chains[b] ==>
          id in t.held && (id in stale || b == Slot(KeyOf(t, id))))
    && (forall id :: id in t.held && Mergeable(t, id) && id !in stale ==>
          Slot(KeyOf(t, id)) < ENTRIES && id in t.chains[Slot(KeyOf(t, id))])
  }

  ghost predicate Good(t: Table) { Part(t, {}) }

  lemma UnhashedFacts(chains: seq<seq<nat>>, id: nat)
    requires forall b :: 0 <= b < |chains| ==> NoDup(chains[b])
    ensures forall b :: 0 <= b < |chains| ==> NoDup(Unhashed(chains, id)[b])
    ensures forall b, x :: 0 <= b < |chains| ==> (x in Unhashed(chains, id)[b] <==> x in chains[b] && x != id)
  {
    forall b | 0 <= b < |chains|
      ensures NoDup(Unhashed(chains, id)[b])
      ensures forall x :: x in Unhashed(chains, id)[b] <==> x in chains[b] && x != id
    {
      WithoutFacts(chains[b], id);
    }
  }

  /** elv_insert with ELEVATOR_INSERT_SORT. */
  function Inserted(t: Table, id: nat, r: Request): Table
    requires |t.chains| == ENTRIES
  {
    var t := t.(rqs := t.rqs[id := r], held := t.held + {id}, nrSorted := t.nrSorted + 1);
    if r.mergeable
    then t.(chains := Hashed(t, id), lastMerge := if t.lastMerge.None? then Some(id) else t.lastMerge)
    else t
  }

  /** elv_dispatch_sort and elv_dispatch_add_tail. */
  function Dispatched(t: Table, id: nat): Table {
    Table(Unhashed(t.chains, id), t.rqs, t.held - {id}, if t.lastMerge == Some(id) then None else t.lastMerge,
          t.nrSorted - 1)
  }

  /** A merge function finds the request full: REQ_NOMERGE. */
  function Closed(t: Table, id: nat): Table
    requires id in t.rqs
  {
    t.(rqs := t.rqs[id := t.rqs[id].(mergeable := false)],
       lastMerge := if t.lastMerge == Some(id) then None else t.lastMerge)
  }

  /** __make_request puts k sectors behind the request. */
  function GrownBack(t: Table, id: nat, k: nat): Table
    requires id in t.rqs
  {
    t.(rqs := t.rqs[id := t.rqs[id].(sectors := t.rqs[id].sectors + k)])
  }

  /** __make_request puts k sectors before the request. */
  function GrownFront(t: Table, id: nat, k: nat): Table
    requires id in t.rqs
  {
    var r := t.rqs[id];
    if k <= r.sector then t.(rqs := t.rqs[id := r.(sector := r.sector - k, sectors := r.sectors + k)]) else t
  }

  /** elv_merged_request. */
  function Merged(t: Table, id: nat, back: bool): Table
    requires |t.chains| == ENTRIES
  {
    (if back then Repositioned(t, id) else t).(lastMerge := Some(id))
  }

  /** attempt_merge and elv_merge_requests: id takes over the sectors of next. */
  function Absorbed(t: Table, id: nat, next: nat): Table
    requires |t.chains| == ENTRIES && id in t.rqs && next in t.rqs
  {
    var t := Repositioned(GrownBack(t, id, t.rqs[next].sectors), id);
    t.(chains := Unhashed(t.chains, next), held := t.held - {next}, lastMerge := Some(id), nrSorted := t.nrSorted - 1)
  }

  lemma PushFacts(chains: seq<seq<nat>>, at: nat, id: nat)
    requires forall b :: 0 <= b < |chains| ==> NoDup(chains[b])
    requires at < |chains| && id !in chains[at]
    ensures var chains' := chains[at := [id] + chains[at]];
            && (forall b :: 0 <= b < |chains| ==> NoDup(chains'[b]))
            && forall b, x :: 0 <= b < |chains| ==> (x in chains'[b] <==> x in chains[b] || (b == at && x == id))
  {
  }

  lemma InsertKeeps(t: Table, id: nat, r: Request)
    requires Good(t) && id !in t.rqs
    ensures Good(Inserted(t, id, r))
  {
    hide Slot, NoDup;
    SlotInRange(EndSector(r));
    var at := Slot(EndSector(r));
    PushFacts(t.chains, at, id);
    var t' := Inserted(t, id, r);
    var pushed := t.chains[at := [id] + t.chains[at]];
    InsertedIs(t, id, r);
    hide Inserted;
    assert |t.held + {id}| == |t.held| + 1;
    forall b, x | 0 <= b < ENTRIES && x in t'.chains[b] ensures x in t'.held && b == Slot(KeyOf(t', x)) {
      assert x in t.chains[b] || (x == id && b == at);
    }
    forall x | x in t'.held && Mergeable(t', x) ensures x in t'.chains[Slot(KeyOf(t', x))] {
      assert x == id || (x in t.held && Mergeable(t, x));
    }
  }

  lemma InsertedIs(t: Table, id: nat, r: Request)
    requires |t.chains| == ENTRIES
    ensures var at := Slot(EndSector(r));
            && at < ENTRIES
            && Inserted(t, id, r) == Table(
                 if r.mergeable then t.chains[at := [id] + t.chains[at]] else t.chains, t.rqs[id := r], t.held + {id},
                 if r.mergeable && t.lastMerge.None? then Some(id) else t.lastMerge, t.nrSorted + 1)
  {
  }

  lemma DispatchKeeps(t: Table, id: nat)
    requires Good(t) && id in t.held
    ensures Good(Dispatched(t, id))
  {
    hide Slot, NoDup, Without;
    UnhashedFacts(t.chains, id);
    assert |t.held - {id}| == |t.held| - 1;
    var t' := Dispatched(t, id);
    forall x | x in t'.held && Mergeable(t', x) ensures x in t'.chains[Slot(KeyOf(t', x))] {
      assert x in t.chains[Slot(KeyOf(t, x))] && x != id;
    }
  }

  lemma CloseKeeps(t: Table, id: nat)
    requires Good(t) && id in t.rqs
    ensures Good(Closed(t, id))
  {
    hide Slot, NoDup;
    assert forall x :: KeyOf(Closed(t, id), x) == KeyOf(t, x);
    assert forall x :: Mergeable(Closed(t, id), x) ==> Mergeable(t, x);
  }

  /** A front merge moves the start, not the end: the request is where it was. */
  lemma FrontGrowthKeeps(t: Table, id: nat, k: nat, stale: set<nat>)
    requires Part(t, stale) && id in t.rqs
    ensures Part(GrownFront(t, id, k), stale)
  {
  }

  lemma BackGrowthStale(t: Table, id: nat, k: nat, stale: set<nat>)
    requires Part(t, stale) && id in t.rqs
    ensures Part(GrownBack(t, id, k), stale + {id})
  {
  }

  /** Repositioning makes a grown request findable again. */
  lemma RepositionKeeps(t: Table, id: nat)
    requires Part(t, {id}) && id in t.held
    ensures Good(Repositioned(t, id))
  {
    hide Slot, Without, NoDup;
    UnhashedFacts(t.chains, id);
    SlotInRange(KeyOf(t, id));
    HeldAfter(t, id);
    var chains := Unhashed(t.chains, id);
    PushFacts(chains, Slot(KeyOf(t, id)), id);
    RepositionedIs(t, id);
    hide Repositioned, Unhashed;
    var t' := Repositioned(t, id);
    assert forall x :: KeyOf(t', x) == KeyOf(t, x);
    forall b | 0 <= b < ENTRIES ensures NoDup(t'.chains[b]) {
    }
    forall b, x | 0 <= b < ENTRIES && x in t'.chains[b] ensures x in t.held && b == Slot(KeyOf(t, x)) {
      assert x == id || (x in chains[b] && x in t.chains[b]);
    }
    forall x | x in t.held && Mergeable(t, x)
      ensures Slot(KeyOf(t, x)) < ENTRIES && x in t'.chains[Slot(KeyOf(t, x))]
    {
      SlotInRange(KeyOf(t, x));
      assert x == id || x in chains[Slot(KeyOf(t, x))];
    }
  }

  lemma RepositionedIs(t: Table, id: nat)
    requires |t.chains| == ENTRIES
    ensures var chains := Unhashed(t.chains, id); var at := Slot(KeyOf(t, id));
            at < ENTRIES && Repositioned(t, id).chains == chains[at := [id] + chains[at]]
  {
  }

  lemma RestaleKeeps(t: Table, id: nat)
    requires Good(t)
    ensures Part(t, {id})
  {
  }

  /** A bio merged at the back or the front, with or without the request then absorbing its neighbour. */
  lemma BackMergeKeeps(t: Table, id: nat, k: nat)
    requires Good(t) && id in t.held
    ensures Good(Merged(GrownBack(t, id, k), id, true))
  {
    hide Slot, NoDup, Repositioned;
    BackGrowthStale(t, id, k, {});
    RepositionKeeps(GrownBack(t, id, k), id);
    HeldAfter(GrownBack(t, id, k), id);
  }

  lemma HeldAfter(t: Table, id: nat)
    requires |t.chains| == ENTRIES
    ensures var t' := Repositioned(t, id);
            && t'.held == t.held && t'.rqs == t.rqs && t'.nrSorted == t.nrSorted
            && t'.lastMerge == t.lastMerge && |t'.chains| == ENTRIES
  {
  }

  lemma FrontMergeKeeps(t: Table, id: nat, k: nat)
    requires Good(t) && id in t.held
    ensures Good(Merged(GrownFront(t, id, k), id, false))
  {
    hide Slot, NoDup;
    FrontGrowthKeeps(t, id, k, {});
  }

  /** id absorbs next, whether id had just grown at its back or next at its front. */
  lemma AbsorbKeeps(t: Table, id: nat, next: nat)
    requires Part(t, {id}) && id in t.held && next in t.held && id != next
    ensures Good(Absorbed(t, id, next))
  {
    hide Slot, NoDup, Repositioned, Without;
    var grown := GrownBack(t, id, t.rqs[next].sectors);
    BackGrowthStale(t, id, t.rqs[next].sectors, {id});
    RepositionKeeps(grown, id);
    HeldAfter(grown, id);
    UnhashedFacts(Repositioned(grown, id).chains, next);
  }

  lemma ChainTail(chain: seq<nat>)
    requires chain != [] && NoDup(chain)
    ensures forall x :: x in chain <==> x == chain[0] || x in chain[1..]
    ensures chain[0] !in chain[1..] && NoDup(chain[1..])
  {
  }

  /** The chain as a lookup leaves it: unmergeable requests met on the way are unhashed. */
  function Scanned(t: Table, chain: seq<nat>, offset: nat): seq<nat> {
    if chain == [] then []
    else if !Mergeable(t, chain[0]) then Scanned(t, chain[1..], offset)
    else if KeyOf(t, chain[0]) == offset then chain
    else [chain[0]] + Scanned(t, chain[1..], offset)
  }

  /** The first mergeable request of the chain that ends at the offset. */
  function Match(t: Table, chain: seq<nat>, offset: nat): Option<nat> {
    if chain == [] then None
    else if Mergeable(t, chain[0]) && KeyOf(t, chain[0]) == offset then Some(chain[0])
    else Match(t, chain[1..], offset)
  }

  lemma {:induction false} MatchFacts(t: Table, chain: seq<nat>, offset: nat)
    ensures match Match(t, chain, offset)
            case None => forall x :: x in chain && Mergeable(t, x) ==> KeyOf(t, x) != offset
            case Some(x) => x in chain && Mergeable(t, x) && KeyOf(t, x) == offset
  {
    if chain != [] {
      MatchFacts(t, chain[1..], offset);
      assert forall x :: x in chain <==> x == chain[0] || x in chain[1..];
    }
  }

  lemma {:induction false} ScannedFacts(t: Table, chain: seq<nat>, offset: nat)
    requires NoDup(chain)
    ensures NoDup(Scanned(t, chain, offset))
    ensures forall x :: x in Scanned(t, chain, offset) ==> x in chain
    ensures forall x :: x in chain && Mergeable(t, x) ==> x in Scanned(t, chain, offset)
  {
    if chain != [] {
      ChainTail(chain);
      ScannedFacts(t, chain[1..], offset);
      if Mergeable(t, chain[0]) && KeyOf(t, chain[0]) != offset {
        var rest := Scanned(t, chain[1..], offset);
        assert ([chain[0]] + rest)[1..] == rest;
      }
    }
  }

  /** elv_rqhash_find agrees with a scan over everything held: it misses no mergeable request that ends
      at the offset, and finds only such requests. */
  lemma FindIsScan(t: Table, offset: nat)
    requires Good(t)
    ensures Slot(offset) < ENTRIES
    ensures match Match(t, t.chains[Slot(offset)], offset)
            case None => forall x :: x in t.held && Mergeable(t, x) ==> KeyOf(t, x) != offset
            case Some(x) => x in t.held && Mergeable(t, x) && KeyOf(t, x) == offset
  {
    hide Slot, NoDup;
    SlotInRange(offset);
    MatchFacts(t, t.chains[Slot(offset)], offset);
  }

  function Looked(t: Table, offset: nat): Table
    requires |t.chains| == ENTRIES
  {
    SlotInRange(offset);
    t.(chains := t.chains[Slot(offset) := Scanned(t, t.chains[Slot(offset)], offset)])
  }

  lemma LookupKeeps(t: Table, offset: nat)
    requires Good(t)
    ensures Good(Looked(t, offset))
  {
    hide Slot, NoDup;
    SlotInRange(offset);
    ScannedFacts(t, t.chains[Slot(offset)], offset);
  }

  datatype Event =
    | Insert(id: nat, r: Request)
    | Dispatch(id: nat)
    | Close(id: nat)
    | FrontMerge(id: nat, k: nat)
    | BackMerge(id: nat, k: nat)
    /** A bio merged at the back of id, which then absorbs the request behind it. */
    | BackMergeAbsorb(id: nat, k: nat, next: nat)
    /** A bio merged at the front of id, which is then absorbed by the request before it. */
    | FrontMergeAbsorbed(id: nat, k: nat, former: nat)
    | Lookup(offset: nat)

  predicate Holds(t: Table, id: nat) { id in t.held && id in t.rqs }

  predicate Legal(t: Table, e: Event) {
    && |t.chains| == ENTRIES
    && match e
       case Insert(id, _) => id !in t.rqs
       case Dispatch(id) => Holds(t, id)
       case Close(id) => Holds(t, id)
       case FrontMerge(id, _) => Holds(t, id)
       case BackMerge(id, _) => Holds(t, id)
       case BackMergeAbsorb(id, _, next) => Holds(t, id) && Holds(t, next) && id != next
       case FrontMergeAbsorbed(id, _, former) => Holds(t, id) && Holds(t, former) && id != former
       case Lookup(_) => true
  }

  function Step(t: Table, e: Event): Table
    requires Legal(t, e)
  {
    match e
    case Insert(id, r) => Inserted(t, id, r)
    case Dispatch(id) => Dispatched(t, id)
    case Close(id) => Closed(t, id)
    case FrontMerge(id, k) => Merged(GrownFront(t, id, k), id, false)
    case BackMerge(id, k) => Merged(GrownBack(t, id, k), id, true)
    case BackMergeAbsorb(id, k, next) => Absorbed(GrownBack(t, id, k), id, next)
    case FrontMergeAbsorbed(id, k, former) => Absorbed(GrownFront(t, id, k), former, id)
    case Lookup(offset) => Looked(t, offset)
  }

  lemma StepKeeps(t: Table, e: Event)
    requires Good(t) && Legal(t, e)
    ensures Good(Step(t, e))
  {
    hide Inserted, Dispatched, Closed, Merged, Absorbed, Looked;
    match e
    case Insert(id, r) => InsertKeeps(t, id, r);
    case Dispatch(id) => DispatchKeeps(t, id);
    case Close(id) => CloseKeeps(t, id);
    case FrontMerge(id, k) => FrontMergeKeeps(t, id, k);
    case BackMerge(id, k) => BackMergeKeeps(t, id, k);
    case BackMergeAbsorb(id, k, next) => {
      BackGrowthStale(t, id, k, {});
      AbsorbKeeps(GrownBack(t, id, k), id, next);
    }
    case FrontMergeAbsorbed(id, k, former) => {
      FrontGrowthKeeps(t, id, k, {});
      RestaleKeeps(GrownFront(t, id, k), former);
      AbsorbKeeps(GrownFront(t, id, k), former, id);
    }
    case Lookup(offset) => LookupKeeps(t, offset);
  }

  /** What attempt_merge and __make_request have tested before they merge: the pieces touch. */
  predicate Adjoin(t: Table, e: Event)
    requires Legal(t, e)
  {
    match e
    case FrontMerge(id, k) => k <= t.rqs[id].sector
    case BackMergeAbsorb(id, k, next) => EndSector(t.rqs[id]) + k == t.rqs[next].sector
    case FrontMergeAbsorbed(id, k, former) => EndSector(t.rqs[former]) + k == t.rqs[id].sector
    case _ => true
  }

  /** A request and the sectors it has, from the first up to the end. */
  datatype Extent = Extent(id: nat, first: int, end: int)

  /** The request an event leaves with other sectors: those of the bio too, and up to where a request it absorbs
      ended. */
  function Changed(t: Table, e: Event): Option<Extent>
    requires Legal(t, e)
  {
    match e
    case Insert(id, r) => Some(Extent(id, r.sector, r.sector + r.sectors))
    case FrontMerge(id, k) => Some(Extent(id, t.rqs[id].sector - k, EndSector(t.rqs[id])))
    case BackMerge(id, k) => Some(Extent(id, t.rqs[id].sector, EndSector(t.rqs[id]) + k))
    case BackMergeAbsorb(id, _, next) => Some(Extent(id, t.rqs[id].sector, EndSector(t.rqs[next])))
    case FrontMergeAbsorbed(id, _, former) => Some(Extent(former, t.rqs[former].sector, EndSector(t.rqs[id])))
    case _ => None
  }

  /** No sector is lost, added or moved: a merge leaves the surviving request with its own sectors, those of the bio and
      those of the request it absorbs, and every other held request as it was. */
  lemma SectorsKept(t: Table, e: Event)
    requires Good(t) && Legal(t, e) && Adjoin(t, e)
    ensures var t' := Step(t, e); var c := Changed(t, e);
            && (c.Some? ==>
                  && c.value.id in t'.held && c.value.id in t'.rqs
                  && t'.rqs[c.value.id].sector == c.value.first
                  && t'.rqs[c.value.id].sector + t'.rqs[c.value.id].sectors == c.value.end)
            && (forall x :: x in t'.held && !(c.Some? && x == c.value.id) ==>
                              && x in t.held && x in t.rqs && x in t'.rqs
                              && t'.rqs[x].sector == t.rqs[x].sector && t'.rqs[x].sectors == t.rqs[x].sectors)
  {
    hide Slot, NoDup, Hashed, Unhashed, Scanned;
  }

  /** The merge cache: the request last merged into, or inserted mergeable into an empty cache, until it is dispatched,
      closed or absorbed. */
  lemma LastMergeExact(t: Table, e: Event)
    requires Legal(t, e)
    ensures Step(t, e).lastMerge ==
            match e
            case Insert(id, r) => (if r.mergeable && t.lastMerge.None? then Some(id) else t.lastMerge)
            case Dispatch(id) => (if t.lastMerge == Some(id) then None else t.lastMerge)
            case Close(id) => (if t.lastMerge == Some(id) then None else t.lastMerge)
            case FrontMerge(id, _) => Some(id)
            case BackMerge(id, _) => Some(id)
            case BackMergeAbsorb(id, _, _) => Some(id)
            case FrontMergeAbsorbed(_, _, former) => Some(former)
            case Lookup(_) => t.lastMerge
  {
    hide Slot;
  }

  /** x is in the chain, and everything ahead of it is mergeable. */
  predicate CleanUpTo(t: Table, chain: seq<nat>, x: nat) {
    chain != [] && (chain[0] == x || (Mergeable(t, chain[0]) && CleanUpTo(t, chain[1..], x)))
  }

  lemma {:induction false} ScannedClean(t: Table, chain: seq<nat>, offset: nat)
    ensures var c := Scanned(t, chain, offset); var found := Match(t, chain, offset);
            && (found.None? ==> forall x :: x in c ==> Mergeable(t, x))
            && (found.Some? ==> CleanUpTo(t, c, found.value))
  {
    if chain != [] {
      ScannedClean(t, chain[1..], offset);
      var rest := Scanned(t, chain[1..], offset);
      assert ([chain[0]] + rest)[1..] == rest;
    }
  }

  /** A lookup unhashes the unmergeable requests it meets: all of the chain if it finds nothing, and otherwise those
      ahead of what it finds. */
  lemma LookupCleans(t: Table, offset: nat)
    requires Good(t)
    ensures Slot(offset) < ENTRIES == |Looked(t, offset).chains|
    ensures var c := Looked(t, offset).chains[Slot(offset)]; var found := Match(t, t.chains[Slot(offset)], offset);
            && (found.None? ==> forall x :: x in c ==> Mergeable(t, x))
            && (found.Some? ==> CleanUpTo(t, c, found.value))
  {
    SlotInRange(offset);
    ScannedClean(t, t.chains[Slot(offset)], offset);
    hide Slot, Scanned, Match, NoDup, CleanUpTo;
  }

  predicate Runs(t: Table, es: seq<Event>)
    decreases |es|
  {
    es == [] || (Legal(t, es[0]) && Runs(Step(t, es[0]), es[1..]))
  }

  function Run(t: Table, es: seq<Event>): Table
    requires Runs(t, es)
    decreases |es|
  {
    if es == [] then t else Run(Step(t, es[0]), es[1..])
  }

  function Start(): Table { Table(seq(ENTRIES, _ => []), map[], {}, None, 0) }

  lemma {:induction false} RunGood(t: Table, es: seq<Event>)
    requires Good(t) && Runs(t, es)
    ensures Good(Run(t, es))
    decreases |es|
  {
    hide Good, Legal, Step;
    if es != [] {
      StepKeeps(t, es[0]);
      RunGood(Step(t, es[0]), es[1..]);
    }
  }

  /** After every run the lookup finds a request exactly when a mergeable held one ends at the offset, and
      last_merge is empty or a held request; nr_sorted is the number of held requests. */
  lemma HashAgrees(es: seq<Event>, offset: nat)
    requires Runs(Start(), es)
    ensures var t := Run(Start(), es);
            && Slot(offset) < |t.chains|
            && (Match(t, t.chains[Slot(offset)], offset).Some?
                <==> exists x :: x in t.held && Mergeable(t, x) && KeyOf(t, x) == offset)
            && (t.lastMerge.Some? ==> t.lastMerge.value in t.held) && t.nrSorted == |t.held|
  {
    hide Run, Runs, Slot;
    StartGood();
    RunGood(Start(), es);
    FindIsScan(Run(Start(), es), offset);
  }

  lemma StartGood()
    ensures Good(Start())
  {
  }

  /** The hash as the elevator keeps it. */
  class Elevator {
    var chains: seq<seq<nat>>
    var rqs: map<nat, Request>
    var held: set<nat>
    var lastMerge: Option<nat>
    var nrSorted: int

    function View(): Table
      reads this
    {
      Table(chains, rqs, held, lastMerge, nrSorted)
    }

    /** elv_rqhash_find: one walk over the chain, unhashing what is no longer mergeable. */
    method Find(offset: nat) returns (found: Option<nat>)
      requires |chains| == ENTRIES
      modifies this`chains
      ensures View() == Looked(old(View()), offset)
      ensures found == Match(old(View()), old(chains)[Slot(offset)], offset)
    {
      hide Slot;
      SlotInRange(offset);
      var b := Slot(offset);
      ghost var t := View();
      ghost var whole := chains[b];
      var kept: seq<nat>, rest := [], chains[b];
      found := None;
      assert kept + rest == rest && kept + Scanned(t, rest, offset) == Scanned(t, rest, offset);
      while rest != []
        invariant Scanned(t, whole, offset) == kept + Scanned(t, rest, offset)
        invariant Match(t, whole, offset) == Match(t, rest, offset)
        invariant chains == t.chains[b := kept + rest]
        decreases |rest|
      {
        var id := rest[0];
        if id !in rqs || !rqs[id].mergeable {
          chains := chains[b := kept + rest[1..]];
        } else if EndSector(rqs[id]) == offset {
          return Some(id);
        } else {
          kept := kept + [id];
          assert kept + rest[1..] == kept[..|kept| - 1] + rest;
        }
        rest := rest[1..];
      }
      assert kept + rest == kept;
    }

    /** elv_merged_request. */
    method MergedRequest(id: nat, back: bool)
      requires |chains| == ENTRIES
      modifies this
      ensures View() == Merged(old(View()), id, back)
    {
      if back {
        chains := Unhashed(chains, id);
        chains := Hashed(View(), id);
      }
      lastMerge := Some(id);
    }

    /** attempt_merge's sector update and elv_merge_requests. */
    method MergeRequests(id: nat, next: nat)
      requires |chains| == ENTRIES && id in rqs && next in rqs
      modifies this
      ensures View() == Absorbed(old(View()), id, next)
    {
      rqs := rqs[id := rqs[id].(sectors := rqs[id].sectors + rqs[next].sectors)];
      chains := Unhashed(chains, id);
      chains := Hashed(View(), id);
      chains := Unhashed(chains, next);
      held := held - {next};
      nrSorted := nrSorted - 1;
      lastMerge := Some(id);
    }
  }
}
