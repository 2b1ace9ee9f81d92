/** Unregistering an algorithm takes down everything built on it: crypto_remove_spawns is a worklist over
    the spawns, the links from an algorithm to the instances that use it. */
module Spawns {

  datatype Spawn = Spawn(sid: nat, inst: nat)

  /** Who uses what, and which instances a spawn removal would move: alive, registered with a template whose
      reference can be had. */
  datatype Graph = Graph(users: map<nat, seq<Spawn>>, movable: set<nat>)

  function UsersOf(users: map<nat, seq<Spawn>>, a: nat): seq<Spawn> { if a in users then users[a] else [] }

  predicate Uses(g: Graph, x: nat, y: nat) { exists s :: s in UsersOf(g.users, y) && s.inst == x }

  /** A chain of uses from alg up to the last element, through movable instances. */
  ghost predicate Path(g: Graph, alg: nat, p: seq<nat>) {
    && |p| > 1 && p[0] == alg
    && (forall i :: 0 <= i < |p| - 1 ==> Uses(g, p[i + 1], p[i]))
    && (forall i :: 0 < i < |p| - 1 ==> p[i] in g.movable)
  }

  /** x is built on alg, directly or through instances that fall with it. */
  ghost predicate BuiltOn(g: Graph, alg: nat, x: nat) {
    exists p :: Path(g, alg, p) && p[|p| - 1] == x
  }

  lemma Direct(g: Graph, alg: nat, x: nat)
    requires Uses(g, x, alg)
    ensures BuiltOn(g, alg, x)
  {
    assert Path(g, alg, [alg, x]);
  }

  lemma Further(g: Graph, alg: nat, y: nat, x: nat)
    requires BuiltOn(g, alg, y) && y in g.movable && Uses(g, x, y)
    ensures BuiltOn(g, alg, x)
  {
    var p :| Path(g, alg, p) && p[|p| - 1] == y;
    var p' := p + [x];
    assert Path(g, alg, p') && p'[|p'| - 1] == x;
  }

  /** Sets closed under use hold everything built on alg. */
  lemma {:induction false} ClosedHolds(g: Graph, alg: nat, dead: set<nat>, p: seq<nat>)
    requires Path(g, alg, p)
    requires forall y, x :: (y == alg || (y in dead && y in g.movable)) && Uses(g, x, y) ==> x in dead
    ensures p[|p| - 1] in dead
    decreases |p|
  {
    var n := |p|;
    assert Uses(g, p[n - 1], p[n - 2]);
    if n > 2 {
      var q := p[..n - 1];
      assert Path(g, alg, q);
      ClosedHolds(g, alg, dead, q);
    }
  }

  /** The registry: uses, dead algorithms, the global list, the instances linked to their template, the spawns
      whose algorithm pointer was cleared, and the list of instances to be destroyed. */
  datatype Registry = Registry(
    users: map<nat, seq<Spawn>>, dead: set<nat>, listed: set<nat>, hashed: set<nat>, cleared: set<Spawn>,
    killed: seq<nat>)

  /** list_del on one list. */
  function Unlinked(list: seq<Spawn>, s: Spawn): seq<Spawn> {
    if list == [] then [] else if list[0] == s then list[1..] else [list[0]] + Unlinked(list[1..], s)
  }

  /** The spawn leaves the list of users it is on. */
  function UnlinkedUsers(users: map<nat, seq<Spawn>>, s: Spawn): map<nat, seq<Spawn>> {
    map y | y in users :: Unlinked(users[y], s)
  }

  predicate Unique(list: seq<Spawn>) { list == [] || (list[0] !in list[1..] && Unique(list[1..])) }

  /** A spawn has one list node: it is on one list of users or on the worklist, once. */
  predicate Apart(users: map<nat, seq<Spawn>>, work: seq<Spawn>) {
    && Unique(work)
    && (forall y :: y in users ==> Unique(users[y]))
    && (forall y, s :: y in users && s in users[y] ==> s !in work)
    && (forall y, z, s :: y in users && z in users && y != z && s in users[y] ==> s !in users[z])
  }

  predicate Moves(templated: set<nat>, r: Registry, x: nat) { x !in r.dead && x in r.hashed && x in templated }

  /** crypto_remove_spawn: the spawn is unlinked and cleared; an instance that is not dead yet dies, and if it is
      registered it goes to the kill list and its users become work. */
  function Removed(templated: set<nat>, r: Registry, spawn: Spawn): Registry {
    var x := spawn.inst;
    var users := UnlinkedUsers(r.users, spawn);
    var s := r.(users := users, cleared := r.cleared + {spawn}, dead := r.dead + {x});
    if !Moves(templated, r, x) then s
    else s.(listed := r.listed - {x}, hashed := r.hashed - {x}, killed := [x] + r.killed, users := users[x := []])
  }

  /** What is spliced into the worklist. */
  function Work(templated: set<nat>, r: Registry, spawn: Spawn): seq<Spawn> {
    if Moves(templated, r, spawn.inst) then UsersOf(UnlinkedUsers(r.users, spawn), spawn.inst) else []
  }

  function Newly(was: seq<nat>, killed: seq<nat>): seq<nat> {
    if |was| <= |killed| then killed[..|killed| - |was|] else []
  }

  /** The spawn belonged to alg, or to an instance of the kill list. */
  ghost predicate Owned(g: Graph, alg: nat, recent: seq<nat>, s: Spawn) {
    s in UsersOf(g.users, alg) || exists y :: y in recent && s in UsersOf(g.users, y)
  }

  /** Who is dead, who was killed and which spawns are done, while those in `open` wait; g is the graph before. */
  ghost predicate Midway(templated: set<nat>, g: Graph, alg: nat, was: Registry, r: Registry, open: seq<Spawn>) {
    var recent := Newly(was.killed, r.killed);
    && r.dead >= was.dead + {alg}
    && (forall x :: x in r.dead ==> x in was.dead || x == alg || BuiltOn(g, alg, x))
    && (forall x :: x !in r.dead ==> (Moves(templated, r, x) <==> x in g.movable))
    && (forall x :: x in recent <==> x in g.movable && x in r.dead)
    && (forall s :: s in open ==> Owned(g, alg, recent, s) && BuiltOn(g, alg, s.inst))
    && (forall s :: Owned(g, alg, recent, s) ==> s in open || (s.inst in r.dead && s in r.cleared))
    && (forall s :: s in r.cleared ==> s in was.cleared || Owned(g, alg, recent, s))
    && was.cleared <= r.cleared
  }

  /** Nothing else is touched. */
  ghost predicate Framed(was: Registry, r: Registry) {
    var recent := Newly(was.killed, r.killed);
    && |was.killed| <= |r.killed| && r.killed == recent + was.killed
    && (forall i, j :: 0 <= i < j < |recent| ==> recent[i] != recent[j])
    && r.listed == was.listed - (set x | x in recent) && r.hashed == was.hashed - (set x | x in recent)
  }

  /** A spawn is linked exactly while it waits: `rest` are those still on alg's own list, `work` the worklist. */
  ghost predicate Linkage(alg: nat, was: Registry, r: Registry, rest: seq<Spawn>, work: seq<Spawn>) {
    var recent := Newly(was.killed, r.killed);
    && Apart(r.users, work)
    && UsersOf(r.users, alg) == rest
    && forall x :: x != alg ==> UsersOf(r.users, x) == if x in recent then [] else UsersOf(was.users, x)
  }

  lemma NewlyMore(was: seq<nat>, killed: seq<nat>, x: nat)
    requires |was| <= |killed|
    ensures Newly(was, [x] + killed) == [x] + Newly(was, killed)
  {
  }

  lemma {:induction false} UnlinkedFacts(list: seq<Spawn>, s: Spawn)
    requires Unique(list)
    ensures Unique(Unlinked(list, s)) && forall x :: x in Unlinked(list, s) <==> x in list && x != s
    ensures s !in list ==> Unlinked(list, s) == list
  {
    if list != [] {
      assert forall x :: x in list <==> x == list[0] || x in list[1..];
      if list[0] != s {
        UnlinkedFacts(list[1..], s);
        var rest := Unlinked(list[1..], s);
        assert ([list[0]] + rest)[1..] == rest;
      }
    }
  }

  lemma {:induction false} UniqueJoin(a: seq<Spawn>, b: seq<Spawn>)
    requires Unique(a) && Unique(b) && forall s :: s in a ==> s !in b
    ensures Unique(a + b)
  {
    if a == [] {
      assert a + b == b;
    } else {
      UniqueJoin(a[1..], b);
      assert (a + b)[1..] == a[1..] + b;
    }
  }

  lemma ApartUnlinked(users: map<nat, seq<Spawn>>, work: seq<Spawn>, s: Spawn)
    requires Apart(users, work)
    ensures Apart(UnlinkedUsers(users, s), Unlinked(work, s))
    ensures forall y :: s !in UsersOf(users, y) ==> UsersOf(UnlinkedUsers(users, s), y) == UsersOf(users, y)
    ensures forall y, x :: x in UsersOf(UnlinkedUsers(users, s), y) ==> x in UsersOf(users, y)
  {
    hide Unique, Unlinked;
    UnlinkedFacts(work, s);
    forall y | y in users
      ensures Unique(Unlinked(users[y], s)) && (s !in users[y] ==> Unlinked(users[y], s) == users[y])
      ensures forall x :: x in Unlinked(users[y], s) <==> x in users[y] && x != s
    {
      UnlinkedFacts(users[y], s);
    }
  }

  lemma ApartSpliced(users: map<nat, seq<Spawn>>, work: seq<Spawn>, x: nat)
    requires Apart(users, work)
    ensures Apart(users[x := []], UsersOf(users, x) + work)
  {
    hide Unique;
    UniqueEmpty();
    UniqueJoin(UsersOf(users, x), work);
  }

  lemma UniqueEmpty()
    ensures Unique([])
  {
  }

  /** Where the spawn at hand is linked: first on alg's list, or on the worklist when that one is empty. */
  predicate AtHand(rest: seq<Spawn>, work: seq<Spawn>, s: Spawn) {
    if rest != [] then s == rest[0] else s in work
  }

  lemma LinkageStep(templated: set<nat>, alg: nat, was: Registry, r: Registry, rest: seq<Spawn>, work: seq<Spawn>,
                    spawn: Spawn)
    requires Linkage(alg, was, r, rest, work) && |was.killed| <= |r.killed| && alg in r.dead
    requires AtHand(rest, work, spawn)
    ensures Linkage(alg, was, Removed(templated, r, spawn), if rest == [] then [] else rest[1..],
                    Work(templated, r, spawn) + Unlinked(work, spawn))
    ensures rest != [] ==> Unlinked(work, spawn) == work
  {
    hide Unique, Unlinked, Newly, UnlinkedUsers, Apart;
    var x := spawn.inst;
    var users := UnlinkedUsers(r.users, spawn);
    NewlyMore(was.killed, r.killed, x);
    ApartUnlinked(r.users, work, spawn);
    ApartSpliced(users, Unlinked(work, spawn), x);
    OnlyThere(r.users, work, alg, rest, spawn);
    assert [] + Unlinked(work, spawn) == Unlinked(work, spawn);
  }

  lemma OnlyThere(users: map<nat, seq<Spawn>>, work: seq<Spawn>, alg: nat, rest: seq<Spawn>, s: Spawn)
    requires Apart(users, work) && UsersOf(users, alg) == rest && AtHand(rest, work, s)
    ensures forall y :: y != alg ==> s !in UsersOf(users, y)
    ensures UsersOf(UnlinkedUsers(users, s), alg) == if rest == [] then [] else rest[1..]
    ensures rest != [] ==> Unlinked(work, s) == work
  {
    UnlinkedFacts(work, s);
  }

  lemma WorkBuilt(g: Graph, alg: nat, y: nat, s: Spawn)
    requires BuiltOn(g, alg, y) && y in g.movable && s in UsersOf(g.users, y)
    ensures BuiltOn(g, alg, s.inst)
  {
    assert Uses(g, s.inst, y);
    Further(g, alg, y, s.inst);
  }

  /** What a step adds to the worklist are all the users of the instance it kills. */
  lemma WorkIs(templated: set<nat>, g: Graph, alg: nat, was: Registry, r: Registry, rest: seq<Spawn>, work: seq<Spawn>,
               spawn: Spawn)
    requires Midway(templated, g, alg, was, r, rest + work) && Linkage(alg, was, r, rest, work)
    requires was.users == g.users && AtHand(rest, work, spawn)
    ensures Moves(templated, r, spawn.inst) ==>
              && spawn.inst in g.movable && spawn.inst !in Newly(was.killed, r.killed) && spawn.inst != alg
              && Work(templated, r, spawn) == UsersOf(g.users, spawn.inst)
  {
    hide BuiltOn, Newly, UnlinkedUsers, Apart, Owned;
    if Moves(templated, r, spawn.inst) {
      ApartUnlinked(r.users, work, spawn);
      OnlyThere(r.users, work, alg, rest, spawn);
    }
  }

  lemma MidwayStep(templated: set<nat>, g: Graph, alg: nat, was: Registry, r: Registry, open: seq<Spawn>,
                   spawn: Spawn, open': seq<Spawn>)
    requires Midway(templated, g, alg, was, r, open) && spawn in open && |was.killed| <= |r.killed|
    requires Moves(templated, r, spawn.inst) ==>
               spawn.inst in g.movable && Work(templated, r, spawn) == UsersOf(g.users, spawn.inst)
    requires forall s :: s in open' <==> (s in open && s != spawn) || s in Work(templated, r, spawn)
    ensures Midway(templated, g, alg, was, Removed(templated, r, spawn), open')
  {
    hide BuiltOn, Uses, UnlinkedUsers, Owned, Newly;
    var x := spawn.inst;
    var r' := Removed(templated, r, spawn);
    var recent := Newly(was.killed, r.killed);
    var recent' := Newly(was.killed, r'.killed);
    NewlyMore(was.killed, r.killed, x);
    forall s ensures Owned(g, alg, recent', s) <==> Owned(g, alg, recent, s) || s in Work(templated, r, spawn) {
      OwnedMore(g, alg, recent, x, s);
    }
    forall s | s in open' ensures BuiltOn(g, alg, s.inst) {
      if s in Work(templated, r, spawn) {
        WorkBuilt(g, alg, x, s);
      }
    }
  }

  lemma OwnedMore(g: Graph, alg: nat, recent: seq<nat>, x: nat, s: Spawn)
    ensures Owned(g, alg, [x] + recent, s) <==> Owned(g, alg, recent, s) || s in UsersOf(g.users, x)
  {
    if s in UsersOf(g.users, x) {
      assert x in [x] + recent;
    }
    if Owned(g, alg, recent, s) && s !in UsersOf(g.users, alg) {
      var y :| y in recent && s in UsersOf(g.users, y);
      assert y in [x] + recent;
    }
  }

  lemma FramedStep(templated: set<nat>, was: Registry, r: Registry, spawn: Spawn)
    requires Framed(was, r)
    requires Moves(templated, r, spawn.inst) ==> spawn.inst !in Newly(was.killed, r.killed)
    ensures Framed(was, Removed(templated, r, spawn))
  {
    hide Newly, UnlinkedUsers;
    var x := spawn.inst;
    NewlyMore(was.killed, r.killed, x);
    if Moves(templated, r, x) {
      var recent := Newly(was.killed, r.killed);
      var more := [x] + recent;
      assert (set y | y in more) == (set y | y in recent) + {x};
      assert [x] + r.killed == more + was.killed;
    }
  }

  /** The whole invariant of the removal. */
  ghost predicate Removing(templated: set<nat>, g: Graph, alg: nat, was: Registry, r: Registry, rest: seq<Spawn>,
                           work: seq<Spawn>)
  {
    && Midway(templated, g, alg, was, r, rest + work) && Framed(was, r) && Linkage(alg, was, r, rest, work)
    && was.users == g.users && alg in r.dead
  }

  /** One crypto_remove_spawn.  If it makes new work it has killed a movable instance: that is why the worklist runs
      dry. */
  lemma OneStep(templated: set<nat>, g: Graph, alg: nat, was: Registry, r: Registry, rest: seq<Spawn>,
                work: seq<Spawn>, spawn: Spawn)
    requires Removing(templated, g, alg, was, r, rest, work) && AtHand(rest, work, spawn)
    ensures var r' := Removed(templated, r, spawn); var more := Work(templated, r, spawn);
            && Removing(templated, g, alg, was, r', if rest == [] then [] else rest[1..], more + Unlinked(work, spawn))
            && g.movable - r'.dead <= g.movable - r.dead
            && (more != [] ==> spawn.inst in g.movable - r.dead && spawn.inst !in g.movable - r'.dead)
  {
    hide Midway, Newly, UnlinkedUsers, Unlinked, Apart, Owned;
    var rest' := if rest == [] then [] else rest[1..];
    var work' := Work(templated, r, spawn) + Unlinked(work, spawn);
    WorkIs(templated, g, alg, was, r, rest, work, spawn);
    LinkageStep(templated, alg, was, r, rest, work, spawn);
    FramedStep(templated, was, r, spawn);
    StillOpen(r.users, alg, rest, work, spawn);
    MidwayStep(templated, g, alg, was, r, rest + work, spawn, rest' + work');
  }

  lemma StillOpen(users: map<nat, seq<Spawn>>, alg: nat, rest: seq<Spawn>, work: seq<Spawn>, s: Spawn)
    requires Apart(users, work) && UsersOf(users, alg) == rest && AtHand(rest, work, s)
    ensures s in rest + work
    ensures forall x :: x in (if rest == [] then [] else rest[1..]) + Unlinked(work, s) <==> x in rest + work && x != s
  {
    UnlinkedFacts(work, s);
    if rest != [] {
      assert Unique(rest);
    }
  }

  /** With no work left the dead, the killed and the cleared are exactly those the graph says. */
  lemma AllWorkDone(templated: set<nat>, g: Graph, alg: nat, was: Registry, r: Registry)
    requires Midway(templated, g, alg, was, r, []) && g.movable !! was.dead + {alg}
    ensures forall x :: x in r.dead <==> x in was.dead || x == alg || BuiltOn(g, alg, x)
    ensures forall x :: x in Newly(was.killed, r.killed) <==> x in g.movable && BuiltOn(g, alg, x)
    ensures forall s :: s in r.cleared <==> s in was.cleared || Owned(g, alg, Newly(was.killed, r.killed), s)
  {
    hide Newly;
    var recent := Newly(was.killed, r.killed);
    forall y, x | (y == alg || (y in r.dead && y in g.movable)) && Uses(g, x, y) ensures x in r.dead {
      var s :| s in UsersOf(g.users, y) && s.inst == x;
      assert Owned(g, alg, recent, s);
    }
    hide Owned;
    forall x | BuiltOn(g, alg, x) ensures x in r.dead {
      var p :| Path(g, alg, p) && p[|p| - 1] == x;
      ClosedHolds(g, alg, r.dead, p);
    }
  }

  /** The graph a removal of alg works on. */
  ghost function Before(templated: set<nat>, alg: nat, was: Registry): Graph {
    Graph(was.users, set x | x in was.hashed && x !in was.dead && x != alg && x in templated)
  }

  /** crypto_remove_alg from the outside: who is dead, who is on the kill list, which spawns were unlinked and
      cleared, and that everything else stays. */
  ghost predicate TakenDown(templated: set<nat>, alg: nat, was: Registry, r: Registry) {
    var g := Before(templated, alg, was);
    var recent := Newly(was.killed, r.killed);
    && (forall x :: x in r.dead <==> x in was.dead || x == alg || BuiltOn(g, alg, x))
    && (forall x :: x in recent <==> x in g.movable && BuiltOn(g, alg, x))
    && (forall s :: s in r.cleared <==> s in was.cleared || Owned(g, alg, recent, s))
    && (forall x :: UsersOf(r.users, x) == if x == alg || x in recent then [] else UsersOf(was.users, x))
    && Framed(was.(listed := was.listed - {alg}), r)
  }

  /** The data crypto_remove_alg changes. */
  class Algorithms {
    /** Instances whose template can be referenced. */
    const templated: set<nat>
    var reg: Registry

    /** crypto_remove_spawn; the users are spliced to the front of the worklist. */
    method RemoveSpawn(spawn: Spawn, work: seq<Spawn>) returns (work': seq<Spawn>)
      modifies this
      ensures reg == Removed(templated, old(reg), spawn)
      ensures work' == Work(templated, old(reg), spawn) + Unlinked(work, spawn)
    {
      hide Unlinked;
      var inst := spawn.inst;
      work' := Unlinked(work, spawn);
      reg := reg.(users := UnlinkedUsers(reg.users, spawn));
      reg := reg.(cleared := reg.cleared + {spawn});
      if inst in reg.dead {
        assert reg.dead + {inst} == reg.dead;
        return;
      }
      reg := reg.(dead := reg.dead + {inst});
      if inst !in reg.hashed || inst !in templated {
        return;
      }
      reg := reg.(listed := reg.listed - {inst}, killed := [inst] + reg.killed, hashed := reg.hashed - {inst});
      work' := UsersOf(reg.users, inst) + work';
      reg := reg.(users := reg.users[inst := []]);
    }

    /** The first loop of crypto_remove_spawns, over alg's own list.  Its mask test compares an algorithm's flags
        with themselves and never skips a spawn. */
    method FirstPass(alg: nat, ghost g: Graph, ghost was: Registry) returns (secondary: seq<Spawn>)
      requires Removing(templated, g, alg, was, reg, UsersOf(reg.users, alg), [])
      modifies this
      ensures Removing(templated, g, alg, was, reg, [], secondary)
    {
      hide Removing, Removed, Work, Unlinked;
      var rest := UsersOf(reg.users, alg);
      secondary := [];
      while rest != []
        invariant Removing(templated, g, alg, was, reg, rest, secondary)
        decreases |rest|
      {
        OneStep(templated, g, alg, was, reg, rest, secondary, rest[0]);
        secondary := RemoveSpawn(rest[0], secondary);
        rest := rest[1..];
      }
    }

    /** One walk over the worklist, `left` spawns still ahead; what a step adds goes to the front and waits for the
        next walk. */
    method Pass(list: seq<Spawn>, alg: nat, ghost g: Graph, ghost was: Registry) returns (work: seq<Spawn>)
      requires Removing(templated, g, alg, was, reg, [], list)
      modifies this
      ensures Removing(templated, g, alg, was, reg, [], work)
      ensures g.movable - reg.dead <= g.movable - old(reg).dead
      ensures g.movable - reg.dead == g.movable - old(reg).dead ==> work == []
    {
      hide Removing, Removed, Work, Unlinked;
      work := list;
      var left := |list|;
      while left > 0
        invariant Removing(templated, g, alg, was, reg, [], work) && left <= |work|
        invariant g.movable - reg.dead <= g.movable - old(reg).dead
        invariant g.movable - reg.dead == g.movable - old(reg).dead ==> |work| == left
        decreases left
      {
        var spawn := work[|work| - left];
        OneStep(templated, g, alg, was, reg, [], work, spawn);
        UnlinkedOne(work, spawn);
        work := RemoveSpawn(spawn, work);
        left := left - 1;
      }
    }

    /** crypto_remove_alg. */
    method RemoveAlg(alg: nat) returns (found: bool)
      requires Apart(reg.users, [])
      modifies this
      ensures Apart(reg.users, [])
      ensures found <==> alg in old(reg).listed
      ensures !found ==> reg == old(reg)
      ensures found ==> TakenDown(templated, alg, old(reg), reg)
    {
      if alg !in reg.listed {
        return false;
      }
      hide Midway, Framed, Newly, Apart, Owned;
      ghost var was := reg;
      ghost var g := Before(templated, alg, was);
      ghost var base := was.(listed := was.listed - {alg});
      reg := reg.(dead := reg.dead + {alg}, listed := reg.listed - {alg});
      StartRemoving(templated, g, alg, was, base, reg);
      var secondary := FirstPass(alg, g, base);
      while secondary != []
        invariant Removing(templated, g, alg, base, reg, [], secondary)
        decreases g.movable - reg.dead, |secondary|
      {
        secondary := Pass(secondary, alg, g, base);
      }
      assert [] + secondary == [];
      AllWorkDone(templated, g, alg, base, reg);
      return true;
    }
  }

  lemma {:induction false} UnlinkedOne(list: seq<Spawn>, s: Spawn)
    requires s in list
    ensures |Unlinked(list, s)| == |list| - 1
  {
    if list[0] != s {
      UnlinkedOne(list[1..], s);
    }
  }

  lemma StartRemoving(templated: set<nat>, g: Graph, alg: nat, was: Registry, base: Registry, r: Registry)
    requires g == Before(templated, alg, was) && Apart(was.users, [])
    requires base == was.(listed := was.listed - {alg})
    requires r == was.(dead := was.dead + {alg}, listed := was.listed - {alg})
    ensures Removing(templated, g, alg, base, r, UsersOf(r.users, alg), [])
    ensures g.movable !! base.dead + {alg}
  {
    hide BuiltOn, Apart;
    assert UsersOf(r.users, alg) + [] == UsersOf(r.users, alg);
    forall s | s in UsersOf(r.users, alg) ensures BuiltOn(g, alg, s.inst) {
      assert Uses(g, s.inst, alg);
      Direct(g, alg, s.inst);
    }
  }
}
