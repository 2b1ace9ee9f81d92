/** camellia_setup_tail and camellia_do_encrypt, as they change their buffers in place.  The code
    writes out the groups one after the other; here they are loops over the group number. */
module CamelliaSetup {
  import opened Camellia
  import opened CamelliaNetwork

  /** The difference absorbed from kw2 into the even rounds of group g. */
  function FromKw2(s: seq<Half>, n: nat, g: nat): Half
    requires g < n && |s| == 8 * n + 2
  {
    if g == 0 then s[1] else Carry(FromKw2(s, n, g - 1), s[8 * g + 1])
  }

  /** The difference absorbed from kw4 into the odd rounds of group g. */
  function FromKw4(s: seq<Half>, n: nat, g: nat): Half
    requires g < n && |s| == 8 * n + 2
    decreases n - g
  {
    if g + 1 == n then s[8 * n + 1] else Carry(FromKw4(s, n, g + 1), s[8 * g + 8])
  }

  predicate EvenRound(n: nat, i: nat) { i < 8 * n && (i % 8 == 3 || i % 8 == 5 || i % 8 == 7) }

  predicate OddRound(n: nat, i: nat) { i < 8 * n && (i % 8 == 2 || i % 8 == 4 || i % 8 == 6) }

  function AfterKw2(s: seq<Half>, n: nat, i: nat): Half
    requires n > 0 && |s| == 8 * n + 2 && i < |s|
  {
    if EvenRound(n, i) then Xor(s[i], FromKw2(s, n, i / 8))
    else if i == 8 * n then Xor(s[i], FromKw2(s, n, n - 1)) else s[i]
  }

  function AfterKw4(s: seq<Half>, n: nat, i: nat): Half
    requires n > 0 && |s| == 8 * n + 2 && i < |s|
  {
    if OddRound(n, i) then Xor(s[i], FromKw4(s, n, i / 8))
    else if i == 0 then Xor(s[i], FromKw4(s, n, 0)) else s[i]
  }

  lemma GroupIndex(g: nat, j: nat)
    requires j < 8
    ensures (8 * g + j) % 8 == j && (8 * g + j) / 8 == g
  {
  }

  /** Entries of the groups before g, and after the last group also kw3, hold their new value. */
  ghost predicate DoneBelow(s: seq<Half>, n: nat, g: nat, now: seq<Half>)
    requires n > 0 && |s| == 8 * n + 2 && g <= n
  {
    && |now| == |s|
    && forall i :: 0 <= i < |s| && i != 1 ==>
         now[i] == if i < 8 * g || g == n then AfterKw2(s, n, i) else s[i]
  }

  /** The part of the absorption of kw2 that lies in one group. */
  method AbsorbEven(sub: array<Half>, ghost s: seq<Half>, n: nat, g: nat)
    requires g < n && sub.Length == |s| == 8 * n + 2
    requires DoneBelow(s, n, g, sub[..]) && sub[1] == FromKw2(s, n, g)
    modifies sub
    ensures DoneBelow(s, n, g + 1, sub[..])
    ensures sub[1] == FromKw2(s, n, if g + 1 < n then g + 1 else g)
  {
    hide Xor, Carry;
    var b := 8 * g;
    assert sub[..][b + 3] == s[b + 3] && sub[..][b + 5] == s[b + 5] && sub[..][b + 7] == s[b + 7];
    assert g + 1 < n ==> sub[..][b + 9] == s[b + 9];
    assert sub[..][8 * n] == s[8 * n];
    ghost var was := sub[..];
    sub[b + 3] := Xor(sub[b + 3], sub[1]);
    sub[b + 5] := Xor(sub[b + 5], sub[1]);
    sub[b + 7] := Xor(sub[b + 7], sub[1]);
    if g + 1 < n {
      sub[1] := Carry(sub[1], sub[b + 9]);
    } else {
      sub[8 * n] := Xor(sub[8 * n], sub[1]);
    }
    forall i | 0 <= i < |s| && i != 1
      ensures sub[..][i] == if i < 8 * (g + 1) || g + 1 == n then AfterKw2(s, n, i) else s[i]
    {
      if b <= i < b + 8 {
        GroupIndex(g, i - b);
      } else {
        assert sub[i] == if i == 8 * n && g + 1 == n then Xor(s[i], FromKw2(s, n, g)) else was[i];
      }
    }
  }

  method AbsorbKw2(sub: array<Half>, n: nat)
    requires n > 0 && sub.Length == 8 * n + 2
    modifies sub
    ensures forall i :: 0 <= i < sub.Length && i != 1 ==> sub[i] == AfterKw2(old(sub[..]), n, i)
  {
    ghost var s := sub[..];
    var g := 0;
    while g < n
      invariant g <= n && DoneBelow(s, n, g, sub[..])
      invariant g < n ==> sub[1] == FromKw2(s, n, g)
    {
      AbsorbEven(sub, s, n, g);
      g := g + 1;
    }
    forall i | 0 <= i < sub.Length && i != 1 ensures sub[i] == AfterKw2(s, n, i) {
      assert sub[..][i] == sub[i];
    }
  }

  ghost predicate DoneFrom(s: seq<Half>, n: nat, g: nat, now: seq<Half>)
    requires n > 0 && |s| == 8 * n + 2 && g <= n
  {
    && |now| == |s|
    && forall i :: 0 <= i < |s| ==> now[i] == if i >= 8 * g && i != 0 then AfterKw4(s, n, i) else s[i]
  }

  method AbsorbOdd(sub: array<Half>, ghost s: seq<Half>, n: nat, g: nat, kw4: Half)
    requires g < n && sub.Length == |s| == 8 * n + 2
    requires DoneFrom(s, n, g + 1, sub[..]) && kw4 == FromKw4(s, n, g)
    modifies sub
    ensures DoneFrom(s, n, g, sub[..])
  {
    hide Xor, Carry, FromKw4;
    var b := 8 * g;
    ghost var was := sub[..];
    assert was[b + 6] == s[b + 6] && was[b + 4] == s[b + 4] && was[b + 2] == s[b + 2];
    sub[b + 6] := Xor(sub[b + 6], kw4);
    sub[b + 4] := Xor(sub[b + 4], kw4);
    sub[b + 2] := Xor(sub[b + 2], kw4);
    forall i | 0 <= i < |s| ensures sub[..][i] == if i >= b && i != 0 then AfterKw4(s, n, i) else s[i] {
      if b <= i < b + 8 {
        GroupIndex(g, i - b);
        assert was[i] == s[i];
      } else {
        assert sub[i] == was[i];
      }
    }
  }

  lemma FromKw4Step(s: seq<Half>, n: nat, g: nat)
    requires 0 < g < n && |s| == 8 * n + 2
    ensures FromKw4(s, n, g - 1) == Carry(FromKw4(s, n, g), s[8 * g])
  {
  }

  lemma NothingDone(s: seq<Half>, n: nat)
    requires n > 0 && |s| == 8 * n + 2
    ensures DoneFrom(s, n, n, s)
  {
  }

  lemma FlKeyKept(s: seq<Half>, n: nat, g: nat, now: seq<Half>)
    requires g < n && |s| == 8 * n + 2 && DoneFrom(s, n, g, now)
    ensures now[8 * g] == s[8 * g]
  {
    hide Xor, FromKw4;
    GroupIndex(g, 0);
  }

  lemma AllDone(s: seq<Half>, n: nat, was: seq<Half>, i: nat)
    requires n > 0 && |s| == 8 * n + 2 && DoneFrom(s, n, 0, was) && i < |s|
    ensures was[0 := Xor(was[0], FromKw4(s, n, 0))][i] == AfterKw4(s, n, i)
  {
  }

  method AbsorbKw4(sub: array<Half>, n: nat)
    requires n > 0 && sub.Length == 8 * n + 2
    modifies sub
    ensures forall i :: 0 <= i < sub.Length ==> sub[i] == AfterKw4(old(sub[..]), n, i)
  {
    hide Xor, Carry, FromKw4, AfterKw4, DoneFrom;
    ghost var s := sub[..];
    var kw4 := sub[8 * n + 1];
    NothingDone(s, n);
    EndFromKw4(s, n);
    var g := n;
    while g > 0
      invariant g <= n && DoneFrom(s, n, g, sub[..])
      invariant kw4 == FromKw4(s, n, if g > 0 then g - 1 else 0)
    {
      g := g - 1;
      AbsorbOdd(sub, s, n, g, kw4);
      if g > 0 {
        FlKeyKept(s, n, g, sub[..]);
        FromKw4Step(s, n, g);
        kw4 := Carry(kw4, sub[8 * g]);
      }
    }
    ghost var was := sub[..];
    sub[0] := Xor(sub[0], kw4);
    forall i | 0 <= i < sub.Length ensures sub[i] == AfterKw4(s, n, i) {
      AllDone(s, n, was, i);
    }
  }

  /** The subkeys once both whitening keys are absorbed. */
  ghost predicate IsAbsorbed(s: seq<Half>, n: nat, a: seq<Half>)
    requires n > 0 && |s| == 8 * n + 2
  {
    && |a| == |s|
    && forall i :: 0 <= i < |s| && i != 1 ==>
         a[i] == if EvenRound(n, i) then Xor(s[i], FromKw2(s, n, i / 8))
                 else if i == 8 * n then Xor(s[i], FromKw2(s, n, n - 1))
                 else if OddRound(n, i) then Xor(s[i], FromKw4(s, n, i / 8))
                 else if i == 0 then Xor(s[i], FromKw4(s, n, 0)) else s[i]
  }

  /** The "key XOR is end of F-function" assignments. */
  function Shifted(a: seq<Half>, n: nat, i: nat): Half
    requires n > 0 && |a| == 8 * n + 2 && i <= 8 * n
  {
    if i == 8 * n then Xor(a[8 * n], a[8 * n - 1])
    else if i == 0 then Xor(a[0], a[2])
    else if i == 2 then a[3]
    else if i == 8 * n - 1 then a[i - 1]
    else if i % 8 == 2 then Xor(Carry(a[i - 3], a[i - 1]), a[i + 1])
    else if i % 8 == 7 then Xor(a[i - 1], Carry(a[i + 3], a[i + 1]))
    else if i % 8 <= 1 then a[i]
    else Xor(a[i - 1], a[i + 1])
  }

  /** The absorbed differences cancel: two neighbours of the same half carry the same one. */
  lemma ShiftedCancels(s: seq<Half>, n: nat, a: seq<Half>, i: nat)
    requires n > 0 && |s| == 8 * n + 2 && IsAbsorbed(s, n, a) && i <= 8 * n && i != 1
    ensures Shifted(a, n, i) == EndKey(s, n, i)
  {
    hide Xor, Carry, FromKw2, FromKw4, IsAbsorbed;
    var g := i / 8;
    if i == 8 * n {
      AbsorbedEven(s, n, a, n - 1, 7);
      AbsorbedEnds(s, n, a);
      XorLaws(s[i], s[i - 1], FromKw2(s, n, n - 1));
    } else if i == 0 {
      AbsorbedEnds(s, n, a);
      AbsorbedOdd(s, n, a, 0, 2);
      XorLaws(s[0], s[2], FromKw4(s, n, 0));
    } else if i % 8 <= 1 {
      AbsorbedFl(s, n, a, g, i % 8);
    } else if i % 8 == 2 {
      AbsorbedEven(s, n, a, g, 3);
      if g == 0 {
        StartFromKw2(s, n);
        XorLaws(s[1], s[3], s[3]);
      } else {
        AbsorbedEven(s, n, a, g - 1, 7);
        AbsorbedFl(s, n, a, g, 1);
        LeadCancels(s, n, g);
      }
    } else if i % 8 == 7 {
      AbsorbedOdd(s, n, a, g, 6);
      if g + 1 == n {
        EndFromKw4(s, n);
      } else {
        AbsorbedOdd(s, n, a, g + 1, 2);
        AbsorbedFl(s, n, a, g + 1, 0);
        TrailCancels(s, n, g);
      }
    } else if i % 2 == 1 {
      AbsorbedOdd(s, n, a, g, i % 8 - 1);
      AbsorbedOdd(s, n, a, g, i % 8 + 1);
      XorLaws(s[i - 1], s[i + 1], FromKw4(s, n, g));
    } else {
      AbsorbedEven(s, n, a, g, i % 8 - 1);
      AbsorbedEven(s, n, a, g, i % 8 + 1);
      XorLaws(s[i - 1], s[i + 1], FromKw2(s, n, g));
    }
  }

  lemma AbsorbedEven(s: seq<Half>, n: nat, a: seq<Half>, g: nat, j: nat)
    requires |s| == 8 * n + 2 && g < n && IsAbsorbed(s, n, a) && (j == 3 || j == 5 || j == 7)
    ensures a[8 * g + j] == Xor(s[8 * g + j], FromKw2(s, n, g))
  {
    hide Xor, FromKw2, FromKw4;
    GroupIndex(g, j);
  }

  lemma AbsorbedOdd(s: seq<Half>, n: nat, a: seq<Half>, g: nat, j: nat)
    requires |s| == 8 * n + 2 && g < n && IsAbsorbed(s, n, a) && (j == 2 || j == 4 || j == 6)
    ensures a[8 * g + j] == Xor(s[8 * g + j], FromKw4(s, n, g))
  {
    hide Xor, FromKw2, FromKw4;
    GroupIndex(g, j);
  }

  lemma AbsorbedFl(s: seq<Half>, n: nat, a: seq<Half>, g: nat, j: nat)
    requires |s| == 8 * n + 2 && 0 < g < n && IsAbsorbed(s, n, a) && j < 2
    ensures a[8 * g + j] == s[8 * g + j]
  {
    hide Xor, FromKw2, FromKw4;
    GroupIndex(g, j);
  }

  lemma AbsorbedEnds(s: seq<Half>, n: nat, a: seq<Half>)
    requires n > 0 && |s| == 8 * n + 2 && IsAbsorbed(s, n, a)
    ensures a[0] == Xor(s[0], FromKw4(s, n, 0)) && a[8 * n] == Xor(s[8 * n], FromKw2(s, n, n - 1))
  {
  }

  lemma StartFromKw2(s: seq<Half>, n: nat)
    requires n > 0 && |s| == 8 * n + 2
    ensures FromKw2(s, n, 0) == s[1]
  {
  }

  lemma EndFromKw4(s: seq<Half>, n: nat)
    requires n > 0 && |s| == 8 * n + 2
    ensures FromKw4(s, n, n - 1) == s[8 * n + 1]
  {
  }

  lemma LeadCancels(s: seq<Half>, n: nat, g: nat)
    requires 0 < g < n && |s| == 8 * n + 2
    ensures Xor(Carry(Xor(s[8 * g - 1], FromKw2(s, n, g - 1)), s[8 * g + 1]), Xor(s[8 * g + 3], FromKw2(s, n, g)))
            == Xor(Carry(s[8 * g - 1], s[8 * g + 1]), s[8 * g + 3])
  {
    hide Xor, Carry;
    CarryLinear(s[8 * g - 1], FromKw2(s, n, g - 1), s[8 * g + 1]);
    XorLaws(Carry(s[8 * g - 1], s[8 * g + 1]), s[8 * g + 3], FromKw2(s, n, g));
  }

  lemma TrailCancels(s: seq<Half>, n: nat, g: nat)
    requires g + 1 < n && |s| == 8 * n + 2
    ensures Xor(Xor(s[8 * g + 6], FromKw4(s, n, g)), Carry(Xor(s[8 * g + 10], FromKw4(s, n, g + 1)), s[8 * g + 8]))
            == Xor(s[8 * g + 6], Carry(s[8 * g + 10], s[8 * g + 8]))
  {
    hide Xor, Carry;
    CarryLinear(s[8 * g + 10], FromKw4(s, n, g + 1), s[8 * g + 8]);
    XorLaws(s[8 * g + 6], Carry(s[8 * g + 10], s[8 * g + 8]), FromKw4(s, n, g));
  }

  lemma {:induction false} FromKw4Same(s: seq<Half>, a: seq<Half>, n: nat, g: nat)
    requires g < n && |s| == |a| == 8 * n + 2
    requires forall i :: 0 <= i < |s| && i != 1 ==> a[i] == AfterKw2(s, n, i)
    ensures FromKw4(a, n, g) == FromKw4(s, n, g)
    decreases n - g
  {
    hide Carry, Xor;
    if g + 1 < n {
      FromKw4Same(s, a, n, g + 1);
      GroupIndex(g + 1, 0);
      assert a[8 * g + 8] == AfterKw2(s, n, 8 * g + 8);
    } else {
      assert a[8 * n + 1] == AfterKw2(s, n, 8 * n + 1);
    }
  }

  lemma BothAbsorbed(s: seq<Half>, n: nat, m: seq<Half>, a: seq<Half>)
    requires n > 0 && |s| == |m| == |a| == 8 * n + 2
    requires forall i :: 0 <= i < |s| && i != 1 ==> m[i] == AfterKw2(s, n, i)
    requires forall i :: 0 <= i < |s| ==> a[i] == AfterKw4(m, n, i)
    ensures IsAbsorbed(s, n, a)
  {
    hide Xor, Carry, FromKw2, FromKw4;
    forall i | 0 <= i < |s| && i != 1
      ensures a[i] == if EvenRound(n, i) then Xor(s[i], FromKw2(s, n, i / 8))
                      else if i == 8 * n then Xor(s[i], FromKw2(s, n, n - 1))
                      else if OddRound(n, i) then Xor(s[i], FromKw4(s, n, i / 8))
                      else if i == 0 then Xor(s[i], FromKw4(s, n, 0)) else s[i]
    {
      FromKw4Same(s, m, n, if i < 8 * n then i / 8 else 0);
      FromKw4Same(s, m, n, 0);
    }
  }

  /** The inverse of the last half of the P-function, over the round keys of every group. */
  method InversePass(subkey: array<Half>, n: nat)
    requires n > 0 && subkey.Length > 8 * n
    modifies subkey
    ensures forall i :: 0 <= i < subkey.Length ==>
              subkey[i] == if RoundIndex(n, i) then InverseP(old(subkey[i])) else old(subkey[i])
  {
    hide InverseP, RoundIndex;
    var i := 2;
    forall j: nat ensures RoundIndex(n, j) ==> 2 <= j < 8 * n {
      RoundRange(n, j);
    }
    while i < 8 * n
      invariant 2 <= i <= 8 * n + 2 && i % 8 == 2
      invariant forall j :: 0 <= j < subkey.Length ==>
                  subkey[j] == if RoundIndex(n, j) && j < i then InverseP(old(subkey[j])) else old(subkey[j])
    {
      ghost var was := subkey[..];
      InverseSix(subkey, i);
      forall j | 0 <= j < subkey.Length
        ensures subkey[j] == if RoundIndex(n, j) && j < i + 8 then InverseP(old(subkey[j])) else old(subkey[j])
      {
        PassIndex(n, i, j);
        assert was[j] == if RoundIndex(n, j) && j < i then InverseP(old(subkey[j])) else old(subkey[j]);
      }
      i := i + 8;
    }
  }

  method InverseSix(subkey: array<Half>, i: nat)
    requires i + 6 <= subkey.Length
    modifies subkey
    ensures forall j :: 0 <= j < subkey.Length ==>
              subkey[j] == if i <= j < i + 6 then InverseP(old(subkey[j])) else old(subkey[j])
  {
    hide InverseP;
    InversePair(subkey, i);
    InversePair(subkey, i + 2);
    InversePair(subkey, i + 4);
  }

  method InversePair(subkey: array<Half>, i: nat)
    requires i + 2 <= subkey.Length
    modifies subkey
    ensures forall j :: 0 <= j < subkey.Length ==>
              subkey[j] == if i <= j < i + 2 then InverseP(old(subkey[j])) else old(subkey[j])
  {
    hide InverseP;
    subkey[i] := InverseP(subkey[i]);
    subkey[i + 1] := InverseP(subkey[i + 1]);
  }

  lemma PassIndex(n: nat, i: nat, j: nat)
    requires i % 8 == 2 && i < 8 * n
    ensures i <= j < i + 8 ==> (RoundIndex(n, j) <==> j < i + 6)
  {
  }

  lemma RoundRange(n: nat, j: nat)
    ensures RoundIndex(n, j) ==> 2 <= j < 8 * n
  {
  }

  /** camellia_setup_tail: whatever the subkeys, the table is the one the network needs. */
  method SetupTail(subkey: array<Half>, sub: array<Half>, n: nat)
    requires n > 0 && sub.Length == 8 * n + 2 && subkey.Length > 8 * n && subkey != sub
    modifies subkey, sub
    ensures IsTable(old(sub[..]), n, subkey[..])
  {
    hide InverseP, EndKey, Shifted, AfterKw2, AfterKw4, IsAbsorbed;
    ghost var s := sub[..];
    AbsorbKw2(sub, n);
    ghost var m := sub[..];
    AbsorbKw4(sub, n);
    ghost var a := sub[..];
    BothAbsorbed(s, n, m, a);
    var i := 0;
    while i <= 8 * n
      invariant 0 <= i <= 8 * n + 1 && sub[..] == a
      invariant forall j :: 0 <= j < i && j != 1 ==> subkey[j] == Shifted(a, n, j)
    {
      if i != 1 {
        subkey[i] := Shifted(sub[..], n, i);
      }
      i := i + 1;
    }
    forall j | 0 <= j <= 8 * n && j != 1 ensures subkey[j] == EndKey(s, n, j) {
      ShiftedCancels(s, n, a, j);
    }
    InversePass(subkey, n);
  }

  /** ROUNDS of camellia_do_encrypt, in place on io. */
  method Rounds(t: Tables, key: seq<Half>, io: array<Half>, b: nat)
    requires io.Length == 2 && b + 8 <= |key|
    modifies io
    ensures State(io[0], io[1]) == SmSix(t, key, b, old(State(io[0], io[1])))
  {
    hide RoundSm;
    io[1] := RoundSm(t, io[0], key[b + 2], io[1]);
    io[0] := RoundSm(t, io[1], key[b + 3], io[0]);
    io[1] := RoundSm(t, io[0], key[b + 4], io[1]);
    io[0] := RoundSm(t, io[1], key[b + 5], io[0]);
    io[1] := RoundSm(t, io[0], key[b + 6], io[1]);
    io[0] := RoundSm(t, io[1], key[b + 7], io[0]);
  }

  /** CAMELLIA_FLS in place on io. */
  method Fls(kl: Half, kr: Half, io: array<Half>)
    requires io.Length == 2
    modifies io
    ensures State(io[0], io[1]) == FlLayer(kl, kr, old(State(io[0], io[1])))
  {
    hide Fl, FlInv;
    io[0] := Fl(io[0], kl);
    io[1] := FlInv(io[1], kr);
  }

  /** camellia_do_encrypt: max is 24 or 32; the caller swaps the halves. */
  method DoEncrypt(t: Tables, key: seq<Half>, io: array<Half>, max: nat)
    requires io.Length == 2 && (max == 24 || max == 32) && |key| > max
    modifies io
    ensures State(io[1], io[0]) == Encrypt(t, key, max / 8, old(State(io[0], io[1])))
  {
    hide SmSix, FlLayer, Xor;
    GroupsUnrolled(t, key, max / 8, State(Xor(io[0], key[0]), io[1]));
    io[0] := Xor(io[0], key[0]);
    Rounds(t, key, io, 0);
    Fls(key[8], key[9], io);
    Rounds(t, key, io, 8);
    Fls(key[16], key[17], io);
    Rounds(t, key, io, 16);
    if max == 32 {
      Fls(key[24], key[25], io);
      Rounds(t, key, io, 24);
    }
    io[1] := Xor(io[1], key[max]);
  }

  lemma GroupsUnrolled(t: Tables, key: seq<Half>, n: nat, s: State)
    requires (n == 3 || n == 4) && |key| > 8 * n
    ensures var s1 := FlLayer(key[8], key[9], SmSix(t, key, 0, s));
            var s2 := FlLayer(key[16], key[17], SmSix(t, key, 8, s1));
            var s3 := SmSix(t, key, 16, s2);
            SmGroups(t, key, n, 0, s) == if n == 3 then s3 else SmSix(t, key, 24, FlLayer(key[24], key[25], s3))
  {
    hide SmSix, FlLayer;
    var s1 := FlLayer(key[8], key[9], SmSix(t, key, 0, s));
    var s2 := FlLayer(key[16], key[17], SmSix(t, key, 8, s1));
    assert SmGroups(t, key, n, 0, s) == SmGroups(t, key, n, 1, s1);
    assert SmGroups(t, key, n, 1, s1) == SmGroups(t, key, n, 2, s2);
  }

  /** ROUNDS of camellia_do_decrypt; io[0] holds the right half of the state being undone. */
  method UnRounds(t: Tables, key: seq<Half>, io: array<Half>, b: nat)
    requires io.Length == 2 && b + 8 <= |key|
    modifies io
    ensures State(io[1], io[0]) == UnSix(t, key, b, old(State(io[1], io[0])))
  {
    hide RoundSm;
    io[1] := RoundSm(t, io[0], key[b + 7], io[1]);
    io[0] := RoundSm(t, io[1], key[b + 6], io[0]);
    io[1] := RoundSm(t, io[0], key[b + 5], io[1]);
    io[0] := RoundSm(t, io[1], key[b + 4], io[0]);
    io[1] := RoundSm(t, io[0], key[b + 3], io[1]);
    io[0] := RoundSm(t, io[1], key[b + 2], io[0]);
  }

  /** FLS of camellia_do_decrypt. */
  method UnFls(key: seq<Half>, io: array<Half>, b: nat)
    requires io.Length == 2 && b + 2 <= |key|
    modifies io
    ensures State(io[1], io[0]) == UnLayer(key[b], key[b + 1], old(State(io[1], io[0])))
  {
    hide Fl, FlInv;
    Fls(key[b + 1], key[b], io);
  }

  /** camellia_do_decrypt: max is 24 or 32; the caller swaps the halves. */
  method DoDecrypt(t: Tables, key: seq<Half>, io: array<Half>, max: nat)
    requires io.Length == 2 && (max == 24 || max == 32) && |key| > max
    modifies io
    ensures State(io[1], io[0]) == Decrypt(t, key, max / 8, old(State(io[0], io[1])))
  {
    hide UnSix, UnLayer, Xor, UnGroups;
    UnGroupsUnrolled(t, key, max / 8, State(io[1], Xor(io[0], key[max])));
    io[0] := Xor(io[0], key[max]);
    if max == 32 {
      UnRounds(t, key, io, 24);
      UnFls(key, io, 24);
    }
    UnRounds(t, key, io, 16);
    UnFls(key, io, 16);
    UnRounds(t, key, io, 8);
    UnFls(key, io, 8);
    UnRounds(t, key, io, 0);
    io[1] := Xor(io[1], key[0]);
  }

  lemma UnGroupsUnrolled(t: Tables, key: seq<Half>, n: nat, s: State)
    requires (n == 3 || n == 4) && |key| > 8 * n
    ensures var s3 := if n == 3 then s else UnLayer(key[24], key[25], UnSix(t, key, 24, s));
            var s2 := UnLayer(key[16], key[17], UnSix(t, key, 16, s3));
            var s1 := UnLayer(key[8], key[9], UnSix(t, key, 8, s2));
            UnGroups(t, key, n, n - 1, s) == UnSix(t, key, 0, s1)
  {
    hide UnSix, UnLayer;
    var s3 := if n == 3 then s else UnLayer(key[24], key[25], UnSix(t, key, 24, s));
    var s2 := UnLayer(key[16], key[17], UnSix(t, key, 16, s3));
    assert UnGroups(t, key, n, n - 1, s) == UnGroups(t, key, n, 2, s3);
    assert UnGroups(t, key, n, 2, s3) == UnGroups(t, key, n, 1, s2);
  }

  /** Set-up, encryption and decryption as they run: the code computes the plain network of
      RFC 3713, and decryption gives the block back. */
  method EndToEnd(t: Tables, sub: array<Half>, subkey: array<Half>, io: array<Half>, max: nat)
    requires (max == 24 || max == 32) && sub.Length == max + 2 && subkey.Length > max && subkey != sub
    requires io.Length == 2 && io != sub && io != subkey
    modifies sub, subkey, io
    ensures State(io[0], io[1]) == PlainCipher(t, old(sub[..]), max / 8, old(State(io[0], io[1])))
    ensures Decrypt(t, subkey[..], max / 8, State(io[0], io[1])) == old(State(io[0], io[1]))
  {
    hide PlainCipher, Encrypt, Decrypt, IsTable;
    SetupTail(subkey, sub, max / 8);
    DoEncrypt(t, subkey[..], io, max);
    io[0], io[1] := io[1], io[0];
    SameCiphertext(t, old(sub[..]), subkey[..], max / 8, old(State(io[0], io[1])));
    DecryptInverts(t, subkey[..], max / 8, old(State(io[0], io[1])));
  }
}
