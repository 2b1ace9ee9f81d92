/** The two forms of the Camellia network, and the key table that makes them equal.

    A network of n groups has six rounds a group and an FL layer between groups: n is 3 for
    128-bit keys and 4 for longer ones, and the code's `max` is 8n.  Subkeys are numbered as in
    camellia_setup_tail: 0 and 1 are kw1 and kw2, group g has its round keys at 8g+2 to 8g+7 and
    the FL keys behind it at 8g+8 and 8g+9, and kw3 and kw4 are at 8n and 8n+1. */
module CamelliaNetwork {
  import opened Camellia

  datatype State = State(d1: Half, d2: Half)

  /** Two rounds of the RFC: keys enter before F. */
  function PlainPair(t: Tables, k: Half, k': Half, s: State): State {
    var d2 := Xor(s.d2, F(t, s.d1, k));
    State(Xor(s.d1, F(t, d2, k')), d2)
  }

  /** Two rounds of the code. */
  function SmPair(t: Tables, k: Half, k': Half, s: State): State {
    var d2 := RoundSm(t, s.d1, k, s.d2);
    State(RoundSm(t, d2, k', s.d1), d2)
  }

  function PlainSix(t: Tables, sub: seq<Half>, b: nat, s: State): State
    requires b + 8 <= |sub|
  {
    PlainPair(t, sub[b + 6], sub[b + 7], PlainPair(t, sub[b + 4], sub[b + 5], PlainPair(t, sub[b + 2], sub[b + 3], s)))
  }

  /** ROUNDS of camellia_do_encrypt. */
  function SmSix(t: Tables, key: seq<Half>, b: nat, s: State): State
    requires b + 8 <= |key|
  {
    SmPair(t, key[b + 6], key[b + 7], SmPair(t, key[b + 4], key[b + 5], SmPair(t, key[b + 2], key[b + 3], s)))
  }

  /** CAMELLIA_FLS. */
  function FlLayer(kl: Half, kr: Half, s: State): State { State(Fl(s.d1, kl), FlInv(s.d2, kr)) }

  /** The groups from g on, in the form of section 2.3 of RFC 3713. */
  function PlainGroups(t: Tables, sub: seq<Half>, n: nat, g: nat, s: State): State
    requires g < n && |sub| == 8 * n + 2
    decreases n - g
  {
    var s := PlainSix(t, sub, 8 * g, s);
    if g + 1 == n then s else PlainGroups(t, sub, n, g + 1, FlLayer(sub[8 * g + 8], sub[8 * g + 9], s))
  }

  /** The cipher of RFC 3713: whitening, groups, whitening, and the final swap. */
  function PlainCipher(t: Tables, sub: seq<Half>, n: nat, m: State): State
    requires n > 0 && |sub| == 8 * n + 2
  {
    var s := PlainGroups(t, sub, n, 0, State(Xor(m.d1, sub[0]), Xor(m.d2, sub[1])));
    State(Xor(s.d2, sub[8 * n]), Xor(s.d1, sub[8 * n + 1]))
  }

  function SmGroups(t: Tables, key: seq<Half>, n: nat, g: nat, s: State): State
    requires g < n && |key| >= 8 * n
    decreases n - g
  {
    var s := SmSix(t, key, 8 * g, s);
    if g + 1 == n then s else SmGroups(t, key, n, g + 1, FlLayer(key[8 * g + 8], key[8 * g + 9], s))
  }

  /** camellia_do_encrypt and the swap of camellia_encrypt. */
  function Encrypt(t: Tables, key: seq<Half>, n: nat, m: State): State
    requires n > 0 && |key| > 8 * n
  {
    var s := SmGroups(t, key, n, 0, State(Xor(m.d1, key[0]), m.d2));
    State(Xor(s.d2, key[8 * n]), s.d1)
  }

  /** What round keys become when each is added at the end of the round before. */
  function EndKey(sub: seq<Half>, n: nat, i: nat): Half
    requires n > 0 && |sub| == 8 * n + 2 && i <= 8 * n
  {
    var b := i - i % 8;
    if i == 8 * n then Xor(sub[8 * n], sub[8 * n - 1])
    else if i == 0 then Xor(sub[0], sub[2])
    else if i % 8 == 2 then Xor(Lead(sub, n, i / 8), sub[i + 1])
    else if i % 8 == 7 then Xor(sub[i - 1], Trail(sub, n, i / 8))
    else if i % 8 <= 1 then sub[i]
    else Xor(sub[i - 1], sub[i + 1])
  }

  /** The difference the right half carries into group g. */
  function Lead(sub: seq<Half>, n: nat, g: nat): Half
    requires g < n && |sub| == 8 * n + 2
  {
    if g == 0 then sub[1] else Carry(sub[8 * g - 1], sub[8 * g + 1])
  }

  /** The difference the left half carries out of group g. */
  function Trail(sub: seq<Half>, n: nat, g: nat): Half
    requires g < n && |sub| == 8 * n + 2
  {
    if g + 1 == n then sub[8 * n + 1] else Carry(sub[8 * g + 10], sub[8 * g + 8])
  }

  predicate RoundIndex(n: nat, i: nat) { i < 8 * n && i % 8 >= 2 }

  /** The key table for unabsorbed subkeys `sub`; entry 1 is unused. */
  ghost predicate IsTable(sub: seq<Half>, n: nat, key: seq<Half>) {
    && n > 0 && |sub| == 8 * n + 2 && |key| > 8 * n
    && forall i :: 0 <= i <= 8 * n && i != 1 ==>
         key[i] == if RoundIndex(n, i) then InverseP(EndKey(sub, n, i)) else EndKey(sub, n, i)
  }

  /** The code's state is the plain state plus a known difference. */
  predicate Differ(code: State, plain: State, a: Half, b: Half) {
    code.d1 == Xor(plain.d1, a) && code.d2 == Xor(plain.d2, b)
  }

  /** One round: if the input differs by the round key, the output differs by what was added. */
  lemma RoundSim(t: Tables, k: Half, x: Half, x': Half, y: Half, y': Half, b: Half, e: Half)
    requires x' == Xor(x, k) && y' == Xor(y, b)
    ensures RoundSm(t, x', InverseP(e), y') == Xor(Xor(y, F(t, x, k)), Xor(b, e))
  {
    hide F, RoundSm, InverseP, Xor;
    RoundIsF(t, x', e, y');
    KeyFirst(t, x, k, x');
    var f := F(t, x, k);
    XorLaws(y, b, f);
    XorLaws(b, f, f);
    XorLaws(y, f, b);
    XorLaws(Xor(y, f), b, e);
  }

  lemma PairSim(t: Tables, k: Half, k': Half, e: Half, e': Half, s: State, c: State, b: Half)
    requires Differ(c, s, k, b) && Xor(b, e) == k'
    ensures Differ(SmPair(t, InverseP(e), InverseP(e'), c), PlainPair(t, k, k', s), Xor(k, e'), k')
  {
    hide F, RoundSm, InverseP, Xor;
    RoundSim(t, k, s.d1, c.d1, s.d2, c.d2, b, e);
    var d2 := Xor(s.d2, F(t, s.d1, k));
    var d2' := RoundSm(t, c.d1, InverseP(e), c.d2);
    RoundSim(t, k', d2, d2', s.d1, c.d1, k, e');
  }

  lemma SixSim(t: Tables, sub: seq<Half>, key: seq<Half>, n: nat, g: nat, s: State, c: State)
    requires IsTable(sub, n, key) && g < n && Differ(c, s, sub[8 * g + 2], Lead(sub, n, g))
    ensures Differ(SmSix(t, key, 8 * g, c), PlainSix(t, sub, 8 * g, s), Trail(sub, n, g), sub[8 * g + 7])
  {
    hide SmPair, PlainPair, InverseP, Xor, Lead, Trail, Differ;
    var b := 8 * g;
    assert (b + 2) % 8 == 2 && (b + 3) % 8 == 3 && (b + 4) % 8 == 4;
    assert (b + 5) % 8 == 5 && (b + 6) % 8 == 6 && (b + 7) % 8 == 7;
    assert (b + 2) / 8 == g && (b + 7) / 8 == g;
    XorLaws(Lead(sub, n, g), sub[b + 3], sub[b + 3]);
    PairSim(t, sub[b + 2], sub[b + 3], EndKey(sub, n, b + 2), EndKey(sub, n, b + 3), s, c, Lead(sub, n, g));
    var s1, c1 := PlainPair(t, sub[b + 2], sub[b + 3], s), SmPair(t, key[b + 2], key[b + 3], c);
    XorLaws(sub[b + 2], sub[b + 4], sub[b + 4]);
    XorLaws(sub[b + 3], sub[b + 5], sub[b + 5]);
    PairSim(t, sub[b + 4], sub[b + 5], EndKey(sub, n, b + 4), EndKey(sub, n, b + 5), s1, c1, sub[b + 3]);
    var s2, c2 := PlainPair(t, sub[b + 4], sub[b + 5], s1), SmPair(t, key[b + 4], key[b + 5], c1);
    XorLaws(sub[b + 4], sub[b + 6], sub[b + 6]);
    XorLaws(sub[b + 5], sub[b + 7], sub[b + 7]);
    PairSim(t, sub[b + 6], sub[b + 7], EndKey(sub, n, b + 6), EndKey(sub, n, b + 7), s2, c2, sub[b + 5]);
    XorLaws(sub[b + 6], Trail(sub, n, g), sub[b + 6]);
  }

  lemma LayerSim(sub: seq<Half>, n: nat, g: nat, s: State, c: State)
    requires |sub| == 8 * n + 2 && g + 1 < n && Differ(c, s, Trail(sub, n, g), sub[8 * g + 7])
    ensures Differ(FlLayer(sub[8 * g + 8], sub[8 * g + 9], c), FlLayer(sub[8 * g + 8], sub[8 * g + 9], s),
                   sub[8 * (g + 1) + 2], Lead(sub, n, g + 1))
  {
    hide Fl, FlInv, Carry, Xor;
    FlDifference(s.d1, sub[8 * g + 10], sub[8 * g + 8]);
    FlInvDifference(s.d2, sub[8 * g + 7], sub[8 * g + 9]);
  }

  lemma {:induction false} GroupsSim(t: Tables, sub: seq<Half>, key: seq<Half>, n: nat, g: nat, s: State, c: State)
    requires IsTable(sub, n, key) && g < n && Differ(c, s, sub[8 * g + 2], Lead(sub, n, g))
    ensures Differ(SmGroups(t, key, n, g, c), PlainGroups(t, sub, n, g, s), sub[8 * n + 1], sub[8 * n - 1])
    decreases n - g
  {
    hide SmSix, PlainSix, FlLayer, Lead, Differ, Xor, Carry;
    SixSim(t, sub, key, n, g, s, c);
    var s1, c1 := PlainSix(t, sub, 8 * g, s), SmSix(t, key, 8 * g, c);
    if g + 1 < n {
      assert (8 * g + 8) % 8 == 0 && (8 * g + 9) % 8 == 1;
      assert key[8 * g + 8] == sub[8 * g + 8] && key[8 * g + 9] == sub[8 * g + 9];
      LayerSim(sub, n, g, s1, c1);
      GroupsSim(t, sub, key, n, g + 1, FlLayer(sub[8 * g + 8], sub[8 * g + 9], s1),
                FlLayer(sub[8 * g + 8], sub[8 * g + 9], c1));
    }
  }

  /** For every block and every unabsorbed subkey set, the code with its key table computes the
      ciphertext of RFC 3713. */
  lemma SameCiphertext(t: Tables, sub: seq<Half>, key: seq<Half>, n: nat, m: State)
    requires IsTable(sub, n, key)
    ensures Encrypt(t, key, n, m) == PlainCipher(t, sub, n, m)
  {
    hide Xor, SmGroups, PlainGroups;
    var s0 := State(Xor(m.d1, sub[0]), Xor(m.d2, sub[1]));
    var c0 := State(Xor(m.d1, key[0]), m.d2);
    XorLaws(m.d1, sub[0], sub[2]);
    XorLaws(Xor(m.d2, sub[1]), sub[1], sub[1]);
    XorLaws(sub[1], m.d2, m.d2);
    assert (8 * n) % 8 == 0;
    assert Differ(c0, s0, sub[2], sub[1]);
    GroupsSim(t, sub, key, n, 0, s0, c0);
    var s, c := PlainGroups(t, sub, n, 0, s0), SmGroups(t, key, n, 0, c0);
    XorLaws(s.d2, sub[8 * n - 1], sub[8 * n]);
    XorLaws(sub[8 * n], sub[8 * n - 1], sub[8 * n - 1]);
    XorLaws(sub[8 * n - 1], sub[8 * n], sub[8 * n]);
    XorLaws(s.d2, sub[8 * n - 1], Xor(sub[8 * n - 1], sub[8 * n]));
  }

  /** Two rounds of camellia_do_decrypt's ROUNDS: the halves change roles and the keys run backwards. */
  function UnPair(t: Tables, k: Half, k': Half, s: State): State {
    var d1 := RoundSm(t, s.d2, k', s.d1);
    State(d1, RoundSm(t, d1, k, s.d2))
  }

  function UnSix(t: Tables, key: seq<Half>, b: nat, s: State): State
    requires b + 8 <= |key|
  {
    UnPair(t, key[b + 2], key[b + 3], UnPair(t, key[b + 4], key[b + 5], UnPair(t, key[b + 6], key[b + 7], s)))
  }

  /** FLS of camellia_do_decrypt, which takes its two keys in the other order. */
  function UnLayer(kl: Half, kr: Half, s: State): State { State(FlInv(s.d1, kl), Fl(s.d2, kr)) }

  /** The groups g, g-1, ..., 0. */
  function UnGroups(t: Tables, key: seq<Half>, n: nat, g: nat, s: State): State
    requires g < n && |key| >= 8 * n
  {
    var s := UnSix(t, key, 8 * g, s);
    if g == 0 then s else UnGroups(t, key, n, g - 1, UnLayer(key[8 * g], key[8 * g + 1], s))
  }

  /** camellia_do_decrypt and the swap of camellia_decrypt; its io[0], io[1] hold the half that
      encryption left in io[2], io[3]. */
  function Decrypt(t: Tables, key: seq<Half>, n: nat, c: State): State
    requires n > 0 && |key| > 8 * n
  {
    var s := UnGroups(t, key, n, n - 1, State(c.d2, Xor(c.d1, key[8 * n])));
    State(Xor(s.d1, key[0]), s.d2)
  }

  /** Running a round twice gives back its input. */
  lemma RoundTwice(t: Tables, x: Half, k: Half, y: Half)
    ensures RoundSm(t, x, k, RoundSm(t, x, k, y)) == y
  {
    hide Words.X, LookLeft, LookRight, Words.Ror8;
    var il := Words.X(LookLeft(t, x.l), k.l);
    var ir := Words.X(LookRight(t, x.r), Words.X(il, k.r));
    Words.XUndo(y.l, ir);
    Words.XUndo(y.r, Words.X(Words.Ror8(il), ir));
  }

  lemma PairUndone(t: Tables, k: Half, k': Half, s: State)
    ensures UnPair(t, k, k', SmPair(t, k, k', s)) == s
  {
    hide RoundSm;
    var d2 := RoundSm(t, s.d1, k, s.d2);
    RoundTwice(t, d2, k', s.d1);
    RoundTwice(t, s.d1, k, s.d2);
  }

  lemma SixUndone(t: Tables, key: seq<Half>, b: nat, s: State)
    requires b + 8 <= |key|
    ensures UnSix(t, key, b, SmSix(t, key, b, s)) == s
  {
    hide SmPair, UnPair;
    var s1 := SmPair(t, key[b + 2], key[b + 3], s);
    var s2 := SmPair(t, key[b + 4], key[b + 5], s1);
    PairUndone(t, key[b + 6], key[b + 7], s2);
    PairUndone(t, key[b + 4], key[b + 5], s1);
    PairUndone(t, key[b + 2], key[b + 3], s);
  }

  /** Undoing everything from group g on leads to undoing the groups before g. */
  lemma {:induction false} GroupsUndone(t: Tables, key: seq<Half>, n: nat, g: nat, s: State)
    requires g < n && |key| >= 8 * n
    ensures UnGroups(t, key, n, n - 1, SmGroups(t, key, n, g, s))
            == if g == 0 then s else UnGroups(t, key, n, g - 1, UnLayer(key[8 * g], key[8 * g + 1], s))
    decreases n - g
  {
    hide SmSix, UnSix, Fl, FlInv;
    var s1 := SmSix(t, key, 8 * g, s);
    SixUndone(t, key, 8 * g, s);
    if g + 1 < n {
      var s2 := FlLayer(key[8 * g + 8], key[8 * g + 9], s1);
      GroupsUndone(t, key, n, g + 1, s2);
      FlInverse(s1.d1, key[8 * g + 8]);
      FlInverse(s1.d2, key[8 * g + 9]);
    }
  }

  /** Decryption inverts encryption for every key table. */
  lemma DecryptInverts(t: Tables, key: seq<Half>, n: nat, m: State)
    requires n > 0 && |key| > 8 * n
    ensures Decrypt(t, key, n, Encrypt(t, key, n, m)) == m
  {
    hide Xor, SmGroups, UnGroups;
    var s0 := State(Xor(m.d1, key[0]), m.d2);
    GroupsUndone(t, key, n, 0, s0);
    var s := SmGroups(t, key, n, 0, s0);
    XorUndo(s.d2, key[8 * n]);
    XorUndo(m.d1, key[0]);
  }

  lemma XorUndo(a: Half, b: Half)
    ensures Xor(Xor(a, b), b) == a
  {
  }
}
