/** Camellia as RFC 3713 states it, and as the code runs it: whitening keys absorbed into other
    subkeys, and round keys added at the end of F instead of at its start (camellia.c).

    Word operations are named so that a proof can use their laws without their bits. */
module Words {
  type Word = bv32

  function X(a: Word, b: Word): Word { a ^ b }
  function And(a: Word, k: Word): Word { a & k }
  function Or(a: Word, k: Word): Word { a | k }
  function AndNot(a: Word, k: Word): Word { a & !k }
  function Rol1(x: Word): Word { (x << 1) | (x >> 31) }
  function Rol8(x: Word): Word { (x << 8) | (x >> 24) }
  function Ror8(x: Word): Word { (x >> 8) | (x << 24) }

  lemma XAssoc(a: Word, b: Word, c: Word)
    ensures X(X(a, b), c) == X(a, X(b, c))
  {
  }

  lemma XComm(a: Word, b: Word)
    ensures X(a, b) == X(b, a)
  {
  }

  lemma XSelf(a: Word)
    ensures X(a, a) == 0 && X(a, 0) == a
  {
  }

  lemma XUndo(a: Word, b: Word)
    ensures X(X(a, b), b) == a && X(a, X(a, b)) == b
  {
  }

  lemma XDrop(a: Word, b: Word, c: Word)
    ensures X(X(a, c), X(b, c)) == X(a, b)
  {
    hide X;
    XAssoc(a, c, X(b, c));
    XComm(b, c);
    XUndo(c, b);
  }

  lemma Exchange(a: Word, b: Word, c: Word, d: Word)
    ensures X(X(a, b), X(c, d)) == X(X(a, c), X(b, d))
  {
    hide X;
    XAssoc(a, b, X(c, d));
    XAssoc(b, c, d);
    XComm(b, c);
    XAssoc(c, b, d);
    XAssoc(a, c, X(b, d));
  }

  lemma RawAnd(x: Word, d: Word, k: Word)
    ensures (x ^ d) & k == (x & k) ^ (d & k)
  {
  }

  lemma RawAndNot(x: Word, d: Word, k: Word)
    ensures (x ^ d) & !k == (x & !k) ^ (d & !k)
  {
  }

  lemma RawOr(x: Word, d: Word, k: Word)
    ensures (x ^ d) | k == (x | k) ^ (d & !k)
  {
  }

  lemma AndLeft(x: Word, d: Word, k: Word)
    ensures And(X(x, d), k) == (x ^ d) & k
  {
  }

  lemma AndRight(x: Word, d: Word, k: Word)
    ensures X(And(x, k), And(d, k)) == (x & k) ^ (d & k)
  {
  }

  lemma AndNotLeft(x: Word, d: Word, k: Word)
    ensures AndNot(X(x, d), k) == (x ^ d) & !k
  {
  }

  lemma AndNotRight(x: Word, d: Word, k: Word)
    ensures X(AndNot(x, k), AndNot(d, k)) == (x & !k) ^ (d & !k)
  {
  }

  lemma OrLeft(x: Word, d: Word, k: Word)
    ensures Or(X(x, d), k) == (x ^ d) | k
  {
  }

  lemma OrRight(x: Word, d: Word, k: Word)
    ensures X(Or(x, k), AndNot(d, k)) == (x | k) ^ (d & !k)
  {
  }

  /** How a difference passes a mask. */
  lemma AndLinear(x: Word, d: Word, k: Word)
    ensures And(X(x, d), k) == X(And(x, k), And(d, k))
  {
    hide X, And;
    AndLeft(x, d, k);
    AndRight(x, d, k);
    RawAnd(x, d, k);
  }

  lemma AndNotLinear(x: Word, d: Word, k: Word)
    ensures AndNot(X(x, d), k) == X(AndNot(x, k), AndNot(d, k))
  {
    hide X, AndNot;
    AndNotLeft(x, d, k);
    AndNotRight(x, d, k);
    RawAndNot(x, d, k);
  }

  lemma OrDifference(x: Word, d: Word, k: Word)
    ensures Or(X(x, d), k) == X(Or(x, k), AndNot(d, k))
  {
    hide X, Or, AndNot;
    OrLeft(x, d, k);
    OrRight(x, d, k);
    RawOr(x, d, k);
  }

  lemma RotateLinear(x: Word, d: Word)
    ensures Rol1(X(x, d)) == X(Rol1(x), Rol1(d))
    ensures Ror8(X(x, d)) == X(Ror8(x), Ror8(d))
  {
  }

  lemma RotateBack(x: Word)
    ensures Ror8(Rol8(x)) == x
  {
  }
}

module Camellia {
  import opened Words

  /** The S-box tables combined with half of the P-function; nothing here depends on their values. */
  datatype Tables = Tables(sp1110: Word -> Word, sp0222: Word -> Word, sp3033: Word -> Word, sp4404: Word -> Word)

  /** A 64-bit half block or subkey, most significant word first. */
  datatype Half = Half(l: Word, r: Word)

  function Xor(a: Half, b: Half): Half { Half(X(a.l, b.l), X(a.r, b.r)) }

  /** The table look-ups of CAMELLIA_F on the right and on the left word. */
  function LookRight(t: Tables, x: Word): Word {
    X(X(X(t.sp1110(x & 0xff), t.sp0222(x >> 24)), t.sp3033((x >> 16) & 0xff)), t.sp4404((x >> 8) & 0xff))
  }

  function LookLeft(t: Tables, x: Word): Word {
    X(X(X(t.sp1110(x >> 24), t.sp0222((x >> 16) & 0xff)), t.sp3033((x >> 8) & 0xff)), t.sp4404(x & 0xff))
  }

  /** CAMELLIA_F. */
  function F(t: Tables, x: Half, k: Half): Half {
    var il := X(x.l, k.l);
    var ir := X(x.r, k.r);
    var yl := X(LookRight(t, ir), LookLeft(t, il));
    Half(yl, X(Ror8(LookLeft(t, il)), yl))
  }

  /** CAMELLIA_ROUNDSM: the new value of y. */
  function RoundSm(t: Tables, x: Half, k: Half, y: Half): Half {
    var il := X(LookLeft(t, x.l), k.l);
    var ir := X(LookRight(t, x.r), X(il, k.r));
    Half(X(y.l, ir), X(y.r, X(Ror8(il), ir)))
  }

  /** The FL function of section 2.4.2 of RFC 3713, and FLINV. */
  function Fl(x: Half, k: Half): Half {
    var r := X(x.r, Rol1(And(x.l, k.l)));
    Half(X(x.l, Or(r, k.r)), r)
  }

  function FlInv(y: Half, k: Half): Half {
    var l := X(y.l, Or(y.r, k.r));
    Half(l, X(y.r, Rol1(And(l, k.l))))
  }

  /** The "modified for FL" and "modified for FLinv" steps of camellia_setup_tail. */
  function Carry(d: Half, k: Half): Half {
    var l := X(d.l, AndNot(d.r, k.r));
    Half(l, X(d.r, Rol1(And(l, k.l))))
  }

  /** The inverse of the last half of the P-function, applied to round keys. */
  function InverseP(k: Half): Half {
    var dw := Rol8(X(k.l, k.r));
    Half(dw, X(k.l, dw))
  }

  lemma XorLaws(a: Half, b: Half, c: Half)
    ensures Xor(Xor(a, b), c) == Xor(a, Xor(b, c)) && Xor(a, b) == Xor(b, a)
    ensures Xor(Xor(a, c), Xor(b, c)) == Xor(a, b) && Xor(a, Xor(a, b)) == b
  {
    hide X;
    XAssoc(a.l, b.l, c.l);
    XAssoc(a.r, b.r, c.r);
    XComm(a.l, b.l);
    XComm(a.r, b.r);
    XDrop(a.l, b.l, c.l);
    XDrop(a.r, b.r, c.r);
    XUndo(a.l, b.l);
    XUndo(a.r, b.r);
  }

  /** F depends on its input and key only through their sum. */
  lemma KeyFirst(t: Tables, x: Half, k: Half, m: Half)
    requires Xor(x, k) == m
    ensures F(t, x, k) == F(t, m, Half(0, 0))
  {
  }

  /** A difference through FL and FLINV. */
  lemma FlDifference(x: Half, d: Half, k: Half)
    ensures Fl(Xor(x, Carry(d, k)), k) == Xor(Fl(x, k), d)
  {
    hide X, And, Or, AndNot, Rol1;
    var c := Carry(d, k);
    var rx := X(x.r, Rol1(And(x.l, k.l)));
    AndLinear(x.l, c.l, k.l);
    RotateLinear(And(x.l, k.l), And(c.l, k.l));
    var p, s := Rol1(And(x.l, k.l)), Rol1(And(c.l, k.l));
    Exchange(x.r, c.r, p, s);
    XUndo(d.r, s);
    OrDifference(rx, d.r, k.r);
    var e := AndNot(d.r, k.r);
    Exchange(x.l, c.l, Or(rx, k.r), e);
    XUndo(d.l, e);
  }

  lemma FlInvDifference(x: Half, d: Half, k: Half)
    ensures FlInv(Xor(x, d), k) == Xor(FlInv(x, k), Carry(d, k))
  {
    hide X, And, Or, AndNot, Rol1;
    OrDifference(x.r, d.r, k.r);
    Exchange(x.l, d.l, Or(x.r, k.r), AndNot(d.r, k.r));
    var lx, ld := X(x.l, Or(x.r, k.r)), X(d.l, AndNot(d.r, k.r));
    AndLinear(lx, ld, k.l);
    RotateLinear(And(lx, k.l), And(ld, k.l));
    Exchange(x.r, d.r, Rol1(And(lx, k.l)), Rol1(And(ld, k.l)));
  }

  lemma CarryLinear(a: Half, b: Half, k: Half)
    ensures Carry(Xor(a, b), k) == Xor(Carry(a, k), Carry(b, k))
  {
    hide X, And, AndNot, Rol1;
    AndNotLinear(a.r, b.r, k.r);
    Exchange(a.l, b.l, AndNot(a.r, k.r), AndNot(b.r, k.r));
    var la, lb := X(a.l, AndNot(a.r, k.r)), X(b.l, AndNot(b.r, k.r));
    AndLinear(la, lb, k.l);
    RotateLinear(And(la, k.l), And(lb, k.l));
    Exchange(a.r, b.r, Rol1(And(la, k.l)), Rol1(And(lb, k.l)));
  }

  lemma FlInverse(x: Half, k: Half)
    ensures FlInv(Fl(x, k), k) == x && Fl(FlInv(x, k), k) == x
  {
    hide X, And, Or, Rol1;
    XUndo(x.l, Or(X(x.r, Rol1(And(x.l, k.l))), k.r));
    XUndo(x.r, Rol1(And(x.l, k.l)));
    var l := X(x.l, Or(x.r, k.r));
    XUndo(x.r, Rol1(And(l, k.l)));
    XUndo(x.l, Or(x.r, k.r));
  }

  /** A round with its key moved through the P-function adds F and then the key. */
  lemma RoundIsF(t: Tables, x: Half, k: Half, y: Half)
    ensures RoundSm(t, x, InverseP(k), y) == Xor(Xor(y, F(t, x, Half(0, 0))), k)
  {
    hide X, LookLeft, LookRight, Rol8, Ror8;
    XSelf(x.l);
    XSelf(x.r);
    var u, v := LookLeft(t, x.l), LookRight(t, x.r);
    RoundWords(u, v, k.l, k.r, y.l, y.r);
  }

  lemma RoundWords(u: Word, v: Word, kl: Word, kr: Word, yl: Word, yr: Word)
    ensures var dw := Rol8(X(kl, kr));
            var il := X(u, dw);
            var ir := X(v, X(il, X(kl, dw)));
            && X(yl, ir) == X(X(yl, X(v, u)), kl)
            && X(yr, X(Ror8(il), ir)) == X(X(yr, X(Ror8(u), X(v, u))), kr)
  {
    hide X, Rol8, Ror8;
    var dw := Rol8(X(kl, kr));
    RotateLinear(u, dw);
    RotateBack(X(kl, kr));
    XDrop(u, kl, dw);
    XAssoc(v, u, kl);
    var w, g := X(v, u), Ror8(u);
    XAssoc(yl, w, kl);
    // Ror8(il) + ir = (g + (kl + kr)) + (w + kl) = (g + w) + kr
    Exchange(g, X(kl, kr), w, kl);
    XComm(X(kl, kr), kl);
    XUndo(kl, kr);
    XAssoc(yr, X(g, w), kr);
  }
}
