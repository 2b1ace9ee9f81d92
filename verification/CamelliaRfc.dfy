/** The F, FL and FLINV functions of section 2.4 of RFC 3713, byte by byte, and the table-driven forms of camellia.c.
    The S-boxes are arbitrary. */
module CamelliaRfc {
  import opened Words
  import opened Camellia

  datatype SBoxes = SBoxes(s1: bv8 -> bv8, s2: bv8 -> bv8, s3: bv8 -> bv8, s4: bv8 -> bv8)

  /** Four bytes as a word, the first one most significant. */
  function Pack(a: bv8, b: bv8, c: bv8, d: bv8): Word {
    ((a as bv32) << 24) | ((b as bv32) << 16) | ((c as bv32) << 8) | (d as bv32)
  }

  /** The bytes of a word, from the least significant one. */
  function Low(x: Word): bv8 { (x & 0xff) as bv8 }
  function Second(x: Word): bv8 { Low(x >> 8) }
  function Third(x: Word): bv8 { Low(x >> 16) }
  function Top(x: Word): bv8 { Low(x >> 24) }

  /** The combined tables: camellia_sp1110 has the first S-box in its upper three bytes, and so on. */
  function TablesOf(s: SBoxes): Tables {
    Tables((x: Word) => Pack(s.s1(Low(x)), s.s1(Low(x)), s.s1(Low(x)), 0),
           (x: Word) => Pack(0, s.s2(Low(x)), s.s2(Low(x)), s.s2(Low(x))),
           (x: Word) => Pack(s.s3(Low(x)), 0, s.s3(Low(x)), s.s3(Low(x))),
           (x: Word) => Pack(s.s4(Low(x)), s.s4(Low(x)), 0, s.s4(Low(x))))
  }

  /** The exclusive or of bytes, named so that a proof can use its laws without its bits. */
  function B(a: bv8, b: bv8): bv8 { a ^ b }

  function Sum3(a: bv8, b: bv8, c: bv8): bv8 { B(B(a, b), c) }

  function Sum5(a: bv8, b: bv8, c: bv8, d: bv8, e: bv8): bv8 { B(B(Sum3(a, b, c), d), e) }

  function Sum6(a: bv8, b: bv8, c: bv8, d: bv8, e: bv8, f: bv8): bv8 { B(Sum5(a, b, c, d, e), f) }

  /** Section 2.4.1: the S-function on the eight bytes of the sum, then the P-function. */
  function RfcF(s: SBoxes, x: Half, k: Half): Half {
    var l, r := X(x.l, k.l), X(x.r, k.r);
    var t1, t2, t3, t4 := s.s1(Top(l)), s.s2(Third(l)), s.s3(Second(l)), s.s4(Low(l));
    var t5, t6, t7, t8 := s.s2(Top(r)), s.s3(Third(r)), s.s4(Second(r)), s.s1(Low(r));
    Half(Pack(Sum6(t1, t3, t4, t6, t7, t8), Sum6(t1, t2, t4, t5, t7, t8),
              Sum6(t1, t2, t3, t5, t6, t8), Sum6(t2, t3, t4, t5, t6, t7)),
         Pack(Sum5(t1, t2, t6, t7, t8), Sum5(t2, t3, t5, t7, t8),
              Sum5(t3, t4, t5, t6, t8), Sum5(t1, t4, t5, t6, t7)))
  }

  lemma PackX(a: bv8, b: bv8, c: bv8, d: bv8, e: bv8, f: bv8, g: bv8, h: bv8)
    ensures X(Pack(a, b, c, d), Pack(e, f, g, h)) == Pack(B(a, e), B(b, f), B(c, g), B(d, h))
  {
  }

  lemma PackTurned(a: bv8, b: bv8, c: bv8, d: bv8)
    ensures Ror8(Pack(a, b, c, d)) == Pack(d, a, b, c)
  {
  }

  lemma Zeros(a: bv8, b: bv8, c: bv8)
    ensures B(B(B(a, 0), b), c) == Sum3(a, b, c) && B(B(B(a, b), 0), c) == Sum3(a, b, c)
    ensures B(B(B(a, b), c), 0) == Sum3(a, b, c) && B(B(B(0, a), b), c) == Sum3(a, b, c)
  {
  }

  lemma Commutes(a: bv8, b: bv8)
    ensures B(a, b) == B(b, a)
  {
  }

  lemma Associates(a: bv8, b: bv8, c: bv8)
    ensures B(B(a, b), c) == B(a, B(b, c))
  {
  }

  lemma Undoes(a: bv8, b: bv8)
    ensures B(a, B(a, b)) == b
  {
  }

  lemma Laws(a: bv8, b: bv8, c: bv8)
    ensures B(a, b) == B(b, a) && B(B(a, b), c) == B(a, B(b, c)) && B(a, B(a, b)) == b
  {
    hide B;
    Commutes(a, b);
    Associates(a, b, c);
    Undoes(a, b);
  }

  lemma SumOfSix(a: bv8, b: bv8, c: bv8, d: bv8, e: bv8, f: bv8)
    ensures B(Sum3(d, e, f), Sum3(a, b, c)) == Sum6(a, b, c, d, e, f)
    ensures B(Sum3(f, d, e), Sum3(a, b, c)) == Sum6(a, b, c, d, e, f)
  {
    hide B;
    var abc, de := Sum3(a, b, c), B(d, e);
    Laws(B(de, f), abc, 0);
    Laws(abc, de, f);
    Laws(abc, d, e);
    Laws(f, d, e);
    Laws(f, de, 0);
  }

  /** Summing with the other word takes two of three bytes out again. */
  lemma Taken(a: bv8, b: bv8, c: bv8, p: bv8, d: bv8, e: bv8, f: bv8)
    ensures B(Sum3(p, b, c), Sum6(a, b, c, d, e, f)) == Sum5(a, p, d, e, f)
  {
    hide B;
    var bc := B(b, c);
    Laws(p, b, c);
    Laws(a, b, c);
    // (p + bc) + (((a + bc) + d) + e) + f
    Laws(B(p, bc), Sum5(a, b, c, d, e), f);
    Laws(B(p, bc), B(Sum3(a, b, c), d), e);
    Laws(B(p, bc), Sum3(a, b, c), d);
    Laws(p, bc, B(a, bc));
    Laws(a, bc, 0);
    Laws(bc, a, 0);
    Laws(p, a, 0);
  }

  /** The same sums with their first three bytes in another order. */
  lemma Reordered(a: bv8, b: bv8, c: bv8, d: bv8, e: bv8, f: bv8)
    ensures Sum6(b, a, c, d, e, f) == Sum6(a, b, c, d, e, f) && Sum6(b, c, a, d, e, f) == Sum6(a, b, c, d, e, f)
    ensures Sum3(b, a, c) == Sum3(a, b, c) && Sum3(b, c, a) == Sum3(a, b, c)
    ensures Sum5(b, a, d, e, f) == Sum5(a, b, d, e, f)
  {
    hide B;
    Laws(a, b, 0);
    Laws(B(b, c), a, 0);
    Laws(a, b, c);
  }

  lemma SumsTurned(t1: bv8, t2: bv8, t3: bv8, t4: bv8, t5: bv8, t6: bv8, t7: bv8, t8: bv8)
    ensures B(Sum3(t2, t3, t4), Sum6(t1, t3, t4, t6, t7, t8)) == Sum5(t1, t2, t6, t7, t8)
    ensures B(Sum3(t1, t3, t4), Sum6(t1, t2, t4, t5, t7, t8)) == Sum5(t2, t3, t5, t7, t8)
    ensures B(Sum3(t1, t2, t4), Sum6(t1, t2, t3, t5, t6, t8)) == Sum5(t3, t4, t5, t6, t8)
    ensures B(Sum3(t1, t2, t3), Sum6(t2, t3, t4, t5, t6, t7)) == Sum5(t1, t4, t5, t6, t7)
  {
    hide B, Sum3, Sum5, Sum6;
    Taken(t1, t3, t4, t2, t6, t7, t8);
    Taken(t2, t1, t4, t3, t5, t7, t8);
    Reordered(t1, t2, t4, t5, t7, t8);
    Reordered(t1, t3, t4, 0, 0, 0);
    Taken(t3, t1, t2, t4, t5, t6, t8);
    Reordered(t3, t1, t2, t5, t6, t8);
    Reordered(t4, t1, t2, 0, 0, 0);
    Taken(t4, t2, t3, t1, t5, t6, t7);
    Reordered(t4, t2, t3, t5, t6, t7);
    Reordered(t1, t4, 0, t5, t6, t7);
  }

  /** The four look-ups of one word. */
  lemma Looked(a: bv8, b: bv8, c: bv8, d: bv8)
    ensures X(X(X(Pack(a, a, a, 0), Pack(0, b, b, b)), Pack(c, 0, c, c)), Pack(d, d, 0, d))
            == Pack(Sum3(a, c, d), Sum3(a, b, d), Sum3(a, b, c), Sum3(b, c, d))
  {
    hide Pack, X, B, Sum3;
    PackX(a, a, a, 0, 0, b, b, b);
    PackX(B(a, 0), B(a, b), B(a, b), B(0, b), c, 0, c, c);
    PackX(B(B(a, 0), c), B(B(a, b), 0), B(B(a, b), c), B(B(0, b), c), d, d, 0, d);
    Zeros(a, c, d);
    Zeros(a, b, d);
    Zeros(a, b, c);
    Zeros(b, c, d);
  }

  lemma Masked(x: Word)
    ensures Low(x & 0xff) == Low(x) && Low((x >> 8) & 0xff) == Second(x) && Low((x >> 16) & 0xff) == Third(x)
    ensures Low(x >> 24) == Top(x)
  {
  }

  lemma TableAt(s: SBoxes, x: Word)
    ensures TablesOf(s).sp1110(x) == Pack(s.s1(Low(x)), s.s1(Low(x)), s.s1(Low(x)), 0)
    ensures TablesOf(s).sp0222(x) == Pack(0, s.s2(Low(x)), s.s2(Low(x)), s.s2(Low(x)))
    ensures TablesOf(s).sp3033(x) == Pack(s.s3(Low(x)), 0, s.s3(Low(x)), s.s3(Low(x)))
    ensures TablesOf(s).sp4404(x) == Pack(s.s4(Low(x)), s.s4(Low(x)), 0, s.s4(Low(x)))
  {
    hide Pack, Low;
  }

  lemma LooksPacked(s: SBoxes, x: Word)
    ensures var a, b, c, d := s.s1(Top(x)), s.s2(Third(x)), s.s3(Second(x)), s.s4(Low(x));
            LookLeft(TablesOf(s), x) == Pack(Sum3(a, c, d), Sum3(a, b, d), Sum3(a, b, c), Sum3(b, c, d))
    ensures var a, b, c, d := s.s1(Low(x)), s.s2(Top(x)), s.s3(Third(x)), s.s4(Second(x));
            LookRight(TablesOf(s), x) == Pack(Sum3(a, c, d), Sum3(a, b, d), Sum3(a, b, c), Sum3(b, c, d))
  {
    hide X, Pack, Low, Second, Third, Top, TablesOf, Sum3;
    Masked(x);
    TableAt(s, x >> 24);
    TableAt(s, (x >> 16) & 0xff);
    TableAt(s, (x >> 8) & 0xff);
    TableAt(s, x & 0xff);
    Looked(s.s1(Top(x)), s.s2(Third(x)), s.s3(Second(x)), s.s4(Low(x)));
    Looked(s.s1(Low(x)), s.s2(Top(x)), s.s3(Third(x)), s.s4(Second(x)));
  }

  /** The last half of the P-function on the two words looked up. */
  lemma Mixed(t1: bv8, t2: bv8, t3: bv8, t4: bv8, t5: bv8, t6: bv8, t7: bv8, t8: bv8)
    ensures var u := Pack(Sum3(t1, t3, t4), Sum3(t1, t2, t4), Sum3(t1, t2, t3), Sum3(t2, t3, t4));
            var v := Pack(Sum3(t8, t6, t7), Sum3(t8, t5, t7), Sum3(t8, t5, t6), Sum3(t5, t6, t7));
            && X(v, u) == Pack(Sum6(t1, t3, t4, t6, t7, t8), Sum6(t1, t2, t4, t5, t7, t8),
                               Sum6(t1, t2, t3, t5, t6, t8), Sum6(t2, t3, t4, t5, t6, t7))
            && X(Ror8(u), X(v, u)) == Pack(Sum5(t1, t2, t6, t7, t8), Sum5(t2, t3, t5, t7, t8),
                                           Sum5(t3, t4, t5, t6, t8), Sum5(t1, t4, t5, t6, t7))
  {
    hide *;
    PackX(Sum3(t8, t6, t7), Sum3(t8, t5, t7), Sum3(t8, t5, t6), Sum3(t5, t6, t7),
          Sum3(t1, t3, t4), Sum3(t1, t2, t4), Sum3(t1, t2, t3), Sum3(t2, t3, t4));
    SumOfSix(t1, t3, t4, t6, t7, t8);
    SumOfSix(t1, t2, t4, t5, t7, t8);
    SumOfSix(t1, t2, t3, t5, t6, t8);
    SumOfSix(t2, t3, t4, t5, t6, t7);
    PackTurned(Sum3(t1, t3, t4), Sum3(t1, t2, t4), Sum3(t1, t2, t3), Sum3(t2, t3, t4));
    PackX(Sum3(t2, t3, t4), Sum3(t1, t3, t4), Sum3(t1, t2, t4), Sum3(t1, t2, t3),
          Sum6(t1, t3, t4, t6, t7, t8), Sum6(t1, t2, t4, t5, t7, t8),
          Sum6(t1, t2, t3, t5, t6, t8), Sum6(t2, t3, t4, t5, t6, t7));
    SumsTurned(t1, t2, t3, t4, t5, t6, t7, t8);
  }

  /** CAMELLIA_F with the combined tables of any four S-boxes is the F-function. */
  lemma FIsRfc(s: SBoxes, x: Half, k: Half)
    ensures F(TablesOf(s), x, k) == RfcF(s, x, k)
  {
    hide X, Pack, Low, Second, Third, Top, LookLeft, LookRight, TablesOf, Ror8, Sum3, Sum5, Sum6;
    var l, r := X(x.l, k.l), X(x.r, k.r);
    LooksPacked(s, l);
    LooksPacked(s, r);
    Mixed(s.s1(Top(l)), s.s2(Third(l)), s.s3(Second(l)), s.s4(Low(l)),
          s.s2(Top(r)), s.s3(Third(r)), s.s4(Second(r)), s.s1(Low(r)));
  }

  /** Sections 2.4.2 and 2.4.3, with the rotation of the language. */
  lemma FlIsRfc(x: Half, k: Half)
    ensures var x2 := X(x.r, And(x.l, k.l).RotateLeft(1)); Fl(x, k) == Half(X(x.l, Or(x2, k.r)), x2)
    ensures var y1 := X(x.l, Or(x.r, k.r)); FlInv(x, k) == Half(y1, X(x.r, And(y1, k.l).RotateLeft(1)))
  {
    hide X, And, Or, Rol1;
    RotatesOne(And(x.l, k.l));
    RotatesOne(And(X(x.l, Or(x.r, k.r)), k.l));
  }

  lemma RotatesOne(x: Word)
    ensures Rol1(x) == x.RotateLeft(1)
  {
  }
}
