/** Arithmetic in GF(2^8) as the cipher uses it: addition is XOR, and
    multiplication is the shift-and-add ("peasant") loop of `multiply`,
    reducing by the AES polynomial x^8 + x^4 + x^3 + x + 1 (0x11b). */
module GaloisField {

  /** Addition in GF(2^8). It is kept as a named function so that the
      algebra below is done on terms rather than on individual bits. */
  function Xor(a: bv8, b: bv8): bv8 { a ^ b }

  /** One step of the multiplication loop on a byte: shift left, and when
      bit 8 comes out reduce by 0x11b (which, on the low eight bits, is an
      XOR with 0x1b). This is multiplication by x. */
  function XTime(a: bv8): bv8 {
    (a << 1) ^ (if a & 0x80 != 0 then 0x1b else 0)
  }

  /** The product computed by `multiply(a, b)`: for each bit of `b`, from the
      lowest up, the running `a` is added in when the bit is set, and `a` is
      multiplied by x. */
  function GfMul(a: bv8, b: bv8): bv8
    decreases b
  {
    if b == 0 then 0 else Xor(if b & 1 == 1 then a else 0, GfMul(XTime(a), b >> 1))
  }

  /** Carry-less (polynomial) product of two constants whose degrees add up
      to less than eight, so that no reduction is needed. */
  function Clmul(c: bv8, d: bv8): bv8
    decreases d
  {
    if d == 0 then 0 else Xor(if d & 1 == 1 then c else 0, Clmul(c << 1, d >> 1))
  }

  /** Degree bound: every set bit of `c` is below bit `n`. */
  predicate Below(c: bv8, n: nat)
    decreases n
  {
    if n == 0 then c == 0 else n >= 8 || Below(c >> 1, n - 1)
  }

  /** The multiplication loop of `multiply`, with the JavaScript number
      variables held in 16 bits: between steps they stay below 0x100, and
      within a step they never need more than nine bits. */
  method Multiply(a: bv8, b: bv8) returns (r: bv8)
    ensures r == GfMul(a, b)
  {
    var result: bv16 := 0;
    var x: bv16 := a as bv16;
    var y: bv16 := b as bv16;
    while y > 0
      invariant x < 0x100 && y < 0x100 && result < 0x100
      invariant Xor(result as bv8, GfMul(x as bv8, y as bv8)) == GfMul(a, b)
      decreases y
    {
      ghost var x0, y0, r0 := x, y, result;
      if y & 1 == 1 {
        result := result ^ x;
      }
      x := x << 1;
      if x & 0x100 != 0 {
        x := x ^ 0x11b;
      }
      y := y >> 1;
      StepMatches(x0, y0, r0, x, y, result);
    }
    r := result as bv8;
    XorZeroRight(r);
  }

  /** One iteration of the loop in `Multiply` keeps the invariant. */
  lemma StepMatches(x0: bv16, y0: bv16, r0: bv16, x: bv16, y: bv16, r: bv16)
    requires x0 < 0x100 && y0 < 0x100 && r0 < 0x100 && y0 > 0
    requires r == (if y0 & 1 == 1 then r0 ^ x0 else r0)
    requires x == (if (x0 << 1) & 0x100 != 0 then (x0 << 1) ^ 0x11b else x0 << 1)
    requires y == y0 >> 1
    ensures x < 0x100 && y < 0x100 && r < 0x100
    ensures Xor(r as bv8, GfMul(x as bv8, y as bv8)) == Xor(r0 as bv8, GfMul(x0 as bv8, y0 as bv8))
  {
    var a, b := x0 as bv8, y0 as bv8;
    ShiftReduce(x0, x);
    HalveBits(y0, y);
    AddIn(x0, y0, r0, r);
    var sel := if b & 1 == 1 then a else 0;
    XorAssoc(r0 as bv8, sel, GfMul(XTime(a), b >> 1));
  }

  /** The 16-bit shift-and-reduce of the loop is XTime on the low byte. */
  lemma ShiftReduce(x0: bv16, x: bv16)
    requires x0 < 0x100
    requires x == (if (x0 << 1) & 0x100 != 0 then (x0 << 1) ^ 0x11b else x0 << 1)
    ensures x < 0x100 && x as bv8 == XTime(x0 as bv8)
  {}

  /** Halving `b` in 16 bits is halving it as a byte. */
  lemma HalveBits(y0: bv16, y: bv16)
    requires y0 < 0x100 && y0 > 0 && y == y0 >> 1
    ensures y < 0x100 && y as bv8 == (y0 as bv8) >> 1 && y0 as bv8 != 0
  {}

  /** The conditional addition of the running `a` into the result. */
  lemma AddIn(x0: bv16, y0: bv16, r0: bv16, r: bv16)
    requires x0 < 0x100 && y0 < 0x100 && r0 < 0x100
    requires r == (if y0 & 1 == 1 then r0 ^ x0 else r0)
    ensures r < 0x100
    ensures r as bv8 == Xor(r0 as bv8, if (y0 as bv8) & 1 == 1 then x0 as bv8 else 0)
  {}

  // ---------------------------------------------------------------------
  // XOR as an abelian group in which every element is its own inverse.

  lemma XorAssoc(p: bv8, q: bv8, r: bv8)
    ensures Xor(Xor(p, q), r) == Xor(p, Xor(q, r))
  {}

  lemma XorComm(p: bv8, q: bv8)
    ensures Xor(p, q) == Xor(q, p)
  {}

  lemma XorZeroRight(p: bv8)
    ensures Xor(p, 0) == p && Xor(0, p) == p
  {}

  /** The rearrangement used to split a sum of two sums. */
  lemma XorSwapMiddle(p: bv8, q: bv8, r: bv8, s: bv8)
    ensures Xor(Xor(p, q), Xor(r, s)) == Xor(Xor(p, r), Xor(q, s))
  {
    XorAssoc(p, q, Xor(r, s));
    XorAssoc(q, r, s);
    XorComm(q, r);
    XorAssoc(r, q, s);
    XorAssoc(p, r, Xor(q, s));
  }

  // ---------------------------------------------------------------------
  // Multiplication by x and by a constant are GF(2)-linear.

  lemma XTimeLinear(a: bv8, b: bv8)
    ensures XTime(Xor(a, b)) == Xor(XTime(a), XTime(b))
  {
    if a & 0x80 == 0 {
      if b & 0x80 == 0 { } else { }
    } else {
      if b & 0x80 == 0 { } else { }
    }
  }

  /** `GfMul(·, c)` distributes over addition. */
  lemma {:induction false} MulLinearLeft(a: bv8, b: bv8, c: bv8)
    ensures GfMul(Xor(a, b), c) == Xor(GfMul(a, c), GfMul(b, c))
    decreases c
  {
    if c != 0 {
      XTimeLinear(a, b);
      MulLinearLeft(XTime(a), XTime(b), c >> 1);
      var sa := if c & 1 == 1 then a else 0;
      var sb := if c & 1 == 1 then b else 0;
      assert (if c & 1 == 1 then Xor(a, b) else 0) == Xor(sa, sb);
      XorSwapMiddle(sa, sb, GfMul(XTime(a), c >> 1), GfMul(XTime(b), c >> 1));
    } else {
      XorZeroRight(0);
    }
  }

  /** `GfMul(a, ·)` distributes over addition. */
  lemma {:induction false} MulLinearRight(a: bv8, c: bv8, d: bv8)
    ensures GfMul(a, Xor(c, d)) == Xor(GfMul(a, c), GfMul(a, d))
    decreases c
  {
    if c == 0 {
      XorZeroRight(GfMul(a, d));
      assert Xor(c, d) == d;
    } else if d == 0 {
      XorZeroRight(GfMul(a, c));
      assert Xor(c, d) == c;
    } else if Xor(c, d) == 0 {
      assert c == d;
      assert Xor(GfMul(a, c), GfMul(a, d)) == 0;
    } else {
      MulLinearRight(XTime(a), c >> 1, d >> 1);
      assert Xor(c, d) >> 1 == Xor(c >> 1, d >> 1);
      var sc := if c & 1 == 1 then a else 0;
      var sd := if d & 1 == 1 then a else 0;
      assert (if Xor(c, d) & 1 == 1 then a else 0) == Xor(sc, sd);
      XorSwapMiddle(sc, sd, GfMul(XTime(a), c >> 1), GfMul(XTime(a), d >> 1));
    }
  }

  /** Multiplying by x first is multiplying the constant by x. */
  lemma MulXTime(a: bv8, c: bv8)
    requires c < 0x80
    ensures GfMul(XTime(a), c) == GfMul(a, c << 1)
  {
    if c != 0 {
      assert (c << 1) & 1 == 0 && (c << 1) >> 1 == c && c << 1 != 0;
      XorZeroRight(GfMul(XTime(a), c));
    }
  }

  /** XTime commutes with multiplication by a constant. */
  lemma {:induction false} XTimeMul(a: bv8, c: bv8)
    ensures XTime(GfMul(a, c)) == GfMul(XTime(a), c)
    decreases c
  {
    if c != 0 {
      XTimeMul(XTime(a), c >> 1);
      var s := if c & 1 == 1 then a else 0;
      XTimeLinear(s, GfMul(XTime(a), c >> 1));
      assert XTime(s) == (if c & 1 == 1 then XTime(a) else 0);
    }
  }

  /** The product rule: multiplying by `c` and then by `d` is multiplying by
      their polynomial product, provided the bit lengths `n` of `c` and `m`
      of `d` add up to at most eight, so that no reduction is needed. */
  lemma {:induction false} MulMul(a: bv8, c: bv8, d: bv8, n: nat, m: nat)
    requires n + m <= 8 && Below(c, n) && Below(d, m)
    ensures GfMul(GfMul(a, c), d) == GfMul(a, Clmul(c, d))
    decreases d
  {
    if d != 0 {
      assert m >= 1 && n <= 7;
      var ac := GfMul(a, c);
      XTimeMul(a, c);
      assert c < 0x80;
      MulXTime(a, c);
      MulMul(a, c << 1, d >> 1, n + 1, m - 1);
      var s := if d & 1 == 1 then c else 0;
      MulLinearRight(a, s, Clmul(c << 1, d >> 1));
      assert GfMul(a, s) == (if d & 1 == 1 then ac else 0);
    }
  }

  // ---------------------------------------------------------------------
  // The facts about `multiply` that its callers rely on.

  /** Multiplying by zero gives zero and multiplying by one is the identity. */
  lemma MulZeroOne(a: bv8)
    ensures GfMul(a, 0) == 0
    ensures GfMul(a, 1) == a
  {
    XorZeroRight(a);
  }

  // ---------------------------------------------------------------------
  // Linear forms with constant coefficients, the shape of both MixColumns
  // matrices: `Lin(c0, c1, c2, c3, a, b, c, d)` is c0·a + c1·b + c2·c + c3·d.

  function Sum4(p: bv8, q: bv8, r: bv8, s: bv8): bv8 {
    Xor(Xor(Xor(p, q), r), s)
  }

  function Lin(c0: bv8, c1: bv8, c2: bv8, c3: bv8, a: bv8, b: bv8, c: bv8, d: bv8): bv8 {
    Sum4(GfMul(a, c0), GfMul(b, c1), GfMul(c, c2), GfMul(d, c3))
  }

  /** Multiplying a sum of four terms multiplies each term. */
  lemma MulSum4(p: bv8, q: bv8, r: bv8, s: bv8, e: bv8)
    ensures GfMul(Sum4(p, q, r, s), e) == Sum4(GfMul(p, e), GfMul(q, e), GfMul(r, e), GfMul(s, e))
  {
    MulLinearLeft(Xor(Xor(p, q), r), s, e);
    MulLinearLeft(Xor(p, q), r, e);
    MulLinearLeft(p, q, e);
  }

  /** A sum of four multiples of one element is one multiple. */
  lemma SumMul4(a: bv8, c0: bv8, c1: bv8, c2: bv8, c3: bv8)
    ensures Sum4(GfMul(a, c0), GfMul(a, c1), GfMul(a, c2), GfMul(a, c3)) == GfMul(a, Sum4(c0, c1, c2, c3))
  {
    MulLinearRight(a, Xor(Xor(c0, c1), c2), c3);
    MulLinearRight(a, Xor(c0, c1), c2);
    MulLinearRight(a, c0, c1);
  }

  /** A sum of four is the sum of its two halves. */
  lemma Sum4Halves(p: bv8, q: bv8, r: bv8, s: bv8)
    ensures Sum4(p, q, r, s) == Xor(Xor(p, q), Xor(r, s))
  {
    XorAssoc(Xor(p, q), r, s);
  }

  /** Regrouping eight terms given as two sums of two pairs. */
  lemma Interleave(a: bv8, b: bv8, c: bv8, d: bv8, e: bv8, f: bv8, g: bv8, h: bv8)
    ensures Xor(Xor(Xor(a, b), Xor(c, d)), Xor(Xor(e, f), Xor(g, h)))
         == Xor(Xor(Xor(a, e), Xor(b, f)), Xor(Xor(c, g), Xor(d, h)))
  {
    XorSwapMiddle(Xor(a, b), Xor(c, d), Xor(e, f), Xor(g, h));
    XorSwapMiddle(a, b, e, f);
    XorSwapMiddle(c, d, g, h);
  }

  /** Sums of four can be added row by row or column by column. */
  lemma Transpose4(
    x00: bv8, x01: bv8, x02: bv8, x03: bv8,
    x10: bv8, x11: bv8, x12: bv8, x13: bv8,
    x20: bv8, x21: bv8, x22: bv8, x23: bv8,
    x30: bv8, x31: bv8, x32: bv8, x33: bv8)
    ensures Sum4(Sum4(x00, x01, x02, x03), Sum4(x10, x11, x12, x13),
                 Sum4(x20, x21, x22, x23), Sum4(x30, x31, x32, x33))
         == Sum4(Sum4(x00, x10, x20, x30), Sum4(x01, x11, x21, x31),
                 Sum4(x02, x12, x22, x32), Sum4(x03, x13, x23, x33))
  {
    Sum4Halves(x00, x01, x02, x03); Sum4Halves(x10, x11, x12, x13);
    Sum4Halves(x20, x21, x22, x23); Sum4Halves(x30, x31, x32, x33);
    Sum4Halves(x00, x10, x20, x30); Sum4Halves(x01, x11, x21, x31);
    Sum4Halves(x02, x12, x22, x32); Sum4Halves(x03, x13, x23, x33);
    var r0, r1 := Sum4(x00, x01, x02, x03), Sum4(x10, x11, x12, x13);
    var r2, r3 := Sum4(x20, x21, x22, x23), Sum4(x30, x31, x32, x33);
    Sum4Halves(r0, r1, r2, r3);
    Interleave(x00, x01, x02, x03, x10, x11, x12, x13);
    Interleave(x20, x21, x22, x23, x30, x31, x32, x33);
    Interleave(Xor(x00, x10), Xor(x01, x11), Xor(x02, x12), Xor(x03, x13),
               Xor(x20, x30), Xor(x21, x31), Xor(x22, x32), Xor(x23, x33));
    var c0, c1 := Sum4(x00, x10, x20, x30), Sum4(x01, x11, x21, x31);
    var c2, c3 := Sum4(x02, x12, x22, x32), Sum4(x03, x13, x23, x33);
    Sum4Halves(c0, c1, c2, c3);
  }

  /** Scaling a linear form by `e` scales its coefficients, as long as no
      product needs reduction. */
  lemma ScaleLin(c0: bv8, c1: bv8, c2: bv8, c3: bv8, e: bv8, a: bv8, b: bv8, c: bv8, d: bv8)
    requires Below(c0, 2) && Below(c1, 2) && Below(c2, 2) && Below(c3, 2) && Below(e, 4)
    ensures GfMul(Lin(c0, c1, c2, c3, a, b, c, d), e)
         == Lin(Clmul(c0, e), Clmul(c1, e), Clmul(c2, e), Clmul(c3, e), a, b, c, d)
  {
    MulSum4(GfMul(a, c0), GfMul(b, c1), GfMul(c, c2), GfMul(d, c3), e);
    MulMul(a, c0, e, 2, 4);
    MulMul(b, c1, e, 2, 4);
    MulMul(c, c2, e, 2, 4);
    MulMul(d, c3, e, 2, 4);
  }

  /** Adding four linear forms adds their coefficients. */
  lemma AddLin(
    p0: bv8, p1: bv8, p2: bv8, p3: bv8, q0: bv8, q1: bv8, q2: bv8, q3: bv8,
    r0: bv8, r1: bv8, r2: bv8, r3: bv8, s0: bv8, s1: bv8, s2: bv8, s3: bv8,
    a: bv8, b: bv8, c: bv8, d: bv8)
    ensures Sum4(Lin(p0, p1, p2, p3, a, b, c, d), Lin(q0, q1, q2, q3, a, b, c, d),
                 Lin(r0, r1, r2, r3, a, b, c, d), Lin(s0, s1, s2, s3, a, b, c, d))
         == Lin(Sum4(p0, q0, r0, s0), Sum4(p1, q1, r1, s1), Sum4(p2, q2, r2, s2), Sum4(p3, q3, r3, s3), a, b, c, d)
  {
    Transpose4(GfMul(a, p0), GfMul(b, p1), GfMul(c, p2), GfMul(d, p3),
               GfMul(a, q0), GfMul(b, q1), GfMul(c, q2), GfMul(d, q3),
               GfMul(a, r0), GfMul(b, r1), GfMul(c, r2), GfMul(d, r3),
               GfMul(a, s0), GfMul(b, s1), GfMul(c, s2), GfMul(d, s3));
    SumMul4(a, p0, q0, r0, s0);
    SumMul4(b, p1, q1, r1, s1);
    SumMul4(c, p2, q2, r2, s2);
    SumMul4(d, p3, q3, r3, s3);
  }
}
