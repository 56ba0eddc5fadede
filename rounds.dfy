/**
 * The round primitives of the block transform and their inverses.
 *
 * The state is the cipher's 4×4 byte matrix. The model stores it as 16
 * bytes, entry `state[i][j]` at position `4 * i + j`; a state value is a
 * sequence of 16 bytes. Loading a block puts byte `k` of the block at
 * `state[k % 4][k / 4]`, so `state[i]` holds the block bytes
 * `i, i + 4, i + 8, i + 12`.
 *
 * Each primitive is a pure function on state values, used by the
 * specifications, and a method that updates a 16-byte array in place the
 * way the cipher does. Each method is proved to compute its function.
 */
module Rounds {
  import opened GaloisField
  import opened Tables

  /** A round key: four consecutive key schedule words of four bytes;
      word `i` is added into `state[i]`. */
  predicate IsRoundKey(rk: seq<seq<bv8>>) {
    |rk| == 4 && forall i :: 0 <= i < 4 ==> |rk[i]| == 4
  }

  // ---------------------------------------------------------------------
  // Operations applied to each group `state[i]` of four bytes.

  /** One entry of a group operation, as a function of the group's bytes. */
  type Entry = (bv8, bv8, bv8, bv8) -> bv8

  /** Applies the operation with entries `f0 .. f3` to each of the four
      groups. */
  function ByGroup(s: seq<bv8>, f0: Entry, f1: Entry, f2: Entry, f3: Entry): (r: seq<bv8>)
    requires |s| == 16
    ensures |r| == 16
  {
    [f0(s[0], s[1], s[2], s[3]), f1(s[0], s[1], s[2], s[3]), f2(s[0], s[1], s[2], s[3]), f3(s[0], s[1], s[2], s[3]),
     f0(s[4], s[5], s[6], s[7]), f1(s[4], s[5], s[6], s[7]), f2(s[4], s[5], s[6], s[7]), f3(s[4], s[5], s[6], s[7]),
     f0(s[8], s[9], s[10], s[11]), f1(s[8], s[9], s[10], s[11]), f2(s[8], s[9], s[10], s[11]), f3(s[8], s[9], s[10], s[11]),
     f0(s[12], s[13], s[14], s[15]), f1(s[12], s[13], s[14], s[15]), f2(s[12], s[13], s[14], s[15]), f3(s[12], s[13], s[14], s[15])]
  }

  /** The operation `g` undoes the operation `f` on every group. */
  ghost predicate Undoes(f0: Entry, f1: Entry, f2: Entry, f3: Entry, g0: Entry, g1: Entry, g2: Entry, g3: Entry)
  {
    forall a: bv8, b: bv8, c: bv8, d: bv8 ::
      var m0, m1, m2, m3 := f0(a, b, c, d), f1(a, b, c, d), f2(a, b, c, d), f3(a, b, c, d);
      g0(m0, m1, m2, m3) == a && g1(m0, m1, m2, m3) == b && g2(m0, m1, m2, m3) == c && g3(m0, m1, m2, m3) == d
  }

  /** A group operation that is undone on every group is undone on the state. */
  lemma ByGroupInverse(s: seq<bv8>, f0: Entry, f1: Entry, f2: Entry, f3: Entry, g0: Entry, g1: Entry, g2: Entry, g3: Entry)
    requires |s| == 16 && Undoes(f0, f1, f2, f3, g0, g1, g2, g3)
    ensures ByGroup(ByGroup(s, f0, f1, f2, f3), g0, g1, g2, g3) == s
  {
    UndoesAt(f0, f1, f2, f3, g0, g1, g2, g3, s[0], s[1], s[2], s[3]);
    UndoesAt(f0, f1, f2, f3, g0, g1, g2, g3, s[4], s[5], s[6], s[7]);
    UndoesAt(f0, f1, f2, f3, g0, g1, g2, g3, s[8], s[9], s[10], s[11]);
    UndoesAt(f0, f1, f2, f3, g0, g1, g2, g3, s[12], s[13], s[14], s[15]);
    assert ByGroup(ByGroup(s, f0, f1, f2, f3), g0, g1, g2, g3) ==
      [s[0], s[1], s[2], s[3], s[4], s[5], s[6], s[7], s[8], s[9], s[10], s[11], s[12], s[13], s[14], s[15]];
    Spelled(s);
  }

  /** Sixteen bytes are the display of their entries. */
  lemma Spelled(s: seq<bv8>)
    requires |s| == 16
    ensures s == [s[0], s[1], s[2], s[3], s[4], s[5], s[6], s[7], s[8], s[9], s[10], s[11], s[12], s[13], s[14], s[15]]
  {}

  lemma UndoesAt(f0: Entry, f1: Entry, f2: Entry, f3: Entry, g0: Entry, g1: Entry, g2: Entry, g3: Entry,
                 a: bv8, b: bv8, c: bv8, d: bv8)
    requires Undoes(f0, f1, f2, f3, g0, g1, g2, g3)
    ensures var m0, m1, m2, m3 := f0(a, b, c, d), f1(a, b, c, d), f2(a, b, c, d), f3(a, b, c, d);
      g0(m0, m1, m2, m3) == a && g1(m0, m1, m2, m3) == b && g2(m0, m1, m2, m3) == c && g3(m0, m1, m2, m3) == d
  {}

  /** `s` with the operation `f` applied to its first `n` groups, one group
      at a time: the state a loop over the groups has reached after `n`
      steps. */
  function Prefix(s: seq<bv8>, f0: Entry, f1: Entry, f2: Entry, f3: Entry, n: int): (r: seq<bv8>)
    requires |s| == 16 && 0 <= n <= 4
    ensures |r| == 16
    decreases n
  {
    if n == 0 then s
    else
      var t, g := Prefix(s, f0, f1, f2, f3, n - 1), 4 * (n - 1);
      var a, b, c, d := s[g], s[g + 1], s[g + 2], s[g + 3];
      t[g := f0(a, b, c, d)][g + 1 := f1(a, b, c, d)][g + 2 := f2(a, b, c, d)][g + 3 := f3(a, b, c, d)]
  }

  /** The groups not reached yet are unchanged. */
  lemma {:induction false} PrefixRest(s: seq<bv8>, f0: Entry, f1: Entry, f2: Entry, f3: Entry, n: int, k: int)
    requires |s| == 16 && 0 <= n <= 4 && 4 * n <= k < 16
    ensures Prefix(s, f0, f1, f2, f3, n)[k] == s[k]
    decreases n
  {
    if n > 0 {
      PrefixRest(s, f0, f1, f2, f3, n - 1, k);
    }
  }

  /** Group `n`, the next one, still holds its input bytes. */
  lemma GroupUnchanged(s: seq<bv8>, f0: Entry, f1: Entry, f2: Entry, f3: Entry, n: int)
    requires |s| == 16 && 0 <= n < 4
    ensures var t := Prefix(s, f0, f1, f2, f3, n);
      t[4 * n] == s[4 * n] && t[4 * n + 1] == s[4 * n + 1] && t[4 * n + 2] == s[4 * n + 2] && t[4 * n + 3] == s[4 * n + 3]
  {
    PrefixRest(s, f0, f1, f2, f3, n, 4 * n);
    PrefixRest(s, f0, f1, f2, f3, n, 4 * n + 1);
    PrefixRest(s, f0, f1, f2, f3, n, 4 * n + 2);
    PrefixRest(s, f0, f1, f2, f3, n, 4 * n + 3);
  }

  /** Group `i` of `t` replaced by the images of its own bytes. */
  function Step(t: seq<bv8>, f0: Entry, f1: Entry, f2: Entry, f3: Entry, i: int): (r: seq<bv8>)
    requires |t| == 16 && 0 <= i < 4
    ensures |r| == 16
  {
    var a, b, c, d := t[4 * i], t[4 * i + 1], t[4 * i + 2], t[4 * i + 3];
    t[4 * i := f0(a, b, c, d)][4 * i + 1 := f1(a, b, c, d)][4 * i + 2 := f2(a, b, c, d)][4 * i + 3 := f3(a, b, c, d)]
  }

  /** Each pass of the loop takes the state one group further. */
  lemma PrefixNext(s: seq<bv8>, f0: Entry, f1: Entry, f2: Entry, f3: Entry, n: int)
    requires |s| == 16 && 0 <= n < 4
    ensures Prefix(s, f0, f1, f2, f3, n + 1) == Step(Prefix(s, f0, f1, f2, f3, n), f0, f1, f2, f3, n)
  {
    GroupUnchanged(s, f0, f1, f2, f3, n);
  }

  /** The first `n` steps of the loop, written out as the writes they make. */
  lemma PrefixOne(s: seq<bv8>, f0: Entry, f1: Entry, f2: Entry, f3: Entry)
    requires |s| == 16
    ensures Prefix(s, f0, f1, f2, f3, 1) ==
      s[0 := f0(s[0], s[1], s[2], s[3])][1 := f1(s[0], s[1], s[2], s[3])][2 := f2(s[0], s[1], s[2], s[3])][3 := f3(s[0], s[1], s[2], s[3])]
  {
  }

  lemma PrefixTwo(s: seq<bv8>, f0: Entry, f1: Entry, f2: Entry, f3: Entry)
    requires |s| == 16
    ensures Prefix(s, f0, f1, f2, f3, 2) ==
      s[0 := f0(s[0], s[1], s[2], s[3])][1 := f1(s[0], s[1], s[2], s[3])][2 := f2(s[0], s[1], s[2], s[3])][3 := f3(s[0], s[1], s[2], s[3])]
      [4 := f0(s[4], s[5], s[6], s[7])][5 := f1(s[4], s[5], s[6], s[7])][6 := f2(s[4], s[5], s[6], s[7])][7 := f3(s[4], s[5], s[6], s[7])]
  {
    PrefixOne(s, f0, f1, f2, f3);
  }

  lemma PrefixThree(s: seq<bv8>, f0: Entry, f1: Entry, f2: Entry, f3: Entry)
    requires |s| == 16
    ensures Prefix(s, f0, f1, f2, f3, 3) ==
      s[0 := f0(s[0], s[1], s[2], s[3])][1 := f1(s[0], s[1], s[2], s[3])][2 := f2(s[0], s[1], s[2], s[3])][3 := f3(s[0], s[1], s[2], s[3])]
      [4 := f0(s[4], s[5], s[6], s[7])][5 := f1(s[4], s[5], s[6], s[7])][6 := f2(s[4], s[5], s[6], s[7])][7 := f3(s[4], s[5], s[6], s[7])]
      [8 := f0(s[8], s[9], s[10], s[11])][9 := f1(s[8], s[9], s[10], s[11])][10 := f2(s[8], s[9], s[10], s[11])][11 := f3(s[8], s[9], s[10], s[11])]
  {
    PrefixTwo(s, f0, f1, f2, f3);
  }

  lemma PrefixFour(s: seq<bv8>, f0: Entry, f1: Entry, f2: Entry, f3: Entry)
    requires |s| == 16
    ensures Prefix(s, f0, f1, f2, f3, 4) ==
      s[0 := f0(s[0], s[1], s[2], s[3])][1 := f1(s[0], s[1], s[2], s[3])][2 := f2(s[0], s[1], s[2], s[3])][3 := f3(s[0], s[1], s[2], s[3])]
      [4 := f0(s[4], s[5], s[6], s[7])][5 := f1(s[4], s[5], s[6], s[7])][6 := f2(s[4], s[5], s[6], s[7])][7 := f3(s[4], s[5], s[6], s[7])]
      [8 := f0(s[8], s[9], s[10], s[11])][9 := f1(s[8], s[9], s[10], s[11])][10 := f2(s[8], s[9], s[10], s[11])][11 := f3(s[8], s[9], s[10], s[11])]
      [12 := f0(s[12], s[13], s[14], s[15])][13 := f1(s[12], s[13], s[14], s[15])][14 := f2(s[12], s[13], s[14], s[15])][15 := f3(s[12], s[13], s[14], s[15])]
  {
    PrefixThree(s, f0, f1, f2, f3);
  }

  /** After all four groups the loop has computed `ByGroup`. */
  lemma PrefixAll(s: seq<bv8>, f0: Entry, f1: Entry, f2: Entry, f3: Entry)
    requires |s| == 16
    ensures Prefix(s, f0, f1, f2, f3, 4) == ByGroup(s, f0, f1, f2, f3)
  {
    PrefixFour(s, f0, f1, f2, f3);
    WritesByGroup(s, f0, f1, f2, f3);
  }

  /** The sixteen writes of the loop make up `ByGroup`. */
  lemma WritesByGroup(s: seq<bv8>, f0: Entry, f1: Entry, f2: Entry, f3: Entry)
    requires |s| == 16
    ensures s[0 := f0(s[0], s[1], s[2], s[3])][1 := f1(s[0], s[1], s[2], s[3])][2 := f2(s[0], s[1], s[2], s[3])][3 := f3(s[0], s[1], s[2], s[3])]
      [4 := f0(s[4], s[5], s[6], s[7])][5 := f1(s[4], s[5], s[6], s[7])][6 := f2(s[4], s[5], s[6], s[7])][7 := f3(s[4], s[5], s[6], s[7])]
      [8 := f0(s[8], s[9], s[10], s[11])][9 := f1(s[8], s[9], s[10], s[11])][10 := f2(s[8], s[9], s[10], s[11])][11 := f3(s[8], s[9], s[10], s[11])]
      [12 := f0(s[12], s[13], s[14], s[15])][13 := f1(s[12], s[13], s[14], s[15])][14 := f2(s[12], s[13], s[14], s[15])][15 := f3(s[12], s[13], s[14], s[15])]
      == ByGroup(s, f0, f1, f2, f3)
  {}

  // ---------------------------------------------------------------------
  // Specifications.

  function Sub(s: seq<bv8>): (r: seq<bv8>)
    requires |s| == 16
    ensures |r| == 16
  {
    seq(16, k requires 0 <= k < 16 => SubByte(s[k]))
  }

  function InvSub(s: seq<bv8>): (r: seq<bv8>)
    requires |s| == 16
    ensures |r| == 16
  {
    seq(16, k requires 0 <= k < 16 => InvSubByte(s[k]))
  }

  /** Row `i` (entries `4 * i .. 4 * i + 3`) rotated left by `i` places. */
  function Shift(s: seq<bv8>): (r: seq<bv8>)
    requires |s| == 16
    ensures |r| == 16
  {
    [s[0], s[1], s[2], s[3],
     s[5], s[6], s[7], s[4],
     s[10], s[11], s[8], s[9],
     s[15], s[12], s[13], s[14]]
  }

  /** Row `i` rotated right by `i` places. */
  function InvShift(s: seq<bv8>): (r: seq<bv8>)
    requires |s| == 16
    ensures |r| == 16
  {
    [s[0], s[1], s[2], s[3],
     s[7], s[4], s[5], s[6],
     s[10], s[11], s[8], s[9],
     s[13], s[14], s[15], s[12]]
  }

  /** MixColumns on one group `state[i]` of four bytes, as the cipher
      computes it: the group is multiplied by the circulant matrix with first
      row 2, 3, 1, 1 (`Sum4` adds four bytes in GF(2^8), that is, XORs
      them). */
  function Mix0(a: bv8, b: bv8, c: bv8, d: bv8): bv8 { Sum4(GfMul(a, 0x02), GfMul(b, 0x03), c, d) }
  function Mix1(a: bv8, b: bv8, c: bv8, d: bv8): bv8 { Sum4(a, GfMul(b, 0x02), GfMul(c, 0x03), d) }
  function Mix2(a: bv8, b: bv8, c: bv8, d: bv8): bv8 { Sum4(a, b, GfMul(c, 0x02), GfMul(d, 0x03)) }
  function Mix3(a: bv8, b: bv8, c: bv8, d: bv8): bv8 { Sum4(GfMul(a, 0x03), b, c, GfMul(d, 0x02)) }

  /** InvMixColumns on one group: the circulant matrix with first row
      14, 11, 13, 9. */
  function InvMix0(a: bv8, b: bv8, c: bv8, d: bv8): bv8 { Lin(0x0e, 0x0b, 0x0d, 0x09, a, b, c, d) }
  function InvMix1(a: bv8, b: bv8, c: bv8, d: bv8): bv8 { Lin(0x09, 0x0e, 0x0b, 0x0d, a, b, c, d) }
  function InvMix2(a: bv8, b: bv8, c: bv8, d: bv8): bv8 { Lin(0x0d, 0x09, 0x0e, 0x0b, a, b, c, d) }
  function InvMix3(a: bv8, b: bv8, c: bv8, d: bv8): bv8 { Lin(0x0b, 0x0d, 0x09, 0x0e, a, b, c, d) }

  function Mix(s: seq<bv8>): (r: seq<bv8>)
    requires |s| == 16
    ensures |r| == 16
  {
    ByGroup(s, Mix0, Mix1, Mix2, Mix3)
  }

  function InvMix(s: seq<bv8>): (r: seq<bv8>)
    requires |s| == 16
    ensures |r| == 16
  {
    ByGroup(s, InvMix0, InvMix1, InvMix2, InvMix3)
  }

  /** Word `i` of the round key is added into `state[i]`. */
  function AddKey(s: seq<bv8>, rk: seq<seq<bv8>>): (r: seq<bv8>)
    requires |s| == 16 && IsRoundKey(rk)
    ensures |r| == 16
  {
    seq(16, k requires 0 <= k < 16 => s[k] ^ rk[k / 4][k % 4])
  }

  // ---------------------------------------------------------------------
  // Each primitive has an inverse.

  lemma InvSubSub(s: seq<bv8>)
    requires |s| == 16
    ensures InvSub(Sub(s)) == s
  {
    InvSubByteSubByte();
  }

  lemma InvShiftShift(s: seq<bv8>)
    requires |s| == 16
    ensures InvShift(Shift(s)) == s
  {}

  /** Entry `j` of row `i` after ShiftRows is entry `(j + i) % 4` before. */
  lemma ShiftRotatesLeft(s: seq<bv8>)
    requires |s| == 16
    ensures forall k :: 0 <= k < 16 ==> Shift(s)[k] == s[4 * (k / 4) + (k % 4 + k / 4) % 4]
  {}

  /** Entry `j` of row `i` after InvShiftRows is entry `(j - i) mod 4` before. */
  lemma InvShiftRotatesRight(s: seq<bv8>)
    requires |s| == 16
    ensures forall k :: 0 <= k < 16 ==> InvShift(s)[k] == s[4 * (k / 4) + (k % 4 + 4 - k / 4) % 4]
  {}

  lemma AddKeyTwice(s: seq<bv8>, rk: seq<seq<bv8>>)
    requires |s| == 16 && IsRoundKey(rk)
    ensures AddKey(AddKey(s, rk), rk) == s
  {
    forall k | 0 <= k < 16
      ensures AddKey(AddKey(s, rk), rk)[k] == s[k]
    {
    }
  }

  /** The two MixColumns matrices are inverse to each other. */
  lemma InvMixMix(s: seq<bv8>)
    requires |s| == 16
    ensures InvMix(Mix(s)) == s
  {
    MixUndone();
    ByGroupInverse(s, Mix0, Mix1, Mix2, Mix3, InvMix0, InvMix1, InvMix2, InvMix3);
  }

  lemma MixUndone()
    ensures Undoes(Mix0, Mix1, Mix2, Mix3, InvMix0, InvMix1, InvMix2, InvMix3)
  {
    forall a: bv8, b: bv8, c: bv8, d: bv8
      ensures var m0, m1, m2, m3 := Mix0(a, b, c, d), Mix1(a, b, c, d), Mix2(a, b, c, d), Mix3(a, b, c, d);
        InvMix0(m0, m1, m2, m3) == a && InvMix1(m0, m1, m2, m3) == b
        && InvMix2(m0, m1, m2, m3) == c && InvMix3(m0, m1, m2, m3) == d
    {
      InverseGroup(a, b, c, d);
    }
  }

  // ---------------------------------------------------------------------
  // The matrix identity behind InvMixMix, one group at a time.

  /** InvMixColumns undoes MixColumns on one group of four bytes. */
  lemma InverseGroup(a: bv8, b: bv8, c: bv8, d: bv8)
    ensures var m0, m1, m2, m3 := Mix0(a, b, c, d), Mix1(a, b, c, d), Mix2(a, b, c, d), Mix3(a, b, c, d);
      && InvMix0(m0, m1, m2, m3) == a && InvMix1(m0, m1, m2, m3) == b
      && InvMix2(m0, m1, m2, m3) == c && InvMix3(m0, m1, m2, m3) == d
  {
    InverseEntry0(a, b, c, d); InverseEntry1(a, b, c, d);
    InverseEntry2(a, b, c, d); InverseEntry3(a, b, c, d);
  }

  lemma InverseEntry0(a: bv8, b: bv8, c: bv8, d: bv8)
    ensures InvMix0(Mix0(a, b, c, d), Mix1(a, b, c, d), Mix2(a, b, c, d), Mix3(a, b, c, d)) == a
  {
    InverseCoefficients();
    GroupInverse(0x0e, 0x0b, 0x0d, 0x09, a, b, c, d);
    Select(a, b, c, d);
  }

  lemma InverseEntry1(a: bv8, b: bv8, c: bv8, d: bv8)
    ensures InvMix1(Mix0(a, b, c, d), Mix1(a, b, c, d), Mix2(a, b, c, d), Mix3(a, b, c, d)) == b
  {
    InverseCoefficients();
    GroupInverse(0x09, 0x0e, 0x0b, 0x0d, a, b, c, d);
    Select(a, b, c, d);
  }

  lemma InverseEntry2(a: bv8, b: bv8, c: bv8, d: bv8)
    ensures InvMix2(Mix0(a, b, c, d), Mix1(a, b, c, d), Mix2(a, b, c, d), Mix3(a, b, c, d)) == c
  {
    InverseCoefficients();
    GroupInverse(0x0d, 0x09, 0x0e, 0x0b, a, b, c, d);
    Select(a, b, c, d);
  }

  lemma InverseEntry3(a: bv8, b: bv8, c: bv8, d: bv8)
    ensures InvMix3(Mix0(a, b, c, d), Mix1(a, b, c, d), Mix2(a, b, c, d), Mix3(a, b, c, d)) == d
  {
    InverseCoefficients();
    GroupInverse(0x0b, 0x0d, 0x09, 0x0e, a, b, c, d);
    Select(a, b, c, d);
  }

  /** The product of the two circulant matrices, computed without reduction,
      is the identity. */
  lemma InverseCoefficients()
    ensures Below(0x0e, 4) && Below(0x0b, 4) && Below(0x0d, 4) && Below(0x09, 4)
    ensures Sum4(Clmul(2, 0x0e), Clmul(1, 0x0b), Clmul(1, 0x0d), Clmul(3, 0x09)) == 1
    ensures Sum4(Clmul(3, 0x0e), Clmul(2, 0x0b), Clmul(1, 0x0d), Clmul(1, 0x09)) == 0
    ensures Sum4(Clmul(1, 0x0e), Clmul(3, 0x0b), Clmul(2, 0x0d), Clmul(1, 0x09)) == 0
    ensures Sum4(Clmul(1, 0x0e), Clmul(1, 0x0b), Clmul(3, 0x0d), Clmul(2, 0x09)) == 0
    ensures Sum4(Clmul(2, 0x09), Clmul(1, 0x0e), Clmul(1, 0x0b), Clmul(3, 0x0d)) == 0
    ensures Sum4(Clmul(3, 0x09), Clmul(2, 0x0e), Clmul(1, 0x0b), Clmul(1, 0x0d)) == 1
    ensures Sum4(Clmul(1, 0x09), Clmul(3, 0x0e), Clmul(2, 0x0b), Clmul(1, 0x0d)) == 0
    ensures Sum4(Clmul(1, 0x09), Clmul(1, 0x0e), Clmul(3, 0x0b), Clmul(2, 0x0d)) == 0
    ensures Sum4(Clmul(2, 0x0d), Clmul(1, 0x09), Clmul(1, 0x0e), Clmul(3, 0x0b)) == 0
    ensures Sum4(Clmul(3, 0x0d), Clmul(2, 0x09), Clmul(1, 0x0e), Clmul(1, 0x0b)) == 0
    ensures Sum4(Clmul(1, 0x0d), Clmul(3, 0x09), Clmul(2, 0x0e), Clmul(1, 0x0b)) == 1
    ensures Sum4(Clmul(1, 0x0d), Clmul(1, 0x09), Clmul(3, 0x0e), Clmul(2, 0x0b)) == 0
    ensures Sum4(Clmul(2, 0x0b), Clmul(1, 0x0d), Clmul(1, 0x09), Clmul(3, 0x0e)) == 0
    ensures Sum4(Clmul(3, 0x0b), Clmul(2, 0x0d), Clmul(1, 0x09), Clmul(1, 0x0e)) == 0
    ensures Sum4(Clmul(1, 0x0b), Clmul(3, 0x0d), Clmul(2, 0x09), Clmul(1, 0x0e)) == 0
    ensures Sum4(Clmul(1, 0x0b), Clmul(1, 0x0d), Clmul(3, 0x09), Clmul(2, 0x0e)) == 1
  {}

  /** Inverse row `e` applied to the mixed group, as a linear form in the
      original bytes. */
  lemma GroupInverse(e0: bv8, e1: bv8, e2: bv8, e3: bv8, a: bv8, b: bv8, c: bv8, d: bv8)
    requires Below(e0, 4) && Below(e1, 4) && Below(e2, 4) && Below(e3, 4)
    ensures Lin(e0, e1, e2, e3, Mix0(a, b, c, d), Mix1(a, b, c, d), Mix2(a, b, c, d), Mix3(a, b, c, d))
         == Lin(Sum4(Clmul(2, e0), Clmul(1, e1), Clmul(1, e2), Clmul(3, e3)),
                Sum4(Clmul(3, e0), Clmul(2, e1), Clmul(1, e2), Clmul(1, e3)),
                Sum4(Clmul(1, e0), Clmul(3, e1), Clmul(2, e2), Clmul(1, e3)),
                Sum4(Clmul(1, e0), Clmul(1, e1), Clmul(3, e2), Clmul(2, e3)), a, b, c, d)
  {
    Mix0Linear(a, b, c, d); Mix1Linear(a, b, c, d);
    Mix2Linear(a, b, c, d); Mix3Linear(a, b, c, d);
    InverseRow(e0, e1, e2, e3, a, b, c, d);
  }

  /** Inverse row `e` applied to the four linear forms of MixColumns. */
  lemma InverseRow(e0: bv8, e1: bv8, e2: bv8, e3: bv8, a: bv8, b: bv8, c: bv8, d: bv8)
    requires Below(e0, 4) && Below(e1, 4) && Below(e2, 4) && Below(e3, 4)
    ensures Lin(e0, e1, e2, e3, Lin(2, 3, 1, 1, a, b, c, d), Lin(1, 2, 3, 1, a, b, c, d),
                Lin(1, 1, 2, 3, a, b, c, d), Lin(3, 1, 1, 2, a, b, c, d))
         == Lin(Sum4(Clmul(2, e0), Clmul(1, e1), Clmul(1, e2), Clmul(3, e3)),
                Sum4(Clmul(3, e0), Clmul(2, e1), Clmul(1, e2), Clmul(1, e3)),
                Sum4(Clmul(1, e0), Clmul(3, e1), Clmul(2, e2), Clmul(1, e3)),
                Sum4(Clmul(1, e0), Clmul(1, e1), Clmul(3, e2), Clmul(2, e3)), a, b, c, d)
  {
    ScaleLin(2, 3, 1, 1, e0, a, b, c, d);
    ScaleLin(1, 2, 3, 1, e1, a, b, c, d);
    ScaleLin(1, 1, 2, 3, e2, a, b, c, d);
    ScaleLin(3, 1, 1, 2, e3, a, b, c, d);
    AddLin(Clmul(2, e0), Clmul(3, e0), Clmul(1, e0), Clmul(1, e0),
           Clmul(1, e1), Clmul(2, e1), Clmul(3, e1), Clmul(1, e1),
           Clmul(1, e2), Clmul(1, e2), Clmul(2, e2), Clmul(3, e2),
           Clmul(3, e3), Clmul(1, e3), Clmul(1, e3), Clmul(2, e3), a, b, c, d);
  }

  /** Each mixed entry is a linear form in the group's four bytes. */
  lemma Mix0Linear(a: bv8, b: bv8, c: bv8, d: bv8)
    ensures Mix0(a, b, c, d) == Lin(2, 3, 1, 1, a, b, c, d)
  {
    MulZeroOne(c); MulZeroOne(d);
  }

  lemma Mix1Linear(a: bv8, b: bv8, c: bv8, d: bv8)
    ensures Mix1(a, b, c, d) == Lin(1, 2, 3, 1, a, b, c, d)
  {
    MulZeroOne(a); MulZeroOne(d);
  }

  lemma Mix2Linear(a: bv8, b: bv8, c: bv8, d: bv8)
    ensures Mix2(a, b, c, d) == Lin(1, 1, 2, 3, a, b, c, d)
  {
    MulZeroOne(a); MulZeroOne(b);
  }

  lemma Mix3Linear(a: bv8, b: bv8, c: bv8, d: bv8)
    ensures Mix3(a, b, c, d) == Lin(3, 1, 1, 2, a, b, c, d)
  {
    MulZeroOne(b); MulZeroOne(c);
  }

  /** The linear forms with one coefficient 1 and the others 0. */
  lemma Select(a: bv8, b: bv8, c: bv8, d: bv8)
    ensures Lin(1, 0, 0, 0, a, b, c, d) == a
    ensures Lin(0, 1, 0, 0, a, b, c, d) == b
    ensures Lin(0, 0, 1, 0, a, b, c, d) == c
    ensures Lin(0, 0, 0, 1, a, b, c, d) == d
  {
    MulZeroOne(a); MulZeroOne(b); MulZeroOne(c); MulZeroOne(d);
  }

  // ---------------------------------------------------------------------
  // The in-place round functions of the cipher.

  method SubBytes(state: array<bv8>)
    requires state.Length == 16
    modifies state
    ensures state[..] == Sub(old(state[..]))
  {
    for i := 0 to 4
      invariant forall k :: 0 <= k < 4 * i ==> state[k] == SubByte(old(state[k]))
      invariant forall k :: 4 * i <= k < 16 ==> state[k] == old(state[k])
    {
      for j := 0 to 4
        invariant forall k :: 0 <= k < 4 * i + j ==> state[k] == SubByte(old(state[k]))
        invariant forall k :: 4 * i + j <= k < 16 ==> state[k] == old(state[k])
      {
        state[4 * i + j] := SubByte(state[4 * i + j]);
      }
    }
  }

  method InvSubBytes(state: array<bv8>)
    requires state.Length == 16
    modifies state
    ensures state[..] == InvSub(old(state[..]))
  {
    for i := 0 to 4
      invariant forall k :: 0 <= k < 4 * i ==> state[k] == InvSubByte(old(state[k]))
      invariant forall k :: 4 * i <= k < 16 ==> state[k] == old(state[k])
    {
      for j := 0 to 4
        invariant forall k :: 0 <= k < 4 * i + j ==> state[k] == InvSubByte(old(state[k]))
        invariant forall k :: 4 * i + j <= k < 16 ==> state[k] == old(state[k])
      {
        state[4 * i + j] := InvSubByte(state[4 * i + j]);
      }
    }
  }

  /** The writes of ShiftRows, in their order. */
  function ShiftWrites(s: seq<bv8>): seq<bv8>
    requires |s| == 16
  {
    s[4 := s[5]][5 := s[6]][6 := s[7]][7 := s[4]]
     [8 := s[10]][10 := s[8]][9 := s[11]][11 := s[9]]
     [15 := s[14]][14 := s[13]][13 := s[12]][12 := s[15]]
  }

  lemma ShiftWritesShift(s: seq<bv8>)
    requires |s| == 16
    ensures ShiftWrites(s) == Shift(s)
  {}

  /** The writes of InvShiftRows, in their order. */
  function InvShiftWrites(s: seq<bv8>): seq<bv8>
    requires |s| == 16
  {
    s[7 := s[6]][6 := s[5]][5 := s[4]][4 := s[7]]
     [8 := s[10]][10 := s[8]][9 := s[11]][11 := s[9]]
     [12 := s[13]][13 := s[14]][14 := s[15]][15 := s[12]]
  }

  lemma InvShiftWritesInvShift(s: seq<bv8>)
    requires |s| == 16
    ensures InvShiftWrites(s) == InvShift(s)
  {}

  method ShiftRows(state: array<bv8>)
    requires state.Length == 16
    modifies state
    ensures state[..] == Shift(old(state[..]))
  {
    ghost var s := state[..];
    // Row 1: rotate left by one.
    var temp := state[4];
    state[4] := state[5];
    state[5] := state[6];
    state[6] := state[7];
    state[7] := temp;
    // Row 2: swap entries 0 and 2, and 1 and 3.
    temp := state[8];
    state[8] := state[10];
    state[10] := temp;
    temp := state[9];
    state[9] := state[11];
    state[11] := temp;
    // Row 3: rotate right by one.
    temp := state[15];
    state[15] := state[14];
    state[14] := state[13];
    state[13] := state[12];
    state[12] := temp;
    assert state[..] == ShiftWrites(s);
    ShiftWritesShift(s);
  }

  method InvShiftRows(state: array<bv8>)
    requires state.Length == 16
    modifies state
    ensures state[..] == InvShift(old(state[..]))
  {
    ghost var s := state[..];
    // Row 1: rotate right by one.
    var temp := state[7];
    state[7] := state[6];
    state[6] := state[5];
    state[5] := state[4];
    state[4] := temp;
    // Row 2: swap entries 0 and 2, and 1 and 3.
    temp := state[8];
    state[8] := state[10];
    state[10] := temp;
    temp := state[9];
    state[9] := state[11];
    state[11] := temp;
    // Row 3: rotate left by one.
    temp := state[12];
    state[12] := state[13];
    state[13] := state[14];
    state[14] := state[15];
    state[15] := temp;
    assert state[..] == InvShiftWrites(s);
    InvShiftWritesInvShift(s);
  }

  /** The loop of MixColumns and InvMixColumns: for each group `state[i]`
      in turn, reads its four bytes and writes entry `j` as `fj` of them.
      The two methods pass the four expressions of their loop bodies
      (`Mix0` .. `Mix3`, `InvMix0` .. `InvMix3`, with `multiply` as
      `GfMul`, which `Multiply` is proved to compute). */
  method MixGroups(state: array<bv8>, f0: Entry, f1: Entry, f2: Entry, f3: Entry)
    requires state.Length == 16
    modifies state
    ensures state[..] == ByGroup(old(state[..]), f0, f1, f2, f3)
  {
    ghost var s := state[..];
    for i := 0 to 4
      invariant state[..] == Prefix(s, f0, f1, f2, f3, i)
    {
      PrefixNext(s, f0, f1, f2, f3, i);
      MixGroup(state, f0, f1, f2, f3, i);
    }
    PrefixAll(s, f0, f1, f2, f3);
  }

  /** One pass of the loop: reads the four bytes of group `i` and writes
      entry `j` as `fj` of them. */
  method MixGroup(state: array<bv8>, f0: Entry, f1: Entry, f2: Entry, f3: Entry, i: int)
    requires state.Length == 16 && 0 <= i < 4
    modifies state
    ensures state[..] == Step(old(state[..]), f0, f1, f2, f3, i)
  {
    var a, b, c, d := state[4 * i], state[4 * i + 1], state[4 * i + 2], state[4 * i + 3];
    state[4 * i] := f0(a, b, c, d);
    state[4 * i + 1] := f1(a, b, c, d);
    state[4 * i + 2] := f2(a, b, c, d);
    state[4 * i + 3] := f3(a, b, c, d);
  }

  method MixColumns(state: array<bv8>)
    requires state.Length == 16
    modifies state
    ensures state[..] == Mix(old(state[..]))
  {
    MixGroups(state, Mix0, Mix1, Mix2, Mix3);
  }

  method InvMixColumns(state: array<bv8>)
    requires state.Length == 16
    modifies state
    ensures state[..] == InvMix(old(state[..]))
  {
    MixGroups(state, InvMix0, InvMix1, InvMix2, InvMix3);
  }

  /** Adds the round key `rk` (word `i` into `state[i]`). */
  method AddRoundKey(state: array<bv8>, rk: seq<seq<bv8>>)
    requires state.Length == 16 && IsRoundKey(rk)
    modifies state
    ensures state[..] == AddKey(old(state[..]), rk)
  {
    for i := 0 to 4
      invariant forall k :: 0 <= k < 4 * i ==> state[k] == old(state[k]) ^ rk[k / 4][k % 4]
      invariant forall k :: 4 * i <= k < 16 ==> state[k] == old(state[k])
    {
      for j := 0 to 4
        invariant forall k :: 0 <= k < 4 * i + j ==> state[k] == old(state[k]) ^ rk[k / 4][k % 4]
        invariant forall k :: 4 * i + j <= k < 16 ==> state[k] == old(state[k])
      {
        state[4 * i + j] := state[4 * i + j] ^ rk[i][j];
      }
    }
  }
}
