/**
 The digest against the standard. One round constant of the program is not that of section 4.2.2
 of FIPS 180-4, so no block is compressed as the standard does; the empty message, whose padded
 form is one block, shows both digests in full.
 */
module KnownDigest {
  import opened Types
  import opened Binary
  import opened Sha256
  import R = Register
  import B = MachineWords

  // ------------------------------------------------------------------------------------------
  // One different constant changes every block.
  // ------------------------------------------------------------------------------------------

  ghost predicate Cancels(sum: Sum2) {
    && (forall x, y, z :: sum(x, z) == sum(y, z) ==> x == y)
    && (forall x, y, z :: sum(z, x) == sum(z, y) ==> x == y)
  }

  lemma CancelRight(x: bv32, y: bv32, z: bv32)
    requires x + z == y + z
    ensures x == y
  {}

  lemma SumCancelsRight()
    ensures forall x, y, z :: Sum(x, z) == Sum(y, z) ==> x == y
  {
    forall x, y, z | Sum(x, z) == Sum(y, z)
      ensures x == y
    {
      CancelRight(x, y, z);
    }
  }

  lemma SumCommutes()
    ensures forall x, y :: Sum(x, y) == Sum(y, x)
  {}

  lemma CancelsBothSides(sum: Sum2)
    requires forall x, y, z :: sum(x, z) == sum(y, z) ==> x == y
    requires forall x, y :: sum(x, y) == sum(y, x)
    ensures Cancels(sum)
  {}

  lemma SumCancels()
    ensures Cancels(Sum)
  {
    SumCancelsRight();
    SumCommutes();
    CancelsBothSides(Sum);
  }

  /** A round loses nothing of the state, and tells any two constants apart. */
  ghost predicate Faithful<H(!new)>(round: Rounding<H>) {
    && (forall s, t, k, w :: round(s, k, w) == round(t, k, w) ==> s == t)
    && (forall s, k, l, w :: round(s, k, w) == round(s, l, w) ==> k == l)
  }

  lemma SumsApart(sum: Sum2, x: bv32, y: bv32, z: bv32)
    requires Cancels(sum)
    ensures sum(x, z) == sum(y, z) ==> x == y
    ensures sum(z, x) == sum(z, y) ==> x == y
  {}

  lemma RoundInjectiveBy(sum: Sum2, upper: Mix3, lower: Mix3, s: Chain, t: Chain, k: bv32, w: bv32)
    requires Cancels(sum) && RoundBy(sum, upper, lower, s, k, w) == RoundBy(sum, upper, lower, t, k, w)
    ensures s == t
  {
    var l := lower(s.e, s.f, s.g);
    assert s.a == t.a && s.b == t.b && s.c == t.c && s.e == t.e && s.f == t.f && s.g == t.g;
    var p, q := sum(s.h, l), sum(t.h, l);
    SumsApart(sum, sum(sum(p, k), w), sum(sum(q, k), w), upper(s.a, s.b, s.c));
    SumsApart(sum, s.d, t.d, sum(sum(p, k), w));
    SumsApart(sum, sum(p, k), sum(q, k), w);
    SumsApart(sum, p, q, k);
    SumsApart(sum, s.h, t.h, l);
  }

  lemma RoundSeparatesBy(sum: Sum2, upper: Mix3, lower: Mix3, s: Chain, k: bv32, l: bv32, w: bv32)
    requires Cancels(sum) && RoundBy(sum, upper, lower, s, k, w) == RoundBy(sum, upper, lower, s, l, w)
    ensures k == l
  {
    var u := sum(s.h, lower(s.e, s.f, s.g));
    SumsApart(sum, sum(sum(u, k), w), sum(sum(u, l), w), upper(s.a, s.b, s.c));
    SumsApart(sum, sum(u, k), sum(u, l), w);
    SumsApart(sum, k, l, u);
  }

  lemma RoundFaithful()
    ensures Faithful(Round)
  {
    SumCancels();
    forall s, t, k, w | Round(s, k, w) == Round(t, k, w)
      ensures s == t
    {
      RoundInjectiveBy(Sum, Upper, Lower, s, t, k, w);
    }
    forall s, k, l, w | Round(s, k, w) == Round(s, l, w)
      ensures k == l
    {
      RoundSeparatesBy(Sum, Upper, Lower, s, k, l, w);
    }
  }

  lemma StatesStayApart<H(!new)>(round: Rounding<H>, s: H, t: H, k: bv32, w: bv32)
    requires Faithful(round) && s != t
    ensures round(s, k, w) != round(t, k, w)
  {}

  lemma KeysSeparate<H(!new)>(round: Rounding<H>, s: H, k: bv32, l: bv32, w: bv32)
    requires Faithful(round) && k != l
    ensures round(s, k, w) != round(s, l, w)
  {}

  lemma {:induction false} RoundsAgree<H>(round: Rounding<H>, k: seq<bv32>, l: seq<bv32>, s: H, w: seq<bv32>, n: nat)
    requires n <= |w| && n <= |k| && n <= |l| && k[..n] == l[..n]
    ensures Rounds(round, k, s, w, n) == Rounds(round, l, s, w, n)
  {
    if n > 0 {
      assert k[n - 1] == k[..n][n - 1] && l[n - 1] == l[..n][n - 1];
      assert k[..n - 1] == k[..n][..n - 1] && l[..n - 1] == l[..n][..n - 1];
      RoundsAgree(round, k, l, s, w, n - 1);
    }
  }

  /** The tables differ at position i only. */
  ghost predicate DifferAt(k: seq<bv32>, l: seq<bv32>, i: nat) {
    |k| == |l| && forall j :: 0 <= j < |k| ==> (k[j] != l[j] <==> j == i)
  }

  lemma {:induction false} RoundsDiffer<H(!new)>(round: Rounding<H>, k: seq<bv32>, l: seq<bv32>, i: nat, s: H, w: seq<bv32>, n: nat)
    requires Faithful(round) && DifferAt(k, l, i) && i < n <= |w| && n <= |k|
    ensures Rounds(round, k, s, w, n) != Rounds(round, l, s, w, n)
  {
    if i == n - 1 {
      RoundsAgree(round, k, l, s, w, i);
      KeysSeparate(round, Rounds(round, k, s, w, i), k[i], l[i], w[i]);
    } else {
      RoundsDiffer(round, k, l, i, s, w, n - 1);
      StatesStayApart(round, Rounds(round, k, s, w, n - 1), Rounds(round, l, s, w, n - 1), k[n - 1], w[n - 1]);
      assert k[n - 1] == l[n - 1];
    }
  }

  lemma AddedInjectiveBy(sum: Sum2, s: Chain, t: Chain, u: Chain)
    requires Cancels(sum) && AddedBy(sum, s, t) == AddedBy(sum, s, u)
    ensures t == u
  {}

  lemma AddedInjective(s: Chain, t: Chain, u: Chain)
    requires Added(s, t) == Added(s, u)
    ensures t == u
  {
    SumCancels();
    AddedInjectiveBy(Sum, s, t, u);
  }

  /** Two tables that differ in one place compress no block alike, from no state. */
  lemma NoBlockAlike(k: seq<bv32>, l: seq<bv32>, i: nat, s: Chain, p: seq<byte>)
    requires |p| == 64 && i < |k| && DifferAt(k, l, i)
    ensures CompressWith(k, s, p) != CompressWith(l, s, p)
  {
    var w := Schedule(p, |k|);
    RoundFaithful();
    RoundsDiffer(Round, k, l, i, s, w, |k|);
    if CompressWith(k, s, p) == CompressWith(l, s, p) {
      AddedInjective(s, Rounds(Round, k, s, w, |k|), Rounds(Round, l, s, w, |k|));
    }
  }

  // ------------------------------------------------------------------------------------------
  // The empty message: the schedule and the rounds, eight at a time.
  // ------------------------------------------------------------------------------------------

  type Row = w: seq<bv32> | |w| == 8 witness [0, 0, 0, 0, 0, 0, 0, 0]
  type Next4 = (bv32, bv32, bv32, bv32) -> bv32

  function EightRounds<H>(round: Rounding<H>, k: Row, s: H, w: Row): H {
    var t := round(round(round(round(s, k[0], w[0]), k[1], w[1]), k[2], w[2]), k[3], w[3]);
    round(round(round(round(t, k[4], w[4]), k[5], w[5]), k[6], w[6]), k[7], w[7])
  }

  /** A row of the schedule, from the two rows before it. */
  function NextRow(next: Next4, a: Row, b: Row): Row {
    var c0 := next(a[0], a[1], b[1], b[6]);
    var c1 := next(a[1], a[2], b[2], b[7]);
    var c2 := next(a[2], a[3], b[3], c0);
    var c3 := next(a[3], a[4], b[4], c1);
    var c4 := next(a[4], a[5], b[5], c2);
    var c5 := next(a[5], a[6], b[6], c3);
    var c6 := next(a[6], a[7], b[7], c4);
    [c0, c1, c2, c3, c4, c5, c6, next(a[7], b[0], c0, c5)]
  }

  ghost predicate RecursAt(next: Next4, w: seq<bv32>, i: nat)
    requires 16 <= i < |w|
  {
    w[i] == next(w[i - 16], w[i - 15], w[i - 7], w[i - 2])
  }

  ghost predicate Recurs(next: Next4, w: seq<bv32>) {
    forall i :: 16 <= i < |w| ==> RecursAt(next, w, i)
  }

  lemma WordRecurs(next: Next4, front: seq<bv32>, r: seq<bv32>, x: bv32)
    requires |r| >= 16 && Recurs(next, front + r) && x == next(r[|r| - 16], r[|r| - 15], r[|r| - 7], r[|r| - 2])
    ensures Recurs(next, front + (r + [x]))
  {
    var v, w, n := front + r, front + (r + [x]), |front + r|;
    assert w == v + [x];
    forall i | 16 <= i < |w|
      ensures RecursAt(next, w, i)
    {
      if i < n {
        assert RecursAt(next, v, i);
      } else {
        assert v[n - 16] == r[|r| - 16] && v[n - 15] == r[|r| - 15] && v[n - 7] == r[|r| - 7] && v[n - 2] == r[|r| - 2];
      }
    }
  }

  lemma FourRecur(next: Next4, front: seq<bv32>, r: seq<bv32>, x: seq<bv32>)
    requires |r| >= 16 && |x| == 4 && Recurs(next, front + r)
    requires var n := |r| - 16; x[0] == next(r[n], r[n + 1], r[n + 9], r[n + 14]) && x[1] == next(r[n + 1], r[n + 2], r[n + 10], r[n + 15])
    requires var n := |r| - 16; x[2] == next(r[n + 2], r[n + 3], r[n + 11], x[0]) && x[3] == next(r[n + 3], r[n + 4], r[n + 12], x[1])
    ensures Recurs(next, front + (r + x))
  {
    WordRecurs(next, front, r, x[0]);
    WordRecurs(next, front, r + [x[0]], x[1]);
    WordRecurs(next, front, r + [x[0]] + [x[1]], x[2]);
    WordRecurs(next, front, r + [x[0]] + [x[1]] + [x[2]], x[3]);
    assert r + [x[0]] + [x[1]] + [x[2]] + [x[3]] == r + x;
  }

  lemma RowRecurs(next: Next4, front: seq<bv32>, a: Row, b: Row, c: Row)
    requires Recurs(next, front + (a + b)) && c == NextRow(next, a, b)
    ensures Recurs(next, front + a + (b + c))
  {
    FourRecur(next, front, a + b, c[..4]);
    FourRecur(next, front, a + b + c[..4], c[4..]);
    assert front + (a + b + c[..4] + c[4..]) == front + a + (b + c);
  }

  lemma RowsRecur(next: Next4, a: Row, b: Row, c: Row, d: Row, e: Row, f: Row, g: Row, h: Row)
    requires c == NextRow(next, a, b) && d == NextRow(next, b, c) && e == NextRow(next, c, d)
    requires f == NextRow(next, d, e) && g == NextRow(next, e, f) && h == NextRow(next, f, g)
    ensures Recurs(next, a + b + c + d + e + f + g + h)
  {
    RowRecurs(next, [], a, b, c);
    RowRecurs(next, [] + a, b, c, d);
    RowRecurs(next, [] + a + b, c, d, e);
    RowRecurs(next, [] + a + b + c, d, e, f);
    RowRecurs(next, [] + a + b + c + d, e, f, g);
    RowRecurs(next, [] + a + b + c + d + e, f, g, h);
    assert [] + a + b + c + d + e + f + (g + h) == a + b + c + d + e + f + g + h;
  }

  lemma {:induction false} ScheduleIs(p: seq<byte>, w: seq<bv32>, n: nat)
    requires |p| == 64 && n <= |w| && Recurs(NextWord, w)
    requires forall i :: 0 <= i < 16 && i < n ==> w[i] == BigWord(p, i)
    ensures Schedule(p, n) == w[..n]
  {
    if n > 0 {
      ScheduleIs(p, w, n - 1);
      assert w[..n] == w[..n - 1] + [w[n - 1]];
      if n > 16 {
        assert RecursAt(NextWord, w, n - 1);
      }
    }
  }

  lemma RoundsRow<H>(round: Rounding<H>, k: seq<bv32>, s: H, w: seq<bv32>, n: nat)
    requires n + 8 <= |k| && n + 8 <= |w|
    ensures Rounds(round, k, s, w, n + 8) == EightRounds(round, k[n..n + 8], Rounds(round, k, s, w, n), w[n..n + 8])
  {
    var t := Rounds(round, k, s, w, n + 4);
    assert t == round(Rounds(round, k, s, w, n + 3), k[n + 3], w[n + 3]);
    assert Rounds(round, k, s, w, n + 2) == round(Rounds(round, k, s, w, n + 1), k[n + 1], w[n + 1]);
    assert Rounds(round, k, s, w, n + 6) == round(Rounds(round, k, s, w, n + 5), k[n + 5], w[n + 5]);
  }

  lemma RowStep<H>(round: Rounding<H>, k: seq<bv32>, w: seq<bv32>, s: H, n: nat, kr: Row, wr: Row, t: H, u: H)
    requires n + 8 <= |k| && n + 8 <= |w| && k[n..n + 8] == kr && w[n..n + 8] == wr
    requires Rounds(round, k, s, w, n) == t && EightRounds(round, kr, t, wr) == u
    ensures Rounds(round, k, s, w, n + 8) == u
  {
    RoundsRow(round, k, s, w, n);
  }

  lemma RowOf(a: Row, b: Row, c: Row, d: Row, e: Row, f: Row, g: Row, h: Row, s: seq<bv32>, r: nat)
    requires s == a + b + c + d + e + f + g + h && r < 8
    ensures s[8 * r..8 * r + 8] == [a, b, c, d, e, f, g, h][r]
  {}

  const W_A: seq<bv32> := [0x80000000, 0x00000000, 0x00000000, 0x00000000, 0x00000000, 0x00000000, 0x00000000, 0x00000000]
  const W_B: seq<bv32> := [0x00000000, 0x00000000, 0x00000000, 0x00000000, 0x00000000, 0x00000000, 0x00000000, 0x00000000]
  const W_C: seq<bv32> := [0x80000000, 0x00000000, 0x00205000, 0x00000000, 0x22000800, 0x00000000, 0x05089542, 0x80000000]
  const W_D: seq<bv32> := [0x58080000, 0x0040a000, 0x00162505, 0x66001800, 0xd6222580, 0x14225508, 0xd645f95c, 0xc9282000]
  const W_E: seq<bv32> := [0xc3f10094, 0x284ca766, 0x06886dc6, 0xa37bf116, 0x717cbe96, 0xfec2d74a, 0xa7b67f00, 0x811596a2]
  const W_F: seq<bv32> := [0x98a6e768, 0x03b20c82, 0x5d1da7c9, 0xb156b935, 0xc3ddca11, 0x249c107f, 0xc48d24ef, 0x5de54c30]
  const W_G: seq<bv32> := [0xdefece65, 0x2ca1480d, 0x3c15332c, 0x01cec9ad, 0x160cccd0, 0x0bacda98, 0x361b8fe0, 0xd2320ba6]
  const W_H: seq<bv32> := [0x029b7007, 0x7546587c, 0x07f54f39, 0xf808ddc3, 0xdcca7608, 0x5e427188, 0x44bcec5d, 0x3b5ec49b]
  const W: seq<bv32> := W_A + W_B + W_C + W_D + W_E + W_F + W_G + W_H

  const S_1: Chain := Chain(0x7ad5b1b6, 0xf0205590, 0x292e3b42, 0x4366f730, 0x53f94dcb, 0x82ede06f, 0x4f6540fa, 0xe7d0641e)
  const S_2: Chain := Chain(0xb40085b5, 0xb88afddb, 0x45c013a7, 0x2102d2cd, 0x5cb8e863, 0x1ccfac39, 0x2b427296, 0xcdfdfe52)
  const S_3: Chain := Chain(0x985bed55, 0x404d8054, 0x99a6cb19, 0x75c7f0d8, 0x2c2c028d, 0xb1653710, 0xc287981e, 0x39953ccd)
  const S_4: Chain := Chain(0x0dc73002, 0x6c9d48c3, 0x090b4418, 0x48a8d4a1, 0x3bd155a3, 0x7d12c0fc, 0x319daed0, 0x0584fef8)
  const S_5: Chain := Chain(0x9a1efe39, 0xf36f3ec8, 0x5eb753fc, 0x81bedccd, 0xd2ed90e2, 0x10489b96, 0x7e41091d, 0x9deaf8d6)
  const S_6: Chain := Chain(0x87ddec11, 0x27b7dc3b, 0xde71087a, 0xa00f62b7, 0x211e9c76, 0x4116ac2f, 0xb76a813c, 0xa294a75e)
  const S_7: Chain := Chain(0x387812a5, 0x7ceab191, 0x07bb646c, 0x2b64b5f9, 0xc0848dea, 0x0480068e, 0x0cf12d9b, 0x482550e8)
  const S_8: Chain := Chain(0x40c9af2b, 0x0db714d3, 0xe8e59988, 0x0b538157, 0x6ad8af55, 0x37f62172, 0xfad931b3, 0x435d562b)

  const T_4: Chain := Chain(0x11e7025f, 0xa0bb0cdf, 0x72d3a00d, 0x64bc9e1c, 0xbbd7846c, 0x564a6626, 0xb04ab22d, 0x95696b75)
  const T_5: Chain := Chain(0x499911b1, 0x9e58e42f, 0x56e3dc4e, 0xa096535d, 0x716bb025, 0x85a71424, 0xe807ea7f, 0xfac06aed)
  const T_6: Chain := Chain(0x365a34cd, 0x54982d6c, 0x32fa442b, 0xa40972d4, 0xcbb3f8eb, 0x8a6a82b2, 0xd285c679, 0xaa2c1810)
  const T_7: Chain := Chain(0x01638014, 0x2caf58ca, 0x3a0e9477, 0xb1b29c90, 0xadf94e0a, 0xe588e598, 0xfd99936e, 0x43a5def8)
  const T_8: Chain := Chain(0x79a6dddb, 0xdd946d8f, 0x5e8d0156, 0xf41fc3ea, 0xd69fef65, 0xc9962ac0, 0x8511bf70, 0x1c71eb3c)

  /** The round constants of section 4.2.2 of FIPS 180-4. */
  const STANDARD_D: seq<bv32> := [0x983e5152, 0xa831c66d, 0xb00327c8, 0xbf597fc7, 0xc6e00bf3, 0xd5a79147, 0x06ca6351, 0x14292967]
  const STANDARD_K: seq<bv32> := K_A + K_B + K_C + STANDARD_D + K_E + K_F + K_G + K_H

  lemma RowC()
    ensures NextRow(NextWord, W_A, W_B) == W_C
  {}

  lemma RowD()
    ensures NextRow(NextWord, W_B, W_C) == W_D
  {}

  lemma RowE()
    ensures NextRow(NextWord, W_C, W_D) == W_E
  {}

  lemma RowF()
    ensures NextRow(NextWord, W_D, W_E) == W_F
  {}

  lemma RowG()
    ensures NextRow(NextWord, W_E, W_F) == W_G
  {}

  lemma RowH()
    ensures NextRow(NextWord, W_F, W_G) == W_H
  {}

  lemma WRecurs()
    ensures Recurs(NextWord, W)
  {
    RowC();
    RowD();
    RowE();
    RowF();
    RowG();
    RowH();
    RowsRecur(NextWord, W_A, W_B, W_C, W_D, W_E, W_F, W_G, W_H);
  }

  lemma RoundsA()
    ensures Rounds(Round, K, IV, W, 8) == S_1
  {
    RowOf(K_A, K_B, K_C, K_D, K_E, K_F, K_G, K_H, K, 0);
    RowOf(W_A, W_B, W_C, W_D, W_E, W_F, W_G, W_H, W, 0);
    RowStep(Round, K, W, IV, 0, K_A, W_A, IV, S_1);
  }

  lemma RoundsB()
    ensures Rounds(Round, K, IV, W, 16) == S_2
  {
    RoundsA();
    RowOf(K_A, K_B, K_C, K_D, K_E, K_F, K_G, K_H, K, 1);
    RowOf(W_A, W_B, W_C, W_D, W_E, W_F, W_G, W_H, W, 1);
    RowStep(Round, K, W, IV, 8, K_B, W_B, S_1, S_2);
  }

  lemma RoundsC()
    ensures Rounds(Round, K, IV, W, 24) == S_3
  {
    RoundsB();
    RowOf(K_A, K_B, K_C, K_D, K_E, K_F, K_G, K_H, K, 2);
    RowOf(W_A, W_B, W_C, W_D, W_E, W_F, W_G, W_H, W, 2);
    RowStep(Round, K, W, IV, 16, K_C, W_C, S_2, S_3);
  }

  lemma RoundsD()
    ensures Rounds(Round, K, IV, W, 32) == S_4
  {
    RoundsC();
    RowOf(K_A, K_B, K_C, K_D, K_E, K_F, K_G, K_H, K, 3);
    RowOf(W_A, W_B, W_C, W_D, W_E, W_F, W_G, W_H, W, 3);
    RowStep(Round, K, W, IV, 24, K_D, W_D, S_3, S_4);
  }

  lemma RoundsE()
    ensures Rounds(Round, K, IV, W, 40) == S_5
  {
    RoundsD();
    RowOf(K_A, K_B, K_C, K_D, K_E, K_F, K_G, K_H, K, 4);
    RowOf(W_A, W_B, W_C, W_D, W_E, W_F, W_G, W_H, W, 4);
    RowStep(Round, K, W, IV, 32, K_E, W_E, S_4, S_5);
  }

  lemma RoundsF()
    ensures Rounds(Round, K, IV, W, 48) == S_6
  {
    RoundsE();
    RowOf(K_A, K_B, K_C, K_D, K_E, K_F, K_G, K_H, K, 5);
    RowOf(W_A, W_B, W_C, W_D, W_E, W_F, W_G, W_H, W, 5);
    RowStep(Round, K, W, IV, 40, K_F, W_F, S_5, S_6);
  }

  lemma RoundsG()
    ensures Rounds(Round, K, IV, W, 56) == S_7
  {
    RoundsF();
    RowOf(K_A, K_B, K_C, K_D, K_E, K_F, K_G, K_H, K, 6);
    RowOf(W_A, W_B, W_C, W_D, W_E, W_F, W_G, W_H, W, 6);
    RowStep(Round, K, W, IV, 48, K_G, W_G, S_6, S_7);
  }

  lemma RoundsH()
    ensures Rounds(Round, K, IV, W, 64) == S_8
  {
    RoundsG();
    RowOf(K_A, K_B, K_C, K_D, K_E, K_F, K_G, K_H, K, 7);
    RowOf(W_A, W_B, W_C, W_D, W_E, W_F, W_G, W_H, W, 7);
    RowStep(Round, K, W, IV, 56, K_H, W_H, S_7, S_8);
  }

  lemma StandardStart()
    ensures Rounds(Round, STANDARD_K, IV, W, 24) == S_3
  {
    RoundsC();
    var front := K_A + K_B + K_C;
    assert K[..24] == front && STANDARD_K[..24] == front;
    RoundsAgree(Round, STANDARD_K, K, IV, W, 24);
  }

  lemma StandardD()
    ensures Rounds(Round, STANDARD_K, IV, W, 32) == T_4
  {
    StandardStart();
    RowOf(K_A, K_B, K_C, STANDARD_D, K_E, K_F, K_G, K_H, STANDARD_K, 3);
    RowOf(W_A, W_B, W_C, W_D, W_E, W_F, W_G, W_H, W, 3);
    RowStep(Round, STANDARD_K, W, IV, 24, STANDARD_D, W_D, S_3, T_4);
  }

  lemma StandardE()
    ensures Rounds(Round, STANDARD_K, IV, W, 40) == T_5
  {
    StandardD();
    RowOf(K_A, K_B, K_C, STANDARD_D, K_E, K_F, K_G, K_H, STANDARD_K, 4);
    RowOf(W_A, W_B, W_C, W_D, W_E, W_F, W_G, W_H, W, 4);
    RowStep(Round, STANDARD_K, W, IV, 32, K_E, W_E, T_4, T_5);
  }

  lemma StandardF()
    ensures Rounds(Round, STANDARD_K, IV, W, 48) == T_6
  {
    StandardE();
    RowOf(K_A, K_B, K_C, STANDARD_D, K_E, K_F, K_G, K_H, STANDARD_K, 5);
    RowOf(W_A, W_B, W_C, W_D, W_E, W_F, W_G, W_H, W, 5);
    RowStep(Round, STANDARD_K, W, IV, 40, K_F, W_F, T_5, T_6);
  }

  lemma StandardG()
    ensures Rounds(Round, STANDARD_K, IV, W, 56) == T_7
  {
    StandardF();
    RowOf(K_A, K_B, K_C, STANDARD_D, K_E, K_F, K_G, K_H, STANDARD_K, 6);
    RowOf(W_A, W_B, W_C, W_D, W_E, W_F, W_G, W_H, W, 6);
    RowStep(Round, STANDARD_K, W, IV, 48, K_G, W_G, T_6, T_7);
  }

  lemma StandardH()
    ensures Rounds(Round, STANDARD_K, IV, W, 64) == T_8
  {
    StandardG();
    RowOf(K_A, K_B, K_C, STANDARD_D, K_E, K_F, K_G, K_H, STANDARD_K, 7);
    RowOf(W_A, W_B, W_C, W_D, W_E, W_F, W_G, W_H, W, 7);
    RowStep(Round, STANDARD_K, W, IV, 56, K_H, W_H, T_7, T_8);
  }

  // ------------------------------------------------------------------------------------------
  // The padded form of the empty message.
  // ------------------------------------------------------------------------------------------

  lemma {:induction false} BEZero(n: nat)
    ensures BE(0, n) == Zeros(n)
  {
    if n > 0 {
      BEZero(n - 1);
    }
  }

  lemma {:induction false} FromBEZero(s: seq<byte>)
    requires forall i :: 0 <= i < |s| ==> s[i] == 0
    ensures FromBE(s) == 0
  {
    if s != [] {
      FromBEZero(s[..|s| - 1]);
    }
  }

  lemma EmptyPadParts()
    ensures Pad([]) == [0x80] + Zeros(55) + Zeros(8)
  {
    assert PadZeros(0) == 55 && LengthField(0) == 0;
    BEZero(8);
  }

  lemma EmptyPad()
    ensures |Pad([])| == 64 && Pad([])[0] == 0x80 && forall i :: 1 <= i < 64 ==> Pad([])[i] == 0
  {
    EmptyPadParts();
  }

  lemma EmptyPadIsStandard()
    ensures StandardPad([]) == Pad([])
  {
    StandardExactly([]);
  }

  lemma BuiltTimes16<M>(zero: M, push: (M, bool) -> M, n: nat)
    requires n > 0
    ensures Built(zero, push, 16 * n) == push(push(push(push(Built(zero, push, n), false), false), false), false)
  {
    assert Built(zero, push, 2 * n) == push(Built(zero, push, n), false);
    assert Built(zero, push, 4 * n) == push(Built(zero, push, 2 * n), false);
    assert Built(zero, push, 8 * n) == push(Built(zero, push, 4 * n), false);
    assert Built(zero, push, 16 * n) == push(Built(zero, push, 8 * n), false);
  }

  lemma Shifts4(x: bv32)
    ensures Push(Push(Push(Push(x, false), false), false), false) == x << 4
  {}

  lemma NextDigit(n: nat, x: bv32)
    requires n > 0 && ToWord(n) == x
    ensures ToWord(16 * n) == x << 4
  {
    BuiltTimes16(0, Push, n);
    Shifts4(x);
  }

  lemma TopBit()
    ensures ToWord(0x8000_0000) == 0x8000_0000
  {
    assert ToWord(8) == 8;
    NextDigit(0x8, 0x8);
    NextDigit(0x80, 0x80);
    NextDigit(0x800, 0x800);
    NextDigit(0x8000, 0x8000);
    NextDigit(0x8_0000, 0x8_0000);
    NextDigit(0x80_0000, 0x80_0000);
    NextDigit(0x800_0000, 0x800_0000);
  }

  lemma FromBELast(s: seq<byte>, b: byte)
    ensures FromBE(s + [b]) == 256 * FromBE(s) + b
  {
    assert (s + [b])[..|s|] == s;
  }

  lemma FromBEFour(a: byte, b: byte, c: byte, d: byte)
    ensures FromBE([a, b, c, d]) == 256 * (256 * (256 * a + b) + c) + d
  {
    FromBELast([], a);
    FromBELast([a], b);
    FromBELast([a] + [b], c);
    FromBELast([a] + [b] + [c], d);
    assert [] + [a] == [a] && [a] + [b] + [c] + [d] == [a, b, c, d];
  }

  lemma EmptyNumber(p: seq<byte>, i: nat)
    requires p == Pad([]) && i < 16
    ensures |p| == 64 && FromBE(p[4 * i..4 * i + 4]) == if i == 0 then 0x8000_0000 else 0
  {
    EmptyPad();
    var s := p[4 * i..4 * i + 4];
    FromBEFour(s[0], s[1], s[2], s[3]);
    assert s == [s[0], s[1], s[2], s[3]];
  }

  lemma EmptyWord(p: seq<byte>, i: nat)
    requires p == Pad([]) && i < 16
    ensures |p| == 64 && BigWord(p, i) == if i == 0 then 0x8000_0000 else 0
  {
    EmptyNumber(p, i);
    TopBit();
  }

  lemma EmptyWords(p: seq<byte>)
    requires p == Pad([])
    ensures |p| == 64 && forall i :: 0 <= i < 16 ==> W[i] == BigWord(p, i)
  {
    EmptyPad();
    forall i | 0 <= i < 16
      ensures W[i] == BigWord(p, i)
    {
      EmptyWord(p, i);
      assert W[i] == if i < 8 then W_A[i] else W_B[i - 8];
    }
  }

  lemma EmptySchedule(n: nat)
    requires n == 64
    ensures |Pad([])| == 64 && Schedule(Pad([]), n) == W
  {
    WRecurs();
    EmptyWords(Pad([]));
    ScheduleIs(Pad([]), W, n);
    assert W[..n] == W;
  }

  // ------------------------------------------------------------------------------------------
  // The bytes of a state.
  // ------------------------------------------------------------------------------------------

  function Half(x: bv32): bv32 { x >> 1 }
  function Low(x: bv32): bool { x & 1 == 1 }
  function By2(x: bv32): bv32 { x >> 2 }
  function By4(x: bv32): bv32 { x >> 4 }
  function By8(x: bv32): bv32 { x >> 8 }
  function By16(x: bv32): bv32 { x >> 16 }
  function By32(x: bv32): bv32 { 0 }

  lemma {:induction false} WordValueIs(x: bv32, n: nat)
    ensures WordValue(x, n) == R.Num(B.MachineBits(Half, Low, x, n))
  {
    if n > 0 {
      WordValueIs(x >> 1, n - 1);
      B.MachineHead(Half, Low, x, n - 1);
    }
  }

  lemma By2IsTwice()
    ensures forall x :: By2(x) == Half(Half(x))
  {}

  lemma By4IsTwice()
    ensures forall x :: By4(x) == By2(By2(x))
  {}

  lemma By8IsTwice()
    ensures forall x :: By8(x) == By4(By4(x))
  {}

  lemma By16IsTwice()
    ensures forall x :: By16(x) == By8(By8(x))
  {}

  lemma By32IsTwice()
    ensures forall x :: By32(x) == By16(By16(x))
  {}

  lemma ShiftsOnce()
    ensures B.ShiftsBy(Half, Half, 1)
  {}

  lemma ShiftsOut()
    ensures B.ShiftsBy(Half, By32, 32)
  {
    ShiftsOnce();
    By2IsTwice();
    B.ShiftsTwice(Half, Half, By2, 1);
    By4IsTwice();
    B.ShiftsTwice(Half, By2, By4, 2);
    By8IsTwice();
    B.ShiftsTwice(Half, By4, By8, 4);
    By16IsTwice();
    B.ShiftsTwice(Half, By8, By16, 8);
    By32IsTwice();
    B.ShiftsTwice(Half, By16, By32, 16);
  }

  lemma SameHalves(x: bv32, y: bv32)
    requires Half(x) == Half(y) && Low(x) == Low(y)
    ensures x == y
  {}

  lemma BitsInjective(x: bv32, y: bv32)
    requires B.MachineBits(Half, Low, x, WORD) == B.MachineBits(Half, Low, y, WORD)
    ensures x == y
  {
    forall a, b | Half(a) == Half(b) && Low(a) == Low(b)
      ensures a == b
    {
      SameHalves(a, b);
    }
    ShiftsOut();
    B.MachineInjective(Half, Low, x, y, WORD);
  }

  lemma WordRange(x: bv32)
    ensures WordValue(x, WORD) < Pow256(4)
  {
    WordValueIs(x, WORD);
    R.Pow2Of16();
    R.Pow2Add(16, 16);
    Pow256Small();
  }

  lemma WordBytesInjective(x: bv32, y: bv32)
    requires WordBytes(x) == WordBytes(y)
    ensures x == y
  {
    WordRange(x);
    WordRange(y);
    FromBEOfBE(WordValue(x, WORD), 4);
    FromBEOfBE(WordValue(y, WORD), 4);
    WordValueIs(x, WORD);
    WordValueIs(y, WORD);
    R.NumInjective(B.MachineBits(Half, Low, x, WORD), B.MachineBits(Half, Low, y, WORD));
    BitsInjective(x, y);
  }

  lemma {:induction false} WordsBytesInjective(a: seq<bv32>, b: seq<bv32>)
    requires |a| == |b| && WordsBytes(a) == WordsBytes(b)
    ensures a == b
  {
    if a != [] {
      var p, q := WordBytes(a[0]), WordBytes(b[0]);
      assert WordsBytes(a)[..4] == p && WordsBytes(b)[..4] == q;
      assert WordsBytes(a)[4..] == WordsBytes(a[1..]) && WordsBytes(b)[4..] == WordsBytes(b[1..]);
      WordBytesInjective(a[0], b[0]);
      WordsBytesInjective(a[1..], b[1..]);
      assert a == [a[0]] + a[1..] && b == [b[0]] + b[1..];
    }
  }

  function Words(s: Chain): seq<bv32> {
    [s.a, s.b, s.c, s.d, s.e, s.f, s.g, s.h]
  }

  /** Different states give different digests. */
  lemma ChainInjective(s: Chain, t: Chain)
    requires FromBE(ChainBytes(s)) == FromBE(ChainBytes(t))
    ensures s == t
  {
    BEOfFromBE(ChainBytes(s));
    BEOfFromBE(ChainBytes(t));
    WordsBytesInjective(Words(s), Words(t));
    assert forall i :: 0 <= i < 8 ==> Words(s)[i] == Words(t)[i];
  }

  lemma {:induction false} WordsBytesLast(ws: seq<bv32>, x: bv32)
    ensures WordsBytes(ws + [x]) == WordsBytes(ws) + WordBytes(x)
  {
    if ws != [] {
      assert (ws + [x])[1..] == ws[1..] + [x];
      WordsBytesLast(ws[1..], x);
    }
  }

  lemma FromBEAppend(s: seq<byte>, v: nat)
    requires v < Pow256(4)
    ensures FromBE(s + BE(v, 4)) == 0x1_0000_0000 * FromBE(s) + v
  {
    var t := BE(v, 4);
    FromBEOfBE(v, 4);
    assert t == [t[0], t[1], t[2], t[3]];
    FromBEFour(t[0], t[1], t[2], t[3]);
    FromBELast(s, t[0]);
    FromBELast(s + [t[0]], t[1]);
    FromBELast(s + [t[0]] + [t[1]], t[2]);
    FromBELast(s + [t[0]] + [t[1]] + [t[2]], t[3]);
    assert s + [t[0]] + [t[1]] + [t[2]] + [t[3]] == s + t;
  }

  /** A hexadecimal digit of a word. */
  function Digit(x: bv32): nat {
    B.Digit(Half, Low, x)
  }

  lemma FourHalves(x: bv32)
    ensures By4(x) == Half(Half(Half(Half(x))))
  {}

  lemma WordDigit(x: bv32, n: nat)
    ensures R.Num(B.MachineBits(Half, Low, x, n + 4)) == Digit(x) + 16 * R.Num(B.MachineBits(Half, Low, By4(x), n))
  {
    FourHalves(x);
    B.MachineDigit(Half, Low, x, By4(x), n);
  }

  function DigitsOf(next: bv32 -> bv32, digit: bv32 -> nat, x: bv32, n: nat): nat
    decreases n
  {
    if n == 0 then 0 else digit(x) + 16 * DigitsOf(next, digit, next(x), n - 1)
  }

  lemma {:induction false} WordDigits(x: bv32, n: nat)
    ensures R.Num(B.MachineBits(Half, Low, x, 4 * n)) == DigitsOf(By4, Digit, x, n)
  {
    if n > 0 {
      WordDigits(By4(x), n - 1);
      WordDigit(x, 4 * n - 4);
    }
  }

  function FourDigits(next: bv32 -> bv32, digit: bv32 -> nat, x: bv32): nat {
    digit(x) + 0x10 * digit(next(x)) + 0x100 * digit(next(next(x))) + 0x1000 * digit(next(next(next(x))))
  }

  lemma DigitsByFour(next: bv32 -> bv32, digit: bv32 -> nat, x: bv32, n: nat)
    ensures DigitsOf(next, digit, x, n + 4) == FourDigits(next, digit, x) + 0x1_0000 * DigitsOf(next, digit, next(next(next(next(x)))), n)
  {
    assert DigitsOf(next, digit, x, n + 4) == digit(x) + 16 * DigitsOf(next, digit, next(x), n + 3);
    assert DigitsOf(next, digit, next(x), n + 3) == digit(next(x)) + 16 * DigitsOf(next, digit, next(next(x)), n + 2);
    assert DigitsOf(next, digit, next(next(x)), n + 2) == digit(next(next(x))) + 16 * DigitsOf(next, digit, next(next(next(x))), n + 1);
  }

  /** The value of a word by its bits. */
  function HexDigit(x: bv32): nat {
    B.Bit(x & 1 == 1) + 2 * B.Bit(x & 2 == 2) + 4 * B.Bit(x & 4 == 4) + 8 * B.Bit(x & 8 == 8)
  }

  function Hex4(x: bv32): nat {
    HexDigit(x) + 0x10 * HexDigit(x >> 4) + 0x100 * HexDigit(x >> 8) + 0x1000 * HexDigit(x >> 12)
  }

  function Hex(x: bv32): nat {
    Hex4(x) + 0x1_0000 * Hex4(x >> 16)
  }

  lemma DigitBits(x: bv32)
    ensures Low(Half(x)) <==> x & 2 == 2
    ensures Low(Half(Half(x))) <==> x & 4 == 4
    ensures Low(Half(Half(Half(x)))) <==> x & 8 == 8
  {}

  lemma DigitIs(x: bv32)
    ensures Digit(x) == HexDigit(x)
  {
    DigitBits(x);
  }

  lemma ShiftsByFour(x: bv32)
    ensures By4(x) == x >> 4 && By4(By4(x)) == x >> 8 && By4(By4(By4(x))) == x >> 12 && By4(By4(By4(By4(x)))) == x >> 16
  {}

  lemma FourDigitsAre(x: bv32)
    ensures FourDigits(By4, Digit, x) == Hex4(x)
  {
    ShiftsByFour(x);
    DigitIs(x);
    DigitIs(x >> 4);
    DigitIs(x >> 8);
    DigitIs(x >> 12);
  }

  lemma WordDigitsAre(x: bv32)
    ensures WordValue(x, WORD) == FourDigits(By4, Digit, x) + 0x1_0000 * FourDigits(By4, Digit, By4(By4(By4(By4(x)))))
  {
    WordValueIs(x, WORD);
    WordDigits(x, 8);
    DigitsByFour(By4, Digit, x, 4);
    DigitsByFour(By4, Digit, By4(By4(By4(By4(x)))), 0);
  }

  lemma WordHex(x: bv32)
    ensures WordValue(x, WORD) == Hex(x)
  {
    WordDigitsAre(x);
    ShiftsByFour(x);
    FourDigitsAre(x);
    FourDigitsAre(x >> 16);
  }

  /** The number spelt by the bytes of some words. */
  function Number(ws: seq<bv32>): nat {
    FromBE(WordsBytes(ws))
  }

  lemma LastWord(ws: seq<bv32>, x: bv32)
    ensures Number(ws + [x]) == 0x1_0000_0000 * Number(ws) + Hex(x)
  {
    WordsBytesLast(ws, x);
    WordRange(x);
    WordHex(x);
    FromBEAppend(WordsBytes(ws), WordValue(x, WORD));
  }

  /** Appending a word appends its eight digits. */
  ghost predicate Grows(number: seq<bv32> -> nat, hex: bv32 -> nat) {
    number([]) == 0 && forall u, x :: number(u + [x]) == 0x1_0000_0000 * number(u) + hex(x)
  }

  lemma NumberGrows()
    ensures Grows(Number, Hex)
  {
    forall v, x
      ensures Number(v + [x]) == 0x1_0000_0000 * Number(v) + Hex(x)
    {
      LastWord(v, x);
    }
  }

  ghost predicate Reads(hex: bv32 -> nat, xs: seq<bv32>, ds: seq<nat>) {
    |xs| == |ds| && forall i :: 0 <= i < |xs| ==> hex(xs[i]) == ds[i]
  }

  function Together(ds: seq<nat>): nat {
    if ds == [] then 0 else 0x1_0000_0000 * Together(ds[..|ds| - 1]) + ds[|ds| - 1]
  }

  lemma GrowsBy(number: seq<bv32> -> nat, hex: bv32 -> nat, u: seq<bv32>, x: bv32)
    requires Grows(number, hex)
    ensures number(u + [x]) == 0x1_0000_0000 * number(u) + hex(x)
  {}

  lemma ReadsPair(hex: bv32 -> nat, a: bv32, b: bv32, c: nat, d: nat)
    requires hex(a) == c && hex(b) == d
    ensures Reads(hex, [a, b], [c, d])
  {}

  lemma ReadsJoin(hex: bv32 -> nat, a: seq<bv32>, b: seq<bv32>, c: seq<nat>, d: seq<nat>)
    requires Reads(hex, a, c) && Reads(hex, b, d)
    ensures Reads(hex, a + b, c + d)
  {
    forall i | 0 <= i < |a + b|
      ensures hex((a + b)[i]) == (c + d)[i]
    {
      assert i < |a| ==> hex(a[i]) == c[i];
      assert i >= |a| ==> hex(b[i - |a|]) == d[i - |a|];
    }
  }

  lemma {:induction false} Spelt(number: seq<bv32> -> nat, hex: bv32 -> nat, xs: seq<bv32>, ds: seq<nat>)
    requires Grows(number, hex) && Reads(hex, xs, ds)
    ensures number(xs) == Together(ds)
  {
    if xs != [] {
      var n := |xs| - 1;
      Spelt(number, hex, xs[..n], ds[..n]);
      GrowsBy(number, hex, xs[..n], xs[n]);
      assert xs == xs[..n] + [xs[n]];
    }
  }

  const PROGRAM_END: Chain := Chain(0xaad39592, 0xc91ec358, 0x25548cfa, 0xb0a37691, 0xbbe701d4, 0xd2fb89fe, 0x1a5d0b5e, 0x9f3e2344)
  const STANDARD_END: Chain := Chain(0xe3b0c442, 0x98fc1c14, 0x9afbf4c8, 0x996fb924, 0x27ae41e4, 0x649b934c, 0xa495991b, 0x7852b855)

  const PROGRAM_WORDS: seq<bv32> := [0xaad39592, 0xc91ec358, 0x25548cfa, 0xb0a37691, 0xbbe701d4, 0xd2fb89fe, 0x1a5d0b5e, 0x9f3e2344]
  const PROGRAM_VALUES: seq<nat> := [0xaad39592, 0xc91ec358, 0x25548cfa, 0xb0a37691, 0xbbe701d4, 0xd2fb89fe, 0x1a5d0b5e, 0x9f3e2344]

  lemma ProgramWords1()
    ensures Reads(Hex, [0xaad39592, 0xc91ec358], [0xaad39592, 0xc91ec358])
  {
    ReadsPair(Hex, 0xaad39592, 0xc91ec358, 0xaad39592, 0xc91ec358);
  }

  lemma ProgramWords2()
    ensures Reads(Hex, [0x25548cfa, 0xb0a37691], [0x25548cfa, 0xb0a37691])
  {
    ReadsPair(Hex, 0x25548cfa, 0xb0a37691, 0x25548cfa, 0xb0a37691);
  }

  lemma ProgramWords3()
    ensures Reads(Hex, [0xbbe701d4, 0xd2fb89fe], [0xbbe701d4, 0xd2fb89fe])
  {
    ReadsPair(Hex, 0xbbe701d4, 0xd2fb89fe, 0xbbe701d4, 0xd2fb89fe);
  }

  lemma ProgramWords4()
    ensures Reads(Hex, [0x1a5d0b5e, 0x9f3e2344], [0x1a5d0b5e, 0x9f3e2344])
  {
    ReadsPair(Hex, 0x1a5d0b5e, 0x9f3e2344, 0x1a5d0b5e, 0x9f3e2344);
  }

  lemma ProgramReads()
    ensures Reads(Hex, PROGRAM_WORDS, PROGRAM_VALUES)
  {
    ProgramWords1();
    ProgramWords2();
    ProgramWords3();
    ProgramWords4();
    ReadsJoin(Hex, [0xaad39592, 0xc91ec358], [0x25548cfa, 0xb0a37691], [0xaad39592, 0xc91ec358], [0x25548cfa, 0xb0a37691]);
    ReadsJoin(Hex, [0xbbe701d4, 0xd2fb89fe], [0x1a5d0b5e, 0x9f3e2344], [0xbbe701d4, 0xd2fb89fe], [0x1a5d0b5e, 0x9f3e2344]);
    ReadsJoin(Hex, [0xaad39592, 0xc91ec358] + [0x25548cfa, 0xb0a37691], [0xbbe701d4, 0xd2fb89fe] + [0x1a5d0b5e, 0x9f3e2344], [0xaad39592, 0xc91ec358] + [0x25548cfa, 0xb0a37691], [0xbbe701d4, 0xd2fb89fe] + [0x1a5d0b5e, 0x9f3e2344]);
    assert [0xaad39592, 0xc91ec358] + [0x25548cfa, 0xb0a37691] + ([0xbbe701d4, 0xd2fb89fe] + [0x1a5d0b5e, 0x9f3e2344]) == PROGRAM_WORDS;
    assert [0xaad39592, 0xc91ec358] + [0x25548cfa, 0xb0a37691] + ([0xbbe701d4, 0xd2fb89fe] + [0x1a5d0b5e, 0x9f3e2344]) == PROGRAM_VALUES;
  }

  lemma ProgramTogether()
    ensures Together(PROGRAM_VALUES) == 0xaad39592c91ec35825548cfab0a37691bbe701d4d2fb89fe1a5d0b5e9f3e2344
  {
    var d := PROGRAM_VALUES;
    assert d[..1][..0] == d[..0] && Together(d[..1]) == 0xaad39592;
    assert d[..2][..1] == d[..1] && Together(d[..2]) == 0xaad39592c91ec358;
    assert d[..3][..2] == d[..2] && Together(d[..3]) == 0xaad39592c91ec35825548cfa;
    assert d[..4][..3] == d[..3] && Together(d[..4]) == 0xaad39592c91ec35825548cfab0a37691;
    assert d[..5][..4] == d[..4] && Together(d[..5]) == 0xaad39592c91ec35825548cfab0a37691bbe701d4;
    assert d[..6][..5] == d[..5] && Together(d[..6]) == 0xaad39592c91ec35825548cfab0a37691bbe701d4d2fb89fe;
    assert d[..7][..6] == d[..6] && Together(d[..7]) == 0xaad39592c91ec35825548cfab0a37691bbe701d4d2fb89fe1a5d0b5e;
  }

  lemma ProgramNumber()
    ensures Number(PROGRAM_WORDS) == 0xaad39592c91ec35825548cfab0a37691bbe701d4d2fb89fe1a5d0b5e9f3e2344
  {
    NumberGrows();
    ProgramReads();
    Spelt(Number, Hex, PROGRAM_WORDS, PROGRAM_VALUES);
    ProgramTogether();
  }

  const STANDARD_WORDS: seq<bv32> := [0xe3b0c442, 0x98fc1c14, 0x9afbf4c8, 0x996fb924, 0x27ae41e4, 0x649b934c, 0xa495991b, 0x7852b855]
  const STANDARD_VALUES: seq<nat> := [0xe3b0c442, 0x98fc1c14, 0x9afbf4c8, 0x996fb924, 0x27ae41e4, 0x649b934c, 0xa495991b, 0x7852b855]

  lemma StandardWords1()
    ensures Reads(Hex, [0xe3b0c442, 0x98fc1c14], [0xe3b0c442, 0x98fc1c14])
  {
    ReadsPair(Hex, 0xe3b0c442, 0x98fc1c14, 0xe3b0c442, 0x98fc1c14);
  }

  lemma StandardWords2()
    ensures Reads(Hex, [0x9afbf4c8, 0x996fb924], [0x9afbf4c8, 0x996fb924])
  {
    ReadsPair(Hex, 0x9afbf4c8, 0x996fb924, 0x9afbf4c8, 0x996fb924);
  }

  lemma StandardWords3()
    ensures Reads(Hex, [0x27ae41e4, 0x649b934c], [0x27ae41e4, 0x649b934c])
  {
    ReadsPair(Hex, 0x27ae41e4, 0x649b934c, 0x27ae41e4, 0x649b934c);
  }

  lemma StandardWords4()
    ensures Reads(Hex, [0xa495991b, 0x7852b855], [0xa495991b, 0x7852b855])
  {
    ReadsPair(Hex, 0xa495991b, 0x7852b855, 0xa495991b, 0x7852b855);
  }

  lemma StandardReads()
    ensures Reads(Hex, STANDARD_WORDS, STANDARD_VALUES)
  {
    StandardWords1();
    StandardWords2();
    StandardWords3();
    StandardWords4();
    ReadsJoin(Hex, [0xe3b0c442, 0x98fc1c14], [0x9afbf4c8, 0x996fb924], [0xe3b0c442, 0x98fc1c14], [0x9afbf4c8, 0x996fb924]);
    ReadsJoin(Hex, [0x27ae41e4, 0x649b934c], [0xa495991b, 0x7852b855], [0x27ae41e4, 0x649b934c], [0xa495991b, 0x7852b855]);
    ReadsJoin(Hex, [0xe3b0c442, 0x98fc1c14] + [0x9afbf4c8, 0x996fb924], [0x27ae41e4, 0x649b934c] + [0xa495991b, 0x7852b855], [0xe3b0c442, 0x98fc1c14] + [0x9afbf4c8, 0x996fb924], [0x27ae41e4, 0x649b934c] + [0xa495991b, 0x7852b855]);
    assert [0xe3b0c442, 0x98fc1c14] + [0x9afbf4c8, 0x996fb924] + ([0x27ae41e4, 0x649b934c] + [0xa495991b, 0x7852b855]) == STANDARD_WORDS;
    assert [0xe3b0c442, 0x98fc1c14] + [0x9afbf4c8, 0x996fb924] + ([0x27ae41e4, 0x649b934c] + [0xa495991b, 0x7852b855]) == STANDARD_VALUES;
  }

  lemma StandardTogether()
    ensures Together(STANDARD_VALUES) == 0xe3b0c44298fc1c149afbf4c8996fb92427ae41e4649b934ca495991b7852b855
  {
    var d := STANDARD_VALUES;
    assert d[..1][..0] == d[..0] && Together(d[..1]) == 0xe3b0c442;
    assert d[..2][..1] == d[..1] && Together(d[..2]) == 0xe3b0c44298fc1c14;
    assert d[..3][..2] == d[..2] && Together(d[..3]) == 0xe3b0c44298fc1c149afbf4c8;
    assert d[..4][..3] == d[..3] && Together(d[..4]) == 0xe3b0c44298fc1c149afbf4c8996fb924;
    assert d[..5][..4] == d[..4] && Together(d[..5]) == 0xe3b0c44298fc1c149afbf4c8996fb92427ae41e4;
    assert d[..6][..5] == d[..5] && Together(d[..6]) == 0xe3b0c44298fc1c149afbf4c8996fb92427ae41e4649b934c;
    assert d[..7][..6] == d[..6] && Together(d[..7]) == 0xe3b0c44298fc1c149afbf4c8996fb92427ae41e4649b934ca495991b;
  }

  lemma StandardNumber()
    ensures Number(STANDARD_WORDS) == 0xe3b0c44298fc1c149afbf4c8996fb92427ae41e4649b934ca495991b7852b855
  {
    NumberGrows();
    StandardReads();
    Spelt(Number, Hex, STANDARD_WORDS, STANDARD_VALUES);
    StandardTogether();
  }

  // ------------------------------------------------------------------------------------------
  // The program's digests and the standard's.
  // ------------------------------------------------------------------------------------------

  lemma TablesDiffer()
    ensures |K| == |STANDARD_K| == 64 && DifferAt(K, STANDARD_K, 25)
  {
    forall j | 0 <= j < 64
      ensures K[j] != STANDARD_K[j] <==> j == 25
    {
      if j < 24 {
        assert K[j] == (K_A + K_B + K_C)[j] == STANDARD_K[j];
      } else if j < 32 {
        assert K[j] == K_D[j - 24] && STANDARD_K[j] == STANDARD_D[j - 24];
      } else {
        assert K[j] == (K_E + K_F + K_G + K_H)[j - 32] == STANDARD_K[j];
      }
    }
  }

  /** No block is compressed as the standard does, from any state. */
  lemma NeverStandard(s: Chain, p: seq<byte>)
    requires |p| == 64
    ensures Compress(s, p) != CompressWith(STANDARD_K, s, p)
  {
    TablesDiffer();
    NoBlockAlike(K, STANDARD_K, 25, s, p);
  }

  function StandardCompress(s: Chain, p: seq<byte>): Chain {
    CompressWith(STANDARD_K, s, p)
  }

  /** The digest of FIPS 180-4. */
  function StandardDigest(m: seq<byte>): Digest {
    PadSize(|m|);
    Pow256Of32();
    FromBE(ChainBytes(Fold(StandardCompress, IV, StandardPad(m))))
  }

  lemma FoldOne<H>(f: (H, seq<byte>) -> H, h: H, p: seq<byte>)
    requires |p| == 64
    ensures Fold(f, h, p) == f(h, p)
  {
    assert p[..64] == p && p[64..] == [];
  }

  lemma BlockDigestsDiffer(p: seq<byte>)
    requires |p| == 64
    ensures FromBE(ChainBytes(Compress(IV, p))) != FromBE(ChainBytes(StandardCompress(IV, p)))
  {
    NeverStandard(IV, p);
    if FromBE(ChainBytes(Compress(IV, p))) == FromBE(ChainBytes(StandardCompress(IV, p))) {
      ChainInjective(Compress(IV, p), StandardCompress(IV, p));
    }
  }

  lemma ShortPad(m: seq<byte>)
    requires |m| <= 55
    ensures |Pad(m)| == 64
  {}

  /** The digest of every message that is padded to one block differs from the one the standard's table gives it. */
  lemma ShortDigestsDiffer(m: seq<byte>)
    requires |m| <= 55
    ensures DigestOf(m) != FromBE(ChainBytes(Fold(StandardCompress, IV, Pad(m))))
  {
    ShortPad(m);
    FoldOne(Compress, IV, Pad(m));
    FoldOne(StandardCompress, IV, Pad(m));
    BlockDigestsDiffer(Pad(m));
  }

  lemma ProgramCompress(n: nat)
    requires n == 64
    ensures Compress(IV, Pad([])) == PROGRAM_END
  {
    EmptyPad();
    EmptySchedule(n);
    RoundsH();
    assert Added(IV, S_8) == PROGRAM_END;
  }

  lemma StandardCompresses(n: nat)
    requires n == 64
    ensures StandardCompress(IV, Pad([])) == STANDARD_END
  {
    EmptyPad();
    EmptySchedule(n);
    StandardH();
    assert Added(IV, T_8) == STANDARD_END;
  }

  /** The program's digest of the empty message. */
  lemma EmptyDigest()
    ensures DigestOf([]) == 0xaad39592c91ec35825548cfab0a37691bbe701d4d2fb89fe1a5d0b5e9f3e2344
  {
    EmptyPad();
    FoldOne(Compress, IV, Pad([]));
    ProgramCompress(64);
    ProgramNumber();
    assert Words(PROGRAM_END) == PROGRAM_WORDS;
  }

  /** The same functions with the standard's table and padding give the published digest of the empty message. */
  lemma PublishedDigest()
    ensures StandardDigest([]) == 0xe3b0c44298fc1c149afbf4c8996fb92427ae41e4649b934ca495991b7852b855
  {
    EmptyPad();
    EmptyPadIsStandard();
    FoldOne(StandardCompress, IV, Pad([]));
    StandardCompresses(64);
    StandardNumber();
    assert Words(STANDARD_END) == STANDARD_WORDS;
  }
}
