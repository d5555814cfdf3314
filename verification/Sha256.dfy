/**
 The streaming digest: blocks are compressed as soon as they are full, and the final call pads.
 The length field counts whole blocks of the message only, as the program does.
 */
module Sha256 {
  import opened Types
  import opened Binary

  // ------------------------------------------------------------------------------------------
  // Chaining any compression function over whole blocks.
  // ------------------------------------------------------------------------------------------

  function Fold<H>(f: (H, seq<byte>) -> H, h: H, data: seq<byte>): H
    requires |data| % 64 == 0
    decreases |data|
  {
    if data == [] then h else Fold(f, f(h, data[..64]), data[64..])
  }

  lemma {:induction false} FoldAppend<H>(f: (H, seq<byte>) -> H, h: H, data: seq<byte>, block: seq<byte>)
    requires |data| % 64 == 0 && |block| == 64
    ensures Fold(f, h, data + block) == f(Fold(f, h, data), block)
    decreases |data|
  {
    if data == [] {
      assert data + block == block && block[..64] == block && block[64..] == [];
      assert Fold(f, h, block) == Fold(f, f(h, block), []);
    } else {
      assert (data + block)[..64] == data[..64] && (data + block)[64..] == data[64..] + block;
      FoldAppend(f, f(h, data[..64]), data[64..], block);
    }
  }

  // ------------------------------------------------------------------------------------------
  // Padding, with the length field as coded.
  // ------------------------------------------------------------------------------------------

  function Zeros(n: nat): (s: seq<byte>)
    ensures |s| == n && forall i :: 0 <= i < n ==> s[i] == 0
  {
    seq(n, i => 0)
  }

  /** The bits of the whole blocks of a message of n bytes, modulo 2^64. */
  function LengthField(n: nat): U64 {
    Wrapped((n - n % 64) * 8)
  }

  function PadZeros(n: nat): nat {
    (119 - n % 64) % 64
  }

  lemma PadSize(n: nat)
    ensures (n + 1 + PadZeros(n) + 8) % 64 == 0
  {
    var q, r := n / 64, n % 64;
    assert n == 64 * q + r;
    if r <= 55 {
      assert n + 1 + PadZeros(n) + 8 == 64 * (q + 1);
    } else {
      assert n + 1 + PadZeros(n) + 8 == 64 * (q + 2);
    }
  }

  function Pad(m: seq<byte>): (p: seq<byte>)
    ensures |p| % 64 == 0
  {
    PadSize(|m|);
    m + [0x80] + Zeros(PadZeros(|m|)) + BE(LengthField(|m|), 8)
  }

  /** Different messages have different padded forms, although the length field is coarse. */
  lemma PadInjective(a: seq<byte>, b: seq<byte>)
    requires Pad(a) == Pad(b)
    ensures a == b
  {
    if |a| < |b| {
      PadMark(a, b);
    } else if |b| < |a| {
      PadMark(b, a);
    } else {
      assert Pad(a)[..|a|] == a && Pad(b)[..|b|] == b;
    }
  }

  lemma PadMark(a: seq<byte>, b: seq<byte>)
    requires |a| < |b|
    ensures Pad(a) != Pad(b)
  {
    if |Pad(a)| == |Pad(b)| {
      assert Pad(b)[|b|] == 0x80;
      assert |b| < |a| + 1 + PadZeros(|a|);
      assert Pad(a)[|b|] == Zeros(PadZeros(|a|))[|b| - |a| - 1];
    }
  }

  /** The padding of section 5.1.1 of FIPS 180-4: the length field is the length of the message in bits. */
  function StandardPad(m: seq<byte>): seq<byte> {
    m + [0x80] + Zeros(PadZeros(|m|)) + BE(Wrapped(|m| * 8), 8)
  }

  lemma LengthExactly(n: nat)
    ensures LengthField(n) == Wrapped(n * 8) <==> n % 64 == 0
  {
    var r, x := n % 64, (n - n % 64) * 8;
    assert n * 8 == x + r * 8;
    WrappedShort(x, r * 8);
  }

  lemma WrappedShort(x: nat, d: nat)
    requires d < 512
    ensures Wrapped(x + d) == Wrapped(x) <==> d == 0
  {
    var q, y := x / (U64_MAX + 1), Wrapped(x);
    assert x == y + (U64_MAX + 1) * q;
    WrapShift(y + d, q);
    if y + d > U64_MAX {
      WrapShift(y + d - (U64_MAX + 1), 1);
    }
  }

  /** The code pads as the standard does exactly for messages of whole blocks. */
  lemma StandardExactly(m: seq<byte>)
    ensures Pad(m) == StandardPad(m) <==> |m| % 64 == 0
  {
    var n := |m| + 1 + PadZeros(|m|);
    var a, b := LengthField(|m|), Wrapped(|m| * 8);
    assert Pad(m)[n..] == BE(a, 8) && StandardPad(m)[n..] == BE(b, 8);
    assert Pad(m)[..n] == StandardPad(m)[..n];
    LengthExactly(|m|);
    Pow256Of8();
    FromBEOfBE(a, 8);
    FromBEOfBE(b, 8);
  }

  // ------------------------------------------------------------------------------------------
  // The compression function of section 6.2.2 of FIPS 180-4, for any table of round constants.
  // ------------------------------------------------------------------------------------------

  datatype Chain = Chain(a: bv32, b: bv32, c: bv32, d: bv32, e: bv32, f: bv32, g: bv32, h: bv32)

  const IV: Chain := Chain(0x6a09e667, 0xbb67ae85, 0x3c6ef372, 0xa54ff53a,
                           0x510e527f, 0x9b05688c, 0x1f83d9ab, 0x5be0cd19)

  /** The round constants of the program, in rows of eight. */
  const K_A: seq<bv32> := [0x428a2f98, 0x71374491, 0xb5c0fbcf, 0xe9b5dba5, 0x3956c25b, 0x59f111f1, 0x923f82a4, 0xab1c5ed5]
  const K_B: seq<bv32> := [0xd807aa98, 0x12835b01, 0x243185be, 0x550c7dc3, 0x72be5d74, 0x80deb1fe, 0x9bdc06a7, 0xc19bf174]
  const K_C: seq<bv32> := [0xe49b69c1, 0xefbe4786, 0x0fc19dc6, 0x240ca1cc, 0x2de92c6f, 0x4a7484aa, 0x5cb0a9dc, 0x76f988da]
  const K_D: seq<bv32> := [0x983e5152, 0xa831c66c, 0xb00327c8, 0xbf597fc7, 0xc6e00bf3, 0xd5a79147, 0x06ca6351, 0x14292967]
  const K_E: seq<bv32> := [0x27b70a85, 0x2e1b2138, 0x4d2c6dfc, 0x53380d13, 0x650a7354, 0x766a0abb, 0x81c2c92e, 0x92722c85]
  const K_F: seq<bv32> := [0xa2bfe8a1, 0xa81a664b, 0xc24b8b70, 0xc76c51a3, 0xd192e819, 0xd6990624, 0xf40e3585, 0x106aa070]
  const K_G: seq<bv32> := [0x19a4c116, 0x1e376c08, 0x2748774c, 0x34b0bcb5, 0x391c0cb3, 0x4ed8aa4a, 0x5b9cca4f, 0x682e6ff3]
  const K_H: seq<bv32> := [0x748f82ee, 0x78a5636f, 0x84c87814, 0x8cc70208, 0x90befffa, 0xa4506ceb, 0xbef9a3f7, 0xc67178f2]

  const K: seq<bv32> := K_A + K_B + K_C + K_D + K_E + K_F + K_G + K_H

  const WORD: nat := 32

  function Rotr(x: bv32, n: bv6): bv32
    requires n <= 32
  {
    (x >> n) | (x << (32 - n))
  }

  /** A number built from its bits, the most significant first. */
  function Built<M>(zero: M, push: (M, bool) -> M, n: nat): M {
    if n == 0 then zero else push(Built(zero, push, n / 2), n % 2 == 1)
  }

  function Push(x: bv32, b: bool): bv32 {
    (x << 1) | (if b then 1 else 0)
  }

  /** The word with the value n modulo 2^32, and the low n bits of a word as a number. */
  function ToWord(n: nat): bv32 {
    Built(0, Push, n)
  }

  function WordValue(x: bv32, n: nat): nat {
    if n == 0 then 0 else 2 * WordValue(x >> 1, n - 1) + (if x & 1 == 1 then 1 else 0)
  }

  function BigWord(p: seq<byte>, i: nat): bv32
    requires 4 * i + 4 <= |p|
  {
    ToWord(FromBE(p[4 * i..4 * i + 4]))
  }

  function NextWord(w16: bv32, w15: bv32, w7: bv32, w2: bv32): bv32 {
    w16 + (Rotr(w15, 7) ^ Rotr(w15, 18) ^ (w15 >> 3)) + w7 + (Rotr(w2, 17) ^ Rotr(w2, 19) ^ (w2 >> 10))
  }

  /** The first n words of the message schedule. */
  function Schedule(p: seq<byte>, n: nat): (w: seq<bv32>)
    requires |p| == 64
    ensures |w| == n
  {
    if n == 0 then []
    else
      var w := Schedule(p, n - 1);
      w + [if n <= 16 then BigWord(p, n - 1) else NextWord(w[n - 17], w[n - 16], w[n - 8], w[n - 3])]
  }

  function Upper(a: bv32, b: bv32, c: bv32): bv32 {
    (Rotr(a, 2) ^ Rotr(a, 13) ^ Rotr(a, 22)) + ((a & b) ^ (a & c) ^ (b & c))
  }

  function Lower(e: bv32, f: bv32, g: bv32): bv32 {
    (Rotr(e, 6) ^ Rotr(e, 11) ^ Rotr(e, 25)) + ((e & f) ^ (!e & g))
  }

  function Sum(x: bv32, y: bv32): bv32 {
    x + y
  }

  type Sum2 = (bv32, bv32) -> bv32
  type Mix3 = (bv32, bv32, bv32) -> bv32

  /** The shape of a round, for any addition and any two mixing functions. */
  function RoundBy(sum: Sum2, upper: Mix3, lower: Mix3, s: Chain, k: bv32, w: bv32): Chain {
    var t1 := sum(sum(sum(s.h, lower(s.e, s.f, s.g)), k), w);
    Chain(sum(t1, upper(s.a, s.b, s.c)), s.a, s.b, s.c, sum(s.d, t1), s.e, s.f, s.g)
  }

  function Round(s: Chain, k: bv32, w: bv32): Chain {
    RoundBy(Sum, Upper, Lower, s, k, w)
  }

  type Rounding<!H> = (H, bv32, bv32) -> H

  function Rounds<H>(round: Rounding<H>, k: seq<bv32>, s: H, w: seq<bv32>, n: nat): H
    requires n <= |w| && n <= |k|
  {
    if n == 0 then s else round(Rounds(round, k, s, w, n - 1), k[n - 1], w[n - 1])
  }

  function AddedBy(sum: Sum2, s: Chain, t: Chain): Chain {
    Chain(sum(s.a, t.a), sum(s.b, t.b), sum(s.c, t.c), sum(s.d, t.d), sum(s.e, t.e), sum(s.f, t.f), sum(s.g, t.g), sum(s.h, t.h))
  }

  function Added(s: Chain, t: Chain): Chain {
    AddedBy(Sum, s, t)
  }

  function CompressWith(k: seq<bv32>, s: Chain, p: seq<byte>): Chain {
    if |p| != 64 then s else Added(s, Rounds(Round, k, s, Schedule(p, |k|), |k|))
  }

  function Compress(s: Chain, p: seq<byte>): Chain {
    CompressWith(K, s, p)
  }

  function WordBytes(x: bv32): (s: seq<byte>)
    ensures |s| == 4
  {
    BE(WordValue(x, WORD), 4)
  }

  function WordsBytes(ws: seq<bv32>): (r: seq<byte>)
    ensures |r| == 4 * |ws|
  {
    if ws == [] then [] else WordBytes(ws[0]) + WordsBytes(ws[1..])
  }

  function ChainBytes(s: Chain): (r: seq<byte>)
    ensures |r| == 32
  {
    WordsBytes([s.a, s.b, s.c, s.d, s.e, s.f, s.g, s.h])
  }

  /** The digest of a message: the compression function folded over its padded form. */
  function DigestBytes(m: seq<byte>): (r: seq<byte>)
    ensures |r| == 32
  {
    ChainBytes(Fold(Compress, IV, Pad(m)))
  }

  function DigestOf(m: seq<byte>): Digest {
    Pow256Of32();
    FromBE(DigestBytes(m))
  }

  /** The loops of the compression function. */
  method Expand(p: seq<byte>, n: nat) returns (r: seq<bv32>)
    requires |p| == 64 && n >= 16
    ensures r == Schedule(p, n)
  {
    var w := new bv32[n];
    for i := 0 to 16
      invariant w[..i] == Schedule(p, i)
    {
      w[i] := BigWord(p, i);
    }
    for i := 16 to n
      invariant w[..i] == Schedule(p, i)
    {
      w[i] := NextWord(w[i - 16], w[i - 15], w[i - 7], w[i - 2]);
    }
    return w[..];
  }

  method Mix(start: Chain, w: seq<bv32>) returns (s: Chain)
    requires |w| == |K|
    ensures s == Rounds(Round, K, start, w, |K|)
  {
    s := start;
    for i := 0 to |K|
      invariant s == Rounds(Round, K, start, w, i)
    {
      s := Round(s, K[i], w[i]);
    }
  }

  method CompressBlock(s: Chain, p: seq<byte>) returns (r: Chain)
    requires |p| == 64
    ensures r == Compress(s, p)
  {
    var w := Expand(p, |K|);
    var t := Mix(s, w);
    r := Added(s, t);
  }

  // ------------------------------------------------------------------------------------------
  // The streaming object, for any compression function.
  // ------------------------------------------------------------------------------------------

  /** Byte and bit counts are unsigned 64-bit integers. */
  function Wrapped(n: nat): U64 {
    n % (U64_MAX + 1)
  }

  lemma {:induction false} WrapShift(x: nat, k: nat)
    ensures Wrapped(x + (U64_MAX + 1) * k) == Wrapped(x)
  {
    if k > 0 {
      WrapShift(x, k - 1);
      assert x + (U64_MAX + 1) * k == x + (U64_MAX + 1) * (k - 1) + (U64_MAX + 1);
    }
  }

  /** Counting may wrap around at every step. */
  lemma WrappedCounts(n: nat)
    ensures Wrapped(Wrapped(n) + 64) == Wrapped(n + 64)
    ensures Wrapped(Wrapped(n) * 8) == Wrapped(n * 8)
  {
    var q := n / (U64_MAX + 1);
    assert n == Wrapped(n) + (U64_MAX + 1) * q;
    WrapShift(Wrapped(n) + 64, q);
    WrapShift(Wrapped(n) * 8, q * 8);
    assert n * 8 == Wrapped(n) * 8 + (U64_MAX + 1) * (q * 8);
  }

  /** How a message that is being fed splits into whole blocks and the buffered tail. */
  function Blocks(m: seq<byte>): (b: seq<byte>)
    ensures |b| % 64 == 0
  {
    m[..|m| - |m| % 64]
  }

  function Tail(m: seq<byte>): (t: seq<byte>)
    ensures |t| < 64
  {
    m[|m| - |m| % 64..]
  }

  lemma NextRemainder(n: nat)
    ensures (n + 1) % 64 == if n % 64 == 63 then 0 else n % 64 + 1
  {}

  lemma OneMore(m: seq<byte>, x: byte)
    ensures |Tail(m)| < 63 ==> Tail(m + [x]) == Tail(m) + [x] && Blocks(m + [x]) == Blocks(m)
    ensures |Tail(m)| == 63 ==> Tail(m + [x]) == [] && Blocks(m + [x]) == Blocks(m) + (Tail(m) + [x])
  {
    NextRemainder(|m|);
    var w := |m| - |m| % 64;
    assert |m + [x]| == |m| + 1;
    if |m| % 64 == 63 {
      assert m + [x] == m[..w] + (m[w..] + [x]);
    } else {
      assert (m + [x])[w..] == m[w..] + [x] && (m + [x])[..w] == m[..w];
    }
  }

  /** The padded form, split where the streaming object stands when the message ends. */
  lemma PadSplits(m: seq<byte>)
    ensures var mark := Tail(m) + [0x80];
            var size := BE(LengthField(|m|), 8);
            Pad(m) == if |mark| > 56 then Blocks(m) + (mark + Zeros(64 - |mark|)) + (Zeros(56) + size)
                      else Blocks(m) + (mark + Zeros(56 - |mark|) + size)
  {
    var r := |m| % 64;
    assert m == Blocks(m) + Tail(m);
    if r + 1 > 56 {
      assert PadZeros(|m|) == (64 - (r + 1)) + 56;
      assert Zeros(PadZeros(|m|)) == Zeros(64 - (r + 1)) + Zeros(56);
    } else {
      assert PadZeros(|m|) == 56 - (r + 1);
    }
  }

  lemma LengthIsCounted(m: seq<byte>)
    ensures Wrapped(Wrapped(|Blocks(m)|) * 8) == LengthField(|m|)
  {
    WrappedCounts(|Blocks(m)|);
  }

  class Hasher<H> {
    const compress: (H, seq<byte>) -> H
    const start: H
    const buf: array<byte>
    var len: nat
    var chain: H
    var total: U64
    ghost var message: seq<byte>

    ghost predicate Valid()
      reads this, buf
    {
      && buf.Length == 64
      && len == |Tail(message)|
      && buf[..len] == Tail(message)
      && chain == Fold(compress, start, Blocks(message))
      && total == Wrapped(|Blocks(message)|)
    }

    constructor (f: (H, seq<byte>) -> H, h: H)
      ensures Valid() && fresh(buf) && compress == f && start == h && message == []
    {
      compress := f;
      start := h;
      buf := new byte[64];
      chain := h;
      len := 0;
      total := Wrapped(0);
      message := [];
      new;
      assert Blocks(message) == [] && Tail(message) == [];
    }

    method Transform()
      requires buf.Length == 64
      modifies this`chain, this`total
      ensures chain == compress(old(chain), buf[..])
      ensures total == Wrapped(old(total) + 64)
    {
      chain := compress(chain, buf[..]);
      total := Wrapped(total + 64);
    }

    /** One byte into the buffer, which is compressed when it is full. */
    method Feed(x: byte)
      requires Valid()
      modifies this, buf
      ensures Valid() && message == old(message) + [x]
    {
      OneMore(message, x);
      ghost var tail, blocks := Tail(message), Blocks(message);
      buf[len] := x;
      len := len + 1;
      message := message + [x];
      assert buf[..len] == tail + [x];
      if len == 64 {
        assert buf[..] == tail + [x];
        FoldAppend(compress, start, blocks, buf[..]);
        WrappedCounts(|blocks|);
        Transform();
        len := 0;
      }
    }

    /** However a message is split over calls, the object has absorbed the whole of it. */
    method Update(data: seq<byte>)
      requires Valid()
      modifies this, buf
      ensures Valid() && message == old(message) + data
    {
      for i := 0 to |data|
        invariant Valid() && message == old(message) + data[..i]
      {
        Feed(data[i]);
      }
    }

    method Fill(n: nat)
      requires buf.Length == 64 && len <= n <= 64
      modifies this`len, buf
      ensures len == n && buf[..n] == old(buf[..len]) + Zeros(n - old(len))
    {
      ghost var from := len;
      while len < n
        invariant from <= len <= n
        invariant buf[..len] == old(buf[..len]) + Zeros(len - from)
      {
        buf[len] := 0;
        len := len + 1;
      }
    }

    method PutLength(bits: U64)
      requires buf.Length == 64
      modifies buf
      ensures buf[..] == old(buf[..56]) + BE(bits, 8)
    {
      var v: nat := bits;
      for i := 0 to 8
        invariant buf[..56] == old(buf[..56])
        invariant BE(bits, 8) == BE(v, 8 - i) + buf[64 - i..]
      {
        buf[63 - i] := v % 256;
        v := v / 256;
        assert buf[63 - i..] == [buf[63 - i]] + buf[64 - i..];
      }
      assert buf[..] == buf[..56] + buf[56..];
    }

    /** The mark after the message, and a block closed early if the length no longer fits. */
    method Mark() returns (ghost whole: seq<byte>, ghost open: seq<byte>)
      requires Valid()
      modifies this, buf
      ensures message == old(message)
      ensures |whole| % 64 == 0 && chain == Fold(compress, start, whole)
      ensures len == |open| <= 56 && buf[..len] == open
      ensures Pad(message) == whole + (open + Zeros(56 - |open|) + BE(LengthField(|message|), 8))
    {
      whole, open := Blocks(message), Tail(message) + [0x80];
      PadSplits(message);
      buf[len] := 0x80;
      len := len + 1;
      assert buf[..len] == open;
      if len > 56 {
        whole := Close(whole, open);
        open := [];
      }
    }

    method Close(ghost whole: seq<byte>, ghost open: seq<byte>) returns (ghost after: seq<byte>)
      requires |whole| % 64 == 0 && chain == Fold(compress, start, whole)
      requires buf.Length == 64 && len == |open| <= 64 && buf[..len] == open
      modifies this, buf
      ensures message == old(message) && len == 0
      ensures after == whole + (open + Zeros(64 - |open|))
      ensures |after| % 64 == 0 && chain == Fold(compress, start, after)
    {
      Fill(64);
      assert buf[..] == buf[..64];
      after := whole + buf[..];
      FoldAppend(compress, start, whole, buf[..]);
      Transform();
      len := 0;
    }

    method Final() returns (h: H)
      requires Valid()
      modifies this, buf
      ensures h == Fold(compress, start, Pad(old(message)))
    {
      var bits := Wrapped(total * 8);
      LengthIsCounted(message);
      ghost var whole, open := Mark();
      Fill(56);
      PutLength(bits);
      FoldAppend(compress, start, whole, buf[..]);
      Transform();
      h := chain;
    }
  }

  method HashAll<H>(f: (H, seq<byte>) -> H, start: H, data: seq<byte>) returns (h: H)
    ensures h == Fold(f, start, Pad(data))
  {
    var hasher := new Hasher(f, start);
    hasher.Update(data);
    assert hasher.message == data;
    h := hasher.Final();
  }

  /** The one-shot digest. */
  method DigestOfBuffer(data: seq<byte>) returns (d: Digest)
    ensures d == DigestOf(data)
  {
    var h := HashAll(Compress, IV, data);
    Pow256Of32();
    d := FromBE(ChainBytes(h));
  }
}
