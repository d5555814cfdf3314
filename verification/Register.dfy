/**
 A 64-bit register as its sequence of bits, least significant first, so that exclusive or and
 shifts are pointwise, and what any step function with two simple properties does to messages
 absorbed byte by byte.
 */
module Register {
  import opened Types

  type Bits = seq<bool>

  // ------------------------------------------------------------------------------------------
  // Bits and numbers.
  // ------------------------------------------------------------------------------------------

  function Pow2(n: nat): (p: nat)
    ensures p >= 1
  {
    if n == 0 then 1 else 2 * Pow2(n - 1)
  }

  lemma {:induction false} Pow2Add(m: nat, n: nat)
    ensures Pow2(m + n) == Pow2(m) * Pow2(n)
  {
    if m > 0 {
      Pow2Add(m - 1, n);
      assert Pow2(m + n) == 2 * Pow2(m - 1 + n);
    }
  }

  lemma Pow2Of16()
    ensures Pow2(8) == 256 && Pow2(16) == 0x1_0000
  {
    Pow2Add(8, 8);
  }

  lemma Pow2Values()
    ensures Pow2(8) == 256
    ensures Pow2(64) == U64_MAX + 1
  {
    Pow2Of16();
    var n := 16;
    Pow2Add(n, n);
    Pow2Add(n + n, n + n);
  }

  function BitsOf(v: nat, n: nat): (s: Bits)
    ensures |s| == n
  {
    if n == 0 then [] else [v % 2 == 1] + BitsOf(v / 2, n - 1)
  }

  function Num(s: Bits): (v: nat)
    ensures v < Pow2(|s|)
  {
    if s == [] then 0 else (if s[0] then 1 else 0) + 2 * Num(s[1..])
  }

  lemma {:induction false} NumInjective(a: Bits, b: Bits)
    requires |a| == |b| && Num(a) == Num(b)
    ensures a == b
  {
    if a != [] {
      assert a[0] == b[0] && Num(a[1..]) == Num(b[1..]);
      NumInjective(a[1..], b[1..]);
      assert a == [a[0]] + a[1..] && b == [b[0]] + b[1..];
    }
  }

  lemma {:induction false} BitsOfNum(s: Bits)
    ensures BitsOf(Num(s), |s|) == s
  {
    if s != [] {
      BitsOfNum(s[1..]);
    }
  }

  lemma {:induction false} NumOfBits(v: nat, n: nat)
    requires v < Pow2(n)
    ensures Num(BitsOf(v, n)) == v
  {
    if n > 0 {
      NumOfBits(v / 2, n - 1);
      assert BitsOf(v, n)[1..] == BitsOf(v / 2, n - 1);
    }
  }

  function Repeat(b: bool, n: nat): (s: Bits)
    ensures |s| == n && forall i :: 0 <= i < n ==> s[i] == b
  {
    seq(n, i => b)
  }

  // ------------------------------------------------------------------------------------------
  // Words.
  // ------------------------------------------------------------------------------------------

  type Word = s: Bits | |s| == 64 witness Repeat(false, 64)

  function Xor(a: Word, b: Word): (c: Word)
    ensures forall i :: 0 <= i < 64 ==> c[i] == (a[i] != b[i])
  {
    seq(64, i requires 0 <= i < 64 => a[i] != b[i])
  }

  /** Logical shift right by k bits. */
  function Down(c: Word, k: nat): (d: Word)
    requires k <= 64
    ensures forall i :: 0 <= i < 64 ==> d[i] == (i + k < 64 && c[i + k])
  {
    c[k..] + Repeat(false, k)
  }

  /** Logical shift left by k bits. */
  function Up(c: Word, k: nat): (d: Word)
    requires k <= 64
    ensures forall i :: 0 <= i < 64 ==> d[i] == (k <= i && c[i - k])
  {
    Repeat(false, k) + c[..64 - k]
  }

  /** At most 64 bits as a word. */
  function Padded(bits: Bits): (w: Word)
    requires |bits| <= 64
    ensures forall i :: 0 <= i < 64 ==> w[i] == (i < |bits| && bits[i])
  {
    bits + Repeat(false, 64 - |bits|)
  }

  function ByteWord(b: byte): (w: Word) {
    Padded(BitsOf(b, 8))
  }

  lemma XorZero(c: Word, z: Word)
    requires forall i :: 0 <= i < 64 ==> !z[i]
    ensures Xor(c, z) == c
  {}

  lemma XorAssoc(a: Word, b: Word, c: Word)
    ensures Xor(Xor(a, b), c) == Xor(a, Xor(b, c))
  {}

  lemma XorCancels(a: Word, b: Word, c: Word)
    requires Xor(a, b) == Xor(a, c) || Xor(b, a) == Xor(c, a)
    ensures b == c
  {
    forall i | 0 <= i < 64
      ensures b[i] == c[i]
    {
      assert Xor(a, b)[i] == (a[i] != b[i]) && Xor(a, c)[i] == (a[i] != c[i]);
      assert Xor(b, a)[i] == (a[i] != b[i]) && Xor(c, a)[i] == (a[i] != c[i]);
    }
  }

  lemma UpOne(y: Word, n: nat)
    requires 0 < n <= 64
    ensures Up(y, n) == Up(Up(y, n - 1), 1)
  {}

  lemma ByteInjective(a: byte, b: byte)
    requires BitsOf(a, 8) == BitsOf(b, 8)
    ensures a == b
  {
    Pow2Values();
    NumOfBits(a, 8);
    NumOfBits(b, 8);
  }

  // ------------------------------------------------------------------------------------------
  // A step function, iterated.
  // ------------------------------------------------------------------------------------------

  type Step = Word -> Word

  ghost predicate Injective(f: Step) {
    forall a, b :: f(a) == f(b) ==> a == b
  }

  /** A difference that does not touch the bit shifted out slides down unreduced. */
  ghost predicate Passes(f: Step) {
    forall x: Word, y: Word :: !y[63] ==> f(Xor(x, Up(y, 1))) == Xor(f(x), y)
  }

  function Iterate(f: Step, n: nat, c: Word): Word {
    if n == 0 then c else Iterate(f, n - 1, f(c))
  }

  lemma {:induction false} IterateInjective(f: Step, n: nat, a: Word, b: Word)
    requires Injective(f) && Iterate(f, n, a) == Iterate(f, n, b)
    ensures a == b
  {
    if n > 0 {
      IterateInjective(f, n - 1, f(a), f(b));
    }
  }

  lemma {:induction false} IterateAdd(f: Step, m: nat, n: nat, c: Word)
    ensures Iterate(f, m + n, c) == Iterate(f, n, Iterate(f, m, c))
  {
    if m > 0 {
      IterateAdd(f, m - 1, n, f(c));
    }
  }

  lemma {:induction false} IteratePasses(f: Step, n: nat, x: Word, y: Word)
    requires Passes(f)
    requires n <= 64 && forall i :: 64 - n <= i < 64 ==> !y[i]
    ensures Iterate(f, n, Xor(x, Up(y, n))) == Xor(Iterate(f, n, x), y)
  {
    if n == 0 {
      assert Up(y, 0) == y;
    } else {
      UpOne(y, n);
      IteratePasses(f, n - 1, f(x), y);
    }
  }

  // ------------------------------------------------------------------------------------------
  // Absorbing bits and bytes.
  // ------------------------------------------------------------------------------------------

  /** The serial register: one message bit at a time is added to the low bit, then one step. */
  function Feed(f: Step, c: Word, bits: Bits): Word
    decreases |bits|
  {
    if bits == [] then c
    else Feed(f, f(if bits[0] then c[0 := !c[0]] else c), bits[1..])
  }

  /** One byte: add it to the low bits, then eight steps. */
  function AbsorbByte(f: Step, c: Word, b: byte): Word {
    Iterate(f, |BitsOf(b, 8)|, Xor(c, ByteWord(b)))
  }

  function Absorb(f: Step, c: Word, data: seq<byte>): Word
    decreases |data|
  {
    if data == [] then c else Absorb(f, AbsorbByte(f, c, data[0]), data[1..])
  }

  function MessageBits(data: seq<byte>): Bits {
    if data == [] then [] else BitsOf(data[0], 8) + MessageBits(data[1..])
  }

  lemma PaddedHead(c: Word, bits: Bits)
    requires 0 < |bits| <= 64
    ensures Xor(c, Padded(bits)) == Xor(if bits[0] then c[0 := !c[0]] else c, Up(Padded(bits[1..]), 1))
  {
    var x := if bits[0] then c[0 := !c[0]] else c;
    var up := Up(Padded(bits[1..]), 1);
    var l, r := Xor(c, Padded(bits)), Xor(x, up);
    forall i | 0 <= i < 64
      ensures l[i] == r[i]
    {
      assert l[i] == (c[i] != (i < |bits| && bits[i]));
      assert up[i] == (1 <= i && Padded(bits[1..])[i - 1]);
      if 1 <= i < |bits| {
        assert bits[1..][i - 1] == bits[i];
      }
    }
  }

  /** Feeding up to 64 bits one at a time is adding them all and stepping. */
  lemma {:induction false} FeedIsPadded(f: Step, c: Word, bits: Bits)
    requires Passes(f) && |bits| <= 64
    ensures Feed(f, c, bits) == Iterate(f, |bits|, Xor(c, Padded(bits)))
    decreases |bits|
  {
    if bits == [] {
      XorZero(c, Padded(bits));
    } else {
      PaddedHead(c, bits);
      FeedIsPadded(f, f(if bits[0] then c[0 := !c[0]] else c), bits[1..]);
    }
  }

  lemma {:induction false} FeedConcat(f: Step, c: Word, a: Bits, b: Bits)
    ensures Feed(f, c, a + b) == Feed(f, Feed(f, c, a), b)
    decreases |a|
  {
    if a == [] {
      assert a + b == b;
    } else {
      assert (a + b)[1..] == a[1..] + b;
      FeedConcat(f, f(if a[0] then c[0 := !c[0]] else c), a[1..], b);
    }
  }

  /** Byte-wise absorption is the serial register fed with the message bits. */
  lemma {:induction false} AbsorbIsSerial(f: Step, c: Word, data: seq<byte>)
    requires Passes(f)
    ensures Absorb(f, c, data) == Feed(f, c, MessageBits(data))
    decreases |data|
  {
    if data != [] {
      var bits := BitsOf(data[0], 8);
      FeedIsPadded(f, c, bits);
      FeedConcat(f, c, bits, MessageBits(data[1..]));
      AbsorbIsSerial(f, AbsorbByte(f, c, data[0]), data[1..]);
    }
  }

  lemma {:induction false} AbsorbConcat(f: Step, c: Word, a: seq<byte>, b: seq<byte>)
    ensures Absorb(f, c, a + b) == Absorb(f, Absorb(f, c, a), b)
    decreases |a|
  {
    if a == [] {
      assert a + b == b;
    } else {
      assert (a + b)[1..] == a[1..] + b;
      AbsorbConcat(f, AbsorbByte(f, c, a[0]), a[1..], b);
    }
  }

  // ------------------------------------------------------------------------------------------
  // Burst errors.
  // ------------------------------------------------------------------------------------------

  /** At most eight bytes side by side in one register. */
  function Pack(m: seq<byte>): (w: Word)
    requires |m| <= 8
    ensures forall i :: 8 * |m| <= i < 64 ==> !w[i]
  {
    if m == [] then Repeat(false, 64) else Xor(ByteWord(m[0]), Up(Pack(m[1..]), 8))
  }

  lemma {:induction false} PackInjective(a: seq<byte>, b: seq<byte>)
    requires |a| == |b| <= 8 && Pack(a) == Pack(b)
    ensures a == b
  {
    if a != [] {
      var p, q := Pack(a[1..]), Pack(b[1..]);
      forall i | 0 <= i < 8
        ensures BitsOf(a[0], 8)[i] == BitsOf(b[0], 8)[i]
      {
        assert Pack(a)[i] == ByteWord(a[0])[i] && Pack(b)[i] == ByteWord(b[0])[i];
      }
      ByteInjective(a[0], b[0]);
      forall i | 0 <= i < 56
        ensures p[i] == q[i]
      {
        assert Pack(a)[i + 8] == p[i] && Pack(b)[i + 8] == q[i];
      }
      PackInjective(a[1..], b[1..]);
      assert a == [a[0]] + a[1..] && b == [b[0]] + b[1..];
    }
  }

  lemma PackedStep(f: Step, c: Word, b: Word, y: Word, k: nat, n: nat)
    requires Passes(f) && k <= 64 && forall i :: 64 - k <= i < 64 ==> !y[i]
    ensures Iterate(f, n, Xor(Iterate(f, k, Xor(c, b)), y)) == Iterate(f, k + n, Xor(c, Xor(b, Up(y, k))))
  {
    IteratePasses(f, k, Xor(c, b), y);
    XorAssoc(c, b, Up(y, k));
    IterateAdd(f, k, n, Xor(c, Xor(b, Up(y, k))));
  }

  /** Up to eight bytes enter the register as one word, followed by eight steps for each byte. */
  lemma {:induction false} AbsorbIsPacked(f: Step, c: Word, m: seq<byte>, n: nat)
    requires Passes(f) && |m| <= 8 && n == 8 * |m|
    ensures Absorb(f, c, m) == Iterate(f, n, Xor(c, Pack(m)))
    decreases |m|
  {
    if m == [] {
      XorZero(c, Pack(m));
    } else {
      AbsorbIsPacked(f, AbsorbByte(f, c, m[0]), m[1..], n - 8);
      PackedStep(f, c, ByteWord(m[0]), Pack(m[1..]), |BitsOf(m[0], 8)|, n - 8);
    }
  }

  lemma ShortAbsorbInjective(f: Step, c: Word, a: seq<byte>, b: seq<byte>)
    requires Passes(f) && Injective(f) && |a| == |b| <= 8 && Absorb(f, c, a) == Absorb(f, c, b)
    ensures a == b
  {
    var n := 8 * |a|;
    AbsorbIsPacked(f, c, a, n);
    AbsorbIsPacked(f, c, b, n);
    IterateInjective(f, n, Xor(c, Pack(a)), Xor(c, Pack(b)));
    XorCancels(c, Pack(a), Pack(b));
    PackInjective(a, b);
  }

  lemma {:induction false} AbsorbKeepsDifference(f: Step, c: Word, d: Word, data: seq<byte>)
    requires Injective(f) && Absorb(f, c, data) == Absorb(f, d, data)
    ensures c == d
    decreases |data|
  {
    if data != [] {
      var b := ByteWord(data[0]);
      AbsorbKeepsDifference(f, AbsorbByte(f, c, data[0]), AbsorbByte(f, d, data[0]), data[1..]);
      IterateInjective(f, |BitsOf(data[0], 8)|, Xor(c, b), Xor(d, b));
      XorCancels(b, c, d);
    }
  }

  /** The messages have equal length and differ at most at positions lo..lo+8. */
  ghost predicate DifferWithin8(a: seq<byte>, b: seq<byte>, lo: nat) {
    |a| == |b| && forall i :: 0 <= i < |a| && !(lo <= i < lo + 8) ==> a[i] == b[i]
  }

  lemma AbsorbSplit(f: Step, c: Word, a: seq<byte>, l: nat, h: nat)
    requires l <= h <= |a|
    ensures Absorb(f, c, a) == Absorb(f, Absorb(f, Absorb(f, c, a[..l]), a[l..h]), a[h..])
  {
    assert a == a[..l] + (a[l..h] + a[h..]);
    AbsorbConcat(f, c, a[..l], a[l..h] + a[h..]);
    AbsorbConcat(f, Absorb(f, c, a[..l]), a[l..h], a[h..]);
  }

  lemma WindowDiffers(a: seq<byte>, b: seq<byte>, l: nat, h: nat)
    requires |a| == |b| && l <= h <= |a| && a != b
    requires forall i :: 0 <= i < |a| && !(l <= i < h) ==> a[i] == b[i]
    ensures a[..l] == b[..l] && a[h..] == b[h..] && a[l..h] != b[l..h]
  {
    assert a == a[..l] + a[l..h] + a[h..] && b == b[..l] + b[l..h] + b[h..];
  }

  lemma BurstChangesRegister(f: Step, c: Word, a: seq<byte>, b: seq<byte>, lo: nat)
    requires Passes(f) && Injective(f)
    requires DifferWithin8(a, b, lo) && a != b
    ensures Absorb(f, c, a) != Absorb(f, c, b)
  {
    var l := if lo <= |a| then lo else |a|;
    var h := if lo + 8 <= |a| then lo + 8 else |a|;
    AbsorbSplit(f, c, a, l, h);
    AbsorbSplit(f, c, b, l, h);
    var p := Absorb(f, c, a[..l]);
    WindowDiffers(a, b, l, h);
    if Absorb(f, c, a) == Absorb(f, c, b) {
      AbsorbKeepsDifference(f, Absorb(f, p, a[l..h]), Absorb(f, p, b[l..h]), a[h..]);
      ShortAbsorbInjective(f, p, a[l..h], b[l..h]);
    }
  }
}
