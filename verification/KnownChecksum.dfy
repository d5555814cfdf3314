/**
 The checksum on machine words. The register of bits is carried over to unsigned 64-bit integers,
 for every message, and the published check of the polynomial fixes seed, constant and direction.
 */
module KnownChecksum {
  import opened Types
  import opened Register
  import opened MachineWords
  import opened Checksum

  // ------------------------------------------------------------------------------------------
  // The register on any machine word.
  // ------------------------------------------------------------------------------------------

  /** The step of the program's loop on machine words. */
  function MachineStep<M>(half: M -> M, low: M -> bool, plus: (M, M) -> M, p: M, x: M): M {
    if low(x) then plus(p, half(x)) else half(x)
  }

  lemma MachineShift<M(!new)>(half: M -> M, low: M -> bool, plus: (M, M) -> M, none: M -> M, p: M, x: M)
    requires AddsBits(half, low, plus) && ShiftsBy(half, none, 64) && !low(none(x))
    requires MachineBits(half, low, p, 64) == POLY
    ensures MachineBits(half, low, MachineStep(half, low, plus, p, x), 64) == Shift(MachineBits(half, low, x, 64))
  {
    MachineDown(half, low, none, x);
    MachineSum(half, low, plus, p, half(x));
  }

  function Iterated<M>(step: M -> M, n: nat, x: M): M {
    if n == 0 then x else Iterated(step, n - 1, step(x))
  }

  /** The message taken in on machine words: each byte is added and followed by eight steps. */
  function Taken<M>(step: M -> M, plus: (M, M) -> M, x: M, data: seq<M>): M
    decreases |data|
  {
    if data == [] then x else Taken(step, plus, Iterated(step, 8, plus(x, data[0])), data[1..])
  }

  /** Steps and sums of machine words are steps and sums of their bits. */
  ghost predicate Simulates<M(!new)>(bits: M -> Word, f: Step, step: M -> M, plus: (M, M) -> M) {
    && (forall y :: bits(step(y)) == f(bits(y)))
    && (forall y, z :: bits(plus(y, z)) == Xor(bits(y), bits(z)))
  }

  ghost predicate Spells<M(!new)>(bits: M -> Word, data: seq<M>, bytes: seq<byte>) {
    |data| == |bytes| && forall i :: 0 <= i < |data| ==> bits(data[i]) == ByteWord(bytes[i])
  }

  lemma {:induction false} IteratedIs<M(!new)>(bits: M -> Word, f: Step, step: M -> M, n: nat, x: M)
    requires forall y :: bits(step(y)) == f(bits(y))
    ensures bits(Iterated(step, n, x)) == Iterate(f, n, bits(x))
  {
    if n > 0 {
      IteratedIs(bits, f, step, n - 1, step(x));
    }
  }

  lemma {:induction false} TakenIs<M(!new)>(bits: M -> Word, f: Step, step: M -> M, plus: (M, M) -> M, x: M,
                                            data: seq<M>, bytes: seq<byte>)
    requires Simulates(bits, f, step, plus) && Spells(bits, data, bytes)
    ensures bits(Taken(step, plus, x, data)) == Absorb(f, bits(x), bytes)
    decreases |data|
  {
    if data != [] {
      IteratedIs(bits, f, step, 8, plus(x, data[0]));
      TakenIs(bits, f, step, plus, Iterated(step, 8, plus(x, data[0])), data[1..], bytes[1..]);
    }
  }

  // ------------------------------------------------------------------------------------------
  // 64-bit words.
  // ------------------------------------------------------------------------------------------

  const GENERATOR: bv64 := 0xC96C5795D7870F42
  const ONES: bv64 := 0xFFFFFFFFFFFFFFFF

  function Half(x: bv64): bv64 {
    x >> 1
  }

  function Low(x: bv64): bool {
    x & 1 == 1
  }

  function Plus(x: bv64, y: bv64): bv64 {
    x ^ y
  }

  function Step64(x: bv64): bv64 {
    if x & 1 == 1 then GENERATOR ^ (x >> 1) else x >> 1
  }

  function Bits64(x: bv64): Word {
    MachineBits(Half, Low, x, 64)
  }

  lemma Adds64()
    ensures AddsBits(Half, Low, Plus)
  {}

  function By2(x: bv64): bv64 { x >> 2 }
  function By4(x: bv64): bv64 { x >> 4 }
  function By8(x: bv64): bv64 { x >> 8 }
  function By16(x: bv64): bv64 { x >> 16 }
  function By32(x: bv64): bv64 { x >> 32 }
  function By64(x: bv64): bv64 { 0 }

  lemma By2IsTwice()
    ensures forall x :: By2(x) == Half(Half(x))
  {}

  lemma By4IsTwice()
    ensures forall x :: By4(x) == By2(By2(x))
  {}

  lemma By8IsTwice()
    ensures forall x :: By8(x) == By4(By4(x))
  {}

  lemma By16IsTwice()
    ensures forall x :: By16(x) == By8(By8(x))
  {}

  lemma By32IsTwice()
    ensures forall x :: By32(x) == By16(By16(x))
  {}

  lemma By64IsTwice()
    ensures forall x :: By64(x) == By32(By32(x))
  {}

  lemma ShiftsOnce()
    ensures ShiftsBy(Half, Half, 1)
  {}

  lemma ShiftsOut()
    ensures ShiftsBy(Half, By64, 64)
  {
    ShiftsOnce();
    By2IsTwice();
    ShiftsTwice(Half, Half, By2, 1);
    By4IsTwice();
    ShiftsTwice(Half, By2, By4, 2);
    By8IsTwice();
    ShiftsTwice(Half, By4, By8, 4);
    By16IsTwice();
    ShiftsTwice(Half, By8, By16, 8);
    By32IsTwice();
    ShiftsTwice(Half, By16, By32, 16);
    By64IsTwice();
    ShiftsTwice(Half, By32, By64, 32);
  }

  // ------------------------------------------------------------------------------------------
  // The polynomial.
  // ------------------------------------------------------------------------------------------

  lemma FourHalves(x: bv64)
    ensures By4(x) == Half(Half(Half(Half(x))))
  {}

  lemma HexDigit(x: bv64, y: bv64, n: nat, v: nat)
    requires y == By4(x) && Num(MachineBits(Half, Low, y, n)) == v
    ensures Num(MachineBits(Half, Low, x, n + 4)) == Digit(Half, Low, x) + 16 * v
  {
    FourHalves(x);
    MachineDigit(Half, Low, x, y, n);
  }

  lemma GeneratorValue()
    ensures Num(Bits64(GENERATOR)) == 0xC96C5795D7870F42
  {
    HexDigit(0xC, 0x0, 0, 0x0);
    HexDigit(0xC9, 0xC, 4, 0xC);
    HexDigit(0xC96, 0xC9, 8, 0xC9);
    HexDigit(0xC96C, 0xC96, 12, 0xC96);
    HexDigit(0xC96C5, 0xC96C, 16, 0xC96C);
    HexDigit(0xC96C57, 0xC96C5, 20, 0xC96C5);
    HexDigit(0xC96C579, 0xC96C57, 24, 0xC96C57);
    HexDigit(0xC96C5795, 0xC96C579, 28, 0xC96C579);
    HexDigit(0xC96C5795D, 0xC96C5795, 32, 0xC96C5795);
    HexDigit(0xC96C5795D7, 0xC96C5795D, 36, 0xC96C5795D);
    HexDigit(0xC96C5795D78, 0xC96C5795D7, 40, 0xC96C5795D7);
    HexDigit(0xC96C5795D787, 0xC96C5795D78, 44, 0xC96C5795D78);
    HexDigit(0xC96C5795D7870, 0xC96C5795D787, 48, 0xC96C5795D787);
    HexDigit(0xC96C5795D7870F, 0xC96C5795D7870, 52, 0xC96C5795D7870);
    HexDigit(0xC96C5795D7870F4, 0xC96C5795D7870F, 56, 0xC96C5795D7870F);
    HexDigit(0xC96C5795D7870F42, 0xC96C5795D7870F4, 60, 0xC96C5795D7870F4);
  }

  // ------------------------------------------------------------------------------------------
  // The polynomial: its coefficients, read as a machine whose word is a position.
  // ------------------------------------------------------------------------------------------

  function Next(i: int): int {
    i + 1
  }

  function Coefficient(i: int): bool {
    Exponent(63 - i)
  }

  lemma {:induction false} PositionBits(i: int, n: nat)
    requires 0 <= i && i + n == 64
    ensures MachineBits(Next, Coefficient, i, n) == POLY[i..]
    decreases n
  {
    if n > 0 {
      PositionBits(i + 1, n - 1);
      assert POLY[i] == Coefficient(i) && POLY[i..] == [POLY[i]] + POLY[i + 1..];
    }
  }

  /** Four coefficients as a hexadecimal digit. */
  function DigitAt(at: int -> bool, i: int): nat {
    Bit(at(i)) + 2 * Bit(at(i + 1)) + 4 * Bit(at(i + 2)) + 8 * Bit(at(i + 3))
  }

  /** The value of the coefficients from position i on. */
  function ValueFrom(at: int -> bool, i: int): nat {
    if i > 64 then 0 else Num(MachineBits(Next, at, i, 64 - i))
  }

  lemma PositionDigit(at: int -> bool, i: int)
    requires i <= 60
    ensures ValueFrom(at, i) == DigitAt(at, i) + 16 * ValueFrom(at, i + 4)
  {
    MachineDigit(Next, at, i, i + 4, 60 - i);
  }

  /** Four coefficients of the polynomial as a hexadecimal digit. */
  function Coefficients(i: int): nat {
    Bit(Coefficient(i)) + 2 * Bit(Coefficient(i + 1)) + 4 * Bit(Coefficient(i + 2)) + 8 * Bit(Coefficient(i + 3))
  }

  lemma CoefficientDigit(i: int)
    ensures DigitAt(Coefficient, i) == Coefficients(i)
  {}

  lemma PolyTopDigits()
    ensures Coefficients(60) == 0xC && Coefficients(56) == 0x9 && Coefficients(52) == 0x6 && Coefficients(48) == 0xC
  {}

  lemma PolyUpperDigits()
    ensures Coefficients(44) == 0x5 && Coefficients(40) == 0x7 && Coefficients(36) == 0x9 && Coefficients(32) == 0x5
  {}

  lemma PolyLowerDigits()
    ensures Coefficients(28) == 0xD && Coefficients(24) == 0x7 && Coefficients(20) == 0x8 && Coefficients(16) == 0x7
  {}

  lemma PolyLastDigits()
    ensures Coefficients(12) == 0x0 && Coefficients(8) == 0xF && Coefficients(4) == 0x4 && Coefficients(0) == 0x2
  {}

  lemma FourDigits(value: int -> nat, digit: int -> nat, i: int)
    requires i <= 48
    requires forall k :: k <= 60 ==> value(k) == digit(k) + 16 * value(k + 4)
    ensures value(i) == digit(i) + 0x10 * digit(i + 4) + 0x100 * digit(i + 8) + 0x1000 * digit(i + 12) + 0x1_0000 * value(i + 16)
  {
    assert value(i + 4) == digit(i + 4) + 16 * value(i + 4 + 4);
    assert value(i + 8) == digit(i + 8) + 16 * value(i + 8 + 4);
    assert value(i + 12) == digit(i + 12) + 16 * value(i + 12 + 4);
  }

  lemma SixteenDigits(value: int -> nat, digit: int -> nat)
    requires value(64) == 0 && forall k :: k <= 60 ==> value(k) == digit(k) + 16 * value(k + 4)
    requires digit(60) == 0xC && digit(56) == 0x9 && digit(52) == 0x6 && digit(48) == 0xC
    requires digit(44) == 0x5 && digit(40) == 0x7 && digit(36) == 0x9 && digit(32) == 0x5
    requires digit(28) == 0xD && digit(24) == 0x7 && digit(20) == 0x8 && digit(16) == 0x7
    requires digit(12) == 0x0 && digit(8) == 0xF && digit(4) == 0x4 && digit(0) == 0x2
    ensures value(0) == 0xC96C5795D7870F42
  {
    FourDigits(value, digit, 48);
    FourDigits(value, digit, 32);
    FourDigits(value, digit, 16);
    FourDigits(value, digit, 0);
  }

  lemma PolyFrom(value: int -> nat, digit: int -> nat)
    requires value == (i => ValueFrom(Coefficient, i)) && digit == (i => Coefficients(i))
    ensures value(64) == 0 && forall k :: k <= 60 ==> value(k) == digit(k) + 16 * value(k + 4)
  {
    forall i | i <= 60
      ensures value(i) == digit(i) + 16 * value(i + 4)
    {
      PositionDigit(Coefficient, i);
      CoefficientDigit(i);
    }
  }

  lemma PolyFromStart()
    ensures ValueFrom(Coefficient, 0) == 0xC96C5795D7870F42
  {
    var value, digit := i => ValueFrom(Coefficient, i), i => Coefficients(i);
    PolyFrom(value, digit);
    PolyTopDigits();
    PolyUpperDigits();
    PolyLowerDigits();
    PolyLastDigits();
    SixteenDigits(value, digit);
  }

  /** The exponents of the polynomial are those of the program's constant. */
  lemma PolyValue()
    ensures Num(POLY) == 0xC96C5795D7870F42
  {
    PolyFromStart();
    PositionBits(0, 64);
    assert POLY[0..] == POLY;
  }

  // ------------------------------------------------------------------------------------------
  // The register on 64-bit words.
  // ------------------------------------------------------------------------------------------

  lemma GeneratorIsPoly()
    ensures Bits64(GENERATOR) == POLY
  {
    PolyValue();
    GeneratorValue();
    NumInjective(Bits64(GENERATOR), POLY);
  }

  /** The shift register of bits is the loop of the program on unsigned 64-bit integers. */
  lemma StepIsMachine(x: bv64)
    ensures Bits64(Step64(x)) == Shift(Bits64(x))
  {
    Adds64();
    ShiftsOut();
    GeneratorIsPoly();
    MachineShift(Half, Low, Plus, By64, GENERATOR, x);
  }

  lemma XorIsMachine(x: bv64, y: bv64)
    ensures Bits64(Plus(x, y)) == Xor(Bits64(x), Bits64(y))
  {
    Adds64();
    MachineSum(Half, Low, Plus, x, y);
  }

  lemma {:induction false} NumPadded(bits: Bits, n: nat)
    ensures Num(bits + Repeat(false, n)) == Num(bits)
    decreases |bits| + n
  {
    var s := bits + Repeat(false, n);
    if bits != [] {
      assert s[1..] == bits[1..] + Repeat(false, n);
      NumPadded(bits[1..], n);
    } else if n > 0 {
      assert s[1..] == bits + Repeat(false, n - 1);
      NumPadded(bits, n - 1);
    }
  }

  lemma {:induction false} NumOnes(n: nat)
    ensures Num(Repeat(true, n)) == Pow2(n) - 1
  {
    if n > 0 {
      assert Repeat(true, n)[1..] == Repeat(true, n - 1);
      NumOnes(n - 1);
    }
  }

  /** The checksum of nothing is the seed, all ones. */
  lemma EmptyValue()
    ensures Num(SEED) == U64_MAX && Compute([]) == U64_MAX
  {
    NumOnes(64);
    Pow2Values();
  }

  lemma OnesValue()
    ensures Num(Bits64(ONES)) == 0xFFFFFFFFFFFFFFFF
  {
    HexDigit(0xF, 0x0, 0, 0x0);
    HexDigit(0xFF, 0xF, 4, 0xF);
    HexDigit(0xFFF, 0xFF, 8, 0xFF);
    HexDigit(0xFFFF, 0xFFF, 12, 0xFFF);
    HexDigit(0xFFFFF, 0xFFFF, 16, 0xFFFF);
    HexDigit(0xFFFFFF, 0xFFFFF, 20, 0xFFFFF);
    HexDigit(0xFFFFFFF, 0xFFFFFF, 24, 0xFFFFFF);
    HexDigit(0xFFFFFFFF, 0xFFFFFFF, 28, 0xFFFFFFF);
    HexDigit(0xFFFFFFFFF, 0xFFFFFFFF, 32, 0xFFFFFFFF);
    HexDigit(0xFFFFFFFFFF, 0xFFFFFFFFF, 36, 0xFFFFFFFFF);
    HexDigit(0xFFFFFFFFFFF, 0xFFFFFFFFFF, 40, 0xFFFFFFFFFF);
    HexDigit(0xFFFFFFFFFFFF, 0xFFFFFFFFFFF, 44, 0xFFFFFFFFFFF);
    HexDigit(0xFFFFFFFFFFFFF, 0xFFFFFFFFFFFF, 48, 0xFFFFFFFFFFFF);
    HexDigit(0xFFFFFFFFFFFFFF, 0xFFFFFFFFFFFFF, 52, 0xFFFFFFFFFFFFF);
    HexDigit(0xFFFFFFFFFFFFFFF, 0xFFFFFFFFFFFFFF, 56, 0xFFFFFFFFFFFFFF);
    HexDigit(0xFFFFFFFFFFFFFFFF, 0xFFFFFFFFFFFFFFF, 60, 0xFFFFFFFFFFFFFFF);
  }

  lemma OnesIsSeed()
    ensures Bits64(ONES) == SEED
  {
    EmptyValue();
    OnesValue();
    NumInjective(Bits64(ONES), SEED);
  }

  lemma MachineByte<M>(half: M -> M, low: M -> bool, x: M, y: M, z: M)
    requires y == half(half(half(half(x)))) && z == half(half(half(half(y)))) && half(z) == z && !low(z)
    ensures Num(MachineBits(half, low, x, 64)) == Digit(half, low, x) + 16 * Digit(half, low, y)
  {
    var n := 56;
    MachineZero(half, low, z, n);
    MachineDigit(half, low, y, z, n);
    MachineDigit(half, low, x, y, n + 4);
  }

  lemma ByteWordValue(b: byte)
    ensures Num(ByteWord(b)) == b
  {
    Pow2Values();
    NumOfBits(b, 8);
    NumPadded(BitsOf(b, 8), 56);
  }

  lemma ByteIsMachine(b: byte, x: bv64)
    requires By4(By4(x)) == 0 && b == Digit(Half, Low, x) + 16 * Digit(Half, Low, By4(x))
    ensures Bits64(x) == ByteWord(b)
  {
    ByteWordValue(b);
    FourHalves(x);
    FourHalves(By4(x));
    MachineByte(Half, Low, x, By4(x), By4(By4(x)));
    NumInjective(Bits64(x), ByteWord(b));
  }

  // ------------------------------------------------------------------------------------------
  // The nine bytes of the published check.
  // ------------------------------------------------------------------------------------------

  const NINE: seq<byte> := [0x31, 0x32, 0x33, 0x34, 0x35, 0x36, 0x37, 0x38, 0x39]
  const NINE_WORDS: seq<bv64> := [0x31, 0x32, 0x33, 0x34, 0x35, 0x36, 0x37, 0x38, 0x39]

  lemma NineBytes(i: nat)
    requires i < 9
    ensures Bits64(NINE_WORDS[i]) == ByteWord(NINE[i])
  {
    ByteIsMachine(NINE[i], NINE_WORDS[i]);
  }

  lemma Eight<M>(step: M -> M, x: M)
    ensures Iterated(step, 8, x) == step(step(step(step(step(step(step(step(x))))))))
  {}

  /** The register before and after each of the nine bytes. */
  const REGISTERS: seq<bv64> := [
    0xFFFFFFFFFFFFFFFF, 0xD5D0F17A6B6A3512, 0xFBE29281D80DA6A7, 0xCFDCD7BBF8E33A9E,
    0x31B1786C99473CD7, 0xA258B9005AFBA316, 0xFB951AC9A23C3731, 0x8FAF60C99E6DC25F,
    0xA3747FB7D45387F6, 0x66A2364420E6C605]

  ghost predicate Follows(i: nat)
    requires i < 9
  {
    REGISTERS[i + 1] == Iterated(Step64, 8, Plus(REGISTERS[i], NINE_WORDS[i]))
  }

  lemma FirstThree()
    ensures Follows(0) && Follows(1) && Follows(2)
  {
    Eight(Step64, Plus(0xFFFFFFFFFFFFFFFF, 0x31));
    Eight(Step64, Plus(0xD5D0F17A6B6A3512, 0x32));
    Eight(Step64, Plus(0xFBE29281D80DA6A7, 0x33));
  }

  lemma MiddleThree()
    ensures Follows(3) && Follows(4) && Follows(5)
  {
    Eight(Step64, Plus(0xCFDCD7BBF8E33A9E, 0x34));
    Eight(Step64, Plus(0x31B1786C99473CD7, 0x35));
    Eight(Step64, Plus(0xA258B9005AFBA316, 0x36));
  }

  lemma LastThree()
    ensures Follows(6) && Follows(7) && Follows(8)
  {
    Eight(Step64, Plus(0xFB951AC9A23C3731, 0x37));
    Eight(Step64, Plus(0x8FAF60C99E6DC25F, 0x38));
    Eight(Step64, Plus(0xA3747FB7D45387F6, 0x39));
  }

  lemma {:induction false} TakenThrough<M(!new)>(step: M -> M, plus: (M, M) -> M, xs: seq<M>, data: seq<M>)
    requires |xs| == |data| + 1
    requires forall i :: 0 <= i < |data| ==> xs[i + 1] == Iterated(step, 8, plus(xs[i], data[i]))
    ensures Taken(step, plus, xs[0], data) == xs[|data|]
    decreases |data|
  {
    if data != [] {
      TakenThrough(step, plus, xs[1..], data[1..]);
    }
  }

  lemma NineTaken()
    ensures Taken(Step64, Plus, ONES, NINE_WORDS) == REGISTERS[9]
  {
    forall i | 0 <= i < 9
      ensures Follows(i)
    {
      FirstThree();
      MiddleThree();
      LastThree();
    }
    TakenThrough(Step64, Plus, REGISTERS, NINE_WORDS);
  }

  lemma CheckSum()
    ensures Num(Bits64(0x66A2364420E6C605)) == 0x66A2364420E6C605
  {
    HexDigit(0x6, 0x0, 0, 0x0);
    HexDigit(0x66, 0x6, 4, 0x6);
    HexDigit(0x66A, 0x66, 8, 0x66);
    HexDigit(0x66A2, 0x66A, 12, 0x66A);
    HexDigit(0x66A23, 0x66A2, 16, 0x66A2);
    HexDigit(0x66A236, 0x66A23, 20, 0x66A23);
    HexDigit(0x66A2364, 0x66A236, 24, 0x66A236);
    HexDigit(0x66A23644, 0x66A2364, 28, 0x66A2364);
    HexDigit(0x66A236442, 0x66A23644, 32, 0x66A23644);
    HexDigit(0x66A2364420, 0x66A236442, 36, 0x66A236442);
    HexDigit(0x66A2364420E, 0x66A2364420, 40, 0x66A2364420);
    HexDigit(0x66A2364420E6, 0x66A2364420E, 44, 0x66A2364420E);
    HexDigit(0x66A2364420E6C, 0x66A2364420E6, 48, 0x66A2364420E6);
    HexDigit(0x66A2364420E6C6, 0x66A2364420E6C, 52, 0x66A2364420E6C);
    HexDigit(0x66A2364420E6C60, 0x66A2364420E6C6, 56, 0x66A2364420E6C6);
    HexDigit(0x66A2364420E6C605, 0x66A2364420E6C60, 60, 0x66A2364420E6C60);
  }

  lemma Simulates64()
    ensures Simulates(Bits64, Shift, Step64, Plus)
  {
    forall x
      ensures Bits64(Step64(x)) == Shift(Bits64(x))
    {
      StepIsMachine(x);
    }
    forall x, y
      ensures Bits64(Plus(x, y)) == Xor(Bits64(x), Bits64(y))
    {
      XorIsMachine(x, y);
    }
  }

  /** For every message, the checksum is the program's loop on unsigned 64-bit integers. */
  lemma ComputeIsMachine(data: seq<byte>, words: seq<bv64>)
    requires Spells(Bits64, words, data)
    ensures Compute(data) == Num(Bits64(Taken(Step64, Plus, ONES, words)))
  {
    Simulates64();
    OnesIsSeed();
    TakenIs(Bits64, Shift, Step64, Plus, ONES, words, data);
  }

  lemma NineSpelt()
    ensures Spells(Bits64, NINE_WORDS, NINE)
  {
    forall i | 0 <= i < 9
      ensures Bits64(NINE_WORDS[i]) == ByteWord(NINE[i])
    {
      NineBytes(i);
    }
  }

  /**
   The checksum of the nine bytes "123456789": the complement of 0x995DC9BBDF1939FA, the published
   check value of this polynomial, because the program does not invert the register at the end.
   */
  lemma CheckValue()
    ensures Compute(NINE) == 0x66A2364420E6C605 == U64_MAX - 0x995DC9BBDF1939FA
  {
    NineSpelt();
    ComputeIsMachine(NINE, NINE_WORDS);
    NineTaken();
    CheckSum();
  }
}
