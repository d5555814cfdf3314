/**
 CRC-64 with the reflected polynomial of Annex B of ECMA-182: the table-driven checksum of the
 program, its agreement with serial division, and the burst errors it cannot miss.
 */
module Checksum {
  import opened Types
  import opened Register

  /** The exponents below 64 of the generator polynomial in Annex B of ECMA-182. */
  predicate Exponent(e: int) {
    || e == 62 || e == 57 || e == 55 || e == 54 || e == 53 || e == 52 || e == 47 || e == 46
    || e == 45 || e == 40 || e == 39 || e == 38 || e == 37 || e == 35 || e == 33 || e == 32
    || e == 31 || e == 29 || e == 27 || e == 24 || e == 23 || e == 22 || e == 21 || e == 19
    || e == 17 || e == 13 || e == 12 || e == 10 || e == 9 || e == 7 || e == 4 || e == 1 || e == 0
  }

  /** The program's constant 0xC96C5795D7870F42: bit i is the coefficient of x^(63-i). */
  function Reflected(): (w: Word)
    ensures forall i :: 0 <= i < 64 ==> w[i] == Exponent(63 - i)
  {
    seq(64, i => Exponent(63 - i))
  }

  const POLY: Word := Reflected()
  const SEED: Word := Repeat(true, 64)

  /** One step of the reflected shift register. */
  function Shift(c: Word): Word {
    if c[0] then Xor(POLY, Down(c, 1)) else Down(c, 1)
  }

  lemma ShiftInjective()
    ensures Injective(Shift)
  {
    forall a: Word, b: Word | Shift(a) == Shift(b)
      ensures a == b
    {
      assert Shift(a)[63] == a[0] && Shift(b)[63] == b[0];
      forall i | 1 <= i < 64
        ensures a[i] == b[i]
      {
        assert Shift(a)[i - 1] == Shift(b)[i - 1];
      }
    }
  }

  lemma ShiftPassesOne(x: Word, y: Word)
    requires !y[63]
    ensures Shift(Xor(x, Up(y, 1))) == Xor(Shift(x), y)
  {
    var z := Xor(x, Up(y, 1));
    assert z[0] == x[0];
    assert Down(z, 1) == Xor(Down(x, 1), y);
    XorAssoc(POLY, Down(x, 1), y);
  }

  lemma ShiftPasses()
    ensures Passes(Shift)
  {
    forall x: Word, y: Word | !y[63]
      ensures Shift(Xor(x, Up(y, 1))) == Xor(Shift(x), y)
    {
      ShiftPassesOne(x, y);
    }
  }

  function LowByte(c: Word): byte {
    Pow2Values();
    Num(c[..8])
  }

  /** The table: entry i is the register after absorbing the single byte i from zero. */
  ghost predicate IsTable(t: seq<Word>) {
    |t| == 256 && forall i: byte :: t[i] == Iterate(Shift, |BitsOf(i, 8)|, ByteWord(i))
  }

  /** One message byte through the table. */
  function TableStep(t: seq<Word>, c: Word, b: byte): Word
    requires |t| == 256
  {
    Xor(t[LowByte(Xor(c, ByteWord(b)))], Down(c, 8))
  }

  function TableUpdate(t: seq<Word>, c: Word, data: seq<byte>): Word
    requires |t| == 256
    decreases |data|
  {
    if data == [] then c else TableUpdate(t, TableStep(t, c, data[0]), data[1..])
  }

  lemma LowByteWord(c: Word)
    ensures ByteWord(LowByte(c)) == Padded(c[..8])
  {
    BitsOfNum(c[..8]);
  }

  lemma SplitWord(x: Word)
    ensures x == Xor(Padded(x[..8]), Up(Down(x, 8), 8))
  {}

  lemma XorByteDown(c: Word, b: byte)
    ensures Down(Xor(c, ByteWord(b)), 8) == Down(c, 8)
  {}

  /** The table step is the absorption of one byte. */
  lemma TableStepAbsorbs(t: seq<Word>, c: Word, b: byte)
    requires IsTable(t)
    ensures TableStep(t, c, b) == AbsorbByte(Shift, c, b)
  {
    var x := Xor(c, ByteWord(b));
    var i := LowByte(x);
    LowByteWord(x);
    SplitWord(x);
    XorByteDown(c, b);
    ShiftPasses();
    IteratePasses(Shift, |BitsOf(i, 8)|, ByteWord(i), Down(x, 8));
    assert t[i] == Iterate(Shift, |BitsOf(i, 8)|, ByteWord(i));
  }

  lemma {:induction false} TableUpdateAbsorbs(t: seq<Word>, c: Word, data: seq<byte>)
    requires IsTable(t)
    ensures TableUpdate(t, c, data) == Absorb(Shift, c, data)
    decreases |data|
  {
    if data != [] {
      TableStepAbsorbs(t, c, data[0]);
      TableUpdateAbsorbs(t, TableStep(t, c, data[0]), data[1..]);
    }
  }

  /** For every register and message, the table-driven update is serial division by the polynomial. */
  lemma TableIsSerial(t: seq<Word>, c: Word, data: seq<byte>)
    requires IsTable(t)
    ensures TableUpdate(t, c, data) == Feed(Shift, c, MessageBits(data))
  {
    TableUpdateAbsorbs(t, c, data);
    ShiftPasses();
    AbsorbIsSerial(Shift, c, data);
  }

  /** The checksum of a message: what the program computes, stated by serial division. */
  function Compute(data: seq<byte>): U64 {
    Pow2Values();
    Num(Absorb(Shift, SEED, data))
  }

  /** Two different messages that differ only inside one window of eight bytes never share a CRC. */
  lemma BurstDetected(a: seq<byte>, b: seq<byte>, lo: nat)
    requires DifferWithin8(a, b, lo) && a != b
    ensures Compute(a) != Compute(b)
  {
    ShiftPasses();
    ShiftInjective();
    BurstChangesRegister(Shift, SEED, a, b, lo);
    if Compute(a) == Compute(b) {
      NumInjective(Absorb(Shift, SEED, a), Absorb(Shift, SEED, b));
    }
  }

  // ------------------------------------------------------------------------------------------
  // The program's table construction and its incremental checksum object.
  // ------------------------------------------------------------------------------------------

  method BuildEntry(i: byte) returns (c: Word)
    ensures c == Iterate(Shift, |BitsOf(i, 8)|, ByteWord(i))
  {
    c := ByteWord(i);
    var k := 8;
    while k > 0
      invariant 0 <= k
      invariant Iterate(Shift, k, c) == Iterate(Shift, |BitsOf(i, 8)|, ByteWord(i))
    {
      c := Shift(c);
      k := k - 1;
    }
  }

  method BuildTable() returns (t: array<Word>)
    ensures fresh(t) && IsTable(t[..])
  {
    t := new Word[256](i => SEED);
    var i := 0;
    while i < 256
      invariant 0 <= i <= 256
      invariant forall j: byte :: j < i ==> t[j] == Iterate(Shift, |BitsOf(j, 8)|, ByteWord(j))
    {
      t[i] := BuildEntry(i);
      i := i + 1;
    }
  }

  class Crc64 {
    const table: array<Word>
    var state: Word
    ghost var absorbed: seq<byte>

    ghost predicate Valid()
      reads this, table
    {
      IsTable(table[..]) && state == Absorb(Shift, SEED, absorbed)
    }

    constructor ()
      ensures Valid() && absorbed == [] && fresh(table)
    {
      var t := BuildTable();
      table := t;
      state := SEED;
      absorbed := [];
    }

    /** Feeding data in pieces is feeding the concatenation. */
    method Update(data: seq<byte>)
      requires Valid()
      modifies this
      ensures Valid() && absorbed == old(absorbed) + data
    {
      ghost var t := table[..];
      var i := 0;
      while i < |data|
        invariant 0 <= i <= |data|
        invariant t == table[..] && absorbed == old(absorbed)
        invariant state == TableUpdate(t, old(state), data[..i])
      {
        TableUpdateSnoc(t, old(state), data[..i], data[i]);
        assert data[..i + 1] == data[..i] + [data[i]];
        state := Xor(table[LowByte(Xor(state, ByteWord(data[i])))], Down(state, 8));
        i := i + 1;
      }
      assert data[..i] == data;
      TableUpdateAbsorbs(t, old(state), data);
      AbsorbConcat(Shift, SEED, absorbed, data);
      absorbed := absorbed + data;
    }

    method Value() returns (crc: U64)
      requires Valid()
      ensures crc == Compute(absorbed)
    {
      Pow2Values();
      crc := Num(state);
    }
  }

  /** The one-shot checksum. */
  method CrcOf(data: seq<byte>) returns (crc: U64)
    ensures crc == Compute(data)
  {
    var c := new Crc64();
    c.Update(data);
    assert c.absorbed == data;
    crc := c.Value();
  }

  lemma {:induction false} TableUpdateSnoc(t: seq<Word>, c: Word, a: seq<byte>, b: byte)
    requires |t| == 256
    ensures TableUpdate(t, c, a + [b]) == TableStep(t, TableUpdate(t, c, a), b)
    decreases |a|
  {
    if a == [] {
      assert a + [b] == [b];
      assert TableUpdate(t, c, [b]) == TableUpdate(t, TableStep(t, c, b), []);
    } else {
      assert (a + [b])[1..] == a[1..] + [b];
      TableUpdateSnoc(t, TableStep(t, c, a[0]), a[1..], b);
    }
  }
}
