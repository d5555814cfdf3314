/**
 Machine words of any width: a shift, a low bit and an addition are given, and the bits, the value
 and the hexadecimal digits of a word follow.
 */
module MachineWords {
  import opened Register

  /** The low n bits of a machine word, least significant first. */
  function MachineBits<M>(half: M -> M, low: M -> bool, x: M, n: nat): (s: Bits)
    ensures |s| == n
  {
    if n == 0 then [] else [low(x)] + MachineBits(half, low, half(x), n - 1)
  }

  function Shifted<M>(half: M -> M, x: M, n: nat): M {
    if n == 0 then x else Shifted(half, half(x), n - 1)
  }

  ghost predicate AddsBits<M(!new)>(half: M -> M, low: M -> bool, plus: (M, M) -> M) {
    forall x, y :: half(plus(x, y)) == plus(half(x), half(y)) && low(plus(x, y)) == (low(x) != low(y))
  }

  ghost predicate ShiftsBy<M(!new)>(half: M -> M, f: M -> M, n: nat) {
    forall x :: Shifted(half, x, n) == f(x)
  }

  lemma {:induction false} MachineXor<M(!new)>(half: M -> M, low: M -> bool, plus: (M, M) -> M, x: M, y: M, n: nat)
    requires AddsBits(half, low, plus)
    ensures forall i :: 0 <= i < n ==>
              MachineBits(half, low, plus(x, y), n)[i] == (MachineBits(half, low, x, n)[i] != MachineBits(half, low, y, n)[i])
  {
    if n > 0 {
      MachineXor(half, low, plus, half(x), half(y), n - 1);
    }
  }

  lemma MachineSum<M(!new)>(half: M -> M, low: M -> bool, plus: (M, M) -> M, x: M, y: M)
    requires AddsBits(half, low, plus)
    ensures MachineBits(half, low, plus(x, y), 64) == Xor(MachineBits(half, low, x, 64), MachineBits(half, low, y, 64))
  {
    MachineXor(half, low, plus, x, y, 64);
  }

  lemma {:induction false} MachineLast<M>(half: M -> M, low: M -> bool, x: M, n: nat)
    ensures MachineBits(half, low, x, n + 1) == MachineBits(half, low, x, n) + [low(Shifted(half, x, n))]
  {
    if n > 0 {
      MachineLast(half, low, half(x), n - 1);
    }
  }

  lemma {:induction false} ShiftedAdd<M>(half: M -> M, x: M, m: nat, n: nat)
    ensures Shifted(half, x, m + n) == Shifted(half, Shifted(half, x, m), n)
  {
    if m > 0 {
      ShiftedAdd(half, half(x), m - 1, n);
    }
  }

  lemma ShiftsTwice<M(!new)>(half: M -> M, f: M -> M, g: M -> M, n: nat)
    requires ShiftsBy(half, f, n) && forall x :: g(x) == f(f(x))
    ensures ShiftsBy(half, g, n + n)
  {
    forall x
      ensures Shifted(half, x, n + n) == g(x)
    {
      ShiftedAdd(half, x, n, n);
    }
  }

  /** Shifting a word whose bits run out is shifting the register down. */
  lemma MachineDown<M(!new)>(half: M -> M, low: M -> bool, none: M -> M, x: M)
    requires ShiftsBy(half, none, 64) && !low(none(x))
    ensures MachineBits(half, low, half(x), 64) == Down(MachineBits(half, low, x, 64), 1)
  {
    var n := 63;
    MachineLast(half, low, half(x), n);
    assert Shifted(half, half(x), n) == Shifted(half, x, n + 1);
    assert MachineBits(half, low, x, n + 1)[1..] == MachineBits(half, low, half(x), n);
  }

  lemma {:induction false} MachineInjective<M(!new)>(half: M -> M, low: M -> bool, x: M, y: M, n: nat)
    requires forall a, b :: half(a) == half(b) && low(a) == low(b) ==> a == b
    requires MachineBits(half, low, x, n) == MachineBits(half, low, y, n) && Shifted(half, x, n) == Shifted(half, y, n)
    ensures x == y
  {
    if n > 0 {
      var p, q := MachineBits(half, low, x, n), MachineBits(half, low, y, n);
      assert p[0] == low(x) && q[0] == low(y);
      assert p[1..] == MachineBits(half, low, half(x), n - 1) && q[1..] == MachineBits(half, low, half(y), n - 1);
      MachineInjective(half, low, half(x), half(y), n - 1);
    }
  }

  lemma {:induction false} MachineZero<M>(half: M -> M, low: M -> bool, z: M, n: nat)
    requires half(z) == z && !low(z)
    ensures Num(MachineBits(half, low, z, n)) == 0
  {
    if n > 0 {
      MachineZero(half, low, z, n - 1);
    }
  }

  // ------------------------------------------------------------------------------------------
  // The value, digit by digit.
  // ------------------------------------------------------------------------------------------

  function Bit(b: bool): nat {
    if b then 1 else 0
  }

  lemma MachineHead<M>(half: M -> M, low: M -> bool, x: M, n: nat)
    ensures Num(MachineBits(half, low, x, n + 1)) == Bit(low(x)) + 2 * Num(MachineBits(half, low, half(x), n))
  {}

  function Digit<M>(half: M -> M, low: M -> bool, x: M): nat {
    Bit(low(x)) + 2 * Bit(low(half(x))) + 4 * Bit(low(half(half(x)))) + 8 * Bit(low(half(half(half(x)))))
  }

  lemma MachineDigit<M>(half: M -> M, low: M -> bool, x: M, y: M, n: nat)
    requires y == half(half(half(half(x))))
    ensures Num(MachineBits(half, low, x, n + 4)) == Digit(half, low, x) + 16 * Num(MachineBits(half, low, y, n))
  {
    MachineHead(half, low, x, n + 3);
    MachineHead(half, low, half(x), n + 2);
    MachineHead(half, low, half(half(x)), n + 1);
    MachineHead(half, low, half(half(half(x))), n);
  }
}
