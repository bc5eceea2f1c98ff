/** Java `int` arithmetic: 32-bit two's complement with silent wrap-around. */
module JavaInt {

  const Modulus: int := 0x1_0000_0000

  type int32 = x: int | -0x8000_0000 <= x < 0x8000_0000

  /** The `int` that Java holds after an arithmetic result `x` overflows. */
  function Wrap(x: int): (r: int32)
    ensures (x - r) % Modulus == 0
    ensures -0x8000_0000 <= x < 0x8000_0000 ==> r == x
  {
    (x + 0x8000_0000) % Modulus - 0x8000_0000
  }

  /** Java `a + b` on two `int`s. */
  function Add(a: int32, b: int32): int32 { Wrap(a + b) }

  /** Java `a * b` on two `int`s. */
  function Mul(a: int32, b: int32): int32 { Wrap(a * b) }

  /** Adding a multiple of 2^32 does not change the wrapped value. */
  lemma WrapShift(x: int, k: int)
    ensures Wrap(x + k * Modulus) == Wrap(x)
  {
    var y := x + 0x8000_0000;
    assert (y + k * Modulus) % Modulus == y % Modulus;
  }

  /** Two integers closer than 2^32 but distinct wrap to distinct `int`s. */
  lemma {:induction false} WrapSeparates(x: int, y: int)
    requires x != y && -Modulus < x - y < Modulus
    ensures Wrap(x) != Wrap(y)
  {
    var k := (x - Wrap(x)) / Modulus;
    var l := (y - Wrap(y)) / Modulus;
    assert x - y == (k - l) * Modulus + (Wrap(x) - Wrap(y));
    if k != l {
      assert (k - l) * Modulus >= Modulus || (k - l) * Modulus <= -Modulus;
    }
  }

  /** Wrapping an operand early gives the same result as wrapping once at the end. */
  lemma {:induction false} WrapAbsorbs(x: int, y: int)
    ensures Wrap(x + Wrap(y)) == Wrap(x + y)
    ensures Wrap(Wrap(y) + x) == Wrap(y + x)
  {
    var k := (y - Wrap(y)) / Modulus;
    assert Wrap(y) == y - k * Modulus;
    WrapShift(x + y, -k);
    assert x + Wrap(y) == x + y + (-k) * Modulus;
  }

  /** Wrapping a factor early gives the same product modulo 2^32. */
  lemma {:induction false} WrapAbsorbsFactor(x: int, c: int)
    ensures Wrap(Wrap(x) * c) == Wrap(x * c)
  {
    var k := (x - Wrap(x)) / Modulus;
    assert Wrap(x) == x - k * Modulus;
    assert Wrap(x) * c == x * c + (-k * c) * Modulus;
    WrapShift(x * c, -k * c);
  }

  /** One step of the generated `hash += hash * 31 + h` in Java `int`s is
      `hash * 32 + h` modulo 2^32. */
  lemma {:induction false} HashStep(hash: int32, h: int32)
    ensures Add(hash, Add(Mul(hash, 31), h)) == Wrap(hash * 32 + h)
  {
    WrapAbsorbs(h, hash * 31);
    assert Add(Mul(hash, 31), h) == Wrap(hash * 31 + h);
    WrapAbsorbs(hash, hash * 31 + h);
  }
}
