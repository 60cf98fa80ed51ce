/** Go's fixed-width integers and its truncating integer division. Dafny's
    `/` and `%` are Euclidean, so Go's `/` and `%` are written out here. */
module GoInt {

  type byte = bv8

  type int64 = x: int | -0x8000_0000_0000_0000 <= x < 0x8000_0000_0000_0000

  type uint64 = x: int | 0 <= x < 0x1_0000_0000_0000_0000

  const Modulus64: int := 0x1_0000_0000_0000_0000

  /** Two's-complement wrap-around of a 64-bit signed result. */
  function Wrap64(x: int): (r: int64)
    ensures -0x8000_0000_0000_0000 <= x < 0x8000_0000_0000_0000 ==> r == x
    ensures (x - r) % Modulus64 == 0
  {
    var m := x % Modulus64;
    if m < 0x8000_0000_0000_0000 then m else m - Modulus64
  }

  /** Go's `a / b`: the quotient rounded toward zero. */
  function Quot(a: int, b: int): int
    requires b != 0
  {
    if (a >= 0) == (b > 0) then (if a >= 0 then a / b else (-a) / (-b))
    else -((if a >= 0 then a else -a) / (if b > 0 then b else -b))
  }

  /** Go's `a % b`: the remainder that goes with `Quot`, carrying the sign of `a`. */
  function Rem(a: int, b: int): int
    requires b != 0
  {
    a - Quot(a, b) * b
  }

  /** Truncating division splits `a` exactly, with a remainder smaller than the
      divisor and of the dividend's sign. */
  lemma QuotRem(a: int, b: int)
    requires b > 0
    ensures Quot(a, b) * b + Rem(a, b) == a
    ensures a >= 0 ==> 0 <= Rem(a, b) < b && Quot(a, b) == a / b
    ensures a < 0 ==> -b < Rem(a, b) <= 0
  {
    if a < 0 {
      var q := (-a) / b;
      assert Quot(a, b) == -q;
      assert -a == q * b + (-a) % b;
    }
  }
}
