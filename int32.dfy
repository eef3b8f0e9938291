/** Java's 32-bit `int`/`Integer`: values and two's-complement wrap-around. */
module Int32 {
  const MIN: int := -0x8000_0000
  const MAX: int := 0x7fff_ffff
  const MODULUS: int := 0x1_0000_0000

  newtype int32 = x: int | -0x8000_0000 <= x < 0x8000_0000

  /** The `int` that Java's arithmetic yields for the exact result `x`. */
  function Wrap(x: int): (r: int32)
    ensures MIN <= x <= MAX ==> r as int == x
    ensures (r as int - x) % MODULUS == 0
  {
    (((x - MIN) % MODULUS) + MIN) as int32
  }

  /** Wrapping an intermediate result does not change the final wrapped result. */
  lemma {:induction false} WrapAdd(a: int, b: int)
    ensures Wrap(Wrap(a) as int + b) == Wrap(a + b)
  {
  }
}
