/** Java integer semantics the interpolators depend on: 32-bit wrap-around of
    `chunk << 4`, division and remainder that truncate toward zero, and the
    ArrayIndexOutOfBoundsException a bad lattice index raises. */
module Java {

  const INT_MIN: int := -0x8000_0000
  const INT_MAX: int := 0x7fff_ffff
  const TWO_32: int := 0x1_0000_0000

  /** v fits in a Java `int` */
  predicate IsInt(v: int) {
    INT_MIN <= v <= INT_MAX
  }

  /** Two's-complement wrap-around of an unbounded integer to a Java `int` */
  function Wrap(v: int): (r: int)
    ensures IsInt(r)
    ensures (v - r) % TWO_32 == 0
    ensures IsInt(v) ==> r == v
  {
    (v - INT_MIN) % TWO_32 + INT_MIN
  }

  /** `c << 4` on a Java `int`: sixteen times c, wrapped to 32 bits */
  function ShiftLeft4(c: int): (r: int)
    requires IsInt(c)
    ensures IsInt(r)
    ensures r % 16 == 0
    ensures (16 * c - r) % TWO_32 == 0
    ensures -0x800_0000 <= c < 0x800_0000 ==> r == 16 * c
  {
    var r := Wrap(16 * c);
    assert 16 * c - r == TWO_32 * ((16 * c - r) / TWO_32);
    r
  }

  /** The shift overflows for the first chunk past 2^27: a positive chunk
      gets the most negative origin. */
  lemma ShiftLeft4Overflows()
    ensures ShiftLeft4(0x800_0000) == INT_MIN
  {
  }

  /** Java's `a / 4`: the quotient truncated toward zero */
  function Div4(a: int): (q: int)
    ensures 0 <= a ==> 0 <= 4 * q <= a < 4 * q + 4
    ensures a < 0 ==> 4 * q - 4 < a <= 4 * q <= 0
  {
    if a >= 0 then a / 4 else -((-a) / 4)
  }

  /** Java's `a % 4`: the remainder takes the sign of a */
  function Rem4(a: int): (r: int)
    ensures a == 4 * Div4(a) + r
    ensures 0 <= a ==> 0 <= r < 4
    ensures a < 0 ==> -4 < r <= 0
  {
    a - 4 * Div4(a)
  }

  /** Result of an array access: the element, or the exception Java raises */
  datatype Outcome<+T> = Ok(value: T) | ArrayIndexOutOfBounds
}
