/** The few pieces of .NET semantics the core depends on: 32-bit signed
    integers with unchecked (wrapping) multiplication, C#'s truncating integer
    division, and `string.IsNullOrWhiteSpace`. */
module DotNet {
  import opened Wrappers

  const Int32Min: int := -0x8000_0000
  const Int32Max: int := 0x7fff_ffff

  /** C#'s `int`. */
  type Int32 = x: int | -0x8000_0000 <= x <= 0x7fff_ffff

  /** Reduces a mathematical integer to the `int` an unchecked C# context
      produces: the unique value in the `int` range congruent to `x` modulo 2^32. */
  function Wrap32(x: int): (r: Int32)
    ensures (x - r) % 0x1_0000_0000 == 0
    ensures Int32Min <= x <= Int32Max ==> r == x
  {
    (x + 0x8000_0000) % 0x1_0000_0000 - 0x8000_0000
  }

  /** The C# expression `a / 2` on integers: the quotient is truncated toward
      zero, so for a negative odd `a` it differs from Dafny's `a / 2`. */
  function HalfTowardZero(a: int): (r: int)
    ensures 0 <= a ==> 0 <= 2 * r <= a <= 2 * r + 1
    ensures a < 0 ==> 2 * r - 1 <= a <= 2 * r <= 0
  {
    if 0 <= a then a / 2 else -((-a) / 2)
  }

  /** `char.IsWhiteSpace`: the Unicode space, line and paragraph separators
      plus the control characters U+0009 to U+000D and U+0085. */
  predicate IsWhiteSpace(c: char) {
    || ('\U{0009}' <= c <= '\U{000D}')
    || c == '\U{0020}'
    || c == '\U{0085}'
    || c == '\U{00A0}'
    || c == '\U{1680}'
    || ('\U{2000}' <= c <= '\U{200A}')
    || c == '\U{2028}'
    || c == '\U{2029}'
    || c == '\U{202F}'
    || c == '\U{205F}'
    || c == '\U{3000}'
  }

  /** A string with no character other than white space (the empty string included). */
  predicate IsBlank(s: string) {
    forall i :: 0 <= i < |s| ==> IsWhiteSpace(s[i])
  }

  /** `string.IsNullOrWhiteSpace`. */
  predicate IsNullOrWhiteSpace(s: Option<string>) {
    s.None? || IsBlank(s.value)
  }
}
