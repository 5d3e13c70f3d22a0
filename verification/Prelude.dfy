/** Small shared vocabulary: optional values, real arithmetic helpers and the
    two tolerances the accounting code compares against. */
module Prelude {

  datatype Option<+T> = None | Some(value: T)

  /** Residue below which a position or an order counts as complete. */
  const DUST: real := 0.000000000001

  /** Slack allowed when cash is compared with a cost or a limit. */
  const CASH_SLACK: real := 0.000000001

  function Abs(x: real): real {
    if x < 0.0 then -x else x
  }

  function Max(x: real, y: real): real {
    if x < y then y else x
  }

  function Min(x: real, y: real): real {
    if y < x then y else x
  }

  function MinInt(x: int, y: int): int {
    if y < x then y else x
  }

  function MaxInt(x: int, y: int): int {
    if x < y then y else x
  }

  /** The characters that trimming a text removes. */
  predicate IsSpace(c: char) {
    var n := c as int;
    9 <= n <= 13 || 28 <= n <= 32 || n == 0x85 || n == 0xA0 || n == 0x1680 || 0x2000 <= n <= 0x200A
    || n == 0x2028 || n == 0x2029 || n == 0x202F || n == 0x205F || n == 0x3000
  }

  /** Nothing but white space. */
  predicate Blank(text: string) {
    forall i :: 0 <= i < |text| ==> IsSpace(text[i])
  }

  lemma NonNegativeProduct(x: real, y: real)
    requires 0.0 <= x && 0.0 <= y
    ensures 0.0 <= x * y
  {
  }

  lemma ScaleLeq(x: real, y: real, n: real)
    requires x <= y && 0.0 <= n
    ensures x * n <= y * n
  {
  }
}
