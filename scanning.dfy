/**
 * What the program gets from `java.util.Scanner` on standard input.
 *
 * Every prompt of the program ends with `nextLine()`, which throws away the rest of
 * the line, so each prompt consumes exactly one line of input. A line is modelled by
 * its raw text (what `nextLine()` returns, used for the holder name) and by the kind
 * of its first token (what `nextInt()` and `nextDouble()` look at).
 */
module Scanning {
  import opened Wrappers

  /** Java's `int`: the menu choice and account numbers are 32-bit. */
  newtype int32 = x: int | -0x8000_0000 <= x < 0x8000_0000

  /** The first token of a line, as the scanner classifies it. */
  datatype Token =
    | IntToken(n: int)        // an integer literal of any size
    | DecimalToken(x: real)   // a decimal literal that is not an integer literal
    | OtherToken              // anything that is not a number

  /** One line of standard input. */
  datatype Line = Line(text: string, first: Token)

  /**
   * `nextInt()`: an integer literal within the range of `int`. Anything else raises
   * `InputMismatchException`, modelled as `None`.
   */
  function NextInt(line: Line): Option<int32>
  {
    match line.first
    case IntToken(n) => if -0x8000_0000 <= n < 0x8000_0000 then Some(n as int32) else None
    case _ => None
  }

  /** `nextDouble()`: any numeric literal; an integer literal reads as the same value. */
  function NextDouble(line: Line): Option<real>
  {
    match line.first
    case IntToken(n) => Some(n as real)
    case DecimalToken(x) => Some(x)
    case OtherToken => None
  }
}
