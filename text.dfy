/** The part of Kotlin's string library the view model relies on: `isBlank`. */
module Text {

  /**
   * Kotlin's `Char.isWhitespace()` on the JVM: `Character.isWhitespace` or
   * `Character.isSpaceChar`, i.e. the ASCII controls TAB..CR and FS..US, and the
   * Unicode space, line and paragraph separators (including the no-break spaces).
   */
  predicate IsWhitespace(c: char)
  {
    var n := c as int;
    || (0x09 <= n <= 0x0D)
    || (0x1C <= n <= 0x20)
    || n == 0xA0
    || n == 0x1680
    || (0x2000 <= n <= 0x200A)
    || n == 0x2028 || n == 0x2029
    || n == 0x202F || n == 0x205F
    || n == 0x3000
  }

  /** `String.isBlank()`: empty, or made of whitespace only. */
  predicate IsBlank(s: string)
  {
    forall i :: 0 <= i < |s| ==> IsWhitespace(s[i])
  }

  /** What the guard lets through and what it drops, on the inputs the UI produces. */
  lemma BlankExamples()
    ensures IsBlank("") && IsBlank(" ") && IsBlank("\t \n") && IsBlank(" 　")
    ensures !IsBlank("hello") && !IsBlank("  x  ")
  {
    assert "hello"[0] == 'h';
    assert "  x  "[2] == 'x';
  }

}
