/** The two questions the input field's classifier asks of its current value:
    Kotlin's CharSequence.isBlank and CharSequence.isNotBlank, over
    Kotlin's (JVM) Char.isWhitespace. */
module KotlinText {

  /** Kotlin's Char.isWhitespace on the JVM: Java's Character.isWhitespace or
      Character.isSpaceChar. That is the ASCII controls TAB, LF, VT, FF, CR and
      the four separators U+001C..U+001F, plus every character of the Unicode
      space, line and paragraph separator categories (the no-break spaces
      included). */
  predicate IsWhitespace(c: char) {
    || ('\t' <= c <= '\r')
    || ('\U{1C}' <= c <= ' ')
    || c == '\U{A0}'
    || c == '\U{1680}'
    || ('\U{2000}' <= c <= '\U{200A}')
    || c == '\U{2028}'
    || c == '\U{2029}'
    || c == '\U{202F}'
    || c == '\U{205F}'
    || c == '\U{3000}'
  }

  /** CharSequence.isBlank: the value is empty or holds only whitespace.
      Like Kotlin's implementation it scans from the front and stops at the
      first character that is not whitespace. */
  function IsBlank(s: string): (b: bool)
    ensures b <==> forall i :: 0 <= i < |s| ==> IsWhitespace(s[i])
  {
    |s| == 0 || (IsWhitespace(s[0]) && IsBlank(s[1..]))
  }

  /** CharSequence.isNotBlank, which Kotlin defines as the negation of isBlank:
      the value holds at least one character that is not whitespace. */
  function IsNotBlank(s: string): (b: bool)
    ensures b <==> exists i :: 0 <= i < |s| && !IsWhitespace(s[i])
  {
    !IsBlank(s)
  }
}
