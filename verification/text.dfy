/** The string test the launcher applies to the configured media player:
    Apache Commons Lang's `StringUtils.isNotBlank`, which holds when the
    string has at least one character that `Character.isWhitespace` rejects.
 */
module Text {

  /** `Character.isWhitespace` as of Java 7 and 8 (Unicode 6.0 to 6.2): the
      space, line and paragraph separators except the three non-breaking
      ones (U+00A0, U+2007, U+202F), plus the ASCII controls U+0009 to
      U+000D and U+001C to U+001F. */
  predicate IsWhitespace(c: char)
  {
    || ('\t' <= c <= '\r')
    || ('\U{1C}' <= c <= '\U{1F}')
    || c == ' '
    || c == '\U{1680}'
    || c == '\U{180E}'
    || ('\U{2000}' <= c <= '\U{200A}' && c != '\U{2007}')
    || c == '\U{2028}'
    || c == '\U{2029}'
    || c == '\U{205F}'
    || c == '\U{3000}'
  }

  /** `StringUtils.isNotBlank`: some character is not whitespace. */
  predicate IsNotBlank(s: string)
  {
    exists i :: 0 <= i < |s| && !IsWhitespace(s[i])
  }
}
