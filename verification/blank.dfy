/**
 * `StringUtils.isBlank` from Apache Commons Lang, which the listener uses
 * to skip empty records: a null string, the empty string and a string of
 * whitespace only are blank. Whitespace is `Character.isWhitespace`.
 */
module Blank {
  import opened Wrappers

  /**
   * `Character.isWhitespace`: the Unicode space, line and paragraph
   * separators except the non-breaking ones (U+00A0, U+2007, U+202F), and
   * the controls U+0009 to U+000D and U+001C to U+001F.
   */
  predicate IsWhitespace(c: char) {
    var n := c as int;
    || (0x09 <= n <= 0x0D) || (0x1C <= n <= 0x20)
    || n == 0x1680
    || (0x2000 <= n <= 0x2006) || (0x2008 <= n <= 0x200A)
    || n == 0x2028 || n == 0x2029 || n == 0x205F || n == 0x3000
  }

  predicate AllWhitespace(s: string) {
    forall i :: 0 <= i < |s| ==> IsWhitespace(s[i])
  }

  /** The specification of `isBlank`. */
  predicate IsBlank(cs: Option<string>) {
    cs.None? || AllWhitespace(cs.value)
  }

  /**
   * The library's algorithm: zero length is blank; otherwise scan for the
   * first non-whitespace character.
   */
  method IsBlankScan(cs: Option<string>) returns (blank: bool)
    ensures blank <==> IsBlank(cs)
    ensures cs == Some("") ==> blank
  {
    if cs.None? || |cs.value| == 0 {
      return true;
    }
    var s := cs.value;
    var i := 0;
    while i < |s|
      invariant 0 <= i <= |s|
      invariant forall j :: 0 <= j < i ==> IsWhitespace(s[j])
    {
      if !IsWhitespace(s[i]) {
        return false;
      }
      i := i + 1;
    }
    return true;
  }
}
