/** The blank-string test of Hutool's StrUtil, which decides whether a cached value is a hit. */
module StrUtil {
  import opened Wrappers

  /** CharUtil.isBlankChar: Java whitespace, the Unicode space separators, and the invisible
      characters Hutool adds to them (BOM, LRE, NUL, Hangul filler, Braille blank, Mongolian
      vowel separator). */
  predicate IsBlankChar(c: char)
  {
    var n := c as int;
    (0x09 <= n <= 0x0D) || (0x1C <= n <= 0x20) || n == 0xA0 || n == 0x1680
    || (0x2000 <= n <= 0x200A) || n == 0x2028 || n == 0x2029 || n == 0x202F
    || n == 0x205F || n == 0x3000 || n == 0xFEFF || n == 0x202A || n == 0x0000
    || n == 0x3164 || n == 0x2800 || n == 0x180E
  }

  /** StrUtil.isBlank on a non-null string: a scan that stops at the first visible character. */
  function IsBlank(s: string): (b: bool)
    ensures b <==> forall i | 0 <= i < |s| :: IsBlankChar(s[i])
  {
    |s| == 0 || (IsBlankChar(s[0]) && IsBlank(s[1..]))
  }

  /** StrUtil.isNotBlank: null counts as blank. */
  predicate IsNotBlank(s: Option<string>)
  {
    s.Some? && !IsBlank(s.value)
  }
}
