/**
 * Character classes behind Python's `str.isspace`, `str.isprintable` and
 * `str.isdigit`, as app.py relies on them.
 *
 * The classes are exact on Latin-1 (U+0000 to U+00FF). Beyond it they
 * list the Unicode whitespace characters, the controls, the format
 * characters of `IsOtherCategory`, the private-use areas and the digit
 * blocks of `IsDigit`; other unassigned code points, format characters and
 * digit blocks are not listed (see README).
 */
module Chars {

  /** Python `str.isspace` for one character (what `strip()` removes). */
  predicate IsWhitespace(c: char)
  {
    ('\t' <= c <= '\r') || ('\U{1C}' <= c <= ' ') || c == '\U{85}' || c == '\U{A0}'
    || c == '\U{1680}' || ('\U{2000}' <= c <= '\U{200A}') || c == '\U{2028}' || c == '\U{2029}'
    || c == '\U{202F}' || c == '\U{205F}' || c == '\U{3000}'
  }

  /**
   * Unicode general category C*: the controls, the format characters, the
   * private-use areas and the unassigned U+2065. Other unassigned code
   * points (also C*) are not listed.
   */
  predicate IsOtherCategory(c: char)
  {
    c <= '\U{1F}' || ('\U{7F}' <= c <= '\U{9F}') || c == '\U{AD}'
    || ('\U{600}' <= c <= '\U{605}') || c == '\U{61C}' || c == '\U{6DD}' || c == '\U{70F}'
    || ('\U{890}' <= c <= '\U{891}') || c == '\U{8E2}' || c == '\U{180E}'
    || ('\U{200B}' <= c <= '\U{200F}') || ('\U{202A}' <= c <= '\U{202E}')
    || ('\U{2060}' <= c <= '\U{206F}')
    || ('\U{E000}' <= c <= '\U{F8FF}') || c == '\U{FEFF}' || ('\U{FFF9}' <= c <= '\U{FFFB}')
    || c == '\U{110BD}' || c == '\U{110CD}' || ('\U{13430}' <= c <= '\U{1343F}') || ('\U{1BCA0}' <= c <= '\U{1BCA3}')
    || ('\U{1D173}' <= c <= '\U{1D17A}') || c == '\U{E0001}' || ('\U{E0020}' <= c <= '\U{E007F}')
    || c >= '\U{F0000}'
  }

  /** Unicode general category Z* (space, line and paragraph separators). */
  predicate IsSeparatorCategory(c: char)
  {
    c == ' ' || c == '\U{A0}' || c == '\U{1680}' || ('\U{2000}' <= c <= '\U{200A}')
    || c == '\U{2028}' || c == '\U{2029}' || c == '\U{202F}' || c == '\U{205F}' || c == '\U{3000}'
  }

  /** Python `str.isprintable` for one character: neither C* nor Z*, except the ASCII space. */
  predicate IsPrintable(c: char)
  {
    c == ' ' || (!IsOtherCategory(c) && !IsSeparatorCategory(c))
  }

  /** Python `str.isdigit` for one character (Numeric_Type Decimal or Digit). */
  predicate IsDigit(c: char)
  {
    ('0' <= c <= '9') || c == '\U{B2}' || c == '\U{B3}' || c == '\U{B9}'
    || ('\U{660}' <= c <= '\U{669}') || ('\U{6F0}' <= c <= '\U{6F9}')
    || ('\U{966}' <= c <= '\U{96F}') || c == '\U{2070}' || ('\U{2074}' <= c <= '\U{2079}')
    || ('\U{2080}' <= c <= '\U{2089}') || ('\U{2460}' <= c <= '\U{2468}')
    || ('\U{FF10}' <= c <= '\U{FF19}')
  }

  /** An ASCII decimal digit, as a spreadsheet writes it. */
  predicate IsAsciiDigit(c: char)
  {
    '0' <= c <= '9'
  }

  /** The only whitespace character that `isprintable` keeps is the ASCII space. */
  lemma WhitespaceIsSpaceOrNonPrintable(c: char)
    ensures IsWhitespace(c) ==> c == ' ' || !IsPrintable(c)
    ensures IsPrintable(c) && IsWhitespace(c) <==> c == ' '
  {
  }

  /** A digit is printable and is no whitespace. */
  lemma DigitIsPrintable(c: char)
    requires IsDigit(c)
    ensures IsPrintable(c) && !IsWhitespace(c)
  {
  }
}
