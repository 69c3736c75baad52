/**
 * `validate_phone_number` (app.py): the accept/reject rule every number
 * passes before it is sent, in the single-call, bulk-text and CSV paths.
 */
module PhoneValidation {
  import opened Chars
  import opened Text

  /** The formatting characters the validator deletes: space, `-`, `(`, `)` and `.`. */
  const FormattingChars: set<char> := {' ', '-', '(', ')', '.'}

  /** The shortest and longest accepted cleaned number, the `+` included. */
  const MinLength := 10
  const MaxLength := 18

  /** Non-printable and formatting characters removed, with no `strip()` first. */
  function Unformatted(s: string): string
  {
    RemoveChars(KeepPrintable(s), FormattingChars)
  }

  /** What survives cleaning is printable, and neither formatting nor whitespace. */
  lemma UnformattedChars(s: string)
    ensures forall i :: 0 <= i < |Unformatted(s)| ==>
      IsPrintable(Unformatted(s)[i]) && Unformatted(s)[i] !in FormattingChars && !IsWhitespace(Unformatted(s)[i])
  {
    var p := KeepPrintable(s);
    var r := Unformatted(s);
    FilterKept(s, IsPrintable);
    FilterKept(p, c => c !in FormattingChars);
    FilterMembers(p, c => c !in FormattingChars);
    forall i | 0 <= i < |r| ensures IsPrintable(r[i]) && r[i] !in FormattingChars && !IsWhitespace(r[i]) {
      assert r[i] in p;
      WhitespaceIsSpaceOrNonPrintable(r[i]);
    }
  }

  /** The string the validator inspects: stripped, printable-only, formatting removed. */
  function CleanPhone(phone: string): string
  {
    RemoveChars(KeepPrintable(Strip(phone)), FormattingChars)
  }

  /** The accepted shape: `+` then digits only, 10 to 18 characters in all. */
  predicate IsAcceptedShape(t: string)
  {
    StartsWith(t, '+') && MinLength <= |t| <= MaxLength && IsDigitString(t[1..])
  }

  /**
   * `validate_phone_number(phone)`. Total: every string gets an answer,
   * so the source's `except Exception: return False` path never arises.
   */
  predicate ValidatePhoneNumber(phone: string)
  {
    IsAcceptedShape(CleanPhone(phone))
  }

  /** An accepted cleaned number holds nothing but its leading `+` and digits. */
  lemma AcceptedShapeChars(t: string)
    ensures IsAcceptedShape(t) ==> forall c :: c in t ==> c == '+' || IsDigit(c)
  {
    if IsAcceptedShape(t) {
      forall c | c in t ensures c == '+' || IsDigit(c) {
        var j :| 0 <= j < |t| && t[j] == c;
        if j > 0 {
          assert t[1..][j - 1] == c;
        }
      }
    }
  }

  /** `Unformatted` distributes over concatenation. */
  lemma UnformattedConcat(a: string, b: string)
    ensures Unformatted(a + b) == Unformatted(a) + Unformatted(b)
  {
    FilterConcat(a, b, IsPrintable);
    FilterConcat(KeepPrintable(a), KeepPrintable(b), c => c !in FormattingChars);
  }

  /** Whitespace leaves nothing behind once non-printables and spaces are gone. */
  lemma UnformattedWhitespace(w: string)
    requires AllWhitespace(w)
    ensures Unformatted(w) == []
  {
    var p := KeepPrintable(w);
    FilterKept(w, IsPrintable);
    FilterMembers(w, IsPrintable);
    forall i | 0 <= i < |p| ensures p[i] in FormattingChars {
      assert p[i] in w;
      WhitespaceIsSpaceOrNonPrintable(p[i]);
    }
    FilterDropsAll(p, c => c !in FormattingChars);
  }

  /** The validator's leading `strip()` never changes what it inspects. */
  lemma CleanPhoneIgnoresStrip(s: string)
    ensures CleanPhone(s) == Unformatted(s)
  {
    var lead, trail := StripParts(s);
    UnformattedConcat(lead + Strip(s), trail);
    UnformattedConcat(lead, Strip(s));
    UnformattedWhitespace(lead);
    UnformattedWhitespace(trail);
  }

  /** A string with nothing the validator removes is its own cleaned form. */
  lemma UnformattedFixed(t: string)
    requires forall i :: 0 <= i < |t| ==> IsPrintable(t[i]) && t[i] !in FormattingChars
    ensures Unformatted(t) == t
  {
    FilterKeepsAll(t, IsPrintable);
    FilterKeepsAll(t, c => c !in FormattingChars);
  }

  /** Cleaning is idempotent. */
  lemma CleanPhoneIdempotent(s: string)
    ensures CleanPhone(CleanPhone(s)) == CleanPhone(s)
  {
    CleanPhoneIgnoresStrip(s);
    CleanPhoneIgnoresStrip(CleanPhone(s));
    UnformattedChars(s);
    UnformattedFixed(Unformatted(s));
  }

  /** A number validates exactly when its cleaned form does. */
  lemma ValidateCleanPhone(s: string)
    ensures ValidatePhoneNumber(CleanPhone(s)) == ValidatePhoneNumber(s)
  {
    CleanPhoneIdempotent(s);
  }

  /** The verdict depends only on the `Unformatted` form. */
  lemma ValidateByUnformatted(s: string, t: string)
    requires Unformatted(s) == Unformatted(t)
    ensures ValidatePhoneNumber(s) == ValidatePhoneNumber(t)
  {
    CleanPhoneIgnoresStrip(s);
    CleanPhoneIgnoresStrip(t);
  }

  /** A single formatting, whitespace or non-printable character leaves nothing behind. */
  lemma UnformattedNoise(c: char)
    requires c in FormattingChars || IsWhitespace(c) || !IsPrintable(c)
    ensures Unformatted([c]) == []
  {
    if IsWhitespace(c) {
      UnformattedWhitespace([c]);
    } else if !IsPrintable(c) {
      FilterDropsAll([c], IsPrintable);
      FilterDropsAll([], x => x !in FormattingChars);
    } else {
      FilterKeepsAll([c], IsPrintable);
      FilterDropsAll([c], x => x !in FormattingChars);
    }
  }

  /**
   * Inserting one formatting, whitespace or non-printable character anywhere
   * never changes the verdict.
   */
  lemma ValidateIgnoresNoise(a: string, c: char, b: string)
    requires c in FormattingChars || IsWhitespace(c) || !IsPrintable(c)
    ensures ValidatePhoneNumber(a + [c] + b) == ValidatePhoneNumber(a + b)
  {
    UnformattedIgnoresNoise(a, c, b);
    ValidateByUnformatted(a + [c] + b, a + b);
  }

  lemma UnformattedIgnoresNoise(a: string, c: char, b: string)
    requires c in FormattingChars || IsWhitespace(c) || !IsPrintable(c)
    ensures Unformatted(a + [c] + b) == Unformatted(a + b)
  {
    UnformattedConcat(a + [c], b);
    UnformattedConcat(a, [c]);
    UnformattedConcat(a, b);
    UnformattedNoise(c);
    assert Unformatted(a) + [] == Unformatted(a);
  }

  /** A validated number always has printable, non-whitespace content after `strip()`. */
  lemma ValidStripNonEmpty(s: string)
    requires ValidatePhoneNumber(s)
    ensures Strip(s) != [] && !IsWhitespace(Strip(s)[0])
  {
    var _, _ := StripParts(s);
  }

  /** `+` followed by 9 to 17 digits validates, and is its own cleaned form. */
  lemma ValidateDigits(d: string)
    requires IsDigitString(d) && MinLength - 1 <= |d| <= MaxLength - 1
    ensures ValidatePhoneNumber("+" + d)
    ensures CleanPhone("+" + d) == "+" + d
  {
    var t := "+" + d;
    forall i | 0 <= i < |t| ensures IsPrintable(t[i]) && t[i] !in FormattingChars && !IsWhitespace(t[i]) {
      if i > 0 { assert t[i] == d[i - 1]; DigitIsPrintable(d[i - 1]); }
    }
    StripUnchanged(t);
    UnformattedFixed(t);
    CleanPhoneIgnoresStrip(t);
    assert t[1..] == d;
  }

  /** A run of noise characters leaves nothing behind. */
  lemma {:induction false} UnformattedNoiseRun(w: string)
    requires forall i :: 0 <= i < |w| ==> w[i] in FormattingChars || IsWhitespace(w[i]) || !IsPrintable(w[i])
    ensures Unformatted(w) == []
  {
    if w != [] {
      UnformattedNoiseRun(w[1..]);
      UnformattedNoise(w[0]);
      assert w == [w[0]] + w[1..];
      UnformattedConcat([w[0]], w[1..]);
    }
  }

  /** A string with no `+` anywhere is rejected. */
  lemma NoPlusRejected(s: string)
    requires '+' !in s
    ensures !ValidatePhoneNumber(s)
  {
    CleanPhoneIgnoresStrip(s);
    FilterMembers(s, IsPrintable);
    FilterMembers(KeepPrintable(s), c => c !in FormattingChars);
    assert '+' !in Unformatted(s);
  }

  /** Fewer than 10 characters in all can never validate. */
  lemma TooShortRejected(s: string)
    requires |s| < MinLength
    ensures !ValidatePhoneNumber(s)
  {
    var _, _ := StripParts(s);
  }

  /** Dropping non-printable characters changes nothing the validator looks at. */
  lemma UnformattedKeepPrintable(s: string)
    ensures Unformatted(KeepPrintable(s)) == Unformatted(s)
  {
    KeepPrintableIdempotent(s);
  }

  /**
   * Sanitising a value as the call payload and the bulk parser do
   * (non-printables dropped, then `strip()`) never changes its verdict.
   */
  lemma ValidateSanitized(s: string)
    ensures ValidatePhoneNumber(SanitizeText(s)) == ValidatePhoneNumber(s)
  {
    CleanPhoneIgnoresStrip(KeepPrintable(s));
    CleanPhoneIgnoresStrip(SanitizeText(s));
    UnformattedKeepPrintable(s);
    ValidateByUnformatted(SanitizeText(s), s);
  }

  /** `strip()` never changes the verdict. */
  lemma ValidateStripped(s: string)
    ensures ValidatePhoneNumber(Strip(s)) == ValidatePhoneNumber(s)
  {
    CleanPhoneIgnoresStrip(s);
    CleanPhoneIgnoresStrip(Strip(s));
    ValidateByUnformatted(Strip(s), s);
  }
}
