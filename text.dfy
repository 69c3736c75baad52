/**
 * The Python string operations that app.py chains together: filtering
 * characters (`''.join(c for c in s if ...)` and `replace(x, "")`),
 * `strip()`, `split(sep)`, `startswith` and `isdigit()`.
 *
 * The functions carry no quantified postconditions, so that using them
 * stays cheap; what they do is stated by the lemmas beside them.
 */
module Text {
  import opened Chars

  predicate AllWhitespace(s: string)
  {
    forall i :: 0 <= i < |s| ==> IsWhitespace(s[i])
  }

  /** Python `str.isdigit()`: false on the empty string. */
  predicate IsDigitString(s: string)
  {
    |s| > 0 && forall i :: 0 <= i < |s| ==> IsDigit(s[i])
  }

  /** Python `s.startswith(c)` for a one-character prefix. */
  predicate StartsWith(s: string, c: char)
  {
    |s| > 0 && s[0] == c
  }

  /** The characters of `s` that satisfy `keep`, in their original order. */
  function Filter(s: string, keep: char -> bool): (r: string)
    ensures |r| <= |s|
  {
    if s == [] then [] else (if keep(s[0]) then [s[0]] else []) + Filter(s[1..], keep)
  }

  /** Every character that survives the filter passes `keep`. */
  lemma {:induction false} FilterKept(s: string, keep: char -> bool)
    ensures forall i :: 0 <= i < |Filter(s, keep)| ==> keep(Filter(s, keep)[i])
  {
    if s != [] {
      FilterKept(s[1..], keep);
      var head := if keep(s[0]) then [s[0]] else [];
      var r := Filter(s[1..], keep);
      forall i | 0 <= i < |head + r| ensures keep((head + r)[i]) {
        if i >= |head| { assert (head + r)[i] == r[i - |head|]; }
      }
    }
  }

  /** Filtering keeps exactly the characters of `s` that pass `keep`. */
  lemma {:induction false} FilterMembers(s: string, keep: char -> bool)
    ensures forall c :: c in Filter(s, keep) <==> c in s && keep(c)
  {
    if s != [] {
      FilterMembers(s[1..], keep);
      assert s == [s[0]] + s[1..];
    }
  }

  /** Filtering distributes over concatenation, so it keeps relative order. */
  lemma {:induction false} FilterConcat(a: string, b: string, keep: char -> bool)
    ensures Filter(a + b, keep) == Filter(a, keep) + Filter(b, keep)
  {
    if a == [] {
      assert a + b == b;
    } else {
      var head := if keep(a[0]) then [a[0]] else [];
      assert (a + b)[0] == a[0];
      assert (a + b)[1..] == a[1..] + b;
      FilterConcat(a[1..], b, keep);
      assert Filter(a + b, keep) == head + (Filter(a[1..], keep) + Filter(b, keep));
      assert Filter(a, keep) == head + Filter(a[1..], keep);
    }
  }

  /** A string whose characters all pass `keep` is left unchanged. */
  lemma {:induction false} FilterKeepsAll(s: string, keep: char -> bool)
    requires forall i :: 0 <= i < |s| ==> keep(s[i])
    ensures Filter(s, keep) == s
  {
    if s != [] {
      FilterKeepsAll(s[1..], keep);
    }
  }

  /** A string none of whose characters pass `keep` filters to nothing. */
  lemma {:induction false} FilterDropsAll(s: string, keep: char -> bool)
    requires forall i :: 0 <= i < |s| ==> !keep(s[i])
    ensures Filter(s, keep) == []
  {
    if s != [] {
      FilterDropsAll(s[1..], keep);
    }
  }

  /** `''.join(c for c in s if c.isprintable())` */
  function KeepPrintable(s: string): string
  {
    Filter(s, IsPrintable)
  }

  /** Keeping the printable characters twice is keeping them once. */
  lemma KeepPrintableIdempotent(s: string)
    ensures KeepPrintable(KeepPrintable(s)) == KeepPrintable(s)
  {
    FilterKept(s, IsPrintable);
    FilterKeepsAll(KeepPrintable(s), IsPrintable);
  }

  /** `s.replace(d1, "").replace(d2, "")...` for every `d` in `drop`. */
  function RemoveChars(s: string, drop: set<char>): string
  {
    Filter(s, c => c !in drop)
  }

  /** Removal keeps exactly the characters not in `drop`. */
  lemma RemoveCharsMembers(s: string, drop: set<char>)
    ensures forall c :: c in RemoveChars(s, drop) <==> c in s && c !in drop
  {
    FilterMembers(s, c => c !in drop);
  }

  /** Removal distributes over concatenation. */
  lemma RemoveCharsConcat(a: string, b: string, drop: set<char>)
    ensures RemoveChars(a + b, drop) == RemoveChars(a, drop) + RemoveChars(b, drop)
  {
    FilterConcat(a, b, c => c !in drop);
  }

  /** A string with none of `drop` in it is left alone. */
  lemma RemoveCharsNone(s: string, drop: set<char>)
    requires forall i :: 0 <= i < |s| ==> s[i] !in drop
    ensures RemoveChars(s, drop) == s
  {
    FilterKeepsAll(s, c => c !in drop);
  }

  /** A string made only of `drop` characters leaves nothing. */
  lemma RemoveCharsAll(s: string, drop: set<char>)
    requires forall i :: 0 <= i < |s| ==> s[i] in drop
    ensures RemoveChars(s, drop) == []
  {
    FilterDropsAll(s, c => c !in drop);
  }

  /** `s.lstrip()` */
  function TrimStart(s: string): string
  {
    if s != [] && IsWhitespace(s[0]) then TrimStart(s[1..]) else s
  }

  /** `lstrip()` drops the leading whitespace and nothing else. */
  lemma {:induction false} TrimStartParts(s: string)
    ensures |TrimStart(s)| <= |s| && TrimStart(s) == s[|s| - |TrimStart(s)|..]
    ensures AllWhitespace(s[..|s| - |TrimStart(s)|])
    ensures TrimStart(s) != [] ==> !IsWhitespace(TrimStart(s)[0])
  {
    if s != [] && IsWhitespace(s[0]) {
      TrimStartParts(s[1..]);
      var n := |s| - |TrimStart(s)|;
      assert s[..n] == [s[0]] + s[1..][..n - 1];
    }
  }

  /** `s.rstrip()` */
  function TrimEnd(s: string): string
  {
    if s != [] && IsWhitespace(s[|s| - 1]) then TrimEnd(s[..|s| - 1]) else s
  }

  /** `rstrip()` drops the trailing whitespace and nothing else. */
  lemma {:induction false} TrimEndParts(s: string)
    ensures |TrimEnd(s)| <= |s| && TrimEnd(s) == s[..|TrimEnd(s)|]
    ensures AllWhitespace(s[|TrimEnd(s)|..])
    ensures TrimEnd(s) != [] ==> !IsWhitespace(TrimEnd(s)[|TrimEnd(s)| - 1])
  {
    if s != [] && IsWhitespace(s[|s| - 1]) {
      var init := s[..|s| - 1];
      TrimEndParts(init);
      var n := |TrimEnd(s)|;
      assert s[n..] == init[n..] + [s[|s| - 1]];
    }
  }

  /** Python `s.strip()`. */
  function Strip(s: string): string
  {
    TrimEnd(TrimStart(s))
  }

  /** `strip()` only removes whitespace, from the two ends, and leaves none there. */
  lemma StripParts(s: string) returns (lead: string, trail: string)
    ensures s == lead + Strip(s) + trail
    ensures AllWhitespace(lead) && AllWhitespace(trail)
    ensures Strip(s) != [] ==> !IsWhitespace(Strip(s)[0]) && !IsWhitespace(Strip(s)[|Strip(s)| - 1])
  {
    var t := TrimStart(s);
    TrimStartParts(s);
    TrimEndParts(t);
    lead := s[..|s| - |t|];
    trail := t[|TrimEnd(t)|..];
    assert t == TrimEnd(t) + trail;
    assert s == lead + t;
  }

  /** `strip()` keeps every non-whitespace character and adds none. */
  lemma StripMembers(s: string)
    ensures forall c :: c in Strip(s) ==> c in s
    ensures forall c :: c in s && !IsWhitespace(c) ==> c in Strip(s)
  {
    var lead, trail := StripParts(s);
    assert forall i :: 0 <= i < |lead| ==> s[i] == lead[i];
    assert forall i :: |lead| <= i < |lead| + |Strip(s)| ==> s[i] == Strip(s)[i - |lead|];
    assert forall i :: |lead| + |Strip(s)| <= i < |s| ==> s[i] == trail[i - |lead| - |Strip(s)|];
  }

  /** A string with no whitespace at either end is its own `strip()`. */
  lemma StripUnchanged(s: string)
    requires s != [] ==> !IsWhitespace(s[0]) && !IsWhitespace(s[|s| - 1])
    ensures Strip(s) == s
  {
  }

  /** `strip()` is idempotent. */
  lemma StripIdempotent(s: string)
    ensures Strip(Strip(s)) == Strip(s)
  {
    var _, _ := StripParts(s);
    StripUnchanged(Strip(s));
  }

  /** `''.join(c for c in s if c.isprintable()).strip()` */
  function SanitizeText(s: string): string
  {
    Strip(KeepPrintable(s))
  }

  /** Sanitised text is printable-only and has no whitespace at either end. */
  lemma SanitizeTextClean(v: string)
    ensures forall i :: 0 <= i < |SanitizeText(v)| ==> IsPrintable(SanitizeText(v)[i])
    ensures SanitizeText(v) != [] ==>
      !IsWhitespace(SanitizeText(v)[0]) && !IsWhitespace(SanitizeText(v)[|SanitizeText(v)| - 1])
  {
    var p := KeepPrintable(v);
    FilterKept(v, IsPrintable);
    var lead, trail := StripParts(p);
    forall i | 0 <= i < |Strip(p)| ensures IsPrintable(Strip(p)[i]) {
      assert Strip(p)[i] == p[|lead| + i];
    }
  }

  /** Sanitising twice is sanitising once. */
  lemma SanitizeTextIdempotent(v: string)
    ensures SanitizeText(SanitizeText(v)) == SanitizeText(v)
  {
    SanitizeTextClean(v);
    FilterKeepsAll(SanitizeText(v), IsPrintable);
    StripUnchanged(SanitizeText(v));
  }

  /** `''.join(c for c in s.strip() if c.isprintable()).strip()`, as lines and CSV cells are cleaned. */
  function StripPrintable(s: string): string
  {
    SanitizeText(Strip(s))
  }

  /** Python `s.split(sep)`: always at least one piece. */
  function Split(s: string, sep: char): (parts: seq<string>)
    ensures |parts| >= 1
  {
    if s == [] then [[]]
    else
      var rest := Split(s[1..], sep);
      if s[0] == sep then [[]] + rest else [[s[0]] + rest[0]] + rest[1..]
  }

  /** No piece of a split holds the separator. */
  lemma {:induction false} SplitPiecesFree(s: string, sep: char)
    ensures forall i :: 0 <= i < |Split(s, sep)| ==> sep !in Split(s, sep)[i]
  {
    if s != [] {
      SplitPiecesFree(s[1..], sep);
      var rest := Split(s[1..], sep);
      if s[0] != sep {
        var parts := Split(s, sep);
        forall i | 0 <= i < |parts| ensures sep !in parts[i] {
          if i > 0 { assert parts[i] == rest[i]; }
        }
      }
    }
  }

  /** Python `sep.join(parts)`. */
  function Join(parts: seq<string>, sep: char): string
    requires |parts| >= 1
  {
    if |parts| == 1 then parts[0] else parts[0] + [sep] + Join(parts[1..], sep)
  }

  /** Joining the pieces of a split gives back the original text. */
  lemma {:induction false} JoinSplit(s: string, sep: char)
    ensures Join(Split(s, sep), sep) == s
  {
    if s != [] {
      var rest := Split(s[1..], sep);
      JoinSplit(s[1..], sep);
      if s[0] == sep {
        assert Split(s, sep)[1..] == rest;
      } else {
        var parts := Split(s, sep);
        assert parts[1..] == rest[1..];
        if |rest| == 1 {
          assert Join(parts, sep) == [s[0]] + rest[0];
        } else {
          assert Join(rest, sep) == rest[0] + [sep] + Join(rest[1..], sep);
        }
        assert s == [s[0]] + s[1..];
      }
    }
  }

  /** Splitting joined pieces that do not contain the separator gives the pieces back. */
  lemma {:induction false} SplitJoin(parts: seq<string>, sep: char)
    requires |parts| >= 1
    requires forall i :: 0 <= i < |parts| ==> sep !in parts[i]
    ensures Split(Join(parts, sep), sep) == parts
  {
    if |parts| == 1 {
      SplitNoSeparator(parts[0], sep);
    } else {
      SplitJoin(parts[1..], sep);
      SplitPrefix(parts[0], Join(parts[1..], sep), sep);
      assert parts == [parts[0]] + parts[1..];
    }
  }

  lemma {:induction false} SplitNoSeparator(s: string, sep: char)
    requires sep !in s
    ensures Split(s, sep) == [s]
  {
    if s != [] {
      SplitNoSeparator(s[1..], sep);
      assert s == [s[0]] + s[1..];
    }
  }

  /** `(p + sep + t).split(sep)` is `[p] + t.split(sep)` when `p` holds no `sep`. */
  lemma {:induction false} SplitPrefix(p: string, t: string, sep: char)
    requires sep !in p
    ensures Split(p + [sep] + t, sep) == [p] + Split(t, sep)
  {
    if p == [] {
      assert ([] + [sep] + t)[1..] == t;
    } else {
      assert (p + [sep] + t)[1..] == p[1..] + [sep] + t;
      SplitPrefix(p[1..], t, sep);
      assert p == [p[0]] + p[1..];
    }
  }
}
