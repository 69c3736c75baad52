/**
 * `parse_bulk_numbers` (app.py): the "one number per line" text box of the
 * bulk-call screen. Invalid lines are dropped, valid ones are kept in input
 * order, duplicates included, each as its sanitised line (not its digits).
 */
module BulkParser {
  import opened Chars
  import opened Text
  import opened Wrappers
  import opened Sequences
  import opened PhoneValidation

  /** Printable characters and the three line-structure characters `\n`, `\r`, `\t`. */
  predicate KeptInText(c: char)
  {
    IsPrintable(c) || c == '\n' || c == '\r' || c == '\t'
  }

  /** The lines the parser walks: the cleaned, stripped text split on `\n`. */
  function Lines(text: string): (lines: seq<string>)
    ensures |lines| >= 1
  {
    Split(Strip(Filter(text, KeptInText)), '\n')
  }

  /** What one iteration of the loop keeps of `line`, if anything. */
  function KeepLine(line: string): Option<string>
  {
    var trimmed := Strip(line);
    if trimmed == [] then None
    else
      var cleanLine := SanitizeText(trimmed);
      if cleanLine != [] && ValidatePhoneNumber(cleanLine) then Some(cleanLine) else None
  }

  /** The numbers kept from `lines`, in order. */
  function KeptLines(lines: seq<string>): seq<string>
  {
    FilterMap(lines, KeepLine)
  }

  /** The lines rejoined with `\n` are the cleaned, stripped text: no text is lost. */
  lemma LinesCoverText(text: string)
    ensures Join(Lines(text), '\n') == Strip(Filter(text, KeptInText))
    ensures forall i :: 0 <= i < |Lines(text)| ==> '\n' !in Lines(text)[i]
  {
    JoinSplit(Strip(Filter(text, KeptInText)), '\n');
    SplitPiecesFree(Strip(Filter(text, KeptInText)), '\n');
  }

  /** A line is kept exactly when the raw line validates, and then as its sanitised form. */
  lemma KeepLineIffValid(line: string)
    ensures KeepLine(line).Some? <==> ValidatePhoneNumber(line)
    ensures KeepLine(line).Some? ==> KeepLine(line).value == StripPrintable(line)
  {
    ValidateStripped(line);
    ValidateSanitized(Strip(line));
  }

  /** Every kept number validates. */
  lemma KeptLinesValid(lines: seq<string>)
    ensures forall k :: 0 <= k < |KeptLines(lines)| ==> ValidatePhoneNumber(KeptLines(lines)[k])
  {
    forall line | KeepLine(line).Some? ensures ValidatePhoneNumber(KeepLine(line).value) {
      KeepLineIffValid(line);
      ValidateSanitized(Strip(line));
      ValidateStripped(line);
    }
    FilterMapAll(lines, KeepLine, ValidatePhoneNumber);
  }

  /**
   * The output is an order-preserving subsequence of the lines: the k-th
   * number is the sanitised form of a valid line `idx[k]`, the indices
   * increase, and every valid line appears (no de-duplication).
   */
  lemma KeptLinesSubsequence(lines: seq<string>) returns (idx: seq<nat>)
    ensures |idx| == |KeptLines(lines)|
    ensures forall k :: 0 <= k < |idx| ==>
      idx[k] < |lines| && ValidatePhoneNumber(lines[idx[k]]) && KeptLines(lines)[k] == StripPrintable(lines[idx[k]])
    ensures forall k, m :: 0 <= k < m < |idx| ==> idx[k] < idx[m]
    ensures forall j :: 0 <= j < |lines| && ValidatePhoneNumber(lines[j]) ==> j in idx
  {
    idx := Sources(lines, KeepLine);
    SourcesProduce(lines, KeepLine);
    SourcesIncrease(lines, KeepLine);
    SourcesComplete(lines, KeepLine);
    forall line ensures KeepLine(line).Some? <==> ValidatePhoneNumber(line) {
      KeepLineIffValid(line);
    }
    forall k | 0 <= k < |idx| ensures KeptLines(lines)[k] == StripPrintable(lines[idx[k]]) {
      KeepLineIffValid(lines[idx[k]]);
    }
  }

  /** Duplicate valid lines are all kept. */
  lemma KeptLinesKeepsDuplicates(line: string)
    requires ValidatePhoneNumber(line)
    ensures KeptLines([line, line]) == [StripPrintable(line), StripPrintable(line)]
  {
    KeepLineIffValid(line);
    assert [line][1..] == [];
    assert FilterMap([line], KeepLine) == [StripPrintable(line)];
    FilterMapConcat([line], [line], KeepLine);
    assert [line] + [line] == [line, line];
  }

  /**
   * A line that is already printable-only and trimmed comes back unchanged:
   * `+1 555-123-4567` is returned with its spaces and hyphens.
   */
  lemma KeptLineUnchanged(line: string)
    requires ValidatePhoneNumber(line)
    requires forall i :: 0 <= i < |line| ==> IsPrintable(line[i])
    requires line != [] ==> !IsWhitespace(line[0]) && !IsWhitespace(line[|line| - 1])
    ensures KeptLines([line]) == [line]
  {
    KeepLineIffValid(line);
    StripUnchanged(line);
    FilterKeepsAll(line, IsPrintable);
    assert [line][1..] == [];
  }

  /**
   * `parse_bulk_numbers(text)`: drop non-printables other than `\n`, `\r`,
   * `\t`, strip, split on `\n`, then run the line loop. The source's
   * `except Exception: return []` path cannot arise in the model.
   */
  method ParseBulkNumbers(text: string) returns (numbers: seq<string>)
    ensures numbers == KeptLines(Lines(text))
    ensures |numbers| <= |Lines(text)|
    ensures forall k :: 0 <= k < |numbers| ==> ValidatePhoneNumber(numbers[k])
  {
    var cleanText := Filter(text, KeptInText);
    var lines := Split(Strip(cleanText), '\n');
    numbers := CollectNumbers(lines);
    KeptLinesValid(lines);
  }

  /** The `for line in lines` loop of `parse_bulk_numbers`. */
  method CollectNumbers(lines: seq<string>) returns (numbers: seq<string>)
    ensures numbers == KeptLines(lines)
  {
    numbers := [];
    var i := 0;
    while i < |lines|
      invariant 0 <= i <= |lines|
      invariant numbers == KeptLines(lines[..i])
    {
      ghost var before := numbers;
      var line := Strip(lines[i]);
      if line != [] {
        var cleanLine := SanitizeText(line);
        if cleanLine != [] && ValidatePhoneNumber(cleanLine) {
          numbers := numbers + [cleanLine];
          assert KeepLine(lines[i]) == Some(cleanLine);
        } else {
          assert KeepLine(lines[i]) == None;
        }
      } else {
        assert KeepLine(lines[i]) == None;
      }
      assert numbers == before + Emit(KeepLine(lines[i]));
      FilterMapSnoc(lines, i, KeepLine);
      assert numbers == KeptLines(lines[..i + 1]);
      i := i + 1;
    }
    assert lines[..|lines|] == lines;
  }
}
