/**
 * The CSV branch of the bulk-call screen (app.py, `main`): pick the phone
 * column, then coerce and validate every non-empty cell of it. Cells are
 * modelled as the strings pandas renders them to (`str(phone)`), with
 * `None` for a missing value.
 */
module CsvImport {
  import opened Chars
  import opened Text
  import opened Wrappers
  import opened Sequences
  import opened PhoneValidation

  /** The column names tried, in order; the match is exact (case-sensitive). */
  const PhoneColumnCandidates: seq<string> := ["phone", "number", "phone_number", "Phone", "Number"]

  /** A parsed CSV file: its column names and, per column, its rendered cells. */
  datatype CsvTable = CsvTable(columns: seq<string>, cells: map<string, seq<Option<string>>>)

  datatype ImportError = MissingColumn

  /** Every column of the table has its cells. */
  predicate WellFormed(t: CsvTable)
  {
    forall c :: c in t.columns ==> c in t.cells
  }

  /** The first of `candidates` that is one of `columns`, if any. */
  function FirstPresent(candidates: seq<string>, columns: seq<string>): (col: Option<string>)
    ensures col.None? <==> forall i :: 0 <= i < |candidates| ==> candidates[i] !in columns
    ensures col.Some? ==> col.value in columns && col.value in candidates
  {
    if candidates == [] then None
    else if candidates[0] in columns then Some(candidates[0])
    else FirstPresent(candidates[1..], columns)
  }

  /** The chosen column is preceded only by candidates that are absent. */
  lemma {:induction false} FirstPresentIsFirst(candidates: seq<string>, columns: seq<string>, i: nat)
    requires i < |candidates| && FirstPresent(candidates, columns) == Some(candidates[i])
    requires forall j, k :: 0 <= j < k < |candidates| ==> candidates[j] != candidates[k]
    ensures forall j :: 0 <= j < i ==> candidates[j] !in columns
  {
    if i > 0 {
      assert candidates[0] != candidates[i];
      FirstPresentIsFirst(candidates[1..], columns, i - 1);
      forall j | 0 <= j < i ensures candidates[j] !in columns {
        if j > 0 { assert candidates[j] == candidates[1..][j - 1]; }
      }
    }
  }

  /** The `for col in [...]: if col in df.columns: ...; break` search. */
  method FindPhoneColumn(columns: seq<string>) returns (phoneColumn: Option<string>)
    ensures phoneColumn == FirstPresent(PhoneColumnCandidates, columns)
  {
    phoneColumn := None;
    var i := 0;
    while i < |PhoneColumnCandidates|
      invariant 0 <= i <= |PhoneColumnCandidates|
      invariant FirstPresent(PhoneColumnCandidates, columns) == FirstPresent(PhoneColumnCandidates[i..], columns)
    {
      var col := PhoneColumnCandidates[i];
      if col in columns {
        phoneColumn := Some(col);
        break;
      }
      assert PhoneColumnCandidates[i..][1..] == PhoneColumnCandidates[i + 1..];
      i := i + 1;
    }
  }

  /** The characters ignored when deciding whether a cell is numeric. */
  const NumericPunctuation: set<char> := {'.', '-', '+'}

  /** The characters deleted when a `+` is prepended. */
  const DigitSeparators: set<char> := {'.', '-'}

  /**
   * A cell after cleaning and coercion: if it is all digits once `.`, `-`
   * and `+` are ignored and does not start with `+`, it gets a `+` and
   * loses its `.` and `-`.
   */
  function CoerceCell(cell: string): string
  {
    var s := StripPrintable(cell);
    if IsDigitString(RemoveChars(s, NumericPunctuation)) && !StartsWith(s, '+')
    then "+" + RemoveChars(s, DigitSeparators)
    else s
  }

  /** What one iteration of the cell loop keeps: missing cells are dropped first. */
  function AcceptCell(cell: Option<string>): Option<string>
  {
    match cell
    case None => None
    case Some(c) =>
      var s := CoerceCell(c);
      if ValidatePhoneNumber(s) then Some(s) else None
  }

  /** The numbers the import keeps from a column, in order. */
  function AcceptedNumbers(cells: seq<Option<string>>): seq<string>
  {
    FilterMap(cells, AcceptCell)
  }

  /** Every accepted number validates. */
  lemma AcceptedNumbersValid(cells: seq<Option<string>>)
    ensures forall k :: 0 <= k < |AcceptedNumbers(cells)| ==> ValidatePhoneNumber(AcceptedNumbers(cells)[k])
  {
    FilterMapAll(cells, AcceptCell, ValidatePhoneNumber);
  }

  /**
   * The accepted numbers keep the column's order: the k-th comes from the
   * non-empty cell `idx[k]`, the indices increase, and every cell whose
   * coerced form validates is there.
   */
  lemma AcceptedNumbersInOrder(cells: seq<Option<string>>) returns (idx: seq<nat>)
    ensures |idx| == |AcceptedNumbers(cells)|
    ensures forall k :: 0 <= k < |idx| ==>
      idx[k] < |cells| && cells[idx[k]].Some? && AcceptedNumbers(cells)[k] == CoerceCell(cells[idx[k]].value)
    ensures forall k, m :: 0 <= k < m < |idx| ==> idx[k] < idx[m]
    ensures forall j :: 0 <= j < |cells| && cells[j].Some? && ValidatePhoneNumber(CoerceCell(cells[j].value)) ==> j in idx
  {
    idx := Sources(cells, AcceptCell);
    SourcesProduce(cells, AcceptCell);
    SourcesIncrease(cells, AcceptCell);
    SourcesComplete(cells, AcceptCell);
  }

  /** A string of ASCII digits is left alone by cleaning and by the punctuation removals. */
  lemma AsciiDigitsUnchanged(d: string)
    requires forall i :: 0 <= i < |d| ==> IsAsciiDigit(d[i])
    ensures StripPrintable(d) == d
    ensures RemoveChars(d, NumericPunctuation) == d && RemoveChars(d, DigitSeparators) == d
    ensures forall i :: 0 <= i < |d| ==> IsDigit(d[i])
  {
    StripUnchanged(d);
    FilterKeepsAll(d, IsPrintable);
    StripUnchanged(d);
    RemoveCharsNone(d, NumericPunctuation);
    RemoveCharsNone(d, DigitSeparators);
  }

  /** A bare digit cell such as `15551234567` gets its `+`. */
  lemma CoerceDigitCell(d: string)
    requires |d| > 0 && forall i :: 0 <= i < |d| ==> IsAsciiDigit(d[i])
    ensures CoerceCell(d) == "+" + d
  {
    AsciiDigitsUnchanged(d);
  }

  /** ... and is accepted when it has 9 to 17 digits. */
  lemma DigitCellAccepted(d: string)
    requires MinLength - 1 <= |d| <= MaxLength - 1 && forall i :: 0 <= i < |d| ==> IsAsciiDigit(d[i])
    ensures AcceptCell(Some(d)) == Some("+" + d)
  {
    CoerceDigitCell(d);
    AsciiDigitsUnchanged(d);
    ValidateDigits(d);
  }

  /** `d.0` is its own cleaned form. */
  lemma FloatTextClean(d: string)
    requires |d| > 0 && forall i :: 0 <= i < |d| ==> IsAsciiDigit(d[i])
    ensures StripPrintable(d + ".0") == d + ".0"
  {
    var cell := d + ".0";
    forall i | 0 <= i < |cell| ensures IsPrintable(cell[i]) {
      if i < |d| { assert cell[i] == d[i]; }
    }
    StripUnchanged(cell);
    FilterKeepsAll(cell, IsPrintable);
  }

  /** Removing a set that holds `.` but not `0` or any digit turns `d.0` into `d0`. */
  lemma RemoveFromFloat(d: string, drop: set<char>)
    requires '.' in drop && '0' !in drop && forall i :: 0 <= i < |d| ==> d[i] !in drop
    ensures RemoveChars(d + ".0", drop) == d + "0"
  {
    assert d + ".0" == (d + ".") + "0";
    RemoveCharsConcat(d + ".", "0", drop);
    RemoveCharsConcat(d, ".", drop);
    RemoveCharsAll(".", drop);
    RemoveCharsNone(d, drop);
    RemoveCharsNone("0", drop);
  }

  /** Appending the digit `0` keeps a digit string a digit string. */
  lemma DigitsWithZero(d: string)
    requires forall i :: 0 <= i < |d| ==> IsAsciiDigit(d[i])
    ensures IsDigitString(d + "0")
    ensures forall i :: 0 <= i < |d + "0"| ==> IsAsciiDigit((d + "0")[i])
  {
    var digits := d + "0";
    forall i | 0 <= i < |digits| ensures IsAsciiDigit(digits[i]) && IsDigit(digits[i]) {
      if i < |d| { assert digits[i] == d[i]; }
    }
  }

  /**
   * A cell pandas rendered as a float, `d.0`, keeps the trailing zero:
   * `15551234567.0` becomes `+155512345670`, one digit longer.
   */
  lemma CoerceFloatCell(d: string)
    requires |d| > 0 && forall i :: 0 <= i < |d| ==> IsAsciiDigit(d[i])
    ensures CoerceCell(d + ".0") == "+" + d + "0"
  {
    FloatTextClean(d);
    RemoveFromFloat(d, NumericPunctuation);
    RemoveFromFloat(d, DigitSeparators);
    DigitsWithZero(d);
  }

  /** ... and is accepted, as that longer number, when `d` has 8 to 16 digits. */
  lemma FloatCellAccepted(d: string)
    requires MinLength - 2 <= |d| <= MaxLength - 2 && forall i :: 0 <= i < |d| ==> IsAsciiDigit(d[i])
    ensures AcceptCell(Some(d + ".0")) == Some("+" + d + "0")
  {
    CoerceFloatCell(d);
    DigitsWithZero(d);
    ValidateDigits(d + "0");
    assert "+" + d + "0" == "+" + (d + "0");
  }

  /** A cell that already starts with `+` once cleaned is only cleaned, not coerced. */
  lemma PlusCellUnchanged(cell: string)
    requires StartsWith(StripPrintable(cell), '+')
    ensures CoerceCell(cell) == StripPrintable(cell)
  {
  }

  /** An ASCII letter. */
  predicate IsAsciiLetter(c: char)
  {
    'a' <= c <= 'z' || 'A' <= c <= 'Z'
  }

  /** A cell holding an ASCII letter anywhere, such as `abc` or `+1555abc`, is skipped. */
  lemma LetterCellRejected(cell: string, i: nat)
    requires i < |cell| && IsAsciiLetter(cell[i])
    ensures AcceptCell(Some(cell)) == None
  {
    LetterSurvivesCleaning(cell, cell[i]);
    LetterBlocksCoercion(cell, cell[i]);
    LetterInvalid(StripPrintable(cell), cell[i]);
  }

  /** A letter is printable and not whitespace, so cleaning keeps it. */
  lemma LetterSurvivesCleaning(cell: string, x: char)
    requires x in cell && IsAsciiLetter(x)
    ensures x in StripPrintable(cell)
  {
    StripMembers(cell);
    FilterMembers(Strip(cell), IsPrintable);
    StripMembers(KeepPrintable(Strip(cell)));
  }

  /** A cleaned cell holding a letter is not numeric, so it is not coerced. */
  lemma LetterBlocksCoercion(cell: string, x: char)
    requires x in StripPrintable(cell) && IsAsciiLetter(x)
    ensures CoerceCell(cell) == StripPrintable(cell)
  {
    var s := StripPrintable(cell);
    RemoveCharsMembers(s, NumericPunctuation);
    var r := RemoveChars(s, NumericPunctuation);
    var j :| 0 <= j < |r| && r[j] == x;
    assert !IsDigit(r[j]);
  }

  /** A string holding a letter never validates. */
  lemma LetterInvalid(s: string, x: char)
    requires x in s && IsAsciiLetter(x)
    ensures !ValidatePhoneNumber(s)
  {
    assert IsPrintable(x) && x !in FormattingChars && x != '+' && !IsDigit(x);
    var p := KeepPrintable(s);
    FilterMembers(s, IsPrintable);
    var t := RemoveChars(p, FormattingChars);
    RemoveCharsMembers(p, FormattingChars);
    assert x in t;
    AcceptedShapeChars(t);
    assert !IsAcceptedShape(t);
    CleanPhoneIgnoresStrip(s);
  }

  /** The cleaning and coercion steps applied to one cell in the loop below. */
  method CoercePhone(cell: string) returns (phone: string)
    ensures phone == CoerceCell(cell)
  {
    phone := StripPrintable(cell);
    if IsDigitString(RemoveChars(phone, NumericPunctuation)) {
      if !StartsWith(phone, '+') {
        phone := "+" + RemoveChars(phone, DigitSeparators);
      }
    }
  }

  /** The cell loop (`for phone in df[phone_column].dropna(): ...`). */
  method ImportPhoneColumn(cells: seq<Option<string>>) returns (numbers: seq<string>)
    ensures numbers == AcceptedNumbers(cells)
  {
    numbers := [];
    var i := 0;
    while i < |cells|
      invariant 0 <= i <= |cells|
      invariant numbers == AcceptedNumbers(cells[..i])
    {
      ghost var before := numbers;
      if cells[i].Some? {
        var phone := CoercePhone(cells[i].value);
        if ValidatePhoneNumber(phone) {
          numbers := numbers + [phone];
          assert AcceptCell(cells[i]) == Some(phone);
        } else {
          assert AcceptCell(cells[i]) == None;
        }
      }
      assert numbers == before + Emit(AcceptCell(cells[i]));
      FilterMapSnoc(cells, i, AcceptCell);
      assert numbers == FilterMap(cells[..i + 1], AcceptCell);
      i := i + 1;
    }
    assert cells[..|cells|] == cells;
  }

  /**
   * The whole CSV branch once the file is parsed: a missing phone column is
   * an error; otherwise the accepted numbers of the chosen column.
   */
  method ImportCsvNumbers(table: CsvTable) returns (r: Result<seq<string>, ImportError>)
    requires WellFormed(table)
    ensures r.Failure? <==> forall i :: 0 <= i < |PhoneColumnCandidates| ==> PhoneColumnCandidates[i] !in table.columns
    ensures r.Failure? ==> r.error == MissingColumn
    ensures r.Success? ==>
      var col := FirstPresent(PhoneColumnCandidates, table.columns).value;
      r.value == AcceptedNumbers(table.cells[col])
  {
    var phoneColumn := FindPhoneColumn(table.columns);
    if phoneColumn.None? {
      r := Failure(MissingColumn);
    } else {
      var numbers := ImportPhoneColumn(table.cells[phoneColumn.value]);
      r := Success(numbers);
    }
  }
}
