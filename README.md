# Vapi outbound calling: phone validation, bulk import and call payload

A Dafny model of the logic in `app.py` that sits between the Streamlit
screens and the Vapi `POST /call` request:

- **Phone validation** (`validate_phone_number`). The number is stripped and
  its non-printable characters dropped. Space, `-`, `(`, `)` and `.` are then
  removed. It is accepted when the result is `+` followed only by digits,
  10 to 18 characters in all.
- **Bulk text parsing** (`parse_bulk_numbers`). The text is cleaned and split
  into lines. Every line that validates is kept, as its sanitised text, in
  input order and with duplicates.
- **CSV import** (the CSV branch of `main`). The first present column among
  `phone`, `number`, `phone_number`, `Phone` and `Number` is chosen. Every
  non-missing cell is cleaned. A cell that is numeric apart from `.`, `-` and
  `+`, and does not start with `+`, gets a `+` and loses its `.` and `-`. The
  cells that then validate are kept.
- **Call request construction** (`make_vapi_call` up to the network call).
  The identifiers and the API key are trimmed. String values in the customer
  records are sanitised. The records go under `customer` when there is
  exactly one of them and under `customers` otherwise. `schedulePlan` is
  added only when it is truthy.
- **Schedule plan** (built the same way on both call screens). It has
  `earliestAt` with a `Z` suffix, and `latestAt` when a latest time is given.

Python's character classes (`str.isprintable`, `str.isspace` and
`str.isdigit`) are predicates on `char` in `chars.dfy`. String helpers
(`strip`, `replace`, `split`, joining) are in `text.dfy`. The "loop over
items, keep those that pass, append in order" pattern shared by both bulk
paths is the generic `FilterMap` in `sequences.dfy`.

Each loop in the source is a method with loop invariants, proved equal to a
specification function:

- `BulkParser.CollectNumbers`
- `CsvImport.FindPhoneColumn`
- `CsvImport.ImportPhoneColumn`
- `CallPayload.BuildCallRequest`, whose customer loop contains a per-field
  loop.

The properties are proved as lemmas about those specification functions.

Two facts carry most of the proofs:

- Every whitespace character except the space is non-printable, and the
  space is a formatting character. So the validator's leading `strip()`
  never changes its verdict (`CleanPhoneIgnoresStrip`).
- The verdict depends only on the string with non-printables and formatting
  removed (`ValidateByUnformatted`).

Some behaviours of the code are easy to misread. The model follows the
code:

- The code does not reject an empty customer list. It sends
  `"customers": []` (`PayloadShape`).
- Neither bulk path de-duplicates (`KeptLinesKeepsDuplicates`).
- The CSV column match is exact and case-sensitive.
- A missing phone column produces only an error message on screen. The model
  returns it as `Failure(MissingColumn)` (`ImportCsvNumbers`).
- A cell rendered as a float (`15551234567.0`) is not recovered as the
  intended number. The coercion removes the `.` but keeps the trailing `0`
  (`CoerceFloatCell`).

## Model

| member | source | states |
|---|---|---|
| Chars.IsWhitespace | app.py:110 | Python `str.isspace` for one character: the characters `strip()` removes |
| Chars.IsPrintable | app.py:111 | Python `str.isprintable` for one character: not a control, format or private-use character, not U+2065 and not a separator, except that the space is printable |
| Chars.IsDigit | app.py:119 | Python `str.isdigit` for one character: ASCII, Arabic-Indic, Devanagari and fullwidth digits, the superscript and subscript digits, and the circled digits one to nine |
| Text.TrimStart | app.py:110 | `lstrip()`: the leading whitespace removed; `TrimStartParts` proves that only leading whitespace goes |
| Text.TrimEnd | app.py:110 | `rstrip()`: the trailing whitespace removed; `TrimEndParts` proves that only trailing whitespace goes |
| Text.Strip | app.py:110 | `strip()`, as `TrimEnd(TrimStart(s))`; `StripParts`, `StripMembers` and `StripIdempotent` state what it does |
| Text.KeepPrintable | app.py:111 | `''.join(c for c in s if c.isprintable())`; `FilterMembers` and `KeepPrintableIdempotent` state what it keeps |
| Text.StartsWith | app.py:117 | `s.startswith(c)` for one character: `s` is non-empty and its first character is `c`; also the leading-`+` test of the CSV coercion (app.py:306) |
| Text.IsDigitString | app.py:119 | `s.isdigit()`: `s` is non-empty and every character is a digit, so `''.isdigit()` is false; also the numeric test of the CSV coercion (app.py:304) |
| Text.StripPrintable | app.py:300-301 | `strip()`, then non-printables dropped, then `strip()` again, as CSV cells and bulk lines (app.py:134-137) are cleaned; defined as `SanitizeText(Strip(s))` |
| Text.RemoveChars | app.py:114 | the chained `replace(x, "")` calls for a set of characters; `RemoveCharsMembers` states what it keeps |
| PhoneValidation.CleanPhone | app.py:110-114 | the string the validator inspects: stripped, printable-only, formatting removed; `CleanPhoneIgnoresStrip` and `CleanPhoneIdempotent` are its properties |
| PhoneValidation.IsAcceptedShape | app.py:117-119 | the accept test on the cleaned string: it starts with `+`, has 10 to 18 characters, and the rest is a non-empty digit string; `AcceptedShapeChars` states that such a string holds only `+` and digits |
| PhoneValidation.ValidatePhoneNumber | app.py:106-123 | `validate_phone_number`: the cleaned string starts with `+`, has 10 to 18 characters and is digits after the `+`; the `PhoneValidation` lemmas state what it accepts and rejects |
| BulkParser.KeptInText | app.py:129 | the characters the text cleaning keeps: printable ones and `\n`, `\r`, `\t` |
| BulkParser.KeepLine | app.py:134-139 | one iteration of the line loop: the line's sanitised text when it is non-blank and valid, otherwise nothing; `KeepLineIffValid` characterises it |
| BulkParser.KeptLines | app.py:131-140 | the numbers the line loop keeps, in order; `KeptLinesSubsequence` and `KeptLinesValid` characterise it |
| CsvImport.CoerceCell | app.py:300-307 | one cell cleaned and, when numeric without a leading `+`, prefixed with `+` and stripped of `.` and `-`; `CoerceDigitCell`, `CoerceFloatCell`, `PlusCellUnchanged` and `LetterBlocksCoercion` pin it down |
| CsvImport.AcceptCell | app.py:297-310 | what one iteration of the cell loop keeps: nothing for a missing cell, otherwise the coerced cell when it validates |
| CsvImport.AcceptedNumbers | app.py:296-312 | the numbers the cell loop keeps, in order; `AcceptedNumbersInOrder` and `AcceptedNumbersValid` characterise it |
| Text.SanitizeText | app.py:57 | a string value with non-printables dropped, then stripped; `SanitizeTextClean` and `SanitizeTextIdempotent` are its properties |
| CallPayload.SanitizeValue | app.py:55-60 | one field value: a string is sanitised, any other value is passed through unchanged |
| CallPayload.SanitizeCustomers | app.py:51-61 | every customer record sanitised, in order, one output record per input record |
| CallPayload.SanitizeCustomer | app.py:53-61 | one customer record with its string values sanitised; `SanitizeCustomerFields` states what it keeps |
| CallPayload.IsTruthy | app.py:70 | Python truthiness of the optional plan: present and non-empty; an absent or empty plan is falsy |
| CallPayload.NumberCustomers | app.py:324 | the records both screens pass, `[{"number": n} for n in numbers]`, one per number and in order (the single-call screen builds the one-element case at app.py:208) |
| CallPayload.PayloadOf | app.py:45-71 | the JSON body `make_vapi_call` builds; `PayloadShape`, `PayloadCustomers`, `PayloadSchedule` and `PayloadRebuild` characterise it |
| CallPayload.RequestOf | app.py:30-42 | the URL, the two headers and the body of the request; `DefaultRequestUrl` gives the URL the app uses |
| Chars.WhitespaceIsSpaceOrNonPrintable | app.py:110-111 | a whitespace character that `strip()` would remove is either the space or non-printable; printable whitespace is exactly the space |
| Chars.DigitIsPrintable | app.py:119 | a character `isdigit()` accepts is printable and not whitespace |
| Text.StripParts | app.py:110 | `strip()` removes only whitespace, only at the two ends, and leaves no whitespace at either end |
| Text.StripMembers | app.py:110 | `strip()` keeps every non-whitespace character and adds none |
| Text.StripUnchanged | app.py:110 | a string with no whitespace at its ends is returned unchanged by `strip()` |
| Text.StripIdempotent | app.py:110 | stripping twice is stripping once |
| Text.KeepPrintableIdempotent | app.py:111 | dropping non-printables twice is dropping them once |
| Text.RemoveCharsMembers | app.py:114 | the chained `replace(x, "")` calls keep exactly the characters not removed |
| Text.Split | app.py:130 | `split('\n')` yields at least one piece, even for the empty string |
| Text.SplitPiecesFree | app.py:130 | no piece of `split('\n')` contains `\n` |
| Text.JoinSplit | app.py:130 | joining the pieces of `split` with the separator gives back the text |
| Text.SplitJoin | app.py:130 | splitting a join of separator-free pieces gives back those pieces |
| PhoneValidation.AcceptedShapeChars | app.py:117-119 | an accepted cleaned number holds nothing but `+` and digits |
| PhoneValidation.UnformattedChars | app.py:111-114 | after cleaning, every character is printable, not a formatting character and not whitespace |
| PhoneValidation.CleanPhoneIgnoresStrip | app.py:110-114 | the cleaned string is the same with or without the leading `strip()` |
| PhoneValidation.CleanPhoneIdempotent | app.py:110-114 | cleaning a cleaned number changes nothing |
| PhoneValidation.ValidateCleanPhone | app.py:106-121 | a number validates exactly when its cleaned form does |
| PhoneValidation.ValidateByUnformatted | app.py:106-121 | two strings with the same content after removing non-printables and formatting get the same verdict |
| PhoneValidation.ValidateIgnoresNoise | app.py:110-114 | inserting one formatting, whitespace or non-printable character anywhere never changes the verdict |
| PhoneValidation.ValidStripNonEmpty | app.py:110-121 | a valid number has non-empty content with no whitespace at its start after `strip()` |
| PhoneValidation.ValidateDigits | app.py:117-120 | `+` followed by 9 to 17 digits validates and is its own cleaned form |
| PhoneValidation.UnformattedNoiseRun | app.py:110-114 | a string made only of formatting, whitespace and non-printable characters cleans to the empty string |
| PhoneValidation.NoPlusRejected | app.py:117 | a string with no `+` anywhere is rejected |
| PhoneValidation.TooShortRejected | app.py:117 | a string of fewer than 10 characters is rejected |
| PhoneValidation.ValidateSanitized | app.py:137-138 | sanitising (non-printables dropped, then `strip()`) never changes the verdict |
| PhoneValidation.ValidateStripped | app.py:134 | `strip()` never changes the verdict |
| BulkParser.Lines | app.py:129-130 | the text is cut into at least one line |
| BulkParser.LinesCoverText | app.py:129-130 | rejoining the lines with `\n` gives the cleaned, stripped text, and no line contains `\n` |
| BulkParser.KeepLineIffValid | app.py:133-139 | a line is kept exactly when the raw line validates, and is then kept as its sanitised text |
| BulkParser.KeptLinesValid | app.py:138-139 | every number returned validates |
| BulkParser.KeptLinesSubsequence | app.py:133-140 | the result is an order-preserving subsequence of the lines: each entry is the sanitised text of a valid line, the line indices increase, and every valid line is represented |
| BulkParser.KeptLinesKeepsDuplicates | app.py:133-140 | a valid line given twice is returned twice |
| BulkParser.KeptLineUnchanged | app.py:137-139 | a valid line that is already printable and trimmed is returned verbatim, formatting included |
| BulkParser.ParseBulkNumbers | app.py:125-140 | the method returns the kept lines of the cleaned text: no more numbers than lines, all valid |
| BulkParser.CollectNumbers | app.py:131-140 | the line loop returns exactly the kept lines, in order |
| CsvImport.FirstPresent | app.py:289-293 | no column is chosen exactly when no candidate is present; a chosen column is a candidate and a column of the table |
| CsvImport.FirstPresentIsFirst | app.py:290-293 | every candidate before the chosen one is absent from the table |
| CsvImport.FindPhoneColumn | app.py:289-293 | the search loop with `break` picks the first present candidate in the fixed order |
| CsvImport.CoercePhone | app.py:300-307 | one cell's cleaning and coercion steps give the coerced cell |
| CsvImport.ImportPhoneColumn | app.py:296-312 | the cell loop returns exactly the accepted numbers of the column, in order |
| CsvImport.ImportCsvNumbers | app.py:289-316 | a missing phone column is the `MissingColumn` error, exactly when no candidate column exists; otherwise the result is the accepted numbers of the first present candidate column |
| CsvImport.AcceptedNumbersValid | app.py:309-310 | every imported number validates |
| CsvImport.AcceptedNumbersInOrder | app.py:297-310 | the imported numbers are, in order, the coerced forms of non-missing cells at increasing positions, and every cell whose coerced form validates is included |
| CsvImport.AsciiDigitsUnchanged | app.py:300-307 | a string of ASCII digits is unchanged by cleaning and by the `.`, `-` and `+` removals |
| CsvImport.CoerceDigitCell | app.py:304-307 | a bare digit cell such as `15551234567` becomes `+15551234567` |
| CsvImport.DigitCellAccepted | app.py:304-310 | a bare digit cell of 9 to 17 digits is accepted as `+` followed by those digits |
| CsvImport.CoerceFloatCell | app.py:304-307 | a cell rendered as a float, `d.0`, becomes `+d0`: the trailing zero stays |
| CsvImport.FloatCellAccepted | app.py:304-310 | such a cell is accepted as that longer number when `d` has 8 to 16 digits |
| CsvImport.PlusCellUnchanged | app.py:306 | a cell that starts with `+` once cleaned is only cleaned, not coerced |
| CsvImport.LetterCellRejected | app.py:300-312 | a cell holding an ASCII letter anywhere, such as `abc` or `+1555abc`, is skipped |
| CsvImport.LetterSurvivesCleaning | app.py:300-301 | cleaning a cell keeps every letter in it |
| CsvImport.LetterBlocksCoercion | app.py:304-307 | a cleaned cell holding a letter is not numeric, so the `+` is not prepended and it is only cleaned |
| CsvImport.LetterInvalid | app.py:106-121 | a string holding a letter never validates |
| CallPayload.BuildCallRequest | app.py:30-74 | the method builds the URL, the two headers and the body exactly as `RequestOf` does, including the nested customer/field loops |
| CallPayload.DefaultRequestUrl | app.py:26-30 | with the default base URL, which both call screens use (app.py:219-225, 335-341), the request goes to `https://api.vapi.ai/call` |
| CallPayload.SchedulePlanOf | app.py:211-215 | a plan exists exactly when scheduling is on and an earliest time is given; `earliestAt` is the time with `Z`; `latestAt` is present exactly when a latest time is given, with `Z`; no other keys |
| Text.SanitizeTextClean | app.py:57 | a sanitised value is printable-only with no whitespace at either end |
| Text.SanitizeTextIdempotent | app.py:57 | sanitising a sanitised value changes nothing |
| CallPayload.SanitizeCustomerFields | app.py:53-61 | a cleaned record has the same keys; string values are sanitised and all other values are passed through |
| CallPayload.SanitizeCustomerIdempotent | app.py:53-61 | cleaning a cleaned record changes nothing |
| CallPayload.PayloadShape | app.py:64-67 | `customer` is present exactly for one record and `customers` exactly for any other count, so an empty list is sent as `customers: []` |
| CallPayload.PayloadCustomers | app.py:51-67 | whichever key is used, the payload carries all the cleaned records, in order |
| CallPayload.PayloadSchedule | app.py:70-71 | `schedulePlan` is present exactly when the given plan is truthy (present and non-empty), and is then that plan |
| CallPayload.PayloadIdentifiersTrimmed | app.py:36-37 | the assistant and phone-number identifiers have no whitespace at either end |
| CallPayload.PayloadRebuild | app.py:35-71 | building a payload again from its own fields reproduces it |
| CallPayload.PayloadNumbersValid | app.py:204-208 | numbers that passed the validator are still valid, in order and under `number`, after the payload sanitises them |
| CallPayload.ScheduledPlanIsSent | app.py:211-215 | a plan built for a scheduled call is always truthy, so the payload carries it |

## Left out

- Character classes: `str.isprintable`, `str.isspace` and `str.isdigit` are exact for Latin-1 (U+0000 to U+00FF). Beyond it they list the Unicode whitespace characters, the controls, the format characters (including U+0600 to U+0605, U+061C, U+06DD, U+070F, U+0890 to U+0891, U+08E2, U+180E, U+FFF9 to U+FFFB, U+13430 to U+1343F, U+E0001 and U+E0020 to U+E007F), the private-use areas and the common digit blocks. Digits `isdigit()` accepts outside the listed blocks (for instance U+24EA, U+2474 to U+247C, U+2776 to U+277E) are not listed. Unassigned code points other than U+2065, format characters and digit blocks not listed in `chars.dfy`, and differences between Unicode versions are not modelled: Python treats unassigned code points as non-printable, the model treats them as printable. No proved property depends on these characters.
- Exceptions: each `try/except Exception` that returns `False`, `[]` or skips a cell is unreachable in the model. Every operation is total on strings, and non-string input is modelled after its `str()` conversion.
- The network: `requests.post`, the 30-second timeout, `raise_for_status`, the response JSON and the classification of failures (app.py:76-104) are not modelled. `BuildCallRequest` stops at the request it would post.
- Serialisation: `json.dumps` with `ensure_ascii=False` and the UTF-8 encoding of the body are not modelled. Non-string customer values are kept as opaque JSON text.
- JSON object key order is not modelled. Payloads and records are maps.
- The user interface is not modelled: Streamlit widgets, buttons, previews, messages and the session-state call history.
- `pandas.read_csv`, `dropna` and how `str()` renders a cell are not modelled. A column is given as the cell strings, with `None` for a missing value. Duplicate column names are not modelled.
- Timestamps are opaque `isoformat()` strings. `datetime` itself and any check that the earliest time precedes the latest are not modelled, and the source makes no such check.
- CallPayload.BuildCallRequest: the `str()` conversions of the key and identifiers are identity on strings, so they are not modelled.
