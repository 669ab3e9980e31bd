# BPA-I exporter and validator, modelled in Dafny

This project models the two halves of a tool for the Brazilian individualised
outpatient production bulletin (BPA-I):

- the **exporter** (`BPAExporter`), which turns a clinic's service rows into
  fixed-width BPA-I records, computes the header's control field and counts,
  and writes the text file (a header line, then one line per record, each
  ending in CR LF, named with a month extension such as `.JAN`);
- the **validator** (`BPAValidator`), which reads such a file line by line,
  checks the header against a 130-column layout and every `03` record against
  a 350-column layout, keeps running statistics, checks the declared record
  and sheet counts, and passes the file exactly when no error was collected.

Modules, one concern each:

| file | module | what it holds |
|---|---|---|
| `wrappers.dfy` | `Wrappers` | `Option` |
| `py_text.dfy` | `PyText` | the Python string operations the code relies on (`strip`, `rstrip('\r\n')`, `ljust`, `zfill`, slices, `isdigit`, `int()`), over latin-1 text, and the dynamic values read from the database |
| `py_dates.dfy` | `PyDates` | `datetime.strptime` with the formats `%Y%m%d` and `%Y%m`, following the regular expressions CPython's `_strptime` matches |
| `lookups.dfy` | `Lookups` | the occupation (CBO) table, the procedure table, the classification and race maps |
| `records.dfy` | `Records` | the header and record values and their fields in file order |
| `checksum.dfy` | `Checksum` | the control field and the loop that computes it |
| `assembler.dfy` | `Assembler` | one record per row (`processar_registros_bpa_i`) |
| `encoder.dfy` | `Encoder` | the header builder, the month extension and the lines written |
| `layout.dfy` | `Layout` | the validator's two layout tables and their shape |
| `field_check.dfy` | `FieldCheck` | the check of one field (`_validar_campo`) |
| `validator.dfy` | `Validator` | the header and record checks, the file scan as a class with its statistics |
| `verdict.dfy` | `Verdict` | what the verdict means, stated without the scan, and the bookkeeping |
| `crosscheck.dfy` | `Crosscheck` | the exporter's output read by the validator |

The main results:

- `Verdict.AcceptedIffWellFormed`: the validator passes a file exactly when
  its first line is a non-empty header with no field error, every later line
  is a faultless `03` record or blank, the number of `03` lines equals the
  declared record count, and the declared sheet count equals the one the
  validator expects.
- `Crosscheck.ExportedFileCounts`: in a file the exporter writes with CR LF
  line ends and the validator reads in text mode, provided no header text or
  record field holds a CR or LF, the validator finds exactly the exported
  records and reads back their count
  from the header. The exporter declares one sheet per 20 records and the
  validator expects one per 99, so the two agree only for 1 to 20 records.
  A file with no records, or with more than 20, is always refused.
- `Crosscheck.CboCodeChecked`: the occupation code the exporter writes passes
  the validator's `prd_cbo` check unless the profession type is 6 (dentist).
  That code is the four-digit `2232`, which fails the six-character pattern.

Points where the code behaves differently from what a reader of the format
might expect; the model follows the code:

- The exporter's header counts sheets of 20 records
  (bpa_exporter.py:279-280). Its record numbering counts sheets of 99, as its
  own comment says (bpa_exporter.py:705-707), and so does the validator's
  expected sheet count (`/ 99`, bpa_validator.py:261).
- An absent or unmapped race code becomes `01` (bpa_exporter.py:820-832); no
  "unknown" race code is ever written.
- Records are numbered by their position in the input alone
  (bpa_exporter.py:704-707). There is no restart per professional, no
  deduplication and no age clamping.
- The exporter zero-fills the sheet number to three digits
  (bpa_exporter.py:850), which holds only up to sheet 999. From the row at index 98 901
  on, the sheet field is four characters and every later column shifts
  (`Assembler.RecordPageOverflow`).
- The validator stops at an empty header line or at a header counter that
  `int()` cannot read (bpa_validator.py:199-203, 277-283). It does not always
  scan to the end of the file.

## Model

| member | source | states |
|---|---|---|
| `PyText.StripEmptyIffBlank` | bpa_validator.py:106-111 | `strip()` gives the empty text exactly when every character is whitespace, so "blank" has one meaning throughout |
| `PyText.RStripNewlines` | bpa_validator.py:196 | `rstrip('\r\n')` keeps a prefix, removes only CR and LF, and leaves no CR or LF at the end |
| `PyText.LJust` | bpa_exporter.py:292-297 | `ljust(w)` has length `max(|s|, w)`, starts with `s` and is padded with spaces |
| `PyText.ZFill` | bpa_exporter.py:287-289 | `zfill(w)` has length `max(|s|, w)` |
| `PyText.ZFillContents` | bpa_exporter.py:287-289 | `zfill(w)` keeps a leading sign first, then inserts only `0`s, then keeps the rest of the text unchanged |
| `PyText.PaddedDigits` | bpa_exporter.py:850 | `str(n).zfill(w)` is all decimal digits, at least `w` long, reads back as `n`, and is exactly `w` long exactly when `n < 10^w` |
| `PyText.UniversalLines` | bpa_validator.py:193-195 | reading a text in text mode yields no lines exactly for the empty text; each line is non-empty, holds no CR or LF before its end, and every line but the last ends in LF (CR LF, CR and LF each end a line) |
| `PyText.ZeroPaddedRoundTrip` | bpa_exporter.py:287-289 | `int()` of `str(n).zfill(w)` gives `n` back when `n` has at most `w` digits |
| `PyText.PyIntOfDecimal` | bpa_validator.py:213-214 | `int()` of a non-empty run of decimal digits is its decimal value |
| `PyText.PyInt` | bpa_exporter.py:781 | `int()` raises on any text holding an information separator U+001C..U+001F, although `strip()` removes those characters; otherwise it reads the stripped text |
| `PyText.PyIntSurroundings` | bpa_exporter.py:781 | `int('1\x1c')` and `int('\x1f1')` raise while `'1\x1c'.strip()` is `'1'`; `int('\xa05')` is 5 and `int('7\x85')` is 7 |
| `PyDates.EightDigitDate` | bpa_validator.py:131 | eight digits parse as `%Y%m%d` exactly when they name a real calendar day in a year 1..9999 |
| `PyDates.SixDigitMonth` | bpa_validator.py:140 | six digits parse as `%Y%m` exactly when the year is not 0 and the month is 1..12 |
| `Lookups.CboTotal` | bpa_exporter.py:15-63 | the occupation lookup is total: the default `000000` or one of the table's codes |
| `Lookups.CboOfKnownInteger` | bpa_exporter.py:19-63 | a known profession type given as an integer selects its table entry |
| `Lookups.CboOfDigitText` | bpa_exporter.py:56-63 | a profession type given as decimal digits selects the same code as the integer they denote |
| `Lookups.CboOfOtherText` | bpa_exporter.py:56-63 | a text that `isdigit()` refuses selects the default code |
| `Lookups.CboLookup` | bpa_exporter.py:55-63 | the occupation code is the table's entry for the key read from the profession type when there is such an entry, and the default `000000` exactly otherwise |
| `Lookups.CboDefaults` | bpa_exporter.py:55-63 | an absent profession type, an integer with no table entry, and a digit text that `int()` refuses all give the default `000000` |
| `Lookups.CboOfSuperscriptDigit` | bpa_exporter.py:56-60 | `'²'` passes `isdigit()` but `int()` raises on it, so the exception handler gives the default code |
| `Lookups.CboTableShape` | bpa_exporter.py:19-53 | every table code has 4 to 6 decimal digits |
| `Lookups.CboFieldWidth` | bpa_exporter.py:848 | the record field `ljust(6)` of the code is exactly six characters |
| `Lookups.ProcedureTableWellFormed` | bpa_exporter.py:1145-1217 | every procedure entry has a ten-digit national code, a rehabilitation type among 01, 02, 03, 05 and a suggested diagnosis of at most four characters |
| `Lookups.ClassificationCode` | bpa_exporter.py:743-750 | the classification is `0` followed by a known rehabilitation type, and `000` exactly for an unknown one |
| `Lookups.RaceCode` | bpa_exporter.py:821-832 | the race is one of `01`..`05`: `'1'`..`'5'` map to `01`..`05`, and an absent or unknown value gives `01` |
| `Assembler.DateTextDigits` | bpa_exporter.py:849 | `strftime('%Y%m%d')` gives eight digits that read back as year, month and day |
| `Assembler.CompetenceOfDigits` | bpa_exporter.py:679-680 | the default competence is six digits that read back as the current year and month |
| `Assembler.RecordFixedFields` | bpa_exporter.py:843-883 | every record has identifier `03`, origin `BPA`, nationality `010`, service `135`, the zeroed team, CNPJ, INE and CPF fields, blank street and district, and homeless status `N`, and carries the competence it was given |
| `Assembler.RecordWidths` | bpa_exporter.py:843-883 | the padded fields of every record have at least the widths the layout expects: CBO and diagnosis exactly 6 and 4, the patient name exactly 30 |
| `Assembler.RecordPaging` | bpa_exporter.py:704-707 | row `i` is written on sheet `i/99+1` at line `i%99+1`; the line number is 1..99 and the two fields read back give `i` for every row; the sheet field is three wide exactly for the first 98 901 rows |
| `Assembler.RecordPageOverflow` | bpa_exporter.py:850 | the row at index 98 901, the first of sheet 1000, gets a sheet field of four characters, one more than the three columns it is meant to fill |
| `Assembler.ResolutionFacts` | bpa_exporter.py:710-740 | a procedure that resolves through both maps takes the table's code, type and suggestion (the suggestion only when no diagnosis column is truthy); any other takes `0301010013`, no type and no suggestion |
| `Assembler.RecordProcedure` | bpa_exporter.py:710-750 | the record's procedure is ten digits and its classification is `001`/`002`/`003`/`005` for a resolved procedure and `000` otherwise |
| `Assembler.DiagnosisPriority` | bpa_exporter.py:753-770 | the diagnosis is the first non-blank of the three diagnosis columns, stripped, else the table's suggestion, else `Z000` |
| `Assembler.RecordDiagnosis` | bpa_exporter.py:856 | the diagnosis field is exactly four characters; it starts with the chosen diagnosis when that fits and is the diagnosis's first four characters when it is longer |
| `Assembler.QuantityPriority` | bpa_exporter.py:773-779 | the quantity comes from the first truthy column among `quantidade`, `qtd_autorizada`, `qtd_solicitada`; a zero or empty column falls through |
| `Assembler.QuantityDefault` | bpa_exporter.py:773-782 | with no truthy quantity column the record's quantity is `000001` |
| `Assembler.RecordQuantity` | bpa_exporter.py:773-782 | a record exists exactly when `int()` accepts the chosen quantity (an information separator anywhere in it, as in `'2\x1f'`, makes `int()` raise), and a quantity below a million reads back from its six-digit field |
| `Assembler.RecordDemographics` | bpa_exporter.py:798-837 | sex is `F` exactly for a stripped `'3'` and `M` otherwise; the race is the mapped code; the ethnicity is kept, padded to four, only for indigenous patients with one given, and is `0000` otherwise |
| `Assembler.AgeIsCompletedYears` | bpa_exporter.py:812-818 | the age is the number of birthdays reached on the service date |
| `Assembler.OptionalDateDigits` | bpa_exporter.py:849 | a present date becomes eight digits that read back as the date; an absent one becomes the empty text |
| `Assembler.RecordDates` | bpa_exporter.py:849-863 | the service and birth date fields are empty exactly when the row has no such date |
| `Assembler.BuildRecords` | bpa_exporter.py:704-886 | the loop appends, in row order, what each row gives, or stops at the first row that gives nothing |
| `Assembler.ProcessRows` | bpa_exporter.py:674-889 | one record per row in row order, each the one `AssembleRecord` defines; or the first row whose quantity makes `int()` raise (a quantity text holding an information separator U+001C..U+001F among them) |
| `Checksum.Control` | bpa_exporter.py:246-272 | the control value lies in 1111..2221 |
| `Checksum.ComputeControl` | bpa_exporter.py:246-272 | the loop's result is `(sum of procedure digits plus quantity over all records) mod 1111 + 1111`, with unreadable parts counting 0 |
| `Checksum.ControlOfNoRecords` | bpa_exporter.py:271 | with no records the control value is 1111 |
| `Checksum.TotalAppend` | bpa_exporter.py:250-268 | the running total over two runs of records is the sum of their totals |
| `Checksum.ControlPermutation` | bpa_exporter.py:246-272 | the control value does not depend on the order of the records |
| `Encoder.HeaderPagesIsCeiling` | bpa_exporter.py:280 | the header's sheet count is the least number of 20-record sheets that holds all records, and at least 1 |
| `Encoder.HeaderCounters` | bpa_exporter.py:277-291 | the header's record count, sheet count and control field are 6, 6 and 4 digits that read back as their numbers, for fewer than a million records |
| `Encoder.HeaderFixedFields` | bpa_exporter.py:285-297 | the header starts with `01` and `#BPA#`, holds the competence and destination kind as given, and pads the text fields to at least their widths |
| `Encoder.ExtensionOfMonth` | bpa_exporter.py:1235-1237 | a competence ending in month 01..12 gets that month's three-letter extension |
| `Encoder.ExtensionOfMonthZero` | bpa_exporter.py:1235-1237 | a competence ending in `00` gets `DEZ`, because index -1 counts from the end of the list |
| `Encoder.ExtensionOfMonthBeyondTwelve` | bpa_exporter.py:1235-1237 | a month beyond 12 gives no extension, and the export fails |
| `Encoder.ExportLines` | bpa_exporter.py:1235-1316 | the export succeeds exactly when the month gives an extension (`int()` of the last two characters, which raises on an information separator) and the header line and every record line hold only characters up to U+00FF, which the `latin-1` codec can encode (bpa_exporter.py:1247, 1311-1316); the file is then the header line followed by each record's line in order, every line ending in CR LF |
| `Encoder.RecordLineStarts` | bpa_exporter.py:1266-1306 | a record line starts with the record's identifier |
| `Records.FieldAt` | bpa_exporter.py:1249-1263 | each field of a concatenated line sits right after the fields before it |
| `Layout.HeaderLayout` | bpa_validator.py:23-36 | the header table has twelve fields |
| `Layout.DetailLayout` | bpa_validator.py:39-79 | the record table has 39 fields |
| `Layout.MaxEnd` | bpa_validator.py:148 | the minimum line length is the greatest last column of the table |
| `Layout.HeaderTiles` | bpa_validator.py:23-36 | the header fields cover columns 1 to 130 in order with no gap or overlap |
| `Layout.DetailTiles` | bpa_validator.py:39-79 | the record fields cover columns 1 to 350 in order with no gap or overlap |
| `Layout.HeaderSized` | bpa_validator.py:30-35 | every size limit of the header table equals its field's width |
| `Layout.DetailSized` | bpa_validator.py:39-79 | every size limit of the record table equals its field's width |
| `FieldCheck.ContentIssues` | bpa_validator.py:113-125 | at most one content rule applies, and it never reports a missing field |
| `FieldCheck.FormatIssues` | bpa_validator.py:127-142 | at most one date or competence problem, and only when the stripped text passes `isdigit()` |
| `FieldCheck.FieldIssues` | bpa_validator.py:97-143 | a blank field gives exactly one problem when required and none otherwise; a non-blank field gives at most two and never the missing-field problem |
| `FieldCheck.FixedValueAccepts` | bpa_validator.py:113-115 | a field with an exact value passes exactly when it holds that value, or is blank and optional |
| `FieldCheck.ChoiceAccepts` | bpa_validator.py:116-119 | a field with a list of values passes exactly when its stripped text is in the list, or it is blank and optional |
| `FieldCheck.PatternAccepts` | bpa_validator.py:120-122 | a field with a pattern passes exactly when its text (without trailing spaces for text fields) matches in full, or it is blank and optional |
| `FieldCheck.SizeAccepts` | bpa_validator.py:123-125 | a sized text field passes exactly when its text without trailing spaces fits, or it is blank and optional |
| `FieldCheck.SizeNeverExceeded` | bpa_validator.py:123-125 | a field without a size, or no wider than its size, never draws the size problem |
| `FieldCheck.DateFieldIssues` | bpa_validator.py:128-133 | eight digits in a date field are refused exactly when they do not name a calendar day |
| `FieldCheck.CompetenceFieldIssues` | bpa_validator.py:134-142 | six digits in a competence field are refused exactly when the year is outside 1900..current year + 5 or the month outside 1..12 |
| `Validator.CheckHeaderFields` | bpa_validator.py:153-159 | the loop over the header table collects, in table order, the errors `HeaderFieldsIssues` defines |
| `Validator.CheckRecordFields` | bpa_validator.py:175-184 | the loop over the record table collects, in table order, the errors `RecordFieldsIssues` defines |
| `Validator.BpaValidator.constructor` | bpa_validator.py:21-82 | a new validator has both layout tables and fresh statistics |
| `Validator.BpaValidator.ResetStats` | bpa_validator.py:84-95 | the statistics are back to zero counts, no errors and competence `N/A` |
| `Validator.BpaValidator.ValidateHeader` | bpa_validator.py:145-160 | one length error for a line shorter than 130, otherwise the errors of every field; valid exactly when there are none |
| `Validator.BpaValidator.ValidateRecord` | bpa_validator.py:162-185 | one identifier error for a line not starting with `03`; otherwise a length error for a short line followed by the errors of every field; valid exactly when there are none |
| `Validator.BpaValidator.ValidateFile` | bpa_validator.py:187-301 | the statistics after the scan are `FileStats` of the lines, and the verdict is `Accepted`, that is, no error was collected |
| `Validator.BpaValidator.ReadHeader` | bpa_validator.py:198-215 | the header step: an empty header stops the scan with one error; otherwise the header's errors are kept and the declared counts read |
| `Validator.BpaValidator.KeepHeader` | bpa_validator.py:205-215 | keeps the header's errors and reads the competence and declared counts; a counter whose `int()` raises stops the scan with one error |
| `Validator.BpaValidator.ReadBody` | bpa_validator.py:217-237 | a `03` line is counted and tallied as valid or invalid with its errors kept; a blank line changes nothing; any other line adds one error |
| `Validator.BpaValidator.FinalChecks` | bpa_validator.py:240-270 | an empty file adds one error; otherwise a count mismatch and a sheet mismatch add one error each |
| `Verdict.ExpectedPagesIsCeiling` | bpa_validator.py:253-263 | the expected sheet count is 0 when no records are declared, 1 when none are found, and otherwise the least number of 99-record sheets holding them |
| `Verdict.HeaderFieldsClean` | bpa_validator.py:153-160 | a header without errors has no error in any single field |
| `Verdict.AcceptedHeaderCounters` | bpa_validator.py:145-160 | a header without errors is at least 130 long, and both declared counts are six plain digits that read without raising |
| `Verdict.DecimalCounter` | bpa_validator.py:213-214 | a counter of plain digits reads as its decimal value |
| `Verdict.HeaderNeverTruncated` | bpa_validator.py:153-158 | on a line reaching every column no header field is reported missing |
| `Verdict.RecordTruncations` | bpa_validator.py:175-181 | a record field is reported missing exactly when it is required and ends beyond the line; optional ones are skipped |
| `Verdict.NeverTooLong` | bpa_validator.py:123-125 | on a table whose size limits equal its widths no field draws the size problem |
| `Verdict.RecordNeverTooLong` | bpa_validator.py:123-125 | no record line ever draws the size problem |
| `Verdict.BodyStepFacts` | bpa_validator.py:217-237 | one line after the header keeps the totals consistent and adds errors exactly when it is neither a faultless record nor blank |
| `Verdict.BodyScan` | bpa_validator.py:194-237 | the scan after the header never stops, counts every line, counts the `03` lines as records, tallies each as valid or invalid, and collects no error exactly when every line is accepted |
| `Verdict.HeaderStepFacts` | bpa_validator.py:198-215 | the header step stops exactly on an empty header or a counter whose `int()` raises, and otherwise reads the declared counts and collects no error exactly when the header is accepted |
| `Verdict.AcceptedIffWellFormed` | bpa_validator.py:187-301 | the file passes exactly when it is well formed: an accepted non-empty header, accepted later lines, and declared counts matching the records found |
| `Verdict.FileTally` | bpa_validator.py:194-244 | records found equal valid plus invalid; no more lines are read than exist; an empty file gives exactly the empty-file error; after a header that does not stop the scan, every line is read and the records found are the `03` lines |
| `Crosscheck.ColumnsHoldParts` | bpa_exporter.py:1249-1263 | parts as wide as the fields of a gap-free table land each in its field's columns |
| `Crosscheck.WrittenLineColumns` | bpa_exporter.py:1263 | a written line, its line break stripped again, gives back every part in its field's columns |
| `Crosscheck.ExportedHeaderColumns` | bpa_exporter.py:1249-1263 | for a competence and configuration texts of the header's widths and without CR or LF, the exported header, read back, is 130 columns wide with every header field in the columns of the validator's header table |
| `Crosscheck.ExportedHeaderCounts` | bpa_exporter.py:285-289 | under the same premises, the validator reads back from an exported header the competence, the number of records and the number of 20-record sheets |
| `Crosscheck.StrippedRecordLine` | bpa_exporter.py:1266-1306 | an exported record line is recognised as a `03` record |
| `Crosscheck.PagesAgree` | bpa_exporter.py:280 | the header's sheet count equals the one the validator expects exactly for 1 to 20 records |
| `Crosscheck.ReadBackLines` | bpa_validator.py:193-196 | lines each ending in CR LF with no other CR or LF, written one after another, are read back in text mode as as many lines, each its text followed by one LF |
| `Crosscheck.WrittenFileCounts` | bpa_validator.py:247-270 | a written file whose header declares `n` records and `n/20` rounded up sheets, followed by `n` record lines, is read as `n + 1` lines, `n` of them records matching the declared count, and the sheet counts agree exactly for 1 to 20 records |
| `Crosscheck.ExportedFileCounts` | bpa_validator.py:247-270 | in an exported file, written with CR LF and read back in text mode, with no CR or LF inside a header text or record field, the validator finds exactly the exported records and their declared count; the sheet counts agree exactly for 1 to 20 records, so any other file is refused |
| `Crosscheck.CboSixWide` | bpa_exporter.py:19-63 | every looked-up occupation code has six digits except the one for profession type 6 |
| `Crosscheck.CboCodeChecked` | bpa_exporter.py:848 | the exported occupation field passes the validator's `prd_cbo` check exactly when the profession type is not 6, which always draws the pattern problem |

## Left out

- Database access (connection, queries, the query that maps internal procedure codes): the rows and the code map are inputs (`Row`, `map<string, string>`).
- The Tkinter interface, the test-record generator, and the CSV and XLSX writers: they are user interface and thin library wrappers.
- File handling: opening, path and extension handling on disk, and the conversion of the text to latin-1 bytes. A character the codec cannot encode is modelled only as the export's failure (`Encoder.ExportFile` gives `None`); the partly written file left on disk when that happens is not modelled. The exporter's result is the extension and the list of lines, whose concatenation is the file's text (`Encoder.FileText`, written with `newline=''`). The validator's scan takes the list of lines; `PyText.UniversalLines` models how text-mode reading splits a text into them, and the cross-check reads the exported text through it.
- Console output, colours, the HTML report and the command line: they produce no state the verdict depends on.
- The clock: the current date (`datetime.now()`) is a parameter (`today`, `currentYear`).
- Error messages: errors are datatype values that name their line, field and problem, not formatted texts.
- Characters above U+00FF in database texts: the Python string helpers (`strip()`, `isdigit()`, `int()`) are modelled over latin-1 text only. Above U+00FF, Python also treats other Unicode whitespace (such as U+3000) as blank and other Unicode decimal digits (such as U+FF12) as digits that `int()` reads; the model treats them as ordinary characters. The rows below are stated for database texts whose characters are all at most U+00FF.
- `Assembler.RecordDemographics`: for a sex text such as `"3\u3000"` the source strips it to `'3'` and writes `F`; the model does not strip U+3000 and writes `M`.
- `Assembler.RecordQuantity`: for a quantity text of full-width digits such as `"\uFF12"` the source's `int()` reads 2; the model refuses it.
- `Assembler.ProcessRows`: stops at a row whose quantity holds full-width digits, where the source builds its record.
- `Lookups.CboOfDigitText`: covers latin-1 digit texts only; a full-width digit text such as `"\uFF13"` selects table entry 3 in the source.
- `Lookups.CboOfOtherText`: a full-width digit text counts as refused by `isdigit()` in the model and gives `000000`, where the source reads it as a table key.
- `Assembler.DiagnosisPriority`: a diagnosis column holding only non-latin-1 whitespace (such as U+3000) is blank for the source and skipped, but non-blank for the model and chosen.
- Floating point and `Decimal` values from the database are not modelled: a row's values are texts or integers.
- `Assembler.RecordPaging`: states the sheet as `i / 99 + 1` in integer division, whereas the source computes `math.floor(i / 99)` in floating point, which is exact only below 2^53 rows.
- `Verdict.ExpectedPagesIsCeiling`: states `math.ceil(found / 99)` exactly, whereas the source divides in floating point, which is exact only below 2^53 records.
- `Encoder.HeaderPagesIsCeiling`: states `math.ceil(n / 20)` exactly, whereas the source divides in floating point, which is exact only below 2^53 records.
- Dates are rendered with the year zero-padded to four digits; the platform-dependent `strftime('%Y')` rendering of years below 1000 is not modelled.
- The allowed values of `prd_situacao_rua` are a parameter (`situacaoRuaValues`), because the list is empty in the source as given.
- The municipality column `cod_municipio` is read but never used by the exporter beyond choosing the default IBGE code, and the model keeps only that choice.
- `Crosscheck.ExportedFileCounts`: requires every record to carry identifier `03`, which `Assembler.RecordFixedFields` proves of every assembled record, configuration texts no longer than their header fields, and no CR or LF in the competence, a configuration text or a record field. Text-mode reading ends a line at any CR or LF, so a break inside a field splits the line and the counts differ; such files are not related to what the validator finds. Records longer than their columns, such as an over-long CNES, are not related to the record table.
