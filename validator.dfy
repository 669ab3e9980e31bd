/**
 * The BPA-I validator (`BPAValidator`): the header and record checks, the
 * line-by-line scan of a file with its running statistics, and the final
 * consistency checks between the header's declared counts and the records
 * found. The verdict is whether any error was collected.
 */
module Validator {
  import opened Wrappers
  import opened PyText
  import opened Layout
  import opened FieldCheck

  /** One collected error; the message texts are not modelled, only what they report. */
  datatype Issue =
    | FieldError(line: nat, field: string, problem: Problem)
    | FieldTruncated(line: nat, field: string)
    | HeaderTooShort(length: nat)
    | BadIdentifier(line: nat)
    | RecordTooShort(line: nat, length: nat)
    | EmptyHeader
    | UnknownLine(line: nat)
    | Unexpected(line: nat)
    | EmptyFile
    | CountMismatch(found: nat, declared: int)
    | PageMismatch(expected: nat, declared: int)

  /** The validator's statistics (`self.stats`). */
  datatype Stats = Stats(
    totalRead: nat, totalRecords: nat, validRecords: nat, invalidRecords: nat,
    errors: seq<Issue>, competence: string, declaredLines: int, declaredPages: int)

  /** `_reset_stats`. */
  const InitialStats: Stats := Stats(0, 0, 0, 0, [], "N/A", 0, 0)

  /** The problems of one field, each reported with its line and field name. */
  function Tag(line: nat, name: string, ps: seq<Problem>): (r: seq<Issue>)
    ensures |r| == |ps|
    ensures forall k :: 0 <= k < |r| ==> r[k] == FieldError(line, name, ps[k])
  {
    seq(|ps|, k requires 0 <= k < |ps| => FieldError(line, name, ps[k]))
  }

  // ---------------------------------------------------------------------------
  // The header line (`validar_header`).

  /** One header field: the slice of its columns, or "" when the line does not reach its end. */
  function HeaderFieldIssues(line: string, f: FieldSpec, currentYear: int): seq<Issue>
    requires FieldOk(f)
  {
    var raw := if |line| >= f.end then line[f.start - 1..f.end] else "";
    if raw == "" && f.required then [FieldTruncated(1, f.name)]
    else Tag(1, f.name, FieldIssues(raw, f, currentYear))
  }

  /** The errors of the given header fields, in table order. */
  function HeaderFieldsIssues(line: string, fs: seq<FieldSpec>, currentYear: int): seq<Issue>
    requires WellFormed(fs)
  {
    if fs == [] then []
    else HeaderFieldsIssues(line, fs[..|fs| - 1], currentYear) + HeaderFieldIssues(line, fs[|fs| - 1], currentYear)
  }

  lemma {:induction false} HeaderFieldsSnoc(line: string, fs: seq<FieldSpec>, i: nat, currentYear: int)
    requires WellFormed(fs) && i < |fs|
    ensures WellFormed(fs[..i]) && WellFormed(fs[..i + 1]) && FieldOk(fs[i])
    ensures HeaderFieldsIssues(line, fs[..i + 1], currentYear) ==
      HeaderFieldsIssues(line, fs[..i], currentYear) + HeaderFieldIssues(line, fs[i], currentYear)
  {
    assert fs[..i + 1][..i] == fs[..i];
  }

  /** The header's errors: one for a line shorter than the table, otherwise those of every field. */
  function HeaderIssues(line: string, layout: seq<FieldSpec>, currentYear: int): seq<Issue>
    requires WellFormed(layout)
  {
    if |line| < MaxEnd(layout) then [HeaderTooShort(|line|)]
    else HeaderFieldsIssues(line, layout, currentYear)
  }

  // ---------------------------------------------------------------------------
  // A record line (`validar_registro_bpa_i`).

  /** One record field: missing (reported only when required) when the line ends before it. */
  function RecordFieldIssues(line: string, lineNo: nat, f: FieldSpec, currentYear: int): seq<Issue>
    requires FieldOk(f)
  {
    if |line| < f.end then (if f.required then [FieldTruncated(lineNo, f.name)] else [])
    else Tag(lineNo, f.name, FieldIssues(line[f.start - 1..f.end], f, currentYear))
  }

  function RecordFieldsIssues(line: string, lineNo: nat, fs: seq<FieldSpec>, currentYear: int): seq<Issue>
    requires WellFormed(fs)
  {
    if fs == [] then []
    else RecordFieldsIssues(line, lineNo, fs[..|fs| - 1], currentYear) + RecordFieldIssues(line, lineNo, fs[|fs| - 1], currentYear)
  }

  lemma {:induction false} RecordFieldsSnoc(line: string, lineNo: nat, fs: seq<FieldSpec>, i: nat, currentYear: int)
    requires WellFormed(fs) && i < |fs|
    ensures WellFormed(fs[..i]) && WellFormed(fs[..i + 1]) && FieldOk(fs[i])
    ensures RecordFieldsIssues(line, lineNo, fs[..i + 1], currentYear) ==
      RecordFieldsIssues(line, lineNo, fs[..i], currentYear) + RecordFieldIssues(line, lineNo, fs[i], currentYear)
  {
    assert fs[..i + 1][..i] == fs[..i];
  }

  /** A line starting with the record identifier `03`. */
  predicate IsRecordLine(line: string) {
    |line| >= 2 && line[..2] == "03"
  }

  /**
   * A record's errors: only the identifier error when it does not start with
   * `03`; otherwise a length error when it is shorter than the table, followed
   * by the errors of every field.
   */
  function RecordIssues(line: string, lineNo: nat, layout: seq<FieldSpec>, currentYear: int): seq<Issue>
    requires WellFormed(layout)
  {
    if !IsRecordLine(line) then [BadIdentifier(lineNo)]
    else
      (if |line| < MaxEnd(layout) then [RecordTooShort(lineNo, |line|)] else []) +
      RecordFieldsIssues(line, lineNo, layout, currentYear)
  }

  // ---------------------------------------------------------------------------
  // The scan of a file (`validar_arquivo`).

  /** Reading a declared counter from the header: not attempted, `int()` raised, or its value. */
  datatype Counter = Skipped | Raised | Value(v: int)

  /** `int(line[i:j])` when the line reaches `j` and the slice passes `isdigit()`. */
  function ReadCounter(line: string, i: nat, j: nat): Counter
    requires i <= j
  {
    if |line| >= j && PyIsDigit(line[i..j]) then
      match PyInt(line[i..j])
      case None => Raised
      case Some(v) => Value(v)
    else Skipped
  }

  /** The statistics so far, and whether the scan has stopped (a `return` or an exception). */
  datatype Progress = Progress(stats: Stats, stopped: bool)

  function AddError(s: Stats, e: Issue): Stats {
    s.(errors := s.errors + [e])
  }

  /** The header line, after it has been counted as read. */
  function HeaderStep(s: Stats, line: string, currentYear: int): Progress {
    if line == [] then Progress(AddError(s, EmptyHeader), true)
    else
      HeaderTiles();
      HeaderRead(s, line, HeaderIssues(line, HeaderLayout(), currentYear))
  }

  /** A non-empty header with its errors `errs`: they are kept, then the competence and counters are read. */
  function HeaderRead(s: Stats, line: string, errs: seq<Issue>): Progress {
    var s1 := if errs != [] then s.(errors := s.errors + errs) else s;
    var s2 := if |line| >= 13 then s1.(competence := line[7..13]) else s1;
    match ReadCounter(line, 13, 19)
    case Raised => Progress(AddError(s2, Unexpected(1)), true)
    case Skipped => PagesStep(s2, line)
    case Value(n) => PagesStep(s2.(declaredLines := n), line)
  }

  /** Reading the declared sheet count, the last thing done with the header. */
  function PagesStep(s: Stats, line: string): Progress {
    match ReadCounter(line, 19, 25)
    case Raised => Progress(AddError(s, Unexpected(1)), true)
    case Skipped => Progress(s, false)
    case Value(n) => Progress(s.(declaredPages := n), false)
  }

  /** Any line after the first, after it has been counted as read. */
  function BodyStep(s: Stats, line: string, lineNo: nat, situacaoRuaValues: seq<string>, currentYear: int): Stats {
    if IsRecordLine(line) then
      DetailTiles(situacaoRuaValues);
      var errs := RecordIssues(line, lineNo, DetailLayout(situacaoRuaValues), currentYear);
      var s1 := s.(totalRecords := s.totalRecords + 1);
      if errs == [] then s1.(validRecords := s1.validRecords + 1)
      else s1.(invalidRecords := s1.invalidRecords + 1, errors := s1.errors + errs)
    else if Strip(line) == [] then s
    else AddError(s, UnknownLine(lineNo))
  }

  /** One iteration of the loop over the file's lines, numbered from 1. */
  function Step(s: Stats, lineNo: nat, raw: string, situacaoRuaValues: seq<string>, currentYear: int): Progress {
    var counted := s.(totalRead := s.totalRead + 1);
    var line := RStripNewlines(raw);
    if lineNo == 1 then HeaderStep(counted, line, currentYear)
    else Progress(BodyStep(counted, line, lineNo, situacaoRuaValues, currentYear), false)
  }

  /** The loop from the line at index `i` on, until the lines run out or the scan stops. */
  function Scan(lines: seq<string>, i: nat, p: Progress, situacaoRuaValues: seq<string>, currentYear: int): Progress
    decreases |lines| - i
  {
    if i >= |lines| || p.stopped then p
    else Scan(lines, i + 1, Step(p.stats, i + 1, lines[i], situacaoRuaValues, currentYear), situacaoRuaValues, currentYear)
  }

  /**
   * The sheets the records found should fill: none when the header declares
   * no records, otherwise `ceil(found / 99)`, and one sheet when none was found.
   */
  function ExpectedPages(found: nat, declared: int): nat {
    if declared == 0 then 0
    else
      var computed := if found > 0 then (found + 98) / 99 else 1;
      if declared > 0 && found == 0 then 1 else computed
  }

  /** The checks after the loop: an empty file, then the declared record and sheet counts. */
  function Finish(s: Stats): Stats {
    if s.totalRead == 0 then AddError(s, EmptyFile)
    else
      var s1 := if s.totalRecords != s.declaredLines then AddError(s, CountMismatch(s.totalRecords, s.declaredLines)) else s;
      var pages := ExpectedPages(s.totalRecords, s.declaredLines);
      if pages != s.declaredPages then AddError(s1, PageMismatch(pages, s.declaredPages)) else s1
  }

  /** The statistics `validar_arquivo` leaves behind for the given lines. */
  function FileStats(lines: seq<string>, situacaoRuaValues: seq<string>, currentYear: int): Stats {
    var p := Scan(lines, 0, Progress(InitialStats, false), situacaoRuaValues, currentYear);
    if p.stopped then p.stats else Finish(p.stats)
  }

  /** The verdict: the file passes exactly when no error was collected. */
  predicate Accepted(lines: seq<string>, situacaoRuaValues: seq<string>, currentYear: int) {
    FileStats(lines, situacaoRuaValues, currentYear).errors == []
  }

  // ---------------------------------------------------------------------------
  // The loops over a layout table's fields.

  /** The loop of `validar_header` over the table's fields, on a line that reaches every field. */
  method CheckHeaderFields(line: string, fs: seq<FieldSpec>, currentYear: int) returns (errors: seq<Issue>)
    requires WellFormed(fs)
    ensures errors == HeaderFieldsIssues(line, fs, currentYear)
  {
    errors := [];
    var i := 0;
    while i < |fs|
      invariant 0 <= i <= |fs|
      invariant WellFormed(fs[..i])
      invariant errors == HeaderFieldsIssues(line, fs[..i], currentYear)
    {
      var f := fs[i];
      HeaderFieldsSnoc(line, fs, i, currentYear);
      var raw := if |line| >= f.end then line[f.start - 1..f.end] else "";
      if raw == "" && f.required {
        errors := errors + [FieldTruncated(1, f.name)];
      } else {
        var issues := FieldIssues(raw, f, currentYear);
        errors := errors + Tag(1, f.name, issues);
      }
      i := i + 1;
    }
    assert fs[..i] == fs;
  }

  /** One pass of that loop: a field the line does not reach, or the problems of its slice. */
  method CheckRecordField(line: string, lineNo: nat, f: FieldSpec, currentYear: int) returns (issues: seq<Issue>)
    requires FieldOk(f)
    ensures issues == RecordFieldIssues(line, lineNo, f, currentYear)
  {
    if |line| < f.end {
      issues := if f.required then [FieldTruncated(lineNo, f.name)] else [];
    } else {
      var ps := FieldIssues(line[f.start - 1..f.end], f, currentYear);
      issues := Tag(lineNo, f.name, ps);
    }
  }

  /** The loop of `validar_registro_bpa_i` over the table's fields. */
  method CheckRecordFields(line: string, lineNo: nat, fs: seq<FieldSpec>, currentYear: int) returns (errors: seq<Issue>)
    requires WellFormed(fs)
    ensures errors == RecordFieldsIssues(line, lineNo, fs, currentYear)
  {
    errors := [];
    var i := 0;
    while i < |fs|
      invariant 0 <= i <= |fs|
      invariant WellFormed(fs[..i])
      invariant errors == RecordFieldsIssues(line, lineNo, fs[..i], currentYear)
    {
      RecordFieldsSnoc(line, lineNo, fs, i, currentYear);
      var issues := CheckRecordField(line, lineNo, fs[i], currentYear);
      errors := errors + issues;
      i := i + 1;
    }
    assert fs[..i] == fs;
  }

  // ---------------------------------------------------------------------------
  // The validator object.

  class BpaValidator {
    const situacaoRuaValues: seq<string>
    const headerLayout: seq<FieldSpec> := HeaderLayout()
    const detailLayout: seq<FieldSpec> := DetailLayout(situacaoRuaValues)
    var stats: Stats

    /** `__init__`: the two layouts and fresh statistics. */
    constructor(situacaoRuaValues: seq<string>)
      ensures this.situacaoRuaValues == situacaoRuaValues
      ensures stats == InitialStats
    {
      this.situacaoRuaValues := situacaoRuaValues;
      stats := InitialStats;
    }

    /** `_reset_stats`. */
    method ResetStats()
      modifies this
      ensures stats == InitialStats
    {
      stats := InitialStats;
    }

    /** `validar_header`: the header's errors, and whether there are none. */
    method ValidateHeader(line: string, currentYear: int) returns (valid: bool, errors: seq<Issue>)
      ensures WellFormed(headerLayout)
      ensures errors == HeaderIssues(line, headerLayout, currentYear)
      ensures valid <==> errors == []
    {
      HeaderTiles();
      if |line| < MaxEnd(headerLayout) {
        return false, [HeaderTooShort(|line|)];
      }
      errors := CheckHeaderFields(line, headerLayout, currentYear);
      valid := errors == [];
    }

    /** `validar_registro_bpa_i`: a record's errors, and whether there are none. */
    method ValidateRecord(line: string, lineNo: nat, currentYear: int) returns (valid: bool, errors: seq<Issue>)
      ensures WellFormed(detailLayout)
      ensures errors == RecordIssues(line, lineNo, detailLayout, currentYear)
      ensures valid <==> errors == []
    {
      DetailTiles(situacaoRuaValues);
      if |line| < 2 || line[..2] != "03" {
        return false, [BadIdentifier(lineNo)];
      }
      errors := [];
      if |line| < MaxEnd(detailLayout) {
        errors := [RecordTooShort(lineNo, |line|)];
      }
      var fieldErrors := CheckRecordFields(line, lineNo, detailLayout, currentYear);
      errors := errors + fieldErrors;
      valid := errors == [];
    }

    /**
     * `validar_arquivo` on the lines the file yields: the statistics it leaves
     * are those of the scan and the final checks, and it answers whether no
     * error was collected.
     */
    method ValidateFile(lines: seq<string>, currentYear: int) returns (ok: bool)
      modifies this
      ensures stats == FileStats(lines, situacaoRuaValues, currentYear)
      ensures ok <==> Accepted(lines, situacaoRuaValues, currentYear)
    {
      ResetStats();
      var stopped := false;
      var i := 0;
      while i < |lines| && !stopped
        invariant 0 <= i <= |lines|
        invariant Scan(lines, i, Progress(stats, stopped), situacaoRuaValues, currentYear) ==
          Scan(lines, 0, Progress(InitialStats, false), situacaoRuaValues, currentYear)
      {
        var before := stats;
        stats := stats.(totalRead := stats.totalRead + 1);
        var line := RStripNewlines(lines[i]);
        if i == 0 {
          stopped := ReadHeader(line, currentYear);
          assert Progress(stats, stopped) == Step(before, i + 1, lines[i], situacaoRuaValues, currentYear);
        } else {
          ReadBody(line, i + 1, currentYear);
          assert Progress(stats, stopped) == Step(before, i + 1, lines[i], situacaoRuaValues, currentYear);
        }
        i := i + 1;
      }
      if !stopped {
        FinalChecks();
      }
      ok := stats.errors == [];
    }

    /** The header branch of the loop. */
    method ReadHeader(line: string, currentYear: int) returns (stopped: bool)
      modifies this
      ensures Progress(stats, stopped) == HeaderStep(old(stats), line, currentYear)
    {
      if line == [] {
        stats := AddError(stats, EmptyHeader);
        return true;
      }
      var valid, errs := ValidateHeader(line, currentYear);
      stopped := KeepHeader(line, valid, errs);
    }

    /** The header's errors are kept, then the competence and the declared counts are read. */
    method KeepHeader(line: string, valid: bool, errs: seq<Issue>) returns (stopped: bool)
      requires valid <==> errs == []
      modifies this
      ensures Progress(stats, stopped) == HeaderRead(old(stats), line, errs)
    {
      if !valid {
        stats := stats.(errors := stats.errors + errs);
      }
      if |line| >= 13 {
        stats := stats.(competence := line[7..13]);
      }
      if |line| >= 19 && PyIsDigit(line[13..19]) {
        var n := PyInt(line[13..19]);
        if n.None? {
          stats := AddError(stats, Unexpected(1));
          return true;
        }
        stats := stats.(declaredLines := n.value);
      }
      if |line| >= 25 && PyIsDigit(line[19..25]) {
        var n := PyInt(line[19..25]);
        if n.None? {
          stats := AddError(stats, Unexpected(1));
          return true;
        }
        stats := stats.(declaredPages := n.value);
      }
      stopped := false;
    }

    /** The branch of the loop for the lines after the header. */
    method ReadBody(line: string, lineNo: nat, currentYear: int)
      modifies this
      ensures stats == BodyStep(old(stats), line, lineNo, situacaoRuaValues, currentYear)
    {
      if |line| >= 2 && line[0..2] == "03" {
        stats := stats.(totalRecords := stats.totalRecords + 1);
        var valid, errs := ValidateRecord(line, lineNo, currentYear);
        if valid {
          stats := stats.(validRecords := stats.validRecords + 1);
        } else {
          stats := stats.(invalidRecords := stats.invalidRecords + 1, errors := stats.errors + errs);
        }
      } else if Strip(line) == [] {
      } else {
        stats := AddError(stats, UnknownLine(lineNo));
      }
    }

    /** The checks after the loop. */
    method FinalChecks()
      modifies this
      ensures stats == Finish(old(stats))
    {
      if stats.totalRead == 0 {
        stats := AddError(stats, EmptyFile);
        return;
      }
      if stats.totalRecords != stats.declaredLines {
        stats := AddError(stats, CountMismatch(stats.totalRecords, stats.declaredLines));
      }
      var pages;
      if stats.declaredLines == 0 {
        pages := 0;
      } else {
        pages := if stats.totalRecords > 0 then (stats.totalRecords + 98) / 99 else 1;
        if stats.declaredLines > 0 && stats.totalRecords == 0 {
          pages := 1;
        }
      }
      if pages != stats.declaredPages {
        stats := AddError(stats, PageMismatch(pages, stats.declaredPages));
      }
    }
  }
}
