/**
 * What the validator's verdict means: a file passes exactly when it has a
 * non-empty header free of errors, every later line is a faultless record or
 * blank, and the header's declared record and sheet counts agree with the
 * records found. Also the bookkeeping the statistics keep.
 */
module Verdict {
  import opened Wrappers
  import opened PyText
  import opened Layout
  import opened FieldCheck
  import opened Validator

  /** The number of lines that start with the record identifier. */
  function CountRecordLines(lines: seq<string>): nat {
    if lines == [] then 0
    else (if IsRecordLine(RStripNewlines(lines[0])) then 1 else 0) + CountRecordLines(lines[1..])
  }

  predicate HeaderAccepted(line: string, currentYear: int) {
    HeaderTiles();
    HeaderIssues(line, HeaderLayout(), currentYear) == []
  }

  /** A line after the header that draws no error: a faultless record, or blank. */
  predicate LineAccepted(line: string, lineNo: nat, situacaoRuaValues: seq<string>, currentYear: int) {
    if IsRecordLine(line) then
      DetailTiles(situacaoRuaValues);
      RecordIssues(line, lineNo, DetailLayout(situacaoRuaValues), currentYear) == []
    else IsBlank(line)
  }

  /** Every line from index `i` on is accepted (line numbers count from 1). */
  predicate LinesAccepted(lines: seq<string>, i: nat, situacaoRuaValues: seq<string>, currentYear: int) {
    forall k :: i <= k < |lines| ==> LineAccepted(RStripNewlines(lines[k]), k + 1, situacaoRuaValues, currentYear)
  }

  function DeclaredValue(c: Counter): int {
    match c
    case Value(n) => n
    case _ => 0
  }

  /** A file the validator should pass, stated without reference to the scan. */
  predicate WellFormedFile(lines: seq<string>, situacaoRuaValues: seq<string>, currentYear: int) {
    |lines| > 0 &&
    var header := RStripNewlines(lines[0]);
    header != [] && HeaderAccepted(header, currentYear) &&
    LinesAccepted(lines, 1, situacaoRuaValues, currentYear) &&
    var found := CountRecordLines(lines[1..]);
    var declared := DeclaredValue(ReadCounter(header, 13, 19));
    found == declared && ExpectedPages(found, declared) == DeclaredValue(ReadCounter(header, 19, 25))
  }

  // ---------------------------------------------------------------------------
  // The expected sheet count.

  /** No sheets when no records are declared; otherwise the least number of 99-record sheets, and at least one. */
  lemma {:induction false} ExpectedPagesIsCeiling(found: nat, declared: int)
    ensures declared == 0 ==> ExpectedPages(found, declared) == 0
    ensures declared != 0 && found == 0 ==> ExpectedPages(found, declared) == 1
    ensures declared != 0 && found > 0 ==>
      var p := ExpectedPages(found, declared);
      (p - 1) * 99 < found <= p * 99
  {
  }

  // ---------------------------------------------------------------------------
  // The header.

  /** The errors of a list of fields are empty only when the errors of each field are. */
  lemma {:induction false} HeaderFieldsClean(line: string, fs: seq<FieldSpec>, k: nat, currentYear: int)
    requires WellFormed(fs) && k < |fs| && HeaderFieldsIssues(line, fs, currentYear) == []
    ensures HeaderFieldIssues(line, fs[k], currentYear) == []
    decreases |fs|
  {
    var init := fs[..|fs| - 1];
    assert WellFormed(init);
    if k < |fs| - 1 {
      assert fs[k] == init[k];
      HeaderFieldsClean(line, init, k, currentYear);
    }
  }

  /** A numeric counter field of a header without errors holds plain digits. */
  lemma {:induction false} CounterFieldDigits(line: string, f: FieldSpec, currentYear: int)
    requires FieldOk(f) && |line| >= f.end
    requires f == Numeric(f.name, f.start, f.end, f.end - f.start + 1, f.end - f.start + 1, true)
    requires PlainField(f)
    requires HeaderFieldIssues(line, f, currentYear) == []
    ensures AllDecimal(line[f.start - 1..f.end])
  {
    var raw := line[f.start - 1..f.end];
    assert raw != [];
    assert FieldIssues(raw, f, currentYear) == [];
    PatternAccepts(raw, f, currentYear);
    assert FullMatch(Pattern(Digits, f.end - f.start + 1, f.end - f.start + 1), raw);
  }

  /** The entries of the header table for the declared record and sheet counts. */
  lemma {:induction false} HeaderCounterEntries()
    ensures HeaderLayout()[3] == Numeric("cbc_lin", 14, 19, 6, 6, true)
    ensures HeaderLayout()[4] == Numeric("cbc_flh", 20, 25, 6, 6, true)
    ensures PlainField(HeaderLayout()[3]) && PlainField(HeaderLayout()[4])
  {
  }

  /**
   * A header without errors declares both counts as six plain digits, so
   * reading them never raises.
   */
  lemma {:induction false} AcceptedHeaderCounters(line: string, currentYear: int)
    requires HeaderAccepted(line, currentYear)
    ensures |line| >= 130
    ensures AllDecimal(line[13..19]) && ReadCounter(line, 13, 19) == Value(DecimalValue(line[13..19]))
    ensures AllDecimal(line[19..25]) && ReadCounter(line, 19, 25) == Value(DecimalValue(line[19..25]))
  {
    HeaderTiles();
    HeaderCounterEntries();
    var fs := HeaderLayout();
    HeaderFieldsClean(line, fs, 3, currentYear);
    HeaderFieldsClean(line, fs, 4, currentYear);
    CounterFieldDigits(line, fs[3], currentYear);
    CounterFieldDigits(line, fs[4], currentYear);
    DecimalCounter(line, 13, 19);
    DecimalCounter(line, 19, 25);
  }

  lemma {:induction false} DecimalCounter(line: string, i: nat, j: nat)
    requires i < j <= |line| && AllDecimal(line[i..j])
    ensures ReadCounter(line, i, j) == Value(DecimalValue(line[i..j]))
  {
    assert PyIsDigit(line[i..j]) by {
      forall k | 0 <= k < j - i ensures IsPyDigit(line[i..j][k]) {
        assert IsDecimal(line[i..j][k]);
      }
    }
    PyIntOfDecimal(line[i..j]);
  }

  /** On a line that reaches every column, no header field is reported as missing. */
  lemma {:induction false} HeaderNeverTruncated(line: string, fs: seq<FieldSpec>, currentYear: int)
    requires WellFormed(fs) && |line| >= MaxEnd(fs)
    ensures forall e :: e in HeaderFieldsIssues(line, fs, currentYear) ==> !e.FieldTruncated?
    decreases |fs|
  {
    if fs != [] {
      var init := fs[..|fs| - 1];
      assert WellFormed(init);
      assert MaxEnd(init) <= MaxEnd(fs) by {
        if init != [] {
          var k :| 0 <= k < |init| && init[k].end == MaxEnd(init);
          assert fs[k] == init[k];
        }
      }
      HeaderNeverTruncated(line, init, currentYear);
      var f := fs[|fs| - 1];
      assert line[f.start - 1..f.end] != "";
    }
  }

  // ---------------------------------------------------------------------------
  // The record fields.

  /**
   * A record field is reported missing exactly when it is required and ends
   * beyond the line; optional fields the line does not reach are skipped.
   */
  lemma {:induction false} RecordTruncations(line: string, lineNo: nat, fs: seq<FieldSpec>, currentYear: int, name: string)
    requires WellFormed(fs)
    ensures FieldTruncated(lineNo, name) in RecordFieldsIssues(line, lineNo, fs, currentYear) <==>
      exists k :: 0 <= k < |fs| && fs[k].name == name && fs[k].required && |line| < fs[k].end
    decreases |fs|
  {
    if fs != [] {
      var init, f := fs[..|fs| - 1], fs[|fs| - 1];
      assert WellFormed(init);
      RecordTruncations(line, lineNo, init, currentYear, name);
      assert forall k :: 0 <= k < |init| ==> init[k] == fs[k];
      if |line| >= f.end {
        var ps := FieldIssues(line[f.start - 1..f.end], f, currentYear);
        assert FieldTruncated(lineNo, name) !in Tag(lineNo, f.name, ps);
      }
    }
  }

  /** A tagged issue comes from one of the field's problems. */
  lemma {:induction false} TagKeepsProblems(lineNo: nat, field: string, ps: seq<Problem>, name: string, p: Problem)
    requires p !in ps
    ensures FieldError(lineNo, name, p) !in Tag(lineNo, field, ps)
  {
  }

  /**
   * A field no wider than its size limit never draws the size problem, so on
   * tables whose limits equal their widths the problem is never reported.
   */
  lemma {:induction false} NeverTooLong(line: string, lineNo: nat, fs: seq<FieldSpec>, currentYear: int, name: string)
    requires WellFormed(fs) && SizedByWidth(fs)
    ensures FieldError(lineNo, name, TooLong) !in RecordFieldsIssues(line, lineNo, fs, currentYear)
    decreases |fs|
  {
    if fs != [] {
      var init, f := fs[..|fs| - 1], fs[|fs| - 1];
      assert WellFormed(init) && SizedByWidth(init);
      NeverTooLong(line, lineNo, init, currentYear, name);
      if |line| >= f.end {
        var raw := line[f.start - 1..f.end];
        SizeNeverExceeded(raw, f, currentYear);
        TagKeepsProblems(lineNo, f.name, FieldIssues(raw, f, currentYear), name, TooLong);
      }
    }
  }

  /** No record line ever draws the size problem: the record table's limits equal its widths. */
  lemma {:induction false} RecordNeverTooLong(line: string, lineNo: nat, situacaoRuaValues: seq<string>, currentYear: int, name: string)
    ensures (DetailTiles(situacaoRuaValues);
      FieldError(lineNo, name, TooLong) !in RecordIssues(line, lineNo, DetailLayout(situacaoRuaValues), currentYear))
  {
    DetailTiles(situacaoRuaValues);
    DetailSized(situacaoRuaValues);
    NeverTooLong(line, lineNo, DetailLayout(situacaoRuaValues), currentYear, name);
  }

  // ---------------------------------------------------------------------------
  // The scan.

  /** One line after the header: counted, tallied, and its errors kept. */
  lemma {:induction false} BodyStepFacts(s: Stats, line: string, lineNo: nat, situacaoRuaValues: seq<string>, currentYear: int)
    ensures var t := BodyStep(s, line, lineNo, situacaoRuaValues, currentYear);
      t.totalRead == s.totalRead &&
      t.totalRecords == s.totalRecords + (if IsRecordLine(line) then 1 else 0) &&
      t.validRecords + t.invalidRecords == s.validRecords + s.invalidRecords + (if IsRecordLine(line) then 1 else 0) &&
      t.declaredLines == s.declaredLines && t.declaredPages == s.declaredPages &&
      (t.errors == [] <==> s.errors == [] && LineAccepted(line, lineNo, situacaoRuaValues, currentYear))
  {
    StripEmptyIffBlank(line);
  }

  lemma {:induction false} LinesAcceptedSplit(lines: seq<string>, i: nat, situacaoRuaValues: seq<string>, currentYear: int)
    requires i < |lines|
    ensures LinesAccepted(lines, i, situacaoRuaValues, currentYear) <==>
      LineAccepted(RStripNewlines(lines[i]), i + 1, situacaoRuaValues, currentYear) &&
      LinesAccepted(lines, i + 1, situacaoRuaValues, currentYear)
  {
    if LineAccepted(RStripNewlines(lines[i]), i + 1, situacaoRuaValues, currentYear) &&
       LinesAccepted(lines, i + 1, situacaoRuaValues, currentYear) {
      forall k | i <= k < |lines| ensures LineAccepted(RStripNewlines(lines[k]), k + 1, situacaoRuaValues, currentYear) {
        if k > i {
          assert i + 1 <= k;
        }
      }
    }
  }

  /** The scan after the header never stops; it counts, tallies and keeps errors line by line. */
  lemma {:induction false} BodyScan(lines: seq<string>, i: nat, s: Stats, situacaoRuaValues: seq<string>, currentYear: int)
    requires 1 <= i <= |lines|
    ensures var p := Scan(lines, i, Progress(s, false), situacaoRuaValues, currentYear);
      !p.stopped &&
      p.stats.totalRead == s.totalRead + (|lines| - i) &&
      p.stats.totalRecords == s.totalRecords + CountRecordLines(lines[i..]) &&
      p.stats.validRecords + p.stats.invalidRecords == s.validRecords + s.invalidRecords + CountRecordLines(lines[i..]) &&
      p.stats.declaredLines == s.declaredLines && p.stats.declaredPages == s.declaredPages &&
      (p.stats.errors == [] <==> s.errors == [] && LinesAccepted(lines, i, situacaoRuaValues, currentYear))
    decreases |lines| - i
  {
    if i < |lines| {
      var counted := s.(totalRead := s.totalRead + 1);
      var line := RStripNewlines(lines[i]);
      var t := BodyStep(counted, line, i + 1, situacaoRuaValues, currentYear);
      NextLine(lines, i, s, situacaoRuaValues, currentYear);
      BodyStepFacts(counted, line, i + 1, situacaoRuaValues, currentYear);
      BodyScan(lines, i + 1, t, situacaoRuaValues, currentYear);
      CountStep(lines, i);
      LinesAcceptedSplit(lines, i, situacaoRuaValues, currentYear);
    } else {
      assert lines[i..] == [];
    }
  }

  /** A line after the header is counted as read, then handled by the body step. */
  lemma {:induction false} NextLine(lines: seq<string>, i: nat, s: Stats, situacaoRuaValues: seq<string>, currentYear: int)
    requires 1 <= i < |lines|
    ensures Scan(lines, i, Progress(s, false), situacaoRuaValues, currentYear) ==
      Scan(lines, i + 1, Progress(BodyStep(s.(totalRead := s.totalRead + 1), RStripNewlines(lines[i]), i + 1,
                                           situacaoRuaValues, currentYear), false),
           situacaoRuaValues, currentYear)
  {
  }

  /** The record lines from index `i` on: line `i`, if it is one, and those after it. */
  lemma {:induction false} CountStep(lines: seq<string>, i: nat)
    requires i < |lines|
    ensures CountRecordLines(lines[i..]) ==
      (if IsRecordLine(RStripNewlines(lines[i])) then 1 else 0) + CountRecordLines(lines[i + 1..])
  {
    assert lines[i..][1..] == lines[i + 1..];
  }

  /** The header step keeps the record tallies and reads the declared counts. */
  lemma {:induction false} HeaderStepFacts(s: Stats, line: string, currentYear: int)
    ensures var p := HeaderStep(s, line, currentYear);
      p.stats.totalRead == s.totalRead && p.stats.totalRecords == s.totalRecords &&
      p.stats.validRecords == s.validRecords && p.stats.invalidRecords == s.invalidRecords &&
      (p.stopped <==> line == [] || ReadCounter(line, 13, 19).Raised? || ReadCounter(line, 19, 25).Raised?) &&
      (p.stopped ==> p.stats.errors != []) &&
      (!p.stopped ==>
        p.stats.declaredLines == (if ReadCounter(line, 13, 19).Value? then ReadCounter(line, 13, 19).v else s.declaredLines) &&
        p.stats.declaredPages == (if ReadCounter(line, 19, 25).Value? then ReadCounter(line, 19, 25).v else s.declaredPages) &&
        (p.stats.errors == [] <==> s.errors == [] && HeaderAccepted(line, currentYear)))
  {
    if line != [] {
      HeaderTiles();
      HeaderReadFacts(s, line, HeaderIssues(line, HeaderLayout(), currentYear));
    }
  }

  /** What reading a non-empty header does with its errors `errs` and its two counters. */
  lemma {:induction false} HeaderReadFacts(s: Stats, line: string, errs: seq<Issue>)
    ensures var p := HeaderRead(s, line, errs);
      p.stats.totalRead == s.totalRead && p.stats.totalRecords == s.totalRecords &&
      p.stats.validRecords == s.validRecords && p.stats.invalidRecords == s.invalidRecords &&
      (p.stopped <==> ReadCounter(line, 13, 19).Raised? || ReadCounter(line, 19, 25).Raised?) &&
      (p.stopped ==> p.stats.errors != []) &&
      (!p.stopped ==>
        p.stats.declaredLines == (if ReadCounter(line, 13, 19).Value? then ReadCounter(line, 13, 19).v else s.declaredLines) &&
        p.stats.declaredPages == (if ReadCounter(line, 19, 25).Value? then ReadCounter(line, 19, 25).v else s.declaredPages) &&
        (p.stats.errors == [] <==> s.errors == [] && errs == []))
  {
  }

  /** The validator passes a file exactly when the file is well formed. */
  lemma {:induction false} AcceptedIffWellFormed(lines: seq<string>, situacaoRuaValues: seq<string>, currentYear: int)
    ensures Accepted(lines, situacaoRuaValues, currentYear) <==> WellFormedFile(lines, situacaoRuaValues, currentYear)
  {
    if lines != [] {
      var header := RStripNewlines(lines[0]);
      var counted := InitialStats.(totalRead := 1);
      var first := HeaderStep(counted, header, currentYear);
      FirstLine(lines, situacaoRuaValues, currentYear);
      HeaderStepFacts(counted, header, currentYear);
      if first.stopped {
        if header != [] && HeaderAccepted(header, currentYear) {
          AcceptedHeaderCounters(header, currentYear);
        }
      } else {
        BodyScan(lines, 1, first.stats, situacaoRuaValues, currentYear);
        if HeaderAccepted(header, currentYear) {
          AcceptedHeaderCounters(header, currentYear);
        }
      }
    }
  }

  /**
   * The tallies the statistics keep: every record line found is either valid
   * or invalid, no more lines are read than the file has, and when the header
   * does not stop the scan every line is read and every record line counted.
   */
  lemma {:induction false} FileTally(lines: seq<string>, situacaoRuaValues: seq<string>, currentYear: int)
    ensures var s := FileStats(lines, situacaoRuaValues, currentYear);
      s.totalRecords == s.validRecords + s.invalidRecords && s.totalRead <= |lines|
    ensures lines == [] ==> FileStats(lines, situacaoRuaValues, currentYear).errors == [EmptyFile]
    ensures var header := if lines == [] then [] else RStripNewlines(lines[0]);
      lines != [] && header != [] && !ReadCounter(header, 13, 19).Raised? && !ReadCounter(header, 19, 25).Raised? ==>
        var s := FileStats(lines, situacaoRuaValues, currentYear);
        s.totalRead == |lines| && s.totalRecords == CountRecordLines(lines[1..])
  {
    if lines != [] {
      var header := RStripNewlines(lines[0]);
      var counted := InitialStats.(totalRead := 1);
      var first := HeaderStep(counted, header, currentYear);
      FirstLine(lines, situacaoRuaValues, currentYear);
      HeaderStepFacts(counted, header, currentYear);
      if !first.stopped {
        BodyScan(lines, 1, first.stats, situacaoRuaValues, currentYear);
      }
    }
  }

  /** The scan reads the first line as the header, with one line counted as read. */
  lemma {:induction false} FirstLine(lines: seq<string>, situacaoRuaValues: seq<string>, currentYear: int)
    requires lines != []
    ensures Scan(lines, 0, Progress(InitialStats, false), situacaoRuaValues, currentYear) ==
      Scan(lines, 1, HeaderStep(InitialStats.(totalRead := 1), RStripNewlines(lines[0]), currentYear),
           situacaoRuaValues, currentYear)
  {
  }
}
