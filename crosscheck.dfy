/**
 * The exporter's output read by the validator: where the header's fields land,
 * what the header's counters read back as, how many records the validator
 * finds in an exported file, and the two places where the exporter writes
 * something the validator refuses (the sheet count and one occupation code).
 */
module Crosscheck {
  import opened Wrappers
  import opened PyText
  import opened Records
  import opened Checksum
  import opened Lookups
  import opened Encoder
  import opened Layout
  import opened FieldCheck
  import opened Validator
  import opened Verdict

  // ---------------------------------------------------------------------------
  // Parts written one after another, read back by column.

  /** Each part is exactly as wide as the field of the table at the same position. */
  predicate FitsColumns(parts: seq<string>, fs: seq<FieldSpec>) {
    |parts| == |fs| && forall k :: 0 <= k < |fs| ==> |parts[k]| + fs[k].start == fs[k].end + 1
  }

  /** `line[start-1:end]`, the slice the validator takes for a field, holds `part`. */
  predicate InColumns(line: string, f: FieldSpec, part: string) {
    1 <= f.start <= f.end <= |line| && line[f.start - 1..f.end] == part
  }

  /** In a table without gaps or overlaps, each field starts right after the previous one ends. */
  lemma {:induction false} NextColumnStarts(fs: seq<FieldSpec>, from: nat, k: nat)
    requires NextColumn(fs, from).Some? && k < |fs|
    ensures fs[k].start == (if k == 0 then from else fs[k - 1].end + 1)
    decreases k
  {
    if k > 0 {
      NextColumnStarts(fs[1..], fs[0].end + 1, k - 1);
      assert fs[1..][k - 1] == fs[k];
      if k > 1 {
        assert fs[1..][k - 2] == fs[k - 1];
      }
    }
  }

  /** The first `k` parts fill the columns up to the end of field `k - 1`. */
  lemma {:induction false} OffsetsFollowColumns(parts: seq<string>, fs: seq<FieldSpec>, from: nat, k: nat)
    requires FitsColumns(parts, fs) && NextColumn(fs, from).Some? && k <= |fs|
    ensures |Concat(parts[..k])| == (if k == 0 then 0 else fs[k - 1].end + 1 - from)
    decreases k
  {
    if k > 0 {
      assert parts[..k][..k - 1] == parts[..k - 1];
      OffsetsFollowColumns(parts, fs, from, k - 1);
      NextColumnStarts(fs, from, k - 1);
    }
  }

  /**
   * Parts as wide as the fields of a table that covers the columns from 1 on
   * without gap or overlap, once concatenated, are found each in its field's
   * columns, and the line ends with the last field.
   */
  lemma {:induction false} ColumnsHoldParts(parts: seq<string>, fs: seq<FieldSpec>, k: nat)
    requires FitsColumns(parts, fs) && WellFormed(fs) && NextColumn(fs, 1).Some? && k < |fs|
    ensures InColumns(Concat(parts), fs[k], parts[k])
    ensures |Concat(parts)| == fs[|fs| - 1].end
  {
    PartsEndWithLastField(parts, fs);
    PartOffset(parts, fs, k);
    FieldAt(parts, k);
  }

  /** The concatenated parts end with the last field. */
  lemma {:induction false} PartsEndWithLastField(parts: seq<string>, fs: seq<FieldSpec>)
    requires FitsColumns(parts, fs) && NextColumn(fs, 1).Some? && |fs| > 0
    ensures |Concat(parts)| == fs[|fs| - 1].end
  {
    OffsetsFollowColumns(parts, fs, 1, |fs|);
    assert parts[..|fs|] == parts;
  }

  /** Part `k` starts right before field `k`'s first column. */
  lemma {:induction false} PartOffset(parts: seq<string>, fs: seq<FieldSpec>, k: nat)
    requires FitsColumns(parts, fs) && NextColumn(fs, 1).Some? && k < |fs|
    ensures |Concat(parts[..k])| == fs[k].start - 1
  {
    OffsetsFollowColumns(parts, fs, 1, k);
    NextColumnStarts(fs, 1, k);
  }

  // ---------------------------------------------------------------------------
  // The exported header.

  /**
   * The inputs for which the exporter's header is exactly as wide as the
   * validator's table and is read back as one line: a six-character
   * competence, fewer than a million records, configuration texts no longer
   * than their fields, a one-character destination kind, and no carriage
   * return or line feed in the competence or in any configuration text.
   */
  predicate HeaderFits(competencia: string, n: nat, config: Config) {
    |competencia| == 6 && n < 1000000 &&
    |config.orgaoResponsavel| <= 30 && |config.siglaOrgao| <= 6 && |config.cgcCpf| <= 14 &&
    |config.orgaoDestino| <= 40 && |config.indicadorDestino| == 1 && |config.versaoSistema| <= 10 &&
    NoLineBreak(competencia) && NoLineBreak(config.orgaoResponsavel) && NoLineBreak(config.siglaOrgao) &&
    NoLineBreak(config.cgcCpf) && NoLineBreak(config.orgaoDestino) && NoLineBreak(config.indicadorDestino) &&
    NoLineBreak(config.versaoSistema)
  }

  /** The widths of the header table's fields, in order. */
  const HeaderWidths: seq<nat> := [2, 5, 6, 6, 6, 4, 30, 6, 14, 40, 1, 10]

  lemma {:induction false} HeaderLayoutWidths()
    ensures forall k :: 0 <= k < 12 ==> HeaderLayout()[k].end + 1 == HeaderWidths[k] + HeaderLayout()[k].start
  {
  }

  /** A header whose fields have the table's widths fits the table's columns. */
  lemma {:induction false} HeaderWidthsFit(h: BpaHeader)
    requires |h.hdr1| == 2 && |h.hdr2| == 5 && |h.competence| == 6 && |h.lineCount| == 6
    requires |h.pageCount| == 6 && |h.control| == 4 && |h.responsible| == 30 && |h.acronym| == 6
    requires |h.taxId| == 14 && |h.destination| == 40 && |h.destinationKind| == 1 && |h.version| == 10
    ensures FitsColumns(HeaderFields(h), HeaderLayout())
  {
    var parts := HeaderFields(h);
    assert forall k :: 0 <= k < 12 ==> |parts[k]| == HeaderWidths[k];
    HeaderLayoutWidths();
  }

  /** Under `HeaderFits`, every header field is as wide as its entry of the header table. */
  lemma {:induction false} HeaderFitsLayout(competencia: string, records: seq<BpaRecord>, config: Config)
    requires HeaderFits(competencia, |records|, config)
    ensures FitsColumns(HeaderFields(BuildHeader(competencia, records, config)), HeaderLayout())
  {
    HeaderCounters(competencia, records, config);
    HeaderWidthsFit(BuildHeader(competencia, records, config));
  }

  /** A line break appended to a line that does not already end in one is all the validator strips. */
  lemma {:induction false} StripCrLf(body: string)
    requires body != [] ==> !IsLineBreak(body[|body| - 1])
    ensures RStripNewlines(body + CrLf) == body
  {
    var s := body + CrLf;
    assert s[|s| - 1] == '\n' && s[..|s| - 1] == body + "\r";
    var t := body + "\r";
    assert t[|t| - 1] == '\r' && t[..|t| - 1] == body;
    assert RStripNewlines(s) == RStripNewlines(t);
    assert RStripNewlines(t) == RStripNewlines(body);
  }

  /**
   * A line written as parts that fit a table's columns, followed by CR LF,
   * gives back after the validator strips its line break every part in its
   * field's columns, provided the last part does not itself end in a line break.
   */
  lemma {:induction false} WrittenLineColumns(parts: seq<string>, fs: seq<FieldSpec>)
    requires FitsColumns(parts, fs) && WellFormed(fs) && NextColumn(fs, 1).Some? && fs != []
    requires var last := parts[|parts| - 1]; last != [] && !IsLineBreak(last[|last| - 1])
    ensures var line := RStripNewlines(Concat(parts) + CrLf);
      line == Concat(parts) && |line| == fs[|fs| - 1].end &&
      forall k :: 0 <= k < |fs| ==> InColumns(line, fs[k], parts[k])
  {
    var n := |fs| - 1;
    var body := Concat(parts);
    ColumnsHoldParts(parts, fs, n);
    assert body[|body| - 1] == parts[n][|parts[n]| - 1] by {
      assert body[fs[n].start - 1..fs[n].end] == parts[n];
    }
    StripCrLf(body);
    forall k | 0 <= k < |fs| ensures InColumns(body, fs[k], parts[k]) {
      ColumnsHoldParts(parts, fs, k);
    }
  }

  /** The version field `ljust(10)` ends in a space or in the version's own last character. */
  lemma {:induction false} VersionEnd(config: Config)
    requires |config.versaoSistema| <= 10 && NoLineBreak(config.versaoSistema)
    ensures var t := LJust(config.versaoSistema, 10); |t| == 10 && !IsLineBreak(t[9])
  {
    var v := config.versaoSistema;
    var t := LJust(v, 10);
    if |v| == 10 {
      assert t == t[..|v|] == v;
    } else {
      assert t[|v|..][9 - |v|] == ' ';
    }
  }

  /**
   * The header the exporter writes, once the validator has removed its line
   * break, is 130 columns wide and holds every header field in the columns
   * the validator's header table gives that field.
   */
  lemma {:induction false} ExportedHeaderColumns(competencia: string, records: seq<BpaRecord>, config: Config)
    requires HeaderFits(competencia, |records|, config)
    ensures var h := BuildHeader(competencia, records, config);
      var line := RStripNewlines(HeaderLine(h));
      |line| == 130 && forall k :: 0 <= k < 12 ==> InColumns(line, HeaderLayout()[k], HeaderFields(h)[k])
  {
    var h := BuildHeader(competencia, records, config);
    HeaderFitsLayout(competencia, records, config);
    VersionEnd(config);
    HeaderLineColumns(h);
  }

  /** A header that fits the table, written out, is found again column by column. */
  lemma {:induction false} HeaderLineColumns(h: BpaHeader)
    requires FitsColumns(HeaderFields(h), HeaderLayout())
    requires |h.version| == 10 && !IsLineBreak(h.version[9])
    ensures var line := RStripNewlines(HeaderLine(h));
      |line| == 130 && forall k :: 0 <= k < 12 ==> InColumns(line, HeaderLayout()[k], HeaderFields(h)[k])
  {
    HeaderTiles();
    assert HeaderFields(h)[11] == h.version;
    assert HeaderLayout()[11].end == 130;
    WrittenLineColumns(HeaderFields(h), HeaderLayout());
  }

  /**
   * The validator reads back from an exported header the competence, the
   * number of records and the number of 20-record sheets the exporter wrote.
   */
  lemma {:induction false} ExportedHeaderCounts(competencia: string, records: seq<BpaRecord>, config: Config)
    requires HeaderFits(competencia, |records|, config)
    ensures var line := RStripNewlines(HeaderLine(BuildHeader(competencia, records, config)));
      |line| == 130 && line[7..13] == competencia &&
      ReadCounter(line, 13, 19) == Value(|records|) &&
      ReadCounter(line, 19, 25) == Value(HeaderPages(|records|))
  {
    var h := BuildHeader(competencia, records, config);
    ExportedHeaderColumns(competencia, records, config);
    HeaderCounters(competencia, records, config);
    HeaderLineCounters(h);
    PyIntOfDecimal(h.lineCount);
    PyIntOfDecimal(h.pageCount);
  }

  /** Where a written header's competence and counters are read back from. */
  lemma {:induction false} HeaderLineCounters(h: BpaHeader)
    requires var line := RStripNewlines(HeaderLine(h));
      |line| == 130 && forall k :: 0 <= k < 12 ==> InColumns(line, HeaderLayout()[k], HeaderFields(h)[k])
    requires |h.lineCount| == 6 && AllDecimal(h.lineCount) && |h.pageCount| == 6 && AllDecimal(h.pageCount)
    ensures var line := RStripNewlines(HeaderLine(h));
      line[7..13] == h.competence &&
      ReadCounter(line, 13, 19) == Value(DecimalValue(h.lineCount)) &&
      ReadCounter(line, 19, 25) == Value(DecimalValue(h.pageCount))
  {
    var line := RStripNewlines(HeaderLine(h));
    HeaderCounterEntries();
    assert InColumns(line, HeaderLayout()[2], HeaderFields(h)[2]);
    assert InColumns(line, HeaderLayout()[3], HeaderFields(h)[3]);
    assert InColumns(line, HeaderLayout()[4], HeaderFields(h)[4]);
    assert HeaderLayout()[2].start == 8;
    DecimalCounter(line, 13, 19);
    DecimalCounter(line, 19, 25);
  }

  // ---------------------------------------------------------------------------
  // The written file read back in text mode.

  /** A line as the exporter writes it for the validator: text without line breaks, then CR LF. */
  predicate WrittenLine(line: string) {
    EndsWithCrLf(line) && NoLineBreak(line[..|line| - 2])
  }

  /** Every field of the record is free of carriage returns and line feeds. */
  predicate Unbroken(r: BpaRecord) {
    forall k :: 0 <= k < 39 ==> NoLineBreak(RecordFields(r)[k])
  }

  /** Parts without line breaks concatenate to text without line breaks. */
  lemma {:induction false} ConcatNoBreak(parts: seq<string>)
    requires forall k :: 0 <= k < |parts| ==> NoLineBreak(parts[k])
    ensures NoLineBreak(Concat(parts))
    decreases |parts|
  {
    if parts != [] {
      var init := parts[..|parts| - 1];
      assert forall k :: 0 <= k < |init| ==> init[k] == parts[k];
      ConcatNoBreak(init);
    }
  }

  /** A record line whose fields have no line breaks is one written line. */
  lemma {:induction false} RecordWritten(r: BpaRecord)
    requires Unbroken(r)
    ensures WrittenLine(RecordLine(r))
  {
    var body := Concat(RecordFields(r));
    ConcatNoBreak(RecordFields(r));
    TerminatedLine(body);
    assert (body + CrLf)[..|body + CrLf| - 2] == body;
  }

  /** Under `HeaderFits` no header field holds a line break. */
  lemma {:induction false} HeaderUnbroken(competencia: string, records: seq<BpaRecord>, config: Config)
    requires HeaderFits(competencia, |records|, config)
    ensures var h := BuildHeader(competencia, records, config);
      forall k :: 0 <= k < 12 ==> NoLineBreak(HeaderFields(h)[k])
  {
    var h := BuildHeader(competencia, records, config);
    HeaderCounters(competencia, records, config);
    DecimalNoBreak(h.lineCount);
    DecimalNoBreak(h.pageCount);
    DecimalNoBreak(h.control);
    LJustNoBreak(config.orgaoResponsavel, 30);
    LJustNoBreak(config.siglaOrgao, 6);
    ZFillNoBreak(config.cgcCpf, 14);
    LJustNoBreak(config.orgaoDestino, 40);
    LJustNoBreak(config.versaoSistema, 10);
    HeaderMarksUnbroken();
    HeaderPartsUnbroken(h);
  }

  lemma {:induction false} HeaderMarksUnbroken()
    ensures NoLineBreak("01") && NoLineBreak("#BPA#")
  {
  }

  lemma {:induction false} HeaderPartsUnbroken(h: BpaHeader)
    requires NoLineBreak(h.hdr1) && NoLineBreak(h.hdr2) && NoLineBreak(h.competence)
    requires NoLineBreak(h.lineCount) && NoLineBreak(h.pageCount) && NoLineBreak(h.control)
    requires NoLineBreak(h.responsible) && NoLineBreak(h.acronym) && NoLineBreak(h.taxId)
    requires NoLineBreak(h.destination) && NoLineBreak(h.destinationKind) && NoLineBreak(h.version)
    ensures forall k :: 0 <= k < 12 ==> NoLineBreak(HeaderFields(h)[k])
  {
  }

  /** Under `HeaderFits` the header line is one written line. */
  lemma {:induction false} HeaderWritten(competencia: string, records: seq<BpaRecord>, config: Config)
    requires HeaderFits(competencia, |records|, config)
    ensures WrittenLine(HeaderLine(BuildHeader(competencia, records, config)))
  {
    var body := Concat(HeaderFields(BuildHeader(competencia, records, config)));
    HeaderUnbroken(competencia, records, config);
    ConcatNoBreak(HeaderFields(BuildHeader(competencia, records, config)));
    TerminatedLine(body);
    assert (body + CrLf)[..|body + CrLf| - 2] == body;
  }

  /** The text of a written line, without its CR LF. */
  function WrittenText(line: string): string {
    if |line| >= 2 then line[..|line| - 2] else line
  }

  /**
   * Written lines, one after another, read back in text mode: one line per
   * written line, its text followed by a single LF.
   */
  lemma {:induction false} ReadBackLines(lines: seq<string>)
    requires forall k :: 0 <= k < |lines| ==> WrittenLine(lines[k])
    ensures var read := UniversalLines(Concat(lines));
      |read| == |lines| && forall k :: 0 <= k < |lines| ==> read[k] == WrittenText(lines[k]) + "\n"
    decreases |lines|
  {
    if lines != [] {
      var rest := lines[1..];
      assert forall k :: 0 <= k < |rest| ==> rest[k] == lines[k + 1];
      ReadBackLines(rest);
      SplitFirst(lines);
      ReadFirstLine(lines[0], Concat(rest));
      assert [lines[0]] + rest == lines;
      ReadBackStep(lines[0], rest, UniversalLines(Concat(rest)));
    }
  }

  /** One more written line in front adds its text, read with one LF, in front. */
  lemma {:induction false} ReadBackStep(first: string, rest: seq<string>, readRest: seq<string>)
    requires |readRest| == |rest| && forall k :: 0 <= k < |rest| ==> readRest[k] == WrittenText(rest[k]) + "\n"
    ensures var read, lines := [WrittenText(first) + "\n"] + readRest, [first] + rest;
      |read| == |lines| && forall k :: 0 <= k < |lines| ==> read[k] == WrittenText(lines[k]) + "\n"
  {
    var read, lines := [WrittenText(first) + "\n"] + readRest, [first] + rest;
    forall k | 1 <= k < |lines| ensures read[k] == WrittenText(lines[k]) + "\n" {
      assert read[k] == readRest[k - 1] && lines[k] == rest[k - 1];
    }
  }

  /** Concatenation split after the first part. */
  lemma {:induction false} SplitFirst(lines: seq<string>)
    requires lines != []
    ensures Concat(lines) == lines[0] + Concat(lines[1..])
  {
    assert lines == [lines[0]] + lines[1..];
    ConcatAppend([lines[0]], lines[1..]);
    assert [lines[0]][..0] == [];
  }

  /** A written line followed by more text is read as its own line, then the rest. */
  lemma {:induction false} ReadFirstLine(line: string, rest: string)
    requires WrittenLine(line)
    ensures UniversalLines(line + rest) == [WrittenText(line) + "\n"] + UniversalLines(rest)
  {
    var body := WrittenText(line);
    var text := line + rest;
    assert line == body + CrLf;
    assert text == body + (CrLf + rest);
    FirstBreakAfter(body, CrLf + rest);
    var n := |body|;
    assert text[n] == '\r' && text[n + 1] == '\n';
    assert text[..n] == body;
    assert text[n + 2..] == rest;
  }

  /** The validator strips a written line, and the same line as read in text mode, to its text. */
  lemma {:induction false} StrippedWritten(line: string)
    requires WrittenLine(line)
    ensures var body := WrittenText(line);
      RStripNewlines(line) == body && RStripNewlines(body + "\n") == body
  {
    var body := WrittenText(line);
    assert line == body + CrLf;
    if body != [] {
      assert !IsLineBreak(body[|body| - 1]);
    }
    StripCrLf(body);
    StripLf(body);
  }

  /** `rstrip('\r\n')` removes one LF after a text that does not end in a line break. */
  lemma {:induction false} StripLf(body: string)
    requires body != [] ==> !IsLineBreak(body[|body| - 1])
    ensures RStripNewlines(body + "\n") == body
  {
    var s := body + "\n";
    assert s[|s| - 1] == '\n' && s[..|s| - 1] == body;
    assert RStripNewlines(s) == RStripNewlines(body);
  }

  // ---------------------------------------------------------------------------
  // The exported records.

  /** A line written for a record with identifier `03` is recognised as a record line. */
  lemma {:induction false} StrippedRecordLine(r: BpaRecord)
    requires r.ident == "03"
    ensures IsRecordLine(RStripNewlines(RecordLine(r)))
  {
    RecordLineStarts(r);
    var s := RecordLine(r);
    var t := RStripNewlines(s);
    assert s[1] == '3' && s[0] == '0';
    assert |t| >= 2;
    assert t[..2] == s[..2];
  }

  /** Lines that are all record lines are all counted. */
  lemma {:induction false} AllRecordLinesCounted(lines: seq<string>)
    requires forall k :: 0 <= k < |lines| ==> IsRecordLine(RStripNewlines(lines[k]))
    ensures CountRecordLines(lines) == |lines|
    decreases |lines|
  {
    if lines != [] {
      assert forall k :: 0 <= k < |lines| - 1 ==> lines[1..][k] == lines[k + 1];
      AllRecordLinesCounted(lines[1..]);
    }
  }

  // ---------------------------------------------------------------------------
  // The sheet counts.

  /**
   * The validator expects one sheet per 99 records and the exporter declares
   * one per 20: the two agree only for 1 to 20 records.
   */
  lemma {:induction false} PagesAgree(n: nat)
    ensures ExpectedPages(n, n) == HeaderPages(n) <==> 1 <= n <= 20
  {
    if n > 20 {
      var a, b := (n + 98) / 99, (n + 19) / 20;
      assert 99 * a <= n + 98;
      assert 20 * b >= n;
    }
  }

  /**
   * The file the exporter writes for records with identifier `03`, read the
   * way the validator reads it (text mode, universal newlines), gives back one
   * line per written line when no header text and no record field holds a
   * line break: the first, stripped, is the written header, and the validator
   * finds exactly the exported records and reads back their count from the
   * header. The declared sheet count matches the one it expects exactly when
   * there are 1 to 20 records, so a file with no records or with more than 20
   * is always refused.
   */
  lemma {:induction false} ExportedFileCounts(competencia: string, records: seq<BpaRecord>, config: Config,
                           situacaoRuaValues: seq<string>, currentYear: int)
    requires HeaderFits(competencia, |records|, config)
    requires forall i :: 0 <= i < |records| ==> records[i].ident == "03" && Unbroken(records[i])
    requires ExportFile(competencia, records, config).Some?
    ensures var read := UniversalLines(FileText(ExportFile(competencia, records, config).value));
      |read| == |records| + 1 &&
      RStripNewlines(read[0]) == RStripNewlines(HeaderLine(BuildHeader(competencia, records, config))) &&
      var header := RStripNewlines(read[0]);
      var found := CountRecordLines(read[1..]);
      found == |records| && found == DeclaredValue(ReadCounter(header, 13, 19)) &&
      (ExpectedPages(found, found) == DeclaredValue(ReadCounter(header, 19, 25)) <==> 1 <= |records| <= 20)
    ensures Accepted(UniversalLines(FileText(ExportFile(competencia, records, config).value)), situacaoRuaValues, currentYear) ==>
      1 <= |records| <= 20
  {
    ExportWritten(competencia, records, config);
    WrittenExportCounts(ExportFile(competencia, records, config).value, |records|, situacaoRuaValues, currentYear);
  }

  /**
   * Under the same premises every line of the exported file is a written line,
   * its header declares the number of records and of 20-record sheets, and
   * every other line is a record line once stripped.
   */
  lemma {:induction false} ExportWritten(competencia: string, records: seq<BpaRecord>, config: Config)
    requires HeaderFits(competencia, |records|, config)
    requires forall i :: 0 <= i < |records| ==> records[i].ident == "03" && Unbroken(records[i])
    requires ExportFile(competencia, records, config).Some?
    ensures var lines := ExportFile(competencia, records, config).value.lines;
      |lines| == |records| + 1 && (forall k :: 0 <= k < |lines| ==> WrittenLine(lines[k])) &&
      lines[0] == HeaderLine(BuildHeader(competencia, records, config)) &&
      ReadCounter(RStripNewlines(lines[0]), 13, 19) == Value(|records|) &&
      ReadCounter(RStripNewlines(lines[0]), 19, 25) == Value(HeaderPages(|records|)) &&
      forall k :: 1 <= k < |lines| ==> IsRecordLine(RStripNewlines(lines[k]))
  {
    var lines := ExportFile(competencia, records, config).value.lines;
    ExportLines(competencia, records, config);
    HeaderLineRead(competencia, records, config);
    RecordLinesWritten(records);
    LinesWritten(lines, HeaderLine(BuildHeader(competencia, records, config)), records);
  }

  /** The written header line, and the counters the validator reads from it. */
  lemma {:induction false} HeaderLineRead(competencia: string, records: seq<BpaRecord>, config: Config)
    requires HeaderFits(competencia, |records|, config)
    ensures var line := HeaderLine(BuildHeader(competencia, records, config));
      WrittenLine(line) &&
      ReadCounter(RStripNewlines(line), 13, 19) == Value(|records|) &&
      ReadCounter(RStripNewlines(line), 19, 25) == Value(HeaderPages(|records|))
  {
    ExportedHeaderCounts(competencia, records, config);
    HeaderWritten(competencia, records, config);
  }

  /** A written header followed by the written lines of records. */
  lemma {:induction false} LinesWritten(lines: seq<string>, header: string, records: seq<BpaRecord>)
    requires |lines| == |records| + 1 && lines[0] == header && WrittenLine(header)
    requires forall i :: 0 <= i < |records| ==> lines[i + 1] == RecordLine(records[i])
    requires forall i :: 0 <= i < |records| ==>
      WrittenLine(RecordLine(records[i])) && IsRecordLine(RStripNewlines(RecordLine(records[i])))
    ensures forall k :: 0 <= k < |lines| ==> WrittenLine(lines[k])
    ensures forall k :: 1 <= k < |lines| ==> IsRecordLine(RStripNewlines(lines[k]))
  {
    forall k | 1 <= k < |lines|
      ensures WrittenLine(lines[k]) && IsRecordLine(RStripNewlines(lines[k]))
    {
      assert lines[k] == RecordLine(records[k - 1]);
    }
  }

  /** `WrittenFileCounts` for the text of an export. */
  lemma {:induction false} WrittenExportCounts(e: Export, n: nat, situacaoRuaValues: seq<string>, currentYear: int)
    requires |e.lines| == n + 1 && forall k :: 0 <= k < |e.lines| ==> WrittenLine(e.lines[k])
    requires ReadCounter(RStripNewlines(e.lines[0]), 13, 19) == Value(n)
    requires ReadCounter(RStripNewlines(e.lines[0]), 19, 25) == Value(HeaderPages(n))
    requires forall k :: 1 <= k < |e.lines| ==> IsRecordLine(RStripNewlines(e.lines[k]))
    ensures var read := UniversalLines(FileText(e));
      |read| == n + 1 && RStripNewlines(read[0]) == RStripNewlines(e.lines[0]) &&
      var header := RStripNewlines(read[0]);
      var found := CountRecordLines(read[1..]);
      found == n && found == DeclaredValue(ReadCounter(header, 13, 19)) &&
      (ExpectedPages(found, found) == DeclaredValue(ReadCounter(header, 19, 25)) <==> 1 <= n <= 20)
    ensures Accepted(UniversalLines(FileText(e)), situacaoRuaValues, currentYear) ==> 1 <= n <= 20
  {
    WrittenFileCounts(e.lines, n, situacaoRuaValues, currentYear);
  }

  /** Record lines of `03` records without line breaks are written lines, each a record line once stripped. */
  lemma {:induction false} RecordLinesWritten(records: seq<BpaRecord>)
    requires forall i :: 0 <= i < |records| ==> records[i].ident == "03" && Unbroken(records[i])
    ensures forall i :: 0 <= i < |records| ==>
      WrittenLine(RecordLine(records[i])) && IsRecordLine(RStripNewlines(RecordLine(records[i])))
  {
    forall i | 0 <= i < |records|
      ensures WrittenLine(RecordLine(records[i])) && IsRecordLine(RStripNewlines(RecordLine(records[i])))
    {
      RecordWritten(records[i]);
      StrippedRecordLine(records[i]);
    }
  }

  /** The counts the validator reads from a written file whose header declares `n` records and whose other `n` lines are records. */
  lemma {:induction false} WrittenFileCounts(lines: seq<string>, n: nat, situacaoRuaValues: seq<string>, currentYear: int)
    requires |lines| == n + 1 && forall k :: 0 <= k < |lines| ==> WrittenLine(lines[k])
    requires ReadCounter(RStripNewlines(lines[0]), 13, 19) == Value(n)
    requires ReadCounter(RStripNewlines(lines[0]), 19, 25) == Value(HeaderPages(n))
    requires forall k :: 1 <= k < |lines| ==> IsRecordLine(RStripNewlines(lines[k]))
    ensures var read := UniversalLines(Concat(lines));
      |read| == n + 1 && RStripNewlines(read[0]) == RStripNewlines(lines[0]) &&
      var header := RStripNewlines(read[0]);
      var found := CountRecordLines(read[1..]);
      found == n && found == DeclaredValue(ReadCounter(header, 13, 19)) &&
      (ExpectedPages(found, found) == DeclaredValue(ReadCounter(header, 19, 25)) <==> 1 <= n <= 20)
    ensures Accepted(UniversalLines(Concat(lines)), situacaoRuaValues, currentYear) ==> 1 <= n <= 20
  {
    ReadAsWritten(lines);
    LinesCounts(UniversalLines(Concat(lines)), n, situacaoRuaValues, currentYear);
  }

  /** Written lines read back in text mode strip to what the written lines strip to. */
  lemma {:induction false} ReadAsWritten(lines: seq<string>)
    requires forall k :: 0 <= k < |lines| ==> WrittenLine(lines[k])
    ensures var read := UniversalLines(Concat(lines));
      |read| == |lines| && forall k :: 0 <= k < |lines| ==> RStripNewlines(read[k]) == RStripNewlines(lines[k])
  {
    var read := UniversalLines(Concat(lines));
    ReadBackLines(lines);
    forall k | 0 <= k < |lines| ensures RStripNewlines(read[k]) == RStripNewlines(lines[k]) {
      StrippedWritten(lines[k]);
    }
  }

  /** The counts the validator reads from any file whose header declares `n` records and whose other `n` lines are records. */
  lemma {:induction false} LinesCounts(lines: seq<string>, n: nat, situacaoRuaValues: seq<string>, currentYear: int)
    requires |lines| == n + 1
    requires ReadCounter(RStripNewlines(lines[0]), 13, 19) == Value(n)
    requires ReadCounter(RStripNewlines(lines[0]), 19, 25) == Value(HeaderPages(n))
    requires forall k :: 1 <= k < |lines| ==> IsRecordLine(RStripNewlines(lines[k]))
    ensures var header := RStripNewlines(lines[0]);
      var found := CountRecordLines(lines[1..]);
      found == n && found == DeclaredValue(ReadCounter(header, 13, 19)) &&
      (ExpectedPages(found, found) == DeclaredValue(ReadCounter(header, 19, 25)) <==> 1 <= n <= 20)
    ensures Accepted(lines, situacaoRuaValues, currentYear) ==> 1 <= n <= 20
  {
    var body := lines[1..];
    assert forall k :: 0 <= k < |body| ==> body[k] == lines[k + 1];
    AllRecordLinesCounted(body);
    PagesAgree(n);
    AcceptedIffWellFormed(lines, situacaoRuaValues, currentYear);
  }

  // ---------------------------------------------------------------------------
  // The occupation code.

  /** The record table's occupation-code entry. */
  lemma {:induction false} CboEntry(situacaoRuaValues: seq<string>)
    ensures DetailLayout(situacaoRuaValues)[4] == Code("prd_cbo", 31, 36, 6, 6, 6)
    ensures PlainField(DetailLayout(situacaoRuaValues)[4])
  {
    assert DetailLayout(situacaoRuaValues)[4] == DetailA()[4];
  }

  /** Trailing spaces after a non-space end are exactly what `rstrip()` removes. */
  lemma {:induction false} RStripPadding(s: string, t: string)
    requires s != [] && !IsSpace(s[|s| - 1]) && AllChar(t, ' ')
    ensures RStrip(s + t) == s
    decreases |t|
  {
    if t == [] {
      assert s + t == s;
    } else {
      assert (s + t)[..|s + t| - 1] == s + t[..|t| - 1];
      RStripPadding(s, t[..|t| - 1]);
    }
  }

  /** Every occupation code but the dentist's (profession type 6) has six digits. */
  lemma {:induction false} CboSixWide(tp: Option<PyValue>)
    ensures |CboForFunction(tp)| == 6 <==> CboKey(tp) != Some(6)
    ensures AllDecimal(CboForFunction(tp)) && |CboForFunction(tp)| >= 4
  {
    CboTableShape();
    assert forall k :: k in CboTable && k != 6 ==> |CboTable[k]| == 6;
  }

  /**
   * The occupation code the exporter writes (`ljust(6)` of the looked-up code)
   * passes the validator's `prd_cbo` check exactly when the profession type is
   * not 6, whose four-digit code "2232" fails the six-character pattern.
   */
  lemma {:induction false} CboCodeChecked(tp: Option<PyValue>, situacaoRuaValues: seq<string>, currentYear: int)
    ensures var field := DetailLayout(situacaoRuaValues)[4];
      var raw := LJust(CboForFunction(tp), 6);
      (FieldIssues(raw, field, currentYear) == [] <==> CboKey(tp) != Some(6)) &&
      (CboKey(tp) == Some(6) ==> FieldIssues(raw, field, currentYear) == [PatternMismatch])
  {
    var field := DetailLayout(situacaoRuaValues)[4];
    var c := CboForFunction(tp);
    var raw := LJust(c, 6);
    CboEntry(situacaoRuaValues);
    CboSixWide(tp);
    assert IsDecimal(c[|c| - 1]);
    RStripPadding(c, raw[|c|..]);
    assert raw == c + raw[|c|..];
    assert !IsBlank(raw) by {
      assert IsDecimal(raw[0]);
      StripEmptyIffBlank(raw);
      StripDecimal(c);
    }
    PatternAccepts(raw, field, currentYear);
    assert FullMatch(Pattern(UpperAlnum, 6, 6), c) <==> |c| == 6;
    assert FormatIssues(raw, field, currentYear) == [];
  }
}
