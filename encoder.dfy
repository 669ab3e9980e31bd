/**
 * The header builder (`gerar_header_bpa`) and the text `gerar_arquivo_txt`
 * writes: the month extension of the file name, then the header line and one
 * line per record, each the concatenation of its fields followed by CR LF.
 */
module Encoder {
  import opened Wrappers
  import opened PyText
  import opened Records
  import opened Checksum

  /** The exporter's configuration entries the header and records use. */
  datatype Config = Config(
    cnes: string, orgaoResponsavel: string, siglaOrgao: string, cgcCpf: string,
    orgaoDestino: string, indicadorDestino: string, versaoSistema: string)

  /** The header counts sheets of 20 records. */
  const RecordsPerHeaderPage: nat := 20

  /** `math.ceil(n / 20) if n > 0 else 1`. */
  function HeaderPages(n: nat): nat {
    if n > 0 then (n + RecordsPerHeaderPage - 1) / RecordsPerHeaderPage else 1
  }

  /** The header's sheet count is the least number of 20-record sheets that hold all records, and at least one. */
  lemma {:induction false} HeaderPagesIsCeiling(n: nat)
    ensures HeaderPages(n) >= 1
    ensures n > 0 ==> (HeaderPages(n) - 1) * RecordsPerHeaderPage < n <= HeaderPages(n) * RecordsPerHeaderPage
  {
  }

  /** `gerar_header_bpa`: the header for a competence and the records that follow it. */
  function BuildHeader(competencia: string, records: seq<BpaRecord>, config: Config): BpaHeader {
    var n := |records|;
    BpaHeader(
      "01", "#BPA#", competencia, Padded(n, 6), Padded(HeaderPages(n), 6),
      Padded(Control(records), 4), LJust(config.orgaoResponsavel, 30), LJust(config.siglaOrgao, 6),
      ZFill(config.cgcCpf, 14), LJust(config.orgaoDestino, 40), config.indicadorDestino,
      LJust(config.versaoSistema, 10))
  }

  /**
   * The three counters of the header are six, six and four digits that read
   * back as the number of records, the number of 20-record sheets and the
   * control value, as long as there are fewer than a million records.
   */
  lemma {:induction false} HeaderCounters(competencia: string, records: seq<BpaRecord>, config: Config)
    requires |records| < 1000000
    ensures var h := BuildHeader(competencia, records, config);
      |h.lineCount| == 6 && AllDecimal(h.lineCount) && PyInt(h.lineCount) == Some(|records|) &&
      |h.pageCount| == 6 && AllDecimal(h.pageCount) && PyInt(h.pageCount) == Some(HeaderPages(|records|)) &&
      |h.control| == 4 && AllDecimal(h.control) && PyInt(h.control) == Some(Control(records))
  {
    var n := |records|;
    assert Pow10(4) == 10000 && Pow10(6) == 1000000;
    HeaderPagesIsCeiling(n);
    ZeroPaddedShape(n, 6);
    ZeroPaddedRoundTrip(n, 6);
    ZeroPaddedShape(HeaderPages(n), 6);
    ZeroPaddedRoundTrip(HeaderPages(n), 6);
    ZeroPaddedShape(Control(records), 4);
    ZeroPaddedRoundTrip(Control(records), 4);
  }

  /** The fixed marks and the padded texts of the header. */
  lemma {:induction false} HeaderFixedFields(competencia: string, records: seq<BpaRecord>, config: Config)
    ensures var h := BuildHeader(competencia, records, config);
      h.hdr1 == "01" && h.hdr2 == "#BPA#" && h.competence == competencia &&
      h.destinationKind == config.indicadorDestino &&
      |h.responsible| >= 30 && |h.acronym| >= 6 && |h.taxId| >= 14 &&
      |h.destination| >= 40 && |h.version| >= 10
  {
  }

  // ---------------------------------------------------------------------------
  // The text written.

  const CrLf: string := "\r\n"

  /** The header line: its twelve fields concatenated, then CR LF. */
  function HeaderLine(h: BpaHeader): string {
    Concat(HeaderFields(h)) + CrLf
  }

  /** A record line: its 39 fields concatenated, then CR LF. */
  function RecordLine(r: BpaRecord): string {
    Concat(RecordFields(r)) + CrLf
  }

  /** The file-name extensions by month. */
  const Months: seq<string> := ["JAN", "FEV", "MAR", "ABR", "MAI", "JUN", "JUL", "AGO", "SET", "OUT", "NOV", "DEZ"]

  /**
   * `meses[int(competencia[-2:]) - 1]`: `None` where `int()` raises or the
   * index is outside the list; a negative index counts from the end, as
   * Python's does.
   */
  function MonthExtension(competencia: string): Option<string> {
    match PyInt(TakeLast(competencia, 2))
    case None => None
    case Some(m) =>
      var k := m - 1;
      if -|Months| <= k < |Months| then Some(Months[if k < 0 then k + |Months| else k]) else None
  }

  /** A competence ending in a month 01..12 gets that month's extension. */
  lemma {:induction false} ExtensionOfMonth(competencia: string, m: nat)
    requires |competencia| >= 2 && AllDecimal(competencia[|competencia| - 2..])
    requires DecimalValue(competencia[|competencia| - 2..]) == m && 1 <= m <= 12
    ensures MonthExtension(competencia) == Some(Months[m - 1])
  {
    PyIntOfDecimal(competencia[|competencia| - 2..]);
  }

  /** A competence ending in `00` is not refused: index -1 wraps round to December. */
  lemma {:induction false} ExtensionOfMonthZero(competencia: string)
    requires |competencia| >= 2 && competencia[|competencia| - 2..] == "00"
    ensures MonthExtension(competencia) == Some("DEZ")
  {
    var t := competencia[|competencia| - 2..];
    assert AllDecimal(t);
    PyIntOfDecimal(t);
    assert DecimalValue(t) == 0 by {
      assert t[..1] == "0";
      assert DecimalValue(t[..1]) == 0 by { assert t[..1][..0] == []; }
    }
  }

  /** A two-digit month beyond 12 is refused (the list index is out of range). */
  lemma {:induction false} ExtensionOfMonthBeyondTwelve(competencia: string)
    requires |competencia| >= 2 && AllDecimal(competencia[|competencia| - 2..])
    requires DecimalValue(competencia[|competencia| - 2..]) > 12
    ensures MonthExtension(competencia) == None
  {
    PyIntOfDecimal(competencia[|competencia| - 2..]);
  }

  /** The file `gerar_arquivo_txt` writes: its extension and its lines, in order. */
  datatype Export = Export(extension: string, lines: seq<string>)

  /** A text the `latin-1` codec can encode: no character above U+00FF. */
  predicate Latin1(s: string) {
    forall i :: 0 <= i < |s| ==> s[i] <= '\U{ff}'
  }

  /** Every record's line can be encoded as `latin-1`. */
  predicate RecordsLatin1(records: seq<BpaRecord>) {
    forall i :: 0 <= i < |records| ==> Latin1(RecordLine(records[i]))
  }

  /**
   * `gerar_arquivo_txt`: `None` where it returns `False`, because the month of
   * the competence gives no extension or because `f.write` meets a character
   * the `latin-1` codec cannot encode; otherwise the header line and the
   * record lines.
   */
  function ExportFile(competencia: string, records: seq<BpaRecord>, config: Config): Option<Export> {
    match MonthExtension(competencia)
    case None => None
    case Some(ext) =>
      var header := HeaderLine(BuildHeader(competencia, records, config));
      if Latin1(header) && RecordsLatin1(records) then Some(Export(ext, [header] + RecordLines(records))) else None
  }

  /** The text of the written file: its lines one after another (the file is opened with `newline=''`, so nothing is translated). */
  function FileText(e: Export): string {
    Concat(e.lines)
  }

  /** One line per record, in order. */
  function RecordLines(records: seq<BpaRecord>): (lines: seq<string>)
    ensures |lines| == |records|
    ensures forall i :: 0 <= i < |records| ==> lines[i] == RecordLine(records[i]) && EndsWithCrLf(lines[i])
  {
    if records == [] then []
    else
      var last := records[|records| - 1];
      TerminatedLine(Concat(RecordFields(last)));
      RecordLines(records[..|records| - 1]) + [RecordLine(last)]
  }

  /**
   * The export succeeds exactly when the month gives an extension and every
   * line can be encoded as `latin-1`. The written file then has one line more
   * than there are records: the header, then each record in order, every line
   * ending in CR LF.
   */
  lemma {:induction false} ExportLines(competencia: string, records: seq<BpaRecord>, config: Config)
    ensures ExportFile(competencia, records, config).Some? <==>
      MonthExtension(competencia).Some? && Latin1(HeaderLine(BuildHeader(competencia, records, config))) &&
      RecordsLatin1(records)
    ensures var e := ExportFile(competencia, records, config);
      e.Some? ==> (|e.value.lines| == |records| + 1 &&
        e.value.lines[0] == HeaderLine(BuildHeader(competencia, records, config)) &&
        (forall i :: 0 <= i < |records| ==> e.value.lines[i + 1] == RecordLine(records[i])) &&
        AllEndWithCrLf(e.value.lines))
  {
    if MonthExtension(competencia).Some? {
      var h := BuildHeader(competencia, records, config);
      TerminatedLine(Concat(HeaderFields(h)));
      FileLines(HeaderLine(h), records);
    }
  }

  /** A terminated header followed by the record lines: one line per record more, each terminated. */
  lemma {:induction false} FileLines(header: string, records: seq<BpaRecord>)
    requires EndsWithCrLf(header)
    ensures var lines := [header] + RecordLines(records);
      |lines| == |records| + 1 && lines[0] == header &&
      (forall i :: 0 <= i < |records| ==> lines[i + 1] == RecordLine(records[i])) &&
      AllEndWithCrLf(lines)
  {
    var body := RecordLines(records);
    var lines := [header] + body;
    forall i | 0 <= i < |lines| ensures EndsWithCrLf(lines[i]) {
      if i > 0 {
        assert lines[i] == body[i - 1];
      }
    }
  }

  /** Appending CR LF terminates a line. */
  lemma {:induction false} TerminatedLine(body: string)
    ensures EndsWithCrLf(body + CrLf)
  {
    assert (body + CrLf)[|body + CrLf| - 2..] == CrLf;
  }

  predicate AllEndWithCrLf(lines: seq<string>) {
    forall i :: 0 <= i < |lines| ==> EndsWithCrLf(lines[i])
  }

  predicate EndsWithCrLf(line: string) {
    |line| >= 2 && line[|line| - 2..] == CrLf
  }

  /** A record line starts with the record's identifier. */
  lemma {:induction false} RecordLineStarts(r: BpaRecord)
    requires |r.ident| == 2
    ensures |RecordLine(r)| >= 2 && RecordLine(r)[..2] == r.ident
  {
    FieldAt(RecordFields(r), 0);
    assert RecordFields(r)[..0] == [];
  }
}
