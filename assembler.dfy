/**
 * `processar_registros_bpa_i`: turns the rows read from the database into
 * BPA-I production records, one per row, in row order. Every field is derived
 * through a chain of fallbacks; the only way the whole run can fail is a
 * quantity that `int()` refuses.
 */
module Assembler {
  import opened Wrappers
  import opened PyText
  import opened PyDates
  import opened Lookups
  import opened Records

  // ---------------------------------------------------------------------------
  // Inputs.

  datatype Date = Date(year: int, month: int, day: int)

  /** A `datetime.date` value: always a real calendar date in years 1..9999. */
  type CalendarDate = d: Date | IsValidDate(d.year, d.month, d.day) witness Date(1, 1, 1)

  /** One row of the production query; every column may be missing (`None`). */
  datatype Row = Row(
    codProc: Option<PyValue>, lancCodCid: Option<PyValue>, procCodCid: Option<PyValue>,
    diagnostico: Option<PyValue>, quantidade: Option<PyValue>, qtdAutorizada: Option<PyValue>,
    qtdSolicitada: Option<PyValue>, codIbge: Option<PyValue>, codMunicipio: Option<PyValue>,
    sexo: Option<PyValue>, cnspac: Option<PyValue>, codRaca: Option<PyValue>,
    codEtnia: Option<PyValue>, tpFuncao: Option<PyValue>, cnsMed: Option<PyValue>,
    urgenteEletivo: Option<PyValue>, numeroGuia: Option<PyValue>, nmPaciente: Option<PyValue>,
    codCep: Option<PyValue>, codLogradouro: Option<PyValue>, complemento: Option<PyValue>,
    numEndResp: Option<PyValue>, foneResp: Option<PyValue>, email: Option<PyValue>,
    dataNasc: Option<CalendarDate>, dataAtendimento: Option<CalendarDate>)

  /** The values the exporter fills in when a row does not provide them. */
  const DefaultProcedure: string := "0301010013"
  const ServiceCode: string := "135"
  const DefaultDiagnosis: string := "Z000"
  const DefaultIbge: string := "170550"
  const DefaultPatientName: string := "PACIENTE"
  const DefaultCareType: string := "01"

  /** Rows per sheet of the paper form the records are numbered after. */
  const RowsPerPage: nat := 99

  // ---------------------------------------------------------------------------
  // Rendering dates.

  /** `d.strftime('%Y%m%d')`. */
  function DateText(d: CalendarDate): string {
    Padded(d.year, 4) + Padded(d.month, 2) + Padded(d.day, 2)
  }

  /** `datetime.now().strftime('%Y%m')`, the competence used when none is given. */
  function CompetenceOf(today: CalendarDate): string {
    Padded(today.year, 4) + Padded(today.month, 2)
  }

  /** A rendered date is eight digits that read back as the year, month and day. */
  lemma {:induction false} DateTextDigits(d: CalendarDate)
    ensures |DateText(d)| == 8 && AllDecimal(DateText(d))
    ensures DecimalValue(DateText(d)[..4]) == d.year
    ensures DecimalValue(DateText(d)[4..6]) == d.month
    ensures DecimalValue(DateText(d)[6..]) == d.day
  {
    assert Pow10(2) == 100 && Pow10(4) == 10000;
    ZeroPaddedShape(d.year, 4);
    ZeroPaddedShape(d.month, 2);
    ZeroPaddedShape(d.day, 2);
    var t := DateText(d);
    assert t[..4] == Padded(d.year, 4);
    assert t[4..6] == Padded(d.month, 2);
    assert t[6..] == Padded(d.day, 2);
  }

  /** The default competence is six digits that read back as the current year and month. */
  lemma {:induction false} CompetenceOfDigits(today: CalendarDate)
    ensures |CompetenceOf(today)| == 6 && AllDecimal(CompetenceOf(today))
    ensures DecimalValue(CompetenceOf(today)[..4]) == today.year
    ensures DecimalValue(CompetenceOf(today)[4..]) == today.month
  {
    assert Pow10(2) == 100 && Pow10(4) == 10000;
    ZeroPaddedShape(today.year, 4);
    ZeroPaddedShape(today.month, 2);
    var t := CompetenceOf(today);
    assert t[..4] == Padded(today.year, 4);
    assert t[4..] == Padded(today.month, 2);
  }

  // ---------------------------------------------------------------------------
  // Field derivations.

  /** `x and str(x).strip()`: the column is there and its text is not blank. */
  predicate Present(v: Option<PyValue>) {
    Truthy(v) && Strip(Str(v.value)) != []
  }

  /**
   * The two-step procedure lookup: the row's `cod_proc` through the database
   * map to a `codigo_procedimento`, then through the static table.
   */
  function LookupProcedure(codProc: Option<PyValue>, procMap: map<string, string>): Option<ProcedureInfo> {
    if !Present(codProc) then None
    else
      var key := Str(codProc.value);
      if key !in procMap || procMap[key] == [] then None
      else if procMap[key] !in ProcedureTable() then None
      else Some(ProcedureTable()[procMap[key]])
  }

  /** The resolved national code, rehabilitation type and suggested diagnosis of one row. */
  datatype Resolution = Resolution(sigtap: string, rehabType: string, suggestion: Option<string>)

  /** The suggestion is taken only when none of the three diagnosis columns is truthy. */
  function ResolveProcedure(row: Row, procMap: map<string, string>): Resolution {
    match LookupProcedure(row.codProc, procMap)
    case None => Resolution(DefaultProcedure, "", None)
    case Some(info) =>
      var noDiagnosis := !(Truthy(row.lancCodCid) || Truthy(row.procCodCid) || Truthy(row.diagnostico));
      Resolution(info.sigtap, info.classification, if noDiagnosis then Some(info.suggestedCid) else None)
  }

  /** The diagnosis by priority: the three columns, then the suggestion, then `Z000`. */
  function Diagnosis(row: Row, suggestion: Option<string>): string {
    if Present(row.lancCodCid) then Strip(Str(row.lancCodCid.value))
    else if Present(row.procCodCid) then Strip(Str(row.procCodCid.value))
    else if Present(row.diagnostico) then Strip(Str(row.diagnostico.value))
    else if suggestion.Some? && suggestion.value != [] then suggestion.value
    else DefaultDiagnosis
  }

  /** `str(cid)[:4].ljust(4)`. */
  function CidField(cid: string): string {
    LJust(Take(cid, 4), 4)
  }

  /** The first truthy quantity column, or the integer 1. */
  function QuantitySource(row: Row): PyValue {
    if Truthy(row.quantidade) then row.quantidade.value
    else if Truthy(row.qtdAutorizada) then row.qtdAutorizada.value
    else if Truthy(row.qtdSolicitada) then row.qtdSolicitada.value
    else Integer(1)
  }

  /** `int(v)` for a column value; `None` where `int()` raises. */
  function IntOf(v: PyValue): Option<int> {
    match v
    case Text(s) => PyInt(s)
    case Integer(i) => Some(i)
  }

  /** Sex: `'F'` for a stripped `'3'`, `'M'` for everything else, absent included. */
  function SexCode(sexo: Option<PyValue>): string {
    if sexo.Some? && Strip(Str(sexo.value)) == "3" then "F" else "M"
  }

  /** Whether `(m1, d1) < (m2, d2)` as Python compares tuples. */
  predicate EarlierInYear(m1: int, d1: int, m2: int, d2: int) {
    m1 < m2 || (m1 == m2 && d1 < d2)
  }

  /** The age at the service date: the difference of years, less one before the birthday. */
  function Age(birth: Option<CalendarDate>, service: Option<CalendarDate>): int {
    if birth.None? || service.None? then 0
    else
      var b, s := birth.value, service.value;
      s.year - b.year - (if EarlierInYear(s.month, s.day, b.month, b.day) then 1 else 0)
  }

  /** Ethnicity: the column padded to four, only for indigenous race `'05'`. */
  function EthnicityCode(race: string, codEtnia: Option<PyValue>): string {
    if race == "05" && Truthy(codEtnia) then ZFill(Str(codEtnia.value), 4) else "0000"
  }

  function OptionalDate(d: Option<CalendarDate>): string {
    if d.Some? then DateText(d.value) else ""
  }

  // ---------------------------------------------------------------------------
  // One record.

  /** The record built for row `i` once its quantity has been read as `quantity`. */
  function Record(row: Row, i: nat, competence: string, procMap: map<string, string>,
                  cnes: string, quantity: int): BpaRecord
  {
    var res := ResolveProcedure(row, procMap);
    BpaRecord(
      "03", ZFill(cnes, 7), competence, LJust(StrOr(row.cnsMed, ""), 15),
      LJust(CboForFunction(row.tpFuncao), 6), OptionalDate(row.dataAtendimento),
      Padded(i / RowsPerPage + 1, 3), Padded(i % RowsPerPage + 1, 2),
      ZFill(res.sigtap, 10), LJust(StrOr(row.cnspac, ""), 15), SexCode(row.sexo),
      ZFill(StrOr(row.codIbge, DefaultIbge), 6), CidField(Diagnosis(row, res.suggestion)),
      ZFill(IntToStr(Age(row.dataNasc, row.dataAtendimento)), 3), ZFill(IntToStr(quantity), 6),
      ZFill(StrOr(row.urgenteEletivo, DefaultCareType), 2), LJust(StrOr(row.numeroGuia, ""), 13),
      "BPA", Take(LJust(StrOr(row.nmPaciente, DefaultPatientName), 30), 30),
      OptionalDate(row.dataNasc), ZFill(RaceCode(row.codRaca), 2),
      EthnicityCode(RaceCode(row.codRaca), row.codEtnia), ZFill("010", 3), ZFill(ServiceCode, 3),
      ZFill(ClassificationCode(res.rehabType), 3), ZFill("", 8), ZFill("", 4), ZFill("", 14),
      ZFill(StrOr(row.codCep, ""), 8), ZFill(StrOr(row.codLogradouro, ""), 3), LJust("", 30),
      LJust(StrOr(row.complemento, ""), 10), LJust(StrOr(row.numEndResp, ""), 5), LJust("", 30),
      LJust(StrOr(row.foneResp, ""), 11), LJust(StrOr(row.email, ""), 40), ZFill("", 10),
      "00000000000", "N")
  }

  /** The record for row `i`, or `None` when `int()` refuses the row's quantity. */
  function AssembleRecord(row: Row, i: nat, competence: string, procMap: map<string, string>,
                          cnes: string): Option<BpaRecord>
  {
    match IntOf(QuantitySource(row))
    case None => None
    case Some(q) => Some(Record(row, i, competence, procMap, cnes, q))
  }

  // ---------------------------------------------------------------------------
  // What each record says about its row.

  /** Fields that never depend on the row. */
  lemma {:induction false} RecordFixedFields(row: Row, i: nat, competence: string, procMap: map<string, string>,
                          cnes: string, q: int)
    ensures var r := Record(row, i, competence, procMap, cnes, q);
      r.ident == "03" && r.origin == "BPA" && r.nationality == "010" && r.service == ServiceCode &&
      r.teamSequence == "00000000" && r.teamArea == "0000" && r.cnpj == "00000000000000" &&
      r.ine == "0000000000" && r.cpf == "00000000000" && r.homeless == "N" &&
      r.street == Repeat(' ', 30) && r.district == Repeat(' ', 30) && r.competence == competence
  {
    RecordFillers(row, i, competence, procMap, cnes, q);
    BlankFill(30);
    ZeroFill(8);
    ZeroFill(4);
    ZeroFill(14);
    ZeroFill(10);
    assert Repeat('0', 8) == "00000000";
    assert Repeat('0', 4) == "0000";
    assert Repeat('0', 14) == "00000000000000";
    assert Repeat('0', 10) == "0000000000";
  }

  /** The filler fields of a record, as the padding calls that produce them. */
  lemma {:induction false} RecordFillers(row: Row, i: nat, competence: string, procMap: map<string, string>,
                          cnes: string, q: int)
    ensures var r := Record(row, i, competence, procMap, cnes, q);
      r.ident == "03" && r.origin == "BPA" && r.nationality == ZFill("010", 3) &&
      r.service == ZFill(ServiceCode, 3) &&
      r.teamSequence == ZFill("", 8) && r.teamArea == ZFill("", 4) && r.cnpj == ZFill("", 14) &&
      r.ine == ZFill("", 10) && r.cpf == "00000000000" && r.homeless == "N" &&
      r.street == LJust("", 30) && r.district == LJust("", 30) && r.competence == competence
  {
  }

  /** The widths the layout expects of the row-dependent text fields. */
  lemma {:induction false} RecordWidths(row: Row, i: nat, competence: string, procMap: map<string, string>,
                     cnes: string, q: int)
    ensures var r := Record(row, i, competence, procMap, cnes, q);
      |r.cnes| >= 7 && |r.cnsMed| >= 15 && |r.cbo| == 6 && |r.cnsPatient| >= 15 &&
      |r.cid| == 4 && |r.patientName| == 30 && |r.authorization| >= 13
  {
    CboFieldWidth(row.tpFuncao);
  }

  /** `"".zfill(w)` is `w` zeros. */
  lemma {:induction false} ZeroFill(w: nat)
    ensures ZFill("", w) == Repeat('0', w)
  {
    assert Repeat('0', w) + "" == Repeat('0', w);
  }

  /** `"".ljust(w)` is `w` spaces. */
  lemma {:induction false} BlankFill(w: nat)
    ensures LJust("", w) == Repeat(' ', w)
  {
    assert "" + Repeat(' ', w) == Repeat(' ', w);
  }

  /**
   * Row `i` is numbered on sheet `i / 99 + 1` at line `i % 99 + 1`: the line
   * number is always 1..99, and the two fields read back give the row index.
   * The sheet field is three characters wide only below row 98 901; from there
   * on `zfill(3)` leaves four digits and every later field moves one column right.
   */
  lemma {:induction false} RecordPaging(row: Row, i: nat, competence: string, procMap: map<string, string>,
                     cnes: string, q: int)
    ensures var r := Record(row, i, competence, procMap, cnes, q);
      |r.page| >= 3 && |r.sequence| == 2 &&
      PyInt(r.page).Some? && PyInt(r.sequence).Some? &&
      1 <= PyInt(r.sequence).value <= RowsPerPage &&
      (PyInt(r.page).value - 1) * RowsPerPage + (PyInt(r.sequence).value - 1) == i
    ensures |Record(row, i, competence, procMap, cnes, q).page| == 3 <==> i < RowsPerPage * 999
  {
    RecordPageFields(row, i, competence, procMap, cnes, q);
    SheetAndLine(i);
  }

  lemma {:induction false} RecordPageFields(row: Row, i: nat, competence: string, procMap: map<string, string>,
                         cnes: string, q: int)
    ensures var r := Record(row, i, competence, procMap, cnes, q);
      r.page == Padded(i / RowsPerPage + 1, 3) && r.sequence == Padded(i % RowsPerPage + 1, 2)
  {
  }

  /** The sheet and line fields of row `i`, read back. */
  lemma {:induction false} SheetAndLine(i: nat)
    ensures var page, sequence := Padded(i / RowsPerPage + 1, 3), Padded(i % RowsPerPage + 1, 2);
      |page| >= 3 && |sequence| == 2 &&
      PyInt(page).Some? && PyInt(sequence).Some? &&
      1 <= PyInt(sequence).value <= RowsPerPage &&
      (PyInt(page).value - 1) * RowsPerPage + (PyInt(sequence).value - 1) == i &&
      (|page| == 3 <==> i < RowsPerPage * 999)
  {
    SheetArithmetic(i);
    PaddedDigits(i / RowsPerPage + 1, 3);
    LineDigits(i % RowsPerPage + 1);
  }

  /** Sheet and line number of row `i`, and the rows whose sheet number has three digits. */
  lemma {:induction false} SheetArithmetic(i: nat)
    ensures 1 <= i % RowsPerPage + 1 <= RowsPerPage
    ensures (i / RowsPerPage) * RowsPerPage + i % RowsPerPage == i
    ensures i / RowsPerPage + 1 < Pow10(3) <==> i < RowsPerPage * 999
  {
    assert Pow10(3) == 1000 by {
      assert Pow10(1) == 10;
      assert Pow10(2) == 100;
    }
  }

  /** A line number 1..99 is two digits that read back. */
  lemma {:induction false} LineDigits(n: nat)
    requires 1 <= n <= RowsPerPage
    ensures |Padded(n, 2)| == 2 && PyInt(Padded(n, 2)) == Some(n)
  {
    assert Pow10(2) == 100 by {
      assert Pow10(1) == 10;
    }
    ZeroPaddedShape(n, 2);
    ZeroPaddedRoundTrip(n, 2);
  }

  /** Row 98 901, the first past the bound, gets a four-character sheet field. */
  lemma {:induction false} RecordPageOverflow(row: Row, competence: string, procMap: map<string, string>,
                           cnes: string, q: int)
    ensures |Record(row, 98901, competence, procMap, cnes, q).page| == 4
  {
    RecordPageFields(row, 98901, competence, procMap, cnes, q);
    assert 98901 / RowsPerPage + 1 == 1000;
    SheetOneThousand();
  }

  /** `str(1000).zfill(3)` is four characters. */
  lemma {:induction false} SheetOneThousand()
    ensures |Padded(1000, 3)| == 4
  {
    assert Pow10(3) == 1000 && Pow10(4) == 10000;
    PaddedDigits(1000, 3);
    NatToStrLength(1000, 4);
  }

  /** Whether the row's procedure goes through both maps. */
  predicate Resolves(codProc: Option<PyValue>, procMap: map<string, string>) {
    Present(codProc) && Str(codProc.value) in procMap && procMap[Str(codProc.value)] != [] &&
    procMap[Str(codProc.value)] in ProcedureTable()
  }

  /** The two-step lookup: a resolving row takes the table entry, any other the defaults. */
  lemma {:induction false} ResolutionFacts(row: Row, procMap: map<string, string>)
    ensures var res := ResolveProcedure(row, procMap);
      if Resolves(row.codProc, procMap) then
        var info := ProcedureTable()[procMap[Str(row.codProc.value)]];
        res.sigtap == info.sigtap && res.rehabType == info.classification &&
        |res.sigtap| == 10 && AllDecimal(res.sigtap) && res.rehabType in RehabilitationTypes &&
        res.suggestion == (if !(Truthy(row.lancCodCid) || Truthy(row.procCodCid) || Truthy(row.diagnostico))
                           then Some(info.suggestedCid) else None)
      else
        res == Resolution(DefaultProcedure, "", None)
  {
    if Resolves(row.codProc, procMap) {
      var info := ProcedureTable()[procMap[Str(row.codProc.value)]];
      ProcedureTableWellFormed();
      assert WellFormedProcedure(info);
      assert LookupProcedure(row.codProc, procMap) == Some(info);
    } else {
      assert LookupProcedure(row.codProc, procMap) == None;
    }
  }

  /**
   * A row whose procedure resolves gets the table's ten-digit code and the
   * classification of its rehabilitation type; any other row gets
   * `0301010013` and `000`. The service is always `135`.
   */
  lemma {:induction false} RecordProcedure(row: Row, i: nat, competence: string, procMap: map<string, string>,
                        cnes: string, q: int)
    ensures var r := Record(row, i, competence, procMap, cnes, q);
      if Resolves(row.codProc, procMap) then
        var info := ProcedureTable()[procMap[Str(row.codProc.value)]];
        r.procedure == info.sigtap && r.classification == "0" + info.classification &&
        r.classification in {"001", "002", "003", "005"}
      else
        r.procedure == DefaultProcedure && r.classification == "000"
    ensures var r := Record(row, i, competence, procMap, cnes, q);
      |r.procedure| == 10 && AllDecimal(r.procedure) && r.service == ServiceCode
  {
    var res := ResolveProcedure(row, procMap);
    ResolutionFacts(row, procMap);
    assert ZFill(res.sigtap, 10) == res.sigtap && AllDecimal(res.sigtap) by {
      if !Resolves(row.codProc, procMap) {
        assert AllDecimal(DefaultProcedure);
      }
    }
    assert ZFill(ServiceCode, 3) == ServiceCode;
    var r := Record(row, i, competence, procMap, cnes, q);
    assert r.procedure == res.sigtap;
    assert r.classification == ZFill(ClassificationCode(res.rehabType), 3);
  }

  /**
   * The diagnosis by priority: the first of the three columns that is not
   * blank (stripped), else the table's suggestion when none of them is truthy
   * and the procedure resolved, else `Z000`.
   */
  lemma {:induction false} DiagnosisPriority(row: Row, procMap: map<string, string>)
    ensures var d := Diagnosis(row, ResolveProcedure(row, procMap).suggestion);
      (Present(row.lancCodCid) ==> d == Strip(Str(row.lancCodCid.value))) &&
      (!Present(row.lancCodCid) && Present(row.procCodCid) ==> d == Strip(Str(row.procCodCid.value))) &&
      (!Present(row.lancCodCid) && !Present(row.procCodCid) && Present(row.diagnostico) ==>
        d == Strip(Str(row.diagnostico.value)))
    ensures var d := Diagnosis(row, ResolveProcedure(row, procMap).suggestion);
      !Present(row.lancCodCid) && !Present(row.procCodCid) && !Present(row.diagnostico) ==>
        if !Truthy(row.lancCodCid) && !Truthy(row.procCodCid) && !Truthy(row.diagnostico) &&
           Resolves(row.codProc, procMap) &&
           ProcedureTable()[procMap[Str(row.codProc.value)]].suggestedCid != []
        then d == ProcedureTable()[procMap[Str(row.codProc.value)]].suggestedCid
        else d == DefaultDiagnosis
  {
    ResolutionFacts(row, procMap);
  }

  /**
   * The diagnosis field is the chosen diagnosis cut or padded to exactly four
   * characters: a shorter one is kept in front, a longer one keeps its first four.
   */
  lemma {:induction false} RecordDiagnosis(row: Row, i: nat, competence: string, procMap: map<string, string>,
                        cnes: string, q: int)
    ensures var r := Record(row, i, competence, procMap, cnes, q);
      r.cid == CidField(Diagnosis(row, ResolveProcedure(row, procMap).suggestion)) && |r.cid| == 4
    ensures |Diagnosis(row, ResolveProcedure(row, procMap).suggestion)| <= 4 ==>
      Take(Record(row, i, competence, procMap, cnes, q).cid, |Diagnosis(row, ResolveProcedure(row, procMap).suggestion)|) ==
      Diagnosis(row, ResolveProcedure(row, procMap).suggestion)
    ensures |Diagnosis(row, ResolveProcedure(row, procMap).suggestion)| >= 4 ==>
      Record(row, i, competence, procMap, cnes, q).cid == Diagnosis(row, ResolveProcedure(row, procMap).suggestion)[..4]
  {
    RecordCid(row, i, competence, procMap, cnes, q);
    CidFieldFacts(Diagnosis(row, ResolveProcedure(row, procMap).suggestion));
  }

  lemma {:induction false} RecordCid(row: Row, i: nat, competence: string, procMap: map<string, string>, cnes: string, q: int)
    ensures Record(row, i, competence, procMap, cnes, q).cid == CidField(Diagnosis(row, ResolveProcedure(row, procMap).suggestion))
  {
  }

  /** `str(cid)[:4].ljust(4)` has four characters, keeps a diagnosis of at most four and cuts a longer one to its first four. */
  lemma {:induction false} CidFieldFacts(d: string)
    ensures |CidField(d)| == 4
    ensures |d| <= 4 ==> Take(CidField(d), |d|) == d
    ensures |d| >= 4 ==> CidField(d) == d[..4]
  {
  }

  /** When no quantity column is truthy the record is built with quantity `000001`. */
  lemma {:induction false} QuantityDefault(row: Row, i: nat, competence: string, procMap: map<string, string>, cnes: string)
    requires !Truthy(row.quantidade) && !Truthy(row.qtdAutorizada) && !Truthy(row.qtdSolicitada)
    ensures AssembleRecord(row, i, competence, procMap, cnes).Some?
    ensures AssembleRecord(row, i, competence, procMap, cnes).value.quantity == "000001"
  {
    assert IntOf(QuantitySource(row)) == Some(1);
    assert ZFill(IntToStr(1), 6) == "000001" by {
      assert IntToStr(1) == "1";
    }
    var r := Record(row, i, competence, procMap, cnes, 1);
    assert AssembleRecord(row, i, competence, procMap, cnes) == Some(r);
  }

  /**
   * Quantity priority: the first truthy column among `quantidade`,
   * `qtd_autorizada` and `qtd_solicitada` is the one read; a missing, zero or
   * empty column falls through to the next.
   */
  lemma {:induction false} QuantityPriority(row: Row)
    ensures Truthy(row.quantidade) ==> QuantitySource(row) == row.quantidade.value
    ensures !Truthy(row.quantidade) && Truthy(row.qtdAutorizada) ==> QuantitySource(row) == row.qtdAutorizada.value
    ensures !Truthy(row.quantidade) && !Truthy(row.qtdAutorizada) && Truthy(row.qtdSolicitada) ==>
      QuantitySource(row) == row.qtdSolicitada.value
    ensures row.quantidade in {None, Some(Integer(0)), Some(Text(""))} ==>
      QuantitySource(row) == QuantitySource(row.(quantidade := None))
  {
  }

  /**
   * A record exists exactly when `int()` accepts the chosen quantity, and a
   * quantity of up to six digits reads back from its zero-padded field.
   */
  lemma {:induction false} RecordQuantity(row: Row, i: nat, competence: string, procMap: map<string, string>, cnes: string)
    ensures AssembleRecord(row, i, competence, procMap, cnes).Some? <==> IntOf(QuantitySource(row)).Some?
    ensures var n := IntOf(QuantitySource(row));
      n.Some? && 0 <= n.value < 1000000 ==>
        var r := AssembleRecord(row, i, competence, procMap, cnes).value;
        |r.quantity| == 6 && PyInt(r.quantity) == n
  {
    var n := IntOf(QuantitySource(row));
    if n.Some? && 0 <= n.value < 1000000 {
      assert Pow10(6) == 1000000;
      ZeroPaddedShape(n.value, 6);
      ZeroPaddedRoundTrip(n.value, 6);
    }
  }

  /**
   * Sex is `F` exactly for a stripped `'3'`; race is the mapped code; the
   * ethnicity column is kept, padded to four, only for indigenous patients.
   */
  lemma {:induction false} RecordDemographics(row: Row, i: nat, competence: string, procMap: map<string, string>,
                           cnes: string, q: int)
    ensures var r := Record(row, i, competence, procMap, cnes, q);
      (r.sex == "F" <==> row.sexo.Some? && Strip(Str(row.sexo.value)) == "3") &&
      (r.sex == "M" <==> !(row.sexo.Some? && Strip(Str(row.sexo.value)) == "3"))
    ensures var r := Record(row, i, competence, procMap, cnes, q);
      r.race == RaceCode(row.codRaca) && r.race in {"01", "02", "03", "04", "05"}
    ensures var r := Record(row, i, competence, procMap, cnes, q);
      (r.race == "05" && Truthy(row.codEtnia) ==> r.ethnicity == ZFill(Str(row.codEtnia.value), 4)) &&
      (!(r.race == "05" && Truthy(row.codEtnia)) ==> r.ethnicity == "0000") &&
      |r.ethnicity| >= 4
  {
    RecordSex(row, i, competence, procMap, cnes, q);
    RecordRace(row, i, competence, procMap, cnes, q);
    RecordEthnicity(row, i, competence, procMap, cnes, q);
    SexCodeFacts(row.sexo);
    EthnicityCodeFacts(RaceCode(row.codRaca), row.codEtnia);
  }

  /** `'F'` exactly for the stripped text `3`, `'M'` otherwise. */
  lemma {:induction false} SexCodeFacts(sexo: Option<PyValue>)
    ensures SexCode(sexo) == "F" <==> sexo.Some? && Strip(Str(sexo.value)) == "3"
    ensures SexCode(sexo) == "M" <==> !(sexo.Some? && Strip(Str(sexo.value)) == "3")
  {
  }

  /** The ethnicity is kept, zero-filled, only for an indigenous patient with a truthy ethnicity column. */
  lemma {:induction false} EthnicityCodeFacts(race: string, codEtnia: Option<PyValue>)
    ensures race == "05" && Truthy(codEtnia) ==> EthnicityCode(race, codEtnia) == ZFill(Str(codEtnia.value), 4)
    ensures !(race == "05" && Truthy(codEtnia)) ==> EthnicityCode(race, codEtnia) == "0000"
    ensures |EthnicityCode(race, codEtnia)| >= 4
  {
  }

  // Single fields of a record, one proof obligation each.
  lemma {:induction false} RecordSex(row: Row, i: nat, competence: string, procMap: map<string, string>, cnes: string, q: int)
    ensures Record(row, i, competence, procMap, cnes, q).sex == SexCode(row.sexo)
  {
  }

  lemma {:induction false} RecordRace(row: Row, i: nat, competence: string, procMap: map<string, string>, cnes: string, q: int)
    ensures Record(row, i, competence, procMap, cnes, q).race == RaceCode(row.codRaca)
  {
  }

  lemma {:induction false} RecordEthnicity(row: Row, i: nat, competence: string, procMap: map<string, string>, cnes: string, q: int)
    ensures Record(row, i, competence, procMap, cnes, q).ethnicity == EthnicityCode(RaceCode(row.codRaca), row.codEtnia)
  {
  }

  /** `(y1, m1, d1) <= (y2, m2, d2)` in calendar order. */
  predicate OnOrBefore(y1: int, m1: int, d1: int, y2: int, m2: int, d2: int) {
    y1 < y2 || (y1 == y2 && !EarlierInYear(m2, d2, m1, d1))
  }

  /**
   * The age is the number of birthdays reached by the service date: the
   * birthday `age` years on falls on or before it, the next one after it.
   */
  lemma {:induction false} AgeIsCompletedYears(birth: CalendarDate, service: CalendarDate)
    ensures var a := Age(Some(birth), Some(service));
      OnOrBefore(birth.year + a, birth.month, birth.day, service.year, service.month, service.day) &&
      !OnOrBefore(birth.year + a + 1, birth.month, birth.day, service.year, service.month, service.day)
    ensures OnOrBefore(birth.year, birth.month, birth.day, service.year, service.month, service.day) ==>
      Age(Some(birth), Some(service)) >= 0
  {
  }

  /** A present date is written as eight digits that read back as that date; an absent one as nothing. */
  lemma {:induction false} OptionalDateDigits(d: Option<CalendarDate>)
    ensures d.None? ==> OptionalDate(d) == ""
    ensures d.Some? ==> (|OptionalDate(d)| == 8 && AllDecimal(OptionalDate(d)) &&
      DecimalValue(OptionalDate(d)[..4]) == d.value.year &&
      DecimalValue(OptionalDate(d)[4..6]) == d.value.month &&
      DecimalValue(OptionalDate(d)[6..]) == d.value.day)
  {
    if d.Some? {
      DateTextDigits(d.value);
    }
  }

  /** The service and birth dates of the record are the row's dates, rendered or left empty. */
  lemma {:induction false} RecordDates(row: Row, i: nat, competence: string, procMap: map<string, string>,
                    cnes: string, q: int)
    ensures var r := Record(row, i, competence, procMap, cnes, q);
      r.serviceDate == OptionalDate(row.dataAtendimento) && r.birthDate == OptionalDate(row.dataNasc)
    ensures var r := Record(row, i, competence, procMap, cnes, q);
      (row.dataAtendimento.None? <==> r.serviceDate == "") && (row.dataNasc.None? <==> r.birthDate == "")
  {
    OptionalDateDigits(row.dataAtendimento);
    OptionalDateDigits(row.dataNasc);
  }

  // ---------------------------------------------------------------------------
  // The whole run.

  datatype Outcome = Assembled(records: seq<BpaRecord>) | QuantityNotInteger(row: nat)

  /** `competencia`, or the current month when it is not given. */
  function Competence(competencia: Option<string>, today: CalendarDate): string {
    if competencia.Some? then competencia.value else CompetenceOf(today)
  }

  /**
   * The loop of `processar_registros_bpa_i`: walks the rows with their index
   * (`enumerate`) and appends what `build` makes of each, stopping at the
   * first row `build` fails on.
   */
  method BuildRecords<A, B>(rows: seq<A>, build: (A, nat) -> Option<B>) returns (built: seq<B>, failed: Option<nat>)
    ensures failed.None? ==> (|built| == |rows| &&
      forall i :: 0 <= i < |rows| ==> build(rows[i], i) == Some(built[i]))
    ensures failed.Some? ==> (failed.value < |rows| && build(rows[failed.value], failed.value).None? &&
      forall i :: 0 <= i < failed.value ==> build(rows[i], i).Some?)
  {
    built := [];
    var i := 0;
    while i < |rows|
      invariant 0 <= i <= |rows| && |built| == i
      invariant forall j :: 0 <= j < i ==> build(rows[j], j) == Some(built[j])
    {
      var record := build(rows[i], i);
      if record.None? {
        return built, Some(i);
      }
      built := built + [record.value];
      i := i + 1;
    }
    return built, None;
  }

  /**
   * `processar_registros_bpa_i`: one record per row in row order, or the first
   * row whose quantity makes `int()` raise (the exception leaves the function).
   */
  method ProcessRows(rows: seq<Row>, competencia: Option<string>, today: CalendarDate,
                     procMap: map<string, string>, cnes: string) returns (out: Outcome)
    ensures out.Assembled? ==> (|out.records| == |rows| &&
      forall i :: 0 <= i < |rows| ==>
        AssembleRecord(rows[i], i, Competence(competencia, today), procMap, cnes) == Some(out.records[i]))
    ensures out.QuantityNotInteger? ==> (out.row < |rows| &&
      AssembleRecord(rows[out.row], out.row, Competence(competencia, today), procMap, cnes).None? &&
      forall i :: 0 <= i < out.row ==>
        AssembleRecord(rows[i], i, Competence(competencia, today), procMap, cnes).Some?)
  {
    var competence := Competence(competencia, today);
    var records, failed := BuildRecords(rows, (row, i) => AssembleRecord(row, i, competence, procMap, cnes));
    if failed.Some? {
      return QuantityNotInteger(failed.value);
    }
    return Assembled(records);
  }
}
