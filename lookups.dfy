/**
 * The static lookup tables of the exporter: profession type to occupation
 * (CBO) code, and internal procedure code to its national (SIGTAP) procedure
 * code, service classification and suggested diagnosis.
 */
module Lookups {
  import opened Wrappers
  import opened PyText

  // ---------------------------------------------------------------------------
  // Occupation codes.

  /** Profession type (`tp_funcao`) to occupation code, as the exporter hard-codes it. */
  const CboTable: map<int, string> := map[
      1 := "422105",
      2 := "351305",
      6 := "2232",
      10 := "251605",
      12 := "411005",
      13 := "223710",
      14 := "521140",
      7 := "413115",
      15 := "414105",
      24 := "223605",
      5 := "410105",
      16 := "514320",
      17 := "514320",
      18 := "142105",
      19 := "225320",
      20 := "317210",
      21 := "317210",
      22 := "225170",
      23 := "223805",
      25 := "223905",
      26 := "251510",
      27 := "225150",
      28 := "225160",
      29 := "223910",
      30 := "225145",
      31 := "223505",
      32 := "225135",
      33 := "225140",
      34 := "225130",
      35 := "224110",
      36 := "239215",
      37 := "225125",
      38 := "322205"
  ]

  /** The occupation code used when the profession type is not in the table. */
  const DefaultCbo: string := "000000"

  /**
   * The key the table is searched with: an integer as it is, a text that
   * `isdigit()` accepts converted by `int()` (a superscript digit makes `int()`
   * fail, and the failure is swallowed, so the text is kept and matches no
   * integer key); anything else matches nothing.
   */
  function CboKey(tp: Option<PyValue>): Option<int> {
    match tp
    case Some(Integer(i)) => Some(i)
    case Some(Text(s)) => if PyIsDigit(s) then PyInt(s) else None
    case None => None
  }

  /** `obter_cbo_por_funcao`: the table entry for the profession type, or the default code. */
  function CboForFunction(tp: Option<PyValue>): string {
    var key := CboKey(tp);
    if key.Some? && key.value in CboTable then CboTable[key.value] else DefaultCbo
  }

  /** The lookup is total: its result is the default code or one of the table's codes. */
  lemma {:induction false} CboTotal(tp: Option<PyValue>)
    ensures CboForFunction(tp) == DefaultCbo || CboForFunction(tp) in CboTable.Values
  {
  }

  /** Every occupation code in the table has at most six characters and only digits. */
  lemma {:induction false} CboTableShape()
    ensures forall k :: k in CboTable ==> 4 <= |CboTable[k]| <= 6 && AllDecimal(CboTable[k])
  {
    assert forall k :: k in CboTable ==> 4 <= |CboTable[k]| <= 6;
    forall k | k in CboTable ensures AllDecimal(CboTable[k]) {
      var code := CboTable[k];
      forall i | 0 <= i < |code| ensures IsDecimal(code[i]) { }
    }
  }

  /** A known profession type given as an integer selects its table entry. */
  lemma {:induction false} CboOfKnownInteger(k: int)
    requires k in CboTable
    ensures CboForFunction(Some(Integer(k))) == CboTable[k]
  {
  }

  /** A profession type given as plain digits selects the same code as the integer they denote. */
  lemma {:induction false} CboOfDigitText(s: string)
    requires |s| > 0 && AllDecimal(s)
    ensures CboForFunction(Some(Text(s))) == CboForFunction(Some(Integer(DecimalValue(s))))
  {
    DigitTextKey(s);
  }

  lemma {:induction false} DigitTextKey(s: string)
    requires |s| > 0 && AllDecimal(s)
    ensures CboKey(Some(Text(s))) == Some(DecimalValue(s))
  {
    PyIntOfDecimal(s);
    assert PyIsDigit(s) by {
      forall i | 0 <= i < |s| ensures IsPyDigit(s[i]) {
        assert IsDecimal(s[i]);
      }
    }
  }

  /** Text that is not all digits never matches: the lookup falls back to the default code. */
  lemma {:induction false} CboOfOtherText(s: string)
    requires !PyIsDigit(s)
    ensures CboForFunction(Some(Text(s))) == DefaultCbo
  {
  }

  /**
   * The lookup key decides the code, both ways: a key in the table selects its
   * entry, and anything else gives the default code.
   */
  lemma {:induction false} CboLookup(tp: Option<PyValue>)
    ensures CboKey(tp).Some? && CboKey(tp).value in CboTable ==> CboForFunction(tp) == CboTable[CboKey(tp).value]
    ensures !(CboKey(tp).Some? && CboKey(tp).value in CboTable) ==> CboForFunction(tp) == DefaultCbo
  {
  }

  /**
   * The default code for no value, for an integer outside the table, and for
   * text that `isdigit()` accepts but `int()` refuses (the error is caught and
   * the unconverted text misses the integer keys).
   */
  lemma {:induction false} CboDefaults(tp: Option<PyValue>)
    ensures tp.None? ==> CboForFunction(tp) == DefaultCbo
    ensures tp.Some? && tp.value.Integer? && tp.value.i !in CboTable ==> CboForFunction(tp) == DefaultCbo
    ensures tp.Some? && tp.value.Text? && PyIsDigit(tp.value.s) && PyInt(tp.value.s).None? ==>
      CboForFunction(tp) == DefaultCbo
  {
  }

  /** The superscript two is a digit to `isdigit()` but not to `int()`: the lookup gives the default code. */
  lemma {:induction false} CboOfSuperscriptDigit()
    ensures PyIsDigit("\U{b2}") && PyInt("\U{b2}").None?
    ensures CboForFunction(Some(Text("\U{b2}"))) == DefaultCbo
  {
  }

  /** The record field `obter_cbo_por_funcao(tp).ljust(6)` is always exactly six characters wide. */
  lemma {:induction false} CboFieldWidth(tp: Option<PyValue>)
    ensures |LJust(CboForFunction(tp), 6)| == 6
  {
    CboTableShape();
  }

  // ---------------------------------------------------------------------------
  // Procedures.

  /** One entry of `carregar_tabela_procedimentos_cid`. */
  datatype ProcedureInfo = ProcedureInfo(sigtap: string, classification: string, suggestedCid: string)

  /** Entries for physical rehabilitation, classification 03. */
  function PhysicalProcedures(): map<string, ProcedureInfo> {
    map[
      "105" := ProcedureInfo("0301070105", "03", "M638"),
      "121" := ProcedureInfo("0301070121", "03", "M638"),
      "237" := ProcedureInfo("0301070237", "03", ""),
      "63" := ProcedureInfo("0301100063", "03", ""),
      "210" := ProcedureInfo("0301070210", "03", ""),
      "229" := ProcedureInfo("0301070229", "03", ""),
      "19" := ProcedureInfo("0302050019", "03", "M968"),
      "27" := ProcedureInfo("0302050027", "03", "M998"),
      "14" := ProcedureInfo("0302060014", "03", "G968"),
      "30" := ProcedureInfo("0302060030", "03", "G839"),
      "57" := ProcedureInfo("0302060057", "03", "Q878"),
      "49" := ProcedureInfo("0302060049", "03", "F83"),
      "530" := ProcedureInfo("0309050530", "03", ""),
      "23" := ProcedureInfo("0211030023", "03", ""),
      "31" := ProcedureInfo("0211030031", "03", "")
    ]
  }

  /** Entries for intellectual rehabilitation, classification 02. */
  function IntellectualProcedures(): map<string, ProcedureInfo> {
    map[
      "24" := ProcedureInfo("0301070024", "02", "F83"),
      "40" := ProcedureInfo("0301070040", "02", "F84"),
      "59" := ProcedureInfo("0301070059", "02", "F84"),
      "75" := ProcedureInfo("0301070075", "02", "F84"),
      "261" := ProcedureInfo("0301070261", "02", ""),
      "13" := ProcedureInfo("0211100013", "02", "")
    ]
  }

  /** Entries for visual rehabilitation, classification 01. */
  function VisualProcedures(): map<string, ProcedureInfo> {
    map[
      "38" := ProcedureInfo("0211060038", "01", ""),
      "20" := ProcedureInfo("0211060020", "01", ""),
      "54" := ProcedureInfo("0211060054", "01", ""),
      "100" := ProcedureInfo("0211060100", "01", ""),
      "1127" := ProcedureInfo("0211061127", "01", ""),
      "224" := ProcedureInfo("0211060224", "01", ""),
      "259" := ProcedureInfo("0211060259", "01", ""),
      "232" := ProcedureInfo("0211060232", "01", ""),
      "151" := ProcedureInfo("0211060151", "01", ""),
      "148" := ProcedureInfo("0301070148", "01", ""),
      "156" := ProcedureInfo("0301070156", "01", "H542"),
      "164" := ProcedureInfo("0301070164", "01", "H542"),
      "245" := ProcedureInfo("0301070245", "01", ""),
      "18" := ProcedureInfo("0302030018", "01", "H542"),
      "26" := ProcedureInfo("0302030026", "01", "H519")
    ]
  }

  /** Entries for hearing rehabilitation, classification 05 (first part). */
  function AuditoryAProcedures(): map<string, ProcedureInfo> {
    map[
      "1113" := ProcedureInfo("0211051113", "05", ""),
      "25" := ProcedureInfo("0211070025", "05", ""),
      "33" := ProcedureInfo("0211070033", "05", ""),
      "41" := ProcedureInfo("0211070041", "05", ""),
      "50" := ProcedureInfo("0211070050", "05", ""),
      "106" := ProcedureInfo("0211070106", "05", "H919"),
      "149" := ProcedureInfo("0211070149", "05", ""),
      "157" := ProcedureInfo("0211070157", "05", ""),
      "203" := ProcedureInfo("0211070203", "05", ""),
      "211" := ProcedureInfo("0211070211", "05", ""),
      "246" := ProcedureInfo("0211070246", "05", ""),
      "262" := ProcedureInfo("0211070262", "05", "")
    ]
  }

  /** Entries for hearing rehabilitation, classification 05 (second part). */
  function AuditoryBProcedures(): map<string, ProcedureInfo> {
    map[
      "270" := ProcedureInfo("0211070270", "05", ""),
      "300" := ProcedureInfo("0211070300", "05", "H919"),
      "319" := ProcedureInfo("0211070319", "05", "H919"),
      "327" := ProcedureInfo("0211070327", "05", ""),
      "335" := ProcedureInfo("0211070335", "05", ""),
      "343" := ProcedureInfo("0211070343", "05", ""),
      "351" := ProcedureInfo("0211070351", "05", ""),
      "424" := ProcedureInfo("0211070424", "05", ""),
      "432" := ProcedureInfo("0211070432", "05", ""),
      "32" := ProcedureInfo("0301070032", "05", "H919"),
      "253" := ProcedureInfo("0301070253", "05", "")
    ]
  }

  /** `carregar_tabela_procedimentos_cid`: the whole table, in the order the entries are added. */
  function ProcedureTable(): map<string, ProcedureInfo> {
    PhysicalProcedures() + IntellectualProcedures() + VisualProcedures() + AuditoryAProcedures() + AuditoryBProcedures()
  }

  /** Rehabilitation types the table uses: visual, intellectual, physical, hearing. */
  const RehabilitationTypes: set<string> := {"01", "02", "03", "05"}

  /** The shape every table entry has: ten-digit national code, known type, diagnosis of at most four characters. */
  predicate WellFormedProcedure(p: ProcedureInfo) {
    |p.sigtap| == 10 && AllDecimal(p.sigtap) &&
    p.classification in RehabilitationTypes &&
    |p.suggestedCid| <= 4
  }

  predicate WellFormedTable(t: map<string, ProcedureInfo>) {
    forall k :: k in t ==> WellFormedProcedure(t[k])
  }

  /** Every entry of `t` has type `cls`, a ten-character code and a diagnosis of at most four characters. */
  predicate ShapedTable(t: map<string, ProcedureInfo>, cls: string) {
    forall k :: k in t ==> t[k].classification == cls && |t[k].sigtap| == 10 && |t[k].suggestedCid| <= 4
  }

  /** Every entry of `t` has an all-digit code. */
  predicate DecimalCodes(t: map<string, ProcedureInfo>) {
    forall k :: k in t ==> AllDecimal(t[k].sigtap)
  }

  lemma {:induction false} ShapedWellFormed(t: map<string, ProcedureInfo>, cls: string)
    requires ShapedTable(t, cls) && DecimalCodes(t) && cls in RehabilitationTypes
    ensures WellFormedTable(t)
  {
    forall k | k in t ensures WellFormedProcedure(t[k]) {
      assert t[k].classification == cls && AllDecimal(t[k].sigtap);
    }
  }

  lemma {:induction false} PhysicalWellFormed() ensures WellFormedTable(PhysicalProcedures()) {
    PhysicalShape();
    PhysicalDigits();
    ShapedWellFormed(PhysicalProcedures(), "03");
  }
  lemma {:induction false} PhysicalShape() ensures ShapedTable(PhysicalProcedures(), "03") {
    var t := PhysicalProcedures();
    assert forall k :: k in t ==> t[k].classification == "03" && |t[k].sigtap| == 10 && |t[k].suggestedCid| <= 4;
  }
  lemma {:induction false} PhysicalDigits() ensures DecimalCodes(PhysicalProcedures()) {
    var t := PhysicalProcedures();
    forall k | k in t ensures AllDecimal(t[k].sigtap) {
      var code := t[k].sigtap;
      forall i | 0 <= i < |code| ensures IsDecimal(code[i]) { }
    }
  }
  lemma {:induction false} IntellectualWellFormed() ensures WellFormedTable(IntellectualProcedures()) {
    IntellectualShape();
    IntellectualDigits();
    ShapedWellFormed(IntellectualProcedures(), "02");
  }
  lemma {:induction false} IntellectualShape() ensures ShapedTable(IntellectualProcedures(), "02") {
    var t := IntellectualProcedures();
    assert forall k :: k in t ==> t[k].classification == "02" && |t[k].sigtap| == 10 && |t[k].suggestedCid| <= 4;
  }
  lemma {:induction false} IntellectualDigits() ensures DecimalCodes(IntellectualProcedures()) {
    var t := IntellectualProcedures();
    forall k | k in t ensures AllDecimal(t[k].sigtap) {
      var code := t[k].sigtap;
      forall i | 0 <= i < |code| ensures IsDecimal(code[i]) { }
    }
  }
  lemma {:induction false} VisualWellFormed() ensures WellFormedTable(VisualProcedures()) {
    VisualShape();
    VisualDigits();
    ShapedWellFormed(VisualProcedures(), "01");
  }
  lemma {:induction false} VisualShape() ensures ShapedTable(VisualProcedures(), "01") {
    var t := VisualProcedures();
    assert forall k :: k in t ==> t[k].classification == "01" && |t[k].sigtap| == 10 && |t[k].suggestedCid| <= 4;
  }
  lemma {:induction false} VisualDigits() ensures DecimalCodes(VisualProcedures()) {
    var t := VisualProcedures();
    forall k | k in t ensures AllDecimal(t[k].sigtap) {
      var code := t[k].sigtap;
      forall i | 0 <= i < |code| ensures IsDecimal(code[i]) { }
    }
  }
  lemma {:induction false} AuditoryAWellFormed() ensures WellFormedTable(AuditoryAProcedures()) {
    AuditoryAShape();
    AuditoryADigits();
    ShapedWellFormed(AuditoryAProcedures(), "05");
  }
  lemma {:induction false} AuditoryAShape() ensures ShapedTable(AuditoryAProcedures(), "05") {
    var t := AuditoryAProcedures();
    assert forall k :: k in t ==> t[k].classification == "05" && |t[k].sigtap| == 10 && |t[k].suggestedCid| <= 4;
  }
  lemma {:induction false} AuditoryADigits() ensures DecimalCodes(AuditoryAProcedures()) {
    var t := AuditoryAProcedures();
    forall k | k in t ensures AllDecimal(t[k].sigtap) {
      var code := t[k].sigtap;
      forall i | 0 <= i < |code| ensures IsDecimal(code[i]) { }
    }
  }
  lemma {:induction false} AuditoryBWellFormed() ensures WellFormedTable(AuditoryBProcedures()) {
    AuditoryBShape();
    AuditoryBDigits();
    ShapedWellFormed(AuditoryBProcedures(), "05");
  }
  lemma {:induction false} AuditoryBShape() ensures ShapedTable(AuditoryBProcedures(), "05") {
    var t := AuditoryBProcedures();
    assert forall k :: k in t ==> t[k].classification == "05" && |t[k].sigtap| == 10 && |t[k].suggestedCid| <= 4;
  }
  lemma {:induction false} AuditoryBDigits() ensures DecimalCodes(AuditoryBProcedures()) {
    var t := AuditoryBProcedures();
    forall k | k in t ensures AllDecimal(t[k].sigtap) {
      var code := t[k].sigtap;
      forall i | 0 <= i < |code| ensures IsDecimal(code[i]) { }
    }
  }

  lemma {:induction false} UnionWellFormed(a: map<string, ProcedureInfo>, b: map<string, ProcedureInfo>)
    requires WellFormedTable(a) && WellFormedTable(b)
    ensures WellFormedTable(a + b)
  {
  }

  /** Every entry of the procedure table carries a ten-digit national code and one of the four rehabilitation types. */
  lemma {:induction false} ProcedureTableWellFormed()
    ensures WellFormedTable(ProcedureTable())
  {
    PhysicalWellFormed();
    IntellectualWellFormed();
    VisualWellFormed();
    AuditoryAWellFormed();
    AuditoryBWellFormed();
    UnionWellFormed(PhysicalProcedures(), IntellectualProcedures());
    UnionWellFormed(PhysicalProcedures() + IntellectualProcedures(), VisualProcedures());
    UnionWellFormed(PhysicalProcedures() + IntellectualProcedures() + VisualProcedures(), AuditoryAProcedures());
    UnionWellFormed(PhysicalProcedures() + IntellectualProcedures() + VisualProcedures() + AuditoryAProcedures(), AuditoryBProcedures());
  }

  /** The rehabilitation type to the three-digit service classification; anything else is `000`. */
  function ClassificationCode(rehabilitationType: string): (r: string)
    ensures |r| == 3 && AllDecimal(r)
    ensures r == "000" <==> rehabilitationType !in RehabilitationTypes
    ensures r != "000" ==> r == "0" + rehabilitationType
  {
    if rehabilitationType == "01" then "001"
    else if rehabilitationType == "02" then "002"
    else if rehabilitationType == "03" then "003"
    else if rehabilitationType == "05" then "005"
    else "000"
  }

  // ---------------------------------------------------------------------------
  // Race.

  /** Race code to use when the source has none or one outside the table (white). */
  const DefaultRace: string := "01"

  /** The race column, when truthy, mapped by its text `'1'`..`'5'` to `'01'`..`'05'`; otherwise `'01'`. */
  function RaceCode(codRaca: Option<PyValue>): (r: string)
    ensures r in {"01", "02", "03", "04", "05"}
    ensures Truthy(codRaca) && |Str(codRaca.value)| == 1 && '1' <= Str(codRaca.value)[0] <= '5' ==>
      r == "0" + Str(codRaca.value)
    ensures !Truthy(codRaca) ==> r == DefaultRace
    ensures Truthy(codRaca) && Str(codRaca.value) !in {"1", "2", "3", "4", "5"} ==> r == DefaultRace
  {
    if !Truthy(codRaca) then DefaultRace
    else
      var s := Str(codRaca.value);
      if s == "1" then "01"
      else if s == "2" then "02"
      else if s == "3" then "03"
      else if s == "4" then "04"
      else if s == "5" then "05"
      else DefaultRace
  }
}
