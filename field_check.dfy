/**
 * The check of one field against its layout entry (`_validar_campo`): a blank
 * field is either missing or skipped; otherwise at most one content rule
 * applies (an exact value, a list of allowed values, a pattern, or a size,
 * in that order of precedence), then dates and competences are parsed.
 */
module FieldCheck {
  import opened Wrappers
  import opened PyText
  import opened PyDates
  import opened Layout

  /** What can be wrong with one field; the message texts are not modelled. */
  datatype Problem =
    | RequiredEmpty
    | ValueMismatch
    | NotAllowed
    | PatternMismatch
    | TooLong
    | InvalidDate
    | InvalidCompetence

  predicate InClass(c: char, cls: CharClass) {
    match cls
    case Digits => IsDecimal(c)
    case UpperAlnum => 'A' <= c <= 'Z' || IsDecimal(c)
  }

  /** `re.fullmatch` of the pattern `^class{minLen,maxLen}$`. */
  predicate FullMatch(p: Pattern, s: string) {
    p.minLen <= |s| <= p.maxLen && forall i :: 0 <= i < |s| ==> InClass(s[i], p.cls)
  }

  /** The text a pattern or size is checked against: `ALFA` fields lose their trailing spaces. */
  function Processed(raw: string, kind: Kind): string {
    if kind == Alfa then RStrip(raw) else raw
  }

  /** The field names whose digits are parsed as a date `%Y%m%d`. */
  const DateFields: seq<string> := ["prd_dtaten", "prd_dtnasc", "cbc_dtprod_ini", "cbc_dtprod_fim"]

  /** The field names whose digits are parsed as a competence `%Y%m`. */
  const CompetenceFields: seq<string> := ["cbc_mvm", "prd_cmp"]

  /** The content rule of a non-blank field; the first rule the entry has is the only one applied. */
  function ContentIssues(raw: string, f: FieldSpec): (r: seq<Problem>)
    ensures |r| <= 1 && RequiredEmpty !in r
  {
    if f.value.Some? then
      (if raw != f.value.value then [ValueMismatch] else [])
    else if f.values.Some? then
      var compared := if |Strip(raw)| > 0 then Strip(raw) else raw;
      (if compared !in f.values.value then [NotAllowed] else [])
    else if f.pattern.Some? then
      (if !FullMatch(f.pattern.value, Processed(raw, f.kind)) then [PatternMismatch] else [])
    else if f.size.Some? && f.kind == Alfa then
      (if |Processed(raw, f.kind)| > f.size.value then [TooLong] else [])
    else []
  }

  /**
   * The competence check: `int()` of the first four and of the next two
   * characters (either may raise), the year between 1900 and five years from
   * now, the month 1..12, and the stripped text parsing as `%Y%m`.
   */
  predicate CompetenceOk(raw: string, currentYear: int) {
    match PyInt(Slice(raw, 0, 4))
    case None => false
    case Some(year) =>
      match PyInt(Slice(raw, 4, 6))
      case None => false
      case Some(month) => 1900 <= year <= currentYear + 5 && 1 <= month <= 12 && ParsesAsYm(Strip(raw))
  }

  /** The date and competence checks, made only when the stripped text passes `isdigit()`. */
  function FormatIssues(raw: string, f: FieldSpec, currentYear: int): (r: seq<Problem>)
    ensures |r| <= 1 && RequiredEmpty !in r
    ensures r != [] ==> PyIsDigit(Strip(raw))
  {
    var t := Strip(raw);
    if !PyIsDigit(t) then []
    else if f.name in DateFields then (if ParsesAsYmd(t) then [] else [InvalidDate])
    else if f.name in CompetenceFields then (if CompetenceOk(raw, currentYear) then [] else [InvalidCompetence])
    else []
  }

  /**
   * `_validar_campo`: a blank field gives exactly one problem when it is
   * required and none otherwise; a non-blank one at most two, and never the
   * missing-field problem.
   */
  function FieldIssues(raw: string, f: FieldSpec, currentYear: int): (r: seq<Problem>)
    ensures |r| <= 2
    ensures IsBlank(raw) ==> r == (if f.required then [RequiredEmpty] else [])
    ensures !IsBlank(raw) ==> RequiredEmpty !in r
  {
    StripEmptyIffBlank(raw);
    if f.required && Strip(raw) == [] then [RequiredEmpty]
    else if !f.required && Strip(raw) == [] then []
    else ContentIssues(raw, f) + FormatIssues(raw, f, currentYear)
  }

  // ---------------------------------------------------------------------------
  // What each kind of entry accepts.

  /** Neither a date nor a competence: no parsing follows the content rule. */
  predicate PlainField(f: FieldSpec) {
    f.name !in DateFields && f.name !in CompetenceFields
  }

  /** The first rule an entry has. */
  predicate HasValue(f: FieldSpec) { f.value.Some? }
  predicate HasValues(f: FieldSpec) { f.value.None? && f.values.Some? }
  predicate HasPattern(f: FieldSpec) { f.value.None? && f.values.None? && f.pattern.Some? }
  predicate HasSize(f: FieldSpec) { f.value.None? && f.values.None? && f.pattern.None? && f.size.Some? && f.kind == Alfa }

  /** A field with an exact value passes when it holds that value, or is blank and optional. */
  lemma {:induction false} FixedValueAccepts(raw: string, f: FieldSpec, currentYear: int)
    requires HasValue(f) && PlainField(f) && !IsBlank(f.value.value)
    ensures FieldIssues(raw, f, currentYear) == [] <==>
      raw == f.value.value || (IsBlank(raw) && !f.required)
  {
    StripEmptyIffBlank(raw);
    assert FormatIssues(raw, f, currentYear) == [];
  }

  /** A field with a list of values passes when its stripped text is one of them, or it is blank and optional. */
  lemma {:induction false} ChoiceAccepts(raw: string, f: FieldSpec, currentYear: int)
    requires HasValues(f) && PlainField(f)
    ensures FieldIssues(raw, f, currentYear) == [] <==>
      (if IsBlank(raw) then !f.required else Strip(raw) in f.values.value)
  {
    StripEmptyIffBlank(raw);
    assert FormatIssues(raw, f, currentYear) == [];
  }

  /** A field with a pattern passes when its text matches it in full, or it is blank and optional. */
  lemma {:induction false} PatternAccepts(raw: string, f: FieldSpec, currentYear: int)
    requires HasPattern(f) && PlainField(f)
    ensures FieldIssues(raw, f, currentYear) == [] <==>
      (if IsBlank(raw) then !f.required else FullMatch(f.pattern.value, Processed(raw, f.kind)))
  {
    StripEmptyIffBlank(raw);
    assert FormatIssues(raw, f, currentYear) == [];
  }

  /** A text field with a size passes when its text without trailing spaces fits, or it is blank and optional. */
  lemma {:induction false} SizeAccepts(raw: string, f: FieldSpec, currentYear: int)
    requires HasSize(f) && PlainField(f)
    ensures FieldIssues(raw, f, currentYear) == [] <==>
      (if IsBlank(raw) then !f.required else |RStrip(raw)| <= f.size.value)
  {
    StripEmptyIffBlank(raw);
    assert FormatIssues(raw, f, currentYear) == [];
  }

  /** A field without a size, or no wider than its size, never draws the size problem. */
  lemma {:induction false} SizeNeverExceeded(raw: string, f: FieldSpec, currentYear: int)
    requires f.size.Some? ==> |raw| <= f.size.value
    ensures TooLong !in FieldIssues(raw, f, currentYear)
  {
  }

  /**
   * Eight plain digits in a date field are refused as a date exactly when
   * they do not name a calendar day of a year 1..9999.
   */
  lemma {:induction false} DateFieldIssues(raw: string, f: FieldSpec, currentYear: int)
    requires f.name in DateFields && |raw| == 8 && AllDecimal(raw)
    ensures InvalidDate in FieldIssues(raw, f, currentYear) <==>
      !IsValidDate(DecimalValue(raw[..4]), DecimalValue(raw[4..6]), DecimalValue(raw[6..]))
  {
    StripDecimal(raw);
    assert !IsSpace(raw[0]) by { assert IsDecimal(raw[0]); }
    assert PyIsDigit(raw) by { assert forall i :: 0 <= i < |raw| ==> IsDecimal(raw[i]); }
    EightDigitDate(raw);
  }

  /**
   * Six plain digits in a competence field are refused as a competence exactly
   * when the year is outside 1900..currentYear+5 or the month outside 1..12.
   */
  lemma {:induction false} CompetenceFieldIssues(raw: string, f: FieldSpec, currentYear: int)
    requires f.name in CompetenceFields && f.name !in DateFields && |raw| == 6 && AllDecimal(raw)
    ensures InvalidCompetence in FieldIssues(raw, f, currentYear) <==>
      !(1900 <= DecimalValue(raw[..4]) <= currentYear + 5 && 1 <= DecimalValue(raw[4..]) <= 12)
  {
    StripDecimal(raw);
    assert !IsSpace(raw[0]) by { assert IsDecimal(raw[0]); }
    assert PyIsDigit(raw) by { assert forall i :: 0 <= i < |raw| ==> IsDecimal(raw[i]); }
    assert Slice(raw, 0, 4) == raw[..4] && Slice(raw, 4, 6) == raw[4..];
    PyIntOfDecimal(raw[..4]);
    PyIntOfDecimal(raw[4..]);
    SixDigitMonth(raw);
    assert raw[4..6] == raw[4..];
  }
}
