/**
 * The validator's two layout tables: the header line and the individualised
 * (BPA-I) record line, each field with its 1-based first and last column, its
 * type, and the rule its content must follow.
 */
module Layout {
  import opened Wrappers

  /** `'NUM'` or `'ALFA'`; an `ALFA` field is compared with its trailing spaces removed. */
  datatype Kind = Num | Alfa

  /** The character classes the layout's regular expressions use: `\d` and `[A-Z0-9]`. */
  datatype CharClass = Digits | UpperAlnum

  /** A pattern `^class{minLen,maxLen}$`. */
  datatype Pattern = Pattern(cls: CharClass, minLen: nat, maxLen: nat)

  /**
   * One entry of a layout table; the optional rules are the keys
   * `valor`, `valores`, `pattern` and `tamanho`, present or absent.
   */
  datatype FieldSpec = FieldSpec(
    name: string, start: nat, end: nat, kind: Kind,
    value: Option<string>, values: Option<seq<string>>, pattern: Option<Pattern>, size: Option<nat>,
    required: bool)

  function Fixed(name: string, start: nat, end: nat, kind: Kind, value: string): FieldSpec {
    FieldSpec(name, start, end, kind, Some(value), None, None, None, true)
  }

  function OneOf(name: string, start: nat, end: nat, values: seq<string>, required: bool): FieldSpec {
    FieldSpec(name, start, end, Alfa, None, Some(values), None, None, required)
  }

  /** A numeric field of `lo` to `hi` decimal digits. */
  function Numeric(name: string, start: nat, end: nat, lo: nat, hi: nat, required: bool): FieldSpec {
    FieldSpec(name, start, end, Num, None, None, Some(Pattern(Digits, lo, hi)), None, required)
  }

  /** A text field limited to `size` characters. */
  function Text(name: string, start: nat, end: nat, size: nat, required: bool): FieldSpec {
    FieldSpec(name, start, end, Alfa, None, None, None, Some(size), required)
  }

  /** A text field with both a size and an upper-case alphanumeric pattern. */
  function Code(name: string, start: nat, end: nat, size: nat, lo: nat, hi: nat): FieldSpec {
    FieldSpec(name, start, end, Alfa, None, None, Some(Pattern(UpperAlnum, lo, hi)), Some(size), true)
  }

  /** The header layout (`header_layout`). */
  function HeaderLayout(): (fs: seq<FieldSpec>)
    ensures |fs| == 12
  {
    HeaderFirst() + HeaderSecond()
  }

  function HeaderFirst(): seq<FieldSpec> {
    [ Fixed("cbc_hdr_1", 1, 2, Num, "01"),
      Fixed("cbc_hdr_2", 3, 7, Alfa, "#BPA#"),
      Numeric("cbc_mvm", 8, 13, 6, 6, true),
      Numeric("cbc_lin", 14, 19, 6, 6, true),
      Numeric("cbc_flh", 20, 25, 6, 6, true),
      Numeric("cbc_smt_vrf", 26, 29, 4, 4, true) ]
  }

  function HeaderSecond(): seq<FieldSpec> {
    [ Text("cbc_rsp", 30, 59, 30, true),
      Text("cbc_sgl", 60, 65, 6, true),
      Numeric("cbc_cgccpf", 66, 79, 14, 14, true),
      Text("cbc_dst", 80, 119, 40, true),
      OneOf("cbc_dst_in", 120, 120, ["M", "E"], true),
      Text("cbc_versao", 121, 130, 10, true) ]
  }

  /**
   * The record layout (`registro_bpa_i_layout`); the allowed values of the
   * homeless-status field `prd_situacao_rua` are a parameter.
   */
  function DetailLayout(situacaoRuaValues: seq<string>): (fs: seq<FieldSpec>)
    ensures |fs| == 39
  {
    DetailA() + DetailB() + DetailC() + DetailD() + DetailE() + [SituacaoRua(situacaoRuaValues)]
  }

  function DetailA(): seq<FieldSpec> {
    [ Fixed("prd_ident", 1, 2, Num, "03"),
      Numeric("prd_cnes", 3, 9, 7, 7, true),
      Numeric("prd_cmp", 10, 15, 6, 6, true),
      Numeric("prd_cnsmed", 16, 30, 15, 15, true),
      Code("prd_cbo", 31, 36, 6, 6, 6),
      Numeric("prd_dtaten", 37, 44, 8, 8, true),
      Numeric("prd_flh", 45, 47, 3, 3, true),
      Numeric("prd_seq", 48, 49, 2, 2, true) ]
  }

  function DetailB(): seq<FieldSpec> {
    [ Numeric("prd_pa", 50, 59, 10, 10, true),
      Numeric("prd_cnspac", 60, 74, 15, 15, false),
      OneOf("prd_sexo", 75, 75, ["M", "F", "I"], true),
      Numeric("prd_ibge", 76, 81, 6, 6, true),
      Code("prd_cid", 82, 85, 4, 3, 4),
      Numeric("prd_ldade", 86, 88, 3, 3, true),
      Numeric("prd_qt", 89, 94, 6, 6, true),
      Numeric("prd_caten", 95, 96, 2, 2, false) ]
  }

  function DetailC(): seq<FieldSpec> {
    [ Numeric("prd_naut", 97, 109, 13, 13, false),
      Fixed("prd_org", 110, 112, Alfa, "BPA"),
      Text("prd_nmpac", 113, 142, 30, true),
      Numeric("prd_dtnasc", 143, 150, 8, 8, true),
      Numeric("prd_raca", 151, 152, 2, 2, true),
      Numeric("prd_etnia", 153, 156, 4, 4, false),
      Numeric("prd_nac", 157, 159, 3, 3, false),
      Numeric("prd_srv", 160, 162, 3, 3, false) ]
  }

  function DetailD(): seq<FieldSpec> {
    [ Numeric("prd_clf", 163, 165, 3, 3, false),
      Numeric("prd_equipe_Seq", 166, 173, 8, 8, false),
      Numeric("prd_equipe_Area", 174, 177, 4, 4, false),
      Numeric("prd_cnpj", 178, 191, 14, 14, false),
      Numeric("prd_cep_pcnte", 192, 199, 8, 8, false),
      Numeric("prd_lograd_pcnte", 200, 202, 3, 3, false),
      Text("prd_end_pcnte", 203, 232, 30, false),
      Text("prd_compl_pcnte", 233, 242, 10, false) ]
  }

  function DetailE(): seq<FieldSpec> {
    [ Text("prd_num_pcnte", 243, 247, 5, false),
      Text("prd_bairro_pcnte", 248, 277, 30, false),
      Numeric("prd_ddtel_pcnte", 278, 288, 10, 11, false),
      Text("prd_email_pcnte", 289, 328, 40, false),
      Numeric("prd_ine", 329, 338, 10, 10, true),
      Numeric("prd_cpf_pcnte", 339, 349, 11, 11, false) ]
  }

  function SituacaoRua(situacaoRuaValues: seq<string>): FieldSpec {
    OneOf("prd_situacao_rua", 350, 350, situacaoRuaValues, false)
  }

  // ---------------------------------------------------------------------------
  // The shape of the tables.

  /** A field spans at least one column, counting from column 1. */
  predicate FieldOk(f: FieldSpec) {
    1 <= f.start <= f.end
  }

  predicate WellFormed(fs: seq<FieldSpec>) {
    forall k :: 0 <= k < |fs| ==> FieldOk(fs[k])
  }

  /**
   * The column after the fields when they follow one another without gap or
   * overlap from column `from`; `None` when they do not.
   */
  function NextColumn(fs: seq<FieldSpec>, from: nat): Option<nat> {
    if fs == [] then Some(from)
    else if fs[0].start == from && fs[0].start <= fs[0].end then NextColumn(fs[1..], fs[0].end + 1)
    else None
  }

  /** `max(c['fim'] for c in layout.values())`, 0 for an empty table. */
  function MaxEnd(fs: seq<FieldSpec>): (m: nat)
    ensures forall k :: 0 <= k < |fs| ==> fs[k].end <= m
    ensures fs != [] ==> exists k :: 0 <= k < |fs| && fs[k].end == m
  {
    if fs == [] then 0
    else
      var m := MaxEnd(fs[..|fs| - 1]);
      var last := fs[|fs| - 1].end;
      assert forall k :: 0 <= k < |fs| - 1 ==> fs[k] == fs[..|fs| - 1][k];
      if last > m then last else m
  }

  lemma {:induction false} NextColumnAppend(a: seq<FieldSpec>, b: seq<FieldSpec>, from: nat)
    ensures NextColumn(a + b, from) ==
      (match NextColumn(a, from) case None => None case Some(c) => NextColumn(b, c))
    decreases |a|
  {
    if a == [] {
      assert a + b == b;
    } else {
      assert (a + b)[1..] == a[1..] + b;
      if a[0].start == from && a[0].start <= a[0].end {
        NextColumnAppend(a[1..], b, a[0].end + 1);
      }
    }
  }

  /**
   * Fields that follow one another from column `from` up to column `to` are
   * well formed when `from >= 1`, begin at `from`, end at the last column, and
   * the last column is the greatest.
   */
  lemma {:induction false} TiledShape(fs: seq<FieldSpec>, from: nat, to: nat)
    requires from >= 1 && NextColumn(fs, from) == Some(to + 1) && fs != []
    ensures WellFormed(fs)
    ensures fs[0].start == from && fs[|fs| - 1].end == to && MaxEnd(fs) == to
    ensures forall k :: 0 <= k < |fs| ==> from <= fs[k].start && fs[k].end <= to
    decreases |fs|
  {
    var rest := fs[1..];
    if |fs| > 1 {
      TiledShape(rest, fs[0].end + 1, to);
      assert forall k :: 1 <= k < |fs| ==> fs[k] == rest[k - 1];
    } else {
      assert NextColumn(rest, fs[0].end + 1) == Some(fs[0].end + 1);
    }
    MaxEndIsLast(fs, to);
  }

  /** The greatest end is the last one when no end passes it. */
  lemma {:induction false} MaxEndIsLast(fs: seq<FieldSpec>, to: nat)
    requires fs != [] && fs[|fs| - 1].end == to
    requires forall k :: 0 <= k < |fs| ==> fs[k].end <= to
    ensures MaxEnd(fs) == to
  {
    var m := MaxEnd(fs);
    var k :| 0 <= k < |fs| && fs[k].end == m;
  }

  /** The header fields cover columns 1 to 130 in order, with no gap or overlap. */
  lemma {:induction false} HeaderTiles()
    ensures NextColumn(HeaderLayout(), 1) == Some(131)
    ensures WellFormed(HeaderLayout()) && MaxEnd(HeaderLayout()) == 130
  {
    NextColumnAppend(HeaderFirst(), HeaderSecond(), 1);
    assert NextColumn(HeaderFirst(), 1) == Some(30);
    assert NextColumn(HeaderSecond(), 30) == Some(131);
    TiledShape(HeaderLayout(), 1, 130);
  }

  // Each block of the record table continues where the previous one ends.
  lemma {:induction false} DetailABlock() ensures NextColumn(DetailA(), 1) == Some(50) { }
  lemma {:induction false} DetailBBlock() ensures NextColumn(DetailB(), 50) == Some(97) { }
  lemma {:induction false} DetailCBlock() ensures NextColumn(DetailC(), 97) == Some(163) { }
  lemma {:induction false} DetailDBlock() ensures NextColumn(DetailD(), 163) == Some(243) { }
  lemma {:induction false} DetailEBlock() ensures NextColumn(DetailE(), 243) == Some(350) { }

  lemma {:induction false} SituacaoRuaBlock(situacaoRuaValues: seq<string>)
    ensures NextColumn([SituacaoRua(situacaoRuaValues)], 350) == Some(351)
  {
    assert [SituacaoRua(situacaoRuaValues)][1..] == [];
  }

  /** The record fields cover columns 1 to 350 in order, with no gap or overlap. */
  lemma {:induction false} DetailTiles(situacaoRuaValues: seq<string>)
    ensures NextColumn(DetailLayout(situacaoRuaValues), 1) == Some(351)
    ensures WellFormed(DetailLayout(situacaoRuaValues)) && MaxEnd(DetailLayout(situacaoRuaValues)) == 350
  {
    var a, b, c, d, e, f := DetailA(), DetailB(), DetailC(), DetailD(), DetailE(), [SituacaoRua(situacaoRuaValues)];
    DetailABlock();
    DetailBBlock();
    DetailCBlock();
    DetailDBlock();
    DetailEBlock();
    SituacaoRuaBlock(situacaoRuaValues);
    NextColumnAppend(a, b, 1);
    NextColumnAppend(a + b, c, 1);
    NextColumnAppend(a + b + c, d, 1);
    NextColumnAppend(a + b + c + d, e, 1);
    NextColumnAppend(a + b + c + d + e, f, 1);
    TiledShape(DetailLayout(situacaoRuaValues), 1, 350);
  }

  /** Every size limit equals the width of its field's columns. */
  predicate SizedByWidth(fs: seq<FieldSpec>) {
    forall k :: 0 <= k < |fs| && fs[k].size.Some? ==> fs[k].size.value + fs[k].start == fs[k].end + 1
  }

  /** The header's text fields are limited to exactly their widths. */
  lemma {:induction false} HeaderSized()
    ensures SizedByWidth(HeaderLayout())
  {
  }

  /** The record's text fields are limited to exactly their widths. */
  lemma {:induction false} DetailSized(situacaoRuaValues: seq<string>)
    ensures SizedByWidth(DetailLayout(situacaoRuaValues))
  {
    var a, b, c, d, e, f := DetailA(), DetailB(), DetailC(), DetailD(), DetailE(), [SituacaoRua(situacaoRuaValues)];
    assert SizedByWidth(a) && SizedByWidth(b) && SizedByWidth(c);
    assert SizedByWidth(d) && SizedByWidth(e) && SizedByWidth(f);
    SizedAppend(a, b);
    SizedAppend(a + b, c);
    SizedAppend(a + b + c, d);
    SizedAppend(a + b + c + d, e);
    SizedAppend(a + b + c + d + e, f);
  }

  lemma {:induction false} SizedAppend(a: seq<FieldSpec>, b: seq<FieldSpec>)
    requires SizedByWidth(a) && SizedByWidth(b)
    ensures SizedByWidth(a + b)
  {
    forall k | 0 <= k < |a + b| && (a + b)[k].size.Some?
      ensures (a + b)[k].size.value + (a + b)[k].start == (a + b)[k].end + 1
    {
      if k >= |a| {
        assert (a + b)[k] == b[k - |a|];
      }
    }
  }
}
