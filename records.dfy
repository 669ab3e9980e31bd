/**
 * The two kinds of line of a BPA-I file as the exporter builds them: the
 * header (`gerar_header_bpa`) and one individual production record per
 * service (`processar_registros_bpa_i`). Every field is already rendered text.
 */
module Records {

  /** The header fields, in file order. */
  datatype BpaHeader = BpaHeader(
    hdr1: string, hdr2: string, competence: string, lineCount: string, pageCount: string,
    control: string, responsible: string, acronym: string, taxId: string,
    destination: string, destinationKind: string, version: string)

  /** One BPA-I production record; field names follow the file layout, in file order. */
  datatype BpaRecord = BpaRecord(
    ident: string, cnes: string, competence: string, cnsMed: string, cbo: string,
    serviceDate: string, page: string, sequence: string, procedure: string, cnsPatient: string,
    sex: string, ibge: string, cid: string, age: string, quantity: string,
    careType: string, authorization: string, origin: string, patientName: string, birthDate: string,
    race: string, ethnicity: string, nationality: string, service: string, classification: string,
    teamSequence: string, teamArea: string, cnpj: string, postalCode: string, streetType: string,
    street: string, complement: string, number: string, district: string, phone: string,
    email: string, ine: string, cpf: string, homeless: string)

  /** The header fields in the order `gerar_arquivo_txt` concatenates them. */
  function HeaderFields(h: BpaHeader): (fs: seq<string>)
    ensures |fs| == 12
  {
    [h.hdr1, h.hdr2, h.competence, h.lineCount, h.pageCount, h.control,
     h.responsible, h.acronym, h.taxId, h.destination, h.destinationKind, h.version]
  }

  /** The record fields in the order `gerar_arquivo_txt` concatenates them. */
  function RecordFields(r: BpaRecord): (fs: seq<string>)
    ensures |fs| == 39
    ensures fs[0] == r.ident && fs[38] == r.homeless
  {
    [r.ident, r.cnes, r.competence, r.cnsMed, r.cbo, r.serviceDate, r.page, r.sequence,
     r.procedure, r.cnsPatient, r.sex, r.ibge, r.cid, r.age, r.quantity, r.careType,
     r.authorization, r.origin, r.patientName, r.birthDate, r.race, r.ethnicity,
     r.nationality, r.service, r.classification, r.teamSequence, r.teamArea, r.cnpj,
     r.postalCode, r.streetType, r.street, r.complement, r.number, r.district, r.phone,
     r.email, r.ine, r.cpf, r.homeless]
  }

  /** Concatenation of a sequence of strings, left to right. */
  function Concat(parts: seq<string>): string {
    if parts == [] then [] else Concat(parts[..|parts| - 1]) + parts[|parts| - 1]
  }

  /** Concatenating two runs of parts is concatenating their concatenations. */
  lemma {:induction false} ConcatAppend(a: seq<string>, b: seq<string>)
    ensures Concat(a + b) == Concat(a) + Concat(b)
    decreases |b|
  {
    if b == [] {
      assert a + b == a;
    } else {
      assert (a + b)[..|a + b| - 1] == a + b[..|b| - 1];
      ConcatAppend(a, b[..|b| - 1]);
    }
  }

  /**
   * Part `k` sits in the concatenation right after the parts before it: a
   * field is found at the offset the widths of the earlier fields add up to.
   */
  lemma {:induction false} FieldAt(parts: seq<string>, k: nat)
    requires k < |parts|
    ensures var offset := |Concat(parts[..k])|;
      offset + |parts[k]| <= |Concat(parts)| &&
      Concat(parts)[offset..offset + |parts[k]|] == parts[k]
  {
    assert parts == parts[..k] + [parts[k]] + parts[k + 1..];
    ConcatAppend(parts[..k] + [parts[k]], parts[k + 1..]);
    ConcatAppend(parts[..k], [parts[k]]);
    assert Concat([parts[k]]) == parts[k] by {
      assert [parts[k]][..0] == [];
    }
  }
}
