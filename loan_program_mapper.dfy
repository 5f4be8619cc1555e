/** mappers/loan-program.mapper.ts. */
module LoanProgramMapper {
  import opened Wrappers
  import Seqs
  import EnumMapper
  import Text
  import opened LoanProgramTypes

  /** `mapLoanProgramFromResponse`: the name is decoded, an unknown one read as NUEVO_CREDITO_MIVIVIENDA. */
  function MapLoanProgramFromResponse(dto: LoanProgramResponse): (e: LoanProgramEntity)
    ensures e.id == dto.id
    ensures EnumMapper.Decoded(Some(dto.name), LoanProgramsName, e.name, NUEVO_CREDITO_MIVIVIENDA)
  {
    LoanProgramEntity(dto.id, LoanProgramsFrom(Some(dto.name), NUEVO_CREDITO_MIVIVIENDA))
  }

  /** `mapLoanProgramsFromResponse`: element by element, in order. */
  function MapLoanProgramsFromResponse(dtos: seq<LoanProgramResponse>): (es: seq<LoanProgramEntity>)
    ensures |es| == |dtos|
    ensures forall i :: 0 <= i < |dtos| ==> es[i] == MapLoanProgramFromResponse(dtos[i])
  {
    Seqs.Map(MapLoanProgramFromResponse, dtos)
  }

  /** A response carrying a programme's own name maps back to that programme. */
  lemma LoanProgramRoundTrip(e: LoanProgramEntity)
    ensures MapLoanProgramFromResponse(LoanProgramResponse(e.id, LoanProgramsName(e.name))) == e
  {
    LoanProgramsFromName(e.name, NUEVO_CREDITO_MIVIVIENDA);
  }

  /** A name that differs from a programme's only in letter case and surrounding white space decodes to it. */
  lemma NameIgnoresCaseAndSpace(s: string, v: LoanPrograms, id: string)
    requires EnumMapper.Normalize(s) == LoanProgramsName(v)
    ensures MapLoanProgramFromResponse(LoanProgramResponse(id, s)).name == v
  {
    var r := MapLoanProgramFromResponse(LoanProgramResponse(id, s)).name;
    assert EnumMapper.NamedBy(Some(s), LoanProgramsName, v);
    LoanProgramsNameInjective(r, v);
  }

  /** A programme's name written in lower case and padded with white space (" techo_propio ") still decodes to it. */
  lemma LowerCasePaddedName(pre: string, v: LoanPrograms, post: string, id: string)
    requires forall i :: 0 <= i < |pre| ==> Text.IsSpace(pre[i])
    requires forall i :: 0 <= i < |post| ==> Text.IsSpace(post[i])
    ensures MapLoanProgramFromResponse(LoanProgramResponse(id, pre + Text.ToLower(LoanProgramsName(v)) + post)).name == v
  {
    var n := LoanProgramsName(v);
    LoanProgramsNameCanonical(v);
    EnumMapper.CanonicalUpper(n);
    Text.ToLowerTight(n);
    Text.TrimPadded(pre, Text.ToLower(n), post);
    Text.UpperOfLower(n);
    NameIgnoresCaseAndSpace(pre + Text.ToLower(n) + post, v, id);
  }
}
