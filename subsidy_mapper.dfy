/** mappers/subsidy.mapper.ts. */
module SubsidyMapper {
  import opened Wrappers
  import Seqs
  import EnumMapper
  import opened SubsidyTypes

  /** `mapSubsidyFromResponse`: the name is decoded, an unknown one read as BONO_BUEN_PAGADOR. */
  function MapSubsidyFromResponse(dto: SubsidyResponse): (e: SubsidyEntity)
    ensures e.id == dto.id && e.loanProgramId == dto.loanProgramId && e.isActive == dto.isActive
    ensures EnumMapper.Decoded(Some(dto.name), SubsidyTypeName, e.name, BONO_BUEN_PAGADOR)
  {
    SubsidyEntity(dto.id, SubsidyTypeFrom(Some(dto.name), BONO_BUEN_PAGADOR), dto.loanProgramId, dto.isActive)
  }

  /** `mapSubsidiesFromResponse`: element by element, in order. */
  function MapSubsidiesFromResponse(dtos: seq<SubsidyResponse>): (es: seq<SubsidyEntity>)
    ensures |es| == |dtos|
    ensures forall i :: 0 <= i < |dtos| ==> es[i] == MapSubsidyFromResponse(dtos[i])
  {
    Seqs.Map(MapSubsidyFromResponse, dtos)
  }

  /** A response carrying a subsidy's own name maps back to that subsidy. */
  lemma SubsidyRoundTrip(e: SubsidyEntity)
    ensures MapSubsidyFromResponse(SubsidyResponse(e.id, SubsidyTypeName(e.name), e.loanProgramId, e.isActive)) == e
  {
    SubsidyTypeFromName(e.name, BONO_BUEN_PAGADOR);
  }
}
