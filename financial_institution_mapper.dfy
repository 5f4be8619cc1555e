/** mappers/financial-institution.mapper.ts: institutions, rate ranges and offered rates. */
module FinancialInstitutionMapper {
  import opened Wrappers
  import Seqs
  import EnumMapper
  import opened FinancialInstitutionTypes

  /** `mapFinancialInstitutionFromResponse`: the name is decoded, an unknown one read as BCP. */
  function MapFinancialInstitutionFromResponse(dto: FinancialInstitutionResponse): (e: FinancialInstitutionEntity)
    ensures e.id == dto.id && e.isActive == dto.isActive
    ensures EnumMapper.Decoded(Some(dto.name), FinancialInstitutionsName, e.name, BCP)
  {
    FinancialInstitutionEntity(dto.id, FinancialInstitutionsFrom(Some(dto.name), BCP), dto.isActive)
  }

  /** `mapFinancialInstitutionsFromResponse`: element by element, in order. */
  function MapFinancialInstitutionsFromResponse(dtos: seq<FinancialInstitutionResponse>): (es: seq<FinancialInstitutionEntity>)
    ensures |es| == |dtos|
    ensures forall i :: 0 <= i < |dtos| ==> es[i] == MapFinancialInstitutionFromResponse(dtos[i])
  {
    Seqs.Map(MapFinancialInstitutionFromResponse, dtos)
  }

  /** A response carrying an institution's own name maps back to that institution. */
  lemma InstitutionRoundTrip(e: FinancialInstitutionEntity)
    ensures MapFinancialInstitutionFromResponse(
              FinancialInstitutionResponse(e.id, FinancialInstitutionsName(e.name), e.isActive)) == e
  {
    FinancialInstitutionsFromName(e.name, BCP);
  }

  /** `mapRateRangeFromResponse`: a field-for-field copy. */
  function MapRateRangeFromResponse(dto: RateRangeResponse): (e: RateRangeEntity)
    ensures e.minRate == dto.minRate && e.maxRate == dto.maxRate && e.message == dto.message
  {
    RateRangeEntity(dto.minRate, dto.maxRate, dto.message)
  }

  /** `mapInstitutionRateFromResponse`: a field-for-field copy. */
  function MapInstitutionRateFromResponse(dto: InstitutionRateResponse): (e: InstitutionRateEntity)
    ensures e.institutionId == dto.institutionId && e.institutionName == dto.institutionName
    ensures e.minRate == dto.minRate && e.maxRate == dto.maxRate
    ensures e.insuranceRate == dto.insuranceRate && e.offersRequestedRate == dto.offersRequestedRate
  {
    InstitutionRateEntity(dto.institutionId, dto.institutionName, dto.minRate, dto.maxRate,
                          dto.insuranceRate, dto.offersRequestedRate)
  }

  /** `mapInstitutionRatesFromResponse`: element by element, in order. */
  function MapInstitutionRatesFromResponse(dtos: seq<InstitutionRateResponse>): (es: seq<InstitutionRateEntity>)
    ensures |es| == |dtos|
    ensures forall i :: 0 <= i < |dtos| ==> es[i] == MapInstitutionRateFromResponse(dtos[i])
  {
    Seqs.Map(MapInstitutionRateFromResponse, dtos)
  }
}
