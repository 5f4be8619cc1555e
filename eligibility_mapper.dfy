/** mappers/eligibility.mapper.ts: the backend's eligibility verdicts. */
module EligibilityMapper {
  import opened Wrappers
  import Seqs
  import EnumMapper
  import opened SubsidyTypes
  import opened EligibilityTypes

  /** `mapBonoEligibilityFromResponse`: the type is decoded, an unknown one read as BONO_BUEN_PAGADOR. */
  function MapBonoEligibilityFromResponse(dto: BonoEligibilityResponse): (e: BonoEligibilityEntity)
    ensures EnumMapper.Decoded(Some(dto.bonoType), SubsidyTypeName, e.bonoType, BONO_BUEN_PAGADOR)
    ensures e.amount == dto.amount && e.currency == dto.currency && e.eligible == dto.eligible
    ensures e.priceRange == dto.priceRange && e.reason == dto.reason && e.failureReason == dto.failureReason
  {
    BonoEligibilityEntity(SubsidyTypeFrom(Some(dto.bonoType), BONO_BUEN_PAGADOR), dto.amount, dto.currency,
                          dto.eligible, dto.priceRange, dto.reason, dto.failureReason)
  }

  /** `dto.availableBonos ? dto.availableBonos.map(mapBonoEligibilityFromResponse) : []`. */
  function MapBonos(bonos: Option<seq<BonoEligibilityResponse>>): (es: seq<BonoEligibilityEntity>)
    ensures bonos.None? ==> es == []
    ensures bonos.Some? ==> |es| == |bonos.value|
    ensures bonos.Some? ==> forall i :: 0 <= i < |es| ==> es[i] == MapBonoEligibilityFromResponse(bonos.value[i])
  {
    if bonos.Some? then Seqs.Map(MapBonoEligibilityFromResponse, bonos.value) else []
  }

  /** `mapMiViviendaEligibilityFromResponse`: missing lists become empty ones. */
  function MapMiViviendaEligibilityFromResponse(dto: MiViviendaEligibilityResponse): (e: MiViviendaEligibilityEntity)
    ensures e.eligible == dto.eligible
    ensures e.reasons == dto.reasons.GetOr([]) && e.failureReasons == dto.failureReasons.GetOr([])
    ensures e.availableBonos == MapBonos(dto.availableBonos)
  {
    MiViviendaEligibilityEntity(dto.eligible, dto.reasons.GetOr([]), dto.failureReasons.GetOr([]),
                                MapBonos(dto.availableBonos))
  }

  /** `mapTechoPropioEligibilityFromResponse`: missing lists become empty ones, the modality is kept or null. */
  function MapTechoPropioEligibilityFromResponse(dto: TechoPropioEligibilityResponse): (e: TechoPropioEligibilityEntity)
    ensures e.eligible == dto.eligible && e.modalidad == dto.modalidad
    ensures e.reasons == dto.reasons.GetOr([]) && e.failureReasons == dto.failureReasons.GetOr([])
    ensures e.availableBonos == MapBonos(dto.availableBonos)
  {
    TechoPropioEligibilityEntity(dto.eligible, dto.reasons.GetOr([]), dto.failureReasons.GetOr([]),
                                 dto.modalidad, MapBonos(dto.availableBonos))
  }

  /** `mapEligibilityFromResponse`. */
  function MapEligibilityFromResponse(dto: EligibilityResponse): (e: EligibilityEntity)
    ensures e.customerId == dto.customerId
    ensures e.mivivienda == MapMiViviendaEligibilityFromResponse(dto.mivivienda)
    ensures e.techoPropio == MapTechoPropioEligibilityFromResponse(dto.techoPropio)
  {
    EligibilityEntity(dto.customerId, MapMiViviendaEligibilityFromResponse(dto.mivivienda),
                      MapTechoPropioEligibilityFromResponse(dto.techoPropio))
  }

  /** `mapEligibilityWithPropertyFromResponse`. */
  function MapEligibilityWithPropertyFromResponse(dto: EligibilityWithPropertyResponse): (e: EligibilityWithPropertyEntity)
    ensures e.customerId == dto.customerId && e.propertyId == dto.propertyId
    ensures e.mivivienda == MapMiViviendaEligibilityFromResponse(dto.mivivienda)
    ensures e.techoPropio == MapTechoPropioEligibilityFromResponse(dto.techoPropio)
  {
    EligibilityWithPropertyEntity(dto.customerId, dto.propertyId,
                                  MapMiViviendaEligibilityFromResponse(dto.mivivienda),
                                  MapTechoPropioEligibilityFromResponse(dto.techoPropio))
  }

  /** A bono the backend reports is eligible stays eligible, with the type it names, in the same place. */
  lemma EligibleBonosKept(bonos: seq<BonoEligibilityResponse>, i: int, t: SubsidyType)
    requires 0 <= i < |bonos| && bonos[i].eligible
    requires EnumMapper.Normalize(bonos[i].bonoType) == SubsidyTypeName(t)
    ensures var es := MapBonos(Some(bonos)); i < |es| && es[i].eligible && es[i].bonoType == t
  {
    BonoKept(bonos[i], t);
  }

  /** One bono: an eligible one keeps its eligibility and the type it names. */
  lemma BonoKept(b: BonoEligibilityResponse, t: SubsidyType)
    requires b.eligible && EnumMapper.Normalize(b.bonoType) == SubsidyTypeName(t)
    ensures var e := MapBonoEligibilityFromResponse(b); e.eligible && e.bonoType == t
  {
    var e := MapBonoEligibilityFromResponse(b);
    SubsidyTypeWellFormed();
    assert EnumMapper.NamedBy(Some(b.bonoType), SubsidyTypeName, t);
  }
}
