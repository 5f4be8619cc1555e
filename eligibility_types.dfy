/** types/eligibility.types.ts: the backend's verdict on MiVivienda and Techo Propio eligibility. */
module EligibilityTypes {
  import opened Wrappers
  import SubsidyTypes

  datatype BonoEligibilityResponse = BonoEligibilityResponse(
    bonoType: string,
    amount: Option<real>,
    currency: Option<string>,
    eligible: bool,
    priceRange: Option<string>,
    reason: Option<string>,
    failureReason: Option<string>)

  /** One subsidy the customer may receive; `bonoType` is the source's `type`. */
  datatype BonoEligibilityEntity = BonoEligibilityEntity(
    bonoType: SubsidyTypes.SubsidyType,
    amount: Option<real>,
    currency: Option<string>,
    eligible: bool,
    priceRange: Option<string>,
    reason: Option<string>,
    failureReason: Option<string>)

  /** Lists the backend may leave out (`null`) are `None`. */
  datatype MiViviendaEligibilityResponse = MiViviendaEligibilityResponse(
    eligible: bool,
    reasons: Option<seq<string>>,
    failureReasons: Option<seq<string>>,
    availableBonos: Option<seq<BonoEligibilityResponse>>)

  datatype MiViviendaEligibilityEntity = MiViviendaEligibilityEntity(
    eligible: bool,
    reasons: seq<string>,
    failureReasons: seq<string>,
    availableBonos: seq<BonoEligibilityEntity>)

  datatype TechoPropioEligibilityResponse = TechoPropioEligibilityResponse(
    eligible: bool,
    reasons: Option<seq<string>>,
    failureReasons: Option<seq<string>>,
    modalidad: Option<string>,
    availableBonos: Option<seq<BonoEligibilityResponse>>)

  datatype TechoPropioEligibilityEntity = TechoPropioEligibilityEntity(
    eligible: bool,
    reasons: seq<string>,
    failureReasons: seq<string>,
    modalidad: Option<string>,
    availableBonos: seq<BonoEligibilityEntity>)

  datatype EligibilityResponse = EligibilityResponse(
    customerId: string,
    mivivienda: MiViviendaEligibilityResponse,
    techoPropio: TechoPropioEligibilityResponse)

  datatype EligibilityEntity = EligibilityEntity(
    customerId: string,
    mivivienda: MiViviendaEligibilityEntity,
    techoPropio: TechoPropioEligibilityEntity)

  datatype EligibilityWithPropertyResponse = EligibilityWithPropertyResponse(
    customerId: string,
    propertyId: string,
    mivivienda: MiViviendaEligibilityResponse,
    techoPropio: TechoPropioEligibilityResponse)

  datatype EligibilityWithPropertyEntity = EligibilityWithPropertyEntity(
    customerId: string,
    propertyId: string,
    mivivienda: MiViviendaEligibilityEntity,
    techoPropio: TechoPropioEligibilityEntity)
}
