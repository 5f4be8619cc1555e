/** mappers/property.mapper.ts: a housing unit from the backend, and the body that creates one. */
module PropertyMapper {
  import opened Wrappers
  import EnumMapper
  import opened PropertyTypes

  /** `x?.amount` on an optional amount. */
  function AmountOf(m: Option<AmountResponse>): Option<real> {
    if m.Some? then m.value.amount else None
  }

  /** `x?.currency` on an optional amount. */
  function CurrencyOf(m: Option<AmountResponse>): Option<string> {
    if m.Some? then m.value.currency else None
  }

  /** The `parking` block: absent numbers are 0, absent currencies "PEN"; there is parking when there are spaces. */
  function MapParking(p: Option<ParkingResponse>): (e: Parking)
    ensures p.None? ==> e == Parking(0.0, 0.0, "PEN", 0.0, "PEN", false)
    ensures p.Some? ==> e.parkingSpaces == p.value.parkingSpaces.GetOr(0.0)
    ensures p.Some? ==> e.parkingPriceAmount == AmountOf(p.value.parkingPrice).GetOr(0.0)
    ensures p.Some? ==> e.parkingPriceCurrency == CurrencyOf(p.value.parkingPrice).GetOr("PEN")
    ensures p.Some? ==> e.parkingTotalAmount == AmountOf(p.value.parkingTotal).GetOr(0.0)
    ensures p.Some? ==> e.parkingTotalCurrency == CurrencyOf(p.value.parkingTotal).GetOr("PEN")
    ensures e.hasParking <==> e.parkingSpaces > 0.0
  {
    var spaces := if p.Some? then p.value.parkingSpaces.GetOr(0.0) else 0.0;
    Parking(
      spaces,
      (if p.Some? then AmountOf(p.value.parkingPrice) else None).GetOr(0.0),
      (if p.Some? then CurrencyOf(p.value.parkingPrice) else None).GetOr("PEN"),
      (if p.Some? then AmountOf(p.value.parkingTotal) else None).GetOr(0.0),
      (if p.Some? then CurrencyOf(p.value.parkingTotal) else None).GetOr("PEN"),
      spaces > 0.0)
  }

  /** The `pricing` block: the list price defaults to 0 PEN, the converted prices stay absent when absent. */
  function MapPricing(p: Option<PricingResponse>): (e: Pricing)
    ensures p.None? ==> e == Pricing(0.0, "PEN", None, None, None, None, 0.0, 0.0, 0.0, "PEN", 0.0, "PEN")
    ensures p.Some? ==>
              var lp := p.value.listPrice;
              && e.priceAmount == (if lp.Some? then AmountOf(lp.value.amount) else None).GetOr(0.0)
              && e.priceCurrency == (if lp.Some? then CurrencyOf(lp.value.amount) else None).GetOr("PEN")
              && e.priceInSoles == (if lp.Some? then AmountOf(lp.value.priceInSoles) else None)
              && e.priceInSolesCurrency == (if lp.Some? then CurrencyOf(lp.value.priceInSoles) else None)
              && e.priceInDollars == (if lp.Some? then AmountOf(lp.value.priceInDollars) else None)
              && e.priceInDollarsCurrency == (if lp.Some? then CurrencyOf(lp.value.priceInDollars) else None)
              && e.builtArea == p.value.builtArea.GetOr(0.0)
              && e.totalArea == p.value.totalArea.GetOr(0.0)
              && e.pricePerSquareMeterAmount == AmountOf(p.value.pricePerSquareMeter).GetOr(0.0)
              && e.pricePerSquareMeterCurrency == CurrencyOf(p.value.pricePerSquareMeter).GetOr("PEN")
              && e.maintenanceFeeAmount == AmountOf(p.value.maintenanceFee).GetOr(0.0)
              && e.maintenanceFeeCurrency == CurrencyOf(p.value.maintenanceFee).GetOr("PEN")
  {
    match p
    case None => Pricing(0.0, "PEN", None, None, None, None, 0.0, 0.0, 0.0, "PEN", 0.0, "PEN")
    case Some(pr) =>
      var lp := pr.listPrice;
      Pricing(
        (if lp.Some? then AmountOf(lp.value.amount) else None).GetOr(0.0),
        (if lp.Some? then CurrencyOf(lp.value.amount) else None).GetOr("PEN"),
        if lp.Some? then AmountOf(lp.value.priceInSoles) else None,
        if lp.Some? then CurrencyOf(lp.value.priceInSoles) else None,
        if lp.Some? then AmountOf(lp.value.priceInDollars) else None,
        if lp.Some? then CurrencyOf(lp.value.priceInDollars) else None,
        pr.builtArea.GetOr(0.0),
        pr.totalArea.GetOr(0.0),
        AmountOf(pr.pricePerSquareMeter).GetOr(0.0),
        CurrencyOf(pr.pricePerSquareMeter).GetOr("PEN"),
        AmountOf(pr.maintenanceFee).GetOr(0.0),
        CurrencyOf(pr.maintenanceFee).GetOr("PEN"))
  }

  /** The `financiability` block: absent flags are false. */
  function MapFinanciability(f: Option<FinanciabilityResponse>): (e: Financiability)
    ensures f.None? ==> e == Financiability(0.0, "PEN", false, false, None)
    ensures f.Some? ==> e.maxFinanceableAmount == AmountOf(f.value.maxFinanceableAmount).GetOr(0.0)
    ensures f.Some? ==> e.maxFinanceableCurrency == CurrencyOf(f.value.maxFinanceableAmount).GetOr("PEN")
    ensures f.Some? ==> e.isEligibleForMiVivienda == f.value.eligibleForMiVivienda.GetOr(false)
    ensures f.Some? ==> e.isEligibleForBFH == f.value.eligibleForBFH.GetOr(false)
    ensures f.Some? ==> e.miViviendaReason == f.value.miViviendaIneligibilityReason
  {
    match f
    case None => Financiability(0.0, "PEN", false, false, None)
    case Some(fr) =>
      Financiability(
        AmountOf(fr.maxFinanceableAmount).GetOr(0.0),
        CurrencyOf(fr.maxFinanceableAmount).GetOr("PEN"),
        fr.eligibleForMiVivienda.GetOr(false),
        fr.eligibleForBFH.GetOr(false),
        fr.miViviendaIneligibilityReason)
  }

  /** The `sustainability` block: absent flags are false. */
  function MapSustainability(s: Option<SustainabilityResponse>): (e: Sustainability)
    ensures s.None? ==> e == Sustainability(false, None, false)
    ensures s.Some? ==> e == Sustainability(s.value.hasCertification.GetOr(false), s.value.certificationType,
                                            s.value.bonusEligible.GetOr(false))
  {
    match s
    case None => Sustainability(false, None, false)
    case Some(sr) => Sustainability(sr.hasCertification.GetOr(false), sr.certificationType, sr.bonusEligible.GetOr(false))
  }

  /** `mapPropertyFromResponse`. */
  function MapPropertyFromResponse(dto: PropertyResponse): (e: PropertyEntity)
    ensures e.id == dto.id && e.projectId == dto.projectId && e.propertyCode == dto.propertyCode
    ensures EnumMapper.Decoded(Some(dto.status), PropertyStatusName, e.status, AVAILABLE)
    ensures e.parking == MapParking(dto.parking)
    ensures e.constructionYear == dto.constructionYear
    ensures EnumMapper.Decoded(Some(dto.finishingQuality), FinishingQualityName, e.finishingQuality, STANDARD)
    ensures e.hasBalcony == dto.hasBalcony && e.hasLaundryArea == dto.hasLaundryArea
    ensures e.facing.Some? <==> Truthy(dto.facing)
    ensures e.facing.Some? ==> EnumMapper.Decoded(dto.facing, OrientationName, e.facing.value, NORTH)
    ensures e.features == dto.features.GetOr([])
    ensures EnumMapper.Decoded(Some(dto.propertyType), PropertyTypeName, e.propertyType, APARTMENT)
    ensures e.bedrooms == dto.bedrooms && e.bathrooms == dto.bathrooms
    ensures e.halfBathrooms == dto.halfBathrooms && e.floor == dto.floor && e.storageRoom == dto.storageRoom
    ensures e.pricing == MapPricing(dto.pricing)
    ensures e.financiability == MapFinanciability(dto.financiability)
    ensures e.primaryImageFileId == dto.primaryImageFileId
    ensures e.sustainability == MapSustainability(dto.sustainability)
  {
    PropertyEntity(
      dto.id,
      dto.projectId,
      dto.propertyCode,
      PropertyStatusFrom(Some(dto.status), AVAILABLE),
      MapParking(dto.parking),
      dto.constructionYear,
      FinishingQualityFrom(Some(dto.finishingQuality), STANDARD),
      dto.hasBalcony,
      dto.hasLaundryArea,
      if Truthy(dto.facing) then Some(OrientationFrom(dto.facing, NORTH)) else None,
      dto.features.GetOr([]),
      PropertyTypeFrom(Some(dto.propertyType), APARTMENT),
      dto.bedrooms,
      dto.bathrooms,
      dto.halfBathrooms,
      dto.floor,
      dto.storageRoom,
      MapPricing(dto.pricing),
      MapFinanciability(dto.financiability),
      dto.primaryImageFileId,
      MapSustainability(dto.sustainability))
  }

  /** The body `mapPropertyToCreateRequest` builds: enums as their names, nullable counts as 0. */
  datatype PropertyBody = PropertyBody(
    projectId: Option<string>,
    propertyCode: string,
    parkingSpaces: real,
    parkingPriceAmount: real,
    parkingCurrency: string,
    constructionYear: real,
    finishingQuality: string,
    hasBalcony: bool,
    hasLaundryArea: bool,
    facing: Option<string>,
    features: seq<string>,
    propertyType: string,
    bedrooms: real,
    bathrooms: real,
    halfBathrooms: real,
    floor: real,
    storageRoom: bool,
    priceAmount: real,
    priceCurrency: string,
    builtArea: real,
    totalArea: real,
    maintenanceFeeAmount: real,
    isEligibleForMiVivienda: bool,
    hasSustainabilityCertification: bool,
    certificationType: Option<string>)

  /**
   * `mapPropertyToCreateRequest`. The `?? 0`, `?? false` and `?? "PEN"` of fields the
   * request type never leaves empty change nothing; `halfBathrooms` and `floor` may be
   * null and become 0; a certification type is sent only with a certification.
   */
  function MapPropertyToCreateRequest(req: CreatePropertyRequest): (b: PropertyBody)
    ensures b.finishingQuality == FinishingQualityName(req.finishingQuality)
    ensures b.facing.Some? <==> req.facing.Some?
    ensures req.facing.Some? ==> b.facing.value == OrientationName(req.facing.value)
    ensures b.propertyType == PropertyTypeName(req.propertyType)
    ensures b.halfBathrooms == req.halfBathrooms.GetOr(0.0) && b.floor == req.floor.GetOr(0.0)
    ensures b.certificationType.Some? <==> req.hasSustainabilityCertification && Truthy(req.certificationType)
    ensures b.certificationType.Some? ==> b.certificationType == req.certificationType
  {
    PropertyBody(
      req.projectId,
      req.propertyCode,
      req.parkingSpaces,
      req.parkingPriceAmount,
      req.parkingCurrency,
      req.constructionYear,
      EnumMapper.MapEnumToString(FinishingQualityName, req.finishingQuality),
      req.hasBalcony,
      req.hasLaundryArea,
      if req.facing.Some? then Some(EnumMapper.MapEnumToString(OrientationName, req.facing.value)) else None,
      req.features,
      EnumMapper.MapEnumToString(PropertyTypeName, req.propertyType),
      req.bedrooms,
      req.bathrooms,
      req.halfBathrooms.GetOr(0.0),
      req.floor.GetOr(0.0),
      req.storageRoom,
      req.priceAmount,
      req.priceCurrency,
      req.builtArea,
      req.totalArea,
      req.maintenanceFeeAmount,
      req.isEligibleForMiVivienda,
      req.hasSustainabilityCertification,
      if req.hasSustainabilityCertification && Truthy(req.certificationType) then req.certificationType else None)
  }

  /** Every other field of the create body is the request's own. */
  lemma CreateBodyCopies(req: CreatePropertyRequest)
    ensures var b := MapPropertyToCreateRequest(req);
      && b.projectId == req.projectId && b.propertyCode == req.propertyCode
      && b.parkingSpaces == req.parkingSpaces && b.parkingPriceAmount == req.parkingPriceAmount
      && b.parkingCurrency == req.parkingCurrency && b.constructionYear == req.constructionYear
      && b.hasBalcony == req.hasBalcony && b.hasLaundryArea == req.hasLaundryArea
      && b.features == req.features
      && b.bedrooms == req.bedrooms && b.bathrooms == req.bathrooms
      && b.storageRoom == req.storageRoom
      && b.priceAmount == req.priceAmount && b.priceCurrency == req.priceCurrency
      && b.builtArea == req.builtArea && b.totalArea == req.totalArea
      && b.maintenanceFeeAmount == req.maintenanceFeeAmount
      && b.isEligibleForMiVivienda == req.isEligibleForMiVivienda
      && b.hasSustainabilityCertification == req.hasSustainabilityCertification
  {
  }

  /** The enum names a create body carries decode, with any fallback, to the request's own values. */
  lemma CreateBodyEnumsRoundTrip(req: CreatePropertyRequest)
    ensures var b := MapPropertyToCreateRequest(req);
            && FinishingQualityFrom(Some(b.finishingQuality), STANDARD) == req.finishingQuality
            && PropertyTypeFrom(Some(b.propertyType), APARTMENT) == req.propertyType
            && (req.facing.Some? ==> OrientationFrom(b.facing, NORTH) == req.facing.value)
  {
    FinishingQualityFromName(req.finishingQuality, STANDARD);
    PropertyTypeFromName(req.propertyType, APARTMENT);
    if req.facing.Some? {
      OrientationFromName(req.facing.value, NORTH);
    }
  }
}
