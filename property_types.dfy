/** types/property.types.ts: a housing unit offered for sale. */
module PropertyTypes {
  import opened Wrappers
  import EnumMapper

  /** `PropertyStatusEnum`. */
  datatype PropertyStatus = AVAILABLE | RESERVED | SOLD | SUSPENDED

  /** `String(v)` for a `PropertyStatusEnum` member: its key, which is also its value. */
  function PropertyStatusName(v: PropertyStatus): string {
    match v
    case AVAILABLE => "AVAILABLE"
    case RESERVED => "RESERVED"
    case SOLD => "SOLD"
    case SUSPENDED => "SUSPENDED"
  }

  const PropertyStatusMembers: seq<PropertyStatus> := [AVAILABLE, RESERVED, SOLD, SUSPENDED]

  /** `PropertyStatusEnum` as `Object.keys` lists it. */
  function PropertyStatusEnum(): seq<EnumMapper.Entry<PropertyStatus>> {
    EnumMapper.EntriesOf(PropertyStatusMembers, PropertyStatusName)
  }

  lemma PropertyStatusNameInjective(a: PropertyStatus, b: PropertyStatus)
    requires PropertyStatusName(a) == PropertyStatusName(b)
    ensures a == b
  {
  }

  lemma PropertyStatusNameCanonical(v: PropertyStatus)
    ensures EnumMapper.Canonical(PropertyStatusName(v))
  {
  }

  lemma PropertyStatusComplete(v: PropertyStatus)
    ensures v in PropertyStatusMembers
  {
  }

  /** `PropertyStatusEnum` is a well-formed string enum listing every member. */
  lemma PropertyStatusWellFormed()
    ensures EnumMapper.WellFormed(PropertyStatusEnum(), PropertyStatusName)
    ensures forall v :: EnumMapper.Listed(PropertyStatusEnum(), v)
  {
    forall a, b | PropertyStatusName(a) == PropertyStatusName(b) ensures a == b { PropertyStatusNameInjective(a, b); }
    forall v ensures EnumMapper.Canonical(PropertyStatusName(v)) { PropertyStatusNameCanonical(v); }
    forall v ensures v in PropertyStatusMembers { PropertyStatusComplete(v); }
    EnumMapper.EnumWellFormed(PropertyStatusMembers, PropertyStatusName);
  }

  /** `EnumMapper.mapStringToEnum(input, PropertyStatusEnum, default)`: the member the input names, else `default`. */
  function PropertyStatusFrom(input: Option<string>, default: PropertyStatus): (r: PropertyStatus)
    ensures EnumMapper.Decoded(input, PropertyStatusName, r, default)
  {
    PropertyStatusWellFormed();
    EnumMapper.DecodeSpec(input, PropertyStatusEnum(), PropertyStatusName, default);
    EnumMapper.MapStringToEnum(input, PropertyStatusEnum(), PropertyStatusName, default)
  }

  /** Decoding the name of a `PropertyStatusEnum` member gives that member back. */
  lemma PropertyStatusFromName(v: PropertyStatus, default: PropertyStatus)
    ensures PropertyStatusFrom(Some(PropertyStatusName(v)), default) == v
  {
    PropertyStatusWellFormed();
    PropertyStatusNameCanonical(v);
    EnumMapper.DecodedOwnName(PropertyStatusName, v, PropertyStatusFrom(Some(PropertyStatusName(v)), default), default);
  }

  /** `FinishingQualityEnum`. */
  datatype FinishingQuality = BASIC | STANDARD | PREMIUM | LUXURY

  /** `String(v)` for a `FinishingQualityEnum` member: its key, which is also its value. */
  function FinishingQualityName(v: FinishingQuality): string {
    match v
    case BASIC => "BASIC"
    case STANDARD => "STANDARD"
    case PREMIUM => "PREMIUM"
    case LUXURY => "LUXURY"
  }

  const FinishingQualityMembers: seq<FinishingQuality> := [BASIC, STANDARD, PREMIUM, LUXURY]

  /** `FinishingQualityEnum` as `Object.keys` lists it. */
  function FinishingQualityEnum(): seq<EnumMapper.Entry<FinishingQuality>> {
    EnumMapper.EntriesOf(FinishingQualityMembers, FinishingQualityName)
  }

  lemma FinishingQualityNameInjective(a: FinishingQuality, b: FinishingQuality)
    requires FinishingQualityName(a) == FinishingQualityName(b)
    ensures a == b
  {
  }

  lemma FinishingQualityNameCanonical(v: FinishingQuality)
    ensures EnumMapper.Canonical(FinishingQualityName(v))
  {
  }

  lemma FinishingQualityComplete(v: FinishingQuality)
    ensures v in FinishingQualityMembers
  {
  }

  /** `FinishingQualityEnum` is a well-formed string enum listing every member. */
  lemma FinishingQualityWellFormed()
    ensures EnumMapper.WellFormed(FinishingQualityEnum(), FinishingQualityName)
    ensures forall v :: EnumMapper.Listed(FinishingQualityEnum(), v)
  {
    forall a, b | FinishingQualityName(a) == FinishingQualityName(b) ensures a == b { FinishingQualityNameInjective(a, b); }
    forall v ensures EnumMapper.Canonical(FinishingQualityName(v)) { FinishingQualityNameCanonical(v); }
    forall v ensures v in FinishingQualityMembers { FinishingQualityComplete(v); }
    EnumMapper.EnumWellFormed(FinishingQualityMembers, FinishingQualityName);
  }

  /** `EnumMapper.mapStringToEnum(input, FinishingQualityEnum, default)`: the member the input names, else `default`. */
  function FinishingQualityFrom(input: Option<string>, default: FinishingQuality): (r: FinishingQuality)
    ensures EnumMapper.Decoded(input, FinishingQualityName, r, default)
  {
    FinishingQualityWellFormed();
    EnumMapper.DecodeSpec(input, FinishingQualityEnum(), FinishingQualityName, default);
    EnumMapper.MapStringToEnum(input, FinishingQualityEnum(), FinishingQualityName, default)
  }

  /** Decoding the name of a `FinishingQualityEnum` member gives that member back. */
  lemma FinishingQualityFromName(v: FinishingQuality, default: FinishingQuality)
    ensures FinishingQualityFrom(Some(FinishingQualityName(v)), default) == v
  {
    FinishingQualityWellFormed();
    FinishingQualityNameCanonical(v);
    EnumMapper.DecodedOwnName(FinishingQualityName, v, FinishingQualityFrom(Some(FinishingQualityName(v)), default), default);
  }

  /** `OrientationEnum`. */
  datatype Orientation = NORTH | SOUTH | EAST | WEST | NORTHEAST | NORTHWEST | SOUTHEAST | SOUTHWEST

  /** `String(v)` for a `OrientationEnum` member: its key, which is also its value. */
  function OrientationName(v: Orientation): string {
    match v
    case NORTH => "NORTH"
    case SOUTH => "SOUTH"
    case EAST => "EAST"
    case WEST => "WEST"
    case NORTHEAST => "NORTHEAST"
    case NORTHWEST => "NORTHWEST"
    case SOUTHEAST => "SOUTHEAST"
    case SOUTHWEST => "SOUTHWEST"
  }

  const OrientationMembers: seq<Orientation> := [NORTH, SOUTH, EAST, WEST, NORTHEAST, NORTHWEST, SOUTHEAST, SOUTHWEST]

  /** `OrientationEnum` as `Object.keys` lists it. */
  function OrientationEnum(): seq<EnumMapper.Entry<Orientation>> {
    EnumMapper.EntriesOf(OrientationMembers, OrientationName)
  }

  lemma OrientationNameInjective(a: Orientation, b: Orientation)
    requires OrientationName(a) == OrientationName(b)
    ensures a == b
  {
  }

  lemma OrientationNameCanonical(v: Orientation)
    ensures EnumMapper.Canonical(OrientationName(v))
  {
    if v == NORTH || v == SOUTH || v == EAST || v == WEST || v == NORTHEAST {
      OrientationNameCanonical0(v);
    } else {
      OrientationNameCanonical1(v);
    }
  }

  lemma OrientationNameCanonical0(v: Orientation)
    requires v == NORTH || v == SOUTH || v == EAST || v == WEST || v == NORTHEAST
    ensures EnumMapper.Canonical(OrientationName(v))
  {
  }

  lemma OrientationNameCanonical1(v: Orientation)
    requires v == NORTHWEST || v == SOUTHEAST || v == SOUTHWEST
    ensures EnumMapper.Canonical(OrientationName(v))
  {
  }

  lemma OrientationComplete(v: Orientation)
    ensures v in OrientationMembers
  {
  }

  /** `OrientationEnum` is a well-formed string enum listing every member. */
  lemma OrientationWellFormed()
    ensures EnumMapper.WellFormed(OrientationEnum(), OrientationName)
    ensures forall v :: EnumMapper.Listed(OrientationEnum(), v)
  {
    forall a, b | OrientationName(a) == OrientationName(b) ensures a == b { OrientationNameInjective(a, b); }
    forall v ensures EnumMapper.Canonical(OrientationName(v)) { OrientationNameCanonical(v); }
    forall v ensures v in OrientationMembers { OrientationComplete(v); }
    EnumMapper.EnumWellFormed(OrientationMembers, OrientationName);
  }

  /** `EnumMapper.mapStringToEnum(input, OrientationEnum, default)`: the member the input names, else `default`. */
  function OrientationFrom(input: Option<string>, default: Orientation): (r: Orientation)
    ensures EnumMapper.Decoded(input, OrientationName, r, default)
  {
    OrientationWellFormed();
    EnumMapper.DecodeSpec(input, OrientationEnum(), OrientationName, default);
    EnumMapper.MapStringToEnum(input, OrientationEnum(), OrientationName, default)
  }

  /** Decoding the name of a `OrientationEnum` member gives that member back. */
  lemma OrientationFromName(v: Orientation, default: Orientation)
    ensures OrientationFrom(Some(OrientationName(v)), default) == v
  {
    OrientationWellFormed();
    OrientationNameCanonical(v);
    EnumMapper.DecodedOwnName(OrientationName, v, OrientationFrom(Some(OrientationName(v)), default), default);
  }

  /** `PropertyTypeEnum`. */
  datatype PropertyType = APARTMENT | HOUSE | DUPLEX | TOWNHOUSE | PENTHOUSE | FLAT

  /** `String(v)` for a `PropertyTypeEnum` member: its key, which is also its value. */
  function PropertyTypeName(v: PropertyType): string {
    match v
    case APARTMENT => "APARTMENT"
    case HOUSE => "HOUSE"
    case DUPLEX => "DUPLEX"
    case TOWNHOUSE => "TOWNHOUSE"
    case PENTHOUSE => "PENTHOUSE"
    case FLAT => "FLAT"
  }

  const PropertyTypeMembers: seq<PropertyType> := [APARTMENT, HOUSE, DUPLEX, TOWNHOUSE, PENTHOUSE, FLAT]

  /** `PropertyTypeEnum` as `Object.keys` lists it. */
  function PropertyTypeEnum(): seq<EnumMapper.Entry<PropertyType>> {
    EnumMapper.EntriesOf(PropertyTypeMembers, PropertyTypeName)
  }

  lemma PropertyTypeNameInjective(a: PropertyType, b: PropertyType)
    requires PropertyTypeName(a) == PropertyTypeName(b)
    ensures a == b
  {
  }

  lemma PropertyTypeNameCanonical(v: PropertyType)
    ensures EnumMapper.Canonical(PropertyTypeName(v))
  {
    if v == APARTMENT || v == HOUSE || v == DUPLEX || v == TOWNHOUSE {
      PropertyTypeNameCanonical0(v);
    } else {
      PropertyTypeNameCanonical1(v);
    }
  }

  lemma PropertyTypeNameCanonical0(v: PropertyType)
    requires v == APARTMENT || v == HOUSE || v == DUPLEX || v == TOWNHOUSE
    ensures EnumMapper.Canonical(PropertyTypeName(v))
  {
  }

  lemma PropertyTypeNameCanonical1(v: PropertyType)
    requires v == PENTHOUSE || v == FLAT
    ensures EnumMapper.Canonical(PropertyTypeName(v))
  {
  }

  lemma PropertyTypeComplete(v: PropertyType)
    ensures v in PropertyTypeMembers
  {
  }

  /** `PropertyTypeEnum` is a well-formed string enum listing every member. */
  lemma PropertyTypeWellFormed()
    ensures EnumMapper.WellFormed(PropertyTypeEnum(), PropertyTypeName)
    ensures forall v :: EnumMapper.Listed(PropertyTypeEnum(), v)
  {
    forall a, b | PropertyTypeName(a) == PropertyTypeName(b) ensures a == b { PropertyTypeNameInjective(a, b); }
    forall v ensures EnumMapper.Canonical(PropertyTypeName(v)) { PropertyTypeNameCanonical(v); }
    forall v ensures v in PropertyTypeMembers { PropertyTypeComplete(v); }
    EnumMapper.EnumWellFormed(PropertyTypeMembers, PropertyTypeName);
  }

  /** `EnumMapper.mapStringToEnum(input, PropertyTypeEnum, default)`: the member the input names, else `default`. */
  function PropertyTypeFrom(input: Option<string>, default: PropertyType): (r: PropertyType)
    ensures EnumMapper.Decoded(input, PropertyTypeName, r, default)
  {
    PropertyTypeWellFormed();
    EnumMapper.DecodeSpec(input, PropertyTypeEnum(), PropertyTypeName, default);
    EnumMapper.MapStringToEnum(input, PropertyTypeEnum(), PropertyTypeName, default)
  }

  /** Decoding the name of a `PropertyTypeEnum` member gives that member back. */
  lemma PropertyTypeFromName(v: PropertyType, default: PropertyType)
    ensures PropertyTypeFrom(Some(PropertyTypeName(v)), default) == v
  {
    PropertyTypeWellFormed();
    PropertyTypeNameCanonical(v);
    EnumMapper.DecodedOwnName(PropertyTypeName, v, PropertyTypeFrom(Some(PropertyTypeName(v)), default), default);
  }

  // ---------------- entity ----------------

  datatype Parking = Parking(
    parkingSpaces: real,
    parkingPriceAmount: real,
    parkingPriceCurrency: string,
    parkingTotalAmount: real,
    parkingTotalCurrency: string,
    hasParking: bool)

  datatype Pricing = Pricing(
    priceAmount: real,
    priceCurrency: string,
    priceInSoles: Option<real>,
    priceInSolesCurrency: Option<string>,
    priceInDollars: Option<real>,
    priceInDollarsCurrency: Option<string>,
    builtArea: real,
    totalArea: real,
    pricePerSquareMeterAmount: real,
    pricePerSquareMeterCurrency: string,
    maintenanceFeeAmount: real,
    maintenanceFeeCurrency: string)

  datatype Financiability = Financiability(
    maxFinanceableAmount: real,
    maxFinanceableCurrency: string,
    isEligibleForMiVivienda: bool,
    isEligibleForBFH: bool,
    miViviendaReason: Option<string>)

  datatype Sustainability = Sustainability(
    hasCertification: bool,
    certificationType: Option<string>,
    bonusEligible: bool)

  datatype PropertyEntity = PropertyEntity(
    id: string,
    projectId: Option<string>,
    propertyCode: string,
    status: PropertyStatus,
    parking: Parking,
    constructionYear: Option<real>,
    finishingQuality: FinishingQuality,
    hasBalcony: bool,
    hasLaundryArea: bool,
    facing: Option<Orientation>,
    features: seq<string>,
    propertyType: PropertyType,
    bedrooms: real,
    bathrooms: real,
    halfBathrooms: Option<real>,
    floor: Option<real>,
    storageRoom: bool,
    pricing: Pricing,
    financiability: Financiability,
    primaryImageFileId: Option<string>,
    sustainability: Sustainability)

  // ---------------- response ----------------
  // Every part the mapper reaches through `?.` or defaults with `??` is optional here.

  datatype AmountResponse = AmountResponse(amount: Option<real>, currency: Option<string>)

  datatype ParkingResponse = ParkingResponse(
    parkingSpaces: Option<real>,
    parkingPrice: Option<AmountResponse>,
    parkingTotal: Option<AmountResponse>)

  datatype ListPriceResponse = ListPriceResponse(
    amount: Option<AmountResponse>,
    priceInSoles: Option<AmountResponse>,
    priceInDollars: Option<AmountResponse>)

  datatype PricingResponse = PricingResponse(
    listPrice: Option<ListPriceResponse>,
    builtArea: Option<real>,
    totalArea: Option<real>,
    listPriceCurrency: string,
    pricePerSquareMeter: Option<AmountResponse>,
    maintenanceFee: Option<AmountResponse>)

  datatype FinanciabilityResponse = FinanciabilityResponse(
    maxFinanceableAmount: Option<AmountResponse>,
    eligibleForMiVivienda: Option<bool>,
    eligibleForBFH: Option<bool>,
    miViviendaIneligibilityReason: Option<string>)

  datatype SustainabilityResponse = SustainabilityResponse(
    hasCertification: Option<bool>,
    certificationType: Option<string>,
    bonusEligible: Option<bool>)

  datatype PropertyResponse = PropertyResponse(
    id: string,
    projectId: Option<string>,
    propertyCode: string,
    status: string,
    parking: Option<ParkingResponse>,
    constructionYear: Option<real>,
    finishingQuality: string,
    hasBalcony: bool,
    hasLaundryArea: bool,
    facing: Option<string>,
    features: Option<seq<string>>,
    propertyType: string,
    bedrooms: real,
    bathrooms: real,
    halfBathrooms: Option<real>,
    floor: Option<real>,
    storageRoom: bool,
    pricing: Option<PricingResponse>,
    financiability: Option<FinanciabilityResponse>,
    primaryImageFileId: Option<string>,
    sustainability: Option<SustainabilityResponse>,
    available: bool,
    eligibleForBonoVerde: bool)

  // ---------------- create request ----------------

  datatype CreatePropertyRequest = CreatePropertyRequest(
    projectId: Option<string>,
    propertyCode: string,
    parkingSpaces: real,
    parkingPriceAmount: real,
    parkingCurrency: string,
    constructionYear: real,
    finishingQuality: FinishingQuality,
    hasBalcony: bool,
    hasLaundryArea: bool,
    facing: Option<Orientation>,
    features: seq<string>,
    propertyType: PropertyType,
    bedrooms: real,
    bathrooms: real,
    halfBathrooms: Option<real>,
    floor: Option<real>,
    storageRoom: bool,
    priceAmount: real,
    priceCurrency: string,
    builtArea: real,
    totalArea: real,
    maintenanceFeeAmount: real,
    isEligibleForMiVivienda: bool,
    hasSustainabilityCertification: bool,
    certificationType: Option<string>)
}
