/** types/loan-simulation.types.ts: a mortgage simulation, its parameters and its payment plan. */
module LoanSimulationTypes {
  import opened Wrappers
  import EnumMapper

  /** `SimulationStatusEnum`. */
  datatype SimulationStatus = DRAFT | SAVED | CONVERTED_TO_APPLICATION | EXPIRED

  /** `String(v)` for a `SimulationStatusEnum` member: its key, which is also its value. */
  function SimulationStatusName(v: SimulationStatus): string {
    match v
    case DRAFT => "DRAFT"
    case SAVED => "SAVED"
    case CONVERTED_TO_APPLICATION => "CONVERTED_TO_APPLICATION"
    case EXPIRED => "EXPIRED"
  }

  const SimulationStatusMembers: seq<SimulationStatus> := [DRAFT, SAVED, CONVERTED_TO_APPLICATION, EXPIRED]

  /** `SimulationStatusEnum` as `Object.keys` lists it. */
  function SimulationStatusEnum(): seq<EnumMapper.Entry<SimulationStatus>> {
    EnumMapper.EntriesOf(SimulationStatusMembers, SimulationStatusName)
  }

  lemma SimulationStatusNameInjective(a: SimulationStatus, b: SimulationStatus)
    requires SimulationStatusName(a) == SimulationStatusName(b)
    ensures a == b
  {
  }

  lemma SimulationStatusNameCanonical(v: SimulationStatus)
    ensures EnumMapper.Canonical(SimulationStatusName(v))
  {
    if v == DRAFT || v == SAVED {
      SimulationStatusNameCanonical0(v);
    } else if v == CONVERTED_TO_APPLICATION {
      SimulationStatusNameCanonical1(v);
    } else {
      SimulationStatusNameCanonical2(v);
    }
  }

  lemma SimulationStatusNameCanonical0(v: SimulationStatus)
    requires v == DRAFT || v == SAVED
    ensures EnumMapper.Canonical(SimulationStatusName(v))
  {
  }

  lemma SimulationStatusNameCanonical1(v: SimulationStatus)
    requires v == CONVERTED_TO_APPLICATION
    ensures EnumMapper.Canonical(SimulationStatusName(v))
  {
  }

  lemma SimulationStatusNameCanonical2(v: SimulationStatus)
    requires v == EXPIRED
    ensures EnumMapper.Canonical(SimulationStatusName(v))
  {
  }

  lemma SimulationStatusComplete(v: SimulationStatus)
    ensures v in SimulationStatusMembers
  {
  }

  /** `SimulationStatusEnum` is a well-formed string enum listing every member. */
  lemma SimulationStatusWellFormed()
    ensures EnumMapper.WellFormed(SimulationStatusEnum(), SimulationStatusName)
    ensures forall v :: EnumMapper.Listed(SimulationStatusEnum(), v)
  {
    forall a, b | SimulationStatusName(a) == SimulationStatusName(b) ensures a == b { SimulationStatusNameInjective(a, b); }
    forall v ensures EnumMapper.Canonical(SimulationStatusName(v)) { SimulationStatusNameCanonical(v); }
    forall v ensures v in SimulationStatusMembers { SimulationStatusComplete(v); }
    EnumMapper.EnumWellFormed(SimulationStatusMembers, SimulationStatusName);
  }

  /** `EnumMapper.mapStringToEnum(input, SimulationStatusEnum, default)`: the member the input names, else `default`. */
  function SimulationStatusFrom(input: Option<string>, default: SimulationStatus): (r: SimulationStatus)
    ensures EnumMapper.Decoded(input, SimulationStatusName, r, default)
  {
    SimulationStatusWellFormed();
    EnumMapper.DecodeSpec(input, SimulationStatusEnum(), SimulationStatusName, default);
    EnumMapper.MapStringToEnum(input, SimulationStatusEnum(), SimulationStatusName, default)
  }

  /** Decoding the name of a `SimulationStatusEnum` member gives that member back. */
  lemma SimulationStatusFromName(v: SimulationStatus, default: SimulationStatus)
    ensures SimulationStatusFrom(Some(SimulationStatusName(v)), default) == v
  {
    SimulationStatusWellFormed();
    SimulationStatusNameCanonical(v);
    EnumMapper.DecodedOwnName(SimulationStatusName, v, SimulationStatusFrom(Some(SimulationStatusName(v)), default), default);
  }

  /** `CurrencyEnum`. */
  datatype Currency = PEN | USD

  /** `String(v)` for a `CurrencyEnum` member: its key, which is also its value. */
  function CurrencyName(v: Currency): string {
    match v
    case PEN => "PEN"
    case USD => "USD"
  }

  const CurrencyMembers: seq<Currency> := [PEN, USD]

  /** `CurrencyEnum` as `Object.keys` lists it. */
  function CurrencyEnum(): seq<EnumMapper.Entry<Currency>> {
    EnumMapper.EntriesOf(CurrencyMembers, CurrencyName)
  }

  lemma CurrencyNameInjective(a: Currency, b: Currency)
    requires CurrencyName(a) == CurrencyName(b)
    ensures a == b
  {
  }

  lemma CurrencyNameCanonical(v: Currency)
    ensures EnumMapper.Canonical(CurrencyName(v))
  {
  }

  lemma CurrencyComplete(v: Currency)
    ensures v in CurrencyMembers
  {
  }

  /** `CurrencyEnum` is a well-formed string enum listing every member. */
  lemma CurrencyWellFormed()
    ensures EnumMapper.WellFormed(CurrencyEnum(), CurrencyName)
    ensures forall v :: EnumMapper.Listed(CurrencyEnum(), v)
  {
    forall a, b | CurrencyName(a) == CurrencyName(b) ensures a == b { CurrencyNameInjective(a, b); }
    forall v ensures EnumMapper.Canonical(CurrencyName(v)) { CurrencyNameCanonical(v); }
    forall v ensures v in CurrencyMembers { CurrencyComplete(v); }
    EnumMapper.EnumWellFormed(CurrencyMembers, CurrencyName);
  }

  /** `EnumMapper.mapStringToEnum(input, CurrencyEnum, default)`: the member the input names, else `default`. */
  function CurrencyFrom(input: Option<string>, default: Currency): (r: Currency)
    ensures EnumMapper.Decoded(input, CurrencyName, r, default)
  {
    CurrencyWellFormed();
    EnumMapper.DecodeSpec(input, CurrencyEnum(), CurrencyName, default);
    EnumMapper.MapStringToEnum(input, CurrencyEnum(), CurrencyName, default)
  }

  /** Decoding the name of a `CurrencyEnum` member gives that member back. */
  lemma CurrencyFromName(v: Currency, default: Currency)
    ensures CurrencyFrom(Some(CurrencyName(v)), default) == v
  {
    CurrencyWellFormed();
    CurrencyNameCanonical(v);
    EnumMapper.DecodedOwnName(CurrencyName, v, CurrencyFrom(Some(CurrencyName(v)), default), default);
  }

  /** `RateTypeEnum`. */
  datatype RateType = NOMINAL | EFFECTIVE

  /** `String(v)` for a `RateTypeEnum` member: its key, which is also its value. */
  function RateTypeName(v: RateType): string {
    match v
    case NOMINAL => "NOMINAL"
    case EFFECTIVE => "EFFECTIVE"
  }

  const RateTypeMembers: seq<RateType> := [NOMINAL, EFFECTIVE]

  /** `RateTypeEnum` as `Object.keys` lists it. */
  function RateTypeEnum(): seq<EnumMapper.Entry<RateType>> {
    EnumMapper.EntriesOf(RateTypeMembers, RateTypeName)
  }

  lemma RateTypeNameInjective(a: RateType, b: RateType)
    requires RateTypeName(a) == RateTypeName(b)
    ensures a == b
  {
  }

  lemma RateTypeNameCanonical(v: RateType)
    ensures EnumMapper.Canonical(RateTypeName(v))
  {
  }

  lemma RateTypeComplete(v: RateType)
    ensures v in RateTypeMembers
  {
  }

  /** `RateTypeEnum` is a well-formed string enum listing every member. */
  lemma RateTypeWellFormed()
    ensures EnumMapper.WellFormed(RateTypeEnum(), RateTypeName)
    ensures forall v :: EnumMapper.Listed(RateTypeEnum(), v)
  {
    forall a, b | RateTypeName(a) == RateTypeName(b) ensures a == b { RateTypeNameInjective(a, b); }
    forall v ensures EnumMapper.Canonical(RateTypeName(v)) { RateTypeNameCanonical(v); }
    forall v ensures v in RateTypeMembers { RateTypeComplete(v); }
    EnumMapper.EnumWellFormed(RateTypeMembers, RateTypeName);
  }

  /** `EnumMapper.mapStringToEnum(input, RateTypeEnum, default)`: the member the input names, else `default`. */
  function RateTypeFrom(input: Option<string>, default: RateType): (r: RateType)
    ensures EnumMapper.Decoded(input, RateTypeName, r, default)
  {
    RateTypeWellFormed();
    EnumMapper.DecodeSpec(input, RateTypeEnum(), RateTypeName, default);
    EnumMapper.MapStringToEnum(input, RateTypeEnum(), RateTypeName, default)
  }

  /** Decoding the name of a `RateTypeEnum` member gives that member back. */
  lemma RateTypeFromName(v: RateType, default: RateType)
    ensures RateTypeFrom(Some(RateTypeName(v)), default) == v
  {
    RateTypeWellFormed();
    RateTypeNameCanonical(v);
    EnumMapper.DecodedOwnName(RateTypeName, v, RateTypeFrom(Some(RateTypeName(v)), default), default);
  }

  /** `CapitalizationPeriodEnum`. */
  datatype CapitalizationPeriod = DAILY | BIWEEKLY | MONTHLY | BIMONTHLY | QUARTERLY | SEMIANNUAL | ANNUAL

  /** `String(v)` for a `CapitalizationPeriodEnum` member: its key, which is also its value. */
  function CapitalizationPeriodName(v: CapitalizationPeriod): string {
    match v
    case DAILY => "DAILY"
    case BIWEEKLY => "BIWEEKLY"
    case MONTHLY => "MONTHLY"
    case BIMONTHLY => "BIMONTHLY"
    case QUARTERLY => "QUARTERLY"
    case SEMIANNUAL => "SEMIANNUAL"
    case ANNUAL => "ANNUAL"
  }

  const CapitalizationPeriodMembers: seq<CapitalizationPeriod> := [DAILY, BIWEEKLY, MONTHLY, BIMONTHLY, QUARTERLY, SEMIANNUAL, ANNUAL]

  /** `CapitalizationPeriodEnum` as `Object.keys` lists it. */
  function CapitalizationPeriodEnum(): seq<EnumMapper.Entry<CapitalizationPeriod>> {
    EnumMapper.EntriesOf(CapitalizationPeriodMembers, CapitalizationPeriodName)
  }

  lemma CapitalizationPeriodNameInjective(a: CapitalizationPeriod, b: CapitalizationPeriod)
    requires CapitalizationPeriodName(a) == CapitalizationPeriodName(b)
    ensures a == b
  {
  }

  lemma CapitalizationPeriodNameCanonical(v: CapitalizationPeriod)
    ensures EnumMapper.Canonical(CapitalizationPeriodName(v))
  {
    if v == DAILY || v == BIWEEKLY || v == MONTHLY || v == BIMONTHLY {
      CapitalizationPeriodNameCanonical0(v);
    } else {
      CapitalizationPeriodNameCanonical1(v);
    }
  }

  lemma CapitalizationPeriodNameCanonical0(v: CapitalizationPeriod)
    requires v == DAILY || v == BIWEEKLY || v == MONTHLY || v == BIMONTHLY
    ensures EnumMapper.Canonical(CapitalizationPeriodName(v))
  {
  }

  lemma CapitalizationPeriodNameCanonical1(v: CapitalizationPeriod)
    requires v == QUARTERLY || v == SEMIANNUAL || v == ANNUAL
    ensures EnumMapper.Canonical(CapitalizationPeriodName(v))
  {
  }

  lemma CapitalizationPeriodComplete(v: CapitalizationPeriod)
    ensures v in CapitalizationPeriodMembers
  {
  }

  /** `CapitalizationPeriodEnum` is a well-formed string enum listing every member. */
  lemma CapitalizationPeriodWellFormed()
    ensures EnumMapper.WellFormed(CapitalizationPeriodEnum(), CapitalizationPeriodName)
    ensures forall v :: EnumMapper.Listed(CapitalizationPeriodEnum(), v)
  {
    forall a, b | CapitalizationPeriodName(a) == CapitalizationPeriodName(b) ensures a == b { CapitalizationPeriodNameInjective(a, b); }
    forall v ensures EnumMapper.Canonical(CapitalizationPeriodName(v)) { CapitalizationPeriodNameCanonical(v); }
    forall v ensures v in CapitalizationPeriodMembers { CapitalizationPeriodComplete(v); }
    EnumMapper.EnumWellFormed(CapitalizationPeriodMembers, CapitalizationPeriodName);
  }

  /** `EnumMapper.mapStringToEnum(input, CapitalizationPeriodEnum, default)`: the member the input names, else `default`. */
  function CapitalizationPeriodFrom(input: Option<string>, default: CapitalizationPeriod): (r: CapitalizationPeriod)
    ensures EnumMapper.Decoded(input, CapitalizationPeriodName, r, default)
  {
    CapitalizationPeriodWellFormed();
    EnumMapper.DecodeSpec(input, CapitalizationPeriodEnum(), CapitalizationPeriodName, default);
    EnumMapper.MapStringToEnum(input, CapitalizationPeriodEnum(), CapitalizationPeriodName, default)
  }

  /** Decoding the name of a `CapitalizationPeriodEnum` member gives that member back. */
  lemma CapitalizationPeriodFromName(v: CapitalizationPeriod, default: CapitalizationPeriod)
    ensures CapitalizationPeriodFrom(Some(CapitalizationPeriodName(v)), default) == v
  {
    CapitalizationPeriodWellFormed();
    CapitalizationPeriodNameCanonical(v);
    EnumMapper.DecodedOwnName(CapitalizationPeriodName, v, CapitalizationPeriodFrom(Some(CapitalizationPeriodName(v)), default), default);
  }

  /** `GraceTypeEnum`. */
  datatype GraceType = PARTIAL | TOTAL

  /** `String(v)` for a `GraceTypeEnum` member: its key, which is also its value. */
  function GraceTypeName(v: GraceType): string {
    match v
    case PARTIAL => "PARTIAL"
    case TOTAL => "TOTAL"
  }

  const GraceTypeMembers: seq<GraceType> := [PARTIAL, TOTAL]

  /** `GraceTypeEnum` as `Object.keys` lists it. */
  function GraceTypeEnum(): seq<EnumMapper.Entry<GraceType>> {
    EnumMapper.EntriesOf(GraceTypeMembers, GraceTypeName)
  }

  lemma GraceTypeNameInjective(a: GraceType, b: GraceType)
    requires GraceTypeName(a) == GraceTypeName(b)
    ensures a == b
  {
  }

  lemma GraceTypeNameCanonical(v: GraceType)
    ensures EnumMapper.Canonical(GraceTypeName(v))
  {
  }

  lemma GraceTypeComplete(v: GraceType)
    ensures v in GraceTypeMembers
  {
  }

  /** `GraceTypeEnum` is a well-formed string enum listing every member. */
  lemma GraceTypeWellFormed()
    ensures EnumMapper.WellFormed(GraceTypeEnum(), GraceTypeName)
    ensures forall v :: EnumMapper.Listed(GraceTypeEnum(), v)
  {
    forall a, b | GraceTypeName(a) == GraceTypeName(b) ensures a == b { GraceTypeNameInjective(a, b); }
    forall v ensures EnumMapper.Canonical(GraceTypeName(v)) { GraceTypeNameCanonical(v); }
    forall v ensures v in GraceTypeMembers { GraceTypeComplete(v); }
    EnumMapper.EnumWellFormed(GraceTypeMembers, GraceTypeName);
  }

  /** `EnumMapper.mapStringToEnum(input, GraceTypeEnum, default)`: the member the input names, else `default`. */
  function GraceTypeFrom(input: Option<string>, default: GraceType): (r: GraceType)
    ensures EnumMapper.Decoded(input, GraceTypeName, r, default)
  {
    GraceTypeWellFormed();
    EnumMapper.DecodeSpec(input, GraceTypeEnum(), GraceTypeName, default);
    EnumMapper.MapStringToEnum(input, GraceTypeEnum(), GraceTypeName, default)
  }

  /** Decoding the name of a `GraceTypeEnum` member gives that member back. */
  lemma GraceTypeFromName(v: GraceType, default: GraceType)
    ensures GraceTypeFrom(Some(GraceTypeName(v)), default) == v
  {
    GraceTypeWellFormed();
    GraceTypeNameCanonical(v);
    EnumMapper.DecodedOwnName(GraceTypeName, v, GraceTypeFrom(Some(GraceTypeName(v)), default), default);
  }

  datatype MoneyEntity = MoneyEntity(amount: real, currency: Currency)

  datatype MoneyResponse = MoneyResponse(amount: real, currency: string)

  /** `rateType` is the source's `type`. */
  datatype InterestRateEntity = InterestRateEntity(
    rate: real,
    rateType: RateType,
    capitalizationPeriod: Option<CapitalizationPeriod>)

  datatype InterestRateResponse = InterestRateResponse(
    rate: real,
    rateType: string,
    capitalizationPeriod: Option<string>)

  /** `graceType` is the source's `type`. */
  datatype GracePeriodEntity = GracePeriodEntity(durationInMonths: real, graceType: GraceType)

  datatype GracePeriodResponse = GracePeriodResponse(durationInMonths: real, graceType: string)

  datatype LoanParametersEntity = LoanParametersEntity(
    propertyPrice: MoneyEntity,
    initialDownPayment: MoneyEntity,
    loanAmount: MoneyEntity,
    termInMonths: real,
    currency: Currency,
    interestRate: InterestRateEntity,
    gracePeriod: GracePeriodEntity,
    discountRate: Option<real>)

  datatype LoanParametersResponse = LoanParametersResponse(
    propertyPrice: MoneyResponse,
    initialDownPayment: MoneyResponse,
    loanAmount: MoneyResponse,
    termInMonths: real,
    currency: string,
    interestRate: InterestRateResponse,
    gracePeriod: GracePeriodResponse,
    discountRate: Option<real>)

  datatype InstallmentEntity = InstallmentEntity(
    id: string,
    installmentNumber: real,
    dueDate: string,
    initialBalance: MoneyEntity,
    interest: MoneyEntity,
    amortization: MoneyEntity,
    otherCosts: MoneyEntity,
    totalPayment: MoneyEntity,
    finalBalance: MoneyEntity)

  datatype InstallmentResponse = InstallmentResponse(
    id: string,
    installmentNumber: real,
    dueDate: string,
    initialBalance: MoneyResponse,
    interest: MoneyResponse,
    amortization: MoneyResponse,
    otherCosts: MoneyResponse,
    totalPayment: MoneyResponse,
    finalBalance: MoneyResponse)

  datatype SubsidyEntityLoan = SubsidyEntityLoan(
    id: string,
    subsidyConfigId: string,
    name: string,
    amount: MoneyEntity,
    simulationId: string)

  datatype SubsidyLoanResponse = SubsidyLoanResponse(
    id: string,
    subsidyConfigId: string,
    name: string,
    amount: MoneyResponse,
    simulationId: string)

  datatype PaymentPlanEntity = PaymentPlanEntity(
    id: string,
    simulationId: string,
    tcea: real,
    van: MoneyEntity,
    tir: real,
    monthlyPayment: MoneyEntity,
    installments: seq<InstallmentEntity>)

  datatype PaymentPlanResponse = PaymentPlanResponse(
    id: string,
    simulationId: string,
    tcea: real,
    van: MoneyResponse,
    tir: real,
    monthlyPayment: MoneyResponse,
    installments: seq<InstallmentResponse>)

  datatype LoanSimulationEntity = LoanSimulationEntity(
    id: string,
    customerId: string,
    propertyId: Option<string>,
    institutionId: string,
    loanProgramId: string,
    simulationDate: string,
    expiresAt: string,
    status: SimulationStatus,
    parameters: LoanParametersEntity,
    paymentPlan: Option<PaymentPlanEntity>,
    subsidies: seq<SubsidyEntityLoan>)

  datatype LoanSimulationResponse = LoanSimulationResponse(
    id: string,
    customerId: string,
    propertyId: Option<string>,
    institutionId: string,
    loanProgramId: string,
    simulationDate: string,
    expiresAt: string,
    status: string,
    parameters: LoanParametersResponse,
    paymentPlan: Option<PaymentPlanResponse>,
    subsidies: seq<SubsidyLoanResponse>)

  /**
   * `CreateSimulationRequest`. Its parameters have the shape of `LoanParametersResponse`,
   * except that a number the wizard parsed from text is `None` where it would be `NaN`.
   */
  datatype CreateSimulationRequest = CreateSimulationRequest(
    customerId: string,
    propertyId: Option<string>,
    institutionId: string,
    loanProgramId: string,
    parameters: RequestedParameters)

  /**
   * `termInMonths` and `interestRate.rate` are `None` for `NaN`; `discountRate` is
   * `None` for `null` and `Some(None)` for `NaN`.
   */
  datatype RequestedParameters = RequestedParameters(
    propertyPrice: MoneyResponse,
    initialDownPayment: MoneyResponse,
    loanAmount: MoneyResponse,
    termInMonths: Option<int>,
    currency: string,
    interestRate: RequestedInterestRate,
    gracePeriod: GracePeriodResponse,
    discountRate: Option<Option<real>>)

  datatype RequestedInterestRate = RequestedInterestRate(
    rate: Option<real>,
    rateType: string,
    capitalizationPeriod: Option<string>)
}
