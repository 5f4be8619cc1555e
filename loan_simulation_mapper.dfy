/** mappers/loan-simulation.mapper.ts: a simulation, its money amounts, rates and payment plan. */
module LoanSimulationMapper {
  import opened Wrappers
  import Seqs
  import EnumMapper
  import opened LoanSimulationTypes

  /** `mapMoney`: the currency is decoded, an unknown one read as PEN. */
  function MapMoney(dto: MoneyResponse): (e: MoneyEntity)
    ensures e.amount == dto.amount
    ensures EnumMapper.Decoded(Some(dto.currency), CurrencyName, e.currency, PEN)
  {
    MoneyEntity(dto.amount, CurrencyFrom(Some(dto.currency), PEN))
  }

  /** `mapInterestRate`: the type defaults to EFFECTIVE; an empty or missing capitalisation period is null. */
  function MapInterestRate(dto: InterestRateResponse): (e: InterestRateEntity)
    ensures e.rate == dto.rate
    ensures EnumMapper.Decoded(Some(dto.rateType), RateTypeName, e.rateType, EFFECTIVE)
    ensures e.capitalizationPeriod.Some? <==> Truthy(dto.capitalizationPeriod)
    ensures e.capitalizationPeriod.Some? ==>
              EnumMapper.Decoded(dto.capitalizationPeriod, CapitalizationPeriodName, e.capitalizationPeriod.value, MONTHLY)
  {
    InterestRateEntity(
      dto.rate,
      RateTypeFrom(Some(dto.rateType), EFFECTIVE),
      if Truthy(dto.capitalizationPeriod) then Some(CapitalizationPeriodFrom(dto.capitalizationPeriod, MONTHLY)) else None)
  }

  /** `mapGracePeriod`: the type defaults to TOTAL. */
  function MapGracePeriod(dto: GracePeriodResponse): (e: GracePeriodEntity)
    ensures e.durationInMonths == dto.durationInMonths
    ensures EnumMapper.Decoded(Some(dto.graceType), GraceTypeName, e.graceType, TOTAL)
  {
    GracePeriodEntity(dto.durationInMonths, GraceTypeFrom(Some(dto.graceType), TOTAL))
  }

  /**
   * `mapParameters`. The source object literal has no `discountRate` entry, so the
   * entity's optional discount rate is always absent, whatever the backend sent.
   */
  function MapParameters(dto: LoanParametersResponse): (e: LoanParametersEntity)
    ensures e.propertyPrice == MapMoney(dto.propertyPrice)
    ensures e.initialDownPayment == MapMoney(dto.initialDownPayment)
    ensures e.loanAmount == MapMoney(dto.loanAmount)
    ensures e.termInMonths == dto.termInMonths
    ensures EnumMapper.Decoded(Some(dto.currency), CurrencyName, e.currency, PEN)
    ensures e.interestRate == MapInterestRate(dto.interestRate)
    ensures e.gracePeriod == MapGracePeriod(dto.gracePeriod)
    ensures e.discountRate.None?
  {
    LoanParametersEntity(
      MapMoney(dto.propertyPrice),
      MapMoney(dto.initialDownPayment),
      MapMoney(dto.loanAmount),
      dto.termInMonths,
      CurrencyFrom(Some(dto.currency), PEN),
      MapInterestRate(dto.interestRate),
      MapGracePeriod(dto.gracePeriod),
      None)
  }

  /** `mapInstallment`: every amount through `mapMoney`. */
  function MapInstallment(dto: InstallmentResponse): (e: InstallmentEntity)
    ensures e.id == dto.id && e.installmentNumber == dto.installmentNumber && e.dueDate == dto.dueDate
    ensures e.initialBalance == MapMoney(dto.initialBalance) && e.interest == MapMoney(dto.interest)
    ensures e.amortization == MapMoney(dto.amortization) && e.otherCosts == MapMoney(dto.otherCosts)
    ensures e.totalPayment == MapMoney(dto.totalPayment) && e.finalBalance == MapMoney(dto.finalBalance)
  {
    InstallmentEntity(dto.id, dto.installmentNumber, dto.dueDate,
                      MapMoney(dto.initialBalance), MapMoney(dto.interest), MapMoney(dto.amortization),
                      MapMoney(dto.otherCosts), MapMoney(dto.totalPayment), MapMoney(dto.finalBalance))
  }

  /** `mapSubsidy`. */
  function MapSubsidy(dto: SubsidyLoanResponse): (e: SubsidyEntityLoan)
    ensures e.id == dto.id && e.subsidyConfigId == dto.subsidyConfigId && e.name == dto.name
    ensures e.amount == MapMoney(dto.amount) && e.simulationId == dto.simulationId
  {
    SubsidyEntityLoan(dto.id, dto.subsidyConfigId, dto.name, MapMoney(dto.amount), dto.simulationId)
  }

  /** `mapPaymentPlan`: the installments keep their number and order. */
  function MapPaymentPlan(dto: PaymentPlanResponse): (e: PaymentPlanEntity)
    ensures e.id == dto.id && e.simulationId == dto.simulationId && e.tcea == dto.tcea && e.tir == dto.tir
    ensures e.van == MapMoney(dto.van) && e.monthlyPayment == MapMoney(dto.monthlyPayment)
    ensures |e.installments| == |dto.installments|
    ensures forall i :: 0 <= i < |dto.installments| ==> e.installments[i] == MapInstallment(dto.installments[i])
  {
    PaymentPlanEntity(dto.id, dto.simulationId, dto.tcea, MapMoney(dto.van), dto.tir,
                      MapMoney(dto.monthlyPayment), Seqs.Map(MapInstallment, dto.installments))
  }

  /** `mapLoanSimulation`: the status defaults to DRAFT; a missing payment plan stays missing. */
  function MapLoanSimulation(dto: LoanSimulationResponse): LoanSimulationEntity {
    LoanSimulationEntity(
      dto.id, dto.customerId, dto.propertyId, dto.institutionId, dto.loanProgramId,
      dto.simulationDate, dto.expiresAt,
      SimulationStatusFrom(Some(dto.status), DRAFT),
      MapParameters(dto.parameters),
      if dto.paymentPlan.Some? then Some(MapPaymentPlan(dto.paymentPlan.value)) else None,
      Seqs.Map(MapSubsidy, dto.subsidies))
  }

  /** The status is decoded, an unknown one read as DRAFT. */
  lemma MapLoanSimulationStatus(dto: LoanSimulationResponse)
    ensures EnumMapper.Decoded(Some(dto.status), SimulationStatusName, MapLoanSimulation(dto).status, DRAFT)
  {
  }

  /** The simulation's ids and dates are copied as they are, its parameters and payment plan mapped. */
  lemma MapLoanSimulationCopies(dto: LoanSimulationResponse)
    ensures var e := MapLoanSimulation(dto);
      && e.id == dto.id && e.customerId == dto.customerId && e.propertyId == dto.propertyId
      && e.institutionId == dto.institutionId && e.loanProgramId == dto.loanProgramId
      && e.simulationDate == dto.simulationDate && e.expiresAt == dto.expiresAt
      && e.parameters == MapParameters(dto.parameters)
      && (e.paymentPlan.Some? <==> dto.paymentPlan.Some?)
      && (dto.paymentPlan.Some? ==> e.paymentPlan.value == MapPaymentPlan(dto.paymentPlan.value))
  {
  }

  /** The subsidies are mapped one by one, in order. */
  lemma MapLoanSimulationSubsidies(dto: LoanSimulationResponse)
    ensures var e := MapLoanSimulation(dto);
      && |e.subsidies| == |dto.subsidies|
      && forall i :: 0 <= i < |dto.subsidies| ==> e.subsidies[i] == MapSubsidy(dto.subsidies[i])
  {
  }

  /** An amount sent with its currency's own name maps back to the same amount. */
  lemma MoneyRoundTrip(m: MoneyEntity)
    ensures MapMoney(MoneyResponse(m.amount, CurrencyName(m.currency))) == m
  {
    CurrencyFromName(m.currency, PEN);
  }

  /** A rate sent with its own type and period names maps back to the same rate. */
  lemma InterestRateRoundTrip(r: InterestRateEntity)
    ensures MapInterestRate(InterestRateResponse(
              r.rate, RateTypeName(r.rateType),
              if r.capitalizationPeriod.Some? then Some(CapitalizationPeriodName(r.capitalizationPeriod.value)) else None)) == r
  {
    RateTypeFromName(r.rateType, EFFECTIVE);
    if r.capitalizationPeriod.Some? {
      CapitalizationPeriodNameCanonical(r.capitalizationPeriod.value);
      CapitalizationPeriodFromName(r.capitalizationPeriod.value, MONTHLY);
    }
  }
}
