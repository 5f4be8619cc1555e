/** mappers/customer.mapper.ts: a customer from the backend, and the body that creates one. */
module CustomerMapper {
  import opened Wrappers
  import EnumMapper
  import opened CustomerTypes

  /** `x ? Number(x) : null` on an optional number: absent and 0 both become null. */
  function NonZero(x: Option<real>): (r: Option<real>)
    ensures r.Some? <==> x.Some? && x.value != 0.0
    ensures r.Some? ==> r == x
  {
    if x.Some? && x.value != 0.0 then x else None
  }

  /**
   * `mapCustomerFromResponse`: the flat response regrouped into the nested entity, each
   * enum decoded with its fallback. `Number(...)` of a value that is already a number
   * is that number.
   */
  function MapCustomerFromResponse(dto: CustomerResponse): (e: CustomerEntity)
    ensures e.id == dto.id
    ensures EnumMapper.Decoded(Some(dto.status), CustomerStatusName, e.status, ACTIVE)
    ensures e.fullName == FullName(dto.firstName, dto.lastName, dto.middleName, dto.fullName)
    ensures e.contactInfo == ContactInfo(dto.phoneNumber, dto.email,
              Address(dto.street, dto.district, dto.province, dto.department, dto.zipCode, dto.fullAddress))
    ensures e.demographics.birthDate == dto.birthDate && e.demographics.nationality == dto.nationality
    ensures e.demographics.age == dto.age
    ensures EnumMapper.Decoded(Some(dto.maritalStatus), MaritalStatusName, e.demographics.maritalStatus, SINGLE)
    ensures EnumMapper.Decoded(Some(dto.educationLevel), EducationLevelName, e.demographics.educationLevel, PRIMARY)
    ensures e.residency == Residency(dto.isPermanentResident, dto.residenceCardNumber)
    ensures e.employmentInfo.occupation == dto.occupation && e.employmentInfo.profession == dto.profession
    ensures EnumMapper.Decoded(Some(dto.employmentType), EmploymentTypeName, e.employmentInfo.employmentType, DEPENDENT)
    ensures e.financialSummary == FinancialSummary(dto.monthlyIncomeAmount, dto.monthlyIncomeCurrency,
              dto.monthlyExpensesAmount, dto.monthlyExpensesCurrency, dto.netIncome)
    ensures e.creditProfile == CreditProfile(dto.hasOtherLoans, dto.creditScore, dto.hasGoodCredit)
    ensures e.familyDetails.totalFamilyIncomeAmount == dto.totalFamilyIncomeAmount
    ensures e.familyDetails.totalFamilyIncomeCurrency == dto.totalFamilyIncomeCurrency
    ensures e.familyDetails.dependents == dto.dependents && e.familyDetails.familySize == dto.familySize
    ensures e.familyDetails.hasWheelchairUser == dto.hasWheelchairUser
    ensures e.familyDetails.spouse == Spouse(dto.spouseFirstName, dto.spouseLastName, dto.spouseDocumentType,
              dto.spouseDocumentNumber, dto.spouseOccupation, NonZero(dto.spouseMonthlyIncomeAmount),
              dto.spouseMonthlyIncomeCurrency, dto.hasSpouse)
    ensures e.hasOtherProperties == dto.hasOtherProperties
    ensures e.hasReceivedStateHousingSupport == dto.hasReceivedStateHousingSupport
    ensures e.stateHousingSupportDetails == dto.stateHousingSupportDetails
    ensures EnumMapper.Decoded(Some(dto.fundOrigin), FundOriginTypeName, e.fundOrigin, OTHER)
    ensures e.fundOriginOther == dto.fundOriginOther && e.isEligibleForLoan == dto.isEligibleForLoan
  {
    CustomerEntity(
      dto.id,
      CustomerStatusFrom(Some(dto.status), ACTIVE),
      FullName(dto.firstName, dto.lastName, dto.middleName, dto.fullName),
      ContactInfo(dto.phoneNumber, dto.email,
                  Address(dto.street, dto.district, dto.province, dto.department, dto.zipCode, dto.fullAddress)),
      Demographics(dto.birthDate, MaritalStatusFrom(Some(dto.maritalStatus), SINGLE), dto.nationality,
                   EducationLevelFrom(Some(dto.educationLevel), PRIMARY), dto.age),
      Residency(dto.isPermanentResident, dto.residenceCardNumber),
      EmploymentInfo(dto.occupation, dto.profession, EmploymentTypeFrom(Some(dto.employmentType), DEPENDENT)),
      FinancialSummary(dto.monthlyIncomeAmount, dto.monthlyIncomeCurrency,
                       dto.monthlyExpensesAmount, dto.monthlyExpensesCurrency, dto.netIncome),
      CreditProfile(dto.hasOtherLoans, dto.creditScore, dto.hasGoodCredit),
      FamilyDetails(dto.totalFamilyIncomeAmount, dto.totalFamilyIncomeCurrency, dto.dependents,
                    dto.hasWheelchairUser, dto.familySize,
                    Spouse(dto.spouseFirstName, dto.spouseLastName, dto.spouseDocumentType,
                           dto.spouseDocumentNumber, dto.spouseOccupation,
                           NonZero(dto.spouseMonthlyIncomeAmount), dto.spouseMonthlyIncomeCurrency,
                           dto.hasSpouse)),
      dto.hasOtherProperties,
      dto.hasReceivedStateHousingSupport,
      dto.stateHousingSupportDetails,
      FundOriginTypeFrom(Some(dto.fundOrigin), OTHER),
      dto.fundOriginOther,
      dto.isEligibleForLoan)
  }

  /** The body `mapCustomerToCreateRequest` builds: the request with every enum written as its name. */
  datatype CustomerBody = CustomerBody(
    firstName: string,
    lastName: string,
    middleName: Option<string>,
    phoneNumber: string,
    email: string,
    street: string,
    district: string,
    province: string,
    department: string,
    zipCode: string,
    birthDate: string,
    maritalStatus: string,
    nationality: string,
    educationLevel: string,
    isPermanentResident: bool,
    residenceCardNumber: Option<string>,
    occupation: string,
    profession: string,
    employmentType: string,
    monthlyIncomeAmount: real,
    monthlyIncomeCurrency: string,
    monthlyExpensesAmount: real,
    monthlyExpensesCurrency: string,
    hasOtherLoans: bool,
    creditScore: Option<real>,
    totalFamilyIncomeAmount: real,
    totalFamilyIncomeCurrency: string,
    dependents: real,
    hasWheelchairUser: bool,
    spouseFirstName: Option<string>,
    spouseLastName: Option<string>,
    spouseDocumentType: Option<string>,
    spouseDocumentNumber: Option<string>,
    spouseOccupation: Option<string>,
    spouseMonthlyIncomeAmount: Option<real>,
    spouseMonthlyIncomeCurrency: Option<string>,
    hasOtherProperties: bool,
    hasReceivedStateHousingSupport: bool,
    stateHousingSupportDetails: Option<string>,
    fundOrigin: string,
    fundOriginOther: Option<string>)

  /** `mapCustomerToCreateRequest`: every field as it is, the four enums by name. */
  function MapCustomerToCreateRequest(r: CreateCustomerRequest): (b: CustomerBody)
    ensures b.maritalStatus == MaritalStatusName(r.maritalStatus)
    ensures b.educationLevel == EducationLevelName(r.educationLevel)
    ensures b.employmentType == EmploymentTypeName(r.employmentType)
    ensures b.fundOrigin == FundOriginTypeName(r.fundOrigin)
    ensures b.firstName == r.firstName && b.lastName == r.lastName && b.middleName == r.middleName
    ensures b.phoneNumber == r.phoneNumber && b.email == r.email
    ensures b.street == r.street && b.district == r.district && b.province == r.province
    ensures b.department == r.department && b.zipCode == r.zipCode
    ensures b.birthDate == r.birthDate && b.nationality == r.nationality
    ensures b.isPermanentResident == r.isPermanentResident && b.residenceCardNumber == r.residenceCardNumber
    ensures b.occupation == r.occupation && b.profession == r.profession
    ensures b.monthlyIncomeAmount == r.monthlyIncomeAmount && b.monthlyIncomeCurrency == r.monthlyIncomeCurrency
    ensures b.monthlyExpensesAmount == r.monthlyExpensesAmount && b.monthlyExpensesCurrency == r.monthlyExpensesCurrency
    ensures b.hasOtherLoans == r.hasOtherLoans && b.creditScore == r.creditScore
    ensures b.totalFamilyIncomeAmount == r.totalFamilyIncomeAmount
    ensures b.totalFamilyIncomeCurrency == r.totalFamilyIncomeCurrency
    ensures b.dependents == r.dependents && b.hasWheelchairUser == r.hasWheelchairUser
    ensures b.spouseFirstName == r.spouseFirstName && b.spouseLastName == r.spouseLastName
    ensures b.spouseDocumentType == r.spouseDocumentType && b.spouseDocumentNumber == r.spouseDocumentNumber
    ensures b.spouseOccupation == r.spouseOccupation
    ensures b.spouseMonthlyIncomeAmount == r.spouseMonthlyIncomeAmount
    ensures b.spouseMonthlyIncomeCurrency == r.spouseMonthlyIncomeCurrency
    ensures b.hasOtherProperties == r.hasOtherProperties
    ensures b.hasReceivedStateHousingSupport == r.hasReceivedStateHousingSupport
    ensures b.stateHousingSupportDetails == r.stateHousingSupportDetails
    ensures b.fundOriginOther == r.fundOriginOther
  {
    CustomerBody(
      r.firstName, r.lastName, r.middleName,
      r.phoneNumber, r.email,
      r.street, r.district, r.province, r.department, r.zipCode,
      r.birthDate,
      EnumMapper.MapEnumToString(MaritalStatusName, r.maritalStatus),
      r.nationality,
      EnumMapper.MapEnumToString(EducationLevelName, r.educationLevel),
      r.isPermanentResident, r.residenceCardNumber,
      r.occupation, r.profession,
      EnumMapper.MapEnumToString(EmploymentTypeName, r.employmentType),
      r.monthlyIncomeAmount, r.monthlyIncomeCurrency,
      r.monthlyExpensesAmount, r.monthlyExpensesCurrency,
      r.hasOtherLoans, r.creditScore,
      r.totalFamilyIncomeAmount, r.totalFamilyIncomeCurrency,
      r.dependents, r.hasWheelchairUser,
      r.spouseFirstName, r.spouseLastName, r.spouseDocumentType, r.spouseDocumentNumber,
      r.spouseOccupation, r.spouseMonthlyIncomeAmount, r.spouseMonthlyIncomeCurrency,
      r.hasOtherProperties, r.hasReceivedStateHousingSupport, r.stateHousingSupportDetails,
      EnumMapper.MapEnumToString(FundOriginTypeName, r.fundOrigin),
      r.fundOriginOther)
  }

  /** The enum names a create body carries decode, with any fallback, to the request's own values. */
  lemma CreateBodyEnumsRoundTrip(r: CreateCustomerRequest)
    ensures var b := MapCustomerToCreateRequest(r);
            && MaritalStatusFrom(Some(b.maritalStatus), SINGLE) == r.maritalStatus
            && EducationLevelFrom(Some(b.educationLevel), PRIMARY) == r.educationLevel
            && EmploymentTypeFrom(Some(b.employmentType), DEPENDENT) == r.employmentType
            && FundOriginTypeFrom(Some(b.fundOrigin), OTHER) == r.fundOrigin
  {
    MaritalStatusFromName(r.maritalStatus, SINGLE);
    EducationLevelFromName(r.educationLevel, PRIMARY);
    EmploymentTypeFromName(r.employmentType, DEPENDENT);
    FundOriginTypeFromName(r.fundOrigin, OTHER);
  }
}
