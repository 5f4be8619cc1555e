/** types/customer.types.ts: a prospective borrower and the household the loan is assessed on. */
module CustomerTypes {
  import opened Wrappers
  import EnumMapper

  /** `CustomerStatusEnum`. */
  datatype CustomerStatus = ACTIVE | SUSPENDED | INACTIVE

  /** `String(v)` for a `CustomerStatusEnum` member: its key, which is also its value. */
  function CustomerStatusName(v: CustomerStatus): string {
    match v
    case ACTIVE => "ACTIVE"
    case SUSPENDED => "SUSPENDED"
    case INACTIVE => "INACTIVE"
  }

  const CustomerStatusMembers: seq<CustomerStatus> := [ACTIVE, SUSPENDED, INACTIVE]

  /** `CustomerStatusEnum` as `Object.keys` lists it. */
  function CustomerStatusEnum(): seq<EnumMapper.Entry<CustomerStatus>> {
    EnumMapper.EntriesOf(CustomerStatusMembers, CustomerStatusName)
  }

  lemma CustomerStatusNameInjective(a: CustomerStatus, b: CustomerStatus)
    requires CustomerStatusName(a) == CustomerStatusName(b)
    ensures a == b
  {
  }

  lemma CustomerStatusNameCanonical(v: CustomerStatus)
    ensures EnumMapper.Canonical(CustomerStatusName(v))
  {
  }

  lemma CustomerStatusComplete(v: CustomerStatus)
    ensures v in CustomerStatusMembers
  {
  }

  /** `CustomerStatusEnum` is a well-formed string enum listing every member. */
  lemma CustomerStatusWellFormed()
    ensures EnumMapper.WellFormed(CustomerStatusEnum(), CustomerStatusName)
    ensures forall v :: EnumMapper.Listed(CustomerStatusEnum(), v)
  {
    forall a, b | CustomerStatusName(a) == CustomerStatusName(b) ensures a == b { CustomerStatusNameInjective(a, b); }
    forall v ensures EnumMapper.Canonical(CustomerStatusName(v)) { CustomerStatusNameCanonical(v); }
    forall v ensures v in CustomerStatusMembers { CustomerStatusComplete(v); }
    EnumMapper.EnumWellFormed(CustomerStatusMembers, CustomerStatusName);
  }

  /** `EnumMapper.mapStringToEnum(input, CustomerStatusEnum, default)`: the member the input names, else `default`. */
  function CustomerStatusFrom(input: Option<string>, default: CustomerStatus): (r: CustomerStatus)
    ensures EnumMapper.Decoded(input, CustomerStatusName, r, default)
  {
    CustomerStatusWellFormed();
    EnumMapper.DecodeSpec(input, CustomerStatusEnum(), CustomerStatusName, default);
    EnumMapper.MapStringToEnum(input, CustomerStatusEnum(), CustomerStatusName, default)
  }

  /** Decoding the name of a `CustomerStatusEnum` member gives that member back. */
  lemma CustomerStatusFromName(v: CustomerStatus, default: CustomerStatus)
    ensures CustomerStatusFrom(Some(CustomerStatusName(v)), default) == v
  {
    CustomerStatusWellFormed();
    CustomerStatusNameCanonical(v);
    EnumMapper.DecodedOwnName(CustomerStatusName, v, CustomerStatusFrom(Some(CustomerStatusName(v)), default), default);
  }

  /** `MaritalStatusEnum`. */
  datatype MaritalStatus = SINGLE | MARRIED | DIVORCED | WIDOWED | COHABITING

  /** `String(v)` for a `MaritalStatusEnum` member: its key, which is also its value. */
  function MaritalStatusName(v: MaritalStatus): string {
    match v
    case SINGLE => "SINGLE"
    case MARRIED => "MARRIED"
    case DIVORCED => "DIVORCED"
    case WIDOWED => "WIDOWED"
    case COHABITING => "COHABITING"
  }

  const MaritalStatusMembers: seq<MaritalStatus> := [SINGLE, MARRIED, DIVORCED, WIDOWED, COHABITING]

  /** `MaritalStatusEnum` as `Object.keys` lists it. */
  function MaritalStatusEnum(): seq<EnumMapper.Entry<MaritalStatus>> {
    EnumMapper.EntriesOf(MaritalStatusMembers, MaritalStatusName)
  }

  lemma MaritalStatusNameInjective(a: MaritalStatus, b: MaritalStatus)
    requires MaritalStatusName(a) == MaritalStatusName(b)
    ensures a == b
  {
  }

  lemma MaritalStatusNameCanonical(v: MaritalStatus)
    ensures EnumMapper.Canonical(MaritalStatusName(v))
  {
    if v == SINGLE || v == MARRIED || v == DIVORCED || v == WIDOWED {
      MaritalStatusNameCanonical0(v);
    } else {
      MaritalStatusNameCanonical1(v);
    }
  }

  lemma MaritalStatusNameCanonical0(v: MaritalStatus)
    requires v == SINGLE || v == MARRIED || v == DIVORCED || v == WIDOWED
    ensures EnumMapper.Canonical(MaritalStatusName(v))
  {
  }

  lemma MaritalStatusNameCanonical1(v: MaritalStatus)
    requires v == COHABITING
    ensures EnumMapper.Canonical(MaritalStatusName(v))
  {
  }

  lemma MaritalStatusComplete(v: MaritalStatus)
    ensures v in MaritalStatusMembers
  {
  }

  /** `MaritalStatusEnum` is a well-formed string enum listing every member. */
  lemma MaritalStatusWellFormed()
    ensures EnumMapper.WellFormed(MaritalStatusEnum(), MaritalStatusName)
    ensures forall v :: EnumMapper.Listed(MaritalStatusEnum(), v)
  {
    forall a, b | MaritalStatusName(a) == MaritalStatusName(b) ensures a == b { MaritalStatusNameInjective(a, b); }
    forall v ensures EnumMapper.Canonical(MaritalStatusName(v)) { MaritalStatusNameCanonical(v); }
    forall v ensures v in MaritalStatusMembers { MaritalStatusComplete(v); }
    EnumMapper.EnumWellFormed(MaritalStatusMembers, MaritalStatusName);
  }

  /** `EnumMapper.mapStringToEnum(input, MaritalStatusEnum, default)`: the member the input names, else `default`. */
  function MaritalStatusFrom(input: Option<string>, default: MaritalStatus): (r: MaritalStatus)
    ensures EnumMapper.Decoded(input, MaritalStatusName, r, default)
  {
    MaritalStatusWellFormed();
    EnumMapper.DecodeSpec(input, MaritalStatusEnum(), MaritalStatusName, default);
    EnumMapper.MapStringToEnum(input, MaritalStatusEnum(), MaritalStatusName, default)
  }

  /** Decoding the name of a `MaritalStatusEnum` member gives that member back. */
  lemma MaritalStatusFromName(v: MaritalStatus, default: MaritalStatus)
    ensures MaritalStatusFrom(Some(MaritalStatusName(v)), default) == v
  {
    MaritalStatusWellFormed();
    MaritalStatusNameCanonical(v);
    EnumMapper.DecodedOwnName(MaritalStatusName, v, MaritalStatusFrom(Some(MaritalStatusName(v)), default), default);
  }

  /** `EducationLevelEnum`. */
  datatype EducationLevel = PRIMARY | SECONDARY | TECHNICAL | UNIVERSITY | POSTGRADUATE

  /** `String(v)` for a `EducationLevelEnum` member: its key, which is also its value. */
  function EducationLevelName(v: EducationLevel): string {
    match v
    case PRIMARY => "PRIMARY"
    case SECONDARY => "SECONDARY"
    case TECHNICAL => "TECHNICAL"
    case UNIVERSITY => "UNIVERSITY"
    case POSTGRADUATE => "POSTGRADUATE"
  }

  const EducationLevelMembers: seq<EducationLevel> := [PRIMARY, SECONDARY, TECHNICAL, UNIVERSITY, POSTGRADUATE]

  /** `EducationLevelEnum` as `Object.keys` lists it. */
  function EducationLevelEnum(): seq<EnumMapper.Entry<EducationLevel>> {
    EnumMapper.EntriesOf(EducationLevelMembers, EducationLevelName)
  }

  lemma EducationLevelNameInjective(a: EducationLevel, b: EducationLevel)
    requires EducationLevelName(a) == EducationLevelName(b)
    ensures a == b
  {
  }

  lemma EducationLevelNameCanonical(v: EducationLevel)
    ensures EnumMapper.Canonical(EducationLevelName(v))
  {
    if v == PRIMARY || v == SECONDARY || v == TECHNICAL {
      EducationLevelNameCanonical0(v);
    } else {
      EducationLevelNameCanonical1(v);
    }
  }

  lemma EducationLevelNameCanonical0(v: EducationLevel)
    requires v == PRIMARY || v == SECONDARY || v == TECHNICAL
    ensures EnumMapper.Canonical(EducationLevelName(v))
  {
  }

  lemma EducationLevelNameCanonical1(v: EducationLevel)
    requires v == UNIVERSITY || v == POSTGRADUATE
    ensures EnumMapper.Canonical(EducationLevelName(v))
  {
  }

  lemma EducationLevelComplete(v: EducationLevel)
    ensures v in EducationLevelMembers
  {
  }

  /** `EducationLevelEnum` is a well-formed string enum listing every member. */
  lemma EducationLevelWellFormed()
    ensures EnumMapper.WellFormed(EducationLevelEnum(), EducationLevelName)
    ensures forall v :: EnumMapper.Listed(EducationLevelEnum(), v)
  {
    forall a, b | EducationLevelName(a) == EducationLevelName(b) ensures a == b { EducationLevelNameInjective(a, b); }
    forall v ensures EnumMapper.Canonical(EducationLevelName(v)) { EducationLevelNameCanonical(v); }
    forall v ensures v in EducationLevelMembers { EducationLevelComplete(v); }
    EnumMapper.EnumWellFormed(EducationLevelMembers, EducationLevelName);
  }

  /** `EnumMapper.mapStringToEnum(input, EducationLevelEnum, default)`: the member the input names, else `default`. */
  function EducationLevelFrom(input: Option<string>, default: EducationLevel): (r: EducationLevel)
    ensures EnumMapper.Decoded(input, EducationLevelName, r, default)
  {
    EducationLevelWellFormed();
    EnumMapper.DecodeSpec(input, EducationLevelEnum(), EducationLevelName, default);
    EnumMapper.MapStringToEnum(input, EducationLevelEnum(), EducationLevelName, default)
  }

  /** Decoding the name of a `EducationLevelEnum` member gives that member back. */
  lemma EducationLevelFromName(v: EducationLevel, default: EducationLevel)
    ensures EducationLevelFrom(Some(EducationLevelName(v)), default) == v
  {
    EducationLevelWellFormed();
    EducationLevelNameCanonical(v);
    EnumMapper.DecodedOwnName(EducationLevelName, v, EducationLevelFrom(Some(EducationLevelName(v)), default), default);
  }

  /** `EmploymentTypeEnum`. */
  datatype EmploymentType = DEPENDENT | INDEPENDENT | RETIRED | UNEMPLOYED

  /** `String(v)` for a `EmploymentTypeEnum` member: its key, which is also its value. */
  function EmploymentTypeName(v: EmploymentType): string {
    match v
    case DEPENDENT => "DEPENDENT"
    case INDEPENDENT => "INDEPENDENT"
    case RETIRED => "RETIRED"
    case UNEMPLOYED => "UNEMPLOYED"
  }

  const EmploymentTypeMembers: seq<EmploymentType> := [DEPENDENT, INDEPENDENT, RETIRED, UNEMPLOYED]

  /** `EmploymentTypeEnum` as `Object.keys` lists it. */
  function EmploymentTypeEnum(): seq<EnumMapper.Entry<EmploymentType>> {
    EnumMapper.EntriesOf(EmploymentTypeMembers, EmploymentTypeName)
  }

  lemma EmploymentTypeNameInjective(a: EmploymentType, b: EmploymentType)
    requires EmploymentTypeName(a) == EmploymentTypeName(b)
    ensures a == b
  {
  }

  lemma EmploymentTypeNameCanonical(v: EmploymentType)
    ensures EnumMapper.Canonical(EmploymentTypeName(v))
  {
    if v == DEPENDENT || v == INDEPENDENT || v == RETIRED {
      EmploymentTypeNameCanonical0(v);
    } else {
      EmploymentTypeNameCanonical1(v);
    }
  }

  lemma EmploymentTypeNameCanonical0(v: EmploymentType)
    requires v == DEPENDENT || v == INDEPENDENT || v == RETIRED
    ensures EnumMapper.Canonical(EmploymentTypeName(v))
  {
  }

  lemma EmploymentTypeNameCanonical1(v: EmploymentType)
    requires v == UNEMPLOYED
    ensures EnumMapper.Canonical(EmploymentTypeName(v))
  {
  }

  lemma EmploymentTypeComplete(v: EmploymentType)
    ensures v in EmploymentTypeMembers
  {
  }

  /** `EmploymentTypeEnum` is a well-formed string enum listing every member. */
  lemma EmploymentTypeWellFormed()
    ensures EnumMapper.WellFormed(EmploymentTypeEnum(), EmploymentTypeName)
    ensures forall v :: EnumMapper.Listed(EmploymentTypeEnum(), v)
  {
    forall a, b | EmploymentTypeName(a) == EmploymentTypeName(b) ensures a == b { EmploymentTypeNameInjective(a, b); }
    forall v ensures EnumMapper.Canonical(EmploymentTypeName(v)) { EmploymentTypeNameCanonical(v); }
    forall v ensures v in EmploymentTypeMembers { EmploymentTypeComplete(v); }
    EnumMapper.EnumWellFormed(EmploymentTypeMembers, EmploymentTypeName);
  }

  /** `EnumMapper.mapStringToEnum(input, EmploymentTypeEnum, default)`: the member the input names, else `default`. */
  function EmploymentTypeFrom(input: Option<string>, default: EmploymentType): (r: EmploymentType)
    ensures EnumMapper.Decoded(input, EmploymentTypeName, r, default)
  {
    EmploymentTypeWellFormed();
    EnumMapper.DecodeSpec(input, EmploymentTypeEnum(), EmploymentTypeName, default);
    EnumMapper.MapStringToEnum(input, EmploymentTypeEnum(), EmploymentTypeName, default)
  }

  /** Decoding the name of a `EmploymentTypeEnum` member gives that member back. */
  lemma EmploymentTypeFromName(v: EmploymentType, default: EmploymentType)
    ensures EmploymentTypeFrom(Some(EmploymentTypeName(v)), default) == v
  {
    EmploymentTypeWellFormed();
    EmploymentTypeNameCanonical(v);
    EnumMapper.DecodedOwnName(EmploymentTypeName, v, EmploymentTypeFrom(Some(EmploymentTypeName(v)), default), default);
  }

  /** `FundOriginTypeEnum`. */
  datatype FundOriginType = FINANCIAL_SYSTEM_SAVINGS | PERSONAL_SAVINGS | FAMILY_SUPPORT | SALE_OF_ASSETS | INHERITANCE | OTHER

  /** `String(v)` for a `FundOriginTypeEnum` member: its key, which is also its value. */
  function FundOriginTypeName(v: FundOriginType): string {
    match v
    case FINANCIAL_SYSTEM_SAVINGS => "FINANCIAL_SYSTEM_SAVINGS"
    case PERSONAL_SAVINGS => "PERSONAL_SAVINGS"
    case FAMILY_SUPPORT => "FAMILY_SUPPORT"
    case SALE_OF_ASSETS => "SALE_OF_ASSETS"
    case INHERITANCE => "INHERITANCE"
    case OTHER => "OTHER"
  }

  const FundOriginTypeMembers: seq<FundOriginType> := [FINANCIAL_SYSTEM_SAVINGS, PERSONAL_SAVINGS, FAMILY_SUPPORT, SALE_OF_ASSETS, INHERITANCE, OTHER]

  /** `FundOriginTypeEnum` as `Object.keys` lists it. */
  function FundOriginTypeEnum(): seq<EnumMapper.Entry<FundOriginType>> {
    EnumMapper.EntriesOf(FundOriginTypeMembers, FundOriginTypeName)
  }

  lemma FundOriginTypeNameInjective(a: FundOriginType, b: FundOriginType)
    requires FundOriginTypeName(a) == FundOriginTypeName(b)
    ensures a == b
  {
  }

  lemma FundOriginTypeNameCanonical(v: FundOriginType)
    ensures EnumMapper.Canonical(FundOriginTypeName(v))
  {
    if v == FINANCIAL_SYSTEM_SAVINGS {
      FundOriginTypeNameCanonical0(v);
    } else if v == PERSONAL_SAVINGS || v == FAMILY_SUPPORT {
      FundOriginTypeNameCanonical1(v);
    } else {
      FundOriginTypeNameCanonical2(v);
    }
  }

  lemma FundOriginTypeNameCanonical0(v: FundOriginType)
    requires v == FINANCIAL_SYSTEM_SAVINGS
    ensures EnumMapper.Canonical(FundOriginTypeName(v))
  {
  }

  lemma FundOriginTypeNameCanonical1(v: FundOriginType)
    requires v == PERSONAL_SAVINGS || v == FAMILY_SUPPORT
    ensures EnumMapper.Canonical(FundOriginTypeName(v))
  {
  }

  lemma FundOriginTypeNameCanonical2(v: FundOriginType)
    requires v == SALE_OF_ASSETS || v == INHERITANCE || v == OTHER
    ensures EnumMapper.Canonical(FundOriginTypeName(v))
  {
  }

  lemma FundOriginTypeComplete(v: FundOriginType)
    ensures v in FundOriginTypeMembers
  {
  }

  /** `FundOriginTypeEnum` is a well-formed string enum listing every member. */
  lemma FundOriginTypeWellFormed()
    ensures EnumMapper.WellFormed(FundOriginTypeEnum(), FundOriginTypeName)
    ensures forall v :: EnumMapper.Listed(FundOriginTypeEnum(), v)
  {
    forall a, b | FundOriginTypeName(a) == FundOriginTypeName(b) ensures a == b { FundOriginTypeNameInjective(a, b); }
    forall v ensures EnumMapper.Canonical(FundOriginTypeName(v)) { FundOriginTypeNameCanonical(v); }
    forall v ensures v in FundOriginTypeMembers { FundOriginTypeComplete(v); }
    EnumMapper.EnumWellFormed(FundOriginTypeMembers, FundOriginTypeName);
  }

  /** `EnumMapper.mapStringToEnum(input, FundOriginTypeEnum, default)`: the member the input names, else `default`. */
  function FundOriginTypeFrom(input: Option<string>, default: FundOriginType): (r: FundOriginType)
    ensures EnumMapper.Decoded(input, FundOriginTypeName, r, default)
  {
    FundOriginTypeWellFormed();
    EnumMapper.DecodeSpec(input, FundOriginTypeEnum(), FundOriginTypeName, default);
    EnumMapper.MapStringToEnum(input, FundOriginTypeEnum(), FundOriginTypeName, default)
  }

  /** Decoding the name of a `FundOriginTypeEnum` member gives that member back. */
  lemma FundOriginTypeFromName(v: FundOriginType, default: FundOriginType)
    ensures FundOriginTypeFrom(Some(FundOriginTypeName(v)), default) == v
  {
    FundOriginTypeWellFormed();
    FundOriginTypeNameCanonical(v);
    EnumMapper.DecodedOwnName(FundOriginTypeName, v, FundOriginTypeFrom(Some(FundOriginTypeName(v)), default), default);
  }

  // ---------------- entity ----------------

  datatype FullName = FullName(
    firstName: string,
    lastName: string,
    middleName: Option<string>,
    fullName: string)

  datatype Address = Address(
    street: string,
    district: string,
    province: string,
    department: string,
    zipCode: string,
    fullAddress: string)

  datatype ContactInfo = ContactInfo(phoneNumber: string, email: string, address: Address)

  datatype Demographics = Demographics(
    birthDate: string,
    maritalStatus: MaritalStatus,
    nationality: string,
    educationLevel: EducationLevel,
    age: real)

  datatype Residency = Residency(isPermanentResident: bool, residenceCardNumber: Option<string>)

  datatype EmploymentInfo = EmploymentInfo(
    occupation: string,
    profession: string,
    employmentType: EmploymentType)

  datatype FinancialSummary = FinancialSummary(
    monthlyIncomeAmount: real,
    monthlyIncomeCurrency: string,
    monthlyExpensesAmount: real,
    monthlyExpensesCurrency: string,
    netIncome: real)

  datatype CreditProfile = CreditProfile(
    hasOtherLoans: bool,
    creditScore: Option<real>,
    hasGoodCredit: bool)

  datatype Spouse = Spouse(
    firstName: Option<string>,
    lastName: Option<string>,
    documentType: Option<string>,
    documentNumber: Option<string>,
    occupation: Option<string>,
    monthlyIncomeAmount: Option<real>,
    monthlyIncomeCurrency: Option<string>,
    hasSpouse: bool)

  datatype FamilyDetails = FamilyDetails(
    totalFamilyIncomeAmount: real,
    totalFamilyIncomeCurrency: string,
    dependents: real,
    hasWheelchairUser: bool,
    familySize: real,
    spouse: Spouse)

  datatype CustomerEntity = CustomerEntity(
    id: string,
    status: CustomerStatus,
    fullName: FullName,
    contactInfo: ContactInfo,
    demographics: Demographics,
    residency: Residency,
    employmentInfo: EmploymentInfo,
    financialSummary: FinancialSummary,
    creditProfile: CreditProfile,
    familyDetails: FamilyDetails,
    hasOtherProperties: bool,
    hasReceivedStateHousingSupport: bool,
    stateHousingSupportDetails: Option<string>,
    fundOrigin: FundOriginType,
    fundOriginOther: Option<string>,
    isEligibleForLoan: bool)

  // ---------------- response ----------------

  datatype CustomerResponse = CustomerResponse(
    id: string,
    status: string,
    firstName: string,
    lastName: string,
    middleName: Option<string>,
    fullName: string,
    phoneNumber: string,
    email: string,
    street: string,
    district: string,
    province: string,
    department: string,
    zipCode: string,
    fullAddress: string,
    birthDate: string,
    maritalStatus: string,
    nationality: string,
    educationLevel: string,
    age: real,
    isPermanentResident: bool,
    residenceCardNumber: Option<string>,
    occupation: string,
    profession: string,
    employmentType: string,
    monthlyIncomeAmount: real,
    monthlyIncomeCurrency: string,
    monthlyExpensesAmount: real,
    monthlyExpensesCurrency: string,
    netIncome: real,
    hasOtherLoans: bool,
    creditScore: Option<real>,
    hasGoodCredit: bool,
    totalFamilyIncomeAmount: real,
    totalFamilyIncomeCurrency: string,
    dependents: real,
    hasWheelchairUser: bool,
    familySize: real,
    spouseFirstName: Option<string>,
    spouseLastName: Option<string>,
    spouseDocumentType: Option<string>,
    spouseDocumentNumber: Option<string>,
    spouseOccupation: Option<string>,
    spouseMonthlyIncomeAmount: Option<real>,
    spouseMonthlyIncomeCurrency: Option<string>,
    hasSpouse: bool,
    hasOtherProperties: bool,
    hasReceivedStateHousingSupport: bool,
    stateHousingSupportDetails: Option<string>,
    fundOrigin: string,
    fundOriginOther: Option<string>,
    isEligibleForLoan: bool)

  // ---------------- create request ----------------

  datatype CreateCustomerRequest = CreateCustomerRequest(
    firstName: string,
    lastName: string,
    middleName: Option<string>,
    phoneNumber: string,
    email: string,
    street: string,
    district: string,
    province: string,
    department: string,
    zipCode: string,
    birthDate: string,
    maritalStatus: MaritalStatus,
    nationality: string,
    educationLevel: EducationLevel,
    isPermanentResident: bool,
    residenceCardNumber: Option<string>,
    occupation: string,
    profession: string,
    employmentType: EmploymentType,
    monthlyIncomeAmount: real,
    monthlyIncomeCurrency: string,
    monthlyExpensesAmount: real,
    monthlyExpensesCurrency: string,
    hasOtherLoans: bool,
    creditScore: Option<real>,
    totalFamilyIncomeAmount: real,
    totalFamilyIncomeCurrency: string,
    dependents: real,
    hasWheelchairUser: bool,
    spouseFirstName: Option<string>,
    spouseLastName: Option<string>,
    spouseDocumentType: Option<string>,
    spouseDocumentNumber: Option<string>,
    spouseOccupation: Option<string>,
    spouseMonthlyIncomeAmount: Option<real>,
    spouseMonthlyIncomeCurrency: Option<string>,
    hasOtherProperties: bool,
    hasReceivedStateHousingSupport: bool,
    stateHousingSupportDetails: Option<string>,
    fundOrigin: FundOriginType,
    fundOriginOther: Option<string>)
}
