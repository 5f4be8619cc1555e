/** types/financial-institution.types.ts: the lending institutions, their rate ranges and offered rates. */
module FinancialInstitutionTypes {
  import opened Wrappers
  import EnumMapper

  /** `FinancialInstitutionsEnum`. */
  datatype FinancialInstitutions = BBVA | BCP | INTERBANK | SCOTIABANK | BANBIF | PICHINCHA | BANCO_COMERCIO | VIVELA | SANTANDER | BANCO_NACION | FALABELLA | CAJA_AREQUIPA | CAJA_CUSCO | CAJA_TRUJILLO | CAJA_PIURA | CAJA_HUANCAYO | CAJA_ICA | CAJA_MAYNAS | FINANCIERA_CREDISCOTIA | FINANCIERA_EFECTIVA

  /** `String(v)` for a `FinancialInstitutionsEnum` member: its key, which is also its value. */
  function FinancialInstitutionsName(v: FinancialInstitutions): string {
    match v
    case BBVA => "BBVA"
    case BCP => "BCP"
    case INTERBANK => "INTERBANK"
    case SCOTIABANK => "SCOTIABANK"
    case BANBIF => "BANBIF"
    case PICHINCHA => "PICHINCHA"
    case BANCO_COMERCIO => "BANCO_COMERCIO"
    case VIVELA => "VIVELA"
    case SANTANDER => "SANTANDER"
    case BANCO_NACION => "BANCO_NACION"
    case FALABELLA => "FALABELLA"
    case CAJA_AREQUIPA => "CAJA_AREQUIPA"
    case CAJA_CUSCO => "CAJA_CUSCO"
    case CAJA_TRUJILLO => "CAJA_TRUJILLO"
    case CAJA_PIURA => "CAJA_PIURA"
    case CAJA_HUANCAYO => "CAJA_HUANCAYO"
    case CAJA_ICA => "CAJA_ICA"
    case CAJA_MAYNAS => "CAJA_MAYNAS"
    case FINANCIERA_CREDISCOTIA => "FINANCIERA_CREDISCOTIA"
    case FINANCIERA_EFECTIVA => "FINANCIERA_EFECTIVA"
  }

  const FinancialInstitutionsMembers: seq<FinancialInstitutions> := [BBVA, BCP, INTERBANK, SCOTIABANK, BANBIF, PICHINCHA, BANCO_COMERCIO, VIVELA, SANTANDER, BANCO_NACION, FALABELLA, CAJA_AREQUIPA, CAJA_CUSCO, CAJA_TRUJILLO, CAJA_PIURA, CAJA_HUANCAYO, CAJA_ICA, CAJA_MAYNAS, FINANCIERA_CREDISCOTIA, FINANCIERA_EFECTIVA]

  /** `FinancialInstitutionsEnum` as `Object.keys` lists it. */
  function FinancialInstitutionsEnum(): seq<EnumMapper.Entry<FinancialInstitutions>> {
    EnumMapper.EntriesOf(FinancialInstitutionsMembers, FinancialInstitutionsName)
  }

  lemma FinancialInstitutionsNameInjective(a: FinancialInstitutions, b: FinancialInstitutions)
    requires FinancialInstitutionsName(a) == FinancialInstitutionsName(b)
    ensures a == b
  {
  }

  lemma FinancialInstitutionsNameCanonical(v: FinancialInstitutions)
    ensures EnumMapper.Canonical(FinancialInstitutionsName(v))
  {
    if v == BBVA || v == BCP || v == INTERBANK || v == SCOTIABANK {
      FinancialInstitutionsNameCanonical0(v);
    } else if v == BANBIF || v == PICHINCHA || v == BANCO_COMERCIO {
      FinancialInstitutionsNameCanonical1(v);
    } else if v == VIVELA || v == SANTANDER || v == BANCO_NACION {
      FinancialInstitutionsNameCanonical2(v);
    } else if v == FALABELLA || v == CAJA_AREQUIPA {
      FinancialInstitutionsNameCanonical3(v);
    } else if v == CAJA_CUSCO || v == CAJA_TRUJILLO {
      FinancialInstitutionsNameCanonical4(v);
    } else if v == CAJA_PIURA || v == CAJA_HUANCAYO {
      FinancialInstitutionsNameCanonical5(v);
    } else if v == CAJA_ICA || v == CAJA_MAYNAS {
      FinancialInstitutionsNameCanonical6(v);
    } else if v == FINANCIERA_CREDISCOTIA {
      FinancialInstitutionsNameCanonical7(v);
    } else {
      FinancialInstitutionsNameCanonical8(v);
    }
  }

  lemma FinancialInstitutionsNameCanonical0(v: FinancialInstitutions)
    requires v == BBVA || v == BCP || v == INTERBANK || v == SCOTIABANK
    ensures EnumMapper.Canonical(FinancialInstitutionsName(v))
  {
  }

  lemma FinancialInstitutionsNameCanonical1(v: FinancialInstitutions)
    requires v == BANBIF || v == PICHINCHA || v == BANCO_COMERCIO
    ensures EnumMapper.Canonical(FinancialInstitutionsName(v))
  {
  }

  lemma FinancialInstitutionsNameCanonical2(v: FinancialInstitutions)
    requires v == VIVELA || v == SANTANDER || v == BANCO_NACION
    ensures EnumMapper.Canonical(FinancialInstitutionsName(v))
  {
  }

  lemma FinancialInstitutionsNameCanonical3(v: FinancialInstitutions)
    requires v == FALABELLA || v == CAJA_AREQUIPA
    ensures EnumMapper.Canonical(FinancialInstitutionsName(v))
  {
  }

  lemma FinancialInstitutionsNameCanonical4(v: FinancialInstitutions)
    requires v == CAJA_CUSCO || v == CAJA_TRUJILLO
    ensures EnumMapper.Canonical(FinancialInstitutionsName(v))
  {
  }

  lemma FinancialInstitutionsNameCanonical5(v: FinancialInstitutions)
    requires v == CAJA_PIURA || v == CAJA_HUANCAYO
    ensures EnumMapper.Canonical(FinancialInstitutionsName(v))
  {
  }

  lemma FinancialInstitutionsNameCanonical6(v: FinancialInstitutions)
    requires v == CAJA_ICA || v == CAJA_MAYNAS
    ensures EnumMapper.Canonical(FinancialInstitutionsName(v))
  {
  }

  lemma FinancialInstitutionsNameCanonical7(v: FinancialInstitutions)
    requires v == FINANCIERA_CREDISCOTIA
    ensures EnumMapper.Canonical(FinancialInstitutionsName(v))
  {
  }

  lemma FinancialInstitutionsNameCanonical8(v: FinancialInstitutions)
    requires v == FINANCIERA_EFECTIVA
    ensures EnumMapper.Canonical(FinancialInstitutionsName(v))
  {
  }

  lemma FinancialInstitutionsComplete(v: FinancialInstitutions)
    ensures v in FinancialInstitutionsMembers
  {
  }

  /** `FinancialInstitutionsEnum` is a well-formed string enum listing every member. */
  lemma FinancialInstitutionsWellFormed()
    ensures EnumMapper.WellFormed(FinancialInstitutionsEnum(), FinancialInstitutionsName)
    ensures forall v :: EnumMapper.Listed(FinancialInstitutionsEnum(), v)
  {
    forall a, b | FinancialInstitutionsName(a) == FinancialInstitutionsName(b) ensures a == b { FinancialInstitutionsNameInjective(a, b); }
    forall v ensures EnumMapper.Canonical(FinancialInstitutionsName(v)) { FinancialInstitutionsNameCanonical(v); }
    forall v ensures v in FinancialInstitutionsMembers { FinancialInstitutionsComplete(v); }
    EnumMapper.EnumWellFormed(FinancialInstitutionsMembers, FinancialInstitutionsName);
  }

  /** `EnumMapper.mapStringToEnum(input, FinancialInstitutionsEnum, default)`: the member the input names, else `default`. */
  function FinancialInstitutionsFrom(input: Option<string>, default: FinancialInstitutions): (r: FinancialInstitutions)
    ensures EnumMapper.Decoded(input, FinancialInstitutionsName, r, default)
  {
    FinancialInstitutionsWellFormed();
    EnumMapper.DecodeSpec(input, FinancialInstitutionsEnum(), FinancialInstitutionsName, default);
    EnumMapper.MapStringToEnum(input, FinancialInstitutionsEnum(), FinancialInstitutionsName, default)
  }

  /** Decoding the name of a `FinancialInstitutionsEnum` member gives that member back. */
  lemma FinancialInstitutionsFromName(v: FinancialInstitutions, default: FinancialInstitutions)
    ensures FinancialInstitutionsFrom(Some(FinancialInstitutionsName(v)), default) == v
  {
    FinancialInstitutionsWellFormed();
    FinancialInstitutionsNameCanonical(v);
    EnumMapper.DecodedOwnName(FinancialInstitutionsName, v, FinancialInstitutionsFrom(Some(FinancialInstitutionsName(v)), default), default);
  }

  datatype FinancialInstitutionEntity = FinancialInstitutionEntity(
    id: string,
    name: FinancialInstitutions,
    isActive: bool)

  datatype FinancialInstitutionResponse = FinancialInstitutionResponse(
    id: string,
    name: string,
    isActive: bool)

  datatype RateRangeResponse = RateRangeResponse(minRate: real, maxRate: real, message: string)

  datatype RateRangeEntity = RateRangeEntity(minRate: real, maxRate: real, message: string)

  datatype InstitutionRateResponse = InstitutionRateResponse(
    institutionId: string,
    institutionName: string,
    minRate: real,
    maxRate: real,
    insuranceRate: real,
    offersRequestedRate: bool)

  datatype InstitutionRateEntity = InstitutionRateEntity(
    institutionId: string,
    institutionName: string,
    minRate: real,
    maxRate: real,
    insuranceRate: real,
    offersRequestedRate: bool)
}
