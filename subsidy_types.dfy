/** types/subsidy.types.ts: the housing subsidies ("bonos") a loan programme grants. */
module SubsidyTypes {
  import opened Wrappers
  import EnumMapper

  /** `SubsidyTypesEnum`. */
  datatype SubsidyType = BONO_BUEN_PAGADOR | BFH_COMPRA | BFH_CONSTRUCCION | BFH_MEJORA | BONO_INTEGRADOR | BONO_VERDE

  /** `String(v)` for a `SubsidyTypesEnum` member: its key, which is also its value. */
  function SubsidyTypeName(v: SubsidyType): string {
    match v
    case BONO_BUEN_PAGADOR => "BONO_BUEN_PAGADOR"
    case BFH_COMPRA => "BFH_COMPRA"
    case BFH_CONSTRUCCION => "BFH_CONSTRUCCION"
    case BFH_MEJORA => "BFH_MEJORA"
    case BONO_INTEGRADOR => "BONO_INTEGRADOR"
    case BONO_VERDE => "BONO_VERDE"
  }

  const SubsidyTypeMembers: seq<SubsidyType> := [BONO_BUEN_PAGADOR, BFH_COMPRA, BFH_CONSTRUCCION, BFH_MEJORA, BONO_INTEGRADOR, BONO_VERDE]

  /** `SubsidyTypesEnum` as `Object.keys` lists it. */
  function SubsidyTypeEnum(): seq<EnumMapper.Entry<SubsidyType>> {
    EnumMapper.EntriesOf(SubsidyTypeMembers, SubsidyTypeName)
  }

  lemma SubsidyTypeNameInjective(a: SubsidyType, b: SubsidyType)
    requires SubsidyTypeName(a) == SubsidyTypeName(b)
    ensures a == b
  {
  }

  lemma SubsidyTypeNameCanonical(v: SubsidyType)
    ensures EnumMapper.Canonical(SubsidyTypeName(v))
  {
    if v == BONO_BUEN_PAGADOR || v == BFH_COMPRA {
      SubsidyTypeNameCanonical0(v);
    } else if v == BFH_CONSTRUCCION || v == BFH_MEJORA {
      SubsidyTypeNameCanonical1(v);
    } else {
      SubsidyTypeNameCanonical2(v);
    }
  }

  lemma SubsidyTypeNameCanonical0(v: SubsidyType)
    requires v == BONO_BUEN_PAGADOR || v == BFH_COMPRA
    ensures EnumMapper.Canonical(SubsidyTypeName(v))
  {
  }

  lemma SubsidyTypeNameCanonical1(v: SubsidyType)
    requires v == BFH_CONSTRUCCION || v == BFH_MEJORA
    ensures EnumMapper.Canonical(SubsidyTypeName(v))
  {
  }

  lemma SubsidyTypeNameCanonical2(v: SubsidyType)
    requires v == BONO_INTEGRADOR || v == BONO_VERDE
    ensures EnumMapper.Canonical(SubsidyTypeName(v))
  {
  }

  lemma SubsidyTypeComplete(v: SubsidyType)
    ensures v in SubsidyTypeMembers
  {
  }

  /** `SubsidyTypesEnum` is a well-formed string enum listing every member. */
  lemma SubsidyTypeWellFormed()
    ensures EnumMapper.WellFormed(SubsidyTypeEnum(), SubsidyTypeName)
    ensures forall v :: EnumMapper.Listed(SubsidyTypeEnum(), v)
  {
    forall a, b | SubsidyTypeName(a) == SubsidyTypeName(b) ensures a == b { SubsidyTypeNameInjective(a, b); }
    forall v ensures EnumMapper.Canonical(SubsidyTypeName(v)) { SubsidyTypeNameCanonical(v); }
    forall v ensures v in SubsidyTypeMembers { SubsidyTypeComplete(v); }
    EnumMapper.EnumWellFormed(SubsidyTypeMembers, SubsidyTypeName);
  }

  /** `EnumMapper.mapStringToEnum(input, SubsidyTypesEnum, default)`: the member the input names, else `default`. */
  function SubsidyTypeFrom(input: Option<string>, default: SubsidyType): (r: SubsidyType)
    ensures EnumMapper.Decoded(input, SubsidyTypeName, r, default)
  {
    SubsidyTypeWellFormed();
    EnumMapper.DecodeSpec(input, SubsidyTypeEnum(), SubsidyTypeName, default);
    EnumMapper.MapStringToEnum(input, SubsidyTypeEnum(), SubsidyTypeName, default)
  }

  /** Decoding the name of a `SubsidyTypesEnum` member gives that member back. */
  lemma SubsidyTypeFromName(v: SubsidyType, default: SubsidyType)
    ensures SubsidyTypeFrom(Some(SubsidyTypeName(v)), default) == v
  {
    SubsidyTypeWellFormed();
    SubsidyTypeNameCanonical(v);
    EnumMapper.DecodedOwnName(SubsidyTypeName, v, SubsidyTypeFrom(Some(SubsidyTypeName(v)), default), default);
  }

  datatype SubsidyEntity = SubsidyEntity(
    id: string,
    name: SubsidyType,
    loanProgramId: string,
    isActive: bool)

  datatype SubsidyResponse = SubsidyResponse(
    id: string,
    name: string,
    loanProgramId: string,
    isActive: bool)
}
