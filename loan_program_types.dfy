/** types/loan-program.types.ts: the two state housing loan programmes. */
module LoanProgramTypes {
  import opened Wrappers
  import EnumMapper

  /** `LoanProgramsEnum`. */
  datatype LoanPrograms = NUEVO_CREDITO_MIVIVIENDA | TECHO_PROPIO

  /** `String(v)` for a `LoanProgramsEnum` member: its key, which is also its value. */
  function LoanProgramsName(v: LoanPrograms): string {
    match v
    case NUEVO_CREDITO_MIVIVIENDA => "NUEVO_CREDITO_MIVIVIENDA"
    case TECHO_PROPIO => "TECHO_PROPIO"
  }

  const LoanProgramsMembers: seq<LoanPrograms> := [NUEVO_CREDITO_MIVIVIENDA, TECHO_PROPIO]

  /** `LoanProgramsEnum` as `Object.keys` lists it. */
  function LoanProgramsEnum(): seq<EnumMapper.Entry<LoanPrograms>> {
    EnumMapper.EntriesOf(LoanProgramsMembers, LoanProgramsName)
  }

  lemma LoanProgramsNameInjective(a: LoanPrograms, b: LoanPrograms)
    requires LoanProgramsName(a) == LoanProgramsName(b)
    ensures a == b
  {
  }

  lemma LoanProgramsNameCanonical(v: LoanPrograms)
    ensures EnumMapper.Canonical(LoanProgramsName(v))
  {
    if v == NUEVO_CREDITO_MIVIVIENDA {
      LoanProgramsNameCanonical0(v);
    } else {
      LoanProgramsNameCanonical1(v);
    }
  }

  lemma LoanProgramsNameCanonical0(v: LoanPrograms)
    requires v == NUEVO_CREDITO_MIVIVIENDA
    ensures EnumMapper.Canonical(LoanProgramsName(v))
  {
  }

  lemma LoanProgramsNameCanonical1(v: LoanPrograms)
    requires v == TECHO_PROPIO
    ensures EnumMapper.Canonical(LoanProgramsName(v))
  {
  }

  lemma LoanProgramsComplete(v: LoanPrograms)
    ensures v in LoanProgramsMembers
  {
  }

  /** `LoanProgramsEnum` is a well-formed string enum listing every member. */
  lemma LoanProgramsWellFormed()
    ensures EnumMapper.WellFormed(LoanProgramsEnum(), LoanProgramsName)
    ensures forall v :: EnumMapper.Listed(LoanProgramsEnum(), v)
  {
    forall a, b | LoanProgramsName(a) == LoanProgramsName(b) ensures a == b { LoanProgramsNameInjective(a, b); }
    forall v ensures EnumMapper.Canonical(LoanProgramsName(v)) { LoanProgramsNameCanonical(v); }
    forall v ensures v in LoanProgramsMembers { LoanProgramsComplete(v); }
    EnumMapper.EnumWellFormed(LoanProgramsMembers, LoanProgramsName);
  }

  /** `EnumMapper.mapStringToEnum(input, LoanProgramsEnum, default)`: the member the input names, else `default`. */
  function LoanProgramsFrom(input: Option<string>, default: LoanPrograms): (r: LoanPrograms)
    ensures EnumMapper.Decoded(input, LoanProgramsName, r, default)
  {
    LoanProgramsWellFormed();
    EnumMapper.DecodeSpec(input, LoanProgramsEnum(), LoanProgramsName, default);
    EnumMapper.MapStringToEnum(input, LoanProgramsEnum(), LoanProgramsName, default)
  }

  /** Decoding the name of a `LoanProgramsEnum` member gives that member back. */
  lemma LoanProgramsFromName(v: LoanPrograms, default: LoanPrograms)
    ensures LoanProgramsFrom(Some(LoanProgramsName(v)), default) == v
  {
    LoanProgramsWellFormed();
    LoanProgramsNameCanonical(v);
    EnumMapper.DecodedOwnName(LoanProgramsName, v, LoanProgramsFrom(Some(LoanProgramsName(v)), default), default);
  }

  datatype LoanProgramEntity = LoanProgramEntity(id: string, name: LoanPrograms)

  datatype LoanProgramResponse = LoanProgramResponse(id: string, name: string)
}
