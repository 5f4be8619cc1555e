/** types/role.types.ts: user roles. */
module RoleTypes {
  import opened Wrappers
  import EnumMapper

  /** `RolesEnum`. */
  datatype Roles = ROLE_ADMINISTRATOR

  /** `String(v)` for a `RolesEnum` member: its key, which is also its value. */
  function RolesName(v: Roles): string {
    match v
    case ROLE_ADMINISTRATOR => "ROLE_ADMINISTRATOR"
  }

  const RolesMembers: seq<Roles> := [ROLE_ADMINISTRATOR]

  /** `RolesEnum` as `Object.keys` lists it. */
  function RolesEnum(): seq<EnumMapper.Entry<Roles>> {
    EnumMapper.EntriesOf(RolesMembers, RolesName)
  }

  lemma RolesNameInjective(a: Roles, b: Roles)
    requires RolesName(a) == RolesName(b)
    ensures a == b
  {
  }

  lemma RolesNameCanonical(v: Roles)
    ensures EnumMapper.Canonical(RolesName(v))
  {
  }

  lemma RolesComplete(v: Roles)
    ensures v in RolesMembers
  {
  }

  /** `RolesEnum` is a well-formed string enum listing every member. */
  lemma RolesWellFormed()
    ensures EnumMapper.WellFormed(RolesEnum(), RolesName)
    ensures forall v :: EnumMapper.Listed(RolesEnum(), v)
  {
    forall a, b | RolesName(a) == RolesName(b) ensures a == b { RolesNameInjective(a, b); }
    forall v ensures EnumMapper.Canonical(RolesName(v)) { RolesNameCanonical(v); }
    forall v ensures v in RolesMembers { RolesComplete(v); }
    EnumMapper.EnumWellFormed(RolesMembers, RolesName);
  }

  /** `EnumMapper.mapStringToEnum(input, RolesEnum, default)`: the member the input names, else `default`. */
  function RolesFrom(input: Option<string>, default: Roles): (r: Roles)
    ensures EnumMapper.Decoded(input, RolesName, r, default)
  {
    RolesWellFormed();
    EnumMapper.DecodeSpec(input, RolesEnum(), RolesName, default);
    EnumMapper.MapStringToEnum(input, RolesEnum(), RolesName, default)
  }

  /** Decoding the name of a `RolesEnum` member gives that member back. */
  lemma RolesFromName(v: Roles, default: Roles)
    ensures RolesFrom(Some(RolesName(v)), default) == v
  {
    RolesWellFormed();
    RolesNameCanonical(v);
    EnumMapper.DecodedOwnName(RolesName, v, RolesFrom(Some(RolesName(v)), default), default);
  }

  datatype RoleEntity = RoleEntity(id: string, name: Roles)

  datatype RoleResponse = RoleResponse(id: Option<string>, name: Option<string>)
}
