/** types/user.types.ts: back-office user accounts. */
module UserTypes {
  import opened Wrappers
  import EnumMapper
  import RoleTypes

  /** `AccountStatusEnum`. */
  datatype AccountStatus = ACTIVE | LOCKED | PENDING_ACTIVATION

  /** `String(v)` for a `AccountStatusEnum` member: its key, which is also its value. */
  function AccountStatusName(v: AccountStatus): string {
    match v
    case ACTIVE => "ACTIVE"
    case LOCKED => "LOCKED"
    case PENDING_ACTIVATION => "PENDING_ACTIVATION"
  }

  const AccountStatusMembers: seq<AccountStatus> := [ACTIVE, LOCKED, PENDING_ACTIVATION]

  /** `AccountStatusEnum` as `Object.keys` lists it. */
  function AccountStatusEnum(): seq<EnumMapper.Entry<AccountStatus>> {
    EnumMapper.EntriesOf(AccountStatusMembers, AccountStatusName)
  }

  lemma AccountStatusNameInjective(a: AccountStatus, b: AccountStatus)
    requires AccountStatusName(a) == AccountStatusName(b)
    ensures a == b
  {
  }

  lemma AccountStatusNameCanonical(v: AccountStatus)
    ensures EnumMapper.Canonical(AccountStatusName(v))
  {
  }

  lemma AccountStatusComplete(v: AccountStatus)
    ensures v in AccountStatusMembers
  {
  }

  /** `AccountStatusEnum` is a well-formed string enum listing every member. */
  lemma AccountStatusWellFormed()
    ensures EnumMapper.WellFormed(AccountStatusEnum(), AccountStatusName)
    ensures forall v :: EnumMapper.Listed(AccountStatusEnum(), v)
  {
    forall a, b | AccountStatusName(a) == AccountStatusName(b) ensures a == b { AccountStatusNameInjective(a, b); }
    forall v ensures EnumMapper.Canonical(AccountStatusName(v)) { AccountStatusNameCanonical(v); }
    forall v ensures v in AccountStatusMembers { AccountStatusComplete(v); }
    EnumMapper.EnumWellFormed(AccountStatusMembers, AccountStatusName);
  }

  /** `EnumMapper.mapStringToEnum(input, AccountStatusEnum, default)`: the member the input names, else `default`. */
  function AccountStatusFrom(input: Option<string>, default: AccountStatus): (r: AccountStatus)
    ensures EnumMapper.Decoded(input, AccountStatusName, r, default)
  {
    AccountStatusWellFormed();
    EnumMapper.DecodeSpec(input, AccountStatusEnum(), AccountStatusName, default);
    EnumMapper.MapStringToEnum(input, AccountStatusEnum(), AccountStatusName, default)
  }

  /** Decoding the name of a `AccountStatusEnum` member gives that member back. */
  lemma AccountStatusFromName(v: AccountStatus, default: AccountStatus)
    ensures AccountStatusFrom(Some(AccountStatusName(v)), default) == v
  {
    AccountStatusWellFormed();
    AccountStatusNameCanonical(v);
    EnumMapper.DecodedOwnName(AccountStatusName, v, AccountStatusFrom(Some(AccountStatusName(v)), default), default);
  }

  /** `new Date(text)`: the calendar value is not modelled, only the text it was built from. */
  datatype Date = Date(text: string)

  datatype UserEntity = UserEntity(
    id: string,
    email: string,
    username: string,
    password: string,
    accountStatus: AccountStatus,
    failedLoginAttempts: real,
    lastLoginAt: Option<Date>,
    passwordChangedAt: Option<Date>,
    createdAt: Option<Date>,
    updatedAt: Option<Date>,
    hasProfile: bool,
    roles: seq<RoleTypes.RoleEntity>,
    token: Option<string>)

  datatype UserResponse = UserResponse(
    id: Option<string>,
    email: Option<string>,
    username: Option<string>,
    status: Option<string>,
    failedLoginAttempts: Option<real>,
    lastLoginAt: Option<string>,
    passwordChangedAt: Option<string>,
    createdAt: Option<string>,
    updatedAt: Option<string>,
    roles: Option<seq<string>>)

  datatype CreateUserRequest = CreateUserRequest(
    email: string,
    username: string,
    roles: seq<string>,
    districtId: string)
}
