/** mappers/user.mapper.ts: back-office users and the body that creates one. */
module UserMapper {
  import opened Wrappers
  import Seqs
  import EnumMapper
  import opened RoleTypes
  import opened UserTypes

  /** `mapRoleFromString`: a role known only by name, with an empty id. */
  function MapRoleFromString(name: string): (e: RoleEntity)
    ensures e.id == ""
    ensures EnumMapper.Decoded(Some(name), RolesName, e.name, ROLE_ADMINISTRATOR)
  {
    RoleEntity("", RolesFrom(Some(name), ROLE_ADMINISTRATOR))
  }

  /** `text ? new Date(text) : null`. */
  function DateOf(text: Option<string>): (d: Option<Date>)
    ensures d.Some? <==> Truthy(text)
    ensures d.Some? ==> d.value.text == text.value
  {
    if Truthy(text) then Some(Date(text.value)) else None
  }

  /**
   * `mapUserFromResponse`: missing strings are "", a missing status reads as
   * PENDING_ACTIVATION, the profile flag, password and token are not sent by the
   * backend and are false, "" and "".
   */
  function MapUserFromResponse(dto: UserResponse): (e: UserEntity)
    ensures e.id == dto.id.GetOr("") && e.email == dto.email.GetOr("") && e.username == dto.username.GetOr("")
    ensures EnumMapper.Decoded(dto.status, AccountStatusName, e.accountStatus, PENDING_ACTIVATION)
    ensures e.failedLoginAttempts == dto.failedLoginAttempts.GetOr(0.0)
    ensures e.lastLoginAt == DateOf(dto.lastLoginAt) && e.passwordChangedAt == DateOf(dto.passwordChangedAt)
    ensures e.createdAt == DateOf(dto.createdAt) && e.updatedAt == DateOf(dto.updatedAt)
    ensures !e.hasProfile && e.password == "" && e.token == Some("")
    ensures dto.roles.None? ==> e.roles == []
    ensures dto.roles.Some? ==> |e.roles| == |dto.roles.value|
    ensures dto.roles.Some? ==> forall i :: 0 <= i < |e.roles| ==> e.roles[i] == MapRoleFromString(dto.roles.value[i])
  {
    UserEntity(
      dto.id.GetOr(""),
      dto.email.GetOr(""),
      dto.username.GetOr(""),
      "",
      AccountStatusFrom(dto.status, PENDING_ACTIVATION),
      dto.failedLoginAttempts.GetOr(0.0),
      DateOf(dto.lastLoginAt),
      DateOf(dto.passwordChangedAt),
      DateOf(dto.createdAt),
      DateOf(dto.updatedAt),
      false,
      if dto.roles.Some? then Seqs.Map(MapRoleFromString, dto.roles.value) else [],
      Some(""))
  }

  /** `mapUsersFromResponse`: element by element, in order. */
  function MapUsersFromResponse(dtos: seq<UserResponse>): (es: seq<UserEntity>)
    ensures |es| == |dtos|
    ensures forall i :: 0 <= i < |dtos| ==> es[i] == MapUserFromResponse(dtos[i])
  {
    Seqs.Map(MapUserFromResponse, dtos)
  }

  /** The inline argument type of `mapUserToCreateRequest`. */
  datatype NewUser = NewUser(email: string, username: string, roles: seq<Roles>, districtId: string)

  /** `mapUserToCreateRequest`: each role written by its name. */
  function MapUserToCreateRequest(data: NewUser): (r: CreateUserRequest)
    ensures r.email == data.email && r.username == data.username && r.districtId == data.districtId
    ensures |r.roles| == |data.roles|
    ensures forall i :: 0 <= i < |data.roles| ==> r.roles[i] == EnumMapper.MapEnumToString(RolesName, data.roles[i])
  {
    CreateUserRequest(data.email, data.username, Seqs.Map((v: Roles) => EnumMapper.MapEnumToString(RolesName, v), data.roles),
                      data.districtId)
  }

  /** The role names a create request carries read back, through `mapRoleFromString`, as the roles it was made from. */
  lemma CreateRequestRolesRoundTrip(data: NewUser)
    ensures var names := MapUserToCreateRequest(data).roles;
            Seqs.Map((n: string) => MapRoleFromString(n).name, names) == data.roles
  {
    var names := MapUserToCreateRequest(data).roles;
    var back := Seqs.Map((n: string) => MapRoleFromString(n).name, names);
    forall i | 0 <= i < |data.roles| ensures back[i] == data.roles[i] {
      assert names[i] == EnumMapper.MapEnumToString(RolesName, data.roles[i]);
      RoleNameRoundTrip(data.roles[i]);
    }
  }

  /** A role written by its name reads back as that role. */
  lemma RoleNameRoundTrip(v: Roles)
    ensures MapRoleFromString(EnumMapper.MapEnumToString(RolesName, v)).name == v
  {
    RolesFromName(v, ROLE_ADMINISTRATOR);
  }
}
