/** mappers/authentication.mapper.ts: the signed-in user and the two password-completion outcomes. */
module AuthenticationMapper {
  import opened Wrappers
  import Seqs
  import EnumMapper
  import opened RoleTypes
  import opened UserTypes
  import opened AuthenticationTypes

  /**
   * `mapAuthenticatedUserFromResponse`. The status is decoded from the constant "",
   * so it is always ACTIVE; every field the response lacks takes its empty value.
   */
  function MapAuthenticatedUserFromResponse(dto: AuthenticatedUserResponse): (e: UserEntity)
    ensures e.id == dto.id.GetOr("") && e.email == dto.email.GetOr("") && e.username == dto.username.GetOr("")
    ensures e.token == Some(dto.token.GetOr(""))
    ensures e.accountStatus == ACTIVE
    ensures e.password == "" && e.failedLoginAttempts == 0.0 && !e.hasProfile && e.roles == []
    ensures e.lastLoginAt.None? && e.passwordChangedAt.None? && e.createdAt.None? && e.updatedAt.None?
  {
    UserEntity(
      dto.id.GetOr(""),
      dto.email.GetOr(""),
      dto.username.GetOr(""),
      "",
      EnumMapper.MapStringToEnum(Some(""), AccountStatusEnum(), AccountStatusName, ACTIVE),
      0.0,
      None, None, None, None,
      false,
      [],
      Some(dto.token.GetOr("")))
  }

  /** The object both password-completion mappers return. */
  datatype CompletedPassword = CompletedPassword(userId: string, email: string, roles: seq<Roles>)

  /** `dto.roles ? dto.roles.map(r => mapStringToEnum(r, RolesEnum, ROLE_ADMINISTRATOR)) : []`. */
  function MapRoleNames(roles: Option<seq<string>>): (rs: seq<Roles>)
    ensures roles.None? ==> rs == []
    ensures roles.Some? ==> |rs| == |roles.value|
    ensures roles.Some? ==> forall i :: 0 <= i < |rs| ==>
              EnumMapper.Decoded(Some(roles.value[i]), RolesName, rs[i], ROLE_ADMINISTRATOR)
  {
    if roles.Some? then Seqs.Map((r: string) => RolesFrom(Some(r), ROLE_ADMINISTRATOR), roles.value) else []
  }

  /** `mapResetCompletedPasswordFromResponse`. */
  function MapResetCompletedPasswordFromResponse(dto: ResetCompletedPasswordResponse): (e: CompletedPassword)
    ensures e.userId == dto.userId.GetOr("") && e.email == dto.email.GetOr("")
    ensures e.roles == MapRoleNames(dto.roles)
  {
    CompletedPassword(dto.userId.GetOr(""), dto.email.GetOr(""), MapRoleNames(dto.roles))
  }

  /** `mapSetCompletedInitialPasswordFromResponse`. */
  function MapSetCompletedInitialPasswordFromResponse(dto: SetCompletedInitialPasswordResponse): (e: CompletedPassword)
    ensures e.userId == dto.userId.GetOr("") && e.email == dto.email.GetOr("")
    ensures e.roles == MapRoleNames(dto.roles)
  {
    CompletedPassword(dto.userId.GetOr(""), dto.email.GetOr(""), MapRoleNames(dto.roles))
  }

  /** The two password-completion mappers agree on responses with the same fields. */
  lemma PasswordMappersAgree(userId: Option<string>, email: Option<string>, roles: Option<seq<string>>)
    ensures MapResetCompletedPasswordFromResponse(ResetCompletedPasswordResponse(userId, email, roles))
            == MapSetCompletedInitialPasswordFromResponse(SetCompletedInitialPasswordResponse(userId, email, roles))
  {
  }

  /** Every role a password-completion response names is ROLE_ADMINISTRATOR, the only member of `RolesEnum`. */
  lemma CompletedRolesAreAdministrator(roles: Option<seq<string>>)
    ensures forall i :: 0 <= i < |MapRoleNames(roles)| ==> MapRoleNames(roles)[i] == ROLE_ADMINISTRATOR
  {
  }
}
