/** types/authentication.types.ts: the responses of the authentication endpoints. */
module AuthenticationTypes {
  import opened Wrappers

  datatype AuthenticatedUserResponse = AuthenticatedUserResponse(
    id: Option<string>,
    email: Option<string>,
    username: Option<string>,
    token: Option<string>)

  datatype ResetCompletedPasswordResponse = ResetCompletedPasswordResponse(
    userId: Option<string>,
    email: Option<string>,
    roles: Option<seq<string>>)

  datatype SetCompletedInitialPasswordResponse = SetCompletedInitialPasswordResponse(
    userId: Option<string>,
    email: Option<string>,
    roles: Option<seq<string>>)
}
