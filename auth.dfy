/** The user-id guard of the frontend routes: `getUserId` validates the
    `x-user-id` header and `requireAuth` additionally refuses the anonymous
    fallback. */
module Auth {
  import opened Common
  import opened AppErrors

  const MaxUserIdLength := 50
  const DefaultUser := "default-user"

  /** `/^[a-zA-Z0-9_-]+$/.test(id) && id.length <= 50` */
  predicate ValidUserId(id: string) {
    |id| > 0 && |id| <= MaxUserIdLength && forall k | 0 <= k < |id| :: IsIdentChar(id[k])
  }

  /** The header value, the anonymous fallback, or the format error. */
  function GetUserId(header: Option<string>): (r: Result<string, AppError>)
    ensures r.Ok? <==> !Truthy(header) || ValidUserId(header.value)
    ensures r.Ok? && Truthy(header) ==> r.value == header.value
    ensures !Truthy(header) ==> r == Ok(DefaultUser)
    ensures r.Err? ==> r.error == NewAuthenticationError(Some("Invalid user ID format"))
  {
    if Truthy(header) && !ValidUserId(header.value) then
      Err(NewAuthenticationError(Some("Invalid user ID format")))
    else
      Ok(OrElse(header, DefaultUser))
  }

  /** Any accepted user id is a valid one. */
  lemma UserIdAlwaysValid(header: Option<string>)
    requires GetUserId(header).Ok?
    ensures ValidUserId(GetUserId(header).value)
  {
    if !Truthy(header) {
      assert forall k | 0 <= k < |DefaultUser| :: IsIdentChar(DefaultUser[k]);
    }
  }

  /** `requireAuth`: the anonymous fallback becomes 'Authentication required';
      `getUserId` throws only authentication errors, which pass unchanged, so
      the 'Authentication failed' rewrite of other errors cannot occur here. */
  function RequireAuth(header: Option<string>): (r: Result<string, AppError>)
    ensures r.Ok? <==> Truthy(header) && ValidUserId(header.value) && header.value != DefaultUser
    ensures r.Ok? ==> r.value == header.value && r.value != DefaultUser
    ensures r.Err? ==> r.error.kind == Authentication && r.error.statusCode == 401
    ensures r.Err? && GetUserId(header).Ok? ==> r.error.message == "Authentication required"
    ensures r.Err? && GetUserId(header).Err? ==> r.error == GetUserId(header).error
  {
    match GetUserId(header)
    case Err(e) => Err(e)
    case Ok(id) =>
      if id == "" || id == DefaultUser then Err(NewAuthenticationError(Some("Authentication required")))
      else Ok(id)
  }

  /** A successful `requireAuth` returns what `getUserId` returns. */
  lemma RequireAuthAgreesWithGetUserId(header: Option<string>)
    requires RequireAuth(header).Ok?
    ensures GetUserId(header) == RequireAuth(header)
  {
  }
}
