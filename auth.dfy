/**
 * The authentication and authority gates every handler calls first. The
 * session holds an optional user id and an optional authority level (1..5,
 * read as 1 when absent).
 */
module EndpointAuth {
  import opened Common

  datatype Session = Session(userId: Option<int>, authorityLevel: Option<int>)

  /** A gate's verdict: no error means the handler may go on; `userId` is the `out` parameter. */
  datatype Gate = Gate(error: Option<ApiError>, userId: int)
  {
    predicate Passed() { error.None? }
  }

  function GetAuthenticatedUserId(s: Session): (r: Option<int>)
    ensures r == s.userId
  {
    s.userId
  }

  function GetAuthorityLevel(s: Session): (level: int)
    ensures s.authorityLevel.None? ==> level == 1
    ensures s.authorityLevel.Some? ==> level == s.authorityLevel.value
  {
    s.authorityLevel.GetOr(1)
  }

  function RequireAuth(s: Session): (g: Gate)
    ensures g.Passed() <==> s.userId.Some?
    ensures g.Passed() ==> g.userId == s.userId.value
    ensures !g.Passed() ==> g.error == Some(Unauthorized) && g.userId == 0
  {
    if s.userId.None? then Gate(Some(Unauthorized), 0) else Gate(None, s.userId.value)
  }

  /** The caller is the resource's owner or holds authority level 5. */
  function RequireAuthAndOwnership(s: Session, resourceUserId: int): (g: Gate)
    ensures g.Passed() <==> s.userId.Some? && (s.userId.value == resourceUserId || GetAuthorityLevel(s) >= 5)
    ensures s.userId.None? ==> g.error == Some(Unauthorized)
    ensures s.userId.Some? && !g.Passed() ==> g.error == Some(Forbidden)
    ensures s.userId.Some? ==> g.userId == s.userId.value
  {
    var auth := RequireAuth(s);
    if !auth.Passed() then auth
    else if auth.userId == resourceUserId then auth
    else if s.authorityLevel.GetOr(1) >= 5 then auth
    else Gate(Some(Forbidden), auth.userId)
  }

  function RequireAuthority(s: Session, minimumLevel: int): (g: Gate)
    ensures g.Passed() <==> s.userId.Some? && GetAuthorityLevel(s) >= minimumLevel
    ensures s.userId.None? ==> g.error == Some(Unauthorized)
    ensures s.userId.Some? && !g.Passed() ==> g.error == Some(Forbidden)
    ensures s.userId.Some? ==> g.userId == s.userId.value
  {
    var auth := RequireAuth(s);
    if !auth.Passed() then auth
    else if GetAuthorityLevel(s) < minimumLevel then Gate(Some(Forbidden), auth.userId)
    else auth
  }

  /** A caller who passes a gate also passes every lower one. */
  lemma RequireAuthorityMonotone(s: Session, lower: int, higher: int)
    requires lower <= higher
    requires RequireAuthority(s, higher).Passed()
    ensures RequireAuthority(s, lower).Passed()
    ensures RequireAuthority(s, lower).userId == RequireAuthority(s, higher).userId
  {
  }

  /** Authentication is checked before authority: a missing user id is always 401, never 403. */
  lemma AuthenticationFirst(s: Session, minimumLevel: int, resourceUserId: int)
    requires s.userId.None?
    ensures RequireAuthority(s, minimumLevel).error == Some(Unauthorized)
    ensures RequireAuthAndOwnership(s, resourceUserId).error == Some(Unauthorized)
  {
  }

  /** A session without an authority level is treated as level 1. */
  lemma MissingLevelIsLevelOne(id: int)
    ensures RequireAuthority(Session(Some(id), None), 1).Passed()
    ensures !RequireAuthority(Session(Some(id), None), 2).Passed()
  {
  }
}
