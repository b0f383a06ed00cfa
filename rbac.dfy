/** The role gate `authorize(requiredRoles)` (src/middleware/rbac.ts). */
module Rbac {
  import opened Common
  import opened Models
  import opened Http

  const AUTH_REQUIRED: string := "Authentication required."
  const ACCESS_DENIED: string := "Access denied: Insufficient privileges."

  /** A middleware's decision: go on to `next`, or stop with a response. */
  datatype Gate = Proceed | Halt(response: Response)

  /** The closure `authorize(required)` returns, applied to `req.user`. */
  function Authorize(required: seq<Role>, user: Option<Claims>): (g: Gate)
    ensures user.None? <==> g == Halt(Response(401, Msg(AUTH_REQUIRED)))
    ensures user.Some? ==> (g == Proceed <==> user.value.role in required)
    ensures user.Some? && user.value.role !in required ==> g == Halt(Response(403, Msg(ACCESS_DENIED)))
  {
    if user.None? then Halt(Response(401, Msg(AUTH_REQUIRED)))
    else if user.value.role !in required then Halt(Response(403, Msg(ACCESS_DENIED)))
    else Proceed
  }

  /** The decision reads the role and never the user id. */
  lemma RoleAloneDecides(required: seq<Role>, a: Claims, b: Claims)
    requires a.role == b.role
    ensures Authorize(required, Some(a)) == Authorize(required, Some(b))
  {
  }

  /** A longer list of roles lets through everyone a shorter one does. */
  lemma WiderListAdmitsMore(narrow: seq<Role>, wide: seq<Role>, user: Option<Claims>)
    requires forall r :: r in narrow ==> r in wide
    ensures Authorize(narrow, user) == Proceed ==> Authorize(wide, user) == Proceed
  {
  }
}
