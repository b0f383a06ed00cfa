/** The rate limiters (src/middleware/rateLimit.ts) and the choice among
    them by role (src/middleware/roleBasedRateLimit.ts). Only their
    settings are modelled; the counting is done by express-rate-limit. */
module RateLimit {
  import opened Common
  import opened Models

  datatype Limiter = Limiter(windowMs: int, max: int, message: string)

  const WINDOW_MS: int := 15 * 60 * 1000
  const LOGIN_WINDOW_MS: int := 5 * 60 * 1000

  const GENERAL_MESSAGE: string := "{\"msg\":\"Too many requests, please try again after 15 minutes\",\"code\":429}"
  const SENSITIVE_MESSAGE: string := "{\"msg\":\"Too many requests to this endpoint, please try again after 15 minutes\",\"code\":429}"
  const LOGIN_MESSAGE: string := "{\"msg\":\"Too many login attempts from this IP, please try again after 5 minutes\",\"code\":429}"

  const ADMIN_LIMITER: Limiter := Limiter(WINDOW_MS, 500, GENERAL_MESSAGE)
  const MANAGER_LIMITER: Limiter := Limiter(WINDOW_MS, 250, GENERAL_MESSAGE)
  const USER_LIMITER: Limiter := Limiter(WINDOW_MS, 100, GENERAL_MESSAGE)
  const SENSITIVE_LIMITER: Limiter := Limiter(WINDOW_MS, 50, SENSITIVE_MESSAGE)
  const LOGIN_LIMITER: Limiter := Limiter(LOGIN_WINDOW_MS, 5, LOGIN_MESSAGE)

  /** `roleBasedRateLimiter`: a switch on `req.user?.role`. */
  function SelectLimiter(user: Option<Claims>): (l: Limiter)
    ensures user.Some? && user.value.role == Admin ==> l == ADMIN_LIMITER
    ensures user.Some? && user.value.role == Manager ==> l == MANAGER_LIMITER
    ensures user.None? || user.value.role == User ==> l == USER_LIMITER
    ensures l.windowMs == WINDOW_MS
  {
    if user.Some? && user.value.role == Admin then ADMIN_LIMITER
    else if user.Some? && user.value.role == Manager then MANAGER_LIMITER
    else USER_LIMITER
  }

  /** The role a caller has never lowers its allowance below that of a
      caller with a lesser role: Admin > Manager > User, and every
      role limiter is looser than the one on sensitive endpoints. */
  lemma AllowanceFollowsRole(a: Claims, b: Claims)
    requires a.role == Admin || (a.role == Manager && b.role != Admin) || b.role == User
    ensures SelectLimiter(Some(a)).max >= SelectLimiter(Some(b)).max
    ensures SelectLimiter(Some(a)).max > SENSITIVE_LIMITER.max
    ensures SelectLimiter(None) == SelectLimiter(Some(Claims(a.id, User)))
  {
  }
}
