/**
 * What the API route handlers share: the request as the guards see it, the
 * environment variables, the rate limiter's answer and the body fallback.
 * The limiter (`applyRateLimit`) is a function of the rule it is asked
 * about; an exception from it (or from loading it) is `LimiterFailed`, which
 * the handlers ignore.
 */
module RouteEnv {
  import opened Wrappers
  import opened Json
  import Csrf

  const HourMs: nat := 3_600_000
  const DayMs: nat := 86_400_000

  /** A rate-limit rule: the key, the number of requests and the window. */
  datatype RateRule = RateRule(key: string, limit: nat, windowMs: nat)

  datatype RateOutcome = Allowed | Denied | LimiterFailed

  /** The request fields the guards read; `ip` is `getClientIp(request)`. */
  datatype Request = Request(url: string, origin: Option<string>, ip: string)

  /** Environment variables, "" when unset. */
  datatype Env = Env(netlifyDatabaseUrl: string, databaseUrl: string, smtpHost: string, nodeEnv: string)

  /** `Boolean(NETLIFY_DATABASE_URL || DATABASE_URL)`. */
  predicate HasDb(env: Env) {
    env.netlifyDatabaseUrl != "" || env.databaseUrl != ""
  }

  /**
   * The CSRF guard: it refuses only when the check module loads and reports
   * a foreign origin; a failure to load it skips the check.
   */
  predicate CrossOriginRefused(req: Request, csrfLoads: bool, parseUrl: string -> Option<Csrf.UrlParts>) {
    csrfLoads && !Csrf.IsSameOrigin(req.url, req.origin, parseUrl)
  }

  /** A request whose Origin header is missing passes the guard whenever its own URL parses. */
  lemma NoOriginPasses(req: Request, csrfLoads: bool, parseUrl: string -> Option<Csrf.UrlParts>)
    requires req.origin.None? && parseUrl(req.url).Some?
    ensures !CrossOriginRefused(req, csrfLoads, parseUrl)
  {
  }

  /** `request.json().catch(() => ({}))`: a body that cannot be parsed is `{}`. */
  function BodyOrEmpty(body: Option<Json>): (r: Json)
    ensures body.Some? ==> r == body.value
    ensures body.None? ==> r == JObj(map[])
  {
    if body.Some? then body.value else JObj(map[])
  }

  /** The tenant context of a request; `requireTenantContext` throws where there is none. */
  datatype TenantContext = TenantContext(userId: Option<string>)

  /** `String(ctx.userId)`: an absent id becomes the string "undefined". */
  function IdString(userId: Option<string>): (s: string)
    ensures userId.Some? ==> s == userId.value
    ensures userId.None? ==> s == "undefined"
  {
    if userId.Some? then userId.value else "undefined"
  }
}
