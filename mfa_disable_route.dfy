/**
 * The sign-in flow's MFA disable route. Unlike the settings routes it checks
 * for a user id and for the user's row, has no same-origin check, and
 * leaves the profile's `twoFactorEnabled` flag alone.
 */
module MfaDisableRoute {
  import opened Wrappers
  import opened RouteEnv
  import opened MfaRecords

  /** Five attempts per hour per client address. */
  function Rule(ip: string): RateRule {
    RateRule("user:mfa:disable:" + ip, 5, HourMs)
  }

  /** `ctx.userId ?? undefined` tested for truthiness. */
  predicate HasUserId(ctx: TenantContext) {
    ctx.userId.Some? && ctx.userId.value != ""
  }

  /**
   * POST: no context is a server error, no user id unauthorized, a limiter
   * denial 429; without a database a plain ok; a user lookup that throws a
   * server error ('Failed to disable MFA') with nothing written; an unknown
   * user not found; otherwise the MFA records are cleared (a failing clear is
   * only logged) and the change is audited.
   */
  method Post(store: MfaStore, ctx: Option<TenantContext>, req: Request, limiter: RateRule -> RateOutcome,
              env: Env, users: set<string>, lookupFails: bool, clearFails: bool, auditFails: bool)
    returns (r: SecurityResponse)
    modifies store
    ensures ctx.None? ==> r == ServerError && unchanged(store)
    ensures ctx.Some? && !HasUserId(ctx.value) ==> r == Unauthorized && unchanged(store)
    ensures ctx.Some? && HasUserId(ctx.value) ==>
      var uid := ctx.value.userId.value;
      if limiter(Rule(req.ip)) == Denied then r == RateLimited && unchanged(store)
      else if !HasDb(env) then r == Done(Some("MFA disabled")) && unchanged(store)
      else if lookupFails then r == ServerError && unchanged(store)
      else if uid !in users then r == NotFound && unchanged(store)
      else
        && r == Done(Some("Two-factor authentication disabled"))
        && store.secrets == (if clearFails then old(store.secrets) else old(store.secrets) - {uid})
        && store.backupCodes == (if clearFails then old(store.backupCodes) else old(store.backupCodes) - {uid})
        && store.profiles == old(store.profiles)
        && store.audit == old(store.audit) + (if auditFails then [] else [SecurityAudit("mfa.disable", uid, uid)])
  {
    if ctx.None? {
      return ServerError;
    }
    if !HasUserId(ctx.value) {
      return Unauthorized;
    }
    var uid := ctx.value.userId.value;
    if limiter(Rule(req.ip)) == Denied {
      return RateLimited;
    }
    if !HasDb(env) {
      return Done(Some("MFA disabled"));
    }
    if lookupFails {
      return ServerError;
    }
    if uid !in users {
      return NotFound;
    }
    store.ClearMfa(uid, clearFails);
    store.Log(SecurityAudit("mfa.disable", uid, uid), auditFails);
    r := Done(Some("Two-factor authentication disabled"));
  }
}
