/**
 * The two-factor toggle route. It can only switch the second factor off:
 * asking to enable it is refused with a pointer to the enrolment flow, and
 * any other body, including none at all, takes the disable path.
 */
module TwoFactorRoute {
  import opened Wrappers
  import opened Json
  import opened RouteEnv
  import opened MfaRecords
  import Csrf

  /** Ten toggles per hour per client address. */
  function Rule(ip: string): RateRule {
    RateRule("user:security:2fa:" + ip, 10, HourMs)
  }

  const EnrolFirst: string := "Use POST /api/user/security/authenticator to enroll then verify via /api/auth/mfa/verify"

  /** `body.enable === true`: only the boolean true counts. */
  predicate AsksToEnable(body: Json) {
    body.JObj? && "enable" in body.fields && body.fields["enable"] == JBool(true)
  }

  /**
   * POST: after the guards, without a database a plain ok before the body is
   * read; a null body throws on `.enable`; an enable request is refused;
   * otherwise the MFA records are cleared (a failing clear is ignored), the
   * flag is forced off and the change is audited. An upsert that throws gives
   * a server error ('Failed to toggle 2FA') after the clear.
   */
  method Post(store: MfaStore, ctx: Option<TenantContext>, req: Request, csrfLoads: bool,
              parseUrl: string -> Option<Csrf.UrlParts>, limiter: RateRule -> RateOutcome, env: Env,
              body: Option<Json>, clearFails: bool, upsertFails: bool, auditFails: bool)
    returns (r: SecurityResponse)
    modifies store
    ensures Guard(ctx, req, csrfLoads, parseUrl, limiter, Rule(req.ip)).Some? ==>
      r == Guard(ctx, req, csrfLoads, parseUrl, limiter, Rule(req.ip)).value && unchanged(store)
    ensures Guard(ctx, req, csrfLoads, parseUrl, limiter, Rule(req.ip)).None? && !HasDb(env) ==>
      r == Done(None) && unchanged(store)
    ensures Guard(ctx, req, csrfLoads, parseUrl, limiter, Rule(req.ip)).None? && HasDb(env) ==>
      var b := BodyOrEmpty(body);
      var uid := IdString(ctx.value.userId);
      && (b.JNull? ==> r == ServerError && unchanged(store))
      && (AsksToEnable(b) ==> r == BadRequest(EnrolFirst) && unchanged(store))
      && (!b.JNull? && !AsksToEnable(b) ==>
           && r == (if upsertFails then ServerError else Done(None))
           && store.secrets == (if clearFails then old(store.secrets) else old(store.secrets) - {uid})
           && store.backupCodes == (if clearFails then old(store.backupCodes) else old(store.backupCodes) - {uid})
           && store.profiles == (if upsertFails then old(store.profiles) else old(store.profiles)[uid := false])
           && store.audit == old(store.audit) + (if upsertFails || auditFails then [] else [SecurityAudit("mfa.disable", uid, uid)]))
  {
    var guard := Guard(ctx, req, csrfLoads, parseUrl, limiter, Rule(req.ip));
    if guard.Some? {
      return guard.value;
    }
    if !HasDb(env) {
      return Done(None);
    }
    var b := BodyOrEmpty(body);
    if b.JNull? {
      return ServerError;
    }
    if AsksToEnable(b) {
      return BadRequest(EnrolFirst);
    }
    var uid := IdString(ctx.value.userId);
    store.ClearMfa(uid, clearFails);
    if upsertFails {
      return ServerError;
    }
    store.ForceDisabled(uid);
    store.Log(SecurityAudit("mfa.disable", uid, uid), auditFails);
    r := Done(None);
  }

  /** A missing body, `enable: false` and a non-boolean `enable` all take the disable path. */
  lemma OnlyTrueEnables(v: Json)
    ensures !AsksToEnable(BodyOrEmpty(None))
    ensures !AsksToEnable(JObj(map["enable" := JBool(false)]))
    ensures v != JBool(true) ==> !AsksToEnable(JObj(map["enable" := v]))
    ensures AsksToEnable(JObj(map["enable" := JBool(true)]))
  {
  }
}
