/**
 * The authenticator enrolment route: POST creates a TOTP secret and backup
 * codes, DELETE removes them. Both run the same guards in the same order:
 * the tenant context, the same-origin check, the rate limit and the
 * database switch. The MFA library's generators are inputs.
 */
module AuthenticatorRoute {
  import opened Wrappers
  import opened RouteEnv
  import opened MfaRecords
  import Csrf

  /** Five enrolments per hour per client address. */
  function PostRule(ip: string): RateRule {
    RateRule("user:authenticator:post:" + ip, 5, HourMs)
  }

  /** Five removals per day per client address. */
  function DeleteRule(ip: string): RateRule {
    RateRule("user:authenticator:delete:" + ip, 5, DayMs)
  }

  /** The number of backup codes generated at enrolment. */
  const BackupCodeCount: nat := 5

  /**
   * Where an enrolment stops: it completes, or one of the three awaited calls
   * throws and the handler answers 'Failed to set up authenticator' with the
   * earlier writes already made.
   */
  datatype EnrolStep = Completes | SecretThrows | CodesThrow | ProfileThrows

  /** The answer without a database: a fixed test secret and no codes. */
  const TestEnrolment: SecurityResponse := Enrolled("TEST", "otpauth://totp/TEST?secret=TEST", [])

  /**
   * POST: after the guards, without a database the test enrolment; with one,
   * a generated secret and five backup codes are stored, the profile row is
   * created disabled if missing (an existing flag is left alone), and the
   * enrolment is audited. A call that throws ends the handler with a server
   * error and keeps the writes made before it.
   */
  method Post(store: MfaStore, ctx: Option<TenantContext>, req: Request, csrfLoads: bool,
              parseUrl: string -> Option<Csrf.UrlParts>, limiter: RateRule -> RateOutcome, env: Env,
              secret: string, uri: string, generateCodes: (string, nat) -> seq<string>,
              step: EnrolStep, auditFails: bool)
    returns (r: SecurityResponse)
    modifies store
    ensures Guard(ctx, req, csrfLoads, parseUrl, limiter, PostRule(req.ip)).Some? ==>
      r == Guard(ctx, req, csrfLoads, parseUrl, limiter, PostRule(req.ip)).value && unchanged(store)
    ensures Guard(ctx, req, csrfLoads, parseUrl, limiter, PostRule(req.ip)).None? && !HasDb(env) ==>
      r == TestEnrolment && unchanged(store)
    ensures Guard(ctx, req, csrfLoads, parseUrl, limiter, PostRule(req.ip)).None? && HasDb(env) ==>
      var uid := IdString(ctx.value.userId);
      var codes := generateCodes(uid, BackupCodeCount);
      && r == (if step == Completes then Enrolled(secret, uri, codes) else ServerError)
      && store.secrets == (if step == SecretThrows then old(store.secrets) else old(store.secrets)[uid := secret])
      && store.backupCodes == (if step == SecretThrows || step == CodesThrow then old(store.backupCodes)
                               else old(store.backupCodes)[uid := codes])
      && store.profiles == (if step != Completes then old(store.profiles)
                            else old(store.profiles)[uid := if uid in old(store.profiles) then old(store.profiles)[uid] else false])
      && store.audit == old(store.audit) + (if step != Completes || auditFails then [] else [SecurityAudit("mfa.enroll", uid, uid)])
  {
    var guard := Guard(ctx, req, csrfLoads, parseUrl, limiter, PostRule(req.ip));
    if guard.Some? {
      return guard.value;
    }
    if !HasDb(env) {
      return TestEnrolment;
    }
    var uid := IdString(ctx.value.userId);
    if step == SecretThrows {
      return ServerError;
    }
    store.SetSecret(uid, secret);
    if step == CodesThrow {
      return ServerError;
    }
    var codes := store.StoreBackupCodes(uid, generateCodes(uid, BackupCodeCount));
    if step == ProfileThrows {
      return ServerError;
    }
    store.EnsureProfile(uid);
    store.Log(SecurityAudit("mfa.enroll", uid, uid), auditFails);
    r := Enrolled(secret, uri, codes);
  }

  /**
   * DELETE: after the guards, without a database a plain ok; with one, the
   * MFA records are cleared (a failing clear is ignored), the profile flag is
   * forced off and the removal is audited. An upsert that throws gives a
   * server error ('Failed to remove authenticator') after the clear.
   */
  method Delete(store: MfaStore, ctx: Option<TenantContext>, req: Request, csrfLoads: bool,
                parseUrl: string -> Option<Csrf.UrlParts>, limiter: RateRule -> RateOutcome, env: Env,
                clearFails: bool, upsertFails: bool, auditFails: bool)
    returns (r: SecurityResponse)
    modifies store
    ensures Guard(ctx, req, csrfLoads, parseUrl, limiter, DeleteRule(req.ip)).Some? ==>
      r == Guard(ctx, req, csrfLoads, parseUrl, limiter, DeleteRule(req.ip)).value && unchanged(store)
    ensures Guard(ctx, req, csrfLoads, parseUrl, limiter, DeleteRule(req.ip)).None? && !HasDb(env) ==>
      r == Done(None) && unchanged(store)
    ensures Guard(ctx, req, csrfLoads, parseUrl, limiter, DeleteRule(req.ip)).None? && HasDb(env) ==>
      var uid := IdString(ctx.value.userId);
      && r == (if upsertFails then ServerError else Done(None))
      && store.secrets == (if clearFails then old(store.secrets) else old(store.secrets) - {uid})
      && store.backupCodes == (if clearFails then old(store.backupCodes) else old(store.backupCodes) - {uid})
      && store.profiles == (if upsertFails then old(store.profiles) else old(store.profiles)[uid := false])
      && store.audit == old(store.audit) + (if upsertFails || auditFails then [] else [SecurityAudit("mfa.remove", uid, uid)])
  {
    var guard := Guard(ctx, req, csrfLoads, parseUrl, limiter, DeleteRule(req.ip));
    if guard.Some? {
      return guard.value;
    }
    if !HasDb(env) {
      return Done(None);
    }
    var uid := IdString(ctx.value.userId);
    store.ClearMfa(uid, clearFails);
    if upsertFails {
      return ServerError;
    }
    store.ForceDisabled(uid);
    store.Log(SecurityAudit("mfa.remove", uid, uid), auditFails);
    r := Done(None);
  }

  /**
   * Enrolling and then removing leaves the user with no secret, no codes and
   * the flag off, whatever the flag was before.
   */
  method EnrollThenRemove(store: MfaStore, ctx: Option<TenantContext>, req: Request, csrfLoads: bool,
                          parseUrl: string -> Option<Csrf.UrlParts>, limiter: RateRule -> RateOutcome, env: Env,
                          secret: string, uri: string, generateCodes: (string, nat) -> seq<string>)
    returns (enrolled: SecurityResponse, removed: SecurityResponse)
    requires ctx.Some? && !CrossOriginRefused(req, csrfLoads, parseUrl) && HasDb(env)
    requires limiter(PostRule(req.ip)) != Denied && limiter(DeleteRule(req.ip)) != Denied
    modifies store
    ensures enrolled.Enrolled? && |store.audit| >= |old(store.audit)|
    ensures var uid := IdString(ctx.value.userId);
      && uid !in store.secrets && uid !in store.backupCodes && uid in store.profiles && !store.profiles[uid]
      && removed == Done(None)
  {
    enrolled := Post(store, ctx, req, csrfLoads, parseUrl, limiter, env, secret, uri, generateCodes, Completes, false);
    removed := Delete(store, ctx, req, csrfLoads, parseUrl, limiter, env, false, false, false);
  }
}
