/**
 * The per-user second-factor records the security routes write: the TOTP
 * secret and backup codes kept by the MFA library, the `twoFactorEnabled`
 * flag of the user's profile row, and the audit log. Each method is one
 * library or database call and changes only its own field.
 */
module MfaRecords {
  import opened Wrappers
  import opened RouteEnv
  import Csrf

  datatype SecurityAudit = SecurityAudit(action: string, actorId: string, targetId: string)

  /** What the security routes answer. */
  datatype SecurityResponse =
    | Forbidden
    | RateLimited
    | Unauthorized
    | NotFound
    | BadRequest(reason: string)
    | ServerError
    | Done(message: Option<string>)
    | Enrolled(secret: string, uri: string, backupCodes: seq<string>)

  /** The guards the security handlers run before touching any record: context, origin, rate limit; None when they all pass. */
  function Guard(ctx: Option<TenantContext>, req: Request, csrfLoads: bool,
                 parseUrl: string -> Option<Csrf.UrlParts>, limiter: RateRule -> RateOutcome, rule: RateRule): (r: Option<SecurityResponse>)
    ensures ctx.None? ==> r == Some(ServerError)
    ensures ctx.Some? && CrossOriginRefused(req, csrfLoads, parseUrl) ==> r == Some(Forbidden)
    ensures ctx.Some? && !CrossOriginRefused(req, csrfLoads, parseUrl) ==>
      (r == Some(RateLimited) <==> limiter(rule) == Denied) && (r.None? <==> limiter(rule) != Denied)
  {
    if ctx.None? then Some(ServerError)
    else if CrossOriginRefused(req, csrfLoads, parseUrl) then Some(Forbidden)
    else if limiter(rule) == Denied then Some(RateLimited)
    else None
  }

  class MfaStore {
    var secrets: map<string, string>
    var backupCodes: map<string, seq<string>>
    /** The profile rows by user id: the value is `twoFactorEnabled`. */
    var profiles: map<string, bool>
    var audit: seq<SecurityAudit>

    constructor(profiles: map<string, bool>)
      ensures secrets == map[] && backupCodes == map[] && this.profiles == profiles && audit == []
    {
      secrets := map[];
      backupCodes := map[];
      this.profiles := profiles;
      audit := [];
    }

    /** `setUserMfaSecret`. */
    method SetSecret(userId: string, secret: string)
      modifies this
      ensures secrets == old(secrets)[userId := secret]
      ensures unchanged(this`backupCodes, this`profiles, this`audit)
    {
      secrets := secrets[userId := secret];
    }

    /** `generateBackupCodes`: the generated codes replace the user's old ones and are returned. */
    method StoreBackupCodes(userId: string, codes: seq<string>) returns (stored: seq<string>)
      modifies this
      ensures stored == codes && backupCodes == old(backupCodes)[userId := codes]
      ensures unchanged(this`secrets, this`profiles, this`audit)
    {
      backupCodes := backupCodes[userId := codes];
      stored := codes;
    }

    /** `clearUserMfa`: the secret and the backup codes are gone, unless the call fails and changes nothing. */
    method ClearMfa(userId: string, fails: bool)
      modifies this
      ensures fails ==> unchanged(this`secrets, this`backupCodes)
      ensures !fails ==> secrets == old(secrets) - {userId} && backupCodes == old(backupCodes) - {userId}
      ensures unchanged(this`profiles, this`audit)
    {
      if !fails {
        secrets := secrets - {userId};
        backupCodes := backupCodes - {userId};
      }
    }

    /** An upsert whose update part is empty: a missing row is created disabled, an existing flag stays. */
    method EnsureProfile(userId: string)
      modifies this
      ensures profiles == old(profiles)[userId := if userId in old(profiles) then old(profiles)[userId] else false]
      ensures unchanged(this`secrets, this`backupCodes, this`audit)
    {
      if userId !in profiles {
        profiles := profiles[userId := false];
      }
    }

    /** An upsert that creates or updates the row with `twoFactorEnabled: false`. */
    method ForceDisabled(userId: string)
      modifies this
      ensures profiles == old(profiles)[userId := false]
      ensures unchanged(this`secrets, this`backupCodes, this`audit)
    {
      profiles := profiles[userId := false];
    }

    /** `logAudit` inside `try {} catch {}`: a failing call leaves the log as it was. */
    method Log(entry: SecurityAudit, fails: bool)
      modifies this
      ensures audit == old(audit) + (if fails then [] else [entry])
      ensures unchanged(this`secrets, this`backupCodes, this`profiles)
    {
      if !fails {
        audit := audit + [entry];
      }
    }
  }
}
