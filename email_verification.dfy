/**
 * The email verification request route. The regular expression
 * `^[^\s@]+@[^\s@]+\.[^\s@]+$` is stated declaratively (`MatchesPattern`)
 * and checked by `CheckEmail`; the handler is a chain of early returns ending
 * in an audit entry and an optional mail. The rate limiter, the database,
 * the clock, the random token and the failures of the two lookups and of
 * the audit and mail calls are inputs; the audit log and the sent mail are the fields of
 * `VerificationService`. Environment variables are strings, "" when unset.
 */
module EmailVerification {
  import opened Wrappers
  import opened Text
  import opened Json
  import opened RouteEnv

  /** The token lifetime: 24 hours in milliseconds. */
  const TokenExpiry: int := 24 * 60 * 60 * 1000

  /** The class `[^\s@]`. */
  predicate PlainChar(c: char) {
    !IsWhitespace(c) && c != '@'
  }

  /**
   * What the pattern accepts: one '@' after a non-empty local part, a '.'
   * with at least one character on each side in the domain, and otherwise
   * only characters of `[^\s@]`.
   */
  predicate MatchesPattern(e: string) {
    exists i, j :: 0 < i && i + 1 < j && j + 1 < |e| && e[i] == '@' && e[j] == '.'
      && (forall k :: 0 <= k < |e| && k != i ==> PlainChar(e[k]))
  }

  /** The test as a check: the first '@' is not first, no other '@' follows, no whitespace, an inner dot in the domain. */
  function CheckEmail(e: string): bool {
    var at := IndexOf(e, '@');
    && 0 < at && at + 3 <= |e|
    && (forall k :: 0 <= k < |e| ==> !IsWhitespace(e[k]))
    && '@' !in e[at + 1..]
    && '.' in e[at + 2..|e| - 1]
  }

  /** The check accepts exactly what the pattern matches. */
  lemma CheckEmailIff(e: string)
    ensures CheckEmail(e) <==> MatchesPattern(e)
  {
    if MatchesPattern(e) {
      PatternPassesCheck(e);
    }
    if CheckEmail(e) {
      CheckedMatchesPattern(e);
    }
  }

  lemma PatternPassesCheck(e: string)
    requires MatchesPattern(e)
    ensures CheckEmail(e)
  {
    var at := IndexOf(e, '@');
    var i, j :| 0 < i && i + 1 < j && j + 1 < |e| && e[i] == '@' && e[j] == '.'
      && (forall k :: 0 <= k < |e| && k != i ==> PlainChar(e[k]));
    assert '@' in e;
    assert at == i by {
      assert !PlainChar(e[at]);
    }
    forall k | 0 <= k < |e|
      ensures !IsWhitespace(e[k])
    {
      if k != i {
        assert PlainChar(e[k]);
      }
    }
    var tail := e[at + 1..];
    forall m | 0 <= m < |tail|
      ensures tail[m] != '@'
    {
      assert tail[m] == e[at + 1 + m];
      assert PlainChar(e[at + 1 + m]);
    }
    assert e[at + 2..|e| - 1][j - at - 2] == '.';
  }

  lemma CheckedMatchesPattern(e: string)
    requires CheckEmail(e)
    ensures MatchesPattern(e)
  {
    var at := IndexOf(e, '@');
    var d := e[at + 2..|e| - 1];
    var m :| 0 <= m < |d| && d[m] == '.';
    var j := at + 2 + m;
    assert e[j] == '.';
    forall k | 0 <= k < |e| && k != at
      ensures PlainChar(e[k])
    {
      if k < at {
        assert e[k] in e[..at];
      } else {
        assert e[k] == e[at + 1..][k - at - 1];
      }
    }
    assert 0 < at && at + 1 < j && j + 1 < |e| && e[at] == '@' && e[j] == '.';
  }

  /** The empty string, a missing domain dot and a second '@' are all refused. */
  lemma PatternExamples()
    ensures !MatchesPattern("")
    ensures !MatchesPattern("a@b")
    ensures !MatchesPattern("a@b@c.d")
  {
    CheckEmailIff("a@b");
    CheckEmailIff("a@b@c.d");
    assert IndexOf("a@b@c.d", '@') == 1;
    assert "a@b@c.d"[2..][1] == '@';
  }

  /** What `body.email?.trim()` yields: nothing, a TypeError, or the trimmed string. */
  datatype EmailField = Missing | Throws | Given(email: string)

  /**
   * A null body throws on `.email`; any other non-object has no `email`;
   * a null or missing `email` is undefined; a non-string one has no `trim`.
   */
  function ReadEmail(body: Json): (r: EmailField)
    ensures r.Given? <==> body.JObj? && "email" in body.fields && body.fields["email"].JStr?
    ensures r.Given? ==> r.email == Trim(body.fields["email"].s)
    ensures r.Throws? <==> (body.JNull? || (body.JObj? && "email" in body.fields
      && !body.fields["email"].JStr? && !body.fields["email"].JNull?))
  {
    if body.JNull? then Throws
    else if !body.JObj? || "email" !in body.fields || body.fields["email"].JNull? then Missing
    else if body.fields["email"].JStr? then Given(Trim(body.fields["email"].s))
    else Throws
  }

  /** Five requests per hour per client address. */
  function Rule(ip: string): RateRule {
    RateRule("user:verify:email:" + ip, 5, HourMs)
  }

  datatype UserRow = UserRow(email: string, tenantId: string)

  datatype VerifyAudit = VerifyAudit(action: string, actorId: string, targetId: string, email: string, tokenExpiry: int)

  datatype Mail = Mail(to: string, token: string)

  datatype Response =
    | RateLimited
    | InvalidEmail
    | Simulated
    | UserNotFound
    | EmailInUse
    | Sent(token: Option<string>)
    | ServerError

  class VerificationService {
    var audit: seq<VerifyAudit>
    var outbox: seq<Mail>

    constructor()
      ensures audit == [] && outbox == []
    {
      audit := [];
      outbox := [];
    }

    /**
     * POST. `userId` is None when there is no tenant context; `ownerOf`
     * answers the tenant-and-email lookup with the owning user's id.
     */
    method Post(userId: Option<string>, req: Request, limiter: RateRule -> RateOutcome, body: Option<Json>, env: Env,
                users: map<string, UserRow>, ownerOf: (string, string) -> Option<string>,
                now: int, token: string, lookups: Lookups, auditFails: bool, mailFails: bool) returns (r: Response)
      modifies this
      ensures !r.Sent? ==> audit == old(audit) && outbox == old(outbox)
      ensures userId.None? ==> r == ServerError
      ensures userId.Some? && limiter(Rule(req.ip)) == Denied ==> r == RateLimited
      ensures userId.Some? && limiter(Rule(req.ip)) != Denied ==>
        var field := ReadEmail(BodyOrEmpty(body));
        && (field.Throws? ==> r == ServerError)
        && (!field.Throws? ==> (r == InvalidEmail <==> !field.Given? || !MatchesPattern(field.email)))
        && (field.Given? && MatchesPattern(field.email) ==>
             && IssueResponse(r, userId.value, field.email, env, users, ownerOf, token, lookups)
             && (r.Sent? ==> Recorded(audit, outbox, old(audit), old(outbox), userId.value, field.email, env, now, token, auditFails, mailFails)))
    {
      if userId.None? {
        return ServerError;
      }
      var uid := userId.value;
      if limiter(Rule(req.ip)) == Denied {
        return RateLimited;
      }
      var field := ReadEmail(BodyOrEmpty(body));
      if field.Throws? {
        return ServerError;
      }
      if !field.Given? || !CheckEmail(field.email) {
        CheckEmailIff(if field.Given? then field.email else "");
        return InvalidEmail;
      }
      CheckEmailIff(field.email);
      r := Issue(uid, field.email, env, users, ownerOf, now, token, lookups, auditFails, mailFails);
    }

    /** The database half of POST, for a well-formed address. */
    method Issue(uid: string, e: string, env: Env, users: map<string, UserRow>, ownerOf: (string, string) -> Option<string>,
                 now: int, token: string, lookups: Lookups, auditFails: bool, mailFails: bool) returns (r: Response)
      modifies this
      ensures !r.Sent? ==> audit == old(audit) && outbox == old(outbox)
      ensures IssueResponse(r, uid, e, env, users, ownerOf, token, lookups)
      ensures r.Sent? ==> Recorded(audit, outbox, old(audit), old(outbox), uid, e, env, now, token, auditFails, mailFails)
    {
      if !HasDb(env) {
        return Simulated;
      }
      if lookups == UserLookupThrows {
        return ServerError;
      }
      if uid !in users {
        return UserNotFound;
      }
      if lookups == EmailLookupThrows {
        return ServerError;
      }
      var existing := ownerOf(users[uid].tenantId, e);
      if existing.Some? && existing.value != uid {
        return EmailInUse;
      }
      var expiresAt := now + TokenExpiry;
      if !auditFails {
        audit := audit + [VerifyAudit("user.email.verify.request", uid, uid, e, expiresAt)];
      }
      if env.smtpHost != "" && !mailFails {
        outbox := outbox + [Mail(e, token)];
      }
      r := Sent(if env.nodeEnv == "development" then Some(token) else None);
    }
  }

  /**
   * Whether one of the two awaited lookups throws: the user by id, or the
   * tenant-and-email lookup, which runs only once the user is found.
   */
  datatype Lookups = LookupsSucceed | UserLookupThrows | EmailLookupThrows

  /**
   * The answer for a well-formed address: simulated without a database,
   * then a server error ('Failed to send verification email') if the user
   * lookup throws, user not found, a server error if the email lookup
   * throws, in use by another user of the tenant, else sent, with the token
   * echoed only in development.
   */
  predicate IssueResponse(r: Response, uid: string, e: string, env: Env, users: map<string, UserRow>,
                          ownerOf: (string, string) -> Option<string>, token: string, lookups: Lookups) {
    if !HasDb(env) then r == Simulated
    else if lookups == UserLookupThrows then r == ServerError
    else if uid !in users then r == UserNotFound
    else if lookups == EmailLookupThrows then r == ServerError
    else if ownerOf(users[uid].tenantId, e).Some? && ownerOf(users[uid].tenantId, e).value != uid then r == EmailInUse
    else r == Sent(if env.nodeEnv == "development" then Some(token) else None)
  }

  /** A sent request appends its audit entry unless that call fails, and its mail when SMTP is set and works. */
  predicate Recorded(audit: seq<VerifyAudit>, outbox: seq<Mail>, audit0: seq<VerifyAudit>, outbox0: seq<Mail>,
                     uid: string, e: string, env: Env, now: int, token: string, auditFails: bool, mailFails: bool) {
    && audit == audit0 + (if auditFails then [] else [VerifyAudit("user.email.verify.request", uid, uid, e, now + TokenExpiry)])
    && outbox == outbox0 + (if env.smtpHost != "" && !mailFails then [Mail(e, token)] else [])
  }
}
