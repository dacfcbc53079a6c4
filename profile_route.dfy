/**
 * The current-user profile route: the update schema, the email-change
 * rejection, the fields an update writes and the audit entry that follows.
 * The user table and the audit log are the fields of `ProfileStore`; the
 * zod `.email()` and `.url()` checks are the parameters `isEmail` and
 * `isUrl`. Lengths are JavaScript string lengths (UTF-16 code units).
 */
module ProfileRoute {
  import opened Wrappers
  import opened Text
  import opened Json
  import Zod

  datatype UserRecord = UserRecord(
    id: string, email: string, name: Option<string>, image: Option<string>, bio: Option<string>,
    department: Option<string>, position: Option<string>, phoneNumber: Option<string>, role: string)

  /** A body that passed `ProfileUpdateSchema`. */
  datatype ProfileInput = ProfileInput(
    name: Option<string>, email: Option<string>, image: Option<string>, bio: Option<string>,
    department: Option<string>, position: Option<string>, phoneNumber: Option<string>)

  datatype AuditEntry = AuditEntry(
    tenantId: string, userId: string, action: string, entity: string, entityId: string, changes: ProfileInput)

  datatype Response = Ok(data: UserRecord) | NotFound | Forbidden | BadRequest(issues: seq<string>) | ServerError

  /** An optional string field with a check on its value. */
  function OptString(body: map<string, Json>, key: string, check: string -> bool): (r: Result<Option<string>, string>)
    ensures r.Success? <==> key !in body || (body[key].JStr? && check(body[key].s))
    ensures r.Success? ==> r.value == if key in body then Some(body[key].s) else None
  {
    if key !in body then Success(None)
    else if body[key].JStr? && check(body[key].s) then Success(Some(body[key].s))
    else Failure(key)
  }

  /** The length bounds of the schema. */
  predicate NameOk(s: string) { 1 <= Utf16Length(s) <= 255 }
  predicate BioOk(s: string) { Utf16Length(s) <= 500 }
  predicate ShortOk(s: string) { Utf16Length(s) <= 100 }
  predicate PhoneOk(s: string) { Utf16Length(s) <= 20 }

  /** Whether a supplied field satisfies its bound. */
  predicate Within(v: Option<string>, ok: string -> bool) {
    v.None? || ok(v.value)
  }

  /** The keys of the schema, in its order. */
  const ProfileKeys: seq<string> := ["name", "email", "image", "bio", "department", "position", "phoneNumber"]

  /** The outcome of each field's check, in the order of `ProfileKeys`. */
  function FieldChecks(m: map<string, Json>, isEmail: string -> bool, isUrl: string -> bool): (ok: seq<bool>)
    ensures |ok| == |ProfileKeys|
  {
    [OptString(m, "name", NameOk).Success?, OptString(m, "email", isEmail).Success?,
     OptString(m, "image", isUrl).Success?, OptString(m, "bio", BioOk).Success?,
     OptString(m, "department", ShortOk).Success?, OptString(m, "position", ShortOk).Success?,
     OptString(m, "phoneNumber", PhoneOk).Success?]
  }

  /** `ProfileUpdateSchema.parse`: a failure lists every offending field, or `body` when the body is not an object. */
  function ParseProfileUpdate(body: Json, isEmail: string -> bool, isUrl: string -> bool): (r: Result<ProfileInput, seq<string>>)
    ensures r.Success? <==> body.JObj? && forall j :: 0 <= j < |ProfileKeys| ==> FieldChecks(body.fields, isEmail, isUrl)[j]
    ensures r.Failure? ==> r.error == (if body.JObj? then Zod.Issues(ProfileKeys, FieldChecks(body.fields, isEmail, isUrl)) else ["body"])
    ensures r.Success? ==> var p := r.value;
      && Within(p.name, NameOk) && Within(p.bio, BioOk) && Within(p.department, ShortOk)
      && Within(p.position, ShortOk) && Within(p.phoneNumber, PhoneOk)
      && Within(p.email, isEmail) && Within(p.image, isUrl)
  {
    if !body.JObj? then Failure(["body"])
    else if Zod.Issues(ProfileKeys, FieldChecks(body.fields, isEmail, isUrl)) != [] then
      Failure(Zod.Issues(ProfileKeys, FieldChecks(body.fields, isEmail, isUrl)))
    else
      var m := body.fields;
      var ok := FieldChecks(m, isEmail, isUrl);
      assert ok[0] && ok[1] && ok[2] && ok[3] && ok[4] && ok[5] && ok[6];
      Success(ProfileInput(OptString(m, "name", NameOk).value, OptString(m, "email", isEmail).value,
        OptString(m, "image", isUrl).value, OptString(m, "bio", BioOk).value,
        OptString(m, "department", ShortOk).value, OptString(m, "position", ShortOk).value,
        OptString(m, "phoneNumber", PhoneOk).value))
  }

  /** Whether the input asks for a different email: `input.email && input.email !== user.email`. */
  predicate ChangesEmail(input: ProfileInput, currentEmail: string) {
    input.email.Some? && input.email.value != "" && input.email.value != currentEmail
  }

  /** The update: each supplied field overwrites, an absent one (undefined) leaves the column. */
  function ApplyUpdate(u: UserRecord, input: ProfileInput): (r: UserRecord)
    ensures r.id == u.id && r.email == u.email && r.role == u.role
    ensures r.name == (if input.name.Some? then input.name else u.name)
    ensures r.image == (if input.image.Some? then input.image else u.image)
    ensures r.bio == (if input.bio.Some? then input.bio else u.bio)
    ensures r.department == (if input.department.Some? then input.department else u.department)
    ensures r.position == (if input.position.Some? then input.position else u.position)
    ensures r.phoneNumber == (if input.phoneNumber.Some? then input.phoneNumber else u.phoneNumber)
  {
    u.(name := if input.name.Some? then input.name else u.name,
       image := if input.image.Some? then input.image else u.image,
       bio := if input.bio.Some? then input.bio else u.bio,
       department := if input.department.Some? then input.department else u.department,
       position := if input.position.Some? then input.position else u.position,
       phoneNumber := if input.phoneNumber.Some? then input.phoneNumber else u.phoneNumber)
  }

  /** An empty update writes nothing, and applying the same update twice is applying it once. */
  lemma ApplyUpdateIdempotent(u: UserRecord, input: ProfileInput)
    ensures ApplyUpdate(ApplyUpdate(u, input), input) == ApplyUpdate(u, input)
    ensures ApplyUpdate(u, ProfileInput(None, input.email, None, None, None, None, None)) == u
  {
  }

  class ProfileStore {
    var users: map<string, UserRecord>
    var audit: seq<AuditEntry>

    constructor(users: map<string, UserRecord>)
      ensures this.users == users && audit == []
    {
      this.users := users;
      audit := [];
    }

    /** GET: the caller's row, not found, or a server error when the lookup throws. */
    function Get(userId: string, dbFails: bool): (r: Response)
      reads this
      ensures r == ServerError <==> dbFails
      ensures r.Ok? <==> !dbFails && userId in users
      ensures r.Ok? ==> r.data == users[userId]
      ensures r == NotFound <==> !dbFails && userId !in users
    {
      if dbFails then ServerError
      else if userId in users then Ok(users[userId]) else NotFound
    }

    /**
     * PUT: an unreadable body is a server error, a schema failure a bad
     * request, and a different email forbidden, each with nothing written;
     * otherwise the row is updated (a missing row, or a database error,
     * makes the update throw) and an audit entry with the parsed input is
     * appended. The audit call is awaited inside the same `try`, so when it
     * throws the answer is a server error with the row already written.
     */
    method Put(userId: string, userEmail: string, tenantId: string, body: Option<Json>,
               isEmail: string -> bool, isUrl: string -> bool, updateFails: bool, auditFails: bool)
      returns (r: Response)
      modifies this
      ensures body.None? ==> r == ServerError && users == old(users) && audit == old(audit)
      ensures body.Some? && ParseProfileUpdate(body.value, isEmail, isUrl).Failure? ==>
        r == BadRequest(ParseProfileUpdate(body.value, isEmail, isUrl).error) && users == old(users) && audit == old(audit)
      ensures body.Some? && ParseProfileUpdate(body.value, isEmail, isUrl).Success? ==>
        var input := ParseProfileUpdate(body.value, isEmail, isUrl).value;
        if ChangesEmail(input, userEmail) then r == Forbidden && users == old(users) && audit == old(audit)
        else if userId !in old(users) || updateFails then r == ServerError && users == old(users) && audit == old(audit)
        else
          && users == old(users)[userId := ApplyUpdate(old(users)[userId], input)]
          && audit == old(audit) + (if auditFails then [] else [AuditEntry(tenantId, userId, "PROFILE_UPDATED", "User", userId, input)])
          && r == (if auditFails then ServerError else Ok(users[userId]))
    {
      if body.None? {
        return ServerError;
      }
      var parsed := ParseProfileUpdate(body.value, isEmail, isUrl);
      if parsed.Failure? {
        return BadRequest(parsed.error);
      }
      var input := parsed.value;
      if ChangesEmail(input, userEmail) {
        return Forbidden;
      }
      if userId !in users || updateFails {
        return ServerError;
      }
      var updated := ApplyUpdate(users[userId], input);
      users := users[userId := updated];
      if auditFails {
        return ServerError;
      }
      audit := audit + [AuditEntry(tenantId, userId, "PROFILE_UPDATED", "User", userId, input)];
      r := Ok(updated);
    }
  }

  /** An update never touches the email or the role of any row. */
  lemma UpdateKeepsEmailAndRole(users: map<string, UserRecord>, userId: string, input: ProfileInput, id: string)
    requires userId in users && id in users
    ensures var after := users[userId := ApplyUpdate(users[userId], input)];
      id in after && after[id].email == users[id].email && after[id].role == users[id].role
  {
  }
}
