/**
 * The notification preferences route: the update schema, the default
 * preferences returned when none are stored, the do-not-disturb range check
 * and the two handlers. The session, the stored preferences and the hub are
 * inputs; a PUT that passes every check is answered with the update it hands
 * to the hub.
 */
module NotificationPreferences {
  import opened Wrappers
  import opened Text
  import opened Json
  import Zod

  datatype Digest = Instant | Daily | Weekly | NoDigest

  /** A body that passed the schema; every field is optional and unknown keys are dropped. */
  datatype Preferences = Preferences(
    inAppEnabled: Option<bool>,
    emailEnabled: Option<bool>,
    smsEnabled: Option<bool>,
    emailDigest: Option<Digest>,
    doNotDisturb: Option<bool>,
    doNotDisturbStart: Option<string>,
    doNotDisturbEnd: Option<string>,
    types: Option<map<string, Json>>)

  /** The regular expression `^\d{2}:\d{2}$`. */
  predicate TimeShape(t: string) {
    |t| == 5 && IsDigit(t[0]) && IsDigit(t[1]) && t[2] == ':' && IsDigit(t[3]) && IsDigit(t[4])
  }

  function DigestOf(s: string): (d: Option<Digest>)
    ensures d.Some? <==> s in {"instant", "daily", "weekly", "none"}
  {
    if s == "instant" then Some(Instant)
    else if s == "daily" then Some(Daily)
    else if s == "weekly" then Some(Weekly)
    else if s == "none" then Some(NoDigest)
    else None
  }

  /** An optional boolean field: absent, or a boolean. */
  function OptBool(body: map<string, Json>, key: string): (r: Result<Option<bool>, string>)
    ensures r.Success? <==> key !in body || body[key].JBool?
    ensures r.Success? && key in body ==> r.value == Some(body[key].b)
    ensures r.Success? && key !in body ==> r.value.None?
  {
    if key !in body then Success(None)
    else if body[key].JBool? then Success(Some(body[key].b))
    else Failure(key)
  }

  /** An optional time field: absent, or a string of the shape dd:dd. */
  function OptTime(body: map<string, Json>, key: string): (r: Result<Option<string>, string>)
    ensures r.Success? <==> key !in body || (body[key].JStr? && TimeShape(body[key].s))
    ensures r.Success? && key in body ==> r.value == Some(body[key].s)
    ensures r.Success? && key !in body ==> r.value.None?
  {
    if key !in body then Success(None)
    else if body[key].JStr? && TimeShape(body[key].s) then Success(Some(body[key].s))
    else Failure(key)
  }

  function OptDigest(body: map<string, Json>): (r: Result<Option<Digest>, string>)
    ensures r.Success? <==> ("emailDigest" !in body
      || (body["emailDigest"].JStr? && DigestOf(body["emailDigest"].s).Some?))
  {
    if "emailDigest" !in body then Success(None)
    else if body["emailDigest"].JStr? && DigestOf(body["emailDigest"].s).Some? then Success(DigestOf(body["emailDigest"].s))
    else Failure("emailDigest")
  }

  function OptRecord(body: map<string, Json>): (r: Result<Option<map<string, Json>>, string>)
    ensures r.Success? <==> "types" !in body || body["types"].JObj?
  {
    if "types" !in body then Success(None)
    else if body["types"].JObj? then Success(Some(body["types"].fields))
    else Failure("types")
  }

  /** The keys of the schema, in its order. */
  const SchemaKeys: seq<string> := ["inAppEnabled", "emailEnabled", "smsEnabled", "emailDigest",
    "doNotDisturb", "doNotDisturbStart", "doNotDisturbEnd", "types"]

  /** The outcome of each field's check, in the order of `SchemaKeys`. */
  function FieldChecks(m: map<string, Json>): (ok: seq<bool>)
    ensures |ok| == |SchemaKeys|
  {
    [OptBool(m, "inAppEnabled").Success?, OptBool(m, "emailEnabled").Success?,
     OptBool(m, "smsEnabled").Success?, OptDigest(m).Success?, OptBool(m, "doNotDisturb").Success?,
     OptTime(m, "doNotDisturbStart").Success?, OptTime(m, "doNotDisturbEnd").Success?, OptRecord(m).Success?]
  }

  /** `PreferencesSchema.parse`: a failure lists every offending key, or `body` when the body is not an object. */
  function ParsePreferences(body: Json): (r: Result<Preferences, seq<string>>)
    ensures r.Success? <==> body.JObj? && forall j :: 0 <= j < |SchemaKeys| ==> FieldChecks(body.fields)[j]
    ensures r.Failure? ==> r.error == (if body.JObj? then Zod.Issues(SchemaKeys, FieldChecks(body.fields)) else ["body"])
    ensures r.Success? ==> var p := r.value;
      && (p.doNotDisturbStart.Some? ==> TimeShape(p.doNotDisturbStart.value))
      && (p.doNotDisturbEnd.Some? ==> TimeShape(p.doNotDisturbEnd.value))
      && (p.emailDigest.Some? <==> "emailDigest" in body.fields)
  {
    if !body.JObj? then Failure(["body"])
    else if Zod.Issues(SchemaKeys, FieldChecks(body.fields)) != [] then Failure(Zod.Issues(SchemaKeys, FieldChecks(body.fields)))
    else
      var m := body.fields;
      var ok := FieldChecks(m);
      assert ok[0] && ok[1] && ok[2] && ok[3] && ok[4] && ok[5] && ok[6] && ok[7];
      Success(Preferences(OptBool(m, "inAppEnabled").value, OptBool(m, "emailEnabled").value,
        OptBool(m, "smsEnabled").value, OptDigest(m).value, OptBool(m, "doNotDisturb").value,
        OptTime(m, "doNotDisturbStart").value, OptTime(m, "doNotDisturbEnd").value, OptRecord(m).value))
  }

  /** Every offending key is reported: a wrong `inAppEnabled` does not hide a wrong `types`. */
  lemma EveryIssueReported(m: map<string, Json>)
    requires "inAppEnabled" in m && !m["inAppEnabled"].JBool?
    requires "types" in m && !m["types"].JObj?
    ensures ParsePreferences(JObj(m)).Failure?
    ensures "inAppEnabled" in ParsePreferences(JObj(m)).error && "types" in ParsePreferences(JObj(m)).error
  {
    assert !FieldChecks(m)[0] && !FieldChecks(m)[7];
  }

  /** The two pieces of `t.split(':')` for a time of the right shape. */
  lemma SplitTime(t: string)
    requires TimeShape(t)
    ensures Split(t, ':') == [t[..2], t[3..]]
  {
    assert t[..2] == [t[0], t[1]];
    assert IndexOf(t, ':') == 2;
    var rest := t[3..];
    assert rest == [t[3], t[4]];
    assert IndexOf(rest, ':') == -1;
  }

  /** `parseInt` of a string of two decimal digits. */
  function TwoDigits(s: string): (n: nat)
    requires |s| == 2 && IsDigit(s[0]) && IsDigit(s[1])
    ensures n <= 99
  {
    DigitValue(s[0]) * 10 + DigitValue(s[1])
  }

  /** `parseInt(t.split(':')[0]) * 60 + parseInt(t.split(':')[1])`. */
  function Minutes(t: string): (m: nat)
    requires TimeShape(t)
    ensures m <= 99 * 60 + 99
  {
    SplitTime(t);
    var parts := Split(t, ':');
    TwoDigits(parts[0]) * 60 + TwoDigits(parts[1])
  }

  /** The range check: it runs only when both ends are given, and an empty range or one crossing midnight fails. */
  predicate RangeRejected(p: Preferences)
    requires p.doNotDisturbStart.Some? ==> TimeShape(p.doNotDisturbStart.value)
    requires p.doNotDisturbEnd.Some? ==> TimeShape(p.doNotDisturbEnd.value)
  {
    p.doNotDisturbStart.Some? && p.doNotDisturbEnd.Some?
    && Minutes(p.doNotDisturbStart.value) >= Minutes(p.doNotDisturbEnd.value)
  }

  datatype SessionUser = SessionUser(id: string, tenantId: string)

  datatype Response =
    | Unauthorized
    | BadRequest(issues: seq<string>)
    | ServerError
    | Ok(data: Json)
    | Updated(userId: string, tenantId: string, preferences: Preferences)

  const RangeMessage := "Invalid do-not-disturb time range"

  /** The preferences returned when none are stored. */
  const DefaultPreferences: Json := JObj(map[
    "inAppEnabled" := JBool(true),
    "emailEnabled" := JBool(true),
    "smsEnabled" := JBool(false),
    "emailDigest" := JStr("instant"),
    "doNotDisturb" := JBool(false),
    "types" := JObj(map[])])

  predicate CanRead(session: Option<SessionUser>) {
    session.Some? && session.value.id != ""
  }

  predicate CanWrite(session: Option<SessionUser>) {
    CanRead(session) && session.value.tenantId != ""
  }

  /**
   * GET: needs a session user with an id; answers the stored preferences or
   * the defaults, and a server error when the hub throws.
   */
  function Get(session: Option<SessionUser>, stored: Option<Json>, hubFails: bool): (r: Response)
    ensures r == Unauthorized <==> !CanRead(session)
    ensures r == ServerError <==> CanRead(session) && hubFails
    ensures CanRead(session) && !hubFails && stored.None? ==> r == Ok(DefaultPreferences)
    ensures CanRead(session) && !hubFails && stored.Some? ==> r == Ok(stored.value)
  {
    if !CanRead(session) then Unauthorized
    else if hubFails then ServerError
    else if stored.None? then Ok(DefaultPreferences)
    else Ok(stored.value)
  }

  /**
   * PUT: needs a user id and a tenant id; an unreadable body is a server
   * error, a schema failure or a rejected range a bad request; otherwise
   * the parsed preferences go to the hub, and a hub that throws gives a
   * server error.
   */
  function Put(session: Option<SessionUser>, body: Option<Json>, hubFails: bool): (r: Response)
    ensures r == Unauthorized <==> !CanWrite(session)
    ensures CanWrite(session) && body.None? ==> r == ServerError
    ensures CanWrite(session) && body.Some? && ParsePreferences(body.value).Failure?
      ==> r == BadRequest(ParsePreferences(body.value).error)
    ensures CanWrite(session) && body.Some? && ParsePreferences(body.value).Success?
      ==> var p := ParsePreferences(body.value).value;
        r == (if RangeRejected(p) then BadRequest([RangeMessage])
              else if hubFails then ServerError
              else Updated(session.value.id, session.value.tenantId, p))
    ensures r.Updated? ==> (body.Some? && ParsePreferences(body.value) == Success(r.preferences)
      && !RangeRejected(r.preferences) && !hubFails)
    ensures r.BadRequest? ==> body.Some? && (ParsePreferences(body.value).Failure? || RangeRejected(ParsePreferences(body.value).value))
  {
    if !CanWrite(session) then Unauthorized
    else if body.None? then ServerError
    else
      var parsed := ParsePreferences(body.value);
      if parsed.Failure? then BadRequest(parsed.error)
      else if RangeRejected(parsed.value) then BadRequest([RangeMessage])
      else if hubFails then ServerError
      else Updated(session.value.id, session.value.tenantId, parsed.value)
  }

  /** Shape, not range: '99:99' passes the schema. */
  lemma ShapeIsNotRange()
    ensures TimeShape("99:99") && Minutes("99:99") == 99 * 60 + 99
  {
    SplitTime("99:99");
    assert "99:99"[..2] == "99" && "99:99"[3..] == "99";
  }

  /** Equal ends and a range over midnight are both rejected. */
  lemma EmptyAndOvernightRejected(p: Preferences)
    requires p.doNotDisturbStart.Some? && p.doNotDisturbEnd.Some?
    requires TimeShape(p.doNotDisturbStart.value) && TimeShape(p.doNotDisturbEnd.value)
    requires p.doNotDisturbStart.value == p.doNotDisturbEnd.value
      || (p.doNotDisturbStart.value == "22:00" && p.doNotDisturbEnd.value == "06:00")
    ensures RangeRejected(p)
  {
    SplitTime("22:00");
    SplitTime("06:00");
    assert "22:00"[..2] == "22" && "22:00"[3..] == "00";
    assert "06:00"[..2] == "06" && "06:00"[3..] == "00";
  }

  /** On clock readings (minutes below 60) an earlier hour gives fewer minutes. */
  lemma MinutesOrder(a: string, b: string)
    requires TimeShape(a) && TimeShape(b)
    requires TwoDigits(a[3..]) < 60
    requires TwoDigits(a[..2]) < TwoDigits(b[..2])
    ensures Minutes(a) < Minutes(b)
  {
    SplitTime(a);
    SplitTime(b);
  }

  /** Without that bound the order breaks: '00:99' counts as later than '01:00'. */
  lemma MinutesOutOfClock()
    ensures TimeShape("00:99") && TimeShape("01:00") && Minutes("00:99") > Minutes("01:00")
  {
    SplitTime("00:99");
    SplitTime("01:00");
    assert "00:99"[..2] == "00" && "00:99"[3..] == "99";
    assert "01:00"[..2] == "01" && "01:00"[3..] == "00";
  }

  /** A session without a tenant can read its preferences but not write them. */
  lemma TenantNeededOnlyToWrite(userId: string, stored: Option<Json>, body: Option<Json>)
    requires userId != ""
    ensures Get(Some(SessionUser(userId, "")), stored, false).Ok?
    ensures Put(Some(SessionUser(userId, "")), body, false) == Unauthorized
  {
  }
}
