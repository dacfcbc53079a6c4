/**
 * The security settings hook: five requests that share one pattern. Each
 * clears `error` and raises `loading`, performs its fetch, records the
 * message of anything thrown in `error`, rethrows it (the `Failure` result)
 * and lowers `loading` whatever happened. The fetch is an input.
 */
module SecuritySettings {
  import opened Wrappers
  import opened Text
  import opened Json

  /** What `apiFetch` and `res.json()` produce: a network error, or a reply whose body may fail to parse. */
  datatype Fetch =
    | NetworkError(message: string)
    | Reply(ok: bool, status: nat, body: Result<Json, string>)

  /**
   * What a call makes of a reply it reads: the data of an OK reply, or the
   * message it throws. A network or parse error throws its own message. For
   * a non-OK reply `data.error` is read, which throws a TypeError when the
   * body is null; otherwise `new Error(data.error || fallback)` makes the
   * string form of a truthy `error` the message, else the fallback.
   */
  function ReplyData(f: Fetch, fallback: string): (r: Result<Json, string>)
    ensures r.Success? <==> f.Reply? && f.ok && f.body.Success?
    ensures f.NetworkError? ==> r == Failure(f.message)
    ensures f.Reply? && f.body.Failure? ==> r == Failure(f.body.error)
    ensures f.Reply? && f.body.Success? && f.ok ==> r == Success(f.body.value)
    ensures f.Reply? && f.body.Success? && !f.ok && f.body.value.JNull? ==>
      r == Failure(NullReadMessage("error"))
    ensures f.Reply? && f.body.Success? && !f.ok && !f.body.value.JNull? ==>
      r == Failure(ToJsString(TruthyOr(f.body.value, "error", JStr(fallback))))
  {
    match f
    case NetworkError(m) => Failure(m)
    case Reply(ok, _, body) =>
      if body.Failure? then Failure(body.error)
      else if ok then Success(body.value)
      else if Read(body.value, "error").Failure? then Failure(Read(body.value, "error").error)
      else Failure(ToJsString(TruthyOr(body.value, "error", JStr(fallback))))
  }

  /**
   * `String(e?.message || e)` in each call's `catch`: the thrown message,
   * or 'Error' (the name of an `Error`) when the message is empty.
   */
  function Caught(message: string): (r: string)
    ensures r != ""
    ensures message != "" ==> r == message
  {
    if message != "" then message else "Error"
  }

  /** The setup data as copied from the reply: `secret` and `uri` are whatever truthy values it holds. */
  datatype SetupData = SetupData(secret: Json, uri: Json, backupCodes: seq<string>)

  /**
   * `data.backupCodes || []`, read as a list of strings: the string items of
   * an array, in order, and no codes for any other value.
   */
  function BackupCodesOf(data: Json): (codes: seq<string>)
    ensures Get(data, "backupCodes").Some? && Get(data, "backupCodes").value.JArr? ==>
      var items := Get(data, "backupCodes").value.items;
      && (forall c :: c in codes <==> JStr(c) in items)
      && ((forall i :: 0 <= i < |items| ==> items[i].JStr?) ==>
            |codes| == |items| && forall i :: 0 <= i < |codes| ==> codes[i] == items[i].s)
    ensures !IsTruthy(Get(data, "backupCodes")) ==> codes == []
  {
    var f := Get(data, "backupCodes");
    if f.Some? && f.value.JArr? then Strings(f.value.items) else []
  }

  /** The strings of an array, in order. */
  function Strings(items: seq<Json>): (r: seq<string>)
    ensures |r| <= |items|
    ensures forall c :: c in r <==> JStr(c) in items
    ensures (forall i :: 0 <= i < |items| ==> items[i].JStr?) ==>
      |r| == |items| && forall i :: 0 <= i < |r| ==> r[i] == items[i].s
  {
    if items == [] then []
    else (if items[0].JStr? then [items[0].s] else []) + Strings(items[1..])
  }

  /** Order is kept: the strings of two arrays joined are the strings of each, joined. */
  lemma {:induction false} StringsOfConcat(a: seq<Json>, b: seq<Json>)
    ensures Strings(a + b) == Strings(a) + Strings(b)
  {
    if a == [] {
      assert a + b == b;
    } else {
      assert (a + b)[0] == a[0] && (a + b)[1..] == a[1..] + b;
      StringsOfConcat(a[1..], b);
    }
  }

  /**
   * The enrolment reply checked: `!data.ok` throws a TypeError on a null
   * body; otherwise `ok`, `secret` and `uri` must all be truthy, of any
   * type, and `secret` and `uri` are copied as they are.
   */
  function SetupOf(data: Json): (r: Result<SetupData, string>)
    ensures r.Success? <==> IsTruthy(Get(data, "ok")) && IsTruthy(Get(data, "secret")) && IsTruthy(Get(data, "uri"))
    ensures data.JNull? ==> r == Failure(NullReadMessage("ok"))
    ensures !data.JNull? && r.Failure? ==> r.error == "Invalid MFA setup response"
    ensures r.Success? ==> r.value == SetupData(Get(data, "secret").value, Get(data, "uri").value, BackupCodesOf(data))
  {
    if Read(data, "ok").Failure? then Failure(Read(data, "ok").error)
    else if !IsTruthy(Get(data, "ok")) || !IsTruthy(Get(data, "secret")) || !IsTruthy(Get(data, "uri")) then
      Failure("Invalid MFA setup response")
    else Success(SetupData(Get(data, "secret").value, Get(data, "uri").value, BackupCodesOf(data)))
  }

  class SecuritySettingsState {
    var loading: bool
    var error: Option<string>
    var mfaSetupData: Option<SetupData>

    constructor()
      ensures !loading && error.None? && mfaSetupData.None?
    {
      loading := false;
      error := None;
      mfaSetupData := None;
    }

    /** The start every request shares. */
    method Start()
      modifies this
      ensures loading && error.None? && mfaSetupData == old(mfaSetupData)
    {
      loading := true;
      error := None;
    }

    /** The end every request shares: a thrown message is recorded, loading ends. */
    method Finish<T>(r: Result<T, string>)
      modifies this
      ensures !loading && mfaSetupData == old(mfaSetupData)
      ensures error == if r.Failure? then Some(Caught(r.error)) else old(error)
    {
      if r.Failure? {
        error := Some(Caught(r.error));
      }
      loading := false;
    }

    /** `enrollMfa`: on success the setup data is stored and returned. */
    method EnrollMfa(f: Fetch) returns (r: Result<SetupData, string>)
      modifies this
      ensures !loading
      ensures var d := ReplyData(f, "Failed to enroll MFA (" + (if f.Reply? then DecimalString(f.status) else "") + ")");
        r == (if d.Failure? then Failure(d.error) else SetupOf(d.value))
      ensures r.Success? ==> mfaSetupData == Some(r.value) && error.None?
      ensures r.Failure? ==> mfaSetupData == old(mfaSetupData) && error == Some(Caught(r.error))
    {
      Start();
      var status := if f.Reply? then DecimalString(f.status) else "";
      var d := ReplyData(f, "Failed to enroll MFA (" + status + ")");
      if d.Failure? {
        r := Failure(d.error);
      } else {
        r := SetupOf(d.value);
        if r.Success? {
          mfaSetupData := Some(r.value);
        }
      }
      Finish(r);
    }

    /** `verifyMfa`: answers the server's `ok`, and a true answer clears the setup data. */
    method VerifyMfa(code: string, f: Fetch) returns (r: Result<bool, string>)
      modifies this
      ensures !loading
      ensures var d := ReplyData(f, "Invalid code");
        r == (if d.Failure? then Failure(d.error)
              else if d.value.JNull? then Failure(NullReadMessage("ok"))
              else Success(IsTruthy(Get(d.value, "ok"))))
      ensures r == Success(true) ==> mfaSetupData.None?
      ensures r != Success(true) ==> mfaSetupData == old(mfaSetupData)
      ensures error == if r.Failure? then Some(Caught(r.error)) else None
    {
      Start();
      var d := ReplyData(f, "Invalid code");
      if d.Failure? {
        r := Failure(d.error);
      } else {
        var read := Read(d.value, "ok");
        if read.Failure? {
          r := Failure(read.error);
        } else {
          var ok := IsTruthy(read.value);
          if ok {
            mfaSetupData := None;
          }
          r := Success(ok);
        }
      }
      Finish(r);
    }

    /**
     * The three requests that answer true on any OK reply: its body is never
     * read. Any other reply or a network error throws as `ReplyData` says.
     */
    method Confirm(f: Fetch, fallback: string) returns (r: Result<bool, string>)
      modifies this
      ensures !loading && mfaSetupData == old(mfaSetupData)
      ensures r == (if f.Reply? && f.ok then Success(true) else Failure(ReplyData(f, fallback).error))
      ensures error == if r.Failure? then Some(Caught(r.error)) else None
    {
      Start();
      if f.Reply? && f.ok {
        r := Success(true);
      } else {
        r := Failure(ReplyData(f, fallback).error);
      }
      Finish(r);
    }

    /** `disableMfa`. */
    method DisableMfa(f: Fetch) returns (r: Result<bool, string>)
      modifies this
      ensures !loading && mfaSetupData == old(mfaSetupData)
      ensures var fallback := "Failed to disable MFA (" + (if f.Reply? then DecimalString(f.status) else "") + ")";
        r == (if f.Reply? && f.ok then Success(true) else Failure(ReplyData(f, fallback).error))
      ensures error == if r.Failure? then Some(Caught(r.error)) else None
    {
      r := Confirm(f, "Failed to disable MFA (" + (if f.Reply? then DecimalString(f.status) else "") + ")");
    }

    /** `sendVerificationEmail`. */
    method SendVerificationEmail(email: string, f: Fetch) returns (r: Result<bool, string>)
      modifies this
      ensures !loading && mfaSetupData == old(mfaSetupData)
      ensures r == (if f.Reply? && f.ok then Success(true)
        else Failure(ReplyData(f, "Failed to send verification email").error))
      ensures error == if r.Failure? then Some(Caught(r.error)) else None
    {
      r := Confirm(f, "Failed to send verification email");
    }

    /** `verifyEmailToken`. */
    method VerifyEmailToken(token: string, f: Fetch) returns (r: Result<bool, string>)
      modifies this
      ensures !loading && mfaSetupData == old(mfaSetupData)
      ensures r == (if f.Reply? && f.ok then Success(true)
        else Failure(ReplyData(f, "Invalid or expired token").error))
      ensures error == if r.Failure? then Some(Caught(r.error)) else None
    {
      r := Confirm(f, "Invalid or expired token");
    }

    method ClearError()
      modifies this
      ensures error.None? && loading == old(loading) && mfaSetupData == old(mfaSetupData)
    {
      error := None;
    }

    method ClearMfaSetup()
      modifies this
      ensures mfaSetupData.None? && loading == old(loading) && error == old(error)
    {
      mfaSetupData := None;
    }
  }

  /**
   * A non-OK reply throws the body's error text; without one the fallback,
   * and a null body the TypeError of reading `error`.
   */
  lemma NotOkMessage(status: nat, body: Json, fallback: string)
    ensures body.JNull? ==> ReplyData(Reply(false, status, Success(body)), fallback) == Failure(NullReadMessage("error"))
    ensures !body.JNull? && !IsTruthy(Get(body, "error")) ==>
      ReplyData(Reply(false, status, Success(body)), fallback) == Failure(fallback)
    ensures IsTruthy(Get(body, "error")) ==>
      ReplyData(Reply(false, status, Success(body)), fallback) == Failure(ToJsString(Get(body, "error").value))
    ensures TruthyString(body, "error").Some? ==>
      ReplyData(Reply(false, status, Success(body)), fallback) == Failure(TruthyString(body, "error").value)
  {
  }

  /** A numeric `error` is thrown as its digits: `{ error: 5 }` throws '5', not the fallback. */
  lemma NumericErrorShown(status: nat, fallback: string)
    ensures ReplyData(Reply(false, status, Success(JObj(map["error" := JNum(5)]))), fallback) == Failure("5")
  {
    NumberStrings();
    assert Get(JObj(map["error" := JNum(5)]), "error") == Some(JNum(5));
  }

  /**
   * A truthy `error` of `[]` throws an Error with an empty message, which the
   * catch records as 'Error'.
   */
  lemma EmptyArrayErrorRecorded(status: nat, fallback: string)
    ensures var d := ReplyData(Reply(false, status, Success(JObj(map["error" := JArr([])]))), fallback);
      d == Failure("") && Caught(d.error) == "Error"
  {
    assert Get(JObj(map["error" := JArr([])]), "error") == Some(JArr([]));
  }

  /** A numeric secret passes the check and is copied as it is. */
  lemma NumericSecretAccepted()
    ensures SetupOf(JObj(map["ok" := JBool(true), "secret" := JNum(12345), "uri" := JStr("otpauth://x")]))
      == Success(SetupData(JNum(12345), JStr("otpauth://x"), []))
  {
    var data := JObj(map["ok" := JBool(true), "secret" := JNum(12345), "uri" := JStr("otpauth://x")]);
    assert Get(data, "secret") == Some(JNum(12345));
    assert Get(data, "uri") == Some(JStr("otpauth://x"));
    assert Get(data, "backupCodes").None?;
  }

  /** An OK enrolment reply without a secret is rejected even though the request succeeded. */
  lemma MissingSecretRejected(uri: string)
    requires uri != ""
    ensures SetupOf(JObj(map["ok" := JBool(true), "uri" := JStr(uri)])) == Failure("Invalid MFA setup response")
  {
    assert Get(JObj(map["ok" := JBool(true), "uri" := JStr(uri)]), "secret").None?;
  }
}
