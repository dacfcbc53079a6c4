/**
 * The MFA setup wizard: a three-step machine (scan the QR code, type the
 * code, save the backup codes) over the security settings hook. The typed
 * code only ever holds up to six digits.
 */
module MfaSetupModal {
  import opened Wrappers
  import opened Text
  import opened ListOps
  import opened Json
  import opened SecuritySettings

  datatype Step = Qr | Verify | Backup

  const CodeLength: nat := 6

  /** `value.replace(/\D/g, "").slice(0, 6)`. */
  function Sanitize(typed: string): (code: string)
    ensures |code| <= CodeLength
    ensures forall i :: 0 <= i < |code| ==> IsDigit(code[i])
    ensures StartsWith(Filter(typed, IsDigit), code)
    ensures |code| == if |Filter(typed, IsDigit)| < CodeLength then |Filter(typed, IsDigit)| else CodeLength
  {
    Prefix(Filter(typed, IsDigit), CodeLength)
  }

  /** A string of at most six digits survives sanitising unchanged, so sanitising twice is sanitising once. */
  lemma SanitizeKeepsCodes(s: string)
    requires |s| <= CodeLength && forall i :: 0 <= i < |s| ==> IsDigit(s[i])
    ensures Sanitize(s) == s
  {
    FilterKeepsAll(s, IsDigit);
  }

  lemma SanitizeIdempotent(typed: string)
    ensures Sanitize(Sanitize(typed)) == Sanitize(typed)
  {
    SanitizeKeepsCodes(Sanitize(typed));
  }

  class Wizard {
    const settings: SecuritySettingsState
    const setup: SetupData
    var step: Step
    var code: string
    var verifyError: Option<string>
    /** How often `onClose` was called. */
    var closeCalls: nat
    /** What the copy button last wrote to the clipboard. */
    var clipboard: Option<string>

    /** The code field holds at most six digits. */
    predicate Valid()
      reads this
    {
      |code| <= CodeLength && forall i :: 0 <= i < |code| ==> IsDigit(code[i])
    }

    constructor(settings: SecuritySettingsState, setup: SetupData)
      ensures this.settings == settings && this.setup == setup
      ensures step == Qr && code == "" && verifyError.None? && closeCalls == 0 && clipboard.None? && Valid()
    {
      this.settings := settings;
      this.setup := setup;
      step := Qr;
      code := "";
      verifyError := None;
      closeCalls := 0;
      clipboard := None;
    }

    /** "I've scanned the code". */
    method Scanned()
      requires step == Qr
      modifies this
      ensures step == Verify && code == old(code) && verifyError == old(verifyError)
      ensures closeCalls == old(closeCalls) && clipboard == old(clipboard)
    {
      step := Verify;
    }

    /** Back. */
    method Back()
      requires step == Verify
      modifies this
      ensures step == Qr && code == old(code) && verifyError == old(verifyError)
      ensures closeCalls == old(closeCalls) && clipboard == old(clipboard)
    {
      step := Qr;
    }

    /** Typing: the field keeps the sanitised text and the verify error goes away. */
    method Type(typed: string)
      modifies this
      ensures code == Sanitize(typed) && verifyError.None? && step == old(step) && Valid()
      ensures closeCalls == old(closeCalls) && clipboard == old(clipboard)
    {
      code := Sanitize(typed);
      verifyError := None;
    }

    /**
     * `handleVerify`: a code that is not six characters long is refused
     * before any request; a true answer moves to the backup step, a false
     * one stays, and a thrown error shows its message and stays.
     */
    method SubmitCode(f: Fetch) returns (requested: bool)
      requires Valid()
      modifies this, settings
      ensures Valid() && code == old(code)
      ensures closeCalls == old(closeCalls) && clipboard == old(clipboard)
      ensures requested <==> |code| == CodeLength
      ensures !requested ==> (verifyError == Some("Please enter a 6-digit code") && step == old(step)
        && unchanged(settings))
      ensures requested ==>
        var d := ReplyData(f, "Invalid code");
        && (d.Success? && !d.value.JNull? && IsTruthy(Get(d.value, "ok")) ==> step == Backup && verifyError == old(verifyError))
        && (d.Success? && !d.value.JNull? && !IsTruthy(Get(d.value, "ok")) ==>
              step == old(step) && verifyError == old(verifyError))
        && (d.Success? && d.value.JNull? ==> step == old(step) && verifyError == Some(NullReadMessage("ok")))
        && (d.Failure? ==> step == old(step) && verifyError == Some(if d.error != "" then d.error else "Invalid code"))
      ensures requested ==>
        var d := ReplyData(f, "Invalid code");
        var r: Result<bool, string> := if d.Failure? then Failure(d.error)
          else if d.value.JNull? then Failure(NullReadMessage("ok"))
          else Success(IsTruthy(Get(d.value, "ok")));
        && !settings.loading
        && settings.error == (if r.Failure? then Some(Caught(r.error)) else None)
        && settings.mfaSetupData == (if r == Success(true) then None else old(settings.mfaSetupData))
    {
      if code == "" || |code| != CodeLength {
        verifyError := Some("Please enter a 6-digit code");
        return false;
      }
      requested := true;
      var r := settings.VerifyMfa(code, f);
      if r.Success? {
        if r.value {
          step := Backup;
        }
      } else {
        verifyError := Some(if r.error != "" then r.error else "Invalid code");
      }
    }

    /** Copy all codes: one per line. The button is rendered only on the backup step. */
    method CopyBackupCodes()
      requires step == Backup
      modifies this
      ensures clipboard == Some(Join(setup.backupCodes, "\n")) && step == old(step) && code == old(code)
      ensures verifyError == old(verifyError) && closeCalls == old(closeCalls)
    {
      clipboard := Some(Join(setup.backupCodes, "\n"));
    }

    /** Done closes the modal. */
    method Complete()
      requires step == Backup
      modifies this
      ensures closeCalls == old(closeCalls) + 1 && step == old(step)
      ensures code == old(code) && verifyError == old(verifyError) && clipboard == old(clipboard)
    {
      closeCalls := closeCalls + 1;
    }
  
    /** Closing the dialog from outside calls `onClose` in any step. */
    method Dismiss()
      modifies this
      ensures closeCalls == old(closeCalls) + 1 && step == old(step) && code == old(code)
      ensures verifyError == old(verifyError) && clipboard == old(clipboard)
    {
      closeCalls := closeCalls + 1;
    }
  }
}
