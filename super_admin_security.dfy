/**
 * The super-admin security modal: edits are collected in `pending`
 * (section, then key), shown over the loaded settings, and sent in one save
 * that may demand a step-up one-time password. The session role decides
 * which toggles are offered. The requests are inputs.
 */
module SuperAdminSecurity {
  import opened Wrappers
  import opened Text
  import opened Json

  type Pending = map<string, map<string, Json>>

  /** `const [section, key] = path.split('.')`: a path without a dot has the key "undefined". */
  function PathParts(path: string): (r: (string, string))
    ensures r.0 == Split(path, '.')[0]
    ensures |Split(path, '.')| >= 2 ==> r.1 == Split(path, '.')[1]
    ensures |Split(path, '.')| < 2 ==> r.1 == "undefined"
  {
    var parts := Split(path, '.');
    (parts[0], if |parts| >= 2 then parts[1] else "undefined")
  }

  /** The edits of one section so far. */
  function Inner(pending: Pending, section: string): map<string, Json> {
    if section in pending then pending[section] else map[]
  }

  /** `update(path, value)`: one key of one section is set, on a copy. */
  function Update(pending: Pending, section: string, key: string, value: Json): (r: Pending)
    ensures section in r && key in r[section] && r[section][key] == value
    ensures forall k :: k in r[section] && k != key ==> section in pending && k in pending[section] && r[section][k] == pending[section][k]
    ensures section in pending ==> forall k :: k in pending[section] ==> k in r[section]
    ensures forall s :: s != section ==> (s in r <==> s in pending) && (s in r ==> r[s] == pending[s])
  {
    pending[section := Inner(pending, section)[key := value]]
  }

  /** Edits to different keys commute. */
  lemma UpdateCommutes(p: Pending, s1: string, k1: string, v1: Json, s2: string, k2: string, v2: Json)
    requires (s1, k1) != (s2, k2)
    ensures Update(Update(p, s1, k1, v1), s2, k2, v2) == Update(Update(p, s2, k2, v2), s1, k1, v1)
  {
    if s1 == s2 {
      SameSectionCommutes(p, s1, k1, v1, k2, v2);
    } else {
      OtherSectionsCommute(p, s1, k1, v1, s2, k2, v2);
    }
  }

  lemma SameSectionCommutes(p: Pending, s: string, k1: string, v1: Json, k2: string, v2: Json)
    requires k1 != k2
    ensures Update(Update(p, s, k1, v1), s, k2, v2) == Update(Update(p, s, k2, v2), s, k1, v1)
  {
    var inner := Inner(p, s);
    var both := inner[k1 := v1][k2 := v2];
    assert both == inner[k2 := v2][k1 := v1];
    UpdateTwice(p, s, k1, v1, k2, v2);
    UpdateTwice(p, s, k2, v2, k1, v1);
  }

  /** Two edits of one section are one write of the section with both keys set. */
  lemma UpdateTwice(p: Pending, s: string, k1: string, v1: Json, k2: string, v2: Json)
    ensures Update(Update(p, s, k1, v1), s, k2, v2) == p[s := Inner(p, s)[k1 := v1][k2 := v2]]
  {
    var x := Inner(p, s)[k1 := v1];
    assert Update(p, s, k1, v1) == p[s := x];
    assert Inner(p[s := x], s) == x;
    assert p[s := x][s := x[k2 := v2]] == p[s := x[k2 := v2]];
  }

  lemma OtherSectionsCommute(p: Pending, s1: string, k1: string, v1: Json, s2: string, k2: string, v2: Json)
    requires s1 != s2
    ensures Update(Update(p, s1, k1, v1), s2, k2, v2) == Update(Update(p, s2, k2, v2), s1, k1, v1)
  {
    var x := Inner(p, s1)[k1 := v1];
    var y := Inner(p, s2)[k2 := v2];
    assert Inner(Update(p, s1, k1, v1), s2) == Inner(p, s2);
    assert Inner(Update(p, s2, k2, v2), s1) == Inner(p, s1);
    assert p[s1 := x][s2 := y] == p[s2 := y][s1 := x];
  }

  /** A later edit of the same key wins. */
  lemma UpdateOverwrites(p: Pending, s1: string, k1: string, v1: Json, v2: Json)
    ensures Update(Update(p, s1, k1, v1), s1, k1, v2) == Update(p, s1, k1, v2)
  {
    var inner := Inner(p, s1);
    UpdateTwice(p, s1, k1, v1, k1, v2);
    assert inner[k1 := v1][k1 := v2] == inner[k1 := v2];
  }

  /** `pending.s?.k ?? settings.s?.k`: a null or missing pending value falls back to the loaded one. */
  function Shown(pending: Pending, settings: Json, section: string, key: string): (r: Option<Json>)
    ensures section in pending && key in pending[section] && pending[section][key] != JNull ==> r == Some(pending[section][key])
    ensures !(section in pending && key in pending[section] && pending[section][key] != JNull) ==>
      r == (if Get(settings, section).Some? then Get(Get(settings, section).value, key) else None)
  {
    if section in pending && key in pending[section] && pending[section][key] != JNull then Some(pending[section][key])
    else
      var s := Get(settings, section);
      if s.Some? then Get(s.value, key) else None
  }

  /** `.map(f).filter(Boolean)` for strings. */
  function MapNonEmpty(parts: seq<string>, f: string -> string): (r: seq<string>)
    ensures |r| <= |parts|
    ensures forall i :: 0 <= i < |r| ==> r[i] != ""
  {
    if parts == [] then []
    else
      var t := f(parts[0]);
      var rest := MapNonEmpty(parts[1..], f);
      if t != "" then [t] + rest else rest
  }

  /** Every entry kept is the image of some piece. */
  lemma {:induction false} MapNonEmptyFrom(parts: seq<string>, f: string -> string, i: nat)
    requires i < |MapNonEmpty(parts, f)|
    ensures exists k :: 0 <= k < |parts| && MapNonEmpty(parts, f)[i] == f(parts[k])
    decreases |parts|
  {
    var t := f(parts[0]);
    var rest := MapNonEmpty(parts[1..], f);
    if t != "" && i == 0 {
      assert MapNonEmpty(parts, f)[0] == f(parts[0]);
    } else {
      var j := if t != "" then i - 1 else i;
      assert MapNonEmpty(parts, f)[i] == rest[j];
      MapNonEmptyFrom(parts[1..], f, j);
      var k :| 0 <= k < |parts[1..]| && rest[j] == f(parts[1..][k]);
      assert parts[1..][k] == parts[k + 1];
    }
  }

  /** `.map(x => x.trim()).filter(Boolean)`. */
  function TrimNonEmpty(parts: seq<string>): (r: seq<string>)
    ensures |r| <= |parts|
    ensures forall i :: 0 <= i < |r| ==> r[i] != ""
  {
    MapNonEmpty(parts, Trim)
  }

  /** Every entry the filter keeps is trimmed and has no comma when no piece had one. */
  lemma TrimNonEmptyEntries(parts: seq<string>, i: nat)
    requires forall k :: 0 <= k < |parts| ==> ',' !in parts[k]
    requires i < |TrimNonEmpty(parts)|
    ensures Trim(TrimNonEmpty(parts)[i]) == TrimNonEmpty(parts)[i] && ',' !in TrimNonEmpty(parts)[i]
  {
    MapNonEmptyFrom(parts, Trim, i);
    var k :| 0 <= k < |parts| && TrimNonEmpty(parts)[i] == Trim(parts[k]);
    TrimIdempotent(parts[k]);
    TrimKeepsOut(parts[k], ',');
  }

  /** Trimming only removes characters. */
  lemma TrimKeepsOut(x: string, c: char)
    requires c !in x
    ensures c !in Trim(x)
  {
    var t := TrimStart(x);
    assert t == x[|x| - |t|..];
    assert TrimEnd(t) == t[..|TrimEnd(t)|];
  }

  /** The IP list text field: split on commas, entries trimmed, empty ones dropped. */
  function ParseIpList(text: string): (r: seq<string>)
    ensures forall i :: 0 <= i < |r| ==> r[i] != "" && Trim(r[i]) == r[i] && ',' !in r[i]
  {
    var parts := Split(text, ',');
    var r := TrimNonEmpty(parts);
    forall i | 0 <= i < |r|
      ensures Trim(r[i]) == r[i] && ',' !in r[i]
    {
      TrimNonEmptyEntries(parts, i);
    }
    r
  }

  /** An entry the list field can show back: non-empty, trimmed, comma-free. */
  predicate IpEntry(x: string) {
    x != "" && !IsWhitespace(x[0]) && !IsWhitespace(x[|x| - 1]) && ',' !in x
  }

  /** Each entry with the space `", "` leaves in front of it. */
  function Prefixed(l: seq<string>): (r: seq<string>)
    ensures |r| == |l|
  {
    if l == [] then [] else [" " + l[0]] + Prefixed(l[1..])
  }

  /** Splitting `x,y` at its first comma when x has none. */
  lemma SplitAtFirst(x: string, y: string)
    requires ',' !in x
    ensures Split(x + [','] + y, ',') == [x] + Split(y, ',')
  {
    var s := x + [','] + y;
    assert s[|x|] == ',';
    assert s[..|x|] == x;
    var i := IndexOf(s, ',');
    assert i == |x|;
    assert s[i + 1..] == y;
  }

  lemma SpaceNoComma(x: string)
    requires ',' !in x
    ensures ',' !in " " + x
  {
    assert forall c :: c in " " + x ==> c == ' ' || c in x;
  }

  /** Joining with ", " is the first entry, a comma, and the rest joined with their spaces moved in. */
  lemma JoinHead(l: seq<string>)
    requires |l| >= 2
    ensures Join(l, ", ") == l[0] + [','] + Join([" " + l[1]] + l[2..], ", ")
  {
    var rest := Join(l[1..], ", ");
    assert Join(l, ", ") == l[0] + ", " + rest;
    JoinSpaceMoved(l);
    CommaSpace(l[0], rest);
  }

  lemma JoinSpaceMoved(l: seq<string>)
    requires |l| >= 2
    ensures Join([" " + l[1]] + l[2..], ", ") == " " + Join(l[1..], ", ")
  {
    var tail := [" " + l[1]] + l[2..];
    if |l| > 2 {
      var r2 := Join(l[2..], ", ");
      assert l[1..][1..] == l[2..] && tail[1..] == l[2..];
      assert Join(l[1..], ", ") == l[1] + ", " + r2;
      assert Join(tail, ", ") == (" " + l[1]) + ", " + r2;
    }
  }

  lemma CommaSpace(a: string, b: string)
    ensures a + ", " + b == a + [','] + (" " + b)
  {
  }

  lemma {:induction false} SplitJoin(l: seq<string>)
    requires |l| >= 1 && forall i :: 0 <= i < |l| ==> ',' !in l[i]
    ensures Split(Join(l, ", "), ',') == [l[0]] + Prefixed(l[1..])
    decreases |l|
  {
    if |l| == 1 {
      assert IndexOf(l[0], ',') < 0;
    } else {
      var tail := [" " + l[1]] + l[2..];
      SpaceNoComma(l[1]);
      SplitJoin(tail);
      JoinHead(l);
      SplitAtFirst(l[0], Join(tail, ", "));
      assert tail[1..] == l[2..] == l[1..][1..];
    }
  }

  /** Trimming `" " + x` for an entry gives x back. */
  lemma TrimSpaced(x: string)
    requires IpEntry(x)
    ensures Trim(" " + x) == x && Trim(x) == x
  {
    assert (" " + x)[1..] == x;
    assert TrimStart(" " + x) == TrimStart(x);
  }

  lemma {:induction false} TrimNonEmptyPrefixed(l: seq<string>)
    requires forall i :: 0 <= i < |l| ==> IpEntry(l[i])
    ensures TrimNonEmpty(Prefixed(l)) == l
    decreases |l|
  {
    if l != [] {
      TrimSpaced(l[0]);
      TrimNonEmptyPrefixed(l[1..]);
      assert Prefixed(l)[1..] == Prefixed(l[1..]);
    }
  }

  lemma TrimNonEmptyHead(x: string, rest: seq<string>)
    requires x != "" && Trim(x) == x
    ensures TrimNonEmpty([x] + rest) == [x] + TrimNonEmpty(rest)
  {
    assert ([x] + rest)[1..] == rest;
  }

  /** The pieces of a non-empty list, trimmed and filtered, are the list. */
  lemma TrimPieces(l: seq<string>)
    requires |l| >= 1 && forall i :: 0 <= i < |l| ==> IpEntry(l[i])
    ensures TrimNonEmpty([l[0]] + Prefixed(l[1..])) == l
  {
    TrimSpaced(l[0]);
    TrimNonEmptyPrefixed(l[1..]);
    TrimNonEmptyHead(l[0], Prefixed(l[1..]));
  }

  lemma ParseIpListUnfold(text: string)
    ensures ParseIpList(text) == TrimNonEmpty(Split(text, ','))
  {
  }

  /** The field shows the list joined by ", ", and parsing that text gives the same list. */
  lemma IpListRoundTrip(l: seq<string>)
    requires forall i :: 0 <= i < |l| ==> IpEntry(l[i])
    ensures ParseIpList(Join(l, ", ")) == l
  {
    if l == [] {
      EmptyIpList();
    } else {
      ParseIpListUnfold(Join(l, ", "));
      SplitJoin(l);
      TrimPieces(l);
    }
  }

  lemma EmptyIpList()
    ensures ParseIpList("") == []
  {
    assert IndexOf("", ',') < 0;
    assert Split("", ',') == [""];
    assert Trim("") == "";
  }

  /** The sections and keys the modal edits; the super-admin ones only for SUPER_ADMIN. */
  function EditablePaths(isSuper: bool): (r: set<(string, string)>)
    ensures ("superAdmin", "stepUpMfa") in r <==> isSuper
    ensures ("superAdmin", "logAdminAccess") in r <==> isSuper
    ensures forall p :: p in r && p.0 == "superAdmin" ==> isSuper
  {
    {("twoFactor", "requiredForAdmins"), ("network", "enableIpRestrictions"), ("network", "ipAllowlist"),
     ("network", "ipBlocklist"), ("dataProtection", "auditLogRetentionDays")}
    + (if isSuper then {("superAdmin", "stepUpMfa"), ("superAdmin", "logAdminAccess")} else {})
  }

  /** What a settings request yields. */
  datatype SettingsReply =
    | RequestThrew
    | Answered(status: nat, stepUpHeader: bool, ok: bool, body: Option<Json>)

  /** `r.status === 401 && r.headers.get('x-step-up-required')`. */
  predicate StepUp(r: SettingsReply) {
    r.Answered? && r.status == 401 && r.stepUpHeader
  }

  class SecurityModal {
    /** `session.user.role === 'SUPER_ADMIN'`. */
    const isSuper: bool
    var loading: bool
    var saving: bool
    var settings: Option<Json>
    var pending: Pending
    var otpNeeded: bool
    /** The value `setError` was last given: `''`, 'Failed to save', or the reply's raw truthy `error`. */
    var error: Json
    /** The values passed to `onSaved`, and how often `onClose` ran. */
    var savedCalls: seq<Json>
    var closeCalls: nat

    /** Without the super-admin role nothing is ever pending in the super-admin section. */
    predicate Valid()
      reads this
    {
      !isSuper ==> "superAdmin" !in pending
    }

    constructor(role: string)
      ensures isSuper <==> role == "SUPER_ADMIN"
      ensures !loading && !saving && settings.None? && pending == map[] && !otpNeeded && error == JStr("")
      ensures savedCalls == [] && closeCalls == 0 && Valid()
    {
      isSuper := role == "SUPER_ADMIN";
      loading := false;
      saving := false;
      settings := None;
      pending := map[];
      otpNeeded := false;
      error := JStr("");
      savedCalls := [];
      closeCalls := 0;
    }

    /** The load on open: a step-up demand sets otpNeeded, an OK reply the settings; errors are ignored. */
    method Load(reply: SettingsReply)
      modifies this
      ensures !loading && pending == old(pending) && Valid() == old(Valid())
      ensures StepUp(reply) ==> otpNeeded && settings == old(settings)
      ensures !StepUp(reply) ==> otpNeeded == old(otpNeeded)
      ensures !StepUp(reply) && reply.Answered? && reply.ok && reply.body.Some? ==> settings == reply.body
      ensures !(!StepUp(reply) && reply.Answered? && reply.ok && reply.body.Some?) ==> settings == old(settings)
      ensures error == old(error) && saving == old(saving) && savedCalls == old(savedCalls) && closeCalls == old(closeCalls)
    {
      if StepUp(reply) {
        otpNeeded := true;
      } else if reply.Answered? && reply.ok && reply.body.Some? {
        settings := reply.body;
      }
      loading := false;
    }

    /** A control's change: only the offered controls can call it. */
    method Edit(section: string, key: string, value: Json)
      requires Valid() && (section, key) in EditablePaths(isSuper)
      modifies this
      ensures pending == Update(old(pending), section, key, value) && Valid()
      ensures settings == old(settings) && error == old(error) && otpNeeded == old(otpNeeded)
      ensures loading == old(loading) && saving == old(saving) && savedCalls == old(savedCalls) && closeCalls == old(closeCalls)
    {
      pending := Update(pending, section, key, value);
    }

    /**
     * `save(withOtp)`: the body is the pending edits and the OTP header is
     * sent only for a non-empty OTP. A step-up demand sets otpNeeded and
     * keeps the edits; an OK reply replaces the settings, clears the edits
     * and runs onSaved and onClose; anything else sets the error. Saving
     * always ends.
     */
    method Save(withOtp: Option<string>, reply: SettingsReply) returns (sentBody: Pending, otpHeader: Option<string>)
      requires Valid()
      modifies this
      ensures sentBody == old(pending) && !saving && Valid()
      ensures otpHeader.Some? <==> withOtp.Some? && withOtp.value != ""
      ensures otpHeader.Some? ==> otpHeader == withOtp
      ensures StepUp(reply) ==> (otpNeeded && pending == old(pending) && settings == old(settings) && error == JStr("")
        && closeCalls == old(closeCalls) && savedCalls == old(savedCalls))
      ensures !StepUp(reply) && reply.Answered? && reply.ok && reply.body.Some? ==>
        (settings == reply.body && pending == map[] && error == JStr("") && otpNeeded == old(otpNeeded)
         && savedCalls == old(savedCalls) + [reply.body.value] && closeCalls == old(closeCalls) + 1)
      ensures !StepUp(reply) && !(reply.Answered? && reply.ok && reply.body.Some?) ==>
        (pending == old(pending) && settings == old(settings) && otpNeeded == old(otpNeeded)
         && savedCalls == old(savedCalls) && closeCalls == old(closeCalls)
         && error == if reply.Answered? && !reply.ok && reply.body.Some? then TruthyOr(reply.body.value, "error", JStr("Failed to save")) else JStr("Failed to save"))
    {
      saving := true;
      error := JStr("");
      sentBody := pending;
      otpHeader := if withOtp.Some? && withOtp.value != "" then withOtp else None;
      if StepUp(reply) {
        otpNeeded := true;
      } else if reply.RequestThrew? {
        error := JStr("Failed to save");
      } else if reply.ok {
        if reply.body.Some? {
          settings := reply.body;
          pending := map[];
          savedCalls := savedCalls + [reply.body.value];
          closeCalls := closeCalls + 1;
        } else {
          error := JStr("Failed to save");
        }
      } else {
        error := if reply.body.Some? then TruthyOr(reply.body.value, "error", JStr("Failed to save")) else JStr("Failed to save");
      }
      saving := false;
    }

    /** The Close and Cancel buttons call `onClose` and change nothing else. */
    method Close()
      modifies this
      ensures closeCalls == old(closeCalls) + 1
      ensures loading == old(loading) && saving == old(saving) && settings == old(settings) && pending == old(pending)
      ensures otpNeeded == old(otpNeeded) && error == old(error) && savedCalls == old(savedCalls)
    {
      closeCalls := closeCalls + 1;
    }
  }
}
