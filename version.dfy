/**
 * The admin footer's version and build information. The runtime is an
 * input: whether `process` exists, the environment variables it carries
 * ("" when unset) and the version field of package.json. Date parsing and
 * the Intl formatters are function parameters.
 */
module Version {
  import opened Wrappers
  import opened Text

  /** What the functions read from `process.env`, "" when a variable is unset. */
  datatype Runtime = Runtime(
    hasProcess: bool,
    appVersion: string,
    buildDate: string,
    buildTime: string,
    nodeEnv: string,
    packageVersion: Option<string>)

  const FallbackVersion := "v0.0.0"
  const DevelopmentLabel := "Development"
  const ProductionLabel := "Production"
  const Bullet := " • "

  /** `v.startsWith('v') ? v : `v${v}``. */
  function WithV(v: string): (r: string)
    ensures StartsWith(r, "v")
    ensures r == v || r == "v" + v
    ensures StartsWith(v, "v") <==> r == v
  {
    if StartsWith(v, "v") then v else "v" + v
  }

  /** Prefixing twice is prefixing once. */
  lemma WithVIdempotent(v: string)
    ensures WithV(WithV(v)) == WithV(v)
  {
  }

  /** A version with or without its leading 'v' prints the same (when it does not itself start with 'v'). */
  lemma WithVAbsorbsPrefix(v: string)
    requires !StartsWith(v, "v")
    ensures WithV("v" + v) == WithV(v)
  {
    assert ("v" + v)[..1] == "v";
  }

  /** `getAppVersion`: the environment's version, else package.json's, else 'v0.0.0'. */
  function AppVersion(rt: Runtime): (r: string)
    ensures rt.hasProcess && rt.appVersion != "" ==> r == WithV(rt.appVersion)
    ensures !(rt.hasProcess && rt.appVersion != "") && rt.packageVersion.Some? && rt.packageVersion.value != "" ==>
      r == WithV(rt.packageVersion.value)
    ensures !(rt.hasProcess && rt.appVersion != "") && !(rt.packageVersion.Some? && rt.packageVersion.value != "") ==>
      r == FallbackVersion
  {
    if rt.hasProcess && rt.appVersion != "" then WithV(rt.appVersion)
    else if rt.packageVersion.Some? && rt.packageVersion.value != "" then WithV(rt.packageVersion.value)
    else FallbackVersion
  }

  /** Every version shown starts with 'v'. */
  lemma AppVersionStartsWithV(rt: Runtime)
    ensures StartsWith(AppVersion(rt), "v")
  {
    if !(rt.hasProcess && rt.appVersion != "") && !(rt.packageVersion.Some? && rt.packageVersion.value != "") {
      assert AppVersion(rt) == "v0.0.0";
      assert "v0.0.0"[..1] == "v";
    }
  }

  /** A set environment version wins whatever package.json says. */
  lemma EnvVersionWins(rt: Runtime, pkg: Option<string>)
    requires rt.hasProcess && rt.appVersion != ""
    ensures AppVersion(rt.(packageVersion := pkg)) == AppVersion(rt)
  {
  }

  /** Without `process` the environment variable is never read. */
  lemma NoProcessUsesPackage(rt: Runtime, envVersion: string)
    requires !rt.hasProcess
    ensures AppVersion(rt.(appVersion := envVersion)) == AppVersion(rt)
  {
  }

  /** A parsed date; `None` from the parser is an Invalid Date. */
  datatype Instant = Instant(epochMs: int)

  /** The en-US formatters: short month, numeric day, numeric year, and 24-hour "HH:MM". */
  datatype Intl = Intl(month: Instant -> string, day: Instant -> string, year: Instant -> string, hourMinute: Instant -> string)

  /** `formatDate`: "Development" for a blank or unparseable date, otherwise "<month> <day>, <year>". */
  function FormatDate(s: string, parse: string -> Option<Instant>, intl: Intl): (r: string)
    ensures IsBlank(s) || parse(s).None? ==> r == DevelopmentLabel
    ensures !IsBlank(s) && parse(s).Some? ==>
      var d := parse(s).value; r == intl.month(d) + " " + intl.day(d) + ", " + intl.year(d)
  {
    if IsBlank(s) then DevelopmentLabel
    else
      match parse(s)
      case None => DevelopmentLabel
      case Some(d) => intl.month(d) + " " + intl.day(d) + ", " + intl.year(d)
  }

  /** A formatted date always holds a comma, so "Development" means exactly a blank or invalid date. */
  lemma FormatDateDevelopmentIff(s: string, parse: string -> Option<Instant>, intl: Intl)
    ensures FormatDate(s, parse, intl) == DevelopmentLabel <==> IsBlank(s) || parse(s).None?
  {
    if !IsBlank(s) && parse(s).Some? {
      var d := parse(s).value;
      var m := intl.month(d) + " " + intl.day(d);
      var r := m + ", " + intl.year(d);
      assert r[|m|] == ',';
      assert ',' in r && ',' !in DevelopmentLabel;
    }
  }

  /** `formatTime`: "" for a blank or unparseable time, otherwise "HH:MM". */
  function FormatTime(s: string, parse: string -> Option<Instant>, intl: Intl): (r: string)
    ensures IsBlank(s) || parse(s).None? ==> r == ""
    ensures !IsBlank(s) && parse(s).Some? ==> r == intl.hourMinute(parse(s).value)
  {
    if IsBlank(s) then ""
    else
      match parse(s)
      case None => ""
      case Some(d) => intl.hourMinute(d)
  }

  /** `getBuildDate`: "Development" without `process`. */
  function BuildDate(rt: Runtime, parse: string -> Option<Instant>, intl: Intl): (r: string)
    ensures !rt.hasProcess ==> r == DevelopmentLabel
    ensures rt.hasProcess ==> r == FormatDate(rt.buildDate, parse, intl)
  {
    if !rt.hasProcess then DevelopmentLabel else FormatDate(rt.buildDate, parse, intl)
  }

  /** `getBuildTime`: "" without `process`. */
  function BuildTime(rt: Runtime, parse: string -> Option<Instant>, intl: Intl): (r: string)
    ensures !rt.hasProcess ==> r == ""
    ensures rt.hasProcess ==> r == FormatTime(rt.buildTime, parse, intl)
  {
    if !rt.hasProcess then "" else FormatTime(rt.buildTime, parse, intl)
  }

  /** An unset build date or time shows as "Development" and no time. */
  lemma UnsetBuildStamp(rt: Runtime, parse: string -> Option<Instant>, intl: Intl)
    requires rt.buildDate == "" && rt.buildTime == ""
    ensures BuildDate(rt, parse, intl) == DevelopmentLabel
    ensures BuildTime(rt, parse, intl) == ""
  {
    assert IsBlank("");
  }

  lemma JoinTwo(a: string, b: string, sep: string)
    ensures Join([a, b], sep) == a + sep + b
  {
    assert [a, b][1..] == [b];
  }

  lemma JoinThree(a: string, b: string, c: string, sep: string)
    ensures Join([a, b, c], sep) == a + sep + b + sep + c
  {
    assert [a, b, c][1..] == [b, c];
    JoinTwo(b, c, sep);
    assert a + sep + (b + sep + c) == a + sep + b + sep + c;
  }

  /**
   * `getCompleteBuildInfo`: version and date joined by " • ", and the time
   * after one more " • " only when there is one.
   */
  method CompleteBuildInfo(rt: Runtime, parse: string -> Option<Instant>, intl: Intl) returns (info: string)
    ensures var v := AppVersion(rt); var d := BuildDate(rt, parse, intl); var t := BuildTime(rt, parse, intl);
      info == if t == "" then v + Bullet + d else v + Bullet + d + Bullet + t
  {
    var version := AppVersion(rt);
    var date := BuildDate(rt, parse, intl);
    var time := BuildTime(rt, parse, intl);
    var parts := [version, date];
    if time != "" {
      parts := parts + [time];
      assert parts == [version, date, time];
      JoinThree(version, date, time, Bullet);
    } else {
      JoinTwo(version, date, Bullet);
    }
    info := Join(parts, Bullet);
  }

  /** The build info always begins with the version and its bullet. */
  lemma BuildInfoStartsWithVersion(v: string, d: string, t: string)
    ensures var info := if t == "" then v + Bullet + d else v + Bullet + d + Bullet + t;
      StartsWith(info, v + Bullet)
  {
    var p := v + Bullet;
    var info := if t == "" then v + Bullet + d else v + Bullet + d + Bullet + t;
    var tail := if t == "" then d else d + Bullet + t;
    assert info == p + tail;
    assert (p + tail)[..|p|] == p;
  }

  /** `isDevelopment`: NODE_ENV is 'development', false without `process`. */
  predicate IsDevelopment(rt: Runtime) {
    rt.hasProcess && rt.nodeEnv == "development"
  }

  /** `isProduction`: NODE_ENV is 'production', false without `process`. */
  predicate IsProduction(rt: Runtime) {
    rt.hasProcess && rt.nodeEnv == "production"
  }

  /** The two modes exclude each other, and neither holds without `process`. */
  lemma ModesExclusive(rt: Runtime)
    ensures !(IsDevelopment(rt) && IsProduction(rt))
    ensures !rt.hasProcess ==> !IsDevelopment(rt) && !IsProduction(rt)
  {
  }

  /** `getVersionString`: "<version> (Production)" or "<version> (Development)". */
  function VersionString(rt: Runtime): (r: string)
    ensures IsProduction(rt) ==> r == AppVersion(rt) + " (" + ProductionLabel + ")"
    ensures !IsProduction(rt) ==> r == AppVersion(rt) + " (" + DevelopmentLabel + ")"
  {
    AppVersion(rt) + " (" + (if IsProduction(rt) then ProductionLabel else DevelopmentLabel) + ")"
  }

  /** The label says Production exactly in production. */
  lemma VersionStringProductionIff(rt: Runtime)
    ensures VersionString(rt) == AppVersion(rt) + " (" + ProductionLabel + ")" <==> IsProduction(rt)
  {
    var v := AppVersion(rt);
    if !IsProduction(rt) {
      assert |v + " (" + DevelopmentLabel + ")"| != |v + " (" + ProductionLabel + ")"|;
    }
  }

  /** Any NODE_ENV other than production (a test run, say) is labelled Development, though `isDevelopment` is false. */
  lemma TestEnvLabelledDevelopment(rt: Runtime)
    requires rt.hasProcess && rt.nodeEnv == "test"
    ensures VersionString(rt) == AppVersion(rt) + " (" + DevelopmentLabel + ")"
    ensures !IsDevelopment(rt)
  {
  }
}
