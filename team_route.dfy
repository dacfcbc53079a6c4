/**
 * The team members route: the paging parameters, the admin test, the set of
 * members a non-admin may see, the query filter it builds, and the response
 * with its `hasMore` flag. The database is an input: the rows the filter
 * counts and the page it returns. `NaN` is `None`.
 */
module TeamRoute {
  import opened Wrappers
  import opened Text

  /** The value of an ASCII digit or letter of a hexadecimal numeral; 16 for any other character. */
  function HexDigitValue(c: char): (v: nat)
    ensures v <= 16
    ensures IsDigit(c) ==> v == DigitValue(c)
  {
    if IsDigit(c) then DigitValue(c)
    else if 'a' <= c <= 'f' then c as int - 'a' as int + 10
    else if 'A' <= c <= 'F' then c as int - 'A' as int + 10
    else 16
  }

  /** A digit of base 10 or 16. */
  predicate IsRadixDigit(c: char, radix: nat) {
    HexDigitValue(c) < radix
  }

  /** In base ten the digits are exactly the ASCII digits. */
  lemma DecimalDigitIff(c: char)
    ensures IsRadixDigit(c, 10) <==> IsDigit(c)
  {
  }

  /** The value of a run of digits in the given base. */
  function RadixValue(ds: string, radix: nat): (n: nat)
    requires radix == 10 || radix == 16
    requires forall i :: 0 <= i < |ds| ==> IsRadixDigit(ds[i], radix)
    decreases |ds|
  {
    if ds == [] then 0
    else
      var high := RadixValue(ds[..|ds| - 1], radix);
      (if radix == 16 then high * 16 else high * 10) + HexDigitValue(ds[|ds| - 1])
  }

  /** The length of the leading run of digits in the given base. */
  function DigitRun(s: string, radix: nat): (n: nat)
    ensures n <= |s|
    ensures forall i :: 0 <= i < n ==> IsRadixDigit(s[i], radix)
    ensures n < |s| ==> !IsRadixDigit(s[n], radix)
    decreases |s|
  {
    if s != [] && IsRadixDigit(s[0], radix) then 1 + DigitRun(s[1..], radix) else 0
  }

  /** The text after an optional leading sign. */
  function Unsigned(t: string): (body: string)
    ensures |body| <= |t|
    ensures t != [] && (t[0] == '-' || t[0] == '+') ==> body == t[1..]
    ensures !(t != [] && (t[0] == '-' || t[0] == '+')) ==> body == t
  {
    if t != [] && (t[0] == '-' || t[0] == '+') then t[1..] else t
  }

  /** Whether an unsigned numeral starts with "0x" or "0X". */
  predicate HasHexPrefix(body: string) {
    |body| >= 2 && body[0] == '0' && (body[1] == 'x' || body[1] == 'X')
  }

  /** The base `parseInt` without a radix reads: 16 after a hexadecimal prefix, otherwise 10. */
  function Radix(body: string): (radix: nat)
    ensures radix == 10 || radix == 16
    ensures radix == 16 <==> HasHexPrefix(body)
  {
    if HasHexPrefix(body) then 16 else 10
  }

  /** The digits after the hexadecimal prefix, if there is one. */
  function Numeral(body: string): (ds: string)
    ensures HasHexPrefix(body) ==> ds == body[2..]
    ensures !HasHexPrefix(body) ==> ds == body
  {
    if HasHexPrefix(body) then body[2..] else body
  }

  /** What follows the leading whitespace and the sign. */
  function Body(s: string): string {
    Unsigned(TrimStart(s))
  }

  /** Whether the sign read is a minus. */
  predicate Negative(s: string) {
    var t := TrimStart(s); t != [] && t[0] == '-'
  }

  /** The digits `parseInt` reads: the longest run of digits in the numeral's base. */
  function Digits(s: string): (ds: string)
    ensures StartsWith(Numeral(Body(s)), ds)
    ensures forall i :: 0 <= i < |ds| ==> IsRadixDigit(ds[i], Radix(Body(s)))
    ensures |ds| < |Numeral(Body(s))| ==> !IsRadixDigit(Numeral(Body(s))[|ds|], Radix(Body(s)))
  {
    var n := Numeral(Body(s));
    n[..DigitRun(n, Radix(Body(s)))]
  }

  /**
   * `parseInt(s)` with no radix: leading whitespace, an optional sign, then
   * either "0x"/"0X" and the longest run of hexadecimal digits, or the longest
   * run of decimal digits. No digit at all is `NaN`.
   */
  function ParseInt(s: string): (r: Option<int>)
    ensures r.None? <==> Digits(s) == []
    ensures r.Some? && !Negative(s) ==> r.value == RadixValue(Digits(s), Radix(Body(s)))
    ensures r.Some? && Negative(s) ==> r.value == -(RadixValue(Digits(s), Radix(Body(s))) as int)
  {
    var ds := Digits(s);
    if ds == [] then None
    else
      var v: int := RadixValue(ds, Radix(Body(s)));
      Some(if Negative(s) then -v else v)
  }

  /** `NaN` exactly when the numeral does not start with a digit of its base. */
  lemma ParseIntNaNIff(s: string)
    ensures ParseInt(s).None? <==> Numeral(Body(s)) == [] || !IsRadixDigit(Numeral(Body(s))[0], Radix(Body(s)))
  {
  }

  /** A plain decimal numeral reads as the number it denotes. */
  lemma ParseIntOfDigits(s: string)
    requires s != [] && forall i :: 0 <= i < |s| ==> IsDigit(s[i])
    requires !HasHexPrefix(s)
    ensures forall i :: 0 <= i < |s| ==> IsRadixDigit(s[i], 10)
    ensures ParseInt(s) == Some(RadixValue(s, 10) as int)
  {
    DigitStartsBody(s);
    DigitRunOfDigits(s, 10);
    ParseIntOfBody(s, 10);
  }

  /** "0x" followed by hexadecimal digits reads as the hexadecimal number. */
  lemma ParseIntOfHex(ds: string)
    requires ds != [] && forall i :: 0 <= i < |ds| ==> IsRadixDigit(ds[i], 16)
    ensures ParseInt("0x" + ds) == Some(RadixValue(ds, 16) as int)
  {
    var s := "0x" + ds;
    DigitStartsBody(s);
    assert HasHexPrefix(s) && s[2..] == ds;
    DigitRunOfDigits(ds, 16);
    assert ds[..|ds|] == ds;
  }

  lemma DigitStartsBody(s: string)
    requires s != [] && IsDigit(s[0])
    ensures TrimStart(s) == s && Unsigned(s) == s
  {
    assert !IsWhitespace(s[0]);
  }

  lemma ParseIntOfBody(s: string, radix: nat)
    requires radix == 10 && !HasHexPrefix(s)
    requires s != [] && TrimStart(s) == s && Unsigned(s) == s && DigitRun(s, radix) == |s|
    requires forall i :: 0 <= i < |s| ==> IsRadixDigit(s[i], radix)
    ensures ParseInt(s) == Some(RadixValue(s, radix) as int)
  {
    assert s[..|s|] == s;
    assert s[0] != '-';
  }

  lemma {:induction false} DigitRunOfDigits(s: string, radix: nat)
    requires radix == 10 || radix == 16
    requires forall i :: 0 <= i < |s| ==> IsRadixDigit(s[i], radix) || (radix == 10 && IsDigit(s[i]))
    ensures DigitRun(s, radix) == |s|
    decreases |s|
  {
    if s != [] {
      DigitRunOfDigits(s[1..], radix);
    }
  }

  /** The two defaults: '50' and '0'. */
  lemma ParseDefaults()
    ensures ParseInt("50") == Some(50) && ParseInt("0") == Some(0)
  {
    ParseTwoDigits("50");
    ParseOneDigit("0");
  }

  lemma ParseTwoDigits(s: string)
    requires |s| == 2 && IsDigit(s[0]) && IsDigit(s[1])
    ensures ParseInt(s) == Some(DigitValue(s[0]) * 10 + DigitValue(s[1]))
  {
    DecimalOfTwo(s);
    var v := RadixValue(s, 10);
    assert ParseInt(s) == Some(v as int) by {
      assert !HasHexPrefix(s);
      ParseIntOfDigits(s);
    }
  }

  lemma DecimalOfTwo(s: string)
    requires |s| == 2 && IsDigit(s[0]) && IsDigit(s[1])
    ensures IsRadixDigit(s[0], 10) && IsRadixDigit(s[1], 10)
    ensures RadixValue(s, 10) == DigitValue(s[0]) * 10 + DigitValue(s[1])
  {
    RadixOfTwo(s, 10);
  }

  lemma RadixOfOne(s: string, radix: nat)
    requires radix == 10 || radix == 16
    requires |s| == 1 && IsRadixDigit(s[0], radix)
    ensures RadixValue(s, radix) == HexDigitValue(s[0])
  {
    assert s[..0] == [];
  }

  lemma RadixOfTwo(s: string, radix: nat)
    requires radix == 10 || radix == 16
    requires |s| == 2 && IsRadixDigit(s[0], radix) && IsRadixDigit(s[1], radix)
    ensures RadixValue(s, radix) == HexDigitValue(s[0]) * radix + HexDigitValue(s[1])
  {
    RadixOfOne(s[..1], radix);
  }

  lemma ParseOneDigit(s: string)
    requires |s| == 1 && IsDigit(s[0])
    ensures ParseInt(s) == Some(DigitValue(s[0]))
  {
    ParseIntOfDigits(s);
    RadixOfOne(s, 10);
  }

  /** "0x20" is 32. */
  lemma ParseHex20(s: string)
    requires s == "0x20"
    ensures ParseInt(s) == Some(32)
  {
    var ds := s[2..];
    assert ds == "20" && s == "0x" + ds;
    assert RadixValue(ds, 16) == 32 by {
      assert HexDigitValue('2') == 2 && HexDigitValue('0') == 0;
      RadixOfTwo(ds, 16);
    }
    ParseIntOfHex(ds);
  }

  /** "0x" and "0Xg" have no digit after the prefix and are `NaN`. */
  lemma ParseHexPrefixOnly()
    ensures ParseInt("0x").None? && ParseInt("0Xg").None?
  {
    DigitStartsBody("0x");
    DigitStartsBody("0Xg");
    assert Body("0x") == "0x" && HasHexPrefix("0x") && Numeral("0x") == [];
    assert Body("0Xg") == "0Xg" && HasHexPrefix("0Xg") && Numeral("0Xg") == "g";
    assert HexDigitValue('g') == 16;
    ParseIntNaNIff("0x");
    ParseIntNaNIff("0Xg");
  }

  /** A leading character that is neither whitespace, sign nor digit gives `NaN`. */
  lemma ParseIntNaN(s: string)
    requires s != [] && !IsWhitespace(s[0]) && !IsDigit(s[0]) && s[0] != '-' && s[0] != '+'
    ensures ParseInt(s).None?
  {
    assert TrimStart(s) == s;
  }

  datatype Params = Params(
    search: Option<string>, department: Option<string>, status: Option<string>,
    limit: Option<string>, offset: Option<string>)

  /** `searchParams.get(k) || fallback`. */
  function OrDefault(v: Option<string>, fallback: string): string {
    if v.None? || v.value == "" then fallback else v.value
  }

  /** `Math.min(parseInt(limit || '50'), 100)`: clamped from above only. */
  function Limit(p: Params): (l: Option<int>)
    ensures l.Some? ==> l.value <= 100
    ensures var n := ParseInt(OrDefault(p.limit, "50"));
      && (l.None? <==> n.None?)
      && (n.Some? && n.value <= 100 ==> l == n)
      && (n.Some? && n.value > 100 ==> l == Some(100))
  {
    var n := ParseInt(OrDefault(p.limit, "50"));
    if n.None? then None else Some(if n.value < 100 then n.value else 100)
  }

  /** `parseInt(offset || '0')`. */
  function Offset(p: Params): (o: Option<int>)
    ensures o == ParseInt(OrDefault(p.offset, "0"))
  {
    ParseInt(OrDefault(p.offset, "0"))
  }

  /** `offset + limit < total`; a `NaN` operand makes the comparison false. */
  function HasMore(offset: Option<int>, limit: Option<int>, total: nat): (b: bool)
    ensures b <==> offset.Some? && limit.Some? && offset.value + limit.value < total
  {
    offset.Some? && limit.Some? && offset.value + limit.value < total
  }

  /** Paging with the default parameters: more exists exactly when over 50 members match. */
  lemma DefaultPaging(p: Params, total: nat)
    requires p.limit.None? && p.offset.None?
    ensures Limit(p) == Some(50) && Offset(p) == Some(0)
    ensures HasMore(Offset(p), Limit(p), total) <==> total > 50
  {
    ParseDefaults();
  }

  datatype Caller = Caller(id: string, role: string, department: Option<string>)

  predicate IsAdmin(c: Caller) {
    c.role == "ADMIN" || c.role == "SUPER_ADMIN"
  }

  /** A truthy id: present and non-empty. */
  predicate Truthy(id: Option<string>) {
    id.Some? && id.value != ""
  }

  /** The truthy ids of a column, as a set. */
  function TruthyIds(ids: seq<Option<string>>): (r: set<string>)
    ensures forall x :: x in r <==> exists i :: 0 <= i < |ids| && Truthy(ids[i]) && ids[i].value == x
  {
    set i | 0 <= i < |ids| && Truthy(ids[i]) :: ids[i].value
  }

  /**
   * `teamMemberIds`: the assignees of tasks, then the booking assignees, then
   * (for a caller with a department) the department colleagues, added one by
   * one; null and empty ids are skipped.
   */
  method VisibleIds(caller: Caller, taskAssignees: seq<Option<string>>, bookingAssignees: seq<Option<string>>,
                    colleagues: seq<string>) returns (ids: set<string>)
    ensures ids == TruthyIds(taskAssignees) + TruthyIds(bookingAssignees)
      + (if Truthy(caller.department) then set i | 0 <= i < |colleagues| :: colleagues[i] else {})
  {
    ids := AddTruthy({}, taskAssignees);
    ids := AddTruthy(ids, bookingAssignees);
    if Truthy(caller.department) {
      ids := AddAll(ids, colleagues);
    }
  }

  /** Adds the truthy ids of a column, one entry at a time. */
  method AddTruthy(start: set<string>, column: seq<Option<string>>) returns (ids: set<string>)
    ensures ids == start + TruthyIds(column)
  {
    ids := start;
    var i := 0;
    while i < |column|
      invariant 0 <= i <= |column|
      invariant ids == start + TruthyIds(column[..i])
    {
      TruthyIdsStep(column, i);
      if Truthy(column[i]) {
        ids := ids + {column[i].value};
      }
      i := i + 1;
    }
    assert column[..i] == column;
  }

  /** Adds every element of a list, one at a time. */
  method AddAll(start: set<string>, xs: seq<string>) returns (ids: set<string>)
    ensures ids == start + set m | 0 <= m < |xs| :: xs[m]
  {
    ids := start;
    var k := 0;
    while k < |xs|
      invariant 0 <= k <= |xs|
      invariant ids == start + set m | 0 <= m < k :: xs[m]
    {
      PrefixSetStep(xs, k);
      ids := ids + {xs[k]};
      k := k + 1;
    }
  }

  /** One more entry of a column adds its id when it is truthy. */
  lemma TruthyIdsStep(ids: seq<Option<string>>, i: nat)
    requires i < |ids|
    ensures TruthyIds(ids[..i + 1]) == TruthyIds(ids[..i]) + (if Truthy(ids[i]) then {ids[i].value} else {})
  {
    assert ids[..i + 1][..i] == ids[..i];
    assert ids[..i + 1][i] == ids[i];
  }

  /** One more element of a list adds it to the set of the elements before it. */
  lemma PrefixSetStep(xs: seq<string>, k: nat)
    requires k < |xs|
    ensures (set m | 0 <= m < k + 1 :: xs[m]) == (set m | 0 <= m < k :: xs[m]) + {xs[k]}
  {
  }

  /** The filter the route hands to the database. */
  datatype Where = Where(
    tenantId: string, excludedId: string, idIn: Option<set<string>>,
    search: Option<string>, department: Option<string>)

  datatype Member = Member(
    id: string, tenantId: string, name: Option<string>, email: Option<string>,
    image: Option<string>, department: Option<string>, position: Option<string>)

  /** `contains` with `mode: 'insensitive'` on an optional column. */
  predicate ContainsInsensitive(column: Option<string>, search: string) {
    column.Some? && Contains(ToLower(column.value), ToLower(search))
  }

  /** The rows a filter admits. */
  predicate Admits(w: Where, m: Member) {
    && m.tenantId == w.tenantId
    && m.id != w.excludedId
    && (w.idIn.None? || m.id in w.idIn.value)
    && (w.search.None? || ContainsInsensitive(m.name, w.search.value)
        || ContainsInsensitive(m.email, w.search.value) || ContainsInsensitive(m.position, w.search.value))
    && (w.department.None? || m.department == w.department)
  }

  /** `searchParams.get(k)?.trim()`, with a falsy result as absent. */
  function TrimmedParam(v: Option<string>): (r: Option<string>)
    ensures r.Some? ==> r.value != "" && (v.Some? && r.value == Trim(v.value))
  {
    if v.Some? && Trim(v.value) != "" then Some(Trim(v.value)) else None
  }

  /** Builds the filter field by field; the status parameter takes no part. */
  method BuildWhere(p: Params, caller: Caller, tenantId: string, visible: Option<set<string>>) returns (w: Where)
    ensures w == Where(tenantId, caller.id, visible, TrimmedParam(p.search), TrimmedParam(p.department))
  {
    w := Where(tenantId, caller.id, None, None, None);
    if visible.Some? {
      w := w.(idIn := visible);
    }
    var search := TrimmedParam(p.search);
    if search.Some? {
      w := w.(search := search);
    }
    var department := TrimmedParam(p.department);
    if department.Some? {
      w := w.(department := department);
    }
  }

  /** The requesting user is never listed, and a non-admin sees only visible ids. */
  lemma AdmitsExcludesCaller(p: Params, caller: Caller, tenantId: string, visible: Option<set<string>>, m: Member)
    requires Admits(Where(tenantId, caller.id, visible, TrimmedParam(p.search), TrimmedParam(p.department)), m)
    ensures m.id != caller.id && m.tenantId == tenantId
    ensures visible.Some? ==> m.id in visible.value
  {
  }

  /** The status parameter never changes the filter. */
  lemma StatusIgnored(p: Params, s: Option<string>)
    ensures Where("", "", None, TrimmedParam(p.search), TrimmedParam(p.department))
         == Where("", "", None, TrimmedParam(p.(status := s).search), TrimmedParam(p.(status := s).department))
  {
  }

  datatype TeamMember = TeamMember(member: Member, status: string)

  datatype Meta = Meta(total: nat, limit: Option<int>, offset: Option<int>, hasMore: bool)

  /** `respond.ok` with the page, or `respond.serverError()` from the `catch`. */
  datatype TeamResponse =
    | TeamPage(data: seq<TeamMember>, meta: Meta, queried: Option<Where>)
    | ServerError

  /**
   * GET. `count` and `page` are what the database answers for the filter;
   * `dbFails` says that a query throws, which the `catch` answers with a
   * server error. A non-admin with no visible member gets an empty page
   * without a member query.
   */
  method Get(p: Params, caller: Caller, tenantId: string,
             taskAssignees: seq<Option<string>>, bookingAssignees: seq<Option<string>>, colleagues: seq<string>,
             count: nat, page: seq<Member>, dbFails: bool) returns (r: TeamResponse)
    ensures r.ServerError? <==> dbFails
    ensures r.TeamPage? ==> r.meta.limit == Limit(p) && r.meta.offset == Offset(p)
    ensures r.TeamPage? && IsAdmin(caller) ==>
      r.queried == Some(Where(tenantId, caller.id, None, TrimmedParam(p.search), TrimmedParam(p.department)))
    ensures r.TeamPage? && r.queried.None? ==> r.data == [] && r.meta.total == 0 && !r.meta.hasMore
    ensures r.TeamPage? && r.queried.Some? ==> (r.meta.total == count && r.meta.hasMore == HasMore(Offset(p), Limit(p), count)
      && |r.data| == |page| && forall i :: 0 <= i < |page| ==> r.data[i] == TeamMember(page[i], "offline"))
    ensures r.TeamPage? && !IsAdmin(caller) ==> var visible := TruthyIds(taskAssignees) + TruthyIds(bookingAssignees)
      + (if Truthy(caller.department) then set i | 0 <= i < |colleagues| :: colleagues[i] else {});
      (r.queried.None? <==> visible == {})
      && (r.queried.Some? ==> r.queried == Some(Where(tenantId, caller.id, Some(visible), TrimmedParam(p.search), TrimmedParam(p.department))))
  {
    if dbFails {
      return ServerError;
    }
    var limit := Limit(p);
    var offset := Offset(p);
    var visible: Option<set<string>> := None;
    if !IsAdmin(caller) {
      var ids := VisibleIds(caller, taskAssignees, bookingAssignees, colleagues);
      if ids == {} {
        return TeamPage([], Meta(0, limit, offset, false), None);
      }
      visible := Some(ids);
    }
    var w := BuildWhere(p, caller, tenantId, visible);
    var members := seq(|page|, i requires 0 <= i < |page| => TeamMember(page[i], "offline"));
    r := TeamPage(members, Meta(count, limit, offset, HasMore(offset, limit, count)), Some(w));
  }

  /** A hexadecimal `limit` is read as such: '?limit=0x20' pages by 32. */
  lemma HexLimit(p: Params)
    requires p.limit == Some("0x20")
    ensures Limit(p) == Some(32)
  {
    ParseHex20(p.limit.value);
  }
}
