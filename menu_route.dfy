/**
 * The portal menu customisation route: GET decodes the stored row back into
 * a section list built from the five defaults, PUT validates the body and
 * encodes the sections as (`sectionOrder`, `hiddenItems`), DELETE removes the
 * row. The table is a map from user id to row. The session is modelled as
 * the optional id of `session.user`: None when there is no `session.user`,
 * otherwise that user's id. A database failure is a boolean input.
 */
module MenuRoute {
  import opened Wrappers
  import opened Json
  import opened Menu
  import opened SectionSort

  /** One row of the menu-customization table; every column is a JSON value. */
  datatype MenuRecord = MenuRecord(sectionOrder: Json, hiddenItems: Json, bookmarks: Json, practiceItems: Json)

  type Table = map<string, MenuRecord>

  /** The `data` of a successful GET. Bookmarks and practice items are passed through as stored. */
  datatype Loaded = Loaded(sections: seq<Section>, bookmarks: seq<Json>, practiceItems: seq<Json>)

  datatype Response =
    | Unauthorized                  // 401 'Unauthorized'
    | InvalidData                   // 400 'Invalid customization data'
    | Data(data: Loaded)            // 200 { success: true, data }
    | Saved                         // 200 'Menu customization saved'
    | ResetToDefaults               // 200 'Menu customization reset to defaults'
    | ServerError(message: string)  // 500

  const DefaultLoaded: Loaded := Loaded(DefaultSections, [], [])

  /** `xs.findIndex(id => id === target)`: the first position holding the string target, or -1. */
  function FindIndex(xs: seq<Json>, target: string): (k: int)
    ensures -1 <= k < |xs|
    ensures 0 <= k ==> xs[k] == JStr(target) && forall m :: 0 <= m < k ==> xs[m] != JStr(target)
    ensures k < 0 ==> forall m :: 0 <= m < |xs| ==> xs[m] != JStr(target)
  {
    if xs == [] then -1
    else if xs[0] == JStr(target) then 0
    else
      var k := FindIndex(xs[1..], target);
      if k < 0 then -1 else k + 1
  }

  /**
   * The order GET gives the default section with this id: its position in
   * `sectionOrder`, or its index among the defaults when absent.
   */
  function StoredRank(defaults: seq<Section>, sectionOrder: seq<Json>, id: string): int {
    var k := FindIndex(sectionOrder, id);
    if 0 <= k then k else IndexOfId(defaults, id)
  }

  /** The i-th default section as GET rebuilds it. */
  function Rebuild(defaults: seq<Section>, sectionOrder: seq<Json>, hiddenItems: seq<Json>, i: nat): Section
    requires i < |defaults|
  {
    var d := defaults[i];
    var k := FindIndex(sectionOrder, d.id);
    d.(order := if 0 <= k then k else i, visible := JStr(d.id) !in hiddenItems)
  }

  /** `DEFAULT_CUSTOMIZATION.sections.map(...)`, before the sort. */
  function Reconstruct(defaults: seq<Section>, sectionOrder: seq<Json>, hiddenItems: seq<Json>): (r: seq<Section>)
    ensures |r| == |defaults|
    ensures forall i :: 0 <= i < |r| ==> r[i] == Rebuild(defaults, sectionOrder, hiddenItems, i)
  {
    seq(|defaults|, i requires 0 <= i < |defaults| => Rebuild(defaults, sectionOrder, hiddenItems, i))
  }

  /** The sections GET returns for a stored row. */
  function DecodeSections(sectionOrder: Json, hiddenItems: Json): seq<Section> {
    SortByOrder(Reconstruct(DefaultSections, AsArray(sectionOrder), AsArray(hiddenItems)))
  }

  function Decode(record: MenuRecord): Loaded {
    Loaded(DecodeSections(record.sectionOrder, record.hiddenItems), AsArray(record.bookmarks), AsArray(record.practiceItems))
  }

  /** GET /api/portal/menu-customization. */
  function Get(userId: Option<string>, table: Table, dbFails: bool): (r: Response)
    ensures r == Unauthorized <==> userId.None?
    ensures userId.Some? && !dbFails && userId.value !in table ==> r == Data(DefaultLoaded)
    ensures userId.Some? && !dbFails && userId.value in table ==> r == Data(Decode(table[userId.value]))
    ensures userId.Some? && dbFails ==> r == ServerError("Failed to fetch menu customization")
  {
    if userId.None? then Unauthorized
    else if dbFails then ServerError("Failed to fetch menu customization")
    else if userId.value !in table then Data(DefaultLoaded)
    else Data(Decode(table[userId.value]))
  }

  /** DELETE /api/portal/menu-customization: `deleteMany({ where: { userId } })`. */
  function Delete(userId: Option<string>, table: Table, dbFails: bool): (r: (Response, Table))
    ensures r.0 == Unauthorized <==> userId.None?
    ensures r.0 == ResetToDefaults <==> userId.Some? && !dbFails
    ensures userId.Some? && dbFails ==> r.0 == ServerError("Failed to reset menu customization")
    ensures r.0 != ResetToDefaults ==> r.1 == table
    ensures r.0 == ResetToDefaults ==>
      && userId.value !in r.1
      && (forall u :: u in r.1 <==> u in table && u != userId.value)
      && (forall u :: u in r.1 ==> r.1[u] == table[u])
  {
    if userId.None? then (Unauthorized, table)
    else if dbFails then (ServerError("Failed to reset menu customization"), table)
    else (ResetToDefaults, table - {userId.value})
  }

  // ---------------------------------------------------------------- validation

  /** `z.string()`, `z.boolean()`, `z.number()` on a property of an object. */
  predicate StrField(v: Json, key: string) {
    v.JObj? && key in v.fields && v.fields[key].JStr?
  }

  predicate BoolField(v: Json, key: string) {
    v.JObj? && key in v.fields && v.fields[key].JBool?
  }

  predicate NumField(v: Json, key: string) {
    v.JObj? && key in v.fields && v.fields[key].JNum?
  }

  predicate ArrField(v: Json, key: string) {
    v.JObj? && key in v.fields && v.fields[key].JArr?
  }

  function ParseSection(v: Json): Option<Section> {
    if StrField(v, "id") && StrField(v, "label") && BoolField(v, "visible") && NumField(v, "order")
    then Some(Section(v.fields["id"].s, v.fields["label"].s, v.fields["visible"].b, v.fields["order"].n))
    else None
  }

  function ParseBookmark(v: Json): Option<Bookmark> {
    if StrField(v, "id") && StrField(v, "label") && StrField(v, "href") && NumField(v, "order")
    then Some(Bookmark(v.fields["id"].s, v.fields["label"].s, v.fields["href"].s, v.fields["order"].n))
    else None
  }

  /** `url: z.string().url()`: the URL test is the library's and is a parameter. */
  function ParsePracticeItem(v: Json, isUrl: string -> bool): Option<PracticeItem> {
    if StrField(v, "id") && StrField(v, "label") && StrField(v, "url") && isUrl(v.fields["url"].s) && NumField(v, "order")
    then Some(PracticeItem(v.fields["id"].s, v.fields["label"].s, v.fields["url"].s, v.fields["order"].n))
    else None
  }

  /** `z.array(item)`: every element must parse. */
  function ParseAll<T>(items: seq<Json>, parse: Json -> Option<T>): (r: Option<seq<T>>)
    ensures r.Some? <==> forall i :: 0 <= i < |items| ==> parse(items[i]).Some?
    ensures r.Some? ==> |r.value| == |items| && forall i :: 0 <= i < |items| ==> r.value[i] == parse(items[i]).value
  {
    if items == [] then Some([])
    else
      var rest := ParseAll(items[1..], parse);
      assert forall i :: 1 <= i < |items| ==> items[i] == items[1..][i - 1];
      if parse(items[0]).Some? && rest.Some? then Some([parse(items[0]).value] + rest.value) else None
  }

  /** `customizationSchema.safeParse(body)`; unknown properties are dropped. */
  function ParseCustomization(body: Json, isUrl: string -> bool): Option<Customization> {
    if ArrField(body, "sections") && ArrField(body, "bookmarks") && ArrField(body, "practiceItems") then
      var sections := ParseAll(body.fields["sections"].items, ParseSection);
      var bookmarks := ParseAll(body.fields["bookmarks"].items, ParseBookmark);
      var practice := ParseAll(body.fields["practiceItems"].items, (v: Json) => ParsePracticeItem(v, isUrl));
      if sections.Some? && bookmarks.Some? && practice.Some?
      then Some(Customization(sections.value, bookmarks.value, practice.value))
      else None
    else None
  }

  lemma SectionJsonRoundTrip(x: Section)
    ensures ParseSection(SectionToJson(x)) == Some(x)
  {
  }

  lemma BookmarkJsonRoundTrip(x: Bookmark)
    ensures ParseBookmark(BookmarkToJson(x)) == Some(x)
  {
  }

  lemma PracticeItemJsonRoundTrip(x: PracticeItem, isUrl: string -> bool)
    ensures ParsePracticeItem(PracticeItemToJson(x), isUrl) == if isUrl(x.url) then Some(x) else None
  {
  }

  lemma ParseSectionsJson(s: seq<Section>)
    ensures ParseAll(SectionsJson(s), ParseSection) == Some(s)
  {
    var v := SectionsJson(s);
    forall i | 0 <= i < |s| ensures ParseSection(v[i]) == Some(s[i]) {
      SectionJsonRoundTrip(s[i]);
    }
    var r := ParseAll(v, ParseSection);
    assert r.Some?;
    assert r.value == s;
  }

  lemma ParseBookmarksJson(b: seq<Bookmark>)
    ensures ParseAll(BookmarksJson(b), ParseBookmark) == Some(b)
  {
    var v := BookmarksJson(b);
    forall i | 0 <= i < |b| ensures ParseBookmark(v[i]) == Some(b[i]) {
      BookmarkJsonRoundTrip(b[i]);
    }
    var r := ParseAll(v, ParseBookmark);
    assert r.Some?;
    assert r.value == b;
  }

  lemma ParsePracticeItemsJson(p: seq<PracticeItem>, isUrl: string -> bool)
    ensures ParseAll(PracticeItemsJson(p), (v: Json) => ParsePracticeItem(v, isUrl))
      == if forall i :: 0 <= i < |p| ==> isUrl(p[i].url) then Some(p) else None
  {
    var parse := (v: Json) => ParsePracticeItem(v, isUrl);
    var v := PracticeItemsJson(p);
    var r := ParseAll(v, parse);
    if forall i :: 0 <= i < |p| ==> isUrl(p[i].url) {
      forall i | 0 <= i < |p| ensures parse(v[i]) == Some(p[i]) {
        PracticeItemJsonRoundTrip(p[i], isUrl);
      }
      assert r.Some?;
      assert r.value == p;
    } else {
      var i :| 0 <= i < |p| && !isUrl(p[i].url);
      PracticeItemJsonRoundTrip(p[i], isUrl);
      assert parse(v[i]).None?;
    }
  }

  /** The schema accepts the JSON form of a customisation iff every practice link is a URL. */
  lemma ParseCustomizationToJson(c: Customization, isUrl: string -> bool)
    ensures ParseCustomization(CustomizationToJson(c), isUrl)
      == if forall i :: 0 <= i < |c.practiceItems| ==> isUrl(c.practiceItems[i].url) then Some(c) else None
  {
    var body := CustomizationToJson(c);
    assert body.fields["sections"] == JArr(SectionsJson(c.sections));
    assert body.fields["bookmarks"] == JArr(BookmarksJson(c.bookmarks));
    assert body.fields["practiceItems"] == JArr(PracticeItemsJson(c.practiceItems));
    ParseSectionsJson(c.sections);
    ParseBookmarksJson(c.bookmarks);
    ParsePracticeItemsJson(c.practiceItems, isUrl);
  }

  // ------------------------------------------------------------------ encoding

  /** A JSON array of strings. */
  function StrArray(xs: seq<string>): (v: seq<Json>)
    ensures |v| == |xs|
    ensures forall i :: 0 <= i < |xs| ==> v[i] == JStr(xs[i])
  {
    seq(|xs|, i requires 0 <= i < |xs| => JStr(xs[i]))
  }

  /**
   * `sectionOrder` and `hiddenItems` of a PUT: the array is sorted in place
   * first, so both lists follow ascending order.
   */
  method Encode(sections: seq<Section>) returns (sectionOrder: seq<string>, hiddenItems: seq<string>)
    ensures sectionOrder == Ids(SortByOrder(sections))
    ensures hiddenItems == HiddenIds(SortByOrder(sections))
  {
    var a := new Section[|sections|](i requires 0 <= i < |sections| => sections[i]);
    assert a[..] == sections;
    SortInPlace(a);
    var sorted := a[..];
    sectionOrder := Ids(sorted);
    hiddenItems := HiddenIds(sorted);
  }

  /** The row PUT upserts for a validated customisation. */
  function StoredRecord(c: Customization): MenuRecord {
    var sorted := SortByOrder(c.sections);
    MenuRecord(
      JArr(StrArray(Ids(sorted))),
      JArr(StrArray(HiddenIds(sorted))),
      JArr(BookmarksJson(c.bookmarks)),
      JArr(PracticeItemsJson(c.practiceItems)))
  }

  /**
   * PUT /api/portal/menu-customization. `body` is None when the request body
   * is not JSON: `request.json()` throws inside the try block, so that is a 500.
   */
  method Put(userId: Option<string>, body: Option<Json>, isUrl: string -> bool, table: Table, dbFails: bool)
    returns (r: Response, table': Table)
    ensures userId.None? ==> r == Unauthorized
    ensures userId.Some? && body.None? ==> r == ServerError("Failed to save menu customization")
    ensures userId.Some? && body.Some? && ParseCustomization(body.value, isUrl).None? ==> r == InvalidData
    ensures userId.Some? && body.Some? && ParseCustomization(body.value, isUrl).Some? ==>
      r == (if dbFails then ServerError("Failed to save menu customization") else Saved)
    ensures r == Saved ==> table' == table[userId.value := StoredRecord(ParseCustomization(body.value, isUrl).value)]
    ensures r != Saved ==> table' == table
  {
    if userId.None? {
      return Unauthorized, table;
    }
    if body.None? {
      return ServerError("Failed to save menu customization"), table;
    }
    var validation := ParseCustomization(body.value, isUrl);
    if validation.None? {
      return InvalidData, table;
    }
    var c := validation.value;
    var sectionOrder, hiddenItems := Encode(c.sections);
    if dbFails {
      return ServerError("Failed to save menu customization"), table;
    }
    var row := MenuRecord(
      JArr(StrArray(sectionOrder)),
      JArr(StrArray(hiddenItems)),
      JArr(BookmarksJson(c.bookmarks)),
      JArr(PracticeItemsJson(c.practiceItems)));
    return Saved, table[userId.value := row];
  }

  // -------------------------------------------------------------------- lemmas

  /** After DELETE, GET answers with the defaults again. */
  lemma GetAfterDelete(userId: string, table: Table)
    ensures Get(Some(userId), Delete(Some(userId), table, false).1, false) == Data(DefaultLoaded)
  {
  }

  /** Without a user neither GET nor DELETE writes anything, and both answer 401. */
  lemma UnauthorizedChangesNothing(table: Table, dbFails: bool)
    ensures Get(None, table, dbFails) == Unauthorized
    ensures Delete(None, table, dbFails) == (Unauthorized, table)
  {
  }

  /** A section as GET may return it: a default id and label, the stored rank and visibility. */
  predicate DecodedFrom(defaults: seq<Section>, sectionOrder: seq<Json>, hiddenItems: seq<Json>, x: Section) {
    var d := IndexOfId(defaults, x.id);
    && 0 <= d
    && x.title == defaults[d].title
    && x.order == StoredRank(defaults, sectionOrder, x.id)
    && x.visible == (JStr(x.id) !in hiddenItems)
  }

  lemma RebuildDecoded(defaults: seq<Section>, xs: seq<Json>, hs: seq<Json>, i: nat)
    requires DistinctIds(defaults) && i < |defaults|
    ensures Rebuild(defaults, xs, hs, i).id == defaults[i].id
    ensures DecodedFrom(defaults, xs, hs, Rebuild(defaults, xs, hs, i))
  {
  }

  lemma ReconstructDistinctIds(defaults: seq<Section>, xs: seq<Json>, hs: seq<Json>)
    requires DistinctIds(defaults)
    ensures DistinctBy(Reconstruct(defaults, xs, hs), (s: Section) => s.id)
  {
    var rec := Reconstruct(defaults, xs, hs);
    forall i, j | 0 <= i < j < |rec| ensures rec[i].id != rec[j].id {
      assert rec[i].id == defaults[i].id && rec[j].id == defaults[j].id;
    }
  }

  /**
   * The shape of a decoded list: as many sections as defaults, sorted by
   * order, distinct ids, every default present and each section decoded
   * from the stored columns.
   */
  predicate DecodedShape(defaults: seq<Section>, xs: seq<Json>, hs: seq<Json>, r: seq<Section>) {
    && |r| == |defaults|
    && SortedByOrder(r)
    && DistinctIds(r)
    && (forall i :: 0 <= i < |defaults| ==> defaults[i].id in Ids(r))
    && (forall k :: 0 <= k < |r| ==> DecodedFrom(defaults, xs, hs, r[k]))
  }

  /** DecodeSectionsShape for any list of defaults with distinct ids. */
  lemma RebuiltSortedShape(defaults: seq<Section>, xs: seq<Json>, hs: seq<Json>)
    requires DistinctIds(defaults)
    ensures DecodedShape(defaults, xs, hs, SortByOrder(Reconstruct(defaults, xs, hs)))
  {
    var rec := Reconstruct(defaults, xs, hs);
    var r := SortByOrder(rec);
    SortByOrderPermutation(rec);
    SortByOrderSorted(rec);
    ReconstructDistinctIds(defaults, xs, hs);
    PermutationKeepsDistinct(rec, r, (s: Section) => s.id);
    assert DistinctIds(r) by {
      forall i, j | 0 <= i < j < |r| ensures r[i].id != r[j].id {
        assert ((s: Section) => s.id)(r[i]) != ((s: Section) => s.id)(r[j]);
      }
    }
    DefaultsPresent(defaults, xs, hs, r);
    AllDecoded(defaults, xs, hs, r);
  }

  lemma DefaultsPresent(defaults: seq<Section>, xs: seq<Json>, hs: seq<Json>, r: seq<Section>)
    requires DistinctIds(defaults)
    requires multiset(r) == multiset(Reconstruct(defaults, xs, hs))
    ensures forall i :: 0 <= i < |defaults| ==> defaults[i].id in Ids(r)
  {
    var rec := Reconstruct(defaults, xs, hs);
    forall i | 0 <= i < |defaults|
      ensures defaults[i].id in Ids(r)
    {
      RebuildDecoded(defaults, xs, hs, i);
      assert rec[i] in multiset(r);
      var k :| 0 <= k < |r| && r[k] == rec[i];
      assert Ids(r)[k] == defaults[i].id;
    }
  }

  lemma AllDecoded(defaults: seq<Section>, xs: seq<Json>, hs: seq<Json>, r: seq<Section>)
    requires DistinctIds(defaults)
    requires multiset(r) == multiset(Reconstruct(defaults, xs, hs))
    ensures forall k :: 0 <= k < |r| ==> DecodedFrom(defaults, xs, hs, r[k])
  {
    var rec := Reconstruct(defaults, xs, hs);
    forall k | 0 <= k < |r|
      ensures DecodedFrom(defaults, xs, hs, r[k])
    {
      assert r[k] in multiset(rec);
      var i :| 0 <= i < |rec| && rec[i] == r[k];
      RebuildDecoded(defaults, xs, hs, i);
    }
  }

  /**
   * Whatever is stored, GET yields the five default sections, each exactly
   * once and with its default label, sorted by order; a section's order is its
   * position in `sectionOrder` (its default index when absent) and it is
   * visible iff its id is not in `hiddenItems`. Non-array columns count as [].
   */
  lemma DecodeSectionsShape(sectionOrder: Json, hiddenItems: Json)
    ensures DecodedShape(DefaultSections, AsArray(sectionOrder), AsArray(hiddenItems), DecodeSections(sectionOrder, hiddenItems))
  {
    DefaultIdsDistinct();
    RebuiltSortedShape(DefaultSections, AsArray(sectionOrder), AsArray(hiddenItems));
  }

  /** The stored row, as GET reads it, for a customisation saved by PUT. */
  lemma StoredRecordColumns(c: Customization)
    ensures AsArray(StoredRecord(c).sectionOrder) == StrArray(Ids(SortByOrder(c.sections)))
    ensures AsArray(StoredRecord(c).hiddenItems) == StrArray(HiddenIds(SortByOrder(c.sections)))
  {
  }

  /** Sections as a GET after a PUT returns them: ranks 0..n-1 and the default labels. */
  function Ranked(defaults: seq<Section>, sorted: seq<Section>): (r: seq<Section>)
    ensures |r| == |sorted|
  {
    seq(|sorted|, k requires 0 <= k < |sorted| =>
      var d := IndexOfId(defaults, sorted[k].id);
      Section(sorted[k].id, if 0 <= d then defaults[d].title else sorted[k].title, sorted[k].visible, k))
  }

  /** A string is in a JSON string array iff it is in the underlying list. */
  lemma StrArrayMembership(xs: seq<string>, x: string)
    ensures JStr(x) in StrArray(xs) <==> x in xs
  {
    if x in xs {
      var i :| 0 <= i < |xs| && xs[i] == x;
      assert StrArray(xs)[i] == JStr(x);
    }
  }

  /** With distinct ids, a section's id is listed as hidden iff that section is not visible. */
  lemma HiddenIffInvisible(sorted: seq<Section>, k: nat)
    requires k < |sorted| && DistinctIds(sorted)
    ensures JStr(sorted[k].id) in StrArray(HiddenIds(sorted)) <==> !sorted[k].visible
  {
    StrArrayMembership(HiddenIds(sorted), sorted[k].id);
    HiddenIdsMembership(sorted, sorted[k].id);
    if sorted[k].id in HiddenIds(sorted) {
      var m :| 0 <= m < |sorted| && sorted[m].id == sorted[k].id && !sorted[m].visible;
      assert m == k;
    }
  }

  /** The input facts the round trip needs, carried over to the sorted list. */
  lemma SortedPermutationOf(defaults: seq<Section>, sections: seq<Section>)
    requires DistinctIds(defaults)
    requires multiset(Ids(sections)) == multiset(Ids(defaults))
    ensures var sorted := SortByOrder(sections);
      && |sections| == |sorted| == |defaults|
      && multiset(sorted) == multiset(sections)
      && DistinctIds(sorted)
      && forall i :: 0 <= i < |defaults| ==> defaults[i].id in Ids(sorted)
  {
    var idKey := (s: Section) => s.id;
    SameIdsDistinct(defaults, sections);
    var sorted := SortByOrder(sections);
    SortByOrderPermutation(sections);
    PermutationKeepsDistinct(sections, sorted, idKey);
    assert DistinctIds(sorted) by {
      forall i, j | 0 <= i < j < |sorted| ensures sorted[i].id != sorted[j].id {
        assert idKey(sorted[i]) != idKey(sorted[j]);
      }
    }
    DefaultsInSorted(defaults, sections, sorted);
  }

  /** Sections carrying the ids of distinct defaults are as many and have distinct ids. */
  lemma SameIdsDistinct(defaults: seq<Section>, sections: seq<Section>)
    requires DistinctIds(defaults)
    requires multiset(Ids(sections)) == multiset(Ids(defaults))
    ensures |sections| == |defaults|
    ensures DistinctBy(sections, (s: Section) => s.id)
  {
    var defIds := Ids(defaults);
    assert |multiset(Ids(sections))| == |Ids(sections)|;
    assert |multiset(defIds)| == |defIds|;
    assert DistinctBy(defIds, (x: string) => x);
    PermutationKeepsDistinct(defIds, Ids(sections), (x: string) => x);
    forall i, j | 0 <= i < j < |sections| ensures sections[i].id != sections[j].id {
      assert Ids(sections)[i] != Ids(sections)[j];
    }
  }

  lemma {:induction false} DefaultsInSorted(defaults: seq<Section>, sections: seq<Section>, sorted: seq<Section>)
    requires multiset(Ids(sections)) == multiset(Ids(defaults))
    requires multiset(sorted) == multiset(sections)
    ensures forall i :: 0 <= i < |defaults| ==> defaults[i].id in Ids(sorted)
  {
    forall i | 0 <= i < |defaults|
      ensures defaults[i].id in Ids(sorted)
    {
      DefaultInSorted(defaults, sections, sorted, i);
    }
  }

  lemma DefaultInSorted(defaults: seq<Section>, sections: seq<Section>, sorted: seq<Section>, i: int)
    requires multiset(Ids(sections)) == multiset(Ids(defaults))
    requires multiset(sorted) == multiset(sections)
    requires 0 <= i < |defaults|
    ensures defaults[i].id in Ids(sorted)
  {
    var defIds := Ids(defaults);
    assert defIds[i] in multiset(Ids(sections));
    var p :| 0 <= p < |sections| && Ids(sections)[p] == defIds[i];
    assert sections[p] in multiset(sorted);
    var m :| 0 <= m < |sorted| && sorted[m] == sections[p];
    assert Ids(sorted)[m] == defaults[i].id;
  }

  /** Looking up a listed string in a JSON string array finds a position holding it. */
  lemma FindIndexInStrArray(xs: seq<string>, x: string, m: nat)
    requires m < |xs| && xs[m] == x
    ensures var k := FindIndex(StrArray(xs), x); 0 <= k < |xs| && xs[k] == x
  {
    assert StrArray(xs)[m] == JStr(x);
  }

  /** Rebuilding from the encoded ids gives each default section its position in the sorted list. */
  lemma RebuiltOrdersArePositions(defaults: seq<Section>, sorted: seq<Section>, hs: seq<Json>)
    requires DistinctIds(defaults)
    requires |sorted| == |defaults| && DistinctIds(sorted)
    requires forall i :: 0 <= i < |defaults| ==> defaults[i].id in Ids(sorted)
    ensures var rec := Reconstruct(defaults, StrArray(Ids(sorted)), hs);
      && (forall i :: 0 <= i < |rec| ==> 0 <= rec[i].order < |rec| && sorted[rec[i].order].id == defaults[i].id)
      && DistinctBy(rec, (s: Section) => s.order)
  {
    var n := |defaults|;
    var ids := Ids(sorted);
    var rec := Reconstruct(defaults, StrArray(ids), hs);
    forall i | 0 <= i < n
      ensures 0 <= rec[i].order < n && sorted[rec[i].order].id == defaults[i].id
    {
      var m :| 0 <= m < n && ids[m] == defaults[i].id;
      FindIndexInStrArray(ids, defaults[i].id, m);
      assert rec[i].order == FindIndex(StrArray(ids), defaults[i].id);
    }
    forall i, j | 0 <= i < j < n ensures rec[i].order != rec[j].order {
      assert defaults[i].id != defaults[j].id;
    }
  }

  /** Sorting a list whose orders are exactly 0..n-1 puts the element with order k at position k. */
  lemma SortPositions(rec: seq<Section>)
    requires forall i :: 0 <= i < |rec| ==> 0 <= rec[i].order < |rec|
    requires DistinctBy(rec, (s: Section) => s.order)
    ensures var r := SortByOrder(rec);
      && |r| == |rec|
      && forall k :: 0 <= k < |r| ==> r[k].order == k && exists i :: 0 <= i < |rec| && rec[i] == r[k]
  {
    var r := SortByOrder(rec);
    SortByOrderPermutation(rec);
    SortByOrderSorted(rec);
    PermutationKeepsDistinct(rec, r, (s: Section) => s.order);
    forall k | 0 <= k < |r| ensures 0 <= r[k].order < |r| && exists i :: 0 <= i < |rec| && rec[i] == r[k] {
      assert r[k] in multiset(rec);
    }
    OrdersAreRanks(r);
  }

  /** The default section rebuilt at rank k of the sorted list is the k-th ranked section. */
  lemma RebuiltIsRanked(defaults: seq<Section>, sorted: seq<Section>, i: nat, k: nat)
    requires DistinctIds(defaults) && DistinctIds(sorted)
    requires i < |defaults| && k < |sorted| && sorted[k].id == defaults[i].id
    ensures defaults[i].(order := k, visible := JStr(defaults[i].id) !in StrArray(HiddenIds(sorted)))
      == Ranked(defaults, sorted)[k]
  {
    HiddenIffInvisible(sorted, k);
    assert IndexOfId(defaults, sorted[k].id) == i;
  }

  /** EncodeDecodeRoundTrip for any list of defaults with distinct ids. */
  lemma {:induction false} RoundTripOver(defaults: seq<Section>, sections: seq<Section>)
    requires DistinctIds(defaults)
    requires multiset(Ids(sections)) == multiset(Ids(defaults))
    ensures |sections| == |defaults|
    ensures var sorted := SortByOrder(sections);
      SortByOrder(Reconstruct(defaults, StrArray(Ids(sorted)), StrArray(HiddenIds(sorted)))) == Ranked(defaults, sorted)
  {
    SortedPermutationOf(defaults, sections);
    var sorted := SortByOrder(sections);
    var hs := StrArray(HiddenIds(sorted));
    RebuiltOrdersArePositions(defaults, sorted, hs);
    var rec := Reconstruct(defaults, StrArray(Ids(sorted)), hs);
    var r := SortByOrder(rec);
    SortPositions(rec);
    forall k | 0 <= k < |r| ensures r[k] == Ranked(defaults, sorted)[k] {
      var i :| 0 <= i < |rec| && rec[i] == r[k];
      RebuiltIsRanked(defaults, sorted, i, k);
    }
  }

  /**
   * Round trip: encode a permutation of the default sections, then decode.
   * The result lists the ids in the stable ascending order of the original
   * orders with the same visibility; orders become the ranks 0..4 and labels
   * revert to the defaults.
   */
  lemma {:induction false} EncodeDecodeRoundTrip(sections: seq<Section>)
    requires multiset(Ids(sections)) == multiset(Ids(DefaultSections))
    ensures |sections| == |DefaultSections|
    ensures var sorted := SortByOrder(sections);
      DecodeSections(JArr(StrArray(Ids(sorted))), JArr(StrArray(HiddenIds(sorted)))) == Ranked(DefaultSections, sorted)
  {
    DefaultIdsDistinct();
    RoundTripOver(DefaultSections, sections);
  }

  /**
   * GET after a successful PUT of a permutation of the default sections
   * returns the ranked sections and the saved bookmarks and practice links.
   */
  lemma {:induction false} GetAfterPut(userId: string, table: Table, c: Customization)
    requires multiset(Ids(c.sections)) == multiset(Ids(DefaultSections))
    ensures Get(Some(userId), table[userId := StoredRecord(c)], false)
      == Data(Loaded(Ranked(DefaultSections, SortByOrder(c.sections)), BookmarksJson(c.bookmarks), PracticeItemsJson(c.practiceItems)))
  {
    EncodeDecodeRoundTrip(c.sections);
  }
}
