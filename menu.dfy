/**
 * The portal menu customisation: the section list, bookmarks and practice
 * links a user can configure, and the factory defaults the route and the
 * store share.
 */
module Menu {
  // `label` is a reserved word in Dafny, so the source's `label` fields are named `title` here.
  import opened Json

  datatype Section = Section(id: string, title: string, visible: bool, order: int)

  datatype Bookmark = Bookmark(id: string, title: string, href: string, order: int)

  datatype PracticeItem = PracticeItem(id: string, title: string, url: string, order: int)

  datatype Customization = Customization(
    sections: seq<Section>,
    bookmarks: seq<Bookmark>,
    practiceItems: seq<PracticeItem>)

  /** The five sections every portal menu starts with, in their default order. */
  const DefaultSections: seq<Section> := [
    Section("overview", "Overview", true, 0),
    Section("compliance", "Compliance", true, 1),
    Section("financials", "Financials", true, 2),
    Section("operations", "Operations", true, 3),
    Section("support", "Support", true, 4)
  ]

  const DefaultCustomization: Customization := Customization(DefaultSections, [], [])

  /** `sections.map(s => s.id)`. */
  function Ids(s: seq<Section>): (ids: seq<string>)
    ensures |ids| == |s|
    ensures forall i :: 0 <= i < |s| ==> ids[i] == s[i].id
  {
    seq(|s|, i requires 0 <= i < |s| => s[i].id)
  }

  /** `sections.filter(s => !s.visible).map(s => s.id)`. */
  function HiddenIds(s: seq<Section>): seq<string> {
    if s == [] then []
    else if s[0].visible then HiddenIds(s[1..])
    else [s[0].id] + HiddenIds(s[1..])
  }

  /** An id is listed as hidden iff some section with that id is not visible. */
  lemma {:induction false} HiddenIdsMembership(s: seq<Section>, id: string)
    ensures id in HiddenIds(s) <==> exists i :: 0 <= i < |s| && s[i].id == id && !s[i].visible
  {
    if s != [] {
      HiddenIdsMembership(s[1..], id);
      assert forall i :: 1 <= i < |s| ==> s[i] == s[1..][i - 1];
      if exists i :: 0 <= i < |s| && s[i].id == id && !s[i].visible {
        var i :| 0 <= i < |s| && s[i].id == id && !s[i].visible;
        if i > 0 {
          assert s[1..][i - 1].id == id && !s[1..][i - 1].visible;
        }
      }
    }
  }

  /** No two sections share an id. */
  predicate DistinctIds(s: seq<Section>) {
    forall i, j :: 0 <= i < j < |s| ==> s[i].id != s[j].id
  }

  /** The position of the first section with this id, or -1. */
  function IndexOfId(s: seq<Section>, id: string): (k: int)
    ensures -1 <= k < |s|
    ensures 0 <= k ==> s[k].id == id
    ensures k < 0 ==> forall i :: 0 <= i < |s| ==> s[i].id != id
  {
    if s == [] then -1
    else if s[0].id == id then 0
    else
      var k := IndexOfId(s[1..], id);
      if k < 0 then -1 else k + 1
  }

  /** The default index of a section id, or -1 when it is not a default section. */
  function DefaultIndex(id: string): int {
    IndexOfId(DefaultSections, id)
  }

  lemma DefaultIdsDistinct()
    ensures DistinctIds(DefaultSections)
  {
  }

  /** Section values as JSON, the shape the request body carries. */
  function SectionToJson(s: Section): Json {
    JObj(map["id" := JStr(s.id), "label" := JStr(s.title), "visible" := JBool(s.visible), "order" := JNum(s.order)])
  }

  function BookmarkToJson(b: Bookmark): Json {
    JObj(map["id" := JStr(b.id), "label" := JStr(b.title), "href" := JStr(b.href), "order" := JNum(b.order)])
  }

  function PracticeItemToJson(p: PracticeItem): Json {
    JObj(map["id" := JStr(p.id), "label" := JStr(p.title), "url" := JStr(p.url), "order" := JNum(p.order)])
  }

  function SectionsJson(s: seq<Section>): (v: seq<Json>)
    ensures |v| == |s| && forall i :: 0 <= i < |s| ==> v[i] == SectionToJson(s[i])
  {
    seq(|s|, i requires 0 <= i < |s| => SectionToJson(s[i]))
  }

  function BookmarksJson(b: seq<Bookmark>): (v: seq<Json>)
    ensures |v| == |b| && forall i :: 0 <= i < |b| ==> v[i] == BookmarkToJson(b[i])
  {
    seq(|b|, i requires 0 <= i < |b| => BookmarkToJson(b[i]))
  }

  function PracticeItemsJson(p: seq<PracticeItem>): (v: seq<Json>)
    ensures |v| == |p| && forall i :: 0 <= i < |p| ==> v[i] == PracticeItemToJson(p[i])
  {
    seq(|p|, i requires 0 <= i < |p| => PracticeItemToJson(p[i]))
  }

  /** `JSON.stringify(customization)` as the request body carries it. */
  function CustomizationToJson(c: Customization): Json {
    JObj(map[
      "sections" := JArr(SectionsJson(c.sections)),
      "bookmarks" := JArr(BookmarksJson(c.bookmarks)),
      "practiceItems" := JArr(PracticeItemsJson(c.practiceItems))
    ])
  }
}
