/**
 * The Bookmarks tab: a fixed catalogue of portal pages, a search filter, the
 * pages grouped by category, and bookmark toggling and removal.
 */
module BookmarksTab {
  import opened Text
  import opened Menu
  import opened ListOps
  import opened Grouping

  datatype Page = Page(id: string, title: string, href: string, category: string)

  /** The pages a user can bookmark, in catalogue order. */
  const AvailablePages: seq<Page> := [
    Page("dashboard", "Dashboard", "/portal", "Overview"),
    Page("analytics", "Analytics", "/portal/analytics", "Overview"),
    Page("kyc", "KYC Center", "/portal/kyc", "Compliance"),
    Page("documents", "Documents", "/portal/documents", "Compliance"),
    Page("compliance", "Compliance", "/portal/compliance", "Compliance"),
    Page("invoicing", "Invoicing", "/portal/invoicing", "Financials"),
    Page("bills", "Bills", "/portal/bills", "Financials"),
    Page("expenses", "Expenses", "/portal/expenses", "Financials"),
    Page("tasks", "Tasks", "/portal/tasks", "Operations"),
    Page("bookings", "Bookings", "/portal/bookings", "Operations"),
    Page("service-requests", "Service Requests", "/portal/service-requests", "Operations"),
    Page("messages", "Messages", "/portal/messages", "Support"),
    Page("help", "Help Center", "/portal/help", "Support"),
    Page("settings", "Settings", "/portal/settings", "Support")
  ]

  /** The search match: lower-cased label or category contains the lower-cased, untrimmed query. */
  predicate Matches(page: Page, query: string) {
    Contains(ToLower(page.title), ToLower(query)) || Contains(ToLower(page.category), ToLower(query))
  }

  /** `filteredPages`: the whole catalogue for a blank query, otherwise the matching pages. */
  function FilterPages(query: string): (r: seq<Page>)
    ensures IsBlank(query) ==> r == AvailablePages
    ensures !IsBlank(query) ==> r == Filter(AvailablePages, p => Matches(p, query))
  {
    if IsBlank(query) then AvailablePages else Filter(AvailablePages, p => Matches(p, query))
  }

  /** The catalogue holds 14 pages. */
  lemma CatalogueSize()
    ensures |AvailablePages| == 14
  {
  }

  /** Outside the blank case, a page is listed, as often as it is catalogued, iff it matches. */
  lemma FilterPagesExact(query: string, page: Page)
    requires !IsBlank(query)
    ensures multiset(FilterPages(query))[page] == if Matches(page, query) then multiset(AvailablePages)[page] else 0
    ensures IsSubsequence(FilterPages(query), AvailablePages)
  {
    FilterCount(AvailablePages, p => Matches(p, query), page);
    FilterIsSubsequence(AvailablePages, p => Matches(p, query));
  }

  /** `groupedPages`: the filtered pages by category, categories in first-occurrence order. */
  method GroupedPages(query: string) returns (categories: seq<string>, groups: map<string, seq<Page>>)
    ensures categories == FirstKeys(FilterPages(query), (p: Page) => p.category)
    ensures forall c :: c in groups <==> c in categories
    ensures forall c :: c in groups ==> groups[c] == Select(FilterPages(query), (p: Page) => p.category, c)
  {
    categories, groups := GroupBy(FilterPages(query), (p: Page) => p.category);
  }

  /** `new Set(bookmarks.map(b => b.id))`. */
  function BookmarkedIds(bookmarks: seq<Bookmark>): (ids: set<string>)
    ensures forall id :: id in ids <==> exists i :: 0 <= i < |bookmarks| && bookmarks[i].id == id
  {
    set i | 0 <= i < |bookmarks| :: bookmarks[i].id
  }

  /** `bookmarks.filter(b => b.id !== id)`. */
  function RemoveBookmark(bookmarks: seq<Bookmark>, id: string): (r: seq<Bookmark>)
    ensures id !in BookmarkedIds(r)
  {
    Filter(bookmarks, (b: Bookmark) => b.id != id)
  }

  /** `handleToggleBookmark`: un-bookmark a bookmarked page, or append it with the next order. */
  function ToggleBookmark(bookmarks: seq<Bookmark>, page: Page): (r: seq<Bookmark>)
    ensures page.id in BookmarkedIds(bookmarks) ==> r == RemoveBookmark(bookmarks, page.id)
    ensures page.id !in BookmarkedIds(bookmarks) ==>
      r == bookmarks + [Bookmark(page.id, page.title, page.href, |bookmarks|)]
  {
    if page.id in BookmarkedIds(bookmarks) then RemoveBookmark(bookmarks, page.id)
    else bookmarks + [Bookmark(page.id, page.title, page.href, |bookmarks|)]
  }

  /** Removal drops every bookmark with the id and keeps every other one, in order. */
  lemma RemoveBookmarkExact(bookmarks: seq<Bookmark>, id: string, b: Bookmark)
    ensures multiset(RemoveBookmark(bookmarks, id))[b] == if b.id == id then 0 else multiset(bookmarks)[b]
    ensures IsSubsequence(RemoveBookmark(bookmarks, id), bookmarks)
  {
    FilterCount(bookmarks, (x: Bookmark) => x.id != id, b);
    FilterIsSubsequence(bookmarks, (x: Bookmark) => x.id != id);
  }

  /** After a toggle the page is bookmarked iff it was not before. */
  lemma ToggleFlips(bookmarks: seq<Bookmark>, page: Page)
    ensures page.id in BookmarkedIds(ToggleBookmark(bookmarks, page)) <==> page.id !in BookmarkedIds(bookmarks)
  {
    if page.id !in BookmarkedIds(bookmarks) {
      var r := ToggleBookmark(bookmarks, page);
      assert r[|bookmarks|].id == page.id;
    }
  }

  /** Toggling an unbookmarked page twice gives the original list back. */
  lemma ToggleTwiceRestores(bookmarks: seq<Bookmark>, page: Page)
    requires page.id !in BookmarkedIds(bookmarks)
    ensures ToggleBookmark(ToggleBookmark(bookmarks, page), page) == bookmarks
  {
    var b := Bookmark(page.id, page.title, page.href, |bookmarks|);
    var added := bookmarks + [b];
    assert added[|bookmarks|].id == page.id;
    assert ToggleBookmark(added, page) == RemoveBookmark(added, page.id);
    RemoveAppended(bookmarks, b);
    RemoveAbsent(bookmarks, page.id);
  }

  /** Removing the id of a just-appended bookmark removes it and nothing else. */
  lemma RemoveAppended(bookmarks: seq<Bookmark>, b: Bookmark)
    ensures RemoveBookmark(bookmarks + [b], b.id) == RemoveBookmark(bookmarks, b.id)
  {
    assert (bookmarks + [b])[..|bookmarks|] == bookmarks;
  }

  /** Removing an id no bookmark has changes nothing. */
  lemma RemoveAbsent(bookmarks: seq<Bookmark>, id: string)
    requires id !in BookmarkedIds(bookmarks)
    ensures RemoveBookmark(bookmarks, id) == bookmarks
  {
    assert forall i :: 0 <= i < |bookmarks| ==> bookmarks[i].id != id;
    FilterKeepsAll(bookmarks, (b: Bookmark) => b.id != id);
  }
}
