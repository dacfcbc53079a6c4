/**
 * The Your Practice tab: adding a custom link after validating the typed
 * label and URL, and removing links. `new URL(...)` is the parameter
 * `parsesAsUrl`; the id `practice-${Date.now()}` is the parameter `freshId`.
 */
module PracticeTab {
  import opened Wrappers
  import opened Text
  import opened Menu
  import opened ListOps

  /** `url.startsWith('http') ? url : \`https://${url}\``. */
  function NormalizeUrl(url: string): (r: string)
    ensures StartsWith(url, "http") ==> r == url
    ensures !StartsWith(url, "http") ==> r == "https://" + url
  {
    if StartsWith(url, "http") then url else "https://" + url
  }

  /** Normalising twice is normalising once: the prefixed form already starts with 'http'. */
  lemma NormalizeIdempotent(url: string)
    ensures NormalizeUrl(NormalizeUrl(url)) == NormalizeUrl(url)
    ensures StartsWith(NormalizeUrl(url), "http")
  {
    if !StartsWith(url, "http") {
      assert ("https://" + url)[..4] == "http";
    }
  }

  /** `items.filter(item => item.id !== id)`. */
  function RemoveItem(items: seq<PracticeItem>, id: string): (r: seq<PracticeItem>)
    ensures forall i :: 0 <= i < |r| ==> r[i].id != id
  {
    Filter(items, (p: PracticeItem) => p.id != id)
  }

  /** Removal filters out exactly the links with that id and keeps the rest in order. */
  lemma RemoveItemExact(items: seq<PracticeItem>, id: string, x: PracticeItem)
    ensures multiset(RemoveItem(items, id))[x] == if x.id == id then 0 else multiset(items)[x]
    ensures IsSubsequence(RemoveItem(items, id), items)
  {
    FilterCount(items, (p: PracticeItem) => p.id != id, x);
    FilterIsSubsequence(items, (p: PracticeItem) => p.id != id);
  }

  /** The add form's validation errors. */
  datatype AddError = LabelRequired | UrlRequired | InvalidUrl {
    function Message(): string {
      match this
      case LabelRequired => "Label is required"
      case UrlRequired => "URL is required"
      case InvalidUrl => "Please enter a valid URL"
    }
  }

  /** The first check `handleAddItem` fails, if any. */
  function AddCheck(typedLabel: string, typedUrl: string, parsesAsUrl: string -> bool): (e: Option<AddError>)
    ensures e == Some(LabelRequired) <==> IsBlank(typedLabel)
    ensures e == Some(UrlRequired) <==> !IsBlank(typedLabel) && IsBlank(typedUrl)
    ensures e == Some(InvalidUrl) <==> !IsBlank(typedLabel) && !IsBlank(typedUrl) && !parsesAsUrl(NormalizeUrl(typedUrl))
  {
    if IsBlank(typedLabel) then Some(LabelRequired)
    else if IsBlank(typedUrl) then Some(UrlRequired)
    else if !parsesAsUrl(NormalizeUrl(typedUrl)) then Some(InvalidUrl)
    else None
  }

  /** The tab's input fields and error over the links it shows. */
  class PracticeTabState {
    var items: seq<PracticeItem>
    var newLabel: string
    var newUrl: string
    var error: Option<AddError>

    constructor(c: Customization)
      ensures items == c.practiceItems && newLabel == "" && newUrl == "" && error.None?
    {
      items := c.practiceItems;
      newLabel := "";
      newUrl := "";
      error := None;
    }

    method SetInputs(typedLabel: string, typedUrl: string)
      modifies this
      ensures newLabel == typedLabel && newUrl == typedUrl && items == old(items) && error == old(error)
    {
      newLabel, newUrl := typedLabel, typedUrl;
    }

    /**
     * `handleAddItem`: clears the error, then rejects a blank label, a blank
     * URL or an unparseable URL, in that order, each with its message and no
     * change; otherwise emits the list with the new link appended and clears
     * both inputs.
     */
    method AddItem(parsesAsUrl: string -> bool, freshId: string) returns (change: Option<seq<PracticeItem>>)
      modifies this
      ensures items == old(items)
      ensures error == AddCheck(old(newLabel), old(newUrl), parsesAsUrl)
      ensures change.Some? <==> error.None?
      ensures error.Some? ==> newLabel == old(newLabel) && newUrl == old(newUrl)
      ensures change.Some? ==>
        && change.value == items + [PracticeItem(freshId, Trim(old(newLabel)), NormalizeUrl(old(newUrl)), |items|)]
        && newLabel == "" && newUrl == ""
    {
      var typedLabel, typedUrl := newLabel, newUrl;
      error := None;
      if IsBlank(typedLabel) {
        error := Some(LabelRequired);
        return None;
      }
      if IsBlank(typedUrl) {
        error := Some(UrlRequired);
        return None;
      }
      var url := NormalizeUrl(typedUrl);
      if !parsesAsUrl(url) {
        error := Some(InvalidUrl);
        return None;
      }
      var item := PracticeItem(freshId, Trim(typedLabel), url, |items|);
      change := Some(items + [item]);
      newLabel, newUrl := "", "";
    }
  }

  /**
   * A link the tab accepts carries a URL the same parser accepts, so a save
   * validated with that parser keeps it; its label is trimmed and non-empty.
   */
  lemma AddedItemIsValid(items: seq<PracticeItem>, typedLabel: string, url: string, parsesAsUrl: string -> bool, freshId: string)
    requires !IsBlank(typedLabel) && !IsBlank(url) && parsesAsUrl(NormalizeUrl(url))
    ensures var item := PracticeItem(freshId, Trim(typedLabel), NormalizeUrl(url), |items|);
      parsesAsUrl(item.url) && item.title != "" && item.title == Trim(item.title)
  {
    BlankIffTrimEmpty(typedLabel);
    TrimIdempotent(typedLabel);
  }
}
