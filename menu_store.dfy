/**
 * The client store for the portal menu customisation: the committed
 * customisation, a separate draft the modal edits, and the `isLoading`,
 * `isSaving`, `isDirty` and `error` flags.
 *
 * Each async action is split at its `await`: `Begin*` is the synchronous
 * prefix (the guard and the first `set`), `Complete*` is what runs once the
 * request has settled, with the request's outcome as a parameter; the
 * undivided action (`Initialize`, `Save`, `Reset`) runs both with nothing in
 * between. A deep copy `JSON.parse(JSON.stringify(x))` of a value is the value.
 */
module MenuStore {
  import opened Wrappers
  import opened Menu

  /** How the GET request of `initialize` settles. */
  datatype LoadOutcome =
    | LoadOk(data: Option<Customization>)  // response.ok; `data.data`, absent when null or undefined
    | LoadNotOk                            // !response.ok
    | LoadThrew(message: Option<string>)   // fetch or json() threw; the Error's message, if an Error

  /** How the PUT or DELETE request of `save` or `reset` settles. */
  datatype WriteOutcome =
    | WriteOk
    | WriteNotOk
    | WriteThrew(message: Option<string>)

  /** `data.data || DEFAULT_CUSTOMIZATION` on success, `DEFAULT_CUSTOMIZATION` on failure. */
  function LoadedCustomization(o: LoadOutcome): (c: Customization)
    ensures o.LoadOk? && o.data.Some? ==> c == o.data.value
    ensures o.LoadNotOk? || o.LoadThrew? || o.data.None? ==> c == DefaultCustomization
  {
    if o.LoadOk? && o.data.Some? then o.data.value else DefaultCustomization
  }

  /**
   * The message the `catch` block records: the message of the Error thrown
   * for a non-OK response, the message of any other Error, or the fallback
   * when what was thrown is not an Error.
   */
  function CaughtMessage(notOk: bool, thrown: Option<string>, notOkMessage: string, fallback: string): (m: string)
    ensures notOk ==> m == notOkMessage
    ensures !notOk && thrown.Some? ==> m == thrown.value
    ensures !notOk && thrown.None? ==> m == fallback
  {
    if notOk then notOkMessage else thrown.GetOr(fallback)
  }

  function LoadError(o: LoadOutcome): string
    requires !o.LoadOk?
  {
    CaughtMessage(o.LoadNotOk?, if o.LoadThrew? then o.message else None, "Failed to load menu customization", "Failed to load")
  }

  function WriteError(o: WriteOutcome, notOkMessage: string, fallback: string): string
    requires !o.WriteOk?
  {
    CaughtMessage(o.WriteNotOk?, if o.WriteThrew? then o.message else None, notOkMessage, fallback)
  }

  class MenuCustomizationStore {
    var customization: Option<Customization>
    var draft: Option<Customization>
    var isLoading: bool
    var isSaving: bool
    var isDirty: bool
    var error: Option<string>

    /** Only an existing draft can be dirty. */
    predicate Valid()
      reads this
    {
      isDirty ==> draft.Some?
    }

    /** The initial state: nothing loaded, no draft, all flags clear. */
    constructor()
      ensures Valid()
      ensures customization.None? && draft.None?
      ensures !isLoading && !isSaving && !isDirty && error.None?
    {
      customization := None;
      draft := None;
      isLoading := false;
      isSaving := false;
      isDirty := false;
      error := None;
    }

    /** `initialize` up to its fetch: a no-op when loaded or loading, otherwise marks the load. */
    method BeginInitialize() returns (started: bool)
      requires Valid()
      modifies this
      ensures Valid()
      ensures started <==> old(customization).None? && !old(isLoading)
      ensures !started ==> unchanged(this)
      ensures started ==> isLoading && error.None?
      ensures started ==> (customization == old(customization) && draft == old(draft)
        && isSaving == old(isSaving) && isDirty == old(isDirty))
    {
      if customization.Some? || isLoading {
        return false;
      }
      isLoading, error := true, None;
      return true;
    }

    /** `initialize` after its fetch: always ends with a customisation and isLoading false. */
    method CompleteInitialize(outcome: LoadOutcome)
      requires Valid()
      modifies this
      ensures Valid()
      ensures customization == Some(LoadedCustomization(outcome)) && !isLoading
      ensures error == if outcome.LoadOk? then old(error) else Some(LoadError(outcome))
      ensures draft == old(draft) && isSaving == old(isSaving) && isDirty == old(isDirty)
    {
      if outcome.LoadOk? {
        customization := Some(if outcome.data.Some? then outcome.data.value else DefaultCustomization);
        isLoading := false;
      } else {
        customization := Some(DefaultCustomization);
        isLoading := false;
        error := Some(LoadError(outcome));
      }
    }

    /** `initialize` as a whole. */
    method Initialize(outcome: LoadOutcome)
      requires Valid()
      modifies this
      ensures Valid()
      ensures old(customization).Some? || old(isLoading) ==> unchanged(this)
      ensures old(customization).None? && !old(isLoading) ==>
        && customization == Some(LoadedCustomization(outcome))
        && !isLoading
        && error == (if outcome.LoadOk? then None else Some(LoadError(outcome)))
        && draft == old(draft) && isSaving == old(isSaving) && isDirty == old(isDirty)
    {
      var started := BeginInitialize();
      if started {
        CompleteInitialize(outcome);
      }
    }

    /** `initializeDraft`: the draft becomes a copy of the argument and is clean. */
    method InitializeDraft(c: Customization)
      requires Valid()
      modifies this
      ensures Valid()
      ensures draft == Some(c) && !isDirty
      ensures customization == old(customization) && isLoading == old(isLoading)
        && isSaving == old(isSaving) && error == old(error)
    {
      draft, isDirty := Some(c), false;
    }

    /** `updateDraftSections`: replaces only the draft's sections and marks it dirty. */
    method UpdateDraftSections(sections: seq<Section>)
      requires Valid()
      modifies this
      ensures Valid()
      ensures old(draft).None? ==> unchanged(this)
      ensures old(draft).Some? ==> draft == Some(old(draft).value.(sections := sections)) && isDirty
      ensures customization == old(customization) && isLoading == old(isLoading)
        && isSaving == old(isSaving) && error == old(error)
    {
      if draft.None? {
        return;
      }
      draft, isDirty := Some(draft.value.(sections := sections)), true;
    }

    /** `updateDraftBookmarks`: replaces only the draft's bookmarks and marks it dirty. */
    method UpdateDraftBookmarks(bookmarks: seq<Bookmark>)
      requires Valid()
      modifies this
      ensures Valid()
      ensures old(draft).None? ==> unchanged(this)
      ensures old(draft).Some? ==> draft == Some(old(draft).value.(bookmarks := bookmarks)) && isDirty
      ensures customization == old(customization) && isLoading == old(isLoading)
        && isSaving == old(isSaving) && error == old(error)
    {
      if draft.None? {
        return;
      }
      draft, isDirty := Some(draft.value.(bookmarks := bookmarks)), true;
    }

    /** `updateDraftPracticeItems`: replaces only the draft's practice links and marks it dirty. */
    method UpdateDraftPracticeItems(items: seq<PracticeItem>)
      requires Valid()
      modifies this
      ensures Valid()
      ensures old(draft).None? ==> unchanged(this)
      ensures old(draft).Some? ==> draft == Some(old(draft).value.(practiceItems := items)) && isDirty
      ensures customization == old(customization) && isLoading == old(isLoading)
        && isSaving == old(isSaving) && error == old(error)
    {
      if draft.None? {
        return;
      }
      draft, isDirty := Some(draft.value.(practiceItems := items)), true;
    }

    /** `save` up to its fetch: returns the draft it sends, or None (and changes nothing) without one. */
    method BeginSave() returns (request: Option<Customization>)
      requires Valid()
      modifies this
      ensures Valid()
      ensures request == old(draft)
      ensures request.None? ==> unchanged(this)
      ensures request.Some? ==> (isSaving && error.None?
        && customization == old(customization) && draft == old(draft)
        && isLoading == old(isLoading) && isDirty == old(isDirty))
    {
      if draft.None? {
        return None;
      }
      isSaving, error := true, None;
      return draft;
    }

    /** `save` after its PUT of `request`: commits it on success, records the error otherwise. */
    method CompleteSave(request: Customization, outcome: WriteOutcome) returns (ok: bool)
      requires Valid()
      modifies this
      ensures Valid()
      ensures ok <==> outcome.WriteOk?
      ensures !isSaving && draft == old(draft) && isLoading == old(isLoading)
      ensures ok ==> customization == Some(request) && !isDirty && error == old(error)
      ensures !ok ==> (customization == old(customization) && isDirty == old(isDirty)
        && error == Some(WriteError(outcome, "Failed to save menu customization", "Failed to save")))
    {
      if outcome.WriteOk? {
        customization, isSaving, isDirty := Some(request), false, false;
        return true;
      }
      isSaving := false;
      error := Some(WriteError(outcome, "Failed to save menu customization", "Failed to save"));
      return false;
    }

    /** `save` as a whole. */
    method Save(outcome: WriteOutcome) returns (ok: bool)
      requires Valid()
      modifies this
      ensures Valid()
      ensures old(draft).None? ==> !ok && unchanged(this)
      ensures old(draft).Some? ==> (ok <==> outcome.WriteOk?)
      ensures old(draft).Some? ==> !isSaving && draft == old(draft) && isLoading == old(isLoading)
      ensures old(draft).Some? && ok ==> customization == old(draft) && !isDirty && error.None?
      ensures old(draft).Some? && !ok ==> (customization == old(customization) && isDirty == old(isDirty)
        && error == Some(WriteError(outcome, "Failed to save menu customization", "Failed to save")))
    {
      var request := BeginSave();
      if request.None? {
        return false;
      }
      ok := CompleteSave(request.value, outcome);
    }

    /** `reset` up to its DELETE. */
    method BeginReset()
      requires Valid()
      modifies this
      ensures Valid()
      ensures isSaving && error.None?
      ensures customization == old(customization) && draft == old(draft)
        && isLoading == old(isLoading) && isDirty == old(isDirty)
    {
      isSaving, error := true, None;
    }

    /** `reset` after its DELETE: both customisation and draft become the defaults on success. */
    method CompleteReset(outcome: WriteOutcome) returns (ok: bool)
      requires Valid()
      modifies this
      ensures Valid()
      ensures ok <==> outcome.WriteOk?
      ensures !isSaving && isLoading == old(isLoading)
      ensures ok ==> (customization == Some(DefaultCustomization) && draft == Some(DefaultCustomization)
        && !isDirty && error == old(error))
      ensures !ok ==> (customization == old(customization) && draft == old(draft) && isDirty == old(isDirty)
        && error == Some(WriteError(outcome, "Failed to reset menu customization", "Failed to reset")))
    {
      if outcome.WriteOk? {
        customization, draft := Some(DefaultCustomization), Some(DefaultCustomization);
        isSaving, isDirty := false, false;
        return true;
      }
      isSaving := false;
      error := Some(WriteError(outcome, "Failed to reset menu customization", "Failed to reset"));
      return false;
    }

    /** `reset` as a whole. */
    method Reset(outcome: WriteOutcome) returns (ok: bool)
      requires Valid()
      modifies this
      ensures Valid()
      ensures ok <==> outcome.WriteOk?
      ensures !isSaving && isLoading == old(isLoading)
      ensures ok ==> (customization == Some(DefaultCustomization) && draft == Some(DefaultCustomization)
        && !isDirty && error.None?)
      ensures !ok ==> (customization == old(customization) && draft == old(draft) && isDirty == old(isDirty)
        && error == Some(WriteError(outcome, "Failed to reset menu customization", "Failed to reset")))
    {
      BeginReset();
      ok := CompleteReset(outcome);
    }

    /** `clearDraft`: drops the draft and the error; the committed customisation stays. */
    method ClearDraft()
      requires Valid()
      modifies this
      ensures Valid()
      ensures draft.None? && !isDirty && error.None?
      ensures customization == old(customization) && isLoading == old(isLoading) && isSaving == old(isSaving)
    {
      draft, isDirty, error := None, false, None;
    }
  }
}
