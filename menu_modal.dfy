/**
 * The portal menu customisation modal: its handlers sequence store actions
 * and the parent's `onClose` callback. `isOpen` is the parent's prop, the
 * calls of `onClose` are counted, and `window.confirm` is a boolean input.
 * Toasts, focus, scroll locking and rendering details are outside the model;
 * what the body shows is the `View` value.
 */
module MenuModal {
  import opened Wrappers
  import opened Menu
  import opened MenuStore

  datatype TabId = SectionsTab | BookmarksTab | PracticeTab

  /** What the modal body shows. */
  datatype View =
    | Nothing                       // closed: renders null
    | Skeleton                      // the store is loading
    | TabContent(tab: TabId, draft: Customization)
    | LoadFailed                    // 'Failed to load customization'

  class PortalMenuModal {
    const store: MenuCustomizationStore
    var isOpen: bool
    var selectedTab: TabId
    var onCloseCalls: nat

    /** The modal mounts on the 'sections' tab with no close request yet. */
    constructor(store: MenuCustomizationStore, isOpen: bool)
      ensures this.store == store && this.isOpen == isOpen
      ensures selectedTab == SectionsTab && onCloseCalls == 0
    {
      this.store := store;
      this.isOpen := isOpen;
      selectedTab := SectionsTab;
      onCloseCalls := 0;
    }

    /** The Save button is enabled iff the draft is dirty and no save runs. */
    predicate SaveEnabled()
      reads this, store
    {
      !store.isSaving && store.isDirty
    }

    /** Reset to Defaults and Cancel are disabled while saving. */
    predicate ResetEnabled()
      reads this, store
    {
      !store.isSaving
    }

    predicate CancelEnabled()
      reads this, store
    {
      !store.isSaving
    }

    function CurrentView(): (v: View)
      reads this, store
      ensures v == Nothing <==> !isOpen
      ensures v.TabContent? ==> store.draft == Some(v.draft) && v.tab == selectedTab && !store.isLoading
    {
      if !isOpen then Nothing
      else if store.isLoading then Skeleton
      else if store.draft.Some? then TabContent(selectedTab, store.draft.value)
      else LoadFailed
    }

    /** The mount effect: `initialize()`, here with the outcome of its fetch. */
    method Mount(outcome: LoadOutcome)
      requires store.Valid()
      modifies store
      ensures store.Valid()
      ensures old(store.customization).Some? || old(store.isLoading) ==> unchanged(store)
      ensures old(store.customization).None? && !old(store.isLoading) ==>
        store.customization == Some(LoadedCustomization(outcome)) && !store.isLoading
    {
      store.Initialize(outcome);
    }

    /** The draft effect: while open, a loaded customisation is copied into a clean draft. */
    method DraftEffect()
      requires store.Valid()
      modifies store
      ensures store.Valid()
      ensures isOpen && old(store.customization).Some? ==>
        store.draft == old(store.customization) && !store.isDirty && store.customization == old(store.customization)
      ensures !(isOpen && old(store.customization).Some?) ==> unchanged(store)
    {
      if isOpen && store.customization.Some? {
        store.InitializeDraft(store.customization.value);
      }
    }

    method SelectTab(tab: TabId)
      modifies this
      ensures selectedTab == tab && isOpen == old(isOpen) && onCloseCalls == old(onCloseCalls)
    {
      selectedTab := tab;
    }

    /**
     * Backdrop click on the backdrop itself, or Escape: close, keep the draft.
     * A closed modal renders no backdrop and listens for no key, so nothing
     * happens then.
     */
    method Dismiss()
      modifies this
      ensures onCloseCalls == old(onCloseCalls) + (if old(isOpen) then 1 else 0)
      ensures isOpen == old(isOpen) && selectedTab == old(selectedTab)
    {
      if isOpen {
        onCloseCalls := onCloseCalls + 1;
      }
    }

    /** Cancel and the header's close button: clear the draft, then close. */
    method Cancel()
      requires store.Valid()
      modifies this, store
      ensures store.Valid()
      ensures store.draft.None? && !store.isDirty && store.error.None?
      ensures store.customization == old(store.customization)
      ensures onCloseCalls == old(onCloseCalls) + 1
      ensures isOpen == old(isOpen) && selectedTab == old(selectedTab)
    {
      store.ClearDraft();
      onCloseCalls := onCloseCalls + 1;
    }

    /** Save: closes only when the store's save returns true. */
    method HandleSave(outcome: WriteOutcome) returns (saved: bool)
      requires store.Valid()
      modifies this, store
      ensures store.Valid()
      ensures saved <==> old(store.draft).Some? && outcome.WriteOk?
      ensures saved ==> store.customization == old(store.draft)
      ensures onCloseCalls == old(onCloseCalls) + (if saved then 1 else 0)
      ensures isOpen == old(isOpen) && selectedTab == old(selectedTab)
    {
      saved := store.Save(outcome);
      if saved {
        onCloseCalls := onCloseCalls + 1;
      }
    }

    /** Reset: asks for confirmation first, and closes only when the reset succeeds. */
    method HandleReset(confirmed: bool, outcome: WriteOutcome) returns (done: bool)
      requires store.Valid()
      modifies this, store
      ensures store.Valid()
      ensures !confirmed ==> !done && unchanged(store) && unchanged(this)
      ensures done <==> confirmed && outcome.WriteOk?
      ensures done ==> store.customization == Some(DefaultCustomization) && store.draft == Some(DefaultCustomization)
      ensures onCloseCalls == old(onCloseCalls) + (if done then 1 else 0)
      ensures isOpen == old(isOpen) && selectedTab == old(selectedTab)
    {
      if !confirmed {
        return false;
      }
      done := store.Reset(outcome);
      if done {
        onCloseCalls := onCloseCalls + 1;
      }
    }
  }

  /**
   * An enabled Save button always has a draft to send, so pressing it never
   * takes the store's "no draft" early return.
   */
  lemma SaveEnabledHasDraft(m: PortalMenuModal)
    requires m.store.Valid()
    ensures m.SaveEnabled() ==> m.store.draft.Some?
  {
  }
}
