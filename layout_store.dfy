/**
 * The portal layout store: sidebar state, the expanded sidebar groups, the
 * active dashboard tab and the selected entity, and the slice that is
 * persisted to storage. Widths are integers.
 */
module LayoutStore {
  import opened Wrappers
  import opened ListOps

  /** What `partialize` writes to storage: everything but the selected entity. */
  datatype PersistedLayout = PersistedLayout(
    sidebarCollapsed: bool,
    sidebarWidth: int,
    expandedGroups: seq<string>,
    activeTab: string)

  class PortalLayoutStore {
    var sidebarCollapsed: bool
    var sidebarWidth: int
    var expandedGroups: seq<string>
    var activeTab: string
    var selectedEntityId: Option<string>

    constructor()
      ensures !sidebarCollapsed && sidebarWidth == 256 && expandedGroups == []
      ensures activeTab == "overview" && selectedEntityId.None?
    {
      sidebarCollapsed := false;
      sidebarWidth := 256;
      expandedGroups := [];
      activeTab := "overview";
      selectedEntityId := None;
    }

    /** `partialize`. */
    function Persisted(): (p: PersistedLayout)
      reads this
      ensures p.sidebarCollapsed == sidebarCollapsed && p.sidebarWidth == sidebarWidth
      ensures p.expandedGroups == expandedGroups && p.activeTab == activeTab
    {
      PersistedLayout(sidebarCollapsed, sidebarWidth, expandedGroups, activeTab)
    }

    method SetSidebarCollapsed(collapsed: bool)
      modifies this
      ensures sidebarCollapsed == collapsed
      ensures sidebarWidth == old(sidebarWidth) && expandedGroups == old(expandedGroups)
      ensures activeTab == old(activeTab) && selectedEntityId == old(selectedEntityId)
    {
      sidebarCollapsed := collapsed;
    }

    method SetSidebarWidth(width: int)
      modifies this
      ensures sidebarWidth == width
      ensures sidebarCollapsed == old(sidebarCollapsed) && expandedGroups == old(expandedGroups)
      ensures activeTab == old(activeTab) && selectedEntityId == old(selectedEntityId)
    {
      sidebarWidth := width;
    }

    /** `toggleGroup`: collapse an expanded group (every occurrence) or expand it at the end. */
    method ToggleGroup(groupName: string)
      modifies this
      ensures expandedGroups == Toggle(old(expandedGroups), groupName)
      ensures sidebarCollapsed == old(sidebarCollapsed) && sidebarWidth == old(sidebarWidth)
      ensures activeTab == old(activeTab) && selectedEntityId == old(selectedEntityId)
    {
      expandedGroups := Toggle(expandedGroups, groupName);
    }

    method SetActiveTab(tab: string)
      modifies this
      ensures activeTab == tab
      ensures sidebarCollapsed == old(sidebarCollapsed) && sidebarWidth == old(sidebarWidth)
      ensures expandedGroups == old(expandedGroups) && selectedEntityId == old(selectedEntityId)
    {
      activeTab := tab;
    }

    /** Selecting an entity never touches the persisted slice. */
    method SetSelectedEntity(entityId: Option<string>)
      modifies this
      ensures selectedEntityId == entityId
      ensures Persisted() == old(Persisted())
    {
      selectedEntityId := entityId;
    }
  }
}
