/** The application-wide UI state shared by the layout components: whether
    the sidebar is collapsed. */
module UiState {

  class UiStateService {
    /** The current value of `sidebarCollapsed$`. */
    var sidebarCollapsed: bool

    constructor()
      ensures !sidebarCollapsed
    {
      sidebarCollapsed := false;
    }

    /** `sidebarCollapsed$.next(value)` */
    method Next(value: bool)
      modifies this
      ensures sidebarCollapsed == value
    {
      sidebarCollapsed := value;
    }

    method ToggleSidebar()
      modifies this
      ensures sidebarCollapsed == !old(sidebarCollapsed)
    {
      Next(!sidebarCollapsed);
    }

    /** Toggling twice restores the flag. */
    method ToggleTwice()
      modifies this
      ensures sidebarCollapsed == old(sidebarCollapsed)
    {
      ToggleSidebar();
      ToggleSidebar();
    }
  }
}
