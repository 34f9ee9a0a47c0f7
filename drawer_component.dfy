/** The registrar's navigation drawer: a fixed menu with one highlighted
    entry, opened and closed through the shared sidebar flag. */
module Drawer {
  import opened UiState

  /** A menu entry; `caption` is its `label`. */
  datatype MenuItem = MenuItem(icon: string, caption: string, route: string, active: bool)

  /** The menu as the drawer starts, with the dashboard highlighted. */
  function InitialMenu(): (items: seq<MenuItem>)
    ensures |items| == 10
  {
    [ MenuItem("📊", "Dashboard", "#", true),
      MenuItem("➕", "Add New Sample", "#add-sample", false),
      MenuItem("🔬", "Under Analysis", "#under-analysis", false),
      MenuItem("✅", "Approved Samples", "#approved", false),
      MenuItem("📦", "Total Samples", "#total-samples", false),
      MenuItem("🕒", "Recent Samples", "#recent-samples", false),
      MenuItem("📅", "Today's Samples", "#today-samples", false),
      MenuItem("📚", "Sample Library", "#sample-library", false),
      MenuItem("📄", "Reports", "#reports", false),
      MenuItem("⚙️", "Settings", "#settings", false) ]
  }

  /** Entry `k` is the only highlighted one. */
  predicate OnlyActive(items: seq<MenuItem>, k: int) {
    forall i :: 0 <= i < |items| ==> (items[i].active <==> i == k)
  }

  /** Two menus with the same entries, highlighting aside. */
  predicate SameEntries(a: seq<MenuItem>, b: seq<MenuItem>) {
    |a| == |b| && forall i :: 0 <= i < |a| ==> a[i].(active := false) == b[i].(active := false)
  }

  /** The initial menu highlights the dashboard and nothing else. */
  lemma InitialMenuActive()
    ensures OnlyActive(InitialMenu(), 0)
    ensures InitialMenu()[0].caption == "Dashboard"
  {
    var m := InitialMenu();
    assert m[0].active;
    assert forall i :: 1 <= i < 10 ==> !m[i].active;
  }

  /** At most one entry can be the only highlighted one. */
  lemma OnlyActiveUnique(items: seq<MenuItem>, j: int, k: int)
    requires OnlyActive(items, j) && OnlyActive(items, k)
    requires 0 <= j < |items|
    ensures j == k
  {
    assert items[j].active;
  }

  class DrawerComponent {
    var isOpen: bool
    const menuItems: array<MenuItem>
    const uiState: UiStateService

    /** The drawer's subscription has seen the latest flag, and the menu
        keeps its entries with exactly one highlighted. */
    ghost predicate Valid()
      reads this, menuItems, uiState
    {
      isOpen == !uiState.sidebarCollapsed &&
      SameEntries(menuItems[..], InitialMenu()) &&
      exists k :: 0 <= k < menuItems.Length && OnlyActive(menuItems[..], k)
    }

    /** Subscribing to a `BehaviorSubject` delivers its current value at
        once, so the drawer starts open exactly when the sidebar is not
        collapsed. */
    constructor(ui: UiStateService)
      ensures Valid()
      ensures uiState == ui && ui.sidebarCollapsed == old(ui.sidebarCollapsed)
      ensures isOpen == !ui.sidebarCollapsed
      ensures fresh(menuItems) && menuItems[..] == InitialMenu()
    {
      uiState := ui;
      var items := InitialMenu();
      menuItems := new MenuItem[10](i requires 0 <= i < 10 => items[i]);
      isOpen := !ui.sidebarCollapsed;
      new;
      assert menuItems[..] == items;
      InitialMenuActive();
    }

    /** The subscription callback: every emission of the flag. */
    method OnCollapsed(collapsed: bool)
      modifies this`isOpen
      ensures isOpen == !collapsed
    {
      isOpen := !collapsed;
    }

    /** Delegates to the shared service; the emission reaches the drawer's
        subscription. */
    method ToggleDrawer()
      requires Valid()
      modifies this`isOpen, uiState
      ensures Valid()
      ensures uiState.sidebarCollapsed == !old(uiState.sidebarCollapsed)
      ensures isOpen == !old(isOpen)
    {
      uiState.ToggleSidebar();
      OnCollapsed(uiState.sidebarCollapsed);
    }

    method CloseDrawer()
      requires Valid()
      modifies this`isOpen, uiState
      ensures Valid()
      ensures !isOpen && uiState.sidebarCollapsed
    {
      isOpen := false;
      uiState.Next(true);
      OnCollapsed(uiState.sidebarCollapsed);
    }

    /** Clears every highlight, highlights entry `k`, and closes the
        drawer; the entries themselves do not change. */
    method OnMenuItemClick(k: nat)
      requires Valid()
      requires k < menuItems.Length
      modifies this`isOpen, uiState, menuItems
      ensures Valid()
      ensures OnlyActive(menuItems[..], k)
      ensures forall i :: 0 <= i < menuItems.Length ==> menuItems[i] == old(menuItems[i]).(active := i == k)
      ensures !isOpen && uiState.sidebarCollapsed
    {
      for i := 0 to menuItems.Length
        modifies menuItems
        invariant forall j :: 0 <= j < i ==> menuItems[j] == old(menuItems[j]).(active := false)
        invariant forall j :: i <= j < menuItems.Length ==> menuItems[j] == old(menuItems[j])
      {
        menuItems[i] := menuItems[i].(active := false);
      }
      menuItems[k] := menuItems[k].(active := true);
      assert OnlyActive(menuItems[..], k);
      CloseDrawer();
    }
  }
}
