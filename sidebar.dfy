/** The navigation sidebar: five fixed menu items, each highlighted when the
    current pathname starts with its path. */
module Sidebar {
  import opened Text

  datatype MenuItem = MenuItem(id: string, path: string, name: string)

  const MENU_ITEMS: seq<MenuItem> := [
    MenuItem("dashboard", "/dashboard", "Dashboard"),
    MenuItem("investigate", "/investigate", "AI Chat"),
    MenuItem("attack", "/attack", "Attack Sim"),
    MenuItem("visualizer", "/visualizer", "Visualizer"),
    MenuItem("settings", "/settings", "Settings")
  ]

  /** `location.pathname.startsWith(item.path)`. */
  predicate IsActive(pathname: string, item: MenuItem) {
    StartsWith(pathname, item.path)
  }

  /** The menu paths all differ in their first letter after the slash. */
  lemma PathsDifferEarly()
    ensures forall i :: 0 <= i < |MENU_ITEMS| ==> |MENU_ITEMS[i].path| >= 2
    ensures forall i, j :: 0 <= i < |MENU_ITEMS| && 0 <= j < |MENU_ITEMS| && i != j ==> MENU_ITEMS[i].path[1] != MENU_ITEMS[j].path[1]
  {
  }

  /** No menu path is a prefix of another, so at most one item is active
      for any pathname. */
  lemma AtMostOneActive(pathname: string, i: nat, j: nat)
    requires i < |MENU_ITEMS| && j < |MENU_ITEMS|
    requires IsActive(pathname, MENU_ITEMS[i]) && IsActive(pathname, MENU_ITEMS[j])
    ensures i == j
  {
    PathsDifferEarly();
    assert pathname[1] == MENU_ITEMS[i].path[1];
    assert pathname[1] == MENU_ITEMS[j].path[1];
  }

  /** A page below an item's path keeps that item active. */
  lemma SubPathActivates(item: MenuItem, rest: string)
    ensures IsActive(item.path + rest, item)
  {
    assert (item.path + rest)[..|item.path|] == item.path;
  }

  /** The root path activates no item. */
  lemma RootActivatesNone(i: nat)
    requires i < |MENU_ITEMS|
    ensures !IsActive("/", MENU_ITEMS[i])
  {
    PathsDifferEarly();
  }

  /** The test has no segment boundary: a path that merely extends an
      item's path, such as "/attacks", activates that item too. */
  lemma ExtensionActivates()
    ensures IsActive("/attacks", MENU_ITEMS[2])
  {
    assert "/attacks"[..7] == "/attack";
  }
}
