/** The desktop menu bar (frontend/components/layout/MenuBar.tsx): which dropdown,
    if any, is open. */
module MenuBar {
  import opened Wrappers

  type MenuId = string

  /** A dropdown entry: a separator line or a labelled item with an optional
      shortcut and an optional action. */
  datatype Entry = Separator | Item(title: string, shortcut: Option<string>, hasAction: bool)

  datatype Menu = Menu(id: MenuId, title: string, items: seq<Entry>)

  /** What a dropdown entry renders as: a divider with no handler, or a button. */
  datatype Rendered = Divider | Button(title: string, shortcut: Option<string>)

  const Cmd: string := "\U{2318}"
  const Shift: string := "\U{21E7}"
  const Ctrl: string := "\U{2303}"

  function Act(title: string): Entry { Item(title, None, true) }
  function Key(title: string, shortcut: string): Entry { Item(title, Some(shortcut), true) }

  /** The five menus the bar declares, in display order. */
  const Menus: seq<Menu> := [
    Menu("file", "File", [
      Key("New Project", Cmd + "N"), Key("Open...", Cmd + "O"), Key("Save", Cmd + "S"),
      Key("Save As...", Shift + Cmd + "S"), Separator, Act("Export Portfolio"),
      Key("Print Resume", Cmd + "P"), Separator, Key("Close Window", Cmd + "W")]),
    Menu("edit", "Edit", [
      Key("Undo", Cmd + "Z"), Key("Redo", Shift + Cmd + "Z"), Separator,
      Key("Cut", Cmd + "X"), Key("Copy", Cmd + "C"), Key("Paste", Cmd + "V"), Separator,
      Key("Select All", Cmd + "A"), Key("Find", Cmd + "F")]),
    Menu("view", "View", [
      Act("Show All Windows"), Key("Minimize All", Cmd + "M"), Separator,
      Key("Full Screen", Ctrl + Cmd + "F"), Key("Zoom In", Cmd + "+"), Key("Zoom Out", Cmd + "-"),
      Key("Actual Size", Cmd + "0"), Separator, Act("Show Dock"), Act("Hide Menu Bar")]),
    Menu("window", "Window", [
      Key("Minimize", Cmd + "M"), Key("Close", Cmd + "W"), Separator,
      Act("About Me"), Act("Projects"), Act("Skills"), Act("Contact"), Act("Resume"), Separator,
      Act("AI Assistant")]),
    Menu("help", "Help", [
      Act("Portfolio Help"), Key("Keyboard Shortcuts", Cmd + "/"), Separator,
      Act("Contact Support"), Act("Send Feedback"), Separator,
      Act("About Saugat Timilsina"), Act("Check for Updates")])
  ]

  /** `useState<string | null>(null)`: no menu open. */
  const InitialActive: Option<MenuId> := None

  /** `handleMenuClick`: clicking the open menu's title closes it; any other title opens that menu. */
  function MenuClick(active: Option<MenuId>, id: MenuId): (r: Option<MenuId>)
    ensures r.Some? ==> r.value == id
    ensures r.None? <==> active == Some(id)
  {
    if active == Some(id) then None else Some(id)
  }

  /** Clicking the same title twice from a closed bar opens and then closes its menu;
      clicking two different titles leaves the second one open. */
  lemma MenuClickToggles(id: MenuId, other: MenuId)
    requires id != other
    ensures MenuClick(MenuClick(None, id), id) == None
    ensures MenuClick(MenuClick(None, id), other) == Some(other)
  {
  }

  /** The outcome of clicking a rendered dropdown entry: the new active menu and
      whether the entry's action ran. */
  datatype ItemOutcome = ItemOutcome(active: Option<MenuId>, actionRan: bool)

  /** `handleMenuItemClick` on a button; a divider has no handler, so a click on it changes nothing. */
  function EntryClick(active: Option<MenuId>, e: Entry): (r: ItemOutcome)
    ensures e.Item? ==> r.active == None && r.actionRan == e.hasAction
    ensures e.Separator? ==> r.active == active && !r.actionRan
  {
    match e
    case Item(_, _, hasAction) => ItemOutcome(None, hasAction)
    case Separator => ItemOutcome(active, false)
  }

  /** The document `mousedown` listener: outside the bar's menu area it closes any open menu. */
  function MouseDown(active: Option<MenuId>, insideMenuArea: bool): (r: Option<MenuId>)
    ensures !insideMenuArea ==> r == None
    ensures insideMenuArea ==> r == active
  {
    if insideMenuArea then active else None
  }

  /** How one dropdown entry is drawn. The shortcut label is guarded by
      `item.shortcut &&`, so an empty shortcut, being falsy, draws no label. */
  function RenderEntry(e: Entry): (r: Rendered)
    ensures r.Divider? <==> e.Separator?
    ensures e.Item? ==> r.Button? && r.title == e.title
    ensures e.Item? ==> (r.shortcut.Some? <==> e.shortcut.Some? && e.shortcut.value != "")
    ensures e.Item? && r.shortcut.Some? ==> r.shortcut == e.shortcut
  {
    match e
    case Separator => Divider
    case Item(title, shortcut, _) => Button(title, if shortcut == Some("") then None else shortcut)
  }

  predicate DistinctIds(menus: seq<Menu>) {
    forall i, j :: 0 <= i < j < |menus| ==> menus[i].id != menus[j].id
  }

  /** For each menu of the bar, whether its dropdown is rendered: `activeMenu === menu.id`. */
  function OpenDropdowns(active: Option<MenuId>, menus: seq<Menu>): (r: seq<bool>)
    ensures |r| == |menus|
    ensures forall i :: 0 <= i < |r| ==> (r[i] <==> active == Some(menus[i].id))
  {
    seq(|menus|, i requires 0 <= i < |menus| => active == Some(menus[i].id))
  }

  /** With distinct menu ids at most one dropdown is shown, and one is shown exactly
      when the active id names a menu. */
  lemma AtMostOneDropdown(active: Option<MenuId>, menus: seq<Menu>)
    requires DistinctIds(menus)
    ensures var r := OpenDropdowns(active, menus); forall i, j :: 0 <= i < |r| && 0 <= j < |r| && r[i] && r[j] ==> i == j
    ensures var r := OpenDropdowns(active, menus);
      (exists i :: 0 <= i < |r| && r[i]) <==> exists k :: 0 <= k < |menus| && active == Some(menus[k].id)
  {
    var r := OpenDropdowns(active, menus);
    if k :| 0 <= k < |menus| && active == Some(menus[k].id) {
      assert r[k];
    }
  }

  /** Clicking any button closes every dropdown of the bar, whichever was open. */
  lemma ItemClickClosesDropdowns(active: Option<MenuId>, e: Entry, menus: seq<Menu>)
    requires e.Item?
    ensures forall i :: 0 <= i < |menus| ==> !OpenDropdowns(EntryClick(active, e).active, menus)[i]
  {
  }

  /** A press outside the menu area closes every dropdown; one inside leaves the
      rendered dropdowns as they were. */
  lemma OutsidePressClosesDropdowns(active: Option<MenuId>, menus: seq<Menu>)
    ensures forall i :: 0 <= i < |menus| ==> !OpenDropdowns(MouseDown(active, false), menus)[i]
    ensures OpenDropdowns(MouseDown(active, true), menus) == OpenDropdowns(active, menus)
  {
  }

  /** An entry drawn as a divider is inert: clicking it keeps the open menu and runs
      nothing. An entry drawn as a button with an action runs it. */
  lemma DividerIsInert(active: Option<MenuId>, e: Entry)
    ensures RenderEntry(e).Divider? ==> EntryClick(active, e) == ItemOutcome(active, false)
    ensures RenderEntry(e).Button? ==>
      EntryClick(active, e).active == None && (EntryClick(active, e).actionRan <==> e.hasAction)
  {
  }

  /** The bar's own menus have distinct ids, so it never shows two dropdowns. */
  lemma DeclaredMenusDistinct()
    ensures DistinctIds(Menus)
  {
  }
}
