/** The phone layout (frontend/components/layout/MobileLayout.tsx): a home screen or
    one full-screen app, driven by the same window manager. */
module MobileLayout {
  import opened Wrappers
  import opened Text
  import opened WindowManager

  const Chat: Id := "chat"

  datatype View = Home | App

  /** The manager's state together with the layout's `showMenu`, `searchValue`
      and `currentView`. */
  datatype Phone = Phone(wm: Manager, view: View, showMenu: bool, search: string)

  /** `handleAppOpen`: opens the app's window, switches to the app view and hides the menu. */
  function AppOpen(p: Phone, id: Id): (r: Phone)
    ensures r.view == App && !r.showMenu && r.search == p.search
    ensures id in r.wm.open && r.wm.focused == Some(id)
    ensures forall x :: x in p.wm.open ==> x in r.wm.open
    ensures ShowsAppView(r)
    ensures id != "" ==> ActiveWindow(r.wm) == id
    ensures NoDuplicates(p.wm.open) ==> Valid(r.wm)
  {
    Phone(Open(p.wm, id), App, false, p.search)
  }

  /** `openWindows.forEach((id) => onCloseWindow(id))`, each close applied to the
      state the previous one left. */
  function CloseEach(m: Manager, ids: seq<Id>): (r: Manager)
    ensures forall x :: x in r.open <==> x in m.open && x !in ids
    ensures Valid(m) ==> Valid(r)
    decreases |ids|
  {
    if |ids| == 0 then m else CloseEach(Close(m, ids[0]), ids[1..])
  }

  /** `handleBackToHome` (both the back and the close control of the app view):
      home view, and every window that was open is closed. */
  function BackToHome(p: Phone): (r: Phone)
    ensures r.view == Home && r.wm.open == []
    ensures Valid(p.wm) ==> r.wm.focused == None
    ensures !ShowsAppView(r)
  {
    var m := CloseEach(p.wm, p.wm.open);
    NoMemberMeansEmpty(m.open);
    p.(view := Home, wm := m)
  }

  /** `handleBackToHome` under React's state semantics: every `closeWindow` call
      filters the same render's `openWindows`, so each `setOpenWindows` overwrites
      the previous one and only the close of the last listed window sticks. The
      focus update runs only in the call for the focused window. */
  function BackToHomeBatched(p: Phone): Phone {
    var snapshot := p.wm.open;
    var open' := if |snapshot| == 0 then snapshot else Without(snapshot, snapshot[|snapshot| - 1]);
    var focused' :=
      if p.wm.focused.Some? && p.wm.focused.value in snapshot
      then LastOrNone(Without(snapshot, p.wm.focused.value))
      else p.wm.focused;
    p.(view := Home, wm := Manager(open', focused'))
  }

  /** With two or more windows open, going back home leaves every window but the
      last one open, and the view-sync effect then switches straight back to the app view. */
  lemma BackToHomeBatchedLeavesWindowsOpen(p: Phone)
    requires NoDuplicates(p.wm.open) && |p.wm.open| >= 2
    ensures var r := BackToHomeBatched(p); r.wm.open == p.wm.open[..|p.wm.open| - 1]
    ensures SyncView(BackToHomeBatched(p)).view == App
  {
    var s := p.wm.open;
    WithoutCutsSlot(s, s[|s| - 1], |s| - 1);
    assert s[|s|..] == [];
    assert s[..|s| - 1] + [] == s[..|s| - 1];
  }

  /** With the closes applied in sequence the phone always ends on the home screen. */
  lemma BackToHomeStaysHome(p: Phone)
    ensures SyncView(BackToHome(p)).view == Home
    ensures !ShowsAppView(SyncView(BackToHome(p)))
  {
  }

  lemma NoMemberMeansEmpty(s: seq<Id>)
    ensures (forall x :: x !in s) ==> s == []
  {
    if s != [] {
      assert s[0] in s;
    }
  }

  /** `handleSearchSubmit`: opens chat in the app view only for a non-blank query. */
  function SearchSubmit(p: Phone): (r: Phone)
    ensures IsBlank(p.search) ==> r == p
    ensures !IsBlank(p.search) ==> r == AppOpen(p, Chat)
  {
    if Trim(p.search) != "" then AppOpen(p, Chat) else p
  }

  /** The effect on `openWindows.length`: the app view exactly when a window is open. */
  function SyncView(p: Phone): (r: Phone)
    ensures r.view == App <==> |p.wm.open| > 0
    ensures r.wm == p.wm && r.search == p.search && r.showMenu == p.showMenu
    ensures ShowsAppView(r) <==> |p.wm.open| > 0
  {
    p.(view := if |p.wm.open| > 0 then App else Home)
  }

  /** The app screen is rendered only in the app view with some window open. */
  predicate ShowsAppView(p: Phone) {
    p.view == App && |p.wm.open| > 0
  }

  /** `focusedWindow || openWindows[openWindows.length - 1]`: the focused id when it
      is truthy (present and not the empty string), otherwise the last open id. */
  function ActiveWindow(m: Manager): (r: Id)
    requires |m.open| > 0
    ensures m.focused.Some? && m.focused.value != "" ==> r == m.focused.value
    ensures m.focused.None? || m.focused.value == "" ==> r == m.open[|m.open| - 1]
    ensures FocusInOpen(m) ==> r in m.open
  {
    if m.focused.Some? && m.focused.value != "" then m.focused.value else m.open[|m.open| - 1]
  }
}
