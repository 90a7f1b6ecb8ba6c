/** The desktop shell (frontend/components/layout/Desktop.tsx): the search bars, the
    search-to-chat shortcut and the list of rendered windows, all derived from the
    window manager's state. */
module Desktop {
  import opened Wrappers
  import opened Text
  import opened WindowManager
  import WindowChrome

  const Chat: Id := "chat"

  /** The manager's state together with the desktop's own `searchValue` and
      `isSearchAnimating`. */
  datatype Shell = Shell(wm: Manager, search: string, animating: bool)

  /** `handleSearchClick`, with its 200 ms timer fired: when chat is not open the
      bar animates and chat is opened; otherwise nothing happens. */
  function SearchClick(s: Shell): (r: Shell)
    ensures Chat in s.wm.open ==> r == s
    ensures Chat !in s.wm.open ==> r.wm.open == s.wm.open + [Chat] && r.wm.focused == Some(Chat)
    ensures forall x :: x in s.wm.open ==> x in r.wm.open
    ensures Chat in r.wm.open && r.search == s.search
    ensures Chat !in s.wm.open ==> !r.animating
    ensures Valid(s.wm) ==> Valid(r.wm)
  {
    if Chat !in s.wm.open then FinishSearchAnimation(StartSearchAnimation(s)) else s
  }

  /** The click handler's synchronous part: `setIsSearchAnimating(true)`. */
  function StartSearchAnimation(s: Shell): Shell {
    s.(animating := true)
  }

  /** The timer callback: `onOpenWindow("chat")` then `setIsSearchAnimating(false)`. */
  function FinishSearchAnimation(s: Shell): Shell {
    s.(wm := Open(s.wm, Chat), animating := false)
  }

  /** `handleSearchSubmit`: acts as a search click only for a query that is not blank.
      Only the central search bar (`ShowsCentralSearch`) is a form; the compact bar
      has no submit handler, so there Enter does nothing and only a click searches. */
  function SearchSubmit(s: Shell): (r: Shell)
    ensures IsBlank(s.search) ==> r == s
    ensures !IsBlank(s.search) ==> r == SearchClick(s)
  {
    if Trim(s.search) != "" then SearchClick(s) else s
  }

  /** Submitting an empty or whitespace-only query changes nothing. */
  lemma WhitespaceSubmitDoesNothing(s: Shell)
    requires AllWhitespace(s.search)
    ensures SearchSubmit(s) == s
  {
    BlankIffAllWhitespace(s.search);
  }

  /** The large central search bar: `openWindows.length === 0`. */
  predicate ShowsCentralSearch(m: Manager) {
    |m.open| == 0
  }

  /** The compact search bar: `openWindows.length > 0 && !openWindows.includes("chat")`. */
  predicate ShowsCompactSearch(m: Manager) {
    |m.open| > 0 && Chat !in m.open
  }

  /** At most one search bar is on screen, and none while chat is open. */
  lemma SearchBarsExclusive(m: Manager)
    ensures !(ShowsCentralSearch(m) && ShowsCompactSearch(m))
    ensures Chat in m.open ==> !ShowsCentralSearch(m) && !ShowsCompactSearch(m)
    ensures ShowsCentralSearch(m) || ShowsCompactSearch(m) <==> Chat !in m.open
  {
  }

  /** One rendered `<Window>`: its id, its `isFocused` and `isAnimatingFromSearch`
      props, and the ids its `onClose` and `onFocus` callbacks pass to the manager. */
  datatype WindowView = WindowView(id: Id, isFocused: bool, animatingFromSearch: bool, closes: Id, focuses: Id)

  /** `openWindows.map(...)`: the windows the desktop renders, in list order. */
  function Render(s: Shell): (r: seq<WindowView>)
    ensures |r| == |s.wm.open|
    ensures forall i :: 0 <= i < |r| ==> r[i].id == s.wm.open[i]
    ensures forall i :: 0 <= i < |r| ==> r[i].closes == r[i].id && r[i].focuses == r[i].id
    ensures forall i :: 0 <= i < |r| ==> (r[i].isFocused <==> s.wm.focused == Some(r[i].id))
    ensures forall i :: 0 <= i < |r| ==> (r[i].animatingFromSearch <==> r[i].id == Chat && s.animating)
  {
    seq(|s.wm.open|, i requires 0 <= i < |s.wm.open| =>
      var id := s.wm.open[i];
      WindowView(id, s.wm.focused == Some(id), id == Chat && s.animating, id, id))
  }

  /** With distinct open ids at most one window is marked focused, one is marked
      exactly when the focused id is open, and only chat can be animating. */
  lemma RenderFocusMarks(s: Shell)
    requires NoDuplicates(s.wm.open)
    ensures var r := Render(s); forall i, j :: 0 <= i < |r| && 0 <= j < |r| && r[i].isFocused && r[j].isFocused ==> i == j
    ensures var r := Render(s); (exists i :: 0 <= i < |r| && r[i].isFocused) <==> s.wm.focused.Some? && s.wm.focused.value in s.wm.open
    ensures var r := Render(s); forall i :: 0 <= i < |r| && r[i].animatingFromSearch ==> r[i].id == Chat
  {
    var r := Render(s);
    if s.wm.focused.Some? && s.wm.focused.value in s.wm.open {
      var k :| 0 <= k < |s.wm.open| && s.wm.open[k] == s.wm.focused.value;
      assert r[k].isFocused;
    }
  }

  /** A rendered desktop frame that is not minimised wears the focus ring exactly when
      its window is the focused one; the phone frame never does. */
  lemma FocusRingFollowsFocus(s: Shell, i: nat, c: WindowChrome.Chrome)
    requires i < |s.wm.open| && !c.minimized
    ensures WindowChrome.HasFocusRing(WindowChrome.DesktopFrame, c, Render(s)[i].isFocused) <==> s.wm.focused == Some(s.wm.open[i])
    ensures !WindowChrome.HasFocusRing(WindowChrome.MobileFrame, c, Render(s)[i].isFocused)
  {
  }

  /** Runs a window's fired callbacks against the manager, as the code does:
      `onClose` is `closeWindow(id)` and `onFocus` is `focusWindow(id)`. */
  function DispatchAsWritten(m: Manager, id: Id, cbs: seq<WindowChrome.Callback>): Manager
    decreases |cbs|
  {
    if |cbs| == 0 then m
    else
      var m' := if cbs[0] == WindowChrome.OnClose then Close(m, id) else Focus(m, id);
      DispatchAsWritten(m', id, cbs[1..])
  }

  /** Runs a window's fired callbacks with the focus call ignored for a window that
      is no longer open, which keeps the focus invariant. */
  function Dispatch(m: Manager, id: Id, cbs: seq<WindowChrome.Callback>): (r: Manager)
    ensures Valid(m) ==> Valid(r)
    ensures forall x :: x in r.open ==> x in m.open
    ensures id !in m.open || WindowChrome.OnClose in cbs ==> id !in r.open
    decreases |cbs|
  {
    if |cbs| == 0 then m
    else
      var m' := if cbs[0] == WindowChrome.OnClose then Close(m, id) else FocusIfOpen(m, id);
      Dispatch(m', id, cbs[1..])
  }

  /** Clicking a desktop window's close control closes it and then, through the
      bubbling `onFocus`, focuses the closed window again: focus is left on a
      window that is not open, and no rendered window shows the focus ring. */
  lemma CloseControlFocusesClosedWindow(s: Shell, id: Id, c: WindowChrome.Chrome, t: WindowChrome.Target)
    requires Valid(s.wm) && id in s.wm.open
    requires !c.minimized && WindowChrome.IsCloseControl(t)
    ensures var m := DispatchAsWritten(s.wm, id, WindowChrome.Click(WindowChrome.DesktopFrame, c, t).callbacks);
      m.focused == Some(id) && id !in m.open && !FocusInOpen(m)
    ensures var m := DispatchAsWritten(s.wm, id, WindowChrome.Click(WindowChrome.DesktopFrame, c, t).callbacks);
      forall v :: v in Render(s.(wm := m)) ==> !v.isFocused
  {
    var cbs := WindowChrome.Click(WindowChrome.DesktopFrame, c, t).callbacks;
    assert cbs == [WindowChrome.OnClose, WindowChrome.OnFocus];
    var m1 := Close(s.wm, id);
    assert cbs[1..] == [WindowChrome.OnFocus];
    assert DispatchAsWritten(s.wm, id, cbs) == DispatchAsWritten(m1, id, [WindowChrome.OnFocus]);
    assert DispatchAsWritten(m1, id, [WindowChrome.OnFocus]) == Focus(m1, id);
  }

  /** A minimise click never closes the window: the manager still lists it as open,
      and on desktop the bubbling `onFocus` makes it the focused window. */
  lemma MinimizeLeavesWindowOpen(s: Shell, id: Id, layout: WindowChrome.Layout, c: WindowChrome.Chrome, t: WindowChrome.Target)
    requires id in s.wm.open && !c.minimized && WindowChrome.IsMinimizeControl(t)
    requires layout == WindowChrome.DesktopFrame || t == WindowChrome.YellowLight
    ensures var o := WindowChrome.Click(layout, c, t);
      var m := DispatchAsWritten(s.wm, id, o.callbacks);
      && o.chrome.minimized && m.open == s.wm.open
      && (layout == WindowChrome.DesktopFrame ==> m.focused == Some(id))
      && (layout == WindowChrome.MobileFrame ==> m == s.wm)
  {
    var cbs := WindowChrome.Click(layout, c, t).callbacks;
    if layout == WindowChrome.DesktopFrame {
      assert cbs == [WindowChrome.OnFocus];
      assert cbs[1..] == [];
    } else {
      assert cbs == [];
    }
  }

  /** With the corrected dispatch the same click closes the window and focus falls
      to the last remaining window. */
  lemma CloseControlKeepsFocusInvariant(s: Shell, id: Id, c: WindowChrome.Chrome, t: WindowChrome.Target)
    requires Valid(s.wm) && id in s.wm.open
    requires !c.minimized && WindowChrome.IsCloseControl(t)
    ensures var m := Dispatch(s.wm, id, WindowChrome.Click(WindowChrome.DesktopFrame, c, t).callbacks);
      Valid(m) && id !in m.open
    ensures var m := Dispatch(s.wm, id, WindowChrome.Click(WindowChrome.DesktopFrame, c, t).callbacks);
      s.wm.focused == Some(id) ==> m.focused == LastOrNone(m.open)
  {
    var cbs := WindowChrome.Click(WindowChrome.DesktopFrame, c, t).callbacks;
    assert cbs == [WindowChrome.OnClose, WindowChrome.OnFocus];
    var m1 := Close(s.wm, id);
    assert cbs[1..] == [WindowChrome.OnFocus];
    assert Dispatch(s.wm, id, cbs) == Dispatch(m1, id, [WindowChrome.OnFocus]);
    assert Dispatch(m1, id, [WindowChrome.OnFocus]) == FocusIfOpen(m1, id);
  }
}
