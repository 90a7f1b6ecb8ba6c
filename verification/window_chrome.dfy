/** The local state of one window frame (frontend/components/common/Window.tsx):
    minimised and fullscreen flags, and which of the frame's callbacks a click fires. */
module WindowChrome {

  /** `isMobile` chooses between the two frames the component renders. */
  datatype Layout = DesktopFrame | MobileFrame

  datatype Chrome = Chrome(minimized: bool, fullscreen: bool)

  /** `useState(false)` for both flags. */
  const InitialChrome: Chrome := Chrome(false, false)

  /** The clickable parts of a frame: the three traffic lights, the three title-bar
      buttons on the right (desktop only) and everything else inside the frame. */
  datatype Target =
    | RedLight | YellowLight | GreenLight
    | BarMinimize | BarFullscreen | BarClose
    | Body

  /** The two callbacks a frame receives from its parent. */
  datatype Callback = OnClose | OnFocus

  datatype ClickOutcome = ClickOutcome(chrome: Chrome, callbacks: seq<Callback>)

  /** The target is part of the rendered markup for this layout. */
  predicate IsRendered(layout: Layout, c: Chrome, t: Target) {
    !c.minimized && (layout == DesktopFrame || t in {RedLight, YellowLight, GreenLight, Body})
  }

  predicate IsCloseControl(t: Target) {
    t == RedLight || t == BarClose
  }

  predicate IsMinimizeControl(t: Target) {
    t == YellowLight || t == BarMinimize
  }

  /** `toggleFullscreen`: `setIsFullscreen(!isFullscreen)`. */
  function ToggleFullscreen(c: Chrome): (r: Chrome)
    ensures r.minimized == c.minimized && r.fullscreen != c.fullscreen
  {
    c.(fullscreen := !c.fullscreen)
  }

  /** The handler of the clicked element itself, before the event bubbles. */
  function OwnHandler(layout: Layout, c: Chrome, t: Target): ClickOutcome {
    match t
    case RedLight => ClickOutcome(c, [OnClose])
    case BarClose => ClickOutcome(c, [OnClose])
    case YellowLight => ClickOutcome(c.(minimized := true), [])
    case BarMinimize => ClickOutcome(c.(minimized := true), [])
    case GreenLight =>
      // the mobile green light has no onClick
      if layout == DesktopFrame then ClickOutcome(ToggleFullscreen(c), []) else ClickOutcome(c, [])
    case BarFullscreen => ClickOutcome(ToggleFullscreen(c), [])
    case Body => ClickOutcome(c, [])
  }

  /** A click on `t`: the element's own handler runs, then on desktop the click
      bubbles to the frame's container, whose `onClick` is `onFocus`. A minimised
      frame renders nothing, so nothing of it can be clicked. */
  function Click(layout: Layout, c: Chrome, t: Target): (r: ClickOutcome)
    ensures OnClose in r.callbacks <==> IsRendered(layout, c, t) && IsCloseControl(t)
    ensures OnFocus in r.callbacks <==> IsRendered(layout, c, t) && layout == DesktopFrame
    ensures IsRendered(layout, c, t) && IsCloseControl(t) && layout == DesktopFrame ==> r.callbacks == [OnClose, OnFocus]
    ensures c.minimized ==> r.chrome == c
    ensures r.chrome.minimized <==> c.minimized || (IsRendered(layout, c, t) && IsMinimizeControl(t))
    ensures layout == MobileFrame ==> r.chrome.fullscreen == c.fullscreen
  {
    if !IsRendered(layout, c, t) then ClickOutcome(c, [])
    else
      var own := OwnHandler(layout, c, t);
      ClickOutcome(own.chrome, own.callbacks + (if layout == DesktopFrame then [OnFocus] else []))
  }

  /** Clicks applied one after another. */
  function ClickAll(layout: Layout, c: Chrome, ts: seq<Target>): Chrome
    decreases |ts|
  {
    if |ts| == 0 then c else ClickAll(layout, Click(layout, c, ts[0]).chrome, ts[1..])
  }

  /** Minimising is absorbing: no click sequence brings a minimised frame back. */
  lemma {:induction false} MinimizedIsAbsorbing(layout: Layout, c: Chrome, ts: seq<Target>)
    requires c.minimized
    ensures ClickAll(layout, c, ts) == c
    decreases |ts|
  {
    if |ts| > 0 {
      MinimizedIsAbsorbing(layout, Click(layout, c, ts[0]).chrome, ts[1..]);
    }
  }

  /** On the mobile frame the fullscreen flag never changes, so fullscreen is unreachable there. */
  lemma {:induction false} MobileNeverFullscreen(c: Chrome, ts: seq<Target>)
    ensures ClickAll(MobileFrame, c, ts).fullscreen == c.fullscreen
    ensures ClickAll(MobileFrame, InitialChrome, ts).fullscreen == false
    decreases |ts|
  {
    if |ts| > 0 {
      MobileNeverFullscreen(Click(MobileFrame, c, ts[0]).chrome, ts[1..]);
      MobileNeverFullscreen(Click(MobileFrame, InitialChrome, ts[0]).chrome, ts[1..]);
    }
  }

  /** Two fullscreen toggles are the identity. */
  lemma FullscreenToggleInvolution(c: Chrome)
    ensures ToggleFullscreen(ToggleFullscreen(c)) == c
  {
  }

  /** The desktop frame carries the focus ring exactly when it is the focused window. */
  predicate HasFocusRing(layout: Layout, c: Chrome, isFocused: bool) {
    layout == DesktopFrame && !c.minimized && isFocused
  }
}
