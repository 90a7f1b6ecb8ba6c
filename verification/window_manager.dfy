/** The window manager hook (frontend/hooks/useWindowManager.ts): the ordered list of
    open windows plus the optional focused window, and its four transitions. */
module WindowManager {
  import opened Wrappers

  /** A window identifier: one of the keys of WINDOW_TITLES ("about", "projects",
      "skills", "contact", "resume", "chat"). The manager only compares them. */
  type Id = string

  /** `openWindows` in opening order (oldest first) and `focusedWindow`. */
  datatype Manager = Manager(open: seq<Id>, focused: Option<Id>)

  /** `useState<string[]>([])` and `useState<string | null>(null)`. */
  const Initial: Manager := Manager([], None)

  predicate NoDuplicates(s: seq<Id>) {
    forall i, j :: 0 <= i < j < |s| ==> s[i] != s[j]
  }

  /** The focused window, if any, is one of the open windows. */
  predicate FocusInOpen(m: Manager) {
    m.focused.Some? ==> m.focused.value in m.open
  }

  /** The two invariants a well-behaved manager keeps. */
  predicate Valid(m: Manager) {
    NoDuplicates(m.open) && FocusInOpen(m)
  }

  /** The last element of a sequence, if any: `s.length > 0 ? s[s.length - 1] : null`. */
  function LastOrNone(s: seq<Id>): (r: Option<Id>)
    ensures r.None? <==> |s| == 0
    ensures r.Some? ==> r.value in s
  {
    if |s| > 0 then Some(s[|s| - 1]) else None
  }

  /** `s.filter((x) => x !== id)`. */
  function Without(s: seq<Id>, id: Id): (r: seq<Id>)
    ensures forall x :: x in r <==> x in s && x != id
    ensures id in s ==> |r| < |s|
    ensures id !in s ==> r == s
    ensures NoDuplicates(s) ==> NoDuplicates(r)
    decreases |s|
  {
    if |s| == 0 then []
    else if s[0] == id then
      assert NoDuplicates(s) ==> NoDuplicates(s[1..]);
      Without(s[1..], id)
    else
      var rest := Without(s[1..], id);
      assert NoDuplicates(s) ==> NoDuplicates([s[0]] + rest) by {
        if NoDuplicates(s) {
          assert NoDuplicates(s[1..]);
          assert s[0] !in s[1..];
          ConsNoDuplicates(s[0], rest);
        }
      }
      [s[0]] + rest
  }

  lemma ConsNoDuplicates(x: Id, t: seq<Id>)
    requires x !in t && NoDuplicates(t)
    ensures NoDuplicates([x] + t)
  {
    var s := [x] + t;
    forall i, j | 0 <= i < j < |s| ensures s[i] != s[j] {
      assert s[j] == t[j - 1];
      if i > 0 {
        assert s[i] == t[i - 1];
      }
    }
  }

  /** Filtering distributes over concatenation. */
  lemma {:induction false} WithoutAppend(s: seq<Id>, t: seq<Id>, id: Id)
    ensures Without(s + t, id) == Without(s, id) + Without(t, id)
    decreases |s|
  {
    if |s| == 0 {
      assert s + t == t;
    } else {
      assert (s + t)[1..] == s[1..] + t;
      WithoutAppend(s[1..], t, id);
    }
  }

  /** Closing keeps every other window in its original relative order: in a list
      without duplicates that holds `id` at index `k`, the result is the list with
      slot `k` cut out. */
  lemma WithoutCutsSlot(s: seq<Id>, id: Id, k: nat)
    requires NoDuplicates(s)
    requires k < |s| && s[k] == id
    ensures Without(s, id) == s[..k] + s[k + 1..]
  {
    assert s == s[..k] + [id] + s[k + 1..];
    assert id !in s[..k];
    assert id !in s[k + 1..];
    WithoutAppend(s[..k] + [id], s[k + 1..], id);
    WithoutAppend(s[..k], [id], id);
  }

  /** `openWindow`: appends `id` only when it is not open yet; focuses it either way. */
  function Open(m: Manager, id: Id): (r: Manager)
    ensures r.focused == Some(id) && id in r.open
    ensures m.open <= r.open
    ensures forall x :: x in r.open <==> x in m.open || x == id
    ensures |r.open| == if id in m.open then |m.open| else |m.open| + 1
    ensures NoDuplicates(m.open) ==> Valid(r)
  {
    if id !in m.open then Manager(m.open + [id], Some(id))
    else Manager(m.open, Some(id))
  }

  /** `closeWindow`: removes `id`; when it was focused, focus falls to the last
      remaining window (or to nothing); otherwise focus is untouched. */
  function Close(m: Manager, id: Id): (r: Manager)
    ensures id !in r.open
    ensures forall x :: x in r.open <==> x in m.open && x != id
    ensures id !in m.open ==> r.open == m.open
    ensures m.focused != Some(id) ==> r.focused == m.focused
    ensures m.focused == Some(id) ==> FocusInOpen(r) && (r.focused.None? <==> r.open == [])
    ensures m.focused == Some(id) && r.open != [] ==> r.focused == Some(r.open[|r.open| - 1])
    ensures NoDuplicates(m.open) ==> NoDuplicates(r.open)
    ensures Valid(m) ==> Valid(r)
  {
    var rest := Without(m.open, id);
    Manager(rest, if m.focused == Some(id) then LastOrNone(rest) else m.focused)
  }

  /** `focusWindow`: sets focus with no check that the window is open. */
  function Focus(m: Manager, id: Id): (r: Manager)
    ensures r.open == m.open && r.focused == Some(id)
    ensures Valid(m) && id in m.open ==> Valid(r)
    ensures id !in m.open ==> !FocusInOpen(r)
  {
    Manager(m.open, Some(id))
  }

  /** `toggleWindow`: close when open, open otherwise. */
  function Toggle(m: Manager, id: Id): (r: Manager)
    ensures id in m.open ==> id !in r.open
    ensures id !in m.open ==> id in r.open && r.focused == Some(id)
    ensures NoDuplicates(m.open) ==> NoDuplicates(r.open)
    ensures Valid(m) ==> Valid(r)
  {
    if id in m.open then Close(m, id) else Open(m, id)
  }

  /** The focusing variant that keeps the focus invariant: focusing a window that
      is not open changes nothing. */
  function FocusIfOpen(m: Manager, id: Id): (r: Manager)
    ensures r.open == m.open
    ensures Valid(m) ==> Valid(r)
    ensures id in m.open ==> r.focused == Some(id)
    ensures id !in m.open ==> r == m
  {
    if id in m.open then Focus(m, id) else m
  }

  /** Re-opening an open window leaves the list alone and only moves focus. */
  lemma OpenIdempotent(m: Manager, id: Id)
    ensures Open(Open(m, id), id) == Open(m, id)
    ensures id in m.open ==> Open(m, id) == Focus(m, id)
  {
  }

  /** Closing twice is closing once, whatever the state. */
  lemma CloseIdempotent(m: Manager, id: Id)
    ensures Close(Close(m, id), id) == Close(m, id)
  {
    var r := Close(m, id);
    assert id !in r.open;
    assert Without(r.open, id) == r.open;
    if m.focused == Some(id) {
      assert r.focused != Some(id);
    }
  }

  /** Opening then closing a window that was not open restores the list. */
  lemma OpenThenCloseRestoresOpen(m: Manager, id: Id)
    requires id !in m.open
    ensures Close(Open(m, id), id).open == m.open
    ensures Close(Open(m, id), id).focused == LastOrNone(m.open)
  {
    WithoutAppend(m.open, [id], id);
    assert Without([id], id) == [];
    assert m.open + [] == m.open;
  }

  /** Toggling twice from a state without the window restores the open list. */
  lemma ToggleTwiceRestoresOpen(m: Manager, id: Id)
    requires id !in m.open
    ensures Toggle(Toggle(m, id), id).open == m.open
  {
    assert Toggle(m, id) == Open(m, id);
    OpenThenCloseRestoresOpen(m, id);
  }

  /** Toggle is pure dispatch on membership. */
  lemma ToggleIsDispatch(m: Manager, id: Id)
    ensures id in m.open ==> Toggle(m, id) == Close(m, id)
    ensures id !in m.open ==> Toggle(m, id) == Open(m, id)
  {
  }

  /** One call on the manager. */
  datatype Op = OpenOp(id: Id) | CloseOp(id: Id) | FocusOp(id: Id) | ToggleOp(id: Id)

  function Apply(m: Manager, op: Op): Manager {
    match op
    case OpenOp(id) => Open(m, id)
    case CloseOp(id) => Close(m, id)
    case FocusOp(id) => Focus(m, id)
    case ToggleOp(id) => Toggle(m, id)
  }

  /** The calls applied one after another, each to the state the previous one left. */
  function Run(m: Manager, ops: seq<Op>): Manager
    decreases |ops|
  {
    if |ops| == 0 then m else Run(Apply(m, ops[0]), ops[1..])
  }

  /** Every `focusWindow` call in `ops` names a window open at that moment. */
  predicate FocusesOnlyOpen(m: Manager, ops: seq<Op>)
    decreases |ops|
  {
    |ops| == 0 ||
    ((ops[0].FocusOp? ==> ops[0].id in m.open) && FocusesOnlyOpen(Apply(m, ops[0]), ops[1..]))
  }

  /** No sequence of calls, `focusWindow` included, ever duplicates an open window. */
  lemma {:induction false} RunKeepsNoDuplicates(m: Manager, ops: seq<Op>)
    requires NoDuplicates(m.open)
    ensures NoDuplicates(Run(m, ops).open)
    decreases |ops|
  {
    if |ops| > 0 {
      RunKeepsNoDuplicates(Apply(m, ops[0]), ops[1..]);
    }
  }

  /** The focus invariant survives every sequence of calls whose focus calls name open windows. */
  lemma {:induction false} RunKeepsValid(m: Manager, ops: seq<Op>)
    requires Valid(m) && FocusesOnlyOpen(m, ops)
    ensures Valid(Run(m, ops))
    decreases |ops|
  {
    if |ops| > 0 {
      RunKeepsValid(Apply(m, ops[0]), ops[1..]);
    }
  }

  /** Every state reached from the initial state by any calls has no duplicate windows,
      and, when focus calls name open windows, a focus that is absent or open. */
  lemma ReachableInvariants(ops: seq<Op>)
    ensures NoDuplicates(Run(Initial, ops).open)
    ensures FocusesOnlyOpen(Initial, ops) ==> Valid(Run(Initial, ops))
  {
    RunKeepsNoDuplicates(Initial, ops);
    if FocusesOnlyOpen(Initial, ops) {
      RunKeepsValid(Initial, ops);
    }
  }

  /** `close(id); focus(id)` leaves focus on a window that is no longer open,
      from any state in which `id` is open. */
  lemma CloseThenFocusBreaksFocusInvariant(m: Manager, id: Id)
    requires id in m.open
    ensures var r := Focus(Close(m, id), id); r.focused == Some(id) && id !in r.open && !FocusInOpen(r)
  {
  }
}
