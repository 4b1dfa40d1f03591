/** The scroll cursor shared by the bottom-pane popups: a selected index and
    the first row of the window.  The list length and the number of visible
    rows are passed to every operation, since they change independently of
    the cursor.  `ScrollState` is a `Copy` value in Rust, so here it is a
    datatype and its `&mut self` methods are functions returning the new value. */
module Scroll {

  import opened Common

  datatype ScrollState = ScrollState(selectedIdx: Option<nat>, scrollTop: nat)

  /** `ScrollState::new()`: nothing selected, window at the top. */
  function NewScrollState(): ScrollState
  {
    ScrollState(None, 0)
  }

  /** The selection, if any, lies inside the window of `rows` rows starting at `scrollTop`. */
  predicate SelectionVisible(s: ScrollState, rows: nat)
  {
    s.selectedIdx.Some? ==> s.scrollTop <= s.selectedIdx.value < s.scrollTop + rows
  }

  /** `move_up_wrap(len)`: one row up, from the first row round to the last. */
  function MoveUpWrap(s: ScrollState, len: nat): (r: ScrollState)
    ensures r.scrollTop == s.scrollTop
    ensures len == 0 ==> r == s
    ensures len > 0 ==> r.selectedIdx.Some? && r.selectedIdx.value < len
    ensures len > 0 && s.selectedIdx.Some? && s.selectedIdx.value < len ==>
              r.selectedIdx.value == (s.selectedIdx.value + len - 1) % len
  {
    if len == 0 then s
    else
      match s.selectedIdx
      case Some(i) =>
        if 0 < i < len then s.(selectedIdx := Some(i - 1)) else s.(selectedIdx := Some(len - 1))
      case None => s.(selectedIdx := Some(0))
  }

  /** `move_down_wrap(len)`: one row down, from the last row round to the first. */
  function MoveDownWrap(s: ScrollState, len: nat): (r: ScrollState)
    ensures r.scrollTop == s.scrollTop
    ensures len == 0 ==> r == s
    ensures len > 0 ==> r.selectedIdx.Some? && r.selectedIdx.value < len
    ensures len > 0 && s.selectedIdx.Some? && s.selectedIdx.value < len ==>
              r.selectedIdx.value == (s.selectedIdx.value + 1) % len
  {
    if len == 0 then s
    else
      match s.selectedIdx
      case Some(i) =>
        if i + 1 < len then s.(selectedIdx := Some(i + 1)) else s.(selectedIdx := Some(0))
      case None => s.(selectedIdx := Some(0))
  }

  /** `ensure_visible(len, rows)`: moves the window as little as needed to
      show the selection, then keeps it inside the list (top at most
      `len - rows`, and 0 when the list fits).  With an empty list, no rows
      or no selection the window goes back to the top. */
  function EnsureVisible(s: ScrollState, len: nat, rows: nat): (r: ScrollState)
    ensures r.selectedIdx == s.selectedIdx
    ensures r.scrollTop <= SatSub(len, rows)
    ensures len == 0 || rows == 0 || s.selectedIdx.None? ==> r.scrollTop == 0
    ensures rows > 0 && s.selectedIdx.Some? && s.selectedIdx.value < len ==> SelectionVisible(r, rows)
    ensures (rows > 0 && len > 0 && s.selectedIdx.Some? && SelectionVisible(s, rows)
             && s.scrollTop <= SatSub(len, rows)) ==> r == s
  {
    if len == 0 || rows == 0 then s.(scrollTop := 0)
    else
      match s.selectedIdx
      case None => s.(scrollTop := 0)
      case Some(i) =>
        var top :=
          if i < s.scrollTop then i
          else if i >= s.scrollTop + rows then i + 1 - rows
          else s.scrollTop;
        s.(scrollTop := Min(top, SatSub(len, rows)))
  }
}
