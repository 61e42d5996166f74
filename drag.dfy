/** The drag-to-move session of app.py's MainWindow: the `_dragging` flag, the
    `_drag_start` anchor and the window Location, as changed by the three mouse
    handlers. The window class applies these transitions to its own fields. */
module Drag {
  import opened Toolkit

  /** Forms.MouseButtons. */
  datatype MouseButton = Left | Right | Middle | XButton1 | XButton2 | NoButton

  /** A MouseEventArgs: the button and the pointer position in window-local
      coordinates (`e.Location`, `e.X`, `e.Y`). */
  datatype MouseEvent = MouseEvent(button: MouseButton, at: Point)

  /** The part of the window the drag handlers read and write. */
  datatype DragState = DragState(dragging: bool, anchor: Point, location: Point)

  /** `_on_mouse_down`: a left press starts a session anchored at the pointer. */
  function OnMouseDown(s: DragState, e: MouseEvent): DragState {
    if e.button == Left then s.(dragging := true, anchor := e.at) else s
  }

  /** `_on_mouse_move`: while dragging, the window moves by pointer minus anchor. */
  function OnMouseMove(s: DragState, e: MouseEvent): DragState {
    if s.dragging then
      s.(location := Point(s.location.x + e.at.x - s.anchor.x, s.location.y + e.at.y - s.anchor.y))
    else s
  }

  /** `_on_mouse_up`: releasing the left button ends the session. */
  function OnMouseUp(s: DragState, e: MouseEvent): DragState {
    if e.button == Left then s.(dragging := false) else s
  }

  /** A left press starts a session at the pointer; any other button changes nothing. */
  lemma MouseDownStartsSession(s: DragState, e: MouseEvent)
    ensures OnMouseDown(s, e).location == s.location
    ensures e.button == Left ==> OnMouseDown(s, e).dragging && OnMouseDown(s, e).anchor == e.at
    ensures e.button != Left ==> OnMouseDown(s, e) == s
  {
  }

  /** A move shifts the location by (pointer - anchor) while dragging and never
      touches the session itself. */
  lemma MouseMoveShifts(s: DragState, e: MouseEvent)
    ensures var t := OnMouseMove(s, e);
      t.dragging == s.dragging && t.anchor == s.anchor &&
      (s.dragging ==> t.location.x - s.location.x == e.at.x - s.anchor.x &&
                      t.location.y - s.location.y == e.at.y - s.anchor.y) &&
      (!s.dragging ==> t.location == s.location)
  {
  }

  /** A left release ends the session; any other button changes nothing. */
  lemma MouseUpEndsSession(s: DragState, e: MouseEvent)
    ensures OnMouseUp(s, e).location == s.location && OnMouseUp(s, e).anchor == s.anchor
    ensures e.button == Left ==> !OnMouseUp(s, e).dragging
    ensures e.button != Left ==> OnMouseUp(s, e) == s
  {
  }

  /** Where the pointer at screen point `p` is, relative to the window. */
  function ToLocal(s: DragState, p: Point): Point {
    Point(p.x - s.location.x, p.y - s.location.y)
  }

  /** The pointer moves through the screen points of `path` in turn, with the
      left button held; each MouseMove reports it relative to the window's
      location at that moment. */
  function MoveThrough(s: DragState, path: seq<Point>): DragState
    decreases |path|
  {
    if path == [] then s
    else MoveThrough(OnMouseMove(s, MouseEvent(Left, ToLocal(s, path[0]))), path[1..])
  }

  /** While dragging, the window follows the pointer: after any non-empty
      path, the anchor point of the window lies under the pointer's last
      screen position, and the session is still the same one. */
  lemma {:induction false} DragFollowsPointer(s: DragState, path: seq<Point>)
    requires s.dragging && path != []
    ensures var t := MoveThrough(s, path);
      t.dragging && t.anchor == s.anchor &&
      t.location == Point(path[|path| - 1].x - s.anchor.x, path[|path| - 1].y - s.anchor.y)
    decreases |path|
  {
    var s' := OnMouseMove(s, MouseEvent(Left, ToLocal(s, path[0])));
    if |path| > 1 {
      DragFollowsPointer(s', path[1..]);
    }
  }

  /** Without a session, moves never relocate the window. */
  lemma {:induction false} IdleIgnoresMoves(s: DragState, path: seq<Point>)
    requires !s.dragging
    ensures MoveThrough(s, path) == s
    decreases |path|
  {
    if path != [] {
      IdleIgnoresMoves(s, path[1..]);
    }
  }

  /** A whole gesture: a left press at screen point `press`, then moves along
      `path`. The window ends displaced by exactly the pointer's displacement
      from the press to the last point. */
  lemma PressThenDrag(s: DragState, press: Point, path: seq<Point>)
    requires path != []
    ensures var t := MoveThrough(OnMouseDown(s, MouseEvent(Left, ToLocal(s, press))), path);
      var last := path[|path| - 1];
      t.dragging &&
      t.location == Point(s.location.x + last.x - press.x, s.location.y + last.y - press.y)
  {
    DragFollowsPointer(OnMouseDown(s, MouseEvent(Left, ToLocal(s, press))), path);
  }

  /** After a left release, stray moves no longer relocate the window. */
  lemma ReleaseEndsDrag(s: DragState, at: Point, path: seq<Point>)
    ensures MoveThrough(OnMouseUp(s, MouseEvent(Left, at)), path).location == s.location
  {
    IdleIgnoresMoves(OnMouseUp(s, MouseEvent(Left, at)), path);
  }
}
