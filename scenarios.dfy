/**
 * Sequences of handler calls, as the browser delivers them, and what the
 * shell guarantees at their end. Each method states a property of the page
 * that holds across several events, and its frame names every field the
 * events may change.
 */
module ShellScenarios {
  import opened Wrappers
  import opened Geometry
  import opened DesktopIcons
  import opened Shell

  /** One mouse-move event: cursor position and whether Alt is held. */
  datatype Move = Move(clientX: int, clientY: int, alt: bool)

  /**
   * Press an icon with the main button, drag it through any number of
   * moves, and release. The loop invariant says that throughout the drag
   * only the dragged icon's entry differs from the layout at mouse-down; on
   * release that layout is shown again and is what gets saved. The window
   * is not touched.
   */
  method DragAndRelease(d: Desktop, id: string, x0: int, y0: int, moves: seq<Move>)
    requires d.Valid() && id != ""
    modifies d`drag, d`dragSnapshot, d`iconPositions, d`saved
    ensures d.Valid()
    ensures d.drag == IDLE_DRAG
    ensures d.iconPositions == old(d.iconPositions)
    ensures d.saved == Some(old(d.iconPositions))
  {
    ghost var before := d.iconPositions;
    d.OnIconMouseDown(0, x0, y0, id);
    for i := 0 to |moves|
      invariant d.Valid()
      invariant d.drag == DragState(Some(id), x0, y0, PositionOr(before, id))
      invariant d.dragSnapshot == before
      invariant d.iconPositions.Keys <= before.Keys + {id}
      invariant forall k :: k in before && k != id ==> k in d.iconPositions && d.iconPositions[k] == before[k]
    {
      d.OnIconMouseMove(moves[i].clientX, moves[i].clientY, moves[i].alt);
    }
    d.OnIconMouseUp();
  }

  /** A secondary-button press starts no drag, so moving and releasing change nothing. */
  method NonPrimaryPressDragsNothing(d: Desktop, button: int, id: string, x0: int, y0: int, x1: int, y1: int, alt: bool)
    requires d.Valid() && button != 0 && d.drag == IDLE_DRAG
    modifies d`drag, d`dragSnapshot, d`iconPositions, d`saved
    ensures d.Valid()
    ensures d.iconPositions == old(d.iconPositions) && d.saved == old(d.saved)
    ensures d.drag == IDLE_DRAG && d.dragSnapshot == old(d.dragSnapshot)
  {
    d.OnIconMouseDown(button, x0, y0, id);
    d.OnIconMouseMove(x1, y1, alt);
    d.OnIconMouseUp();
  }

  /**
   * Maximizing and then restoring puts the window back where it was, at its
   * old size, and leaves those bounds remembered.
   */
  method MaximizeThenRestore(d: Desktop, container: Option<Rect>)
    requires d.Valid() && d.openWindow.Some? && !d.isMaximized
    modifies d`windowPos, d`windowSize, d`isMaximized, d`prevBounds
    ensures d.Valid()
    ensures d.windowPos == old(d.windowPos) && d.windowSize == old(d.windowSize)
    ensures !d.isMaximized
    ensures d.prevBounds == Some(Bounds(old(d.windowPos), old(d.windowSize)))
  {
    d.OnToggleMaximize(container);
    assert d.isMaximized;
    d.OnToggleMaximize(container);
  }

  /**
   * Minimizing hides the window but keeps its taskbar button; the button
   * shows it again with its geometry and maximized flag untouched.
   */
  method MinimizeThenTaskbar(d: Desktop)
    requires d.Valid() && d.openWindow.Some?
    modifies d`isMinimized
    ensures d.Valid()
    ensures d.WindowShown()
    ensures d.windowPos == old(d.windowPos) && d.windowSize == old(d.windowSize)
    ensures d.isMaximized == old(d.isMaximized) && d.openWindow == old(d.openWindow)
  {
    d.OnMinimize();
    assert !d.WindowShown() && d.TaskbarEntryShown();
    d.OnTaskbarAppClick();
  }

  /**
   * Double-clicking one icon and then another leaves only the second's
   * window open; geometry, the maximized flag, icon layout and storage
   * are untouched.
   */
  method DoubleClickReplaces(d: Desktop, first: nat, second: nat)
    requires d.Valid() && first < |Icons| && second < |Icons|
    modifies d`openWindow, d`isMinimized
    ensures d.Valid()
    ensures d.openWindow == Some(Icons[second]) && d.WindowShown()
    ensures d.windowPos == old(d.windowPos) && d.windowSize == old(d.windowSize)
    ensures d.isMaximized == old(d.isMaximized)
  {
    d.HandleDoubleClick(Icons[first].id);
    FindIconById(first);
    assert d.openWindow == Some(Icons[first]);
    d.HandleDoubleClick(Icons[second].id);
    FindIconById(second);
  }

  /**
   * While maximized there is no resize handle, and pressing and dragging the
   * title bar or the resize handle starts no gesture and changes no geometry.
   */
  method GesturesIgnoredWhileMaximized(d: Desktop, x0: int, y0: int, x1: int, y1: int)
    requires d.Valid() && d.isMaximized && d.move == None && d.resize == None
    modifies d`move, d`resize, d`windowPos, d`windowSize
    ensures d.Valid()
    ensures !d.ResizeHandleShown()
    ensures d.move == None && d.resize == None
    ensures d.windowPos == old(d.windowPos) && d.windowSize == old(d.windowSize)
  {
    d.OnWindowMouseDown(x0, y0);
    d.OnWindowMouseMove(x1, y1);
    d.OnWindowMouseUp();
    d.OnResizeMouseDown(x0, y0);
    d.OnResizeMouseMove(x1, y1);
    d.OnResizeMouseUp();
  }

  /**
   * After close there is no window or taskbar entry, and maximize and
   * minimize change nothing: geometry and remembered bounds stay as they were.
   */
  method CloseDisablesWindowButtons(d: Desktop, container: Option<Rect>)
    requires d.Valid()
    modifies d`openWindow, d`isMinimized, d`isMaximized, d`windowPos, d`windowSize, d`prevBounds
    ensures d.Valid()
    ensures d.openWindow == None && !d.isMinimized && !d.isMaximized
    ensures !d.WindowShown() && !d.TaskbarEntryShown()
    ensures d.windowPos == old(d.windowPos) && d.windowSize == old(d.windowSize)
    ensures d.prevBounds == old(d.prevBounds)
  {
    d.OnClose();
    d.OnToggleMaximize(container);
    d.OnMinimize();
  }
}
