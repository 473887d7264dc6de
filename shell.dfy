/**
 * The desktop shell's state and its event handlers. Each handler is one
 * atomic step. A handler registered on the document during a gesture is a
 * method that reads the gesture's recorded start.
 */
module Shell {
  import opened Wrappers
  import opened Geometry
  import opened DesktopIcons

  /**
   * What mouse-down on an icon records: the icon's id, the cursor position
   * and the icon's position at that moment. The idle value has no id.
   */
  datatype DragState = DragState(id: Option<string>, startX: int, startY: int, orig: Point)

  const IDLE_DRAG: DragState := DragState(None, 0, 0, Point(0, 0))

  /** What mouse-down on the title bar records for moving the window. */
  datatype MoveGesture = MoveGesture(startX: int, startY: int, startPos: Point)

  /** What mouse-down on the resize handle records for resizing the window. */
  datatype ResizeGesture = ResizeGesture(startX: int, startY: int, startSize: Size)

  /** JavaScript truthiness of a drag id: present and not the empty string. */
  predicate IsActive(id: Option<string>)
  {
    id.Some? && id.value != ""
  }

  class Desktop {
    /** The layout drawn on screen. */
    var iconPositions: Layout
    /**
     * The storage slot for the layout, as reading and parsing it gives:
     * None when it is missing, empty, unreadable or not valid JSON.
     */
    var saved: Option<Layout>
    var drag: DragState
    /**
     * The layout as it was when the current icon drag began. The page's
     * mouse-move and mouse-up listeners are closures created at mouse-down,
     * so they see that layout and not later updates. This differs from the
     * evident intent: mouse-up puts back and saves this layout, not the
     * icon's final position.
     */
    var dragSnapshot: Layout

    /** The icon whose window is open, if any. */
    var openWindow: Option<Icon>
    var windowPos: Point
    var windowSize: Size
    var isMaximized: bool
    var isMinimized: bool
    /** The bounds remembered by the last maximize. */
    var prevBounds: Option<Bounds>
    var move: Option<MoveGesture>
    var resize: Option<ResizeGesture>

    /**
     * The shell's invariant: a maximized window has bounds to restore to, a
     * minimized window is an open one, and an open window belongs to an icon.
     */
    ghost predicate Valid()
      reads this
    {
      && (isMaximized ==> prevBounds.Some?)
      && (isMinimized ==> openWindow.Some?)
      && (openWindow.Some? ==> openWindow.value in Icons)
    }

    /** The window is drawn. */
    predicate WindowShown()
      reads this
    {
      openWindow.Some? && !isMinimized
    }

    /** The taskbar has a button for the window. */
    predicate TaskbarEntryShown()
      reads this
    {
      openWindow.Some?
    }

    /** The resize handle is drawn. */
    predicate ResizeHandleShown()
      reads this
    {
      WindowShown() && !isMaximized
    }

    /** The first render: default layout, no window, the given storage slot. */
    constructor (stored: Option<Layout>)
      ensures Valid()
      ensures IsDefaultLayout(iconPositions) && saved == stored
      ensures drag == IDLE_DRAG && dragSnapshot == map[]
      ensures openWindow == None && !isMaximized && !isMinimized && prevBounds == None
      ensures windowPos == Point(120, 120) && windowSize == Size(640, 460)
      ensures move == None && resize == None
    {
      var defaults := GetDefaultIconPositions();
      iconPositions := defaults;
      saved := stored;
      drag := IDLE_DRAG;
      dragSnapshot := map[];
      openWindow := None;
      windowPos := Point(120, 120);
      windowSize := Size(640, 460);
      isMaximized := false;
      isMinimized := false;
      prevBounds := None;
      move := None;
      resize := None;
    }

    /** On mount: a parseable stored layout replaces the defaults; anything else keeps them. */
    method LoadSavedPositions()
      requires Valid()
      modifies this`iconPositions
      ensures Valid()
      ensures saved.Some? ==> iconPositions == saved.value
      ensures saved.None? ==> iconPositions == old(iconPositions)
    {
      if saved.Some? {
        iconPositions := saved.value;
      }
    }

    /** Shows a layout and writes it to the storage slot. */
    method SaveIconPositions(positions: Layout)
      requires Valid()
      modifies this`iconPositions, this`saved
      ensures Valid()
      ensures iconPositions == positions && saved == Some(positions)
    {
      iconPositions := positions;
      saved := Some(positions);
    }

    /**
     * Mouse-down on icon `id`. Only the main button starts a drag; it starts
     * from the icon's position, or from the fallback when it has none.
     */
    method OnIconMouseDown(button: int, clientX: int, clientY: int, id: string)
      requires Valid()
      modifies this`drag, this`dragSnapshot
      ensures Valid()
      ensures button != 0 ==> drag == old(drag) && dragSnapshot == old(dragSnapshot)
      ensures button == 0 ==> drag == DragState(Some(id), clientX, clientY, PositionOr(iconPositions, id))
      ensures button == 0 ==> dragSnapshot == iconPositions
    {
      if button != 0 {
        return;
      }
      var pos := PositionOr(iconPositions, id);
      drag := DragState(Some(id), clientX, clientY, pos);
      dragSnapshot := iconPositions;
    }

    /**
     * Mouse-move during an icon drag: the dragged icon goes to its start
     * position plus the cursor's displacement, each coordinate snapped to the
     * grid unless Alt is held, on top of the layout captured at mouse-down.
     * With no drag in progress nothing changes.
     */
    method OnIconMouseMove(clientX: int, clientY: int, alt: bool)
      requires Valid()
      modifies this`iconPositions
      ensures Valid()
      ensures !IsActive(drag.id) ==> iconPositions == old(iconPositions)
      ensures IsActive(drag.id) ==>
        iconPositions == dragSnapshot[drag.id.value := Point(
          Snap(drag.orig.x + (clientX - drag.startX), alt),
          Snap(drag.orig.y + (clientY - drag.startY), alt))]
      ensures IsActive(drag.id) ==> iconPositions.Keys == dragSnapshot.Keys + {drag.id.value}
      ensures IsActive(drag.id) ==>
        forall k :: k in dragSnapshot && k != drag.id.value ==> iconPositions[k] == dragSnapshot[k]
      ensures IsActive(drag.id) && !alt ==>
        iconPositions[drag.id.value].x % GRID == 0 && iconPositions[drag.id.value].y % GRID == 0
      ensures IsActive(drag.id) && alt ==>
        iconPositions[drag.id.value] == Point(drag.orig.x + (clientX - drag.startX), drag.orig.y + (clientY - drag.startY))
    {
      if !IsActive(drag.id) {
        return;
      }
      var dx := clientX - drag.startX;
      var dy := clientY - drag.startY;
      var rawX := drag.orig.x + dx;
      var rawY := drag.orig.y + dy;
      var nx := Snap(rawX, alt);
      var ny := Snap(rawY, alt);
      iconPositions := dragSnapshot[drag.id.value := Point(nx, ny)];
    }

    /**
     * Mouse-up after an icon drag: when a drag was in progress, the layout
     * captured at mouse-down is shown and saved. The drag state is reset
     * either way.
     */
    method OnIconMouseUp()
      requires Valid()
      modifies this`iconPositions, this`saved, this`drag
      ensures Valid()
      ensures drag == IDLE_DRAG
      ensures IsActive(old(drag.id)) ==> iconPositions == dragSnapshot && saved == Some(dragSnapshot)
      ensures !IsActive(old(drag.id)) ==> iconPositions == old(iconPositions) && saved == old(saved)
    {
      if IsActive(drag.id) {
        SaveIconPositions(dragSnapshot);
      }
      drag := IDLE_DRAG;
    }

    /** Mouse-down on the title bar: starts a move unless the window is maximized. */
    method OnWindowMouseDown(clientX: int, clientY: int)
      requires Valid()
      modifies this`move
      ensures Valid()
      ensures isMaximized ==> move == old(move)
      ensures !isMaximized ==> move == Some(MoveGesture(clientX, clientY, windowPos))
    {
      if isMaximized {
        return;
      }
      move := Some(MoveGesture(clientX, clientY, windowPos));
    }

    /**
     * Mouse-move during a window move: the window is displaced from where it
     * was at mouse-down by exactly the cursor's displacement.
     */
    method OnWindowMouseMove(clientX: int, clientY: int)
      requires Valid()
      modifies this`windowPos
      ensures Valid()
      ensures move.None? ==> windowPos == old(windowPos)
      ensures move.Some? ==>
        && windowPos.x - move.value.startPos.x == clientX - move.value.startX
        && windowPos.y - move.value.startPos.y == clientY - move.value.startY
    {
      if move.Some? {
        var g := move.value;
        var dx := clientX - g.startX;
        var dy := clientY - g.startY;
        windowPos := Point(g.startPos.x + dx, g.startPos.y + dy);
      }
    }

    /** Mouse-up after a window move: the move's listeners are removed. */
    method OnWindowMouseUp()
      requires Valid()
      modifies this`move
      ensures Valid()
      ensures move == None
    {
      move := None;
    }

    /** Mouse-down on the resize handle: starts a resize unless the window is maximized. */
    method OnResizeMouseDown(clientX: int, clientY: int)
      requires Valid()
      modifies this`resize
      ensures Valid()
      ensures isMaximized ==> resize == old(resize)
      ensures !isMaximized ==> resize == Some(ResizeGesture(clientX, clientY, windowSize))
    {
      if isMaximized {
        return;
      }
      resize := Some(ResizeGesture(clientX, clientY, windowSize));
    }

    /**
     * Mouse-move during a resize: the size at mouse-down grown by the
     * cursor's displacement, but never below 360 by 260.
     */
    method OnResizeMouseMove(clientX: int, clientY: int)
      requires Valid()
      modifies this`windowSize
      ensures Valid()
      ensures resize.None? ==> windowSize == old(windowSize)
      ensures resize.Some? ==> windowSize.w >= MIN_W && windowSize.h >= MIN_H
      ensures resize.Some? ==>
        windowSize == ClampSize(Size(resize.value.startSize.w + (clientX - resize.value.startX),
                                     resize.value.startSize.h + (clientY - resize.value.startY)))
    {
      if resize.Some? {
        var g := resize.value;
        var dw := clientX - g.startX;
        var dh := clientY - g.startY;
        windowSize := ClampSize(Size(g.startSize.w + dw, g.startSize.h + dh));
      }
    }

    /** Mouse-up after a resize: the resize's listeners are removed. */
    method OnResizeMouseUp()
      requires Valid()
      modifies this`resize
      ensures Valid()
      ensures resize == None
    {
      resize := None;
    }

    /**
     * Double-click on icon `id`: opens that icon's window in place of any
     * open one, shown (not minimized). Geometry and the maximized flag are kept.
     */
    method HandleDoubleClick(id: string)
      requires Valid()
      modifies this`openWindow, this`isMinimized
      ensures Valid()
      ensures openWindow == Find(Icons, id)
      ensures !isMinimized
    {
      openWindow := Find(Icons, id);
      isMinimized := false;
    }

    /** Close: no window, neither minimized nor maximized. Geometry is kept. */
    method OnClose()
      requires Valid()
      modifies this`openWindow, this`isMinimized, this`isMaximized
      ensures Valid()
      ensures openWindow == None && !isMinimized && !isMaximized
    {
      openWindow := None;
      isMinimized := false;
      isMaximized := false;
    }

    /** Minimize: hides an open window; without one, nothing changes. */
    method OnMinimize()
      requires Valid()
      modifies this`isMinimized
      ensures Valid()
      ensures openWindow.None? ==> isMinimized == old(isMinimized)
      ensures openWindow.Some? ==> isMinimized
    {
      if openWindow.None? {
        return;
      }
      isMinimized := true;
    }

    /**
     * Maximize or restore an open window. Maximizing remembers the current
     * bounds and, when the container's size is known, fills it above the
     * taskbar. Restoring puts back the remembered bounds; the page checks
     * that there are some, and Valid() guarantees it whenever the window is
     * maximized.
     */
    method OnToggleMaximize(container: Option<Rect>)
      requires Valid()
      modifies this`windowPos, this`windowSize, this`isMaximized, this`prevBounds
      ensures Valid()
      ensures openWindow.None? ==>
        && windowPos == old(windowPos) && windowSize == old(windowSize)
        && isMaximized == old(isMaximized) && prevBounds == old(prevBounds)
      ensures openWindow.Some? && !old(isMaximized) ==>
        && isMaximized
        && prevBounds == Some(Bounds(old(windowPos), old(windowSize)))
        && (container.Some? ==>
              windowPos == Point(0, 0) && windowSize == Size(container.value.width, container.value.height - TASKBAR_H))
        && (container.None? ==> windowPos == old(windowPos) && windowSize == old(windowSize))
      ensures openWindow.Some? && old(isMaximized) ==>
        && !isMaximized
        && prevBounds == old(prevBounds)
        && windowPos == old(prevBounds).value.pos && windowSize == old(prevBounds).value.size
    {
      if openWindow.None? {
        return;
      }
      if !isMaximized {
        prevBounds := Some(Bounds(windowPos, windowSize));
        if container.Some? {
          windowPos := Point(0, 0);
          windowSize := Size(container.value.width, container.value.height - TASKBAR_H);
        }
        isMaximized := true;
      } else {
        var b := prevBounds;
        if b.Some? {
          windowPos := b.value.pos;
          windowSize := b.value.size;
        }
        isMaximized := false;
      }
    }

    /** The taskbar button: shows the window again. */
    method OnTaskbarAppClick()
      requires Valid()
      modifies this`isMinimized
      ensures Valid()
      ensures !isMinimized
    {
      isMinimized := false;
    }
  }
}
