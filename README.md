# Retro desktop shell of a portfolio page

This project models the desktop shell of a portfolio site that looks like a
retro desktop. It covers the draggable icons and their grid snapping, the
storage slot that keeps their layout, the single window (open, close,
minimize, maximize/restore, move, resize), and the accordion of the Projects
window. Each event handler of the page is one atomic step on a `Desktop`
object (module `Shell`). The snapping and clamping arithmetic (module
`Geometry`), the accordion toggle (module `ProjectsWindow`) and the icon
lookup are pure functions. The default layout is built by a method with a
loop, as the page builds it (module `DesktopIcons`). Module
`ShellScenarios` holds methods that call several handlers in a row, as the
browser would, and prove what holds at the end.

Points that follow the code and not what it evidently intends:

- Icon drags read a stale layout. The page's mouse-move and mouse-up
  listeners are closures created at mouse-down. They see the layout from
  that moment (`Desktop.dragSnapshot`). So each move rewrites only the
  dragged icon on top of that layout. Release then shows and saves that
  layout again, not the icon's final position, although the evident intent
  is to save the final position. `ShellScenarios.DragAndRelease` proves the
  behaviour as written.
- The drag id is checked with JavaScript truthiness, so an empty id counts as
  "no drag" (`Shell.IsActive`).
- A window move or resize started before maximizing keeps following the
  cursor. Only mouse-down checks the maximized flag.
- Double-click looks the id up in the icon table. An id that is not in the
  table leaves no window open (`DesktopIcons.Find` returns `None`).

The container's size is a parameter (`Option<Rect>`, `None` when there is no
container element). The storage slot is a field that holds what reading and
parsing it gives (`None` when it is missing, empty, unreadable or not valid
JSON). Coordinates are unbounded integers.

## Model

| member | source | states |
|---|---|---|
| Geometry.JsRound | app/page.js:121-122 | Math.round gives the integer r with r - 0.5 <= x < r + 0.5, so halves go up |
| Geometry.RoundToGrid | app/page.js:121-122 | the snapped value is a multiple of 20 within (n - 10, n + 10] |
| Geometry.RoundToGridIsJsRound | app/page.js:121-122 | floor-division form equals `Math.round(n / 20) * 20` for every integer n |
| Geometry.RoundToGridNearest | app/page.js:121-122 | no multiple of 20 is closer to n; on a tie the upper one is chosen |
| Geometry.Snap | app/page.js:117-122 | with Alt the raw coordinate is kept; without it the result is a multiple of 20 within 10 of the raw one |
| Geometry.AtLeast | app/page.js:162 | Math.max(min, v) is at least both arguments and equals one of them |
| Geometry.ClampSize | app/page.js:158-162 | resized width is at least 360 and height at least 260; a request at or above a minimum is kept exactly |
| DesktopIcons.IconIdsDistinct | app/page.js:23-28 | the four icon ids are pairwise distinct |
| DesktopIcons.GetDefaultIconPositions | app/page.js:30-37 | the loop yields one entry per icon id, icon i at (24, 24 + 110 i) |
| DesktopIcons.DefaultLayoutShape | app/page.js:30-37 | the default layout has exactly one entry per icon, all at x = 24, with y strictly increasing |
| DesktopIcons.PositionOr | app/page.js:109 | an icon's stored position, or (24, 24) when the layout has none |
| DesktopIcons.DefaultLayoutPositionOf | app/page.js:236 | under the default layout every icon is drawn at its default place, never through the fallback branch |
| DesktopIcons.Find | app/page.js:174 | `find` returns nothing exactly when no icon has the id, and otherwise the first icon with that id |
| DesktopIcons.FindIconById | app/page.js:173-175 | looking up the id of icon k finds icon k |
| ProjectsWindow.IsOpen | app/page.js:478 | a project is expanded exactly when the accordion's open id is its id |
| ProjectsWindow.Toggle | app/page.js:463-465 | the clicked project is open afterwards exactly when it was not open before; no other project is open |
| ProjectsWindow.ToggleTwice | app/page.js:463-465 | from all-collapsed or from that project open, two clicks on it return to the same state |
| ProjectsWindow.ToggleTwiceFromOther | app/page.js:463-465 | with another project open, two clicks on a project leave everything collapsed |
| ProjectsWindow.ToggleAllOpensLast | app/page.js:477-488 | after any clicks, either nothing is open or the last clicked project is |
| Shell.IsActive | app/page.js:116 | a drag is in progress exactly when the recorded id is present and non-empty, the JavaScript truthiness of the id |
| Shell.Desktop.WindowShown | app/page.js:277 | the window is drawn exactly when a window is open and not minimized |
| Shell.Desktop.TaskbarEntryShown | app/page.js:259 | the taskbar has a button exactly when a window is open |
| Shell.Desktop.ResizeHandleShown | app/page.js:296 | the resize handle is drawn exactly when the window is drawn and not maximized |
| Shell.Desktop.constructor | app/page.js:41-49 | initial state: default layout, no window, pos (120, 120), size 640 x 460, both flags false, no saved bounds |
| Shell.Desktop.LoadSavedPositions | app/page.js:56-61 | a parseable stored layout replaces the defaults; otherwise the layout is kept |
| Shell.Desktop.SaveIconPositions | app/page.js:97-102 | the given layout is both shown and stored |
| Shell.Desktop.OnIconMouseDown | app/page.js:106-113 | a non-main button changes nothing; otherwise the drag records id, cursor, start position (or (24, 24)) and the current layout |
| Shell.Desktop.OnIconMouseMove | app/page.js:114-125 | with no drag nothing changes; during a drag only the dragged entry differs from the mouse-down layout and it is snapped (or raw with Alt) |
| Shell.Desktop.OnIconMouseUp | app/page.js:126-131 | drag state reset; after a drag the mouse-down layout is shown and stored |
| Shell.Desktop.OnWindowMouseDown | app/page.js:134-138 | while maximized no move starts; otherwise the cursor and window position are recorded |
| Shell.Desktop.OnWindowMouseMove | app/page.js:139-143 | the window's displacement from its start equals the cursor's |
| Shell.Desktop.OnWindowMouseUp | app/page.js:144-149 | the move ends |
| Shell.Desktop.OnResizeMouseDown | app/page.js:152-158 | while maximized no resize starts; otherwise the cursor and window size are recorded |
| Shell.Desktop.OnResizeMouseMove | app/page.js:159-163 | size is start size plus cursor delta, clamped to at least 360 x 260 |
| Shell.Desktop.OnResizeMouseUp | app/page.js:164-169 | the resize ends |
| Shell.Desktop.HandleDoubleClick | app/page.js:173-177 | the looked-up icon's window replaces any open one and is not minimized |
| Shell.Desktop.OnClose | app/page.js:179-183 | no window, neither minimized nor maximized, geometry kept |
| Shell.Desktop.OnMinimize | app/page.js:184-187 | an open window is minimized; with none the state is unchanged |
| Shell.Desktop.OnToggleMaximize | app/page.js:188-207 | maximize saves the bounds and fills (0, 0, W, H - 40), or only sets the flag with no container; restore puts the saved bounds back, which exist whenever the window is maximized |
| Shell.Desktop.OnTaskbarAppClick | app/page.js:209 | the window is no longer minimized |
| ShellScenarios.DragAndRelease | app/page.js:106-131 | through any number of moves only the dragged entry differs from the mouse-down layout; after release the shown layout is the one before the press, that is what is stored, and the window is untouched |
| ShellScenarios.NonPrimaryPressDragsNothing | app/page.js:106-107 | a non-main-button press, drag and release change neither the layout nor the storage |
| ShellScenarios.MaximizeThenRestore | app/page.js:188-206 | maximize followed by restore gives back the pre-maximize position and size, which stay remembered |
| ShellScenarios.MinimizeThenTaskbar | app/page.js:184-209 | minimize hides the window and keeps its taskbar entry; the taskbar click shows it with geometry and maximized flag unchanged |
| ShellScenarios.DoubleClickReplaces | app/page.js:173-177 | a second double-click leaves only the second icon's window open, geometry untouched |
| ShellScenarios.GesturesIgnoredWhileMaximized | app/page.js:133-170 | while maximized the resize handle is hidden, and dragging the title bar or the resize handle starts no gesture and changes no geometry |
| ShellScenarios.CloseDisablesWindowButtons | app/page.js:179-189 | after close there is no window or taskbar entry, and the following maximize and minimize leave position, size and remembered bounds unchanged |

## Left out

- Boot-sound unlock (app/page.js:63-95) and the audio banner: asynchronous browser audio, timers and listener registration.
- Clipboard copy in the Contact window (app/page.js:706-712): an asynchronous browser API.
- JSON serialisation of the layout: the storage slot holds the parsed layout. A stored value that parses to JSON which is not a layout is not modelled.
- Storage write failures, which the page ignores: every write is modelled as succeeding.
- `getBoundingClientRect` and the rounding of its fractional size: the container size comes in as integers.
- Floating-point arithmetic: coordinates are unbounded integers, and `Math.round(n / 20)` is modelled on exact reals.
- Listener plumbing and React's batching of state updates: each handler is one atomic step. At most one gesture of each kind is in progress; a second press before release is not modelled.
- The show-grid checkbox (app/page.js:270) and the grid overlay: presentation only.
- The Projects accordion's state lives in the Projects window component and is lost when that window unmounts; the model keeps only the toggle function, not the component lifetime.
- The accordion panel's height measurement (`scrollHeight`), JSX, CSS and the static content of the CV, About and Contact windows: presentation only.
- app/layout.js: an HTML wrapper with no logic.
