# tui-dynamic-layout in Dafny

A model of `src/lib.rs` of tui-dynamic-layout, a two-pane split layout for
terminal user interfaces whose divider the user drags with the mouse, with
proofs about it.

- `DynamicLayout` (a datatype: it is a per-frame value) holds the axis
  (`vertical`) and the parent area. Its method `Areas` writes the axis and
  the parent into a `DynamicLayoutState`. When the state has no offset yet,
  `Areas` stores the parent's midpoint along the axis. It then returns the
  two panes on either side of the divider.
- `DynamicLayoutState` (a class: the source mutates it in place) holds the
  axis, the last area seen, the optional offset and the drag flag. Its
  method `HandleMouseEvent` resolves a missing offset first. A left release
  then ends a drag. A left press on the split line inside the last area
  starts a drag. A left drag moves the offset, clamped to the last area.
- `MouseInRect` is the hit test. Its upper bounds are inclusive.

Every method is specified by a pure function of the old state. `Areas` is
specified by `AreasState` and `Panes`/`Split`. `HandleMouseEvent` is
specified by `Next`. The lemmas in `LayoutProperties` are stated about those
functions. The functions `Origin`, `Extent`, `CrossOrigin`, `CrossExtent` and
`Coord` read rectangles and events along or across the split axis. This lets
one contract cover both axes.

Coordinates are Rust `u16` values (`Terminal.u16`). Every `+` and `-` of the
source goes through `Add` or `Sub`, and each of those requires that the
result stays in range. A debug-build panic on overflow or underflow is
therefore outside every contract. The `requires` predicates
(`SplitDefined`, `MouseInRectDefined`, `DragOffsetDefined`, `StepDefined`)
state exactly when the source's arithmetic stays in range. They follow
Rust's short-circuit evaluation order.

Two consequences of the source's arithmetic are proved rather than changed:

- The first pane's extent is the parent's origin plus the offset, less one.
  The panes are separated by exactly one cell only when the parent starts at
  coordinate 0 (`PanesLeaveOneCellIff`). They overlap when it starts at 2 or
  beyond (`PanesOverlapIff`).
- Dragging the divider to the top or left edge of an area at coordinate 0
  stores offset 0. The next `areas` call then computes `0 + 0 - 1`
  (`DragToTopEdgeBreaksAreas`). When the parent starts at 1 or beyond, no
  sequence of mouse events can make the next query panic
  (`EventsKeepAreasDefined`).

The methods `QueryScenario`, `ClickScenario`, `DragScenario` and
`MidpointScenario` in `LayoutProperties` are clients. They show what a caller can conclude from the contracts alone
for concrete inputs.

Files: `wrappers.dfy` (Option), `terminal.dfy` (the `u16`, `Rect` and
`MouseEvent` types of the terminal library), `layout.dfy` (src/lib.rs),
`properties.dfy` (lemmas and clients).

## Model

| member | source | states |
|---|---|---|
| TuiDynamicLayout.DynamicLayout.Vertical | src/lib.rs:21-26 | the layout splits `parent` along rows |
| TuiDynamicLayout.DynamicLayout.Horizontal | src/lib.rs:28-33 | the layout splits `parent` along columns |
| TuiDynamicLayout.DynamicLayout.Default | src/lib.rs:4-9 | the derived default is horizontal over the empty area at the origin |
| TuiDynamicLayout.ResolveOffset | src/lib.rs:38-48 | a stored offset is kept; a missing one becomes the floor of half the area's extent along the axis (`2*o <= extent <= 2*o+1`) |
| TuiDynamicLayout.DynamicLayout.AreasState | src/lib.rs:36-49 | after `areas` the state holds the layout's axis and parent and some offset: the old one if set, else the parent's midpoint; the drag flag is untouched |
| TuiDynamicLayout.Split | src/lib.rs:51-69 | both panes keep the parent's cross-axis origin and extent; the first starts at the parent's origin with extent `origin + offset - 1`; the second starts at `origin + offset` and ends where the parent ends |
| TuiDynamicLayout.DynamicLayout.Areas | src/lib.rs:35-72 | the new state is `AreasState` of the old one and the returned pair is `Split` of the parent at the resolved offset, under the no-panic precondition |
| LayoutProperties.AreasIdempotent | src/lib.rs:35-72 | a second `areas` with the same layout on the resulting state is defined, returns the same panes and leaves the state unchanged |
| LayoutProperties.PanesLeaveOneCellIff | src/lib.rs:51-69 | the first pane ends one cell before the second starts iff the parent's origin is 0 |
| LayoutProperties.PanesOverlapIff | src/lib.rs:51-69 | the first pane extends past the second pane's start iff the parent's origin is at least 2 |
| TuiDynamicLayout.DynamicLayoutState.New | src/lib.rs:76-83 | a new state is vertical, over the empty area, with no offset and not dragging |
| TuiDynamicLayout.DynamicLayoutState.Default | src/lib.rs:11-18 | the derived default state is the same but horizontal |
| TuiDynamicLayout.MouseInRect | src/lib.rs:157-171 | true iff `y <= row <= y + height` and `x <= column <= x + width`, both upper bounds inclusive |
| TuiDynamicLayout.DragOffset | src/lib.rs:121-147 | the dragged offset lies in `[0, extent]` and equals the pointer's distance from the area's origin clamped to that range |
| TuiDynamicLayout.Next | src/lib.rs:85-154 | handling an event never changes the axis or the last area and always leaves an offset stored |
| TuiDynamicLayout.DynamicLayoutState.HandleMouseEvent | src/lib.rs:85-154 | the new state is `Next` of the old state and the event, under the no-panic precondition |
| LayoutProperties.UpEndsDrag | src/lib.rs:100-102 | a left release always leaves the state not dragging, with the resolved offset and nothing else changed |
| LayoutProperties.DownStartsDragIff | src/lib.rs:103-119 | outside a drag, a left press starts one iff the pointer is in the last area (inclusive) and on the split line `origin + offset`; the offset stays |
| LayoutProperties.DragMovesOffset | src/lib.rs:120-149 | during a drag, a left drag keeps dragging and sets the offset to 0 at or before the near edge, to the extent past the far edge, else to the pointer's distance from the origin |
| LayoutProperties.OtherEventsOnlyResolve | src/lib.rs:150-153 | every other pairing of drag flag and event only resolves the offset |
| LayoutProperties.PressOnSecondPaneGrabs | src/lib.rs:103-119 | after `areas`, a left press on the second pane's first row or column, within the parent's cross extent, starts a drag |
| LayoutProperties.HandleMouseEvents | src/lib.rs:85-97 | handling a sequence of events never changes the axis or the last area, and a non-empty sequence leaves an offset stored |
| LayoutProperties.NextKeepsOffsetWithinArea | src/lib.rs:120-148 | one event keeps a stored offset within the last area's extent |
| LayoutProperties.EventsKeepOffsetWithinArea | src/lib.rs:120-148 | any sequence of events keeps a stored offset within the last area's extent |
| LayoutProperties.EventsKeepAreasDefined | src/lib.rs:51-57 | after `areas` and any events, the next `areas` on the same layout cannot panic if the parent starts at 1 or beyond and ends within the u16 range |
| LayoutProperties.DragToTopEdgeBreaksAreas | src/lib.rs:120-125 | for a parent at row 0, grabbing the divider and dragging it to row 0 makes the next `areas` underflow |

## Left out

- The ratatui and crossterm types are remodelled, not imported. `Rect` keeps only `x`, `y`, `width` and `height`. `MouseEvent` keeps only `kind`, `column` and `row`; keyboard modifiers are dropped. Moves and scrolls fold into `MouseEventKind.Other`.
- Release-mode wrap-around on `u16` overflow and underflow is not modelled. Overflow and underflow are excluded by preconditions, so what the source does then (a panic in debug builds) lies outside every contract.
- The `Debug` and `#[non_exhaustive]` annotations are left out; they have no behavioural content.
- Rendering, terminal setup and the event loop are left out; the library has none. `HandleMouseEvents` stands in for a host feeding events one after another.
