/**
 * Properties of the split layout: idempotence of `areas`, the transition
 * table of `handle_mouse_event`, the invariant that a drag keeps the offset
 * inside the last area over any sequence of events, and how the geometry of
 * the two panes relates to the parent's origin.
 */
module LayoutProperties {
  import opened Wrappers
  import opened Terminal
  import opened TuiDynamicLayout

  // ------------------------------------------------------------- areas

  /**
   * Querying the same layout a second time on the state the first query left
   * behind returns the same panes and leaves that state as it is.
   */
  lemma AreasIdempotent(l: DynamicLayout, s: State)
    requires l.AreasDefined(s.offset)
    ensures l.AreasDefined(l.AreasState(s).offset)
    ensures l.AreasState(l.AreasState(s)) == l.AreasState(s)
    ensures l.Panes(l.AreasState(s).offset) == l.Panes(s.offset)
  {
  }

  /**
   * The first pane ends exactly one cell before the second pane starts (one
   * divider cell between them) exactly when the parent starts at coordinate 0.
   */
  lemma PanesLeaveOneCellIff(parent: Rect, vertical: bool, offset: u16)
    requires SplitDefined(parent, vertical, offset)
    ensures var (first, second) := Split(parent, vertical, offset);
      Origin(first, vertical) + Extent(first, vertical) + 1 == Origin(second, vertical)
      <==> Origin(parent, vertical) == 0
  {
  }

  /**
   * Because the first pane's extent is computed from the parent's origin
   * plus the offset, the first pane runs into the second exactly when the
   * parent starts at coordinate 2 or beyond.
   */
  lemma PanesOverlapIff(parent: Rect, vertical: bool, offset: u16)
    requires SplitDefined(parent, vertical, offset)
    ensures var (first, second) := Split(parent, vertical, offset);
      Origin(first, vertical) + Extent(first, vertical) > Origin(second, vertical)
      <==> Origin(parent, vertical) >= 2
  {
  }

  // ------------------------------------------------ mouse events, one at a time

  /** A left release always leaves the drag mode, wherever the pointer is, and moves nothing. */
  lemma UpEndsDrag(s: State, e: MouseEvent)
    requires e.kind == Up(Left)
    ensures StepDefined(s, e)
    ensures Next(s, e) == s.(dragging := false, offset := Some(Resolved(s)))
  {
  }

  /**
   * Outside a drag, a left press starts one exactly when it is inside the
   * last area (bounds inclusive) and on the split line; the offset stays.
   */
  lemma DownStartsDragIff(s: State, e: MouseEvent)
    requires !s.dragging && e.kind == Down(Left)
    requires StepDefined(s, e)
    ensures Next(s, e).offset == Some(Resolved(s))
    ensures Next(s, e).dragging <==>
      s.lastArea.y <= e.row <= s.lastArea.y + s.lastArea.height &&
      s.lastArea.x <= e.column <= s.lastArea.x + s.lastArea.width &&
      Coord(e, s.vertical) == Origin(s.lastArea, s.vertical) + Resolved(s)
  {
  }

  /**
   * During a drag, a left drag keeps dragging and moves the offset to the
   * pointer: 0 at or before the area's near edge, the area's extent past its
   * far edge, the pointer's distance from the origin in between.
   */
  lemma DragMovesOffset(s: State, e: MouseEvent)
    requires s.dragging && e.kind == Drag(Left)
    requires StepDefined(s, e)
    ensures Next(s, e).dragging
    ensures var origin, extent, c := Origin(s.lastArea, s.vertical), Extent(s.lastArea, s.vertical), Coord(e, s.vertical);
      var o := Next(s, e).offset.value;
      o <= extent &&
      (c <= origin ==> o == 0) &&
      (c > origin + extent ==> o == extent) &&
      (origin < c <= origin + extent ==> origin + o == c)
  {
  }

  /** Every other pairing of drag mode and event only resolves the offset. */
  lemma OtherEventsOnlyResolve(s: State, e: MouseEvent)
    requires !(s.dragging && e.kind == Up(Left))
    requires !(!s.dragging && e.kind == Down(Left))
    requires !(s.dragging && e.kind == Drag(Left))
    ensures StepDefined(s, e)
    ensures Next(s, e) == s.(offset := Some(Resolved(s)))
  {
  }

  /**
   * After `areas`, a left press on the second pane's first row (vertical) or
   * column (horizontal), within the parent's cross extent, grabs the divider.
   */
  lemma PressOnSecondPaneGrabs(l: DynamicLayout, s: State, e: MouseEvent)
    requires l.AreasDefined(s.offset)
    requires !s.dragging && e.kind == Down(Left)
    requires Coord(e, l.vertical) == Origin(l.Panes(s.offset).1, l.vertical)
    requires var cross := if l.vertical then e.column else e.row;
      CrossOrigin(l.parent, l.vertical) <= cross <= CrossOrigin(l.parent, l.vertical) + CrossExtent(l.parent, l.vertical)
    requires StepDefined(l.AreasState(s), e)
    ensures Next(l.AreasState(s), e).dragging
  {
  }

  // ------------------------------------------------ mouse events in sequence

  /** The offset, once stored, lies inside the last area along the axis. */
  predicate OffsetWithinArea(s: State) {
    s.offset.Some? ==> s.offset.value <= Extent(s.lastArea, s.vertical)
  }

  /** No event of `events`, handled in turn from `s`, panics. */
  predicate EventsDefined(s: State, events: seq<MouseEvent>)
    decreases |events|
  {
    |events| == 0 || (StepDefined(s, events[0]) && EventsDefined(Next(s, events[0]), events[1..]))
  }

  /** The state after handling `events` in turn, as the host's event loop does. */
  function HandleMouseEvents(s: State, events: seq<MouseEvent>): (r: State)
    requires EventsDefined(s, events)
    ensures r.vertical == s.vertical && r.lastArea == s.lastArea
    ensures events != [] ==> r.offset.Some?
    decreases |events|
  {
    if |events| == 0 then s else HandleMouseEvents(Next(s, events[0]), events[1..])
  }

  lemma NextKeepsOffsetWithinArea(s: State, e: MouseEvent)
    requires StepDefined(s, e) && OffsetWithinArea(s)
    ensures OffsetWithinArea(Next(s, e))
  {
  }

  /** However the divider is dragged, its offset stays inside the last area. */
  lemma {:induction false} EventsKeepOffsetWithinArea(s: State, events: seq<MouseEvent>)
    requires EventsDefined(s, events) && OffsetWithinArea(s)
    ensures OffsetWithinArea(HandleMouseEvents(s, events))
    decreases |events|
  {
    if |events| > 0 {
      NextKeepsOffsetWithinArea(s, events[0]);
      EventsKeepOffsetWithinArea(Next(s, events[0]), events[1..]);
    }
  }

  /**
   * Between two queries of the same layout, mouse events cannot make the
   * second query panic, provided the parent starts at coordinate 1 or
   * beyond and ends within the u16 range.
   */
  lemma EventsKeepAreasDefined(l: DynamicLayout, s: State, events: seq<MouseEvent>)
    requires l.AreasDefined(s.offset)
    requires 1 <= Origin(l.parent, l.vertical)
    requires Origin(l.parent, l.vertical) + Extent(l.parent, l.vertical) <= U16_MAX
    requires EventsDefined(l.AreasState(s), events)
    ensures l.AreasDefined(HandleMouseEvents(l.AreasState(s), events).offset)
  {
    EventsKeepOffsetWithinArea(l.AreasState(s), events);
  }

  /**
   * With the parent at coordinate 0 the proviso above is needed: grabbing
   * the divider and dragging it to the top edge stores offset 0, and the next
   * query would compute `0 + 0 - 1`.
   */
  lemma DragToTopEdgeBreaksAreas()
    ensures var l := DynamicLayout.Vertical(Rect(0, 0, 10, 20));
      var s := l.AreasState(State(true, DefaultRect, None, false));
      var events := [MouseEvent(Down(Left), 5, 10), MouseEvent(Drag(Left), 5, 0)];
      EventsDefined(s, events) && !l.AreasDefined(HandleMouseEvents(s, events).offset)
  {
  }

  // -------------------------------------------------------------- a client

  /** The first query splits a 20-row parent at row 10; a second query changes nothing. */
  method QueryScenario() {
    var state := new DynamicLayoutState.New();
    var layout := DynamicLayout.Vertical(Rect(0, 0, 10, 20));
    var first, second := layout.Areas(state);
    assert state.Snapshot() == State(true, Rect(0, 0, 10, 20), Some(10), false);
    assert first == Rect(0, 0, 10, 9) && second == Rect(0, 10, 10, 10);
    var first', second' := layout.Areas(state);
    assert first' == first && second' == second;
    assert state.Snapshot() == State(true, Rect(0, 0, 10, 20), Some(10), false);
  }

  /** A click beside the divider is ignored; a click on it starts a drag. */
  method ClickScenario() {
    var state := new DynamicLayoutState.New();
    var first, second := DynamicLayout.Vertical(Rect(0, 0, 10, 20)).Areas(state);
    ghost var idle := State(true, Rect(0, 0, 10, 20), Some(10), false);
    assert state.Snapshot() == idle;
    state.HandleMouseEvent(MouseEvent(Down(Left), 5, 5));
    assert state.Snapshot() == idle;
    state.HandleMouseEvent(MouseEvent(Down(Left), 5, 10));
    assert state.Snapshot() == idle.(dragging := true);
  }

  /** A drag is clamped to the area at both edges; a release anywhere ends it. */
  method DragScenario(state: DynamicLayoutState)
    requires state.Snapshot() == State(true, Rect(0, 0, 10, 20), Some(10), true)
    modifies state
  {
    ghost var grabbed := state.Snapshot();
    var below, above := MouseEvent(Drag(Left), 5, 25), MouseEvent(Drag(Left), 5, 0);
    DragMovesOffset(grabbed, below);
    state.HandleMouseEvent(below);
    assert state.Snapshot() == grabbed.(offset := Some(20));
    DragMovesOffset(state.Snapshot(), above);
    state.HandleMouseEvent(above);
    assert state.Snapshot() == grabbed.(offset := Some(0));
    var release := MouseEvent(Up(Left), 7, 3);
    UpEndsDrag(state.Snapshot(), release);
    state.HandleMouseEvent(release);
    assert state.Snapshot() == grabbed.(offset := Some(0), dragging := false);
  }

  /** The first query resolves a missing offset to the floor of the midpoint. */
  method MidpointScenario() {
    var tall := new DynamicLayoutState.New();
    var top, bottom := DynamicLayout.Vertical(Rect(0, 0, 10, 21)).Areas(tall);
    assert tall.offset == Some(10) && bottom == Rect(0, 10, 10, 11);
    var wide := new DynamicLayoutState.Default();
    var left, right := DynamicLayout.Horizontal(Rect(0, 0, 7, 5)).Areas(wide);
    assert wide.offset == Some(3) && left == Rect(0, 0, 2, 5) && right == Rect(3, 0, 4, 5);
  }
}
