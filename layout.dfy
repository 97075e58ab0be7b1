/**
 * A two-pane split layout for a terminal UI (src/lib.rs).
 *
 * `DynamicLayout` is the per-frame query: an axis and the parent area. Its
 * `Areas` method splits the parent in two at the offset kept in a
 * `DynamicLayoutState`, resolving an unset offset to the parent's midpoint.
 * The state's `HandleMouseEvent` moves the divider: a left click on the
 * split line starts a drag, a left drag moves the offset (clamped to the
 * last area seen), releasing the button ends the drag.
 *
 * A vertical layout splits along rows (top and bottom panes), a horizontal
 * one along columns (left and right panes). The functions `Origin`, `Extent`,
 * `CrossOrigin`, `CrossExtent` and `Coord` read a rectangle or an event along,
 * or across, the split axis, so that the specification is written once for
 * both axes.
 */
module TuiDynamicLayout {
  import opened Wrappers
  import opened Terminal

  // ---------------------------------------------------------------- axis views

  /** The area's starting coordinate along the split axis. */
  function Origin(r: Rect, vertical: bool): u16 { if vertical then r.y else r.x }

  /** The area's extent along the split axis. */
  function Extent(r: Rect, vertical: bool): u16 { if vertical then r.height else r.width }

  /** The area's starting coordinate across the split axis. */
  function CrossOrigin(r: Rect, vertical: bool): u16 { if vertical then r.x else r.y }

  /** The area's extent across the split axis. */
  function CrossExtent(r: Rect, vertical: bool): u16 { if vertical then r.width else r.height }

  /** The pointer's coordinate along the split axis. */
  function Coord(e: MouseEvent, vertical: bool): u16 { if vertical then e.row else e.column }

  function Clamp(v: int, lo: int, hi: int): int
    requires lo <= hi
  {
    if v < lo then lo else if v > hi then hi else v
  }

  // ------------------------------------------------------------- the offset

  /**
   * The offset the layout uses: the stored one, or, while none is stored,
   * the midpoint of `area` along the axis (floor division).
   */
  function ResolveOffset(offset: Option<u16>, vertical: bool, area: Rect): (o: u16)
    ensures offset.Some? ==> o == offset.value
    ensures offset.None? ==> 2 * o <= Extent(area, vertical) <= 2 * o + 1
  {
    match offset
    case Some(o) => o
    case None => if vertical then area.height / 2 else area.width / 2
  }

  // ---------------------------------------------------------------- geometry

  /**
   * The u16 arithmetic of the split cannot panic: the first pane's extent
   * `origin + offset - 1` neither overflows nor underflows, and the second
   * pane's extent `extent - offset` does not underflow.
   */
  predicate SplitDefined(parent: Rect, vertical: bool, offset: u16) {
    1 <= Origin(parent, vertical) + offset <= U16_MAX && offset <= Extent(parent, vertical)
  }

  /**
   * The two panes for a divider at `offset`. Both keep the parent's
   * cross-axis position and extent. The first starts where the parent
   * starts, and its extent is set to the parent's origin plus the offset,
   * less one. The second starts on the split line, `offset` cells past the
   * parent's origin, and ends where the parent ends.
   */
  function Split(parent: Rect, vertical: bool, offset: u16): (panes: (Rect, Rect))
    requires SplitDefined(parent, vertical, offset)
    ensures CrossOrigin(panes.0, vertical) == CrossOrigin(parent, vertical) == CrossOrigin(panes.1, vertical)
    ensures CrossExtent(panes.0, vertical) == CrossExtent(parent, vertical) == CrossExtent(panes.1, vertical)
    ensures Origin(panes.0, vertical) == Origin(parent, vertical)
    ensures Extent(panes.0, vertical) == Origin(parent, vertical) + offset - 1
    ensures Origin(panes.1, vertical) == Origin(parent, vertical) + offset
    ensures Origin(panes.1, vertical) + Extent(panes.1, vertical) == Origin(parent, vertical) + Extent(parent, vertical)
  {
    if vertical then
      (parent.(height := Sub(Add(parent.y, offset), 1)),
       parent.(y := Add(parent.y, offset), height := Sub(parent.height, offset)))
    else
      (parent.(width := Sub(Add(parent.x, offset), 1)),
       parent.(x := Add(parent.x, offset), width := Sub(parent.width, offset)))
  }

  // ------------------------------------------------------ the state's value

  /** The value held by a `DynamicLayoutState`. */
  datatype State = State(vertical: bool, lastArea: Rect, offset: Option<u16>, dragging: bool)

  /** The offset `s` uses: the stored one or the midpoint of its last area. */
  function Resolved(s: State): u16 {
    ResolveOffset(s.offset, s.vertical, s.lastArea)
  }

  // ------------------------------------------------------------ hit testing

  /**
   * `mouse_in_rect` cannot panic on `e`: it adds `y + height` only once the
   * row is at or below `y`, and `x + width` only once the row test passed
   * and the column is at or right of `x`.
   */
  predicate MouseInRectDefined(area: Rect, e: MouseEvent) {
    e.row < area.y ||
    (area.y + area.height <= U16_MAX &&
     (e.row > area.y + area.height || e.column < area.x || area.x + area.width <= U16_MAX))
  }

  /** Whether the pointer is in `area`, counting the cells one past its bottom and right edges. */
  function MouseInRect(area: Rect, event: MouseEvent): (inside: bool)
    requires MouseInRectDefined(area, event)
    ensures inside <==> area.y <= event.row <= area.y + area.height && area.x <= event.column <= area.x + area.width
  {
    if event.row < area.y then false
    else if event.row > Add(area.y, area.height) then false
    else if event.column < area.x then false
    else if event.column > Add(area.x, area.width) then false
    else true
  }

  /** Whether the pointer is on the split line of `area` for a divider at `offset`. */
  predicate OnSplit(area: Rect, vertical: bool, offset: u16, e: MouseEvent) {
    Coord(e, vertical) == Origin(area, vertical) + offset
  }

  // ---------------------------------------------------------------- dragging

  /** The drag computation cannot panic: `origin + extent` is only added once the pointer is past the origin. */
  predicate DragOffsetDefined(area: Rect, vertical: bool, coord: u16) {
    coord <= Origin(area, vertical) || Origin(area, vertical) + Extent(area, vertical) <= U16_MAX
  }

  /**
   * The offset a drag to `coord` gives: the pointer's distance from the
   * area's origin, clamped to the area.
   */
  function DragOffset(area: Rect, vertical: bool, coord: u16): (o: u16)
    requires DragOffsetDefined(area, vertical, coord)
    ensures o <= Extent(area, vertical)
    ensures o == Clamp(coord - Origin(area, vertical), 0, Extent(area, vertical))
  {
    if coord <= Origin(area, vertical) then 0
    else if coord > Add(Origin(area, vertical), Extent(area, vertical)) then Extent(area, vertical)
    else Sub(coord, Origin(area, vertical))
  }

  // ----------------------------------------------------------- transitions

  /** Handling `e` in state `s` cannot panic. */
  predicate StepDefined(s: State, e: MouseEvent) {
    match (s.dragging, e.kind)
    case (false, Down(Left)) =>
      MouseInRectDefined(s.lastArea, e) &&
      (MouseInRect(s.lastArea, e) ==> Origin(s.lastArea, s.vertical) + Resolved(s) <= U16_MAX)
    case (true, Drag(Left)) => DragOffsetDefined(s.lastArea, s.vertical, Coord(e, s.vertical))
    case _ => true
  }

  /**
   * The state after `handle_mouse_event(e)`: the offset is resolved first;
   * then a left release ends a drag, a left press on the split line inside
   * the last area starts one, a left drag moves the offset, and every other
   * event changes nothing more. The axis and the last area never change.
   */
  function Next(s: State, e: MouseEvent): (r: State)
    requires StepDefined(s, e)
    ensures r.vertical == s.vertical && r.lastArea == s.lastArea
    ensures r.offset.Some?
  {
    var o := Resolved(s);
    var t := s.(offset := Some(o));
    match (s.dragging, e.kind)
    case (true, Up(Left)) => t.(dragging := false)
    case (false, Down(Left)) =>
      if MouseInRect(s.lastArea, e) && OnSplit(s.lastArea, s.vertical, o, e) then t.(dragging := true) else t
    case (true, Drag(Left)) => t.(offset := Some(DragOffset(s.lastArea, s.vertical, Coord(e, s.vertical))))
    case _ => t
  }

  // ------------------------------------------------------------- the layout

  /** The per-frame query: which axis to split along and the area to split. */
  datatype DynamicLayout = DynamicLayout(vertical: bool, parent: Rect) {

    /** `DynamicLayout::vertical`: split `parent` into a top and a bottom pane. */
    static function Vertical(parent: Rect): (l: DynamicLayout)
      ensures l.vertical && l.parent == parent
    {
      DynamicLayout(true, parent)
    }

    /** `DynamicLayout::horizontal`: split `parent` into a left and a right pane. */
    static function Horizontal(parent: Rect): (l: DynamicLayout)
      ensures !l.vertical && l.parent == parent
    {
      DynamicLayout(false, parent)
    }

    /** The derived `Default`: a horizontal split of the empty area at the origin. */
    static function Default(): (l: DynamicLayout)
      ensures !l.vertical && l.parent == DefaultRect
    {
      DynamicLayout(false, DefaultRect)
    }

    /** `areas` cannot panic when the state's offset is `offset`. */
    predicate AreasDefined(offset: Option<u16>) {
      SplitDefined(parent, vertical, ResolveOffset(offset, vertical, parent))
    }

    /** The panes `areas` returns when the state's offset is `offset`. */
    function Panes(offset: Option<u16>): (Rect, Rect)
      requires AreasDefined(offset)
    {
      Split(parent, vertical, ResolveOffset(offset, vertical, parent))
    }

    /**
     * The state after `areas`: it records this layout's axis and parent,
     * keeps a stored offset, stores the parent's midpoint when there was
     * none, and leaves the drag flag alone.
     */
    function AreasState(s: State): (r: State)
      ensures r.vertical == vertical && r.lastArea == parent && r.dragging == s.dragging
      ensures r.offset.Some?
      ensures s.offset.Some? ==> r.offset == s.offset
      ensures s.offset.None? ==> 2 * r.offset.value <= Extent(parent, vertical) <= 2 * r.offset.value + 1
    {
      State(vertical, parent, Some(ResolveOffset(s.offset, vertical, parent)), s.dragging)
    }

    /** `DynamicLayout::areas`: record the query in `state` and return the two panes. */
    method Areas(state: DynamicLayoutState) returns (first: Rect, second: Rect)
      requires AreasDefined(state.offset)
      modifies state
      ensures state.Snapshot() == AreasState(old(state.Snapshot()))
      ensures (first, second) == Panes(old(state.offset))
    {
      state.vertical := vertical;
      state.lastArea := parent;
      var offset := match state.offset
        case Some(o) => o
        case None => if vertical then parent.height / 2 else parent.width / 2;
      state.offset := Some(offset);

      if vertical {
        first := parent;
        first := first.(height := Sub(Add(first.y, offset), 1));
        second := parent;
        second := second.(y := Add(second.y, offset));
        second := second.(height := Sub(second.height, offset));
      } else {
        first := parent;
        first := first.(width := Sub(Add(first.x, offset), 1));
        second := parent;
        second := second.(x := Add(second.x, offset));
        second := second.(width := Sub(second.width, offset));
      }
    }
  }

  // -------------------------------------------------------------- the state

  /** The state a split widget keeps across frames and mouse events. */
  class DynamicLayoutState {
    var vertical: bool
    var lastArea: Rect
    var offset: Option<u16>
    var dragging: bool

    /** `DynamicLayoutState::new()`: vertical, no offset yet, not dragging. */
    constructor New()
      ensures Snapshot() == State(true, DefaultRect, None, false)
    {
      vertical := true;
      lastArea := DefaultRect;
      offset := None;
      dragging := false;
    }

    /** The derived `Default`: as `New`, but horizontal. */
    constructor Default()
      ensures Snapshot() == State(false, DefaultRect, None, false)
    {
      vertical := false;
      lastArea := DefaultRect;
      offset := None;
      dragging := false;
    }

    /** The value of this state. */
    function Snapshot(): State
      reads this
    {
      State(vertical, lastArea, offset, dragging)
    }

    /** `DynamicLayoutState::handle_mouse_event`. */
    method HandleMouseEvent(event: MouseEvent)
      requires StepDefined(Snapshot(), event)
      modifies this
      ensures Snapshot() == Next(old(Snapshot()), event)
    {
      var offset := match this.offset
        case Some(o) => o
        case None => if vertical then lastArea.height / 2 else lastArea.width / 2;
      this.offset := Some(offset);

      match (dragging, event.kind) {
        case (true, Up(Left)) =>
          dragging := false;
        case (false, Down(Left)) =>
          if !MouseInRect(lastArea, event) {
            return;
          }
          // Is the click on the split line?
          var clickedSplit := if vertical then event.row == Add(lastArea.y, offset)
                              else event.column == Add(lastArea.x, offset);
          if clickedSplit {
            dragging := true;
          }
        case (true, Drag(Left)) =>
          var splitOffset: u16;
          if vertical {
            if event.row <= lastArea.y {
              splitOffset := 0;
            } else if event.row > Add(lastArea.y, lastArea.height) {
              splitOffset := lastArea.height;
            } else {
              splitOffset := Sub(event.row, lastArea.y);
            }
          } else {
            if event.column <= lastArea.x {
              splitOffset := 0;
            } else if event.column > Add(lastArea.x, lastArea.width) {
              splitOffset := lastArea.width;
            } else {
              splitOffset := Sub(event.column, lastArea.x);
            }
          }
          this.offset := Some(splitOffset);
        case _ =>
      }
    }
  }
}
