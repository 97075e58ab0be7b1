/**
 * The terminal library types the layout consumes: unsigned 16-bit grid
 * coordinates, rectangles and mouse events. Only the parts the layout reads
 * are modelled.
 */
module Terminal {

  const U16_MAX: int := 0xFFFF

  /** Rust's `u16`. Arithmetic on it goes through `Add` and `Sub`. */
  type u16 = x: int | 0 <= x <= U16_MAX

  /** `a + b` on `u16` in a debug build: it panics on overflow, so the caller must rule that out. */
  function Add(a: u16, b: u16): u16
    requires a + b <= U16_MAX
  {
    a + b
  }

  /** `a - b` on `u16` in a debug build: it panics on underflow, so the caller must rule that out. */
  function Sub(a: u16, b: u16): u16
    requires b <= a
  {
    a - b
  }

  /** An axis-aligned area of the terminal grid: top-left corner and extent. */
  datatype Rect = Rect(x: u16, y: u16, width: u16, height: u16)

  /** `Rect::default()`: the empty area at the origin. */
  const DefaultRect: Rect := Rect(0, 0, 0, 0)

  datatype MouseButton = Left | Right | Middle

  /** The kinds of mouse event; moves and scrolls, which the layout ignores, are folded into `Other`. */
  datatype MouseEventKind = Down(button: MouseButton) | Up(button: MouseButton) | Drag(button: MouseButton) | Other

  /** A mouse event at a grid cell (keyboard modifiers are not modelled). */
  datatype MouseEvent = MouseEvent(kind: MouseEventKind, column: u16, row: u16)
}
