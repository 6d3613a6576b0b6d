/**
 * The terminal geometry and input events the scroll engine works with: the
 * `Position`, `Size` and `Rect` values of the layout library and the mouse and
 * key events of the terminal library, as plain values.
 */
module Layout {
  import opened Any

  /** A cell position: column `x`, row `y`. */
  datatype Position = Position(x: u16, y: u16)

  const ORIGIN: Position := Position(0, 0)

  /** A width and a height in cells. */
  datatype Size = Size(width: u16, height: u16)

  const ZERO_SIZE: Size := Size(0, 0)

  /** A rectangle of cells whose top-left corner is `(x, y)`. */
  datatype Rect = Rect(x: u16, y: u16, width: u16, height: u16) {
    /** One past the last column, saturating at `u16::MAX`. */
    function Right(): u16 { SaturatingAdd(x, width, U16_MAX) }

    /** One past the last row, saturating at `u16::MAX`. */
    function Bottom(): u16 { SaturatingAdd(y, height, U16_MAX) }

    /** `Rect::as_size`. */
    function AsSize(): Size { Size(width, height) }

    /** `Rect::contains`: the position lies in the rectangle's columns and rows. */
    predicate Contains(p: Position) {
      x <= p.x < Right() && y <= p.y < Bottom()
    }

    /**
     * `Rect::inner(Margin::new(1, 1))`: the rectangle without its one-cell
     * border, or the empty rectangle at the origin when there is no room for one.
     */
    function Inner(): (r: Rect)
      ensures width >= 2 && height >= 2 ==> r.width == width - 2 && r.height == height - 2
      ensures width >= 2 && height >= 2 ==> r.x == Min(x + 1, U16_MAX) && r.y == Min(y + 1, U16_MAX)
      ensures width < 2 || height < 2 ==> r == ZERO_RECT
    {
      if width < 2 || height < 2 then ZERO_RECT
      else Rect(SaturatingAdd(x, 1, U16_MAX), SaturatingAdd(y, 1, U16_MAX), width - 2, height - 2)
    }
  }

  const ZERO_RECT: Rect := Rect(0, 0, 0, 0)

  /** A rectangle with no columns or no rows contains no position. */
  lemma EmptyRectContainsNothing(r: Rect, p: Position)
    requires r.width == 0 || r.height == 0
    ensures !r.Contains(p)
  {
  }

  /** Every position inside the bordered rectangle's interior lies in the rectangle itself. */
  lemma InnerWithinRect(r: Rect, p: Position)
    requires r.Inner().Contains(p)
    ensures r.Contains(p)
  {
  }

  /** The state of the modifier keys, one flag per key. */
  datatype Modifier = Shift | Control | Alt | Super | Hyper | Meta

  type KeyModifiers = set<Modifier>

  const NONE: KeyModifiers := {}
  const CONTROL: KeyModifiers := {Control}
  const ALT: KeyModifiers := {Alt}

  /** `KeyModifiers::intersects`: the two sets share a modifier. */
  predicate Intersects(a: KeyModifiers, b: KeyModifiers) {
    exists m :: m in a && m in b
  }

  datatype MouseEventKind =
    | Down | Up | Drag | Moved
    | ScrollDown | ScrollUp | ScrollLeft | ScrollRight

  datatype MouseEvent = MouseEvent(kind: MouseEventKind, column: u16, row: u16, modifiers: KeyModifiers)

  /** Key codes; the ones the program tells apart, and every other key as `Other`. */
  datatype KeyCode = Char(c: char) | Enter | Tab | KeyUp | KeyDown | Backspace | Other(code: nat)

  datatype KeyEvent = KeyEvent(code: KeyCode, modifiers: KeyModifiers)

  /** A terminal event. */
  datatype Event =
    | Key(key: KeyEvent)
    | Mouse(mouse: MouseEvent)
    | Resize(columns: u16, rows: u16)
    | FocusGained
    | FocusLost
    | Paste(text: string)
}
