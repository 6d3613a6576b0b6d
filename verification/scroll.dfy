/**
 * `ScrollView` (`src/scroll.rs`): an append-only text buffer shown through a
 * page-sized window that clamped, saturating scroll operations move.
 */
module Scroll {
  import opened Any
  import opened Layout

  const CRLF: seq<byte> := [0x0D, 0x0A]
  const LARGE_SCROLL_COUNT: u16 := 5
  const NORMAL_SCROLL_COUNT: u16 := 1

  // ---------------------------------------------------------------------------
  // Scrolling arithmetic, shared by every scroll method

  datatype Direction = ToTop | ToBottom | ToLeft | ToRight {
    predicate IsVertical() { this == ToTop || this == ToBottom }
  }

  /** The scroll direction of a mouse event kind; the other kinds do not scroll. */
  function DirectionOf(kind: MouseEventKind): Option<Direction> {
    match kind
    case ScrollUp => Some(ToTop)
    case ScrollDown => Some(ToBottom)
    case ScrollLeft => Some(ToLeft)
    case ScrollRight => Some(ToRight)
    case _ => None
  }

  /** The extent of `size` along the axis `direction` moves on. */
  function Extent(size: Size, direction: Direction): u16 {
    if direction.IsVertical() then size.height else size.width
  }

  /** The offset coordinate `direction` moves. */
  function Coordinate(p: Position, direction: Direction): u16 {
    if direction.IsVertical() then p.y else p.x
  }

  /**
   * The offset after scrolling `count` cells in `direction` when the largest
   * offsets are `maxOffset`: `saturating_add_in_place_with_max` towards the
   * bottom or the right, `saturating_sub_in_place_with_max` towards the top or
   * the left, on that axis only.
   */
  function Scrolled(offset: Position, direction: Direction, count: u16, maxOffset: Position): (r: Position)
    ensures direction.IsVertical() ==> r.x == offset.x
    ensures !direction.IsVertical() ==> r.y == offset.y
    ensures Coordinate(r, direction) <= Coordinate(maxOffset, direction)
  {
    match direction
    case ToTop => offset.(y := SaturatingSubInPlaceWithMax(offset.y, count, maxOffset.y))
    case ToBottom => offset.(y := SaturatingAddInPlaceWithMax(offset.y, count, maxOffset.y, U16_MAX))
    case ToLeft => offset.(x := SaturatingSubInPlaceWithMax(offset.x, count, maxOffset.x))
    case ToRight => offset.(x := SaturatingAddInPlaceWithMax(offset.x, count, maxOffset.x, U16_MAX))
  }

  /**
   * Scrolling down or right gives `min(old + count, max)`; scrolling up or left
   * gives `min(old - count floored at 0, max)`, which also pulls an offset set
   * beyond the maximum back to it.
   */
  lemma ScrolledByCount(offset: Position, direction: Direction, count: u16, maxOffset: Position)
    ensures var before, after := Coordinate(offset, direction), Coordinate(Scrolled(offset, direction, count, maxOffset), direction);
      && (direction in {ToBottom, ToRight} ==> after == Min(before + count, Coordinate(maxOffset, direction)))
      && (direction in {ToTop, ToLeft} ==> after == Min(Max(before - count, 0), Coordinate(maxOffset, direction)))
      && (direction in {ToTop, ToLeft} && before <= Coordinate(maxOffset, direction) ==> after == Max(before - count, 0))
  {
  }

  /** When the content fits in the page (largest offset 0), every scroll leaves that axis at 0. */
  lemma ScrolledFitsAtZero(offset: Position, direction: Direction, count: u16, maxOffset: Position)
    requires Coordinate(maxOffset, direction) == 0
    ensures Coordinate(Scrolled(offset, direction, count, maxOffset), direction) == 0
  {
  }

  /** Scrolling down (right) and then up (left) by the same count returns to the start unless the first step was clamped. */
  lemma ScrollForwardThenBack(offset: Position, direction: Direction, count: u16, maxOffset: Position)
    requires direction in {ToBottom, ToRight}
    requires Coordinate(offset, direction) + count <= Coordinate(maxOffset, direction)
    ensures Scrolled(Scrolled(offset, direction, count, maxOffset), if direction == ToBottom then ToTop else ToLeft, count, maxOffset) == offset
  {
  }

  /** Scrolling up (left) and then down (right) by the same count returns to the start unless the first step was clamped. */
  lemma ScrollBackThenForward(offset: Position, direction: Direction, count: u16, maxOffset: Position)
    requires direction in {ToTop, ToLeft}
    requires count <= Coordinate(offset, direction) <= Coordinate(maxOffset, direction)
    ensures Scrolled(Scrolled(offset, direction, count, maxOffset), if direction == ToTop then ToBottom else ToRight, count, maxOffset) == offset
  {
  }

  /** One scroll: a direction and a number of cells. */
  datatype Step = Step(direction: Direction, count: u16)

  /** The offset after each step in turn, with the largest offsets fixed. */
  function ScrolledAll(offset: Position, steps: seq<Step>, maxOffset: Position): Position
    decreases |steps|
  {
    if |steps| == 0 then offset
    else ScrolledAll(Scrolled(offset, steps[0].direction, steps[0].count, maxOffset), steps[1..], maxOffset)
  }

  /** From an offset within the largest offsets, any sequence of scrolls stays within them on both axes. */
  lemma {:induction false} ScrollsStayClamped(offset: Position, steps: seq<Step>, maxOffset: Position)
    requires offset.x <= maxOffset.x && offset.y <= maxOffset.y
    ensures var r := ScrolledAll(offset, steps, maxOffset);
      r.x <= maxOffset.x && r.y <= maxOffset.y
    decreases |steps|
  {
    if |steps| > 0 {
      ScrollsStayClamped(Scrolled(offset, steps[0].direction, steps[0].count, maxOffset), steps[1..], maxOffset);
    }
  }

  /** The largest offset on an axis: the content extent minus the page extent, floored at 0. */
  function MaxOffset(contentSize: Size, pageSize: Size): (r: Position)
    ensures r.x + pageSize.width >= contentSize.width && r.y + pageSize.height >= contentSize.height
    ensures r.x == 0 || r.x + pageSize.width == contentSize.width
    ensures r.y == 0 || r.y + pageSize.height == contentSize.height
    ensures r.x > 0 <==> pageSize.width < contentSize.width
    ensures r.y > 0 <==> pageSize.height < contentSize.height
  {
    Position(SaturatingSub(contentSize.width, pageSize.width), SaturatingSub(contentSize.height, pageSize.height))
  }

  /**
   * `scroll_count`: the page extent when the modifiers include CONTROL, else 5
   * when they include ALT, else 1. CONTROL wins over ALT.
   */
  function ScrollCount(modifiers: KeyModifiers, pageExtent: u16): (r: u16)
    ensures Control in modifiers ==> r == pageExtent
    ensures Control !in modifiers && Alt in modifiers ==> r == LARGE_SCROLL_COUNT
    ensures Control !in modifiers && Alt !in modifiers ==> r == NORMAL_SCROLL_COUNT
  {
    if Intersects(modifiers, CONTROL) then pageExtent
    else if Intersects(modifiers, ALT) then LARGE_SCROLL_COUNT
    else NORMAL_SCROLL_COUNT
  }

  // ---------------------------------------------------------------------------
  // The buffer `push_line` builds

  /** The content after pushing `lines` in order: each line followed by CRLF. */
  function Joined(lines: seq<Str>): seq<byte> {
    if |lines| == 0 then [] else Joined(lines[..|lines| - 1]) + lines[|lines| - 1].bytes + CRLF
  }

  /** The line ranges after pushing `lines` in order. */
  function LineRanges(lines: seq<Str>): (r: seq<HalfOpen>)
    ensures |r| == |lines|
  {
    if |lines| == 0 then []
    else
      var init := lines[..|lines| - 1];
      LineRanges(init) + [Range(|Joined(init)|, |lines[|lines| - 1].bytes|)]
  }

  /** The content width after pushing `lines` in order: the running maximum of their grapheme counts. */
  function Width(lines: seq<Str>): u16 {
    if |lines| == 0 then 0
    else Max(Width(lines[..|lines| - 1]), CastU16(LenGraphemes(lines[|lines| - 1])))
  }

  /** The content is the joined lines of any prefix followed by the rest. */
  lemma {:induction false} JoinedAppend(a: seq<Str>, b: seq<Str>)
    ensures Joined(a + b) == Joined(a) + Joined(b)
    decreases |b|
  {
    if |b| == 0 {
      assert a + b == a;
    } else {
      var init := b[..|b| - 1];
      assert (a + b)[..|a + b| - 1] == a + init;
      JoinedAppend(a, init);
    }
  }

  /** Line `i` starts where the content of the lines before it ends. */
  lemma {:induction false} LineRangeAt(lines: seq<Str>, i: nat)
    requires i < |lines|
    ensures LineRanges(lines)[i] == Range(|Joined(lines[..i])|, |lines[i].bytes|)
    decreases |lines|
  {
    var init := lines[..|lines| - 1];
    if i < |lines| - 1 {
      LineRangeAt(init, i);
      assert init[..i] == lines[..i];
    } else {
      assert init == lines[..i];
    }
  }

  /** Pushing one more line appends it and its CRLF. */
  lemma JoinedSnoc(lines: seq<Str>, line: Str)
    ensures Joined(lines + [line]) == Joined(lines) + line.bytes + CRLF
  {
    assert (lines + [line])[..|lines|] == lines;
  }

  /** Taking one more line extends the prefix by that line. */
  lemma TakeOneMore(lines: seq<Str>, i: nat)
    requires i < |lines|
    ensures lines[..i + 1] == lines[..i] + [lines[i]]
    ensures lines == lines[..i + 1] + lines[i + 1..]
  {
  }

  /** The content is that of the lines up to and including `i`, then that of the rest. */
  lemma JoinedAroundLine(lines: seq<Str>, i: nat)
    requires i < |lines|
    ensures Joined(lines) == Joined(lines[..i] + [lines[i]]) + Joined(lines[i + 1..])
  {
    TakeOneMore(lines, i);
    JoinedAppend(lines[..i] + [lines[i]], lines[i + 1..]);
  }

  lemma RegroupCrlf(a: seq<byte>, b: seq<byte>, r: seq<byte>)
    ensures (a + b + CRLF) + r == a + b + (CRLF + r)
  {
  }

  /** The content is the lines before `i`, then line `i` and its CRLF, then the lines after it. */
  lemma JoinedSplit(lines: seq<Str>, i: nat)
    requires i < |lines|
    ensures Joined(lines) == Joined(lines[..i]) + lines[i].bytes + (CRLF + Joined(lines[i + 1..]))
  {
    JoinedAroundLine(lines, i);
    JoinedSnoc(lines[..i], lines[i]);
    RegroupCrlf(Joined(lines[..i]), lines[i].bytes, Joined(lines[i + 1..]));
  }

  /** The middle part of a three-part sequence is found at the first part's length. */
  lemma SliceMiddle(a: seq<byte>, b: seq<byte>, c: seq<byte>)
    ensures (a + b + c)[|a|..|a| + |b|] == b
  {
    assert forall k :: 0 <= k < |b| ==> (a + b + c)[|a|..|a| + |b|][k] == b[k];
  }

  /** The recorded range of line `i` indexes exactly that line's bytes in the content. */
  lemma LineRangeRecoversLine(lines: seq<Str>, i: nat)
    requires i < |lines|
    ensures var r := LineRanges(lines)[i];
      && r.start <= r.end <= |Joined(lines)|
      && Joined(lines)[r.start..r.end] == lines[i].bytes
  {
    LineRangeAt(lines, i);
    JoinedSplit(lines, i);
    SliceMiddle(Joined(lines[..i]), lines[i].bytes, CRLF + Joined(lines[i + 1..]));
  }

  /** The next line's range begins right after line `i` and its CRLF: the ranges are increasing and disjoint. */
  lemma NextLineRangeFollows(lines: seq<Str>, i: nat)
    requires i + 1 < |lines|
    ensures LineRanges(lines)[i + 1].start == LineRanges(lines)[i].end + |CRLF|
  {
    LineRangeAt(lines, i);
    LineRangeAt(lines, i + 1);
    TakeOneMore(lines, i);
    JoinedSnoc(lines[..i], lines[i]);
  }

  /** Every pushed line's (capped) grapheme count is at most the width. */
  lemma {:induction false} WidthBoundsEveryLine(lines: seq<Str>, i: nat)
    requires i < |lines|
    ensures CastU16(LenGraphemes(lines[i])) <= Width(lines)
    decreases |lines|
  {
    if i < |lines| - 1 {
      WidthBoundsEveryLine(lines[..|lines| - 1], i);
    }
  }

  /** The width is attained: it is the (capped) grapheme count of some pushed line, or 0 with no lines. */
  lemma {:induction false} WidthIsAttained(lines: seq<Str>)
    ensures |lines| == 0 ==> Width(lines) == 0
    ensures |lines| > 0 ==> exists i :: 0 <= i < |lines| && Width(lines) == CastU16(LenGraphemes(lines[i]))
    decreases |lines|
  {
    if |lines| > 0 {
      var init := lines[..|lines| - 1];
      var last := |lines| - 1;
      if Width(lines) == CastU16(LenGraphemes(lines[last])) {
      } else {
        WidthIsAttained(init);
        var i :| 0 <= i < |init| && Width(init) == CastU16(LenGraphemes(init[i]));
        assert lines[i] == init[i];
      }
    }
  }

  // ---------------------------------------------------------------------------
  // What `render_content` draws

  /**
   * One row of `render_content`: `substring` of the line over the grapheme
   * columns `x .. x + width`, which are its clusters in that window clipped to
   * the clusters it has.
   */
  function Row(t: Str, x: u16, width: u16): (r: seq<byte>)
    ensures r == t.bytes[Boundary(t, Min(x, |t.starts|))..Boundary(t, Min(x + width, |t.starts|))]
  {
    var columns := FromHalfOpen(Range(x, width));
    assert SelectedFrom(t, columns) == Min(x, |t.starts|);
    assert SelectedTo(t, columns) == Min(x + width, |t.starts|);
    Substring(t, columns)
  }

  /**
   * Where the last visible cluster of the line is one byte, `substring` as
   * written draws the same row.
   */
  lemma RowAsWrittenAgrees(t: Str, x: u16, width: u16)
    requires Min(x, |t.starts|) < Min(x + width, |t.starts|) ==> |Cluster(t, Min(x + width, |t.starts|) - 1)| == 1
    ensures SubstringAsWritten(t, FromHalfOpen(Range(x, width))) == Ok(Row(t, x, width))
  {
    var columns := FromHalfOpen(Range(x, width));
    assert SelectedFrom(t, columns) == Min(x, |t.starts|);
    assert SelectedTo(t, columns) == Min(x + width, |t.starts|);
    AsWrittenAgreesOnSingleByteEnd(t, columns);
  }

  /**
   * Where the last visible cluster is longer than one byte, `substring` as
   * written does not draw the row: the slice fails inside a character, or it
   * loses the tail of that cluster.
   */
  lemma RowAsWrittenMisses(t: Str, x: u16, width: u16)
    requires Min(x, |t.starts|) < Min(x + width, |t.starts|)
    requires |Cluster(t, Min(x + width, |t.starts|) - 1)| > 1
    ensures var r := SubstringAsWritten(t, FromHalfOpen(Range(x, width)));
      && r != Ok(Row(t, x, width))
      && (r.Ok? ==> IsProperPrefix(r.value, Row(t, x, width)))
  {
    var columns := FromHalfOpen(Range(x, width));
    var from, to := Min(x, |t.starts|), Min(x + width, |t.starts|);
    assert SelectedFrom(t, columns) == from && SelectedTo(t, columns) == to;
    AsWrittenWindowMisses(t, from, to);
  }

  /** The line "é" (bytes C3 A9) at column 0, one column wide. */
  const LINE_E_ACUTE: Str := Graphemes([0xC3, 0xA9], [0])

  /** Drawing "é" into one column: the row is the whole character, where the slice as written fails. */
  lemma RowOfTwoByteCharacter()
    ensures Row(LINE_E_ACUTE, 0, 1) == [0xC3, 0xA9]
    ensures SubstringAsWritten(LINE_E_ACUTE, FromHalfOpen(Range(0, 1))) == Err(NotCharBoundary(1))
  {
    assert FromHalfOpen(Range(0, 1)) == ClusterRange(0, 1);
    AsWrittenFailsInsideCharacter();
  }

  /**
   * The rows `render_content` draws into `rect` when the view holds `lines` at
   * `offset`: the lines `offset.y .. offset.y + rect.height`, each cut to the
   * grapheme columns `offset.x .. offset.x + rect.width`.
   */
  function Rows(lines: seq<Str>, offset: Position, rect: Rect): (rows: seq<seq<byte>>)
    ensures |rows| == Min(rect.height, |lines| - Min(offset.y, |lines|))
  {
    var shown := Take(Skip(lines, offset.y), rect.height);
    seq(|shown|, k requires 0 <= k < |shown| => Row(shown[k], offset.x, rect.width))
  }

  /** Item `k` of the page `Take(Skip(s, first), count)` is item `first + k` of `s`. */
  lemma PageItem<T>(s: seq<T>, first: nat, count: nat, k: nat)
    requires k < |Take(Skip(s, first), count)|
    ensures first + k < |s| && Take(Skip(s, first), count)[k] == s[first + k]
  {
  }

  /** Row `k` shows line `offset.y + k`, cut to the cluster columns `offset.x .. offset.x + rect.width`. */
  lemma RowShowsLine(lines: seq<Str>, offset: Position, rect: Rect, k: nat)
    requires k < |Rows(lines, offset, rect)|
    ensures offset.y + k < |lines|
    ensures Rows(lines, offset, rect)[k] == Row(lines[offset.y + k], offset.x, rect.width)
  {
    PageItem(lines, offset.y, rect.height, k);
  }

  /** Three ASCII lines, one cluster per byte: "a", "bb" and "ccc". */
  const LINE_A: Str := Graphemes([97], [0])
  const LINE_BB: Str := Graphemes([98, 98], [0, 1])
  const LINE_CCC: Str := Graphemes([99, 99, 99], [0, 1, 2])

  /** The line "bb" cut to the columns `1 .. 3` is "b". */
  lemma RowOfTwoBytes()
    ensures Row(LINE_BB, 1, 2) == [98]
  {
    assert Boundary(LINE_BB, 1) == 1 && Boundary(LINE_BB, 2) == 2;
  }

  /** The line "ccc" cut to the columns `1 .. 3` is "cc". */
  lemma RowOfThreeBytes()
    ensures Row(LINE_CCC, 1, 2) == [99, 99]
  {
    assert Boundary(LINE_CCC, 1) == 1 && Boundary(LINE_CCC, 3) == 3;
  }

  /** The lines "bb" and "ccc" cut to the columns `0 .. 2` are "bb" and "cc". */
  lemma RowsFromFirstColumn()
    ensures Row(LINE_BB, 0, 2) == [98, 98]
    ensures Row(LINE_CCC, 0, 2) == [99, 99]
  {
    assert Boundary(LINE_BB, 0) == 0 && Boundary(LINE_BB, 2) == 2;
    assert Boundary(LINE_CCC, 0) == 0 && Boundary(LINE_CCC, 2) == 2;
  }

  /**
   * Lines "a", "bb" and "ccc" seen through a 2×2 page scrolled one row down:
   * the rows are "bb" and "cc".
   */
  lemma ScrolledOneRowExample()
    ensures Rows([LINE_A, LINE_BB, LINE_CCC], Position(0, 1), Rect(0, 0, 2, 2)) == [[98, 98], [99, 99]]
  {
    var lines := [LINE_A, LINE_BB, LINE_CCC];
    var rows := Rows(lines, Position(0, 1), Rect(0, 0, 2, 2));
    RowShowsLine(lines, Position(0, 1), Rect(0, 0, 2, 2), 0);
    RowShowsLine(lines, Position(0, 1), Rect(0, 0, 2, 2), 1);
    RowsFromFirstColumn();
    TwoItems(rows, [98, 98], [99, 99]);
  }

  /**
   * Lines "a", "bb" and "ccc" seen through a 2×2 page scrolled one row down and
   * one column right: the rows are "b" and "cc".
   */
  lemma ScrolledPageExample()
    ensures Rows([LINE_A, LINE_BB, LINE_CCC], Position(1, 1), Rect(0, 0, 2, 2)) == [[98], [99, 99]]
  {
    var lines := [LINE_A, LINE_BB, LINE_CCC];
    var rows := Rows(lines, Position(1, 1), Rect(0, 0, 2, 2));
    RowShowsLine(lines, Position(1, 1), Rect(0, 0, 2, 2), 0);
    RowShowsLine(lines, Position(1, 1), Rect(0, 0, 2, 2), 1);
    RowOfTwoBytes();
    RowOfThreeBytes();
    TwoItems(rows, [98], [99, 99]);
  }

  /** A sequence of two items is the display of those items. */
  lemma TwoItems<T>(s: seq<T>, first: T, second: T)
    requires |s| == 2 && s[0] == first && s[1] == second
    ensures s == [first, second]
  {
  }

  /**
   * An offset within the largest vertical offset leaves no blank row at the
   * bottom of the page: the page is full, or every line is shown.
   */
  lemma ClampedOffsetFillsPage(lines: seq<Str>, offset: Position, rect: Rect)
    requires |lines| <= U16_MAX
    requires offset.y <= MaxOffset(Size(0, |lines|), rect.AsSize()).y
    ensures |Rows(lines, offset, rect)| == Min(rect.height, |lines|)
  {
  }

  // ---------------------------------------------------------------------------
  // The view

  class ScrollView {
    var content: seq<byte>
    var lineRanges: seq<HalfOpen>
    var offset: Position
    var pageSize: Size
    var contentWidth: u16
    /** The lines pushed so far, with their grapheme segmentation. */
    ghost var lines: seq<Str>

    /** The content, the ranges and the width are the ones pushing `lines` in order produces. */
    ghost predicate Valid()
      reads this
    {
      && content == Joined(lines)
      && lineRanges == LineRanges(lines)
      && contentWidth == Width(lines)
    }

    /** `ScrollView::new`: nothing pushed, at the origin, with a zero page. */
    constructor()
      ensures Valid() && lines == []
      ensures content == [] && lineRanges == [] && contentWidth == 0
      ensures offset == ORIGIN && pageSize == ZERO_SIZE
    {
      content := [];
      lineRanges := [];
      offset := ORIGIN;
      pageSize := ZERO_SIZE;
      contentWidth := 0;
      lines := [];
    }

    /** `content_height`: the number of lines, capped at `u16::MAX`. */
    function ContentHeight(): (r: u16)
      reads this
      ensures r == Min(|lineRanges|, U16_MAX)
    {
      CastU16(|lineRanges|)
    }

    function ContentSize(): Size
      reads this
    {
      Size(contentWidth, ContentHeight())
    }

    /** `(max_offset_x, max_offset_y)`. */
    function MaxOffsets(): (r: Position)
      reads this
      ensures r.x + pageSize.width >= contentWidth && r.y + pageSize.height >= ContentHeight()
      ensures r.x == 0 || r.x + pageSize.width == contentWidth
      ensures r.y == 0 || r.y + pageSize.height == ContentHeight()
      ensures r.x > 0 <==> pageSize.width < contentWidth
      ensures r.y > 0 <==> pageSize.height < ContentHeight()
    {
      MaxOffset(ContentSize(), pageSize)
    }

    /**
     * Whether `render_scroll_bars` draws the (vertical, horizontal) bar for
     * `rect`: exactly when a page of `rect`'s size could scroll on that axis.
     */
    function ScrollBarsShown(rect: Rect): (r: (bool, bool))
      reads this
      ensures r.0 <==> MaxOffset(ContentSize(), rect.AsSize()).y > 0
      ensures r.1 <==> MaxOffset(ContentSize(), rect.AsSize()).x > 0
    {
      (rect.height < ContentHeight(), rect.width < contentWidth)
    }

    /** `scroll_up`, `scroll_down`, `scroll_left` and `scroll_right`. */
    method ScrollBy(direction: Direction, modifiers: KeyModifiers)
      modifies this
      ensures offset == Scrolled(old(offset), direction, ScrollCount(modifiers, Extent(pageSize, direction)), MaxOffsets())
      ensures content == old(content) && lineRanges == old(lineRanges) && pageSize == old(pageSize)
      ensures contentWidth == old(contentWidth) && lines == old(lines)
    {
      var count := ScrollCount(modifiers, Extent(pageSize, direction));
      var maxOffset := MaxOffsets();
      match direction
      case ToTop => offset := offset.(y := SaturatingSubInPlaceWithMax(offset.y, count, maxOffset.y));
      case ToBottom => offset := offset.(y := SaturatingAddInPlaceWithMax(offset.y, count, maxOffset.y, U16_MAX));
      case ToLeft => offset := offset.(x := SaturatingSubInPlaceWithMax(offset.x, count, maxOffset.x));
      case ToRight => offset := offset.(x := SaturatingAddInPlaceWithMax(offset.x, count, maxOffset.x, U16_MAX));
    }

    /** The offset `handle_mouse_event` moves to on `event`. */
    function MouseScrolledOffset(event: MouseEvent): Position
      reads this
    {
      match DirectionOf(event.kind)
      case Some(direction) => Scrolled(offset, direction, ScrollCount(event.modifiers, Extent(pageSize, direction)), MaxOffsets())
      case None => offset
    }

    /** `handle_mouse_event`: the four scroll kinds scroll, every other kind is ignored. */
    method HandleMouseEvent(event: MouseEvent)
      modifies this
      ensures DirectionOf(event.kind).None? ==> offset == old(offset)
      ensures DirectionOf(event.kind).Some? ==>
        var direction := DirectionOf(event.kind).value;
        offset == Scrolled(old(offset), direction, ScrollCount(event.modifiers, Extent(pageSize, direction)), MaxOffsets())
      ensures content == old(content) && lineRanges == old(lineRanges) && pageSize == old(pageSize)
      ensures contentWidth == old(contentWidth) && lines == old(lines)
    {
      match DirectionOf(event.kind)
      case Some(direction) => ScrollBy(direction, event.modifiers);
      case None =>
    }

    /** `set_offset`: stores the offset as given, without clamping. */
    method SetOffset(newOffset: Position)
      modifies this
      ensures offset == newOffset
      ensures content == old(content) && lineRanges == old(lineRanges) && pageSize == old(pageSize)
      ensures contentWidth == old(contentWidth) && lines == old(lines)
    {
      offset := newOffset;
    }

    /**
     * `push_line`: records the line's byte range, appends the line and CRLF and
     * widens the content to the line's grapheme count.
     */
    method PushLine(line: Str)
      requires Valid()
      modifies this
      ensures Valid() && lines == old(lines) + [line]
      ensures content == old(content) + line.bytes + CRLF
      ensures lineRanges == old(lineRanges) + [Range(|old(content)|, |line.bytes|)]
      ensures contentWidth == Max(old(contentWidth), CastU16(LenGraphemes(line)))
      ensures offset == old(offset) && pageSize == old(pageSize)
    {
      contentWidth := Max(contentWidth, CastU16(LenGraphemes(line)));
      lineRanges := lineRanges + [Range(|content|, |line.bytes|)];
      content := content + line.bytes;
      content := content + CRLF;
      lines := lines + [line];
      assert lines[..|lines| - 1] == old(lines);
    }

    /** `render`: adopts the rectangle's size as the page size before drawing. */
    method Render(rect: Rect)
      modifies this
      ensures pageSize == rect.AsSize()
      ensures content == old(content) && lineRanges == old(lineRanges) && offset == old(offset)
      ensures contentWidth == old(contentWidth) && lines == old(lines)
    {
      pageSize := rect.AsSize();
    }

    /** `take_content`: hands back the content and resets the view to `new()`. */
    method TakeContent() returns (taken: seq<byte>)
      requires Valid()
      modifies this
      ensures taken == old(content) && taken == Joined(old(lines))
      ensures Valid() && lines == []
      ensures content == [] && lineRanges == [] && contentWidth == 0
      ensures offset == ORIGIN && pageSize == ZERO_SIZE
    {
      taken := content;
      content := [];
      lineRanges := [];
      offset := ORIGIN;
      pageSize := ZERO_SIZE;
      contentWidth := 0;
      lines := [];
    }

    /** Pushes every line of `newLines` in order, like `FromIterator`. */
    method Extend(newLines: seq<Str>)
      requires Valid()
      modifies this
      ensures Valid() && lines == old(lines) + newLines
      ensures content == old(content) + Joined(newLines)
      ensures offset == old(offset) && pageSize == old(pageSize)
    {
      var i := 0;
      while i < |newLines|
        invariant 0 <= i <= |newLines|
        invariant Valid() && lines == old(lines) + newLines[..i]
        invariant offset == old(offset) && pageSize == old(pageSize)
      {
        PushLine(newLines[i]);
        TakeOneMore(newLines, i);
        i := i + 1;
      }
      assert newLines[..i] == newLines;
      JoinedAppend(old(lines), newLines);
    }

    /** The rows `render_content` draws into `rect` from the current state. */
    ghost function VisibleRows(rect: Rect): (rows: seq<seq<byte>>)
      requires Valid()
      reads this
      ensures rows == Rows(lines, offset, rect)
      ensures |rows| == Min(rect.height, |lineRanges| - Min(offset.y, |lineRanges|))
    {
      Rows(lines, offset, rect)
    }

    /** Each recorded range indexes its line's bytes in the content, as `render_content` relies on. */
    lemma RangesRecoverLines(i: nat)
      requires Valid() && i < |lineRanges|
      ensures lineRanges[i].start <= lineRanges[i].end <= |content|
      ensures content[lineRanges[i].start..lineRanges[i].end] == lines[i].bytes
    {
      LineRangeRecoversLine(lines, i);
    }

    /** Until the first `render` the page is empty, so the largest offsets are the content's own extents. */
    lemma MaxOffsetsBeforeRender()
      requires pageSize == ZERO_SIZE
      ensures MaxOffsets() == Position(contentWidth, ContentHeight())
    {
    }
  }

  /** `FromIterator`: a new view with every line of `lines` pushed in order. */
  method FromLines(lines: seq<Str>) returns (view: ScrollView)
    ensures fresh(view) && view.Valid() && view.lines == lines
    ensures view.content == Joined(lines)
    ensures view.offset == ORIGIN && view.pageSize == ZERO_SIZE
  {
    view := new ScrollView();
    for i := 0 to |lines|
      invariant view.Valid() && view.lines == lines[..i]
      invariant view.offset == ORIGIN && view.pageSize == ZERO_SIZE
    {
      view.PushLine(lines[i]);
      assert lines[..i + 1] == lines[..i] + [lines[i]];
    }
    assert lines[..|lines|] == lines;
  }
}
