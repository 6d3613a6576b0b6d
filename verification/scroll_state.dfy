/**
 * `ScrollState` (`src/scroll_state.rs`): the offset, page and content
 * arithmetic of `ScrollView` for a content whose size is fixed when the state
 * is made. Mouse modifiers are matched by equality rather than intersection.
 */
module ScrollStates {
  import opened Any
  import opened Layout
  import opened Scroll

  const FAST_SCROLL_COUNT: u16 := 5

  /**
   * The step `handle_mouse_event` scrolls by: the page extent when the
   * modifiers are exactly CONTROL, 5 when they are exactly ALT, and 1 for any
   * other set, combinations included.
   */
  function ExactScrollCount(modifiers: KeyModifiers, pageExtent: u16): (r: u16)
    ensures modifiers == CONTROL ==> r == pageExtent
    ensures modifiers == ALT ==> r == FAST_SCROLL_COUNT
    ensures modifiers != CONTROL && modifiers != ALT ==> r == NORMAL_SCROLL_COUNT
  {
    if modifiers == CONTROL then pageExtent
    else if modifiers == ALT then FAST_SCROLL_COUNT
    else NORMAL_SCROLL_COUNT
  }

  /**
   * The two rules agree on a single modifier (or none) and differ on
   * combinations: with CONTROL and SHIFT held, `ScrollView` scrolls a page and
   * `ScrollState` one cell.
   */
  lemma ExactMatchDiffersOnCombinations(pageExtent: u16)
    requires pageExtent != NORMAL_SCROLL_COUNT
    ensures ScrollCount({Control, Shift}, pageExtent) == pageExtent
    ensures ExactScrollCount({Control, Shift}, pageExtent) == NORMAL_SCROLL_COUNT
    ensures ScrollCount({Control, Shift}, pageExtent) != ExactScrollCount({Control, Shift}, pageExtent)
  {
    assert {Control, Shift} != CONTROL by {
      assert Shift in {Control, Shift};
    }
    assert {Control, Shift} != ALT by {
      assert Control in {Control, Shift};
    }
  }

  /** On no modifier, CONTROL alone or ALT alone the two rules pick the same step. */
  lemma ExactMatchAgreesOnSingleModifiers(modifiers: KeyModifiers, pageExtent: u16)
    requires modifiers == NONE || modifiers == CONTROL || modifiers == ALT
    ensures ScrollCount(modifiers, pageExtent) == ExactScrollCount(modifiers, pageExtent)
  {
    if modifiers == ALT {
      assert Control !in modifiers && Alt in modifiers;
    }
  }

  class ScrollState {
    var offset: Position
    var contentSize: Size
    var pageSize: Size

    /** `ScrollState::new`: at the origin, with the given content size and a 1×1 page. */
    constructor(contentSize: Size)
      ensures offset == ORIGIN && this.contentSize == contentSize && pageSize == Size(1, 1)
    {
      offset := ORIGIN;
      this.contentSize := contentSize;
      pageSize := Size(1, 1);
    }

    /** `set_offset`: stores the offset as given, without clamping. */
    method SetOffset(newOffset: Position)
      modifies this
      ensures offset == newOffset && contentSize == old(contentSize) && pageSize == old(pageSize)
    {
      offset := newOffset;
    }

    /** `set_page_size`: stores the page size as given. */
    method SetPageSize(newPageSize: Size)
      modifies this
      ensures pageSize == newPageSize && offset == old(offset) && contentSize == old(contentSize)
    {
      pageSize := newPageSize;
    }

    /** `(max_offset_x, max_offset_y)`. */
    function MaxOffsets(): (r: Position)
      reads this
      ensures r.x + pageSize.width >= contentSize.width && r.y + pageSize.height >= contentSize.height
      ensures r.x == 0 || r.x + pageSize.width == contentSize.width
      ensures r.y == 0 || r.y + pageSize.height == contentSize.height
      ensures r.x > 0 <==> pageSize.width < contentSize.width
      ensures r.y > 0 <==> pageSize.height < contentSize.height
    {
      MaxOffset(contentSize, pageSize)
    }

    /** `scroll_up`: `min(y - count floored at 0, max offset y)`. */
    method ScrollUp(count: u16)
      modifies this
      ensures offset == Scrolled(old(offset), ToTop, count, MaxOffsets())
      ensures offset.y <= MaxOffsets().y && offset.x == old(offset.x)
      ensures contentSize == old(contentSize) && pageSize == old(pageSize)
    {
      offset := offset.(y := SaturatingSubInPlaceWithMax(offset.y, count, MaxOffsets().y));
    }

    /** `scroll_down`: `min(y + count saturated, max offset y)`. */
    method ScrollDown(count: u16)
      modifies this
      ensures offset == Scrolled(old(offset), ToBottom, count, MaxOffsets())
      ensures offset.y <= MaxOffsets().y && offset.x == old(offset.x)
      ensures contentSize == old(contentSize) && pageSize == old(pageSize)
    {
      offset := offset.(y := SaturatingAddInPlaceWithMax(offset.y, count, MaxOffsets().y, U16_MAX));
    }

    /** `scroll_left`: `min(x - count floored at 0, max offset x)`. */
    method ScrollLeft(count: u16)
      modifies this
      ensures offset == Scrolled(old(offset), ToLeft, count, MaxOffsets())
      ensures offset.x <= MaxOffsets().x && offset.y == old(offset.y)
      ensures contentSize == old(contentSize) && pageSize == old(pageSize)
    {
      offset := offset.(x := SaturatingSubInPlaceWithMax(offset.x, count, MaxOffsets().x));
    }

    /** `scroll_right`: `min(x + count saturated, max offset x)`. */
    method ScrollRight(count: u16)
      modifies this
      ensures offset == Scrolled(old(offset), ToRight, count, MaxOffsets())
      ensures offset.x <= MaxOffsets().x && offset.y == old(offset.y)
      ensures contentSize == old(contentSize) && pageSize == old(pageSize)
    {
      offset := offset.(x := SaturatingAddInPlaceWithMax(offset.x, count, MaxOffsets().x, U16_MAX));
    }

    /**
     * `handle_mouse_event`: the four scroll kinds scroll by the exactly matched
     * step along their axis; every other kind is ignored.
     */
    method HandleMouseEvent(event: MouseEvent)
      modifies this
      ensures DirectionOf(event.kind).None? ==> offset == old(offset)
      ensures DirectionOf(event.kind).Some? ==>
        var direction := DirectionOf(event.kind).value;
        offset == Scrolled(old(offset), direction, ExactScrollCount(event.modifiers, Extent(pageSize, direction)), MaxOffsets())
      ensures contentSize == old(contentSize) && pageSize == old(pageSize)
    {
      match event.kind
      case ScrollDown => ScrollDown(ExactScrollCount(event.modifiers, pageSize.height));
      case ScrollUp => ScrollUp(ExactScrollCount(event.modifiers, pageSize.height));
      case ScrollLeft => ScrollLeft(ExactScrollCount(event.modifiers, pageSize.width));
      case ScrollRight => ScrollRight(ExactScrollCount(event.modifiers, pageSize.width));
      case _ =>
    }

    /**
     * Whether `render_scroll_bars` draws the (vertical, horizontal) bar for
     * `rect`: exactly when a page of `rect`'s size could scroll on that axis.
     */
    function ScrollBarsShown(rect: Rect): (r: (bool, bool))
      reads this
      ensures r.0 <==> MaxOffset(contentSize, rect.AsSize()).y > 0
      ensures r.1 <==> MaxOffset(contentSize, rect.AsSize()).x > 0
    {
      (rect.height < contentSize.height, rect.width < contentSize.width)
    }
  }
}
