# rq scroll engine, line editors and event loop in Dafny

rq is a terminal front end for `jq`. The left pane shows the input and the right pane shows jq's output. Two one-line editors below hold the jq filter and the jq command-line flags. Every edit that changes a filter or the flags starts a new jq computation. Its result replaces the shown output only if it was captured later than the one on screen.

This project models the deterministic core of that program:

- **`Any`** (`any.dfy`): the helpers of `src/any.rs` that the rest relies on.
  - Clamped saturating arithmetic and the saturating numeric `cast`.
  - `range`, `indices` and `first_and_last`.
  - `len_graphemes` and `substring`, over text given with its extended grapheme clusters.
  - A text is its UTF-8 bytes plus the start byte of each cluster. The segmentation itself is taken as given.
- **`Layout`** (`layout.dfy`): the value types of the terminal and layout libraries, as plain values.
  - Positions, sizes and rectangles, with `Rect::contains` and `Rect::inner(Margin::new(1, 1))`.
  - Modifier sets, mouse events, key events and terminal events.
- **`Scroll`** (`scroll.dfy`): `ScrollView`, a class over the buffer `content`, `line_ranges`, `offset`, `page_size` and `content_width`.
  - A ghost field records the pushed lines. `Valid()` ties the buffer to them.
  - `render_content`'s window selection is the pure function `Rows`.
- **`ScrollStates`** (`scroll_state.dfy`): `ScrollState`, the same arithmetic for a content of fixed size.
  - It chooses the scroll step by exact modifier match rather than intersection.
- **`LineEditors`** (`line_editors.dfy`): `LineEditor` and `LineEditorSet`, the focus state machine over two editors.
  - The text-area library's `undo`, `redo` and `input` are a function parameter `edit` that returns the new state and whether the content changed.
- **`Application`** (`application.dfy`): the `App` class.
  - Result reconciliation, specified by the pure `Reconciled`.
  - Spawning computations, mouse routing, and key and event dispatch. Each branch of the `run` loop is a method.

Four behaviours of the code worth knowing:

- `indices` maps an unbounded end to the text's **byte** length, not its cluster count. `take` then clips it, so an unbounded end still selects every remaining cluster (`Any.UnboundedEndSelectsRest`).
- `substring` ends its slice one byte after the last selected cluster's **start** (see Findings). The model draws rows with the corrected `Any.Substring`. `Scroll.RowAsWrittenAgrees` and `Scroll.RowAsWrittenMisses` say exactly when the rows as written differ.
- Mouse routing tests the whole pane rectangle. The view inside it is drawn one cell in from the border (`Layout.InnerWithinRect`).
- `cast` maps every out-of-range number to the target maximum, negative numbers included (`Any.CastOfNegativeIsMax`).

## Model

| member | source | states |
|---|---|---|
| Any.SaturatingAddInPlaceWithMax | src/any.rs:229-234 | the new value is `min(value + rhs, max)`. It never exceeds `max`, and it is exactly `value + rhs` iff that fits under `max` |
| Any.SaturatingSubInPlaceWithMax | src/any.rs:236-241 | the new value is `min(value - rhs floored at 0, max)`. It never exceeds `max` or the old value, and it is `value - rhs` floored at 0 when the old value was within `max` |
| Any.Cast | src/any.rs:45-53 | the result lies in the target range. It is the number itself when that fits, and the target maximum for every number outside the range, above or below |
| Any.CastU16 | src/any.rs:45-53 | a count cast to `u16` is the count capped at 65535 |
| Any.CastOfNegativeIsMax | src/any.rs:45-53 | a negative number cast to an unsigned type gives the maximum, not 0 |
| Any.Range | src/any.rs:205-213 | `begin.range(len)` starts at `begin`, has length `len` and contains exactly the indices in `[begin, begin + len)` |
| Any.Indices | src/any.rs:97-113 | start bounds: Included gives `idx`, Excluded gives `idx + 1` (saturating), Unbounded gives 0. End bounds: Included gives `idx + 1` (saturating), Excluded gives `idx`, Unbounded gives the byte length |
| Any.IndicesOfRange | src/any.rs:97-113 | a range built by `range` comes back from `indices` as `(begin, begin + len)` |
| Any.IndicesOfInclusive | src/any.rs:97-113 | `begin..=last` and `begin..last + 1` give the same indices |
| Any.FirstAndLast | src/any.rs:83-95 | `None` exactly for an empty iterator, `(x, x)` for one item, `(first, last)` otherwise |
| Any.LenGraphemes | src/any.rs:132-137 | the cluster count is at most the byte length |
| Any.ClusterCountAtMostByteLength | src/any.rs:132-137 | every cluster holds a byte, so clusters never outnumber bytes |
| Any.Cluster | src/any.rs:272 | every cluster is non-empty and begins with a byte that is not a UTF-8 continuation byte |
| Any.GraphemeIndices | src/any.rs:272 | one item per cluster (what each item spans is stated by `Any.GraphemeIndexSpan`) |
| Any.GraphemeIndexSpan | src/any.rs:272 | item `i`'s start is cluster `i`'s start byte, its start plus its length is the next cluster's start, and its bytes are the cluster |
| Any.BoundaryIsCharBoundary | src/any.rs:272 | every cluster start, and the text's end, is a char boundary |
| Any.SkipTakeWindow | src/any.rs:272 | `skip(begin).take(end - begin)` keeps exactly the items in `[begin, end)`, clipped to the sequence |
| Any.SelectedWindow | src/any.rs:270-272 | `substring` selects the clusters `[from, to)` with `from <= to <= count` |
| Any.WindowEnds | src/any.rs:274-275 | `first_and_last` of the selected window is `None` iff it is empty. Otherwise it gives the first cluster's start, the last cluster's start and that cluster's end |
| Any.SliceInclusive | src/any.rs:275 | `text[begin..=last]` succeeds iff `begin <= last + 1 <= len` and both ends are char boundaries, and then gives those bytes |
| Any.CutAsWrittenWindow | src/any.rs:274-277 | as written, an empty window gives `""`. A non-empty one gives the slice from its first cluster's start through the byte at which its last cluster starts |
| Any.SubstringAsWritten | src/any.rs:265-278 | `substring` as written: `""` for an empty selection, otherwise the slice from the first selected cluster's start through the byte at which the last selected cluster starts (an error where Rust panics) |
| Any.Substring | src/any.rs:265-278 | corrected `substring`: exactly the bytes of the clusters `[from, to)` |
| Any.EmptySelection | src/any.rs:270-276 | a range starting at or past the cluster count, or ending at or before its start, gives `""`, as written and corrected |
| Any.UnboundedEndSelectsRest | src/any.rs:97-113 | an unbounded end selects up to the last cluster |
| Any.AsWrittenWindowEnd | src/any.rs:275 | the slice as written ends at the window's end iff the last cluster is one byte. Otherwise it ends inside that cluster |
| Any.AsWrittenWindowAgrees | src/any.rs:275 | with a one-byte last cluster, the slice as written is the window's bytes |
| Any.AsWrittenWindowMisses | src/any.rs:275 | with a longer last cluster, the slice as written is never the window's bytes. It fails or is a proper prefix |
| Any.AsWrittenAgreesOnSingleByteEnd | src/any.rs:272-275 | whenever the last selected cluster is one byte, `substring` as written equals the corrected one |
| Any.AsWrittenConcatenatesSingleByteClusters | src/any.rs:272-275 | on one-byte clusters, `substring` as written is exactly the clusters with index in `[from, to)` |
| Any.AsWrittenFailsInsideCharacter | src/any.rs:275 | for "é" (bytes C3 A9), `substring(0..1)` as written cuts inside the character. The corrected one gives both bytes |
| Any.AsWrittenDropsCombiningMark | src/any.rs:275 | for "e" + U+0301 (one cluster), `substring(0..1)` as written gives "e" alone. The corrected one gives the whole cluster |
| Any.SubstringSplit | src/any.rs:265-278 | the columns `[0, n)` followed by `[n, count)` give back the whole line, for every `n` |
| Layout.Rect.Inner | src/any.rs:69-74 | `decrement` shrinks a rectangle by its one-cell border and moves its corner one cell in (saturating at the 16-bit maximum), or gives the empty rectangle when it is narrower or lower than 2 |
| Layout.EmptyRectContainsNothing | src/app.rs:155-166 | a rectangle with no columns or rows contains no position, so no mouse event is routed to it |
| Layout.InnerWithinRect | src/app.rs:80-83 | the page a view is drawn in lies within its pane |
| Scroll.Scrolled | src/scroll.rs:160-190 | a scroll moves one axis only, and leaves that axis within its largest offset |
| Scroll.ScrolledByCount | src/scroll.rs:160-190 | down and right give `min(old + count, max)`. Up and left give `min(old - count floored at 0, max)`, which pulls an offset set past the maximum back |
| Scroll.ScrolledFitsAtZero | src/scroll.rs:152-190 | when the content fits in the page, every scroll leaves that axis at 0 |
| Scroll.ScrollForwardThenBack | src/scroll.rs:160-190 | an unclamped scroll down (right) undone by the same scroll up (left) returns to the start |
| Scroll.ScrollBackThenForward | src/scroll.rs:160-190 | an unclamped scroll up (left) undone by the same scroll down (right) returns to the start |
| Scroll.MaxOffset | src/scroll.rs:152-158 | the largest offset is content minus page, floored at 0. With it the page reaches the content's end, and it is positive iff the page is smaller than the content |
| Scroll.ScrollsStayClamped | src/scroll.rs:160-190 | from an offset within the largest offsets, every sequence of scrolls keeps both axes within them |
| Scroll.ScrollCount | src/scroll.rs:142-150 | the page extent if CONTROL is among the modifiers, else 5 if ALT is, else 1 |
| Scroll.LineRanges | src/scroll.rs:204-210 | one range is recorded per pushed line |
| Scroll.JoinedAppend | src/scroll.rs:204-210 | the content of two batches of lines is the content of each, concatenated |
| Scroll.LineRangeAt | src/scroll.rs:204-210 | line `i`'s range starts where the content of the lines before it ends, and is as long as the line |
| Scroll.JoinedSnoc | src/scroll.rs:204-210 | pushing a line appends its bytes and CRLF |
| Scroll.JoinedSplit | src/scroll.rs:204-210 | the content is the lines before `i`, then line `i`, then CRLF and the rest |
| Scroll.LineRangeRecoversLine | src/scroll.rs:204-210 | each recorded range lies in the content and indexes exactly that line's bytes |
| Scroll.NextLineRangeFollows | src/scroll.rs:204-210 | the next range begins right after a line and its CRLF, so ranges are increasing and disjoint |
| Scroll.WidthBoundsEveryLine | src/scroll.rs:205 | the content width is at least every pushed line's (capped) grapheme count |
| Scroll.WidthIsAttained | src/scroll.rs:205 | the content width is some pushed line's (capped) grapheme count, or 0 with no lines |
| Scroll.Row | src/scroll.rs:94-106 | a row is its line's clusters in the columns `[x, x + width)`, clipped to the clusters the line has |
| Scroll.RowAsWrittenAgrees | src/scroll.rs:103-104 | when the last visible cluster is one byte, `substring` as written draws exactly the row |
| Scroll.RowAsWrittenMisses | src/scroll.rs:103-104 | when the last visible cluster is longer, `substring` as written fails or draws a proper prefix of the row |
| Scroll.RowOfTwoByteCharacter | src/scroll.rs:103-104 | "é" in one column: the row is both bytes of the character, and the slice as written fails at byte 1 |
| Scroll.Rows | src/scroll.rs:90-111 | the page shows `min(height, lines below the offset)` rows |
| Scroll.RowShowsLine | src/scroll.rs:90-111 | row `k` shows line `offset.y + k`, cut to the page's columns |
| Scroll.ScrolledOneRowExample | src/scroll.rs:90-111 | lines "a", "bb", "ccc" on a 2×2 page scrolled one row down show "bb" and "cc" |
| Scroll.ScrolledPageExample | src/scroll.rs:90-111 | lines "a", "bb", "ccc" on a 2×2 page at offset (1, 1) show "b" and "cc" |
| Scroll.ClampedOffsetFillsPage | src/scroll.rs:152-154 | with the vertical offset within its maximum, the page is full or shows every line |
| Scroll.ScrollView.constructor | src/scroll.rs:72-80 | a new view is empty, at the origin, with a zero page and width 0 |
| Scroll.ScrollView.MaxOffsets | src/scroll.rs:152-158 | with the largest offsets the page reaches the content's end, and an axis can scroll iff the page is smaller than the content on it |
| Scroll.ScrollView.ContentHeight | src/scroll.rs:82-84 | the content height is the number of lines, capped at 65535 |
| Scroll.ScrollView.ScrollBy | src/scroll.rs:160-190 | the offset moves as `Scrolled` says, by the step `ScrollCount` picks for the page's extent. No other field changes |
| Scroll.ScrollView.HandleMouseEvent | src/scroll.rs:227-235 | the four scroll kinds scroll in their direction. Every other kind leaves the offset unchanged. Nothing else changes |
| Scroll.ScrollView.SetOffset | src/scroll.rs:200-202 | stores the offset unclamped and changes nothing else |
| Scroll.ScrollView.PushLine | src/scroll.rs:204-210 | appends the range `[old length, old length + line length)`, then the line and CRLF. The width becomes the larger of itself and the line's capped grapheme count. The view stays valid |
| Scroll.ScrollView.Render | src/scroll.rs:212-217 | the page size becomes the rectangle's size. Nothing else changes |
| Scroll.ScrollView.TakeContent | src/scroll.rs:219-225 | returns the accumulated content and leaves the view equal to a new one |
| Scroll.ScrollView.Extend | src/app.rs:191 | pushes every new line in order. The content grows by their joined bytes and the view stays valid |
| Scroll.ScrollView.VisibleRows | src/scroll.rs:90-111 | the rows drawn are `Rows` of the pushed lines at the current offset, one per line below the offset up to the page height |
| Scroll.ScrollView.RangesRecoverLines | src/scroll.rs:98-104 | in a valid view, `content[line_ranges[i]]` is the `i`-th pushed line |
| Scroll.ScrollView.MaxOffsetsBeforeRender | src/scroll.rs:72-80 | before the first render the largest offsets are the content width and height |
| Scroll.ScrollView.ScrollBarsShown | src/scroll.rs:128-140 | a bar is drawn on an axis iff a page of `rect`'s size could scroll on that axis |
| Scroll.FromLines | src/scroll.rs:238-248 | a view built from lines holds them all, joined, at the origin with a zero page |
| ScrollStates.ExactScrollCount | src/scroll_state.rs:121-134 | the page extent for exactly CONTROL, 5 for exactly ALT, 1 for any other modifier set |
| ScrollStates.ExactMatchDiffersOnCombinations | src/scroll_state.rs:121-134 | with CONTROL and SHIFT held, the view scrolls a page and the state scrolls one cell |
| ScrollStates.ExactMatchAgreesOnSingleModifiers | src/scroll_state.rs:121-134 | on no modifier, CONTROL alone or ALT alone, the two rules agree |
| ScrollStates.ScrollState.constructor | src/scroll_state.rs:67-76 | starts at the origin with the given content size and a 1×1 page |
| ScrollStates.ScrollState.SetOffset | src/scroll_state.rs:82-84 | stores the offset unclamped and changes nothing else |
| ScrollStates.ScrollState.SetPageSize | src/scroll_state.rs:86-88 | stores the page size and changes nothing else |
| ScrollStates.ScrollState.MaxOffsets | src/scroll_state.rs:90-96 | with the largest offsets the page reaches the content's end, and an axis can scroll iff the page is smaller than the content on it |
| ScrollStates.ScrollState.ScrollUp | src/scroll_state.rs:98-102 | `y` becomes `min(y - count floored at 0, max y)` and ends within the maximum. `x`, the content and the page are unchanged |
| ScrollStates.ScrollState.ScrollDown | src/scroll_state.rs:104-108 | `y` becomes `min(y + count, max y)`. `x`, the content and the page are unchanged |
| ScrollStates.ScrollState.ScrollLeft | src/scroll_state.rs:110-114 | `x` becomes `min(x - count floored at 0, max x)` and ends within the maximum. `y`, the content and the page are unchanged |
| ScrollStates.ScrollState.ScrollRight | src/scroll_state.rs:115-119 | `x` becomes `min(x + count, max x)`. `y`, the content and the page are unchanged |
| ScrollStates.ScrollState.HandleMouseEvent | src/scroll_state.rs:121-137 | the four scroll kinds scroll by the exactly matched step. Other kinds change nothing |
| ScrollStates.ScrollState.ScrollBarsShown | src/scroll_state.rs:154-164 | a bar is drawn on an axis iff a page of `rect`'s size could scroll on that axis |
| LineEditors.ToggledStyle | src/line_editor_set.rs:40-48 | toggling gives the focused style iff the style was not the focused one |
| LineEditors.ToggleTwice | src/line_editor_set.rs:40-48 | toggling twice restores the style |
| LineEditors.EditOpOf | src/line_editor_set.rs:102-115 | Tab asks for no edit, Up for undo, Down for redo, and every other key for input |
| LineEditors.LineEditor.IsFocused | src/line_editor_set.rs:36-38 | an editor is focused iff its cursor does not have the unfocused style |
| LineEditors.LineEditor.Content | src/line_editor_set.rs:50-52 | the content is the text area's first line |
| LineEditors.LineEditor.constructor | src/line_editor_set.rs:15-30 | a new editor holds one line with the value, no history, and is focused iff asked |
| LineEditors.LineEditor.ToggleFocus | src/line_editor_set.rs:40-48 | flips the focus and leaves the text unchanged |
| LineEditors.LineEditor.Edit | src/line_editor_set.rs:109-113 | the text area takes the edit's new state and reports its change flag. The focus is unchanged |
| LineEditors.LineEditorSet.constructor | src/line_editor_set.rs:66-79 | the filter editor is focused and holds the initial filter (or nothing). The flags editor is unfocused and holds the flags |
| LineEditors.LineEditorSet.Active | src/line_editor_set.rs:94-100 | the active editor is one of the two, and it is the focused one |
| LineEditors.LineEditorSet.Inactive | src/line_editor_set.rs:94-100 | the other editor is unfocused and differs from the active one |
| LineEditors.LineEditorSet.ToggleFocus | src/line_editor_set.rs:89-92 | flips both flags, so exactly one editor stays focused and the other becomes active. No text changes |
| LineEditors.LineEditorSet.HandleKeyEvent | src/line_editor_set.rs:102-115 | Tab toggles focus, reports no change and edits nothing. Other keys edit only the active editor and report its change flag. The inactive editor is untouched |
| Application.Reconciled | src/app.rs:194-199 | the shown output is replaced iff the arrival was captured strictly later. The offset always stays the shown one's, and the instant becomes the larger one |
| Application.ReconcileIdempotent | src/app.rs:194-199 | receiving the same result twice equals receiving it once |
| Application.ReconcileOrderIndependent | src/app.rs:194-199 | two results with different instants give the same output in either order |
| Application.ReconciledAllKeepsLatest | src/app.rs:194-199 | after any arrivals, the shown output is the original or one of the arrivals moved to the original offset, and its instant is the greatest seen |
| Application.StaleArrivalsChangeNothing | src/app.rs:196-197 | arrivals captured no later than the shown output change nothing |
| Application.LatestCaptureWins | src/app.rs:194-199 | in any order of arrival, the result captured strictly last (and later than the shown one) is what ends up shown, at the old offset |
| Application.JqOutput.Empty | src/jq_process.rs:12-17 | the empty output has no lines and is stamped with the instant it was made |
| Application.JqOutput.Of | src/jq_process.rs:76-90 | a computation's result carries the instant captured when the job was built, whatever its lines. Its view holds those lines, at the origin, with a zero page |
| Application.App.constructor | src/app.rs:36-61 | empty views at the origin with zero pages, an empty output stamped now, a focused filter editor holding the initial filter (or nothing), an unfocused flags editor holding the flags, the empty layout, and nothing spawned |
| Application.App.SpawnJqProcess | src/app.rs:115-127 | a successful build spawns a job stamped `now` with the flags, the filter and the input content. A failed build spawns nothing and returns the error |
| Application.App.Receive | src/app.rs:194-199 | the shown output becomes `Reconciled(shown, arrival)`, taking over the shown scroll offset. The adopted view keeps its own lines and page size |
| Application.App.ReceiveInputLines | src/app.rs:190-193 | new input lines are appended to the input view, whose offset and page stay. A job over the new input is spawned, or the build's error is returned. The output and the layout are unchanged |
| Application.App.Render | src/app.rs:106-113 | records the panes and gives each view the inside of its pane's border as its page |
| Application.App.HandleMouseEvent | src/app.rs:155-166 | the event scrolls the input view if the pointer is in the input pane, else the output view if it is in the output pane, else nothing |
| Application.App.HandleKeyEvent | src/app.rs:129-153 | Ctrl+C fails with "quitting!" and changes nothing. Enter exits with the output's content, resets the output view to a new one (empty, at the origin, zero page) and leaves the editors alone. Other keys go to the editors: Tab moves the focus, and any other key edits the active editor as `edit` says and leaves the inactive one alone. The output view is unchanged, and a job is spawned iff the editors report a change. A failed build fails with its error |
| Application.App.HandleEvent | src/app.rs:173-179 | a key event has every effect `App.HandleKeyEvent` states and a mouse event every effect `App.HandleMouseEvent` states. A mouse event leaves the editors alone and a key event leaves the input view's page alone. Every other event changes neither the editors nor the views, and the loop continues |
| Application.IsQuitKey | src/app.rs:130-135 | a key quits iff it is `c` with CONTROL and no other modifier |
| Application.NoPaneBeforeFirstRender | src/rect_set.rs:26-28 | before the first render every pane is empty, so no mouse event reaches a view |

## Left out

- Grapheme segmentation (Unicode Standard Annex #29) is a foreign library. Texts carry their cluster starts, and the model assumes only what every segmentation satisfies.
- Scroll-bar thumb geometry (`interpolate`, `vertical_scroll_bar` and `Transpose`) is `f32` arithmetic. Only the integer condition for showing a bar is modelled.
- Drawing with Frame, Paragraph, Block and styles is not modelled. `RectSet::new` depends on the layout library's constraint solver, so `App.Render` takes the pane rectangles as a parameter. `RectSet::empty` is taken to give four empty rectangles.
- The `tokio::select!` loop, the interval tick, the event stream, the channel and the sleep before Enter's exit are scheduling. Each branch of `run` is a method, and the loop that picks one is not modelled.
- Running jq and decoding its output are I/O. `JqOutput.Of` takes the lines as given. `App.SpawnJqProcess` records the job and takes the build's failure as a parameter. The clock is the parameter `now`.
- `JqProcessBuilder::build` is called as fallible, and its field names come from a different revision of `src/jq_process.rs`. Only its capture of the instant (`src/jq_process.rs:51`) is modelled.
- `ScrollView::extend`, `JqOutput::scroll_view_mut` and `with_scroll_view_offset` are not in this revision's sources. They are modelled as pushing each line, as the output's `view` field, and as taking over the shown offset.
- `Input::next_lines` and the file and stdin helpers (`src/input.rs`, `src/tmp_file.rs`) are I/O. `App.ReceiveInputLines` takes the lines as given.
- `src/terminal.rs`, `src/cli_args.rs` and `src/main.rs` are plumbing. The command-line flags enter `App` as the string the flags editor starts with.
- `src/text_state_set.rs` wraps a foreign hash-based change detector. `src/lines.rs` wraps the standard line iterator. Neither is modelled.
- The logging helpers and the identity helpers of `src/any.rs` are not modelled.
- The text area's undo/redo memory, cursor and rendering belong to the text-area library. `LineEditors.TextState` carries them as an uninspected `history`, and `edit` is an arbitrary function of it. The history bound `MAX_HISTORIES` is recorded but not enforced.
- Any.Range: `begin + len` is unbounded here. The source's `usize` addition cannot overflow for the `u16` offsets and line lengths it is used with.
- Scroll.Row: draws with the corrected Any.Substring. The source's row fails or loses the tail of the last visible cluster when that cluster is longer than one byte (`Scroll.RowAsWrittenMisses`).
- Any.Skip, Any.Take: written as the sequences the iterators yield, without contracts of their own. Their behaviour is stated through `Any.SkipTakeWindow` and `Scroll.PageItem`.
- Scroll.ScrollView.VisibleRows: a ghost function of the pushed lines. The source re-segments `content[line_range]` when it draws. `Scroll.ScrollView.RangesRecoverLines` shows that this slice is that line's bytes.
- Scroll.ScrollView.ScrollBy: one method stands for `scroll_up`, `scroll_down`, `scroll_left` and `scroll_right`, selected by a direction.

## Findings

| source | as written | input that shows it | evidently intended | confidence | as-written member | corrected member |
|---|---|---|---|---|---|---|
| src/any.rs:275 | `&text[begin_idx..=last_idx]` ends one byte after the START of the last selected cluster | "é" (C3 A9), `substring(0..1)`: the slice `0..=0` ends inside the character (a panic). "e" + U+0301, `substring(0..1)`: gives "e" without the accent | end at the END of the last selected cluster: `last_idx + last_substr.len()` | not executed | Any.SubstringAsWritten (Any.AsWrittenFailsInsideCharacter, Any.AsWrittenDropsCombiningMark, Any.AsWrittenWindowMisses) | Any.Substring (Any.SubstringSplit; used by Scroll.Row, see Scroll.RowAsWrittenMisses) |
