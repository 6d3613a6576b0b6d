/**
 * The two one-line editors of the interface (`src/line_editor_set.rs`): the
 * jq filter and the jq command-line flags. Tab moves the focus between them and
 * every other key goes to the focused one.
 */
module LineEditors {
  import opened Any
  import opened Layout

  /** A cursor style; the only attribute the editors set is REVERSED. */
  datatype Style = Style(reversed: bool)

  const STYLE_FOCUSED: Style := Style(true)
  const STYLE_UNFOCUSED: Style := Style(false)
  const MAX_HISTORIES: nat := 2048

  const BLOCK_TITLE_FILTER: string := "FILTER"
  const BLOCK_TITLE_CLI_FLAGS: string := "CLI-FLAGS"
  const FOCUSED_FILTER: bool := true
  const FOCUSED_CLI_FLAGS: bool := false

  /** The lines of a text area, which always has at least one. */
  type Lines = lines: seq<string> | |lines| > 0 witness [""]

  /**
   * The editing state of a text area: its lines and the undo and redo memory
   * that the text-area library keeps, whose shape the model does not inspect.
   */
  datatype TextState = TextState(lines: Lines, history: seq<Lines>)

  /** What a key does to the focused text area. */
  datatype EditOp = Undo | Redo | Input(key: KeyEvent)

  /**
   * The text-area library's editing operations, which the model takes as given:
   * the new state and whether the content changed.
   */
  type Editing = (EditOp, TextState) -> (TextState, bool)

  /** The style a toggle switches to: unfocused from focused, focused from anything else. */
  function ToggledStyle(style: Style): (r: Style)
    ensures r == STYLE_FOCUSED <==> style != STYLE_FOCUSED
  {
    if style == STYLE_FOCUSED then STYLE_UNFOCUSED else STYLE_FOCUSED
  }

  /** Toggling twice gives back the style. */
  lemma ToggleTwice(style: Style)
    ensures ToggledStyle(ToggledStyle(style)) == style
  {
  }

  /** The edit operation a key asks for, or `None` for Tab, which moves the focus instead. */
  function EditOpOf(key: KeyEvent): (r: Option<EditOp>)
    ensures r.None? <==> key.code == Tab
    ensures key.code == KeyUp ==> r == Some(Undo)
    ensures key.code == KeyDown ==> r == Some(Redo)
    ensures key.code !in {Tab, KeyUp, KeyDown} ==> r == Some(Input(key))
  {
    match key.code
    case Tab => None
    case KeyUp => Some(Undo)
    case KeyDown => Some(Redo)
    case _ => Some(Input(key))
  }

  class LineEditor {
    const title: string
    const maxHistories: nat
    var text: TextState
    var cursorStyle: Style

    /** `LineEditor::new`: one line holding `value`, focused or not, with no history yet. */
    constructor(title: string, focused: bool, value: string)
      ensures this.title == title && maxHistories == MAX_HISTORIES
      ensures text == TextState([value], [])
      ensures cursorStyle == (if focused then STYLE_FOCUSED else STYLE_UNFOCUSED)
      ensures IsFocused() == focused && Content() == value
    {
      this.title := title;
      maxHistories := MAX_HISTORIES;
      text := TextState([value], []);
      cursorStyle := if focused then STYLE_FOCUSED else STYLE_UNFOCUSED;
    }

    /** `is_focused`: the cursor has the focused style. */
    predicate IsFocused(): (r: bool)
      reads this
      ensures r <==> cursorStyle != STYLE_UNFOCUSED
    {
      cursorStyle == STYLE_FOCUSED
    }

    /** `toggle_focus`: switches the cursor between the two styles. */
    method ToggleFocus()
      modifies this
      ensures cursorStyle == ToggledStyle(old(cursorStyle))
      ensures IsFocused() == !old(IsFocused())
      ensures text == old(text)
    {
      cursorStyle := if IsFocused() then STYLE_UNFOCUSED else STYLE_FOCUSED;
    }

    /** `content`: the first line. */
    function Content(): (r: string)
      reads this
      ensures [r] + text.lines[1..] == text.lines
    {
      text.lines[0]
    }

    /** Applies `op` to the text area and reports whether the content changed. */
    method Edit(op: EditOp, edit: Editing) returns (changed: bool)
      modifies this
      ensures (text, changed) == edit(op, old(text))
      ensures cursorStyle == old(cursorStyle)
    {
      var result := edit(op, text);
      text := result.0;
      changed := result.1;
    }
  }

  class LineEditorSet {
    const cliFlags: LineEditor
    const filter: LineEditor

    /** Two distinct editors, exactly one of them focused. */
    ghost predicate Valid()
      reads this, cliFlags, filter
    {
      cliFlags != filter && cliFlags.IsFocused() != filter.IsFocused()
    }

    /**
     * `LineEditorSet::new`: the flags editor holds the command-line flags and is
     * unfocused; the filter editor holds the initial filter (or nothing) and is
     * focused.
     */
    constructor(cliArgs: string, initialFilter: Option<string>)
      ensures fresh(cliFlags) && fresh(filter) && Valid()
      ensures filter.IsFocused() && !cliFlags.IsFocused()
      ensures cliFlags.Content() == cliArgs
      ensures filter.Content() == (if initialFilter.Some? then initialFilter.value else "")
      ensures cliFlags.title == BLOCK_TITLE_CLI_FLAGS && filter.title == BLOCK_TITLE_FILTER
    {
      cliFlags := new LineEditor(BLOCK_TITLE_CLI_FLAGS, FOCUSED_CLI_FLAGS, cliArgs);
      filter := new LineEditor(BLOCK_TITLE_FILTER, FOCUSED_FILTER, if initialFilter.Some? then initialFilter.value else "");
    }

    /** `active_mut`: the filter editor if it is focused, otherwise the flags editor. */
    function Active(): (r: LineEditor)
      requires Valid()
      reads this, cliFlags, filter
      ensures r == cliFlags || r == filter
      ensures r.IsFocused()
    {
      if filter.IsFocused() then filter else cliFlags
    }

    /** The editor that is not active: the unfocused one. */
    function Inactive(): (r: LineEditor)
      requires Valid()
      reads this, cliFlags, filter
      ensures r == cliFlags || r == filter
      ensures !r.IsFocused() && r != Active()
    {
      if filter.IsFocused() then cliFlags else filter
    }

    /** `toggle_focus`: flips both editors' focus, which keeps exactly one of them focused. */
    method ToggleFocus()
      requires Valid()
      modifies cliFlags, filter
      ensures Valid()
      ensures cliFlags.IsFocused() == !old(cliFlags.IsFocused()) && filter.IsFocused() == !old(filter.IsFocused())
      ensures Active() == old(Inactive())
      ensures cliFlags.text == old(cliFlags.text) && filter.text == old(filter.text)
    {
      cliFlags.ToggleFocus();
      filter.ToggleFocus();
    }

    /** Whether `handle_key_event` reports a change for `key`: never for Tab, otherwise as the edit says. */
    function ReportsChange(key: KeyEvent, edit: Editing): bool
      requires Valid()
      reads this, cliFlags, filter
    {
      match EditOpOf(key)
      case None => false
      case Some(op) => edit(op, Active().text).1
    }

    /**
     * `handle_key_event`: Tab toggles the focus and reports no change; Up undoes,
     * Down redoes and any other key is input, each on the active editor only,
     * reporting whether its content changed.
     */
    method HandleKeyEvent(key: KeyEvent, edit: Editing) returns (changed: bool)
      requires Valid()
      modifies cliFlags, filter
      ensures Valid() && changed == old(ReportsChange(key, edit))
      ensures key.code == Tab ==>
        && !changed
        && Active() == old(Inactive())
        && cliFlags.text == old(cliFlags.text) && filter.text == old(filter.text)
      ensures key.code != Tab ==>
        && Active() == old(Active())
        && (Active().text, changed) == edit(EditOpOf(key).value, old(Active().text))
        && Active().cursorStyle == old(Active().cursorStyle)
        && Inactive().text == old(Inactive().text)
        && Inactive().cursorStyle == old(Inactive().cursorStyle)
    {
      match EditOpOf(key)
      case None =>
        ToggleFocus();
        changed := false;
      case Some(op) =>
        var active := Active();
        changed := active.Edit(op, edit);
    }
  }
}
