/**
 * The event loop of the application (`src/app.rs`): the input and output
 * views, the two line editors, the computations it spawns and the rule by
 * which their results replace the shown output.
 */
module Application {
  import opened Any
  import opened Layout
  import opened Scroll
  import opened LineEditors

  const QUIT_MESSAGE: string := "quitting!"

  // ---------------------------------------------------------------------------
  // Reconciling results

  /** What the reconciliation looks at in an output: its capture instant, its content and its scroll offset. */
  datatype OutputSnapshot = OutputSnapshot(instant: nat, content: seq<byte>, offset: Position)

  /**
   * The output after `incoming` arrives while `current` is shown: `incoming`,
   * scrolled to `current`'s offset, when it was captured strictly later;
   * otherwise `current` unchanged.
   */
  function Reconciled(current: OutputSnapshot, incoming: OutputSnapshot): (r: OutputSnapshot)
    ensures r.instant == Max(current.instant, incoming.instant)
    ensures r.offset == current.offset
    ensures current.instant < incoming.instant ==> r.content == incoming.content
    ensures incoming.instant <= current.instant ==> r == current
  {
    if current.instant < incoming.instant then incoming.(offset := current.offset) else current
  }

  /** Receiving the same result twice is the same as receiving it once. */
  lemma ReconcileIdempotent(current: OutputSnapshot, incoming: OutputSnapshot)
    ensures Reconciled(Reconciled(current, incoming), incoming) == Reconciled(current, incoming)
  {
  }

  /**
   * Two results with different instants give the same output in either order
   * of arrival: the one captured later, if it is later than the shown one.
   */
  lemma ReconcileOrderIndependent(current: OutputSnapshot, a: OutputSnapshot, b: OutputSnapshot)
    requires a.instant != b.instant
    ensures Reconciled(Reconciled(current, a), b) == Reconciled(Reconciled(current, b), a)
  {
  }

  /** The result of all `arrivals`, received in order while `current` is shown. */
  function ReconciledAll(current: OutputSnapshot, arrivals: seq<OutputSnapshot>): OutputSnapshot
    decreases |arrivals|
  {
    if |arrivals| == 0 then current
    else ReconciledAll(Reconciled(current, arrivals[0]), arrivals[1..])
  }

  /**
   * After any sequence of arrivals the shown output is the latest captured
   * one: it is the original or one of the arrivals moved to the original
   * scroll offset, and its instant is the greatest seen.
   */
  lemma {:induction false} ReconciledAllKeepsLatest(current: OutputSnapshot, arrivals: seq<OutputSnapshot>)
    ensures var r := ReconciledAll(current, arrivals);
      && r.instant >= current.instant
      && (forall k :: 0 <= k < |arrivals| ==> r.instant >= arrivals[k].instant)
      && r.offset == current.offset
      && (r == current || exists k :: 0 <= k < |arrivals| && r == arrivals[k].(offset := current.offset))
    decreases |arrivals|
  {
    if |arrivals| > 0 {
      var next := Reconciled(current, arrivals[0]);
      ReconciledAllKeepsLatest(next, arrivals[1..]);
      var r := ReconciledAll(current, arrivals);
      assert r == ReconciledAll(next, arrivals[1..]);
      forall k | 0 <= k < |arrivals|
        ensures r.instant >= arrivals[k].instant
      {
        if k > 0 {
          assert arrivals[k] == arrivals[1..][k - 1];
        }
      }
      if r != current {
        if r == next {
          assert r == arrivals[0].(offset := current.offset);
        } else {
          var k :| 0 <= k < |arrivals[1..]| && r == arrivals[1..][k].(offset := next.offset);
          assert r == arrivals[k + 1].(offset := current.offset);
        }
      }
    }
  }

  /** Arrivals captured no later than the shown output change nothing. */
  lemma {:induction false} StaleArrivalsChangeNothing(current: OutputSnapshot, arrivals: seq<OutputSnapshot>)
    requires forall k :: 0 <= k < |arrivals| ==> arrivals[k].instant <= current.instant
    ensures ReconciledAll(current, arrivals) == current
    decreases |arrivals|
  {
    if |arrivals| > 0 {
      StaleArrivalsChangeNothing(current, arrivals[1..]);
    }
  }

  /**
   * Whatever the order of arrival, the output shown at the end is the one
   * captured last, provided it is later than every other arrival and than the
   * output shown at the start; it keeps the original scroll offset.
   */
  lemma {:induction false} LatestCaptureWins(current: OutputSnapshot, arrivals: seq<OutputSnapshot>, j: nat)
    requires j < |arrivals| && current.instant < arrivals[j].instant
    requires forall k :: 0 <= k < |arrivals| && k != j ==> arrivals[k].instant < arrivals[j].instant
    ensures ReconciledAll(current, arrivals) == arrivals[j].(offset := current.offset)
    decreases |arrivals|
  {
    var next := Reconciled(current, arrivals[0]);
    var rest := arrivals[1..];
    if j == 0 {
      assert forall k :: 0 <= k < |rest| ==> rest[k] == arrivals[k + 1];
      StaleArrivalsChangeNothing(next, rest);
    } else {
      assert rest[j - 1] == arrivals[j];
      assert forall k :: 0 <= k < |rest| && k != j - 1 ==> rest[k] == arrivals[k + 1];
      LatestCaptureWins(next, rest, j - 1);
    }
  }

  // ---------------------------------------------------------------------------
  // Computations

  /**
   * A spawned jq computation: the instant captured when it was built, before
   * it ran, and what it was given.
   */
  datatype Job = Job(instant: nat, cliFlags: string, filter: string, input: seq<byte>)

  /** A jq result: the instant of the computation that produced it and a view of its lines. */
  class JqOutput {
    const instant: nat
    const view: ScrollView

    /** `JqOutput::empty`: nothing, stamped with the instant it was made at. */
    constructor Empty(now: nat)
      ensures instant == now && fresh(view)
      ensures view.Valid() && view.lines == [] && view.offset == ORIGIN && view.pageSize == ZERO_SIZE
    {
      instant := now;
      view := new ScrollView();
    }

    /** A result of `job`: it carries the job's instant, not the instant it finished at. */
    constructor Of(job: Job, lines: seq<Str>)
      ensures instant == job.instant && fresh(view)
      ensures view.Valid() && view.lines == lines && view.content == Joined(lines)
      ensures view.offset == ORIGIN && view.pageSize == ZERO_SIZE
    {
      var built := FromLines(lines);
      instant := job.instant;
      view := built;
    }

    function Snapshot(): OutputSnapshot
      reads this, view
    {
      OutputSnapshot(instant, view.content, view.offset)
    }
  }

  // ---------------------------------------------------------------------------
  // The application

  /** The four panes, as the layout last placed them. */
  datatype RectSet = RectSet(input: Rect, output: Rect, cliFlags: Rect, filter: Rect)

  /** `RectSet::empty`: the layout of the empty area, every pane empty. */
  const EMPTY_RECT_SET: RectSet := RectSet(ZERO_RECT, ZERO_RECT, ZERO_RECT, ZERO_RECT)

  /** How `handle_event` ends: keep running, exit with the output, or exit with an error. */
  datatype Outcome = Continue | Exit(output: seq<byte>) | Fail(message: string)

  class App {
    const inputScrollView: ScrollView
    var jqOutput: JqOutput
    const lineEditorSet: LineEditorSet
    var rectSet: RectSet
    /** The computations spawned so far, in order. */
    var jobs: seq<Job>

    ghost predicate Valid()
      reads this, inputScrollView, jqOutput, jqOutput.view, lineEditorSet, lineEditorSet.cliFlags, lineEditorSet.filter
    {
      && inputScrollView != jqOutput.view
      && inputScrollView.Valid()
      && jqOutput.view.Valid()
      && lineEditorSet.Valid()
    }

    /** `App::new`: empty views and output, fresh editors, the empty layout and nothing spawned. */
    constructor(cliArgs: string, filter: Option<string>, now: nat)
      ensures Valid() && fresh(inputScrollView) && fresh(jqOutput) && fresh(jqOutput.view)
      ensures fresh(lineEditorSet) && fresh(lineEditorSet.cliFlags) && fresh(lineEditorSet.filter)
      ensures inputScrollView.lines == [] && jqOutput.instant == now && jqOutput.view.lines == []
      ensures inputScrollView.offset == ORIGIN && inputScrollView.pageSize == ZERO_SIZE
      ensures jqOutput.view.offset == ORIGIN && jqOutput.view.pageSize == ZERO_SIZE
      ensures lineEditorSet.filter.IsFocused() && !lineEditorSet.cliFlags.IsFocused()
      ensures lineEditorSet.cliFlags.Content() == cliArgs
      ensures lineEditorSet.filter.Content() == (if filter.Some? then filter.value else "")
      ensures rectSet == EMPTY_RECT_SET && jobs == []
    {
      inputScrollView := new ScrollView();
      jqOutput := new JqOutput.Empty(now);
      lineEditorSet := new LineEditorSet(cliArgs, filter);
      rectSet := EMPTY_RECT_SET;
      jobs := [];
    }

    /**
     * `spawn_jq_process`: builds a job from the two editors' contents and the
     * input, stamped `now`, and spawns it; a failed build spawns nothing and is
     * returned.
     */
    method SpawnJqProcess(now: nat, buildError: Option<string>) returns (r: Result<(), string>)
      modifies this
      ensures buildError.Some? ==> r == Err(buildError.value) && jobs == old(jobs)
      ensures buildError.None? ==> r == Ok(()) && jobs == old(jobs) + [
        Job(now, lineEditorSet.cliFlags.Content(), lineEditorSet.filter.Content(), inputScrollView.content)]
      ensures jqOutput == old(jqOutput) && rectSet == old(rectSet)
    {
      if buildError.Some? {
        return Err(buildError.value);
      }
      var job := Job(now, lineEditorSet.cliFlags.Content(), lineEditorSet.filter.Content(), inputScrollView.content);
      jobs := jobs + [job];
      r := Ok(());
    }

    /**
     * The `jq_outputs` branch of `run`: a result replaces the shown output only
     * when it was captured strictly later, and then takes over the shown
     * output's scroll offset.
     */
    method Receive(incoming: JqOutput)
      requires Valid() && incoming.view.Valid()
      requires incoming.view != inputScrollView && incoming.view != jqOutput.view
      modifies this, incoming.view
      ensures Valid()
      ensures jqOutput.Snapshot() == Reconciled(old(jqOutput.Snapshot()), old(incoming.Snapshot()))
      ensures jqOutput == (if old(jqOutput.instant) < incoming.instant then incoming else old(jqOutput))
      ensures jqOutput.view.lines == old(if jqOutput.instant < incoming.instant then incoming.view.lines else jqOutput.view.lines)
      ensures jqOutput.view.pageSize == old(if jqOutput.instant < incoming.instant then incoming.view.pageSize else jqOutput.view.pageSize)
      ensures jobs == old(jobs) && rectSet == old(rectSet)
    {
      if jqOutput.instant < incoming.instant {
        incoming.view.SetOffset(jqOutput.view.offset);
        jqOutput := incoming;
      }
    }

    /** The `next_lines` branch of `run`: appends the new input lines and spawns a computation over them. */
    method ReceiveInputLines(newLines: seq<Str>, now: nat, buildError: Option<string>) returns (r: Result<(), string>)
      requires Valid()
      modifies this, inputScrollView
      ensures Valid()
      ensures inputScrollView.lines == old(inputScrollView.lines) + newLines
      ensures inputScrollView.content == old(inputScrollView.content) + Joined(newLines)
      ensures buildError.None? ==> r == Ok(()) && jobs == old(jobs) + [
        Job(now, lineEditorSet.cliFlags.Content(), lineEditorSet.filter.Content(), inputScrollView.content)]
      ensures buildError.Some? ==> r == Err(buildError.value) && jobs == old(jobs)
      ensures inputScrollView.offset == old(inputScrollView.offset) && inputScrollView.pageSize == old(inputScrollView.pageSize)
      ensures jqOutput == old(jqOutput) && rectSet == old(rectSet)
    {
      inputScrollView.Extend(newLines);
      r := SpawnJqProcess(now, buildError);
    }

    /**
     * `render`, given the layout of the frame: records the panes and gives each
     * view the inside of its pane's border as its page.
     */
    method Render(rects: RectSet)
      requires Valid()
      modifies this, inputScrollView, jqOutput.view
      ensures Valid() && rectSet == rects && jqOutput == old(jqOutput) && jobs == old(jobs)
      ensures inputScrollView.pageSize == rects.input.Inner().AsSize()
      ensures jqOutput.view.pageSize == rects.output.Inner().AsSize()
      ensures inputScrollView.lines == old(inputScrollView.lines) && inputScrollView.offset == old(inputScrollView.offset)
      ensures jqOutput.view.lines == old(jqOutput.view.lines) && jqOutput.view.offset == old(jqOutput.view.offset)
    {
      rectSet := rects;
      inputScrollView.Render(rects.input.Inner());
      jqOutput.view.Render(rects.output.Inner());
    }

    /**
     * `handle_mouse_event`: the event goes to the input view when the pointer
     * is in the input pane, else to the output view when it is in the output
     * pane, and otherwise nowhere.
     */
    method HandleMouseEvent(event: MouseEvent)
      requires Valid()
      modifies inputScrollView, jqOutput.view
      ensures Valid()
      ensures var p := Position(event.column, event.row);
        && (rectSet.input.Contains(p) ==>
              inputScrollView.offset == old(inputScrollView.MouseScrolledOffset(event))
              && jqOutput.view.offset == old(jqOutput.view.offset))
        && (!rectSet.input.Contains(p) && rectSet.output.Contains(p) ==>
              jqOutput.view.offset == old(jqOutput.view.MouseScrolledOffset(event))
              && inputScrollView.offset == old(inputScrollView.offset))
        && (!rectSet.input.Contains(p) && !rectSet.output.Contains(p) ==>
              inputScrollView.offset == old(inputScrollView.offset)
              && jqOutput.view.offset == old(jqOutput.view.offset))
      ensures inputScrollView.lines == old(inputScrollView.lines) && inputScrollView.pageSize == old(inputScrollView.pageSize)
      ensures jqOutput.view.lines == old(jqOutput.view.lines) && jqOutput.view.pageSize == old(jqOutput.view.pageSize)
    {
      var position := Position(event.column, event.row);
      if rectSet.input.Contains(position) {
        inputScrollView.HandleMouseEvent(event);
      } else if rectSet.output.Contains(position) {
        jqOutput.view.HandleMouseEvent(event);
      }
    }

    /**
     * `handle_key_event`: Ctrl+C (CONTROL alone) fails with the quit message;
     * Enter exits with the output's content and resets the output view; any
     * other key goes to the editors, and a computation is spawned exactly when
     * it changed their content.
     */
    method HandleKeyEvent(key: KeyEvent, edit: Editing, now: nat, buildError: Option<string>) returns (outcome: Outcome)
      requires Valid()
      modifies this, jqOutput.view, lineEditorSet.cliFlags, lineEditorSet.filter
      ensures Valid() && jqOutput == old(jqOutput) && rectSet == old(rectSet)
      ensures inputScrollView.lines == old(inputScrollView.lines)
      ensures IsQuitKey(key) ==>
        && outcome == Fail(QUIT_MESSAGE) && jobs == old(jobs)
        && jqOutput.view.lines == old(jqOutput.view.lines) && jqOutput.view.content == old(jqOutput.view.content)
        && jqOutput.view.offset == old(jqOutput.view.offset) && jqOutput.view.pageSize == old(jqOutput.view.pageSize)
      ensures IsQuitKey(key) || key.code == Enter ==>
        && lineEditorSet.cliFlags.text == old(lineEditorSet.cliFlags.text)
        && lineEditorSet.filter.text == old(lineEditorSet.filter.text)
        && lineEditorSet.Active() == old(lineEditorSet.Active())
      ensures !IsQuitKey(key) && key.code == Enter ==>
        && outcome == Exit(old(jqOutput.view.content))
        && jqOutput.view.lines == [] && jqOutput.view.content == []
        && jqOutput.view.offset == ORIGIN && jqOutput.view.pageSize == ZERO_SIZE
        && jobs == old(jobs)
      ensures !IsQuitKey(key) && key.code != Enter ==>
        var changed := old(lineEditorSet.ReportsChange(key, edit));
        && jqOutput.view.lines == old(jqOutput.view.lines) && jqOutput.view.content == old(jqOutput.view.content)
        && jqOutput.view.offset == old(jqOutput.view.offset) && jqOutput.view.pageSize == old(jqOutput.view.pageSize)
        && (key.code == Tab ==>
              && lineEditorSet.Active() == old(lineEditorSet.Inactive())
              && lineEditorSet.cliFlags.text == old(lineEditorSet.cliFlags.text)
              && lineEditorSet.filter.text == old(lineEditorSet.filter.text))
        && (key.code != Tab ==>
              && lineEditorSet.Active() == old(lineEditorSet.Active())
              && (lineEditorSet.Active().text, changed) == edit(EditOpOf(key).value, old(lineEditorSet.Active().text))
              && lineEditorSet.Inactive().text == old(lineEditorSet.Inactive().text))
        && (!changed ==> outcome == Continue && jobs == old(jobs))
        && (changed && buildError.Some? ==> outcome == Fail(buildError.value) && jobs == old(jobs))
        && (changed && buildError.None? ==> outcome == Continue && jobs == old(jobs) + [
              Job(now, lineEditorSet.cliFlags.Content(), lineEditorSet.filter.Content(), inputScrollView.content)])
    {
      if IsQuitKey(key) {
        return Fail(QUIT_MESSAGE);
      }
      if key.code == Enter {
        var content := jqOutput.view.TakeContent();
        return Exit(content);
      }
      var changed := lineEditorSet.HandleKeyEvent(key, edit);
      if changed {
        var spawned := SpawnJqProcess(now, buildError);
        if spawned.Err? {
          return Fail(spawned.error);
        }
      }
      outcome := Continue;
    }

    /**
     * `handle_event`: a key is handled as `HandleKeyEvent` states and a mouse
     * event as `HandleMouseEvent` states; every other event is ignored and the
     * loop continues.
     */
    method HandleEvent(event: Event, edit: Editing, now: nat, buildError: Option<string>) returns (outcome: Outcome)
      requires Valid()
      modifies this, inputScrollView, jqOutput.view, lineEditorSet.cliFlags, lineEditorSet.filter
      ensures Valid() && jqOutput == old(jqOutput) && rectSet == old(rectSet)
      ensures !event.Key? ==> outcome == Continue && jobs == old(jobs)
      ensures !event.Key? ==>
        && lineEditorSet.cliFlags.text == old(lineEditorSet.cliFlags.text)
        && lineEditorSet.filter.text == old(lineEditorSet.filter.text)
        && lineEditorSet.Active() == old(lineEditorSet.Active())
      ensures !event.Key? && !event.Mouse? ==>
        && inputScrollView.offset == old(inputScrollView.offset) && jqOutput.view.offset == old(jqOutput.view.offset)
        && inputScrollView.pageSize == old(inputScrollView.pageSize) && jqOutput.view.pageSize == old(jqOutput.view.pageSize)
        && jqOutput.view.lines == old(jqOutput.view.lines)
      ensures inputScrollView.lines == old(inputScrollView.lines)
      ensures event.Key? ==> inputScrollView.offset == old(inputScrollView.offset) && inputScrollView.pageSize == old(inputScrollView.pageSize)
      ensures event.Key? ==> (
        IsQuitKey(event.key) ==>
          && outcome == Fail(QUIT_MESSAGE) && jobs == old(jobs)
          && jqOutput.view.lines == old(jqOutput.view.lines) && jqOutput.view.content == old(jqOutput.view.content)
          && jqOutput.view.offset == old(jqOutput.view.offset) && jqOutput.view.pageSize == old(jqOutput.view.pageSize))
      ensures event.Key? ==> (
        IsQuitKey(event.key) || event.key.code == Enter ==>
          && lineEditorSet.cliFlags.text == old(lineEditorSet.cliFlags.text)
          && lineEditorSet.filter.text == old(lineEditorSet.filter.text)
          && lineEditorSet.Active() == old(lineEditorSet.Active()))
      ensures event.Key? ==> (
        !IsQuitKey(event.key) && event.key.code == Enter ==>
          && outcome == Exit(old(jqOutput.view.content))
          && jqOutput.view.lines == [] && jqOutput.view.content == []
          && jqOutput.view.offset == ORIGIN && jqOutput.view.pageSize == ZERO_SIZE
          && jobs == old(jobs))
      ensures event.Key? ==> (
        !IsQuitKey(event.key) && event.key.code != Enter ==>
          var changed := old(lineEditorSet.ReportsChange(event.key, edit));
          && jqOutput.view.lines == old(jqOutput.view.lines) && jqOutput.view.content == old(jqOutput.view.content)
          && jqOutput.view.offset == old(jqOutput.view.offset) && jqOutput.view.pageSize == old(jqOutput.view.pageSize)
          && (event.key.code == Tab ==>
                && lineEditorSet.Active() == old(lineEditorSet.Inactive())
                && lineEditorSet.cliFlags.text == old(lineEditorSet.cliFlags.text)
                && lineEditorSet.filter.text == old(lineEditorSet.filter.text))
          && (event.key.code != Tab ==>
                && lineEditorSet.Active() == old(lineEditorSet.Active())
                && (lineEditorSet.Active().text, changed) == edit(EditOpOf(event.key).value, old(lineEditorSet.Active().text))
                && lineEditorSet.Inactive().text == old(lineEditorSet.Inactive().text))
          && (!changed ==> outcome == Continue && jobs == old(jobs))
          && (changed && buildError.Some? ==> outcome == Fail(buildError.value) && jobs == old(jobs))
          && (changed && buildError.None? ==> outcome == Continue && jobs == old(jobs) + [
                Job(now, lineEditorSet.cliFlags.Content(), lineEditorSet.filter.Content(), inputScrollView.content)]))
      ensures event.Mouse? ==> (
        var p := Position(event.mouse.column, event.mouse.row);
          && (rectSet.input.Contains(p) ==>
                inputScrollView.offset == old(inputScrollView.MouseScrolledOffset(event.mouse))
                && jqOutput.view.offset == old(jqOutput.view.offset))
          && (!rectSet.input.Contains(p) && rectSet.output.Contains(p) ==>
                jqOutput.view.offset == old(jqOutput.view.MouseScrolledOffset(event.mouse))
                && inputScrollView.offset == old(inputScrollView.offset))
          && (!rectSet.input.Contains(p) && !rectSet.output.Contains(p) ==>
                inputScrollView.offset == old(inputScrollView.offset)
                && jqOutput.view.offset == old(jqOutput.view.offset)))
      ensures event.Mouse? ==>
        && inputScrollView.pageSize == old(inputScrollView.pageSize)
        && jqOutput.view.lines == old(jqOutput.view.lines) && jqOutput.view.pageSize == old(jqOutput.view.pageSize)
        && jobs == old(jobs)
    {
      match event
      case Key(key) =>
        outcome := HandleKeyEvent(key, edit, now, buildError);
      case Mouse(mouse) =>
        HandleMouseEvent(mouse);
        outcome := Continue;
      case _ =>
        outcome := Continue;
    }
  }

  /** The key that quits: `c` with exactly the CONTROL modifier. */
  predicate IsQuitKey(key: KeyEvent): (r: bool)
    ensures r <==> key.code == Char('c') && Control in key.modifiers && forall m :: m in key.modifiers ==> m == Control
  {
    key.code == Char('c') && key.modifiers == CONTROL
  }

  /** Until the first render every pane is empty, so no mouse event reaches either view. */
  lemma NoPaneBeforeFirstRender(event: MouseEvent)
    ensures !EMPTY_RECT_SET.input.Contains(Position(event.column, event.row))
    ensures !EMPTY_RECT_SET.output.Contains(Position(event.column, event.row))
  {
    EmptyRectContainsNothing(EMPTY_RECT_SET.input, Position(event.column, event.row));
  }
}
