/**
 * msgraph-cli.go: the terminal application's own behaviour - focus moves on
 * Alt and Esc, PgUp/PgDn scrolling, the webhook panel's append-and-scroll,
 * the input field's Enter handling (echo, or deleting an event), the event
 * dispatcher, and the batching of webhook messages into the panel.
 */
module Cli {
  import opened Wrappers
  import opened Strings
  import Io
  import Graph

  // ---------------------------------------------------------------- keys and focus

  /** The widgets that can hold the focus. */
  datatype Widget = Menu | Output | WebhookOutput | InputField

  datatype Key = KeyRune | KeyEsc | KeyEnter | KeyPgUp | KeyPgDn | KeyOther(code: int)

  datatype Modifier = ModShift | ModCtrl | ModAlt | ModMeta

  /** A tcell key event: the key, its rune (for KeyRune) and the modifiers held. */
  datatype KeyEvent = KeyEvent(key: Key, rune: char, modifiers: set<Modifier>)

  /** What the layout's input capture does: the focus afterwards, and the event it passes on (None: consumed). */
  datatype Capture = Capture(focus: Widget, passed: Option<KeyEvent>)

  /** The Alt shortcuts: o for the output, m for the menu, w for the webhook panel. */
  function AltTarget(r: char): Option<Widget> {
    if r == 'o' then Some(Output)
    else if r == 'm' then Some(Menu)
    else if r == 'w' then Some(WebhookOutput)
    else None
  }

  /**
   * The layout's input capture. Only Alt on its own (the modifier mask must
   * equal ModAlt) triggers a shortcut, which consumes the key. Esc moves the
   * focus from the menu to the output and from anywhere else to the menu, and
   * is passed on like every other key.
   */
  function LayoutCapture(focus: Widget, ev: KeyEvent): Capture {
    if ev.modifiers == {ModAlt} && AltTarget(ev.rune).Some? then Capture(AltTarget(ev.rune).value, None)
    else if ev.key == KeyEsc then Capture(if focus == Menu then Output else Menu, Some(ev))
    else Capture(focus, Some(ev))
  }

  /** A key is consumed exactly when it is an Alt shortcut; a passed key is passed unchanged. */
  lemma CaptureConsumes(focus: Widget, ev: KeyEvent)
    ensures LayoutCapture(focus, ev).passed.None? <==> ev.modifiers == {ModAlt} && ev.rune in "omw"
    ensures LayoutCapture(focus, ev).passed.Some? ==> LayoutCapture(focus, ev).passed.value == ev
  {
  }

  /** An Alt shortcut focuses its widget whatever had the focus; with any other modifier held it does nothing. */
  lemma AltShortcutFocus(focus: Widget, ev: KeyEvent)
    requires ev.rune in "omw" && ev.key != KeyEsc
    ensures ev.modifiers == {ModAlt} ==>
              LayoutCapture(focus, ev).focus == (if ev.rune == 'o' then Output else if ev.rune == 'm' then Menu else WebhookOutput)
    ensures ev.modifiers != {ModAlt} ==> LayoutCapture(focus, ev) == Capture(focus, Some(ev))
  {
  }

  /** Esc always leaves the focus on the menu or the output, and two presses from the menu return to it. */
  lemma EscToggles(focus: Widget, ev: KeyEvent)
    requires ev.key == KeyEsc && !(ev.modifiers == {ModAlt} && ev.rune in "omw")
    ensures var f := LayoutCapture(focus, ev).focus; f == Menu || f == Output
    ensures (LayoutCapture(focus, ev).focus == Output) <==> focus == Menu
    ensures LayoutCapture(LayoutCapture(Menu, ev).focus, ev).focus == Menu
  {
  }

  /** The scroll offset after a key reaches a scrollable panel: ten rows per PgDn or PgUp. */
  function ScrollRow(row: int, key: Key): int {
    match key
    case KeyPgDn => row + 10
    case KeyPgUp => row - 10
    case _ => row
  }

  /** PgDn and PgUp undo each other; other keys do not scroll. */
  lemma ScrollRoundTrip(row: int, key: Key)
    ensures ScrollRow(ScrollRow(row, KeyPgDn), KeyPgUp) == row
    ensures ScrollRow(ScrollRow(row, KeyPgUp), KeyPgDn) == row
    ensures key != KeyPgDn && key != KeyPgUp ==> ScrollRow(row, key) == row
  {
  }

  /** The offset of a panel after a key press: a panel scrolls only when the key reaches it. */
  function PanelRow(c: Capture, panel: Widget, row: int): int {
    if c.passed.Some? && c.focus == panel then ScrollRow(row, c.passed.value.key) else row
  }

  /** The webhook panel's offset after an append: the visible length minus the panel height, when positive. */
  function ScrollAfterAppend(visible: nat, height: int, row: int): int {
    if visible - height > 0 then visible - height else row
  }

  /** The panel jumps so that exactly `height` characters' worth lies below the offset, or keeps its offset. */
  lemma ScrollAfterAppendBounds(visible: nat, height: int, row: int)
    ensures var r := ScrollAfterAppend(visible, height, row);
      (visible > height ==> r + height == visible && r > 0) && (visible <= height ==> r == row)
  {
  }

  // ---------------------------------------------------------------- the input field

  /** The input field's Enter handler: the default one, or the one handleDeleteEvent installs. */
  datatype DoneFunc = DefaultDone | DeleteEventDone(email: string)

  const EchoPrefix := "[yellow]You entered:[white]\n"
  const EmptyIdError := "[red]Error: Event ID cannot be empty[white]\n"

  /** What handleInput writes for the entered text. */
  function InputEcho(input: string): string {
    EchoPrefix + input + "\n"
  }

  /** The echo shows the entered text verbatim. */
  lemma InputEchoRoundTrip(input: string)
    ensures Unwrap(InputEcho(input), EchoPrefix, "\n") == Some(input)
  {
    UnwrapWrap(EchoPrefix, input, "\n");
  }

  /** What handleDeleteEvent writes before asking for the id. */
  function DeletePrompt(email: string): seq<string> {
    [ "Please enter the event ID in the input box below and press Enter\n",
      "Will delete event for [yellow]" + email + "[white]...\n\n" ]
  }

  /** The prompt names the mailbox whose event will be deleted. */
  lemma DeletePromptNamesMailbox(email: string)
    ensures Unwrap(DeletePrompt(email)[1], "Will delete event for [yellow]", "[white]...\n\n") == Some(email)
  {
    UnwrapWrap("Will delete event for [yellow]", email, "[white]...\n\n");
  }

  /** The line the delete handler writes before calling the service. */
  function AttemptLine(email: string, eventId: string): string {
    "[white]Attempting to deleting event [yellow]" + eventId + "[white] for [yellow]" + email + "[white]...\n"
  }

  /** The line the delete handler writes for the error DeleteEvent returns. */
  function DeleteErrorReport(err: string): string {
    "[red]Error deleting event: " + err + "[white]\n"
  }

  /**
   * What the delete handler writes for a non-empty id, given the service's
   * answer: the attempt, then on failure Graph.DeleteEvent's own line and the
   * handler's line around the wrapped error.
   */
  function DeleteWrites(email: string, eventId: string, failure: Option<string>): seq<string> {
    [AttemptLine(email, eventId)]
    + match failure
      case None => []
      case Some(e) => [Graph.DeleteFailureLine(email, eventId, e), DeleteErrorReport(Graph.DeleteFailureError(e))]
  }

  /** A failed delete is reported twice, the second time with DeleteEvent's wrapped error; a successful one once. */
  lemma DeleteFailureReported(email: string, eventId: string, failure: Option<string>)
    ensures failure.None? ==> |DeleteWrites(email, eventId, failure)| == 1
    ensures failure.Some? ==>
      var w := DeleteWrites(email, eventId, failure);
      && |w| == 3 && w[1] == Graph.DeleteFailureLine(email, eventId, failure.value)
      && Unwrap(w[2], "[red]Error deleting event: ", "[white]\n") == Some(Graph.DeleteFailureError(failure.value))
  {
    if failure.Some? {
      UnwrapWrap("[red]Error deleting event: ", Graph.DeleteFailureError(failure.value), "[white]\n");
    }
  }

  // ---------------------------------------------------------------- the event dispatcher

  /** The Graph call EventHandler.handleEvent makes. */
  datatype GraphCall = CreateEvent(user: string, argument: string) | DeleteEvent(user: string, eventId: string)

  /**
   * EventHandler.handleEvent: "create" and "delete" call the service with the
   * first parameter (a missing one panics in the source); any other action
   * is an error naming it.
   */
  function HandleEvent(action: string, email: string, params: seq<string>): Result<GraphCall, string>
    requires action == "create" || action == "delete" ==> |params| > 0
  {
    if action == "create" then Success(CreateEvent(email, params[0]))
    else if action == "delete" then Success(DeleteEvent(email, params[0]))
    else Failure("unknown action: " + action)
  }

  /** Exactly the two known actions dispatch, on the given mailbox and first parameter. */
  lemma HandleEventDispatch(action: string, email: string, params: seq<string>)
    requires action == "create" || action == "delete" ==> |params| > 0
    ensures HandleEvent(action, email, params).Success? <==> action == "create" || action == "delete"
    ensures HandleEvent(action, email, params).Failure? ==>
              Unwrap(HandleEvent(action, email, params).error, "unknown action: ", "") == Some(action)
    ensures HandleEvent(action, email, params).Success? ==>
              var c := HandleEvent(action, email, params).value;
              c.user == email && (c.CreateEvent? <==> action == "create")
              && (if c.CreateEvent? then c.argument else c.eventId) == params[0]
  {
    UnwrapWrap("unknown action: ", action, "");
    assert "unknown action: " + action + "" == "unknown action: " + action;
  }

  // ---------------------------------------------------------------- webhook batching

  /** What processWebhookUpdates' select receives: a channel message or a ticker tick. */
  datatype Update = Message(text: string) | Tick

  /** The windows flushed so far (each non-empty, oldest first) and the messages still pending. */
  datatype Batching = Batching(windows: seq<seq<string>>, pending: seq<string>)

  predicate AllNonEmpty(windows: seq<seq<string>>) {
    forall k :: 0 <= k < |windows| ==> windows[k] != []
  }

  /** The batcher's state after a run of updates: a tick flushes the pending messages, if any. */
  function Batch(updates: seq<Update>): (b: Batching)
    ensures AllNonEmpty(b.windows)
  {
    if updates == [] then Batching([], [])
    else
      var b := Batch(updates[..|updates| - 1]);
      match updates[|updates| - 1]
      case Message(t) => Batching(b.windows, b.pending + [t])
      case Tick => if b.pending == [] then b else Batching(b.windows + [b.pending], [])
  }

  /** The texts of the messages among the updates, in order. */
  function Messages(updates: seq<Update>): seq<string> {
    if updates == [] then []
    else
      Messages(updates[..|updates| - 1])
      + match updates[|updates| - 1]
        case Message(t) => [t]
        case Tick => []
  }

  function Flatten(windows: seq<seq<string>>): seq<string> {
    if windows == [] then [] else Flatten(windows[..|windows| - 1]) + windows[|windows| - 1]
  }

  /** The text written for each flushed window: its messages joined with newlines. */
  function Flushes(windows: seq<seq<string>>): (f: seq<string>)
    ensures |f| == |windows|
  {
    if windows == [] then [] else Flushes(windows[..|windows| - 1]) + [Join(windows[|windows| - 1], "\n")]
  }

  /**
   * The webhook panel's offset after the windows are appended, in order, to
   * a panel holding `start`: each append scrolls as ScrollAfterAppend says,
   * measured on the text written so far.
   */
  function FlushedRow(start: seq<string>, windows: seq<seq<string>>, height: int, visibleLength: string -> nat, row: int): int {
    if windows == [] then row
    else
      ScrollAfterAppend(visibleLength(Concat(start + Flushes(windows))), height,
                        FlushedRow(start, windows[..|windows| - 1], height, visibleLength, row))
  }

  /** No message is lost, duplicated or reordered: the flushed windows then the pending ones are all messages received. */
  lemma {:induction false} BatchConservation(updates: seq<Update>)
    ensures Flatten(Batch(updates).windows) + Batch(updates).pending == Messages(updates)
  {
    if updates != [] {
      var init := updates[..|updates| - 1];
      BatchConservation(init);
      var b := Batch(init);
      match updates[|updates| - 1]
      case Message(t) =>
        assert Flatten(b.windows) + (b.pending + [t]) == (Flatten(b.windows) + b.pending) + [t];
      case Tick =>
        if b.pending != [] {
          assert Flatten(b.windows + [b.pending]) == Flatten(b.windows) + b.pending by {
            assert (b.windows + [b.pending])[..|b.windows|] == b.windows;
          }
        }
    }
  }

  /** A message joins the tail of the pending list and flushes nothing. */
  lemma MessageStep(updates: seq<Update>, t: string)
    ensures Batch(updates + [Message(t)]) == Batching(Batch(updates).windows, Batch(updates).pending + [t])
  {
    assert (updates + [Message(t)])[..|updates|] == updates;
  }

  /** After a tick nothing is pending, and a tick with nothing pending writes nothing. */
  lemma TickFlushes(updates: seq<Update>)
    ensures Batch(updates + [Tick]).pending == []
    ensures Batch(updates).pending == [] ==> Batch(updates + [Tick]) == Batch(updates)
    ensures Batch(updates).pending != [] ==>
              Batch(updates + [Tick]).windows == Batch(updates).windows + [Batch(updates).pending]
  {
    assert (updates + [Tick])[..|updates|] == updates;
  }

  function AsMessages(texts: seq<string>): (u: seq<Update>)
    ensures |u| == |texts|
    ensures forall k :: 0 <= k < |texts| ==> u[k] == Message(texts[k])
  {
    if texts == [] then [] else AsMessages(texts[..|texts| - 1]) + [Message(texts[|texts| - 1])]
  }

  /** Messages arriving between two ticks are appended to the pending ones, in order. */
  lemma {:induction false} MessagesPend(before: seq<Update>, texts: seq<string>)
    ensures Batch(before + AsMessages(texts)).pending == Batch(before).pending + texts
    ensures Batch(before + AsMessages(texts)).windows == Batch(before).windows
  {
    if texts == [] {
      assert before + AsMessages(texts) == before;
    } else {
      var init, t := texts[..|texts| - 1], texts[|texts| - 1];
      MessagesPend(before, init);
      var u := before + AsMessages(texts);
      assert AsMessages(texts) == AsMessages(init) + [Message(t)];
      assert u == (before + AsMessages(init)) + [Message(t)];
      var b := Batch(before + AsMessages(init));
      assert Batch(u) == Batching(b.windows, b.pending + [t]);
      assert texts == init + [t];
    }
  }

  /** The messages of one tick interval become exactly one write, joined with newlines. */
  lemma OneWindowPerInterval(before: seq<Update>, texts: seq<string>)
    requires Batch(before).pending == [] && texts != []
    ensures var b := Batch(before + AsMessages(texts) + [Tick]);
      b.pending == [] && Flushes(b.windows) == Flushes(Batch(before).windows) + [Join(texts, "\n")]
  {
    MessagesPend(before, texts);
    TickFlushes(before + AsMessages(texts));
    var ws := Batch(before).windows;
    assert Batch(before).pending + texts == texts;
    assert (ws + [texts])[..|ws|] == ws;
  }

  // ---------------------------------------------------------------- the application

  /** The parts of App this model keeps: the two text views, the focus, and the input field. */
  class App {
    const output: Io.Buffer
    const webhookOutput: Io.Buffer
    var focus: Widget
    var inputText: string
    var done: DoneFunc

    /** NewApp after setupUI: empty views, the menu focused, the default Enter handler. */
    constructor ()
      ensures fresh(output) && fresh(webhookOutput)
      ensures output.chunks == [] && webhookOutput.chunks == [] && output.row == 0 && webhookOutput.row == 0
      ensures focus == Menu && inputText == [] && done == DefaultDone
      ensures Valid()
    {
      output := new Io.Buffer();
      webhookOutput := new Io.Buffer();
      focus := Menu;
      inputText := [];
      done := DefaultDone;
    }

    predicate Valid()
      reads this
    {
      output != webhookOutput
    }

    /**
     * A key press: the layout's capture first, then, for a key it passes on,
     * the focused panel's PgUp/PgDn scrolling.
     */
    method KeyPress(ev: KeyEvent)
      requires Valid()
      modifies this, output, webhookOutput
      ensures var c := LayoutCapture(old(focus), ev);
        && focus == c.focus
        && output.row == PanelRow(c, Output, old(output.row))
        && webhookOutput.row == PanelRow(c, WebhookOutput, old(webhookOutput.row))
      ensures output.chunks == old(output.chunks) && webhookOutput.chunks == old(webhookOutput.chunks)
      ensures inputText == old(inputText) && done == old(done)
    {
      var c := LayoutCapture(focus, ev);
      focus := c.focus;
      if c.passed.None? {
        return;
      }
      var key := c.passed.value.key;
      if key == KeyPgDn || key == KeyPgUp {
        if focus == Output {
          output.ScrollTo(ScrollRow(output.row, key));
        } else if focus == WebhookOutput {
          webhookOutput.ScrollTo(ScrollRow(webhookOutput.row, key));
        }
      }
    }

    /**
     * appendToWebhookOutput: the text is written to the webhook panel, which
     * then scrolls so its last `height` characters (of the text with colour
     * tags removed, as measured by `visibleLength`) are in view.
     */
    method AppendToWebhookOutput(text: string, height: int, visibleLength: string -> nat)
      requires Valid()
      modifies webhookOutput
      ensures webhookOutput.chunks == old(webhookOutput.chunks) + [text]
      ensures webhookOutput.row == ScrollAfterAppend(visibleLength(webhookOutput.Text()), height, old(webhookOutput.row))
      ensures output.chunks == old(output.chunks) && output.row == old(output.row)
    {
      webhookOutput.Write(text);
      var count := visibleLength(webhookOutput.Text()) - height;
      if count > 0 {
        webhookOutput.ScrollTo(count);
      }
    }

    /** handleInput: the output shows the entered text, and the menu gets the focus back. */
    method HandleInput(input: string)
      modifies this, output
      ensures output.chunks == [InputEcho(input)] && output.row == old(output.row)
      ensures focus == Menu && inputText == old(inputText) && done == old(done)
    {
      output.Clear();
      output.Write(InputEcho(input));
      focus := Menu;
    }

    /** handleDeleteEvent: prompts for an id and installs the delete handler on the input field. */
    method HandleDeleteEvent(email: string)
      modifies this, output
      ensures output.chunks == DeletePrompt(email) && output.row == old(output.row)
      ensures done == DeleteEventDone(email) && focus == InputField && inputText == old(inputText)
    {
      output.Clear();
      output.Write("Please enter the event ID in the input box below and press Enter\n");
      output.Write("Will delete event for [yellow]" + email + "[white]...\n\n");
      done := DeleteEventDone(email);
      focus := InputField;
    }

    /**
     * The input field's done function for a key. Only Enter acts. The default
     * handler echoes the text and clears it. The delete handler refuses an
     * empty id (and stays installed); otherwise it asks the service to delete
     * the event (returned as `deleted`), reports the outcome, clears the text,
     * restores the default handler and focuses the menu.
     */
    method InputDone(key: Key, delete: (string, string) -> Option<string>)
      returns (deleted: Option<(string, string)>)
      modifies this, output
      ensures output.row == old(output.row)
      ensures key != KeyEnter ==>
        && deleted == None && output.chunks == old(output.chunks)
        && focus == old(focus) && inputText == old(inputText) && done == old(done)
      ensures key == KeyEnter && old(done) == DefaultDone ==>
        && deleted == None && output.chunks == [InputEcho(old(inputText))]
        && focus == Menu && inputText == [] && done == DefaultDone
      ensures key == KeyEnter && old(done).DeleteEventDone? && old(inputText) == [] ==>
        && deleted == None && output.chunks == old(output.chunks) + [EmptyIdError]
        && focus == old(focus) && inputText == [] && done == old(done)
      ensures key == KeyEnter && old(done).DeleteEventDone? && old(inputText) != [] ==>
        var email, id := old(done).email, old(inputText);
        && deleted == Some((email, id))
        && output.chunks == old(output.chunks) + DeleteWrites(email, id, delete(email, id))
        && focus == Menu && inputText == [] && done == DefaultDone
    {
      deleted := None;
      if key != KeyEnter {
        return;
      }
      match done
      case DefaultDone =>
        HandleInput(inputText);
        inputText := [];
      case DeleteEventDone(email) =>
        if inputText == [] {
          output.Write(EmptyIdError);
          return;
        }
        deleted := ConfirmDelete(email, delete);
    }

    /** The delete handler's work for a non-empty id. */
    method ConfirmDelete(email: string, delete: (string, string) -> Option<string>)
      returns (deleted: Option<(string, string)>)
      requires inputText != []
      modifies this, output
      ensures output.row == old(output.row)
      ensures deleted == Some((email, old(inputText)))
      ensures output.chunks == old(output.chunks) + DeleteWrites(email, old(inputText), delete(email, old(inputText)))
      ensures focus == Menu && inputText == [] && done == DefaultDone
    {
      var eventId := inputText;
      output.Write(AttemptLine(email, eventId));
      var err := Graph.DeleteEvent(output, email, eventId, delete);
      if err.Some? {
        output.Write(DeleteErrorReport(err.value));
      }
      deleted := Some((email, eventId));
      inputText := [];
      done := DefaultDone;
      focus := Menu;
    }

    /**
     * processWebhookUpdates over a finite run of updates: messages are kept
     * until the next tick, which appends them, joined with newlines, to the
     * webhook panel. Returns the messages still pending at the end.
     */
    method ProcessWebhookUpdates(updates: seq<Update>, height: int, visibleLength: string -> nat)
      returns (pending: seq<string>)
      requires Valid()
      modifies webhookOutput
      ensures pending == Batch(updates).pending
      ensures webhookOutput.chunks == old(webhookOutput.chunks) + Flushes(Batch(updates).windows)
      ensures webhookOutput.row
              == FlushedRow(old(webhookOutput.chunks), Batch(updates).windows, height, visibleLength, old(webhookOutput.row))
      ensures output.chunks == old(output.chunks) && output.row == old(output.row)
    {
      pending := [];
      ghost var flushed: seq<seq<string>> := [];
      for i := 0 to |updates|
        invariant flushed == Batch(updates[..i]).windows && pending == Batch(updates[..i]).pending
        invariant webhookOutput.chunks == old(webhookOutput.chunks) + Flushes(flushed)
        invariant webhookOutput.row == FlushedRow(old(webhookOutput.chunks), flushed, height, visibleLength, old(webhookOutput.row))
      {
        assert updates[..i + 1][..i] == updates[..i];
        match updates[i]
        case Message(t) =>
          pending := pending + [t];
        case Tick =>
          if |pending| > 0 {
            AppendToWebhookOutput(Join(pending, "\n"), height, visibleLength);
            flushed := flushed + [pending];
            assert flushed[..|flushed| - 1] == Batch(updates[..i]).windows;
            pending := [];
          }
      }
      assert updates[..|updates|] == updates;
    }
  }
}
