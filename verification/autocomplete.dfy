/**
 * The plugin's inline-autocomplete state machine and its weekly-summary
 * command, driven by explicit events instead of DOM callbacks and timers.
 *
 * Events: an edit of the document (the host then raises "editor-change"),
 * the debounce timer firing, a keydown, and the weekly-summary command. The
 * host timer queue is reduced to whether a debounce callback is scheduled;
 * an "editor-change" raised by an edit the plugin itself makes is handled
 * synchronously, in the state the plugin is in at that moment.
 */
module Autocomplete {
  import opened Wrappers
  import opened Editor

  /** The plugin's fields; the timer handle only by whether it is set. */
  datatype Plugin = Plugin(
    timerSet: bool,
    pending: Option<string>,
    editorBound: bool,
    awaiting: bool,
    startPos: Option<Pos>)

  /** The plugin, the document of the bound editor, and whether a debounce
      callback is waiting in the host's timer queue. */
  datatype World = World(doc: Doc, plugin: Plugin, scheduled: bool)

  datatype Event =
    | UserEdit(newDoc: Doc)
    | Fire
    | Keydown(key: string)
    | WeeklySummary(selection: string)
      /** A cursor move that is not an edit (a click, an arrow key): the host
          raises no "editor-change" for it. */
    | CursorMove(to: Pos)

  /** The completion the timer callback offers (the completion service is not
      wired in; this fixed text stands in for it). */
  const Placeholder: string := "还没有接上API，但是可以想象 这是一段自动补全的文字，点击Alt接受，点击其他键取消"

  const WeeklyHeading: string := "# Weekly Summary\n\nThis is a summary of the week:\n\n"

  const Idle: Plugin := Plugin(false, None, false, false, None)

  /** JavaScript truthiness of a `string | null`: neither null nor empty. */
  predicate Truthy(s: Option<string>)
  {
    s.Some? && s.value != ""
  }

  /** The plugin's fields with the completion state cleared. */
  function Reset(p: Plugin): Plugin
  {
    p.(pending := None, editorBound := false, awaiting := false, startPos := None)
  }

  /** Every state reachable from `Idle` satisfies this: a completion is
      pending exactly while awaiting input, with the editor and the start
      position stored, and no debounce callback is scheduled then. It says
      nothing about the document: a user edit while awaiting can remove the
      preview without a change of state. */
  predicate Inv(w: World)
  {
    && Valid(w.doc)
    && (w.scheduled ==> w.plugin.timerSet)
    && (w.plugin.awaiting <==> w.plugin.pending.Some?)
    && (w.plugin.awaiting ==>
          !w.scheduled && Truthy(w.plugin.pending) && w.plugin.editorBound && w.plugin.startPos.Some?)
    && (!w.plugin.awaiting ==> !w.plugin.editorBound && w.plugin.startPos.None?)
  }

  /** `handleEditorChange`: ignored while awaiting input; otherwise the
      scheduled callback is replaced by a fresh one and the pending
      completion is dropped. */
  function HandleEditorChange(w: World): (r: World)
    ensures w.plugin.awaiting ==> r == w
    ensures !w.plugin.awaiting ==>
              && r.scheduled && r.plugin.timerSet && r.plugin.pending.None?
              && r.doc == w.doc
              && r.plugin == w.plugin.(timerSet := true, pending := None)
  {
    if w.plugin.awaiting then w
    else World(w.doc, w.plugin.(timerSet := true, pending := None), true)
  }

  /** The host applies an edit and raises "editor-change". */
  function Changed(w: World, d: Doc): World
  {
    HandleEditorChange(w.(doc := d))
  }

  /** The body of the debounce callback, offering `completion`: when it is
      non-empty, the fields are set first and the preview is inserted after,
      so the change event the insertion raises is ignored. */
  function TimerCallback(w: World, completion: string): (r: World)
    requires Valid(w.doc)
    ensures !r.scheduled
    ensures completion == "" ==> r == w.(scheduled := false)
    ensures completion != "" ==>
              && r.plugin == Plugin(w.plugin.timerSet, Some(completion), true, true, Some(w.doc.cursor))
              && r.doc == InsertAtCursor(w.doc, completion)
    ensures completion != "" && '\n' !in completion ==>
              var l, ch := w.doc.cursor.line, w.doc.cursor.ch;
              r.doc.lines == w.doc.lines[l := w.doc.lines[l][..ch] + completion + w.doc.lines[l][ch..]]
  {
    var w0 := w.(scheduled := false);
    if completion == "" then w0
    else
      var p := w.plugin.(pending := Some(completion), editorBound := true, awaiting := true,
                         startPos := Some(w.doc.cursor));
      Changed(w0.(plugin := p), InsertAtCursor(w.doc, completion))
  }

  /** The debounce timer fires, if a callback is scheduled. */
  function FireTimer(w: World): (r: World)
    requires Valid(w.doc)
    ensures !r.scheduled
    ensures !w.scheduled ==> r == w
    ensures w.scheduled ==>
              && r.plugin.pending == Some(Placeholder)
              && r.plugin.awaiting && r.plugin.editorBound
              && r.plugin.startPos == Some(w.doc.cursor)
              && r.doc == InsertAtCursor(w.doc, Placeholder)
  {
    if w.scheduled then TimerCallback(w, Placeholder) else w
  }

  /** `handleKeydown`: without a truthy pending completion and a bound editor
      nothing happens. Alt accepts the preview by moving the cursor past it;
      any other key deletes the preview range from the start position. Both
      clear the completion state. */
  function HandleKeydown(w: World, key: string): (r: World)
    requires Valid(w.doc)
    ensures Valid(r.doc)
    ensures !Truthy(w.plugin.pending) || !w.plugin.editorBound ==> r == w
    ensures Truthy(w.plugin.pending) && w.plugin.editorBound ==>
              r.plugin == Reset(w.plugin) || r.plugin == Reset(w.plugin).(timerSet := true)
    ensures Truthy(w.plugin.pending) && w.plugin.editorBound && key == "Alt" ==>
              && r.doc.lines == w.doc.lines
              && r.doc.cursor == Clip(w.doc.lines,
                   Pos(w.doc.cursor.line, w.doc.cursor.ch + |w.plugin.pending.value|))
              && r.plugin == Reset(w.plugin)
              && r.scheduled == w.scheduled
    ensures Truthy(w.plugin.pending) && w.plugin.editorBound && key != "Alt" && w.plugin.awaiting ==>
              && r.doc == (if w.plugin.startPos.Some?
                           then DeleteRange(w.doc, w.plugin.startPos.value, |w.plugin.pending.value|)
                           else w.doc)
              && r.plugin == Reset(w.plugin)
              && r.scheduled == w.scheduled
  {
    if !Truthy(w.plugin.pending) || !w.plugin.editorBound then w
    else
      var n := |w.plugin.pending.value|;
      if key == "Alt" then
        var c := w.doc.cursor;
        World(SetCursor(w.doc, Pos(c.line, c.ch + n)), Reset(w.plugin), w.scheduled)
      else
        var w1 := if w.plugin.startPos.Some?
                  then Changed(w, DeleteRange(w.doc, w.plugin.startPos.value, n))
                  else w;
        w1.(plugin := Reset(w1.plugin))
  }

  /** The weekly-summary command: insert the heading and the selection at the
      cursor; the insertion raises "editor-change" like any edit. */
  function WeeklySummaryCommand(w: World, selection: string): (r: World)
    requires Valid(w.doc)
    ensures Valid(r.doc)
    ensures r.doc.cursor == w.doc.cursor
    ensures Text(r.doc) == Before(w.doc) + WeeklyHeading + selection + After(w.doc)
    ensures r == HandleEditorChange(r.(plugin := w.plugin, scheduled := w.scheduled))
  {
    InsertAtCursorText(w.doc, WeeklyHeading + selection);
    Changed(w, InsertAtCursor(w.doc, WeeklyHeading + selection))
  }

  predicate EventOk(e: Event)
  {
    e.UserEdit? ==> Valid(e.newDoc)
  }

  function Step(w: World, e: Event): World
    requires Valid(w.doc)
    requires EventOk(e)
  {
    match e
    case UserEdit(d) => Changed(w, d)
    case Fire => FireTimer(w)
    case Keydown(k) => HandleKeydown(w, k)
    case WeeklySummary(sel) => WeeklySummaryCommand(w, sel)
    case CursorMove(p) => w.(doc := SetCursor(w.doc, p))
  }

  function Run(w: World, es: seq<Event>): World
    requires Inv(w)
    requires forall i | 0 <= i < |es| :: EventOk(es[i])
    decreases |es|
  {
    if es == [] then w
    else
      StepKeepsInv(w, es[0]);
      Run(Step(w, es[0]), es[1..])
  }

  // ---------------------------------------------------------------- lemmas

  lemma PlaceholderIsOneLine()
    ensures '\n' !in Placeholder && Placeholder != ""
  {
    assert forall i | 0 <= i < |Placeholder| :: Placeholder[i] != '\n';
  }

  /** Every event keeps the invariant. */
  lemma StepKeepsInv(w: World, e: Event)
    requires Inv(w)
    requires EventOk(e)
    ensures Inv(Step(w, e))
  {
    if e.Fire? && w.scheduled {
      PlaceholderIsOneLine();
    }
  }

  /** Every run of events from an invariant state keeps the invariant; in
      particular every run from `Idle`. */
  lemma {:induction false} RunKeepsInv(w: World, es: seq<Event>)
    requires Inv(w)
    requires forall i | 0 <= i < |es| :: EventOk(es[i])
    ensures Inv(Run(w, es))
    decreases |es|
  {
    if es != [] {
      StepKeepsInv(w, es[0]);
      assert forall i | 0 <= i < |es[1..]| :: es[1..][i] == es[i + 1];
      RunKeepsInv(Step(w, es[0]), es[1..]);
    }
  }

  /** Moving the cursor without editing neither arms the timer nor touches
      the completion state, and leaves the lines alone. */
  lemma CursorMoveArmsNothing(w: World, p: Pos)
    requires Inv(w)
    ensures Step(w, CursorMove(p)).plugin == w.plugin
    ensures Step(w, CursorMove(p)).scheduled == w.scheduled
    ensures Step(w, CursorMove(p)).doc.lines == w.doc.lines
    ensures ValidPos(w.doc.lines, p) ==> Step(w, CursorMove(p)).doc.cursor == p
  {
  }

  lemma IdleIsInv(d: Doc)
    requires Valid(d)
    ensures Inv(World(d, Idle, false))
  {
  }

  /** The machine's own edits never schedule a callback: the preview
      insertion and the cancel deletion are both made while awaiting input.
      Had the insertion's change event been handled as a user edit, it would
      have set the timer handle and dropped the pending completion. */
  lemma MachineEditsDoNotArmTimer(w: World, key: string)
    requires Inv(w)
    ensures w.scheduled ==>
              && FireTimer(w).plugin.timerSet == w.plugin.timerSet
              && FireTimer(w).plugin.pending == Some(Placeholder)
    ensures HandleKeydown(w, key).scheduled == w.scheduled
    ensures HandleKeydown(w, key).plugin.timerSet == w.plugin.timerSet
  {
  }

  /** Showing the preview and then pressing any key but Alt gives back the
      document and fields exactly as they were; only the callback is used up. */
  lemma PreviewThenCancelRestores(w: World, key: string)
    requires Inv(w)
    requires w.scheduled
    requires key != "Alt"
    ensures HandleKeydown(FireTimer(w), key) == w.(scheduled := false)
  {
    PlaceholderIsOneLine();
    var w1 := FireTimer(w);
    assert w1.plugin.startPos == Some(w.doc.cursor);
    DeleteUndoesInsert(w.doc, Placeholder);
  }

  /** Showing the preview and then pressing Alt keeps the completion in the
      line and leaves the cursor right after it, with the fields cleared. */
  lemma PreviewThenAltAccepts(w: World)
    requires Inv(w)
    requires w.scheduled
    ensures var r := HandleKeydown(FireTimer(w), "Alt");
            var l, ch := w.doc.cursor.line, w.doc.cursor.ch;
            && r.doc.lines == w.doc.lines[l := w.doc.lines[l][..ch] + Placeholder + w.doc.lines[l][ch..]]
            && r.doc.cursor == Pos(l, ch + |Placeholder|)
            && Text(r.doc) == Before(w.doc) + Placeholder + After(w.doc)
            && r.plugin == w.plugin
            && !r.scheduled
  {
    PlaceholderIsOneLine();
    InsertAtCursorText(w.doc, Placeholder);
  }
}
