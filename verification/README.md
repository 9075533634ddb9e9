# obsidian-cursor core, modelled in Dafny

This project models three pieces of logic of the Obsidian "Cursor" plugin:

- **The versioned-summary store** (`SummaryManager`): an ordered list of
  `Summary` records (content, creation time, unique id) and a set of change
  listeners. `addSummary` appends, `deleteSummary` filters by id,
  `getSummaries` returns a copy, and `subscribe` registers a listener and
  returns its disposer. Every add and every delete calls every registered
  listener once. Module `SummaryStore`, file `summary_store.dfy`.
- **The inline-autocomplete state machine and the weekly-summary command**
  (`CursorPlugin` in `main.ts`). An edit arms a debounce timer. When the
  timer fires, the callback inserts a completion preview at the cursor and
  waits for a key. Alt keeps the preview and moves the cursor past it. Any
  other key deletes the preview. Module `Autocomplete`, file
  `autocomplete.dfy`. It runs on a model of the host editor: a list of lines
  plus a cursor, with `replaceRange`, `setCursor` and position clipping
  (module `Editor`, file `editor.dfy`).
- **The prompt builders of `AIAgent`**: the language default, the language
  instruction, and the five prompt templates. Each public method sends exactly
  one prompt to the completion service. Module `Prompts`, file `prompts.dfy`.

`wrappers.dfy` holds the `Option` type.

Modelling choices:

- The id that `addSummary` draws from `uuidv4` comes from a counter kept in
  the store. `Valid` says every id in the list is below the counter, so a new
  id is always fresh. The creation time `new Date()` is a parameter.
- Listener functions are identities (`ListenerId`). A call to a listener is
  recorded by incrementing its entry in the call-count map `calls`.
- Timers are not modelled by time. The world records whether a debounce
  callback is queued (`scheduled`), and the `Fire` event runs it. Cancelling
  and re-arming a timer means replacing the queued callback.
- The host raises "editor-change" for every document edit, including the
  plugin's own `replaceRange` calls. The model handles that event at once,
  in the plugin state at that moment. This is why setting `isAwaitingInput`
  before inserting the preview stops the timer being re-armed.
- The completion the timer callback offers is the fixed placeholder text in
  `main.ts`. The completion service is not called there. `TimerCallback`
  takes any completion text. `FireTimer` passes the placeholder.
- Positions past the document are clipped the way the host editor's
  `clipPos` does: a line past the end goes to the end of the document, and a
  column past the end of its line goes to the line end. `replaceRange(text,
  pos)` leaves the cursor in front of text inserted at the cursor.
- JavaScript truthiness of `pendingCompletion` (`string | null`) is
  `Truthy`: present and not empty.
- The long fixed texts of the prompt templates are kept as an opening
  literal followed by short numbered pieces that `Assemble` joins. Together
  they are exactly the template texts of `agents/AIAgent.ts`.

`deleteSummary` notifies even when no record has the id
(managers/SummaryManager.ts:20-21). The store has no update operation.

## Model

| member | source | states |
|---|---|---|
| SummaryStore.Empty | managers/SummaryManager.ts:5-6 | a new store has no records and no listeners, and satisfies the id invariant |
| SummaryStore.Notify | managers/SummaryManager.ts:33-35 | every registered listener is called exactly once, unregistered ones not at all; the list and the listener set are unchanged |
| SummaryStore.AddSummary | managers/SummaryManager.ts:8-17 | the list becomes the old list plus exactly one record at the end, holding the given content and time; the returned record is that last element; its id is not already in the list, and ids stay unique; every registered listener is called once |
| SummaryStore.Without | managers/SummaryManager.ts:20 | the filter keeps exactly the records whose id differs from the given one |
| SummaryStore.DeleteSummary | managers/SummaryManager.ts:19-22 | a record survives exactly when its id differs from the deleted id; deleting an absent id leaves the list unchanged; ids stay unique; every registered listener is called once, even when nothing was deleted |
| SummaryStore.WithoutAbsent | managers/SummaryManager.ts:20 | filtering out an id that no record has leaves the list unchanged |
| SummaryStore.WithoutKeepsValid | managers/SummaryManager.ts:20 | filtering keeps ids pairwise distinct and below the id counter |
| SummaryStore.WithoutAppend | managers/SummaryManager.ts:20 | filtering a concatenation is the concatenation of the filtered parts, so survivors keep their relative order |
| SummaryStore.WithoutOneMatch | managers/SummaryManager.ts:20 | when only one record has the id, filtering removes that record and keeps everything around it |
| SummaryStore.DeleteRemovesAtIndex | managers/SummaryManager.ts:19-21 | with unique ids, deleting the id of the record at index k gives the list with exactly that index removed |
| SummaryStore.GetSummaries | managers/SummaryManager.ts:24-26 | the copy has the list's length and the same record at every index |
| SummaryStore.Subscribe | managers/SummaryManager.ts:28-29 | the listener set gains the listener; records, call counts and the id counter are unchanged |
| SummaryStore.Unsubscribe | managers/SummaryManager.ts:30 | the disposer removes the listener and reports true exactly when it was registered; nothing else changes |
| SummaryStore.SubscribeIdempotent | managers/SummaryManager.ts:28-29 | subscribing the same listener twice gives the same store as subscribing once |
| SummaryStore.AddThenDeleteRestores | managers/SummaryManager.ts:8-22 | deleting the record that an add just returned gives back the list from before the add |
| SummaryStore.RunKeepsValid | managers/SummaryManager.ts:8-31 | every sequence of adds, deletes, subscribes and disposals keeps ids unique and fresh |
| SummaryStore.RegisteredListenerCalledPerMutation | managers/SummaryManager.ts:8-35 | a listener that is registered and never disposed during a run is called exactly once per add and per delete in the run |
| SummaryStore.UnregisteredListenerNotCalled | managers/SummaryManager.ts:28-35 | a listener that is not registered (for example one whose disposer ran) and is not subscribed during a run is never called in it |
| SummaryStore.DraftsExample | managers/SummaryManager.ts:8-26 | adding drafts A and B and deleting A leaves exactly the record of B |
| SummaryStore.DisposedListenerExample | managers/SummaryManager.ts:8-35 | with two listeners, after two adds, the disposal of the first and a third add, the first was called twice and the second three times |
| Editor.Split | main.ts:28 | the lines of an inserted text contain no line breaks, there is at least one, and a text without line breaks is a single line |
| Editor.JoinSplit | main.ts:28 | joining the lines of a split text with line breaks gives the text back |
| Editor.SplitJoin | main.ts:28 | splitting the joined text of lines without line breaks gives the lines back |
| Editor.Clip | main.ts:83 | a clipped position is inside the document and a valid position is left alone; a line inside the document is kept and a column past its end goes to the line end; a line past the end goes to the end of the last line |
| Editor.InsertAtCursor | main.ts:66 | `replaceRange(text, cursor)` keeps the document well formed and the cursor where it was; for text without line breaks it changes only the cursor line, to its part before the cursor, the text, and its part after the cursor |
| Editor.TextAroundCursor | main.ts:28 | the document text is the text before the cursor followed by the text from the cursor on |
| Editor.InsertAtCursorText | main.ts:28 | after inserting at the cursor the document text is the text before the cursor, the inserted text, and the text after the cursor |
| Editor.DeleteRange | main.ts:91-94 | `replaceRange("", start, end)` with the end on the start line keeps the document well formed and the line count, changes no other line, removes exactly the characters of the range when it lies inside the line, and leaves a cursor at the start where it was |
| Editor.DeleteUndoesInsert | main.ts:66-94 | deleting, from the cursor, as many characters as were just inserted there without line breaks gives back the document exactly |
| Editor.SetCursor | main.ts:83 | `setCursor` changes no line, always leaves a valid cursor, and places a valid position exactly as given |
| Autocomplete.HandleEditorChange | main.ts:37-48 | while awaiting input nothing changes; otherwise a fresh callback is queued in place of any earlier one, the timer handle is set, the pending completion is cleared, and the document is kept |
| Autocomplete.TimerCallback | main.ts:48-68 | an empty completion does nothing; otherwise the pending completion, the editor, the awaiting flag and the start position (the cursor) are set, the completion is inserted at the cursor (into the cursor line when it has no line breaks), and no callback is queued by that insertion |
| Autocomplete.FireTimer | main.ts:48-70 | a queued callback runs once and leaves nothing queued: the placeholder becomes the pending completion, the editor and the awaiting flag are set, the start position is the cursor, and the placeholder is inserted at the cursor; with nothing queued nothing happens |
| Autocomplete.HandleKeydown | main.ts:74-101 | without a truthy pending completion and a stored editor nothing changes; Alt keeps the lines, moves the cursor right by the completion length and clears the four fields; another key deletes the completion's length from the start position, clears the fields and queues no callback |
| Autocomplete.WeeklySummaryCommand | main.ts:24-29 | the heading and the selection are inserted at the cursor: the new text is the text before the cursor, the heading, the selection and the text after it; the cursor stays; the insertion is handled as an editor change |
| Autocomplete.PlaceholderIsOneLine | main.ts:57 | the offered completion is non-empty and has no line breaks |
| Autocomplete.StepKeepsInv | main.ts:37-101 | every event keeps the invariant: a completion is pending exactly while awaiting input, with editor and start position stored, and no callback is queued then (the invariant does not say the preview is still in the document) |
| Autocomplete.RunKeepsInv | main.ts:37-101 | every sequence of events from a state satisfying the invariant keeps it |
| Autocomplete.CursorMoveArmsNothing | main.ts:15 | a cursor move that is not an edit raises no editor change, so it leaves the timer, the queued callback, the completion state and the lines as they were, and places the cursor |
| Autocomplete.IdleIsInv | main.ts:6-10 | the initial field values satisfy the invariant |
| Autocomplete.MachineEditsDoNotArmTimer | main.ts:59-100 | the change event of the preview insertion leaves the timer handle alone and keeps the placeholder pending, and a keydown changes neither the timer handle nor whether a callback is queued, because both edits happen while awaiting input |
| Autocomplete.PreviewThenCancelRestores | main.ts:57-100 | showing the preview and pressing any key but Alt gives back the document and all fields as they were; only the queued callback is used up |
| Autocomplete.PreviewThenAltAccepts | main.ts:57-88 | showing the preview and pressing Alt leaves the completion in the cursor line with the cursor right after it, and the fields as before the preview |
| Prompts.NewAgent | agents/AIAgent.ts:7-10 | the language is the given one, or "zh" when none is given |
| Prompts.LanguagePrompt | agents/AIAgent.ts:121-125 | the Chinese instruction exactly when the language is "zh", the English instruction exactly otherwise |
| Prompts.InstructionsDiffer | agents/AIAgent.ts:121-125 | the two language instructions differ |
| Prompts.DefaultAgentIsChinese | agents/AIAgent.ts:7-9 | an agent built without a language uses the Chinese instruction |
| Prompts.WeeklySummaryPrompt | agents/AIAgent.ts:37-64 | the prompt starts with the weekly instructions, has the language instruction right after them, and ends with "Here's the content to analyze:" and the text |
| Prompts.AnalysisPrompt | agents/AIAgent.ts:66-79 | the prompt starts with the analysis instructions, has the language setting right after them, and ends with "待分析文本：" and the text |
| Prompts.ModificationPrompt | agents/AIAgent.ts:81-94 | the prompt starts with the modification instructions, has the original before the suggestions without overlap, and ends with "修改后的文本：" |
| Prompts.QuestionPrompt | agents/AIAgent.ts:96-108 | the prompt starts with its instruction, has the original before "问题：" and the question, and ends with "回答：" |
| Prompts.TranslationPrompt | agents/AIAgent.ts:110-119 | the prompt starts with the translation instructions and ends with the text, a blank line and "Translation:" |
| Prompts.TranslationIgnoresLanguage | agents/AIAgent.ts:110-119 | the translation prompt is the same for every language setting |
| Prompts.WeeklySummaryPromptInjective | agents/AIAgent.ts:37-64 | different texts give different weekly-summary prompts |
| Prompts.AnalysisPromptInjective | agents/AIAgent.ts:66-79 | different texts give different analysis prompts |
| Prompts.TranslationPromptInjective | agents/AIAgent.ts:110-119 | different texts give different translation prompts |
| Prompts.ModificationPromptSplitAmbiguous | agents/AIAgent.ts:81-94 | moving a separator-and-text block between the original and the suggestions gives the same prompt, so the prompt does not determine the split |
| Prompts.QuestionPromptSplitAmbiguous | agents/AIAgent.ts:96-108 | when the original text contains the blank line and the question marker, moving that part between the original and the question gives the same prompt, so the question prompt does not determine its two arguments |
| Prompts.SignatureOfKind | agents/AIAgent.ts:37-119 | each builder's prompt starts with its own two characters, whatever the inputs |
| Prompts.SentPrompt | agents/AIAgent.ts:12-35 | each public method sends exactly its builder's output: the weekly-summary, analysis, modification, question and translation prompt for its arguments |
| Prompts.SentPromptDeterminesKind | agents/AIAgent.ts:12-35 | equal prompts sent come from the same public method |
| Prompts.SentPromptDeterminesRequest | agents/AIAgent.ts:12-35 | for the single-text methods, equal prompts sent come from the same call with the same argument |

## Left out

- `getCompletion` in `main.ts` and `services/api.ts`: network calls to the completion service. The service is not modelled; `SentPrompt` only says which prompt each public method of the agent sends.
- The debounce delay of 2000 ms and the host timer queue: time is replaced by the queued-callback flag and the `Fire` event.
- `console.log` calls and the unused `textBeforeCursor` and `endPos` values in `main.ts`: they do not affect the state.
- Several open editors: the model has one document. The timer callback in the source uses the editor that raised the latest change; with one document that is always the same editor.
- `onload` and `onunload` registration of the event handlers and the command: host plumbing.
- `uuidv4` and `new Date()`: foreign and clock values, replaced by the id counter and a time parameter.
- `isEditing` in the `Summary` record: no code in the store sets or reads it.
- The panels, popups and the DataviewJS debug panel under `components/` and `ui/`: DOM construction and host calls.
- `SummaryColumnComponent`: its methods are stubs.
- An update operation for the store: the code has none.
- String lengths: the source counts UTF-16 code units and the model counts characters. They agree on the fixed texts here, which contain no characters outside the Basic Multilingual Plane.
- Prompts.SentPromptDeterminesRequest: it claims nothing for the two-text methods, because `ModificationPromptSplitAmbiguous` shows the modification prompt does not determine its arguments.
- SummaryStore.Notify: listeners are assumed to return normally and not to subscribe, dispose or change the store while being notified. In the source a listener that throws stops the remaining ones and makes the add or delete throw after the list has changed, one subscribed during the round is called in it, and one disposed by an earlier listener is skipped.
- Autocomplete.WeeklySummaryCommand: the selection is not part of the editor model. The selected text is a parameter, and the model's cursor stands for an empty selection (with a selection, `getCursor()` is its head).
- SummaryStore.GetSummaries: records are values here. In the source the record `addSummary` returns and the elements of the shallow copy `getSummaries` returns are the store's own objects, so writes through them change the store without notifying. The id invariant of `RunKeepsValid` assumes callers do not write to records.
- Editor.DeleteRange: it states the new line only when the range lies inside the start line; for ends that clipping moves it says only that the other lines are unchanged.
