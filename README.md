# Sticky-Note voice checklist in Dafny

The app keeps several named checklists and shows one of them at a time. A
voice session with a remote agent drives the current list: the agent calls
five tools (`update_tasks`, `next_step`, `uncheck_task`, `prev_step`,
`read_details`), and the app's callbacks turn each call into a change of the
current list. Every list keeps one ordering: a run of completed tasks, at
most one active task, then pending tasks. A list with every task completed
has no active task and still counts as valid.

The project models three parts of the program:

- **The checklist progression machine** (`checklist.dfy`, `app_state.dfy`).
  The pure transitions are `Advance`, `Uncheck`, `StepBack`, `Rebuild` and
  import. Class `App` holds the state App.tsx keeps in React hooks: the lists,
  the current index, import mode, the import text, the listening flag and the
  error. Its handlers copy the current list's tasks, update them step by
  step, and write them back.
- **The voice-session bridge** (`live_service.dfy`). Class
  `GeminiLiveService` has the source's session and audio-resource fields,
  each a flag that is true when the field is non-null. It also has the
  playback cursor `nextStartTime` and the set of callback slots that are
  set. Logs stand for effects the model does not perform: `sent` (what
  goes over the session), `fired` (callback invocations), `released`
  (resources closed), `abandoned` (open resources whose field was
  overwritten) and `scheduled` (playback start times).
- **The display split** (`task_view.dfy`). From a list it derives the
  completed, active and pending sections, the visible windows, the "all
  completed" flag and which of three messages the card shows.

`types.dfy` holds the data model. `strings.dfy` holds the JavaScript string
operations used here: decimal rendering in template literals, `split`,
`join`, and the white-space test behind `trim()`.

The model's central abstraction is the **cursor**: the number of completed
tasks. `Shaped(ts, c)` says the statuses are `c` completed, then active (if
`c < |ts|`), then pending. Advancing adds one to the cursor and stops at the
end. Unchecking subtracts one and stops at zero. Stepping back also
subtracts one, but does nothing when every task is completed. The lemmas
prove each of these facts for the three functions, and the App's handlers
are proved against those functions.

Points where the program's behaviour is easy to misread, and which the
model keeps as the code has them:

- `disconnect` closes the session first, then the capture chain, then the
  output context.
- When the SDK connect fails, `connect` reports the failure and leaves both
  audio contexts it opened unclosed.
- `connect` and `startAudioStream` assign new contexts, sources and
  processors over fields that may still hold open ones, without closing
  them. This happens, for example, after a failed connect, or after
  `onclose`, which keeps the output context. The service's `abandoned` log
  records each such resource. `Disconnect` empties the fields, but it cannot
  reach what was abandoned.
- `onclose` stops capture and drops the session but keeps the output
  context. `onerror` only reports: it tears nothing down.
- An unknown tool is answered with `{error: 'Unknown tool'}`.
- `update_tasks` without `args.tasks` is still answered `ok`; it just fires
  no callback.
- `read_details` reaches App's callback, which only logs.
- The import keeps the lines whose `trim()` is non-empty, untrimmed, in
  order and with repeats. The voice snapshot taken while importing keeps
  every non-empty line, including white-space-only ones.

`App.Receive` connects the two halves. The service handles one message,
and each callback it fires is passed, in order, to the handler App
installed for it.

## Model

| member | source | states |
|---|---|---|
| Strings.NatToString | App.tsx:55 | `${n}` renders a number as a non-empty string of decimal digits, with no leading zero except for 0 itself |
| Strings.DigitsValueOfNatToString | App.tsx:55 | reading the decimal rendering back gives the number (round trip) |
| Strings.NatToStringInjective | App.tsx:150 | different indices render as different strings, so index-derived ids differ |
| Strings.Split | App.tsx:158 | `split('\n')` gives at least one piece and no piece contains the separator |
| Strings.Join | App.tsx:50 | `join('\n')`: the parts with one separator between neighbours, `''` for no parts; `JoinSplit` and `SplitJoin` pair it with `Split` |
| Strings.IsJsWhitespace | App.tsx:158 | the characters `trim()` strips: ECMAScript WhiteSpace and LineTerminator code points |
| Strings.Blank | App.tsx:158 | `l.trim().length > 0` is false exactly when every character of `l` is one that `trim()` strips |
| Strings.JoinSplit | App.tsx:50 | joining the pieces of a split with the separator gives the original text |
| Strings.SplitJoin | App.tsx:50 | splitting the import text that `update_tasks` wrote in import mode gives back the texts, when there is at least one and none contains a newline |
| Checklist.ActiveIndex | App.tsx:72 | `findIndex`: -1 exactly when no task is active, otherwise an active index with no active task before it |
| Checklist.ShapedCursor | App.tsx:72 | the completed-prefix shape fixes the active index: the cursor equals the count of completed tasks and the list is a progression |
| Checklist.ProgressionMeans | App.tsx:64-125 | in a progression everything before the active task is completed, everything after it pending, so there is at most one active task; with no active task every task is completed |
| Checklist.Advance | App.tsx:72-79 | only statuses change; every task other than the active one and its successor stays the same |
| Checklist.Uncheck | App.tsx:92-103 | only statuses change; only the active task and its predecessor change, or only the last task when none is active, or nothing when the first is active |
| Checklist.StepBack | App.tsx:116-121 | agrees with `Uncheck` when an active task follows the first, and changes nothing otherwise, including when every task is completed |
| Checklist.AdvanceMovesCursor | App.tsx:74-78 | advancing a list with `c` completed tasks gives `c+1` completed and the next one active, or no change when all are completed |
| Checklist.UncheckMovesCursor | App.tsx:95-103 | unchecking moves the cursor back by one (an all-completed list gets its last task active again) and does nothing at the start |
| Checklist.StepBackMovesCursor | App.tsx:118-121 | stepping back moves the cursor back by one, except at the start and when every task is completed |
| Checklist.MovesKeepProgression | App.tsx:64-125 | advance, uncheck and step back each preserve the ordering invariant |
| Checklist.UncheckUndoesAdvance | App.tsx:74-103 | on a progression with an active task, unchecking right after advancing restores the exact task list |
| Checklist.AdvanceTimes | App.tsx:64-84 | repeated advancing keeps the list's length |
| Checklist.AdvanceTimesMovesCursor | App.tsx:64-84 | `n` advances move the cursor `n` places, stopping at the end, and change only statuses |
| Checklist.FinishThenUncheck | App.tsx:74-103 | on a fresh list, one advance per task completes every task and leaves none active; one uncheck then makes exactly the last task active |
| Checklist.ThreeTaskWalkthrough | App.tsx:48-108 | three tasks set by `update_tasks`: the statuses after next, uncheck, three nexts, and a final uncheck |
| Checklist.StartTasks | App.tsx:54-58 | one task per text in order, first active and the rest pending, with the given ids and no details |
| Checklist.RebuildId | App.tsx:55 | the id `task-<now>-<idx>` of a rebuilt task; `RebuildIdsDiffer` shows different indices give different ids |
| Checklist.ImportId | App.tsx:165 | the id `task-<idx>-<now>` of an imported task; `ImportIdsDiffer` shows different indices give different ids |
| Checklist.SnapshotId | App.tsx:150 | the id of a snapshot task is its index in decimal; `SnapshotTasks` shows these ids are distinct |
| Checklist.RebuildIdsDiffer | App.tsx:55 | ids `task-<now>-<idx>` differ for different indices |
| Checklist.ImportIdsDiffer | App.tsx:165 | ids `task-<idx>-<now>` differ for different indices |
| Checklist.Rebuild | App.tsx:54-58 | the rebuilt tasks carry the texts in order and satisfy the invariant with task 0 active; their ids are pairwise distinct, no task has details, and empty input gives no tasks |
| Checklist.Keep | App.tsx:158 | `filter` keeps exactly the accepted elements |
| Checklist.KeepAppend | App.tsx:158 | `filter` distributes over concatenation, so it keeps the accepted elements in order and with repeats |
| Checklist.KeepOne | App.tsx:158 | on one element `filter` gives that element when accepted and nothing otherwise |
| Checklist.KeptPiecesAfterNewline | App.tsx:158 | filtering the split pieces handles the text one line at a time: the first line (if accepted), then those of the rest |
| Checklist.KeptPiecesOfLine | App.tsx:158 | a text without newline is one piece, kept or not |
| Checklist.ImportLines | App.tsx:158 | the kept lines are exactly the newline-separated pieces that are not white space only, untrimmed; each is non-empty and newline-free |
| Checklist.ImportLinesAfterNewline | App.tsx:158 | importing `line + '\n' + rest` gives `line` (unless blank) followed by the import of `rest`: order and repeats are kept |
| Checklist.ImportLinesOfLine | App.tsx:158 | a single line imports as itself, or as nothing when blank |
| Checklist.ImportKeepsRepeats | App.tsx:158 | `a`, a blank line, `c`, `a` imports as `[a, c, a]`: the repeat stays and only the blank line goes |
| Checklist.ImportedTasks | App.tsx:164-168 | imported tasks carry the lines in order and satisfy the invariant with the first active; their ids are distinct and no task has details |
| Checklist.SnapshotLines | App.tsx:150 | the snapshot texts are exactly the non-empty newline-separated pieces, white-space-only ones included; each is newline-free |
| Checklist.SnapshotLinesAfterNewline | App.tsx:150 | the snapshot of `line + '\n' + rest` is `line` (unless empty) followed by the snapshot of `rest`: order and repeats are kept |
| Checklist.SnapshotLinesOfLine | App.tsx:150 | a single line is its own snapshot, or nothing when empty |
| Checklist.SnapshotTasks | App.tsx:150 | the import-mode snapshot's texts are the snapshot lines in order; every task is pending with no details, its id is its index in decimal, and ids are distinct |
| AppState.WithTasks | App.tsx:53-54 | writing one list's tasks back keeps that list's id and name and every other list |
| AppState.WithTasksKeepsProgression | App.tsx:53-54 | writing back a progression keeps every list a progression |
| AppState.InitialContext | App.tsx:149-151 | the voice snapshot is the import-text snapshot while importing, else the current list's tasks, or empty when no list exists |
| AppState.App.constructor | App.tsx:11-30 | starts in import mode with no lists, index 0 and a fresh service with every callback except onConnect set, nothing open, no output node, cursor 0 and every log empty |
| AppState.App.OnTasksUpdate | App.tsx:48-62 | in import mode only the import text changes (the texts joined by newlines); otherwise only the current list's tasks are rebuilt; the invariant is kept |
| AppState.App.OnNextStep | App.tsx:64-84 | in import mode it finishes the import, with the same outcome as `FinishImport` (no change at all when every line is blank; a running session torn down with the node, cursor, captured texts, slots and other logs kept); otherwise only the current list advances; the invariant is kept |
| AppState.App.OnUncheckTask | App.tsx:86-108 | ignored in import mode; otherwise only the current list is unchecked; the invariant is kept |
| AppState.App.OnPrevStep | App.tsx:110-125 | ignored in import mode; otherwise only the current list steps back; the invariant is kept |
| AppState.App.FinishImport | App.tsx:157-180 | with no kept line nothing changes; otherwise a list `List <n+1>` with the imported tasks is appended and selected, the text cleared and import mode left; a running session is torn down in `disconnect`'s order, keeping the output node, the cursor, the captured texts, the callback slots and the sent, fired, scheduled and abandoned logs; otherwise the service is untouched |
| AppState.App.EnterImport | App.tsx:201 | the back button enters import mode and keeps the invariant |
| AppState.App.ToggleVoice | App.tsx:139-155 | while listening, tears the session down in disconnect's order (every held resource released; output node, cursor, captured texts, slots and the other logs kept) and stops listening; otherwise, with a session already held, starts listening and leaves the service untouched; with none, connects with the initial context, opening both audio contexts and the output node, keeping the capture chain, the cursor and the sent, released and scheduled logs, and logging contexts still open as abandoned: an accepted connect leaves it listening with no error, a refused one goes through onError (App.tsx:131-134, services/geminiLiveService.ts:128-131) and ends with listening off and the failure recorded |
| AppState.App.OnError | App.tsx:131-134 | records the message and stops listening |
| AppState.App.OnDisconnect | App.tsx:136 | stops listening |
| AppState.App.Deliver | App.tsx:44-137 | routes each callback to App's handler: a task update rebuilds the list or sets the import text; next, uncheck and step back move the current list (next finishes an import); an error is recorded; a disconnect stops listening; read-details and connect change nothing; the invariant, the callback slots and the callback log are kept |
| AppState.App.Receive | services/geminiLiveService.ts:140-180 | delivers to App exactly the callbacks the message's calls fire, in order; a single `next_step` call outside import mode advances the current list |
| AppState.ListId | App.tsx:162 | the id `list-<now>` of an imported list |
| AppState.ListName | App.tsx:163 | the name `List <n+1>` of the list appended after `n` others |
| LiveService.ResultOf | services/geminiLiveService.ts:144-167 | the result is ok exactly for the five tool names, and `Unknown tool` otherwise |
| LiveService.Effect | services/geminiLiveService.ts:146-164 | a call fires its own tool's callback exactly when the name is known and that slot is set (`update_tasks` also needs `args.tasks`, passed through); unknown names fire nothing |
| LiveService.Effects | services/geminiLiveService.ts:142-168 | the callbacks a batch fires, call by call in order; `EffectsFireSetHooks` bounds them |
| LiveService.Responses | services/geminiLiveService.ts:142-178 | the responses a batch gets, call by call in order; `ResponsesOnePerCall` gives their content |
| LiveService.ResponsesOnePerCall | services/geminiLiveService.ts:142-178 | exactly one response per call, in call order, each with that call's id and name, ok exactly for known names |
| LiveService.EffectsFireSetHooks | services/geminiLiveService.ts:142-168 | every fired callback has its slot set and comes from a known call; no more callbacks than calls |
| LiveService.StartTime | services/geminiLiveService.ts:243-244 | a chunk starts at the later of the output clock and the cursor |
| LiveService.StartsGapless | services/geminiLiveService.ts:243-246 | over a run of chunks no chunk overlaps its predecessor and none starts before its clock reading; a chunk ready before its predecessor ends starts exactly at that end |
| LiveService.CaptureClosesHeld | services/geminiLiveService.ts:213-227 | stopping capture closes exactly the open processor, input source and input context, each once |
| LiveService.TeardownClosesHeld | services/geminiLiveService.ts:249-261 | teardown closes exactly the open resources, each once |
| LiveService.GeminiLiveService.constructor | services/geminiLiveService.ts:66-85 | all resources null, cursor 0, no callback set |
| LiveService.GeminiLiveService.Fire | services/geminiLiveService.ts:108 | a callback is invoked only when its slot is set |
| LiveService.GeminiLiveService.Connect | services/geminiLiveService.ts:87-132 | no-op while a session exists; otherwise opens both contexts and the output node, captures the task texts, and holds the session or reports the failure through onError; contexts that were still open are abandoned, not closed |
| LiveService.GeminiLiveService.OnOpen | services/geminiLiveService.ts:106-114 | fires onConnect, sends the captured snapshot first when a session is held, then starts capture |
| LiveService.GeminiLiveService.StartAudioStream | services/geminiLiveService.ts:183-211 | with an input context, builds the capture chain or reports that the microphone is unavailable; a chain that was already built is abandoned, not closed |
| LiveService.GeminiLiveService.OnAudioProcess | services/geminiLiveService.ts:191-203 | a captured frame is sent as `audio/pcm;rate=16000` only while a session is held, else dropped |
| LiveService.GeminiLiveService.HandleMessage | services/geminiLiveService.ts:134-181 | a non-empty audio chunk is scheduled at the later of clock and cursor when output is set up, and the cursor moves to its end; then one response per function call is sent while a session is held, and the calls' callbacks fire; no resource opens or closes |
| LiveService.GeminiLiveService.DispatchToolCall | services/geminiLiveService.ts:140-180 | sends exactly the responses for the calls, in order, when a session is held and none otherwise, and fires the calls' callbacks in order |
| LiveService.GeminiLiveService.Answer | services/geminiLiveService.ts:143-178 | one pass of the loop: the call's callback fires, then its response is sent while a session is held |
| LiveService.DispatchedStep | services/geminiLiveService.ts:142-178 | answering the next call extends the responses and the callbacks by exactly that call's |
| LiveService.CallsOf | services/geminiLiveService.ts:140-142 | the calls a message carries, none without a tool call |
| LiveService.GeminiLiveService.RunTool | services/geminiLiveService.ts:144-168 | the `switch` gives the call's result and fires its callback |
| LiveService.GeminiLiveService.PlayAudio | services/geminiLiveService.ts:229-247 | schedules nothing without output context and node; otherwise starts at the later of clock and cursor and moves the cursor to the chunk's end, so it never decreases |
| LiveService.GeminiLiveService.StopAudioStream | services/geminiLiveService.ts:213-227 | leaves processor, input source and input context null, closing each only if open, so a repeat closes nothing |
| LiveService.GeminiLiveService.OnClose | services/geminiLiveService.ts:116-121 | fires onDisconnect, stops capture, drops the session, keeps the output context |
| LiveService.GeminiLiveService.OnError | services/geminiLiveService.ts:122-125 | only reports the message (`Unknown error` when empty) |
| LiveService.GeminiLiveService.Disconnect | services/geminiLiveService.ts:249-261 | closes session, capture chain and output context in that order, each once and only if open, leaving every resource field empty (so it is idempotent); keeps the output node, the cursor and the abandoned log |
| TaskView.FilterIndex | components/TaskView.tsx:12-14 | `filter((_, i) => keep(i))`: never longer than the list; `FilterBelow` and `FilterAbove` give its result for the two tests used |
| TaskView.FilterBelow | components/TaskView.tsx:12 | filtering on `i < b` keeps the prefix of length `b`, clamped |
| TaskView.FilterAbove | components/TaskView.tsx:14 | filtering on `i > b` keeps the suffix after `b` |
| TaskView.CompletedTasks | components/TaskView.tsx:12 | the completed section is the prefix before the active task, and empty when none is active |
| TaskView.PendingTasks | components/TaskView.tsx:14 | the pending section is the suffix after the active task, and the whole list when none is active |
| TaskView.ActiveTask | components/TaskView.tsx:13 | present exactly when some task is active, and then the first active task |
| TaskView.SectionsWithActive | components/TaskView.tsx:12-14 | completed + [active] + pending is the task list |
| TaskView.SectionsWithoutActive | components/TaskView.tsx:12-14 | with no active task the completed section is empty and every task is pending |
| TaskView.AllCompleted | components/TaskView.tsx:16 | no task active, at least one task, and every task completed |
| TaskView.AllCompletedShowsTasksAsPending | components/TaskView.tsx:14-16 | when all are completed, every task still lands in the pending section |
| TaskView.AllCompletedOnProgression | components/TaskView.tsx:16 | on a progression, all-completed holds iff the list is non-empty with no active task |
| TaskView.Slice | components/TaskView.tsx:22 | `Array.prototype.slice(start, end)`: negative positions count from the end and both are clamped; `SliceLast` and `SliceFirst` give its result for the two calls used |
| TaskView.SlicePosition | components/TaskView.tsx:22 | a slice position resolves to an index within the array |
| TaskView.SliceLast | components/TaskView.tsx:22 | `slice(-m)` with positive `m` keeps the last min(m, n) elements (`slice(-0)` would keep them all) |
| TaskView.SliceFirst | components/TaskView.tsx:58 | `slice(0, m)` keeps the first min(m, n) elements |
| TaskView.VisibleCompleted | components/TaskView.tsx:22 | shows the last min(2, n) completed tasks |
| TaskView.VisiblePending | components/TaskView.tsx:58 | shows the first min(3, n) pending tasks |
| TaskView.HeroOf | components/TaskView.tsx:36-53 | exactly one of hero task (active exists), "All Done" (all completed) or "No tasks yet"; the hero is the task at the active index |
| TaskView.NoTasksOnlyWhenEmpty | components/TaskView.tsx:36-53 | on a progression "No tasks yet" appears only for an empty list |

## Left out

- `handleScroll` (App.tsx:33-41): float division and rounding over DOM scroll metrics. The App invariant assumes the current index stays in range, which the scroll geometry ensures.
- React machinery: state updaters, effect dependency lists and refs. Each handler is one atomic method on one object. Stale closures are not modelled, and neither are updaters run twice (which, with the shared `List` object being mutated, would apply a move twice). Lists are values and the current one is replaced, not mutated in place.
- `Date.now()` is one `now` parameter per handler call. The source reads it again for every task, so the ids within one list could carry different timestamps; the distinct-id lemmas assume a single reading.
- The SDK transport (`ai.live.connect`, `send`, `sendRealtimeInput`, `sendToolResponse`, `close`), the model name, the tool declarations and the session instruction text. Only the five tool names remain. What is sent is appended to `sent`. The snapshot's `JSON.stringify` text is kept as the list of texts it encodes.
- The outcome of the SDK connect and of the microphone request are parameters (`accepted` and `failure`; `micGranted`). An exception's message is a string parameter, with the empty string standing for a falsy message.
- Web Audio: contexts, gain node, script processor, `resume`, `createBufferSource`. The output clock and a decoded chunk's duration are inputs, as reals. utils/audioUtils (sample conversion, base64, PCM decoding) is not part of this model, so a chunk that fails to decode is not modelled.
- Async interleaving between `onopen`, `onmessage`, capture and playback is not modelled: each event is one atomic call. This leaves out `onopen` firing before the session is assigned, `playAudio` scheduling only after its awaits, a second `connect` during the first one's await, and callbacks that disconnect during the tool-call loop.
- Errors thrown by the source, such as `args` being null or the current list being absent, are not modelled. The App invariant rules out the second.
- Random rotations, JSX and styling in TaskView. ImportView, VoiceControl and PaginationDots are presentation only.
- AppState.App.OnNextStep: in import mode it finishes the import from the current import text and listening flag. In the program the callback's effect is re-installed only when import mode, the current index or the number of lists changes (App.tsx:137), so the `handleFinishImport` it reaches (App.tsx:66) still reads the `importText` and `isListening` of the render that entered import mode, normally `''`; a spoken `next_step` while importing then returns at App.tsx:159 and does nothing. The model follows the evidently intended behaviour, the same as the button's `FinishImport`.
- AppState.App.Deliver: for the list events it states the new lists (or import outcome) but not every other field; the handlers it routes to carry those frames.
- AppState.App.Receive: states the delivered callbacks for every message, but the resulting state only for a single `next_step` call; longer batches follow from `Deliver` applied in order.
- Each resource is a flag, so a resource abandoned by `connect` or `startAudioStream` is only recorded in the `abandoned` log; whether it later stops on its own is not modelled.
