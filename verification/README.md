# J.A.R.V.I.S. daily briefing — a Dafny model of its core

The application is a personal-assistant dashboard. The user signs in and
picks an exported WhatsApp chat. The input screen then builds one labelled
corpus from a built-in email sample and that export. It sends the corpus
to four Gemini extraction calls: a bulleted summary, tasks, calendar
events and insights. It saves the resulting briefing for the day under
the user's id and hands it to the app. The dashboard shows:

- the summary's bullet lines;
- a task list whose items toggle;
- the day's events with day and hour labels.

A chat screen streams the assistant's reply chunk by chunk into the
transcript. The app shows a reminder at most once per day when no
briefing exists yet.

The model is split into one module per source file:

| module | what it holds |
|---|---|
| `GeminiService` | The Gemini service is abstracted into two parts. The first is a reply oracle per request kind and corpus. The second is a stream outcome: it completes with its chunks, or it fails after some chunks. `JSON.parse` is a partial function parameter. The four extraction wrappers are functions. The lazily created chat handle and the streaming loop are a class, `ChatSession`. |
| `DataSourceInput` | The input screen is a class. Alerts, the save and the `onDataGenerated` call are recorded in one ordered effect log. The corpus template and the all-or-nothing join are functions. |
| `ConversationalUI` | The chat screen's transcript, input and loading flag. The chunk updater is a function that `handleSend` hands to the stream loop. |
| `TaskList` | Toggle by id and the completed count as functions. The component's task state is a class. |
| `App` | The auth callback, the reminder rule, `handleDataGenerated` and view routing. |
| `SummaryCard` | Bullet extraction. |
| `CalendarWidget` | The day and hour labels, the participant list and the schedule. |
| `JsStrings` | The JavaScript string built-ins these use: `trim`, `startsWith`, `split` and `join`, plus a first-occurrence search (`IndexOf`) that `split` is defined with; the source itself never calls `indexOf`. |
| `Types`, `Wrappers` | The records of `types.ts` and `firestoreService.ts`, and `Option`/`Result`. |

## Model

| member | source | states |
|---|---|---|
| JsStrings.LeadingSpace | components/DataSourceInput.tsx:83 | the whitespace run that `trim` removes at the front: every character in it is ECMAScript whitespace, and the character after it is not |
| JsStrings.TrailingSpace | components/DataSourceInput.tsx:87 | the whitespace run that `trim` removes at the back, described the same way |
| JsStrings.Trim | components/ConversationalUI.tsx:30 | `trim` returns the contiguous slice left after the leading run; only whitespace follows it; it neither starts nor ends with whitespace; it is empty exactly when the input is all whitespace |
| JsStrings.TrimIdempotent | components/dashboard/SummaryCard.tsx:19 | trimming twice is trimming once |
| JsStrings.IndexOf | components/dashboard/CalendarWidget.tsx:32 | the first occurrence of a separator: the separator occurs there and at no earlier index; none is found exactly when the separator does not occur |
| JsStrings.Split | components/dashboard/SummaryCard.tsx:18 | `split` with a non-empty separator gives at least one piece, and no piece contains the separator |
| JsStrings.JoinSplit | components/dashboard/SummaryCard.tsx:18 | joining the pieces of a split with the same separator gives back the original text, so no characters are lost and the pieces keep their order |
| JsStrings.SplitHead | components/dashboard/CalendarWidget.tsx:31 | the first piece is the text before the first separator, or the whole text when there is none |
| JsStrings.SplitSecond | components/dashboard/CalendarWidget.tsx:32 | the second piece starts right after the first separator and runs to the next separator or to the end |
| JsStrings.ConcatAppend | components/ConversationalUI.tsx:44 | concatenating chunk sequences distributes over appending them |
| GeminiService.GetAI | services/geminiService.ts:6-11 | a client exists exactly when an `API_KEY` is set and non-empty; otherwise the error carries the fixed message; the check runs on every call |
| GeminiService.GenerateDailySummary | services/geminiService.ts:26-39 | the service text when a key is set and the service answers; exactly the fixed apology on any failure, including a missing key |
| GeminiService.ExtractArray | services/geminiService.ts:41-70 | shared shape of the three array wrappers: the parsed array unchanged on success; `[]` when the key is missing, the service fails or `JSON.parse` fails |
| GeminiService.GenerateTasks | services/geminiService.ts:41-70 | the tasks parsed from the service's reply on success, `[]` on any failure |
| GeminiService.GenerateCalendarEvents | services/geminiService.ts:73-102 | the events parsed from the service's reply on success, `[]` on any failure |
| GeminiService.GenerateInsights | services/geminiService.ts:105-133 | the insights parsed from the service's reply on success, `[]` on any failure |
| GeminiService.MissingKeyDegradesAll | services/geminiService.ts:6-11 | without a key, the summary is the apology and the three arrays are empty, whatever the service would have answered |
| GeminiService.NoShapeCheck | services/geminiService.ts:41-133 | the three array wrappers add no shape check of their own: whatever lists `JSON.parse` yields for tasks, events and insights (repeated ids, empty texts, any length) come back exactly as parsed |
| GeminiService.Chat.constructor | services/geminiService.ts:16-17 | a created chat uses the `gemini-2.5-flash` model |
| GeminiService.DeliveredText | services/geminiService.ts:143-149 | the delivered text is the stream's text when it completes; the received chunks plus the apology when it fails; only the apology when no chat can be had |
| GeminiService.Delivered | services/geminiService.ts:139-149 | the calls made to `onChunk`: with a chat, the stream's chunks come first and in order; one apology is added exactly when the stream fails or no chat can be had, and it is the last call |
| GeminiService.ChatSession.constructor | services/geminiService.ts:4 | the module starts with no chat handle |
| GeminiService.ChatSession.GetChatInstance | services/geminiService.ts:13-24 | an existing handle is returned and kept; with none, a key creates a fresh handle, which is stored; without a key the call fails and the handle stays null, so the next call tries again |
| GeminiService.ChatSession.StreamChatResponse | services/geminiService.ts:135-150 | `onChunk` is called once per chunk, in stream order, with nothing merged; a stream that fails after k chunks gets exactly one apology call after them; a missing key gives only the apology and leaves the handle null, so a later call retries; an existing handle is kept; it always returns normally, and the final state is the callback folded over exactly those calls |
| DataSourceInput.SectionLayout | components/DataSourceInput.tsx:82-84 | a corpus section is its opening marker, a line break, the text, a line break, its end marker and a closing line break, at those exact positions |
| DataSourceInput.LabelledLayout | components/DataSourceInput.tsx:81-89 | the corpus starts with a line break, so its first line is blank; the email marker, the email text and its end marker come next; two line breaks (the end of that line and a blank line) separate it from the WhatsApp marker, the WhatsApp text and its end marker, whose line (closed by a final line break) ends the corpus; the email section lies wholly before the WhatsApp section |
| DataSourceInput.LabelledEnd | components/DataSourceInput.tsx:88-89 | the corpus is never empty and its last character is the line break that closes the WhatsApp end marker's line |
| DataSourceInput.WhatsappRoundTrip | components/DataSourceInput.tsx:81-89 | for any email text and any WhatsApp text put into the template, reading the WhatsApp section back gives that WhatsApp text unchanged, whatever it contains |
| DataSourceInput.CombinedData | components/DataSourceInput.tsx:81-89 | the corpus built from an export holds the trimmed export in its WhatsApp section: reading it back gives `Trim(export)`, so trimming is all that happens to the export |
| DataSourceInput.JoinAll | components/DataSourceInput.tsx:92-99 | `Promise.all` and the record literal: a briefing exists exactly when all four calls fulfil, and its fields are the four results in order |
| DataSourceInput.AllOrNothing | components/DataSourceInput.tsx:91-105 | if any call rejects, nothing is saved or handed on and only an alert is raised; if all fulfil, the briefing is saved under the user's id and then handed on (the effects of the `try`/`catch` are spelled out by the helper `SubmitEffects`, lines 99-105) |
| DataSourceInput.ExtractionsNeverReject | components/DataSourceInput.tsx:103-105 | the four wrappers never reject, so the join always yields the briefing and the error alert is unreachable |
| DataSourceInput.DataSourceInputState.constructor | components/DataSourceInput.tsx:52-54 | the screen starts with the current user, no file and no submission under way |
| DataSourceInput.DataSourceInputState.HandleFileChange | components/DataSourceInput.tsx:56-60 | the first selected file is kept; an empty or missing selection keeps the previous file |
| DataSourceInput.DataSourceInputState.HandleAuth | components/DataSourceInput.tsx:62-70 | a successful sign-in sets the user; a failed one leaves the user and only alerts |
| DataSourceInput.DataSourceInputState.SubmitDisabled | components/DataSourceInput.tsx:148 | the submit button is disabled when there is no file or a submission is under way, and enabled once a file is picked and no submission runs |
| DataSourceInput.DataSourceInputState.HandleSubmit | components/DataSourceInput.tsx:72-109 | no file or no user: only the alert, nothing generated, saved or handed on. A failed file read leaves `isSubmitting` set and nothing else happens. Otherwise the four calls run on the labelled corpus; the briefing of their results is saved under the user's id, then handed on, and the flag is cleared |
| ConversationalUI.AppendChunk | components/ConversationalUI.tsx:40-48 | a chunk extends the last message only when its role is `model`; the length and all earlier messages stay the same; otherwise the transcript is unchanged |
| ConversationalUI.AppendChunks | components/ConversationalUI.tsx:37-49 | after chunks c1..cn the last model message's text is its old text followed by c1+…+cn in delivery order, and every earlier message is unchanged |
| ConversationalUI.ReplyTranscript | components/ConversationalUI.tsx:32-48 | after the user message and the empty model message, the delivered chunks fill the model message with their concatenation, and every earlier message is unchanged |
| ConversationalUI.ChunksIgnored | components/ConversationalUI.tsx:47 | when the last message is not a model message, no chunk changes the transcript |
| ConversationalUI.ChatPanel.constructor | components/ConversationalUI.tsx:13-15 | an empty transcript, an empty input, not loading |
| ConversationalUI.ChatPanel.SetInput | components/ConversationalUI.tsx:82 | typing replaces the input text |
| ConversationalUI.ChatPanel.SendDisabled | components/ConversationalUI.tsx:91 | the send button is disabled exactly when a reply is loading or the input is all whitespace |
| ConversationalUI.ChatPanel.HandleSend | components/ConversationalUI.tsx:29-53 | exactly when the send button is disabled (blank input or a reply in progress) nothing changes. Otherwise exactly two messages are appended: the untrimmed input as a user message, then a model message whose text is the in-order concatenation of the delivered chunks. The original input is what is sent, though the field is cleared first; loading ends once the stream call returns; the chat handle is created if a key allows, kept if it existed, and left null otherwise |
| TaskList.ToggleByIdAt | components/TaskList.tsx:40-42 | toggling keeps the length and order; every task whose id matches has only `isCompleted` negated; every other task is unchanged |
| TaskList.ToggleAbsent | components/TaskList.tsx:40-42 | toggling an id that no task has leaves the list as it was |
| TaskList.ToggleTwice | components/TaskList.tsx:41 | toggling the same id twice restores the original list |
| TaskList.ToggleById | components/TaskList.tsx:40-42 | toggling keeps the length and every task's id in place |
| TaskList.ToggleCount | components/TaskList.tsx:39-47 | toggling the id of exactly one task moves the completed count by one: down when it was completed, up when it was open |
| TaskList.CompletedCount | components/TaskList.tsx:47 | the completed count is at most the length; it equals the length exactly when all tasks are completed, and is 0 exactly when none is |
| TaskList.CompletedCountOne | components/TaskList.tsx:47 | a single task counts 1 when it is completed and 0 otherwise |
| TaskList.CompletedCountAppend | components/TaskList.tsx:47 | counts add up over appended lists, so with `CompletedCountOne` the count is the number of completed tasks |
| TaskList.RatioBounds | components/TaskList.tsx:49 | a part over a larger whole lies between 0 and 1, and is 1 only when the part is the whole |
| TaskList.Progress | components/TaskList.tsx:49 | progress lies between 0 and 100; it is 0 for an empty list; for a non-empty list it is 100 exactly when every task is completed |
| TaskList.TaskListState.constructor | components/TaskList.tsx:33 | the list starts empty and nothing has been published |
| TaskList.TaskListState.SyncInitialTasks | components/TaskList.tsx:35-37 | the effect replaces the list with the incoming tasks |
| TaskList.TaskListState.HandleToggleTask | components/TaskList.tsx:39-45 | the new list is the toggled old list, and exactly that list is published to `onTasksUpdate` |
| TaskList.TaskListState.CompletedTasks | components/TaskList.tsx:47-48 | `completedTasks <= totalTasks` (the helper `TotalTasks` is the list's length, line 48), and `completedTasks` is the completed count of the current list |
| App.DayKeyOfTimestamp | App.tsx:29 | for an ISO 8601 timestamp as `toISOString` writes it, the day key is its first ten characters, a `YYYY-MM-DD` calendar date in UTC |
| App.DayKey | App.tsx:29 | the day key is the prefix of the timestamp up to its first `T`, holds no `T`, and is the whole text when there is none |
| App.SameDaySignIns | App.tsx:27-33 | two sign-ins on the same UTC day, with the reminder closed in between: the first shows the reminder exactly when it is due (no briefing, stored date not today); the two never both show it; once shown, the stored date is that day, and otherwise it is unchanged |
| App.AppState.constructor | App.tsx:15-19 | the dashboard view, no user, no data, auth loading, no reminder; the stored reminder date is read in |
| App.AppState.OnAuthStateChanged | App.tsx:21-41 | the user is always set and auth loading always ends. Signing out clears the data. Signing in stores the fetched data. The reminder fires and today is stored only when there is no data for today and the stored date differs from today. Otherwise neither the flag nor the stored date changes |
| App.AppState.HandleDataGenerated | App.tsx:57-59 | the data is replaced by the given briefing |
| App.AppState.SetCurrentView | App.tsx:15 | switches the view |
| App.AppState.CloseReminder | App.tsx:113 | hides the reminder |
| App.AppState.RenderView | App.tsx:69-98 | in priority order: the spinner while auth is loading; the input screen without a user; the chat for the chat view; otherwise the dashboard with the stored data if there is any, else the input screen |
| SummaryCard.FirstMarker | components/dashboard/SummaryCard.tsx:20 | the first `*` or `-` on the line: no marker occurs before it; there is none exactly when the line has no marker |
| SummaryCard.StripMarker | components/dashboard/SummaryCard.tsx:20 | a line without a marker is unchanged; otherwise the result is the text before the first marker followed by the text after the marker and a run of whitespace, so exactly the marker and that run are removed; the run is maximal, as the greedy `\s*` requires, since the next character left is not whitespace |
| SummaryCard.BulletMarker | components/dashboard/SummaryCard.tsx:19 | a line whose trimmed form starts with `*` or `-` has that marker as its first non-whitespace character |
| SummaryCard.BulletText | components/dashboard/SummaryCard.tsx:19-20 | on a bullet line the first marker is the first character after the leading whitespace; the bullet text keeps that whitespace and drops the marker and the whitespace after it |
| SummaryCard.LineBullet | components/dashboard/SummaryCard.tsx:19-22 | a line yields at most one bullet |
| SummaryCard.BulletsOf | components/dashboard/SummaryCard.tsx:18-23 | there are never more bullets than lines |
| SummaryCard.BulletsOfAppend | components/dashboard/SummaryCard.tsx:18 | bullets come out in line order: the bullets of two blocks of lines are the first block's followed by the second's |
| SummaryCard.BulletsOfLine | components/dashboard/SummaryCard.tsx:19-22 | a line yields its stripped text exactly when its trimmed form starts with `*` or `-` (the helper predicate `IsBulletLine`, line 19), and nothing otherwise |
| SummaryCard.Bullets | components/dashboard/SummaryCard.tsx:18-23 | the summary's bullet count is at most its line count |
| CalendarWidget.DayLabel | components/dashboard/CalendarWidget.tsx:31 | the day label is a prefix of the time text with no space in it: the whole text when it has no space, otherwise the text up to its first space |
| CalendarWidget.HourLabel | components/dashboard/CalendarWidget.tsx:32 | absent exactly when the time text has no ` at `; otherwise the text after the first ` at `, up to the next ` at ` or the end: that next occurrence starts at no earlier index, so the label is exactly the second piece of the split |
| CalendarWidget.ParticipantsLabel | components/dashboard/CalendarWidget.tsx:36 | no participants give an empty text; otherwise the text starts with the first participant |
| CalendarWidget.ParticipantsRoundTrip | components/dashboard/CalendarWidget.tsx:36 | a non-empty list of participants joined with `, ` splits back into the same list, in order, when no name contains `, ` |
| CalendarWidget.RenderSchedule | components/dashboard/CalendarWidget.tsx:28-43 | the "schedule is clear" placeholder exactly when there are no events; otherwise one row per event, in input order, each built by the helper `RowOf` (lines 29-37) from the day label, hour label, title and joined participants |

## Left out

- The Gemini network calls, prompts, response schemas and the system instruction. The service is a parameter: a reply per request kind and corpus, and a stream outcome for the chat.
- Wrong-shaped JSON: `JSON.parse` is a partial function to the declared element type. A value of a different shape therefore cannot be represented. What can be shown is that the code adds no check of its own (`NoShapeCheck`).
- Firestore I/O in `services/firestoreService.ts`. The save is an entry in the effect log. `saveDashboardData` swallows its own errors, so a failed save cannot be observed and is not modelled.
- Firebase authentication. The result of `signInWithPopup` and the user passed to `onAuthStateChanged` are parameters. `handleLogout` is not modelled, because it only calls `signOut`.
- `localStorage` is the field `lastReminderDate`. The wall clock is an ISO timestamp parameter to `OnAuthStateChanged`.
- Promise scheduling and the interleaving of `Promise.all`. The join is all-or-nothing over four settled outcomes.
- ChatPanel.HandleSend: does not state that `isLoading` is true while the stream runs, because the chunk callback is a pure updater applied inside the stream loop, so no one observes the screen mid-stream.
- The chat history that the Gemini chat object keeps is not modelled. `ChatSession.sent` records the messages sent on it.
- TaskList.Progress: exact real arithmetic instead of a JavaScript double, so rounding is not modelled.
- All JSX rendering, icons, focus handling and logging.
- Dashboard forwards each toggled task list to `updateTasksForToday` (components/Dashboard.tsx:18-22), a store write left out with the rest of Firestore; the model's `HandleToggleTask` records the published list and stops there.
- Notification keeps its own visibility flag and calls `onClose` only after a 300 ms timer (components/Notification.tsx:10-22); `App.AppState.CloseReminder` collapses the fade-out and the timer into one step, so the model does not capture the interval in which the reminder is fading but `showReminder` is still true.
- Sidebar and InsightsWidget only render what they are given.
- The `launchQueue` share-target handler in `App.tsx`, which only logs the shared file.
- The `finally` of `handleSubmit` after a rejected join is not modelled separately, because the join cannot reject (`ExtractionsNeverReject`).

## Notes on the code

- The day key is the date part of `toISOString()`. That is the UTC date, not the local one, so near midnight the reminder's day can differ from the user's calendar day. The model follows the code.
- The `catch` of `handleSubmit` cannot be reached through the four extraction wrappers, since each catches its own errors.
- The file read in `handleSubmit` sits outside its `try`. A failed read therefore leaves the submit button disabled until the screen is remounted.
