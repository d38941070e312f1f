# OneVerse AI — a verified model of the state logic

OneVerse AI is a single-page React application that puts several generative-AI
tools (chat, tone-controlled writing, code generation, image generation) and two
local tools (a planner and a notes store) behind one chat-session interface.
Underneath the JSX there is a small layer of list-and-state logic, and that layer
is modelled here in Dafny:

- the **session store** of `App.tsx`: the ordered session list (newest first), the
  ephemeral active id, create / delete / rename / replace-log, the selection
  effect, and the two derived views (active tool, header title);
- the **generation lifecycle** of `pages/UnifiedChat.tsx` and `pages/AIChat.tsx`:
  the user message and the AI placeholder appended on submit, the streamed fold of
  chunks into the placeholder under a cooperative stop flag, the one-shot patches
  for writer / code / image results, the failure text on an exception, and the
  busy and stop flags that always end cleared;
- the **planner** task list, the **notes** store with its search view (a
  case-insensitive substring filter, sorted newest first by a stable sort), the
  sidebar's **rename editor**, and the **image page** with its download file name.

Every React component is a `class` whose fields are the state its handlers read
and write (`useState`, `useLocalStorage`, `useRef`); every handler is a `method` that says, in
`ensures`, the whole new state. The list computations (`filter`, `map`, `find`,
`sort`, the reverse search) are module functions, and the lemmas beside them state
what the application relies on: membership, order, "nothing else changes",
permutation, stability, idempotence and the shape of the message log after a send.

The generation gateway (`services/geminiService.ts`) talks to a remote provider
and is not part of this model. Its answers are inputs: `Gateway.Reply` carries the
chunks a chat stream yields, the index before which the user's Stop press lands,
the writer/coder result text, the image result (`null` as `None`), and whether the
awaited call raises. Clock-derived ids and timestamps (`Date.now()`) are parameters.

Modules: one per core source file (`App`, `UnifiedChat`, `AIChat`, `Planner`,
`Notes`, `Sidebar`, `AIImageGenerator`), plus the helper modules `Types`
(types.ts), `Lists` (the generic `filter` and "map where" used by every store),
`Text` (`trim`, `\s`, `toLowerCase`, `includes`) and `Gateway` (the generation
gateway as its callers see it).

Four behaviours of the code shape the model: `updateMessages` replaces the log of
the *active* session (App.tsx:50-56); the UnifiedChat send guard trims the input
(pages/UnifiedChat.tsx:55); the AIChat placeholder carries no tool
(pages/AIChat.tsx:116); and exceptions are caught by the page handlers, so a
gateway call in the model may raise (pages/UnifiedChat.tsx:105-107,
pages/AIChat.tsx:126-128).

## Model

| member | source | states |
|---|---|---|
| Types.ToolName | types.ts:2-9 | every tool has a non-empty display string (the enum's values) |
| Lists.Filter | App.tsx:39 | the survivors of a filter all satisfy the predicate, are no more than the input, and strictly fewer when some element fails it |
| Lists.MapWhere | App.tsx:47 | the map keeps the length and replaces exactly the matching elements, position by position |
| Lists.FilterMembership | App.tsx:39 | an element survives the filter iff it was in the list and satisfies the predicate |
| Lists.FilterConcat | App.tsx:39 | filtering distributes over concatenation, so the survivors keep their relative order |
| Lists.FilterKeepsAll | App.tsx:39 | when every element satisfies the predicate the filter removes nothing |
| Lists.FilterDropsAll | App.tsx:39 | when no element satisfies the predicate the filter is empty |
| Lists.FilterSubMultiset | App.tsx:39 | the survivors, counted with multiplicity, are among the input's elements |
| Lists.MapWhereNoMatch | App.tsx:47 | when no element matches, the map leaves the list unchanged |
| Text.TrimStartSpec | pages/UnifiedChat.tsx:55 | trimming the start keeps a suffix not starting with white space, and everything cut is white space |
| Text.TrimEndSpec | pages/UnifiedChat.tsx:55 | trimming the end keeps a prefix not ending with white space, and everything cut is white space |
| Text.TrimShape | pages/UnifiedChat.tsx:55 | `trim()` yields a contiguous piece of the input that neither starts nor ends with white space, with only white space cut on either side |
| Text.TrimEmptyIff | pages/UnifiedChat.tsx:55 | `s.trim()` is empty iff `s` is white space only |
| Text.TrimOfTrimmed | pages/Planner.tsx:15 | a string with no white space at either end is its own trim |
| Text.TrimIdempotent | pages/Planner.tsx:15 | trimming twice equals trimming once |
| Text.ToLower | pages/Notes.tsx:16-17 | lower-casing keeps the length and maps each character on its own |
| Text.ContainsIff | pages/Notes.tsx:16-17 | `includes` holds iff the term occurs at some position |
| Text.ContainsEmpty | pages/Notes.tsx:16-17 | every string includes the empty string |
| Gateway.ToHistory | pages/UnifiedChat.tsx:73-76 | the history has one entry per message, in order, with the text kept and role 'user' exactly for user messages |
| Gateway.FoldedCount | pages/UnifiedChat.tsx:80-81 | the number of chunks folded is the stop index or the stream length, whichever comes first |
| Gateway.ConcatAppend | pages/UnifiedChat.tsx:82 | the running concatenation of a split chunk list is the concatenation of its parts |
| Gateway.StreamTextUnstopped | pages/UnifiedChat.tsx:78-84 | without a Stop press the reply is every chunk concatenated in emission order |
| Gateway.StreamTextPrefix | pages/UnifiedChat.tsx:80-84 | stopping earlier keeps a prefix of what stopping later keeps |
| Gateway.StreamTextIgnoresLaterChunks | pages/UnifiedChat.tsx:80-84 | chunks after the stop point never reach the reply |
| Gateway.StreamExample | pages/UnifiedChat.tsx:78-84 | the chunks "Hel", "lo" fold to "Hello"; stopped after one they leave "Hel" |
| App.FindSession | App.tsx:15 | finding fails iff no session's id strictly equals the active id (a null id finds nothing); a hit is a stored session with that id |
| App.FindSessionFirst | App.tsx:15 | the search returns the first session carrying the id |
| App.LastUserMessage | App.tsx:60 | the reverse search fails iff no message is from the user; a hit is a user message of the log |
| App.LastUserMessageAt | App.tsx:60 | the reverse search returns the most recent user message |
| App.ActiveToolSpec | App.tsx:15-16 | the active tool is the tool of the active session's last message, and Chat when the log is empty or that message has no tool |
| App.ActiveToolNoSession | App.tsx:16 | without an active session the active tool is Chat |
| App.HeaderTitleNoSession | App.tsx:58-59 | without an active session the header reads "OneVerse AI" |
| App.HeaderTitleLastUser | App.tsx:58-64 | with an active session the header names the tool of the most recent user message, or "AI Chat" if it has none |
| App.HeaderTitleNoUser | App.tsx:58-64 | with an active session but no user message the header reads "AI Chat" |
| App.RemoveSessionMembership | App.tsx:39 | delete removes exactly the sessions with the id |
| App.RemoveSessionConcat | App.tsx:39 | delete works piece by piece, so the other sessions keep their order |
| App.RemoveSessionAbsent | App.tsx:39 | deleting an id no session has changes nothing |
| App.RenameSession | App.tsx:46-48 | rename changes only the titles of the sessions with the id; ids, logs, timestamps and order are kept; an absent id changes nothing |
| App.ReplaceMessages | App.tsx:50-56 | without a truthy active id nothing changes; otherwise exactly the sessions with that id get the new log, everything else and the order are kept |
| App.ReplaceMessagesLastWins | App.tsx:50-56 | two log replacements amount to the second one |
| App.FindAfterReplace | App.tsx:50-56 | after a log replacement the active session is found again, carrying the new log |
| App.AppState.constructor | App.tsx:12-13 | the store starts from the persisted sessions with no active id |
| App.AppState.HandleNewSession | App.tsx:26-36 | one session titled "New Chat" with an empty log is prepended before the old sessions, in order, and becomes active |
| App.AppState.HandleDeleteSession | App.tsx:38-44 | the sessions with the id go; if it was active the first remaining session, or none, becomes active; otherwise the active id is kept |
| App.AppState.HandleRenameSession | App.tsx:46-48 | the list becomes its renaming; the active id is kept |
| App.AppState.UpdateMessages | App.tsx:50-56 | the list becomes its log replacement for the active id; the active id is kept |
| App.AppState.SelectSession | App.tsx:72 | picking a session makes its id active and leaves the list alone |
| App.AppState.SelectionEffect | App.tsx:18-24 | sessions without an active id select the first; no sessions create one, which becomes active; afterwards the list is never empty |
| UnifiedChat.CanSendIff | pages/UnifiedChat.tsx:55 | a submit goes through iff the input holds a non-white-space character and the tool is neither Planner nor Notes |
| UnifiedChat.CompletedSpec | pages/UnifiedChat.tsx:70-107 | the AI message keeps the placeholder's id, sender and tool and gets: the failure text on an exception; the folded chunks for Chat; the result text for Writer; the code and an empty text for Code; the url and an empty text, or the failure text, for Image |
| UnifiedChat.SendLogShape | pages/UnifiedChat.tsx:58-68 | the log after a send is the prior messages, unchanged, then exactly the user's message (untrimmed input, tool) and the AI message |
| UnifiedChat.ChatRequestHistory | pages/UnifiedChat.tsx:73-79 | a chat turn sends the input and, as history, the prior messages in order with the user/model role mapping |
| UnifiedChat.UnifiedChatState.constructor | pages/UnifiedChat.tsx:37-48 | the page starts idle with empty input, tool Chat, tone Casual, language "javascript", ratio 1:1 |
| UnifiedChat.UnifiedChatState.SetInput | pages/UnifiedChat.tsx:211 | the input becomes the typed text |
| UnifiedChat.UnifiedChatState.SelectTool | pages/UnifiedChat.tsx:201 | the active tool becomes the picked one |
| UnifiedChat.UnifiedChatState.HandleStop | pages/UnifiedChat.tsx:114-116 | Stop raises the stop flag |
| UnifiedChat.UnifiedChatState.FoldStream | pages/UnifiedChat.tsx:78-84 | after the loop the log holds the placeholder with the concatenation of the chunks read before the stop flag was seen, and the flag is raised iff Stop landed inside the stream |
| UnifiedChat.UnifiedChatState.Complete | pages/UnifiedChat.tsx:70-107 | the try / switch / catch leaves the log with the completed AI message after the user's message, and the stop flag is raised iff a chat stream that did not raise was stopped inside the stream |
| UnifiedChat.UnifiedChatState.Begin | pages/UnifiedChat.tsx:57-68 | the stop flag clears, the user message and then the placeholder are appended, the input clears and the page goes busy |
| UnifiedChat.UnifiedChatState.Send | pages/UnifiedChat.tsx:57-111 | an accepted submit makes the tool's gateway call with the prior log, leaves the active session's log as the send log, clears the input and ends idle with the stop flag down |
| UnifiedChat.UnifiedChatState.HandleSend | pages/UnifiedChat.tsx:54-112 | a rejected submit changes nothing and calls nothing; an accepted one makes the tool's gateway call, leaves the active session's log as the send log, clears the input and ends idle with the stop flag down |
| AIChat.MessageTextSpec | pages/AIChat.tsx:100-101 | the text sent is the trimmed argument if one was given, else the trimmed input, and it is empty iff that source is white space only |
| AIChat.SetTextWhereSpec | pages/AIChat.tsx:124 | an id-targeted update changes only the text of the messages carrying the id |
| AIChat.SetTextWhereLastWins | pages/AIChat.tsx:121-125 | a later chunk's update overrides an earlier one |
| AIChat.ChatLogFresh | pages/AIChat.tsx:104-133 | with a fresh placeholder id the log ends as the prior messages, the user's trimmed message and the placeholder carrying the folded text or the failure text |
| AIChat.ChatLogOnlyPlaceholderText | pages/AIChat.tsx:116-128 | whatever the ids, a send changes only the text of messages carrying the placeholder id in the appended log |
| AIChat.AIChatState.constructor | pages/AIChat.tsx:53-60 | the page starts idle from the persisted log with empty input |
| AIChat.AIChatState.SetInput | pages/AIChat.tsx:175 | the input becomes the typed text |
| AIChat.AIChatState.HandleStop | pages/AIChat.tsx:136-138 | Stop raises the stop flag |
| AIChat.AIChatState.ClearChat | pages/AIChat.tsx:201 | Clear Chat empties the log only when not busy |
| AIChat.AIChatState.FoldStream | pages/AIChat.tsx:118-125 | after the loop the messages carrying the placeholder id hold the chunks read before the stop flag was seen (nothing changes when no chunk was read), and the stop flag is raised iff Stop landed inside the stream |
| AIChat.AIChatState.HandleSend | pages/AIChat.tsx:99-134 | an empty trimmed text changes nothing; otherwise the stream is asked with the prior log as history, the log ends as the chat log, the input clears and the page ends idle with the stop flag down |
| Planner.CompletedCount | pages/Planner.tsx:32-33 | the completed count is at most the total |
| Planner.ToggleSpec | pages/Planner.tsx:22-26 | toggling flips `completed` exactly in the tasks with the id; ids, texts, order and length are kept |
| Planner.ToggleTwice | pages/Planner.tsx:22-26 | toggling the same id twice restores the list |
| Planner.DeleteMembership | pages/Planner.tsx:28-30 | a task survives deletion iff it was there with another id |
| Planner.DeleteConcat | pages/Planner.tsx:28-30 | deletion keeps the other tasks in order |
| Planner.DeleteAbsent | pages/Planner.tsx:28-30 | deleting an absent id changes nothing |
| Planner.CompletedCountAll | pages/Planner.tsx:32-33 | the completed count equals the total iff every task is completed |
| Planner.CompletedCountPrepend | pages/Planner.tsx:13-18 | a newly added (open) task leaves the completed count unchanged |
| Planner.PlannerState.constructor | pages/Planner.tsx:8-9 | the page starts from the persisted tasks with an empty input |
| Planner.PlannerState.SetNewTaskText | pages/Planner.tsx:45 | the input becomes the typed text |
| Planner.PlannerState.AddTask | pages/Planner.tsx:11-20 | white space only changes nothing; otherwise one open task with the trimmed text is prepended and the input clears |
| Planner.PlannerState.ToggleTask | pages/Planner.tsx:22-26 | the list becomes its toggling by the id |
| Planner.PlannerState.DeleteTask | pages/Planner.tsx:28-30 | the list becomes its deletion by the id |
| Planner.PlannerState.Progress | pages/Planner.tsx:32-33 | the progress line shows the completed count and the total, completed never above total |
| Notes.InsertPermutes | pages/Notes.tsx:19 | an insertion adds exactly one occurrence of the note |
| Notes.InsertSorted | pages/Notes.tsx:19 | inserting into a newest-first list keeps it newest first |
| Notes.SortPermutes | pages/Notes.tsx:19 | the sort is a permutation |
| Notes.SortSorted | pages/Notes.tsx:19 | the sort puts the notes newest first |
| Notes.InsertStable | pages/Notes.tsx:19 | an insertion keeps the relative order of the notes sharing a timestamp |
| Notes.SortStable | pages/Notes.tsx:19 | the sort is stable: notes with equal timestamps keep their relative order |
| Notes.FilteredNotesSpec | pages/Notes.tsx:13-20 | a note is shown iff it is stored and its lower-cased title or content contains the lower-cased term; the view is newest first and a permutation of the matching notes |
| Notes.FilteredNotesEmptyTerm | pages/Notes.tsx:13-20 | an empty search shows every note, newest first |
| Notes.ReplaceByIdSpec | pages/Notes.tsx:34 | saving an edit replaces exactly the notes with its id; the rest and the order are kept |
| Notes.DeleteByIdMembership | pages/Notes.tsx:41 | a note survives deletion iff it was stored with another id |
| Notes.NotesState.constructor | pages/Notes.tsx:8-11 | the page starts from the persisted notes, nothing open, empty search |
| Notes.NotesState.SetSearchTerm | pages/Notes.tsx:87 | the search term becomes the typed text |
| Notes.NotesState.Visible | pages/Notes.tsx:13-20 | the grid shows exactly the stored notes that match, newest first |
| Notes.NotesState.HandleNewNote | pages/Notes.tsx:22-25 | an empty draft stamped now is opened in creating mode |
| Notes.NotesState.SelectNote | pages/Notes.tsx:99 | clicking a card opens that note |
| Notes.NotesState.EditTitle | pages/Notes.tsx:61 | the open note's title changes; without one nothing happens |
| Notes.NotesState.EditContent | pages/Notes.tsx:67 | the open note's content changes; without one nothing happens |
| Notes.NotesState.Cancel | pages/Notes.tsx:71 | Cancel closes the editor |
| Notes.NotesState.HandleSaveNote | pages/Notes.tsx:27-38 | no open note or a blank title changes nothing; a draft is prepended with a fresh id and time; an edit replaces by id; then the editor closes |
| Notes.NotesState.HandleDeleteNote | pages/Notes.tsx:40-46 | the notes with the id go; the editor closes only if the open note has that id |
| Sidebar.ConfirmRequestSpec | components/Sidebar.tsx:31-34 | a confirm renames iff a non-empty id is being edited and the text holds a non-white-space character; it renames that id to a title with no white space at either end |
| Sidebar.SidebarState.constructor | components/Sidebar.tsx:23-24 | nothing is being renamed at first |
| Sidebar.SidebarState.StartRename | components/Sidebar.tsx:26-29 | the session's id is being renamed, starting from its title |
| Sidebar.SidebarState.EditRenameText | components/Sidebar.tsx:72 | the rename text becomes the typed text |
| Sidebar.SidebarState.ConfirmRename | components/Sidebar.tsx:31-37 | the rename issued is the confirm request of the old state; afterwards nothing is being renamed and the text is empty |
| Sidebar.SidebarState.CancelRename | components/Sidebar.tsx:39-42 | nothing is being renamed and the text is empty |
| Sidebar.SidebarState.KeyDown | components/Sidebar.tsx:73-76 | Enter confirms, Escape cancels, any other key changes nothing and renames nothing |
| AIImageGenerator.ReplaceRunsNoSpace | pages/AIImageGenerator.tsx:34 | the replacement leaves no white space and never lengthens the text |
| AIImageGenerator.ReplaceRunsNoSpaceUnchanged | pages/AIImageGenerator.tsx:34 | text without white space is left as it is |
| AIImageGenerator.ReplaceSpaceRunsIdempotent | pages/AIImageGenerator.tsx:34 | replacing twice is replacing once |
| AIImageGenerator.ReplaceRunsSplit | pages/AIImageGenerator.tsx:34 | a text ending in a non-white-space character is replaced independently of what follows |
| AIImageGenerator.ReplaceRunsRun | pages/AIImageGenerator.tsx:34 | a whole run of white space, however long, becomes one `_` |
| AIImageGenerator.WordsJoined | pages/AIImageGenerator.tsx:34 | two words around a white-space run come out joined by one `_` |
| AIImageGenerator.DownloadFileNameSpec | pages/AIImageGenerator.tsx:34 | a download name has no white space, ends with "_oneverse.png" and spends at most twenty characters on the prompt |
| AIImageGenerator.ImageGeneratorState.constructor | pages/AIImageGenerator.tsx:7-11 | the page starts idle with no prompt, image or error, ratio 1:1 |
| AIImageGenerator.ImageGeneratorState.SetPrompt | pages/AIImageGenerator.tsx:47 | the prompt becomes the typed text |
| AIImageGenerator.ImageGeneratorState.SetAspectRatio | pages/AIImageGenerator.tsx:67 | the ratio becomes the picked one |
| AIImageGenerator.ImageGeneratorState.HandleGenerate | pages/AIImageGenerator.tsx:13-28 | an empty prompt changes nothing; otherwise a truthy result becomes the image with no error, any other result leaves no image and the fixed error, and the page ends idle |
| AIImageGenerator.ImageGeneratorState.HandleDownload | pages/AIImageGenerator.tsx:30-38 | without an image nothing is offered; with one the offered name is the download name of the prompt |

## Left out

- `services/geminiService.ts` is not part of this model: it wraps the provider client. Its results are the inputs carried by `Gateway.Reply`, and its fallback strings are results like any other.
- `pages/AIWriter.tsx` and `pages/AICoding.tsx` are not part of this model. Their guard / await / set pattern is the one modelled for the other pages. The clipboard, the Blob download and the regex HTML highlighter are DOM work.
- The markdown renderer (`SimpleMarkdownRenderer`) and the rest of the JSX are left out: they are presentation only.
- Speech recognition and synthesis in AIChat (`speak`, `toggleListen`, the recognition callbacks) are left out: they are browser APIs.
- `useLocalStorage` and JSON persistence are left out. Persisted state is a plain field, and the constructors take the stored value.
- The theme hook, the header, the API-key modal and the icons are left out: they are DOM and UI only.
- React scheduling and asynchronous interleaving are left out. Each handler runs as one sequential call over the gateway's given answer. State updater closures, including `updateMessages` closing over one render's `sessions`, see the latest state.
- Disabled buttons and Enter-key guards (`disabled={isLoading}`, `!isLoading && handleSend()`) are left out: they belong to the presentation layer.
- `Date.now()` ids and ISO date strings are parameters. Timestamps are integers, so sorting compares them directly. `toLocaleDateString` formatting is left out.
- UnifiedChat.UnifiedChatState.HandleSend: the model does not make the user and placeholder ids distinct from each other or from earlier ids, because the source does not. The contract requires an active session, because the page is only mounted with one.
- Gateway.Reply: an exception is modelled as raised before any result arrives. A mid-stream exception leaves the same final state, because the catch overwrites the placeholder text in both cases.
- Text.ToLower: only ASCII letters are case-mapped. JavaScript's full Unicode case mapping is not modelled.
- Text.TrimStart: the white-space set is that of ECMAScript; strings are sequences of Unicode scalar values rather than UTF-16 code units.
- AIImageGenerator.DownloadFileName: `prompt.slice(0, 20)` is modelled as the first twenty characters, not the first twenty UTF-16 code units.
- Error logging (`console.error` in the catch blocks at pages/UnifiedChat.tsx:106 and pages/AIChat.tsx:127) is left out: it is console output only.
- UI-only state is not part of the classes: `showToolSelector` and `messagesEndRef` (UnifiedChat), `isListening`, `isTtsEnabled`, `recognitionRef` and `messagesEndRef` (AIChat). It drives menus, scrolling and speech only.
- The tone, language and aspect-ratio selectors of UnifiedChat (pages/UnifiedChat.tsx:160-173) have no setter methods. They are plain field assignments, and `HandleSend` reads the three fields as they stand.
