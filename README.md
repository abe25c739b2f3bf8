# InkCaliber core, modelled in Dafny

InkCaliber is a desktop app built with Tauri and React. It keeps everything as
plain files under `Documents/InkCaliber`:

- drawing sessions, one folder each, with one `.excalidraw` scene per version
  branch and a `preview.png`;
- rich-text notes in `notes/`;
- AI chats in `chat/<provider>/`, with a list of system prompts in
  `system-prompts/prompts.json`;
- a `.trash` twin of each of these folders.

An older version of the desktop app (`apps/incaliber-desk`) kept single
`.excalidraw` files directly in `InkCaliber`.

This project models the logic of that app:

- Three autosaving editors (drawing, note and chat) and the older drawing
  editor. Each editor is a class whose fields are the React state and refs.
  Each handler is a method that states the new state in terms of a pure step
  function, and the properties are proved about the step functions.
- The four gallery pages (sessions, notes, chats and the older drawings). Each
  is a class over folders modelled as maps. They share pure functions for:
  - listing a folder;
  - the search-and-sort view;
  - the "Untitled N" numbering;
  - rename normalisation;
  - moves to and from the trash.
- The AI service:
  - the Gemini history sanitiser: a loop, proved equal to a fold and then to
    the "maximal same-role runs of non-blank messages" reference;
  - role mapping;
  - the provider factory and the placeholder services;
  - the API-key store in local storage.
- The prompt-list operations, the provider picker, and the settings page's
  save and connection test.

Everything outside the model is a parameter of the operation that uses it:

- the file system: whether each `mkdir`, `rename`, `write` and `remove`
  succeeds, and what `readDir` and `stat` return;
- the clock: ISO strings and milliseconds;
- the AI SDK's reply;
- `window.confirm`.

A debounced save is an explicit pending slot that a `FireSave` method fires.

Modules:

- `Wrappers`: Option and Result values.
- `Strings`: JavaScript's `trim`, `\s`, ASCII case mapping, `includes`,
  `replace` and decimal formatting and parsing.
- `Sync`: the sync indicator, the outcomes of save I/O, and renames in a folder.
- `Scene`: canvas elements and the two fingerprints.
- `Library`: what the galleries share.
- One module per page or service: `AiService`, `ChatEditor`, `NoteEditor`,
  `DrawingEditor`, `LegacyDrawingEditor`, `ChatGallery`, `NotesGallery`,
  `SessionGallery`, `LegacyGallery`, `Prompts`, `ProviderSelect`, `Settings`.

Where the project's written description and the code disagree, the model
follows the code:

- An undone edit still saves. The description says that an edit A→B→A inside
  the debounce window writes nothing. The drawing editor compares each
  fingerprint with the last one reported, so the return to A schedules a
  write of A (`DrawingEditor.UndoneEditStillSaves`).
- Nothing is cancelled on close. The description says closing an editor
  cancels its pending timer. No editor does that, so no teardown operation is
  modelled.
- A failed load shows "saved" in the drawing editor. The description says a
  failed load shows an error. The newer drawing editor sets "saved" when the
  read fails; only the older one sets "error"
  (`DrawingEditor.DrawingEditor.LoadInitialData`,
  `LegacyDrawingEditor.LegacyDrawingEditor.LoadInitialData`).

## Model

| member | source | states |
|---|---|---|
| AiService.SanitizeHistory | apps/inkcaliber-desk/src/services/ai-service.ts:69-100 | the loop's result is the left fold `Sanitized`, which skips blank messages and merges a message into the previous entry when the roles agree |
| AiService.NonBlank | apps/inkcaliber-desk/src/services/ai-service.ts:77 | keeps only messages whose content is not blank, each taken from the history, never more than the history |
| AiService.SanitizedIsRuns | apps/inkcaliber-desk/src/services/ai-service.ts:69-100 | the sanitised history equals one entry per maximal same-role run of the non-blank messages: the run's role, its first timestamp and its contents joined by a blank line |
| AiService.RunsSnoc | apps/inkcaliber-desk/src/services/ai-service.ts:81-87 | appending one message to the input of the run-merge absorbs it into the output (a merge or a push), the step linking the loop to the reference |
| AiService.SanitizedAlternates | apps/inkcaliber-desk/src/services/ai-service.ts:81-87 | no two adjacent sanitised entries share a role; the output has no more entries than the non-blank inputs, nor than the history (so `[]` gives `[]`) |
| AiService.SanitizedNonBlank | apps/inkcaliber-desk/src/services/ai-service.ts:77-83 | every sanitised entry has non-blank content |
| AiService.SanitizedIdentity | apps/inkcaliber-desk/src/services/ai-service.ts:69-100 | a history that already alternates and has no blank message is returned unchanged |
| AiService.RunsShape | apps/inkcaliber-desk/src/services/ai-service.ts:81-87 | the run-merge never lengthens its input, starts with the first message's role, and alternates roles |
| AiService.ToGeminiHistory | apps/inkcaliber-desk/src/services/ai-service.ts:41-46 | one entry per message, in order: `assistant` becomes `model`, `user` stays `user`, and the content becomes the text part |
| AiService.GeminiHistoryAlternates | apps/inkcaliber-desk/src/services/ai-service.ts:41-46 | the history handed to the SDK alternates between `user` and `model`, has only non-blank texts, and is no longer than the chat history |
| AiService.CreateAIService | apps/inkcaliber-desk/src/services/ai-service.ts:166-177 | gemini, chatgpt and claude each get their own service; Gemini keeps the key and defaults the model to `gemini-2.5-flash-lite` when none or "" is given; any other name fails with `Unknown AI provider: <name>` |
| AiService.GeminiRequestFor | apps/inkcaliber-desk/src/services/ai-service.ts:31-46 | the request carries the model and the message, a system instruction exactly when a non-empty prompt is given, and the sanitised and role-mapped history |
| AiService.SendMessage | apps/inkcaliber-desk/src/services/ai-service.ts:31-67 | Gemini succeeds exactly when the SDK does, with its text; its error is `Gemini API Error: ` plus the message or `Unknown error`; the ChatGPT and Claude placeholders always fail with their not-implemented texts; every failure has a message |
| AiService.GetAPIKeys | apps/inkcaliber-desk/src/services/ai-service.ts:200-208 | an absent or unparsable stored value gives `{}` |
| AiService.HasAPIKey | apps/inkcaliber-desk/src/services/ai-service.ts:210-213 | holds exactly when a key is stored for the provider and is not blank |
| AiService.KeysAfterSave | apps/inkcaliber-desk/src/services/ai-service.ts:189-193 | after a save the provider's key is the saved one and every other provider's key is unchanged, even when the old value did not parse |
| AiService.SavedKeyIsConfigured | apps/inkcaliber-desk/src/services/ai-service.ts:189-213 | after saving a non-blank key, `hasAPIKey` holds for that provider |
| AiService.KeyStore.constructor | apps/inkcaliber-desk/src/services/ai-service.ts:181 | the local-storage slot `inkcaliber_ai_api_keys` starts with the value it holds |
| AiService.KeyStore.SaveAPIKey | apps/inkcaliber-desk/src/services/ai-service.ts:189-193 | the stored keys become `KeysAfterSave` of the old ones |
| ChatEditor.SaveChatStep | apps/inkcaliber-desk/src/pages/chat/active.tsx:125-168 | a blank title does nothing; a rename onto an existing file only sets `error`; a rename moves the file and rebinds the title and the URL; a good write stores the data with the title and time, then binds a first save; the status is `saved` exactly when every step went through; the failure cases and the files not touched are stated too |
| ChatEditor.SavedThenNoRename | apps/inkcaliber-desk/src/pages/chat/active.tsx:146-163 | after a successful save, a save with the same title does not rename |
| ChatEditor.RenameThenWrite | apps/inkcaliber-desk/src/pages/chat/active.tsx:146-157 | a rename onto a free name followed by a good write leaves the chat under the new name only, with everything else kept |
| ChatEditor.FindPrompt | apps/inkcaliber-desk/src/pages/chat/active.tsx:334 | gives `None` exactly when no prompt has the id, and otherwise the first prompt with it |
| ChatEditor.AIResponse | apps/inkcaliber-desk/src/pages/chat/active.tsx:185-195 | fails with `No provider selected` without a provider, and with the no-key error when its key is missing or empty; succeeds only for Gemini with a key and a good SDK reply, with the reply's text |
| ChatEditor.ReplyMessage | apps/inkcaliber-desk/src/pages/chat/active.tsx:227-250 | the assistant entry holds the reply's text, or `Error: ` plus the error message |
| ChatEditor.SendStep | apps/inkcaliber-desk/src/pages/chat/active.tsx:197-263 | a blank input sends nothing; otherwise the call gets the input, the history without it and the selected prompt's content, and the chat gains exactly the user message and then the reply, all else kept |
| ChatEditor.EditMessage | apps/inkcaliber-desk/src/pages/chat/active.tsx:282-294 | the length is kept, only the message at the index gets the new content, and its role and timestamp are kept |
| ChatEditor.DashWhitespaceRuns | apps/inkcaliber-desk/src/pages/chat/active.tsx:313 | the dashed text is no longer than the input |
| ChatEditor.DashFromAppend | apps/inkcaliber-desk/src/pages/chat/active.tsx:313 | the left-to-right replacement of two pieces is the replacement of the first followed by that of the second, read knowing whether the first ended in whitespace |
| ChatEditor.DashFromChars | apps/inkcaliber-desk/src/pages/chat/active.tsx:313 | every character of the replacement is a dash or a non-whitespace character of the input |
| ChatEditor.DashNoWhitespace | apps/inkcaliber-desk/src/pages/chat/active.tsx:313 | no whitespace is left after the replacement |
| ChatEditor.DashAppend | apps/inkcaliber-desk/src/pages/chat/active.tsx:313 | dashing text cut outside a whitespace run is dashing each part, so the dashed text is the input with every maximal whitespace run replaced by one `-` |
| ChatEditor.DashRun | apps/inkcaliber-desk/src/pages/chat/active.tsx:313 | a whole whitespace run becomes a single `-` |
| ChatEditor.DashInRun | apps/inkcaliber-desk/src/pages/chat/active.tsx:313 | whitespace inside a run adds nothing |
| ChatEditor.DashKeeps | apps/inkcaliber-desk/src/pages/chat/active.tsx:313 | a character that is not whitespace is kept |
| ChatEditor.SlugIdempotent | apps/inkcaliber-desk/src/pages/chat/active.tsx:313 | a prompt id has no whitespace and no upper-case letter, and is its own id |
| ChatEditor.SlugOfPlain | apps/inkcaliber-desk/src/pages/chat/active.tsx:313 | a name without whitespace or upper-case letters is its own id |
| ChatEditor.SlugExample | apps/inkcaliber-desk/src/pages/chat/active.tsx:313 | a run of several whitespace characters becomes a single dash: `A \t b` gives `a-b` |
| ChatEditor.ChatEditor.constructor | apps/inkcaliber-desk/src/pages/chat/active.tsx:38-57 | the title and the file name start as the URL's `file`, with an empty chat using the `default` prompt |
| ChatEditor.ChatEditor.LoadSystemPrompts | apps/inkcaliber-desk/src/pages/chat/active.tsx:82-113 | a failed `mkdir` changes nothing; otherwise the stored prompts are shown, or the editor's defaults, which are written back when the file did not parse |
| ChatEditor.ChatEditor.LoadChat | apps/inkcaliber-desk/src/pages/chat/active.tsx:115-123 | a readable chat replaces the data; an unreadable one leaves it |
| ChatEditor.ChatEditor.SaveChat | apps/inkcaliber-desk/src/pages/chat/active.tsx:125-168 | the editor's file state becomes `SaveChatStep` of the old one |
| ChatEditor.ChatEditor.DebouncedSave | apps/inkcaliber-desk/src/pages/chat/active.tsx:170-175 | the single pending save is replaced by one carrying the latest data |
| ChatEditor.ChatEditor.FireSave | apps/inkcaliber-desk/src/pages/chat/active.tsx:170-175 | the pending save runs `SaveChatStep` with its data and is cleared |
| ChatEditor.ChatEditor.HandleTitleChange | apps/inkcaliber-desk/src/pages/chat/active.tsx:177-183 | the title changes, the status becomes `unsaved`, and a save of the current data is pending |
| ChatEditor.ChatEditor.HandleInputChange | apps/inkcaliber-desk/src/pages/chat/active.tsx:433 | the input field holds the typed text |
| ChatEditor.ChatEditor.HandleSendMessage | apps/inkcaliber-desk/src/pages/chat/active.tsx:197-263 | the chat, the call and the cleared input follow `SendStep` with the provider's answer; a save of the final data is pending and the status is `unsaved` |
| ChatEditor.ChatEditor.HandleAddAssistantMessage | apps/inkcaliber-desk/src/pages/chat/active.tsx:265-280 | one empty assistant message is appended and a save is pending |
| ChatEditor.ChatEditor.HandleMessageEdit | apps/inkcaliber-desk/src/pages/chat/active.tsx:282-294 | the messages become `EditMessage` of the old ones and a save is pending |
| ChatEditor.ChatEditor.HandleSystemPromptChange | apps/inkcaliber-desk/src/pages/chat/active.tsx:296-307 | a cleared selection changes nothing; otherwise the chat's prompt id is set and a save is pending |
| ChatEditor.ChatEditor.HandleCreatePrompt | apps/inkcaliber-desk/src/pages/chat/active.tsx:309-332 | a blank name or content does nothing; otherwise one non-default prompt with the slug id is appended and written; the dialog closes only after a good write |
| ChatGallery.NewChat | apps/inkcaliber-desk/src/pages/chat/index.tsx:107-113 | a new chat has the title, the `default` prompt, no messages and both times set to now |
| ChatGallery.ChatGallery.constructor | apps/inkcaliber-desk/src/pages/chat/index.tsx:11-21 | the page starts with the provider from the URL, the folders as found, empty lists and no alert |
| ChatGallery.ChatGallery.LoadChats | apps/inkcaliber-desk/src/pages/chat/index.tsx:42-85 | each list shows the `.json` entries of its folder, or is empty when the folder cannot be read |
| ChatGallery.ChatGallery.HandleCreateNewChat | apps/inkcaliber-desk/src/pages/chat/index.tsx:87-121 | on success the chat `Untitled Chat N` (N one past the largest listed number) is written and opened; any failure alerts and changes no file |
| ChatGallery.ChatGallery.HandleMoveToTrash | apps/inkcaliber-desk/src/pages/chat/index.tsx:124-136 | the folders become `ToTrash` of the old ones, or an alert when the rename fails |
| ChatGallery.ChatGallery.HandleRestore | apps/inkcaliber-desk/src/pages/chat/index.tsx:139-149 | the folders become `FromTrash` of the old ones, or an alert when the rename fails |
| ChatGallery.ChatGallery.HandlePermanentDelete | apps/inkcaliber-desk/src/pages/chat/index.tsx:152-160 | nothing without confirmation; otherwise only the trash changes, as `DeleteForever` says |
| ChatGallery.ChatGallery.HandleRename | apps/inkcaliber-desk/src/pages/chat/index.tsx:171-201 | the folder becomes `GuardedRename` of the old one; the dialog closes on the same name or a done rename; the collision and failure alerts |
| NotesGallery.EmptyNote | apps/inkcaliber-desk/src/pages/notes/index.tsx:107 | a new note is the empty rich-text document |
| NotesGallery.NotesGallery.constructor | apps/inkcaliber-desk/src/pages/notes/index.tsx:10-19 | the page starts with the folders as found, empty lists and no alert |
| NotesGallery.NotesGallery.LoadNotes | apps/inkcaliber-desk/src/pages/notes/index.tsx:40-84 | each list shows the `.json` entries of its folder, or is empty when the folder cannot be read |
| NotesGallery.NotesGallery.HandleCreateNewNote | apps/inkcaliber-desk/src/pages/notes/index.tsx:86-113 | on success the note `Untitled N` (N one past the largest listed number) is written empty and opened; any failure alerts and changes no file |
| NotesGallery.NotesGallery.HandleMoveToTrash | apps/inkcaliber-desk/src/pages/notes/index.tsx:116-128 | the folders become `ToTrash` of the old ones, or an alert when the rename fails |
| NotesGallery.NotesGallery.HandleRestore | apps/inkcaliber-desk/src/pages/notes/index.tsx:131-141 | the folders become `FromTrash` of the old ones, or an alert when the rename fails |
| NotesGallery.NotesGallery.HandlePermanentDelete | apps/inkcaliber-desk/src/pages/notes/index.tsx:144-152 | nothing without confirmation; otherwise only the trash changes, as `DeleteForever` says |
| NotesGallery.NotesGallery.HandleRename | apps/inkcaliber-desk/src/pages/notes/index.tsx:163-195 | the folder becomes `GuardedRename` of the old one; the dialog closes on the same name or a done rename; the collision and failure alerts |
| NoteEditor.SaveNoteStep | apps/inkcaliber-desk/src/pages/notes/active.tsx:84-130 | a blank title does nothing; a rename onto an existing note only sets `error`; a failed rename is swallowed and the note is still written under the title; a good write stores the document and binds a first save; the files not touched are stated too |
| NoteEditor.FailedRenameThenStuck | apps/inkcaliber-desk/src/pages/notes/active.tsx:93-119 | after a swallowed rename failure the note exists under both names, and every later save stops at the collision check with `error` |
| NoteEditor.NoteEditor.constructor | apps/inkcaliber-desk/src/pages/notes/active.tsx:61-69 | the title and the file name start as the URL's `file` |
| NoteEditor.NoteEditor.LoadNote | apps/inkcaliber-desk/src/pages/notes/active.tsx:71-82 | a readable note replaces the document only while the editor is empty |
| NoteEditor.NoteEditor.SaveNote | apps/inkcaliber-desk/src/pages/notes/active.tsx:84-130 | the editor's file state becomes `SaveNoteStep` of the old one |
| NoteEditor.NoteEditor.TryRename | apps/inkcaliber-desk/src/pages/notes/active.tsx:94-117 | a good rename moves the note and rebinds the name and the URL; a failed one changes nothing |
| NoteEditor.NoteEditor.DebouncedSave | apps/inkcaliber-desk/src/pages/notes/active.tsx:132-137 | the single pending save is replaced by one carrying the latest document |
| NoteEditor.NoteEditor.FireSave | apps/inkcaliber-desk/src/pages/notes/active.tsx:132-137 | the pending save runs `SaveNoteStep` with its document and is cleared |
| NoteEditor.NoteEditor.OnUpdate | apps/inkcaliber-desk/src/pages/notes/active.tsx:52-55 | every edit sets `unsaved` and reschedules the save with the new document |
| NoteEditor.NoteEditor.HandleTitleChange | apps/inkcaliber-desk/src/pages/notes/active.tsx:139-145 | the title changes, the status becomes `unsaved`, and a save of the document is pending |
| Library.ListByExtension | apps/inkcaliber-desk/src/pages/chat/index.tsx:46-59 | exactly the entries ending in the extension, each with its time or the epoch when the `stat` fails or gives none |
| Library.ListAllOrNothing | apps/incaliber-desk/src/pages/index.tsx:16-40 | fails exactly when the `stat` of a listed `.excalidraw` entry fails, and is otherwise the extension listing |
| Library.ListSessionsAsWritten | apps/inkcaliber-desk/src/pages/index.tsx:47-56 | at most one session per entry |
| Library.ListSessionsAsWrittenMembers | apps/inkcaliber-desk/src/pages/index.tsx:47-56 | exactly the directories other than `.trash` are listed, each as its `data.excalidraw` entry |
| Library.ChatFolderListedAsSession | apps/inkcaliber-desk/src/pages/index.tsx:48 | the `chat` folder is listed as a drawing session |
| Library.ListSessions | apps/inkcaliber-desk/src/pages/index.tsx:47-56 | under the correction, at most one session per entry |
| Library.ListSessionsMembers | apps/inkcaliber-desk/src/pages/index.tsx:47-56 | under the correction, exactly the directories that are not app folders are listed, each with its `data.excalidraw` time |
| Library.ListSessionsAsWrittenAppend | apps/inkcaliber-desk/src/pages/index.tsx:47-56 | the listing of two runs of entries is the two listings joined, so it maps the entries one by one in order |
| Library.ListSessionsAsWrittenSingle | apps/inkcaliber-desk/src/pages/index.tsx:48-53 | one entry is listed exactly when it is a directory other than `.trash` |
| Library.ListSessionsAppend | apps/inkcaliber-desk/src/pages/index.tsx:47-56 | the corrected listing of two runs of entries is the two listings joined |
| Library.ListSessionsSingle | apps/inkcaliber-desk/src/pages/index.tsx:48-53 | under the correction, one entry is listed exactly when it is a directory that is not an app folder |
| Library.ListingsAgreeWithoutAppFolders | apps/inkcaliber-desk/src/pages/index.tsx:47-56 | without app folders the corrected listing is the listing as written |
| Library.ChatFolderNotASession | apps/inkcaliber-desk/src/pages/index.tsx:48 | the corrected listing leaves the `chat` folder out |
| Library.Filtered | apps/inkcaliber-desk/src/pages/chat/index.tsx:162-169 | the search result is no longer than the list |
| Library.FilteredCounts | apps/inkcaliber-desk/src/pages/chat/index.tsx:162-169 | keeps exactly the entries whose lower-cased name contains the lower-cased query, each as often as in the input and no other entry, so the result is a sub-multiset of the input |
| Library.FilteredAppend | apps/inkcaliber-desk/src/pages/chat/index.tsx:162-169 | filtering two lists joined is filtering each, so the order is kept |
| Library.EmptyQueryKeepsAll | apps/inkcaliber-desk/src/pages/chat/index.tsx:162-169 | an empty search shows the whole list |
| Library.SortBy | apps/inkcaliber-desk/src/pages/index.tsx:136-139 | the result is ordered by name ascending or by time descending, and is a permutation of the input |
| Library.ProcessedSpec | apps/inkcaliber-desk/src/pages/index.tsx:133-140 | the shown list is sorted by the selector and holds exactly the matching entries of the list chosen by the trash toggle, with their multiplicities |
| Library.MatchChatTitle | apps/inkcaliber-desk/src/pages/chat/index.tsx:92-99 | a number is found only in a name ending in `.json`, long enough for the prefix and the extension |
| Library.MatchChatTitleShape | apps/inkcaliber-desk/src/pages/chat/index.tsx:92-99 | a name matches only as `Untitled Chat <digits>.json` with non-empty digits, and carries their decimal value |
| Library.MatchNoteTitle | apps/inkcaliber-desk/src/pages/notes/index.tsx:92-99 | a number is found only in a name ending in `.json`, long enough for the prefix and the extension |
| Library.MatchNoteTitleShape | apps/inkcaliber-desk/src/pages/notes/index.tsx:92-99 | a name matches only as `Untitled<whitespace><digits>.json` with both runs non-empty, and carries the decimal value of the digits |
| Library.MatchChatTitleAccepts | apps/inkcaliber-desk/src/pages/chat/index.tsx:92-99 | every `Untitled Chat <digits>.json` gives the value of its digits |
| Library.MatchChatTitleLeadingZeros | apps/inkcaliber-desk/src/pages/chat/index.tsx:92-99 | `Untitled Chat 007.json` carries the number 7, as `parseInt` reads it |
| Library.MatchNoteTitleAccepts | apps/inkcaliber-desk/src/pages/notes/index.tsx:92-99 | every `Untitled<whitespace><digits>.json` gives the value of its digits |
| Library.UntitledRoundTrip | apps/inkcaliber-desk/src/pages/chat/index.tsx:92-104 | the file of `Untitled Chat N` or `Untitled N` matches its pattern with the number N |
| Library.MaxUntitled | apps/inkcaliber-desk/src/pages/chat/index.tsx:93-101 | bounds every number carried by a matching name, and is 0 or one of those numbers |
| Library.NextUntitledNumber | apps/inkcaliber-desk/src/pages/chat/index.tsx:93-103 | the `maxNum` loop gives one past the largest matched number |
| Library.NextUntitledIsFree | apps/inkcaliber-desk/src/pages/chat/index.tsx:92-104 | the new untitled file's name is not among the listed names |
| Library.NextUntitledTitle | apps/inkcaliber-desk/src/pages/notes/index.tsx:103-104 | the new title's file is not among the listed names |
| Library.NextUntitledTitleNumber | apps/inkcaliber-desk/src/pages/notes/index.tsx:96-104 | the new title's file carries one past the largest listed number |
| Library.NormalizeRename | apps/inkcaliber-desk/src/pages/notes/index.tsx:164-168 | `None` exactly for a blank name; otherwise the trimmed name, with the extension appended when missing, so it ends in the extension |
| Library.NormalizeIdempotent | apps/inkcaliber-desk/src/pages/notes/index.tsx:164-168 | normalising a normalised name changes nothing |
| Library.GuardedRename | apps/inkcaliber-desk/src/pages/chat/index.tsx:171-201 | the five outcomes (ignored, same name, name taken, failed, done), each under its exact condition; only a done rename changes the folder, and it moves the old entry to the target |
| Library.RenameMovesOne | apps/inkcaliber-desk/src/pages/chat/index.tsx:192-194 | a done rename moves exactly the one entry with its content; the size and every other entry are kept |
| Library.PlainRename | apps/inkcaliber-desk/src/pages/index.tsx:142-151 | succeeds exactly when the rename does and the old entry exists, then moving it |
| Library.PlainRenameOverwrites | apps/inkcaliber-desk/src/pages/index.tsx:145-147 | with no collision check, a rename onto an existing entry loses that entry's content |
| Library.ToTrash | apps/inkcaliber-desk/src/pages/index.tsx:74-85 | succeeds exactly when the rename does and the entry exists, moving it from the folder into the trash |
| Library.FromTrash | apps/inkcaliber-desk/src/pages/index.tsx:88-98 | succeeds exactly when the rename does and the entry is trashed, moving it back out of the trash |
| Library.DeleteForever | apps/inkcaliber-desk/src/pages/chat/index.tsx:152-160 | removes only the trashed entry, and never touches the active folder |
| Library.RestoreUndoesTrash | apps/inkcaliber-desk/src/pages/chat/index.tsx:124-149 | trash then restore gives back both folders, when the trash had no entry of that name |
| SessionGallery.RemoveEach | apps/inkcaliber-desk/src/pages/index.tsx:112-116 | the removal loop only removes entries, keeps every unlisted one, and when it completes has removed every listed name |
| SessionGallery.FullListingEmpties | apps/inkcaliber-desk/src/pages/index.tsx:108-116 | a complete, duplicate-free listing with no failing removal empties the folder |
| SessionGallery.Wipe | apps/inkcaliber-desk/src/pages/index.tsx:101-131 | succeeds exactly when the folder was read, emptied and removed, and then only it leaves the trash; a failure part-way keeps what was already removed |
| SessionGallery.WipeCompleteListing | apps/inkcaliber-desk/src/pages/index.tsx:108-123 | with a complete listing and all removals succeeding, the trashed folder is gone and the rest stays |
| SessionGallery.SessionGallery.constructor | apps/inkcaliber-desk/src/pages/index.tsx:11-21 | the page starts with the folders as found, empty lists and no alert |
| SessionGallery.SessionGallery.LoadSessions | apps/inkcaliber-desk/src/pages/index.tsx:42-71 | each readable folder's directories that are not app folders are listed as sessions; an unreadable folder keeps its list, and the trash is read only after the root |
| SessionGallery.SessionGallery.HandleMoveToTrash | apps/inkcaliber-desk/src/pages/index.tsx:74-85 | the folders become `ToTrash` of the old ones, or an alert when the rename fails |
| SessionGallery.SessionGallery.HandleRestore | apps/inkcaliber-desk/src/pages/index.tsx:88-98 | the folders become `FromTrash` of the old ones, or an alert when the rename fails |
| SessionGallery.SessionGallery.HandlePermanentDelete | apps/inkcaliber-desk/src/pages/index.tsx:101-131 | nothing without confirmation; otherwise the trash becomes `Wipe` of the old one and failures alert |
| SessionGallery.SessionGallery.RemoveEntries | apps/inkcaliber-desk/src/pages/index.tsx:112-116 | the loop leaves the trashed folder as `RemoveEach` says and reports whether every removal went through |
| SessionGallery.SessionGallery.HandleRename | apps/inkcaliber-desk/src/pages/index.tsx:142-151 | a blank name does nothing; otherwise the root becomes `PlainRename` to the trimmed name, or an alert |
| DrawingEditor.SplitWords | apps/inkcaliber-desk/src/pages/active.tsx:29 | splitting at `-` and `_` gives at least one word |
| DrawingEditor.CapitalizeAll | apps/inkcaliber-desk/src/pages/active.tsx:30 | each word is capitalised, in order |
| DrawingEditor.FormatBranchName | apps/inkcaliber-desk/src/pages/active.tsx:26-32 | `data` is shown as `Main Branch` |
| DrawingEditor.WordsAreTitled | apps/inkcaliber-desk/src/pages/active.tsx:28-31 | the label built from words equals the reference built one character at a time |
| DrawingEditor.FormatBranchNameChars | apps/inkcaliber-desk/src/pages/active.tsx:26-32 | any name other than `data` keeps its length; each `-` or `_` becomes a space; the first character of each word is upper-cased and the others are kept |
| DrawingEditor.FormatBranchNameExample | apps/inkcaliber-desk/src/pages/active.tsx:25-32 | `arch_v1` is shown as `Arch V1` |
| DrawingEditor.UnderscoreChar | apps/inkcaliber-desk/src/pages/active.tsx:185 | an ASCII letter or digit is kept; any other character becomes one `_` per UTF-16 code unit, so a character outside the Basic Multilingual Plane becomes `__` (the pattern has no `u` flag) |
| DrawingEditor.UnderscoreOthers | apps/inkcaliber-desk/src/pages/active.tsx:185 | the result has the input's UTF-16 length, one character per code unit |
| DrawingEditor.UnderscoreOthersChars | apps/inkcaliber-desk/src/pages/active.tsx:185 | the result holds only ASCII letters, digits and `_` |
| DrawingEditor.UnderscoreOthersAppend | apps/inkcaliber-desk/src/pages/active.tsx:185 | the replacement of a concatenation is the concatenation of the replacements, so with UnderscoreChar it fixes every result |
| DrawingEditor.UnderscoreOthersBmp | apps/inkcaliber-desk/src/pages/active.tsx:185 | on text inside the Basic Multilingual Plane the replacement is pointwise: same length, letters and digits kept, every other character `_` |
| DrawingEditor.UnderscoreKeepsBranchChars | apps/inkcaliber-desk/src/pages/active.tsx:185 | a text of `[a-z0-9_]` characters is kept |
| DrawingEditor.SanitizeBranchName | apps/inkcaliber-desk/src/pages/active.tsx:185 | the branch name has the UTF-16 length (`.length`) of the trimmed name and only `[a-z0-9_]` characters |
| DrawingEditor.SanitizeUntrimmed | apps/inkcaliber-desk/src/pages/active.tsx:185 | a name with no whitespace at either end is sanitised as it is, without trimming |
| DrawingEditor.SanitizeAstralExample | apps/inkcaliber-desk/src/pages/active.tsx:185 | the typed name `💡` gives the branch `__` |
| DrawingEditor.SanitizeAstralInsideExample | apps/inkcaliber-desk/src/pages/active.tsx:185 | `a😀b` gives the branch `a__b` |
| DrawingEditor.SanitizeIdempotent | apps/inkcaliber-desk/src/pages/active.tsx:185 | sanitising a sanitised name changes nothing |
| DrawingEditor.BranchNameIsSanitized | apps/inkcaliber-desk/src/pages/active.tsx:185 | a name made only of branch characters is kept |
| DrawingEditor.TimestampSlug | apps/inkcaliber-desk/src/pages/active.tsx:105 | `:` and `.` become `-`; every other character and the length are kept |
| DrawingEditor.SessionName | apps/inkcaliber-desk/src/pages/active.tsx:105-106 | a new session folder is `session-<ts>` where `<ts>` is the ISO time with each `:` and `.` replaced by `-` |
| DrawingEditor.CurrentBranch | apps/inkcaliber-desk/src/pages/active.tsx:174 | the URL's branch when it is given and non-empty, else a non-empty default (`data`) |
| DrawingEditor.BranchOf | apps/inkcaliber-desk/src/pages/active.tsx:54-57 | a listed file's branch is labelled by `FormatBranchName`; a name without `.excalidraw` is its own branch, and a name whose only `.excalidraw` is its suffix loses that suffix |
| DrawingEditor.BranchOfDoubledExtension | apps/inkcaliber-desk/src/pages/active.tsx:55 | `a.excalidraw.excalidraw` is the branch `a.excalidraw`: only the first occurrence is removed |
| DrawingEditor.BranchList | apps/inkcaliber-desk/src/pages/active.tsx:52-57 | at most one branch per listed name |
| DrawingEditor.BranchListMembers | apps/inkcaliber-desk/src/pages/active.tsx:52-57 | exactly the listed `.excalidraw` names have their branch in the list |
| DrawingEditor.BranchListAppend | apps/inkcaliber-desk/src/pages/active.tsx:52-57 | the branches of two runs of names are the two branch lists joined, so the order of the listing is kept |
| DrawingEditor.BranchListSingle | apps/inkcaliber-desk/src/pages/active.tsx:52-57 | one name gives its one branch when it ends in `.excalidraw`, and none otherwise |
| DrawingEditor.BranchesFor | apps/inkcaliber-desk/src/pages/active.tsx:45-62 | an unbound or unreadable session shows `Main Branch` only; otherwise its folder's branches |
| DrawingEditor.CreatedBranchListed | apps/inkcaliber-desk/src/pages/active.tsx:183-187 | a branch created from any typed name is listed back under its sanitised name |
| DrawingEditor.SceneFileBranch | apps/inkcaliber-desk/src/pages/active.tsx:55 | the scene file of a branch-character name lists back as that name |
| DrawingEditor.SaveTarget | apps/inkcaliber-desk/src/pages/active.tsx:103 | the override when given, else the current branch |
| DrawingEditor.SaveFolder | apps/inkcaliber-desk/src/pages/active.tsx:104-106 | a bound session keeps its folder; an unbound one gets `session-<ts>`, which is bound |
| DrawingEditor.SaveSessionStepEffects | apps/inkcaliber-desk/src/pages/active.tsx:100-129 | the session is bound and the URL set first; the status is `saved` exactly when `mkdir`, the write and (for `data`) the preview succeed, and then the scene is on disk and the branches are re-read; a failed save keeps the branch list; nothing else on disk changes |
| DrawingEditor.SessionBoundOnce | apps/inkcaliber-desk/src/pages/active.tsx:104-108 | after a save bound the session, every later save writes into the same folder, whatever the time |
| DrawingEditor.AutoSaveStep | apps/inkcaliber-desk/src/pages/active.tsx:140-147 | before load or with an unchanged fingerprint nothing changes; otherwise the fingerprint is recorded and the single pending save is replaced by the new scene and the branch current when it was scheduled |
| DrawingEditor.PendingSaveKeepsBranch | apps/inkcaliber-desk/src/pages/active.tsx:140-147 | a scheduled save goes to the branch current when it was scheduled, whatever the URL shows when it fires |
| DrawingEditor.AutoSaveRepeat | apps/inkcaliber-desk/src/pages/active.tsx:142-146 | a repeated report with the same elements schedules nothing new |
| DrawingEditor.UndoneEditStillSaves | apps/inkcaliber-desk/src/pages/active.tsx:142-146 | an edit that is undone before the timer fires still leaves a save of the undone scene pending |
| DrawingEditor.SameStampsIgnored | apps/inkcaliber-desk/src/pages/active.tsx:142-143 | a report whose elements agree by id, version and nonce is ignored, whatever moved |
| DrawingEditor.DeleteBranchStep | apps/inkcaliber-desk/src/pages/active.tsx:192-200 | `data` and unconfirmed deletions change nothing; otherwise only that branch's file goes, and only when the removal succeeds |
| DrawingEditor.MainBranchKept | apps/inkcaliber-desk/src/pages/active.tsx:194 | the main branch's scene survives every branch deletion |
| DrawingEditor.DrawingEditor.constructor | apps/inkcaliber-desk/src/pages/active.tsx:34-43 | the session folder starts as the URL's `file`, not loaded, with no fingerprint |
| DrawingEditor.DrawingEditor.LoadBranches | apps/inkcaliber-desk/src/pages/active.tsx:45-62 | the branch list becomes `BranchesFor` the session and the listing |
| DrawingEditor.DrawingEditor.LoadInitialData | apps/inkcaliber-desk/src/pages/active.tsx:64-98 | an unbound session only becomes loaded; a readable scene is shown in the stored theme with its fingerprint recorded; a failed read still ends `saved` and loaded; the branches are re-read |
| DrawingEditor.DrawingEditor.SaveToSessionFile | apps/inkcaliber-desk/src/pages/active.tsx:100-129 | the session state becomes `SaveSessionStep` of the old one |
| DrawingEditor.DrawingEditor.WriteToFolder | apps/inkcaliber-desk/src/pages/active.tsx:109-125 | the file-system part of a save, as `WriteSession` says |
| DrawingEditor.DrawingEditor.WriteScenes | apps/inkcaliber-desk/src/pages/active.tsx:112-123 | the scene is written, then the preview for `data` only; a failed write ends in `error`, leaving what was already written |
| DrawingEditor.DrawingEditor.HandleAutoSave | apps/inkcaliber-desk/src/pages/active.tsx:140-147 | the canvas holds the reported scene and the autosave state becomes `AutoSaveStep` of the old one with the URL's branch |
| DrawingEditor.DrawingEditor.FireSave | apps/inkcaliber-desk/src/pages/active.tsx:146 | the pending scene is saved to the branch it was scheduled for, and the slot is cleared |
| DrawingEditor.DrawingEditor.HandleCreateBranch | apps/inkcaliber-desk/src/pages/active.tsx:183-190 | a blank name does nothing; otherwise the live canvas (the scene last reported) is saved as the sanitised branch and the URL then shows it with the page's earlier `file` parameter |
| DrawingEditor.DrawingEditor.ShowInUrl | apps/inkcaliber-desk/src/pages/active.tsx:187 | only the URL parameters change |
| DrawingEditor.DrawingEditor.HandleDeleteBranch | apps/inkcaliber-desk/src/pages/active.tsx:192-200 | the disk becomes `DeleteBranchStep` of the old one, and the branches are re-read only when a file went |
| LegacyDrawingEditor.DrawingName | apps/incaliber-desk/src/pages/active.tsx:88-89 | a new drawing is `drawing-session-<ts>.excalidraw` where `<ts>` is the ISO time with each `:` and `.` replaced by `-`, so the only `.` is the extension's |
| LegacyDrawingEditor.LegacySaveStep | apps/incaliber-desk/src/pages/active.tsx:80-101 | the status is `saved` exactly when `mkdir` and the write succeed, else `error`; a new drawing is named only after `mkdir` succeeded; a good save stores the scene and a failed one changes no file |
| LegacyDrawingEditor.NamedOnce | apps/incaliber-desk/src/pages/active.tsx:86-90 | once a save got past `mkdir`, later saves write the same file |
| LegacyDrawingEditor.LegacyAutoSaveStep | apps/incaliber-desk/src/pages/active.tsx:103-123 | before load or with an unchanged geometry fingerprint nothing changes; otherwise the fingerprint is recorded, `syncing` is shown at once, and the pending save is replaced |
| LegacyDrawingEditor.MoveSavedOnlyByLegacy | apps/incaliber-desk/src/pages/active.tsx:106-112 | moving one element without a version bump schedules a save here and nothing in the newer drawing editor |
| LegacyDrawingEditor.FailedLoadThenFirstReportSaves | apps/incaliber-desk/src/pages/active.tsx:62-66 | after a failed load the first change report, even of an empty canvas, schedules a save over the unreadable file |
| LegacyDrawingEditor.LegacyDrawingEditor.constructor | apps/incaliber-desk/src/pages/active.tsx:11-23 | the file reference starts as the URL's `file`, not loaded |
| LegacyDrawingEditor.LegacyDrawingEditor.LoadInitialData | apps/incaliber-desk/src/pages/active.tsx:26-70 | a missing or `new` file only becomes loaded; a readable one is shown with its fingerprint recorded and `saved`; an unreadable one shows `error` |
| LegacyDrawingEditor.LegacyDrawingEditor.SaveToSessionFile | apps/incaliber-desk/src/pages/active.tsx:80-101 | the session state becomes `LegacySaveStep` of the old one |
| LegacyDrawingEditor.LegacyDrawingEditor.HandleAutoSave | apps/incaliber-desk/src/pages/active.tsx:103-123 | the autosave state becomes `LegacyAutoSaveStep` of the old one |
| LegacyDrawingEditor.LegacyDrawingEditor.FireSave | apps/incaliber-desk/src/pages/active.tsx:119-122 | the pending scene is written and the slot is cleared |
| LegacyGallery.DropName | apps/incaliber-desk/src/pages/index.tsx:56 | the result is no longer than the list and holds exactly the listed entries with another name |
| LegacyGallery.DropNameAppend | apps/incaliber-desk/src/pages/index.tsx:56 | filtering a concatenation filters each part, so the kept entries stay in order |
| LegacyGallery.DropNameSingle | apps/incaliber-desk/src/pages/index.tsx:56 | one entry is dropped exactly when it has the deleted file's name |
| LegacyGallery.DropNameCounts | apps/incaliber-desk/src/pages/index.tsx:56 | every entry with another name is kept as often as it was listed; none with the name is kept |
| LegacyGallery.LegacyGallery.constructor | apps/incaliber-desk/src/pages/index.tsx:6-11 | the page starts with the drawings as found, an empty list and no alert |
| LegacyGallery.LegacyGallery.LoadFiles | apps/incaliber-desk/src/pages/index.tsx:16-40 | the list becomes the `.excalidraw` listing, or is kept when `readDir` or any `stat` fails |
| LegacyGallery.LegacyGallery.HandleDelete | apps/incaliber-desk/src/pages/index.tsx:51-60 | nothing without confirmation; a good removal drops the file from the folder and exactly that name from the list; a failure alerts |
| LegacyGallery.LegacyGallery.HandleRename | apps/incaliber-desk/src/pages/index.tsx:62-79 | a blank name does nothing; otherwise the file is renamed to the trimmed name with `.excalidraw` appended when missing, with no collision check, or an alert |
| Prompts.LoadPrompts | apps/inkcaliber-desk/src/pages/chat/prompts.tsx:37-49 | a parsed file shows its `prompts` (`[]` when absent) and writes nothing; otherwise the defaults are shown and written back |
| Prompts.ManagerDefaultsShape | apps/inkcaliber-desk/src/pages/chat/prompts.tsx:43-46 | the page's defaults are `default` (the one default) and then `brainstorm` |
| Prompts.EditPrompt | apps/inkcaliber-desk/src/pages/chat/prompts.tsx:76-79 | length, order, ids and `isDefault` are kept, and only the entries with the edited id get the new name and content |
| Prompts.AppendPrompt | apps/inkcaliber-desk/src/pages/chat/prompts.tsx:80-87 | exactly one non-default prompt is appended behind the unchanged list |
| Prompts.SavePrompt | apps/inkcaliber-desk/src/pages/chat/prompts.tsx:72-88 | nothing on a blank name or content; otherwise the edit, or an append whose id is the time in milliseconds |
| Prompts.DeletePrompt | apps/inkcaliber-desk/src/pages/chat/prompts.tsx:96 | keeps exactly the entries with another id |
| Prompts.DeleteAppend | apps/inkcaliber-desk/src/pages/chat/prompts.tsx:96 | deleting from a concatenation deletes from each part, so the order of the rest is kept |
| Prompts.DeleteAbsent | apps/inkcaliber-desk/src/pages/chat/prompts.tsx:96 | a list without the id is unchanged |
| Prompts.DeleteIdempotent | apps/inkcaliber-desk/src/pages/chat/prompts.tsx:96 | deleting twice is deleting once |
| Prompts.SetDefault | apps/inkcaliber-desk/src/pages/chat/prompts.tsx:102-105 | `isDefault` holds exactly for the entries with the id; all else is kept |
| Prompts.SetDefaultCount | apps/inkcaliber-desk/src/pages/chat/prompts.tsx:101-108 | after set-default there are as many defaults as entries with the id |
| Prompts.EditThenSetDefault | apps/inkcaliber-desk/src/pages/chat/prompts.tsx:76-105 | editing and setting the default commute |
| Prompts.PromptManager.constructor | apps/inkcaliber-desk/src/pages/chat/prompts.tsx:15-23 | the page starts with an empty list and the file as found |
| Prompts.PromptManager.Persist | apps/inkcaliber-desk/src/pages/chat/prompts.tsx:55-57 | the file holds the list after a good write |
| Prompts.PromptManager.LoadPromptsFromFile | apps/inkcaliber-desk/src/pages/chat/prompts.tsx:32-53 | a failed `mkdir` changes nothing; otherwise the list is `LoadPrompts`, and the defaults reach the file only by a good write |
| Prompts.PromptManager.HandleSavePrompt | apps/inkcaliber-desk/src/pages/chat/prompts.tsx:72-93 | the list becomes `SavePrompt` of the old one and is persisted; a blank form changes nothing |
| Prompts.PromptManager.HandleDeletePrompt | apps/inkcaliber-desk/src/pages/chat/prompts.tsx:95-99 | the list becomes `DeletePrompt` of the old one and is persisted |
| Prompts.PromptManager.HandleSetDefault | apps/inkcaliber-desk/src/pages/chat/prompts.tsx:101-108 | the list becomes `SetDefault` of the old one and is persisted |
| ProviderSelect.ProviderList | apps/inkcaliber-desk/src/pages/chat/provider-select.tsx:27-55 | Gemini, ChatGPT and Claude in that order, each ready exactly when `hasAPIKey` holds |
| ProviderSelect.SelectProvider | apps/inkcaliber-desk/src/pages/chat/provider-select.tsx:57-68 | every provider but Gemini only alerts; Gemini goes to the settings when it needs a key and to `/chat/gemini` otherwise |
| ProviderSelect.OnlyGeminiNavigates | apps/inkcaliber-desk/src/pages/chat/provider-select.tsx:57-68 | of the listed providers only Gemini navigates, to its chats exactly when its key is set |
| ProviderSelect.SavedGeminiKeyOpensChats | apps/inkcaliber-desk/src/pages/chat/provider-select.tsx:27-68 | after a non-blank Gemini key is saved, choosing Gemini opens its chats |
| Settings.FieldValue | apps/inkcaliber-desk/src/pages/chat/settings.tsx:18-20 | a field shows the stored key, or `""` |
| Settings.SettingsSaveEffects | apps/inkcaliber-desk/src/pages/chat/settings.tsx:23-29 | each non-blank field replaces its provider's key with the trimmed text, each blank one keeps it, and no other key changes |
| Settings.SaveConfigures | apps/inkcaliber-desk/src/pages/chat/settings.tsx:23-29 | after a save every provider with a non-blank field is configured |
| Settings.TestOutcome | apps/inkcaliber-desk/src/pages/chat/settings.tsx:31-58 | a blank key gives the enter-a-key error; otherwise success exactly for Gemini with a good SDK reply, else the service's error message |
| Settings.FallbackNeverShown | apps/inkcaliber-desk/src/pages/chat/settings.tsx:53 | every failure carries a message, so the fallback text is never shown |
| Settings.TestRequest | apps/inkcaliber-desk/src/pages/chat/settings.tsx:41-42 | the test sends the greeting with no history, the test system prompt and the default model |
| Settings.ChatSettings.constructor | apps/inkcaliber-desk/src/pages/chat/settings.tsx:8-14 | the three fields start empty, with no test status and not testing |
| Settings.ChatSettings.LoadKeys | apps/inkcaliber-desk/src/pages/chat/settings.tsx:16-21 | each field shows `FieldValue` of its provider |
| Settings.ChatSettings.HandleSave | apps/inkcaliber-desk/src/pages/chat/settings.tsx:23-29 | the key store becomes `SettingsSave` of the fields, then the saved alert |
| Settings.ChatSettings.SaveKeyField | apps/inkcaliber-desk/src/pages/chat/settings.tsx:24 | one field is saved trimmed unless it is blank |
| Settings.ChatSettings.HandleTest | apps/inkcaliber-desk/src/pages/chat/settings.tsx:31-58 | the status is `TestOutcome`; a blank key makes no request; a Gemini key makes exactly `TestRequest`; testing ends false |
| Scene.Fingerprint | apps/inkcaliber-desk/src/pages/active.tsx:142 | one (id, version, nonce) stamp per element, in order |
| Scene.FingerprintEqual | apps/inkcaliber-desk/src/pages/active.tsx:142-143 | two scenes look the same exactly when their elements agree by id, version and nonce, in order |
| Scene.LegacyFingerprint | apps/incaliber-desk/src/pages/active.tsx:106-110 | one stamp per element, also covering position, size and points |
| Scene.LegacyFingerprintFiner | apps/incaliber-desk/src/pages/active.tsx:106-110 | whenever the older fingerprint sees no change, neither does the newer one |
| Scene.MoveOnlyTripsLegacy | apps/incaliber-desk/src/pages/active.tsx:106-110 | a move alone is invisible to the newer fingerprint and visible to the older one |
| Sync.Moved | apps/inkcaliber-desk/src/pages/chat/active.tsx:146-152 | a rename puts the content at the target, removes the source, and keeps every other file |
| Sync.MovedToSelf | apps/inkcaliber-desk/src/pages/chat/active.tsx:146-152 | a rename onto the same name changes nothing |
| Sync.MovedBack | apps/inkcaliber-desk/src/pages/chat/active.tsx:146-152 | renaming away and back restores the folder when the intermediate name was free |
| Strings.Trim | apps/inkcaliber-desk/src/pages/chat/settings.tsx:24 | the trimmed text is no longer than the input and has no whitespace at either end |
| Strings.TrimIsSlice | apps/inkcaliber-desk/src/pages/chat/settings.tsx:24 | the trimmed text is a slice `s[k..k + |Trim(s)|]` of the input, and the prefix and suffix cut off are all whitespace |
| Strings.TrimEmptyIffBlank | apps/inkcaliber-desk/src/pages/chat/settings.tsx:24 | the trim is empty exactly when the text is blank, so the `!x.trim()` guards are `IsBlank` |
| Strings.TrimIdempotent | apps/inkcaliber-desk/src/pages/chat/settings.tsx:24 | trimming twice is trimming once |
| Strings.ToLower | apps/inkcaliber-desk/src/pages/index.tsx:135 | lower-cases ASCII letters and keeps the length and every other character |
| Strings.IndexOf | apps/inkcaliber-desk/src/pages/active.tsx:55 | the first position at or after the start where the pattern occurs, or `None` exactly when it occurs nowhere there |
| Strings.RemoveFirstSuffix | apps/inkcaliber-desk/src/pages/active.tsx:55 | when the pattern occurs only as the suffix, removing its first occurrence gives the stem |
| Strings.RemoveFirst | apps/inkcaliber-desk/src/pages/active.tsx:55 | without an occurrence of the pattern the text is unchanged; otherwise the earliest occurrence is cut out and the rest kept |
| Strings.RemoveSuffixOnly | apps/inkcaliber-desk/src/pages/active.tsx:55 | text whose only occurrence of the pattern is its suffix loses exactly that suffix |
| Strings.TrimStartBlankPrefix | apps/inkcaliber-desk/src/pages/notes/index.tsx:92 | `trimStart` drops a whole blank prefix and stops at the first other character |
| Strings.NatToString | apps/inkcaliber-desk/src/pages/chat/index.tsx:104 | decimal digits without a leading zero |
| Strings.ParseNatToString | apps/inkcaliber-desk/src/pages/chat/index.tsx:98 | `parseInt` of a formatted number gives the number back |

## Left out

- The UI: rendering, theme switching and the stored theme, context menus, the
  `loading` flags, the disabled Save and Test buttons, and the prompt form's
  open and close (`handleOpenModal`).
- The `AI Error:` alert that `handleSendMessage` shows next to the error
  message it appends.
- `streamMessage` and the SDK's streaming loop. These are foreign network
  calls, and no page of the core uses a stream.
- The file system and the clock are parameters. A rename onto an existing
  directory is abstracted by its `renameOk` outcome. The time is an ISO
  string, a millisecond count, or an integer `mtime`.
- The JSON serialisation of chats, notes, scenes and prompt files. The
  Excalidraw and TipTap payloads are opaque: scenes are element records, and
  a note is its JSON text with an emptiness flag. The preview image is
  represented by the scene it was exported from.
- The `setInterval` wait for the drawing canvas, and the
  `forceSaveBranch`/`refreshBranches` window globals. A load is one step, and
  branch creation calls the save directly.
- Async interleavings: each handler is one sequential step. As a result,
  `ChatEditor.ChatEditor.HandleSendMessage` lets no timer fire between the
  append of the user's message and the reply.
- Keys of the editor folders. The chat and note editors key their folder by
  title (the name without `.json`), while the galleries key the same folders
  by file name. The model does not connect the two views of the same
  directory.
- `localeCompare` is modelled as code-point order on strings. `toLowerCase`
  and `toUpperCase` are modelled on ASCII letters only.
- Strings are sequences of Unicode scalar values, while JavaScript's are
  UTF-16 code units. Where the difference shows, the model counts code units:
  the branch-name replacement gives one `_` per code unit, so a character
  outside the Basic Multilingual Plane gives `__` (`DrawingEditor.UnderscoreChar`,
  `Strings.Utf16Length`). The other operations of the core (`trim`, `\s`,
  `includes`, `startsWith`/`endsWith`, the digit patterns and ASCII case
  mapping) give the same result on either view of well-formed text.
- The older gallery's search and sort are the same as the other galleries'
  and use `Library.Processed`.
- `ChatEditor.EditMessage`: requires the index to be in range. The page only
  edits messages it shows. The source also mutates the shared message object
  in place; that aliasing is not modelled.
- Timer cancellation on unmount is not modelled, because no editor does it.
- SessionGallery.SessionGallery.LoadSessions: lists the directories that are
  not app folders (`Library.ListSessions`), not every directory but `.trash`
  as the page does. This is the corrected listing of the first finding below;
  `Library.ListSessionsAsWritten` models the page as written.
- Library.NextUntitledNumber, Library.NextUntitledIsFree,
  Library.NextUntitledTitle: the numbers are unbounded integers, not IEEE
  doubles. Above 2^53 the page's `maxNum + 1` can equal `maxNum` and give an
  existing name, so the new chat or note would overwrite it; the model does
  not capture that.
- Strings.ParseNatToString: the round trip holds for unbounded integers. The
  page's `parseInt` rounds long digit strings, and its `${}` formats numbers
  of 10^21 and above as `1e+21`; neither is modelled.
- The editors' name-collision alerts, "A note with this name already exists."
  (apps/inkcaliber-desk/src/pages/notes/active.tsx:101) and "A chat with this
  name already exists." (apps/inkcaliber-desk/src/pages/chat/active.tsx:140).
  Only the `error` status that goes with each is modelled.
- ChatGallery.NewChat: uses one `now` for both times. The page calls
  `new Date()` twice (apps/inkcaliber-desk/src/pages/chat/index.tsx:110-111),
  and the two can differ by a millisecond.
- The Gemini generation settings (temperature, token limits), which are
  passed to the SDK unchanged.

## Findings

| source | as written | input that shows it | evidently intended | confidence | as-written member | corrected member |
|---|---|---|---|---|---|---|
| apps/inkcaliber-desk/src/pages/index.tsx:48 | the session gallery lists every directory in `InkCaliber` except `.trash` | the `chat`, `notes` and `system-prompts` folders that the chat and notes pages create there appear as drawing sessions (for `chat`, with time 0) | only drawing-session folders are listed: the app's own folders are left out | medium, not executed | Library.ListSessionsAsWritten, Library.ChatFolderListedAsSession | Library.ListSessions, Library.ChatFolderNotASession |
