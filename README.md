# Chat session model

This project is a Dafny model of the client-side chat session of a React chat
front end. Its core is the `useChat` hook (src/hooks/useChat.ts). The hook keeps
one chat's messages, its composed message, its attachments and its system prompt.
It sends a message to the model endpoint and reads the streamed reply line by line.

The model also covers:

- the state the chat screen keeps around the hook (src/components/Chat.tsx);
- the file manager dialog (src/components/FileManager.tsx);
- the system prompt dialog (src/components/ConfigDialog.tsx);
- the backend URL builders (src/constants/urls.ts).

Structure:

- **Pure parts** are datatypes, functions and lemmas:
  - `Text`: `trim` and `split("\n")`;
  - `Numbers`: `parseInt` and `toString` of an integer;
  - `Urls`: the URL builders;
  - `Lists`: the `filter` that removes an id;
  - `StreamDecoder`: what one stream line, one chunk, or a run of chunks does to the session.
- **Stateful parts** are classes whose methods update fields in place:
  - `ChatHook.ChatSession` is the hook;
  - `ChatView.ChatView` is the chat screen;
  - `FileManager.FileManager` is the file manager dialog;
  - `ConfigDialog.ConfigDialog` is the system prompt dialog.
- **The read loop.** `HandleSubmit` and `ReadChunks` keep the source's loop over
  chunks and its inner loop over lines. They are proved against `ApplyChunks`.
  The properties of the stream are then proved about `ApplyChunks` as lemmas.

Abstractions:

- A handler that talks to the backend takes the backend's answer as a parameter.
  `Some(data)` is a success, `None` or `false` a failure.
- The handler appends the request it sends to a `requests` log, so "which requests
  are made" is part of the state.
- `JSON.parse` is a parameter `parse: string -> Option<Wire>`. `Wire` holds the
  `type` and `content` fields of a parsed line, and `None` stands for a throw.
- Each handler runs to completion before the next one starts.

The model follows the code as written, including what the code does not do:

- There is no carry-over buffer between chunks. Each chunk is split on its own
  (`ChunksAreLines`). A line cut by a chunk boundary reaches the parser as two
  fragments (`ChunkSeam`, `SpanningLineIsLost`).
- There is no separate assistant message. Every text line replaces the last
  message, so the first one overwrites the optimistic user message
  (`FirstTextReplacesUserMessage`).
- Every `chat_id` line navigates, not only the first one
  (`RepeatedChatIdNavigatesTwice`).
- An earlier stream is never cancelled. The chat screen only disables its inputs
  while streaming.
- Attachment fetches carry no generation counter. A later fetch simply
  overwrites the list.

## Model

| member | source | states |
|---|---|---|
| Text.TrimStart | src/hooks/useChat.ts:91 | the result is a suffix of the input, all that was dropped is whitespace, it does not start with whitespace, and it is empty exactly when the input is all whitespace |
| Text.TrimEnd | src/hooks/useChat.ts:128 | the result is a prefix of the input, all that was dropped is whitespace, it does not end with whitespace, and it is empty exactly when the input is all whitespace |
| Text.Trim | src/hooks/useChat.ts:91 | `trim()` keeps a contiguous part of the string: what it cuts off on either side is whitespace, the result neither starts nor ends with whitespace, and it is empty exactly when the string is all whitespace (the test at lines 91 and 128) |
| Text.Split | src/hooks/useChat.ts:126 | `split("\n")` always yields at least one piece |
| Text.SplitPiecesHaveNoNewline | src/hooks/useChat.ts:126 | no piece of a split contains a line feed |
| Text.JoinSplit | src/hooks/useChat.ts:126 | joining the pieces with line feeds gives back the chunk, so splitting loses no character |
| Text.SplitJoin | src/hooks/useChat.ts:126 | pieces free of line feeds are recovered by splitting their join |
| Text.SplitNoNewline | src/hooks/useChat.ts:126 | a chunk without a line feed is one line |
| Text.SplitConcat | src/hooks/useChat.ts:125-126 | splitting `a + b` fuses the last piece of `a` with the first piece of `b`, which is how one chunk differs from two |
| Numbers.IntToString | src/components/ConfigDialog.tsx:135 | `id.toString()` is a minus sign exactly for a negative id, followed by decimal digits only |
| Numbers.ParseInt | src/components/ConfigDialog.tsx:82 | `parseInt` of an empty or all-whitespace string is `NaN`; the lemmas below give its value on numerals |
| Numbers.ParseMagnitude | src/components/ConfigDialog.tsx:82 | the unsigned part of `parseInt` is `NaN` when it does not start with a decimal digit |
| Numbers.DigitRunLength | src/components/ConfigDialog.tsx:82 | `parseInt` reads the longest run of digits: all read characters are digits and the next one is not |
| Numbers.NatToString | src/components/ConfigDialog.tsx:135 | `toString` of a natural number is a non-empty string of decimal digits without a leading zero |
| Numbers.NatToStringValue | src/components/ConfigDialog.tsx:135 | the decimal digits of `toString(n)` have the value `n` |
| Numbers.ParseIntOfToString | src/components/ConfigDialog.tsx:81-83 | `parseInt(id.toString()) === id` for every integer id |
| Numbers.IntToStringInjective | src/components/ConfigDialog.tsx:135 | distinct ids give distinct item values |
| Numbers.ParseIntIgnoresTrailing | src/components/ConfigDialog.tsx:82 | `parseInt` stops at the first non-digit, except that `0x` starts a hexadecimal numeral |
| Numbers.ParseIntOfDecimal | src/components/ConfigDialog.tsx:82 | a decimal numeral followed by a non-digit that does not form `0x` reads as the numeral's value |
| Urls.Chat | src/constants/urls.ts:6 | `chat(chatId)`; its shape is stated by `IdsEmbeddedVerbatim`, `AllUrlsWellShaped` and `BuildersInjective` |
| Urls.UpdateSystemPrompt | src/constants/urls.ts:9-10 | `updateSystemPrompt(chatId)`; its shape is stated by `IdsEmbeddedVerbatim` and `ChatPromptUrlIsNotSavedPromptUrl` |
| Urls.UpdateSavedSystemPrompt | src/constants/urls.ts:11-12 | `updateSavedSystemPrompt(promptId)`, which writes the id's decimal string; stated by `IdsEmbeddedVerbatim` and `SavedPromptIdReadable` |
| Urls.Upload | src/constants/urls.ts:13 | `upload(chatId)`; its shape is stated by `IdsEmbeddedVerbatim` |
| Urls.Attachments | src/constants/urls.ts:14 | `attachments(chatId)`; its shape is stated by `IdsEmbeddedVerbatim` and `BuildersInjective` |
| Urls.DeleteAttachment | src/constants/urls.ts:15-16 | `deleteAttachment(attachmentId)`; its shape is stated by `IdsEmbeddedVerbatim` and `BuildersInjective` |
| Urls.FileContent | src/constants/urls.ts:17-18 | `fileContent(attachmentId)`; stated by `IdsEmbeddedVerbatim` and `FileContentExtendsDeleteAttachment` |
| Urls.IdsEmbeddedVerbatim | src/constants/urls.ts:6-18 | each builder is its fixed prefix, the id pasted verbatim, and its fixed suffix; the saved-prompt builder pastes the id's decimal string |
| Urls.AllUrlsWellShaped | src/constants/urls.ts:2-18 | every URL starts with the base URL and ends with `/` |
| Urls.FileContentExtendsDeleteAttachment | src/constants/urls.ts:15-18 | `fileContent(id) == deleteAttachment(id) + "content/"` |
| Urls.BuildersInjective | src/constants/urls.ts:6-16 | distinct ids give distinct chat, attachment-list, attachment and saved-prompt URLs |
| Urls.SavedPromptIdReadable | src/constants/urls.ts:11-12 | the id segment of a saved-prompt URL reads back with `parseInt` as the id |
| Urls.ChatPromptUrlIsNotSavedPromptUrl | src/constants/urls.ts:9-12 | the per-chat prompt URL is never a saved prompt's URL |
| Lists.RemoveAll | src/components/Chat.tsx:52 | `filter((id) => id !== x)`, whose result is never longer than the list; what it keeps is stated by `RemoveAllSpec` |
| Lists.RemoveAllSpec | src/components/Chat.tsx:52 | after `filter((id) => id !== x)`, `x` is absent, every other id keeps its count, and the survivors keep their order |
| Lists.RemoveAbsent | src/components/Chat.tsx:52 | removing an absent id leaves the list unchanged |
| Lists.RemoveAllConcat | src/components/FileManager.tsx:159 | removal distributes over concatenation |
| Lists.CheckThenUncheck | src/components/FileManager.tsx:155-159 | checking then unchecking a file gives the selection without it, and the original selection if it was not selected |
| StreamDecoder.ClassifyAsSource | src/hooks/useChat.ts:128-142 | a line whose `trim()` is empty is skipped; otherwise a line `JSON.parse` rejects is dropped, a `text` line appends its `content`, a `chat_id` line navigates to its `content`, and any other `type` is ignored |
| StreamDecoder.DropLast | src/hooks/useChat.ts:134 | `slice(0, -1)` drops exactly the last message, and leaves an empty list empty |
| StreamDecoder.Step | src/hooks/useChat.ts:131-138 | one line's effect: a text line extends the accumulator and replaces the last message by the assistant message holding it, a `chat_id` line logs one navigation, any other line changes nothing; its cumulative effect is `ApplyLinesEffect` |
| StreamDecoder.ApplyLines | src/hooks/useChat.ts:127-143 | `lines.forEach`: the steps of the lines in order; stated by `ApplyLinesEffect` and `ApplyLinesAppend` |
| StreamDecoder.ApplyChunks | src/hooks/useChat.ts:122-145 | the read loop: each chunk split on its own and its lines applied in order; stated by `ChunksAreLines` and `ApplyChunksAppend` |
| StreamDecoder.ApplyLinesEffect | src/hooks/useChat.ts:118-143 | after any run of lines, the accumulator has grown by the contents of the text lines in order, one navigation per `chat_id` line is logged, and the messages are unchanged unless a text line came, in which case the last message is the assistant message holding the whole accumulator |
| StreamDecoder.ApplyLinesAppend | src/hooks/useChat.ts:127 | handling `a + b` is handling `a`, then `b` |
| StreamDecoder.ApplyChunksAppend | src/hooks/useChat.ts:122-145 | chunks are applied in order; a read that fails after some chunks keeps their effect |
| StreamDecoder.ChunksAreLines | src/hooks/useChat.ts:122-126 | the effect of chunks c1..cn is that of the lines of `split(c1)` through `split(cn)` in order |
| StreamDecoder.ChunkSeam | src/hooks/useChat.ts:125-126 | two chunks give the lines of each, while the same text in one chunk gives the boundary fragments fused |
| StreamDecoder.LineCutAcrossChunks | src/hooks/useChat.ts:125-126 | a line cut by a chunk boundary reaches the parser as two fragments and never as a whole |
| StreamDecoder.SpanningLineIsLost | src/hooks/useChat.ts:125-143 | when neither fragment of a cut line parses, the cut line has no effect, whereas in one chunk it would have been applied |
| StreamDecoder.SkippedLineIsTransparent | src/hooks/useChat.ts:128-142 | a blank, unparsable or unrecognised line has no effect, and the lines after it are still applied |
| StreamDecoder.FirstTextReplacesUserMessage | src/hooks/useChat.ts:93-94 | with any text line, the messages end as the history plus one assistant message holding all text, so the optimistic user message is gone; without one the user message stays |
| StreamDecoder.EarlierMessagesUntouched | src/hooks/useChat.ts:133-135 | every message before the last is left as it was |
| StreamDecoder.RepeatedChatIdNavigatesTwice | src/hooks/useChat.ts:137-138 | each `chat_id` line navigates to `/chat/` + content, repeats included, and leaves the messages alone |
| ChatHook.SubmitIgnored | src/hooks/useChat.ts:91 | the submit guard: the text is all whitespace and no file is attached; `SubmitGuardCases` ties it to `trim` |
| ChatHook.SubmitGuardCases | src/hooks/useChat.ts:91 | a submit is ignored exactly when the trimmed text is empty and no file is attached |
| ChatHook.ChatSession.constructor | src/hooks/useChat.ts:21-28 | the initial values of the hook's state |
| ChatHook.ChatSession.LoadChat | src/hooks/useChat.ts:31-39 | for `"new"` the messages become empty; otherwise messages, system prompt and attachments are loaded; saved prompts are loaded in both cases; the three requests are logged in issue order, and the error is that of the last failing fetch in that order |
| ChatHook.ChatSession.FetchMessages | src/hooks/useChat.ts:41-53 | a success replaces the messages and the system prompt; a failure keeps them and sets the error |
| ChatHook.ChatSession.FetchAttachments | src/hooks/useChat.ts:55-69 | a success replaces the attachments; a failure sets the error; the loading flag ends false |
| ChatHook.ChatSession.RefreshAttachments | src/hooks/useChat.ts:71-73 | fetches the attachments again, unguarded |
| ChatHook.ChatSession.FetchSavedSystemPrompts | src/hooks/useChat.ts:75-86 | a success replaces the saved prompts; a failure sets the error |
| ChatHook.ChatSession.SetNewMessage | src/components/Chat.tsx:163 | the composed message becomes the input's value |
| ChatHook.ChatSession.HandleSubmit | src/hooks/useChat.ts:88-155 | an ignored submit changes nothing; otherwise the user message is appended, the box and the error are cleared, one request carries the chat id, text and ids, the reply's chunks have exactly the effect `ApplyChunks` gives, a refusal or failing read sets the error and keeps what was applied, and `isStreaming` ends false |
| ChatHook.ChatSession.ReadChunks | src/hooks/useChat.ts:118-145 | the read loop, starting from an empty accumulator, has the effect `ApplyChunks` gives on the chunks read |
| ChatHook.ChatSession.HandleStreamLine | src/hooks/useChat.ts:127-143 | the per-line callback has the effect of one decoder `Step` for the line's classification |
| ChatHook.ChatSession.HandleAttachment | src/hooks/useChat.ts:157-178 | the file is posted to the chat's upload URL; a success fetches the attachments again, a failure sets the error |
| ChatHook.ChatSession.RemoveAttachment | src/hooks/useChat.ts:180-195 | the attachment's URL is deleted; a success fetches the attachments again, a failure sets the error |
| ChatHook.ChatSession.HandleSystemPromptChange | src/hooks/useChat.ts:197-199 | the system prompt changes locally and nothing is sent |
| ChatHook.ChatSession.HandleSaveSystemPrompt | src/hooks/useChat.ts:201-218 | title and prompt are posted; a success fetches the saved prompts again, a failure sets the error |
| ChatHook.ChatSession.HandleUpdateSystemPrompt | src/hooks/useChat.ts:220-233 | the current per-chat system prompt is posted to the chat's own prompt URL; a failure sets the error |
| ChatView.EffectiveChatId | src/components/Chat.tsx:40 | the chat id is the route's, or `"new"` when it is missing or empty; never empty |
| ChatView.ChatView.constructor | src/components/Chat.tsx:21-40 | the session and the file manager both get the effective chat id, and the session is loaded from the hook's initial state: messages, system prompt and attachments from their responses unless the chat is `"new"`, the saved prompts, the requests in issue order and the resulting error |
| ChatView.ChatView.RouteChanged | src/components/Chat.tsx:40 | the session and the file manager follow the route's effective chat id; a changed id reloads the session exactly as `LoadChat` does, an unchanged one changes nothing, and the open file manager fetches again for a changed id |
| ChatView.ChatView.HandleFileAttach | src/components/Chat.tsx:46-49 | the attached ids become exactly the given ones |
| ChatView.ChatView.HandleRemoveAttachedFile | src/components/Chat.tsx:51-54 | every occurrence of the id is dropped, the rest keep their order, and an absent id changes nothing |
| ChatView.ChatView.HandleSendMessage | src/components/Chat.tsx:65-69 | the submit gets the current attached ids, which are then cleared; an ignored submit leaves the session as it was, otherwise the session's messages, navigations and error are the `ApplyChunks` effect of the reply on the history plus the user message |
| ChatView.ChatView.AttachSelectedFiles | src/components/Chat.tsx:173-176 | the file manager's selection becomes the attached ids, and the file manager closes empty |
| ChatView.ChatView.SelectSavedPrompt | src/components/Chat.tsx:193-199 | the found saved prompt becomes the session's system prompt and the dialog selects its id and title; an unmatched value changes neither |
| ChatView.ChatView.SavePrompt | src/components/Chat.tsx:195 | the dialog's title and the current prompt are posted, a success fetches the saved prompts again, a failure sets the error, and the title is always cleared, since the session's handler never rejects |
| ChatView.ChatView.UpdatePrompt | src/components/Chat.tsx:196 | with a prompt selected, the one request posts the current per-chat prompt to the chat's URL, a failure sets the error, and `isUpdating` ends false; the selected id is ignored and no saved prompt URL is requested |
| ChatView.ChatView.DeleteAttachment | src/components/Chat.tsx:56-63 | the sidebar's delete sends the attachment's DELETE; a success fetches the attachments again, a failure sets the error and keeps the list |
| FileManager.FileManager.constructor | src/components/FileManager.tsx:28-33 | the initial values of the dialog's state |
| FileManager.FileManager.FetchAttachments | src/components/FileManager.tsx:41-55 | the error is cleared then set on failure, the list is replaced on success, and the loading flag ends false |
| FileManager.FileManager.SetOpen | src/components/FileManager.tsx:35-39 | opening a closed dialog fetches the attachments; other changes fetch nothing |
| FileManager.FileManager.SetChatId | src/components/FileManager.tsx:35-39 | a changed chat id fetches again while the dialog is open |
| FileManager.FileManager.HandleFileUpload | src/components/FileManager.tsx:57-91 | no file is a no-op; otherwise the file is posted, a success fetches again, a failure sets the error, and loading and progress end reset |
| FileManager.FileManager.HandleDeleteAttachment | src/components/FileManager.tsx:93-107 | the attachment is deleted, a success fetches again, a failure sets the error, and loading ends false |
| FileManager.FileManager.ToggleFile | src/components/FileManager.tsx:153-161 | checking appends the id at the end; unchecking removes every occurrence and keeps the order of the rest |
| FileManager.FileManager.AttachDisabled | src/components/FileManager.tsx:181 | the attach button is disabled when nothing is selected or a request is in flight |
| FileManager.FileManager.HandleAttach | src/components/FileManager.tsx:109-113 | the selection is handed over, the dialog closes and the selection empties; with the button enabled the selection is not empty |
| ConfigDialog.FindPrompt | src/components/ConfigDialog.tsx:81-83 | the first entry whose id equals the target, and none exactly when no entry matches |
| ConfigDialog.SelectItemFindsItem | src/components/ConfigDialog.tsx:81-83 | choosing an item finds an entry with its id, and the item itself when no earlier entry shares it |
| ConfigDialog.ConfigDialog.constructor | src/components/ConfigDialog.tsx:47-50 | the initial values of the dialog's state |
| ConfigDialog.ConfigDialog.SetPromptTitle | src/components/ConfigDialog.tsx:103 | the title becomes the input's value |
| ConfigDialog.ConfigDialog.HandleSelect | src/components/ConfigDialog.tsx:80-90 | a value matching a saved id selects the first such entry's id, title and prompt; otherwise nothing changes |
| ConfigDialog.ConfigDialog.HandleSave | src/components/ConfigDialog.tsx:52-64 | title and prompt go to the callback, the title is cleared unless the callback rejects, and `isSaving` ends false |
| ConfigDialog.ConfigDialog.UpdateDisabled | src/components/ConfigDialog.tsx:124 | the update button is disabled while updating or when no saved prompt is selected |
| ConfigDialog.ConfigDialog.HandleUpdate | src/components/ConfigDialog.tsx:66-78 | without a selection nothing happens; otherwise the selected id, title and prompt go to the callback and `isUpdating` ends false |

## Left out

- Transport and authentication: axios and `fetch` options, the token header, and multipart bodies. Requests are logged by URL and payload.
- `JSON.parse` itself is a parameter. Only the `type` and `content` fields of a parsed line are modelled.
- `TextDecoder`: chunks are already-decoded strings. A multi-byte character cut by a chunk boundary is not modelled.
- The upload percentage `Math.round(loaded * 100 / total)` is floating point. Only the resets of `uploadProgress` to 0 are modelled.
- React scheduling is not modelled:
  - interleaving of handlers that are still awaiting;
  - un-awaited re-fetches that finish after the handler that started them;
  - stale `useCallback` closures;
  - the load effect a navigation triggers while the stream is still being read.
  Each handler runs to completion in turn. So `isStreaming` and the loading flags are observed only at rest, and the `disabled` inputs of src/components/Chat.tsx:165,170 have no overlapping submit to prevent.
- Toasts, console logging, scrolling and all rendering.
- `Number.prototype.toString` is modelled for integers only. Exponent notation and fractional ids are not modelled.
- The response data is trusted to have the expected shape: `messages`, `system_prompt`, and lists of attachments and saved prompts.
- ChatHook.ChatSession.LoadChat: the error it states assumes the three un-awaited fetches finish in the order they are issued (messages, attachments, saved prompts). In the source they race, and the error of whichever failing fetch finishes last is the one that stays.
- The sidebar, chat list, app shell and `refreshAttachments`' toast (src/components/AttachmentSidebar.tsx, Sidebar.tsx, ChatList.tsx, App.tsx) are not part of this model.
