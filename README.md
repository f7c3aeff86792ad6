# llcli_rs session core, modelled in Dafny

llcli_rs is a terminal client for a hosted large language model. This project is a model of its core:

- **Two full-screen chat sessions.**
  - The older one is in `ratatui_app/mod.rs`.
  - The newer one is in `ratatui_app/state_handling.rs` and adds the LLM options popover.
  - Each folds three kinds of input into its state: terminal key events, the chunks of a streamed reply, and errors.
- **The stream tasks** that forward a reply's chunks to the session.
- **The key classifier** of `input.rs`.
- **The provider's transcript and capability flags.**
- **API-key and backend selection.**
- **The line-mode prompt and its helpers:**
  - classifying a typed line;
  - file uploads and path completion;
  - stripping code fences from a reply;
  - mapping prompt errors.

Each session is a class (`Session.App`, `LegacySession.LegacyApp`) whose fields follow the Rust `App`: the event channel becomes a sequence of events, and an extra field, `launched`, records the prompt of each stream task spawned. The provider the session drives is a `Provider.Provider` object. Every session method is proved against a specification function on one state record, `SessionState.AppState`. For example, `App.HandleEvent(e)` ensures that the new state and the returned outcome are `Session.EventTransition(old state, e)`. The lemmas then state what the source promises about those functions:

- the chunk rule and its concatenation over a whole reply;
- the key bindings in their precedence order;
- the popover's bindings and its fall-through;
- the error paths;
- the invariant that the streaming target is always a valid Model entry;
- run-level facts, such as nothing being handled after exit.

Some things are parameters instead of being modelled:

- The text area's editing (`edit`).
- The newer revision's key decoder `Input::from(key_event)` (`decode`), which is not among the modelled files.
- The glob expansion, directory test and file read of the file-input handler.
- The API-key store's answer and the key prompt.
- Whether the session's channel receiver accepts a send (`Stream.ReceiverLife`).

The async event channel becomes a sequence of events: `RunEvents` methods over `Run` functions. The stream is a sequence of items.

## Model

| member | source | states |
|---|---|---|
| KeyInput.Classify | src/cli_handler/ratatui_app/input.rs:17-45 | definition: the global arms, then the zone arms, in source order; properties in the KeyInput rows below, ClassifyTable giving the full table |
| KeyInput.EscQuitsEverywhere | src/cli_handler/ratatui_app/input.rs:22-23 | Esc is Quit in every zone |
| KeyInput.GlobalBeforeZone | src/cli_handler/ratatui_app/input.rs:22-30 | Esc, Ctrl-k and Ctrl-j get their global meaning whatever the zone, before any zone binding |
| KeyInput.TextInputBindings | src/cli_handler/ratatui_app/input.rs:33-36 | in the text input Ctrl-s is Submit and every other non-global key, plain q included, is passed to the text area unchanged |
| KeyInput.ChatHistoryBindings | src/cli_handler/ratatui_app/input.rs:33-42 | in the chat history plain q quits, plain k and j scroll, and every other non-global key means nothing |
| KeyInput.ClassifyTable | src/cli_handler/ratatui_app/input.rs:17-45 | each classifier result, and exactly the keys and zones that produce it (both directions) |
| Tools.FromRepr | src/cli_handler/ratatui_app/tool_list_popover.rs:19-22 | a discriminant names a tool exactly when it is 0, and 0 is Search |
| Tools.SearchDefault | src/provider/mod.rs:200-208 | search starts on exactly when the configuration's tools table sets search_default to true |
| Tools.MergedSearch | src/provider/mod.rs:210-214 | after a merge, search is on exactly when either side had it |
| Tools.ToggledSearch | src/cli_handler/ratatui_app/tool_list_popover.rs:24-31 | toggling a tool always changes its flag |
| Tools.LLMTools.constructor | src/provider/mod.rs:200-208 | the flags start from the configured default |
| Tools.LLMTools.Merge | src/provider/mod.rs:210-214 | merge updates the flag in place as MergedSearch says |
| Tools.LLMTools.Toggle | src/cli_handler/ratatui_app/tool_list_popover.rs:24-31 | toggle updates the flag in place as ToggledSearch says |
| Tools.MergeMonotone | src/provider/mod.rs:210-214 | merging never switches search off |
| Tools.MergeIdempotent | src/provider/mod.rs:210-214 | merging the same flags twice equals merging once; merging default flags changes nothing |
| Tools.ToggleInvolution | src/cli_handler/ratatui_app/tool_list_popover.rs:24-31 | toggling twice restores the flag |
| Tools.ToolListItem | src/cli_handler/ratatui_app/tool_list_popover.rs:49-58 | an enabled tool is listed green with a check mark, a disabled one with an empty box |
| Tools.PopupItems | src/cli_handler/ratatui_app/tool_list_popover.rs:70-76 | the popover lists one item per tool, in enumeration order |
| Tools.PopupListsWebSearch | src/cli_handler/ratatui_app/tool_list_popover.rs:49-76 | the popover lists exactly one item, Web Search, labelled by the flag; index 0 names it |
| Provider.UserChat | src/provider/mod.rs:244-249 | a User chat holding the text |
| Provider.ModelChat | src/provider/mod.rs:251-256 | a Model chat holding the text |
| Provider.Display | src/provider/mod.rs:259-267 | each role's bubble title, as an if-and-only-if per title |
| Provider.DisplayInjective | src/provider/mod.rs:260-266 | distinct roles have distinct titles |
| Provider.AppendedAt | src/provider/mod.rs:171-179 | appending to an index extends that chat's text and changes no other entry; an invalid index changes nothing |
| Provider.Provider.constructor | src/provider/mod.rs:118-121 | the provider the session drives holds exactly the given history and capability flags |
| Provider.Provider.AddChatToContext | src/provider/mod.rs:162-169 | the item is appended to the history and its index returned |
| Provider.Provider.AppendChatInContext | src/provider/mod.rs:171-179 | the history becomes AppendedAt of the old one |
| Provider.NewOnlineProvider | src/provider/mod.rs:25-48 | a stored key is used; a missing key is prompted for, or panics when there is no prompt; a keychain failure panics; the url and model come from the configuration |
| Provider.StoredKeyWins | src/provider/mod.rs:32-34 | a stored key builds the provider whatever the prompt would answer |
| Provider.NewBackend | src/provider/mod.rs:142-154 | "gemini" resolves the key and then builds the HTTP client, panicking if either fails; any other name panics |
| Provider.OnlyGeminiBuilds | src/provider/gemini.rs:26-36 | given a stored key, a backend is built exactly when the name is "gemini" and the HTTP client builds; a missing key with no prompt panics before the client is tried |
| SessionState.WithChunk | src/cli_handler/ratatui_app/state_handling.rs:32-41 | definition of the chunk rule; properties in SessionState.ChunkRule, ChunksExtendTarget and ChunksBuildOneEntry |
| SessionState.Submitted | src/cli_handler/ratatui_app/state_handling.rs:160-172 | definition of submit_prompt on the state; properties in SessionState.SubmitRule |
| SessionState.ZoneAfter | src/cli_handler/ratatui_app/state_handling.rs:189-208 | changing window always moves the focus to the other zone |
| SessionState.ChunkRule | src/cli_handler/ratatui_app/state_handling.rs:32-41 | with no target, a chunk adds a Model chat holding exactly the chunk and makes it the target; with a target, it extends that chat's text and changes nothing else; the target stays valid |
| SessionState.SubmitRule | src/cli_handler/ratatui_app/state_handling.rs:160-172 | submitting appends a User chat with the draft lines joined by newlines, clears the draft, starts generating, starts one stream task for that prompt, and changes nothing else |
| SessionState.ZoneSwitchTwice | src/cli_handler/ratatui_app/state_handling.rs:189-208 | both directions act alike, and two switches restore the zone |
| SessionState.ChunksExtendTarget | src/cli_handler/ratatui_app/state_handling.rs:34-35 | chunks sent to an existing target all land, in order, at the end of its text |
| SessionState.ChunksBuildOneEntry | src/cli_handler/ratatui_app/state_handling.rs:32-41 | the chunks of one reply, starting with no target, build exactly one new Model entry holding their concatenation |
| Session.KeyTransition | src/cli_handler/ratatui_app/state_handling.rs:60-158 | definition: popover, then global bindings, then zone; properties in Session.PopoverBindings, PopoverFallsThrough, TextInputRules and ChatHistoryRules |
| Session.EventTransition | src/cli_handler/ratatui_app/state_handling.rs:24-58 | definition of handle_event; properties in Session.IgnoredEvents, ChunkEventRule, ResetEvents and EventKeepsStreamTarget |
| Session.Run | src/cli_handler/ratatui_app/mod.rs:71-78 | definition of the loop, stopping on exit or on a failed step; properties in Session.RunAppend, RunChunks, RunKeepsStreamTarget and ExitStopsRun |
| Session.App.constructor | src/cli_handler/ratatui_app/mod.rs:46-57 | a fresh session: focus on the text input, not generating, no target, not exiting, an empty draft, no popover |
| Session.App.Exit | src/cli_handler/ratatui_app/state_handling.rs:185-187 | only the exit flag is set |
| Session.App.ChangeWindow | src/cli_handler/ratatui_app/state_handling.rs:189-208 | only the focus changes, as ZoneAfter says |
| Session.App.ScrollChatHistory | src/cli_handler/ratatui_app/state_handling.rs:174-183 | only the scroll offset changes, saturating at 0 and at the u16 maximum |
| Session.App.SubmitPrompt | src/cli_handler/ratatui_app/state_handling.rs:160-172 | the state becomes Submitted of the old one |
| Session.App.HandleKeyEvent | src/cli_handler/ratatui_app/state_handling.rs:60-158 | the new state and outcome are KeyTransition of the old state: popover first, then the global bindings, then the zone |
| Session.App.HandleEvent | src/cli_handler/ratatui_app/state_handling.rs:24-58 | the new state and outcome are EventTransition of the old state |
| Session.App.RunEvents | src/cli_handler/ratatui_app/mod.rs:71-78 | the new state and outcome are Run over the events: each is handled until exit is set or a step fails |
| Session.IgnoredEvents | src/cli_handler/ratatui_app/state_handling.rs:26-31 | key releases, key repeats and ticks change nothing |
| Session.ChunkEventRule | src/cli_handler/ratatui_app/state_handling.rs:32-41 | a chunk event never fails and acts as the chunk rule |
| Session.ResetEvents | src/cli_handler/ratatui_app/state_handling.rs:42-54 | Finished, and an error not rooted in IO, end the generation and clear the target; an IO-rooted error is returned and changes nothing |
| Session.RunAppend | src/cli_handler/ratatui_app/mod.rs:71-78 | running a + b is running a, then b from where a stopped, unless a failed |
| Session.RunChunks | src/cli_handler/ratatui_app/state_handling.rs:32-41 | a run of chunk events never stops and equals the chunk rule folded over the chunks |
| Session.ChunksThenFinishedBuildOneEntry | src/cli_handler/ratatui_app/state_handling.rs:32-46 | a reply's chunks then Finished leave one new Model entry holding the whole reply, with the generation ended |
| Session.PopoverBindings | src/cli_handler/ratatui_app/state_handling.rs:66-106 | with the popover open, Back closes it, Quit exits, ScrollUp and ScrollDown move the list selection, and Toggle flips the selected tool (no selection: nothing; an index naming no tool: the error); none of these touch focus, generation, history, draft or scroll |
| Session.PopoverFallsThrough | src/cli_handler/ratatui_app/state_handling.rs:100-144 | input the popover does not handle goes on to the global bindings and then the zone, exactly as with no popover |
| Session.PopoverLetsTextThrough | src/cli_handler/ratatui_app/state_handling.rs:137-144 | with the popover open, text input still edits the draft |
| Session.ToggleLlmOptionsFlips | src/cli_handler/ratatui_app/state_handling.rs:122-129 | ToggleLlmOptions opens a closed popover and closes an open one; twice restores the state |
| Session.ChangeWindowTwice | src/cli_handler/ratatui_app/state_handling.rs:114-121 | a window key always moves the focus, and any two restore the state |
| Session.TextInputRules | src/cli_handler/ratatui_app/state_handling.rs:137-144 | in the text input Submit submits even while a reply streams; any other input edits the draft, even while generating |
| Session.ChatHistoryRules | src/cli_handler/ratatui_app/state_handling.rs:145-154 | in the chat history Submit submits only when not generating; scrolling moves the offset; anything else does nothing |
| Session.EventKeepsStreamTarget | src/cli_handler/ratatui_app/state_handling.rs:24-58 | every event keeps the streaming target a valid Model entry |
| Session.RunKeepsStreamTarget | src/cli_handler/ratatui_app/mod.rs:71-78 | every run of events keeps the streaming target valid |
| Session.ChunkAfterResetTargetsWhileIdle | src/cli_handler/ratatui_app/state_handling.rs:32-54 | a chunk arriving after an error reset never fails and opens a new Model entry as the streaming target, while generating stays false |
| Session.ExitStopsRun | src/cli_handler/ratatui_app/mod.rs:72-72 | nothing is handled once exit is set |
| Session.ScrollPastToolListFails | src/cli_handler/ratatui_app/state_handling.rs:82-98 | with nothing selected in the one-item tool list, two ScrollDown and a Toggle select index 1 and end the run with the unknown-index error |
| Session.SubmitAndAnswer | src/cli_handler/ratatui_app/state_handling.rs:24-58 | submitting "hello", then chunks "Hi" and " there", then Finished, leaves the transcript [User "hello", Model "Hi there"] and the session idle with an empty draft |
| LegacySession.LegacyKeyTransition | src/cli_handler/ratatui_app/mod.rs:158-187 | definition: the arms of the older match in order; properties in LegacySession.LegacyGlobalKeys, LegacyTextInputKeys, LegacyChatHistoryKeys and ShiftedScrollKeys |
| LegacySession.LegacyEventTransition | src/cli_handler/ratatui_app/mod.rs:133-156 | definition of the older handle_event; properties in LegacySession.LegacyIgnoredEvents, LegacyStreamEventsAgree and LegacyKeepsStreamTarget |
| LegacySession.LegacyRun | src/cli_handler/ratatui_app/mod.rs:71-78 | definition of the older loop, stopping on exit; properties in LegacySession.LegacyRunKeepsStreamTarget, LegacyExitStopsRun and LegacyEscEndsRun |
| LegacySession.LegacyApp.constructor | src/cli_handler/ratatui_app/mod.rs:46-57 | a fresh session: focus on the text input, not generating, no target, not exiting, an empty draft |
| LegacySession.LegacyApp.Exit | src/cli_handler/ratatui_app/mod.rs:214-216 | only the exit flag is set |
| LegacySession.LegacyApp.ChangeWindow | src/cli_handler/ratatui_app/mod.rs:218-237 | only the focus changes, as ZoneAfter says |
| LegacySession.LegacyApp.ScrollChatHistory | src/cli_handler/ratatui_app/mod.rs:203-212 | only the scroll offset changes, saturating |
| LegacySession.LegacyApp.SubmitPrompt | src/cli_handler/ratatui_app/mod.rs:189-201 | the state becomes Submitted of the old one |
| LegacySession.LegacyApp.HandleKeyEvent | src/cli_handler/ratatui_app/mod.rs:158-187 | the new state is LegacyKeyTransition of the old one, the match arms in source order |
| LegacySession.LegacyApp.HandleEvent | src/cli_handler/ratatui_app/mod.rs:133-156 | the new state is LegacyEventTransition of the old one |
| LegacySession.LegacyApp.RunEvents | src/cli_handler/ratatui_app/mod.rs:71-78 | the new state is LegacyRun over the events: each is handled until exit is set |
| LegacySession.LegacyIgnoredEvents | src/cli_handler/ratatui_app/mod.rs:133-156 | releases, repeats, ticks and errors change nothing; an error does not end the generation here |
| LegacySession.LegacyStreamEventsAgree | src/cli_handler/ratatui_app/mod.rs:140-152 | chunk and Finished events act as in the newer revision |
| LegacySession.LegacyGlobalKeys | src/cli_handler/ratatui_app/mod.rs:160-167 | Esc exits from either zone; Ctrl-k and Ctrl-j swap the focus |
| LegacySession.LegacyTextInputKeys | src/cli_handler/ratatui_app/mod.rs:175-183 | in the text input Ctrl-s submits even while generating; any other key edits the draft only when not generating |
| LegacySession.LegacyChatHistoryKeys | src/cli_handler/ratatui_app/mod.rs:169-174 | in the chat history, for every key that is not Esc, Ctrl-k or Ctrl-j: j and k scroll with any other modifiers, and every other key, Ctrl-s included, does nothing |
| LegacySession.LegacyDraftFrozenWhileGenerating | src/cli_handler/ratatui_app/mod.rs:175-183 | while generating, the draft changes only by being submitted from the text input |
| LegacySession.ShiftedScrollKeys | src/cli_handler/ratatui_app/mod.rs:169-174 | in the chat history, j and k with any modifiers other than none or exactly Control scroll the older session, while the classifier reports no input for them |
| LegacySession.LegacyKeepsStreamTarget | src/cli_handler/ratatui_app/mod.rs:133-156 | every event keeps the streaming target a valid Model entry |
| LegacySession.LegacyRunKeepsStreamTarget | src/cli_handler/ratatui_app/mod.rs:71-78 | every run of the older loop keeps the streaming target valid |
| LegacySession.LegacyExitStopsRun | src/cli_handler/ratatui_app/mod.rs:72-72 | the older loop handles nothing once exit is set |
| LegacySession.LegacyEscEndsRun | src/cli_handler/ratatui_app/mod.rs:71-78 | an Esc press ends the older loop: the state is the exit state and no later event is handled |
| Stream.Received | src/cli_handler/ratatui_app/state_handling.rs:225-245 | what reaches the session is a prefix of what the task sends, all of it while the receiver stays open |
| Stream.ItemEvent | src/cli_handler/ratatui_app/state_handling.rs:226-242 | a text item becomes a chunk event; a failed item becomes an error whose message names the stream and whose root cause is not IO |
| Stream.LegacyItemEvent | src/cli_handler/ratatui_app/mod.rs:309-322 | a text item becomes a chunk event; a failed item becomes a bare error |
| Stream.StreamEvents | src/cli_handler/ratatui_app/state_handling.rs:225-244 | one event per item, each the mapping of the item at the same position |
| Stream.TaskEvents | src/cli_handler/ratatui_app/state_handling.rs:211-246 | definition of what the newer task sends; properties in Stream.TaskEventCounts and FinishedOnlyLast |
| Stream.ForwardItems | src/cli_handler/ratatui_app/state_handling.rs:225-245 | the session receives one event per item in order, then Finished, cut at the first refused send; the items taken from the stream are counted |
| Stream.HandleLlmStream | src/cli_handler/ratatui_app/state_handling.rs:211-246 | a stream that cannot be created gives the one error event and nothing is pulled; otherwise the items are forwarded |
| Stream.LegacyHandleLlmStream | src/cli_handler/ratatui_app/mod.rs:302-326 | a stream that cannot be created panics the task before anything is sent; otherwise the items are forwarded |
| Stream.StreamEventsCounts | src/cli_handler/ratatui_app/state_handling.rs:225-244 | one chunk per text item, one error per failed item, and no Finished among the item events |
| Stream.TaskEventCounts | src/cli_handler/ratatui_app/state_handling.rs:211-246 | a failed creation sends one error and no Finished; a stream sends as many chunks as text items, as many errors as failed items, and exactly one Finished, last |
| Stream.FinishedOnlyLast | src/cli_handler/ratatui_app/state_handling.rs:211-246 | a Finished the session receives is the task's last event, and only a created stream sends one |
| Layout.WordLen | src/cli_handler/ratatui_app/mod.rs:120-120 | a word's length is its UTF-8 length truncated to 16 bits |
| Layout.CountWrappedLines | src/cli_handler/ratatui_app/mod.rs:115-131 | the nested loop computes WrappedLines: rows per line, a new row whenever a word does not fit, one for the row in progress |
| Layout.RowsBounds | src/cli_handler/ratatui_app/mod.rs:119-128 | a line of n words takes at least one row and at most n + 1 |
| Layout.RowsAtWidthZero | src/cli_handler/ratatui_app/mod.rs:121-123 | at width 0 every word opens a row |
| Layout.RowsWhenFitting | src/cli_handler/ratatui_app/mod.rs:121-126 | words that fit together with their spaces stay in one row |
| Layout.SumRowsBounds | src/cli_handler/ratatui_app/mod.rs:117-129 | the text takes at least one row per line and at most one more per word |
| Layout.WrappedLinesBounds | src/cli_handler/ratatui_app/mod.rs:115-131 | empty text takes no rows; bounds per line and per word |
| Layout.ItemHeight | src/cli_handler/ratatui_app/mod.rs:105-110 | a file upload is 3 rows; a chat is its wrapped lines plus 2 |
| Layout.LayoutConstraints | src/cli_handler/ratatui_app/mod.rs:272-277 | one constraint per history entry, its height |
| Layout.FoldSumIsSum | src/cli_handler/ratatui_app/mod.rs:111-112 | the reduce by + is the sum |
| Layout.TotalHeight | src/cli_handler/ratatui_app/mod.rs:101-113 | definition of count_total_height; properties in Layout.TotalHeightIsLayoutSum, TotalHeightAppend and TotalHeightAtLeastBorders |
| Layout.TotalHeightIsLayoutSum | src/cli_handler/ratatui_app/mod.rs:101-113 | the scroll view's height is exactly the sum of the bubble constraints it lays out, 0 for an empty history |
| Layout.TotalHeightAppend | src/cli_handler/ratatui_app/mod.rs:101-113 | a new entry adds exactly its own height |
| Layout.TotalHeightAtLeastBorders | src/cli_handler/ratatui_app/mod.rs:101-113 | each entry takes at least its two border rows |
| CodeResponse.KeepLines | src/cli_handler/llm/code.rs:72-75 | exactly the lines without a fence marker are kept |
| CodeResponse.ParseCodeResponse | src/cli_handler/llm/code.rs:69-80 | a reply not opening with a fence is returned unchanged |
| CodeResponse.KeepLinesAppend | src/cli_handler/llm/code.rs:72-75 | the filter keeps the lines' order |
| CodeResponse.FencedResultHasNoFence | src/cli_handler/llm/code.rs:70-76 | a fenced reply comes out with no fence marker anywhere |
| CodeResponse.FencedResultLines | src/cli_handler/llm/code.rs:70-76 | the lines of the result are exactly the fence-free lines of the reply, in order; the line count never grows |
| CodeResponse.ParseIdempotent | src/cli_handler/llm/code.rs:69-80 | stripping twice equals stripping once |
| CliError.MapInquireError | src/cli_handler/error.rs:19-24 | cancelling or interrupting the prompt is Interrupted (both directions); any other error is wrapped unchanged |
| CliError.MapInquireErrorRange | src/cli_handler/error.rs:19-24 | only the two prompt variants come out, and wrapping loses nothing |
| ChatInput.ClassifyResponse | src/cli_handler/llm/mod.rs:33-46 | the trigger anywhere means a file upload; otherwise "/clear" up to whitespace clears; the empty line ends; anything else is sent verbatim (each as an if-and-only-if) |
| ChatInput.GetMessage | src/cli_handler/llm/mod.rs:26-47 | a prompt answer is classified; a prompt error is mapped |
| ChatInput.BlankLineIsText | src/cli_handler/llm/mod.rs:40-46 | a non-empty line of only whitespace is sent as text, not treated as the end |
| ChatInput.LeadingTriggerUploads | src/cli_handler/llm/mod.rs:33-39 | a line opening with the trigger uploads the trimmed path after it |
| ChatInput.EmbeddedTriggerKeepsText | src/cli_handler/llm/mod.rs:33-39 | a trigger later in the line still uploads, but the path is the whole trimmed line |
| ChatInput.ClearToleratesWhitespace | src/cli_handler/llm/mod.rs:40-41 | "/clear" with any whitespace around it clears |
| FileInput.ChatFromFile | src/cli_handler/file_input/mod.rs:22-36 | a readable file becomes a User chat framing its contents under a line naming the file; an unreadable one is the read error |
| FileInput.FramingRecoversContents | src/cli_handler/file_input/mod.rs:26-34 | the contents sit whole between the header and footer, so distinct contents give distinct chats |
| FileInput.JoinPath | src/cli_handler/file_input/mod.rs:45-45 | an absolute path replaces the base; a relative one ends the result, after the base |
| FileInput.Present | src/cli_handler/file_input/mod.rs:58-59 | a path is kept exactly when the glob produced it readably |
| FileInput.PresentAppend | src/cli_handler/file_input/mod.rs:58-61 | the matches keep their order |
| FileInput.GetSuggestions | src/cli_handler/file_input/mod.rs:40-65 | no suggestions without the trigger; a rejected pattern is the error; otherwise one suggestion per readable match, each the trigger followed by the match |
| FileInput.GetCompletion | src/cli_handler/file_input/mod.rs:67-84 | no suggestion gives no completion; otherwise the suggestion, plus a separator exactly when it names a directory |
| FileInput.CompletionOfSuggestion | src/cli_handler/file_input/mod.rs:72-80 | completing a suggestion built from a match gives the match plus a separator exactly for a directory |

## Left out

- Rendering is not modelled: drawing, the markdown bubbles, block styles and the popup geometry. Two clamps done at draw time are left out too:
  - ratatui clamps the popover selection to the list; the model does not. So with nothing selected, two ScrollDown and then Toggle select index 1 and the run stops with the unknown-index error (`Session.ScrollPastToolListFails`), where the program, clamping at each draw, would select index 0 and flip search;
  - the scroll view clamps its offset to the content. The modelled offset (`SessionState.Scrolled`) is a saturating u16 counter, so after many ScrollDown events it runs past the last bubble, where the program's would not. The height computation that sizes the scroll view is modelled.
- The terminal, the event channel and its tick timer, the HTTP request, server-sent-event decoding and JSON decoding are I/O. They are replaced by sequences of events and items. The task's concurrency with the session loop is not modelled; neither is the order in which a stream task's sends interleave with key events.
- The backend's history (the Gemini provider) is not part of this model, and its behaviour is assumed:
  - `add_chat_to_context` appends and returns `Some(index)`;
  - `append_chat_in_context` concatenates at a chat index and ignores an invalid one;
  - neither returns an error.
- `clear_history`, `complete_chat`, the `handle_code` loop and `output_response` are not modelled. They are provider dispatch and terminal output; only `parse_code_response` from llm/code.rs is.
- The newer `Input::from(key_event)`, the newer `App::new` and the newer `run` loop are not among the modelled files:
  - the decoder is the `decode` parameter;
  - the constructor follows mod.rs:46-57, with the popover closed and no selection;
  - the loop follows mod.rs:71-78, and returns on the first error as `?` does.
- TextArea editing is the `edit` parameter. A fresh TextArea holds one empty line.
- ListState `select_next`/`select_previous` are modelled as saturating at usize::MAX. The scroll offset is modelled as a saturating u16.
- Layout.CountWrappedLines: the running row length and the line count are unbounded. Their u16 overflow is not modelled, because it needs words or texts longer than 65535 bytes; only the truncation of each word's length is modelled.
- Layout.TotalHeight: the u16 sum of the bubble heights is unbounded here, for the same reason.
- FileInput.JoinPath models Unix path joining only. The failure of `to_str` on a non-Unicode path cannot happen on strings and is left out.
- Error messages are modelled as constant strings, the `anyhow` context chain as one message, and an error's root cause as a flag (`Events.ErrorCause`).
- In the provider, the panics of `Provider::new`, `OnlineProvider::new` and `GeminiProvider::new` are a `Built`/`Panicked` result. The last of these panics on the `.expect` when its HTTP client fails to build. The key store, the key prompt and whether the client builds are parameters.

## Behaviour worth noting

These cases follow from the code as written:

- **Popover fall-through.** The newer popover does not swallow keys it does not handle; they reach the global and zone bindings (`Session.PopoverFallsThrough`).
- **Submit while generating.** In the text input, Submit is not held back while a reply is streaming, in either revision. Submitting an empty draft is allowed, and so is submitting while a target is set; `last_added_index` is not reset.
- **Editing while generating.** In the newer revision, typing edits the draft even while generating. The older one drops those keys.
- **Error events.** The older session ignores them. The newer one ends the generation, except for an IO-rooted error, which it returns without resetting anything.
- **Stream errors.** A failed stream item does not stop the stream task, and Finished is always sent after the items.
- **Chunks after an error.** A chunk that arrives after an error has ended the generation opens a new streaming target while `generating` stays false. So a set target does not imply that a reply is being generated (`Session.ChunkAfterResetTargetsWhileIdle`).
- **The file trigger.** It is recognised anywhere in a prompt line, but only a leading trigger is stripped from the path (`ChatInput.EmbeddedTriggerKeepsText`).
