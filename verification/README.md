# EmpatIA V3 — a Dafny model of its memory, session and audio plumbing

EmpatIA is a voice companion for older people. A browser page streams
microphone audio over a WebSocket to a Python backend. The backend relays it
to a live speech model and streams the model's audio back. The model can call
two tools. `manage_memory` adds, updates, soft-deletes and searches personal
memories kept in PostgreSQL. `google_search` answers questions about current
events. Each conversation is saved as an episode, and the user's profile and
recent episodes are written into the system prompt of the next conversation.

This project models the logic of those pieces:

- **`MemoryModel` and `Database`** (`memory_model.dfy`, `memory_store.dfy`):
  - The memory table, user profiles and conversation episodes as a value `Db`, with one pure function per store operation.
  - Deduplication on (user, category, entity type, entity name) against active rows.
  - Partial update, soft delete, similarity search with threshold, ordering and limit, and profile grouping.
  - Episode saving and recent-episode queries.
  - `Database.MemoryStore` is the store as an object whose methods are proved equal to those functions.
- **`Ranking`** (`ranking.dfy`): the `ORDER BY … DESC LIMIT n` and `WHERE` filters the queries rely on. These are an insertion sort proved to be a sorted permutation, a filter, and a top-k lemma.
- **`ManageMemory`** (`manage_memory.dfy`): the `manage_memory` tool's argument schema and its dispatcher.
- **`Agent`** (`empatia_agent.dfy`):
  - Sessions and the agent's session registry.
  - Tool routing.
  - The sequential handling of the live model's responses: audio in order, text logged, and tool calls run one at a time.
- **`WebSocketServer`** (`websocket_server.dfy`):
  - The audio input queue.
  - A connection's receive loop and control messages.
  - The tool calls the agent's stream runs while the connection is open.
  - Cleanup.
  - The server's per-user connection registry.
- **`SystemPrompt`** (`system_prompt.dfy`): the date and time context, and the profile and episode texts placed in the prompt.
- **`AudioWorklet`, `AudioPlayback` and `Client`** (`audio_processor.dfy`, `audio_playback.dfy`, `websocket_client.dfy`): the frontend's microphone buffer, its playback queue, and its WebSocket client.

State that the source changes in place is modelled by classes with
`modifies` clauses. Each method's `ensures` ties its new state to a pure
function of the old state, and the properties are proved as lemmas about
those functions. The database, the speech model, embeddings, clocks and
random ids are not modelled. Instead they are:

- **An oracle.** The similarity `sim(query, embeddingText)` is a function given to the store, and the grounded search is a function given to the agent.
- **A parameter.** These are `now`, `generatedId`, the events of a connection, and the listeners that throw.

## Model

| member | source | states |
|---|---|---|
| MemoryModel.ParseCategory | Backend/src/database/memory_store.py:19-26 | a stored string names a category exactly when it is that category's value ("familia", "saude", "hobbies", "interesses", "geral") |
| MemoryModel.ParseAction | Backend/src/database/memory_store.py:29-35 | a string names an action exactly when it is "ADD", "UPDATE", "DELETE" or "SEARCH" |
| MemoryModel.EnsureUser | Backend/src/database/memory_store.py:93-108 | afterwards the user has a profile; an existing profile is untouched, a missing one is created with the given name and no location; memories and episodes are unchanged |
| MemoryModel.FindSimilar | Backend/src/database/memory_store.py:182-235 | answers the id of an active row with the same user, category, type and name (`IS NULL` when the name is falsy), and answers nothing exactly when no row matches |
| MemoryModel.UpdateMemory | Backend/src/database/memory_store.py:237-305 | no result exactly when no field is given or the id does not exist, and then nothing changes; otherwise only that row changes, in exactly the given fields, with the embedding text rebuilt from the new content; the answer is the updated row |
| MemoryModel.AddMemory | Backend/src/database/memory_store.py:110-180 | the profile exists afterwards; if an active row has the same key, that row gets the new content, importance and metadata and keeps its id; otherwise one active row is appended with the next id; no other row changes |
| MemoryModel.DeleteMemory | Backend/src/database/memory_store.py:307-316 | answers true exactly when the id exists; that row only becomes inactive, nothing else changes |
| MemoryModel.SearchRowsSound | Backend/src/database/memory_store.py:333-352 | the query returns at most `limit` rows in non-increasing similarity; each is an active row of the user, at or above the threshold and in the category when one is given, with its own id and score |
| MemoryModel.SearchMemoriesSound | Backend/src/database/memory_store.py:318-378 | the memories returned are exactly such rows, each carrying its similarity, best first; each comes from an active row |
| MemoryModel.SearchKeepsBest | Backend/src/database/memory_store.py:346-349 | a qualifying memory left out of the answer means the answer is full and every returned memory scores at least as high |
| MemoryModel.CategorizeGroups | Backend/src/database/memory_store.py:399-412 | a category gets a group exactly when some row has it, and the group lists those rows' items in row order |
| MemoryModel.GetUserProfile | Backend/src/database/memory_store.py:380-422 | ensures the profile row exists and answers the user's name and location, or None for both when no profile existed |
| MemoryModel.ProfileGroupsActiveMemories | Backend/src/database/memory_store.py:389-412 | the profile has a group for a category exactly when the user has an active memory in it; the group holds exactly those memories (as a multiset), by descending importance |
| MemoryModel.SaveEpisode | Backend/src/database/memory_store.py:424-466 | appends one episode with the given fields and the save time as its end, answers its id, and touches no memory |
| MemoryModel.RecentEpisodesSound | Backend/src/database/memory_store.py:468-496 | at most `limit` episodes, each the summary of one of the user's own episodes, newest end first |
| MemoryModel.RecentEpisodesKeepNewest | Backend/src/database/memory_store.py:478-479 | an episode of the user left out means `limit` were returned, all ending no earlier |
| MemoryModel.UpdateKeepsKeyUnique | Backend/src/database/memory_store.py:237-305 | an update keeps "at most one active row per key" |
| MemoryModel.DeleteKeepsKeyUnique | Backend/src/database/memory_store.py:307-316 | a soft delete keeps "at most one active row per key" |
| MemoryModel.AddKeepsOneActivePerKey | Backend/src/database/memory_store.py:121-180 | adding keeps at most one active row per key; the answered row is active and holds the new content; for a name other than "" it is the only active row with that key |
| MemoryModel.AddTwiceKeepsSecond | Backend/src/database/memory_store.py:121-180 | adding the same named entity twice leaves exactly one active row for the key, holding the second content |
| MemoryModel.EmptyNameIsNeverDeduplicated | Backend/src/database/memory_store.py:190-220 | two adds with entity name "" create two active rows with the same key: the lookup searches `IS NULL` but the row stores "" |
| MemoryModel.DeletedMemoryIsHidden | Backend/src/database/memory_store.py:307-349 | after a delete the row still exists with its content but is inactive and no search returns it |
| MemoryModel.DeleteTwiceAnswersTrue | Backend/src/database/memory_store.py:309-313 | deleting an already deleted row answers true again and changes nothing |
| MemoryModel.UpdateAfterDeleteLooksActive | Backend/src/database/memory_store.py:286-304 | updating a soft-deleted memory succeeds with the new content and answers a memory marked active (the dataclass default), while its row stays inactive |
| Ranking.SortDesc | Backend/src/database/memory_store.py:348 | the order used for `ORDER BY … DESC`: a permutation of its input in non-increasing key order |
| Ranking.Take | Backend/src/database/memory_store.py:349 | `LIMIT n`: a prefix of at most n elements, everything when there are at most n |
| Ranking.TopK | Backend/src/database/memory_store.py:348-349 | an element missing from the first n of the sorted sequence means n were kept, each with a key at least as large |
| Ranking.FilterNonIncreasing | Backend/src/database/memory_store.py:399-412 | selecting from a sorted sequence keeps it sorted |
| Database.MemoryStore.EnsureUserExists | Backend/src/database/memory_store.py:93-108 | the store's new state is `EnsureUser` of its old state |
| Database.MemoryStore.SetClause | Backend/src/database/memory_store.py:249-276 | the `SET` list is empty exactly when no field is given; applied to an existing row it yields `UpdatedRow` (the given fields set, the embedding text rebuilt from a new content) |
| Database.MemoryStore.UpdateMemory | Backend/src/database/memory_store.py:237-305 | builds the `SET` list field by field and is proved to leave the store and answer as `MemoryModel.UpdateMemory` |
| Database.MemoryStore.AddMemory | Backend/src/database/memory_store.py:110-180 | new state and answer equal `MemoryModel.AddMemory` |
| Database.MemoryStore.DeleteMemory | Backend/src/database/memory_store.py:307-316 | new state and answer equal `MemoryModel.DeleteMemory` |
| Database.MemoryStore.SearchMemories | Backend/src/database/memory_store.py:318-378 | builds the result list in a loop and answers `MemoryModel.SearchMemories` of the current state |
| Database.MemoryStore.CategorizeRows | Backend/src/database/memory_store.py:400-411 | the grouping loop builds exactly `Categorize(rows)`, whose groups `MemoryModel.CategorizeGroups` characterises |
| Database.MemoryStore.GetUserProfile | Backend/src/database/memory_store.py:380-422 | groups the query rows in a loop; new state and answer equal `MemoryModel.GetUserProfile` |
| Database.MemoryStore.SaveEpisode | Backend/src/database/memory_store.py:424-466 | new state and id equal `MemoryModel.SaveEpisode` |
| Database.MemoryStore.GetRecentEpisodes | Backend/src/database/memory_store.py:468-496 | answers `RecentEpisodes` of the current state |
| ManageMemory.ParseInput | Backend/src/tools/manage_memory.py:13-49 | the schema accepts arguments only with a valid action and category and a string entity type, and an importance that is absent (then 5), null or 1..10 |
| ManageMemory.ParseInputRoundTrip | Backend/src/tools/manage_memory.py:13-49 | every input with an admissible importance is read back unchanged from its full argument map, and no other is |
| ManageMemory.OrFive | Backend/src/tools/manage_memory.py:71 | `importance or 5`: 5 when absent or 0, the importance otherwise |
| ManageMemory.SearchCategory | Backend/src/tools/manage_memory.py:111 | "geral" searches all categories; any other category searches only itself |
| ManageMemory.ExecuteOn | Backend/src/tools/manage_memory.py:58-131 | fails exactly when the action's required field (content, memory_id, search_query) is falsy; failures and searches leave the store alone; an ADD answers a stored row with its content |
| ManageMemory.ExecuteOnSeesOnlyMemories | Backend/src/tools/manage_memory.py:58-131 | what the tool leaves in the memory table depends only on the memories it starts from, and it never touches the episode log |
| ManageMemory.AddAnswersStoredId | Backend/src/tools/manage_memory.py:61-79 | an ADD answers the id of the deduplicated or newly appended row, active, with importance `importance or 5` |
| ManageMemory.UpdateAndDeleteSuccess | Backend/src/tools/manage_memory.py:81-102 | UPDATE succeeds exactly when the id exists and content or importance is given; DELETE answers whether the id exists and soft-deletes it |
| ManageMemory.UpdateWithoutImportanceResetsIt | Backend/src/tools/manage_memory.py:36-41 | an UPDATE whose arguments omit importance sets it to the schema default 5 |
| ManageMemory.SearchKeepsStoreOrder | Backend/src/tools/manage_memory.py:104-125 | SEARCH reports the store's results one for one, in order, best first, at most 10, of the category unless it is "geral" |
| ManageMemory.MemoryTool.Execute | Backend/src/tools/manage_memory.py:58-131 | new store state and answer equal `ExecuteOn` |
| Agent.DurationMinutes | Backend/src/agent/empatia_agent.py:59 | `timedelta.seconds // 60`: the elapsed minutes for a session shorter than a day, always in 0..1439 (whole days are dropped) |
| Agent.ListOf | Backend/src/agent/empatia_agent.py:65 | `list(set)`: holds every element of the set exactly once |
| Agent.Session.constructor | Backend/src/agent/empatia_agent.py:31-36 | the session id is the given one when truthy, else the generated one; no turns, no topics |
| Agent.Session.AddTurn | Backend/src/agent/empatia_agent.py:51-55 | appends exactly one turn and changes nothing else |
| Agent.Session.GetContext | Backend/src/agent/empatia_agent.py:39-49 | the profile as `GetUserProfile` and the 3 most recent episodes |
| Agent.Session.SaveEpisode | Backend/src/agent/empatia_agent.py:57-76 | appends one episode of this session with its start, the end time, the wrapped duration and exactly its topics; memories untouched |
| Agent.ParseSearchInput | Backend/src/tools/google_search.py:13-25 | accepted exactly when `query` is a string and `num_results` is absent, null or 1..10; the default is 5 |
| Agent.ExecuteToolOn | Backend/src/agent/empatia_agent.py:127-178 | unknown tools answer without a success field; non-dict arguments answer "Parâmetros inválidos"; manage_memory with valid arguments is `ExecuteOn` and with invalid ones an error that changes nothing; only manage_memory writes |
| Agent.RunCallsAppend | Backend/src/agent/empatia_agent.py:338-365 | the calls run one after another: running two batches in turn is running them together, each call seeing the previous calls' writes |
| Agent.RunCallsSeeOnlyMemories | Backend/src/agent/empatia_agent.py:338-365 | a batch of tool calls leaves the same memory table from any two databases with the same memories, and keeps the episode log |
| Agent.RunCallsSkipsUnnamed | Backend/src/agent/empatia_agent.py:339-342 | calls without a name are skipped; one response is sent per named call |
| Agent.TwoAddsInOneResponse | Backend/src/agent/empatia_agent.py:338-365 | two ADDs of the same named entity in one response leave a single active row holding the second content |
| Agent.EmpatIAAgent.CreateSession | Backend/src/agent/empatia_agent.py:110-121 | registers a fresh session under its generated id, overwriting nothing else |
| Agent.EmpatIAAgent.GetSession | Backend/src/agent/empatia_agent.py:123-125 | answers the registered session exactly when the id is registered |
| Agent.EmpatIAAgent.EndSession | Backend/src/agent/empatia_agent.py:403-416 | a registered session is saved as one episode ("Conversa com EmpatIA", "neutro") and unregistered; an unknown id changes nothing |
| Agent.EmpatIAAgent.ShutdownStep | Backend/src/agent/empatia_agent.py:418-421 | ending one more id keeps `EndedSoFar`: the log grows by one episode per ended id and the new episodes name exactly the ids ended |
| Agent.EmpatIAAgent.ShutdownOne | Backend/src/agent/empatia_agent.py:420-421 | one round of the loop removes that id from the registry and keeps `EndedSoFar` |
| Agent.EmpatIAAgent.Shutdown | Backend/src/agent/empatia_agent.py:418-421 | every active session is ended: one new episode per session, no session left, earlier episodes kept |
| Agent.EmpatIAAgent.ExecuteTool | Backend/src/agent/empatia_agent.py:127-178 | new store state and answer equal `ExecuteToolOn` |
| Agent.EmpatIAAgent.HandleParts | Backend/src/agent/empatia_agent.py:305-321 | yields the non-empty audio parts in order and logs each non-empty text as an assistant turn |
| Agent.EmpatIAAgent.HandleCalls | Backend/src/agent/empatia_agent.py:334-365 | runs the named calls in order and sends their responses in that order, as `RunCalls` |
| Agent.EmpatIAAgent.HandleResponse | Backend/src/agent/empatia_agent.py:301-365 | one response: its audio, its text turns, its tool calls; reports whether it completes a turn |
| Agent.EmpatIAAgent.Converse | Backend/src/agent/empatia_agent.py:289-370 | over all responses: audio in arrival order, all text logged, all calls run in order, turns counted, and the loop never stops on turn_complete |
| WebSocketServer.AudioStreamQueue.Put | Backend/src/server/websocket_server.py:25-28 | enqueues at the end only while open; after close the chunk is dropped |
| WebSocketServer.AudioStreamQueue.Next | Backend/src/server/websocket_server.py:30-37 | a closed queue ends even with chunks left; an empty open one waits; otherwise the oldest chunk is delivered |
| WebSocketServer.AudioStreamQueue.Close | Backend/src/server/websocket_server.py:39-41 | closes the queue and keeps its contents |
| WebSocketServer.DeliveredInOrder | Backend/src/server/websocket_server.py:25-37 | what was delivered is a prefix of what was accepted and the queue holds the rest, so chunks come out in put order |
| WebSocketServer.ControlOf | Backend/src/server/websocket_server.py:127-139 | a message is a ping exactly when its type is "ping", an end request exactly when it is "end_session" |
| WebSocketServer.SessionCreatedOnce | Backend/src/server/websocket_server.py:66-73 | the first frame sent is session_created with the session and user ids, and it is never sent again |
| WebSocketServer.OpenConnectionQueuesEveryChunk | Backend/src/server/websocket_server.py:79-93 | until an end request or a malformed text, every binary frame is queued in arrival order and counted |
| WebSocketServer.ClosedQueueTakesNothing | Backend/src/server/websocket_server.py:25-28 | once the input queue is closed nothing more is queued |
| WebSocketServer.OnePongPerPing | Backend/src/server/websocket_server.py:131-132 | exactly one pong per ping |
| WebSocketServer.NoAudioAfterCleanup | Backend/src/server/websocket_server.py:115-120 | once inactive the connection sends no more audio |
| WebSocketServer.InactiveStreamStops | Backend/src/server/websocket_server.py:115-120 | the first agent chunk after deactivation stops the stream for good |
| WebSocketServer.ToolCallsStep | Backend/src/server/websocket_server.py:108-125 | one more event leaves the memory table as all tool calls so far, then its own, leave it, and keeps the episode log |
| WebSocketServer.AgentSideStep | Backend/src/server/websocket_server.py:79-93 | each handled event keeps the registry and episodes as the connection's state says, and the memory table as the calls so far leave it |
| WebSocketServer.Connection.Cleanup | Backend/src/server/websocket_server.py:148-156 | deactivates, closes the input queue and ends the session when there is one |
| WebSocketServer.Connection.HandleControl | Backend/src/server/websocket_server.py:127-139 | ping sends one pong, end_session cleans up, anything else changes nothing |
| WebSocketServer.Connection.Receive | Backend/src/server/websocket_server.py:80-93 | one received frame, agent chunk or agent tool-call batch moves the connection as `Step`; an end request ends the session, and otherwise the store moves exactly as the batch's calls (none for other events) move it |
| WebSocketServer.Connection.ReceiveAll | Backend/src/server/websocket_server.py:79-93 | the receive loop moves the connection as `Run` over the events; the registry and episodes are untouched while active and the session ended exactly once otherwise; the memory table ends as the agent's tool calls during the loop leave it |
| WebSocketServer.Connection.Handle | Backend/src/server/websocket_server.py:54-106 | the whole connection is `Finish(Run(Started(...), events))`; its session is registered, then ended exactly once with one new episode; the memory table ends as the agent's tool calls leave it, the context fetch changing no memory |
| WebSocketServer.Server.Admit | Backend/src/server/websocket_server.py:172-180 | without a truthy user id the connection is refused with 1008 "user_id obrigatório" and not registered; otherwise a new connection replaces any entry for that user |
| WebSocketServer.Server.Release | Backend/src/server/websocket_server.py:184-186 | the entry for the user is removed, whoever registered it |
| WebSocketServer.Server.Handler | Backend/src/server/websocket_server.py:166-186 | a refused connection changes nothing; an admitted one ends with its user's entry gone, exactly one new episode for its session, and the memory table as the conversation's tool calls leave it |
| SystemPrompt.PartOfDay | Backend/src/agent/system_prompt.py:14-23 | morning exactly for 5..11, afternoon exactly for 12..19, night otherwise |
| SystemPrompt.DayName | Backend/src/agent/system_prompt.py:26-35 | the Portuguese name of the weekday, Monday first |
| SystemPrompt.MonthName | Backend/src/agent/system_prompt.py:37-42 | the Portuguese name of the month |
| SystemPrompt.TwoDigits | Backend/src/agent/system_prompt.py:46 | two decimal digits that read back as the number |
| SystemPrompt.CurrentContext | Backend/src/agent/system_prompt.py:8-50 | full date "day, d de month de yyyy", time "HH:MM" reading back as hour and minute, weekday, and the greeting of the part of day |
| SystemPrompt.CapitalizeSpec | Backend/src/agent/system_prompt.py:73 | `str.capitalize` on ASCII: first letter upper case, all others lower case, same length |
| SystemPrompt.CapitalizeIdempotent | Backend/src/agent/system_prompt.py:73 | capitalizing twice is capitalizing once |
| SystemPrompt.LinesSpec | Backend/src/agent/system_prompt.py:67-107 | one line per item, in item order |
| SystemPrompt.UnknownCategoryIgnored | Backend/src/agent/system_prompt.py:65-107 | memories of a category other than the five known ones never change the text |
| SystemPrompt.OnlyUnknownCategories | Backend/src/agent/system_prompt.py:109 | a profile with memories but no name, location or known category gives "Perfil ainda sem memórias detalhadas." |
| SystemPrompt.SectionsAreHeadings | Backend/src/agent/system_prompt.py:60-107 | every section starts with its own heading, so no section can be mistaken for a fallback text |
| SystemPrompt.FallbackTexts | Backend/src/agent/system_prompt.py:55-56 | the "no memories" text appears exactly when there is no profile or it has no memories; the "no details" text exactly when it has memories but no section |
| SystemPrompt.HobbyWithoutName | Backend/src/agent/system_prompt.py:85-91 | a hobby without a name prints "None": the "nome" key is always present, so the fallback to "info" never applies |
| SystemPrompt.CollectLines | Backend/src/agent/system_prompt.py:67-75 | the append loop builds exactly `Lines` |
| SystemPrompt.AppendCategory | Backend/src/agent/system_prompt.py:67-75 | appends the category's section exactly when it has items |
| SystemPrompt.FormatUserProfile | Backend/src/agent/system_prompt.py:53-109 | the text built section by section is `ProfileText` |
| SystemPrompt.EpisodeLinesSpec | Backend/src/agent/system_prompt.py:117-129 | the i-th line describes the i-th episode, numbered i+1 |
| SystemPrompt.OnlyThreeEpisodesShown | Backend/src/agent/system_prompt.py:118 | only the first three episodes reach the text |
| SystemPrompt.FirstConversationIff | Backend/src/agent/system_prompt.py:114-115 | "Primeira conversa com este utilizador." appears exactly when there are no episodes |
| SystemPrompt.FormatEpisodeLine | Backend/src/agent/system_prompt.py:118-128 | one numbered line: summary, up to three topics, and the tone when present |
| SystemPrompt.FormatRecentEpisodes | Backend/src/agent/system_prompt.py:112-131 | the loop's text is `EpisodesText` |
| AudioWorklet.Flushed | Frontend/public/audio-processor.js:31-58 | nothing pending posts nothing; otherwise exactly the pending samples are posted as one chunk and the buffer empties, so posted-then-pending is unchanged |
| AudioWorklet.ProcessQuantum | Frontend/public/audio-processor.js:9-29 | keeps running exactly when the channel is missing or fits the buffer; a missing or empty channel changes nothing; pending stays below the buffer size |
| AudioWorklet.ProcessKeepsOrder | Frontend/public/audio-processor.js:17-26 | posted chunks followed by pending samples grow by exactly the accepted quantum |
| AudioWorklet.ProcessPostsWellSized | Frontend/public/audio-processor.js:17-26 | every posted chunk holds 1..bufferSize samples |
| AudioWorklet.FeedReassembles | Frontend/public/audio-processor.js:9-58 | for quanta of at most bufferSize samples: nothing throws, fewer than bufferSize samples are pending, and the posted chunks plus the pending samples are all input samples in order |
| AudioWorklet.AudioProcessor.Set | Frontend/public/audio-processor.js:21 | `Float32Array.set`: the source lands at the offset, every other sample is kept |
| AudioWorklet.AudioProcessor.Flush | Frontend/public/audio-processor.js:31-58 | the processor's new state is `Flushed` of its old one |
| AudioWorklet.AudioProcessor.Append | Frontend/public/audio-processor.js:21-22 | the quantum joins the end of the pending samples; nothing is posted |
| AudioWorklet.AudioProcessor.Process | Frontend/public/audio-processor.js:9-29 | the in-place buffer moves as `ProcessQuantum` and fewer than bufferSize samples stay pending |
| AudioPlayback.AudioPlaybackManager.Initialize | Frontend/lib/audio-playback.ts:19-35 | creates the context, destination and output stream once |
| AudioPlayback.AudioPlaybackManager.GetOutputStream | Frontend/lib/audio-playback.ts:40-42 | there is an output stream exactly while there is a context |
| AudioPlayback.AudioPlaybackManager.GetIsPlaying | Frontend/lib/audio-playback.ts:142-144 | playing exactly while a source is current |
| AudioPlayback.AudioPlaybackManager.PlayAudioChunk | Frontend/lib/audio-playback.ts:47-82 | without a context, or for a chunk that cannot be decoded (empty, or an odd number of bytes), nothing happens; otherwise the buffer joins the end of the queue and starts at once if nothing was playing |
| AudioPlayback.AudioPlaybackManager.PlayNext | Frontend/lib/audio-playback.ts:87-119 | an empty queue or no context means idle; otherwise the front buffer is started on a new source |
| AudioPlayback.AudioPlaybackManager.OnEnded | Frontend/lib/audio-playback.ts:107-114 | the next queued buffer starts, or playback goes idle; buffers start in arrival order, each once |
| AudioPlayback.AudioPlaybackManager.Stop | Frontend/lib/audio-playback.ts:124-137 | queue emptied, no current source, idle |
| AudioPlayback.AudioPlaybackManager.Cleanup | Frontend/lib/audio-playback.ts:149-159 | stopped, with no context, destination or output stream |
| Client.SocketUrl | Frontend/lib/websocket-client.ts:30 | the base URL, "/ws?user_id=" and the user id, spliced without encoding |
| Client.SocketUrlRoundTrip | Frontend/lib/websocket-client.ts:30 | the user id is read back whole from the URL |
| Client.AfterClose | Frontend/lib/websocket-client.ts:55-61 | schedules a reconnect exactly for an abnormal code while attempts remain, never going past five |
| Client.AbnormalClosesBackOffLinearly | Frontend/lib/websocket-client.ts:55-61 | after an open, abnormal closes schedule at most five reconnects, the k-th after k × 1000 ms |
| Client.AttemptsStayBounded | Frontend/lib/websocket-client.ts:55-61 | attempts never exceed five and scheduled timers are never withdrawn |
| Client.ExhaustedNeverReconnects | Frontend/lib/websocket-client.ts:95-101 | once the attempts are used up, as `disconnect` forces, no close reconnects |
| Client.WebSocketClient.constructor | Frontend/lib/websocket-client.ts:29-32 | the URL is `SocketUrl`; no socket, no attempts, no listeners |
| Client.WebSocketClient.Connect | Frontend/lib/websocket-client.ts:37-41 | a new connecting socket replaces the current one |
| Client.WebSocketClient.Emit | Frontend/lib/websocket-client.ts:152-168 | calls every listener of the event; those that throw are caught and the others still run |
| Client.WebSocketClient.OnOpen | Frontend/lib/websocket-client.ts:43-48 | the socket is open, attempts reset to 0, the open listeners run |
| Client.WebSocketClient.OnClose | Frontend/lib/websocket-client.ts:50-62 | the close listeners run and the reconnect bookkeeping moves as `AfterClose` |
| Client.WebSocketClient.OnMessage | Frontend/lib/websocket-client.ts:70-84 | decoded JSON reaches the message listeners, binary data the audioChunk listeners, anything else no one |
| Client.WebSocketClient.Disconnect | Frontend/lib/websocket-client.ts:95-101 | with a socket: attempts set to the maximum, close with 1000, socket forgotten; without one nothing happens |
| Client.WebSocketClient.SendAudio | Frontend/lib/websocket-client.ts:106-110 | writes the audio only to an open socket |
| Client.WebSocketClient.SendMessage | Frontend/lib/websocket-client.ts:116-120 | writes the message only to an open socket |
| Client.WebSocketClient.IsConnected | Frontend/lib/websocket-client.ts:125-127 | connected exactly when there is a socket and it is open |
| Client.WebSocketClient.On | Frontend/lib/websocket-client.ts:132-137 | the callback joins the event's set, at most once; other events keep theirs |
| Client.WebSocketClient.Off | Frontend/lib/websocket-client.ts:142-147 | the callback leaves the event's set; other events keep theirs |

## Left out

- Database I/O, connection pooling, SQL text and the schema file. The store is an in-memory value. Ids are positions: row i has id i + 1. `Backend/src/database/schema.sql` is not part of this model, so an episode's `ended_at` is taken to be the time it is saved.
- Database faults and the `except` paths they would take. A tool that raises ends in the generic error answer; only the schema's validation errors are modelled on that path.
- Embeddings. Similarity is an oracle with integer scores, thought of as thousandths. So the default threshold 0.5 is 500, and `round(similarity, 3)` is not modelled.
- Timestamps other than `ended_at` and the start of a session: `created_at`, `updated_at`, `membro_desde` and the ISO renderings.
- Metadata is taken to decode to a mapping. `dict(row["metadata"])` on a JSON string is not modelled.
- Pydantic's lax coercion, such as a numeric string accepted as an integer. The schemas accept exactly strings, integers and nulls of the right kind.
- The speech model session: connecting, the setup message and the `send_audio` task. Responses are a given sequence, and audio input is the connection's queue.
- `google_search` internals. The grounded answer is an oracle.
- Protobuf `Struct` conversion of tool arguments. Arguments arrive as a JSON object or as something else.
- Asynchrony. The receive loop and the agent-audio task are one interleaved event sequence; the agent's stream appears in it as audio chunks and tool-call batches. The context fetch at the start of the stream is placed right after `session_created`. The 0.5 s polling timeout is not modelled. A pull racing with `close` is not modelled. Agent audio arriving after the client has disconnected is not modelled.
- Send failures of `send_json`, which are caught and logged.
- WebSocketServer.Connection.Handle: tool calls the agent's stream runs after the receive loop has raised are not modelled; `cleanup` does not cancel that task, so it may still write memories until its next audio chunk.
- WebSocketServer.Connection.Handle: the connection's contracts do not state the profile rows that the context fetch and the tool calls may create; the assistant turns the stream logs are stated for `Agent.EmpatIAAgent.Converse`, not for a connection, since the saved episode does not depend on them.
- Parsing of the request path. `_extract_user_id` is an oracle whose answer is an optional string.
- Agent.EmpatIAAgent.Shutdown: it states which sessions are ended, but not in what order. The source ends them in the dictionary's insertion order, and the model's map has no order.
- Agent.ListOf: the order of `list(set)` is arbitrary in the source as well; only its elements are stated.
- `SystemPrompt.CapitalizeSpec` covers ASCII letters only. Unicode case mapping is not modelled.
- The `.get` defaults of the prompt formatters ("Sem resumo", "neutro", "", and "info" for a hobby's name). Profiles and episodes here always carry every key, as the store builds them, so those defaults are never used.
- The prompt template in `get_system_prompt`, and reading the clock and time zone. The date parts are parameters.
- Audio sample values: PCM float/int16 conversion, RMS, sample rate and the audio graph. Samples and buffers are abstract.
- The browser's `readyState` transitions other than those the handlers observe. The `connect` promise, and the `error` event handler, which only logs, emits and rejects.
- UI, authentication, registration, configuration and start-up code.
