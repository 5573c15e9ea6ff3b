# Cortex chat session: a Dafny model

This project models the admin chat session of the cortex, from
`src/agent/cortex_chat.rs`. An operator holds a persistent conversation with
the cortex there. The model covers:

- **The message store** (`CortexChatStore`). It is a table of saved chat
  messages. The model keeps every row in the order it was saved.
  `save_message` appends a row. `load_history` runs a query that returns a
  thread's latest rows newest first, then reverses that vector in place into
  chronological order.
- **The prompt history** built by `send_message`. It starts from the loaded
  thread and drops the last message, which is the one just saved (the
  `saturating_sub(1)` slice). It then keeps the `user` and `assistant`
  messages in order and skips every other role.
- **The send protocol** of `send_message`. One send saves the admin's
  message, loads the history and asks the language model. It then saves
  exactly one assistant message: the reply, or `"Cortex chat error: "`
  followed by the error. A failing store call ends the send with its error.
- **The channel transcript** (`load_channel_transcript`). It folds a
  channel's timeline into Markdown-style text. Every message adds
  `**name**: content` and a blank line. A branch or worker run adds a line
  only once it has a conclusion or result. An empty timeline or a load error
  gives no transcript.
- **`empty_to_none`**.

Modules:

- `Wrappers`: `Option` and `Result`.
- `ChatStore`: the row type, the store class, the history query and the
  in-place reversal.
- `Transcript`: timeline items and the transcript.
- `ChatSession`: `empty_to_none`, the prompt history and the session class.

The store's database, the UUID generator and the language model are
external to the model. Their outcomes are method parameters:

- the generated ids;
- a `fault: Option<string>` for each store call;
- the model's `Result<string, string>`.

The channel timeline loader is external as well. Its outcome is the
`Result` that `LoadChannelTranscript` receives.

## Model

| member | source | states |
|---|---|---|
| `ChatStore.ThreadOf` | src/agent/cortex_chat.rs:88-91 | the `WHERE thread_id = ?` filter: every row it keeps belongs to the asked thread, in save order, and it never keeps more rows than the table has |
| `ChatStore.ThreadOfComplete` | src/agent/cortex_chat.rs:88-91 | the converse: every row of the asked thread is kept by the filter |
| `ChatStore.RowLimit` | src/agent/cortex_chat.rs:90 | the number of rows SQLite's `LIMIT` lets through: never more than are available, never more than a non-negative limit, and either all of them or exactly the limit (a negative limit lets all through) |
| `ChatStore.NewestFirst` | src/agent/cortex_chat.rs:88-91 | the query's rows: `RowLimit` many rows, all of the thread, where row k is the thread's k-th newest row (`ORDER BY created_at DESC LIMIT ?`) |
| `ChatStore.Reverse` | src/agent/cortex_chat.rs:99 | definition of the result of `messages.reverse()`: position i holds what position n-1-i held |
| `ChatStore.Latest` | src/agent/cortex_chat.rs:97-100 | definition of the chronological history: the last k rows oldest first, or all of them when there are fewer |
| `ChatStore.ThreadOfConcat` | src/agent/cortex_chat.rs:88-91 | selecting one thread distributes over concatenation of the table, so rows appended to one thread leave every other thread's rows as they were |
| `ChatStore.AppendToThread` | src/agent/cortex_chat.rs:173-176 | saving messages of one thread adds them, in order, to the end of that thread and leaves every other thread as it was |
| `ChatStore.ReverseSnoc` | src/agent/cortex_chat.rs:99 | reversing a list whose last element is x puts x first, followed by the reversed rest |
| `ChatStore.ReverseMultiset` | src/agent/cortex_chat.rs:97-99 | reversal changes only the order: the multiset of messages is unchanged |
| `ChatStore.ReverseReverse` | src/agent/cortex_chat.rs:99 | reversal is its own inverse, so the newest-first rows are recovered from the chronological list |
| `ChatStore.ReversedPrefix` | src/agent/cortex_chat.rs:88-99 | the first k rows newest first, once reversed, are the last k rows oldest first |
| `ChatStore.NewestFirstReversed` | src/agent/cortex_chat.rs:82-100 | reversing the query's rows (thread rows newest first, under the SQL LIMIT) gives the thread's latest rows in chronological order |
| `ChatStore.ReverseInPlace` | src/agent/cortex_chat.rs:99 | the in-place reversal of the vector leaves it equal to the reverse of its old contents, with the same multiset |
| `ChatStore.CortexChatStore.constructor` | src/agent/cortex_chat.rs:78-80 | a store over an open table sees that table's rows |
| `ChatStore.CortexChatStore.SaveMessage` | src/agent/cortex_chat.rs:103-124 | on success the row is appended, with the given thread, role, content, channel context and generated id, and that id is returned; on a database error nothing is stored and the error is returned |
| `ChatStore.CortexChatStore.LoadHistory` | src/agent/cortex_chat.rs:82-101 | on success the result is the thread's latest `limit` messages in chronological order; a database error is passed through |
| `Transcript.Contributes` | src/agent/cortex_chat.rs:276-306 | definition of which items add text: every message, a branch run only with a conclusion (the `if let Some` at 291), a worker run only with a result (302) |
| `Transcript.Fragment` | src/agent/cortex_chat.rs:283-304 | definition of the text each item adds: `**name**: content` for a message, the name being the sender name if any and else the role; `*[Branch: description]*: conclusion` or `*[Worker: task]*: result` for a run with an outcome; each followed by a blank line; nothing for a run without one |
| `Transcript.FragmentShape` | src/agent/cortex_chat.rs:277-306 | an item adds text exactly when it contributes; that text ends in a blank line and begins with the exact header of its kind: `**name**: ` for a message, `*[Branch: description]*: ` or `*[Worker: task]*: ` for a run |
| `Transcript.Render` | src/agent/cortex_chat.rs:274-309 | definition of the transcript: the fragments of the items concatenated in timeline order, starting from the empty string |
| `Transcript.RenderConcat` | src/agent/cortex_chat.rs:274-308 | the transcript of two timelines placed one after the other is the concatenation of their transcripts |
| `Transcript.RenderAround` | src/agent/cortex_chat.rs:274-308 | each item's fragment stands in the transcript between the transcript of the items before it and that of the items after it |
| `Transcript.Contributing` | src/agent/cortex_chat.rs:286-306 | the items that add text, taken from the timeline |
| `Transcript.RenderContributing` | src/agent/cortex_chat.rs:286-306 | runs without a conclusion or result leave no trace: the transcript equals that of the contributing items alone |
| `Transcript.RenderEmptyIff` | src/agent/cortex_chat.rs:272-309 | the transcript is empty if and only if no item is a message or a run with an outcome |
| `Transcript.LoadChannelTranscript` | src/agent/cortex_chat.rs:268-317 | a load error gives no transcript; a loaded timeline gives one exactly when it is non-empty, and it is the in-order concatenation of the item fragments (possibly the empty string) |
| `ChatSession.EmptyToNone` | src/agent/cortex_chat.rs:256 | no value exactly for the empty string; otherwise the string itself |
| `ChatSession.EmptyToNoneInverse` | src/agent/cortex_chat.rs:256 | mapping no value back to `""` undoes it, and it undoes that mapping for every option other than `Some("")` |
| `ChatSession.AsPrompt` | src/agent/cortex_chat.rs:186-195 | a stored message has a prompt form exactly when its role is `user` or `assistant` (a user prompt or an assistant prompt carrying the message's content) |
| `ChatSession.Prompts` | src/agent/cortex_chat.rs:186-195 | definition of what one stored message adds to the history: its prompt form, or nothing for any other role (`_ => {}`) |
| `ChatSession.SaturatingPred` | src/agent/cortex_chat.rs:185 | `len().saturating_sub(1)`: never above n, and exactly one less than n when n is positive (zero for zero) |
| `ChatSession.AssistantText` | src/agent/cortex_chat.rs:217-229 | definition of the saved assistant content: the response on success, `Cortex chat error: ` followed by the error on failure |
| `ChatSession.PromptHistory` | src/agent/cortex_chat.rs:185-196 | the prompt history is never longer than the messages it is built from |
| `ChatSession.PromptHistoryConcat` | src/agent/cortex_chat.rs:185-196 | building the history distributes over concatenation of messages |
| `ChatSession.PromptHistorySubsequence` | src/agent/cortex_chat.rs:185-196 | the history is the user and assistant messages in their original order: it is taken at increasing positions, each entry is the prompt form of the message there, and every user or assistant message is taken |
| `ChatSession.BuildHistory` | src/agent/cortex_chat.rs:181-196 | the loop's history is built from every loaded message but the last; it has at most max(0, n-1) entries and is empty for an empty thread |
| `ChatSession.SendReply` | src/agent/cortex_chat.rs:216-231 | a send succeeds exactly when the model call does, returning its response unchanged; on failure the error is the prefix followed by the model's error |
| `ChatSession.ReplyIsSavedText` | src/agent/cortex_chat.rs:217-230 | the string returned by a send, reply or error, is the same string saved as the assistant message |
| `ChatSession.HistoryBeforeSaved` | src/agent/cortex_chat.rs:173-185 | the history loaded right after saving the user message, with its last message dropped, is exactly the thread's latest messages before that save |
| `ChatSession.CortexChatSession.constructor` | src/agent/cortex_chat.rs:149-156 | a session over the given store |
| `ChatSession.CortexChatSession.SendMessage` | src/agent/cortex_chat.rs:165-233 | a send with no store error adds exactly two rows to the thread, the user message and then one assistant message, and changes no other thread; the history given to the model is formed from the user and assistant messages among the thread's latest 99 messages before this send, in order; each store error ends the send with that error after the rows saved so far |

## Left out

- `latest_thread_id` (src/agent/cortex_chat.rs:126-134): a SQL query over the store that `send_message` does not use.
- `ChatMessageRow::into_message` and `created_at`: the row's creation time and its RFC 3339 rendering are library formatting. The model has no timestamps. It orders rows by the order they were saved, so `ORDER BY created_at DESC` reads as "latest saved first". Two rows with the same `created_at` may come back in either order from the database; the model does not capture that.
- `build_system_prompt`: prompt-template rendering, the identity and memory bulletin, and worker capabilities come from runtime configuration that `src/agent/cortex_chat.rs` does not define. The model covers only `empty_to_none` and the transcript from it.
- Model resolution, agent building, the tool server and the language model call itself: foreign calls. Their outcome is the `outcome` parameter of `SendMessage`. That outcome does not depend on the history or the system prompt in the model.
- The channel timeline loader (`ProcessRunLogger::load_channel_timeline`, limit 50): its definition is not part of this model. Its outcome is the parameter of `LoadChannelTranscript`. `TimelineItem` keeps only the fields the transcript reads.
- The `tracing::warn!` on a timeline load error: logging.
- The `send_lock` mutex: it only excludes concurrent sends, and the model has no concurrency.
- `CortexChatEvent` and its serde serialization: derived library behaviour with no logic.
- The `expect` panics in `build_system_prompt`: prompt rendering is not modelled.
- Integer widths: `usize` lengths and the `i64` limit are unbounded here. The only arithmetic is `saturating_sub(1)`, modelled by `SaturatingPred`. A negative SQLite `LIMIT` puts no bound on the rows, as `RowLimit` states.
- `src/bin/cargo-bump.rs` spawns a release script and passes its exit code through. `src/agent.rs` only declares modules. Neither has logic to model.
- The supervisory cortex (signal buffering, process trackers, circuit breaker, tick scheduling, memory maintenance and merge) would live in `src/agent/cortex.rs`. That file is not part of this model.
