# Conversation history of the chat relay bot

This project models the conversation-state core of a bot that relays chat
messages to a chat-completion API (`index.js`). The bot keeps a process-wide
dictionary from user id to that user's ordered list of `{role, content}`
turns. It handles each inbound message in a fixed order:

1. It creates the sender's list if the sender has none.
2. It pushes the user turn.
3. If the list has grown past 20 turns, it keeps only the last 10. This is a
   batch cut, not a sliding window. The cut fires on the push that takes
   the list past 20 turns. That push makes 21 when the list held 20, and 22
   when an answered message had left 21 (a reply that lands on a 20-turn
   list). Which one happens depends on how many requests failed, since a
   failed request adds one turn and an answered one two. A longer history
   loaded at start-up is cut to 10 in the same way.
4. It sends one system turn, holding the instructions file's text, followed
   by that list.
5. On success it pushes the assistant's reply without truncating again, saves
   the store, and returns the reply.
6. On any failure it returns a fixed apology.

Two fallbacks sit beside the handler. The instructions text is replaced by a
fixed Portuguese sentence when the file is missing or unreadable. The store
loaded at start-up is empty when the snapshot file is missing, unreadable or
does not parse.

Files:

- `wrappers.dfy`: `Option`.
- `conversation.dfy` (module `Conversation`): roles, turns and the store, the
  constants 20 and 10, the two fallbacks, one message's effect as the pure
  function `Step`, and lemmas about a single message.
- `runs.dfy` (module `Runs`): messages handled one after another (`Run`). It
  gives a reference store that never truncates (`Transcript`) and the lemmas
  that relate the real store to that reference, leave non-senders alone and
  bound the lengths.
- `manager.dfy` (module `Manager`): the class `ConversationManager`. Its field
  `conversationHistory` is the dictionary. Its method `ProcessMessage` updates
  the field in place, step by step as the handler does, and is proved to equal
  `Step`.

The outside world enters the model as parameters:

- A file read is a `FileRead<T>`: `Missing` (the file does not exist),
  `ReadError` (reading throws) or `Contents(value)`.
- `JSON.parse` is an `Option<Store>`: `None` means the parse threw.
- The completion request and the save after it form an `Outcome`:
  - `Success(reply)`: the API answered and the save worked.
  - `GatewayFailure`: the request threw, or the answer had no `choices[0]`.
  - `SaveFailure(reply)`: the API answered but writing the file threw.

Three places where a reader might expect otherwise, and what the code does:

- One might expect the assistant turn to be truncated like the user turn.
  index.js:85 pushes it without truncating, so a stored history can hold 21
  turns (`HistoryCanReach21`).
- One might expect a failed completion to leave the history as it was.
  index.js:62-67 pushes and truncates the user turn before the request, so
  that turn stays in the store (`GatewayFailureStep`).
- One might expect every stored history to have at most 20 turns. That
  holds only for the history placed in the prompt (`StepLengthBound`). From
  any store, the sender's history has at most 21 turns after each of their
  messages (`Step`, `StepLengthBound`). Every history stays within 21 when
  all start within 21, for example from the empty store (`RunBounded`,
  `FromEmptyBounded`). A longer history loaded at start-up keeps its length
  until its user writes (`Isolation`).

## Model

| member | source | states |
|---|---|---|
| Conversation.ReadInstructions | index.js:44-53 | The file's text when it was read; otherwise the fixed fallback sentence. A result other than the fallback always comes verbatim from the file. |
| Conversation.LoadConversationHistory | index.js:16-26 | The parsed snapshot when the file exists, is read and parses; otherwise the empty store. A non-empty result is always exactly the parsed snapshot. |
| Conversation.AppendUserTurn | index.js:62-67 | The result ends with the new user turn and is a suffix of the old history plus that turn. It equals the old history plus the turn exactly when the old length is below 20. Otherwise it has exactly 10 turns. It never has more than 20. |
| Conversation.UserStep | index.js:58-67 | The sender's key is added if missing and no other key is added. A new sender's history is exactly the one user turn. Every other user's history is unchanged. |
| Conversation.HistoryOf | index.js:58-60 | The sender's stored history when the key exists; the empty history when it does not. |
| Conversation.BuildPrompt | index.js:71-74 | The prompt has one element more than the history: its first element is the system turn holding the instructions and the rest is the history itself, unchanged. |
| Conversation.AppendAssistantTurn | index.js:85 | No key is added or removed. The sender's history grows by exactly one turn, keeps its old turns as a prefix and ends with the assistant turn. Every other history is unchanged. |
| Conversation.Step | index.js:56-95 | The key set grows by the sender only and every other history is unchanged. The sender's history has at most 21 turns. The prompt has 2 to 21 elements, starts with the system turn and ends with the user turn. The returned text is the reply on success and the apology otherwise. Lemmas below state each outcome's store. |
| Conversation.NewUser | index.js:58-62 | For a sender absent from the store, whatever the outcome: the key set grows by the sender only, the prompt is the system turn followed by the user turn, and every existing history is unchanged. |
| Conversation.PromptShape | index.js:71-74 | The prompt is the system turn holding the resolved instructions, followed by the post-truncation history. It has between 2 and 21 elements and its last element is the new user turn, so no assistant turn for this message is in it. |
| Conversation.Isolation | index.js:58-85 | A message from one user neither adds, removes nor changes another user's history, whatever the outcome. |
| Conversation.SuccessStep | index.js:84-90 | On success the returned text is the reply. The sender's history is the post-truncation history plus the assistant turn, with no second truncation. The prompt carried the post-truncation history. |
| Conversation.GatewayFailureStep | index.js:62-93 | On a failed request the store is exactly the store after the user step. The sender's last turn is the user turn and the returned text is the apology. |
| Conversation.SaveFailureStep | index.js:85-93 | When the save fails, the store equals the one a success leaves, and so ends with the assistant turn. The returned text is still the apology. |
| Conversation.StepLengthBound | index.js:65-85 | From any store, the sender's history has at most 21 turns afterwards and the prompt carries at most 20 history turns. |
| Conversation.HistoryCanReach21 | index.js:85 | A 19-turn history answered successfully holds 21 turns, so the bound of 21 is reached. |
| Conversation.TruncationKeepsLastTen | index.js:65-67 | A history of 20 or more turns comes out of the user step as the last 10 turns of the pushed history, in their original order. |
| Conversation.FirstExchange | index.js:58-85 | On an empty store, a successful first message leaves exactly one key, whose history is the user turn followed by the assistant turn. |
| Conversation.TruncationScenario | index.js:62-67 | With turns 1..20 stored for a user, that user's message 21 comes out of the user step as turns 12..21. |
| Runs.Run | index.js:56-95 | Handling messages one after another adds exactly the senders as keys and removes none. `RunBounded`, `RunLeavesOthers` and `RunKeepsTranscriptSuffix` state its other properties. |
| Runs.RunLeavesOthers | index.js:58-85 | A user who sends none of the messages has the same history after the whole run. |
| Runs.Transcript | index.js:62-85 | The untruncated reference store has the same keys as `Run`: the starting keys plus the senders. |
| Runs.TranscriptRecordsEveryTurn | index.js:62-85 | In the untruncated reference, each user's history is the starting one followed by every turn that user's messages add (user turn, then the assistant turn when one is pushed), in arrival order. |
| Runs.RunKeepsTranscriptSuffix | index.js:62-85 | After any sequence of messages, the real store has the same keys as the untruncated reference. Each of its histories is a suffix of the reference history, which holds every turn in arrival order. Truncation only drops the oldest turns and never reorders. |
| Runs.RunBounded | index.js:65-85 | If every history has at most 21 turns, that stays true after any sequence of messages. |
| Runs.FromEmptyBounded | index.js:65-85 | Starting from the empty store: after each message every history has at most 21 turns, and each prompt has at most 21 turns (20 of history). |
| Manager.ConversationManager.constructor | index.js:13-26 | The dictionary starts as whatever loading the snapshot yields. |
| Manager.ConversationManager.ProcessMessage | index.js:56-95 | The in-place update leaves the dictionary, the prompt and the returned text as `Step` gives them. The sender's key exists afterwards. Other keys are neither added, removed nor changed. The sender's history has at most 21 turns. |

## Left out

- The WhatsApp client, QR pairing and event wiring (index.js:97-119) are transport and UI plumbing. The model does not send the reply back.
- The HTTP POST (index.js:69-82) is a network call. Its model is the `Outcome` parameter. A missing `choices[0]` is a `GatewayFailure`.
- The reply is modelled as a string. A response whose `message.content` is absent or null would push and return `undefined` or `null` in the code; that case is not modelled.
- `fs.existsSync`, `readFileSync`, `writeFileSync`, `JSON.stringify` and `JSON.parse` are file I/O and library serialisation. They appear only as `FileRead` and `Option` parameters. The snapshot written at index.js:88 is not modelled, so the model does not state the save/load round trip.
- A snapshot that parses to something other than a dictionary of turn lists is not modelled. `Store` only holds such dictionaries.
- The 30-second periodic save (index.js:29-34) is a timer. Concurrent handlers interleaving at the `await` are not modelled either. Each message is handled atomically.
- The `temperature`, `max_tokens`, model name and bearer header (index.js:37-41, 75-80) are configuration passed through unchanged.
- User ids that collide with JavaScript object-prototype properties (such as `constructor`) behave differently in the code. Such ids are not modelled, because the dictionary is a `map`.
- Logging to the console is not modelled.
