# Conversation pipeline of a WhatsApp/SMS assistant bridge, in Dafny

This project models the core of a bridge that takes messages arriving on a
Twilio webhook, answers them with a language-model chat chain and sends the
reply back over SMS/WhatsApp. Two pieces of it are modelled:

- `respond_to_user` (`src/flint/routers/api.py`): the per-message pipeline.
  It decides whether the message is a voice message (and so must be
  transcribed). It looks up the user's conversation memory. It packs the
  best-ranked earlier conversations into a history of at most
  `MAX_CHARACTERS_PROMPT = 1000` characters. It picks the prompt: the raw
  message, or a template applied to the message and the history. It asks the
  model, records the conversation to save, and sends the reply in chunks of
  `MAX_CHARACTERS_TWILIO = 1600` characters. The phone number `chat` derives
  for a new user (`From.split(":")[1]`) is modelled too.
- `initialize_conversation_sessions` (`src/velarium/configure.py`): builds the
  default-empty map from user uuid to message list at start-up. For every user
  it takes at most 10 stored conversations, reverses them, and replays each one
  as a user message followed by an AI message.

Modules, one per concern:

- `Wrappers`: `Option`, `Result`, and the Python exceptions the modelled code can raise.
- `Records`: the stored conversation row, which both the relevance search and the start-up bootstrap return.
- `PyStr`: Python's `startswith`, `split` and `split(...)[k]` on strings as code-point sequences, with the split/join round trips.
- `Inbound`: the audio check and the phone-number split.
- `History`: the packing loop (`PackHistory`, a method with the source's `break`), the fold it is proved against (`Packed`), an independent description of the result (the longest prefix of the ranked candidates whose framings fit), and the prompt choice.
- `Delivery`: the chunking comprehension and the send loop.
- `Sessions`: the session store as a class (`SessionStore`, whose `sessions` map the methods update in place), the bootstrap method, and the fold it is proved against.
- `Pipeline`: one pass of `respond_to_user`, as a method over the store and as a function, with lemmas tying the pieces together.

The calls into code outside the model are parameters of type `Services`:

- the transcription;
- the relevance search, which returns candidates ranked best-first;
- the prompt template;
- the chat model, called with the prompt and the memory;
- Twilio's `messages.create`, which returns a message id.

Strings are `seq<char>`, so lengths count code points as Python's `len` does.

Points where the code behaves differently from what a reader of the system might expect, which the model follows:

- A history entry is framed as `"Human: " + u + "\nKhoj:" + b + "\n\n"`, with `Khoj:` and no space, not with an `Assistant:` label.
- The in-memory memory is never trimmed. The only bound is the `[:10]` at start-up. No sliding window of 10 turns is modelled, because the code has none.
- Start-up takes the first 10 conversations in the query's order and replays them reversed. The code does not choose "the 10 most recent, oldest first"; that depends on the query ordering, which is not part of this model.
- There is no per-user locking in the code, so none is modelled.
- The memory does not hold the raw user message. The chain is built with `memory=chat_history` (src/flint/routers/api.py:139) and called with the formatted prompt as its `question`. So the memory receives the formatted prompt, history included when there is one, followed by the reply. Only the conversation saved to the database holds the raw message.
- A failure to load one user's history is not isolated. In `src/velarium/main.py:40-43` the whole bootstrap sits inside one `try`/`except` that only logs.

## Model

| member | source | states |
|---|---|---|
| `PyStr.StartsWith` | src/flint/routers/api.py:112 | `s.startswith(prefix)`: `prefix` is the first `len(prefix)` characters of `s`; used through `Inbound.Classify` |
| `PyStr.Split` | src/flint/routers/api.py:65 | `s.split(sep)` for a one-character separator (used here and at line 114), never an empty list; its round trips are `PyStr.JoinSplit` and `PyStr.SplitJoin` |
| `PyStr.Field` | src/flint/routers/api.py:65 | `s.split(sep)[k]` (here and at line 114), with IndexError past the last field; the case `k = 1` is stated by `PyStr.SecondField` |
| `PyStr.SecondField` | src/flint/routers/api.py:65 | `s.split(sep)[1]` fails with IndexError exactly when `s` has no `sep`; otherwise it is the text after the first `sep` up to the next one or the end |
| `PyStr.JoinSplit` | src/flint/routers/api.py:65 | joining the fields of `s.split(sep)` with `sep` gives `s` back |
| `PyStr.SplitJoin` | src/flint/routers/api.py:65 | splitting a join of one or more separator-free fields gives those fields back |
| `PyStr.SplitFieldsAreSeparatorFree` | src/flint/routers/api.py:65 | no field of `s.split(sep)` contains `sep` |
| `Inbound.AudioContentTypeFields` | src/flint/routers/api.py:112-114 | a content type starting with `audio/` splits on `/` into `audio` followed by the fields of the rest, so index 1 always exists |
| `Inbound.Classify` | src/flint/routers/api.py:112-115 | the message is audio exactly when `MediaUrl0` and `MediaContentType0` are both present and the type starts with `audio/`; the audio URL is `MediaUrl0`, the audio type is the text after `audio/` up to the next `/` |
| `Inbound.TypeName` | src/flint/routers/api.py:109-115 | the string stored for each type, `"text"` and `"voice_message"`; `Inbound.VoiceMessageIff` states when each is stored |
| `Inbound.MessageTypeOf` | src/flint/routers/api.py:109-115 | the type recorded for a classified message; `Inbound.VoiceMessageIff` states when it is voice |
| `Inbound.VoiceMessageIff` | src/flint/routers/api.py:109-115 | the stored type is `"voice_message"` exactly under that condition and `"text"` exactly otherwise |
| `Inbound.NewUserPhoneNumber` | src/flint/routers/api.py:65 | `From.split(":")[1]` raises IndexError exactly when `From` has no `:`; otherwise it is the `:`-free text after the first `:` up to the next `:` |
| `Inbound.ChannelAddressPhoneNumber` | src/flint/routers/api.py:65 | for an address `channel:number` whose parts hold no `:`, the phone number is `number` |
| `Inbound.WhatsAppSenderPhoneNumber` | src/flint/routers/api.py:65 | `"whatsapp:+1555"` gives `"+1555"` |
| `History.Frame` | src/flint/routers/api.py:128 | one framed exchange is 15 characters longer than its two messages together |
| `History.PackFrom` | src/flint/routers/api.py:127-133 | the loop continued from an accumulator only extends it (the accumulator is a prefix of the result), and stays within 1000 characters when the accumulator does |
| `History.Packed` | src/flint/routers/api.py:121-133 | the packed history never exceeds 1000 characters |
| `History.PackHistory` | src/flint/routers/api.py:121-133 | the loop with its early `break` computes exactly `Packed(candidates)`, of at most 1000 characters |
| `History.PackFromIsFramedPrefix` | src/flint/routers/api.py:127-133 | the continued loop appends to the accumulator the framings of the leading candidates that fit, whole and in order |
| `History.PackedIsFramedPrefix` | src/flint/routers/api.py:127-133 | the packed history is exactly the concatenated framings of the first `PackedCount` candidates, in ranked order |
| `History.FitCountIsLongestFit` | src/flint/routers/api.py:130-133 | with `used` characters taken, a prefix fits the remaining budget exactly when it is no longer than the greedy count |
| `History.PackedCountIsLongestFit` | src/flint/routers/api.py:130-133 | a prefix of the candidates fits in 1000 characters exactly when it is no longer than the packed prefix: the packed history is the longest ranked prefix that fits |
| `History.StopsAtFirstMisfit` | src/flint/routers/api.py:130-131 | when candidates remain, the first one left out would push the history over 1000 characters |
| `History.NoSkipAhead` | src/flint/routers/api.py:130-131 | once a candidate does not fit, no later candidate is packed even if it would fit: with the first packed and the second too long, the history is the first alone |
| `History.BothTurnsFit` | src/flint/routers/api.py:127-133 | two exchanges whose framings fit together in 1000 characters are both packed, best-ranked first |
| `History.PackedEmptyIff` | src/flint/routers/api.py:121-135 | the history is empty exactly when there is no candidate or the best-ranked one alone is over 1000 characters |
| `History.Prompt` | src/flint/routers/api.py:123-136 | the raw message when the history is empty, otherwise the template applied to (message, history); `History.FirstCandidateTooLong`, `History.FirstCandidateFits` and `Pipeline.RawPromptWithoutHistory` state when each case arises |
| `History.FirstCandidateTooLong` | src/flint/routers/api.py:121-135 | when the best-ranked candidate alone is over the budget, the history is empty and the prompt is the user message verbatim |
| `History.FirstCandidateFits` | src/flint/routers/api.py:123-136 | when the best-ranked candidate fits, the prompt is the template applied to (message, history), and the history starts with that candidate's framing |
| `Delivery.ChunkCount` | src/flint/routers/api.py:145 | `len(range(0, n, 1600))` is the ceiling of n/1600: the smallest count whose chunks cover n characters |
| `Delivery.Chunks` | src/flint/routers/api.py:145 | the chunking comprehension, with Python's clamped slice end; its properties are `Delivery.ChunksUnfold`, `Delivery.ChunksRoundTrip` and `Delivery.ChunksShape` |
| `Delivery.ChunksUnfold` | src/flint/routers/api.py:145 | the comprehension yields no chunk for an empty reply, the reply itself when it is at most 1600 characters, and otherwise its first 1600 characters followed by the chunks of the rest |
| `Delivery.ChunksRoundTrip` | src/flint/routers/api.py:145 | the chunks concatenate back to the reply |
| `Delivery.ChunksShape` | src/flint/routers/api.py:145 | every chunk is non-empty and at most 1600 characters, all but the last are exactly 1600, and the count is the ceiling of length/1600 |
| `Delivery.ThirtyFiveHundredCharacters` | src/flint/routers/api.py:145 | a 3500-character reply gives three chunks of 1600, 1600 and 300 characters |
| `Delivery.EmptyReplyHasNoChunks` | src/flint/routers/api.py:145 | an empty reply gives no chunk |
| `Delivery.Outbox` | src/flint/routers/api.py:146-147 | one outbound message per chunk: their bodies are exactly the chunks, in order, and every one goes from `To` to `From` |
| `Delivery.LastSid` | src/flint/routers/api.py:146-149 | `message.sid` after the loop fails exactly when there was no chunk, with AttributeError, because `message` is then still the inbound body bound at line 105; otherwise it is the id of the message sent for the last chunk |
| `Delivery.SendChunks` | src/flint/routers/api.py:146-149 | the loop, with `message` first bound to the inbound body (line 105), sends exactly `Outbox` of the chunks and returns exactly `LastSid` |
| `Delivery.DeliveredReply` | src/flint/routers/api.py:145-149 | the bodies sent concatenate to the reply, each between 1 and 1600 characters, and the result fails exactly for an empty reply |
| `Sessions.Lookup` | src/velarium/configure.py:49 | what the defaultdict yields for a uuid: its list, or an empty one; `Sessions.SessionStore.Get` states the store change |
| `Sessions.Recent` | src/velarium/configure.py:52 | `[:10]` is a prefix of the query result, of at most 10 rows, and the whole result when it has fewer than 10 |
| `Sessions.Reversed` | src/velarium/configure.py:53 | `[::-1]` keeps the length and puts element `n-1-i` at position `i` |
| `Sessions.Replay` | src/velarium/configure.py:55-57 | replaying conversations gives two messages each, the user's message at `2i` and the bot's at `2i+1` |
| `Sessions.Restored` | src/velarium/configure.py:52-53 | a user's `[:10]` then `[::-1]`; `Sessions.RestoredLength` and `Sessions.RestoredOrder` state its length and order |
| `Sessions.ReplayInto` | src/velarium/configure.py:55-57 | the inner loop continued from a map; `Sessions.ReplayIntoEffect` gives its closed form |
| `Sessions.BootstrapFrom` | src/velarium/configure.py:51-57 | the outer loop continued from a map; `Sessions.BootstrapFromEntries` states its entries |
| `Sessions.Bootstrap` | src/velarium/configure.py:46-59 | the map the bootstrap returns; `Sessions.BootstrapSessions` states its keys and entries |
| `Sessions.WithExchange` | src/flint/routers/api.py:139 | a memory after one exchange is saved: the old messages unchanged, then the input as a user message and the output as an AI message |
| `Sessions.SessionStore.constructor` | src/velarium/configure.py:49 | the defaultdict starts with no entry |
| `Sessions.SessionStore.Get` | src/velarium/configure.py:49 | looking up a uuid with no entry yields a fresh empty memory and stores it under that uuid; an existing entry is returned unchanged; no other entry changes |
| `Sessions.SessionStore.AddUserMessage` | src/velarium/configure.py:56 | appends a user message to the uuid's list, creating the entry if needed, and changes nothing else |
| `Sessions.SessionStore.AddAiMessage` | src/velarium/configure.py:57 | appends an AI message to the uuid's list, creating the entry if needed, and changes nothing else |
| `Sessions.SessionStore.SaveContext` | src/flint/routers/api.py:139 | saving an exchange into a uuid's memory, as the chain's `ConversationBufferMemory` does, replaces only that uuid's entry, by `WithExchange` of its old list |
| `Sessions.SessionStore.ReplayConversations` | src/velarium/configure.py:55-57 | the inner loop leaves the map equal to `ReplayInto` of the old map: each conversation adds its user message, then its bot message, to that uuid's entry |
| `Sessions.InitializeConversationSessions` | src/velarium/configure.py:46-59 | the nested loops produce a fresh store holding exactly `Bootstrap(users)` |
| `Sessions.ReplayIntoEffect` | src/velarium/configure.py:55-57 | replaying a user's conversations appends their messages to that uuid's entry and changes no other entry; with no conversation no entry is created |
| `Sessions.RestoredLength` | src/velarium/configure.py:52-57 | a user's replay has 2 × min(10, count) messages |
| `Sessions.RestoredOrder` | src/velarium/configure.py:52-57 | message pair `i` of a user's replay is conversation `n-1-i` of the query result, where `n` is min(10, count): the query's order reversed |
| `Sessions.BootstrapFromEntries` | src/velarium/configure.py:51-57 | continuing the bootstrap from a map without these users' uuids leaves every other entry as it was, and gives each user an entry exactly when it has conversations |
| `Sessions.BootstrapSessions` | src/velarium/configure.py:46-59 | for users with distinct uuids, the map has an entry for exactly the users with conversations, each holding that user's replay, and no other key |
| `Pipeline.Respond` | src/flint/routers/api.py:105-149 | one pass as a function of the memory before the message; its properties are the `Pipeline` lemmas below |
| `Pipeline.RespondToUser` | src/flint/routers/api.py:105-149 | one pass: the outcome (type, message, history, prompt, reply, saved conversation, memory after the chain, messages sent, result) is `Respond` of the memory as it was, and the only change to the store is that the user's entry becomes the memory after the chain, created first if the user was new |
| `Pipeline.MemoryRecordsPrompt` | src/flint/routers/api.py:123-139 | the memory keeps its messages and gains the prompt the model was asked, the raw message without history and the template output with it, followed by the reply |
| `Pipeline.SavesRawMessage` | src/flint/routers/api.py:108-142 | the saved conversation holds the raw or transcribed user message, not the formatted prompt, with the reply and a type that is voice exactly for an audio message |
| `Pipeline.RawPromptWithoutHistory` | src/flint/routers/api.py:121-136 | with no candidate, or the best one over the budget, the history is empty and the model is asked the user message verbatim |
| `Pipeline.TemplatePromptWithHistory` | src/flint/routers/api.py:125-136 | the history is the framings of a ranked prefix of the search results, within 1000 characters, and a non-empty history gives the template applied to (message, history) |
| `Pipeline.SendsWholeReply` | src/flint/routers/api.py:145-149 | the messages sent carry the whole reply in order, each 1 to 1600 characters, from `To` to `From`; an empty reply sends nothing and ends in AttributeError |

## Left out

- `Pipeline.RespondToUser`: the lookup at src/flint/routers/api.py:120 reads `conversation_sessions` from `flint.state` (imported at src/flint/routers/api.py:17), and `flint.state` is not part of this model. The model takes that map to be the defaultdict `initialize_conversation_sessions` builds (src/velarium/configure.py:49), so a new user gets an empty memory. That identification is not shown by the code here: start-up assigns the map to `velarium.state` (src/velarium/main.py:12, 41), and the velarium app mounts `velarium.routers.api` (src/velarium/configure.py:69). If `flint.state.conversation_sessions` were a plain dict, line 120 would raise KeyError for a new user, and the model does not cover that.
- LangChain's chain and memory classes are not part of this model. The write the chain makes into `chat_history` (src/flint/routers/api.py:139) is modelled by its documented effect, `ConversationBufferMemory.save_context`: the `question` input as a user message, then the `text` output as an AI message (`Sessions.SessionStore.SaveContext`).
- HTTP routing and Twilio signature validation (src/flint/routers/api.py:28-34, 39-59) are I/O and a foreign library.
- The Twilio client is a foreign library. `messages.create` is a pure function from (body, from, to) to a message id, so a send that raises is not modelled.
- The Django user lookup and creation (src/flint/routers/api.py:62-70) are persistence. Only the phone-number split at line 65 is modelled.
- `save_conversation` is the one imported from `flint.configure` (src/flint/routers/api.py:18), called with the user, the message, the reply and the message type (src/flint/routers/api.py:142). `flint.configure` is not part of this model, and its database write is persistence. The pipeline only produces the message, reply and type it is called with; the user is the caller's. The three-argument `save_conversation` in src/velarium/configure.py:61-63 is not the one called.
- `asyncio.create_task` fire-and-forget scheduling (src/flint/routers/api.py:72, 142) is left out. The code has no locks, so there is nothing to state about concurrency.
- The model calls (`LLMChain`, `ChatOpenAI`, `initialize_agent`, src/velarium/configure.py:27-43) are external. The reply is a function of the prompt and the memory.
- `transcribe_audio_message` and `embeddings_manager.search` are foreign services, so they are parameters. A transcription or search that raises is not modelled.
- The text of `previous_conversations_prompt` is defined in a file that is not part of this model, so it is an uninterpreted parameter.
- The ordering of the `Conversation` queryset (and so which 10 conversations `[:10]` takes) depends on model metadata outside this model. Each user's query result is a given sequence.
- Start-up keys each entry by `conversation.user.khojuser.uuid`. Because the query filters on that user, the model uses the user's own uuid.
- The conversation memories are values in the store's map, not shared objects. Aliasing of a memory object between the store and a running chain is not modelled.
- An absent `Body` (`None`) on a non-audio message would reach the search and the model as `None`, both outside this model. The model takes `Body` as a string.
- The `/dev/chat` endpoint (src/flint/routers/api.py:75-102) duplicates the pipeline without packing.
- `src/velarium/main.py` is left out entirely: logger setup, server start, and the `try`/`except` around start-up that only logs.
- `configure_routes` (src/velarium/configure.py:66-71) is left out as process plumbing.
- Logging throughout is left out.
