# Chat relay and client: a Dafny model

This project models the core of a mobile AI chat application in Dafny. It has three parts, each with its own module:

- **`Api`** (`api.dfy`) is the client-side stream decoder `sendMessageToAIStream`, from services/api.ts. It posts the message to the relay and reads the response body chunk by chunk. A chunk without the reserved marker `__JSON__` is yielded as a `text` event. The first chunk that holds the marker yields its text before the marker, when that text is non-empty, then its payload parsed as JSON as a `json` event; decoding then ends. Any thrown error becomes a single `json` failure event.
  - The same module models `sendMessageToAI`, which folds the decoder's events into one `ChatResponse`.
  - The decoder is an imperative method with a loop. It is proved equal to the declarative event sequence `StreamEvents`, and the properties of the protocol are proved about that sequence.
- **`Storage`** (`storage.dfy`) is the conversation store of services/storage.ts.
  - Every conversation lives in one blob under `@chat_history`: a record from conversation id to conversation. Each operation loads the record, changes it and writes it back whole.
  - A separate slot, `@system_prompt`, holds the user's custom prompt.
  - The store is a class whose two fields are the two storage keys. Each operation is a method whose postcondition gives the new blob as a function of the old one.
- **`Relay`** (`relay.dfy`) is the `/api/chat` handler of mobile-backend/src/index.ts. It:
  - checks the API key;
  - shapes the call to the model provider: the model name, the system instruction (the custom prompt or the trimmed default persona), the role-mapped history trimmed to start at its first user turn, and the user parts;
  - streams the provider's text fragments onto the response;
  - turns a thrown error into a 500 JSON reply, but only while the headers are unsent.

  The Express response is a class whose methods change its fields. The handler is proved to leave it in the state `ExpectedReply` describes.

There are two shared modules:

- `Wrappers` (`wrappers.dfy`) holds `Option` and JavaScript string truthiness.
- `JsStrings` (`jsstrings.dfy`) holds the JavaScript string built-ins the core relies on: `indexOf`, `includes`, `split`, `trim` (with the ECMAScript whitespace set) and concatenation.

How the outside world is represented:

- The network decides what the decoder sees. `fetch` and `reader.read()` are one `HttpOutcome` value: a rejected fetch, a non-ok response, a null body, or a list of decoded text chunks with how reading ended.
- `JSON.parse` is a parameter `parse: JsonParser`. It is the set of texts that parse, each with the object it gives; any other text throws.
- The provider's answer to the relay's call is a `ProviderOutcome`: either rejected at once, or a list of fragments with an optional error raised while streaming.
- `process.env.GEMINI_API_KEY` and `EXPO_PUBLIC_API_URL` are parameters.

## Model

| member | source | states |
|---|---|---|
| Api.ApiUrl | services/api.ts:2 | the configured relay address when it is a non-empty string, otherwise `http://127.0.0.1:3000`; never empty. The decoder's `apiUrl` parameter stands for this value |
| Api.ParseJson | services/api.ts:65 | definition of `JSON.parse` as a partial map: a payload parses exactly when the parser accepts it, and then gives the parser's object |
| Api.ErrorMessage | services/api.ts:76-78 | the reported message is never empty |
| Api.ErrorMessageCases | services/api.ts:76-78 | a `TypeError` whose message mentions `fetch` is reported as the connection-failure message, which names the relay address; any other error with a non-empty message is reported by its own message; an empty message is reported as `An unexpected error occurred` |
| Api.ConnectFailureNamesUrl | services/api.ts:77 | the connection-failure message contains the relay address |
| Api.FirstMarked | services/api.ts:54-61 | the index where decoding stops is within the chunk list; when it is inside the list, that chunk holds the marker |
| Api.FirstMarkedIsFirst | services/api.ts:54-61 | no chunk before the stopping index holds the marker |
| Api.NoMarkedChunk | services/api.ts:54-61 | decoding runs past every chunk exactly when no chunk holds the marker |
| Api.TextEvents | services/api.ts:73 | each unmarked chunk becomes one `text` event carrying the chunk whole, in order |
| Api.TextEventsCons | services/api.ts:73 | the text events of a chunk list are the first chunk's event followed by the rest's |
| Api.SplitPieces | services/api.ts:62-65 | splitting a marked chunk on the marker gives at least two pieces: the text before the first marker, then the payload up to the next marker or the end |
| Api.DecodeMarkedChunk | services/api.ts:61-71 | a marked chunk's events are the non-empty text before the marker, then the parsed payload when `JSON.parse` succeeds |
| Api.DecodedUpToMarked | services/api.ts:54-71 | decoding a body whose chunk k holds the marker, with none before it, gives the text of chunks 0..k-1 followed by chunk k's events |
| Api.SendMessageToAIStream | services/api.ts:17-89 | the events yielded for any network outcome are exactly `StreamEvents`: failures give one failure event; a body gives its unmarked prefix as text, then the marked chunk's events or, when no chunk is marked, a failure event if the read failed |
| Api.FoldEvents | services/api.ts:94-99 | the fold returns the first `json` event's data; when there is none, it returns success with the concatenated text |
| Api.SendMessageToAI | services/api.ts:92-100 | `sendMessageToAI` returns the fold of the decoder's events for the same outcome |
| Api.FirstJsonAfterTexts | services/api.ts:95-96 | a `json` event preceded only by `text` events is the one the fold returns |
| Api.FirstJsonOfTexts | services/api.ts:95-99 | a run of `text` events contains no `json` result |
| Api.FirstJsonPastTexts | services/api.ts:95-96 | leading `text` events do not change which `json` event comes first |
| Api.FoldedOfJson | services/api.ts:96 | once a `json` event comes first, the fold is its data |
| Api.MarkerEventsShape | services/api.ts:61-70 | a marked chunk yields at most two events; it yields a `text` event exactly when the text before the marker is non-empty; a `json` event can only come last |
| Api.UnmarkedChunkContinues | services/api.ts:54-74 | a chunk without the marker is yielded whole, and decoding carries on with the next chunk |
| Api.MarkedChunkEnds | services/api.ts:61-70 | a marked chunk ends decoding: later chunks, and how the stream ends, change nothing |
| Api.TextOfTextEvents | services/api.ts:94-97 | the text of the text events is the concatenation of the chunks |
| Api.UnmarkedStreamIsText | services/api.ts:54-74 | a stream with no marked chunk that ends normally yields one `text` event per chunk, together spelling the whole stream |
| Api.SplitMarkerPassesThrough | services/api.ts:58-73 | a marker cut across two chunks is not recognised: both halves pass through as plain text |
| Api.MarkerAcrossChunksExample | services/api.ts:58-73 | a concrete two-chunk stream whose joined text holds the marker yields only its two chunks as text |
| Api.MalformedPayloadKeepsText | services/api.ts:63-69 | a payload that does not parse yields no `json` event; the text before it is kept, and decoding still ends |
| Api.FailureIsSingleEvent | services/api.ts:75-88 | a rejected fetch, a non-ok response or a null body yields exactly one `json` event, with `success` false, an empty message and a non-empty error |
| Api.FetchFailureNamesRelay | services/api.ts:75-88 | a `fetch` that fails with a `TypeError` mentioning `fetch` yields one failure event whose error is the connection-failure message naming the relay address |
| Api.FetchFailureNamesConfiguredRelay | services/api.ts:2-77 | with the address chosen from the configuration, a failed connection's error names the configured relay when one is set, and `http://127.0.0.1:3000` otherwise |
| Api.NotOkReportsServerError | services/api.ts:41-44 | a non-ok response reports the server's `error` field, or `Failed to fetch response from AI` when that field is absent or empty |
| Api.ReadFailureAfterText | services/api.ts:54-88 | a read that fails mid-stream keeps every text event already yielded and adds one failure event |
| Api.JsonOnlyLast | services/api.ts:17-89 | in every outcome there is at most one `json` event, and it is the last event |
| Api.StreamOfBody | services/api.ts:17-89 | a response with a body yields the decoded body's events |
| Api.FoldOfTexts | services/api.ts:94-99 | folding only text events gives success with their concatenation |
| Api.FoldPlainStream | services/api.ts:92-100 | over a stream with no marker that ends normally, `sendMessageToAI` succeeds with the whole streamed text |
| Api.FoldDecodedPlain | services/api.ts:92-100 | the same result, stated on the decoded body |
| Api.FoldPayload | services/api.ts:92-100 | when the payload after the first marker parses, `sendMessageToAI` returns it, discarding the text before it |
| Api.FoldDecodedPayload | services/api.ts:92-100 | the same result, stated on the decoded body |
| Api.FoldFailure | services/api.ts:92-100 | a failed request never folds into a success |
| JsStrings.IndexOf | services/api.ts:61 | for the non-empty substrings the core searches for, `indexOf` gives -1, or an index at or after the start position where the substring occurs |
| JsStrings.IndexOfIsFirst | services/api.ts:61 | `indexOf` gives the first occurrence, and -1 only when there is none |
| JsStrings.IncludesMeans | services/api.ts:61 | `includes` holds exactly when the substring occurs somewhere |
| JsStrings.IndexOfSuffix | services/api.ts:62 | searching from k finds the same occurrence as searching the suffix from k |
| JsStrings.OccursInSuffix | services/api.ts:62 | an occurrence at or after k is an occurrence in the suffix from k, and the other way round |
| JsStrings.OccursInPrefix | services/api.ts:62 | an occurrence that fits inside a prefix is an occurrence in that prefix |
| JsStrings.Split | services/api.ts:62 | `split` on a non-empty separator gives at least one piece, and two or more exactly when the separator occurs; the first piece is the text before the first separator; no piece contains the separator; joining the pieces with the separator gives the input back |
| JsStrings.SplitUnfold | services/api.ts:62 | a string holding the separator splits into the text before it, followed by the split of the rest |
| JsStrings.SecondPieceToEnd | services/api.ts:62 | with a single separator, the second piece runs to the end of the string |
| JsStrings.SecondPieceToNext | services/api.ts:62 | with a further separator, the second piece runs up to it |
| JsStrings.SplitSecondPiece | services/api.ts:62 | the second piece is the text between the first separator and the next one, or the end |
| JsStrings.TrimStart | mobile-backend/src/index.ts:46 | leading whitespace is dropped: the result is a suffix that starts with a non-whitespace character, and only whitespace was cut |
| JsStrings.TrimEnd | mobile-backend/src/index.ts:46 | trailing whitespace is dropped: the result is a prefix that ends with a non-whitespace character, and only whitespace was cut |
| JsStrings.Trim | mobile-backend/src/index.ts:46 | `trim` gives the slice of the input that starts and ends with a non-whitespace character, with only whitespace cut on either side |
| JsStrings.TrimStartThenEnd | mobile-backend/src/index.ts:46 | trimming the end of the trimmed start gives a slice of the original, with only whitespace cut after it |
| JsStrings.TrimKeepsNonBlank | mobile-backend/src/index.ts:46 | a string holding a non-whitespace character never trims to the empty string |
| JsStrings.TrimOfPadded | mobile-backend/src/index.ts:37-46 | trimming a text padded with whitespace on both sides gives the text back, when the text starts and ends with a non-whitespace character |
| JsStrings.TrimStartOfPadded | mobile-backend/src/index.ts:37-46 | leading whitespace padding is removed exactly |
| JsStrings.TrimEndOfPadded | mobile-backend/src/index.ts:37-46 | trailing whitespace padding is removed exactly |
| Storage.Load | services/storage.ts:25-26 | definition: a blob that was never written loads as the empty record; otherwise the stored record loads |
| Storage.Lookup | services/storage.ts:36-47 | definition: `getConversation(id)` finds a conversation exactly when the blob exists and files one under `id`, and then returns that conversation |
| Storage.Upsert | services/storage.ts:23-34 | after saving, `c` is filed under `c.id`; the keys are the old keys plus `c.id`; every other conversation is unchanged |
| Storage.Remove | services/storage.ts:64-76 | deleting from a blob that was never written leaves it unwritten; otherwise the keys lose `id` and every other conversation is unchanged |
| Storage.InsertByTime | services/storage.ts:55-57 | inserting into a newest-first list keeps it newest first and adds exactly one conversation |
| Storage.SortNewestFirst | services/storage.ts:55-57 | the sort gives a permutation of its input, ordered by non-increasing timestamp |
| Storage.SortKeepsListing | services/storage.ts:55-57 | sorting a listing of the record gives a listing of the same record |
| Storage.ListsOneMore | services/storage.ts:55 | adding the conversation filed under one more key extends a partial listing by that key |
| Storage.ObjectValues | services/storage.ts:55 | `Object.values` lists the record: one entry per key, each the conversation filed under that key, and every filed conversation among them |
| Storage.ConversationStore.constructor | services/storage.ts:3 | on a fresh device, neither storage key has been written |
| Storage.ConversationStore.SaveConversation | services/storage.ts:23-34 | the blob becomes `Upsert` of the old blob; the prompt slot is unchanged; every conversation stays filed under its own id |
| Storage.ConversationStore.GetConversation | services/storage.ts:36-47 | returns `Lookup` of the blob |
| Storage.ConversationStore.GetAllConversations | services/storage.ts:49-62 | returns `[]` when the blob was never written; otherwise returns every stored conversation once, newest first |
| Storage.ConversationStore.DeleteConversation | services/storage.ts:64-76 | the blob becomes `Remove` of the old blob; the prompt slot is unchanged |
| Storage.ConversationStore.ClearAllConversations | services/storage.ts:78-84 | the blob becomes the empty record; the prompt slot is unchanged |
| Storage.ConversationStore.SaveSystemPrompt | services/storage.ts:89-95 | the prompt slot holds the new prompt; the conversations are unchanged, still each filed under its own id |
| Storage.ConversationStore.GetSystemPrompt | services/storage.ts:97-104 | returns the stored prompt, or null when none was saved |
| Storage.SaveThenGet | services/storage.ts:23-47 | after `saveConversation(c)`, `getConversation(c.id)` returns `c` |
| Storage.SaveKeepsOthers | services/storage.ts:23-34 | saving `c` changes no lookup of any other id, whether that id is present or absent |
| Storage.SaveIdempotent | services/storage.ts:23-34 | saving the same conversation twice writes the same record as saving it once |
| Storage.SaveKeepsKeysMatch | services/storage.ts:28 | saving keeps every conversation filed under its own id |
| Storage.DeleteRemovesOnly | services/storage.ts:64-76 | after deleting `id`, looking up `id` finds nothing, and every other id looks up as before |
| Storage.ClearedIsEmpty | services/storage.ts:78-84 | after clearing, every lookup finds nothing and the listing is empty |
| Relay.MapHistory | mobile-backend/src/index.ts:49-52 | the history maps to one turn per entry, in order; a turn is a user turn exactly when the entry's role is `user`; its only part is the entry's content as text; a missing history maps to no turns |
| Relay.FirstUserIndex | mobile-backend/src/index.ts:55 | `findIndex` gives -1 exactly when there is no user turn; otherwise it gives a user turn with no user turn before it |
| Relay.TrimHistory | mobile-backend/src/index.ts:54-60 | the trimmed history is a suffix of the history; every dropped turn is a model turn; it is empty exactly when there is no user turn; otherwise it starts with a user turn |
| Relay.TrimHistoryIdempotent | mobile-backend/src/index.ts:54-60 | trimming an already trimmed history changes nothing |
| Relay.TrimHistoryKeepsUserStart | mobile-backend/src/index.ts:54-60 | a history that starts with a user turn is handed on whole |
| Relay.PreparedHistoryFromFirstUser | mobile-backend/src/index.ts:49-60 | the history handed to `startChat` is exactly the mapped entries from the first `user` entry on |
| Relay.PreparedHistoryWithoutUser | mobile-backend/src/index.ts:49-60 | a history without a `user` entry, or a missing one, is handed on empty |
| Relay.DefaultPersona | mobile-backend/src/index.ts:37-46 | the trimmed template literal is the persona text without the literal's surrounding line break and indentation; it is non-empty and starts and ends with a non-whitespace character |
| Relay.SystemInstruction | mobile-backend/src/index.ts:37 | the custom prompt when it is a non-empty string, otherwise the default persona; never empty |
| Relay.EmptyPromptFallsBack | mobile-backend/src/index.ts:37 | an empty custom prompt falls back to the default persona, just as a missing one does |
| Relay.UserParts | mobile-backend/src/index.ts:67-76 | the message is the first part; a second part, the image as inline data with its MIME type, is added exactly when both `image` and `mimeType` are non-empty |
| Relay.ErrorToString | mobile-backend/src/index.ts:95 | definition: `error.toString()` is `name: message`, leaving out whichever of the two is empty |
| Relay.ErrorReplyFor | mobile-backend/src/index.ts:92-96 | the 500 body has `success` false; its `error` is the error's message, or `Internal Server Error` when that is empty; its `details` is `error.toString()` |
| Relay.ServerResponse.constructor | mobile-backend/src/index.ts:26 | the handler starts with a response nothing has been done to |
| Relay.ServerResponse.SetHeader | mobile-backend/src/index.ts:80-81 | setting a header changes only that header, and is allowed only while the headers are unsent |
| Relay.ServerResponse.Write | mobile-backend/src/index.ts:85 | writing appends the fragment and sends the headers |
| Relay.ServerResponse.End | mobile-backend/src/index.ts:88 | ending finishes the response and changes nothing else |
| Relay.ServerResponse.ReportError | mobile-backend/src/index.ts:91-97 | with the headers already sent, the response is left as it is; otherwise it gets status 500 and the error's JSON body, and is finished |
| Relay.WriteAll | mobile-backend/src/index.ts:83-86 | the stream loop writes every fragment, in order, and sends the headers when it writes at least one; it changes nothing else |
| Relay.ShapeCall | mobile-backend/src/index.ts:35-76 | the call has the model `gemini-2.5-flash`, the chosen system instruction and the prepared history. Its parts are the message as text, then, exactly when both `image` and `mimeType` are non-empty, the image as inline data with that MIME type; there are never more than two |
| Relay.StreamProviderReply | mobile-backend/src/index.ts:78-88 | a rejected call leaves the response untouched and hands its error to the catch block; a stream sets the two streaming headers, writes every fragment, and ends the response exactly when no error interrupts it |
| Relay.HandleChat | mobile-backend/src/index.ts:26-98 | the response ends in the state `ExpectedReply` describes; no call is shaped when the key is missing; with a key, the call has the model, the system instruction, the prepared history and the user parts that `ShapeCall` states, including the inline image part and the bound of two parts |
| Relay.MissingKeyReply | mobile-backend/src/index.ts:30-97 | a missing or empty key gives a 500 reply with no headers set and no text written, whose body carries the missing-key message and its `Error:` details |
| Relay.JsonBodyIffNothingWritten | mobile-backend/src/index.ts:80-97 | a JSON body is sent exactly when the key is missing, the call is rejected, or the stream fails before its first fragment; it then has status 500 and no streamed text |
| Relay.CompletedStreamReply | mobile-backend/src/index.ts:80-88 | a stream that completes gives status 200, every fragment in order, no JSON body, and a finished response |
| Relay.MidStreamFailureLeavesOpen | mobile-backend/src/index.ts:83-97 | a failure after the first fragment keeps what was written, sends no JSON body, and leaves the response unfinished |
| Relay.TextOrJsonNotBoth | mobile-backend/src/index.ts:80-97 | no response carries both streamed text and a JSON body |

## Left out

- Network I/O:
  - `fetch`, `response.body.getReader()` and `TextDecoder` are not modelled. They are replaced by the `HttpOutcome` value, whose chunks are already decoded text.
  - How bytes are cut into chunks is therefore an input, not something the model decides.
  - `TextDecoder` with `{ stream: true }` decodes a character split across reads correctly, so such a chunk boundary loses nothing. The decoder is never flushed at the end of the stream, though, so an incomplete byte sequence at the very end is silently dropped. The model's chunks are already decoded text, so it does not capture that loss.
- Request body: the body the client sends is not modelled. The relay receives it as the `ChatRequest` datatype, with only string fields.
  - Non-string values in `req.body` and `msg.content` are not modelled.
- Relay.ChatRequest: the client sends a `category` field; the handler never reads it, so the model leaves it out.
- JSON:
  - `JSON.parse` is the `parse` parameter.
  - `response.json()` on a non-ok response is the `ErrorBody` value.
  - In the store, `JSON.stringify` followed by `JSON.parse` is taken to be the identity on a record.
- Corrupted storage: a stored blob that fails to parse, and the catch blocks that log its errors, are not modelled.
- Asynchrony: async storage calls are not modelled. Each store operation is one atomic method, so two interleaved saves that lose an update are not captured.
- Logging: `console.error`, `console.log` and the request logger have no observable effect and are left out.
- Timestamps: `new Date(timestamp).getTime()` is not modelled; a conversation's timestamp is already the integer it gives. Invalid dates, whose comparison gives `NaN`, are not modelled.
- Api.SendMessageToAI: a response body the relay leaves open cannot be expressed by `HttpOutcome`. This is the relay's reply after a provider error in mid-stream, when it never calls `res.end()` (Relay.MidStreamFailureLeavesOpen). In the source, the decoder then yields the text received so far and waits for ever on `reader.read()`, and `sendMessageToAI` never returns. The model's outcomes all end, either with `Done` or with a rejected read, so the model promises a result where the source hangs.
- Storage.SortNewestFirst: the order of conversations with equal timestamps is not stated. The contract states only the permutation and the newest-first order.
  - In the source, that order is fixed. `Object.values` lists array-index keys in ascending order, then the other keys in creation order. `JSON.stringify` and `JSON.parse` keep that order, and `Array.prototype.sort` is stable. With the app's ids, ties therefore come out in the order they were first saved.
  - The model cannot state this, because a Dafny `map` carries no key order.
- Storage.Lookup, Storage.Upsert: the record is a plain JavaScript object in the source; here it is a map. Ids that name `Object.prototype` members are treated as plain keys. In the source:
  - saving under `"__proto__"` calls the prototype setter, stores nothing, and is dropped by `JSON.stringify`, so Storage.SaveThenGet does not hold for that id;
  - looking up an inherited name such as `"toString"` in an existing blob returns that inherited member, not null.
  - The app's generated ids never take these names.
- Express:
  - The app setup (CORS, the JSON body parser, `/health`, `listen` and the port) is not modelled.
  - Headers Express adds on its own in `res.json` are not modelled.
  - `headersSent` turns true on the first `res.write`, on `res.end` and on `res.json`. It does not turn true on `setHeader`.
- Provider SDK: the Gemini SDK (`getGenerativeModel`, `startChat`, `sendMessageStream`, `chunk.text()`) is not modelled. The `ProviderCall` the handler shapes is its output, and the provider's reaction is the `ProviderOutcome` input.
  - Relay.HandleChat: an error thrown by `getGenerativeModel` or `startChat` themselves is folded into `Rejected`. It reaches the same catch block with the headers unsent.
- App screens: the screens and the client-side orchestrator that call these functions, such as app/chat/[id].tsx, are not part of this model.
- Api: the unused `buffer` variable of the decoder is left out, because it never affects the output.
