# tacheles chat streaming, modelled in Dafny

tacheles is a chat application. A React frontend sends a user message to a
FastAPI backend. The backend forwards the conversation to an
OpenAI-compatible language model and streams the answer back as NDJSON
(newline-delimited JSON) records. The frontend reads the stream chunk by
chunk and grows one assistant message in the list it displays.

This project models both ends of that wire and proves what they promise:

- `JsonText`: `json.dumps` of a dict of strings (ensure_ascii escaping) and
  `JSON.parse` of a flat object of strings, with the round trip between them.
- `Ndjson`: the line framing. The backend writes `<json> \n`. The frontend
  runs `split('\n')` and drops the lines whose `trim()` is empty.
- `Reconciler`: `handleSendMessage`'s stream handling as pure functions:
  - the pop-last/push-back updater;
  - the per-line parse and `content` test;
  - the per-chunk decoding;
  - the bounded read loop with its end, failure and abort exits.
- `ChatInterfaceComponent`: the ChatInterface component as a class.
  - Its fields are `inputEnabled`, `abortController`, `error` and the bound
    `messages`.
  - Its handlers run the same steps with loops and are proved to leave
    exactly the state `Reconciler.Session` describes.
- `UserInputComponent`: the UserInput component as a class. It covers the
  text field, the send-enable rule, the Enter-key handler and both buttons.
- `Models`: `Message.to_dict` and `Conversation.to_list`.
- `Routes`: the backend endpoints the stream depends on.
  - `chat`'s generator: checks, prompt, yielded records, raised error, what
    is stored.
  - `new_conversation`, `get_conversations` and `get_conversation_messages`
    with their 403/404 checks and the trailing-user trim.
- `EndToEnd`: the two ends joined. Whatever deltas the model streams, and
  however the backend's lines are grouped into reads, the frontend ends
  with exactly the assistant text the backend stores. A line split inside
  its JSON object across two reads is rejected.

The session's `user_id`, the database and the language model's answer are
parameters: `session: Option<int>`, the `Database` object and a
`Completion` value. The transport is a script of read events. The script
says what each `await stream.read()` returns: a chunk of text, the end, a
failure, or an abort issued by another handler while the read was pending.

## Model

| member | source | states |
|---|---|---|
| JsonText.DumpsRoundTrip | backend/tacheles_backend/api/routes.py:204-208 | `JSON.parse` of the text `json.dumps` writes for a dict of strings, with any trailing whitespace, gives back every member in order |
| JsonText.DumpsPrintable | backend/tacheles_backend/api/routes.py:204-208 | a dumped record is printable ASCII and holds no line feed, so each record is exactly one line |
| JsonText.Dumps | backend/tacheles_backend/api/routes.py:204-206 | `json.dumps` of a dict writes one object: its text opens with `{` and closes with `}` |
| JsonText.Parse | frontend/src/ChatInterface.js:74 | `JSON.parse` accepts only a text whose first non-whitespace character opens an object |
| JsonText.Lookup | frontend/src/ChatInterface.js:74-78 | a defined property holds the value of a member with that key |
| JsonText.DumpsPrefixMalformed | frontend/src/ChatInterface.js:74 | every non-empty proper prefix of a record's JSON text is rejected by `JSON.parse` |
| JsonText.LookupFinds | frontend/src/ChatInterface.js:74-75 | a property of the parsed object is defined exactly when some member has that key, and then it holds the value of the last such member |
| JsonText.Hex4RoundTrip | backend/tacheles_backend/api/routes.py:204-206 | the four lowercase hex digits of a `\u` escape read back to the code unit written |
| Ndjson.Line | backend/tacheles_backend/api/routes.py:208 | a yielded line opens with `{` and ends with a line feed, its only one |
| Ndjson.ChunkLines | frontend/src/ChatInterface.js:70 | every line taken from a chunk is non-blank and holds no line feed |
| Ndjson.Split | frontend/src/ChatInterface.js:70 | `split('\n')` gives at least one piece, and no piece holds a line feed |
| Ndjson.JoinSplit | frontend/src/ChatInterface.js:70 | splitting loses nothing: joining the pieces with line feeds gives the chunk back |
| Ndjson.SplitJoin | frontend/src/ChatInterface.js:70 | pieces without line feeds are exactly what splitting their join gives |
| Ndjson.NonBlank | frontend/src/ChatInterface.js:70 | the filter keeps no line that is blank after `trim()`, and never adds lines |
| Ndjson.ChunkOfWholeLines | frontend/src/ChatInterface.js:69-70 | a chunk of whole backend lines yields one line per record, in order, each the record's JSON text and its space |
| Reconciler.Reconcile | frontend/src/ChatInterface.js:88-98 | after an assistant message: same length, earlier messages untouched, last content becomes the text; otherwise every message kept and one assistant message with the text appended |
| Reconciler.ReconcileAfterUser | frontend/src/ChatInterface.js:94-96 | after a message that is not the assistant's, reconciling appends exactly one assistant message holding the text |
| Reconciler.ParseLine | frontend/src/ChatInterface.js:74-75 | a line fails exactly when `JSON.parse` rejects it, and then with its SyntaxError; otherwise `type` and `data` are the values of members with those keys |
| Reconciler.ApplyRecord | frontend/src/ChatInterface.js:75-98 | a content record appends its `data` to the text (the text "undefined" when it has none); any other record changes nothing |
| Reconciler.ApplyLines | frontend/src/ChatInterface.js:73-100 | the lines of a chunk in order; the only error they can raise is the SyntaxError of a malformed line, and the list never becomes empty |
| Reconciler.ApplyChunk | frontend/src/ChatInterface.js:69-100 | a chunk is decoded on its own, split and filtered, and its lines applied; its only possible error is that SyntaxError |
| Reconciler.Stream | frontend/src/ChatInterface.js:66-108 | the read loop over a script of events, with at most 10,000,000 reads and its end, failure and abort exits; the list never becomes empty |
| Reconciler.StreamErrors | frontend/src/ChatInterface.js:66-108 | a stream stops with an error only on a malformed line or a failing read; the end of the stream and an abort report nothing |
| Reconciler.ReconcileAbsorbs | frontend/src/ChatInterface.js:88-98 | reconciling with one text and then another equals reconciling once with the later text, so the assistant message is never duplicated |
| Reconciler.FoldRecordsResult | frontend/src/ChatInterface.js:73-98 | fragments F1..Fn append F1+…+Fn to the text; the list is reconciled once with the final text, or left unchanged when no record is a content record |
| Reconciler.NoContentNoText | frontend/src/ChatInterface.js:75-78 | records none of which is a content record add no text |
| Reconciler.ApplyWellFormedLines | frontend/src/ChatInterface.js:73-100 | a chunk whose lines all parse applies every record in order and reports no error |
| Reconciler.MalformedLineStops | frontend/src/ChatInterface.js:73-108 | a malformed line stops everything: the records before it are applied, none after it, and its SyntaxError message is the error |
| Reconciler.StreamAfterChunks | frontend/src/ChatInterface.js:66-101 | reads compose: chunks within the bound are drained in order, each decoded on its own, and the stream stops at the first error |
| Reconciler.AbortStopsStream | frontend/src/ChatInterface.js:102-104 | after an abort nothing more is applied and no error is recorded, whatever the stream would have delivered |
| Reconciler.BrokenKeepsPartial | frontend/src/ChatInterface.js:102-108 | a failing read records its message and keeps every fragment reconciled before it |
| Reconciler.StreamIgnoresBeyondBound | frontend/src/ChatInterface.js:66 | no more than 10,000,000 reads are made: events beyond the bound never matter |
| Reconciler.BoundEndsSilently | frontend/src/ChatInterface.js:66-68 | reaching the bound with well-formed chunks ends the loop without an error |
| Reconciler.LinesKeepShape | frontend/src/ChatInterface.js:73-98 | the lines of a chunk keep the list as the sent list followed by at most one assistant message holding the text |
| Reconciler.StreamKeepsShape | frontend/src/ChatInterface.js:66-101 | so does every run of reads, whatever its events |
| Reconciler.Session | frontend/src/ChatInterface.js:36-115 | a send appends the user message with its text and `conversation_id` first and keeps it: the list ends as that, or that plus one assistant message holding the text; an error comes only from a refused request, a malformed line or a failing read |
| ChatInterfaceComponent.AbortController.constructor | frontend/src/ChatInterface.js:54 | a new controller is not aborted |
| ChatInterfaceComponent.AbortController.Abort | frontend/src/ChatInterface.js:120 | `abort()` marks the controller aborted |
| ChatInterfaceComponent.ChatInterface.constructor | frontend/src/ChatInterface.js:20-22 | input enabled, no controller, no error |
| ChatInterfaceComponent.ChatInterface.UpdateLastMessage | frontend/src/ChatInterface.js:88-98 | the pop/push updater leaves exactly `Reconcile` of the old list and changes nothing else |
| ChatInterfaceComponent.ChatInterface.ConsumeLines | frontend/src/ChatInterface.js:73-100 | the inner loop leaves the text, the list and the failure that `ApplyLines` gives |
| ChatInterfaceComponent.ChatInterface.HandleSendMessage | frontend/src/ChatInterface.js:36-115 | the list ends as `Session` says; the error becomes the failure's message when there is one and is otherwise kept; input ends enabled and the controller null, in every outcome |
| ChatInterfaceComponent.ChatInterface.HandleNewConversation | frontend/src/ChatInterface.js:117-122 | aborts the in-flight controller, if any, and forgets it; nothing else changes |
| ChatInterfaceComponent.ChatInterface.Unmount | frontend/src/ChatInterface.js:24-34 | the clean-up aborts the in-flight controller, if any |
| ChatInterfaceComponent.ChatInterface.DismissError | frontend/src/ChatInterface.js:135 | closing the alert clears the error and nothing else |
| UserInputComponent.UserInput.constructor | frontend/src/UserInput.js:16-17 | empty text, send disabled, nothing sent |
| UserInputComponent.UserInput.SendButtonDisabled | frontend/src/UserInput.js:61 | the Send button is disabled exactly when input is off or the text is empty (whitespace enables it) |
| UserInputComponent.UserInput.Change | frontend/src/UserInput.js:28-38 | typing sets the text, and send is disabled exactly when the text is empty |
| UserInputComponent.UserInput.SetInputEnabled | frontend/src/UserInput.js:13 | the parent's flag is taken over, the text is kept |
| UserInputComponent.UserInput.Send | frontend/src/UserInput.js:45-46 | the text is sent once and the field cleared |
| UserInputComponent.UserInput.KeyDown | frontend/src/UserInput.js:41-49 | only a plain Enter is prevented; it sends the text and clears the field exactly when input is on and the text is not empty; any other key, Enter with a modifier included, sends nothing |
| UserInputComponent.UserInput.ClickSend | frontend/src/UserInput.js:55-61 | a click on an enabled Send sends the current text once and clears the field; a disabled one does nothing |
| UserInputComponent.UserInput.ClickNewConversation | frontend/src/UserInput.js:66-74 | the button exists and calls `resetConversation` exactly when that prop is given |
| Models.ToDict | backend/tacheles_backend/models/models.py:51-53 | the dict holds the message's role and its content |
| Models.ToDictKeepsRoleAndContent | backend/tacheles_backend/models/models.py:51-53 | two messages give the same dict exactly when role and content agree; neither identifier changes the dict |
| Models.Dicts | backend/tacheles_backend/models/models.py:27-29 | one dict per message, in order, holding its role and content |
| Models.DictsAppend | backend/tacheles_backend/models/models.py:29 | the dicts of two runs of messages are the dicts of each, in order |
| Models.Conversation.constructor | backend/tacheles_backend/models/models.py:16-24 | a new conversation keeps its id and owner and has no messages |
| Models.Conversation.ToList | backend/tacheles_backend/models/models.py:27-29 | `to_list` has one entry per message, in order, with its role and content |
| Routes.Owns | backend/tacheles_backend/api/routes.py:175-176 | an anonymous session owns nothing, and a session owns only its own user's rows |
| Routes.Accumulate | backend/tacheles_backend/api/routes.py:199-203 | `llmmessage` stays empty when no delta has content |
| Routes.BuildPrompt | backend/tacheles_backend/api/routes.py:186-188 | the prompt is the system message, the stored history in order, then the new user message |
| Routes.ContentRecords | backend/tacheles_backend/api/routes.py:200-208 | at most one record per delta, each a content record |
| Routes.AccumulateAppend | backend/tacheles_backend/api/routes.py:199-208 | the text and the records of consecutive runs of deltas are those of each run, in order |
| Routes.NoContentIsInert | backend/tacheles_backend/api/routes.py:202-208 | a delta without content adds neither text nor a record |
| Routes.EndOnceAndLast | backend/tacheles_backend/api/routes.py:212-215 | a completed stream carries exactly one end record, and it comes after every content record |
| Routes.DeltaStep | backend/tacheles_backend/api/routes.py:200-208 | one more delta appends its content to `llmmessage` and one content record, or nothing when it has no content |
| Routes.StreamDeltas | backend/tacheles_backend/api/routes.py:199-208 | the loop's `llmmessage` is the concatenation of the deltas with content, and it yields one content record for each of them, in order |
| Routes.TrimTrailingUser | backend/tacheles_backend/api/routes.py:307-309 | at most one message is removed, and only a trailing user message; otherwise the list is returned unchanged |
| Routes.TrimmedEndsWithoutUser | backend/tacheles_backend/api/routes.py:302-309 | a history without two user messages in a row no longer ends with a user message once trimmed |
| Routes.AlternatingNotTrimmed | backend/tacheles_backend/api/routes.py:302-309 | a user/assistant alternating history is returned whole |
| Routes.ChatKeepsAlternation | backend/tacheles_backend/api/routes.py:219-221 | storing a user message and its answer keeps a history alternating |
| Routes.Database.constructor | backend/tacheles_backend/models/models.py:22 | an empty table, ids assigned from 1 |
| Routes.Database.Get | backend/tacheles_backend/api/routes.py:294-296 | a conversation is found exactly when one has the id, and it is that one |
| Routes.Database.OwnedBy | backend/tacheles_backend/api/routes.py:243-245 | every listed conversation is stored and owned by the user, and every stored conversation the user owns is listed |
| Routes.Database.OwnedByAppend | backend/tacheles_backend/api/routes.py:243-245 | the listing keeps storage order and multiplicity: one more stored conversation extends it by exactly that conversation when the user owns it, and leaves it unchanged otherwise |
| Routes.Database.NewConversation | backend/tacheles_backend/api/routes.py:122-136 | 403 unless the user is the session's; a user without id fails with 500; otherwise one new empty conversation owned by the user is stored under the next id |
| Routes.Database.GetConversations | backend/tacheles_backend/api/routes.py:240-245 | 403 unless the user is the session's; otherwise that user's conversations |
| Routes.Database.GetConversationMessages | backend/tacheles_backend/api/routes.py:293-309 | 404 for a missing conversation, 403 for another owner, otherwise the stored messages without a trailing user message |
| Routes.Database.Chat | backend/tacheles_backend/api/routes.py:166-227 | missing id 500, missing conversation 404, other owner 403, each before any record; the prompt sent; on a create failure 500 "Error processing chat message"; when streaming breaks, 500 after the content records and nothing stored; on success the content records then the end record, and exactly the user message then the assistant message with `llmmessage` stored; no other conversation changes |
| EndToEnd.LineIsOneObject | backend/tacheles_backend/api/routes.py:204-208 | every yielded line is one JSON object, a space and a line feed, and the object parses back to the record |
| EndToEnd.TypedReadBack | frontend/src/ChatInterface.js:74-75 | a `{"type", "data"}` record reads back as its type and its data |
| EndToEnd.PayloadParses | frontend/src/ChatInterface.js:74 | each backend line parses on the frontend to the record's `type` and `data` |
| EndToEnd.WholeLinesChunk | frontend/src/ChatInterface.js:69-100 | a read holding whole backend lines applies each of their records, in order, without error |
| EndToEnd.DrainWholeLines | frontend/src/ChatInterface.js:66-101 | reads of whole lines, however the lines are grouped, apply every record in order |
| EndToEnd.AnswerText | backend/tacheles_backend/api/routes.py:199-208 | the `data` of the content records, as the frontend reads them, concatenate to `llmmessage`, and they carry content exactly when some delta did |
| EndToEnd.EndRecordInert | backend/tacheles_backend/api/routes.py:213-215 | the end record adds neither text nor content on the frontend |
| EndToEnd.FoldAnswer | frontend/src/ChatInterface.js:62-98 | folding a completed answer's records leaves its full text, in one assistant message when it had content |
| EndToEnd.StreamedAnswerArrives | frontend/src/ChatInterface.js:62-98 | a completed exchange leaves the user message then one assistant message whose content is the concatenation of the deltas (none when no delta had content), with no error |
| EndToEnd.SplitLineIsMalformed | frontend/src/ChatInterface.js:66-74 | reads are decoded on their own: when a line is split inside its JSON object, the first read fails to parse, the stream stops with the SyntaxError, and nothing of that record is applied |

## Left out

- JSON is modelled for flat objects whose members are all strings, which is all the stream carries. `JSON.parse` is treated as throwing on anything else (numbers, nesting, lone surrogates in an escape).
- Reconciler.MalformedLineMessage: the exact wording of `JSON.parse`'s SyntaxError belongs to the JavaScript engine; the model uses one fixed message.
- The `TextDecoder` and UTF-8: a chunk is modelled as the text it decodes to. A multi-byte character split across two reads is not modelled.
- The frontend does not buffer a partial line across reads, and neither does the model. `EndToEnd.StreamedAnswerArrives` therefore assumes that each read holds whole lines. `EndToEnd.SplitLineIsMalformed` covers a line split inside its JSON object. A split inside the trailing space and line feed leaves a whole object in the first read and only blank text in the second, so that line is applied as usual; no lemma states this case.
- Reconciler.Reconcile: requires a non-empty list. On an empty list the source pushes `undefined` before the assistant message. That cannot happen after the user message is appended.
- React scheduling: each `setMessages` updater and each state change is taken to apply before the next step, and the effect that updates `isSendDisabled` is taken to have run before the next event.
- `onNewConversation`, the parent's callback in `handleNewConversation`, and `sendMessage` in frontend/src/api.js: the HTTP request is not modelled. The backend's answer is the `Response` parameter.
- An abort during `await sendMessage` reaches the component as a plain Error (api.js wraps it), so it is modelled as `Refused` with that message.
- The read loop stops silently when it reaches 10,000,000 reads, without reporting an error. The model follows the code.
- When `chat`'s generator raises an HTTPException after the response has started, the framework cannot send that status any more. How the client then sees the broken stream is not modelled; `Chat` reports the exception it raises.
- `chat` yields text lines; the model yields records, and `Ndjson.Line` is the line each record is written as (`EndToEnd.LineIsOneObject`).
- Routes.Database.NewConversation: a user without id is refused with 500, standing for the database's refusal to store a conversation without an owner.
- The database: conversations are kept in a sequence with ids from 1, and queries return rows in insertion order. Commits, transactions and other failures of the database are not modelled.
- The language model: its answer is a `Completion` value (a failed create call, or a stream of deltas that may break).
- `new_user`, the health check, logging, CORS and the session middleware are not part of this model.
- The parent's `handleNewConversation` (frontend/src/AppWithoutConversationList.js:41-49) replaces the bound list with the new conversation's messages through `setMessages`. That reset is not modelled: after a read interrupted by `NewConversation`, the list `HandleSendMessage` leaves is the one `Session` describes, not the list the app goes on to show.
- frontend/src/MessageList.js, the conversation-list components and the App components are presentation and orchestration, and are not part of this model.
