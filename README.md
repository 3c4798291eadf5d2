# Spyder's language-server client, modelled in Dafny

This project models the part of Spyder's editor that talks to language
servers over the Language Server Protocol:

- **The transport proxy** (`producer.py`). It forwards each message the
  client queued on the ZeroMQ socket to the server. Each message becomes a
  JSON-RPC request object written as `Content-Length: N\r\n\r\n` followed by
  the UTF-8 body.
- **The client** (`client.py`). It numbers outgoing messages and records
  which requests await a response and which editor wants each reply. It
  drains what the transport hands back: notifications go to the handler of
  their method, responses to the handler of the request they answer. It also
  post-processes the server's capabilities.
- **The document provider** (`providers/document.py`). It holds the
  parameter builders of the document requests and notifications, and the
  table of which editors have which document open. It also has the handlers
  that turn completion, signature-help, hover and definition results into
  editor replies.
- **The manager** (`lspmanager.py`). It keeps one entry per configured
  language, with a status, the server's settings and a client instance. It
  queues files opened before a client exists, and starts, stops and
  restarts clients as settings change. This module also holds the server
  settings record, its display string and the wrap-around row navigation of
  the settings table.

The modules and their roles:

- **Json** holds JSON values and the Python operations the code relies on:
  truthiness, negative indexing, `len`, `[]` with its `KeyError`,
  `IndexError` and `TypeError` cases.
- **Protocol** holds the method names and message records.
- **Decimal** and **Utf8** are the number formatting and text encoding the
  wire format needs.
- **Transport**, **Servers**, **Documents**, **Client** and **Manager** are
  the components themselves.

State-changing code is modelled in two forms:

- A pure function of the old state, which the lemmas reason about.
- A class with the same fields, whose methods update them in place. Each
  method is proved to produce exactly the state the function describes.

Exceptions and effects are represented as follows:

- **Exceptions.** A Python exception is a `raised` flag, or a None result.
  The model then keeps whatever the code had already done before raising.
- **Calls on other objects.** What the code does to objects it does not own
  is recorded as a log: editors' `handle_response`, capability signals,
  client instances started or stopped by the manager, and bytes written to
  sockets.

Several behaviours of the code are modelled as written and stated as
lemmas:

- Every message that is not cancelled gets an id, notifications included.
- Any notification that carries an id overwrites the request counter. After
  the transport's `server_ready` (id -1), ids therefore repeat.
- Closing a document removes the closing editor only when it is not the
  first in the list.
- `start_lsp_client` hands queued files to the status dict instead of the
  client instance, so it raises whenever files were queued.

## Model

Paths are relative to the repository root. `client.py` is
`spyder/plugins/editor/lsp/client.py` and `document.py` is
`spyder/plugins/editor/lsp/providers/document.py`.

| member | source | states |
|---|---|---|
| Json.PyIndex | spyder/plugins/editor/lsp/providers/document.py:162-163 | Python indexing: defined exactly for -len..len-1; a negative index counts from the end; anything else is an IndexError |
| Json.PyGetItem | spyder/plugins/editor/lsp/providers/document.py:135-137 | `v[k]` on a list is Python indexing by an int; on a dict it is the key's value, with a KeyError exactly when the key is missing |
| Json.Field | spyder/plugins/editor/lsp/providers/document.py:44-45 | a dict lookup succeeds exactly when the value is a dict holding the key, and yields that key's value |
| Decimal.NatToString | spyder/plugins/editor/lsp/transport/producer.py:161-162 | the decimal rendering of the content length is at least one digit, has no leading zero, and is one digit exactly for numbers below 10 |
| Decimal.NatToStringValue | spyder/plugins/editor/lsp/transport/producer.py:161-162 | reading the rendered digits back gives the number (proved by induction) |
| Decimal.NatToStringInjective | spyder/plugins/editor/lsp/transport/producer.py:161-162 | different lengths give different headers |
| Decimal.IntToString | spyder/plugins/lspmanager.py:78-85 | a port is rendered as its decimal digits, with a minus sign before a negative one |
| Utf8.EncodeChar | spyder/plugins/editor/lsp/transport/producer.py:155 | one character encodes to 1-4 bytes, to one byte equal to its code exactly when it is ASCII, and every byte after the first is a continuation byte |
| Utf8.Encode | spyder/plugins/editor/lsp/transport/producer.py:155 | the encoding of a text is never shorter than the text |
| Utf8.EncodeLength | spyder/plugins/editor/lsp/transport/producer.py:155-156 | the byte length equals the character count if and only if every character is ASCII |
| Utf8.EncodeAppend | spyder/plugins/editor/lsp/transport/producer.py:155 | encoding a concatenation is concatenating the encodings |
| Utf8.EncodeAscii | spyder/plugins/editor/lsp/transport/producer.py:161-162 | an ASCII text encodes byte for byte to its character codes |
| Utf8.AsciiBytes | spyder/plugins/editor/lsp/transport/producer.py:161-162 | the bytes of an ASCII header are its character codes, one per character |
| Utf8.AsciiBytesAppend | spyder/plugins/editor/lsp/transport/producer.py:161-162 | the bytes of a concatenated ASCII header are the concatenated bytes |
| Utf8.EncodeIsAsciiBytes | spyder/plugins/editor/lsp/transport/producer.py:161-162 | on ASCII text, UTF-8 encoding is the byte-per-character encoding |
| Utf8.DecodeEncodeChar | spyder/plugins/editor/lsp/transport/producer.py:155 | decoding the bytes of one character, whatever follows them, gives that character and its byte length |
| Utf8.DecodeEncode | spyder/plugins/editor/lsp/transport/producer.py:155 | decoding the UTF-8 body gives back the serialised text |
| Transport.ComposeRequest | spyder/plugins/editor/lsp/transport/producer.py:144-151 | the request object has exactly the fields jsonrpc, id, method and params; jsonrpc is "2.0"; id, method and params read back unchanged |
| Transport.Header | spyder/plugins/editor/lsp/transport/producer.py:40 | the header text is all ASCII |
| Transport.Frame | spyder/plugins/editor/lsp/transport/producer.py:153-164 | a frame is longer than its body and ends with the body unchanged |
| Transport.Bodies | spyder/plugins/editor/lsp/transport/producer.py:137-140 | one body per forwarded message, in order, each the serialised request of that message |
| Transport.FramesAppend | spyder/plugins/editor/lsp/transport/producer.py:131-142 | the byte stream of n+1 messages is the stream of the first n followed by the frame of the last |
| Transport.DigitSpan | spyder/plugins/editor/lsp/transport/producer.py:161-162 | a reader's digit scan stops at the first non-digit byte |
| Transport.ParseFrameWith | spyder/plugins/editor/lsp/transport/producer.py:161-164 | a reader that succeeds always consumes part of the stream |
| Transport.ParseFrame | spyder/plugins/editor/lsp/transport/producer.py:161-164 | reading one frame consumes part of the stream |
| Transport.DigitBytesValue | spyder/plugins/editor/lsp/transport/producer.py:161-162 | the header's digits read back as the number they spell |
| Transport.HeaderBytes | spyder/plugins/editor/lsp/transport/producer.py:40 | the header bytes are `Content-Length: `, the decimal length and the blank line, with nothing else |
| Transport.FrameRoundTrip | spyder/plugins/editor/lsp/transport/producer.py:153-164 | a reader that parses the length after `Content-Length: ` and takes that many bytes after the blank line recovers exactly the body and leaves what follows |
| Transport.FramesRoundTrip | spyder/plugins/editor/lsp/transport/producer.py:131-164 | a stream of frames reads back as exactly the bodies written, in order |
| Transport.LengthCountsBytes | spyder/plugins/editor/lsp/transport/producer.py:154-156 | the header states the body's UTF-8 byte length; for any non-ASCII text that differs from its character count |
| Transport.LanguageServerClient.constructor | spyder/plugins/editor/lsp/transport/producer.py:43-49 | the proxy starts with the queued messages and nothing written |
| Transport.LanguageServerClient.SendRequest | spyder/plugins/editor/lsp/transport/producer.py:153-164 | writes the header and the UTF-8 body, i.e. one frame, after what was already written |
| Transport.LanguageServerClient.Listen | spyder/plugins/editor/lsp/transport/producer.py:131-142 | forwards exactly max(events, 0) queued messages, oldest first, one frame each, and leaves the rest queued |
| Transport.ListenStep | spyder/plugins/editor/lsp/transport/producer.py:131-142 | forwarding one more message appends its frame to what was written |
| Transport.ListenIsReadable | spyder/plugins/editor/lsp/transport/producer.py:131-151 | what `listen` writes reads back frame by frame, and each request carries its message's id, method and params unchanged |
| Servers.LowerChar | spyder/plugins/lspmanager.py:48 | ASCII lower-casing of one character: capitals move by 32, everything else is unchanged |
| Servers.Lower | spyder/plugins/lspmanager.py:48 | lower-casing keeps the length and maps each character |
| Servers.NameTable | spyder/plugins/lspmanager.py:48 | the last name of the list always owns its lower-case key, so a later name overrides an earlier one of the same form |
| Servers.NameTableEntries | spyder/plugins/lspmanager.py:48 | the name table holds exactly the lower-case forms of the names, each mapped to a name of that form (proved by induction) |
| Servers.NameTableLookup | spyder/plugins/lspmanager.py:48 | when lower-case forms are distinct, each name is found under its lower-case form |
| Servers.NormalizeLanguage | spyder/plugins/lspmanager.py:68-70 | a known lower-case name is replaced by its usual spelling, any other name is kept, and a missing language stays missing |
| Servers.NewServer | spyder/plugins/lspmanager.py:64-76 | the record's fields are the arguments (with their defaults), index 0, and the language normalised through the name table |
| Servers.NormalizeLanguageIdempotent | spyder/plugins/lspmanager.py:68-70 | normalising twice is normalising once when no table entry is itself a key |
| Servers.NameTableValuesNotKeys | spyder/plugins/lspmanager.py:43-48 | with capitalised names, no usual spelling is a lower-case key |
| Servers.NewServerIdempotent | spyder/plugins/lspmanager.py:64-70 | rebuilding a record from its own language keeps the spelling |
| Servers.Repr | spyder/plugins/lspmanager.py:78-85 | the display starts with `[language]` |
| Servers.ReprExternalOmitsCommand | spyder/plugins/lspmanager.py:82-84 | an external server's display does not depend on command or arguments and is `[language] host:port` long |
| Servers.ReprShowsCommand | spyder/plugins/lspmanager.py:79-81 | a local server's display shows the command right after the language tag |
| Servers.NextRow | spyder/plugins/lspmanager.py:583-589 | the next row of a valid row is a valid row |
| Servers.PreviousRow | spyder/plugins/lspmanager.py:591-597 | the previous row of a valid row is a valid row |
| Servers.RowsWrapAround | spyder/plugins/lspmanager.py:583-597 | moving down is +1 modulo the row count (the last row wraps to 0) and moving up is -1 modulo it (row 0 wraps to the last) |
| Servers.RowsInverse | spyder/plugins/lspmanager.py:583-597 | moving down then up, or up then down, returns to the same row |
| Documents.UriOf | spyder/plugins/editor/lsp/providers/document.py:72 | the document URI is computed exactly when the editor gave a string `file`, and is that file's URI |
| Documents.DidChangeParams | spyder/plugins/editor/lsp/providers/document.py:57-67 | built exactly when file, version and text are given; holds the URI, the version and one content change with the whole text |
| Documents.DidOpenParams | spyder/plugins/editor/lsp/providers/document.py:76-85 | built exactly when language, version and text are given; the text document holds URI, language id, version and text |
| Documents.PositionParams | spyder/plugins/editor/lsp/providers/document.py:88-99 | built exactly when file, line and column are given; `line` becomes position.line and `column` position.character |
| Documents.WillSaveParams | spyder/plugins/editor/lsp/providers/document.py:204-211 | the URI and the save reason, built exactly when both are given |
| Documents.DidSaveParams | spyder/plugins/editor/lsp/providers/document.py:215-229 | the URI, plus a top-level `text` exactly when the editor gave a text that is not None |
| Documents.DidCloseParams | spyder/plugins/editor/lsp/providers/document.py:239-245 | the URI, with the cancel marker exactly when the document is not watched |
| Documents.RegisterFile | spyder/plugins/editor/lsp/providers/document.py:36-40 | the editor goes at the end of the URI's list, created when missing; other URIs are untouched |
| Documents.FirstIndex | spyder/plugins/editor/lsp/providers/document.py:248-252 | the index of the first matching editor, or -1 exactly when none matches |
| Documents.RemoveAt | spyder/plugins/editor/lsp/providers/document.py:254 | `pop(i)` removes the i-th element and keeps the others in order |
| Documents.CloseEditorEffect | spyder/plugins/editor/lsp/providers/document.py:246-257 | closing removes the first matching editor only at an index above 0, touches no other URI, and drops the URI exactly when its list was empty |
| Documents.CloseEditor | spyder/plugins/editor/lsp/providers/document.py:246-257 | closing never adds a document, and a list that stays loses at most one editor |
| Documents.CloseEditorFrame | spyder/plugins/editor/lsp/providers/document.py:246-257 | closing an editor of one URI leaves every other URI and its editors as they were |
| Documents.CloseKeepsFirstEditor | spyder/plugins/editor/lsp/providers/document.py:248-254 | the first editor of a document is never removed by a close |
| Documents.WatchedInvariant | spyder/plugins/editor/lsp/providers/document.py:36-40 | registering and closing keep every list non-empty, so closing never drops a registered URI |
| Documents.RegisterThenClose | spyder/plugins/editor/lsp/providers/document.py:244-257 | registering a new editor and closing it restores the table, except that the only editor of a document stays |
| Documents.DiagnosticReplies | spyder/plugins/editor/lsp/providers/document.py:46-51 | one reply per watching editor, in registration order, each carrying the diagnostics |
| Documents.Diagnostics | spyder/plugins/editor/lsp/providers/document.py:43-53 | succeeds exactly when uri (a string) and diagnostics are present; a watched URI's editors all get the diagnostics, an unwatched URI's nobody |
| Documents.NormalizeItem | spyder/plugins/editor/lsp/providers/document.py:105-113 | succeeds exactly on a dict with a label, and the result is again a dict |
| Documents.CompleteFields | spyder/plugins/editor/lsp/providers/document.py:106-113 | the item keeps every field it had, with its value, and gains exactly the seven completion fields |
| Documents.CompleteFieldsKeeps | spyder/plugins/editor/lsp/providers/document.py:106-113 | an item that already has all seven fields is left unchanged |
| Documents.NormalizeItemDefaults | spyder/plugins/editor/lsp/providers/document.py:106-113 | missing kind is Text, missing detail and documentation are empty, missing format is plain text, missing sort, filter and insert texts are the label |
| Documents.NormalizeItemIdempotent | spyder/plugins/editor/lsp/providers/document.py:106-113 | normalising a normalised item changes nothing |
| Documents.NormalizeCompletionItems | spyder/plugins/editor/lsp/providers/document.py:105-113 | the loop fails exactly when some item has no label or is not a dict, and otherwise returns every item normalised |
| Documents.CompletionPayload | spyder/plugins/editor/lsp/providers/document.py:103-104 | a dict response is replaced by its `items` (KeyError without them); anything else is used as is |
| Documents.CompletionItemsPayload | spyder/plugins/editor/lsp/providers/document.py:105-113 | a list is normalised item by item; an empty string or dict passes unchanged; anything else raises |
| Documents.CompletionPayloadItems | spyder/plugins/editor/lsp/providers/document.py:103-117 | each item of a completion payload has the seven fields and keeps every field the server gave |
| Documents.SignaturePayload | spyder/plugins/editor/lsp/providers/document.py:135-139 | a non-None payload is the response with only `signatures` changed |
| Documents.SignaturePayloadCases | spyder/plugins/editor/lsp/providers/document.py:135-139 | with signatures, `signatures` becomes signatures[activeSignature] (IndexError out of range, KeyError without it); with none the payload is None |
| Documents.HoverPayload | spyder/plugins/editor/lsp/providers/document.py:161-165 | a result without `contents` raises |
| Documents.HoverPayloadCases | spyder/plugins/editor/lsp/providers/document.py:161-165 | a string passes unchanged, a dict gives its value, a list gives its first element (then its value if a dict), an empty list raises |
| Documents.DefinitionPayload | spyder/plugins/editor/lsp/providers/document.py:187-196 | a non-list passes unchanged, an empty list gives None, a non-empty list gives its first location with `file` set to the local path of its URI |
| Documents.ReplyTo | spyder/plugins/editor/lsp/providers/document.py:115-117 | a reply goes to the editor recorded for the request, and to nobody when none is |
| Client.SendSpec | spyder/plugins/editor/lsp/client.py:177-191 | never raises; an id comes back exactly when the message has no cancel key; at most one message is appended to what was sent; watched files, listeners, replies and emissions are untouched |
| Client.SendCancelled | spyder/plugins/editor/lsp/client.py:178-179 | a message with the cancel key sends nothing, returns None and changes nothing |
| Client.SendNumbers | spyder/plugins/editor/lsp/client.py:177-191 | any other message, notifications included, goes out with the counter as id; the counter grows by one; it is recorded as pending exactly when it requires a response; nothing else changes |
| Client.PerformRequestUnknown | spyder/plugins/editor/lsp/client.py:237-238 | a request for a method without a sender does nothing |
| Client.PerformRequestRecordsEditor | spyder/plugins/editor/lsp/client.py:237-245 | returns the sender's id; records the response editor under that id exactly when the dict names one and asks for a response; raises when it names one without `requires_response` |
| Client.SendPluginConfigurationsSpec | spyder/plugins/editor/lsp/client.py:297-304 | stores the configurations and sends exactly one message, the configuration-change notification carrying them under `settings` with the counter as id; the watched files and pending table are untouched |
| Client.DocumentOpenSpec | spyder/plugins/editor/lsp/providers/document.py:71-85 | a raise sends nothing; at most one message goes out; opening never drops a watched document nor changes a watched document's editors; replies, emissions, listeners and the reply table are untouched |
| Client.DocumentDidCloseSpec | spyder/plugins/editor/lsp/providers/document.py:233-258 | a raise changes nothing; closing never adds a watched document; at most one message goes out; replies, emissions, listeners and the reply table are untouched |
| Client.SendBuiltSpec | spyder/plugins/editor/lsp/providers/document.py:87-99 | raises exactly when the builder failed, and then changes nothing; otherwise the built parameters go out as one message numbered by the counter, unless they carry the cancel key |
| Client.RunSenderSpec | spyder/plugins/editor/lsp/client.py:237-240 | a sender that raises sends nothing; at most one message goes out; replies, emissions, listeners and the reply table are untouched |
| Client.PerformRequestSpec | spyder/plugins/editor/lsp/client.py:237-245 | at most one message goes out; the reply table changes only under the returned id; replies, emissions and listeners are untouched |
| Client.ResultReply | spyder/plugins/editor/lsp/providers/document.py:115-117 | returns no id; raises exactly when the request id is missing or the payload raised; only the replies change, by appending |
| Client.SendKeepsWatched | spyder/plugins/editor/lsp/client.py:177-191 | sending a message never touches the watched-files table |
| Client.DidCloseUnwatched | spyder/plugins/editor/lsp/providers/document.py:244-245 | closing a document that is not watched sends nothing and changes nothing |
| Client.DocumentOpenRegisters | spyder/plugins/editor/lsp/providers/document.py:72-75 | opening registers the editor only when the URI is not yet watched |
| Client.Emissions | spyder/plugins/editor/lsp/client.py:294-295 | one capability signal per document listener, in registration order |
| Client.ExpandSync | spyder/plugins/editor/lsp/client.py:285-290 | no capability is added, only `textDocumentSync` can disappear, and it is absent afterwards exactly when it was None |
| Client.ExpandSyncFields | spyder/plugins/editor/lsp/client.py:285-290 | an integer sync kind becomes the options record with `change` set to it, None removes the key, anything else is kept; every other capability is kept and none is added |
| Client.CapabilitiesSpec | spyder/plugins/editor/lsp/client.py:280-295 | whatever happens, a raise included, the client ends initialized, exactly one message was sent, the configurations are kept, and watched files and listeners are untouched |
| Client.MergeCapabilitiesSpec | spyder/plugins/editor/lsp/client.py:283-295 | the merge sends nothing and leaves watched files, listeners, configurations and the initialized flag untouched |
| Client.RunHandlerSpec | spyder/plugins/editor/lsp/client.py:214-229 | the shutdown handler, and only it, sets ready-to-close; only `initialize` returns an id; sent messages, replies and emissions only grow; watched files, listeners and the reply table are untouched |
| Client.Step | spyder/plugins/editor/lsp/client.py:203-232 | one message never takes back anything sent, replied or emitted, returns no id, and leaves watched files and listeners untouched |
| Client.CapabilitiesMerged | spyder/plugins/editor/lsp/client.py:280-295 | configurations go out first; the client is initialized; an integer sync kind becomes the options record with `change` set; a None sync is dropped (the old value kept); all other server fields override and the rest stay; each document listener is told once, in order |
| Client.DollarIgnored | spyder/plugins/editor/lsp/client.py:212-213 | a notification whose method starts with `$` changes nothing, even with an id |
| Client.UnhandledNotification | spyder/plugins/editor/lsp/client.py:212-219 | a notification without a handler is dropped, but its id still overwrites the counter |
| Client.NotificationIdOverwritesSeq | spyder/plugins/editor/lsp/client.py:218-219 | a handled notification with an id sets the counter to that id |
| Client.ServerReady | spyder/plugins/editor/lsp/client.py:254-263 | `server_ready` sends `initialize` under the current counter, pending, then sets the counter to -1 |
| Client.IdsRepeatAfterServerReady | spyder/plugins/editor/lsp/client.py:218-219 | on a fresh client the third request after `server_ready` reuses id 1, the id of the pending `initialize` |
| Client.IgnoredResponses | spyder/plugins/editor/lsp/client.py:220-225 | a None result, an id that is not pending, or a pending method without handler changes nothing |
| Client.MatchedResponse | spyder/plugins/editor/lsp/client.py:224-232 | a response to a pending request calls its handler once with result and id; afterwards the id leaves the pending and reply tables and nothing else differs from the handler's effect |
| Client.CompletionReply | spyder/plugins/editor/lsp/providers/document.py:101-117 | a completion response is normalised and goes only to the editor recorded for it |
| Client.ShutdownResponse | spyder/plugins/editor/lsp/client.py:270-272 | a response to a pending `shutdown` request sets ready-to-close, drops the id from the pending and reply tables, and changes nothing else |
| Client.Drain | spyder/plugins/editor/lsp/client.py:194-235 | the drain consumes every queued message unless one raises, and then stops right after it |
| Client.DrainSnoc | spyder/plugins/editor/lsp/client.py:196-232 | draining one more message is one more step after the prefix |
| Client.DrainStops | spyder/plugins/editor/lsp/client.py:194-235 | messages after one that raised are never looked at |
| Client.RegisterPluginTypeSpec | spyder/plugins/editor/lsp/client.py:248-251 | the signal goes at the end of its category's list, created when missing; other categories and fields are unchanged |
| Client.LSPClient.constructor | spyder/plugins/editor/lsp/client.py:76-82 | counter 1, empty tables, not initialized, not ready to close |
| Client.LSPClient.Deliver | spyder/plugins/editor/lsp/client.py:199 | the transport's messages queue up behind those already there |
| Client.LSPClient.Send | spyder/plugins/editor/lsp/client.py:177-191 | agrees with the send specification, both state and returned id |
| Client.LSPClient.RegisterPluginType | spyder/plugins/editor/lsp/client.py:248-251 | agrees with the registration specification |
| Client.LSPClient.RegisterFile | spyder/plugins/editor/lsp/providers/document.py:36-40 | the file's URI gets the editor appended |
| Client.LSPClient.SendPluginConfigurations | spyder/plugins/editor/lsp/client.py:297-304 | stores the configurations and sends them as a notification |
| Client.LSPClient.DocumentOpen | spyder/plugins/editor/lsp/providers/document.py:71-85 | agrees with the open specification, including a raise after the registration |
| Client.LSPClient.FindEditor | spyder/plugins/editor/lsp/providers/document.py:248-252 | the search loop returns the index of the first matching editor, -1 when none matches |
| Client.LSPClient.DocumentDidClose | spyder/plugins/editor/lsp/providers/document.py:233-258 | the search loop finds the first matching editor; agrees with the close specification |
| Client.LSPClient.SendBuilt | spyder/plugins/editor/lsp/providers/document.py:87-99 | a builder's parameters are sent, or the builder raised |
| Client.LSPClient.RunSender | spyder/plugins/editor/lsp/client.py:238-240 | calls the sender named in the table; `shutdown` and `exit` take no argument and raise |
| Client.LSPClient.PerformRequest | spyder/plugins/editor/lsp/client.py:237-245 | agrees with the perform-request specification |
| Client.LSPClient.ProcessDocumentDiagnostics | spyder/plugins/editor/lsp/providers/document.py:43-53 | replies to each watching editor in order |
| Client.LSPClient.ProcessDocumentCompletion | spyder/plugins/editor/lsp/providers/document.py:102-117 | normalises in a loop and replies; raises without a request id |
| Client.LSPClient.ReplyWith | spyder/plugins/editor/lsp/providers/document.py:134-200 | the signature, hover and definition replies; raise without a request id |
| Client.LSPClient.EmitCapabilities | spyder/plugins/editor/lsp/client.py:294-295 | one signal per listener, in order |
| Client.LSPClient.ExpandCapabilities | spyder/plugins/editor/lsp/client.py:285-290 | the in-place rewrite of `textDocumentSync` agrees with the sync expansion |
| Client.LSPClient.ProcessServerCapabilities | spyder/plugins/editor/lsp/client.py:280-295 | agrees with the capability specification |
| Client.LSPClient.MergeCapabilities | spyder/plugins/editor/lsp/client.py:283-295 | agrees with the merge specification |
| Client.LSPClient.RunHandler | spyder/plugins/editor/lsp/client.py:214-217 | calls the handler named in the table |
| Client.LSPClient.HandleNotification | spyder/plugins/editor/lsp/client.py:212-220 | a message with a method agrees with the step specification |
| Client.LSPClient.HandleResult | spyder/plugins/editor/lsp/client.py:221-232 | a message without a method agrees with the step specification |
| Client.LSPClient.HandleMessage | spyder/plugins/editor/lsp/client.py:203-232 | one turn of the drain loop agrees with the step specification |
| Client.LSPClient.OnMsgReceived | spyder/plugins/editor/lsp/client.py:194-235 | handles queued messages in order until the queue is empty and re-enables the notifier; a raise leaves the rest queued and the notifier disabled |
| Manager.WithOption | spyder/plugins/lspmanager.py:687-691 | adding an option adds exactly that language, keeps queues and clients keyed alike, and touches no plugin, counter or log |
| Manager.WithOptionValid | spyder/plugins/lspmanager.py:687-691 | adding an option keeps the manager's invariant |
| Manager.AddOptions | spyder/plugins/lspmanager.py:687-691 | construction keeps queues and clients keyed alike and touches no plugin, counter or log |
| Manager.AddOptionsValid | spyder/plugins/lspmanager.py:687-691 | construction keeps the manager's invariant (proved by induction) |
| Manager.AddOptionsKeys | spyder/plugins/lspmanager.py:687-691 | after construction a language is known exactly when it was before or some option names it (proved by induction) |
| Manager.AddOptionsNamed | spyder/plugins/lspmanager.py:688-691 | a language some option names ends up stopped, without instance, with an empty queue (proved by induction) |
| Manager.AddOptionsUnnamed | spyder/plugins/lspmanager.py:687-691 | a known language no option names keeps its entry and its queue (proved by induction) |
| Manager.AddOptionsEntries | spyder/plugins/lspmanager.py:678-691 | after construction exactly the configured languages are present, each stopped, without instance, with an empty queue (proved by induction) |
| Manager.PutPlugin | spyder/plugins/lspmanager.py:693-694 | a known plugin type has its signal replaced in place, a new one is appended, keys stay distinct |
| Manager.RegisterPluginTypeSpec | spyder/plugins/lspmanager.py:693-694 | only the plugin table changes, and the invariant holds |
| Manager.RegisterFileSpec | spyder/plugins/lspmanager.py:696-702 | keeps the invariant; clients, order and plugins are untouched; the call log and every queue only grow, and no language gains a queue |
| Manager.RegisterFileQueues | spyder/plugins/lspmanager.py:696-702 | without an instance the file is queued in order; with one (even stopped) it is passed to the instance; an unknown language changes nothing |
| Manager.PluginCalls | spyder/plugins/lspmanager.py:723-725 | one registration per plugin type, in insertion order |
| Manager.StartConfig | spyder/plugins/lspmanager.py:714-717 | only the port can change, and an external server's settings are kept as they are |
| Manager.StartSpec | spyder/plugins/lspmanager.py:704-732 | starting keeps the invariant |
| Manager.StartSkipped | spyder/plugins/lspmanager.py:704-711 | an unknown language, or the integration-test switch, answers False and changes nothing |
| Manager.StartLanguage | spyder/plugins/lspmanager.py:704-732 | answers True exactly when already running (no change); a stopped language runs on a new instance, created, given the plugins and started in that order; it raises exactly when files were queued |
| Manager.CloseSpec | spyder/plugins/lspmanager.py:775-783 | closing keeps the invariant |
| Manager.CloseStops | spyder/plugins/lspmanager.py:775-783 | a known language ends up stopped with its settings and instance; the instance is stopped only if it was running |
| Manager.CloseInactive | spyder/plugins/lspmanager.py:770-773 | closing a list of languages keeps the invariant |
| Manager.CloseInactiveEntries | spyder/plugins/lspmanager.py:770-773 | exactly the listed languages not in the active set become stopped; every other entry is untouched (proved by induction) |
| Manager.CloseInactiveCalls | spyder/plugins/lspmanager.py:770-773 | each of them that was running has its instance stopped once, in order (proved by induction) |
| Manager.NeedsRestart | spyder/plugins/lspmanager.py:753-755 | a restart is needed exactly when the settings differ in something other than the plugin configurations |
| Manager.UpdateOne | spyder/plugins/lspmanager.py:739-768 | one settings update keeps the invariant, and afterwards the language is known and no other language is added or dropped |
| Manager.ResetEntry | spyder/plugins/lspmanager.py:757-761 | replacing a known language's entry with a stopped one keeps the invariant and the set of languages |
| Manager.RestartSpec | spyder/plugins/lspmanager.py:759-762 | closing, resetting and starting a running server again keeps the invariant and the set of languages |
| Manager.UpdateAddsLanguage | spyder/plugins/lspmanager.py:742-745 | a new language is added stopped, without instance, with an empty queue, at the end of the order |
| Manager.UpdateRestarts | spyder/plugins/lspmanager.py:746-762 | a running server is restarted exactly when cmd, args, host, port or external differ; a stopped one just takes the new settings; without such a difference no entry changes |
| Manager.UpdateRestartsRunning | spyder/plugins/lspmanager.py:746-762 | a running server whose launch settings changed is stopped, a new instance is created with the new settings, given the plugins and started, and its queued files raise |
| Manager.UpdateSendsConfigurations | spyder/plugins/lspmanager.py:763-768 | without a restart, changed configurations are sent to a running client and the stored settings stay the old ones |
| Manager.UpdateServerListSpec | spyder/plugins/lspmanager.py:738-768 | the whole update keeps the invariant |
| Manager.UpdateServerListKeeps | spyder/plugins/lspmanager.py:738-768 | no language is ever removed, and without a raise every option's language is present (proved by induction) |
| Manager.SendRequestSpec | spyder/plugins/lspmanager.py:785-790 | a request is forwarded exactly when the language is known and running, and nothing else changes |
| Manager.LSPManager.constructor | spyder/plugins/lspmanager.py:678-691 | the loop over options builds the state of the construction specification |
| Manager.LSPManager.AddOption | spyder/plugins/lspmanager.py:688-691 | one option becomes a stopped entry with an empty queue |
| Manager.LSPManager.RegisterPluginType | spyder/plugins/lspmanager.py:693-694 | agrees with the plugin registration specification |
| Manager.LSPManager.RegisterFile | spyder/plugins/lspmanager.py:696-702 | agrees with the file registration specification |
| Manager.LSPManager.StartLspClient | spyder/plugins/lspmanager.py:704-732 | agrees with the start specification, including its answer and raise |
| Manager.LSPManager.CloseClient | spyder/plugins/lspmanager.py:775-783 | agrees with the close specification |
| Manager.LSPManager.UpdateClientStatus | spyder/plugins/lspmanager.py:770-773 | closes the inactive languages in order |
| Manager.LSPManager.ClosingPlugin | spyder/plugins/lspmanager.py:734-736 | closes every language in order |
| Manager.LSPManager.UpdateServerList | spyder/plugins/lspmanager.py:738-768 | processes the options in order, stopping at the first raise |
| Manager.LSPManager.UpdateLanguage | spyder/plugins/lspmanager.py:739-768 | one option of the update loop |
| Manager.LSPManager.SendRequest | spyder/plugins/lspmanager.py:785-790 | agrees with the forwarding specification |

## Left out

- Sockets, ZeroMQ, subprocesses, Qt signals and the reading thread are not
  modelled. Messages in and out are sequences, signals are logged emissions,
  and the concurrency between the transport and the client is not modelled.
- `json.dumps`, `path_as_uri`, `urlparse`/`url2pathname` and the port
  chooser `select_port` are parameters, as uninterpreted functions.
  `select_port` is taken to be deterministic.
- The CI environment-variable test in `start_lsp_client` is an input flag.
- The configuration store (`CONF` options, `get_option`, saving and
  deleting) is not modelled. The options are inputs, and each stored setting
  is taken to have all six fields.
- The settings dialog, table model and editor widgets of `lspmanager.py`
  are not modelled, apart from the row navigation.
- `spyder/plugins/editor/lsp/decorators.py` is not part of this model. The
  handler and sender tables, and which senders require a response, are
  taken from the decorators as written at each method.
- `spyder/plugins/editor/lsp/__init__.py` is not part of this model. The
  method names are the Language Server Protocol's own names. The cancel key
  is `lsp-cancel`. The Text completion kind and plain-text format are 1.
- `client.py`'s `start` and `stop` (spawning the transport and server,
  sockets) are not modelled. The client is constructed as already started,
  with the notifier enabled.
- `TEXT_DOCUMENT_SYNC_OPTIONS` and `SERVER_CAPABILITES` are module-level
  dicts that the client mutates and shares. The model gives each client its
  own copy, so aliasing between clients is not captured.
- Dicts from the transport are typed: a message's method is a string and
  its id an integer when present. Python's `1 == True` equality between
  values is not modelled.
- Editors are compared by identity in `document_did_close`. The model
  compares them as values; editors are references (`Ref`), so this is the
  same thing.
- Json.Value has no floating-point case: JSON numbers are modelled as
  integers only. `json.loads` turns a number with a fraction or an exponent
  into a float, which the code treats differently from an int (a
  `textDocumentSync` of `1.0` is not expanded, and a float
  `activeSignature` makes the index raise). The fields the client reads as
  numbers (sync kind, ids, versions, line, character, active signature)
  are integers in the Language Server Protocol, so a conforming server
  never sends such a message; messages carrying floats are not
  represented.
- Python's `str.lower()` is modelled as ASCII lower-casing. The language
  names are ASCII.
- The window provider only logs, so its handler changes nothing.
- Logging is not modelled.
- Transport.LanguageServerClient.Listen: requires the polled event count
  not to exceed the queued messages, because a receive on an empty socket
  blocks.
- Manager.StartSpec: a running entry always has an instance and every
  language has a queue. These are part of the manager's invariant, which
  every operation is proved to keep, so the code's behaviour when they fail
  is not modelled.
