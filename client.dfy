/** The language-server client: it numbers outgoing messages, remembers
    which requests await a response and which editor wants each reply,
    drains the messages the transport hands back (notifications go to the
    handler of their method, responses to the handler of the request they
    answer), and post-processes the server's capabilities.

    The pure functions below say what one operation does to the client's
    state; the class `LSPClient` performs the same operations in place and
    is proved to agree with them. An operation that raises a Python
    exception has `raised` set; the state is what had been done before the
    exception. */
module Client {
  import opened Json
  import opened Protocol
  import opened Documents

  // ---------------------------------------------------------------------
  // Handler and sender tables (built by the `@handles` and
  // `@send_request` decorators)

  datatype Handler =
    | Initialize
    | HandleShutdown
    | ProcessCapabilities
    | ProcessDiagnostics
    | ProcessCompletion
    | ProcessSignature
    | ProcessHover
    | ProcessDefinition
    | ProcessShowMessage

  /** `handler_registry`: inbound method name to handler. */
  const HANDLERS: map<string, Handler> := map[
    SERVER_READY := Initialize,
    SHUTDOWN := HandleShutdown,
    INITIALIZE := ProcessCapabilities,
    DOCUMENT_PUBLISH_DIAGNOSTICS := ProcessDiagnostics,
    DOCUMENT_COMPLETION := ProcessCompletion,
    DOCUMENT_SIGNATURE := ProcessSignature,
    DOCUMENT_HOVER := ProcessHover,
    DOCUMENT_DEFINITION := ProcessDefinition,
    WINDOW_SHOW_MESSAGE := ProcessShowMessage]

  datatype Sender =
    | SendInitialize
    | SendShutdown
    | SendExit
    | SendConfigurations
    | DidChange
    | DidOpen
    | CompletionRequest
    | SignatureRequest
    | HoverRequest
    | DefinitionRequest
    | WillSave
    | DidSave
    | DidClose

  /** `sender_registry`: outgoing method name to the builder that sends it. */
  const SENDERS: map<string, Sender> := map[
    INITIALIZE := SendInitialize,
    SHUTDOWN := SendShutdown,
    EXIT := SendExit,
    WORKSPACE_CONFIGURATION_CHANGE := SendConfigurations,
    DOCUMENT_DID_CHANGE := DidChange,
    DOCUMENT_DID_OPEN := DidOpen,
    DOCUMENT_COMPLETION := CompletionRequest,
    DOCUMENT_SIGNATURE := SignatureRequest,
    DOCUMENT_HOVER := HoverRequest,
    DOCUMENT_DEFINITION := DefinitionRequest,
    DOCUMENT_WILL_SAVE := WillSave,
    DOCUMENT_DID_SAVE := DidSave,
    DOCUMENT_DID_CLOSE := DidClose]

  // ---------------------------------------------------------------------
  // State

  /** What the client is given and never changes: its language, the
      options record that an integer `textDocumentSync` is expanded into,
      the fields of the `initialize` request, and the two URI conversions. */
  datatype ClientEnv = ClientEnv(
    language: string,
    syncOptions: Params,
    clientCapabilities: Value,
    trace: Value,
    processId: Value,
    rootUri: Value,
    pathAsUri: string -> string,
    uriToPath: string -> string)

  /** The client's fields, plus what it has sent to the transport
      (`outbox`), the replies handed to editors and the capability
      signals emitted. `reqReply` is keyed by what `send` returned, which is
      None for a cancelled message. */
  datatype ClientState = ClientState(
    requestSeq: int,
    reqStatus: map<int, string>,
    reqReply: map<Option<int>, Value>,
    pluginRegistry: map<string, seq<Listener>>,
    watchedFiles: Watched,
    initialized: bool,
    readyToClose: bool,
    serverCapabilities: Params,
    pluginConfigurations: Value,
    outbox: seq<ClientMessage>,
    replies: seq<Reply>,
    emissions: seq<Emission>)

  /** A message from the transport. The method is a string and the id an
      integer when present. */
  datatype Inbound = Inbound(
    methodName: Option<string>,
    id: Option<int>,
    params: Option<Value>,
    result: Option<Value>)

  /** The state after an operation, what it returned (an id or None), and
      whether it raised. */
  datatype Outcome = Outcome(state: ClientState, id: Option<int>, raised: bool)

  function Done(st: ClientState, id: Option<int>): Outcome {
    Outcome(st, id, false)
  }

  function Raise(st: ClientState): Outcome {
    Outcome(st, None, true)
  }

  // ---------------------------------------------------------------------
  // Sending

  /** `send`: a message carrying the cancel key is dropped; any other gets
      the current sequence number as id, is recorded as pending when it
      requires a response, and the counter moves on by one. */
  function SendSpec(st: ClientState, methodName: string, params: Params, requiresResponse: bool): (r: Outcome)
    ensures !r.raised && (r.id.Some? <==> CANCEL !in params)
    ensures st.outbox <= r.state.outbox && |r.state.outbox| <= |st.outbox| + 1
    ensures r.state.watchedFiles == st.watchedFiles && r.state.pluginRegistry == st.pluginRegistry
    ensures r.state.replies == st.replies && r.state.emissions == st.emissions
  {
    if CANCEL in params then Done(st, None)
    else
      var id := st.requestSeq;
      Done(st.(requestSeq := id + 1,
               reqStatus := if requiresResponse then st.reqStatus[id := methodName] else st.reqStatus,
               outbox := st.outbox + [ClientMessage(id, methodName, params)]),
           Some(id))
  }

  lemma SendCancelled(st: ClientState, methodName: string, params: Params, requiresResponse: bool)
    requires CANCEL in params
    ensures SendSpec(st, methodName, params, requiresResponse) == Outcome(st, None, false)
  {
  }

  /** Every message that is not cancelled, notifications included, is
      numbered with the counter's value before the call; only the counter,
      the pending table (only when a response is required, and only at that
      id) and the outbox change. */
  lemma SendNumbers(st: ClientState, methodName: string, params: Params, requiresResponse: bool)
    requires CANCEL !in params
    ensures var o := SendSpec(st, methodName, params, requiresResponse);
      && !o.raised && o.id == Some(st.requestSeq)
      && o.state.requestSeq == st.requestSeq + 1
      && o.state.outbox == st.outbox + [ClientMessage(st.requestSeq, methodName, params)]
      && (requiresResponse ==> o.state.reqStatus == st.reqStatus[st.requestSeq := methodName])
      && (!requiresResponse ==> o.state.reqStatus == st.reqStatus)
      && o.state.(requestSeq := st.requestSeq, reqStatus := st.reqStatus, outbox := st.outbox) == st
  {
  }

  /** The fields of the `initialize` request. */
  function InitializeParams(env: ClientEnv): Params {
    map["processId" := env.processId, "rootUri" := env.rootUri,
        "capabilities" := env.clientCapabilities, "trace" := env.trace]
  }

  /** `send_plugin_configurations`: remembers the configurations and sends
      them as a notification. */
  function SendPluginConfigurationsSpec(st: ClientState, configurations: Value): (r: Outcome)
    ensures !r.raised && r.state.pluginConfigurations == configurations
    ensures |r.state.outbox| == |st.outbox| + 1 && st.outbox <= r.state.outbox
    ensures r.state.outbox[|st.outbox|]
      == ClientMessage(st.requestSeq, WORKSPACE_CONFIGURATION_CHANGE, map["settings" := configurations])
    ensures r.state.watchedFiles == st.watchedFiles && r.state.reqStatus == st.reqStatus
  {
    SendSpec(st.(pluginConfigurations := configurations), WORKSPACE_CONFIGURATION_CHANGE,
         map["settings" := configurations], false)
  }

  /** `document_open`: the editor is registered only when the document is
      not watched yet, and that happens before the remaining fields are
      read, so a missing field raises after the registration. */
  function DocumentOpenSpec(env: ClientEnv, st: ClientState, p: Params): (r: Outcome)
    ensures r.raised ==> r.state.outbox == st.outbox
    ensures st.outbox <= r.state.outbox && |r.state.outbox| <= |st.outbox| + 1
    ensures st.watchedFiles.Keys <= r.state.watchedFiles.Keys
    ensures forall u :: u in st.watchedFiles ==> r.state.watchedFiles[u] == st.watchedFiles[u]
    ensures r.state.replies == st.replies && r.state.emissions == st.emissions
      && r.state.pluginRegistry == st.pluginRegistry && r.state.reqReply == st.reqReply
  {
    match UriOf(env.pathAsUri, p)
    case None => Raise(st)
    case Some(uri) =>
      if uri !in st.watchedFiles && "codeeditor" !in p then Raise(st)
      else
        var st1 := if uri in st.watchedFiles then st
                   else st.(watchedFiles := RegisterFile(st.watchedFiles, uri, p["codeeditor"]));
        match DidOpenParams(uri, p)
        case None => Raise(st1)
        case Some(q) => SendSpec(st1, DOCUMENT_DID_OPEN, q, false)
  }

  /** `document_did_close`: on a document that is not watched the message
      is cancelled; otherwise the editor's entry is closed and the
      notification is sent. */
  function DocumentDidCloseSpec(env: ClientEnv, st: ClientState, p: Params): (r: Outcome)
    ensures r.raised ==> r.state == st
    ensures r.state.watchedFiles.Keys <= st.watchedFiles.Keys
    ensures st.outbox <= r.state.outbox && |r.state.outbox| <= |st.outbox| + 1
    ensures r.state.replies == st.replies && r.state.emissions == st.emissions
      && r.state.pluginRegistry == st.pluginRegistry && r.state.reqReply == st.reqReply
  {
    if "codeeditor" !in p then Raise(st)
    else match UriOf(env.pathAsUri, p)
      case None => Raise(st)
      case Some(uri) =>
        if uri in st.watchedFiles then
          SendSpec(st.(watchedFiles := CloseEditor(st.watchedFiles, uri, p["codeeditor"])),
               DOCUMENT_DID_CLOSE, DidCloseParams(uri, true), false)
        else SendSpec(st, DOCUMENT_DID_CLOSE, DidCloseParams(uri, false), false)
  }

  /** A builder that only computes parameters, then `send`. */
  function SendBuiltSpec(st: ClientState, methodName: string, params: Option<Params>, requiresResponse: bool): (r: Outcome)
    ensures r.raised <==> params.None?
    ensures r.raised ==> r.state == st
    ensures params.Some? && CANCEL !in params.value ==>
      r.state.outbox == st.outbox + [ClientMessage(st.requestSeq, methodName, params.value)]
    ensures params.None? || CANCEL in params.value ==> r.state.outbox == st.outbox
    ensures r.state.watchedFiles == st.watchedFiles && r.state.replies == st.replies && r.state.emissions == st.emissions
      && r.state.pluginRegistry == st.pluginRegistry && r.state.reqReply == st.reqReply
  {
    match params
    case None => Raise(st)
    case Some(q) => SendSpec(st, methodName, q, requiresResponse)
  }

  /** One sender called with the editor's dict. `shutdown` and `exit`
      accept no argument, so calling them with one raises a TypeError. */
  function RunSenderSpec(env: ClientEnv, st: ClientState, s: Sender, p: Params): (r: Outcome)
    ensures r.raised ==> r.state.outbox == st.outbox
    ensures st.outbox <= r.state.outbox && |r.state.outbox| <= |st.outbox| + 1
    ensures r.state.replies == st.replies && r.state.emissions == st.emissions
      && r.state.pluginRegistry == st.pluginRegistry && r.state.reqReply == st.reqReply
  {
    match s
    case SendInitialize => SendSpec(st, INITIALIZE, InitializeParams(env), true)
    case SendShutdown => Raise(st)
    case SendExit => Raise(st)
    case SendConfigurations => SendPluginConfigurationsSpec(st, Obj(p))
    case DidChange => SendBuiltSpec(st, DOCUMENT_DID_CHANGE, DidChangeParams(env.pathAsUri, p), false)
    case DidOpen => DocumentOpenSpec(env, st, p)
    case CompletionRequest => SendBuiltSpec(st, DOCUMENT_COMPLETION, PositionParams(env.pathAsUri, p), true)
    case SignatureRequest => SendBuiltSpec(st, DOCUMENT_SIGNATURE, PositionParams(env.pathAsUri, p), true)
    case HoverRequest => SendBuiltSpec(st, DOCUMENT_HOVER, PositionParams(env.pathAsUri, p), true)
    case DefinitionRequest => SendBuiltSpec(st, DOCUMENT_DEFINITION, PositionParams(env.pathAsUri, p), true)
    case WillSave => SendBuiltSpec(st, DOCUMENT_WILL_SAVE, WillSaveParams(env.pathAsUri, p), false)
    case DidSave => SendBuiltSpec(st, DOCUMENT_DID_SAVE, DidSaveParams(env.pathAsUri, p), false)
    case DidClose => DocumentDidCloseSpec(env, st, p)
  }

  /** `perform_request`: an unknown method does nothing; otherwise the
      sender runs and, when the editor's dict names a `response_codeeditor`
      and its `requires_response` is true, that editor is recorded under
      the id the sender returned. */
  function PerformRequestSpec(env: ClientEnv, st: ClientState, methodName: string, p: Params): (r: Outcome)
    ensures st.outbox <= r.state.outbox && |r.state.outbox| <= |st.outbox| + 1
    ensures r.state.reqReply.Keys <= st.reqReply.Keys + {r.id}
    ensures forall k :: k in st.reqReply && k != r.id ==> k in r.state.reqReply && r.state.reqReply[k] == st.reqReply[k]
    ensures r.state.replies == st.replies && r.state.emissions == st.emissions
      && r.state.pluginRegistry == st.pluginRegistry
  {
    if methodName !in SENDERS then Done(st, None)
    else
      var o := RunSenderSpec(env, st, SENDERS[methodName], p);
      if o.raised || "response_codeeditor" !in p then o
      else if "requires_response" !in p then Raise(o.state)
      else if PyTruthy(p["requires_response"]) then
        Done(o.state.(reqReply := o.state.reqReply[o.id := p["response_codeeditor"]]), o.id)
      else o
  }

  lemma PerformRequestUnknown(env: ClientEnv, st: ClientState, methodName: string, p: Params)
    requires methodName !in SENDERS
    ensures PerformRequestSpec(env, st, methodName, p) == Outcome(st, None, false)
  {
  }

  /** The reply table changes only under the id the sender returned, and
      only when the dict names a response editor and asks for a response. */
  lemma PerformRequestRecordsEditor(env: ClientEnv, st: ClientState, methodName: string, p: Params)
    requires methodName in SENDERS
    ensures var s := RunSenderSpec(env, st, SENDERS[methodName], p);
      var o := PerformRequestSpec(env, st, methodName, p);
      && (!o.raised ==> o.id == s.id)
      && (!o.raised && "response_codeeditor" in p && PyTruthy(p["requires_response"]) ==>
            o.state.reqReply == s.state.reqReply[s.id := p["response_codeeditor"]])
      && (!o.raised && ("response_codeeditor" !in p || !PyTruthy(p["requires_response"])) ==>
            o.state == s.state)
      && (!s.raised && "response_codeeditor" in p && "requires_response" !in p ==> o.raised)
  {
  }

  /** A request the editor sends for a document it has not opened is
      cancelled when it is a close: nothing is sent and nothing changes. */
  lemma DidCloseUnwatched(env: ClientEnv, st: ClientState, p: Params)
    requires "codeeditor" in p && UriOf(env.pathAsUri, p).Some?
    requires UriOf(env.pathAsUri, p).value !in st.watchedFiles
    ensures PerformRequestSpec(env, st, DOCUMENT_DID_CLOSE, p).state.outbox == st.outbox
    ensures !PerformRequestSpec(env, st, DOCUMENT_DID_CLOSE, p).raised ==>
      PerformRequestSpec(env, st, DOCUMENT_DID_CLOSE, p).state.(reqReply := st.reqReply) == st
  {
    var uri := UriOf(env.pathAsUri, p).value;
    assert SENDERS[DOCUMENT_DID_CLOSE] == DidClose;
    SendCancelled(st, DOCUMENT_DID_CLOSE, DidCloseParams(uri, false), false);
    assert DocumentDidCloseSpec(env, st, p) == Outcome(st, None, false);
    assert RunSenderSpec(env, st, DidClose, p) == Outcome(st, None, false);
    var o := PerformRequestSpec(env, st, DOCUMENT_DID_CLOSE, p);
    if "response_codeeditor" !in p {
      assert o == Outcome(st, None, false);
    } else if "requires_response" !in p {
      assert o == Raise(st);
    } else if PyTruthy(p["requires_response"]) {
      assert o.state == st.(reqReply := st.reqReply[None := p["response_codeeditor"]]);
    } else {
      assert o == Outcome(st, None, false);
    }
  }

  /** Opening a document that is already watched leaves the table alone;
      opening one that is not registers the editor at the end of a new
      list. */
  lemma DocumentOpenRegisters(env: ClientEnv, st: ClientState, p: Params)
    requires UriOf(env.pathAsUri, p).Some? && "codeeditor" in p
    ensures var uri := UriOf(env.pathAsUri, p).value;
      var o := DocumentOpenSpec(env, st, p);
      && (uri in st.watchedFiles ==> o.state.watchedFiles == st.watchedFiles)
      && (uri !in st.watchedFiles ==> o.state.watchedFiles == st.watchedFiles[uri := [p["codeeditor"]]])
  {
    var uri := UriOf(env.pathAsUri, p).value;
    var st1 := if uri in st.watchedFiles then st
               else st.(watchedFiles := RegisterFile(st.watchedFiles, uri, p["codeeditor"]));
    if uri !in st.watchedFiles {
      assert st1.watchedFiles == st.watchedFiles[uri := [p["codeeditor"]]];
    }
    var q := DidOpenParams(uri, p);
    if q.Some? {
      SendKeepsWatched(st1, DOCUMENT_DID_OPEN, q.value, false);
    }
  }

  /** Sending leaves the watched-files table alone. */
  lemma SendKeepsWatched(st: ClientState, methodName: string, params: Params, requiresResponse: bool)
    ensures SendSpec(st, methodName, params, requiresResponse).state.watchedFiles == st.watchedFiles
  {
  }

  // ---------------------------------------------------------------------
  // Handlers

  /** The reply of a result handler, which must be called with the request
      id; None from the normaliser is the exception it raised. */
  function ResultReply(st: ClientState, reqId: Option<int>, methodName: string, payload: Option<Value>): (r: Outcome)
    ensures r.id.None? && (r.raised <==> reqId.None? || payload.None?)
    ensures st.replies <= r.state.replies && r.state.(replies := st.replies) == st
  {
    if reqId.None? || payload.None? then Raise(st)
    else Done(st.(replies := st.replies + ReplyTo(st.reqReply, reqId.value, methodName, payload.value)), None)
  }

  /** One emission per listener of the document category, in registration
      order, all carrying the same capabilities. */
  function Emissions(listeners: seq<Listener>, capabilities: Params, language: string): (r: seq<Emission>)
    ensures |r| == |listeners|
    ensures forall i :: 0 <= i < |r| ==> r[i] == Emission(listeners[i], capabilities, language)
  {
    seq(|listeners|, i requires 0 <= i < |listeners| => Emission(listeners[i], capabilities, language))
  }

  /** The capabilities after expanding `textDocumentSync`: an integer (or
      bool) becomes the options record with `change` set to it, and None is
      removed. */
  function ExpandSync(syncOptions: Params, caps: Params): (r: Params)
    requires "textDocumentSync" in caps
    ensures r.Keys <= caps.Keys && caps.Keys - {"textDocumentSync"} <= r.Keys
    ensures "textDocumentSync" in r <==> caps["textDocumentSync"] != Null
  {
    var sync := caps["textDocumentSync"];
    var expanded := if IsPyInt(sync) then caps["textDocumentSync" := Obj(syncOptions["change" := sync])] else caps;
    if expanded["textDocumentSync"] == Null then expanded - {"textDocumentSync"} else expanded
  }

  /** An integer `textDocumentSync` becomes the sync options with that
      `change` kind, a None one is dropped, any other value and every other
      field are kept, and nothing is added. */
  lemma ExpandSyncFields(syncOptions: Params, caps: Params)
    requires "textDocumentSync" in caps
    ensures var r := ExpandSync(syncOptions, caps);
      && (forall k :: k in caps && k != "textDocumentSync" ==> k in r && r[k] == caps[k])
      && (forall k :: k in r ==> k in caps)
      && (IsPyInt(caps["textDocumentSync"]) ==>
            "textDocumentSync" in r && r["textDocumentSync"] == Obj(syncOptions["change" := caps["textDocumentSync"]]))
      && (caps["textDocumentSync"] == Null ==> "textDocumentSync" !in r)
      && (!IsPyInt(caps["textDocumentSync"]) && caps["textDocumentSync"] != Null ==>
            "textDocumentSync" in r && r["textDocumentSync"] == caps["textDocumentSync"])
  {
  }

  /** `process_server_capabilities`: first the stored plugin configurations
      are sent and the client is marked initialized; then the capabilities
      are merged. */
  function CapabilitiesSpec(env: ClientEnv, st: ClientState, result: Value): (r: Outcome)
    ensures r.id.None? && r.state.initialized && r.state.pluginConfigurations == st.pluginConfigurations
    ensures |r.state.outbox| == |st.outbox| + 1
    ensures r.state.watchedFiles == st.watchedFiles && r.state.pluginRegistry == st.pluginRegistry
  {
    var st1 := SendPluginConfigurationsSpec(st, st.pluginConfigurations).state.(initialized := true);
    MergeCapabilitiesSpec(env, st1, PyGetItem(result, Str("capabilities")))
  }

  /** The second half of `process_server_capabilities`: the result's
      `capabilities` (which must be a dict with a `textDocumentSync` field)
      are expanded and merged into the server capabilities, and every
      document listener is told. With no document listener registered it
      raises after the merge. Nothing is sent. */
  function MergeCapabilitiesSpec(env: ClientEnv, st: ClientState, caps: Option<Value>): (r: Outcome)
    ensures r.id.None? && r.state.outbox == st.outbox && r.state.initialized == st.initialized
    ensures r.state.watchedFiles == st.watchedFiles && r.state.pluginRegistry == st.pluginRegistry
    ensures r.state.pluginConfigurations == st.pluginConfigurations
  {
    match caps
    case None => Raise(st)
    case Some(caps) =>
      if !caps.Obj? || "textDocumentSync" !in caps.fields then Raise(st)
      else
        var st2 := st.(serverCapabilities := st.serverCapabilities + ExpandSync(env.syncOptions, caps.fields));
        if DOCUMENT_EVENT !in st2.pluginRegistry then Raise(st2)
        else Done(st2.(emissions := st2.emissions
                         + Emissions(st2.pluginRegistry[DOCUMENT_EVENT], st2.serverCapabilities, env.language)), None)
  }

  /** One call of a handler with its argument, and with the request id
      when it answers a response. The four result handlers need the id:
      called for a notification they raise a TypeError. */
  function RunHandlerSpec(env: ClientEnv, st: ClientState, h: Handler, arg: Value, reqId: Option<int>): (r: Outcome)
    ensures r.raised || h != Initialize ==> r.id.None?
    ensures r.state.readyToClose <==> st.readyToClose || h == HandleShutdown
    ensures st.outbox <= r.state.outbox && st.replies <= r.state.replies && st.emissions <= r.state.emissions
    ensures r.state.watchedFiles == st.watchedFiles && r.state.pluginRegistry == st.pluginRegistry
      && r.state.reqReply == st.reqReply
  {
    match h
    case Initialize => SendSpec(st, INITIALIZE, InitializeParams(env), true)
    case HandleShutdown => Done(st.(readyToClose := true), None)
    case ProcessCapabilities => CapabilitiesSpec(env, st, arg)
    case ProcessDiagnostics =>
      (match Diagnostics(st.watchedFiles, arg)
       case None => Raise(st)
       case Some(rs) => Done(st.(replies := st.replies + rs), None))
    case ProcessCompletion => ResultReply(st, reqId, DOCUMENT_COMPLETION, CompletionPayload(arg))
    case ProcessSignature => ResultReply(st, reqId, DOCUMENT_SIGNATURE, SignaturePayload(arg))
    case ProcessHover => ResultReply(st, reqId, DOCUMENT_HOVER, HoverPayload(arg))
    case ProcessDefinition => ResultReply(st, reqId, DOCUMENT_DEFINITION, DefinitionPayload(arg, env.uriToPath))
    case ProcessShowMessage => Done(st, None)
  }

  /** What the capability handler leaves behind when it succeeds: the
      client is initialized, the configurations went out first, the merged
      capabilities hold every field of the server's dict except a None
      `textDocumentSync`, an integer one is expanded, every field the
      server did not send is kept, and each document listener got one
      signal, in registration order. */
  lemma CapabilitiesMerged(env: ClientEnv, st: ClientState, result: Value)
    requires !CapabilitiesSpec(env, st, result).raised
    ensures var o := CapabilitiesSpec(env, st, result);
      var caps := result.fields["capabilities"].fields;
      var sync := caps["textDocumentSync"];
      var merged := o.state.serverCapabilities;
      && o.state.initialized
      && CANCEL !in map["settings" := st.pluginConfigurations]
      && o.state.outbox == st.outbox + [ClientMessage(st.requestSeq, WORKSPACE_CONFIGURATION_CHANGE,
                                                      map["settings" := st.pluginConfigurations])]
      && (IsPyInt(sync) ==> merged["textDocumentSync"] == Obj(env.syncOptions["change" := sync]))
      && (sync == Null ==> ("textDocumentSync" in merged <==> "textDocumentSync" in st.serverCapabilities))
      && (sync == Null && "textDocumentSync" in st.serverCapabilities ==>
            merged["textDocumentSync"] == st.serverCapabilities["textDocumentSync"])
      && (forall k :: k in caps && k != "textDocumentSync" ==> merged[k] == caps[k])
      && (forall k :: k in st.serverCapabilities && k !in caps ==> merged[k] == st.serverCapabilities[k])
      && o.state.emissions == st.emissions
           + Emissions(st.pluginRegistry[DOCUMENT_EVENT], merged, env.language)
  {
    var st1 := SendPluginConfigurationsSpec(st, st.pluginConfigurations).state.(initialized := true);
    assert result.Obj? && "capabilities" in result.fields;
    var caps := result.fields["capabilities"];
    assert PyGetItem(result, Str("capabilities")) == Some(caps);
    var expanded := ExpandSync(env.syncOptions, caps.fields);
    ExpandSyncFields(env.syncOptions, caps.fields);
    var st2 := st1.(serverCapabilities := st1.serverCapabilities + expanded);
    assert CapabilitiesSpec(env, st, result).state
      == st2.(emissions := st2.emissions + Emissions(st2.pluginRegistry[DOCUMENT_EVENT], st2.serverCapabilities, env.language));
  }

  // ---------------------------------------------------------------------
  // Receiving

  /** One turn of the drain loop of `on_msg_received`.
      - A message with a method is a notification: one whose method starts
        with `$` is ignored outright; otherwise the method's handler, if
        any, gets the params, and then an id on the message overwrites the
        sequence counter.
      - A message with a result answers a request: a None result is
        ignored; an id that is pending with a method that has a handler
        calls that handler with the result and the id, after which the id
        leaves the pending and reply tables.
      - Anything else is only logged. */
  function Step(env: ClientEnv, st: ClientState, msg: Inbound): (o: Outcome)
    ensures o.id.None?
    ensures st.outbox <= o.state.outbox && st.replies <= o.state.replies && st.emissions <= o.state.emissions
    ensures o.state.watchedFiles == st.watchedFiles && o.state.pluginRegistry == st.pluginRegistry
  {
    match msg.methodName
    case Some(m) =>
      if m == [] then Raise(st)
      else if m[0] == '$' then Done(st, None)
      else
        var o := if m !in HANDLERS then Done(st, None)
                 else if msg.params.None? then Raise(st)
                 else RunHandlerSpec(env, st, HANDLERS[m], msg.params.value, None);
        if o.raised then o
        else if msg.id.Some? then Done(o.state.(requestSeq := msg.id.value), None)
        else Done(o.state, None)
    case None =>
      match msg.result
      case None => Done(st, None)
      case Some(result) =>
        if result == Null then Done(st, None)
        else if msg.id.None? then Raise(st)
        else
          var id := msg.id.value;
          if id in st.reqStatus && st.reqStatus[id] in HANDLERS then
            var o := RunHandlerSpec(env, st, HANDLERS[st.reqStatus[id]], result, Some(id));
            if o.raised then o
            else Done(o.state.(reqStatus := o.state.reqStatus - {id}, reqReply := o.state.reqReply - {Some(id)}), None)
          else Done(st, None)
  }

  /** Methods starting with `$` change nothing, not even the counter. */
  lemma DollarIgnored(env: ClientEnv, st: ClientState, msg: Inbound)
    requires msg.methodName.Some? && |msg.methodName.value| > 0 && msg.methodName.value[0] == '$'
    ensures Step(env, st, msg) == Outcome(st, None, false)
  {
  }

  /** A notification without a handler is dropped, but its id still
      overwrites the sequence counter. */
  lemma UnhandledNotification(env: ClientEnv, st: ClientState, msg: Inbound)
    requires msg.methodName.Some? && |msg.methodName.value| > 0 && msg.methodName.value[0] != '$'
    requires msg.methodName.value !in HANDLERS
    ensures msg.id.None? ==> Step(env, st, msg) == Outcome(st, None, false)
    ensures msg.id.Some? ==> Step(env, st, msg) == Outcome(st.(requestSeq := msg.id.value), None, false)
  {
  }

  /** A handled notification that carries an id sets the counter to it. */
  lemma NotificationIdOverwritesSeq(env: ClientEnv, st: ClientState, msg: Inbound)
    requires msg.methodName.Some? && |msg.methodName.value| > 0 && msg.methodName.value[0] != '$'
    requires msg.id.Some? && !Step(env, st, msg).raised
    ensures Step(env, st, msg).state.requestSeq == msg.id.value
  {
  }

  /** The transport's `server_ready` (id -1) sends `initialize` under the
      current counter and then sets the counter to -1. */
  lemma ServerReady(env: ClientEnv, st: ClientState)
    ensures var o := Step(env, st, Inbound(Some(SERVER_READY), Some(-1), Some(Obj(map[])), None));
      && !o.raised
      && o.state.requestSeq == -1
      && o.state.reqStatus == st.reqStatus[st.requestSeq := INITIALIZE]
      && o.state.outbox == st.outbox + [ClientMessage(st.requestSeq, INITIALIZE, InitializeParams(env))]
  {
    assert SERVER_READY[0] != '$';
    assert CANCEL !in InitializeParams(env);
  }

  /** So ids repeat: on a fresh client (counter 1) the third message sent
      after `server_ready` is numbered 1 again, the id of the pending
      `initialize` request. */
  lemma IdsRepeatAfterServerReady(env: ClientEnv, st: ClientState, a: ClientMessage, b: ClientMessage, c: ClientMessage)
    requires st.requestSeq == 1
    requires CANCEL !in a.params && CANCEL !in b.params && CANCEL !in c.params
    ensures var s1 := Step(env, st, Inbound(Some(SERVER_READY), Some(-1), Some(Obj(map[])), None)).state;
      var s2 := SendSpec(s1, a.methodName, a.params, true).state;
      var s3 := SendSpec(s2, b.methodName, b.params, true).state;
      && s1.reqStatus[1] == INITIALIZE
      && SendSpec(s3, c.methodName, c.params, true).id == Some(1)
  {
    ServerReady(env, st);
  }

  /** A response with a None result, or one whose id is not pending, or
      whose pending method has no handler, changes nothing. */
  lemma IgnoredResponses(env: ClientEnv, st: ClientState, msg: Inbound)
    requires msg.methodName.None? && msg.result.Some?
    requires msg.result.value == Null
      || (msg.id.Some? && (msg.id.value !in st.reqStatus || st.reqStatus[msg.id.value] !in HANDLERS))
    ensures Step(env, st, msg) == Outcome(st, None, false)
  {
  }

  /** A response to a pending request with a handler calls that handler
      once with the result and the id; if it returns, the id leaves both
      tables and nothing else changes beyond what the handler did. */
  lemma MatchedResponse(env: ClientEnv, st: ClientState, msg: Inbound)
    requires msg.methodName.None? && msg.result.Some? && msg.result.value != Null && msg.id.Some?
    requires msg.id.value in st.reqStatus && st.reqStatus[msg.id.value] in HANDLERS
    ensures var id := msg.id.value;
      var h := RunHandlerSpec(env, st, HANDLERS[st.reqStatus[id]], msg.result.value, Some(id));
      var o := Step(env, st, msg);
      && o.raised == h.raised
      && (!o.raised ==> o.state.reqStatus == h.state.reqStatus - {id}
                        && o.state.reqReply == h.state.reqReply - {Some(id)}
                        && id !in o.state.reqStatus && Some(id) !in o.state.reqReply
                        && o.state.(reqStatus := h.state.reqStatus, reqReply := h.state.reqReply) == h.state)
  {
  }

  /** A completion response goes to the editor recorded for the request,
      and only to it. */
  lemma CompletionReply(env: ClientEnv, st: ClientState, msg: Inbound)
    requires msg.methodName.None? && msg.result.Some? && msg.result.value != Null && msg.id.Some?
    requires msg.id.value in st.reqStatus && st.reqStatus[msg.id.value] == DOCUMENT_COMPLETION
    requires CompletionPayload(msg.result.value).Some?
    ensures var id := msg.id.value;
      var o := Step(env, st, msg);
      && !o.raised
      && o.state.replies == st.replies
           + ReplyTo(st.reqReply, id, DOCUMENT_COMPLETION, CompletionPayload(msg.result.value).value)
      && id !in o.state.reqStatus
  {
    assert HANDLERS[DOCUMENT_COMPLETION] == ProcessCompletion;
  }

  /** The response to a pending `shutdown` request marks the client ready
      to close and forgets the request; nothing else changes. */
  lemma ShutdownResponse(env: ClientEnv, st: ClientState, id: int, result: Value)
    requires result != Null && id in st.reqStatus && st.reqStatus[id] == SHUTDOWN
    ensures var o := Step(env, st, Inbound(None, Some(id), None, Some(result)));
      && !o.raised
      && o.state == st.(readyToClose := true, reqStatus := st.reqStatus - {id}, reqReply := st.reqReply - {Some(id)})
  {
    assert HANDLERS[SHUTDOWN] == HandleShutdown;
  }

  /** The drain loop over the queued messages: it stops at the first
      message whose handling raises (that message has been taken off the
      queue); otherwise it takes them all. */
  datatype Drained = Drained(state: ClientState, consumed: nat, raised: bool)

  function Drain(env: ClientEnv, st: ClientState, msgs: seq<Inbound>): (r: Drained)
    ensures r.consumed <= |msgs|
    ensures !r.raised ==> r.consumed == |msgs|
    ensures r.raised ==> r.consumed > 0
    decreases |msgs|
  {
    if msgs == [] then Drained(st, 0, false)
    else
      var o := Step(env, st, msgs[0]);
      if o.raised then Drained(o.state, 1, true)
      else
        var rest := Drain(env, o.state, msgs[1..]);
        Drained(rest.state, rest.consumed + 1, rest.raised)
  }

  /** Draining a prefix that raised nothing, then one more message. */
  lemma {:induction false} DrainSnoc(env: ClientEnv, st: ClientState, msgs: seq<Inbound>, m: Inbound)
    requires !Drain(env, st, msgs).raised
    ensures var d := Drain(env, st, msgs);
      var o := Step(env, d.state, m);
      Drain(env, st, msgs + [m]) == Drained(o.state, |msgs| + 1, o.raised)
    decreases |msgs|
  {
    if msgs == [] {
      assert [m][1..] == [];
    } else {
      var o := Step(env, st, msgs[0]);
      assert (msgs + [m])[0] == msgs[0];
      assert (msgs + [m])[1..] == msgs[1..] + [m];
      DrainSnoc(env, o.state, msgs[1..], m);
    }
  }

  /** Once a prefix raised, the messages after it are never looked at. */
  lemma {:induction false} DrainStops(env: ClientEnv, st: ClientState, msgs: seq<Inbound>, k: nat)
    requires k <= |msgs| && Drain(env, st, msgs[..k]).raised
    ensures Drain(env, st, msgs) == Drain(env, st, msgs[..k])
    decreases k
  {
    var o := Step(env, st, msgs[0]);
    assert msgs[..k][0] == msgs[0];
    if !o.raised {
      assert msgs[..k][1..] == msgs[1..][..k - 1];
      DrainStops(env, o.state, msgs[1..], k - 1);
    }
  }

  /** The one listener category and signal registration. */
  function RegisterPluginTypeSpec(st: ClientState, pluginType: string, sig: Listener): (r: ClientState)
    ensures r.pluginRegistry.Keys == st.pluginRegistry.Keys + {pluginType}
    ensures pluginType in st.pluginRegistry ==> r.pluginRegistry[pluginType] == st.pluginRegistry[pluginType] + [sig]
    ensures pluginType !in st.pluginRegistry ==> r.pluginRegistry[pluginType] == [sig]
    ensures forall t :: t in st.pluginRegistry && t != pluginType ==> r.pluginRegistry[t] == st.pluginRegistry[t]
    ensures r.(pluginRegistry := st.pluginRegistry) == st
  {
    var listeners := if pluginType in st.pluginRegistry then st.pluginRegistry[pluginType] else [];
    st.(pluginRegistry := st.pluginRegistry[pluginType := listeners + [sig]])
  }

  // ---------------------------------------------------------------------
  // The client object

  class LSPClient {
    const env: ClientEnv
    var requestSeq: int
    var reqStatus: map<int, string>
    var reqReply: map<Option<int>, Value>
    var pluginRegistry: map<string, seq<Listener>>
    var watchedFiles: Watched
    var initialized: bool
    var readyToClose: bool
    var serverCapabilities: Params
    var pluginConfigurations: Value
    /** Messages sent to the transport. */
    var outbox: seq<ClientMessage>
    /** `handle_response` calls made on editors. */
    var replies: seq<Reply>
    /** Capability signals emitted. */
    var emissions: seq<Emission>
    /** Messages the transport has queued on the incoming socket. */
    var inbox: seq<Inbound>
    /** Whether the socket notifier is enabled. */
    var notifierEnabled: bool

    function State(): ClientState
      reads this
    {
      ClientState(requestSeq, reqStatus, reqReply, pluginRegistry, watchedFiles, initialized,
                  readyToClose, serverCapabilities, pluginConfigurations, outbox, replies, emissions)
    }

    /** The fields `__init__` sets, for a client whose transport is
        running: the counter starts at 1 and every table is empty. */
    constructor (env: ClientEnv, serverCapabilities: Params, pluginConfigurations: Value)
      ensures this.env == env
      ensures State() == ClientState(1, map[], map[], map[], map[], false, false,
                                     serverCapabilities, pluginConfigurations, [], [], [])
      ensures inbox == [] && notifierEnabled
    {
      this.env := env;
      requestSeq := 1;
      reqStatus := map[];
      reqReply := map[];
      pluginRegistry := map[];
      watchedFiles := map[];
      initialized := false;
      readyToClose := false;
      this.serverCapabilities := serverCapabilities;
      this.pluginConfigurations := pluginConfigurations;
      outbox := [];
      replies := [];
      emissions := [];
      inbox := [];
      notifierEnabled := true;
    }

    /** The transport queues messages for the client. */
    method Deliver(msgs: seq<Inbound>)
      modifies this`inbox
      ensures inbox == old(inbox) + msgs
    {
      inbox := inbox + msgs;
    }

    method Send(methodName: string, params: Params, requiresResponse: bool) returns (id: Option<int>)
      modifies this`requestSeq, this`reqStatus, this`outbox
      ensures var o := SendSpec(old(State()), methodName, params, requiresResponse);
        State() == o.state && id == o.id
    {
      if CANCEL in params {
        return None;
      }
      var msg := ClientMessage(requestSeq, methodName, params);
      if requiresResponse {
        reqStatus := reqStatus[requestSeq := methodName];
      }
      outbox := outbox + [msg];
      requestSeq := requestSeq + 1;
      id := Some(msg.id);
    }

    method RegisterPluginType(pluginType: string, sig: Listener)
      modifies this`pluginRegistry
      ensures State() == RegisterPluginTypeSpec(old(State()), pluginType, sig)
    {
      if pluginType !in pluginRegistry {
        pluginRegistry := pluginRegistry[pluginType := []];
      }
      pluginRegistry := pluginRegistry[pluginType := pluginRegistry[pluginType] + [sig]];
    }

    /** `register_file`, from a file name. */
    method RegisterFile(filename: string, editor: Value)
      modifies this`watchedFiles
      ensures State() == old(State()).(watchedFiles := Documents.RegisterFile(old(watchedFiles), env.pathAsUri(filename), editor))
    {
      var uri := env.pathAsUri(filename);
      if uri !in watchedFiles {
        watchedFiles := watchedFiles[uri := []];
      }
      watchedFiles := watchedFiles[uri := watchedFiles[uri] + [editor]];
    }

    method SendPluginConfigurations(configurations: Value) returns (id: Option<int>)
      modifies this`pluginConfigurations, this`requestSeq, this`reqStatus, this`outbox
      ensures var o := SendPluginConfigurationsSpec(old(State()), configurations);
        State() == o.state && id == o.id
    {
      pluginConfigurations := configurations;
      id := Send(WORKSPACE_CONFIGURATION_CHANGE, map["settings" := configurations], false);
    }

    method DocumentOpen(p: Params) returns (o: Outcome)
      modifies this`watchedFiles, this`requestSeq, this`reqStatus, this`outbox
      ensures o == DocumentOpenSpec(env, old(State()), p) && State() == o.state
    {
      var uri := UriOf(env.pathAsUri, p);
      if uri.None? {
        return Raise(State());
      }
      if uri.value !in watchedFiles {
        if "codeeditor" !in p {
          return Raise(State());
        }
        RegisterFile(p["file"].s, p["codeeditor"]);
      }
      var params := DidOpenParams(uri.value, p);
      if params.None? {
        return Raise(State());
      }
      var id := Send(DOCUMENT_DID_OPEN, params.value, false);
      o := Done(State(), id);
    }

    /** The search of `document_did_close` for the editor's position: the
        first index holding it, or -1. */
    static method FindEditor(editors: seq<Value>, codeeditor: Value) returns (idx: int)
      ensures idx == FirstIndex(editors, codeeditor)
    {
      idx := -1;
      var i := 0;
      while i < |editors|
        invariant 0 <= i <= |editors|
        invariant idx == -1 || idx == FirstIndex(editors, codeeditor)
        invariant idx == -1 ==> forall j :: 0 <= j < i ==> editors[j] != codeeditor
        invariant idx != -1 ==> i == |editors|
      {
        if editors[i] == codeeditor {
          idx := i;
          break;
        }
        i := i + 1;
      }
    }

    /** `document_did_close`, with its search for the editor's position. */
    method DocumentDidClose(p: Params) returns (o: Outcome)
      modifies this`watchedFiles, this`requestSeq, this`reqStatus, this`outbox
      ensures o == DocumentDidCloseSpec(env, old(State()), p) && State() == o.state
    {
      if "codeeditor" !in p {
        return Raise(State());
      }
      var codeeditor := p["codeeditor"];
      var filename := UriOf(env.pathAsUri, p);
      if filename.None? {
        return Raise(State());
      }
      var uri := filename.value;
      ghost var st := State();
      var watched := uri in watchedFiles;
      if watched {
        var editors := watchedFiles[uri];
        var idx := FindEditor(editors, codeeditor);
        if idx > 0 {
          editors := editors[..idx] + editors[idx + 1..];
        }
        if |editors| == 0 {
          watchedFiles := watchedFiles - {uri};
        } else {
          watchedFiles := watchedFiles[uri := editors];
        }
        assert watchedFiles == CloseEditor(st.watchedFiles, uri, codeeditor);
        assert State() == st.(watchedFiles := CloseEditor(st.watchedFiles, uri, codeeditor));
      } else {
        assert State() == st;
      }
      var id := Send(DOCUMENT_DID_CLOSE, DidCloseParams(uri, watched), false);
      o := Done(State(), id);
    }

    method SendBuilt(methodName: string, params: Option<Params>, requiresResponse: bool) returns (o: Outcome)
      modifies this`requestSeq, this`reqStatus, this`outbox
      ensures o == SendBuiltSpec(old(State()), methodName, params, requiresResponse) && State() == o.state
    {
      if params.None? {
        return Raise(State());
      }
      var id := Send(methodName, params.value, requiresResponse);
      o := Done(State(), id);
    }

    method RunSender(s: Sender, p: Params) returns (o: Outcome)
      modifies this`watchedFiles, this`pluginConfigurations, this`requestSeq, this`reqStatus, this`outbox
      ensures o == RunSenderSpec(env, old(State()), s, p) && State() == o.state
    {
      match s
      case SendInitialize =>
        var id := Send(INITIALIZE, InitializeParams(env), true);
        o := Done(State(), id);
      case SendShutdown =>
        o := Raise(State());
      case SendExit =>
        o := Raise(State());
      case SendConfigurations =>
        var id := SendPluginConfigurations(Obj(p));
        o := Done(State(), id);
      case DidChange =>
        o := SendBuilt(DOCUMENT_DID_CHANGE, DidChangeParams(env.pathAsUri, p), false);
      case DidOpen =>
        o := DocumentOpen(p);
      case CompletionRequest =>
        o := SendBuilt(DOCUMENT_COMPLETION, PositionParams(env.pathAsUri, p), true);
      case SignatureRequest =>
        o := SendBuilt(DOCUMENT_SIGNATURE, PositionParams(env.pathAsUri, p), true);
      case HoverRequest =>
        o := SendBuilt(DOCUMENT_HOVER, PositionParams(env.pathAsUri, p), true);
      case DefinitionRequest =>
        o := SendBuilt(DOCUMENT_DEFINITION, PositionParams(env.pathAsUri, p), true);
      case WillSave =>
        o := SendBuilt(DOCUMENT_WILL_SAVE, WillSaveParams(env.pathAsUri, p), false);
      case DidSave =>
        o := SendBuilt(DOCUMENT_DID_SAVE, DidSaveParams(env.pathAsUri, p), false);
      case DidClose =>
        o := DocumentDidClose(p);
    }

    method PerformRequest(methodName: string, p: Params) returns (o: Outcome)
      modifies this`watchedFiles, this`pluginConfigurations, this`requestSeq, this`reqStatus, this`outbox,
        this`reqReply
      ensures o == PerformRequestSpec(env, old(State()), methodName, p) && State() == o.state
    {
      if methodName !in SENDERS {
        return Done(State(), None);
      }
      o := RunSender(SENDERS[methodName], p);
      if o.raised || "response_codeeditor" !in p {
        return;
      }
      if "requires_response" !in p {
        return Raise(State());
      }
      if PyTruthy(p["requires_response"]) {
        reqReply := reqReply[o.id := p["response_codeeditor"]];
        o := Done(State(), o.id);
      }
    }

    /** `process_document_diagnostics`: one reply per watching editor. */
    method ProcessDocumentDiagnostics(response: Value) returns (raised: bool)
      modifies this`replies
      ensures var o := RunHandlerSpec(env, old(State()), ProcessDiagnostics, response, None);
        State() == o.state && raised == o.raised
    {
      var uri := Field(response, "uri");
      var diagnostics := Field(response, "diagnostics");
      if uri.None? || diagnostics.None? || !uri.value.Str? {
        return true;
      }
      raised := false;
      if uri.value.s in watchedFiles {
        var callbacks := watchedFiles[uri.value.s];
        var i := 0;
        while i < |callbacks|
          invariant 0 <= i <= |callbacks|
          invariant replies == old(replies) + DiagnosticReplies(callbacks[..i], diagnostics.value)
        {
          replies := replies + [Reply(callbacks[i], DOCUMENT_PUBLISH_DIAGNOSTICS, diagnostics.value)];
          i := i + 1;
          assert DiagnosticReplies(callbacks[..i], diagnostics.value)
            == DiagnosticReplies(callbacks[..i - 1], diagnostics.value)
               + [Reply(callbacks[i - 1], DOCUMENT_PUBLISH_DIAGNOSTICS, diagnostics.value)];
        }
        assert callbacks[..i] == callbacks;
      }
    }

    /** `process_document_completion`, which normalises the items in a
        loop before replying. */
    method ProcessDocumentCompletion(response: Value, reqId: Option<int>) returns (raised: bool)
      modifies this`replies
      ensures var o := RunHandlerSpec(env, old(State()), ProcessCompletion, response, reqId);
        State() == o.state && raised == o.raised
    {
      if reqId.None? {
        return true;
      }
      var items := response;
      if response.Obj? {
        if "items" !in response.fields {
          return true;
        }
        items := response.fields["items"];
      }
      var payload: Value;
      match items {
        case Arr(xs) =>
          var ok, out := NormalizeCompletionItems(xs);
          if !ok {
            return true;
          }
          payload := Arr(out);
        case Str(s) =>
          if s != [] {
            return true;
          }
          payload := items;
        case Obj(m) =>
          if m != map[] {
            return true;
          }
          payload := items;
        case _ =>
          return true;
      }
      assert CompletionPayload(response) == Some(payload);
      replies := replies + ReplyTo(reqReply, reqId.value, DOCUMENT_COMPLETION, payload);
      raised := false;
    }

    /** The signature, hover and definition handlers. */
    method ReplyWith(methodName: string, reqId: Option<int>, payload: Option<Value>) returns (raised: bool)
      modifies this`replies
      ensures var o := ResultReply(old(State()), reqId, methodName, payload);
        State() == o.state && raised == o.raised
    {
      if reqId.None? || payload.None? {
        return true;
      }
      replies := replies + ReplyTo(reqReply, reqId.value, methodName, payload.value);
      raised := false;
    }

    /** Tells every listener of the document category, in registration
        order, about the current capabilities. */
    method EmitCapabilities(listeners: seq<Listener>)
      modifies this`emissions
      ensures State() == old(State()).(emissions := old(emissions)
                                         + Emissions(listeners, serverCapabilities, env.language))
    {
      var i := 0;
      while i < |listeners|
        invariant 0 <= i <= |listeners|
        invariant emissions == old(emissions) + Emissions(listeners[..i], serverCapabilities, env.language)
      {
        emissions := emissions + [Emission(listeners[i], serverCapabilities, env.language)];
        i := i + 1;
        assert Emissions(listeners[..i], serverCapabilities, env.language)
          == Emissions(listeners[..i - 1], serverCapabilities, env.language)
             + [Emission(listeners[i - 1], serverCapabilities, env.language)];
      }
      assert listeners[..i] == listeners;
    }

    /** The in-place rewrite of the `textDocumentSync` field. */
    static method ExpandCapabilities(syncOptions: Params, caps: Params) returns (capabilities: Params)
      requires "textDocumentSync" in caps
      ensures capabilities == ExpandSync(syncOptions, caps)
    {
      capabilities := caps;
      var sync := capabilities["textDocumentSync"];
      if IsPyInt(sync) {
        capabilities := capabilities["textDocumentSync" := Obj(syncOptions["change" := sync])];
      }
      if capabilities["textDocumentSync"] == Null {
        capabilities := capabilities - {"textDocumentSync"};
      }
    }

    /** `process_server_capabilities`. */
    method ProcessServerCapabilities(result: Value) returns (raised: bool)
      modifies this`pluginConfigurations, this`requestSeq, this`reqStatus, this`outbox,
        this`initialized, this`serverCapabilities, this`emissions
      ensures var o := CapabilitiesSpec(env, old(State()), result);
        State() == o.state && raised == o.raised
    {
      var _ := SendPluginConfigurations(pluginConfigurations);
      initialized := true;
      raised := MergeCapabilities(PyGetItem(result, Str("capabilities")));
    }

    /** The merge after the configurations went out. */
    method MergeCapabilities(caps: Option<Value>) returns (raised: bool)
      modifies this`serverCapabilities, this`emissions
      ensures var o := MergeCapabilitiesSpec(env, old(State()), caps);
        State() == o.state && raised == o.raised
    {
      if caps.None? || !caps.value.Obj? || "textDocumentSync" !in caps.value.fields {
        return true;
      }
      var capabilities := ExpandCapabilities(env.syncOptions, caps.value.fields);
      serverCapabilities := serverCapabilities + capabilities;
      if DOCUMENT_EVENT !in pluginRegistry {
        return true;
      }
      EmitCapabilities(pluginRegistry[DOCUMENT_EVENT]);
      raised := false;
    }

    /** Calls one handler, as `getattr(self, handler_name)(...)` does. */
    method RunHandler(h: Handler, arg: Value, reqId: Option<int>) returns (raised: bool)
      modifies this`pluginConfigurations, this`requestSeq, this`reqStatus, this`outbox,
        this`initialized, this`serverCapabilities, this`emissions, this`replies, this`readyToClose
      ensures var o := RunHandlerSpec(env, old(State()), h, arg, reqId);
        State() == o.state && raised == o.raised
    {
      match h
      case Initialize =>
        var _ := Send(INITIALIZE, InitializeParams(env), true);
        raised := false;
      case HandleShutdown =>
        readyToClose := true;
        raised := false;
      case ProcessCapabilities =>
        raised := ProcessServerCapabilities(arg);
      case ProcessDiagnostics =>
        raised := ProcessDocumentDiagnostics(arg);
      case ProcessCompletion =>
        raised := ProcessDocumentCompletion(arg, reqId);
      case ProcessSignature =>
        raised := ReplyWith(DOCUMENT_SIGNATURE, reqId, SignaturePayload(arg));
      case ProcessHover =>
        raised := ReplyWith(DOCUMENT_HOVER, reqId, HoverPayload(arg));
      case ProcessDefinition =>
        raised := ReplyWith(DOCUMENT_DEFINITION, reqId, DefinitionPayload(arg, env.uriToPath));
      case ProcessShowMessage =>
        raised := false;
    }

    /** One turn of the drain loop. */
    method HandleMessage(msg: Inbound) returns (raised: bool)
      modifies this`pluginConfigurations, this`requestSeq, this`reqStatus, this`outbox,
        this`initialized, this`serverCapabilities, this`emissions, this`replies, this`readyToClose,
        this`reqReply
      ensures var o := Step(env, old(State()), msg);
        State() == o.state && raised == o.raised
    {
      if msg.methodName.Some? {
        raised := HandleNotification(msg);
      } else {
        raised := HandleResult(msg);
      }
    }

    /** A message with a method: a request or notification from the server. */
    method HandleNotification(msg: Inbound) returns (raised: bool)
      requires msg.methodName.Some?
      modifies this`pluginConfigurations, this`requestSeq, this`reqStatus, this`outbox,
        this`initialized, this`serverCapabilities, this`emissions, this`replies, this`readyToClose,
        this`reqReply
      ensures var o := Step(env, old(State()), msg);
        State() == o.state && raised == o.raised
    {
      var m := msg.methodName.value;
      if m == [] {
        return true;
      }
      if m[0] != '$' {
        if m in HANDLERS {
          if msg.params.None? {
            return true;
          }
          raised := RunHandler(HANDLERS[m], msg.params.value, None);
          if raised {
            return;
          }
        }
        if msg.id.Some? {
          requestSeq := msg.id.value;
        }
      }
      return false;
    }

    /** A message without a method: the result of one of the client's own
        requests. */
    method HandleResult(msg: Inbound) returns (raised: bool)
      requires msg.methodName.None?
      modifies this`pluginConfigurations, this`requestSeq, this`reqStatus, this`outbox,
        this`initialized, this`serverCapabilities, this`emissions, this`replies, this`readyToClose,
        this`reqReply
      ensures var o := Step(env, old(State()), msg);
        State() == o.state && raised == o.raised
    {
      if msg.result.Some? && msg.result.value != Null {
        if msg.id.None? {
          return true;
        }
        var reqId := msg.id.value;
        if reqId in reqStatus && reqStatus[reqId] in HANDLERS {
          ghost var st := State();
          ghost var o := RunHandlerSpec(env, st, HANDLERS[reqStatus[reqId]], msg.result.value, Some(reqId));
          raised := RunHandler(HANDLERS[reqStatus[reqId]], msg.result.value, Some(reqId));
          if raised {
            return;
          }
          assert State() == o.state;
          reqStatus := reqStatus - {reqId};
          if Some(reqId) in reqReply {
            reqReply := reqReply - {Some(reqId)};
          }
          assert reqReply == o.state.reqReply - {Some(reqId)};
        }
      }
      raised := false;
    }

    /** `on_msg_received`: the notifier is disabled, queued messages are
        handled in order until the queue is empty, and the notifier is
        enabled again; an exception leaves the notifier disabled and the
        remaining messages queued. */
    method OnMsgReceived()
      modifies this
      ensures var d := Drain(env, old(State()), old(inbox));
        && State() == d.state
        && inbox == old(inbox)[d.consumed..]
        && notifierEnabled == !d.raised
    {
      notifierEnabled := false;
      ghost var start := State();
      ghost var queued := inbox;
      ghost var k := 0;
      while inbox != []
        invariant 0 <= k <= |queued| && inbox == queued[k..]
        invariant Drain(env, start, queued[..k]) == Drained(State(), k, false)
        invariant !notifierEnabled
        decreases |inbox|
      {
        var msg := inbox[0];
        inbox := inbox[1..];
        DrainSnoc(env, start, queued[..k], msg);
        assert queued[..k] + [msg] == queued[..k + 1];
        var raised := HandleMessage(msg);
        k := k + 1;
        if raised {
          DrainStops(env, start, queued, k);
          return;
        }
      }
      assert queued[..k] == queued;
      notifierEnabled := true;
    }
  }
}
