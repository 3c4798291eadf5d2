/** Names and records shared by the client, its document provider, the
    manager and the transport proxy. The method names are those of the
    Language Server Protocol; `server_ready` is the client's own. */
module Protocol {
  import opened Json

  const INITIALIZE := "initialize"
  const SHUTDOWN := "shutdown"
  const EXIT := "exit"
  const SERVER_READY := "server_ready"
  const WORKSPACE_CONFIGURATION_CHANGE := "workspace/didChangeConfiguration"
  const WINDOW_SHOW_MESSAGE := "window/showMessage"
  const DOCUMENT_PUBLISH_DIAGNOSTICS := "textDocument/publishDiagnostics"
  const DOCUMENT_DID_CHANGE := "textDocument/didChange"
  const DOCUMENT_DID_OPEN := "textDocument/didOpen"
  const DOCUMENT_COMPLETION := "textDocument/completion"
  const DOCUMENT_SIGNATURE := "textDocument/signatureHelp"
  const DOCUMENT_HOVER := "textDocument/hover"
  const DOCUMENT_DEFINITION := "textDocument/definition"
  const DOCUMENT_WILL_SAVE := "textDocument/willSave"
  const DOCUMENT_DID_SAVE := "textDocument/didSave"
  const DOCUMENT_DID_CLOSE := "textDocument/didClose"

  /** The key a request builder adds to its parameters to stop `send`. */
  const CANCEL := "lsp-cancel"

  /** Completion defaults: CompletionItemKind.Text and InsertTextFormat.PlainText. */
  const COMPLETION_KIND_TEXT := 1
  const INSERT_TEXT_FORMAT_PLAIN := 1

  /** The plugin (listener) category that hears about server capabilities. */
  const DOCUMENT_EVENT := "textDocument"

  /** A Qt signal registered as a listener. */
  type Listener = nat

  /** What the client hands to the transport: `{'id', 'method', 'params'}`. */
  datatype ClientMessage = ClientMessage(id: int, methodName: string, params: Params)

  /** One call `editor.handle_response(method, {'params': params})`. */
  datatype Reply = Reply(editor: Value, methodName: string, params: Value)

  /** One call `sig.emit(server_capabilites, language)`. */
  datatype Emission = Emission(listener: Listener, capabilities: Params, language: string)
}
