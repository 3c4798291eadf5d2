/** The document provider's pure parts: the parameter builders of the
    document requests and notifications, the watched-files table
    (which editors have which document open), and the normalisers that turn
    a server's completion, signature-help, hover and definition results into
    the payload handed to the editor. A Python exception (KeyError,
    TypeError, IndexError, AttributeError) is a None result. */
module Documents {
  import opened Json
  import opened Protocol

  // ---------------------------------------------------------------------
  // Reading back what a builder produced

  /** `params['textDocument']['uri']`, when it is a string. */
  function DocumentUri(params: Params): Option<string> {
    if "textDocument" in params && params["textDocument"].Obj?
      && "uri" in params["textDocument"].fields && params["textDocument"].fields["uri"].Str?
    then Some(params["textDocument"].fields["uri"].s)
    else None
  }

  /** `(params['position']['line'], params['position']['character'])`. */
  function DocumentPosition(params: Params): Option<(Value, Value)> {
    if "position" in params && params["position"].Obj?
      && "line" in params["position"].fields && "character" in params["position"].fields
    then Some((params["position"].fields["line"], params["position"].fields["character"]))
    else None
  }

  // ---------------------------------------------------------------------
  // Request builders

  /** `path_as_uri(params['file'])`; the file must be a string. */
  function UriOf(pathAsUri: string -> string, p: Params): (r: Option<string>)
    ensures r.Some? <==> "file" in p && p["file"].Str?
    ensures r.Some? ==> r.value == pathAsUri(p["file"].s)
  {
    if "file" in p && p["file"].Str? then Some(pathAsUri(p["file"].s)) else None
  }

  function TextDocument(uri: string): Value {
    Obj(map["uri" := Str(uri)])
  }

  /** `document_changed`: the document's URI and version, and one content
      change carrying the whole new text. */
  function DidChangeParams(pathAsUri: string -> string, p: Params): (r: Option<Params>)
    ensures r.Some? <==> UriOf(pathAsUri, p).Some? && "version" in p && "text" in p
    ensures r.Some? ==> r.value.Keys == {"textDocument", "contentChanges"}
    ensures r.Some? ==> DocumentUri(r.value) == UriOf(pathAsUri, p)
    ensures r.Some? ==> Field(r.value["textDocument"], "version") == Some(p["version"])
    ensures r.Some? ==> r.value["contentChanges"] == Arr([Obj(map["text" := p["text"]])])
  {
    match UriOf(pathAsUri, p)
    case None => None
    case Some(uri) =>
      if "version" in p && "text" in p then
        Some(map["textDocument" := Obj(map["uri" := Str(uri), "version" := p["version"]]),
                 "contentChanges" := Arr([Obj(map["text" := p["text"]])])])
      else None
  }

  /** The parameters `document_open` sends for an already computed URI. */
  function DidOpenParams(uri: string, p: Params): (r: Option<Params>)
    ensures r.Some? <==> "language" in p && "version" in p && "text" in p
    ensures r.Some? ==> r.value.Keys == {"textDocument"} && DocumentUri(r.value) == Some(uri)
    ensures r.Some? ==> r.value["textDocument"] == Obj(map["uri" := Str(uri), "languageId" := p["language"],
                                                          "version" := p["version"], "text" := p["text"]])
  {
    if "language" in p && "version" in p && "text" in p then
      Some(map["textDocument" := Obj(map["uri" := Str(uri), "languageId" := p["language"],
                                         "version" := p["version"], "text" := p["text"]])])
    else None
  }

  /** The builder shared by the completion, signature-help, hover and
      definition requests: the editor's `line` and `column` become the
      position's `line` and `character`. */
  function PositionParams(pathAsUri: string -> string, p: Params): (r: Option<Params>)
    ensures r.Some? <==> UriOf(pathAsUri, p).Some? && "line" in p && "column" in p
    ensures r.Some? ==> r.value.Keys == {"textDocument", "position"}
    ensures r.Some? ==> DocumentUri(r.value) == UriOf(pathAsUri, p)
    ensures r.Some? ==> DocumentPosition(r.value) == Some((p["line"], p["column"]))
  {
    match UriOf(pathAsUri, p)
    case None => None
    case Some(uri) =>
      if "line" in p && "column" in p then
        Some(map["textDocument" := TextDocument(uri),
                 "position" := Obj(map["line" := p["line"], "character" := p["column"]])])
      else None
  }

  /** `document_will_save_notification`: the URI and the save reason. */
  function WillSaveParams(pathAsUri: string -> string, p: Params): (r: Option<Params>)
    ensures r.Some? <==> UriOf(pathAsUri, p).Some? && "reason" in p
    ensures r.Some? ==> r.value.Keys == {"textDocument", "reason"}
    ensures r.Some? ==> DocumentUri(r.value) == UriOf(pathAsUri, p) && r.value["reason"] == p["reason"]
  {
    match UriOf(pathAsUri, p)
    case None => None
    case Some(uri) =>
      if "reason" in p then Some(map["textDocument" := TextDocument(uri), "reason" := p["reason"]])
      else None
  }

  /** `document_did_save_notification`: the URI, and the text when the
      editor gave one that is not None (at the top level of the params, next
      to `textDocument`). */
  function DidSaveParams(pathAsUri: string -> string, p: Params): (r: Option<Params>)
    ensures r.Some? <==> UriOf(pathAsUri, p).Some?
    ensures r.Some? ==> DocumentUri(r.value) == UriOf(pathAsUri, p)
    ensures r.Some? ==> ("text" in r.value <==> "text" in p && p["text"] != Null)
    ensures r.Some? && "text" in r.value ==> r.value["text"] == p["text"]
    ensures r.Some? ==> r.value.Keys <= {"textDocument", "text"}
  {
    match UriOf(pathAsUri, p)
    case None => None
    case Some(uri) =>
      var text := if "text" in p then p["text"] else Null;
      var params := map["textDocument" := TextDocument(uri)];
      if text != Null then Some(params["text" := text]) else Some(params)
  }

  /** The parameters `document_did_close` sends: the URI, and the cancel
      marker when the document is not watched (so that `send` drops it). */
  function DidCloseParams(uri: string, watched: bool): (r: Params)
    ensures DocumentUri(r) == Some(uri)
    ensures CANCEL in r <==> !watched
  {
    var params := map["textDocument" := TextDocument(uri)];
    if watched then params else params[CANCEL := Bool(true)]
  }

  // ---------------------------------------------------------------------
  // The watched-files table

  type Watched = map<string, seq<Value>>

  /** `register_file` once the file name is a URI: the editor goes at the
      end of the URI's list, which is created when missing. */
  function RegisterFile(watched: Watched, uri: string, editor: Value): (r: Watched)
    ensures r.Keys == watched.Keys + {uri}
    ensures uri in watched ==> r[uri] == watched[uri] + [editor]
    ensures uri !in watched ==> r[uri] == [editor]
    ensures forall u :: u in watched && u != uri ==> r[u] == watched[u]
  {
    watched[uri := (if uri in watched then watched[uri] else []) + [editor]]
  }

  /** The position of the first `editor` in `editors` (compared by
      identity), or -1. */
  function FirstIndex(editors: seq<Value>, editor: Value): (i: int)
    ensures -1 <= i < |editors|
    ensures i >= 0 ==> editors[i] == editor && forall j :: 0 <= j < i ==> editors[j] != editor
    ensures i == -1 <==> editor !in editors
    decreases |editors|
  {
    if editors == [] then -1
    else if editors[0] == editor then 0
    else
      var i := FirstIndex(editors[1..], editor);
      if i == -1 then -1 else i + 1
  }

  /** `editors.pop(i)`. */
  function RemoveAt(editors: seq<Value>, i: nat): (r: seq<Value>)
    requires i < |editors|
    ensures |r| == |editors| - 1
    ensures forall j :: 0 <= j < i ==> r[j] == editors[j]
    ensures forall j :: i <= j < |r| ==> r[j] == editors[j + 1]
  {
    editors[..i] + editors[i + 1..]
  }

  /** What `document_did_close` does to a watched URI's list: the editor is
      removed only when it is found at a position above 0, and the URI is
      dropped when its list is empty afterwards. */
  function CloseEditor(watched: Watched, uri: string, editor: Value): (r: Watched)
    requires uri in watched
    ensures r.Keys <= watched.Keys
    ensures uri in r ==> |watched[uri]| - 1 <= |r[uri]| <= |watched[uri]|
  {
    var editors := watched[uri];
    var i := FirstIndex(editors, editor);
    var kept := if i > 0 then RemoveAt(editors, i) else editors;
    if |kept| == 0 then watched - {uri} else watched[uri := kept]
  }

  /** Closing keeps every other URI and its list. */
  lemma CloseEditorFrame(watched: Watched, uri: string, editor: Value)
    requires uri in watched
    ensures forall u :: u != uri ==> (u in CloseEditor(watched, uri, editor) <==> u in watched)
    ensures forall u :: u != uri && u in watched ==> CloseEditor(watched, uri, editor)[u] == watched[u]
  {
  }

  /** Closing removes the first occurrence of the editor unless it is the
      first in the list, keeps every other URI, and drops the URI only when
      its list was already empty. */
  lemma CloseEditorEffect(watched: Watched, uri: string, editor: Value)
    requires uri in watched
    ensures var r := CloseEditor(watched, uri, editor);
      forall u :: u != uri ==> (u in r <==> u in watched) && (u in r ==> r[u] == watched[u])
    ensures uri !in CloseEditor(watched, uri, editor) <==> watched[uri] == []
    ensures var r := CloseEditor(watched, uri, editor); var i := FirstIndex(watched[uri], editor);
      uri in r && 0 < i ==> r[uri] == RemoveAt(watched[uri], i)
    ensures var r := CloseEditor(watched, uri, editor);
      uri in r && FirstIndex(watched[uri], editor) <= 0 ==> r[uri] == watched[uri]
  {
    CloseEditorFrame(watched, uri, editor);
    var editors := watched[uri];
    var i := FirstIndex(editors, editor);
    var r := CloseEditor(watched, uri, editor);
    if i > 0 {
      var kept := RemoveAt(editors, i);
      assert |kept| == |editors| - 1 && |editors| > 1;
      assert r == watched[uri := kept];
    } else if editors == [] {
      assert r == watched - {uri};
    } else {
      assert r == watched[uri := editors];
    }
  }

  /** The editor that registered a document first is never removed from
      it: whatever editor closes, the first entry stays in place. */
  lemma CloseKeepsFirstEditor(watched: Watched, uri: string, editor: Value)
    requires uri in watched && watched[uri] != []
    ensures uri in CloseEditor(watched, uri, editor)
    ensures CloseEditor(watched, uri, editor)[uri][0] == watched[uri][0]
  {
  }

  /** Every list in the table is non-empty: `register_file` never makes an
      empty list and `document_did_close` never empties one, so a URI once
      registered is never dropped by closing. */
  ghost predicate NoEmptyLists(watched: Watched) {
    forall u :: u in watched ==> watched[u] != []
  }

  lemma WatchedInvariant(watched: Watched, uri: string, editor: Value)
    requires NoEmptyLists(watched)
    ensures NoEmptyLists(RegisterFile(watched, uri, editor))
    ensures uri in watched ==> NoEmptyLists(CloseEditor(watched, uri, editor))
    ensures uri in watched ==> CloseEditor(watched, uri, editor).Keys == watched.Keys
  {
    var registered := RegisterFile(watched, uri, editor);
    forall u | u in registered
      ensures registered[u] != []
    {
      if u != uri {
        assert registered[u] == watched[u];
      }
    }
    if uri in watched {
      CloseEditorEffect(watched, uri, editor);
      var r := CloseEditor(watched, uri, editor);
      assert uri in r;
      forall u | u in r
        ensures r[u] != []
      {
        if u == uri {
          var i := FirstIndex(watched[uri], editor);
          if 0 < i {
            assert |r[uri]| == |watched[uri]| - 1;
          }
        }
      }
      assert forall u :: u in r <==> u in watched;
    }
  }

  /** Registering an editor and closing it again removes it, unless it was
      the only editor of the document, which stays registered. */
  lemma RegisterThenClose(watched: Watched, uri: string, editor: Value)
    requires NoEmptyLists(watched)
    requires uri in watched ==> editor !in watched[uri]
    ensures uri in watched ==> CloseEditor(RegisterFile(watched, uri, editor), uri, editor) == watched
    ensures uri !in watched ==>
      CloseEditor(RegisterFile(watched, uri, editor), uri, editor) == RegisterFile(watched, uri, editor)
  {
    if uri in watched {
      var editors := watched[uri] + [editor];
      FirstIndexAppend(watched[uri], editor);
      assert RemoveAt(editors, |watched[uri]|) == watched[uri];
      assert RegisterFile(watched, uri, editor)[uri := watched[uri]] == watched;
    }
  }

  lemma {:induction false} FirstIndexAppend(editors: seq<Value>, editor: Value)
    requires editor !in editors
    ensures FirstIndex(editors + [editor], editor) == |editors|
    decreases |editors|
  {
    if editors != [] {
      assert (editors + [editor])[1..] == editors[1..] + [editor];
      FirstIndexAppend(editors[1..], editor);
    }
  }

  // ---------------------------------------------------------------------
  // Diagnostics

  /** One reply per editor watching the URI, in registration order. */
  function DiagnosticReplies(editors: seq<Value>, diagnostics: Value): (r: seq<Reply>)
    ensures |r| == |editors|
    ensures forall i :: 0 <= i < |r| ==>
      r[i] == Reply(editors[i], DOCUMENT_PUBLISH_DIAGNOSTICS, diagnostics)
  {
    seq(|editors|, i requires 0 <= i < |editors| =>
      Reply(editors[i], DOCUMENT_PUBLISH_DIAGNOSTICS, diagnostics))
  }

  /** `process_document_diagnostics`: the replies it makes, or None when it
      raises (no `uri` or `diagnostics`, or a `uri` that is not a string:
      either unhashable or concatenated to the log message). */
  function Diagnostics(watched: Watched, response: Value): (r: Option<seq<Reply>>)
    ensures r.Some? <==>
      Field(response, "uri").Some? && Field(response, "uri").value.Str? && Field(response, "diagnostics").Some?
    ensures r.Some? && response.fields["uri"].s in watched ==>
      r.value == DiagnosticReplies(watched[response.fields["uri"].s], response.fields["diagnostics"])
    ensures r.Some? && response.fields["uri"].s !in watched ==> r.value == []
  {
    match (Field(response, "uri"), Field(response, "diagnostics"))
    case (Some(Str(uri)), Some(diagnostics)) =>
      if uri in watched then Some(DiagnosticReplies(watched[uri], diagnostics)) else Some([])
    case _ => None
  }

  // ---------------------------------------------------------------------
  // Completion

  /** The seven completion-item fields the editor relies on. */
  const COMPLETION_FIELDS: set<string> :=
    {"kind", "detail", "documentation", "sortText", "filterText", "insertTextFormat", "insertText"}

  /** `item.get(key, default)`. */
  function Get(fields: map<string, Value>, key: string, default: Value): Value {
    if key in fields then fields[key] else default
  }

  /** One pass of the completion loop over an item. The `label` default is
      evaluated eagerly, so an item without a label raises even when it has
      every other field; an item that is not a dict has no `get`. */
  function NormalizeItem(item: Value): (r: Option<Value>)
    ensures r.Some? <==> item.Obj? && "label" in item.fields
    ensures r.Some? ==> r.value.Obj?
  {
    if item.Obj? && "label" in item.fields then
      Some(Obj(CompleteFields(item.fields, item.fields["label"])))
    else None
  }

  /** The seven assignments of the loop body, each keeping a value the item
      already has. */
  function CompleteFields(m: map<string, Value>, theLabel: Value): (r: map<string, Value>)
    ensures r.Keys == m.Keys + COMPLETION_FIELDS
    ensures forall k :: k in m ==> r[k] == m[k]
  {
    m["kind" := Get(m, "kind", Int(COMPLETION_KIND_TEXT))]
     ["detail" := Get(m, "detail", Str(""))]
     ["documentation" := Get(m, "documentation", Str(""))]
     ["sortText" := Get(m, "sortText", theLabel)]
     ["filterText" := Get(m, "filterText", theLabel)]
     ["insertTextFormat" := Get(m, "insertTextFormat", Int(INSERT_TEXT_FORMAT_PLAIN))]
     ["insertText" := Get(m, "insertText", theLabel)]
  }

  /** An item that already has every completion field is left as it is. */
  lemma CompleteFieldsKeeps(m: map<string, Value>, theLabel: Value)
    requires COMPLETION_FIELDS <= m.Keys
    ensures CompleteFields(m, theLabel) == m
  {
    assert "kind" in m && "detail" in m && "documentation" in m && "sortText" in m;
    assert "filterText" in m && "insertTextFormat" in m && "insertText" in m;
    var m1 := m["kind" := m["kind"]];
    assert m1 == m;
    var m2 := m1["detail" := m["detail"]];
    assert m2 == m;
    var m3 := m2["documentation" := m["documentation"]];
    assert m3 == m;
    var m4 := m3["sortText" := m["sortText"]];
    assert m4 == m;
    var m5 := m4["filterText" := m["filterText"]];
    assert m5 == m;
    var m6 := m5["insertTextFormat" := m["insertTextFormat"]];
    assert m6 == m;
    assert m6["insertText" := m["insertText"]] == m;
  }

  /** The defaults: an absent kind is Text, absent detail and documentation
      are empty, an absent format is plain text, and absent sort, filter
      and insert texts are the label. */
  lemma NormalizeItemDefaults(item: Value)
    requires item.Obj? && "label" in item.fields
    ensures var f := NormalizeItem(item).value.fields;
      var theLabel := item.fields["label"];
      && ("kind" !in item.fields ==> f["kind"] == Int(COMPLETION_KIND_TEXT))
      && ("detail" !in item.fields ==> f["detail"] == Str(""))
      && ("documentation" !in item.fields ==> f["documentation"] == Str(""))
      && ("insertTextFormat" !in item.fields ==> f["insertTextFormat"] == Int(INSERT_TEXT_FORMAT_PLAIN))
      && ("sortText" !in item.fields ==> f["sortText"] == theLabel)
      && ("filterText" !in item.fields ==> f["filterText"] == theLabel)
      && ("insertText" !in item.fields ==> f["insertText"] == theLabel)
  {
  }

  /** Normalising an already normalised item changes nothing. */
  lemma NormalizeItemIdempotent(item: Value)
    requires item.Obj? && "label" in item.fields
    ensures NormalizeItem(NormalizeItem(item).value) == NormalizeItem(item)
  {
    var r := NormalizeItem(item).value;
    assert "label" in r.fields;
    CompleteFieldsKeeps(r.fields, r.fields["label"]);
  }

  /** Every item of a list normalised, or None when one of them raises. */
  function NormalizeAll(items: seq<Value>): Option<seq<Value>> {
    if forall i :: 0 <= i < |items| ==> NormalizeItem(items[i]).Some? then
      Some(seq(|items|, i requires 0 <= i < |items| => NormalizeItem(items[i]).value))
    else None
  }

  /** The loop of `process_document_completion` over a list of items. */
  method NormalizeCompletionItems(items: seq<Value>) returns (ok: bool, out: seq<Value>)
    ensures ok <==> NormalizeAll(items).Some?
    ensures ok ==> out == NormalizeAll(items).value
  {
    out := [];
    var i := 0;
    while i < |items|
      invariant 0 <= i <= |items|
      invariant |out| == i
      invariant forall j :: 0 <= j < i ==> Some(out[j]) == NormalizeItem(items[j])
    {
      var item := NormalizeItem(items[i]);
      if item.None? {
        return false, out;
      }
      out := out + [item.value];
      i := i + 1;
    }
    ok := true;
    assert NormalizeAll(items).Some?;
    assert out == NormalizeAll(items).value;
  }

  /** The payload of a completion result: a dict is replaced by its
      `items`, then every item of the list is normalised. Iterating an empty
      string or dict does nothing; iterating a non-empty one reaches a
      string, which has no `get`, and anything else is not iterable. */
  function CompletionPayload(response: Value): (r: Option<Value>)
    ensures response.Obj? && "items" !in response.fields ==> r.None?
    ensures !response.Obj? ==> r == CompletionItemsPayload(response)
    ensures response.Obj? && "items" in response.fields ==>
      r == CompletionItemsPayload(response.fields["items"])
  {
    if response.Obj? then
      if "items" in response.fields then CompletionItemsPayload(response.fields["items"]) else None
    else CompletionItemsPayload(response)
  }

  function CompletionItemsPayload(items: Value): (r: Option<Value>)
    ensures items.Arr? ==> (r.Some? <==> NormalizeAll(items.items).Some?)
    ensures items.Arr? && r.Some? ==> r.value == Arr(NormalizeAll(items.items).value)
    ensures r.Some? && !items.Arr? ==> r.value == items && (items == Str([]) || items == Obj(map[]))
  {
    match items
    case Arr(xs) =>
      (match NormalizeAll(xs)
       case Some(ys) => Some(Arr(ys))
       case None => None)
    case Str(s) => if s == [] then Some(items) else None
    case Obj(m) => if m == map[] then Some(items) else None
    case _ => None
  }

  /** Each item of a successful completion payload has the seven fields and
      keeps every field the server gave. */
  lemma CompletionPayloadItems(response: Value)
    requires CompletionPayload(response).Some? && CompletionPayload(response).value.Arr?
    ensures var src := if response.Obj? then response.fields["items"] else response;
      var out := CompletionPayload(response).value.items;
      && src.Arr? && |out| == |src.items|
      && forall i :: 0 <= i < |out| ==>
           out[i].Obj? && COMPLETION_FIELDS <= out[i].fields.Keys
           && src.items[i].Obj? && src.items[i].fields.Keys <= out[i].fields.Keys
           && forall k :: k in src.items[i].fields ==> out[i].fields[k] == src.items[i].fields[k]
  {
    var src := if response.Obj? then response.fields["items"] else response;
    assert src.Arr?;
    var out := CompletionPayload(response).value.items;
    forall i | 0 <= i < |out|
      ensures out[i].Obj? && COMPLETION_FIELDS <= out[i].fields.Keys
        && src.items[i].Obj? && src.items[i].fields.Keys <= out[i].fields.Keys
        && forall k :: k in src.items[i].fields ==> out[i].fields[k] == src.items[i].fields[k]
    {
      assert Some(out[i]) == NormalizeItem(src.items[i]);
    }
  }

  // ---------------------------------------------------------------------
  // Signature help, hover, definition

  /** `process_signature_completion`: with at least one signature the
      `signatures` field becomes the active one; with none the payload is
      None. A missing field, a value without a length or an index that is
      out of range raises. */
  function SignaturePayload(response: Value): (r: Option<Value>)
    ensures r.Some? && r.value != Null ==> response.Obj? && r.value.Obj?
    ensures r.Some? && r.value != Null ==> r.value.fields.Keys == response.fields.Keys
    ensures r.Some? && r.value != Null ==>
      forall k :: k in response.fields && k != "signatures" ==> r.value.fields[k] == response.fields[k]
  {
    match PyGetItem(response, Str("signatures"))
    case None => None
    case Some(signatures) =>
      match PyLen(signatures)
      case None => None
      case Some(n) =>
        if n > 0 then
          match PyGetItem(response, Str("activeSignature"))
          case None => None
          case Some(active) =>
            match PyGetItem(signatures, active)
            case None => None
            case Some(chosen) => Some(Obj(response.fields["signatures" := chosen]))
        else Some(Null)
  }

  /** The cases of the signature payload for a list of signatures. */
  lemma SignaturePayloadCases(response: Value)
    requires response.Obj? && "signatures" in response.fields && response.fields["signatures"].Arr?
    ensures var sigs := response.fields["signatures"].items;
      && (sigs == [] ==> SignaturePayload(response) == Some(Null))
      && (sigs != [] && "activeSignature" !in response.fields ==> SignaturePayload(response).None?)
      && (sigs != [] && "activeSignature" in response.fields && response.fields["activeSignature"].Int? ==>
            var i := response.fields["activeSignature"].i;
            && (0 <= i < |sigs| ==>
                  SignaturePayload(response) == Some(Obj(response.fields["signatures" := sigs[i]])))
            && (i >= |sigs| || i < -|sigs| ==> SignaturePayload(response).None?))
  {
  }

  /** `process_hover_result`: a list gives its first element (IndexError
      when empty), then a dict gives its `value`; anything else, such as a
      string, passes through unchanged. */
  function HoverPayload(result: Value): (r: Option<Value>)
    ensures Field(result, "contents").None? ==> r.None?
  {
    match Field(result, "contents")
    case None => None
    case Some(contents) =>
      var first := if contents.Arr? then PyIndex(contents.items, 0) else Some(contents);
      match first
      case None => None
      case Some(c) => if c.Obj? then Field(c, "value") else Some(c)
  }

  lemma HoverPayloadCases(result: Value)
    requires result.Obj? && "contents" in result.fields
    ensures var c := result.fields["contents"];
      && (c.Str? ==> HoverPayload(result) == Some(c))
      && (c.Obj? ==> HoverPayload(result) == Field(c, "value"))
      && (c == Arr([]) ==> HoverPayload(result).None?)
      && (c.Arr? && c.items != [] && !c.items[0].Obj? ==> HoverPayload(result) == Some(c.items[0]))
      && (c.Arr? && c.items != [] && c.items[0].Obj? ==> HoverPayload(result) == Field(c.items[0], "value"))
  {
  }

  /** `process_go_to_definition`: a non-empty list gives its first
      location with a `file` field holding the local path of its URI, an
      empty list gives None, and anything that is not a list passes through.
      The location must be a dict with a string `uri`. */
  function DefinitionPayload(result: Value, uriToPath: string -> string): (r: Option<Value>)
    ensures !result.Arr? ==> r == Some(result)
    ensures result == Arr([]) ==> r == Some(Null)
    ensures result.Arr? && result.items != [] ==>
      (r.Some? <==> Field(result.items[0], "uri").Some? && result.items[0].fields["uri"].Str?)
    ensures result.Arr? && result.items != [] && r.Some? ==>
      var loc := result.items[0].fields;
      r.value == Obj(loc["file" := Str(uriToPath(loc["uri"].s))])
  {
    if result.Arr? then
      if |result.items| > 0 then
        var loc := result.items[0];
        match Field(loc, "uri")
        case Some(Str(uri)) => Some(Obj(loc.fields["file" := Str(uriToPath(uri))]))
        case _ => None
      else Some(Null)
    else Some(result)
  }

  /** The reply a response handler sends: to the editor recorded for the
      request, if any, and to nobody otherwise. */
  function ReplyTo(reqReply: map<Option<int>, Value>, reqId: int, methodName: string, payload: Value): (r: seq<Reply>)
    ensures |r| <= 1
    ensures r != [] <==> Some(reqId) in reqReply
    ensures r != [] ==> r[0] == Reply(reqReply[Some(reqId)], methodName, payload)
  {
    if Some(reqId) in reqReply then [Reply(reqReply[Some(reqId)], methodName, payload)] else []
  }
}
