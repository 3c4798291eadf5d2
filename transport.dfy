/** The transport proxy's outgoing side: it turns each message the client
    queues into a JSON-RPC 2.0 request object, serialises it, and writes it
    on the server socket behind a `Content-Length` header (the Base Protocol
    header part of the Language Server Protocol). */
module Transport {
  import opened Json
  import opened Protocol
  import opened Utf8
  import Decimal

  const JSONRPC_VERSION := "2.0"
  const CONTENT_LENGTH := "Content-Length: "
  const HEADER_END := "\r\n\r\n"

  /** Reads the four request fields back out of a request object; None when
      the object is not a JSON-RPC 2.0 request of the shape the proxy sends. */
  function Decompose(v: Value): Option<ClientMessage> {
    if v.Obj?
      && "jsonrpc" in v.fields && v.fields["jsonrpc"] == Str(JSONRPC_VERSION)
      && "id" in v.fields && v.fields["id"].Int?
      && "method" in v.fields && v.fields["method"].Str?
      && "params" in v.fields && v.fields["params"].Obj?
    then Some(ClientMessage(v.fields["id"].i, v.fields["method"].s, v.fields["params"].fields))
    else None
  }

  /** `__compose_request(id, method, params)`: exactly the four fields of a
      request object, the three given ones unchanged. */
  function ComposeRequest(id: int, methodName: string, params: Params): (r: Value)
    ensures r.Obj? && r.fields.Keys == {"jsonrpc", "id", "method", "params"}
    ensures r.fields["jsonrpc"] == Str(JSONRPC_VERSION)
    ensures Decompose(r) == Some(ClientMessage(id, methodName, params))
  {
    Obj(map["jsonrpc" := Str(JSONRPC_VERSION), "id" := Int(id),
             "method" := Str(methodName), "params" := Obj(params)])
  }

  /** The header text for a body of `n` bytes. */
  function Header(n: nat): (h: string)
    ensures forall i :: 0 <= i < |h| ==> IsAscii(h[i])
  {
    var digits := Decimal.NatToString(n);
    assert forall i :: 0 <= i < |digits| ==> Decimal.IsDigit(digits[i]);
    CONTENT_LENGTH + digits + HEADER_END
  }

  /** What `__send_request` writes for one body: the header, then the body
      bytes, nothing else. The header is ASCII, so its UTF-8 encoding is one
      byte per character (`LengthCountsBytes`). */
  function Frame(body: seq<byte>): (r: seq<byte>)
    ensures |r| > |body| && r[|r| - |body|..] == body
  {
    AsciiBytes(Header(|body|)) + body
  }

  /** The bytes of one serialised request: `json.dumps`, then UTF-8. */
  function Body(dumps: Value -> string, m: ClientMessage): seq<byte> {
    Encode(dumps(ComposeRequest(m.id, m.methodName, m.params)))
  }

  function Bodies(dumps: Value -> string, ms: seq<ClientMessage>): (r: seq<seq<byte>>)
    ensures |r| == |ms|
    ensures forall j :: 0 <= j < |ms| ==> r[j] == Body(dumps, ms[j])
  {
    seq(|ms|, j requires 0 <= j < |ms| => Body(dumps, ms[j]))
  }

  /** Frames written one after the other. */
  function Frames(bodies: seq<seq<byte>>): seq<byte>
    decreases |bodies|
  {
    if bodies == [] then [] else Frame(bodies[0]) + Frames(bodies[1..])
  }

  lemma {:induction false} FramesAppend(bodies: seq<seq<byte>>, b: seq<byte>)
    ensures Frames(bodies + [b]) == Frames(bodies) + Frame(b)
    decreases |bodies|
  {
    if bodies == [] {
      assert bodies + [b] == [b];
      assert Frames([b]) == Frame(b) + Frames([]);
    } else {
      assert (bodies + [b])[0] == bodies[0];
      assert (bodies + [b])[1..] == bodies[1..] + [b];
      FramesAppend(bodies[1..], b);
    }
  }

  // ---- the reader's side: what a peer does with the stream ----

  predicate IsDigitByte(b: byte) {
    '0' as int <= b as int <= '9' as int
  }

  predicate StartsWith(s: seq<byte>, p: seq<byte>) {
    |p| <= |s| && s[..|p|] == p
  }

  /** The number of decimal digit bytes at the start of `s`. */
  function DigitSpan(s: seq<byte>): (k: nat)
    ensures k <= |s|
    ensures forall i :: 0 <= i < k ==> IsDigitByte(s[i])
    ensures k < |s| ==> !IsDigitByte(s[k])
    decreases |s|
  {
    if s != [] && IsDigitByte(s[0]) then 1 + DigitSpan(s[1..]) else 0
  }

  function BytesValue(ds: seq<byte>): nat
    requires forall i :: 0 <= i < |ds| ==> IsDigitByte(ds[i])
    decreases |ds|
  {
    if ds == [] then 0
    else
      assert IsDigitByte(ds[|ds| - 1]);
      BytesValue(ds[..|ds| - 1]) * 10 + (ds[|ds| - 1] as int - '0' as int)
  }

  /** A reader of the stream: the `prefix` bytes, a decimal N, the `blank`
      bytes, then N bytes of body. Gives the body and what follows it. */
  function ParseFrameWith(prefix: seq<byte>, blank: seq<byte>, stream: seq<byte>)
    : (r: Option<(seq<byte>, seq<byte>)>)
    ensures r.Some? ==> |r.value.1| < |stream|
  {
    if !StartsWith(stream, prefix) then None
    else
      var afterPrefix := stream[|prefix|..];
      var k := DigitSpan(afterPrefix);
      if k == 0 then None
      else
        var n := BytesValue(afterPrefix[..k]);
        var afterDigits := afterPrefix[k..];
        if !StartsWith(afterDigits, blank) then None
        else
          var tail := afterDigits[|blank|..];
          if |tail| < n then None else Some((tail[..n], tail[n..]))
  }

  /** The reader of the Base Protocol header this proxy writes. */
  function ParseFrame(stream: seq<byte>): (r: Option<(seq<byte>, seq<byte>)>)
    ensures r.Some? ==> |r.value.1| < |stream|
  {
    ParseFrameWith(AsciiBytes(CONTENT_LENGTH), AsciiBytes(HEADER_END), stream)
  }

  /** Every frame in the stream, in order; None if the stream is cut. */
  function ParseFrames(stream: seq<byte>): Option<seq<seq<byte>>>
    decreases |stream|
  {
    if stream == [] then Some([])
    else match ParseFrame(stream)
      case None => None
      case Some((body, rest)) =>
        match ParseFrames(rest)
        case None => None
        case Some(bodies) => Some([body] + bodies)
  }

  lemma {:induction false} DigitBytesValue(s: string)
    requires Decimal.AllDigits(s)
    ensures forall i :: 0 <= i < |s| ==> IsAscii(s[i])
    ensures forall i :: 0 <= i < |s| ==> IsDigitByte(AsciiBytes(s)[i])
    ensures BytesValue(AsciiBytes(s)) == Decimal.DigitsValue(s)
    decreases |s|
  {
    assert forall i :: 0 <= i < |s| ==> Decimal.IsDigit(s[i]);
    if s != [] {
      var init := s[..|s| - 1];
      DigitBytesValue(init);
      var b := AsciiBytes(s);
      assert b[..|b| - 1] == AsciiBytes(init);
    }
  }

  lemma {:induction false} DigitSpanOf(d: seq<byte>, t: seq<byte>)
    requires forall i :: 0 <= i < |d| ==> IsDigitByte(d[i])
    requires t != [] && !IsDigitByte(t[0])
    ensures DigitSpan(d + t) == |d|
    decreases |d|
  {
    if d != [] {
      assert (d + t)[1..] == d[1..] + t;
      DigitSpanOf(d[1..], t);
    } else {
      assert d + t == t;
    }
  }

  /** The header's bytes are those of `Content-Length: `, then the decimal
      digits of the length (all ASCII), then the blank line, and nothing
      else. */
  lemma HeaderBytes(n: nat)
    ensures forall i :: 0 <= i < |Decimal.NatToString(n)| ==> IsAscii(Decimal.NatToString(n)[i])
    ensures AsciiBytes(Header(n))
      == AsciiBytes(CONTENT_LENGTH) + AsciiBytes(Decimal.NatToString(n)) + AsciiBytes(HEADER_END)
  {
    var digits := Decimal.NatToString(n);
    DigitBytesValue(digits);
    AsciiBytesAppend(CONTENT_LENGTH, digits);
    AsciiBytesAppend(CONTENT_LENGTH + digits, HEADER_END);
  }

  lemma FrameSlices(prefix: seq<byte>, d: seq<byte>, blank: seq<byte>, tail: seq<byte>)
    ensures StartsWith(prefix + d + blank + tail, prefix)
    ensures (prefix + d + blank + tail)[|prefix|..] == d + (blank + tail)
    ensures (d + (blank + tail))[..|d|] == d
    ensures (d + (blank + tail))[|d|..] == blank + tail
    ensures StartsWith(blank + tail, blank)
    ensures (blank + tail)[|blank|..] == tail
  {
    assert prefix + d + blank + tail == prefix + (d + (blank + tail));
  }

  lemma ParseFrameWithOf(prefix: seq<byte>, blank: seq<byte>, d: seq<byte>, tail: seq<byte>, n: nat)
    requires d != [] && forall i :: 0 <= i < |d| ==> IsDigitByte(d[i])
    requires BytesValue(d) == n <= |tail|
    requires blank != [] && !IsDigitByte(blank[0])
    ensures ParseFrameWith(prefix, blank, prefix + d + blank + tail) == Some((tail[..n], tail[n..]))
  {
    FrameSlices(prefix, d, blank, tail);
    DigitSpanOf(d, blank + tail);
  }

  lemma HeaderEndNotDigit()
    ensures AsciiBytes(HEADER_END) != [] && !IsDigitByte(AsciiBytes(HEADER_END)[0])
  {
    assert AsciiBytes(HEADER_END)[0] as int == 13;
  }

  lemma FrameLayout(body: seq<byte>, rest: seq<byte>)
    ensures forall i :: 0 <= i < |Decimal.NatToString(|body|)| ==> IsAscii(Decimal.NatToString(|body|)[i])
    ensures Frame(body) + rest
      == AsciiBytes(CONTENT_LENGTH) + AsciiBytes(Decimal.NatToString(|body|)) + AsciiBytes(HEADER_END) + (body + rest)
  {
    HeaderBytes(|body|);
  }

  lemma RoundTripWith(prefix: seq<byte>, blank: seq<byte>, body: seq<byte>, rest: seq<byte>)
    requires forall i :: 0 <= i < |Decimal.NatToString(|body|)| ==> IsAscii(Decimal.NatToString(|body|)[i])
    requires blank != [] && !IsDigitByte(blank[0])
    ensures ParseFrameWith(prefix, blank, prefix + AsciiBytes(Decimal.NatToString(|body|)) + blank + (body + rest))
      == Some((body, rest))
  {
    var digits := Decimal.NatToString(|body|);
    DigitBytesValue(digits);
    Decimal.NatToStringValue(|body|);
    ParseFrameWithOf(prefix, blank, AsciiBytes(digits), body + rest, |body|);
    assert (body + rest)[..|body|] == body;
    assert (body + rest)[|body|..] == rest;
  }

  lemma FrameRoundTrip(body: seq<byte>, rest: seq<byte>)
    ensures ParseFrame(Frame(body) + rest) == Some((body, rest))
  {
    FrameLayout(body, rest);
    HeaderEndNotDigit();
    RoundTripWith(AsciiBytes(CONTENT_LENGTH), AsciiBytes(HEADER_END), body, rest);
  }

  /** A stream that starts with a readable frame reads as that frame's
      body followed by the bodies of the rest. */
  lemma ParseFramesStep(stream: seq<byte>, body: seq<byte>, rest: seq<byte>, bodies: seq<seq<byte>>)
    requires stream != [] && ParseFrame(stream) == Some((body, rest))
    requires ParseFrames(rest) == Some(bodies)
    ensures ParseFrames(stream) == Some([body] + bodies)
  {
  }

  /** One more frame in front of a readable stream of frames reads back
      as one more body in front. */
  lemma FramesRoundTripStep(body: seq<byte>, bodies: seq<seq<byte>>)
    requires ParseFrames(Frames(bodies)) == Some(bodies)
    ensures ParseFrames(Frames([body] + bodies)) == Some([body] + bodies)
  {
    var rest := Frames(bodies);
    assert ([body] + bodies)[1..] == bodies;
    assert Frames([body] + bodies) == Frame(body) + rest;
    FrameRoundTrip(body, rest);
    ParseFramesStep(Frame(body) + rest, body, rest, bodies);
  }

  /** Reading the whole stream gives back every body in order. */
  lemma {:induction false} FramesRoundTrip(bodies: seq<seq<byte>>)
    ensures ParseFrames(Frames(bodies)) == Some(bodies)
    decreases |bodies|
  {
    if bodies != [] {
      FramesRoundTrip(bodies[1..]);
      FramesRoundTripStep(bodies[0], bodies[1..]);
      assert [bodies[0]] + bodies[1..] == bodies;
    }
  }

  /** The byte count in the header is the length of the UTF-8 encoding, which
      is larger than the character count as soon as one character is not
      ASCII. */
  lemma LengthCountsBytes(text: string)
    ensures Frame(Encode(text)) == Encode(Header(|Encode(text)|)) + Encode(text)
    ensures (exists i :: 0 <= i < |text| && !IsAscii(text[i])) ==> |Encode(text)| > |text|
  {
    EncodeIsAsciiBytes(Header(|Encode(text)|));
    EncodeLength(text);
  }

  /** The proxy object. `zmqIn` holds the messages the client has queued on
      the ZeroMQ socket; `sent` is every byte written to the server socket. */
  class LanguageServerClient {
    const dumps: Value -> string
    var zmqIn: seq<ClientMessage>
    var sent: seq<byte>

    constructor (dumps: Value -> string, queued: seq<ClientMessage>)
      ensures this.dumps == dumps && zmqIn == queued && sent == []
    {
      this.dumps := dumps;
      zmqIn := queued;
      sent := [];
    }

    /** `__send_request`: the header, then the UTF-8 body. */
    method SendRequest(request: Value)
      modifies this`sent
      ensures sent == old(sent) + Frame(Encode(dumps(request)))
    {
      var content := Encode(dumps(request));
      var header := Encode(Header(|content|));
      EncodeIsAsciiBytes(Header(|content|));
      sent := sent + header;
      sent := sent + content;
    }

    /** `listen`: forwards `events` queued messages, oldest first, one frame
        each. `events` is what the socket poll reported; receiving more than
        is queued would block. */
    method Listen(events: int)
      requires events <= |zmqIn|
      modifies this`zmqIn, this`sent
      ensures var k := if events > 0 then events else 0;
        && zmqIn == old(zmqIn)[k..]
        && sent == old(sent) + Frames(Bodies(dumps, old(zmqIn)[..k]))
    {
      ghost var queued := zmqIn;
      ghost var k := if events > 0 then events else 0;
      ghost var done := 0;
      var events := events;
      while events > 0
        invariant 0 <= done <= k <= |queued|
        invariant (events > 0 && done + events == k) || (events <= 0 && done == k)
        invariant zmqIn == queued[done..]
        invariant sent == old(sent) + Frames(Bodies(dumps, queued[..done]))
      {
        var clientRequest := zmqIn[0];
        zmqIn := zmqIn[1..];
        var serverRequest := ComposeRequest(clientRequest.id, clientRequest.methodName, clientRequest.params);
        SendRequest(serverRequest);
        ListenStep(dumps, queued, done, old(sent));
        done := done + 1;
        events := events - 1;
      }
    }
  }

  /** One more forwarded message adds its frame to what was written. */
  lemma ListenStep(dumps: Value -> string, q: seq<ClientMessage>, i: nat, s: seq<byte>)
    requires i < |q|
    ensures s + Frames(Bodies(dumps, q[..i])) + Frame(Body(dumps, q[i]))
      == s + Frames(Bodies(dumps, q[..i + 1]))
  {
    assert Bodies(dumps, q[..i + 1]) == Bodies(dumps, q[..i]) + [Body(dumps, q[i])];
    FramesAppend(Bodies(dumps, q[..i]), Body(dumps, q[i]));
  }

  /** What `listen` writes can be read back frame by frame: the n-th frame's
      body is the serialisation of the n-th queued message, and that request
      object carries the message's id, method and params unchanged. */
  lemma ListenIsReadable(dumps: Value -> string, forwarded: seq<ClientMessage>)
    ensures ParseFrames(Frames(Bodies(dumps, forwarded))) == Some(Bodies(dumps, forwarded))
    ensures forall j :: 0 <= j < |forwarded| ==>
      Decompose(ComposeRequest(forwarded[j].id, forwarded[j].methodName, forwarded[j].params)) == Some(forwarded[j])
  {
    FramesRoundTrip(Bodies(dumps, forwarded));
  }
}
