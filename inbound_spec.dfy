/** What each inbound HTTP/2 event does to a client channel, as a function from
    the channel state before the event to the state after it (and the handler's
    result). The handler methods in module ClientInbound are proved to compute
    exactly these functions. */
module InboundSpec {
  import opened Http2Types

  /** HttpResponseStatus.BAD_GATEWAY, used when `:status` cannot be parsed. */
  const BadGateway: int := 502

  // ---------------------------------------------------------------------------
  // Listener consultation
  // ---------------------------------------------------------------------------

  /** The position of the first listener, from `from` on, that answers false, or
      `n` when all of them answer true. */
  function FirstVeto(ask: nat -> bool, from: nat, n: nat): (k: nat)
    requires from <= n
    ensures from <= k <= n
    ensures forall j :: from <= j < k ==> ask(j)
    ensures k < n ==> !ask(k)
    decreases n - from
  {
    if from == n then n
    else if !ask(from) then from
    else FirstVeto(ask, from + 1, n)
  }

  /** The calls made to the first `n` listeners with event `ev`. */
  function Calls(listeners: seq<ListenerId>, ev: ListenerEvent, n: nat): (r: seq<ListenerCall>)
    requires n <= |listeners|
    ensures |r| == n
    ensures forall i :: 0 <= i < n ==> r[i] == ListenerCall(listeners[i], ev)
  {
    seq(n, i requires 0 <= i < n => ListenerCall(listeners[i], ev))
  }

  datatype Consultation = Consultation(calls: seq<ListenerCall>, proceed: bool)

  /** Listeners are asked in order (`ask(i)` is the answer of the i-th one); the
      first that answers false ends the consultation and default processing is
      skipped. */
  function Consult(listeners: seq<ListenerId>, ev: ListenerEvent, ask: nat -> bool): (r: Consultation)
    ensures r.proceed <==> (forall i :: 0 <= i < |listeners| ==> ask(i))
    ensures |r.calls| <= |listeners|
    ensures forall i :: 0 <= i < |r.calls| ==> r.calls[i] == ListenerCall(listeners[i], ev)
    ensures forall i :: 0 <= i < |r.calls| - 1 ==> ask(i)
    ensures r.proceed ==> |r.calls| == |listeners|
    ensures !r.proceed ==> 0 < |r.calls| && !ask(|r.calls| - 1)
  {
    var k := FirstVeto(ask, 0, |listeners|);
    var called := if k < |listeners| then k + 1 else k;
    Consultation(Calls(listeners, ev, called), k == |listeners|)
  }

  // ---------------------------------------------------------------------------
  // Holder lookup and response slots
  // ---------------------------------------------------------------------------

  /** Where a stream's events go: a holder, and whether the stream is a server push. */
  datatype Route = Route(holder: HolderId, isServerPush: bool)

  /** The in-flight map is consulted first, the promised map only when it misses. */
  function Lookup(c: ChannelState, sid: StreamId): (r: Option<Route>)
    ensures r.Some? <==> sid in c.inFlight || sid in c.promised
    ensures sid in c.inFlight ==> r == Some(Route(c.inFlight[sid], false))
    ensures sid !in c.inFlight && sid in c.promised ==> r == Some(Route(c.promised[sid], true))
    ensures Valid(c) && r.Some? ==> r.value.holder in c.holders
  {
    if sid in c.inFlight then Some(Route(c.inFlight[sid], false))
    else if sid in c.promised then Some(Route(c.promised[sid], true))
    else None
  }

  /** The response a stream's events build: the holder's primary response, or on
      the server-push path the push response stored under that stream id. */
  function ResponseOf(h: OutboundMsgHolder, sid: StreamId, isServerPush: bool): (r: Option<Response>)
    ensures !isServerPush ==> r == h.response
    ensures isServerPush ==> (r.Some? <==> sid in h.pushResponses)
    ensures isServerPush && r.Some? ==> r.value == h.pushResponses[sid]
  {
    if !isServerPush then h.response
    else if sid in h.pushResponses then Some(h.pushResponses[sid])
    else None
  }

  /** Stores `r` in the slot ResponseOf reads (setResponse / addPushResponse). */
  function WithResponse(h: OutboundMsgHolder, sid: StreamId, isServerPush: bool, r: Response): (h': OutboundMsgHolder)
    ensures ResponseOf(h', sid, isServerPush) == Some(r)
    ensures h'.promises == h.promises && h'.futureErrors == h.futureErrors
    ensures isServerPush ==> h'.response == h.response
    ensures !isServerPush ==> h'.pushResponses == h.pushResponses
    ensures forall t :: t != sid ==> ResponseOf(h', t, true) == ResponseOf(h, t, true)
  {
    if isServerPush then h.(pushResponses := h.pushResponses[sid := r])
    else h.(response := Some(r))
  }

  /** HTTPCarbonMessage.addHttpContent: the chunk goes at the end of the body. */
  function AddContent(r: Response, chunk: Chunk): (r': Response)
    ensures |r'.body| == |r.body| + 1 && r'.body[..|r.body|] == r.body && r'.body[|r.body|] == chunk
    ensures r'.status == r.status && r'.headers == r.headers && r'.statusCodeProperty == r.statusCodeProperty
  {
    r.(body := r.body + [chunk])
  }

  /** The response future is notified with `e`. */
  function Notify(h: OutboundMsgHolder, e: FutureError): (h': OutboundMsgHolder)
    ensures |h'.futureErrors| == |h.futureErrors| + 1
    ensures h'.futureErrors[..|h.futureErrors|] == h.futureErrors && h'.futureErrors[|h.futureErrors|] == e
    ensures h'.response == h.response && h'.pushResponses == h.pushResponses && h'.promises == h.promises
  {
    h.(futureErrors := h.futureErrors + [e])
  }

  // ---------------------------------------------------------------------------
  // Response creation
  // ---------------------------------------------------------------------------

  /** The value of the first `:status` field of a header block (Http2Headers.status()). */
  function StatusField(h: Http2Headers): (r: Option<string>)
    ensures r.Some? <==> exists i :: 0 <= i < |h| && h[i].0 == ":status"
    ensures r.Some? ==> exists i :: 0 <= i < |h| && h[i] == (":status", r.value)
                                    && forall j :: 0 <= j < i ==> h[j].0 != ":status"
  {
    if |h| == 0 then None
    else if h[0].0 == ":status" then Some(h[0].1)
    else StatusField(h[1..])
  }

  /** The status a new response gets: the parsed `:status`, or 502 Bad Gateway
      when parsing fails. */
  function ResponseStatus(parsed: Option<int>): (code: int)
    ensures parsed.None? ==> code == BadGateway
    ensures parsed.Some? ==> code == parsed.value
  {
    match parsed
    case Some(code) => code
    case None => BadGateway
  }

  /** setupResponseCarbonMessage: a fresh response with no content, the fallback
      status when `:status` does not parse, the translated headers, and the
      HTTP_STATUS_CODE property equal to the status; a translation failure is
      reported to the holder's future as one HeaderConversionError. */
  function SetupResponse(conv: Conversions, sid: StreamId, headers: Http2Headers): (r: (Response, seq<FutureError>))
    ensures conv.parseStatus(StatusField(headers)).None? ==> r.0.status == BadGateway
    ensures conv.parseStatus(StatusField(headers)).Some? ==> r.0.status == conv.parseStatus(StatusField(headers)).value
    ensures r.0.statusCodeProperty == r.0.status
    ensures r.0.body == []
    ensures r.0.headers == conv.toHttpHeaders(sid, headers, false).added
    ensures r.1 == if conv.toHttpHeaders(sid, headers, false).failed then [HeaderConversionError(sid)] else []
  {
    var status := ResponseStatus(conv.parseStatus(StatusField(headers)));
    var conversion := conv.toHttpHeaders(sid, headers, false);
    (Response(status, conversion.added, status, []),
     if conversion.failed then [HeaderConversionError(sid)] else [])
  }

  // ---------------------------------------------------------------------------
  // Event steps
  // ---------------------------------------------------------------------------

  /** onDataRead. Returns the bytes processed (readable bytes plus padding), 0 for
      a stream the channel does not track, or throws when the stream has no
      response to append to yet. */
  function DataReadStep(c: ChannelState, sid: StreamId, data: Bytes, padding: int, endOfStream: bool,
                        ask: nat -> bool): (r: (ChannelState, Outcome<int>))
    requires Valid(c)
    ensures Valid(r.0)
  {
    var consult := Consult(c.listeners, DataFrame(sid, endOfStream), ask);
    var c1 := c.(log := c.log + consult.calls);
    if !consult.proceed then (c1, Returned(|data| + padding))
    else match Lookup(c, sid)
      case None => (c1, Returned(0))
      case Some(route) =>
        var h := c.holders[route.holder];
        match ResponseOf(h, sid, route.isServerPush)
        case None => (c1, Threw(MissingResponse(sid)))
        case Some(resp) =>
          var chunk := if endOfStream then LastContent(data, []) else Content(data);
          var c2 := c1.(holders := c.holders[route.holder := WithResponse(h, sid, route.isServerPush, AddContent(resp, chunk))]);
          var c3 :=
            if !endOfStream then c2
            else if route.isServerPush then c2.(promised := c.promised - {sid})
            else c2.(inFlight := c.inFlight - {sid});
          (c3, Returned(|data| + padding))
  }

  /** onTrailersRead: the header block becomes the trailers of one empty last
      chunk appended to `resp` (the response the route's slot holds), a
      translation failure notifies the holder's future, and the stream leaves the
      in-flight map, whichever path it came by. */
  function TrailersReadStep(c: ChannelState, conv: Conversions, sid: StreamId, headers: Http2Headers,
                            route: Route, resp: Response): (r: ChannelState)
    requires Valid(c) && route.holder in c.holders
    requires ResponseOf(c.holders[route.holder], sid, route.isServerPush) == Some(resp)
    ensures Valid(r)
  {
    var conversion := conv.toHttpHeaders(sid, headers, true);
    var h := c.holders[route.holder];
    var h1 := if conversion.failed then Notify(h, HeaderConversionError(sid)) else h;
    var h2 := WithResponse(h1, sid, route.isServerPush, AddContent(resp, LastContent([], conversion.added)));
    c.(holders := c.holders[route.holder := h2], inFlight := c.inFlight - {sid})
  }

  /** The response a HEADERS frame works on: the stream's existing response, or
      else a new one set up from the headers, with any translation error
      reported to the future, and stored in the route's slot. */
  function GetOrSetupResponse(conv: Conversions, h: OutboundMsgHolder, sid: StreamId, headers: Http2Headers,
                              isServerPush: bool): (r: (Response, OutboundMsgHolder))
    ensures ResponseOf(r.1, sid, isServerPush) == Some(r.0)
    ensures ResponseOf(h, sid, isServerPush).Some? ==> r == (ResponseOf(h, sid, isServerPush).value, h)
    ensures ResponseOf(h, sid, isServerPush).None? ==>
              && r.0 == SetupResponse(conv, sid, headers).0
              && r.1.futureErrors == h.futureErrors + SetupResponse(conv, sid, headers).1
  {
    match ResponseOf(h, sid, isServerPush)
    case Some(existing) => (existing, h)
    case None =>
      var setup := SetupResponse(conv, sid, headers);
      (setup.0, WithResponse(h.(futureErrors := h.futureErrors + setup.1), sid, isServerPush, setup.0))
  }

  /** onHeadersRead: the stream's response is created from the headers only if it
      does not exist yet; with endStream the headers are also read as trailers. */
  function HeadersReadStep(c: ChannelState, conv: Conversions, sid: StreamId, headers: Http2Headers,
                           endStream: bool, ask: nat -> bool): (r: ChannelState)
    requires Valid(c)
    ensures Valid(r)
  {
    var consult := Consult(c.listeners, HeadersFrame(sid, endStream), ask);
    var c1 := c.(log := c.log + consult.calls);
    if !consult.proceed then c1
    else match Lookup(c, sid)
      case None => c1
      case Some(route) =>
        var (resp, h1) := GetOrSetupResponse(conv, c.holders[route.holder], sid, headers, route.isServerPush);
        var c2 := c1.(holders := c.holders[route.holder := h1]);
        if endStream then TrailersReadStep(c2, conv, sid, headers, route, resp) else c2
  }

  /** onRstStreamRead: only the in-flight map is consulted; a holder found there
      has its future notified of the reset. No map changes. */
  function RstStreamStep(c: ChannelState, sid: StreamId): (r: ChannelState)
    requires Valid(c)
    ensures Valid(r)
  {
    if sid in c.inFlight then
      var hid := c.inFlight[sid];
      c.(holders := c.holders[hid := Notify(c.holders[hid], StreamResetByPeer(sid))])
    else c
  }

  /** onPushPromiseRead: for an in-flight originating stream, the promised stream
      is mapped to the same holder, every listener is told the promised stream
      started, and the holder gains one push promise (unless rebuilding the
      promised request throws). */
  function PushPromiseStep(c: ChannelState, conv: Conversions, sid: StreamId, promisedSid: StreamId,
                           headers: Http2Headers, ask: nat -> bool): (r: (ChannelState, Outcome<()>))
    requires Valid(c)
    ensures Valid(r.0)
  {
    var consult := Consult(c.listeners, PushPromiseFrame(sid, false), ask);
    var c1 := c.(log := c.log + consult.calls);
    if !consult.proceed || sid !in c.inFlight then (c1, Returned(()))
    else
      var hid := c.inFlight[sid];
      var c2 := c1.(promised := c.promised[promisedSid := hid],
                    log := c1.log + Calls(c.listeners, StreamInit(promisedSid), |c.listeners|));
      match conv.toRequest(headers, sid)
      case None => (c2, Threw(PromisedRequestConversion(sid)))
      case Some(request) =>
        var h := c.holders[hid];
        (c2.(holders := c.holders[hid := h.(promises := h.promises + [PushPromise(request, sid, promisedSid)])]),
         Returned(()))
  }

  /** onGoAwaySent / onGoAwayReceived: the channel is destroyed. */
  function GoAwayStep(c: ChannelState): (r: ChannelState)
    ensures r.destroyed
    ensures r.(destroyed := c.destroyed) == c
  {
    c.(destroyed := true)
  }
}
