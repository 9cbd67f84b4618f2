/** Values the HTTP/2 client inbound handler works on: decoded frames' contents,
    the response under assembly, the outbound message holder of one exchange, and
    the per-connection state (stream maps, holder heap, listener calls). */
module Http2Types {

  datatype Option<+T> = None | Some(value: T)

  /** A HTTP/2 stream identifier as the frame decoder delivers it. */
  type StreamId = int

  newtype byte = x: int | 0 <= x < 256

  /** The readable bytes of a DATA frame's payload (padding already stripped). */
  type Bytes = seq<byte>

  /** A decoded HTTP/2 header block, pseudo-headers included, in arrival order. */
  type Http2Headers = seq<(string, string)>

  /** HTTP/1.x style header fields produced by translating an HTTP/2 header block. */
  type HttpHeaders = seq<(string, string)>

  /** Identity of a registered data-event listener. */
  type ListenerId = nat

  /** Identity of an outbound message holder in the channel's holder heap. */
  type HolderId = nat

  /** One content chunk appended to a response: DefaultHttpContent, or
      DefaultLastHttpContent, which carries trailing headers. */
  datatype Chunk =
    | Content(data: Bytes)
    | LastContent(data: Bytes, trailers: HttpHeaders)

  /** A response message under assembly: the status it was created with, the
      translated headers, the HTTP_STATUS_CODE property recorded on it, and the
      content chunks appended so far, in order. */
  datatype Response = Response(status: int, headers: HttpHeaders, statusCodeProperty: int, body: seq<Chunk>)

  /** What the header translation produced: the fields it added to the target and
      whether it ended by throwing. */
  datatype Conversion = Conversion(added: HttpHeaders, failed: bool)

  /** The request a server announces in a PUSH_PROMISE, rebuilt from its headers. */
  datatype Request = Request(verb: string, path: string, headers: HttpHeaders)

  /** A server push announcement recorded on the originating exchange. */
  datatype PushPromise = PushPromise(request: Request, streamId: StreamId, promisedStreamId: StreamId)

  /** Errors handed to an exchange's response future. */
  datatype FutureError =
    | HeaderConversionError(streamId: StreamId)  // "Error while setting http headers"
    | StreamResetByPeer(streamId: StreamId)      // "HTTP/2 stream <id> reset by the remote peer"

  /** Exceptions that escape a handler method. */
  datatype Fault =
    | MissingResponse(streamId: StreamId)          // a DATA frame before any HEADERS: null response
    | PromisedRequestConversion(streamId: StreamId) // the promised request could not be built

  /** How a handler call ends: it returns a value or throws. */
  datatype Outcome<+T> = Returned(value: T) | Threw(fault: Fault)

  /** The library calls whose internals are not part of this model: status parsing
      (HttpConversionUtil.parseStatus, None when it throws), header translation
      (HttpConversionUtil.addHttp2ToHttpHeaders with the stream id, the header block
      and the isTrailer flag) and request reconstruction for a push promise
      (Util.createHttpRequestFromHttp2Headers, None when it throws). The step
      functions are defined for every choice of these three functions, and each
      lemma holds for every choice that meets its own preconditions. */
  datatype Conversions = Conversions(
    parseStatus: Option<string> -> Option<int>,
    toHttpHeaders: (StreamId, Http2Headers, bool) -> Conversion,
    toRequest: (Http2Headers, StreamId) -> Option<Request>)

  /** The outbound message holder of one exchange: its primary response (absent
      until the first HEADERS), the pushed responses keyed by promised stream id,
      the push promises in arrival order, and the errors its response future has
      been notified with, in order. */
  datatype OutboundMsgHolder = OutboundMsgHolder(
    response: Option<Response>,
    pushResponses: map<StreamId, Response>,
    promises: seq<PushPromise>,
    futureErrors: seq<FutureError>)

  /** The listener callbacks the handler makes. */
  datatype ListenerEvent =
    | DataFrame(streamId: StreamId, endOfStream: bool)
    | HeadersFrame(streamId: StreamId, endStream: bool)
    | PushPromiseFrame(streamId: StreamId, endOfStream: bool)  // always given false
    | StreamInit(streamId: StreamId)

  datatype ListenerCall = ListenerCall(listener: ListenerId, event: ListenerEvent)

  /** The state of one HTTP/2 client channel that the inbound handler reads and
      changes: the in-flight and promised stream maps, the holders they point to,
      the ordered data-event listeners, every listener call made so far, and
      whether the channel has been destroyed. */
  datatype ChannelState = ChannelState(
    inFlight: map<StreamId, HolderId>,
    promised: map<StreamId, HolderId>,
    holders: map<HolderId, OutboundMsgHolder>,
    listeners: seq<ListenerId>,
    log: seq<ListenerCall>,
    destroyed: bool)

  /** Every stream the channel tracks points at a holder that exists. */
  ghost predicate Valid(c: ChannelState) {
    && c.inFlight.Values <= c.holders.Keys
    && c.promised.Values <= c.holders.Keys
  }
}
