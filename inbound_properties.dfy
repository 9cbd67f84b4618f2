/** Properties of the inbound event steps: listener veto, holder lookup order,
    response assembly, stream-map bookkeeping, resets and push promises, and the
    bodies a run of interleaved events assembles. */
module InboundProperties {
  import opened Http2Types
  import opened InboundSpec

  // ---------------------------------------------------------------------------
  // Listener veto
  // ---------------------------------------------------------------------------

  /** The calls a consultation makes when listener `k` is the first to veto. */
  lemma VetoedConsultation(listeners: seq<ListenerId>, ev: ListenerEvent, ask: nat -> bool, k: nat)
    requires k < |listeners| && !ask(k)
    requires forall j :: 0 <= j < k ==> ask(j)
    ensures Consult(listeners, ev, ask) == Consultation(Calls(listeners, ev, k + 1), false)
  {
  }

  /** When listener `k` is the first to answer false, listeners after it are not
      called, nothing but the call log changes, and onDataRead reports the readable
      bytes plus padding as processed. The same holds for HEADERS and PUSH_PROMISE. */
  lemma VetoStopsProcessing(c: ChannelState, conv: Conversions, ask: nat -> bool, k: nat,
                            sid: StreamId, promisedSid: StreamId, data: Bytes, padding: int,
                            endOfStream: bool, headers: Http2Headers)
    requires Valid(c)
    requires k < |c.listeners| && !ask(k)
    requires forall j :: 0 <= j < k ==> ask(j)
    ensures DataReadStep(c, sid, data, padding, endOfStream, ask)
         == (c.(log := c.log + Calls(c.listeners, DataFrame(sid, endOfStream), k + 1)), Returned(|data| + padding))
    ensures HeadersReadStep(c, conv, sid, headers, endOfStream, ask)
         == c.(log := c.log + Calls(c.listeners, HeadersFrame(sid, endOfStream), k + 1))
    ensures PushPromiseStep(c, conv, sid, promisedSid, headers, ask)
         == (c.(log := c.log + Calls(c.listeners, PushPromiseFrame(sid, false), k + 1)), Returned(()))
  {
  }

  /** When every listener lets the event through, each is called once, in order. */
  lemma AllAcceptConsultation(listeners: seq<ListenerId>, ev: ListenerEvent, ask: nat -> bool)
    requires forall i :: 0 <= i < |listeners| ==> ask(i)
    ensures Consult(listeners, ev, ask) == Consultation(Calls(listeners, ev, |listeners|), true)
  {
  }

  // ---------------------------------------------------------------------------
  // Streams the channel does not track
  // ---------------------------------------------------------------------------

  /** A DATA or HEADERS frame for a stream in neither map changes nothing but the
      listener calls: DATA returns 0 (or the processed size if a listener vetoed). */
  lemma UntrackedStreamIgnored(c: ChannelState, conv: Conversions, sid: StreamId, data: Bytes, padding: int,
                               endOfStream: bool, headers: Http2Headers, ask: nat -> bool)
    requires Valid(c)
    requires sid !in c.inFlight && sid !in c.promised
    ensures var consult := Consult(c.listeners, DataFrame(sid, endOfStream), ask);
      DataReadStep(c, sid, data, padding, endOfStream, ask)
      == (c.(log := c.log + consult.calls), if consult.proceed then Returned(0) else Returned(|data| + padding))
    ensures HeadersReadStep(c, conv, sid, headers, endOfStream, ask)
         == c.(log := c.log + Consult(c.listeners, HeadersFrame(sid, endOfStream), ask).calls)
  {
  }

  // ---------------------------------------------------------------------------
  // DATA
  // ---------------------------------------------------------------------------

  /** The chunk a DATA frame contributes. */
  function DataChunk(data: Bytes, endOfStream: bool): Chunk {
    if endOfStream then LastContent(data, []) else Content(data)
  }

  /** DATA on a tracked stream whose response exists appends exactly one chunk to
      that response (the primary one, or the push response of that stream), the
      last-content chunk on end of stream; only then is the matching map entry
      removed — in-flight on the primary path, promised on the push path. Every
      other holder, slot and field is left as it was. */
  lemma DataAppendsOneChunk(c: ChannelState, sid: StreamId, data: Bytes, padding: int,
                            endOfStream: bool, ask: nat -> bool, route: Route, resp: Response)
    requires Valid(c)
    requires forall i :: 0 <= i < |c.listeners| ==> ask(i)
    requires Lookup(c, sid) == Some(route)
    requires ResponseOf(c.holders[route.holder], sid, route.isServerPush) == Some(resp)
    ensures var (r, out) := DataReadStep(c, sid, data, padding, endOfStream, ask);
      && out == Returned(|data| + padding)
      && r.log == c.log + Calls(c.listeners, DataFrame(sid, endOfStream), |c.listeners|)
      && r.holders.Keys == c.holders.Keys
      && ResponseOf(r.holders[route.holder], sid, route.isServerPush)
         == Some(resp.(body := resp.body + [DataChunk(data, endOfStream)]))
      && r.inFlight == (if endOfStream && !route.isServerPush then c.inFlight - {sid} else c.inFlight)
      && r.promised == (if endOfStream && route.isServerPush then c.promised - {sid} else c.promised)
      && (forall g :: g in c.holders && g != route.holder ==> r.holders[g] == c.holders[g])
      && r.holders[route.holder].promises == c.holders[route.holder].promises
      && r.holders[route.holder].futureErrors == c.holders[route.holder].futureErrors
      && (route.isServerPush ==> r.holders[route.holder].response == c.holders[route.holder].response)
      && (!route.isServerPush ==> r.holders[route.holder].pushResponses == c.holders[route.holder].pushResponses)
      && (forall t :: t != sid ==> ResponseOf(r.holders[route.holder], t, true) == ResponseOf(c.holders[route.holder], t, true))
      && r.listeners == c.listeners && r.destroyed == c.destroyed
  {
  }

  /** A DATA frame that arrives before the stream's HEADERS finds no response: the
      handler throws and nothing but the listener calls has changed. */
  lemma DataBeforeHeadersThrows(c: ChannelState, sid: StreamId, data: Bytes, padding: int, endOfStream: bool,
                                ask: nat -> bool, route: Route)
    requires Valid(c)
    requires forall i :: 0 <= i < |c.listeners| ==> ask(i)
    requires Lookup(c, sid) == Some(route)
    requires ResponseOf(c.holders[route.holder], sid, route.isServerPush).None?
    ensures DataReadStep(c, sid, data, padding, endOfStream, ask)
         == (c.(log := c.log + Calls(c.listeners, DataFrame(sid, endOfStream), |c.listeners|)), Threw(MissingResponse(sid)))
  {
  }

  // ---------------------------------------------------------------------------
  // HEADERS and trailers
  // ---------------------------------------------------------------------------

  /** The trailer chunk a HEADERS frame with endStream appends. */
  function TrailerChunk(conv: Conversions, sid: StreamId, headers: Http2Headers): Chunk {
    LastContent([], conv.toHttpHeaders(sid, headers, true).added)
  }

  /** The errors the trailer translation reports to the holder's future. */
  function TrailerErrors(conv: Conversions, sid: StreamId, headers: Http2Headers): seq<FutureError> {
    if conv.toHttpHeaders(sid, headers, true).failed then [HeaderConversionError(sid)] else []
  }

  /** onTrailersRead: exactly one empty last chunk carrying the translated
      trailers is appended to the route's response, even when the translation
      failed, in which case the holder's future is notified once. The stream
      leaves the in-flight map and nothing else changes. */
  lemma TrailersAppendLastChunk(c: ChannelState, conv: Conversions, sid: StreamId, headers: Http2Headers,
                                route: Route, resp: Response)
    requires Valid(c) && route.holder in c.holders
    requires ResponseOf(c.holders[route.holder], sid, route.isServerPush) == Some(resp)
    ensures var r := TrailersReadStep(c, conv, sid, headers, route, resp);
      var h := c.holders[route.holder];
      && r.holders.Keys == c.holders.Keys
      && ResponseOf(r.holders[route.holder], sid, route.isServerPush)
         == Some(resp.(body := resp.body + [TrailerChunk(conv, sid, headers)]))
      && r.holders[route.holder].futureErrors == h.futureErrors + TrailerErrors(conv, sid, headers)
      && r.holders[route.holder].promises == h.promises
      && (route.isServerPush ==> r.holders[route.holder].response == h.response)
      && (!route.isServerPush ==> r.holders[route.holder].pushResponses == h.pushResponses)
      && (forall t :: t != sid ==> ResponseOf(r.holders[route.holder], t, true) == ResponseOf(h, t, true))
      && (forall g :: g in c.holders && g != route.holder ==> r.holders[g] == c.holders[g])
      && r.inFlight == c.inFlight - {sid}
      && r == c.(holders := r.holders, inFlight := r.inFlight)
  {
  }

  /** HEADERS on a tracked stream: the stream's response is created from the
      headers only if it does not exist yet, and an existing response keeps its
      status, headers and content; with endStream exactly one trailer-bearing
      last chunk is appended, even when the translation of the trailers failed,
      in which case the holder's future is notified. With endStream the stream
      leaves the in-flight map; the promised map is never touched, so a pushed
      stream that ends with HEADERS stays in it. */
  lemma HeadersAssembleResponse(c: ChannelState, conv: Conversions, sid: StreamId,
                                headers: Http2Headers, endStream: bool, ask: nat -> bool,
                                route: Route)
    requires Valid(c)
    requires forall i :: 0 <= i < |c.listeners| ==> ask(i)
    requires Lookup(c, sid) == Some(route)
    ensures var r := HeadersReadStep(c, conv, sid, headers, endStream, ask);
      var h := c.holders[route.holder];
      var existing := ResponseOf(h, sid, route.isServerPush);
      var created := if existing.Some? then existing.value else SetupResponse(conv, sid, headers).0;
      var setupErrors := if existing.Some? then [] else SetupResponse(conv, sid, headers).1;
      && r.log == c.log + Calls(c.listeners, HeadersFrame(sid, endStream), |c.listeners|)
      && r.holders.Keys == c.holders.Keys
      && ResponseOf(r.holders[route.holder], sid, route.isServerPush)
         == Some(if endStream then created.(body := created.body + [TrailerChunk(conv, sid, headers)]) else created)
      && r.holders[route.holder].futureErrors
         == h.futureErrors + setupErrors + (if endStream then TrailerErrors(conv, sid, headers) else [])
      && r.holders[route.holder].promises == h.promises
      && (route.isServerPush ==> r.holders[route.holder].response == h.response)
      && (forall g :: g in c.holders && g != route.holder ==> r.holders[g] == c.holders[g])
      && r.inFlight == (if endStream then c.inFlight - {sid} else c.inFlight)
      && r.promised == c.promised
      && r.listeners == c.listeners && r.destroyed == c.destroyed
  {
    var h := c.holders[route.holder];
    var (resp, h1) := GetOrSetupResponse(conv, h, sid, headers, route.isServerPush);
    var c2 := c.(log := c.log + Calls(c.listeners, HeadersFrame(sid, endStream), |c.listeners|),
                 holders := c.holders[route.holder := h1]);
    HeadersTrackedUnfold(c, conv, sid, headers, endStream, ask, route);
    var r := HeadersReadStep(c, conv, sid, headers, endStream, ask);
    if endStream {
      assert r == TrailersReadStep(c2, conv, sid, headers, route, resp);
      TrailersAppendLastChunk(c2, conv, sid, headers, route, resp);
    } else {
      assert r == c2;
    }
  }

  /** HEADERS on a tracked stream, every listener accepting: the response is got
      or set up, and with endStream onTrailersRead follows. */
  lemma HeadersTrackedUnfold(c: ChannelState, conv: Conversions, sid: StreamId, headers: Http2Headers,
                             endStream: bool, ask: nat -> bool, route: Route)
    requires Valid(c)
    requires forall i :: 0 <= i < |c.listeners| ==> ask(i)
    requires Lookup(c, sid) == Some(route)
    ensures var (resp, h1) := GetOrSetupResponse(conv, c.holders[route.holder], sid, headers, route.isServerPush);
      var c2 := c.(log := c.log + Calls(c.listeners, HeadersFrame(sid, endStream), |c.listeners|),
                   holders := c.holders[route.holder := h1]);
      HeadersReadStep(c, conv, sid, headers, endStream, ask)
      == if endStream then TrailersReadStep(c2, conv, sid, headers, route, resp) else c2
  {
    AllAcceptConsultation(c.listeners, HeadersFrame(sid, endStream), ask);
  }

  /** HEADERS on a tracked stream touches no other response slot of its holder:
      the primary path keeps every push response, and the push path keeps the
      push responses of other promised streams. */
  lemma HeadersKeepOtherSlots(c: ChannelState, conv: Conversions, sid: StreamId,
                              headers: Http2Headers, endStream: bool, ask: nat -> bool, route: Route)
    requires Valid(c)
    requires Lookup(c, sid) == Some(route)
    ensures var r := HeadersReadStep(c, conv, sid, headers, endStream, ask);
      var h := c.holders[route.holder];
      && route.holder in r.holders
      && (!route.isServerPush ==> r.holders[route.holder].pushResponses == h.pushResponses)
      && (forall t :: t != sid ==> ResponseOf(r.holders[route.holder], t, true) == ResponseOf(h, t, true))
  {
  }

  /** A second HEADERS frame never replaces a response: its status, headers and
      recorded status property stay those of the first. */
  lemma HeadersNeverReplaceResponse(c: ChannelState, conv: Conversions, sid: StreamId,
                                    headers: Http2Headers, endStream: bool, ask: nat -> bool,
                                    route: Route, resp: Response)
    requires Valid(c)
    requires forall i :: 0 <= i < |c.listeners| ==> ask(i)
    requires Lookup(c, sid) == Some(route)
    requires ResponseOf(c.holders[route.holder], sid, route.isServerPush) == Some(resp)
    ensures var r := HeadersReadStep(c, conv, sid, headers, endStream, ask);
      var now := ResponseOf(r.holders[route.holder], sid, route.isServerPush);
      && now.Some?
      && now.value.status == resp.status
      && now.value.headers == resp.headers
      && now.value.statusCodeProperty == resp.statusCodeProperty
      && now.value.body[..|resp.body|] == resp.body
  {
  }

  /** The pushed stream that ends with a HEADERS frame stays mapped in the
      promised map: onTrailersRead removes the stream id from the in-flight map
      only, where a pushed stream is never found. */
  lemma PushedStreamEndedByHeadersStaysPromised(c: ChannelState, conv: Conversions, sid: StreamId,
                                                headers: Http2Headers, ask: nat -> bool)
    requires Valid(c)
    requires forall i :: 0 <= i < |c.listeners| ==> ask(i)
    requires sid !in c.inFlight && sid in c.promised
    ensures var r := HeadersReadStep(c, conv, sid, headers, true, ask);
      sid in r.promised && r.promised[sid] == c.promised[sid] && r.inFlight == c.inFlight
  {
  }

  // ---------------------------------------------------------------------------
  // RST_STREAM
  // ---------------------------------------------------------------------------

  /** RST_STREAM looks only in the in-flight map. A holder found there gets one
      StreamResetByPeer error on its future and nothing else changes; a stream
      not in flight (even a promised one) leaves the channel as it was. Neither
      map changes either way. */
  lemma RstStreamNotifiesInFlightOnly(c: ChannelState, sid: StreamId)
    requires Valid(c)
    ensures var r := RstStreamStep(c, sid);
      && r.inFlight == c.inFlight && r.promised == c.promised && r.log == c.log
      && r.listeners == c.listeners && r.destroyed == c.destroyed
      && r.holders.Keys == c.holders.Keys
      && (sid !in c.inFlight ==> r == c)
      && (sid in c.inFlight ==>
            var hid := c.inFlight[sid];
            && r.holders[hid] == c.holders[hid].(futureErrors := c.holders[hid].futureErrors + [StreamResetByPeer(sid)])
            && forall g :: g in c.holders && g != hid ==> r.holders[g] == c.holders[g])
  {
  }

  /** A reset that arrives after the primary stream's last DATA frame has no
      effect: the stream already left the in-flight map. */
  lemma ResetAfterEndOfStreamIsNoOp(c: ChannelState, sid: StreamId, data: Bytes, padding: int,
                                    ask: nat -> bool, resp: Response)
    requires Valid(c)
    requires forall i :: 0 <= i < |c.listeners| ==> ask(i)
    requires sid in c.inFlight && c.holders[c.inFlight[sid]].response == Some(resp)
    ensures var after := DataReadStep(c, sid, data, padding, true, ask).0;
      RstStreamStep(after, sid) == after
  {
  }

  // ---------------------------------------------------------------------------
  // PUSH_PROMISE
  // ---------------------------------------------------------------------------

  /** A PUSH_PROMISE whose originating stream is not in flight changes nothing but
      the listener calls. */
  lemma PushPromiseFromUnknownStreamDropped(c: ChannelState, conv: Conversions, sid: StreamId,
                                            promisedSid: StreamId, headers: Http2Headers, ask: nat -> bool)
    requires Valid(c)
    requires sid !in c.inFlight
    ensures PushPromiseStep(c, conv, sid, promisedSid, headers, ask)
         == (c.(log := c.log + Consult(c.listeners, PushPromiseFrame(sid, false), ask).calls), Returned(()))
  {
  }

  /** A PUSH_PROMISE on an in-flight stream maps the promised stream to the same
      holder, tells every listener the promised stream started (after the
      PUSH_PROMISE calls), and appends exactly one promise carrying both stream
      ids to that holder; nothing else changes. If the promised request cannot be
      rebuilt, the mapping and the listener calls still happen but no promise is
      added. */
  lemma PushPromiseRegisters(c: ChannelState, conv: Conversions, sid: StreamId,
                             promisedSid: StreamId, headers: Http2Headers, ask: nat -> bool)
    requires Valid(c)
    requires forall i :: 0 <= i < |c.listeners| ==> ask(i)
    requires sid in c.inFlight
    ensures var (r, out) := PushPromiseStep(c, conv, sid, promisedSid, headers, ask);
      var hid := c.inFlight[sid];
      var h := c.holders[hid];
      && r.promised == c.promised[promisedSid := hid]
      && r.inFlight == c.inFlight
      && r.log == c.log + Calls(c.listeners, PushPromiseFrame(sid, false), |c.listeners|)
                        + Calls(c.listeners, StreamInit(promisedSid), |c.listeners|)
      && r.listeners == c.listeners && r.destroyed == c.destroyed
      && r.holders.Keys == c.holders.Keys
      && (forall g :: g in c.holders && g != hid ==> r.holders[g] == c.holders[g])
      && (match conv.toRequest(headers, sid)
          case Some(request) =>
            out == Returned(()) && r.holders[hid] == h.(promises := h.promises + [PushPromise(request, sid, promisedSid)])
          case None =>
            out == Threw(PromisedRequestConversion(sid)) && r.holders[hid] == h)
  {
  }

  // ---------------------------------------------------------------------------
  // A run of interleaved events
  // ---------------------------------------------------------------------------

  /** One inbound event as the connection delivers it, with the answers of the
      data-event listeners for it (`ask(i)` is the i-th listener's answer). */
  datatype Event =
    | DataEvent(streamId: StreamId, data: Bytes, padding: int, endOfStream: bool, ask: nat -> bool)
    | HeadersEvent(streamId: StreamId, headers: Http2Headers, endStream: bool, ask: nat -> bool)
    | RstStreamEvent(streamId: StreamId)
    | PushPromiseEvent(streamId: StreamId, promisedStreamId: StreamId, headers: Http2Headers, ask: nat -> bool)
    | GoAwayEvent

  /** Every listener lets the event through. */
  predicate Accepts(listeners: seq<ListenerId>, ask: nat -> bool) {
    forall i :: 0 <= i < |listeners| ==> ask(i)
  }

  /** `e` is a DATA or HEADERS frame on stream `t`: the only events that append to
      a response or take a stream out of a map. */
  predicate Targets(e: Event, t: StreamId) {
    (e.DataEvent? || e.HeadersEvent?) && e.streamId == t
  }

  /** `e` is a PUSH_PROMISE that promises stream `t`. */
  predicate Promises(e: Event, t: StreamId) {
    e.PushPromiseEvent? && e.promisedStreamId == t
  }

  /** The holder whose primary response `e` may change: the one its stream is in
      flight on. */
  function PrimaryTarget(c: ChannelState, e: Event): (r: Option<HolderId>)
    ensures r.Some? <==> (e.DataEvent? || e.HeadersEvent?) && e.streamId in c.inFlight
    ensures r.Some? ==> r.value == c.inFlight[e.streamId]
  {
    if (e.DataEvent? || e.HeadersEvent?) && e.streamId in c.inFlight then Some(c.inFlight[e.streamId]) else None
  }

  /** The handler method the event is dispatched to; results other than the new
      channel state are dropped. */
  function Step(c: ChannelState, conv: Conversions, e: Event): (r: ChannelState)
    requires Valid(c)
    ensures Valid(r)
  {
    match e
    case DataEvent(sid, data, padding, endOfStream, ask) => DataReadStep(c, sid, data, padding, endOfStream, ask).0
    case HeadersEvent(sid, headers, endStream, ask) => HeadersReadStep(c, conv, sid, headers, endStream, ask)
    case RstStreamEvent(sid) => RstStreamStep(c, sid)
    case PushPromiseEvent(sid, promisedSid, headers, ask) => PushPromiseStep(c, conv, sid, promisedSid, headers, ask).0
    case GoAwayEvent => GoAwayStep(c)
  }

  /** The channel after a sequence of events, on any streams, in arrival order. */
  function Run(c: ChannelState, conv: Conversions, events: seq<Event>): (r: ChannelState)
    requires Valid(c)
    ensures Valid(r)
    decreases |events|
  {
    if events == [] then c else Run(Step(c, conv, events[0]), conv, events[1..])
  }

  /** What one event `e` may change, from `c` to `r`, seen from holder `g` and
      stream `t`. The holder set and the listeners stay. The in-flight map only
      loses entries, and `t` leaves it only when a DATA or HEADERS frame targets
      `t`. `t` leaves the promised map only then too, and enters it only when a
      PUSH_PROMISE promises it. `g`'s primary response changes only when the
      targeted stream is in flight on `g`, and its push response for `t` only
      when `t` is targeted and promised on `g`. A vetoed event changes nothing
      but the listener calls. */
  ghost predicate StepKeepsFrame(c: ChannelState, e: Event, r: ChannelState, g: HolderId, t: StreamId)
    requires g in c.holders
  {
    && r.holders.Keys == c.holders.Keys
    && r.listeners == c.listeners
    && (forall s :: s in r.inFlight ==> s in c.inFlight && r.inFlight[s] == c.inFlight[s])
    && (t in c.inFlight && !Targets(e, t) ==> t in r.inFlight)
    && (t in c.promised && !Targets(e, t) && !Promises(e, t) ==> t in r.promised && r.promised[t] == c.promised[t])
    && (t !in c.promised && !Promises(e, t) ==> t !in r.promised)
    && (PrimaryTarget(c, e) != Some(g) ==> r.holders[g].response == c.holders[g].response)
    && (!(Targets(e, t) && Lookup(c, t) == Some(Route(g, true))) ==>
          ResponseOf(r.holders[g], t, true) == ResponseOf(c.holders[g], t, true))
    && ((e.DataEvent? || e.HeadersEvent? || e.PushPromiseEvent?) && !Accepts(c.listeners, e.ask) ==>
          r.(log := c.log) == c)
  }

  lemma DataStepFrame(c: ChannelState, sid: StreamId, data: Bytes, padding: int, endOfStream: bool, ask: nat -> bool,
                      g: HolderId, t: StreamId)
    requires Valid(c) && g in c.holders
    ensures StepKeepsFrame(c, DataEvent(sid, data, padding, endOfStream, ask),
                           DataReadStep(c, sid, data, padding, endOfStream, ask).0, g, t)
  {
    var consult := Consult(c.listeners, DataFrame(sid, endOfStream), ask);
    if consult.proceed && Lookup(c, sid).Some? {
      var route := Lookup(c, sid).value;
      if ResponseOf(c.holders[route.holder], sid, route.isServerPush).Some? {
        var resp := ResponseOf(c.holders[route.holder], sid, route.isServerPush).value;
        DataAppendsOneChunk(c, sid, data, padding, endOfStream, ask, route, resp);
      }
    }
  }

  lemma HeadersStepFrame(c: ChannelState, conv: Conversions, sid: StreamId, headers: Http2Headers, endStream: bool,
                         ask: nat -> bool, g: HolderId, t: StreamId)
    requires Valid(c) && g in c.holders
    ensures StepKeepsFrame(c, HeadersEvent(sid, headers, endStream, ask),
                           HeadersReadStep(c, conv, sid, headers, endStream, ask), g, t)
  {
    var r := HeadersReadStep(c, conv, sid, headers, endStream, ask);
    if !Accepts(c.listeners, ask) || Lookup(c, sid).None? {
      assert r == c.(log := r.log);
    } else {
      HeadersTrackedFrame(c, conv, sid, headers, endStream, ask, Lookup(c, sid).value, g, t);
    }
  }

  lemma HeadersTrackedFrame(c: ChannelState, conv: Conversions, sid: StreamId, headers: Http2Headers, endStream: bool,
                            ask: nat -> bool, route: Route, g: HolderId, t: StreamId)
    requires Valid(c) && g in c.holders
    requires Accepts(c.listeners, ask) && Lookup(c, sid) == Some(route)
    ensures StepKeepsFrame(c, HeadersEvent(sid, headers, endStream, ask),
                           HeadersReadStep(c, conv, sid, headers, endStream, ask), g, t)
  {
    HeadersAssembleResponse(c, conv, sid, headers, endStream, ask, route);
    HeadersKeepOtherSlots(c, conv, sid, headers, endStream, ask, route);
  }

  lemma RstStreamStepFrame(c: ChannelState, sid: StreamId, g: HolderId, t: StreamId)
    requires Valid(c) && g in c.holders
    ensures StepKeepsFrame(c, RstStreamEvent(sid), RstStreamStep(c, sid), g, t)
  {
  }

  lemma PushPromiseStepFrame(c: ChannelState, conv: Conversions, sid: StreamId, promisedSid: StreamId,
                             headers: Http2Headers, ask: nat -> bool, g: HolderId, t: StreamId)
    requires Valid(c) && g in c.holders
    ensures StepKeepsFrame(c, PushPromiseEvent(sid, promisedSid, headers, ask),
                           PushPromiseStep(c, conv, sid, promisedSid, headers, ask).0, g, t)
  {
  }

  /** Every event keeps the frame StepKeepsFrame describes, for every holder and stream. */
  lemma StepFrame(c: ChannelState, conv: Conversions, e: Event, g: HolderId, t: StreamId)
    requires Valid(c) && g in c.holders
    ensures StepKeepsFrame(c, e, Step(c, conv, e), g, t)
  {
    match e
    case DataEvent(sid, data, padding, endOfStream, ask) =>
      DataStepFrame(c, sid, data, padding, endOfStream, ask, g, t);
    case HeadersEvent(sid, headers, endStream, ask) =>
      HeadersStepFrame(c, conv, sid, headers, endStream, ask, g, t);
    case RstStreamEvent(sid) =>
      RstStreamStepFrame(c, sid, g, t);
    case PushPromiseEvent(sid, promisedSid, headers, ask) =>
      PushPromiseStepFrame(c, conv, sid, promisedSid, headers, ask, g, t);
    case GoAwayEvent =>
  }

  /** The chunks event `e` appends to stream `t`'s response when `t` is tracked
      and its response exists: an accepted DATA frame on `t` appends its bytes
      (the last-content chunk on end of stream), an accepted final HEADERS frame
      on `t` appends its trailer chunk, and every other event appends nothing. */
  function OwnChunks(conv: Conversions, listeners: seq<ListenerId>, e: Event, t: StreamId): (r: seq<Chunk>)
    ensures |r| <= 1
    ensures r != [] ==> Targets(e, t) && Accepts(listeners, e.ask)
  {
    if !Targets(e, t) || !Accepts(listeners, e.ask) then []
    else match e
      case DataEvent(_, data, _, endOfStream, _) => [DataChunk(data, endOfStream)]
      case HeadersEvent(_, headers, endStream, _) => if endStream then [TrailerChunk(conv, t, headers)] else []
  }

  /** `e` ends request stream `t`: an accepted DATA frame with end of stream or
      an accepted HEADERS frame with endStream, either of which takes `t` out of
      the in-flight map. */
  predicate EndsPrimary(listeners: seq<ListenerId>, e: Event, t: StreamId) {
    && Targets(e, t) && Accepts(listeners, e.ask)
    && (if e.DataEvent? then e.endOfStream else e.endStream)
  }

  /** `e` ends promised stream `t`: only an accepted DATA frame with end of stream
      takes `t` out of the promised map. */
  predicate EndsPush(listeners: seq<ListenerId>, e: Event, t: StreamId) {
    Targets(e, t) && Accepts(listeners, e.ask) && e.DataEvent? && e.endOfStream
  }

  /** The chunks request stream `sid`'s own frames append to its primary
      response, in arrival order, up to the event that ends it; later frames on
      it are dropped. */
  function PrimaryChunks(conv: Conversions, listeners: seq<ListenerId>, events: seq<Event>, sid: StreamId): seq<Chunk>
    decreases |events|
  {
    if events == [] then []
    else if EndsPrimary(listeners, events[0], sid) then OwnChunks(conv, listeners, events[0], sid)
    else OwnChunks(conv, listeners, events[0], sid) + PrimaryChunks(conv, listeners, events[1..], sid)
  }

  /** The chunks promised stream `p`'s own frames append to its push response, in
      arrival order, up to its final DATA frame. A final HEADERS frame appends
      its trailer chunk but leaves the stream promised, so later frames on it
      still append. */
  function PushChunks(conv: Conversions, listeners: seq<ListenerId>, events: seq<Event>, p: StreamId): seq<Chunk>
    decreases |events|
  {
    if events == [] then []
    else if EndsPush(listeners, events[0], p) then OwnChunks(conv, listeners, events[0], p)
    else OwnChunks(conv, listeners, events[0], p) + PushChunks(conv, listeners, events[1..], p)
  }

  /** No event of the run promises stream `p` (stream ids are never reused, by
      section 5.1.1 of RFC 7540). */
  predicate NeverPromised(events: seq<Event>, p: StreamId) {
    forall i :: 0 <= i < |events| ==> !Promises(events[i], p)
  }

  lemma NeverPromisedTail(events: seq<Event>, p: StreamId)
    requires events != [] && NeverPromised(events, p)
    ensures !Promises(events[0], p) && NeverPromised(events[1..], p)
  {
    forall i | 0 <= i < |events[1..]| ensures !Promises(events[1..][i], p) {
      assert events[1..][i] == events[i + 1];
    }
  }

  lemma AppendAssoc(a: seq<Chunk>, b: seq<Chunk>, c: seq<Chunk>)
    ensures a + b + c == a + (b + c)
  {
  }

  /** One event seen from a request stream `sid` whose response exists: the
      response gains exactly OwnChunks, and `sid` stays in flight on the same
      holder unless the event ends it. */
  lemma PrimaryStep(c: ChannelState, conv: Conversions, e: Event, sid: StreamId, resp: Response)
    requires Valid(c)
    requires sid in c.inFlight && c.holders[c.inFlight[sid]].response == Some(resp)
    requires forall t :: t in c.inFlight && t != sid ==> c.inFlight[t] != c.inFlight[sid]
    ensures var hid := c.inFlight[sid];
      var r := Step(c, conv, e);
      && hid in r.holders && r.listeners == c.listeners
      && r.holders[hid].response == Some(resp.(body := resp.body + OwnChunks(conv, c.listeners, e, sid)))
      && (EndsPrimary(c.listeners, e, sid) ==> sid !in r.inFlight)
      && (!EndsPrimary(c.listeners, e, sid) ==> sid in r.inFlight && r.inFlight[sid] == hid)
  {
    var hid := c.inFlight[sid];
    StepFrame(c, conv, e, hid, sid);
    if !Targets(e, sid) || !Accepts(c.listeners, e.ask) {
      assert resp.body + [] == resp.body;
    } else if e.DataEvent? {
      DataAppendsOneChunk(c, sid, e.data, e.padding, e.endOfStream, e.ask, Route(hid, false), resp);
    } else {
      HeadersAssembleResponse(c, conv, sid, e.headers, e.endStream, e.ask, Route(hid, false));
      assert resp.body + [] == resp.body;
    }
  }

  /** One event seen from a promised stream `p` whose push response exists and
      that the event does not promise again: the push response gains exactly
      OwnChunks, `p` stays out of the in-flight map, and it stays promised on the
      same holder unless the event ends it. */
  lemma PushStep(c: ChannelState, conv: Conversions, e: Event, p: StreamId, presp: Response)
    requires Valid(c)
    requires p !in c.inFlight && p in c.promised
    requires ResponseOf(c.holders[c.promised[p]], p, true) == Some(presp)
    requires !Promises(e, p)
    ensures var g := c.promised[p];
      var r := Step(c, conv, e);
      && g in r.holders && r.listeners == c.listeners
      && ResponseOf(r.holders[g], p, true) == Some(presp.(body := presp.body + OwnChunks(conv, c.listeners, e, p)))
      && p !in r.inFlight
      && (EndsPush(c.listeners, e, p) ==> p !in r.promised)
      && (!EndsPush(c.listeners, e, p) ==> p in r.promised && r.promised[p] == g)
  {
    var g := c.promised[p];
    StepFrame(c, conv, e, g, p);
    if !Targets(e, p) || !Accepts(c.listeners, e.ask) {
      assert presp.body + [] == presp.body;
    } else if e.DataEvent? {
      DataAppendsOneChunk(c, p, e.data, e.padding, e.endOfStream, e.ask, Route(g, true), presp);
    } else {
      HeadersAssembleResponse(c, conv, p, e.headers, e.endStream, e.ask, Route(g, true));
      assert presp.body + [] == presp.body;
    }
  }

  /** No event changes the primary response of a holder that no in-flight stream
      points at. */
  lemma {:induction false} RunKeepsUnmappedResponse(c: ChannelState, conv: Conversions, events: seq<Event>,
                                                    hid: HolderId)
    requires Valid(c) && hid in c.holders
    requires forall t :: t in c.inFlight ==> c.inFlight[t] != hid
    ensures var r := Run(c, conv, events);
      hid in r.holders && r.holders[hid].response == c.holders[hid].response
    decreases |events|
  {
    if events != [] {
      StepFrame(c, conv, events[0], hid, 0);
      RunKeepsUnmappedResponse(Step(c, conv, events[0]), conv, events[1..], hid);
    }
  }

  /** Interleaved events on one connection: whatever other streams receive in
      between, and whatever resets, push promises or GOAWAYs arrive, a request
      stream's response body becomes its old body followed by exactly the chunks
      of its own accepted DATA and final HEADERS frames, in arrival order, up to
      its end of stream. Status and headers are unchanged. Streams are in flight
      on distinct holders, as each request has its own. */
  lemma {:induction false} RunAssemblesPrimaryBody(c: ChannelState, conv: Conversions, events: seq<Event>,
                                                   sid: StreamId, resp: Response)
    requires Valid(c)
    requires sid in c.inFlight && c.holders[c.inFlight[sid]].response == Some(resp)
    requires forall t :: t in c.inFlight && t != sid ==> c.inFlight[t] != c.inFlight[sid]
    ensures var hid := c.inFlight[sid];
      var r := Run(c, conv, events);
      hid in r.holders && r.holders[hid].response == Some(resp.(body := resp.body + PrimaryChunks(conv, c.listeners, events, sid)))
    decreases |events|
  {
    var hid := c.inFlight[sid];
    if events == [] {
      assert resp.body + [] == resp.body;
    } else {
      var c' := Step(c, conv, events[0]);
      var own := OwnChunks(conv, c.listeners, events[0], sid);
      assert Run(c, conv, events) == Run(c', conv, events[1..]);
      PrimaryStep(c, conv, events[0], sid, resp);
      StepFrame(c, conv, events[0], hid, sid);
      assert forall t :: t in c'.inFlight && t != sid ==> c'.inFlight[t] != hid by {
        forall t | t in c'.inFlight && t != sid ensures c'.inFlight[t] != hid {
          assert t in c.inFlight && c'.inFlight[t] == c.inFlight[t];
        }
      }
      if EndsPrimary(c.listeners, events[0], sid) {
        assert PrimaryChunks(conv, c.listeners, events, sid) == own;
        RunKeepsUnmappedResponse(c', conv, events[1..], hid);
      } else {
        assert PrimaryChunks(conv, c.listeners, events, sid) == own + PrimaryChunks(conv, c.listeners, events[1..], sid);
        RunAssemblesPrimaryBody(c', conv, events[1..], sid, resp.(body := resp.body + own));
        AppendAssoc(resp.body, own, PrimaryChunks(conv, c.listeners, events[1..], sid));
      }
    }
  }

  /** No event changes the push response of a stream that is in neither map and
      that no event of the run promises. */
  lemma {:induction false} RunKeepsUntrackedPushResponse(c: ChannelState, conv: Conversions, events: seq<Event>,
                                                         g: HolderId, p: StreamId)
    requires Valid(c) && g in c.holders
    requires p !in c.inFlight && p !in c.promised
    requires NeverPromised(events, p)
    ensures var r := Run(c, conv, events);
      g in r.holders && ResponseOf(r.holders[g], p, true) == ResponseOf(c.holders[g], p, true)
    decreases |events|
  {
    if events != [] {
      NeverPromisedTail(events, p);
      StepFrame(c, conv, events[0], g, p);
      RunKeepsUntrackedPushResponse(Step(c, conv, events[0]), conv, events[1..], g, p);
    }
  }

  /** Interleaved events on one connection: a promised stream's push response body
      becomes its old body followed by exactly the chunks of its own accepted DATA
      and final HEADERS frames, in arrival order, up to its final DATA frame. The
      primary response of the same holder is covered by RunAssemblesPrimaryBody. */
  lemma {:induction false} RunAssemblesPushBody(c: ChannelState, conv: Conversions, events: seq<Event>,
                                                p: StreamId, presp: Response)
    requires Valid(c)
    requires p !in c.inFlight && p in c.promised
    requires ResponseOf(c.holders[c.promised[p]], p, true) == Some(presp)
    requires NeverPromised(events, p)
    ensures var g := c.promised[p];
      var r := Run(c, conv, events);
      g in r.holders && ResponseOf(r.holders[g], p, true) == Some(presp.(body := presp.body + PushChunks(conv, c.listeners, events, p)))
    decreases |events|
  {
    var g := c.promised[p];
    if events == [] {
      assert presp.body + [] == presp.body;
    } else {
      var c' := Step(c, conv, events[0]);
      var own := OwnChunks(conv, c.listeners, events[0], p);
      NeverPromisedTail(events, p);
      assert Run(c, conv, events) == Run(c', conv, events[1..]);
      PushStep(c, conv, events[0], p, presp);
      if EndsPush(c.listeners, events[0], p) {
        assert PushChunks(conv, c.listeners, events, p) == own;
        RunKeepsUntrackedPushResponse(c', conv, events[1..], g, p);
      } else {
        assert PushChunks(conv, c.listeners, events, p) == own + PushChunks(conv, c.listeners, events[1..], p);
        RunAssemblesPushBody(c', conv, events[1..], p, presp.(body := presp.body + own));
        AppendAssoc(presp.body, own, PushChunks(conv, c.listeners, events[1..], p));
      }
    }
  }

  // ---------------------------------------------------------------------------
  // Scenarios
  // ---------------------------------------------------------------------------

  /** A request in flight on stream `sid` receives HEADERS with `:status` 200, then
      DATA "ab", then DATA "cd" with end of stream: its response has status 200 and
      the two chunks in order, the last one final, and the stream is no longer in
      flight. */
  lemma ScenarioStatus200Body(c: ChannelState, conv: Conversions, sid: StreamId, ask: nat -> bool)
    requires Valid(c)
    requires forall i :: 0 <= i < |c.listeners| ==> ask(i)
    requires sid in c.inFlight && c.holders[c.inFlight[sid]].response.None?
    requires conv.parseStatus(Some("200")) == Some(200)
    ensures var hid := c.inFlight[sid];
      var s1 := HeadersReadStep(c, conv, sid, [(":status", "200")], false, ask);
      var s2 := DataReadStep(s1, sid, [97, 98], 0, false, ask).0;
      var s3 := DataReadStep(s2, sid, [99, 100], 0, true, ask).0;
      && hid in s3.holders
      && s3.holders[hid].response
         == Some(Response(200, conv.toHttpHeaders(sid, [(":status", "200")], false).added, 200,
                          [Content([97, 98]), LastContent([99, 100], [])]))
      && sid !in s3.inFlight
  {
    var hid := c.inFlight[sid];
    var headers := [(":status", "200")];
    assert StatusField(headers) == Some("200");
    HeadersAssembleResponse(c, conv, sid, headers, false, ask, Route(hid, false));
    var s1 := HeadersReadStep(c, conv, sid, headers, false, ask);
    var r1 := s1.holders[hid].response.value;
    DataAppendsOneChunk(s1, sid, [97, 98], 0, false, ask, Route(hid, false), r1);
    var s2 := DataReadStep(s1, sid, [97, 98], 0, false, ask).0;
    var r2 := s2.holders[hid].response.value;
    DataAppendsOneChunk(s2, sid, [99, 100], 0, true, ask, Route(hid, false), r2);
    var setup := SetupResponse(conv, sid, headers).0;
    assert setup.status == 200 && setup.statusCodeProperty == 200 && setup.body == [];
    assert r1 == setup;
    assert r2 == setup.(body := [Content([97, 98])]);
    assert [Content([97, 98])] + [LastContent([99, 100], [])] == [Content([97, 98]), LastContent([99, 100], [])];
  }

  /** A PUSH_PROMISE for stream 7 on the request's stream adds one promise for 7;
      then HEADERS, DATA and a final DATA on stream 7 build the push response stored
      under 7, and stream 7 leaves the promised map. The primary response is untouched. */
  lemma ScenarioServerPush(c: ChannelState, conv: Conversions, sid: StreamId,
                           headers: Http2Headers, pushHeaders: Http2Headers,
                           ask: nat -> bool, request: Request)
    requires Valid(c)
    requires forall i :: 0 <= i < |c.listeners| ==> ask(i)
    requires sid in c.inFlight && 7 !in c.inFlight && sid != 7
    requires 7 !in c.holders[c.inFlight[sid]].pushResponses
    requires conv.toRequest(headers, sid) == Some(request)
    ensures var hid := c.inFlight[sid];
      var h := c.holders[hid];
      var s1 := PushPromiseStep(c, conv, sid, 7, headers, ask).0;
      var s2 := HeadersReadStep(s1, conv, 7, pushHeaders, false, ask);
      var s3 := DataReadStep(s2, 7, [97], 0, false, ask).0;
      var s4 := DataReadStep(s3, 7, [98], 0, true, ask).0;
      var pushed := SetupResponse(conv, 7, pushHeaders).0;
      && s1.holders[hid].promises == h.promises + [PushPromise(request, sid, 7)]
      && hid in s4.holders
      && 7 in s4.holders[hid].pushResponses
      && s4.holders[hid].pushResponses[7] == pushed.(body := [Content([97]), LastContent([98], [])])
      && s4.holders[hid].response == h.response
      && 7 !in s4.promised
      && sid in s4.inFlight
  {
    var hid := c.inFlight[sid];
    var route := Route(hid, true);
    PushPromiseRegisters(c, conv, sid, 7, headers, ask);
    var s1 := PushPromiseStep(c, conv, sid, 7, headers, ask).0;
    assert Lookup(s1, 7) == Some(route);
    HeadersAssembleResponse(s1, conv, 7, pushHeaders, false, ask, route);
    var s2 := HeadersReadStep(s1, conv, 7, pushHeaders, false, ask);
    var pushed := SetupResponse(conv, 7, pushHeaders).0;
    assert ResponseOf(s2.holders[hid], 7, true) == Some(pushed);
    assert Lookup(s2, 7) == Some(route);
    DataAppendsOneChunk(s2, 7, [97], 0, false, ask, route, pushed);
    var s3 := DataReadStep(s2, 7, [97], 0, false, ask).0;
    var pushed' := pushed.(body := pushed.body + [Content([97])]);
    assert Lookup(s3, 7) == Some(route);
    DataAppendsOneChunk(s3, 7, [98], 0, true, ask, route, pushed');
    assert pushed'.body + [LastContent([98], [])] == [Content([97]), LastContent([98], [])];
  }
}
