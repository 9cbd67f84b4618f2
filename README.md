# HTTP/2 client inbound handler — a Dafny model

This project models `ClientInboundHandler`, the per-connection handler of an HTTP/2
client transport (WSO2 transport-http on Netty). The frame decoder hands it events that
are already decoded, one at a time:

- DATA (section 6.1 of RFC 7540)
- HEADERS and trailers (sections 6.2 and 8.1)
- RST_STREAM (section 6.4)
- PUSH_PROMISE (sections 6.6 and 8.2)
- GOAWAY (section 6.8)

For each event the handler does some of the following:

- asks the channel's data-event listeners in order, and any of them can stop default processing;
- finds the outbound message holder of the stream, first in the channel's in-flight map and then in its promised (server-push) map;
- builds the response: creates it once from the first HEADERS, appends DATA chunks in order, and appends a last chunk or a trailer chunk;
- removes the stream's map entry when the stream ends.

Files:

- `http2_types.dfy` (module `Http2Types`) holds the values. These are chunks, responses,
  push promises, future errors, the outbound message holder, and `ChannelState`. The last
  one is the channel's in-flight and promised maps, a heap of holders keyed by id, the
  listeners, the log of listener calls and the destroyed flag.
- `inbound_spec.dfy` (module `InboundSpec`) gives one step function per event. Each maps
  the channel state before the event to the state after it, plus the handler's return
  value or exception. The module also defines listener consultation, holder lookup and
  response creation with its 502 fallback.
- `client_inbound_handler.dfy` (module `ClientInbound`) is the imperative form. Class
  `Http2ClientChannel` holds the mutable maps and the holder heap. Class
  `ClientInboundHandler` has one method per handler method of the source. The listener
  loops are `for` loops with early return. Each method is proved to leave the channel
  exactly as the matching step function says.
- `inbound_properties.dfy` (module `InboundProperties`) proves the promised behaviour of
  the step functions: listener veto, untracked streams, one chunk per DATA frame,
  create-once HEADERS, the trailer bookkeeping, RST_STREAM and PUSH_PROMISE. It also
  proves what a run of interleaved events of all five kinds on many streams does to
  a request's body and to a pushed stream's body, and two end-to-end scenarios.

Three library calls are not part of this model: `HttpConversionUtil.parseStatus`,
`HttpConversionUtil.addHttp2ToHttpHeaders` and
`Util.createHttpRequestFromHttp2Headers`. They are the three function fields of the
`Conversions` datatype, and each one may fail. The step functions are defined for every
choice of them. Each lemma holds for every choice that meets its own preconditions. Only
the two scenarios constrain them: they fix how `"200"` parses and that the promised
request can be rebuilt. The listeners are also not modelled: the answer of the i-th listener
to an event is the oracle `ask(i)`, and each call made to a listener is recorded in
the channel's log.

Behaviour of the code worth noting:

- The RST_STREAM error names the stream only, not the peer's error code. It also leaves both maps as they are.
- A pushed stream that ends with a HEADERS frame is removed from the in-flight map, where it never is. So its promised entry stays in place (`PushedStreamEndedByHeadersStaysPromised`).
- `destroy()` is only a flag. The code of `Http2ClientChannel` is not part of this model, so the failing of pending exchanges is not modelled.

## Model

| member | source | states |
|---|---|---|
| InboundSpec.FirstVeto | components/org.wso2.transport.http.netty/src/main/java/org/wso2/transport/http/netty/sender/http2/ClientInboundHandler.java:66-70 | the position of the first listener that answers false (or the listener count): every listener before it answered true, and the one at it answered false |
| InboundSpec.Consult | components/org.wso2.transport.http.netty/src/main/java/org/wso2/transport/http/netty/sender/http2/ClientInboundHandler.java:66-70 | listeners are called in order, each with the event. Processing goes on iff every listener answers true. The calls stop right after the first false answer |
| InboundSpec.Lookup | components/org.wso2.transport.http.netty/src/main/java/org/wso2/transport/http/netty/sender/http2/ClientInboundHandler.java:72-83 | the in-flight map is tried first and the promised map only if it misses. The route is server-push iff the stream was found only in the promised map, and it is absent iff the stream is in neither map |
| InboundSpec.WithResponse | components/org.wso2.transport.http.netty/src/main/java/org/wso2/transport/http/netty/sender/http2/ClientInboundHandler.java:143 | storing a response (setResponse / addPushResponse) changes only that stream's slot. Promises, future errors and every other push response stay as they were |
| InboundSpec.Calls | components/org.wso2.transport.http.netty/src/main/java/org/wso2/transport/http/netty/sender/http2/ClientInboundHandler.java:66-70 | the calls made to the first n listeners: n of them, the i-th to listener i with the event |
| InboundSpec.ResponseOf | components/org.wso2.transport.http.netty/src/main/java/org/wso2/transport/http/netty/sender/http2/ClientInboundHandler.java:84-93 | the primary path reads the holder's response (getResponse); the push path reads the push response stored under the stream id, and finds none iff nothing is stored under it (getPushResponse) |
| InboundSpec.AddContent | components/org.wso2.transport.http.netty/src/main/java/org/wso2/transport/http/netty/sender/http2/ClientInboundHandler.java:87-98 | addHttpContent puts the chunk at the end of the body, keeping the earlier chunks, the status, the headers and the status property |
| InboundSpec.Notify | components/org.wso2.transport.http.netty/src/main/java/org/wso2/transport/http/netty/sender/http2/ClientInboundHandler.java:172-173 | notifyHttpListener appends exactly one error after the earlier ones and touches nothing else of the holder; also used at lines 193-194 and 265-266 |
| InboundSpec.StatusField | components/org.wso2.transport.http.netty/src/main/java/org/wso2/transport/http/netty/sender/http2/ClientInboundHandler.java:250 | `status()` is absent iff no `:status` field exists; otherwise it is the value of the first `:status` field |
| InboundSpec.ResponseStatus | components/org.wso2.transport.http.netty/src/main/java/org/wso2/transport/http/netty/sender/http2/ClientInboundHandler.java:250-256 | an unparseable `:status` gives 502 Bad Gateway; otherwise the parsed code |
| InboundSpec.SetupResponse | components/org.wso2.transport.http.netty/src/main/java/org/wso2/transport/http/netty/sender/http2/ClientInboundHandler.java:246-281 | a new response has no content and the parsed status, or 502 when parsing fails. Its HTTP_STATUS_CODE property equals its status and its headers are the translated ones. A failed translation adds exactly one HeaderConversionError for the future |
| InboundSpec.GetOrSetupResponse | components/org.wso2.transport.http.netty/src/main/java/org/wso2/transport/http/netty/sender/http2/ClientInboundHandler.java:137-157 | the response HEADERS works on is then stored in the route's slot. An existing response is kept as it is, holder unchanged. A missing one is the one setupResponseCarbonMessage builds, and its translation errors go to the future |
| InboundSpec.DataReadStep | components/org.wso2.transport.http.netty/src/main/java/org/wso2/transport/http/netty/sender/http2/ClientInboundHandler.java:58-102 | the DATA transition; every stream still tracked afterwards points at an existing holder |
| InboundSpec.TrailersReadStep | components/org.wso2.transport.http.netty/src/main/java/org/wso2/transport/http/netty/sender/http2/ClientInboundHandler.java:161-177 | the trailer transition, applied to the response the route's slot holds; every stream still tracked afterwards points at an existing holder |
| InboundSpec.HeadersReadStep | components/org.wso2.transport.http.netty/src/main/java/org/wso2/transport/http/netty/sender/http2/ClientInboundHandler.java:111-159 | the HEADERS transition; every stream still tracked afterwards points at an existing holder |
| InboundSpec.RstStreamStep | components/org.wso2.transport.http.netty/src/main/java/org/wso2/transport/http/netty/sender/http2/ClientInboundHandler.java:187-196 | the RST_STREAM transition; every stream still tracked afterwards points at an existing holder |
| InboundSpec.PushPromiseStep | components/org.wso2.transport.http.netty/src/main/java/org/wso2/transport/http/netty/sender/http2/ClientInboundHandler.java:198-225 | the PUSH_PROMISE transition; every stream still tracked afterwards points at an existing holder, the promised one included |
| InboundSpec.GoAwayStep | components/org.wso2.transport.http.netty/src/main/java/org/wso2/transport/http/netty/sender/http2/ClientInboundHandler.java:227-235 | GOAWAY, sent or received, marks the channel destroyed and changes nothing else |
| ClientInbound.Http2ClientChannel.GetInFlightMessage | components/org.wso2.transport.http.netty/src/main/java/org/wso2/transport/http/netty/sender/http2/ClientInboundHandler.java:72 | returns the holder iff the stream is in the in-flight map |
| ClientInbound.Http2ClientChannel.GetPromisedMessage | components/org.wso2.transport.http.netty/src/main/java/org/wso2/transport/http/netty/sender/http2/ClientInboundHandler.java:75 | returns the holder iff the stream is in the promised map |
| ClientInbound.Http2ClientChannel.PutPromisedMessage | components/org.wso2.transport.http.netty/src/main/java/org/wso2/transport/http/netty/sender/http2/ClientInboundHandler.java:217 | maps the promised stream to the holder; nothing else changes |
| ClientInbound.Http2ClientChannel.UpdateHolder | components/org.wso2.transport.http.netty/src/main/java/org/wso2/transport/http/netty/sender/http2/ClientInboundHandler.java:143 | a holder setter (addPushResponse, setResponse at line 153, addPromise at line 224) replaces exactly that holder; the maps and the other holders stay |
| ClientInbound.Http2ClientChannel.CallListener | components/org.wso2.transport.http.netty/src/main/java/org/wso2/transport/http/netty/sender/http2/ClientInboundHandler.java:66-70 | a listener callback is recorded at the end of the call log; nothing else changes (also lines 119-123, 205-209, 218-219) |
| ClientInbound.Http2ClientChannel.RemoveInFlightMessage | components/org.wso2.transport.http.netty/src/main/java/org/wso2/transport/http/netty/sender/http2/ClientInboundHandler.java:96 | removes exactly that key from the in-flight map |
| ClientInbound.Http2ClientChannel.RemovePromisedMessage | components/org.wso2.transport.http.netty/src/main/java/org/wso2/transport/http/netty/sender/http2/ClientInboundHandler.java:88 | removes exactly that key from the promised map |
| ClientInbound.Http2ClientChannel.Destroy | components/org.wso2.transport.http.netty/src/main/java/org/wso2/transport/http/netty/sender/http2/ClientInboundHandler.java:229 | sets the destroyed flag; nothing else changes |
| ClientInbound.ClientInboundHandler.ConsultListeners | components/org.wso2.transport.http.netty/src/main/java/org/wso2/transport/http/netty/sender/http2/ClientInboundHandler.java:66-70 | the for loop with early return appends to the call log exactly the calls Consult describes, and returns whether processing proceeds |
| ClientInbound.ClientInboundHandler.InitStreamOnListeners | components/org.wso2.transport.http.netty/src/main/java/org/wso2/transport/http/netty/sender/http2/ClientInboundHandler.java:218-219 | every listener, in order, receives onStreamInit for the promised stream |
| ClientInbound.ClientInboundHandler.OnDataRead | components/org.wso2.transport.http.netty/src/main/java/org/wso2/transport/http/netty/sender/http2/ClientInboundHandler.java:58-102 | the channel's new state and the return value (or exception) are those of DataReadStep |
| ClientInbound.ClientInboundHandler.OnHeadersReadWithPriority | components/org.wso2.transport.http.netty/src/main/java/org/wso2/transport/http/netty/sender/http2/ClientInboundHandler.java:104-109 | the priority overload behaves exactly as HeadersReadStep |
| ClientInbound.ClientInboundHandler.OnHeadersRead | components/org.wso2.transport.http.netty/src/main/java/org/wso2/transport/http/netty/sender/http2/ClientInboundHandler.java:111-159 | the channel's new state is that of HeadersReadStep |
| ClientInbound.ClientInboundHandler.OnTrailersRead | components/org.wso2.transport.http.netty/src/main/java/org/wso2/transport/http/netty/sender/http2/ClientInboundHandler.java:161-177 | the channel's new state is that of TrailersReadStep |
| ClientInbound.ClientInboundHandler.OnRstStreamRead | components/org.wso2.transport.http.netty/src/main/java/org/wso2/transport/http/netty/sender/http2/ClientInboundHandler.java:187-196 | the channel's new state is that of RstStreamStep |
| ClientInbound.ClientInboundHandler.OnPushPromiseRead | components/org.wso2.transport.http.netty/src/main/java/org/wso2/transport/http/netty/sender/http2/ClientInboundHandler.java:198-225 | the channel's new state and the outcome are those of PushPromiseStep |
| ClientInbound.ClientInboundHandler.OnGoAwaySent | components/org.wso2.transport.http.netty/src/main/java/org/wso2/transport/http/netty/sender/http2/ClientInboundHandler.java:227-230 | the channel is destroyed and nothing else changes |
| ClientInbound.ClientInboundHandler.OnGoAwayReceived | components/org.wso2.transport.http.netty/src/main/java/org/wso2/transport/http/netty/sender/http2/ClientInboundHandler.java:232-235 | the channel is destroyed and nothing else changes |
| ClientInbound.ClientInboundHandler.SetHttp2ClientChannel | components/org.wso2.transport.http.netty/src/main/java/org/wso2/transport/http/netty/sender/http2/ClientInboundHandler.java:242-244 | the handler now works on the given channel |
| InboundProperties.VetoedConsultation | components/org.wso2.transport.http.netty/src/main/java/org/wso2/transport/http/netty/sender/http2/ClientInboundHandler.java:66-70 | when listener k is the first to veto, exactly listeners 0..k are called and processing stops |
| InboundProperties.AllAcceptConsultation | components/org.wso2.transport.http.netty/src/main/java/org/wso2/transport/http/netty/sender/http2/ClientInboundHandler.java:66-70 | when every listener accepts, each is called once, in order, and processing proceeds |
| InboundProperties.VetoStopsProcessing | components/org.wso2.transport.http.netty/src/main/java/org/wso2/transport/http/netty/sender/http2/ClientInboundHandler.java:119-123 | after a veto by listener k, later listeners are not called and no map or holder changes. onDataRead returns readable bytes plus padding. The same holds for HEADERS and PUSH_PROMISE (lines 66-70, 205-209) |
| InboundProperties.UntrackedStreamIgnored | components/org.wso2.transport.http.netty/src/main/java/org/wso2/transport/http/netty/sender/http2/ClientInboundHandler.java:72-82 | DATA or HEADERS for a stream in neither map changes nothing but the listener calls, and DATA returns 0. HEADERS does the same at lines 125-135 |
| InboundProperties.DataAppendsOneChunk | components/org.wso2.transport.http.netty/src/main/java/org/wso2/transport/http/netty/sender/http2/ClientInboundHandler.java:84-101 | DATA on a tracked stream appends exactly one chunk to that stream's response, primary or push. On end of stream the chunk is last-content and only the matching map entry is removed: in-flight on the primary path, promised on the push path. Otherwise both maps are unchanged. Every other holder, slot and field is unchanged, and the return value is readable bytes plus padding |
| InboundProperties.DataBeforeHeadersThrows | components/org.wso2.transport.http.netty/src/main/java/org/wso2/transport/http/netty/sender/http2/ClientInboundHandler.java:93-98 | DATA before any HEADERS finds no response. The handler throws, and only the listener calls have changed |
| InboundProperties.HeadersAssembleResponse | components/org.wso2.transport.http.netty/src/main/java/org/wso2/transport/http/netty/sender/http2/ClientInboundHandler.java:138-158 | HEADERS creates the response only if none exists. With endStream it appends one trailer chunk, even when translation fails, and the future then gets one error per failed translation. endStream removes the stream from the in-flight map, and the promised map is never touched |
| InboundProperties.HeadersNeverReplaceResponse | components/org.wso2.transport.http.netty/src/main/java/org/wso2/transport/http/netty/sender/http2/ClientInboundHandler.java:149-154 | a second HEADERS keeps the existing response's status, headers, status property and content |
| InboundProperties.PushedStreamEndedByHeadersStaysPromised | components/org.wso2.transport.http.netty/src/main/java/org/wso2/transport/http/netty/sender/http2/ClientInboundHandler.java:145-147 | a pushed stream that ends with HEADERS stays in the promised map, with the same holder. onTrailersRead removes it from the in-flight map only (line 176) |
| InboundProperties.RstStreamNotifiesInFlightOnly | components/org.wso2.transport.http.netty/src/main/java/org/wso2/transport/http/netty/sender/http2/ClientInboundHandler.java:191-195 | RST_STREAM looks only at the in-flight map. A holder found there gets exactly one reset error and nothing else changes. Otherwise the channel is unchanged, and neither map ever changes |
| InboundProperties.ResetAfterEndOfStreamIsNoOp | components/org.wso2.transport.http.netty/src/main/java/org/wso2/transport/http/netty/sender/http2/ClientInboundHandler.java:94-96 | a reset after the primary stream's final DATA changes nothing, because the stream already left the in-flight map |
| InboundProperties.PushPromiseFromUnknownStreamDropped | components/org.wso2.transport.http.netty/src/main/java/org/wso2/transport/http/netty/sender/http2/ClientInboundHandler.java:211-216 | a PUSH_PROMISE whose originating stream is not in flight changes nothing but the listener calls |
| InboundProperties.PushPromiseRegisters | components/org.wso2.transport.http.netty/src/main/java/org/wso2/transport/http/netty/sender/http2/ClientInboundHandler.java:217-224 | the promised stream maps to the originating stream's holder, and every listener gets onStreamInit after the PUSH_PROMISE calls. The holder gains exactly one promise carrying both stream ids. If the request cannot be rebuilt, it throws and no promise is added |
| InboundProperties.TrailersAppendLastChunk | components/org.wso2.transport.http.netty/src/main/java/org/wso2/transport/http/netty/sender/http2/ClientInboundHandler.java:161-177 | onTrailersRead appends exactly one empty last chunk carrying the translated trailers to the route's response, even when translation fails, and the future then gets one error. The stream leaves the in-flight map; the promised map, the log and every other holder and slot stay |
| InboundProperties.HeadersKeepOtherSlots | components/org.wso2.transport.http.netty/src/main/java/org/wso2/transport/http/netty/sender/http2/ClientInboundHandler.java:137-158 | HEADERS touches no other response slot of its holder: the primary path keeps every push response, the push path keeps the other streams' push responses |
| InboundProperties.HeadersTrackedUnfold | components/org.wso2.transport.http.netty/src/main/java/org/wso2/transport/http/netty/sender/http2/ClientInboundHandler.java:137-158 | with every listener accepting, HEADERS on a tracked stream gets or sets up the response, then with endStream runs onTrailersRead on it |
| InboundProperties.Step | components/org.wso2.transport.http.netty/src/main/java/org/wso2/transport/http/netty/sender/http2/ClientInboundHandler.java:57-235 | dispatching an event to its handler keeps every tracked stream pointing at an existing holder |
| InboundProperties.Run | components/org.wso2.transport.http.netty/src/main/java/org/wso2/transport/http/netty/sender/http2/ClientInboundHandler.java:57-235 | a run of events, in arrival order, keeps every tracked stream pointing at an existing holder |
| InboundProperties.OwnChunks | components/org.wso2.transport.http.netty/src/main/java/org/wso2/transport/http/netty/sender/http2/ClientInboundHandler.java:84-177 | one event appends at most one chunk to a stream's response, and only an accepted DATA or HEADERS frame on that stream does |
| InboundProperties.StepFrame | components/org.wso2.transport.http.netty/src/main/java/org/wso2/transport/http/netty/sender/http2/ClientInboundHandler.java:57-235 | what any one event may change: the holder set and listeners stay, the in-flight map only shrinks and only by the targeted stream, the promised map changes only at the targeted or promised stream, and only the targeted stream's response slot changes. A vetoed event changes only the call log |
| InboundProperties.DataStepFrame | components/org.wso2.transport.http.netty/src/main/java/org/wso2/transport/http/netty/sender/http2/ClientInboundHandler.java:58-102 | the frame of StepFrame for DATA |
| InboundProperties.HeadersStepFrame | components/org.wso2.transport.http.netty/src/main/java/org/wso2/transport/http/netty/sender/http2/ClientInboundHandler.java:111-159 | the frame of StepFrame for HEADERS |
| InboundProperties.HeadersTrackedFrame | components/org.wso2.transport.http.netty/src/main/java/org/wso2/transport/http/netty/sender/http2/ClientInboundHandler.java:137-158 | the frame of StepFrame for HEADERS on a tracked stream, every listener accepting |
| InboundProperties.RstStreamStepFrame | components/org.wso2.transport.http.netty/src/main/java/org/wso2/transport/http/netty/sender/http2/ClientInboundHandler.java:187-196 | the frame of StepFrame for RST_STREAM |
| InboundProperties.PushPromiseStepFrame | components/org.wso2.transport.http.netty/src/main/java/org/wso2/transport/http/netty/sender/http2/ClientInboundHandler.java:198-225 | the frame of StepFrame for PUSH_PROMISE |
| InboundProperties.PrimaryStep | components/org.wso2.transport.http.netty/src/main/java/org/wso2/transport/http/netty/sender/http2/ClientInboundHandler.java:84-158 | one event seen from a request stream with a response: the response gains exactly that event's own chunks. The stream stays in flight on the same holder unless an accepted final DATA or HEADERS ends it |
| InboundProperties.PushStep | components/org.wso2.transport.http.netty/src/main/java/org/wso2/transport/http/netty/sender/http2/ClientInboundHandler.java:83-147 | one event seen from a promised stream with a push response: the push response gains exactly that event's own chunks. The stream stays promised on the same holder unless an accepted final DATA ends it; a final HEADERS does not |
| InboundProperties.RunKeepsUnmappedResponse | components/org.wso2.transport.http.netty/src/main/java/org/wso2/transport/http/netty/sender/http2/ClientInboundHandler.java:84-177 | no run of events changes the primary response of a holder that no in-flight stream points at |
| InboundProperties.RunAssemblesPrimaryBody | components/org.wso2.transport.http.netty/src/main/java/org/wso2/transport/http/netty/sender/http2/ClientInboundHandler.java:84-177 | events of every kind interleaved across streams leave a request's body as its old body plus exactly its own accepted DATA chunks and final trailer chunk, in arrival order, up to its end of stream |
| InboundProperties.RunKeepsUntrackedPushResponse | components/org.wso2.transport.http.netty/src/main/java/org/wso2/transport/http/netty/sender/http2/ClientInboundHandler.java:83-147 | no run of events changes the push response of a stream in neither map that the run never promises |
| InboundProperties.RunAssemblesPushBody | components/org.wso2.transport.http.netty/src/main/java/org/wso2/transport/http/netty/sender/http2/ClientInboundHandler.java:83-147 | events of every kind interleaved across streams leave a pushed stream's response body as its old body plus exactly its own accepted DATA chunks and trailer chunks, in arrival order, up to its final DATA frame |
| InboundProperties.ScenarioStatus200Body | components/org.wso2.transport.http.netty/src/main/java/org/wso2/transport/http/netty/sender/http2/ClientInboundHandler.java:111-158 | HEADERS(:status 200), DATA "ab", DATA "cd" with end of stream give a response with status 200 and body [ab, last cd], and the stream leaves the in-flight map |
| InboundProperties.ScenarioServerPush | components/org.wso2.transport.http.netty/src/main/java/org/wso2/transport/http/netty/sender/http2/ClientInboundHandler.java:198-225 | after PUSH_PROMISE(7), HEADERS, DATA and final DATA on stream 7, the holder has one promise for 7 and its push response 7 has both chunks. Stream 7 leaves the promised map and the primary response is untouched |

## Left out

- `onSettingsRead` (lines 179-185): it only passes the settings up the Netty pipeline.
- Logging, `ChannelHandlerContext`, and the response properties that copy the executor pool, the byte-buffer factory and the direction (lines 272-279).
- Netty `ByteBuf` reference counting (`retain`): a DATA payload is its readable bytes.
- The Java `int` sum `readableBytes + padding` is unbounded here; one frame's payload and padding cannot reach the `int` range.
- The internals of `parseStatus`, `addHttp2ToHttpHeaders` and `createHttpRequestFromHttp2Headers`: they are parameters (`Conversions`) whose failure is an explicit result.
- The listeners' own behaviour and state: their answers are an oracle per event. A call records the listener, the callback and the stream id and end flag it was given, not the context, headers or payload. `onPushPromiseRead` is always passed the literal `false` (line 206), and `PushPromiseFrame` records it. `onStreamInit` has no flag.
- `Http2ClientChannel`, `OutboundMsgHolder`, `HTTPCarbonMessage` and `HttpResponseFuture` are not part of this model. Their maps and fields are values that the channel reassigns. Holders live in an id-keyed heap, so an in-flight and a promised entry for one holder share it by id. Future notifications are recorded in order, and once-only resolution is not modelled.
- `Http2ClientChannel.destroy()`: only the destroyed flag. What destroy does to pending exchanges, the maps and the pool is not visible.
- The connection pool and its idle-timeout test: they are network and thread-pool integration with no logic of their own here.
- InboundProperties.Run: each handler's return value and exception are dropped, and the run goes on after a handler throws. What Netty does with an exception that escapes a handler is not modelled.
- InboundProperties.RunAssemblesPushBody: requires that no PUSH_PROMISE of the run promises the same stream again. Stream ids are never reused (section 5.1.1 of RFC 7540), and the handler does not check this itself.
- `Http2ClientChannel.PutInFlightMessage` comes from the outbound path, which is out of scope. It exists so that channel states can be built.
