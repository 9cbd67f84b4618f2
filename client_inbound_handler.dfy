/** The HTTP/2 client channel's mutable state and the inbound event handler that
    changes it, event by event. Each handler method is proved to leave the channel
    in exactly the state the matching step function of InboundSpec describes. */
module ClientInbound {
  import opened Http2Types
  import opened InboundSpec

  /** The per-connection state the handler works on: the in-flight and promised
      stream maps, the heap of outbound message holders they point into, the
      ordered data-event listeners and the calls made to them, and the
      destroyed flag that stands for Http2ClientChannel.destroy(). */
  class Http2ClientChannel {
    var inFlight: map<StreamId, HolderId>
    var promised: map<StreamId, HolderId>
    var holders: map<HolderId, OutboundMsgHolder>
    var dataEventListeners: seq<ListenerId>
    var listenerLog: seq<ListenerCall>
    var destroyed: bool

    /** The channel's state as a value. */
    function State(): ChannelState
      reads this
    {
      ChannelState(inFlight, promised, holders, dataEventListeners, listenerLog, destroyed)
    }

    ghost predicate Valid()
      reads this
    {
      Http2Types.Valid(State())
    }

    constructor (listeners: seq<ListenerId>)
      ensures Valid()
      ensures State() == ChannelState(map[], map[], map[], listeners, [], false)
    {
      inFlight, promised, holders := map[], map[], map[];
      dataEventListeners, listenerLog, destroyed := listeners, [], false;
    }

    /** Registers an outbound message on `sid` (the outbound path's side of the maps). */
    method PutInFlightMessage(sid: StreamId, hid: HolderId, holder: OutboundMsgHolder)
      requires Valid()
      modifies this
      ensures Valid()
      ensures State() == old(State()).(inFlight := old(inFlight)[sid := hid], holders := old(holders)[hid := holder])
    {
      holders := holders[hid := holder];
      inFlight := inFlight[sid := hid];
    }

    method GetInFlightMessage(sid: StreamId) returns (r: Option<HolderId>)
      ensures r.Some? <==> sid in inFlight
      ensures r.Some? ==> r.value == inFlight[sid]
    {
      r := if sid in inFlight then Some(inFlight[sid]) else None;
    }

    method GetPromisedMessage(sid: StreamId) returns (r: Option<HolderId>)
      ensures r.Some? <==> sid in promised
      ensures r.Some? ==> r.value == promised[sid]
    {
      r := if sid in promised then Some(promised[sid]) else None;
    }

    method PutPromisedMessage(sid: StreamId, hid: HolderId)
      requires Valid() && hid in holders
      modifies this
      ensures Valid()
      ensures State() == old(State()).(promised := old(promised)[sid := hid])
    {
      promised := promised[sid := hid];
    }

    method RemoveInFlightMessage(sid: StreamId)
      requires Valid()
      modifies this
      ensures Valid()
      ensures State() == old(State()).(inFlight := old(inFlight) - {sid})
    {
      inFlight := inFlight - {sid};
    }

    method RemovePromisedMessage(sid: StreamId)
      requires Valid()
      modifies this
      ensures Valid()
      ensures State() == old(State()).(promised := old(promised) - {sid})
    {
      promised := promised - {sid};
    }

    /** Replaces holder `hid` by its updated value (the holder's own setters). */
    method UpdateHolder(hid: HolderId, h: OutboundMsgHolder)
      requires Valid() && hid in holders
      modifies this
      ensures Valid()
      ensures State() == old(State()).(holders := old(holders)[hid := h])
    {
      holders := holders[hid := h];
    }

    /** Records a call to a listener. */
    method CallListener(call: ListenerCall)
      requires Valid()
      modifies this
      ensures Valid()
      ensures State() == old(State()).(log := old(listenerLog) + [call])
    {
      listenerLog := listenerLog + [call];
    }

    method Destroy()
      modifies this
      ensures State() == old(State()).(destroyed := true)
    {
      destroyed := true;
    }
  }

  /** Listens to the HTTP/2 events of one client connection and assembles the
      responses of the exchanges running on it. */
  class ClientInboundHandler {
    var channel: Http2ClientChannel
    const conv: Conversions

    constructor (channel: Http2ClientChannel, conv: Conversions)
      ensures this.channel == channel && this.conv == conv
    {
      this.channel := channel;
      this.conv := conv;
    }

    method SetHttp2ClientChannel(channel: Http2ClientChannel)
      modifies this
      ensures this.channel == channel
    {
      this.channel := channel;
    }

    /** Asks the data-event listeners in order; stops at the first that answers false. */
    method ConsultListeners(ev: ListenerEvent, ask: nat -> bool) returns (proceed: bool)
      requires channel.Valid()
      modifies channel
      ensures channel.Valid()
      ensures var consult := Consult(old(channel.dataEventListeners), ev, ask);
        channel.State() == old(channel.State()).(log := old(channel.listenerLog) + consult.calls)
        && proceed == consult.proceed
    {
      var listeners := channel.dataEventListeners;
      for i := 0 to |listeners|
        invariant channel.Valid()
        invariant channel.State() == old(channel.State()).(log := old(channel.listenerLog) + Calls(listeners, ev, i))
        invariant forall j :: 0 <= j < i ==> ask(j)
      {
        channel.CallListener(ListenerCall(listeners[i], ev));
        assert Calls(listeners, ev, i) + [ListenerCall(listeners[i], ev)] == Calls(listeners, ev, i + 1);
        if !ask(i) {
          assert FirstVeto(ask, 0, |listeners|) == i;
          return false;
        }
      }
      return true;
    }

    /** Tells every listener, without veto, that stream `sid` started. */
    method InitStreamOnListeners(sid: StreamId)
      requires channel.Valid()
      modifies channel
      ensures channel.Valid()
      ensures channel.State() == old(channel.State()).(log := old(channel.listenerLog)
                                   + Calls(old(channel.dataEventListeners), StreamInit(sid), |old(channel.dataEventListeners)|))
    {
      var listeners := channel.dataEventListeners;
      for i := 0 to |listeners|
        invariant channel.Valid()
        invariant channel.State() == old(channel.State()).(log := old(channel.listenerLog) + Calls(listeners, StreamInit(sid), i))
      {
        channel.CallListener(ListenerCall(listeners[i], StreamInit(sid)));
        assert Calls(listeners, StreamInit(sid), i) + [ListenerCall(listeners[i], StreamInit(sid))]
            == Calls(listeners, StreamInit(sid), i + 1);
      }
    }

    method OnDataRead(sid: StreamId, data: Bytes, padding: int, endOfStream: bool, ask: nat -> bool)
      returns (r: Outcome<int>)
      requires channel.Valid()
      modifies channel
      ensures channel.Valid()
      ensures (channel.State(), r) == DataReadStep(old(channel.State()), sid, data, padding, endOfStream, ask)
    {
      ghost var c := channel.State();
      var proceed := ConsultListeners(DataFrame(sid, endOfStream), ask);
      if !proceed {
        return Returned(|data| + padding);
      }
      var holder := channel.GetInFlightMessage(sid);
      var isServerPush := false;
      if holder.None? {
        holder := channel.GetPromisedMessage(sid);
        if holder.Some? {
          isServerPush := true;
        } else {
          return Returned(0);
        }
      }
      assert Lookup(c, sid) == Some(Route(holder.value, isServerPush));
      var hid := holder.value;
      var h := channel.holders[hid];
      var responseMessage := ResponseOf(h, sid, isServerPush);
      if responseMessage.None? {
        return Threw(MissingResponse(sid));
      }
      if isServerPush {
        if endOfStream {
          channel.UpdateHolder(hid, WithResponse(h, sid, true, AddContent(responseMessage.value, LastContent(data, []))));
          channel.RemovePromisedMessage(sid);
        } else {
          channel.UpdateHolder(hid, WithResponse(h, sid, true, AddContent(responseMessage.value, Content(data))));
        }
      } else {
        if endOfStream {
          channel.UpdateHolder(hid, WithResponse(h, sid, false, AddContent(responseMessage.value, LastContent(data, []))));
          channel.RemoveInFlightMessage(sid);
        } else {
          channel.UpdateHolder(hid, WithResponse(h, sid, false, AddContent(responseMessage.value, Content(data))));
        }
      }
      return Returned(|data| + padding);
    }

    /** The overload that also carries priority information, which is ignored. */
    method OnHeadersReadWithPriority(sid: StreamId, headers: Http2Headers, streamDependency: int, weight: int,
                                     exclusive: bool, padding: int, endStream: bool, ask: nat -> bool)
      requires channel.Valid()
      modifies channel
      ensures channel.Valid()
      ensures channel.State() == HeadersReadStep(old(channel.State()), conv, sid, headers, endStream, ask)
    {
      OnHeadersRead(sid, headers, padding, endStream, ask);
    }

    method OnHeadersRead(sid: StreamId, headers: Http2Headers, padding: int, endStream: bool, ask: nat -> bool)
      requires channel.Valid()
      modifies channel
      ensures channel.Valid()
      ensures channel.State() == HeadersReadStep(old(channel.State()), conv, sid, headers, endStream, ask)
    {
      ghost var c := channel.State();
      var proceed := ConsultListeners(HeadersFrame(sid, endStream), ask);
      if !proceed {
        return;
      }
      var holder := channel.GetInFlightMessage(sid);
      var isServerPush := false;
      if holder.None? {
        holder := channel.GetPromisedMessage(sid);
        if holder.Some? {
          isServerPush := true;
        } else {
          return;
        }
      }
      var route := Route(holder.value, isServerPush);
      assert Lookup(c, sid) == Some(route);
      var hid := holder.value;
      var h := channel.holders[hid];
      var responseMessage: Response;
      if ResponseOf(h, sid, isServerPush).None? {
        var setup := SetupResponse(conv, sid, headers);
        responseMessage := setup.0;
        channel.UpdateHolder(hid, WithResponse(h.(futureErrors := h.futureErrors + setup.1), sid, isServerPush, responseMessage));
      } else {
        responseMessage := ResponseOf(h, sid, isServerPush).value;
      }
      assert GetOrSetupResponse(conv, h, sid, headers, isServerPush) == (responseMessage, channel.holders[hid]);
      assert channel.State() == c.(log := channel.listenerLog, holders := c.holders[hid := channel.holders[hid]]);
      if endStream {
        OnTrailersRead(sid, headers, route, responseMessage);
      }
    }

    /** Reads a header block as trailers: appends one empty last chunk carrying
        them to `responseMessage`, whose holder is `route`'s. */
    method OnTrailersRead(sid: StreamId, headers: Http2Headers, route: Route, responseMessage: Response)
      requires channel.Valid() && route.holder in channel.holders
      requires ResponseOf(channel.holders[route.holder], sid, route.isServerPush) == Some(responseMessage)
      modifies channel
      ensures channel.Valid()
      ensures channel.State() == TrailersReadStep(old(channel.State()), conv, sid, headers, route, responseMessage)
    {
      var conversion := conv.toHttpHeaders(sid, headers, true);
      var h := channel.holders[route.holder];
      if conversion.failed {
        h := Notify(h, HeaderConversionError(sid));
      }
      channel.UpdateHolder(route.holder,
        WithResponse(h, sid, route.isServerPush, AddContent(responseMessage, LastContent([], conversion.added))));
      channel.RemoveInFlightMessage(sid);
    }

    method OnRstStreamRead(sid: StreamId, errorCode: int)
      requires channel.Valid()
      modifies channel
      ensures channel.Valid()
      ensures channel.State() == RstStreamStep(old(channel.State()), sid)
    {
      var holder := channel.GetInFlightMessage(sid);
      if holder.Some? {
        channel.UpdateHolder(holder.value, Notify(channel.holders[holder.value], StreamResetByPeer(sid)));
      }
    }

    method OnPushPromiseRead(sid: StreamId, promisedSid: StreamId, headers: Http2Headers, padding: int,
                             ask: nat -> bool) returns (r: Outcome<()>)
      requires channel.Valid()
      modifies channel
      ensures channel.Valid()
      ensures (channel.State(), r) == PushPromiseStep(old(channel.State()), conv, sid, promisedSid, headers, ask)
    {
      var proceed := ConsultListeners(PushPromiseFrame(sid, false), ask);
      if !proceed {
        return Returned(());
      }
      var holder := channel.GetInFlightMessage(sid);
      if holder.None? {
        return Returned(());
      }
      var hid := holder.value;
      channel.PutPromisedMessage(promisedSid, hid);
      InitStreamOnListeners(promisedSid);
      var request := conv.toRequest(headers, sid);
      if request.None? {
        return Threw(PromisedRequestConversion(sid));
      }
      var h := channel.holders[hid];
      channel.UpdateHolder(hid, h.(promises := h.promises + [PushPromise(request.value, sid, promisedSid)]));
      return Returned(());
    }

    method OnGoAwaySent(lastStreamId: StreamId, errorCode: int, debugData: Bytes)
      modifies channel
      ensures channel.State() == GoAwayStep(old(channel.State()))
    {
      channel.Destroy();
    }

    method OnGoAwayReceived(lastStreamId: StreamId, errorCode: int, debugData: Bytes)
      modifies channel
      ensures channel.State() == GoAwayStep(old(channel.State()))
    {
      channel.Destroy();
    }
  }
}
